/**
 * What the connector does to the outside world, as entries of a trace: calls into the
 * pump driver, updates pushed to the Home Assistant sink, sleeps and the USB reset.
 * Also the sink updates that measurement handling in pump_connector/pump_connector.py
 * produces (`_update_states`, `reset_all_states`, the alarm messages).
 */
module Trace {
  import opened Wrappers
  import opened PumpData
  import opened History
  import opened Alarms

  /** The driver calls the connector issues, acquisitions and releases alike. */
  datatype DriverOp =
    | OpenDevice | GetDeviceInfo | EnterControlMode | EnterPassthroughMode
    | OpenConnection | ReadInfo | ReadLinkKey | NegotiateChannel | BeginEHSM | GetPumpTime
    | GetPumpMeasurement | GetPumpHistory | ProcessPumpHistory
    | FinishEHSM | CloseConnection | ExitPassthroughMode | ExitControlMode | CloseDevice

  /** The seven measurement sensors of the sink. */
  datatype Metric =
    | Bgl | Trend | ActiveInsulin | CurrentBasalRate | TempBasalRatePercentage
    | PumpBatteryLevel | InsulinUnitsRemaining

  /** A sensor state: an integer, a float or a text; `""` blanks the sensor. */
  datatype SinkValue = IntValue(i: int) | RealValue(r: real) | TextValue(t: string)

  const Blank: SinkValue := TextValue("")

  /**
   * The event sensor's text: `""` or the alarm message
   * `BGL: <bgl>, <trend> (<alarm time>)`; the date formatting is not modelled.
   */
  datatype EventMessage = NoMessage | AlarmMessage(bgl: int, trend: string, at: int)

  /** One trace entry. Time stamps are integer seconds; `strftime` formatting is not modelled. */
  datatype Call =
    | DriverCall(op: DriverOp)
    | UpdateStatus(text: string)
    | UpdateMetric(metric: Metric, value: SinkValue)
    | UpdateEvent(message: EventMessage)
    | UpdateLatestSetChange(at: int)
    | UpdateTimestamp(at: int)
    | Sleep(seconds: int)
    | UsbReset

  /**
   * The pump driver of one session as an oracle: whether `device` is None once
   * `openDevice` has run, which calls raise, the measurement `getPumpMeasurement`
   * returns and the events `processPumpHistory` returns.
   */
  datatype Driver = Driver(
    deviceMissing: bool,
    raises: set<DriverOp>,
    measurement: MedtronicMeasurementData,
    events: seq<HistoryEvent>)

  /** A valid measurement carries a timestamp; the connector stores it as the connection time. */
  predicate WellFormed(d: Driver)
  {
    DataIsValid(d.measurement) ==> d.measurement.timestamp.Some?
  }

  /** How a Python call ends: it returns, or an exception raised by a driver call escapes it. */
  datatype Outcome = Returned | Raised(op: DriverOp)

  const ConnectedText: string := "Connected."
  const InvalidDataText: string := "Invalid data."
  const NotConnectedText: string := "Not connected."
  const DriverFailText: string := "Driver fail."

  /** Reference: the value of a measurement field that each sensor shows. */
  function MetricValue(m: MedtronicMeasurementData, metric: Metric): SinkValue
  {
    match metric
    case Bgl => IntValue(m.bglValue)
    case Trend => TextValue(m.trend)
    case ActiveInsulin => RealValue(m.activeInsulin)
    case CurrentBasalRate => RealValue(m.currentBasalRate)
    case TempBasalRatePercentage => IntValue(m.temporaryBasalPercentage)
    case PumpBatteryLevel => IntValue(m.batteryLevel)
    case InsulinUnitsRemaining => IntValue(m.insulinUnitsRemaining)
  }

  /** The sensors in the order lines 199-205 and 211-217 update them. */
  const Sensors: seq<Metric> :=
    [Bgl, Trend, ActiveInsulin, CurrentBasalRate, TempBasalRatePercentage, PumpBatteryLevel, InsulinUnitsRemaining]

  /** Every sensor appears exactly once in that order. */
  lemma SensorsListEveryMetricOnce(metric: Metric)
    ensures multiset(Sensors)[metric] == 1
  {
    match metric
    case Bgl =>
    case Trend =>
    case ActiveInsulin =>
    case CurrentBasalRate =>
    case TempBasalRatePercentage =>
    case PumpBatteryLevel =>
    case InsulinUnitsRemaining =>
  }

  /** `reset_all_states`. */
  function ResetAllCalls(): seq<Call>
  {
    [UpdateMetric(Bgl, Blank), UpdateMetric(Trend, Blank), UpdateMetric(ActiveInsulin, Blank),
     UpdateMetric(CurrentBasalRate, Blank), UpdateMetric(TempBasalRatePercentage, Blank),
     UpdateMetric(PumpBatteryLevel, Blank), UpdateMetric(InsulinUnitsRemaining, Blank),
     UpdateEvent(NoMessage)]
  }

  /** `reset_all_states` blanks the seven sensors in order, then resets the event sensor: eight updates. */
  lemma ResetAllBlanksEverySensor()
    ensures |ResetAllCalls()| == 8 && ResetAllCalls()[7] == UpdateEvent(NoMessage)
    ensures forall k :: 0 <= k < 7 ==> ResetAllCalls()[k] == UpdateMetric(Sensors[k], Blank)
  {
  }

  /** Lines 199-205. */
  function MetricCalls(m: MedtronicMeasurementData): seq<Call>
  {
    [UpdateMetric(Bgl, IntValue(m.bglValue)),
     UpdateMetric(Trend, TextValue(m.trend)),
     UpdateMetric(ActiveInsulin, RealValue(m.activeInsulin)),
     UpdateMetric(CurrentBasalRate, RealValue(m.currentBasalRate)),
     UpdateMetric(TempBasalRatePercentage, IntValue(m.temporaryBasalPercentage)),
     UpdateMetric(PumpBatteryLevel, IntValue(m.batteryLevel)),
     UpdateMetric(InsulinUnitsRemaining, IntValue(m.insulinUnitsRemaining))]
  }

  /** Valid data updates the seven sensors in order, each with its own field of the measurement. */
  lemma MetricCallsShowMeasurement(m: MedtronicMeasurementData)
    ensures |MetricCalls(m)| == 7
    ensures forall k :: 0 <= k < 7 ==> MetricCalls(m)[k] == UpdateMetric(Sensors[k], MetricValue(m, Sensors[k]))
  {
  }

  /** `_update_states`. */
  function StateCalls(m: MedtronicMeasurementData): seq<Call>
  {
    if DataIsValid(m) then [UpdateStatus(ConnectedText)] + MetricCalls(m)
    else [UpdateStatus(InvalidDataText)] + ResetAllCalls()
  }

  /**
   * `_update_states`: valid data is announced as "Connected." and shown; anything else is
   * announced as "Invalid data." and every sensor is blanked.
   */
  lemma StateCallsAnnounceValidity(m: MedtronicMeasurementData)
    ensures |StateCalls(m)| >= 1
    ensures StateCalls(m)[0] == UpdateStatus(if m.status == Valid then ConnectedText else InvalidDataText)
    ensures m.status == Valid ==> StateCalls(m)[1..] == MetricCalls(m)
    ensures m.status != Valid ==> StateCalls(m)[1..] == ResetAllCalls()
  {
    var tail := if DataIsValid(m) then MetricCalls(m) else ResetAllCalls();
    assert StateCalls(m) == [StateCalls(m)[0]] + tail;
  }

  /** `_update_states` only updates the status, the sensors and the reset of the event sensor. */
  lemma StateCallsAreSinkUpdates(m: MedtronicMeasurementData)
    ensures forall c | c in StateCalls(m) :: c.UpdateStatus? || c.UpdateMetric? || c == UpdateEvent(NoMessage)
  {
  }

  /** The message and the one-second pause for each alarm of the dictionary, in dictionary order. */
  function AlarmMessages(m: MedtronicMeasurementData, alarms: Dict): seq<Call>
  {
    if alarms == [] then []
    else
      var n := |alarms| - 1;
      AlarmMessages(m, alarms[..n])
        + [UpdateEvent(AlarmMessage(m.bglValue, m.trend, alarms[n].event.timestamp)), Sleep(1)]
  }

  /**
   * Lines 112-117 in closed form: entry `k` of the dictionary yields, at positions `2k` and
   * `2k + 1`, its message with the measurement's glucose value and trend and the alarm's
   * time, then a one-second sleep.
   */
  lemma {:induction false} AlarmMessagesInDictOrder(m: MedtronicMeasurementData, alarms: Dict)
    ensures |AlarmMessages(m, alarms)| == 2 * |alarms|
    ensures forall k :: 0 <= k < |alarms| ==>
      AlarmMessages(m, alarms)[2 * k] == UpdateEvent(AlarmMessage(m.bglValue, m.trend, alarms[k].event.timestamp))
        && AlarmMessages(m, alarms)[2 * k + 1] == Sleep(1)
  {
    if alarms != [] {
      var n := |alarms| - 1;
      AlarmMessagesInDictOrder(m, alarms[..n]);
      var r := AlarmMessages(m, alarms);
      var p := AlarmMessages(m, alarms[..n]);
      assert r == p + [UpdateEvent(AlarmMessage(m.bglValue, m.trend, alarms[n].event.timestamp)), Sleep(1)];
      forall k | 0 <= k < n
        ensures r[2 * k] == UpdateEvent(AlarmMessage(m.bglValue, m.trend, alarms[k].event.timestamp))
        ensures r[2 * k + 1] == Sleep(1)
      {
        assert alarms[..n][k] == alarms[k];
      }
    }
  }

  /** Lines 109-117: an empty dictionary resets the event sensor, otherwise each alarm is shown. */
  function AlarmCalls(m: MedtronicMeasurementData, alarms: Dict): seq<Call>
  {
    if alarms == [] then [UpdateEvent(NoMessage)] else AlarmMessages(m, alarms)
  }

  /** The alarm part only updates the event sensor and sleeps one second at a time. */
  lemma {:induction false} AlarmCallsAreEvents(m: MedtronicMeasurementData, alarms: Dict)
    ensures forall c | c in AlarmCalls(m, alarms) :: c.UpdateEvent? || c == Sleep(1)
    ensures forall c | c in AlarmMessages(m, alarms) :: (c.UpdateEvent? && c.message.AlarmMessage?) || c == Sleep(1)
  {
    if alarms != [] {
      AlarmCallsAreEvents(m, alarms[..|alarms| - 1]);
    }
  }

  /** The dictionary entry an alarm message was made for. */
  lemma AlarmMessageEntry(m: MedtronicMeasurementData, alarms: Dict, msg: EventMessage) returns (k: nat)
    requires UpdateEvent(msg) in AlarmMessages(m, alarms)
    ensures k < |alarms| && msg == AlarmMessage(m.bglValue, m.trend, alarms[k].event.timestamp)
  {
    var A := AlarmMessages(m, alarms);
    var i :| 0 <= i < |A| && A[i] == UpdateEvent(msg);
    AlarmMessagesInDictOrder(m, alarms);
    k := i / 2;
    assert i == 2 * k || i == 2 * k + 1;
  }

  /** Lines 104-105: the set-change day is sent only when a marker is known. */
  function SetChangeCalls(marker: Option<int>): seq<Call>
  {
    if marker.Some? then [UpdateLatestSetChange(marker.value)] else []
  }
}
