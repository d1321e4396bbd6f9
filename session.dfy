/**
 * One `get_and_upload_data` of pump_connector/pump_connector.py as functions of the driver
 * oracle: the data path `_get_and_upload_data`, the ladder around it, the outer `finally`
 * of `_start_communication` and the epilogue of lines 31-37.
 */
module Session {
  import opened Wrappers
  import opened PumpData
  import opened History
  import opened Alarms
  import opened Trace
  import opened Ladder

  /**
   * The calls of `_get_and_upload_data` (lines 96-127); `marker` is `_set_change_timestamp`
   * before it. The path stops at the first of its three driver calls that raises.
   */
  function DataCalls(d: Driver, now: int, marker: Option<int>): seq<Call>
  {
    var m := d.measurement;
    if GetPumpMeasurement in d.raises then [DriverCall(GetPumpMeasurement)]
    else if GetPumpHistory in d.raises then [DriverCall(GetPumpMeasurement)] + StateCalls(m) + [DriverCall(GetPumpHistory)]
    else if ProcessPumpHistory in d.raises then
      [DriverCall(GetPumpMeasurement)] + StateCalls(m) + [DriverCall(GetPumpHistory)] + [DriverCall(ProcessPumpHistory)]
    else
      [DriverCall(GetPumpMeasurement)] + StateCalls(m) + [DriverCall(GetPumpHistory)] + [DriverCall(ProcessPumpHistory)]
        + SetChangeCalls(LastSetChange(d.events, marker)) + AlarmCalls(m, AlarmDict(d.events, now))
  }

  /** Every call of the data path is a data call or a sink update: never a release or a USB reset. */
  lemma DataCallsKeepDevice(d: Driver, now: int, marker: Option<int>)
    ensures KeepsDevice(DataCalls(d, now, marker))
  {
    StateCallsAreSinkUpdates(d.measurement);
    AlarmCallsAreEvents(d.measurement, AlarmDict(d.events, now));
  }

  /** The calls of the whole ladder of one session. */
  function SessionLadder(d: Driver, now: int, marker: Option<int>): seq<Call>
  {
    LadderCalls(d.raises, DataCalls(d, now, marker), 0)
  }

  /** Lines 119-122: the measurement's time when it is valid, otherwise now. */
  function DataTimestamp(d: Driver, now: int): int
    requires WellFormed(d)
  {
    if DataIsValid(d.measurement) then d.measurement.timestamp.value else now
  }

  /** `_connection_timestamp` after the ladder from step `s`, given its value `ts` before. */
  function LadderTimestamp(d: Driver, now: int, ts: int, s: nat): int
    requires s <= DataLevel && WellFormed(d)
  {
    if CatchRuns(d.raises, s) then now
    else if DataReached(d.raises, s) then DataTimestamp(d, now)
    else ts
  }

  /** `_set_change_timestamp` after the ladder from step `s`. */
  function LadderMarker(d: Driver, marker: Option<int>, s: nat): Option<int>
    requires s <= DataLevel
  {
    if DataReached(d.raises, s) then LastSetChange(d.events, marker) else marker
  }

  /**
   * Past an acquisition step other than `negotiateChannel`, the state the ladder leaves is
   * the state before it if the call raised, and what the rest of the ladder leaves otherwise.
   */
  lemma LadderStateStep(d: Driver, now: int, ts: int, marker: Option<int>, s: nat)
    requires WellFormed(d) && s < DataLevel && s != CatchLevel
    ensures LadderTimestamp(d, now, ts, s) == if Acquisition[s] in d.raises then ts else LadderTimestamp(d, now, ts, s + 1)
    ensures LadderMarker(d, marker, s) == if Acquisition[s] in d.raises then marker else LadderMarker(d, marker, s + 1)
    ensures DataReached(d.raises, s) <==> Acquisition[s] !in d.raises && DataReached(d.raises, s + 1)
  {
  }

  /**
   * At `negotiateChannel` the handler of lines 80-83 takes over: whatever raises from there
   * on leaves the connection time at now.
   */
  lemma LadderCatchStep(d: Driver, now: int, ts: int, marker: Option<int>)
    requires WellFormed(d)
    ensures LadderTimestamp(d, now, ts, CatchLevel)
      == if LadderOutcome(d.raises, CatchLevel).Raised? then now else LadderTimestamp(d, now, ts, CatchLevel + 1)
    ensures LadderMarker(d, marker, CatchLevel)
      == if Acquisition[CatchLevel] in d.raises then marker else LadderMarker(d, marker, CatchLevel + 1)
    ensures DataReached(d.raises, CatchLevel) <==> Acquisition[CatchLevel] !in d.raises && DataReached(d.raises, CatchLevel + 1)
  {
  }

  /** The outer `finally` of lines 46-54. */
  function OuterCalls(d: Driver): seq<Call>
  {
    if d.deviceMissing then [UpdateStatus(DriverFailText), UsbReset] else [DriverCall(CloseDevice)]
  }

  /** The calls of `_start_communication`. */
  function StartCalls(d: Driver, now: int, marker: Option<int>): seq<Call>
  {
    SessionLadder(d, now, marker) + OuterCalls(d)
  }

  /** The `return` of line 52 discards any pending exception; `closeDevice` may raise its own. */
  function StartOutcome(d: Driver): Outcome
  {
    if d.deviceMissing then Returned
    else if CloseDevice in d.raises then Raised(CloseDevice)
    else LadderOutcome(d.raises, 0)
  }

  /** `_connection_timestamp` after `_start_communication`. */
  function StartTimestamp(d: Driver, now: int, ts: int): int
    requires WellFormed(d)
  {
    if d.deviceMissing then now else LadderTimestamp(d, now, ts, 0)
  }

  /** `get_and_upload_data` lets whatever escapes `_start_communication` escape. */
  function SessionOutcome(d: Driver): Outcome
  {
    StartOutcome(d)
  }

  /** `_connection_timestamp` after `get_and_upload_data`: lines 31-36 run only when `_start_communication` returns. */
  function SessionTimestamp(d: Driver, now: int, ts: int): int
    requires WellFormed(d)
  {
    if StartOutcome(d).Returned? && !DataReached(d.raises, 0) then now else StartTimestamp(d, now, ts)
  }

  /** Lines 31-36. */
  function EpilogueCalls(connected: bool, ts: int): seq<Call>
  {
    (if connected then [] else [UpdateStatus(NotConnectedText)] + ResetAllCalls()) + [UpdateTimestamp(ts)]
  }

  /** What `get_and_upload_data` does after `_start_communication`: nothing if it raised. */
  function ClosingCalls(d: Driver, now: int, ts: int): seq<Call>
    requires WellFormed(d)
  {
    if StartOutcome(d).Raised? then [] else EpilogueCalls(DataReached(d.raises, 0), SessionTimestamp(d, now, ts))
  }

  /** Every call of one `get_and_upload_data`. */
  function SessionCalls(d: Driver, now: int, ts: int, marker: Option<int>): seq<Call>
    requires WellFormed(d)
  {
    StartCalls(d, now, marker) + ClosingCalls(d, now, ts)
  }

  /** The epilogue never touches the device. */
  lemma ClosingKeepsDevice(d: Driver, now: int, ts: int)
    requires WellFormed(d)
    ensures DriverCall(CloseDevice) !in ClosingCalls(d, now, ts) && UsbReset !in ClosingCalls(d, now, ts)
  {
  }

  /** The ladder never closes the device or resets the USB bus. */
  lemma SessionLadderKeepsDevice(d: Driver, now: int, marker: Option<int>)
    ensures DriverCall(CloseDevice) !in SessionLadder(d, now, marker) && UsbReset !in SessionLadder(d, now, marker)
  {
    DataCallsKeepDevice(d, now, marker);
    LadderKeepsDevice(d.raises, DataCalls(d, now, marker), 0);
  }

  /** The calls of `_start_communication` after a prefix, grouped as they are issued. */
  lemma StartCallsAfter(d: Driver, now: int, marker: Option<int>, before: seq<Call>)
    ensures d.deviceMissing ==>
      before + StartCalls(d, now, marker) == before + SessionLadder(d, now, marker) + [UpdateStatus(DriverFailText)] + [UsbReset]
    ensures !d.deviceMissing ==>
      before + StartCalls(d, now, marker) == before + SessionLadder(d, now, marker) + [DriverCall(CloseDevice)]
  {
    var l := SessionLadder(d, now, marker);
    AppendAssoc(before, l, OuterCalls(d));
    if d.deviceMissing {
      assert OuterCalls(d) == [UpdateStatus(DriverFailText)] + [UsbReset];
      AppendAssoc(before + l, [UpdateStatus(DriverFailText)], [UsbReset]);
    }
  }

  /**
   * The calls of `get_and_upload_data` after a prefix, grouped as they are issued: `start`
   * is the prefix followed by the calls of `_start_communication`.
   */
  lemma SessionCallsAfter(d: Driver, now: int, ts: int, marker: Option<int>, before: seq<Call>, start: seq<Call>)
    requires WellFormed(d) && start == before + StartCalls(d, now, marker)
    ensures StartOutcome(d).Raised? ==> before + SessionCalls(d, now, ts, marker) == start
    ensures StartOutcome(d).Returned? && DataReached(d.raises, 0) ==>
      before + SessionCalls(d, now, ts, marker) == start + [UpdateTimestamp(SessionTimestamp(d, now, ts))]
    ensures StartOutcome(d).Returned? && !DataReached(d.raises, 0) ==>
      before + SessionCalls(d, now, ts, marker)
        == start + [UpdateStatus(NotConnectedText)] + ResetAllCalls() + [UpdateTimestamp(SessionTimestamp(d, now, ts))]
  {
    var u := [UpdateTimestamp(SessionTimestamp(d, now, ts))];
    AppendAssoc(before, StartCalls(d, now, marker), ClosingCalls(d, now, ts));
    if StartOutcome(d).Returned? && !DataReached(d.raises, 0) {
      var n := [UpdateStatus(NotConnectedText)];
      AppendAssoc(start, n + ResetAllCalls(), u);
      AppendAssoc(start, n, ResetAllCalls());
    }
  }

  /**
   * Driver-fail path (lines 47-52): the status says "Driver fail." right before exactly one
   * USB reset, the device is never closed, any exception is discarded and the connection
   * timestamp becomes now.
   */
  lemma DriverFailPath(d: Driver, now: int, ts: int, marker: Option<int>) returns (k: nat)
    requires d.deviceMissing && WellFormed(d)
    ensures SessionOutcome(d) == Returned
    ensures SessionTimestamp(d, now, ts) == now
    ensures k + 1 < |SessionCalls(d, now, ts, marker)|
    ensures SessionCalls(d, now, ts, marker)[k] == UpdateStatus(DriverFailText)
    ensures SessionCalls(d, now, ts, marker)[k + 1] == UsbReset
    ensures multiset(SessionCalls(d, now, ts, marker))[UsbReset] == 1
    ensures DriverCall(CloseDevice) !in SessionCalls(d, now, ts, marker)
  {
    var L := SessionLadder(d, now, marker);
    var E := ClosingCalls(d, now, ts);
    SessionLadderKeepsDevice(d, now, marker);
    ClosingKeepsDevice(d, now, ts);
    var M := OuterCalls(d);
    var S := SessionCalls(d, now, ts, marker);
    assert S == L + M + E;
    OnlyInMiddle(S, L, M, E, UsbReset);
    OnlyInMiddle(S, L, M, E, DriverCall(CloseDevice));
    k := |L|;
  }

  /**
   * Otherwise (line 54) `closeDevice` is issued exactly once, as the last call of
   * `_start_communication`, and no USB reset happens.
   */
  lemma DevicePresentPath(d: Driver, now: int, ts: int, marker: Option<int>)
    requires !d.deviceMissing && WellFormed(d)
    ensures StartCalls(d, now, marker)[|StartCalls(d, now, marker)| - 1] == DriverCall(CloseDevice)
    ensures multiset(SessionCalls(d, now, ts, marker))[DriverCall(CloseDevice)] == 1
    ensures UsbReset !in SessionCalls(d, now, ts, marker)
  {
    var L := SessionLadder(d, now, marker);
    var E := ClosingCalls(d, now, ts);
    SessionLadderKeepsDevice(d, now, marker);
    ClosingKeepsDevice(d, now, ts);
    var M := OuterCalls(d);
    var S := SessionCalls(d, now, ts, marker);
    assert S == L + M + E;
    OnlyInMiddle(S, L, M, E, UsbReset);
    OnlyInMiddle(S, L, M, E, DriverCall(CloseDevice));
  }

  /** In `c == a + m + b`, only the middle part counts a value that the outer parts do not contain. */
  lemma OnlyInMiddle<T>(c: seq<T>, a: seq<T>, m: seq<T>, b: seq<T>, x: T)
    requires c == a + m + b
    requires x !in a && x !in b
    ensures multiset(c)[x] == multiset(m)[x]
    ensures x in c <==> x in m
  {
    assert multiset(c) == multiset(a) + multiset(m) + multiset(b);
    assert x !in multiset(a) && x !in multiset(b);
  }

  /**
   * A session raises exactly when the device is present and `closeDevice`, an acquisition
   * before `negotiateChannel`, or the release of an entered scope above the handler raises;
   * the exception that escapes is one the driver raised and not one line 80 absorbs.
   */
  lemma EscapingFailures(d: Driver)
    ensures SessionOutcome(d).Raised? ==> SessionOutcome(d).op in d.raises && !Absorbable(SessionOutcome(d).op)
    ensures SessionOutcome(d).Raised? <==>
      var f := FirstFailure(d.raises, 0);
      !d.deviceMissing &&
        (CloseDevice in d.raises || f < CatchLevel
          || (1 <= f && ExitControlMode in d.raises)
          || (3 <= f && ExitPassthroughMode in d.raises)
          || (4 <= f && CloseConnection in d.raises))
  {
    UpperLadderOutcome(d.raises, 0);
  }

  /**
   * After a session that returns, the last call uploads the connection timestamp, which is
   * the measurement's own time exactly when the device was present, the data path completed
   * with valid data and the handler of line 80 did not run; otherwise it is now.
   */
  lemma UploadedTimestamp(d: Driver, now: int, ts: int, marker: Option<int>)
    requires WellFormed(d) && SessionOutcome(d) == Returned
    ensures SessionTimestamp(d, now, ts)
      == if !d.deviceMissing && DataReached(d.raises, 0) && !CatchRuns(d.raises, 0) && DataIsValid(d.measurement)
         then d.measurement.timestamp.value else now
    ensures var c := SessionCalls(d, now, ts, marker); c[|c| - 1] == UpdateTimestamp(SessionTimestamp(d, now, ts))
  {
  }

  /**
   * Absorbed failures (lines 27-36, 72-85): when nothing above the handler raises, the
   * session returns; if the data path did not complete it then reports "Not connected.",
   * blanks every sensor and uploads now as the connection time.
   */
  lemma AbsorbedFailuresReturn(d: Driver, now: int, ts: int, marker: Option<int>)
    requires WellFormed(d) && !d.deviceMissing
    requires FirstFailure(d.raises, 0) >= CatchLevel
    requires CloseDevice !in d.raises && ExitControlMode !in d.raises
    requires ExitPassthroughMode !in d.raises && CloseConnection !in d.raises
    ensures SessionOutcome(d) == Returned
    ensures !DataReached(d.raises, 0) ==>
      SessionCalls(d, now, ts, marker)
        == StartCalls(d, now, marker) + [UpdateStatus(NotConnectedText)] + ResetAllCalls() + [UpdateTimestamp(now)]
  {
    EscapingFailures(d);
  }

  /** The dictionary entry a present key was found in. */
  lemma {:induction false} LookupIndex(dict: Dict, id: string) returns (k: nat)
    requires Lookup(dict, id).Some?
    ensures k < |dict| && dict[k].event == Lookup(dict, id).value
  {
    if dict[0].id == id {
      k := 0;
    } else {
      var k' := LookupIndex(dict[1..], id);
      k := k' + 1;
    }
  }

  /** The calls of the data path after a prefix, grouped as they are issued. */
  lemma DataCallsAfter(d: Driver, now: int, marker: Option<int>, before: seq<Call>)
    ensures before + DataCalls(d, now, marker)
      == if GetPumpMeasurement in d.raises then before + [DriverCall(GetPumpMeasurement)]
         else if GetPumpHistory in d.raises then
           before + [DriverCall(GetPumpMeasurement)] + StateCalls(d.measurement) + [DriverCall(GetPumpHistory)]
         else if ProcessPumpHistory in d.raises then
           before + [DriverCall(GetPumpMeasurement)] + StateCalls(d.measurement) + [DriverCall(GetPumpHistory)]
             + [DriverCall(ProcessPumpHistory)]
         else
           before + [DriverCall(GetPumpMeasurement)] + StateCalls(d.measurement) + [DriverCall(GetPumpHistory)]
             + [DriverCall(ProcessPumpHistory)]
             + SetChangeCalls(LastSetChange(d.events, marker)) + AlarmCalls(d.measurement, AlarmDict(d.events, now))
  {
    var a, st, h, p := [DriverCall(GetPumpMeasurement)], StateCalls(d.measurement), [DriverCall(GetPumpHistory)], [DriverCall(ProcessPumpHistory)];
    var c, al := SetChangeCalls(LastSetChange(d.events, marker)), AlarmCalls(d.measurement, AlarmDict(d.events, now));
    AppendAssoc(before, a, st);
    AppendAssoc(before, a + st, h);
    AppendAssoc(before, a + st + h, p);
    AppendAssoc(before, a + st + h + p, c);
    AppendAssoc(before, a + st + h + p + c, al);
  }

  /**
   * When the data path completes, it reports each alarm that stands in the history under
   * some id, carrying the measurement's glucose value and trend and the alarm's time.
   */
  lemma DataPathReportsStandingAlarms(d: Driver, now: int, marker: Option<int>, id: string)
    requires DataFailure(d.raises) == Returned
    requires Standing(d.events, now, id).Some?
    ensures UpdateEvent(AlarmMessage(d.measurement.bglValue, d.measurement.trend, Standing(d.events, now, id).value.timestamp))
        in DataCalls(d, now, marker)
  {
    var m := d.measurement;
    var alarms := AlarmDict(d.events, now);
    AlarmDictMatchesReference(d.events, now);
    var k := LookupIndex(alarms, id);
    AlarmMessagesInDictOrder(m, alarms);
    var A := AlarmCalls(m, alarms);
    assert A[2 * k] in A;
  }

  /**
   * Conversely, every alarm message a completed data path sends is that of an alarm standing
   * in the history under some id, with the measurement's glucose value and trend and the
   * alarm's time.
   */
  lemma DataPathShowsOnlyStandingAlarms(d: Driver, now: int, marker: Option<int>, msg: EventMessage) returns (id: string)
    requires DataFailure(d.raises) == Returned
    requires msg.AlarmMessage? && UpdateEvent(msg) in DataCalls(d, now, marker)
    ensures Standing(d.events, now, id).Some?
    ensures msg == AlarmMessage(d.measurement.bglValue, d.measurement.trend, Standing(d.events, now, id).value.timestamp)
  {
    var m := d.measurement;
    var alarms := AlarmDict(d.events, now);
    AlarmMessageIsFromDict(d, now, marker, msg);
    var k := AlarmMessageEntry(m, alarms, msg);
    AlarmDictMatchesReference(d.events, now);
    LookupAtIndex(alarms, k);
    id := alarms[k].id;
  }

  /** An alarm message of the data path is one of the messages for the alarm dictionary. */
  lemma AlarmMessageIsFromDict(d: Driver, now: int, marker: Option<int>, msg: EventMessage)
    requires DataFailure(d.raises) == Returned
    requires msg.AlarmMessage? && UpdateEvent(msg) in DataCalls(d, now, marker)
    ensures UpdateEvent(msg) in AlarmMessages(d.measurement, AlarmDict(d.events, now))
  {
    StateCallsAreSinkUpdates(d.measurement);
  }

  /** When the data path completes without any alarm standing, it shows no alarm message. */
  lemma DataPathWithoutAlarms(d: Driver, now: int, marker: Option<int>, msg: EventMessage)
    requires DataFailure(d.raises) == Returned
    requires forall id :: Standing(d.events, now, id).None?
    requires msg.AlarmMessage?
    ensures UpdateEvent(msg) !in DataCalls(d, now, marker)
  {
    AlarmDictEmptyIffNothingStands(d.events, now);
    StateCallsAreSinkUpdates(d.measurement);
  }

  /**
   * When the data path completes, it sends the set-change marker exactly when one is known
   * after this history, whether from this history or from an earlier session.
   */
  lemma DataPathReportsSetChange(d: Driver, now: int, marker: Option<int>, at: int)
    requires DataFailure(d.raises) == Returned
    ensures UpdateLatestSetChange(at) in DataCalls(d, now, marker) <==> LastSetChange(d.events, marker) == Some(at)
  {
    AlarmCallsAreEvents(d.measurement, AlarmDict(d.events, now));
    StateCallsAreSinkUpdates(d.measurement);
  }
}
