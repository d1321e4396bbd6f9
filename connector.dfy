/**
 * The class `PumpConnector` of pump_connector/pump_connector.py. Its fields are the
 * Python object's state; `trace` records every call it makes into the pump driver and the
 * Home Assistant sink, in order. A Python exception that escapes a method is its
 * `Outcome`. Each method is proved to produce the calls, the outcome and the new state
 * that the functions of the modules Session and Ladder describe.
 */
module Connector {
  import opened Wrappers
  import opened PumpData
  import opened History
  import opened Alarms
  import opened Trace
  import opened Ladder
  import opened Session
  import opened Schedule

  class PumpConnector {
    /** `_connected_successfully`. */
    var connectedSuccessfully: bool
    /** `_connection_timestamp`, in seconds. */
    var connectionTimestamp: int
    /** `_mt is not None`: a driver object is loaded. */
    var driverLoaded: bool
    /** `_set_change_timestamp`. */
    var setChangeTimestamp: Option<int>
    /** The calls made so far. */
    var trace: seq<Call>

    /** Lines 18-24; `now` is the clock reading of line 22. */
    constructor(now: int)
      ensures !connectedSuccessfully && connectionTimestamp == now
      ensures !driverLoaded && setChangeTimestamp == None && trace == []
    {
      connectedSuccessfully := false;
      connectionTimestamp := now;
      driverLoaded := false;
      setChangeTimestamp := None;
      trace := [];
    }

    /** One call into the driver, which raises when the oracle says so. */
    method Invoke(d: Driver, op: DriverOp) returns (raised: bool)
      modifies this`trace
      ensures trace == old(trace) + [DriverCall(op)]
      ensures raised <==> op in d.raises
    {
      trace := trace + [DriverCall(op)];
      raised := op in d.raises;
    }

    /** One update sent to the sink, a sleep or the USB reset. */
    method Emit(c: Call)
      modifies this`trace
      ensures trace == old(trace) + [c]
    {
      trace := trace + [c];
    }

    /**
     * `get_and_upload_data` (lines 26-37): one session, its epilogue and the upload of the
     * connection time. The driver object is dropped unless an exception escapes.
     */
    method GetAndUploadData(d: Driver, now: int) returns (outcome: Outcome)
      requires WellFormed(d)
      modifies this
      ensures outcome == SessionOutcome(d)
      ensures trace == old(trace) + SessionCalls(d, now, old(connectionTimestamp), old(setChangeTimestamp))
      ensures connectionTimestamp == SessionTimestamp(d, now, old(connectionTimestamp))
      ensures setChangeTimestamp == LadderMarker(d, old(setChangeTimestamp), 0)
      ensures connectedSuccessfully == DataReached(d.raises, 0)
      ensures driverLoaded == outcome.Raised?
    {
      ghost var before, ts, marker := trace, connectionTimestamp, setChangeTimestamp;
      connectedSuccessfully := false;
      outcome := StartCommunication(d, now);
      ghost var start := trace;
      if outcome.Raised? {
        SessionCallsAfter(d, now, ts, marker, before, start);
        return;
      }
      if !connectedSuccessfully {
        Emit(UpdateStatus(NotConnectedText));
        ResetAllStates();
        ResetTimestampAfterFail(now);
      }
      assert connectionTimestamp == SessionTimestamp(d, now, ts);
      Emit(UpdateTimestamp(connectionTimestamp));
      driverLoaded := false;
      SessionCallsAfter(d, now, ts, marker, before, start);
    }

    /** `_start_communication` (lines 39-54). */
    method StartCommunication(d: Driver, now: int) returns (outcome: Outcome)
      requires WellFormed(d)
      modifies this
      ensures outcome == StartOutcome(d)
      ensures trace == old(trace) + StartCalls(d, now, old(setChangeTimestamp))
      ensures connectionTimestamp == StartTimestamp(d, now, old(connectionTimestamp))
      ensures setChangeTimestamp == LadderMarker(d, old(setChangeTimestamp), 0)
      ensures connectedSuccessfully == (old(connectedSuccessfully) || DataReached(d.raises, 0))
      ensures driverLoaded
    {
      LadderStateStep(d, now, connectionTimestamp, setChangeTimestamp, 0);
      ghost var data := DataCalls(d, now, setChangeTimestamp);
      ghost var before := trace;
      driverLoaded := true;
      var raised := Invoke(d, OpenDevice);
      var body: Outcome := Raised(OpenDevice);
      if !raised {
        body := EnterControlMode(d, now);
      }
      ScopeStep(d.raises, data, 0, raised, before, if raised then [] else LadderCalls(d.raises, data, 1), trace);
      StartCallsAfter(d, now, old(setChangeTimestamp), before);
      if d.deviceMissing {
        Emit(UpdateStatus(DriverFailText));
        ResetTimestampAfterFail(now);
        ResetUsbDevice();
        return Returned;
      }
      raised := Invoke(d, CloseDevice);
      outcome := if raised then Raised(CloseDevice) else body;
    }

    /** `_enter_control_mode` (lines 56-63): steps 1 and 2 of the ladder. */
    method EnterControlMode(d: Driver, now: int) returns (outcome: Outcome)
      requires WellFormed(d)
      modifies this`trace, this`connectionTimestamp, this`setChangeTimestamp, this`connectedSuccessfully
      ensures outcome == LadderOutcome(d.raises, 1)
      ensures trace == old(trace) + LadderCalls(d.raises, DataCalls(d, now, old(setChangeTimestamp)), 1)
      ensures connectionTimestamp == LadderTimestamp(d, now, old(connectionTimestamp), 1)
      ensures setChangeTimestamp == LadderMarker(d, old(setChangeTimestamp), 1)
      ensures connectedSuccessfully == (old(connectedSuccessfully) || DataReached(d.raises, 1))
    {
      LadderStateStep(d, now, connectionTimestamp, setChangeTimestamp, 1);
      LadderStateStep(d, now, connectionTimestamp, setChangeTimestamp, 2);
      ghost var data := DataCalls(d, now, setChangeTimestamp);
      ghost var before := trace;
      var raised := Invoke(d, GetDeviceInfo);
      var body: Outcome := Raised(GetDeviceInfo);
      ghost var entered, inner: seq<Call> := !raised, [];
      if !raised {
        ghost var before2 := trace;
        raised := Invoke(d, DriverOp.EnterControlMode);
        body := Raised(DriverOp.EnterControlMode);
        if !raised {
          body := EnterPassthroughMode(d, now);
        }
        ScopeStep(d.raises, data, 2, raised, before2, if raised then [] else LadderCalls(d.raises, data, 3), trace);
        inner := LadderCalls(d.raises, data, 2);
      }
      ScopeStep(d.raises, data, 1, !entered, before, inner, trace);
      raised := Invoke(d, ExitControlMode);
      outcome := if raised then Raised(ExitControlMode) else body;
    }

    /** `_enter_passthrough_mode` (lines 65-70): step 3. */
    method EnterPassthroughMode(d: Driver, now: int) returns (outcome: Outcome)
      requires WellFormed(d)
      modifies this`trace, this`connectionTimestamp, this`setChangeTimestamp, this`connectedSuccessfully
      ensures outcome == LadderOutcome(d.raises, 3)
      ensures trace == old(trace) + LadderCalls(d.raises, DataCalls(d, now, old(setChangeTimestamp)), 3)
      ensures connectionTimestamp == LadderTimestamp(d, now, old(connectionTimestamp), 3)
      ensures setChangeTimestamp == LadderMarker(d, old(setChangeTimestamp), 3)
      ensures connectedSuccessfully == (old(connectedSuccessfully) || DataReached(d.raises, 3))
    {
      LadderStateStep(d, now, connectionTimestamp, setChangeTimestamp, 3);
      ghost var data := DataCalls(d, now, setChangeTimestamp);
      ghost var before := trace;
      var raised := Invoke(d, DriverOp.EnterPassthroughMode);
      var body: Outcome := Raised(DriverOp.EnterPassthroughMode);
      if !raised {
        body := OpenConnection(d, now);
      }
      ScopeStep(d.raises, data, 3, raised, before, if raised then [] else LadderCalls(d.raises, data, 4), trace);
      raised := Invoke(d, ExitPassthroughMode);
      outcome := if raised then Raised(ExitPassthroughMode) else body;
    }

    /**
     * `_open_connection` (lines 72-85): steps 4 to 7. Whatever escapes `negotiateChannel`
     * and the high-speed mode is absorbed by the handler, which resets the timestamp.
     */
    method OpenConnection(d: Driver, now: int) returns (outcome: Outcome)
      requires WellFormed(d)
      modifies this`trace, this`connectionTimestamp, this`setChangeTimestamp, this`connectedSuccessfully
      ensures outcome == LadderOutcome(d.raises, 4)
      ensures trace == old(trace) + LadderCalls(d.raises, DataCalls(d, now, old(setChangeTimestamp)), 4)
      ensures connectionTimestamp == LadderTimestamp(d, now, old(connectionTimestamp), 4)
      ensures setChangeTimestamp == LadderMarker(d, old(setChangeTimestamp), 4)
      ensures connectedSuccessfully == (old(connectedSuccessfully) || DataReached(d.raises, 4))
    {
      LadderStateStep(d, now, connectionTimestamp, setChangeTimestamp, 4);
      LadderStateStep(d, now, connectionTimestamp, setChangeTimestamp, 5);
      LadderStateStep(d, now, connectionTimestamp, setChangeTimestamp, 6);
      ghost var data := DataCalls(d, now, setChangeTimestamp);
      ghost var before := trace;
      OpenConnectionCalls(d.raises, data, before);
      var raised := Invoke(d, DriverOp.OpenConnection);
      var body: Outcome := Raised(DriverOp.OpenConnection);
      if !raised {
        raised := Invoke(d, ReadInfo);
        body := Raised(ReadInfo);
        if !raised {
          raised := Invoke(d, ReadLinkKey);
          body := Raised(ReadLinkKey);
          if !raised {
            ConnectOrAbandon(d, now);
            body := Returned;
          }
        }
      }
      raised := Invoke(d, CloseConnection);
      outcome := if raised then Raised(CloseConnection) else body;
    }

    /**
     * The inner `try ... except Exception` of `_open_connection` (lines 77-83): step 7 and
     * everything below it. Nothing escapes; a failure resets the connection time.
     */
    method ConnectOrAbandon(d: Driver, now: int)
      requires WellFormed(d)
      modifies this`trace, this`connectionTimestamp, this`setChangeTimestamp, this`connectedSuccessfully
      ensures trace == old(trace) + LadderCalls(d.raises, DataCalls(d, now, old(setChangeTimestamp)), CatchLevel)
      ensures connectionTimestamp == LadderTimestamp(d, now, old(connectionTimestamp), CatchLevel)
      ensures setChangeTimestamp == LadderMarker(d, old(setChangeTimestamp), CatchLevel)
      ensures connectedSuccessfully == (old(connectedSuccessfully) || DataReached(d.raises, CatchLevel))
    {
      LadderCatchStep(d, now, connectionTimestamp, setChangeTimestamp);
      ghost var data := DataCalls(d, now, setChangeTimestamp);
      ghost var before := trace;
      var raised := Invoke(d, NegotiateChannel);
      var caught: Outcome := Raised(NegotiateChannel);
      if !raised {
        caught := BeginHighSpeedMode(d, now);
      }
      ScopeStep(d.raises, data, CatchLevel, raised, before, if raised then [] else LadderCalls(d.raises, data, CatchLevel + 1), trace);
      if caught.Raised? {
        ResetTimestampAfterFail(now);
      }
    }

    /** `_begin_high_speed_mode` (lines 87-94): steps 8 and 9, then the data path. */
    method BeginHighSpeedMode(d: Driver, now: int) returns (outcome: Outcome)
      requires WellFormed(d)
      modifies this`trace, this`connectionTimestamp, this`setChangeTimestamp, this`connectedSuccessfully
      ensures outcome == LadderOutcome(d.raises, 8)
      ensures trace == old(trace) + LadderCalls(d.raises, DataCalls(d, now, old(setChangeTimestamp)), 8)
      ensures connectionTimestamp == LadderTimestamp(d, now, old(connectionTimestamp), 8)
      ensures setChangeTimestamp == LadderMarker(d, old(setChangeTimestamp), 8)
      ensures connectedSuccessfully == (old(connectedSuccessfully) || DataReached(d.raises, 8))
    {
      LadderStateStep(d, now, connectionTimestamp, setChangeTimestamp, 8);
      LadderStateStep(d, now, connectionTimestamp, setChangeTimestamp, 9);
      ghost var data := DataCalls(d, now, setChangeTimestamp);
      ghost var before := trace;
      var raised := Invoke(d, BeginEHSM);
      var body: Outcome := Raised(BeginEHSM);
      ghost var entered, inner: seq<Call> := !raised, [];
      if !raised {
        ghost var before9 := trace;
        raised := Invoke(d, GetPumpTime);
        body := Raised(GetPumpTime);
        if !raised {
          body := ReadAndUploadPumpData(d, now);
        }
        ScopeStep(d.raises, data, 9, raised, before9, if raised then [] else data, trace);
        inner := LadderCalls(d.raises, data, 9);
      }
      ScopeStep(d.raises, data, 8, !entered, before, inner, trace);
      raised := Invoke(d, FinishEHSM);
      outcome := if raised then Raised(FinishEHSM) else body;
    }

    /**
     * `_get_and_upload_data` (lines 96-127): read the measurement and the history, show
     * them, keep the set-change marker and the connection time. Lines 125-127 re-raise.
     */
    method ReadAndUploadPumpData(d: Driver, now: int) returns (outcome: Outcome)
      requires WellFormed(d)
      modifies this`trace, this`connectionTimestamp, this`setChangeTimestamp, this`connectedSuccessfully
      ensures outcome == DataFailure(d.raises)
      ensures trace == old(trace) + DataCalls(d, now, old(setChangeTimestamp))
      ensures connectionTimestamp == if outcome.Returned? then DataTimestamp(d, now) else old(connectionTimestamp)
      ensures setChangeTimestamp == if outcome.Returned? then LastSetChange(d.events, old(setChangeTimestamp)) else old(setChangeTimestamp)
      ensures connectedSuccessfully == (old(connectedSuccessfully) || outcome.Returned?)
    {
      ghost var marker := setChangeTimestamp;
      var raised := Invoke(d, GetPumpMeasurement);
      if raised {
        DataCallsAfter(d, now, marker, old(trace));
        return Raised(GetPumpMeasurement);
      }
      var status := d.measurement;
      UpdateStates(status);
      var events;
      outcome, events := RequestPumpEvents(d);
      if outcome.Raised? {
        DataCallsAfter(d, now, marker, old(trace));
        return;
      }
      UploadHistory(status, events, now);
      DataCallsAfter(d, now, marker, old(trace));
      if DataIsValid(status) {
        connectionTimestamp := status.timestamp.value;
      } else {
        ResetTimestampAfterFail(now);
      }
      connectedSuccessfully := true;
    }

    /**
     * Lines 103-117: keep and send the set-change marker, then the standing alarms, each
     * followed by a one-second pause, or the reset of the event sensor when none stands.
     */
    method UploadHistory(m: MedtronicMeasurementData, events: seq<HistoryEvent>, now: int)
      modifies this`trace, this`setChangeTimestamp
      ensures setChangeTimestamp == LastSetChange(events, old(setChangeTimestamp))
      ensures trace == old(trace) + SetChangeCalls(setChangeTimestamp) + AlarmCalls(m, AlarmDict(events, now))
    {
      GetSetChangeTimestamp(events);
      if setChangeTimestamp.Some? {
        Emit(UpdateLatestSetChange(setChangeTimestamp.value));
      }
      var alarms := GetNotAcknowledgedPumpAlarms(events, now);
      if alarms == [] {
        Emit(UpdateEvent(NoMessage));
      } else {
        ShowAlarms(m, alarms);
      }
    }

    /** Lines 112-117: one message and a one-second pause per alarm, in dictionary order. */
    method ShowAlarms(m: MedtronicMeasurementData, alarms: Dict)
      modifies this`trace
      ensures trace == old(trace) + AlarmMessages(m, alarms)
    {
      for i := 0 to |alarms|
        invariant trace == old(trace) + AlarmMessages(m, alarms[..i])
      {
        assert alarms[..i + 1][..i] == alarms[..i];
        Emit(UpdateEvent(AlarmMessage(m.bglValue, m.trend, alarms[i].event.timestamp)));
        Emit(Sleep(1));
      }
      assert alarms[..|alarms|] == alarms;
    }

    /** `_request_pump_events` (lines 151-156): the history read and parsed by the driver. */
    method RequestPumpEvents(d: Driver) returns (outcome: Outcome, events: seq<HistoryEvent>)
      modifies this`trace
      ensures outcome == (if GetPumpHistory in d.raises then Raised(GetPumpHistory)
                          else if ProcessPumpHistory in d.raises then Raised(ProcessPumpHistory) else Returned)
      ensures GetPumpHistory in d.raises ==> trace == old(trace) + [DriverCall(GetPumpHistory)]
      ensures GetPumpHistory !in d.raises ==> trace == old(trace) + [DriverCall(GetPumpHistory)] + [DriverCall(ProcessPumpHistory)]
      ensures outcome.Returned? ==> events == d.events
    {
      events := [];
      var raised := Invoke(d, GetPumpHistory);
      if raised {
        return Raised(GetPumpHistory), events;
      }
      raised := Invoke(d, ProcessPumpHistory);
      if raised {
        return Raised(ProcessPumpHistory), events;
      }
      outcome, events := Returned, d.events;
    }

    /** `_get_set_change_timestamp` (lines 171-175): the last set-change stop wins. */
    method GetSetChangeTimestamp(events: seq<HistoryEvent>)
      modifies this`setChangeTimestamp
      ensures setChangeTimestamp == LastSetChange(events, old(setChangeTimestamp))
    {
      for i := 0 to |events|
        invariant setChangeTimestamp == LastSetChange(events[..i], old(setChangeTimestamp))
      {
        assert events[..i + 1][..i] == events[..i];
        if IsSetChange(events[i]) {
          setChangeTimestamp := Some(events[i].timestamp);
        }
      }
      assert events[..|events|] == events;
    }

    /** `_update_states` (lines 195-208). */
    method UpdateStates(m: MedtronicMeasurementData)
      modifies this`trace
      ensures trace == old(trace) + StateCalls(m)
    {
      if DataIsValid(m) {
        Emit(UpdateStatus(ConnectedText));
        ghost var shown := trace;
        Emit(UpdateMetric(Bgl, IntValue(m.bglValue)));
        Emit(UpdateMetric(Trend, TextValue(m.trend)));
        Emit(UpdateMetric(ActiveInsulin, RealValue(m.activeInsulin)));
        Emit(UpdateMetric(CurrentBasalRate, RealValue(m.currentBasalRate)));
        Emit(UpdateMetric(TempBasalRatePercentage, IntValue(m.temporaryBasalPercentage)));
        Emit(UpdateMetric(PumpBatteryLevel, IntValue(m.batteryLevel)));
        Emit(UpdateMetric(InsulinUnitsRemaining, IntValue(m.insulinUnitsRemaining)));
        assert trace == shown + MetricCalls(m);
        AppendAssoc(old(trace), [UpdateStatus(ConnectedText)], MetricCalls(m));
      } else {
        Emit(UpdateStatus(InvalidDataText));
        ResetAllStates();
        AppendAssoc(old(trace), [UpdateStatus(InvalidDataText)], ResetAllCalls());
      }
    }

    /** `reset_all_states` (lines 210-218). */
    method ResetAllStates()
      modifies this`trace
      ensures trace == old(trace) + ResetAllCalls()
    {
      Emit(UpdateMetric(Bgl, Blank));
      Emit(UpdateMetric(Trend, Blank));
      Emit(UpdateMetric(ActiveInsulin, Blank));
      Emit(UpdateMetric(CurrentBasalRate, Blank));
      Emit(UpdateMetric(TempBasalRatePercentage, Blank));
      Emit(UpdateMetric(PumpBatteryLevel, Blank));
      Emit(UpdateMetric(InsulinUnitsRemaining, Blank));
      Emit(UpdateEvent(NoMessage));
    }

    /** `_reset_timestamp_after_fail` (lines 224-225). */
    method ResetTimestampAfterFail(now: int)
      modifies this`connectionTimestamp
      ensures connectionTimestamp == now
    {
      connectionTimestamp := now;
    }

    /** `_reset_usb_device` (lines 227-231): the reset script, waited for. */
    method ResetUsbDevice()
      modifies this`trace
      ensures trace == old(trace) + [UsbReset]
    {
      Emit(UsbReset);
    }

    /**
     * `wait` (lines 129-149): `switchedOn` is the switch read on line 132, `now` the clock
     * read on line 134 and `polls` the readings of the loop. It sleeps five seconds per
     * pass as `Schedule.Sleeps` counts.
     */
    method Wait(switchedOn: bool, now: int, polls: seq<Poll>) returns (sleeps: nat)
      modifies this`trace
      ensures sleeps == Sleeps(WaitTarget(switchedOn, connectionTimestamp, now), switchedOn, polls)
      ensures trace == old(trace) + seq(sleeps, _ => Sleep(PollInterval))
    {
      var waitingTime := if switchedOn then connectionTimestamp + SwitchedOnDelay else now + SwitchedOffDelay;
      if waitingTime - now < MinimumWait {
        waitingTime := now + MinimumWait;
      }
      sleeps := 0;
      var i := 0;
      while i < |polls| && waitingTime >= polls[i].clock
        invariant 0 <= i <= |polls| && sleeps == i
        invariant Sleeps(waitingTime, switchedOn, polls) == i + Sleeps(waitingTime, switchedOn, polls[i..])
        invariant trace == old(trace) + seq(sleeps, _ => Sleep(PollInterval))
        decreases |polls| - i
      {
        assert polls[i..][0] == polls[i];
        Emit(Sleep(PollInterval));
        sleeps := sleeps + 1;
        assert seq(sleeps, _ => Sleep(PollInterval)) == seq(sleeps - 1, _ => Sleep(PollInterval)) + [Sleep(PollInterval)];
        if polls[i].switchedOn != switchedOn {
          return;
        }
        assert polls[i..][1..] == polls[i + 1..];
        i := i + 1;
      }
    }
  }
}
