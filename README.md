# PumpConnector, modelled in Dafny

This project models the `PumpConnector` class of the contour-next-link bridge. The bridge
reads a Medtronic 600-series insulin pump through a USB driver and pushes the readings to
Home Assistant. The model covers one session (`get_and_upload_data`), the wait until the
next session (`wait`), and the measurement record (`MedtronicMeasurementData`,
`MedtronicDataStatus`).

The pump driver is an oracle value, `Trace.Driver`. It fixes:
- whether the device is missing once `openDevice` has run;
- which driver calls raise;
- the measurement `getPumpMeasurement` returns;
- the events `processPumpHistory` returns.

Every driver call, Home Assistant update, sleep and USB reset is appended to the
`trace` field of `Connector.PumpConnector`, in order. An exception that escapes a method is
its `Trace.Outcome`.

The try/finally nesting of lines 39-94 is read as a table (module `Ladder`):
- step `s` is the `s`-th acquisition call on the way down, in the order of the constant
  `Ladder.Acquisition` (lines 43, 58, 60, 67, 74-76, 78, 89 and 91);
- `ScopeAt(s)` is the release its `finally` issues;
- a raising release replaces the pending exception;
- the `except Exception` of line 80 absorbs whatever escapes step 7 and below.

`Ladder.LadderCalls` is the reference definition of the calls. `Ladder.LadderIsStack`
proves it equal to an independent stack form: the acquisitions in order, then the data
path, then the releases innermost first. Each Python method of the cascade is a method of
the class, proved to produce exactly the calls, outcome and state these functions give at
its step.

Python semantics that the model makes explicit:
- The `return` inside the `finally` of line 52 discards any pending exception.
- `_get_not_acknowledged_pump_alarms` builds a dict. Python dicts keep insertion order, so
  `Alarms.Dict` is an ordered sequence of entries. A re-assigned key keeps its place.
- `_get_set_change_timestamp` has no freshness test. Every set-change stop in the history
  counts, stale ones included, and the last one wins.
- The ignore rule of line 162 never applies to an alarm event. So it has no effect on the
  alarm dictionary, and `Alarms.Standing`, which has no ignore rule, describes the contents.
- `_data_is_valid` (line 222) is false for every record as written (see "## Findings"). The
  session uses the corrected check `PumpData.DataIsValid` throughout: `Trace.StateCalls`,
  `Trace.StateCallsAnnounceValidity`, `Trace.MetricCallsShowMeasurement`,
  `Session.DataTimestamp`, `Session.LadderTimestamp`, `Session.SessionTimestamp`,
  `Session.UploadedTimestamp`, `Connector.PumpConnector.UpdateStates` and
  `Connector.PumpConnector.ReadAndUploadPumpData` follow that corrected reading. As written, every completed
  data path announces "Invalid data.", blanks every sensor and sets the connection time to now.
- `wait` compares with `>=` (line 146). On the readings of the unit test
  `test_wait_standard_waiting_time` the loop therefore sleeps three times, while the test
  expects two (`Schedule.StandardWaitOnTestReadings`). The model follows the code.

## Model

| member | source | states |
|---|---|---|
| PumpData.StatusValue | pump_data/medtronic_measurement_data.py:7-9 | `invalid` has the value 0, `valid` has 1, and no member has another value |
| PumpData.StatusFromValue | pump_data/medtronic_measurement_data.py:7-9 | lookup by value succeeds exactly for 0 and 1 and returns the member with that value |
| PumpData.StatusValueRoundTrip | pump_data/medtronic_measurement_data.py:7-9 | looking up a member's value gives back that member |
| PumpData.DefaultMeasurement | pump_data/medtronic_measurement_data.py:13-22 | every field of the default record has its declared default: zeros, empty trend, status invalid, no timestamp |
| PumpData.DefaultIsNotValid | pump_data/medtronic_measurement_data.py:21 | a default record is never treated as valid data |
| PumpData.DataIsValid | pump_connector/pump_connector.py:220-222 | a measurement is valid exactly when its status is `valid`, i.e. has value 1 (corrected reading) |
| PumpData.DataIsValidAsWritten | pump_connector/pump_connector.py:222 | the check as written is false for every record: a measurement record never equals an enumeration member |
| PumpData.AsWrittenRejectsValidRecord | pump_connector/pump_connector.py:222 | every record whose status is `valid` is accepted by the corrected check and rejected by the check as written |
| History.IsPumpEventNew | pump_connector/pump_connector.py:191-193 | an event is new exactly when it is less than 15 minutes old |
| History.EventsToIgnore | pump_connector/pump_connector.py:177-185 | only a delivery stop for predicted low glucose or an automatic resume at preset glucose is ignored |
| History.IsSetChange | pump_connector/pump_connector.py:173-174 | a set change is a delivery stop for "Set change suspend", which is never an ignored event |
| History.HexByte | pump_connector/pump_connector.py:189 | hexlify of one byte is two lower-case hex digits |
| History.Hex | pump_connector/pump_connector.py:189 | hexlify yields two hex digits per byte |
| History.IdBytes | pump_connector/pump_connector.py:189 | the id bytes of an event are its payload bytes from 0x0B, at most two, cut short at the end of the payload |
| History.PumpEventId | pump_connector/pump_connector.py:187-189 | `_get_pump_event_id`: the event id is the hex text of the id bytes |
| History.IdBytesAreSlice | pump_connector/pump_connector.py:189 | the id bytes are payload bytes 0x0B and 0x0C, clamped at the end of the payload as Python slices are |
| History.PumpEventIdIsHex | pump_connector/pump_connector.py:187-189 | an event id is at most four lower-case hex digits |
| History.HexInjective | pump_connector/pump_connector.py:189 | two byte strings have the same hex text exactly when they are equal |
| History.EventIdsEqualIff | pump_connector/pump_connector.py:187-189 | two events share an id exactly when their id bytes are equal |
| Alarms.LookupFindsContained | pump_connector/pump_connector.py:166 | `d[id]` exists exactly when `id in d` |
| Alarms.Contains | pump_connector/pump_connector.py:166 | `id in d`: some entry of the dictionary has the key |
| Alarms.Lookup | pump_connector/pump_connector.py:166 | `d[id]`: the value of the entry with the key, absent when no entry has it |
| Alarms.Put | pump_connector/pump_connector.py:164 | `d[id] = e`: a present key keeps its place and takes the new value, a new key is added at the end |
| Alarms.Delete | pump_connector/pump_connector.py:167 | `del d[id]`: the entry with the key is removed and the others keep their order |
| Alarms.LookupAtIndex | pump_connector/pump_connector.py:112-114 | iterating a dictionary with distinct keys, `d[k]` for the k-th key is the value of the k-th entry |
| Alarms.PutSpec | pump_connector/pump_connector.py:164 | after `d[id] = e` the key maps to `e` and every other key is unchanged |
| Alarms.PutKeepsDistinct | pump_connector/pump_connector.py:164 | assignment keeps the keys distinct |
| Alarms.DeleteSpec | pump_connector/pump_connector.py:166-167 | after `del d[id]` the key is gone, every other key is unchanged, and keys stay distinct |
| Alarms.Step | pump_connector/pump_connector.py:161-167 | one pass of the loop: a fresh notification stores the event under its id, a fresh clearing removes a present id, anything else changes nothing |
| Alarms.AlarmDict | pump_connector/pump_connector.py:158-169 | the loop: the passes over the events in history order, starting from an empty dictionary |
| Alarms.Standing | pump_connector/pump_connector.py:158-169 | the reference definition: the alarm standing under an id is the last fresh notification of that id that no later fresh clearing of it cancels |
| Alarms.AlarmDictMatchesReference | pump_connector/pump_connector.py:158-169 | the dictionary built has distinct ids and holds under each id exactly the alarm that the reference definition says stands |
| Alarms.StandingIsLastUnclearedNotification | pump_connector/pump_connector.py:158-169 | a standing alarm is a fresh notification with no later fresh notification or clearing of its id |
| Alarms.LastUnclearedNotificationStands | pump_connector/pump_connector.py:158-169 | conversely, such a notification is the alarm that stands |
| Alarms.AlarmDictSnoc | pump_connector/pump_connector.py:160-167 | one more event is one more pass of the loop body |
| Alarms.NoOpStepIsIrrelevant | pump_connector/pump_connector.py:160-167 | an event whose pass leaves the dictionary unchanged can be removed from the history |
| Alarms.StaleEventIsIrrelevant | pump_connector/pump_connector.py:161 | a stale event anywhere in the history does not change the result |
| Alarms.ClearBeforeNotificationIsIrrelevant | pump_connector/pump_connector.py:165-167 | a clearing before any fresh notification of its id does not change the result |
| Alarms.NoNotificationNoStanding | pump_connector/pump_connector.py:163-164 | without a fresh notification for an id, no alarm stands under it |
| Alarms.NotificationThenClearLeavesNothing | pump_connector/pump_connector.py:163-167 | a fresh notification followed by its fresh clearing leaves an empty dictionary |
| Alarms.AlarmDictEmptyIffNothingStands | pump_connector/pump_connector.py:158-169 | the dictionary is empty exactly when no alarm stands under any id |
| Alarms.GetNotAcknowledgedPumpAlarms | pump_connector/pump_connector.py:158-169 | the loop returns a dictionary with distinct ids that maps each id to its standing alarm |
| Alarms.LastSetChange | pump_connector/pump_connector.py:171-175 | the marker after the loop: the timestamp of the last set-change stop, or the marker from before |
| Alarms.NoSetChangeKeepsMarker | pump_connector/pump_connector.py:171-175 | without a set-change stop the marker keeps its previous value |
| Alarms.LastSetChangeWins | pump_connector/pump_connector.py:171-175 | otherwise the marker is the timestamp of the last set-change stop |
| Trace.SensorsListEveryMetricOnce | pump_connector/pump_connector.py:199-205 | the update order names each of the seven sensors exactly once |
| Trace.ResetAllCalls | pump_connector/pump_connector.py:210-218 | the updates of `reset_all_states`: each sensor blanked, then the event sensor reset |
| Trace.MetricValue | pump_connector/pump_connector.py:199-205 | the field of the measurement each sensor shows |
| Trace.MetricCalls | pump_connector/pump_connector.py:199-205 | the seven sensor updates of valid data, in the order of the source |
| Trace.StateCalls | pump_connector/pump_connector.py:195-208 | the updates of `_update_states`: the status text, then the sensor values for valid data or the blanking for invalid data |
| Trace.ResetAllBlanksEverySensor | pump_connector/pump_connector.py:210-218 | `reset_all_states` blanks the seven sensors in order and then resets the event sensor |
| Trace.MetricCallsShowMeasurement | pump_connector/pump_connector.py:199-205 | valid data updates each sensor, in order, with its own field of the measurement |
| Trace.StateCallsAnnounceValidity | pump_connector/pump_connector.py:195-208 | valid data is announced "Connected." and shown; invalid data is announced "Invalid data." and every sensor is blanked |
| Trace.StateCallsAreSinkUpdates | pump_connector/pump_connector.py:195-208 | `_update_states` only updates the status, the sensors and the event-sensor reset |
| Trace.AlarmMessages | pump_connector/pump_connector.py:112-117 | one alarm message and one one-second sleep per dictionary entry, in dictionary order |
| Trace.AlarmCalls | pump_connector/pump_connector.py:109-117 | the event reset when the dictionary is empty, the alarm messages otherwise |
| Trace.SetChangeCalls | pump_connector/pump_connector.py:104-105 | the set-change day is sent exactly when a marker is known |
| Trace.AlarmMessagesInDictOrder | pump_connector/pump_connector.py:112-117 | entry k of the dictionary produces its message (glucose value, trend, alarm time) at position 2k and a one-second sleep at 2k+1 |
| Trace.AlarmMessageEntry | pump_connector/pump_connector.py:112-116 | every alarm message sent is made for some entry of the dictionary, from that entry's alarm time |
| Trace.AlarmCallsAreEvents | pump_connector/pump_connector.py:109-117 | the alarm part only updates the event sensor and sleeps one second at a time |
| Ladder.AcquisitionsDistinct | pump_connector/pump_connector.py:43-91 | the ten calls on the way down are all different driver calls |
| Ladder.AcquisitionIsNoRelease | pump_connector/pump_connector.py:43-91 | no call on the way down is one of the releases |
| Ladder.ScopeAt | pump_connector/pump_connector.py:62-94 | the `finally` releases: `exitControlMode` for the try opened by `getDeviceInfo`, `exitPassthroughMode` for `enterPassthroughMode`, `closeConnection` for `openConnection`, `finishEHSM` for `beginEHSM`, none for any other step |
| Ladder.FirstFailure | pump_connector/pump_connector.py:43-91 | the first acquisition step that raises: every earlier step succeeds |
| Ladder.DataFailure | pump_connector/pump_connector.py:96-127 | the data path re-raises the first of `getPumpMeasurement`, `getPumpHistory` and `processPumpHistory` that raises, and returns otherwise |
| Ladder.LadderCalls | pump_connector/pump_connector.py:56-94 | the reference definition of the nested methods' calls: at each step the acquisition, then the rest of the ladder unless it raised, then the release of the scope it opened |
| Ladder.LadderOutcome | pump_connector/pump_connector.py:56-94 | the exception leaving the nested methods: a raising release replaces the pending outcome, and the handler of line 80 absorbs everything from `negotiateChannel` on |
| Ladder.DataReached | pump_connector/pump_connector.py:96-124 | line 124 is reached, setting `_connected_successfully`: no acquisition from this step on raised and the data path returned |
| Ladder.CatchRuns | pump_connector/pump_connector.py:77-83 | the handler of lines 80-83 runs: every call before `negotiateChannel` succeeded and something inside the inner `try` raised |
| Ladder.LadderIsStack | pump_connector/pump_connector.py:39-94 | the nested try/finally issues the acquisitions up to the first that raises, the data path if all succeeded, then the releases in reverse order of entry |
| Ladder.LadderKeepsDevice | pump_connector/pump_connector.py:56-94 | the nested methods never close the device and never reset the USB bus |
| Ladder.UnwindReleasesOnce | pump_connector/pump_connector.py:62-94 | unwinding issues the release of each scope in range exactly once |
| Ladder.ReleasedOnceIffEntered | pump_connector/pump_connector.py:56-94 | each `finally` release is issued exactly once when its `try` was entered, and never otherwise |
| Ladder.UnwindIssues | pump_connector/pump_connector.py:62-94 | the release of every entered scope is issued by the unwinding |
| Ladder.UnwindIsReversed | pump_connector/pump_connector.py:62-94 | an inner scope is released before an outer one |
| Ladder.UpperLadderOutcome | pump_connector/pump_connector.py:56-85 | above the handler, the cascade raises exactly when an early acquisition or the release of an entered scope raises, and never with an exception the handler absorbs |
| Ladder.CatchIffInnerFailure | pump_connector/pump_connector.py:77-83 | the handler runs exactly when every earlier call succeeded and `negotiateChannel`, the high-speed mode or the data path raised |
| Ladder.DataReachedIffNothingRaised | pump_connector/pump_connector.py:96-124 | the data path completes exactly when no acquisition and no data-path driver call raised |
| Session.DataCalls | pump_connector/pump_connector.py:96-127 | the calls of `_get_and_upload_data`, cut short at the first driver call that raises |
| Session.SessionLadder | pump_connector/pump_connector.py:40-94 | the calls of the nested try/finally from `openDevice` down, around this session's data path |
| Session.SessionLadderKeepsDevice | pump_connector/pump_connector.py:40-94 | the nested try/finally never calls `closeDevice` and never resets the USB bus |
| Session.DataTimestamp | pump_connector/pump_connector.py:119-122 | the connection time the data path sets: the measurement's time for valid data, now otherwise |
| Session.DataCallsKeepDevice | pump_connector/pump_connector.py:96-127 | the data path issues no release and no USB reset |
| Session.LadderTimestamp | pump_connector/pump_connector.py:77-122 | the connection time the nested methods leave: now when the handler ran, the data path's time when the data path completed, the previous time otherwise |
| Session.LadderMarker | pump_connector/pump_connector.py:103 | the set-change marker the nested methods leave: updated from the history exactly when the data path completed |
| Session.OuterCalls | pump_connector/pump_connector.py:46-54 | the outer `finally`: "Driver fail." and the USB reset when the device is missing, `closeDevice` otherwise |
| Session.StartCalls | pump_connector/pump_connector.py:39-54 | the calls of `_start_communication`: the nested methods, then the outer `finally` |
| Session.StartOutcome | pump_connector/pump_connector.py:39-54 | a missing device discards every exception; otherwise a raising `closeDevice` replaces the nested methods' outcome |
| Session.StartTimestamp | pump_connector/pump_connector.py:39-54 | the connection time after `_start_communication`: now when the device is missing, otherwise what the nested methods left |
| Session.SessionOutcome | pump_connector/pump_connector.py:26-37 | whatever escapes `_start_communication` escapes the session |
| Session.SessionTimestamp | pump_connector/pump_connector.py:26-37 | the connection time after a session: now when the device was missing, or when `_start_communication` returned without the data path completing; otherwise what the nested methods left |
| Session.EpilogueCalls | pump_connector/pump_connector.py:31-36 | "Not connected." and the blanking when the session did not connect, then the timestamp upload |
| Session.ClosingCalls | pump_connector/pump_connector.py:29-36 | nothing after `_start_communication` when an exception escaped it, the epilogue otherwise |
| Session.ClosingKeepsDevice | pump_connector/pump_connector.py:31-37 | the epilogue never touches the device |
| Session.SessionCalls | pump_connector/pump_connector.py:26-37 | every call of one `get_and_upload_data`: `_start_communication`, then the epilogue unless an exception escaped |
| Session.DriverFailPath | pump_connector/pump_connector.py:46-52 | a missing device gives "Driver fail." right before exactly one USB reset; the device is never closed, every exception is discarded and the connection time becomes now |
| Session.DevicePresentPath | pump_connector/pump_connector.py:46-54 | otherwise `closeDevice` is issued exactly once, as the last call of `_start_communication`, and there is no USB reset |
| Session.EscapingFailures | pump_connector/pump_connector.py:26-94 | a session raises exactly when the device is present and `closeDevice`, an acquisition before `negotiateChannel`, or the release of an entered upper scope raises; the exception is one the driver raised and not one line 80 absorbs |
| Session.UploadedTimestamp | pump_connector/pump_connector.py:31-36 | a session that returns ends by uploading the connection time, which is the measurement's time exactly when the device was present, the data path completed with valid data and the handler did not run, and now otherwise |
| Session.AbsorbedFailuresReturn | pump_connector/pump_connector.py:27-36 | if nothing above the handler raises, the session returns; if the data path then did not complete, it reports "Not connected.", blanks every sensor and uploads now |
| Session.DataPathReportsStandingAlarms | pump_connector/pump_connector.py:107-117 | a completed data path shows every alarm standing in the history, with the measurement's glucose value and trend and the alarm's time |
| Session.DataPathShowsOnlyStandingAlarms | pump_connector/pump_connector.py:107-117 | conversely, every alarm message a completed data path sends is that of an alarm standing under some id, with the measurement's glucose value and trend and the alarm's time |
| Session.AlarmMessageIsFromDict | pump_connector/pump_connector.py:107-117 | the only alarm messages of the data path are those of the alarm loop |
| Session.DataPathWithoutAlarms | pump_connector/pump_connector.py:107-110 | with no alarm standing, a completed data path shows no alarm message |
| Session.DataPathReportsSetChange | pump_connector/pump_connector.py:103-105 | a completed data path sends the set-change marker exactly when one is known after this history |
| Schedule.WaitTarget | pump_connector/pump_connector.py:130-144 | the loop waits for 5:30 after the last connection when switched on and 5:00 from now when switched off, and never for less than 30 seconds |
| Schedule.Sleeps | pump_connector/pump_connector.py:146-149 | the loop sleeps at most once per clock reading |
| Schedule.SleepsStopAtFirstExit | pump_connector/pump_connector.py:146-149 | every counted pass read a clock not past the target, every pass but the last went round again, and the loop stopped because the clock passed, the switch changed or the readings ran out |
| Schedule.SwitchEndsWaitEarly | pump_connector/pump_connector.py:148-149 | a switch that flips during the first sleep ends the wait after that sleep |
| Schedule.SteadySwitchSleepsUntilTarget | pump_connector/pump_connector.py:146-147 | with a steady switch the loop sleeps exactly as long as the readings stay at or before the target |
| Schedule.StandardWaitOnTestReadings | pump_connector/test_pump_connector.py:24-39 | on the unit test's readings the target is 12:05:30 and the loop sleeps three times |
| Connector.PumpConnector.constructor | pump_connector/pump_connector.py:18-24 | a new connector is not connected, has now as connection time, no driver, no set-change marker and no calls made |
| Connector.PumpConnector.Invoke | pump_connector/pump_connector.py:43-101 | one call into the driver: it is recorded, and it raises exactly when the driver oracle says this call raises |
| Connector.PumpConnector.Emit | pump_connector/pump_connector.py:110-117 | one update sent to Home Assistant, one sleep or the USB reset: it is recorded and nothing else changes |
| Connector.PumpConnector.GetAndUploadData | pump_connector/pump_connector.py:26-37 | one session makes exactly the session's calls, raises what the session raises, leaves the connection time, the marker and the connection flag the session defines, and drops the driver unless an exception escapes |
| Connector.PumpConnector.StartCommunication | pump_connector/pump_connector.py:39-54 | `_start_communication` makes the cascade's calls followed by the driver-fail handling or `closeDevice`, with the outcome and state of the cascade |
| Connector.PumpConnector.EnterControlMode | pump_connector/pump_connector.py:56-63 | the calls, outcome and state of the cascade from step 1 |
| Connector.PumpConnector.EnterPassthroughMode | pump_connector/pump_connector.py:65-70 | the calls, outcome and state of the cascade from step 3 |
| Connector.PumpConnector.OpenConnection | pump_connector/pump_connector.py:72-85 | the calls, outcome and state of the cascade from step 4 |
| Connector.PumpConnector.ConnectOrAbandon | pump_connector/pump_connector.py:77-83 | nothing escapes the inner handler; the calls and state are those of the cascade from step 7 |
| Connector.PumpConnector.BeginHighSpeedMode | pump_connector/pump_connector.py:87-94 | the calls, outcome and state of the cascade from step 8 |
| Connector.PumpConnector.ReadAndUploadPumpData | pump_connector/pump_connector.py:96-127 | the data path raises the first failing read; on success it stores the measurement's time (or now for invalid data), the new set-change marker and the connection flag |
| Connector.PumpConnector.UploadHistory | pump_connector/pump_connector.py:103-117 | the marker becomes the last set change; the set-change day and then the standing alarms (or the event reset) are sent |
| Connector.PumpConnector.ShowAlarms | pump_connector/pump_connector.py:112-117 | one message and one one-second sleep per dictionary entry, in dictionary order |
| Connector.PumpConnector.RequestPumpEvents | pump_connector/pump_connector.py:151-156 | the history is read and then parsed; either call may raise; on success the driver's events are returned |
| Connector.PumpConnector.GetSetChangeTimestamp | pump_connector/pump_connector.py:171-175 | the loop leaves the last set-change timestamp, or the previous marker |
| Connector.PumpConnector.UpdateStates | pump_connector/pump_connector.py:195-208 | `_update_states` sends exactly the status and sensor updates for valid or invalid data |
| Connector.PumpConnector.ResetAllStates | pump_connector/pump_connector.py:210-218 | the eight blanking updates are sent in order |
| Connector.PumpConnector.ResetTimestampAfterFail | pump_connector/pump_connector.py:224-225 | the connection time becomes now |
| Connector.PumpConnector.ResetUsbDevice | pump_connector/pump_connector.py:227-231 | exactly one USB reset is issued |
| Connector.PumpConnector.Wait | pump_connector/pump_connector.py:129-149 | the loop sleeps five seconds as many times as the schedule counts, and does nothing else |

## Left out

- Logging, `strftime` formatting, the `deviceSerial` read and the arguments of `getPumpHistory` are left out. Timestamps are integer seconds, uploaded as numbers. The set-change day is uploaded as the timestamp it is formatted from.
- Every `get_datetime_now()` call within one session returns the same instant, `now`. In `wait`, the clock readings of the loop are given as a finite list, and running out of readings ends the loop.
- `time.sleep` and the USB reset script are trace entries. A failure of the reset script is not modelled.
- The Home Assistant sink never raises, and the driver object is always constructed (line 41). If the construction raised, line 47 would fail on `None`; that case is not modelled.
- Only exceptions raised by driver calls are modelled. Exceptions outside `Exception` (such as `KeyboardInterrupt`) pass line 80 in Python and are not modelled.
- A valid measurement without a timestamp is excluded by the precondition `Trace.WellFormed`. Python would store `None` at line 120 and fail at line 36.
- Python floats (`active_insulin`, `current_basal_rate`) are reals. The model only passes them on to the sink, so no rounding behaviour matters.
- The time-zone stripping of lines 137 and 192 is not modelled: all times are in one zone.
- `main.py`, the Home Assistant uploader and the package `__init__.py` are not part of this model.

## Findings

| source | as written | input that shows it | evidently intended | confidence | as-written member | corrected member |
|---|---|---|---|---|---|---|
| pump_connector/pump_connector.py:222 | `_data_is_valid` compares the whole measurement record with `MedtronicDataStatus.valid`, which is never equal, so every measurement counts as invalid | the default record with status `valid` and a timestamp | test the record's `status` field for identity with `MedtronicDataStatus.valid` (`is`), or compare its `.value` with 1; `==` on the field would not do, because the `@dataclass` on the enumeration (medtronic_measurement_data.py:6-7) gives it a generated `__eq__` under which its two field-less members compare equal | not executed | PumpData.AsWrittenRejectsValidRecord | PumpData.DataIsValid |
