/**
 * The session of pump_connector/pump_connector.py (lines 26-127) as functions of the
 * driver oracle: the nested try/finally ladder from `openDevice` down to the data path,
 * the calls it issues, the exception that escapes it and the state it leaves.
 *
 * The ladder is read as a table. Acquisition step `s` is the `s`-th call on the way
 * down; `ScopeAt(s)` is the release of the `try` that this call opens, issued by the
 * matching `finally`. Step 10 is the data path `_get_and_upload_data`.
 */
module Ladder {
  import opened Wrappers
  import opened PumpData
  import opened History
  import opened Alarms
  import opened Trace

  /** The calls on the way down, in order (lines 43, 58, 60, 67, 74-76, 78, 89, 91). */
  const Acquisition: seq<DriverOp> :=
    [OpenDevice, GetDeviceInfo, EnterControlMode, EnterPassthroughMode,
     OpenConnection, ReadInfo, ReadLinkKey, NegotiateChannel, BeginEHSM, GetPumpTime]

  /** The step after the last acquisition: the data path. */
  const DataLevel: nat := 10

  /** The first step inside the `try ... except Exception` of lines 77-83. */
  const CatchLevel: nat := 7

  /** The release of the `try` opened at step `s` (lines 63, 70, 85, 94). */
  function ScopeAt(s: nat): Option<DriverOp>
  {
    if s == 1 then Some(ExitControlMode)
    else if s == 3 then Some(ExitPassthroughMode)
    else if s == 4 then Some(CloseConnection)
    else if s == 8 then Some(FinishEHSM)
    else None
  }

  function ReleaseCalls(s: nat): seq<Call>
  {
    if ScopeAt(s).Some? then [DriverCall(ScopeAt(s).value)] else []
  }

  /** The release calls, `closeDevice` included. */
  predicate IsRelease(op: DriverOp)
  {
    op == FinishEHSM || op == CloseConnection || op == ExitPassthroughMode || op == ExitControlMode || op == CloseDevice
  }

  /** The first acquisition step from `s` on that raises, or `DataLevel` if none does. */
  function FirstFailure(raises: set<DriverOp>, s: nat): (f: nat)
    requires s <= DataLevel
    ensures s <= f <= DataLevel
    ensures f < DataLevel ==> Acquisition[f] in raises
    ensures forall t :: s <= t < f ==> Acquisition[t] !in raises
    decreases DataLevel - s
  {
    if s == DataLevel then s
    else if Acquisition[s] in raises then s
    else FirstFailure(raises, s + 1)
  }

  /**
   * How the data path ends: `getPumpMeasurement`, `getPumpHistory` and
   * `processPumpHistory` are its only calls that can raise (the sink never does),
   * and lines 125-127 re-raise the same exception.
   */
  function DataFailure(raises: set<DriverOp>): Outcome
  {
    if GetPumpMeasurement in raises then Raised(GetPumpMeasurement)
    else if GetPumpHistory in raises then Raised(GetPumpHistory)
    else if ProcessPumpHistory in raises then Raised(ProcessPumpHistory)
    else Returned
  }

  /**
   * The calls of the ladder from step `s` on, given the calls `data` of the data path:
   * the acquisition call, then (unless it raised) the rest of the ladder, then the
   * release of the scope it opened. A release runs whether the body returned, raised or
   * was cut short.
   */
  function LadderCalls(raises: set<DriverOp>, data: seq<Call>, s: nat): seq<Call>
    requires s <= DataLevel
    decreases DataLevel - s
  {
    if s == DataLevel then data
    else
      [DriverCall(Acquisition[s])]
      + (if Acquisition[s] in raises then [] else LadderCalls(raises, data, s + 1))
      + ReleaseCalls(s)
  }

  /**
   * The exception that leaves the ladder from step `s` on. A raising release replaces
   * the pending exception or the normal return; the `except Exception` of line 80
   * absorbs whatever leaves step `CatchLevel`.
   */
  function LadderOutcome(raises: set<DriverOp>, s: nat): Outcome
    requires s <= DataLevel
    decreases DataLevel - s
  {
    if s == DataLevel then DataFailure(raises)
    else
      var body :=
        if Acquisition[s] in raises then Raised(Acquisition[s])
        else if s + 1 == CatchLevel then Returned
        else LadderOutcome(raises, s + 1);
      if ScopeAt(s).Some? && ScopeAt(s).value in raises then Raised(ScopeAt(s).value) else body
  }

  /** The data path runs to line 124 from step `s`. */
  function DataReached(raises: set<DriverOp>, s: nat): bool
    requires s <= DataLevel
  {
    FirstFailure(raises, s) == DataLevel && DataFailure(raises) == Returned
  }

  /** The handler of lines 80-83 runs. */
  function CatchRuns(raises: set<DriverOp>, s: nat): bool
    requires s <= DataLevel
  {
    s <= CatchLevel && FirstFailure(raises, s) >= CatchLevel && LadderOutcome(raises, CatchLevel).Raised?
  }

  // ---------------------------------------------------------------------------------
  // The ladder as a stack of deferred releases.

  /** The acquisition calls of steps `s` up to `e`. */
  function AcquireCalls(s: nat, e: nat): seq<Call>
    requires s <= e <= DataLevel
    decreases e - s
  {
    if s == e then [] else [DriverCall(Acquisition[s])] + AcquireCalls(s + 1, e)
  }

  /** The releases of the scopes opened at steps `s` up to `e`, innermost first. */
  function Unwind(s: nat, e: nat): seq<Call>
    requires s <= e
    decreases e - s
  {
    if s == e then [] else Unwind(s + 1, e) + ReleaseCalls(s)
  }

  /** The steps whose acquisition call is issued: up to and including the first that raises. */
  function Stop(raises: set<DriverOp>, s: nat): nat
    requires s <= DataLevel
  {
    var f := FirstFailure(raises, s);
    if f < DataLevel then f + 1 else DataLevel
  }

  /** No call of `data` is a release or a USB reset. */
  predicate KeepsDevice(data: seq<Call>)
  {
    forall c | c in data :: c != UsbReset && !(c.DriverCall? && IsRelease(c.op))
  }

  /**
   * The ladder issues its acquisition calls in order up to the first that raises, then the
   * data path if every acquisition succeeded, then the releases of every scope it entered in
   * reverse order of entry.
   */
  lemma {:induction false} LadderIsStack(raises: set<DriverOp>, data: seq<Call>, s: nat)
    requires s <= DataLevel
    ensures Stop(raises, s) <= DataLevel
    ensures LadderCalls(raises, data, s)
      == AcquireCalls(s, Stop(raises, s))
       + (if FirstFailure(raises, s) == DataLevel then data else [])
       + Unwind(s, Stop(raises, s))
    decreases DataLevel - s
  {
    if s < DataLevel {
      var e := Stop(raises, s);
      if Acquisition[s] in raises {
        assert AcquireCalls(s, e) == [DriverCall(Acquisition[s])] + AcquireCalls(s + 1, e);
        assert Unwind(s, e) == Unwind(s + 1, e) + ReleaseCalls(s);
      } else {
        LadderIsStack(raises, data, s + 1);
        assert Stop(raises, s + 1) == e;
        var x, a, u, r := [DriverCall(Acquisition[s])], AcquireCalls(s + 1, e), Unwind(s + 1, e), ReleaseCalls(s);
        var tail := if FirstFailure(raises, s) == DataLevel then data else [];
        assert LadderCalls(raises, data, s) == x + (a + tail + u) + r;
        Regroup(x, a, tail, u, r);
        assert AcquireCalls(s, e) == x + a && Unwind(s, e) == u + r;
      }
    }
  }

  /**
   * One step of the ladder read off a trace: `after` holds the acquisition call, then what
   * the inner steps issued (nothing when the call raised); the release completes the step.
   */
  lemma ScopeStep(raises: set<DriverOp>, data: seq<Call>, s: nat, raised: bool, before: seq<Call>, inner: seq<Call>, after: seq<Call>)
    requires s < DataLevel
    requires raised <==> Acquisition[s] in raises
    requires inner == if raised then [] else LadderCalls(raises, data, s + 1)
    requires after == before + [DriverCall(Acquisition[s])] + inner
    ensures after + ReleaseCalls(s) == before + LadderCalls(raises, data, s)
    ensures ScopeAt(s).None? ==> after == before + LadderCalls(raises, data, s)
  {
    var x := [DriverCall(Acquisition[s])];
    assert LadderCalls(raises, data, s) == x + inner + ReleaseCalls(s);
    AppendAssoc(before, x + inner, ReleaseCalls(s));
    AppendAssoc(before, x, inner);
  }

  /**
   * The calls of steps 4 to 6 after a prefix, grouped as they are issued: the three calls
   * share the one scope that step 4 opens.
   */
  lemma OpenConnectionCalls(raises: set<DriverOp>, data: seq<Call>, before: seq<Call>)
    ensures before + LadderCalls(raises, data, 4)
      == if OpenConnection in raises then before + [DriverCall(OpenConnection)] + [DriverCall(CloseConnection)]
         else if ReadInfo in raises then
           before + [DriverCall(OpenConnection)] + [DriverCall(ReadInfo)] + [DriverCall(CloseConnection)]
         else if ReadLinkKey in raises then
           before + [DriverCall(OpenConnection)] + [DriverCall(ReadInfo)] + [DriverCall(ReadLinkKey)]
             + [DriverCall(CloseConnection)]
         else
           before + [DriverCall(OpenConnection)] + [DriverCall(ReadInfo)] + [DriverCall(ReadLinkKey)]
             + LadderCalls(raises, data, CatchLevel) + [DriverCall(CloseConnection)]
  {
    var o, i, k, c := [DriverCall(OpenConnection)], [DriverCall(ReadInfo)], [DriverCall(ReadLinkKey)], [DriverCall(CloseConnection)];
    var l6 := if ReadLinkKey in raises then k else k + LadderCalls(raises, data, CatchLevel);
    var l5 := if ReadInfo in raises then i else i + l6;
    assert LadderCalls(raises, data, 6) == l6 + [];
    assert LadderCalls(raises, data, 5) == l5 + [];
    assert LadderCalls(raises, data, 4) == o + (if OpenConnection in raises then [] else l5) + c;
    if OpenConnection !in raises {
      AppendAssoc(before, o, l5);
      if ReadInfo !in raises {
        AppendAssoc(before + o, i, l6);
        if ReadLinkKey !in raises {
          AppendAssoc(before + o + i, k, LadderCalls(raises, data, CatchLevel));
        }
      }
    }
  }

  lemma AppendAssoc<T>(a: seq<T>, b: seq<T>, c: seq<T>)
    ensures a + (b + c) == a + b + c
  {
  }

  lemma Regroup<T>(x: seq<T>, a: seq<T>, t: seq<T>, u: seq<T>, r: seq<T>)
    ensures x + (a + t + u) + r == (x + a) + t + (u + r)
  {
  }

  /** No acquisition call is a release. */
  lemma AcquisitionIsNoRelease(s: nat)
    requires s < DataLevel
    ensures !IsRelease(Acquisition[s])
  {
  }

  /** The way down issues ten different driver calls: no call is made at two steps. */
  lemma AcquisitionsDistinct(s: nat, t: nat)
    requires s < t < DataLevel
    ensures Acquisition[s] != Acquisition[t]
  {
  }

  /** The ladder never closes the device and never resets the USB device. */
  lemma {:induction false} LadderKeepsDevice(raises: set<DriverOp>, data: seq<Call>, s: nat)
    requires s <= DataLevel && KeepsDevice(data)
    ensures DriverCall(CloseDevice) !in LadderCalls(raises, data, s)
    ensures UsbReset !in LadderCalls(raises, data, s)
    decreases DataLevel - s
  {
    if s < DataLevel {
      if Acquisition[s] !in raises {
        LadderKeepsDevice(raises, data, s + 1);
      }
      AcquisitionIsNoRelease(s);
    }
  }

  /** Every scope is closed by a release call. */
  lemma ScopeIsRelease(t: nat)
    requires ScopeAt(t).Some?
    ensures IsRelease(ScopeAt(t).value)
  {
  }

  /** Different steps open scopes with different releases. */
  lemma ScopesDiffer(s: nat, t: nat)
    requires s != t && ScopeAt(t).Some?
    ensures ScopeAt(s).Some? ==> ScopeAt(s).value != ScopeAt(t).value
  {
  }

  /** Step `s` issues the release of the scope opened at step `t` once if it is that step. */
  lemma ReleaseCallsCount(s: nat, t: nat)
    requires ScopeAt(t).Some?
    ensures multiset(ReleaseCalls(s))[DriverCall(ScopeAt(t).value)] == if s == t then 1 else 0
  {
    if s != t {
      ScopesDiffer(s, t);
    }
  }

  lemma CountConcat<T>(a: seq<T>, b: seq<T>, x: T)
    ensures multiset(a + b)[x] == multiset(a)[x] + multiset(b)[x]
  {
  }

  lemma CountSplit<T>(a: seq<T>, b: seq<T>, c: seq<T>, x: T)
    ensures multiset(a + b + c)[x] == multiset(a)[x] + multiset(b)[x] + multiset(c)[x]
  {
  }

  /** No acquisition call is the release of a scope. */
  lemma {:induction false} AcquireCallsHoldNoRelease(s: nat, e: nat, t: nat)
    requires s <= e <= DataLevel && ScopeAt(t).Some?
    ensures DriverCall(ScopeAt(t).value) !in AcquireCalls(s, e)
    decreases e - s
  {
    if s < e {
      AcquisitionIsNoRelease(s);
      ScopeIsRelease(t);
      AcquireCallsHoldNoRelease(s + 1, e, t);
    }
  }

  /** `Unwind(s, e)` issues the release of each scope opened between `s` and `e` exactly once. */
  lemma {:induction false} UnwindReleasesOnce(s: nat, e: nat, t: nat)
    requires s <= e && ScopeAt(t).Some?
    ensures multiset(Unwind(s, e))[DriverCall(ScopeAt(t).value)] == if s <= t < e then 1 else 0
    decreases e - s
  {
    if s < e {
      UnwindReleasesOnce(s + 1, e, t);
      ReleaseCallsCount(s, t);
      CountConcat(Unwind(s + 1, e), ReleaseCalls(s), DriverCall(ScopeAt(t).value));
    }
  }

  /**
   * Release discipline: the ladder from step `s` issues the release of the scope opened at
   * step `t` exactly once when it entered that scope (the acquisition call was issued,
   * whether or not it raised), and never otherwise, provided the data path does not issue it.
   */
  lemma ReleasedOnceIffEntered(raises: set<DriverOp>, data: seq<Call>, s: nat, t: nat)
    requires s <= DataLevel && t < DataLevel && ScopeAt(t).Some? && DriverCall(ScopeAt(t).value) !in data
    ensures multiset(LadderCalls(raises, data, s))[DriverCall(ScopeAt(t).value)]
      == if s <= t <= FirstFailure(raises, s) then 1 else 0
  {
    var r, e := DriverCall(ScopeAt(t).value), Stop(raises, s);
    var mid := if FirstFailure(raises, s) == DataLevel then data else [];
    LadderIsStack(raises, data, s);
    AcquireCallsHoldNoRelease(s, e, t);
    UnwindReleasesOnce(s, e, t);
    CountSplit(AcquireCalls(s, e), mid, Unwind(s, e), r);
  }

  /** The release of a scope opened at a step between `s` and `e` is issued by `Unwind(s, e)`. */
  lemma {:induction false} UnwindIssues(s: nat, e: nat, t: nat) returns (k: nat)
    requires s <= t < e && ScopeAt(t).Some?
    ensures k < |Unwind(s, e)| && Unwind(s, e)[k] == DriverCall(ScopeAt(t).value)
    decreases e - s
  {
    var u, r := Unwind(s + 1, e), ReleaseCalls(s);
    assert Unwind(s, e) == u + r;
    if s == t {
      k := |u|;
    } else {
      k := UnwindIssues(s + 1, e, t);
    }
  }

  /** `Unwind` releases an inner scope before an outer one. */
  lemma {:induction false} UnwindIsReversed(s: nat, e: nat, t1: nat, t2: nat) returns (i: nat, j: nat)
    requires s <= t1 < t2 < e && ScopeAt(t1).Some? && ScopeAt(t2).Some?
    ensures i < j < |Unwind(s, e)|
    ensures Unwind(s, e)[i] == DriverCall(ScopeAt(t2).value) && Unwind(s, e)[j] == DriverCall(ScopeAt(t1).value)
    decreases e - s
  {
    var u, r := Unwind(s + 1, e), ReleaseCalls(s);
    assert Unwind(s, e) == u + r;
    if s == t1 {
      i := UnwindIssues(s + 1, e, t2);
      j := |u|;
    } else {
      i, j := UnwindIsReversed(s + 1, e, t1, t2);
    }
  }

  /** The calls that may raise but never escape a session, because line 80 absorbs them. */
  predicate Absorbable(op: DriverOp)
  {
    op == NegotiateChannel || op == BeginEHSM || op == GetPumpTime || op == FinishEHSM
      || op == GetPumpMeasurement || op == GetPumpHistory || op == ProcessPumpHistory
  }

  /**
   * Above the handler, the ladder raises exactly when an acquisition before step 7 raises
   * or the release of an entered scope raises; what it raises is a raising call that the
   * handler cannot absorb.
   */
  lemma {:induction false} UpperLadderOutcome(raises: set<DriverOp>, s: nat)
    requires s < CatchLevel
    ensures LadderOutcome(raises, s).Raised? ==> LadderOutcome(raises, s).op in raises && !Absorbable(LadderOutcome(raises, s).op)
    ensures LadderOutcome(raises, s).Raised? <==>
      var f := FirstFailure(raises, s);
      f < CatchLevel
        || (s <= 1 <= f && ExitControlMode in raises)
        || (s <= 3 <= f && ExitPassthroughMode in raises)
        || (s <= 4 <= f && CloseConnection in raises)
    decreases CatchLevel - s
  {
    if s + 1 < CatchLevel {
      UpperLadderOutcome(raises, s + 1);
    }
  }

  /**
   * The handler of line 80 runs exactly when every call before `negotiateChannel` succeeded
   * and `negotiateChannel`, the high-speed mode or the data path raised.
   */
  lemma CatchIffInnerFailure(raises: set<DriverOp>)
    ensures CatchRuns(raises, 0) <==>
      var f := FirstFailure(raises, 0);
      CatchLevel <= f && (f < DataLevel || FinishEHSM in raises || DataFailure(raises).Raised?)
  {
    assert FirstFailure(raises, 0) >= CatchLevel ==> FirstFailure(raises, 0) == FirstFailure(raises, CatchLevel);
  }

  /** The data path completes exactly when no acquisition and no call of the data path raised. */
  lemma DataReachedIffNothingRaised(raises: set<DriverOp>)
    ensures DataReached(raises, 0) <==>
      (forall s :: 0 <= s < DataLevel ==> Acquisition[s] !in raises)
        && GetPumpMeasurement !in raises && GetPumpHistory !in raises && ProcessPumpHistory !in raises
  {
  }
}
