/**
 * `wait` of pump_connector/pump_connector.py (lines 129-149): when the next session is due
 * and how many five-second sleeps pass until then. Times are integer seconds; the clock
 * and the switch are given as the readings the loop takes.
 */
module Schedule {

  /** Line 130. */
  const MinimumWait: int := 30
  /** Lines 137-138: five and a half minutes after the last connection. */
  const SwitchedOnDelay: int := 5 * 60 + 30
  /** Line 140: five minutes from now. */
  const SwitchedOffDelay: int := 5 * 60
  /** Line 147. */
  const PollInterval: int := 5

  /**
   * Lines 136-144: the time to wait for. Switched on, it is five and a half minutes after
   * the last connection, switched off five minutes from now, and never less than
   * thirty seconds ahead.
   */
  function WaitTarget(switchedOn: bool, connectionTimestamp: int, now: int): (t: int)
    ensures t >= now + MinimumWait
    ensures switchedOn ==> t >= connectionTimestamp + SwitchedOnDelay
    ensures switchedOn ==> t == connectionTimestamp + SwitchedOnDelay || t == now + MinimumWait
    ensures !switchedOn ==> t == now + SwitchedOffDelay
  {
    var target := if switchedOn then connectionTimestamp + SwitchedOnDelay else now + SwitchedOffDelay;
    if target - now < MinimumWait then now + MinimumWait else target
  }

  /**
   * One pass of the loop of lines 146-149: the clock read by the loop condition, then,
   * after the sleep, the switch state read on line 148.
   */
  datatype Poll = Poll(clock: int, switchedOn: bool)

  /**
   * The number of sleeps the loop takes over `polls`: it sleeps while the clock has not
   * passed `target` and stops after the sleep in which the switch no longer reads
   * `initial`. Running out of readings ends the loop too.
   */
  function Sleeps(target: int, initial: bool, polls: seq<Poll>): (n: nat)
    ensures n <= |polls|
    decreases |polls|
  {
    if polls == [] || polls[0].clock > target then 0
    else if polls[0].switchedOn != initial then 1
    else 1 + Sleeps(target, initial, polls[1..])
  }

  /** The loop goes round again after reading `p`: the clock had not passed and the switch was unchanged. */
  predicate Continues(target: int, initial: bool, p: Poll)
  {
    p.clock <= target && p.switchedOn == initial
  }

  /**
   * The loop sleeps in each of its first `n` passes, each of them but the last goes round
   * again, and it stops at pass `n`: the clock had passed the target, the switch had
   * changed during the last sleep, or the readings ran out.
   */
  lemma {:induction false} SleepsStopAtFirstExit(target: int, initial: bool, polls: seq<Poll>)
    ensures var n := Sleeps(target, initial, polls);
      (forall i :: 0 <= i < n ==> polls[i].clock <= target)
      && (forall i :: 0 <= i < n - 1 ==> Continues(target, initial, polls[i]))
      && (n == |polls| || polls[n].clock > target || (n > 0 && polls[n - 1].switchedOn != initial))
    decreases |polls|
  {
    if polls != [] && polls[0].clock <= target && polls[0].switchedOn == initial {
      var rest := polls[1..];
      SleepsStopAtFirstExit(target, initial, rest);
      var n := Sleeps(target, initial, polls);
      assert n == 1 + Sleeps(target, initial, rest);
      forall i | 0 <= i < n ensures polls[i].clock <= target {
        if i > 0 { assert polls[i] == rest[i - 1]; }
      }
      forall i | 0 <= i < n - 1 ensures Continues(target, initial, polls[i]) {
        if i > 0 { assert polls[i] == rest[i - 1]; }
      }
      if n < |polls| {
        assert polls[n] == rest[n - 1];
      }
      if n > 1 {
        assert polls[n - 1] == rest[n - 2];
      }
    }
  }

  /** A switch that flips during the first sleep ends the wait after that one sleep. */
  lemma SwitchEndsWaitEarly(target: int, initial: bool, polls: seq<Poll>)
    requires polls != [] && polls[0].clock <= target && polls[0].switchedOn != initial
    ensures Sleeps(target, initial, polls) == 1
  {
  }

  /**
   * With a steady switch, the loop sleeps exactly as long as the readings stay at or
   * before the target (the comparison on line 146 is `>=`).
   */
  lemma {:induction false} SteadySwitchSleepsUntilTarget(target: int, initial: bool, polls: seq<Poll>, n: nat)
    requires n <= |polls|
    requires forall i :: 0 <= i < n ==> Continues(target, initial, polls[i])
    requires n < |polls| ==> polls[n].clock > target
    ensures Sleeps(target, initial, polls) == n
    decreases n
  {
    if n > 0 {
      var rest := polls[1..];
      forall i | 0 <= i < n - 1 ensures Continues(target, initial, rest[i]) {
        assert rest[i] == polls[i + 1];
      }
      if n - 1 < |rest| {
        assert rest[n - 1] == polls[n];
      }
      SteadySwitchSleepsUntilTarget(target, initial, rest, n - 1);
    }
  }

  /**
   * The readings of the unit test `test_wait_standard_waiting_time`: connected at 12:00:00,
   * switched on, clock readings 12:00:05, 12:00:07, 12:05:30 and 12:10:00. The target is
   * 12:05:30, which the third reading equals, so the loop sleeps three times.
   */
  lemma StandardWaitOnTestReadings()
    ensures WaitTarget(true, 43200, 43200) == 43530
    ensures Sleeps(43530, true, [Poll(43205, true), Poll(43207, true), Poll(43530, true), Poll(43800, true)]) == 3
  {
    var polls := [Poll(43205, true), Poll(43207, true), Poll(43530, true), Poll(43800, true)];
    SteadySwitchSleepsUntilTarget(43530, true, polls, 3);
  }
}
