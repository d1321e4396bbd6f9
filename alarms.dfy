/**
 * Event correlation of pump_connector/pump_connector.py: the dictionary of alarms not
 * yet acknowledged (`_get_not_acknowledged_pump_alarms`) and the set-change marker
 * (`_get_set_change_timestamp`).
 */
module Alarms {
  import opened Wrappers
  import opened History

  /** One entry of the alarm dictionary: an event id and the notification stored under it. */
  datatype Entry = Entry(id: string, event: HistoryEvent)

  /**
   * The dictionary `events_found` as a Python dict is: its entries in insertion order.
   * Assigning to a present key keeps its position; a new key goes to the end.
   */
  type Dict = seq<Entry>

  /** `id in d`. */
  function Contains(d: Dict, id: string): bool
  {
    d != [] && (d[0].id == id || Contains(d[1..], id))
  }

  /** Python dict keys are distinct. */
  predicate DistinctIds(d: Dict)
  {
    d == [] || (!Contains(d[1..], d[0].id) && DistinctIds(d[1..]))
  }

  /** `d[id]` when the key is present. */
  function Lookup(d: Dict, id: string): Option<HistoryEvent>
  {
    if d == [] then None
    else if d[0].id == id then Some(d[0].event)
    else Lookup(d[1..], id)
  }

  /** `d[id] = e`: a present key keeps its position, a new key goes to the end. */
  function Put(d: Dict, id: string, e: HistoryEvent): Dict
  {
    if d == [] then [Entry(id, e)]
    else if d[0].id == id then [Entry(id, e)] + d[1..]
    else [d[0]] + Put(d[1..], id, e)
  }

  /** `del d[id]`, which the source issues only when the key is present. */
  function Delete(d: Dict, id: string): Dict
  {
    if d == [] then []
    else if d[0].id == id then d[1..]
    else [d[0]] + Delete(d[1..], id)
  }

  lemma {:induction false} LookupFindsContained(d: Dict, id: string)
    ensures Lookup(d, id).Some? <==> Contains(d, id)
  {
    if d != [] && d[0].id != id {
      LookupFindsContained(d[1..], id);
    }
  }

  /** After `d[id] = e` the key is present and nothing else changed. */
  lemma {:induction false} PutSpec(d: Dict, id: string, e: HistoryEvent, k: string)
    ensures Lookup(Put(d, id, e), k) == if k == id then Some(e) else Lookup(d, k)
    ensures Contains(Put(d, id, e), k) <==> k == id || Contains(d, k)
  {
    if d != [] && d[0].id != id {
      PutSpec(d[1..], id, e, k);
      assert Put(d, id, e)[1..] == Put(d[1..], id, e);
    } else if d != [] {
      assert Put(d, id, e)[1..] == d[1..];
    }
  }

  /** `d[id] = e` keeps keys distinct. */
  lemma {:induction false} PutKeepsDistinct(d: Dict, id: string, e: HistoryEvent)
    requires DistinctIds(d)
    ensures DistinctIds(Put(d, id, e))
  {
    if d != [] && d[0].id != id {
      PutKeepsDistinct(d[1..], id, e);
      PutSpec(d[1..], id, e, d[0].id);
      assert Put(d, id, e)[1..] == Put(d[1..], id, e);
    } else if d != [] {
      assert Put(d, id, e)[1..] == d[1..];
    }
  }

  /** After `del d[id]` the key is absent and nothing else changed. */
  lemma {:induction false} DeleteSpec(d: Dict, id: string, k: string)
    requires DistinctIds(d)
    ensures DistinctIds(Delete(d, id))
    ensures Lookup(Delete(d, id), k) == if k == id then None else Lookup(d, k)
    ensures Contains(Delete(d, id), k) <==> k != id && Contains(d, k)
  {
    if d != [] {
      if d[0].id == id {
        LookupFindsContained(d[1..], id);
      } else {
        DeleteSpec(d[1..], id, k);
        DeleteSpec(d[1..], id, d[0].id);
        assert Delete(d, id)[1..] == Delete(d[1..], id);
      }
    }
  }

  /** Iterating a dict with distinct keys: `d[k]` for each key `k` is the value stored beside it. */
  lemma {:induction false} LookupAtIndex(d: Dict, k: nat)
    requires DistinctIds(d) && k < |d|
    ensures Lookup(d, d[k].id) == Some(d[k].event)
  {
    if k > 0 {
      var rest := d[1..];
      assert rest[k - 1] == d[k];
      LookupAtIndex(rest, k - 1);
      LookupFindsContained(rest, d[k].id);
    }
  }

  /** One pass of the loop body of `_get_not_acknowledged_pump_alarms`. */
  function Step(d: Dict, e: HistoryEvent, now: int): Dict
  {
    if IsPumpEventNew(e, now) && !EventsToIgnore(e) then
      if e.AlarmNotification? then Put(d, PumpEventId(e), e)
      else if e.AlarmCleared? && Contains(d, PumpEventId(e)) then Delete(d, PumpEventId(e))
      else d
    else d
  }

  /** The dictionary the loop has built after processing `events` in order. */
  function AlarmDict(events: seq<HistoryEvent>, now: int): Dict
  {
    if events == [] then [] else Step(AlarmDict(events[..|events| - 1], now), events[|events| - 1], now)
  }

  /** A fresh notification with this id. */
  predicate Notifies(e: HistoryEvent, now: int, id: string)
  {
    IsPumpEventNew(e, now) && e.AlarmNotification? && PumpEventId(e) == id
  }

  /** A fresh clearing with this id. */
  predicate Clears(e: HistoryEvent, now: int, id: string)
  {
    IsPumpEventNew(e, now) && e.AlarmCleared? && PumpEventId(e) == id
  }

  /**
   * Reference definition of the alarm standing under an id, read from the end of the
   * history: the last fresh alarm event with that id decides; a notification stands, a
   * clearing (or no such event) leaves nothing. It has no ignore rule and no dictionary.
   */
  function Standing(events: seq<HistoryEvent>, now: int, id: string): Option<HistoryEvent>
  {
    if events == [] then None
    else
      var e := events[|events| - 1];
      if Notifies(e, now, id) then Some(e)
      else if Clears(e, now, id) then None
      else Standing(events[..|events| - 1], now, id)
  }

  /**
   * The dictionary the source builds has distinct keys and holds, under each id, exactly
   * the alarm the reference definition says stands. Since the reference has no ignore
   * rule, the ignore filter at :162 has no effect on the contents.
   */
  lemma {:induction false} AlarmDictMatchesReference(events: seq<HistoryEvent>, now: int)
    ensures DistinctIds(AlarmDict(events, now))
    ensures forall id :: Lookup(AlarmDict(events, now), id) == Standing(events, now, id)
  {
    if events != [] {
      var pre := events[..|events| - 1];
      var e := events[|events| - 1];
      AlarmDictMatchesReference(pre, now);
      var d := AlarmDict(pre, now);
      var id := PumpEventId(e);
      assert AlarmDict(events, now) == Step(d, e, now);
      if IsPumpEventNew(e, now) && !EventsToIgnore(e) && e.AlarmNotification? {
        PutKeepsDistinct(d, id, e);
        forall k ensures Lookup(Put(d, id, e), k) == Standing(events, now, k) {
          PutSpec(d, id, e, k);
        }
      } else if IsPumpEventNew(e, now) && !EventsToIgnore(e) && e.AlarmCleared? {
        LookupFindsContained(d, id);
        if Contains(d, id) {
          DeleteSpec(d, id, id);
          forall k ensures Lookup(Delete(d, id), k) == Standing(events, now, k) {
            DeleteSpec(d, id, k);
          }
        }
      }
    }
  }

  /**
   * `Standing` in closed form, one direction: a standing alarm is a fresh notification
   * at some index `i` with no later fresh alarm event of its id.
   */
  lemma {:induction false} StandingIsLastUnclearedNotification(events: seq<HistoryEvent>, now: int, id: string) returns (i: nat)
    requires Standing(events, now, id).Some?
    ensures i < |events| && events[i] == Standing(events, now, id).value && Notifies(events[i], now, id)
    ensures forall j :: i < j < |events| ==> !Notifies(events[j], now, id) && !Clears(events[j], now, id)
  {
    var n := |events| - 1;
    var pre := events[..n];
    if Notifies(events[n], now, id) {
      i := n;
    } else {
      assert !Clears(events[n], now, id);
      assert Standing(events, now, id) == Standing(pre, now, id);
      i := StandingIsLastUnclearedNotification(pre, now, id);
      assert events[i] == pre[i];
      forall j | i < j < |events| ensures !Notifies(events[j], now, id) && !Clears(events[j], now, id) {
        if j < n {
          assert events[j] == pre[j];
        } else {
          assert j == n;
        }
      }
    }
  }

  /** `Standing` in closed form, the other direction: such a notification is the alarm that stands. */
  lemma {:induction false} LastUnclearedNotificationStands(events: seq<HistoryEvent>, now: int, id: string, i: nat)
    requires i < |events| && Notifies(events[i], now, id)
    requires forall j :: i < j < |events| ==> !Notifies(events[j], now, id) && !Clears(events[j], now, id)
    ensures Standing(events, now, id) == Some(events[i])
  {
    var n := |events| - 1;
    if i < n {
      var pre := events[..n];
      assert pre[i] == events[i];
      assert forall j :: i < j < |pre| ==> pre[j] == events[j];
      LastUnclearedNotificationStands(pre, now, id, i);
    }
  }

  /** The loop's dictionary after one more event is one more step. */
  lemma AlarmDictSnoc(s: seq<HistoryEvent>, x: HistoryEvent, now: int)
    ensures AlarmDict(s + [x], now) == Step(AlarmDict(s, now), x, now)
  {
    var L := s + [x];
    assert L[..|L| - 1] == s && L[|L| - 1] == x;
  }

  /** An event whose step leaves the dictionary unchanged can be dropped from the history. */
  lemma {:induction false} NoOpStepIsIrrelevant(a: seq<HistoryEvent>, e: HistoryEvent, b: seq<HistoryEvent>, now: int)
    requires Step(AlarmDict(a, now), e, now) == AlarmDict(a, now)
    ensures AlarmDict(a + [e] + b, now) == AlarmDict(a + b, now)
  {
    if b == [] {
      assert a + [e] + b == a + [e] && a + b == a;
      AlarmDictSnoc(a, e, now);
    } else {
      var b', x := b[..|b| - 1], b[|b| - 1];
      NoOpStepIsIrrelevant(a, e, b', now);
      var l, r := a + [e] + b', a + b';
      assert a + [e] + b == l + [x] && a + b == r + [x];
      AlarmDictSnoc(l, x, now);
      AlarmDictSnoc(r, x, now);
    }
  }

  /** A stale event, wherever it sits in the history, never changes the alarm dictionary. */
  lemma StaleEventIsIrrelevant(a: seq<HistoryEvent>, e: HistoryEvent, b: seq<HistoryEvent>, now: int)
    requires !IsPumpEventNew(e, now)
    ensures AlarmDict(a + [e] + b, now) == AlarmDict(a + b, now)
  {
    NoOpStepIsIrrelevant(a, e, b, now);
  }

  /** A clearing that precedes every fresh notification of its id has no effect. */
  lemma ClearBeforeNotificationIsIrrelevant(a: seq<HistoryEvent>, c: HistoryEvent, b: seq<HistoryEvent>, now: int)
    requires c.AlarmCleared?
    requires forall i :: 0 <= i < |a| ==> !Notifies(a[i], now, PumpEventId(c))
    ensures AlarmDict(a + [c] + b, now) == AlarmDict(a + b, now)
  {
    var id := PumpEventId(c);
    AlarmDictMatchesReference(a, now);
    NoNotificationNoStanding(a, now, id);
    LookupFindsContained(AlarmDict(a, now), id);
    NoOpStepIsIrrelevant(a, c, b, now);
  }

  lemma {:induction false} NoNotificationNoStanding(events: seq<HistoryEvent>, now: int, id: string)
    requires forall i :: 0 <= i < |events| ==> !Notifies(events[i], now, id)
    ensures Standing(events, now, id) == None
  {
    if events != [] {
      var pre := events[..|events| - 1];
      assert forall i :: 0 <= i < |pre| ==> pre[i] == events[i];
      NoNotificationNoStanding(pre, now, id);
    }
  }

  /** A fresh notification followed by its fresh clearing leaves no alarm. */
  lemma NotificationThenClearLeavesNothing(n: HistoryEvent, c: HistoryEvent, now: int)
    requires n.AlarmNotification? && c.AlarmCleared? && PumpEventId(n) == PumpEventId(c)
    requires IsPumpEventNew(n, now) && IsPumpEventNew(c, now)
    ensures AlarmDict([n, c], now) == []
  {
    var id := PumpEventId(n);
    assert [n] == [] + [n] && [n, c] == [n] + [c];
    AlarmDictSnoc([], n, now);
    AlarmDictSnoc([n], c, now);
    var d1 := AlarmDict([n], now);
    assert d1 == [Entry(id, n)];
    assert Contains(d1, id);
  }

  /** The dictionary is empty exactly when no alarm stands under any id. */
  lemma AlarmDictEmptyIffNothingStands(events: seq<HistoryEvent>, now: int)
    ensures AlarmDict(events, now) == [] <==> forall id :: Standing(events, now, id).None?
  {
    var d := AlarmDict(events, now);
    AlarmDictMatchesReference(events, now);
    if d != [] {
      assert Lookup(d, d[0].id) == Some(d[0].event);
      assert Standing(events, now, d[0].id).Some?;
    }
  }

  /**
   * `_get_not_acknowledged_pump_alarms`: one pass over the history that stores fresh
   * notifications under their id and deletes the entry on a fresh clearing. `now` stands
   * for the clock read by `_is_pump_event_new`.
   */
  method GetNotAcknowledgedPumpAlarms(events: seq<HistoryEvent>, now: int) returns (found: Dict)
    ensures found == AlarmDict(events, now)
    ensures DistinctIds(found)
    ensures forall id :: Lookup(found, id) == Standing(events, now, id)
  {
    found := [];
    for i := 0 to |events|
      invariant found == AlarmDict(events[..i], now)
    {
      var event := events[i];
      assert events[..i + 1][..i] == events[..i];
      if IsPumpEventNew(event, now) {
        if !EventsToIgnore(event) {
          if event.AlarmNotification? {
            found := Put(found, PumpEventId(event), event);
          }
          if event.AlarmCleared? {
            if Contains(found, PumpEventId(event)) {
              found := Delete(found, PumpEventId(event));
            }
          }
        }
      }
    }
    assert events[..|events|] == events;
    AlarmDictMatchesReference(events, now);
  }

  /**
   * The value `_get_set_change_timestamp` leaves in `_set_change_timestamp`: the
   * timestamp of the last set-change stop, or the previous value when there is none.
   * There is no freshness filter.
   */
  function LastSetChange(events: seq<HistoryEvent>, previous: Option<int>): Option<int>
  {
    if events == [] then previous
    else if IsSetChange(events[|events| - 1]) then Some(events[|events| - 1].timestamp)
    else LastSetChange(events[..|events| - 1], previous)
  }

  /** With no set-change stop in the history the marker keeps its previous value. */
  lemma {:induction false} NoSetChangeKeepsMarker(events: seq<HistoryEvent>, previous: Option<int>)
    requires forall i :: 0 <= i < |events| ==> !IsSetChange(events[i])
    ensures LastSetChange(events, previous) == previous
  {
    if events != [] {
      var pre := events[..|events| - 1];
      assert forall i :: 0 <= i < |pre| ==> pre[i] == events[i];
      NoSetChangeKeepsMarker(pre, previous);
    }
  }

  /** Otherwise the marker is the timestamp of the last set-change stop, stale or not. */
  lemma {:induction false} LastSetChangeWins(events: seq<HistoryEvent>, previous: Option<int>, i: nat)
    requires i < |events| && IsSetChange(events[i])
    requires forall j :: i < j < |events| ==> !IsSetChange(events[j])
    ensures LastSetChange(events, previous) == Some(events[i].timestamp)
  {
    var n := |events| - 1;
    if i < n {
      var pre := events[..n];
      assert pre[i] == events[i];
      assert forall j :: i < j < |pre| ==> pre[j] == events[j];
      LastSetChangeWins(pre, previous, i);
    }
  }
}
