/**
 TimeEvent and Timer of source/coroutine/timer.cpp, proved against TimerSet and the machine of TimerRuns; clock
 readings are parameters.
 */
module Timers {
  import opened TimerSet
  import opened TimerRuns

  const NEVER: nat := 0xFFFF_FFFF_FFFF_FFFF

  class TimeEvent {
    const timer: Timer
    // stands for the object's address
    const id: nat
    const callback: nat
    var due: nat
    var interval: nat
    var repeated: bool
    var cancelled: bool
    var stopped: bool

    constructor (id: nat, interval: nat, callback: nat, timer: Timer, repeated: bool, now: nat)
      ensures View() == Event(id, now + interval, interval, repeated, false, false, callback) && this.timer == timer
    {
      this.id, this.timer, this.callback := id, timer, callback;
      this.interval, this.repeated := interval, repeated;
      due, cancelled, stopped := now + interval, false, false;
    }

    function View(): Event
      reads this
    {
      Event(id, due, interval, repeated, cancelled, stopped, callback)
    }

    /** resetTime(): find by due time, erase what was found, insert this event with a new due time. */
    method ResetTime(now: nat) returns (found: bool)
      requires timer.Owns(this)
      modifies this, timer
      ensures timer.Owns(this) && found == Holds(old(timer.View()), old(due))
      ensures (timer.View(), View()) == Reset(old(timer.View()), old(View()), old(interval), now)
      ensures timer.State() == Next(old(timer.State()), Call(Action.ResetTime(id), now))
      ensures found <==> exists e :: e in old(timer.events) && old(e.due) == old(due)
      ensures found ==> this.interval == old(interval) && due == now + old(interval) && !cancelled
      ensures !found ==> unchanged(this)
      ensures unchanged(`repeated, `stopped)
      ensures Evicts(old(timer.View()), timer.View(), old(View())) <==> found && old(this !in timer.events)
    {
      hide Rank, Evicts, TimerSet.Insert, Erase, Sorted, Holds;
      EvictsWhen(timer, this, interval, now);
      found := timer.RemoveDue(due);
      if found {
        ghost var s := timer.View();
        due := now + interval;
        cancelled := false;
        assert View() == Reset(old(timer.View()), old(View()), interval, now).1;
        assert timer.View() == s;
        OthersStay(timer.objects, this, old(Snapshot(timer.objects)));
        timer.Insert(this);
      }
    }

    /** resetTime(interval) */
    method ResetTimeTo(interval: nat, now: nat) returns (found: bool)
      requires timer.Owns(this)
      modifies this, timer
      ensures timer.Owns(this) && found == Holds(old(timer.View()), old(due))
      ensures (timer.View(), View()) == Reset(old(timer.View()), old(View()), interval, now)
      ensures timer.State() == Next(old(timer.State()), Call(Action.ResetTimeTo(id, interval), now))
      ensures found <==> exists e :: e in old(timer.events) && old(e.due) == old(due)
      ensures found ==> this.interval == interval && due == now + interval && !cancelled
      ensures !found ==> unchanged(this)
      ensures unchanged(`repeated, `stopped)
      ensures Evicts(old(timer.View()), timer.View(), old(View())) <==> found && old(this !in timer.events)
    {
      hide Rank, Evicts, TimerSet.Insert, Erase, Sorted, Holds;
      EvictsWhen(timer, this, interval, now);
      found := timer.RemoveDue(due);
      if found {
        ghost var s := timer.View();
        this.interval := interval;
        due := now + interval;
        cancelled := false;
        assert View() == Reset(old(timer.View()), old(View()), interval, now).1;
        assert timer.View() == s;
        OthersStay(timer.objects, this, old(Snapshot(timer.objects)));
        timer.Insert(this);
      }
    }

    method Wake()
      requires timer.Owns(this)
      modifies `cancelled, `stopped
      ensures View() == old(View()).(cancelled := false, stopped := false)
      ensures timer.State() == Next(old(timer.State()), Call(Action.Wake(id), 0))
      ensures timer.Owns(this) && timer.events == old(timer.events)
    {
      PendingAreMade(timer);
      ghost var s := timer.State();
      cancelled, stopped := false, false;
      FlagSet(timer, this, s);
    }

    method Cancel()
      requires timer.Owns(this)
      modifies `cancelled
      ensures View() == old(View()).(cancelled := true)
      ensures timer.State() == Next(old(timer.State()), Call(Action.Cancel(id), 0))
      ensures timer.Owns(this) && timer.events == old(timer.events)
    {
      PendingAreMade(timer);
      ghost var s := timer.State();
      cancelled := true;
      FlagSet(timer, this, s);
    }

    method Stop()
      requires timer.Owns(this)
      modifies `stopped
      ensures View() == old(View()).(stopped := true)
      ensures timer.State() == Next(old(timer.State()), Call(Action.Stop(id), 0))
      ensures timer.Owns(this) && timer.events == old(timer.events)
    {
      PendingAreMade(timer);
      ghost var s := timer.State();
      stopped := true;
      FlagSet(timer, this, s);
    }

    method CancelRepeated()
      requires timer.Owns(this)
      modifies `repeated
      ensures View() == old(View()).(repeated := false)
      ensures timer.State() == Next(old(timer.State()), Call(Action.CancelRepeated(id), 0))
      ensures timer.Owns(this) && timer.events == old(timer.events)
    {
      PendingAreMade(timer);
      ghost var s := timer.State();
      repeated := false;
      FlagSet(timer, this, s);
    }

    method SetRepeated()
      requires timer.Owns(this)
      modifies `repeated
      ensures View() == old(View()).(repeated := true)
      ensures timer.State() == Next(old(timer.State()), Call(Action.SetRepeated(id), 0))
      ensures timer.Owns(this) && timer.events == old(timer.events)
    {
      PendingAreMade(timer);
      ghost var s := timer.State();
      repeated := true;
      FlagSet(timer, this, s);
    }
  }

  function Snapshot(es: seq<TimeEvent>): (s: seq<Event>)
    reads es
    ensures |s| == |es| && forall i :: 0 <= i < |es| ==> s[i] == es[i].View()
  {
    seq(|es|, i requires 0 <= i < |es| reads es => es[i].View())
  }

  lemma SnapshotWith(es: seq<TimeEvent>, k: nat, e: TimeEvent)
    requires k <= |es|
    ensures Snapshot(es[..k] + [e] + es[k..]) == Snapshot(es)[..k] + [e.View()] + Snapshot(es)[k..]
  {}

  lemma SnapshotAppend(es: seq<TimeEvent>, e: TimeEvent)
    ensures Snapshot(es + [e]) == Snapshot(es) + [e.View()]
  {}

  lemma SnapshotSplit(es: seq<TimeEvent>, k: nat)
    requires k <= |es|
    ensures Snapshot(es[..k]) == Snapshot(es)[..k] && Snapshot(es[k..]) == Snapshot(es)[k..]
  {}

  lemma SnapshotWithout(es: seq<TimeEvent>, k: nat)
    requires k < |es|
    ensures Snapshot(es[..k] + es[k + 1..]) == Snapshot(es)[..k] + Snapshot(es)[k + 1..]
  {}

  /** An event is in the set exactly when the set shows it as it is now; nothing else has its identity. */
  lemma PendingIsViewed(t: Timer, e: TimeEvent)
    requires t.Owns(e)
    ensures e in t.events <==> e.View() in t.View()
    ensures OneOf(t.View(), e.View())
  {
    forall k | 0 <= k < |t.events| && t.View()[k].id == e.id ensures t.events[k] == e {
      assert MadeAs(t.objects, t.events[k]);
    }
    if k :| 0 <= k < |t.events| && t.events[k] == e {
      assert t.View()[k] == e.View();
    }
  }

  lemma EvictsWhen(t: Timer, e: TimeEvent, interval: nat, now: nat)
    requires t.Owns(e)
    ensures Evicts(t.View(), Reset(t.View(), e.View(), interval, now).0, e.View())
      <==> Holds(t.View(), e.due) && e !in t.events
  {
    PendingIsViewed(t, e);
    HoldsIsMembership(t.View(), e.due);
    ResetEvictsExactlyWhen(t.View(), e.View(), interval, now);
  }

  lemma NoneDueAt(t: Timer, s: seq<Event>, due: nat)
    requires Sorted(s) && t.View() == if Holds(s, due) then Erase(s, due) else s
    ensures forall e :: e in t.events ==> e.due != due
  {
    forall e | e in t.events ensures e.due != due {
      var k :| 0 <= k < |t.events| && t.events[k] == e;
      assert t.View()[k] == e.View();
      if Holds(s, due) {
        EraseTakesOut(s, due, e.View());
      } else {
        HoldsIsMembership(s, due);
      }
    }
  }

  lemma EachOnce(t: Timer, k: nat)
    requires t.Valid() && k <= |t.events|
    ensures forall i :: 0 <= i < k ==> MadeAs(t.objects, t.events[i]) && t.events[i] !in t.events[k..]
    ensures forall i, j :: 0 <= i < j < |t.events| ==> t.events[i] != t.events[j]
  {
    forall i, j | 0 <= i < j < |t.events| ensures t.events[i] != t.events[j] {
      assert t.View()[i].due < t.View()[j].due;
    }
    forall i | 0 <= i < k ensures MadeAs(t.objects, t.events[i]) && t.events[i] !in t.events[k..] {
      assert t.events[i] in t.events;
    }
  }

  lemma MembersWith(es: seq<TimeEvent>, k: nat, e: TimeEvent)
    requires k <= |es|
    ensures forall x :: x in es[..k] + [e] + es[k..] ==> x in es || x == e
  {}

  lemma TailStays(s: seq<Event>, es: seq<TimeEvent>, k: nat)
    requires Sorted(s) && k <= |s| && k <= |es|
    ensures Sorted(s[k..]) && forall x :: x in es[k..] ==> x in es
  {}

  lemma CallbacksOfNone(s: seq<Event>)
    ensures Callbacks(s[..0]) == []
  {}

  lemma MembersWithout(es: seq<TimeEvent>, k: nat)
    requires k < |es|
    ensures forall x :: x in es[..k] + es[k + 1..] ==> x in es
  {}

  lemma PendingAreMade(t: Timer)
    requires t.Valid()
    ensures Consistent(t.State()) && Mirrors(t, t.State())
  {
    forall k | 0 <= k < |t.events| ensures MadeAs(t.objects, t.events[k]) && t.View()[k] == t.events[k].View() {
      assert t.events[k] in t.events;
    }
    forall x | x in t.View() ensures IsCurrent(t.State(), x) {
      var k :| 0 <= k < |t.events| && t.View()[k] == x;
      assert t.objects[t.events[k].id].View() == x;
    }
  }

  /** The events of s are those of t, pending ones in the same places. */
  ghost predicate Mirrors(t: Timer, s: State)
    reads t
  {
    && |s.made| == |t.objects| && |s.pending| == |t.events|
    && (forall k :: 0 <= k < |t.events| ==> MadeAs(t.objects, t.events[k]) && s.pending[k] == s.made[t.events[k].id])
  }

  /** Flags are no part of the order: only e has changed since state s, and not when it is due. */
  lemma FlagSet(t: Timer, e: TimeEvent, s: State)
    requires t.Identified() && MadeAs(t.objects, e) && Consistent(s) && Mirrors(t, s) && s.made[e.id].due == e.due
    requires forall k :: 0 <= k < |t.objects| && t.objects[k] != e ==> t.objects[k].View() == s.made[k]
    ensures t.Owns(e) && t.State() == WithEvent(s, e.id, e.View())
  {
    var s' := WithEvent(s, e.id, e.View());
    OthersStay(t.objects, e, s.made);
    forall k | 0 <= k < |t.events| ensures t.View()[k].due == s.pending[k].due && t.View()[k] == s'.pending[k] {
      assert MadeAs(t.objects, t.events[k]);
    }
  }

  lemma OthersStay(objects: seq<TimeEvent>, e: TimeEvent, made: seq<Event>)
    requires |made| == |objects| && MadeAs(objects, e)
    requires forall k :: 0 <= k < |objects| && objects[k] != e ==> objects[k].View() == made[k]
    requires forall k :: 0 <= k < |objects| ==> objects[k].id == k
    ensures Snapshot(objects) == made[e.id := e.View()]
  {}

  lemma ExpireParts(s: seq<Event>, now: nat)
    ensures var k := Rank(s, now + 1);
      Expire(s, now) == (Callbacks(s[..k]), InsertAll(s[k..], Rearmed(s[..k], now)))
    ensures s == [] ==> Expire(s, now) == ([], [])
  {}

  /** An expired event as the second loop of getExpiredcbs leaves it. */
  function Put(e: Event, now: nat): Event {
    if e.Repeats() then e.After(now) else e
  }

  /** The pending events of s that are due are the first k. */
  lemma ReturningAreFirst(t: Timer, s: State, events: seq<TimeEvent>, now: nat, j: nat)
    requires Consistent(s) && |s.made| == |t.objects| && |s.pending| == |events| && j < |t.objects|
    requires forall i :: 0 <= i < |events| ==> MadeAs(t.objects, events[i]) && s.pending[i] == s.made[events[i].id]
    requires Returns(s, j, now)
    ensures t.objects[j] in events[..Rank(s.pending, now + 1)]
  {
    hide Rank;
    var k := Rank(s.pending, now + 1);
    var x :| 0 <= x < |s.pending| && s.pending[x] == s.made[j];
    assert s.made[events[x].id].id == j && events[x] == t.objects[j];
    assert events[..k][x] == t.objects[j];
  }

  /** The events of state s after those of the first k pending ones went through Put. */
  lemma ExpiredStay(t: Timer, s: State, events: seq<TimeEvent>, k: nat, now: nat)
    requires Consistent(s) && |s.made| == |t.objects| && |s.pending| == |events| && k == Rank(s.pending, now + 1)
    requires forall j :: 0 <= j < |events| ==> MadeAs(t.objects, events[j]) && s.pending[j] == s.made[events[j].id]
    requires forall j :: 0 <= j < |t.objects| ==> t.objects[j].id == j
    requires forall j :: 0 <= j < k ==> events[j].View() == Put(s.pending[j], now)
    requires forall j :: 0 <= j < |t.objects| && t.objects[j] !in events[..k] ==> t.objects[j].View() == s.made[j]
    ensures Next(s, Call(Action.GetExpired, now)) == TimerRuns.State(Snapshot(t.objects), Expire(s.pending, now).1)
  {
    hide Rank, Expire, Sorted;
    forall j | 0 <= j < |t.objects|
      ensures t.objects[j].View() == if Returns(s, j, now) then s.made[j].After(now) else s.made[j]
    {
      if Returns(s, j, now) {
        ReturningAreFirst(t, s, events, now, j);
      }
      if t.objects[j] in events[..k] {
        var x :| 0 <= x < k && events[x] == t.objects[j];
        assert s.pending[x] == s.made[j];
      }
    }
  }

  ghost predicate MadeAs(objects: seq<TimeEvent>, e: TimeEvent) {
    e.id < |objects| && objects[e.id] == e
  }

  class Timer {
    var events: seq<TimeEvent>
    // how many events were created so far; tells them apart
    var made: nat
    ghost var objects: seq<TimeEvent>

    constructor ()
      ensures events == [] && made == 0 && Valid()
    {
      events, made, objects := [], 0, [];
    }

    function View(): seq<Event>
      reads this, events
    {
      Snapshot(events)
    }

    /** Every event was made here and has an identity of its own, below `made`. */
    ghost predicate Identified()
      reads this
    {
      && made == |objects| && (forall i :: 0 <= i < |objects| ==> objects[i].id == i && objects[i].timer == this)
      && (forall e {:trigger MadeAs(objects, e)} :: e in events ==> MadeAs(objects, e))
    }

    /** All events ever made, and the pending ones. */
    ghost function State(): TimerRuns.State
      reads this, objects, events
    {
      TimerRuns.State(Snapshot(objects), View())
    }

    /** The std::set stays ordered: no pending event's due time has changed under it. */
    ghost predicate Valid()
      reads this, events
    {
      Sorted(View()) && Identified()
    }

    ghost predicate Owns(e: TimeEvent)
      reads this, events
    {
      Valid() && MadeAs(objects, e)
    }

    method Insert(e: TimeEvent)
      requires Owns(e)
      modifies `events
      ensures Owns(e) && View() == TimerSet.Insert(old(View()), e.View())
      ensures var k := Rank(old(View()), e.due);
        events == if Holds(old(View()), e.due) then old(events) else old(events)[..k] + [e] + old(events)[k..]
      ensures forall x :: x in events ==> x in old(events) || x == e
    {
      ghost var s := View();
      InsertKeepsOrder(s, e.View());
      var k := Rank(View(), e.due);
      if k == |events| || events[k].due != e.due {
        SnapshotWith(events, k, e);
        MembersWith(events, k, e);
        events := events[..k] + [e] + events[k..];
        assert View() == s[..k] + [e.View()] + s[k..];
      }
    }

    /** find and erase: whatever pending event has due time t leaves the set. */
    method RemoveDue(t: nat) returns (found: bool)
      requires Valid()
      modifies `events
      ensures Valid() && found == Holds(old(View()), t)
      ensures View() == if found then Erase(old(View()), t) else old(View())
      ensures forall e :: e in events ==> e.due != t
      ensures found <==> exists e :: e in old(events) && e.due == t
    {
      ghost var s := View();
      var k := Rank(View(), t);
      found := k < |events| && events[k].due == t;
      assert found ==> events[k] in events;
      if found {
        EraseKeepsOrder(s, t);
        SnapshotWithout(events, k);
        MembersWithout(events, k);
        events := events[..k] + events[k + 1..];
        assert View() == Erase(s, t);
      }
      NoneDueAt(this, s, t);
    }

    method AddTimeEvent(interval: nat, callback: nat, repeated: bool, now: nat) returns (e: TimeEvent)
      requires Valid()
      modifies this
      ensures fresh(e) && Owns(e) && e.timer == this && made == old(made) + 1
      ensures e.View() == Event(old(made), now + interval, interval, repeated, false, false, callback)
      ensures View() == TimerSet.Insert(old(View()), e.View())
      ensures State() == Next(old(State()), Call(Action.AddTimeEvent(interval, callback, repeated), now))
    {
      e := new TimeEvent(made, interval, callback, this, repeated, now);
      hide TimerSet.Insert, Rank, Holds, Sorted;
      ghost var s, before := View(), objects;
      made, objects := made + 1, objects + [e];
      forall x | x in events ensures MadeAs(objects, x) {
        assert MadeAs(before, x);
      }
      assert View() == s && Snapshot(before) == old(Snapshot(objects));
      SnapshotAppend(before, e);
      Insert(e);
    }

    /** How long until the first event that is not cancelled; NEVER when there is none. */
    method LatestOccur(now: nat) returns (wait: nat)
      requires Valid()
      ensures (forall e :: e in events ==> e.cancelled) ==> wait == NEVER
      ensures forall e :: e in events && !e.cancelled ==> now + wait <= if e.due <= now then now else e.due
      ensures (exists e :: e in events && !e.cancelled)
        ==> exists e :: e in events && !e.cancelled && now + wait == if e.due <= now then now else e.due
    {
      var k := 0;
      while k < |events| && events[k].cancelled
        invariant 0 <= k <= |events| && forall i :: 0 <= i < k ==> events[i].cancelled
      {
        k := k + 1;
      }
      if k == |events| {
        return NEVER;
      }
      assert forall i :: k <= i < |events| ==> View()[k].due <= View()[i].due;
      wait := if now >= events[k].due then 0 else events[k].due - now;
    }

    /** The scan of getExpiredcbs: callbacks of the active events due by now, and those events out of the set. */
    method TakeExpired(now: nat, cbs: seq<nat>) returns (fired: seq<nat>, expired: seq<TimeEvent>)
      requires Valid()
      modifies `events
      ensures var k := Rank(old(View()), now + 1);
        && fired == cbs + Callbacks(old(View())[..k])
        && expired == old(events)[..k] && events == old(events)[k..]
      ensures Valid()
    {
      hide Rank, Sorted, Callbacks, MadeAs;
      fired := cbs;
      ghost var s := View();
      var k := 0;
      assert Callbacks(s[..0]) == [] by { CallbacksOfNone(s); }
      while k < |events| && events[k].due <= now
        invariant events == old(events) && View() == s
        invariant 0 <= k <= |events| && forall i :: 0 <= i < k ==> s[i].due <= now
        invariant fired == cbs + Callbacks(s[..k])
      {
        CallbacksExtend(s, k);
        if !events[k].cancelled && !events[k].stopped {
          fired := fired + [events[k].callback];
        }
        k := k + 1;
      }
      RankIs(s, now + 1, k);
      SnapshotSplit(events, k);
      TailStays(s, events, k);
      expired, events := events[..k], events[k..];
      assert View() == s[k..];
    }

    method PutBackOne(e: TimeEvent, now: nat)
      requires Owns(e) && e !in events
      modifies `events, e`due
      ensures Valid() && forall x :: x in events ==> x in old(events) || x == e
      ensures e.View() == Put(old(e.View()), now)
      ensures View() == if old(e.View()).Repeats() then TimerSet.Insert(old(View()), old(e.View()).After(now))
                        else old(View())
    {
      hide TimerSet.Insert, Rank, Holds;
      if e.repeated && !e.cancelled {
        ghost var s := View();
        e.due := now + e.interval;
        assert View() == s;
        Insert(e);
      }
    }

    /** Its second loop: repeating events go back with their next due time. */
    method PutBack(expired: seq<TimeEvent>, now: nat)
      requires Valid()
      requires forall i :: 0 <= i < |expired| ==> MadeAs(objects, expired[i]) && expired[i] !in events
      requires forall i, j :: 0 <= i < j < |expired| ==> expired[i] != expired[j]
      modifies `events, expired`due
      ensures Valid() && View() == InsertAll(old(View()), Rearmed(old(Snapshot(expired)), now))
      ensures forall i :: 0 <= i < |expired| ==> expired[i].View() == Put(old(expired[i].View()), now)
    {
      ghost var due := Snapshot(expired);
      ghost var goal := InsertAll(View(), Rearmed(due, now));
      assert due[0..] == due;
      for i := 0 to |expired|
        invariant Valid() && InsertAll(View(), Rearmed(due[i..], now)) == goal
        invariant forall j :: i <= j < |expired| ==> expired[j].View() == due[j] && expired[j] !in events
        invariant forall j :: 0 <= j < i ==> expired[j].View() == Put(due[j], now)
      {
        RearmStep(View(), due[i..], now);
        assert due[i..][1..] == due[i + 1..];
        PutBackOne(expired[i], now);
      }
    }

    /** getExpiredcbs: appends to cbs. */
    method GetExpiredCallbacks(now: nat, cbs: seq<nat>) returns (fired: seq<nat>)
      requires Valid()
      modifies this, events`due
      ensures Valid() && (fired, View()) == (cbs + Expire(old(View()), now).0, Expire(old(View()), now).1)
      ensures State() == Next(old(State()), Call(Action.GetExpired, now))
    {
      hide Rank, Expire, InsertAll, Rearmed, Callbacks, Sorted, Next, Put;
      ghost var s, was, all := View(), State(), events;
      PendingAreMade(this);
      ghost var k := Rank(s, now + 1);
      ExpireParts(s, now);
      EachOnce(this, k);
      if events == [] {
        assert s[..k] == [] && cbs + [] == cbs;
        ExpiredStay(this, was, all, k, now);
        return cbs;
      }
      SnapshotSplit(events, k);
      var expired;
      fired, expired := TakeExpired(now, cbs);
      assert View() == s[k..] && Snapshot(expired) == s[..k];
      PutBack(expired, now);
      forall j | 0 <= j < k ensures all[j].View() == Put(was.pending[j], now) {
        assert expired[j] == all[j];
      }
      forall j | 0 <= j < |objects| && objects[j] !in all[..k] ensures objects[j].View() == was.made[j] {
      }
      ExpiredStay(this, was, all, k, now);
    }
  }
}
