/**
 The timer's event set as a value: source/coroutine/timer.h orders events by due time alone, so the
 set is a sequence with strictly growing due times, and two events due at the same time are one
 element to it. `id` is what makes an event the one it is; the set never looks at it.
 */
module TimerSet {
  datatype Event = Event(id: nat, due: nat, interval: nat, repeated: bool, cancelled: bool, stopped: bool,
                         callback: nat)
  {
    predicate Active() { !cancelled && !stopped }

    predicate Repeats() { repeated && !cancelled }

    function After(now: nat): Event { this.(due := now + interval) }
  }

  ghost predicate Sorted(s: seq<Event>) {
    forall i, j :: 0 <= i < j < |s| ==> s[i].due < s[j].due
  }

  ghost function Dues(s: seq<Event>): set<nat> {
    set e | e in s :: e.due
  }

  /** lower_bound: where due time t is, or would go. */
  function Rank(s: seq<Event>, t: nat): (k: nat)
    ensures k <= |s| && (forall i :: 0 <= i < k ==> s[i].due < t) && (k < |s| ==> t <= s[k].due)
  {
    if s == [] || t <= s[0].due then 0 else 1 + Rank(s[1..], t)
  }

  predicate Holds(s: seq<Event>, t: nat) {
    Rank(s, t) < |s| && s[Rank(s, t)].due == t
  }

  /** set::insert: an event due at a time already taken is dropped. */
  function Insert(s: seq<Event>, e: Event): seq<Event> {
    var k := Rank(s, e.due);
    if Holds(s, e.due) then s else s[..k] + [e] + s[k..]
  }

  function Erase(s: seq<Event>, t: nat): seq<Event>
    requires Holds(s, t)
  {
    var k := Rank(s, t);
    s[..k] + s[k + 1..]
  }

  function InsertAll(s: seq<Event>, es: seq<Event>): seq<Event>
    decreases |es|
  {
    if es == [] then s else InsertAll(Insert(s, es[0]), es[1..])
  }

  /** The callbacks of the active events, in order. */
  function Callbacks(s: seq<Event>): seq<nat> {
    if s == [] then [] else (if s[0].Active() then [s[0].callback] else []) + Callbacks(s[1..])
  }

  /** The expired events that go back, with their next due time. */
  function Rearmed(s: seq<Event>, now: nat): seq<Event> {
    if s == [] then [] else (if s[0].Repeats() then [s[0].After(now)] else []) + Rearmed(s[1..], now)
  }

  /** getExpiredcbs: scan up to the first event still to come, hand out callbacks, put repeating events back. */
  function Expire(s: seq<Event>, now: nat): (seq<nat>, seq<Event>) {
    var k := Rank(s, now + 1);
    (Callbacks(s[..k]), InsertAll(s[k..], Rearmed(s[..k], now)))
  }

  /** resetTime on an event e that may or may not be pending: what find matches is the due time. */
  function Reset(s: seq<Event>, e: Event, interval: nat, now: nat): (seq<Event>, Event) {
    if !Holds(s, e.due) then (s, e)
    else
      var again := e.(interval := interval, due := now + interval, cancelled := false);
      (Insert(Erase(s, e.due), again), again)
  }

  /** Reference: the callbacks of every pending event that is due and active, wherever it stands. */
  function DueCallbacks(s: seq<Event>, now: nat): seq<nat> {
    if s == [] then []
    else (if s[0].due <= now && !s[0].cancelled && !s[0].stopped then [s[0].callback] else [])
           + DueCallbacks(s[1..], now)
  }

  lemma {:induction false} CallbacksExtend(s: seq<Event>, k: nat)
    requires k < |s|
    ensures Callbacks(s[..k + 1]) == Callbacks(s[..k]) + if s[k].Active() then [s[k].callback] else []
  {
    if k > 0 {
      CallbacksExtend(s[1..], k - 1);
      assert s[..k + 1][1..] == s[1..][..k] && s[..k][1..] == s[1..][..k - 1];
    }
  }

  lemma RearmStep(s: seq<Event>, due: seq<Event>, now: nat)
    requires due != []
    ensures InsertAll(s, Rearmed(due, now))
      == InsertAll(if due[0].Repeats() then Insert(s, due[0].After(now)) else s, Rearmed(due[1..], now))
  {
    var rest := Rearmed(due[1..], now);
    if due[0].Repeats() {
      assert Rearmed(due, now)[1..] == rest;
    } else {
      assert [] + rest == rest;
    }
  }

  lemma RankIs(s: seq<Event>, t: nat, k: nat)
    requires k <= |s| && (forall i :: 0 <= i < k ==> s[i].due < t) && (k < |s| ==> t <= s[k].due)
    ensures Rank(s, t) == k
  {}

  // ---- insertion -------------------------------------------------------------------------

  lemma HoldsIsMembership(s: seq<Event>, t: nat)
    requires Sorted(s)
    ensures Holds(s, t) <==> t in Dues(s)
  {
    if t in Dues(s) {
      var e :| e in s && e.due == t;
      var i :| 0 <= i < |s| && s[i] == e;
      var k := Rank(s, t);
      assert k <= i;
    }
  }

  lemma InsertMembers(s: seq<Event>, e: Event)
    ensures forall x :: x in Insert(s, e) <==> x in s || (x == e && !Holds(s, e.due))
  {
    var k := Rank(s, e.due);
    assert s == s[..k] + s[k..];
  }

  lemma InsertSorted(s: seq<Event>, e: Event)
    requires Sorted(s)
    ensures Sorted(Insert(s, e))
  {
    var k, r := Rank(s, e.due), Insert(s, e);
    if r != s {
      forall i, j | 0 <= i < j < |r|
        ensures r[i].due < r[j].due
      {
        assert r[i] == if i < k then s[i] else if i == k then e else s[i - 1];
        assert r[j] == if j < k then s[j] else if j == k then e else s[j - 1];
      }
    }
  }

  lemma InsertKeepsOrder(s: seq<Event>, e: Event)
    requires Sorted(s)
    ensures Sorted(Insert(s, e)) && Dues(Insert(s, e)) == Dues(s) + {e.due}
    ensures |Insert(s, e)| == |s| + (if e.due in Dues(s) then 0 else 1)
  {
    InsertSorted(s, e);
    HoldsIsMembership(s, e.due);
    InsertMembers(s, e);
  }

  lemma EraseKeepsRest(s: seq<Event>, t: nat, x: Event)
    requires Holds(s, t) && x in s && x.due != t
    ensures x in Erase(s, t)
  {
    var k := Rank(s, t);
    var i :| 0 <= i < |s| && s[i] == x;
    assert x == Erase(s, t)[if i < k then i else i - 1];
  }

  lemma EraseTakesOut(s: seq<Event>, t: nat, x: Event)
    requires Sorted(s) && Holds(s, t) && x in Erase(s, t)
    ensures x in s && x.due != t
  {
    var k := Rank(s, t);
    var i :| 0 <= i < |Erase(s, t)| && Erase(s, t)[i] == x;
    assert x == s[if i < k then i else i + 1];
  }

  lemma EraseMembers(s: seq<Event>, t: nat)
    requires Sorted(s) && Holds(s, t)
    ensures forall x :: x in Erase(s, t) <==> x in s && x.due != t
  {
    forall x | x in Erase(s, t) ensures x in s && x.due != t {
      EraseTakesOut(s, t, x);
    }
    forall x | x in s && x.due != t ensures x in Erase(s, t) {
      EraseKeepsRest(s, t, x);
    }
  }

  lemma EraseKeepsOrder(s: seq<Event>, t: nat)
    requires Sorted(s) && Holds(s, t)
    ensures Sorted(Erase(s, t))
  {
    var k, r := Rank(s, t), Erase(s, t);
    forall i, j | 0 <= i < j < |r|
      ensures r[i].due < r[j].due
    {
      var i', j' := if i < k then i else i + 1, if j < k then j else j + 1;
      assert r[i] == s[i'] && r[j] == s[j'];
    }
  }

  lemma EraseExact(s: seq<Event>, t: nat)
    requires Sorted(s) && Holds(s, t)
    ensures Sorted(Erase(s, t)) && Dues(Erase(s, t)) == Dues(s) - {t}
  {
    EraseKeepsOrder(s, t);
    EraseMembers(s, t);
    var r := Erase(s, t);
    forall d | d in Dues(s) && d != t
      ensures d in Dues(r)
    {
      var e :| e in s && e.due == d;
      assert e in r;
    }
  }

  lemma DuesOfFirst(es: seq<Event>)
    requires es != []
    ensures Dues(es) == {es[0].due} + Dues(es[1..])
  {
    assert es == [es[0]] + es[1..];
  }

  lemma {:induction false} InsertAllOrder(s: seq<Event>, es: seq<Event>)
    requires Sorted(s)
    ensures Sorted(InsertAll(s, es)) && Dues(InsertAll(s, es)) == Dues(s) + Dues(es)
    decreases |es|
  {
    if es == [] {
      assert Dues(es) == {};
    } else {
      var s1 := Insert(s, es[0]);
      InsertKeepsOrder(s, es[0]);
      InsertAllOrder(s1, es[1..]);
      DuesOfFirst(es);
      assert InsertAll(s, es) == InsertAll(s1, es[1..]);
    }
  }

  lemma {:induction false} InsertAllMember(s: seq<Event>, es: seq<Event>, x: Event)
    ensures (x in s ==> x in InsertAll(s, es)) && (x in InsertAll(s, es) ==> x in s || x in es)
    decreases |es|
  {
    if es != [] {
      InsertMembers(s, es[0]);
      InsertAllMember(Insert(s, es[0]), es[1..], x);
    }
  }

  /** Inserting many keeps the order; the due times are exactly those of both; nothing pending goes. */
  lemma InsertAllExact(s: seq<Event>, es: seq<Event>)
    requires Sorted(s)
    ensures var r := InsertAll(s, es);
      && Sorted(r) && Dues(r) == Dues(s) + Dues(es)
      && (forall x :: x in s ==> x in r) && (forall x :: x in r ==> x in s || x in es)
  {
    InsertAllOrder(s, es);
    forall x | x in s ensures x in InsertAll(s, es) {
      InsertAllMember(s, es, x);
    }
    forall x | x in InsertAll(s, es) ensures x in s || x in es {
      InsertAllMember(s, es, x);
    }
  }

  /** Of the events inserted for one due time, the first comer gets it, if `s` leaves it free. */
  lemma {:induction false} FirstComerStays(s: seq<Event>, es: seq<Event>, i: nat)
    requires Sorted(s) && i < |es| && es[i].due !in Dues(s) && es[i].due !in Dues(es[..i])
    ensures es[i] in InsertAll(s, es)
    decreases |es|
  {
    var e, s1, rest := es[0], Insert(s, es[0]), es[1..];
    InsertKeepsOrder(s, e);
    if i == 0 {
      HoldsIsMembership(s, e.due);
      InsertMembers(s, e);
      InsertAllExact(s1, rest);
    } else {
      assert es[..i] == [e] + rest[..i - 1];
      FirstComerStays(s1, rest, i - 1);
    }
  }

  /** No two of these events are due at the same time. */
  ghost predicate DistinctDues(s: seq<Event>) {
    |Dues(s)| == |s|
  }

  lemma {:induction false} SortedAreDistinct(s: seq<Event>)
    requires Sorted(s)
    ensures DistinctDues(s)
  {
    if s != [] {
      var last, front := s[|s| - 1], s[..|s| - 1];
      SortedAreDistinct(front);
      assert s == front + [last];
      assert Dues(s) == Dues(front) + {last.due};
      assert last.due !in Dues(front);
    } else {
      assert Dues(s) == {};
    }
  }

  // ---- expiry ----------------------------------------------------------------------------

  lemma {:induction false} RearmedMembers(s: seq<Event>, now: nat)
    ensures forall x :: x in Rearmed(s, now) <==> exists e :: e in s && e.Repeats() && x == e.After(now)
  {
    if s != [] {
      RearmedMembers(s[1..], now);
      assert s == [s[0]] + s[1..];
    }
  }

  lemma {:induction false} CallbacksOfDue(s: seq<Event>, now: nat)
    requires Sorted(s)
    ensures Callbacks(s[..Rank(s, now + 1)]) == DueCallbacks(s, now)
  {
    if s != [] {
      var k := Rank(s, now + 1);
      if k == 0 {
        NoneDue(s, now);
      } else {
        CallbacksOfDue(s[1..], now);
        assert s[..k][0] == s[0] && s[..k][1..] == s[1..][..k - 1];
      }
    }
  }

  lemma {:induction false} NoneDue(s: seq<Event>, now: nat)
    requires forall e :: e in s ==> e.due > now
    ensures DueCallbacks(s, now) == []
  {
    if s != [] {
      assert s[0] in s;
      NoneDue(s[1..], now);
    }
  }

  ghost predicate IsDue(s: seq<Event>, now: nat, e: Event) { e in s && e.due <= now }

  ghost predicate StillAhead(s: seq<Event>, now: nat, e: Event) { e in s && e.due > now }

  ghost predicate PutBack(s: seq<Event>, now: nat, e: Event) {
    exists x :: x in s && x.due <= now && x.Repeats() && e == x.After(now)
  }

  lemma PrefixIsDue(s: seq<Event>, now: nat)
    requires Sorted(s)
    ensures var k := Rank(s, now + 1);
      && (forall e :: e in s[..k] <==> IsDue(s, now, e))
      && (forall e :: e in s[k..] <==> StillAhead(s, now, e))
  {
    var k := Rank(s, now + 1);
    forall e | e in s
      ensures if e.due <= now then e in s[..k] else e in s[k..]
    {
      var i :| 0 <= i < |s| && s[i] == e;
      assert if i < k then s[..k][i] == e else s[k..][i - k] == e;
    }
  }

  /** Callbacks: exactly those of the active events due by now, in due order. Pending afterwards:
      the later events untouched, and the next due times of the repeating expired ones. */
  lemma ExpiryExact(s: seq<Event>, now: nat)
    requires Sorted(s)
    ensures var (fired, pending) := Expire(s, now);
      && fired == DueCallbacks(s, now)
      && Sorted(pending)
      && (forall e :: StillAhead(s, now, e) ==> e in pending)
      && (forall e :: e in pending ==> StillAhead(s, now, e) || PutBack(s, now, e))
      && (forall e :: IsDue(s, now, e) && e.Repeats() ==> now + e.interval in Dues(pending))
      && (forall e :: e in s ==>
            && (e.Repeats() <==> e.repeated && !e.cancelled)
            && e.After(now) == Event(e.id, now + e.interval, e.interval, e.repeated, e.cancelled, e.stopped,
                                     e.callback))
  {
    var k := Rank(s, now + 1);
    CallbacksOfDue(s, now);
    PrefixIsDue(s, now);
    InsertAllExact(s[k..], Rearmed(s[..k], now));
    RearmedArePutBack(s, now);
  }

  lemma RearmedArePutBack(s: seq<Event>, now: nat)
    requires Sorted(s)
    ensures var back := Rearmed(s[..Rank(s, now + 1)], now);
      && (forall e :: e in back ==> PutBack(s, now, e))
      && (forall e :: IsDue(s, now, e) && e.Repeats() ==> now + e.interval in Dues(back))
  {
    var k := Rank(s, now + 1);
    var back := Rearmed(s[..k], now);
    PrefixIsDue(s, now);
    RearmedMembers(s[..k], now);
    forall e | e in back ensures PutBack(s, now, e) {
      var x :| x in s[..k] && x.Repeats() && e == x.After(now);
      assert IsDue(s, now, x);
    }
    forall e | IsDue(s, now, e) && e.Repeats() ensures now + e.interval in Dues(back) {
      assert e.After(now) in back;
    }
  }

  /** Nothing due is left behind exactly when no repeating event that is due has interval 0. */
  lemma OnlyFutureExactlyWhen(s: seq<Event>, now: nat)
    requires Sorted(s)
    ensures (forall e :: e in Expire(s, now).1 ==> e.due > now)
      <==> (forall e :: IsDue(s, now, e) && e.Repeats() ==> e.interval > 0)
  {
    ExpiryExact(s, now);
    var pending := Expire(s, now).1;
    if forall e :: e in pending ==> e.due > now {
      forall e | IsDue(s, now, e) && e.Repeats()
        ensures e.interval > 0
      {
        var x :| x in pending && x.due == now + e.interval;
      }
    }
  }

  ghost function Later(s: seq<Event>, now: nat): set<Event> { set e | e in s && e.due > now }

  ghost function Returning(s: seq<Event>, now: nat): set<Event> { set e | e in s && e.due <= now && e.Repeats() }

  ghost predicate DistinctIntervals(es: set<Event>) {
    forall x, y :: x in es && y in es && x.interval == y.interval ==> x == y
  }

  ghost predicate NoneMeets(later: set<Event>, back: set<Event>, now: nat) {
    forall x, y :: x in later && y in back ==> x.due != now + y.interval
  }

  ghost function DueTimes(es: set<Event>): set<nat> { set e | e in es :: e.due }

  ghost function NextTimes(es: set<Event>, now: nat): set<nat> { set e | e in es :: now + e.interval }

  lemma NextTimesStep(es: set<Event>, e: Event, now: nat)
    requires e in es
    ensures NextTimes(es, now) == NextTimes(es - {e}, now) + {now + e.interval}
    ensures DistinctIntervals(es) <==> DistinctIntervals(es - {e}) && now + e.interval !in NextTimes(es - {e}, now)
  {
    var rest := es - {e};
    if now + e.interval in NextTimes(rest, now) {
      var x :| x in rest && now + x.interval == now + e.interval;
      assert x in es && x != e;
    }
  }

  lemma {:induction false} NextTimesSize(es: set<Event>, now: nat)
    ensures |NextTimes(es, now)| <= |es|
    ensures |NextTimes(es, now)| == |es| <==> DistinctIntervals(es)
    decreases |es|
  {
    if e :| e in es {
      NextTimesSize(es - {e}, now);
      NextTimesStep(es, e, now);
    } else {
      assert NextTimes(es, now) == {};
    }
  }

  lemma {:induction false} DueTimesSize(es: set<Event>)
    requires forall x, y :: x in es && y in es && x.due == y.due ==> x == y
    ensures |DueTimes(es)| == |es|
    decreases |es|
  {
    if e :| e in es {
      DueTimesSize(es - {e});
      assert DueTimes(es) == DueTimes(es - {e}) + {e.due};
    } else {
      assert DueTimes(es) == {};
    }
  }

  lemma PendingTimes(s: seq<Event>, now: nat)
    requires Sorted(s)
    ensures Dues(Expire(s, now).1) == DueTimes(Later(s, now)) + NextTimes(Returning(s, now), now)
  {
    var k, pending := Rank(s, now + 1), Expire(s, now).1;
    PrefixIsDue(s, now);
    InsertAllOrder(s[k..], Rearmed(s[..k], now));
    RearmedTimes(s[..k], now);
    assert Repeating(s[..k]) == Returning(s, now);
    assert Dues(s[k..]) == DueTimes(Later(s, now)) by {
      assert forall e :: e in s[k..] <==> e in Later(s, now);
    }
  }

  ghost function Repeating(es: seq<Event>): set<Event> { set e | e in es && e.Repeats() }

  lemma {:induction false} RearmedTimes(es: seq<Event>, now: nat)
    ensures Dues(Rearmed(es, now)) == NextTimes(Repeating(es), now)
  {
    if es == [] {
      assert Repeating(es) == {} && Dues(Rearmed(es, now)) == {};
    } else {
      var e, rest := es[0], es[1..];
      RearmedTimes(rest, now);
      assert es == [e] + rest;
      if e.Repeats() {
        assert Repeating(es) == Repeating(rest) + {e};
        DuesOfFirst(Rearmed(es, now));
        assert Rearmed(es, now)[1..] == Rearmed(rest, now);
        assert NextTimes(Repeating(es), now) == NextTimes(Repeating(rest), now) + {now + e.interval};
      } else {
        assert Repeating(es) == Repeating(rest) && Rearmed(es, now) == Rearmed(rest, now);
      }
    }
  }

  /**
   No event is lost in an expiry exactly when the repeating events that are due have pairwise
   different intervals, and none of their next due times is that of a later event.
   */
  lemma NoneLostExactlyWhen(s: seq<Event>, now: nat)
    requires Sorted(s)
    ensures var (later, back) := (Later(s, now), Returning(s, now));
      |Expire(s, now).1| == |later| + |back| <==> DistinctIntervals(back) && NoneMeets(later, back, now)
  {
    var later, back := Later(s, now), Returning(s, now);
    var a, b := DueTimes(later), NextTimes(back, now);
    SortedAreDistinct(Expire(s, now).1) by { ExpiryExact(s, now); }
    PendingTimes(s, now);
    DueTimesSize(later);
    NextTimesSize(back, now);
    TimesApart(later, back, now);
    assert |a + b| == |a| + |b| - |a * b|;
  }

  lemma TimesApart(later: set<Event>, back: set<Event>, now: nat)
    ensures |DueTimes(later) * NextTimes(back, now)| == 0 <==> NoneMeets(later, back, now)
  {
    var both := DueTimes(later) * NextTimes(back, now);
    if NoneMeets(later, back, now) {
      assert both == {};
    } else {
      var x, y :| x in later && y in back && x.due == now + y.interval;
      assert x.due in both;
    }
  }

  // ---- add and reset ---------------------------------------------------------------------

  /** A new event becomes pending exactly when no pending event has its due time. */
  lemma AddExact(s: seq<Event>, e: Event)
    requires Sorted(s) && e !in s
    ensures Sorted(Insert(s, e)) && (forall x :: x in s ==> x in Insert(s, e))
    ensures e in Insert(s, e) <==> e.due !in Dues(s)
  {
    HoldsIsMembership(s, e.due);
    InsertMembers(s, e);
    InsertKeepsOrder(s, e);
  }

  /** Event e is the only one of its identity, wherever it stands. */
  ghost predicate OneOf(s: seq<Event>, e: Event) {
    forall x :: x in s && x.id == e.id ==> x == e
  }

  /** Some other event was pending and is not any more. */
  ghost predicate Evicts(s: seq<Event>, s': seq<Event>, e: Event) {
    exists x :: x in s && x.id != e.id && x !in s'
  }

  /** A reset that finds something moves e to its new time, where it stays unless the time is taken. */
  lemma ResetExact(s: seq<Event>, e: Event, interval: nat, now: nat)
    requires Sorted(s)
    ensures var (pending, again) := Reset(s, e, interval, now);
      if e.due !in Dues(s) then pending == s && again == e
      else
        && Sorted(pending) && again == Event(e.id, now + interval, interval, e.repeated, false, e.stopped, e.callback)
        && Dues(pending) == Dues(s) - {e.due} + {now + interval}
        && (forall x :: x in s && x.due != e.due ==> x in pending)
        && (forall x :: x in pending ==> (x in s && x.due != e.due) || x == again)
        && (now + interval !in Dues(s) - {e.due} ==> again in pending)
        && |pending| == if now + interval in Dues(s) - {e.due} then |s| - 1 else |s|
  {
    HoldsIsMembership(s, e.due);
    if e.due in Dues(s) {
      var again := e.(interval := interval, due := now + interval, cancelled := false);
      assert Reset(s, e, interval, now) == (Insert(Erase(s, e.due), again), again);
      MovesTo(s, e.due, again);
    }
  }

  /** Erase what is due at t, insert e. */
  lemma MovesTo(s: seq<Event>, t: nat, e: Event)
    requires Sorted(s) && Holds(s, t)
    ensures var r := Insert(Erase(s, t), e);
      && Sorted(r) && Dues(r) == Dues(s) - {t} + {e.due}
      && (forall x :: x in s && x.due != t ==> x in r)
      && (forall x :: x in r ==> (x in s && x.due != t) || x == e)
      && (e.due !in Dues(s) - {t} ==> e in r)
      && |r| == if e.due in Dues(s) - {t} then |s| - 1 else |s|
  {
    var gone := Erase(s, t);
    EraseMembers(s, t);
    EraseExact(s, t);
    HoldsIsMembership(gone, e.due);
    InsertMembers(gone, e);
    InsertKeepsOrder(gone, e);
  }

  /** Another event is thrown out exactly when e itself is not pending and a pending event has its due time. */
  lemma ResetEvictsExactlyWhen(s: seq<Event>, e: Event, interval: nat, now: nat)
    requires Sorted(s) && OneOf(s, e)
    ensures Evicts(s, Reset(s, e, interval, now).0, e) <==> e !in s && e.due in Dues(s)
  {
    ResetExact(s, e, interval, now);
    if e.due in Dues(s) {
      var found :| found in s && found.due == e.due;
      SameDueSame(s, found, e);
      if e !in s {
        assert found.id != e.id && found !in Reset(s, e, interval, now).0;
      }
    }
  }

  lemma SameDueSame(s: seq<Event>, x: Event, y: Event)
    requires Sorted(s) && x in s && x.due == y.due
    ensures forall z :: z in s && z.due == y.due ==> z == x
  {
  }
}
