/**
 The timer as a machine: every event object ever made, the set of pending ones, and whatever
 sequence of calls at whatever clock readings.
 */
module TimerRuns {
  import opened TimerSet

  /** made[i] is the object of identity i as it is now. */
  datatype State = State(made: seq<Event>, pending: seq<Event>)

  datatype Action =
    | AddTimeEvent(interval: nat, callback: nat, repeated: bool)
    | ResetTime(i: nat)
    | ResetTimeTo(i: nat, interval: nat)
    | Wake(i: nat)
    | Cancel(i: nat)
    | Stop(i: nat)
    | CancelRepeated(i: nat)
    | SetRepeated(i: nat)
    | GetExpired

  datatype Call = Call(action: Action, now: nat)

  predicate Enabled(s: State, c: Call) {
    c.action.AddTimeEvent? || c.action.GetExpired? || c.action.i < |s.made|
  }

  /** The set points at its events: a changed flag is changed there too. */
  function WithEvent(s: State, i: nat, e: Event): State
    requires i < |s.made|
  {
    State(s.made[i := e], seq(|s.pending|, k requires 0 <= k < |s.pending| =>
                                if s.pending[k].id == i then e else s.pending[k]))
  }

  function DoReset(s: State, i: nat, interval: nat, now: nat): State
    requires i < |s.made|
  {
    var (pending, e) := Reset(s.pending, s.made[i], interval, now);
    State(s.made[i := e], pending)
  }

  predicate Returns(s: State, i: nat, now: nat)
    requires i < |s.made|
  {
    s.made[i] in s.pending && s.made[i].due <= now && s.made[i].Repeats()
  }

  function DoGetExpired(s: State, now: nat): State {
    State(seq(|s.made|, i requires 0 <= i < |s.made| =>
                if Returns(s, i, now) then s.made[i].After(now) else s.made[i]),
          Expire(s.pending, now).1)
  }

  function DoAdd(s: State, interval: nat, callback: nat, repeated: bool, now: nat): State {
    var e := Event(|s.made|, now + interval, interval, repeated, false, false, callback);
    State(s.made + [e], Insert(s.pending, e))
  }

  function Next(s: State, c: Call): State
    requires Enabled(s, c)
  {
    match c.action
    case AddTimeEvent(interval, callback, repeated) => DoAdd(s, interval, callback, repeated, c.now)
    case ResetTime(i) => DoReset(s, i, s.made[i].interval, c.now)
    case ResetTimeTo(i, interval) => DoReset(s, i, interval, c.now)
    case Wake(i) => WithEvent(s, i, s.made[i].(cancelled := false, stopped := false))
    case Cancel(i) => WithEvent(s, i, s.made[i].(cancelled := true))
    case Stop(i) => WithEvent(s, i, s.made[i].(stopped := true))
    case CancelRepeated(i) => WithEvent(s, i, s.made[i].(repeated := false))
    case SetRepeated(i) => WithEvent(s, i, s.made[i].(repeated := true))
    case GetExpired => DoGetExpired(s, c.now)
  }

  datatype Run = Run(states: seq<State>, calls: seq<Call>)

  predicate StepsTo(s: State, c: Call, s': State) {
    Enabled(s, c) && s' == Next(s, c)
  }

  ghost predicate IsRun(run: Run) {
    && |run.states| == |run.calls| + 1
    && run.states[0] == State([], [])
    && forall k {:trigger run.calls[k]} :: 0 <= k < |run.calls| ==>
         StepsTo(run.states[k], run.calls[k], run.states[k + 1])
  }

  // ---- order and identity ----------------------------------------------------------------

  ghost predicate IsCurrent(s: State, x: Event) {
    x.id < |s.made| && s.made[x.id] == x
  }

  /** The set is in order, and what it holds are the events as they are now. */
  ghost predicate Consistent(s: State) {
    && Sorted(s.pending)
    && (forall i :: 0 <= i < |s.made| ==> s.made[i].id == i)
    && (forall x {:trigger IsCurrent(s, x)} :: x in s.pending ==> IsCurrent(s, x))
  }

  lemma OneOfEach(s: State, i: nat)
    requires Consistent(s) && i < |s.made|
    ensures OneOf(s.pending, s.made[i])
  {
    forall x | x in s.pending && x.id == i ensures x == s.made[i] {
      assert IsCurrent(s, x);
    }
  }

  lemma FlagsKeepOrder(s: State, i: nat, e: Event)
    requires Consistent(s) && i < |s.made| && e.id == i && e.due == s.made[i].due
    ensures Consistent(WithEvent(s, i, e))
    ensures forall j :: 0 <= j < |s.made| && s.made[j] in s.pending ==>
      WithEvent(s, i, e).made[j] in WithEvent(s, i, e).pending
  {
    var s' := WithEvent(s, i, e);
    forall k | 0 <= k < |s.pending|
      ensures s'.pending[k].due == s.pending[k].due && IsCurrent(s', s'.pending[k])
    {
      assert IsCurrent(s, s.pending[k]);
    }
    forall j | 0 <= j < |s.made| && s.made[j] in s.pending ensures s'.made[j] in s'.pending {
      var k :| 0 <= k < |s.pending| && s.pending[k] == s.made[j];
      assert s'.pending[k] == s'.made[j];
    }
  }

  lemma AddKeeps(s: State, interval: nat, callback: nat, repeated: bool, now: nat)
    requires Consistent(s)
    ensures Consistent(DoAdd(s, interval, callback, repeated, now))
  {
    var s' := DoAdd(s, interval, callback, repeated, now);
    var e := s'.made[|s.made|];
    InsertKeepsOrder(s.pending, e);
    InsertMembers(s.pending, e);
    forall x | x in s'.pending ensures IsCurrent(s', x) {
      assert x != e ==> IsCurrent(s, x);
    }
  }

  lemma ResetKeeps(s: State, i: nat, interval: nat, now: nat)
    requires Consistent(s) && i < |s.made|
    ensures Consistent(DoReset(s, i, interval, now))
  {
    var e, s' := s.made[i], DoReset(s, i, interval, now);
    ResetExact(s.pending, e, interval, now);
    OneOfEach(s, i);
    forall x | x in s'.pending ensures IsCurrent(s', x) {
      assert x != s'.made[i] ==> IsCurrent(s, x);
    }
  }

  lemma ExpiryKeeps(s: State, now: nat)
    requires Consistent(s)
    ensures Consistent(DoGetExpired(s, now))
  {
    var s' := DoGetExpired(s, now);
    ExpiryExact(s.pending, now);
    forall x | x in s'.pending ensures IsCurrent(s', x) {
      if StillAhead(s.pending, now, x) {
        assert IsCurrent(s, x);
      } else {
        var y :| y in s.pending && y.due <= now && y.Repeats() && x == y.After(now);
        assert IsCurrent(s, y);
      }
    }
  }

  lemma StepKeeps(s: State, c: Call)
    requires Consistent(s) && Enabled(s, c)
    ensures Consistent(Next(s, c))
  {
    match c.action
    case AddTimeEvent(interval, callback, repeated) => AddKeeps(s, interval, callback, repeated, c.now);
    case ResetTime(i) => ResetKeeps(s, i, s.made[i].interval, c.now);
    case ResetTimeTo(i, interval) => ResetKeeps(s, i, interval, c.now);
    case GetExpired => ExpiryKeeps(s, c.now);
    case _ => FlagsKeepOrder(s, c.action.i, Next(s, c).made[c.action.i]);
  }

  /** After any calls the set is in strict order, and holds each pending event once, as it is now. */
  lemma {:induction false} AlwaysConsistent(run: Run, k: nat)
    requires IsRun(run) && k < |run.states|
    ensures Consistent(run.states[k])
  {
    hide Next;
    if k > 0 {
      AlwaysConsistent(run, k - 1);
      assert StepsTo(run.states[k - 1], run.calls[k - 1], run.states[k]);
      StepKeeps(run.states[k - 1], run.calls[k - 1]);
    }
  }

  // ---- intervals -------------------------------------------------------------------------

  predicate SetsInterval(c: Call, i: nat) { c.action.ResetTimeTo? && c.action.i == i }

  /** A reset of i finds something: some pending event has its due time. */
  ghost predicate Finds(s: State, i: nat)
    requires i < |s.made|
  {
    s.made[i].due in Dues(s.pending)
  }

  lemma StepKeepsInterval(s: State, c: Call, i: nat)
    requires Enabled(s, c) && i < |s.made| && !SetsInterval(c, i)
    ensures i < |Next(s, c).made| && Next(s, c).made[i].interval == s.made[i].interval
  {
  }

  /** Event i keeps its interval until it is reset to another. */
  lemma {:induction false} IntervalKept(run: Run, j: nat, k: nat, i: nat)
    requires IsRun(run) && j <= k < |run.states| && i < |run.states[j].made|
    requires forall h :: j <= h < k ==> !SetsInterval(run.calls[h], i)
    ensures i < |run.states[k].made| && run.states[k].made[i].interval == run.states[j].made[i].interval
    decreases k
  {
    hide Next;
    if j < k {
      IntervalKept(run, j, k - 1, i);
      assert StepsTo(run.states[k - 1], run.calls[k - 1], run.states[k]);
      StepKeepsInterval(run.states[k - 1], run.calls[k - 1], i);
    }
  }

  lemma ResetSets(s: State, i: nat, interval: nat, now: nat)
    requires Consistent(s) && i < |s.made| && Finds(s, i)
    ensures var e := DoReset(s, i, interval, now).made[i];
      e.due == now + interval && e.interval == interval && !e.cancelled
  {
    ResetExact(s.pending, s.made[i], interval, now);
  }

  /**
   After a reset of i to interval d that found something, and until the next one, every expiry that
   puts i back and every plain reset that finds something make it due d later.
   */
  lemma RearmsByLastReset(run: Run, j: nat, k: nat, i: nat, d: nat)
    requires IsRun(run) && j < k < |run.calls| && run.calls[j].action == ResetTimeTo(i, d)
    requires i < |run.states[j].made| && Finds(run.states[j], i)
    requires forall h :: j < h < k ==> !SetsInterval(run.calls[h], i)
    ensures i < |run.states[j + 1].made| && run.states[j + 1].made[i].due == run.calls[j].now + d
    ensures i < |run.states[k].made| && i < |run.states[k + 1].made|
    ensures var (s, c, due') := (run.states[k], run.calls[k], run.states[k + 1].made[i].due);
      && (c.action.GetExpired? && Returns(s, i, c.now) ==> due' == c.now + d)
      && (c.action == ResetTime(i) && Finds(s, i) ==> due' == c.now + d)
  {
    hide Reset, Expire, Consistent, Finds;
    AlwaysConsistent(run, j);
    AlwaysConsistent(run, k);
    assert StepsTo(run.states[j], run.calls[j], run.states[j + 1]);
    assert StepsTo(run.states[k], run.calls[k], run.states[k + 1]);
    ResetSets(run.states[j], i, d, run.calls[j].now);
    IntervalKept(run, j + 1, k, i);
    if run.calls[k].action == ResetTime(i) && Finds(run.states[k], i) {
      ResetSets(run.states[k], i, d, run.calls[k].now);
    }
  }

  // ---- how an event leaves the set -------------------------------------------------------

  predicate IsPending(s: State, i: nat) {
    i < |s.made| && s.made[i] in s.pending
  }

  /** No event still to come is due at t. */
  ghost predicate PlaceFree(s: seq<Event>, now: nat, t: nat) {
    forall y :: y in s && y.due > now ==> y.due != t
  }

  /** Of the repeating events of e's interval that are due, none was due before e. */
  ghost predicate Earliest(s: seq<Event>, now: nat, e: Event) {
    forall y :: y in s && y.due <= now && y.Repeats() && y.interval == e.interval ==> e.due <= y.due
  }

  /** Of the repeating events of one interval that are due, the one due first goes back, if its time is free. */
  ghost predicate GoesBack(s: State, i: nat, now: nat)
    requires i < |s.made|
  {
    var e := s.made[i];
    e.Repeats() && PlaceFree(s.pending, now, now + e.interval) && Earliest(s.pending, now, e)
  }

  /** A reset of j to now + interval removes i: i itself finds its new time taken, or another event has i's due time. */
  ghost predicate ResetRemoves(s: State, i: nat, j: nat, interval: nat, now: nat)
    requires i < |s.made| && j < |s.made|
  {
    if i == j then exists y :: y in s.pending && y.id != i && y.due == now + interval
    else s.made[j].due == s.made[i].due
  }

  ghost predicate Removes(s: State, c: Call, i: nat)
    requires Enabled(s, c) && i < |s.made|
  {
    match c.action
    case ResetTime(j) => ResetRemoves(s, i, j, s.made[j].interval, c.now)
    case ResetTimeTo(j, interval) => ResetRemoves(s, i, j, interval, c.now)
    case GetExpired => s.made[i].due <= c.now && !GoesBack(s, i, c.now)
    case _ => false
  }

  lemma AddRemovesNone(s: State, interval: nat, callback: nat, repeated: bool, now: nat, i: nat)
    requires Consistent(s) && IsPending(s, i)
    ensures IsPending(DoAdd(s, interval, callback, repeated, now), i)
  {
    InsertMembers(s.pending, Event(|s.made|, now + interval, interval, repeated, false, false, callback));
  }

  lemma ResetOfItself(s: State, i: nat, interval: nat, now: nat)
    requires Consistent(s) && IsPending(s, i)
    ensures IsPending(DoReset(s, i, interval, now), i) <==> !ResetRemoves(s, i, i, interval, now)
  {
    var e, s' := s.made[i], DoReset(s, i, interval, now);
    ResetExact(s.pending, e, interval, now);
    OneOfEach(s, i);
    if y :| y in s.pending && y.id != i && y.due == now + interval {
      SameDueSame(s.pending, e, e);
      assert y in s'.pending;
      if s'.made[i] in s'.pending {
        SameDueSame(s'.pending, y, s'.made[i]);
      }
    }
  }

  lemma ResetOfAnother(s: State, i: nat, j: nat, interval: nat, now: nat)
    requires Consistent(s) && IsPending(s, i) && j < |s.made| && i != j
    ensures IsPending(DoReset(s, j, interval, now), i) <==> !ResetRemoves(s, i, j, interval, now)
  {
    ResetExact(s.pending, s.made[j], interval, now);
  }

  /** The first of its interval among the due events takes its next due time if no later event has it. */
  lemma {:induction false} FirstGoesBack(later: seq<Event>, due: seq<Event>, now: nat, e: Event)
    requires Sorted(later) && Sorted(due) && e in due && e.Repeats() && now + e.interval !in Dues(later)
    requires forall y :: y in due && y.Repeats() && y.interval == e.interval ==> e.due <= y.due
    ensures e.After(now) in InsertAll(later, Rearmed(due, now))
    decreases |due|
  {
    var d, rest := due[0], due[1..];
    RearmStep(later, due, now);
    assert due == [d] + rest;
    if d == e {
      HoldsIsMembership(later, now + e.interval);
      InsertMembers(later, e.After(now));
      InsertAllMember(Insert(later, e.After(now)), Rearmed(rest, now), e.After(now));
    } else {
      assert d.due < e.due;
      if d.Repeats() {
        InsertKeepsOrder(later, d.After(now));
        FirstGoesBack(Insert(later, d.After(now)), rest, now, e);
      } else {
        FirstGoesBack(later, rest, now, e);
      }
    }
  }

  lemma {:induction false} FirstOf(due: seq<Event>, e: Event) returns (f: Event)
    requires Sorted(due) && e in due && e.Repeats()
    ensures f in due && f.Repeats() && f.interval == e.interval && f.due <= e.due
    ensures forall y :: y in due && y.Repeats() && y.interval == e.interval ==> f.due <= y.due
    decreases |due|
  {
    f := due[0];
    if !(f.Repeats() && f.interval == e.interval) {
      assert due == [f] + due[1..];
      f := FirstOf(due[1..], e);
    }
  }

  lemma SplitsByTime(s: seq<Event>, now: nat)
    requires Sorted(s)
    ensures var k := Rank(s, now + 1);
      && (forall y :: y in s[k..] <==> y in s && y.due > now)
      && (forall y :: y in s[..k] <==> y in s && y.due <= now)
  {
    PrefixIsDue(s, now);
    var k := Rank(s, now + 1);
    forall y | y in s[k..] ensures y in s && y.due > now {
      assert StillAhead(s, now, y);
    }
    forall y | y in s && y.due > now ensures y in s[k..] {
      assert StillAhead(s, now, y);
    }
    forall y | y in s[..k] ensures y in s && y.due <= now {
      assert IsDue(s, now, y);
    }
    forall y | y in s && y.due <= now ensures y in s[..k] {
      assert IsDue(s, now, y);
    }
  }

  lemma SplitWinner(s: seq<Event>, now: nat, e: Event)
    requires Sorted(s) && e in s && e.due <= now && PlaceFree(s, now, now + e.interval) && Earliest(s, now, e)
    ensures var k := Rank(s, now + 1);
      && e in s[..k] && now + e.interval !in Dues(s[k..])
      && (forall y :: y in s[..k] && y.Repeats() && y.interval == e.interval ==> e.due <= y.due)
  {
    SplitsByTime(s, now);
  }

  lemma WinnerGoesBack(s: seq<Event>, now: nat, e: Event)
    requires Sorted(s) && e in s && e.due <= now && e.Repeats()
    requires PlaceFree(s, now, now + e.interval) && Earliest(s, now, e)
    ensures e.After(now) in Expire(s, now).1
  {
    var k := Rank(s, now + 1);
    SplitWinner(s, now, e);
    FirstGoesBack(s[k..], s[..k], now, e);
  }

  lemma SortedUnlike(s: seq<Event>, x: Event, y: Event)
    requires Sorted(s) && x in s && y in s && x != y
    ensures x.due != y.due
  {
  }

  /** Whatever is pending at the next due time of i after an expiry is i's successor only if i won the place. */
  lemma OnlyWinnerGoesBack(s: State, i: nat, now: nat)
    requires Consistent(s) && IsPending(s, i) && s.made[i].due <= now && s.made[i].Repeats()
    requires s.made[i].After(now) in Expire(s.pending, now).1
    ensures GoesBack(s, i, now)
  {
    var e, pending := s.made[i], Expire(s.pending, now).1;
    ExpiryExact(s.pending, now);
    OneOfEach(s, i);
    forall y | y in s.pending && y.due > now ensures y.due != now + e.interval {
      assert StillAhead(s.pending, now, y);
      assert y != e.After(now);
      SortedUnlike(pending, y, e.After(now));
    }
    EarliestOfInterval(s, i, now);
  }

  lemma EarliestOfInterval(s: State, i: nat, now: nat)
    requires Consistent(s) && IsPending(s, i) && s.made[i].due <= now && s.made[i].Repeats()
    requires s.made[i].After(now) in Expire(s.pending, now).1
    requires PlaceFree(s.pending, now, now + s.made[i].interval)
    ensures Earliest(s.pending, now, s.made[i])
  {
    var e := s.made[i];
    var f := EarliestLike(s.pending, now, e);
    WinnerGoesBack(s.pending, now, f);
    ExpiryExact(s.pending, now);
    SameDueSame(Expire(s.pending, now).1, e.After(now), f.After(now));
    OneOfEach(s, i);
  }

  lemma EarliestLike(s: seq<Event>, now: nat, e: Event) returns (f: Event)
    requires Sorted(s) && e in s && e.due <= now && e.Repeats()
    ensures f in s && f.due <= now && f.Repeats() && f.interval == e.interval && Earliest(s, now, f)
  {
    SplitsByTime(s, now);
    f := FirstOf(s[..Rank(s, now + 1)], e);
  }

  lemma ExpiryRemoves(s: State, i: nat, now: nat)
    requires Consistent(s) && IsPending(s, i)
    ensures IsPending(DoGetExpired(s, now), i) <==> !(s.made[i].due <= now && !GoesBack(s, i, now))
  {
    var e, pending := s.made[i], Expire(s.pending, now).1;
    ExpiryExact(s.pending, now);
    if e.due > now {
      assert StillAhead(s.pending, now, e);
    } else if e.Repeats() {
      if GoesBack(s, i, now) {
        WinnerGoesBack(s.pending, now, e);
      } else if e.After(now) in pending {
        OnlyWinnerGoesBack(s, i, now);
      }
    } else if e in pending {
      NotRepeatingIsGone(s, i, now);
    }
  }

  lemma NotRepeatingIsGone(s: State, i: nat, now: nat)
    requires Consistent(s) && IsPending(s, i) && s.made[i].due <= now && !s.made[i].Repeats()
    ensures s.made[i] !in Expire(s.pending, now).1
  {
    var e := s.made[i];
    ExpiryExact(s.pending, now);
    OneOfEach(s, i);
    forall x | x in s.pending && x.Repeats() ensures x.After(now) != e {
      assert x.After(now).id == x.id;
    }
  }

  /** A call takes a pending event out of the set exactly in the cases Removes lists. */
  lemma LeavesExactlyWhen(run: Run, k: nat, i: nat)
    requires IsRun(run) && k < |run.calls| && IsPending(run.states[k], i)
    ensures Enabled(run.states[k], run.calls[k])
    ensures !IsPending(run.states[k + 1], i) <==> Removes(run.states[k], run.calls[k], i)
  {
    var s, c := run.states[k], run.calls[k];
    AlwaysConsistent(run, k);
    assert StepsTo(s, c, run.states[k + 1]);
    match c.action
    case AddTimeEvent(interval, callback, repeated) => AddRemovesNone(s, interval, callback, repeated, c.now, i);
    case ResetTime(j) => ResetRemovesExactly(s, i, j, s.made[j].interval, c.now);
    case ResetTimeTo(j, interval) => ResetRemovesExactly(s, i, j, interval, c.now);
    case GetExpired => ExpiryRemoves(s, i, c.now);
    case _ => FlagsKeepOrder(s, c.action.i, Next(s, c).made[c.action.i]);
  }

  lemma ResetRemovesExactly(s: State, i: nat, j: nat, interval: nat, now: nat)
    requires Consistent(s) && IsPending(s, i) && j < |s.made|
    ensures IsPending(DoReset(s, j, interval, now), i) <==> !ResetRemoves(s, i, j, interval, now)
  {
    if i == j {
      ResetOfItself(s, i, interval, now);
    } else {
      ResetOfAnother(s, i, j, interval, now);
    }
  }
}
