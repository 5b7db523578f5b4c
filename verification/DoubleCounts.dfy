/**
 The other failure of stale replicators: the old and the new replicator of a follower each have the
 same entry acknowledged, and the leader counts the second acknowledgement for the next position.
 Every request is handled once and in send order.
 */
module DoubleCounts {
  import opened RaftTypes
  import opened RaftStep
  import opened Cluster
  import opened ElectionSafety
  import opened Leadership
  import opened RaftTheorems
  import opened Claims
  import opened Scenarios
  import opened DisorderedRun
  import opened StaleRuns

  // ---- first leadership: every follower takes entry 1, the replies are slow ----------------

  /** Follower u has taken entry 1; its replicator still waits for the reply. */
  ghost predicate Slow(n: nat, s: Cluster, u: nat)
    requires s.Size() == n
  {
    && 1 <= u < n && s.nodes[u].role == Follower && s.nodes[u].currentTerm == 1 && s.nodes[u].log == LogOne()
    && OldOf(u) < |s.replicators| && s.replicators[OldOf(u)].(status := Idle) == Replicator(0, u, 1, Idle)
    && s.replicators[OldOf(u)].status.Waiting?
    && AppendReply(s.replicators[OldOf(u)].status.request, AppendRets(true, 1)) in s.appendReplies
  }

  ghost predicate Yet(n: nat, s: Cluster, u: nat)
    requires s.Size() == n
  {
    && 1 <= u < n && s.nodes[u].role == Follower && s.nodes[u].currentTerm == 1 && s.nodes[u].log == [SENTINEL]
    && At(s.nodes[0].nextIndex, u) == 1
    && OldOf(u) < |s.replicators| && s.replicators[OldOf(u)] == Replicator(0, u, 1, Idle)
  }

  ghost predicate Handing(n: nat, s: Cluster, i: nat) {
    && n >= 2 && SafeSize(n) && Leads(n, s, 0, 1, LogOne()) && i <= Needed(n) && |s.replicators| == n - 1
    && (forall u {:trigger Slow(n, s, u)} :: 1 <= u <= i ==> Slow(n, s, u))
    && (forall u {:trigger Yet(n, s, u)} :: i < u <= Needed(n) ==> Yet(n, s, u))
    && (forall u :: Needed(n) < u < n ==> s.nodes[u] == InitNode(u, n))
  }

  lemma HandsOne(n: nat, run: Run, i: nat) returns (run': Run)
    requires Under(n, run, true, false) && Handing(n, Last(run), i) && i < Needed(n)
    ensures Under(n, run', true, false) && Handing(n, Last(run'), i + 1)
  {
    hide Next, Handles;
    var s, u := Last(run), i + 1;
    assert Yet(n, s, u);
    assert LogOne()[..1] == [SENTINEL][..1] && LogOne()[..2] == LogOne();
    run' := Hands(n, run, true, false, 0, 1, LogOne(), 1, OldOf(u));
    var s' := Last(run');
    forall w: nat | 1 <= w <= u ensures Slow(n, s', w) {
      if w < u {
        assert Slow(n, s, w);
      }
    }
    forall w: nat | u < w <= Needed(n) ensures Yet(n, s', w) {
      assert Yet(n, s, w);
    }
  }

  lemma {:induction false} HandsAll(n: nat, run: Run, i: nat) returns (run': Run)
    requires Under(n, run, true, false) && Handing(n, Last(run), i)
    ensures Under(n, run', true, false) && Handing(n, Last(run'), Needed(n))
    decreases Needed(n) - i
  {
    run' := run;
    if i < Needed(n) {
      var mid := HandsOne(n, run, i);
      run' := HandsAll(n, mid, i + 1);
    }
  }

  lemma HandsFirst(n: nat) returns (run: Run)
    requires 2 <= n < NO_ID && SafeSize(n)
    ensures Under(n, run, true, false) && Handing(n, Last(run), Needed(n))
  {
    var led := FirstLeader(n, true, false);
    forall u: nat | 0 < u <= Needed(n) ensures Yet(n, Last(led), u) {
      assert Spawned(0, 1, n)[u - 1] == Replicator(0, u, 1, Idle);
    }
    run := HandsAll(n, led, 0);
  }

  // ---- second leadership: the stale replies are read and ignored ---------------------------

  /** Follower u in term 3, with two idle replicators that both ask for position 2. */
  ghost predicate Ready(n: nat, s: Cluster, log: seq<Entry>, u: nat)
    requires s.Size() == n >= 2
  {
    && BothIdle(n, s, u) && At(s.nodes[0].nextIndex, u) == 2 && 2 <= |log|
    && s.nodes[u].role == Follower && s.nodes[u].currentTerm == 3 && s.nodes[u].log == log[..2]
  }

  /** The same, but the old replicator has not read its reply of term 1 yet. */
  ghost predicate Unread(n: nat, s: Cluster, u: nat)
    requires s.Size() == n >= 2
  {
    && 1 <= u < n && OldOf(u) < n - 1 && NewIdle(n, s, u) && At(s.nodes[0].nextIndex, u) == 2
    && s.nodes[u].role == Follower && s.nodes[u].currentTerm == 3 && s.nodes[u].log == LogThree()[..2]
    && s.replicators[OldOf(u)].(status := Idle) == Replicator(0, u, 1, Idle) && s.replicators[OldOf(u)].status.Waiting?
    && AppendReply(s.replicators[OldOf(u)].status.request, AppendRets(true, 1)) in s.appendReplies
  }

  ghost predicate Reading(n: nat, s: Cluster, i: nat) {
    && n >= 2 && SafeSize(n) && Leads(n, s, 0, 3, LogThree()) && i <= Needed(n) && |s.replicators| == 2 * (n - 1)
    && (forall u {:trigger Ready(n, s, LogThree(), u)} :: 1 <= u <= i ==> Ready(n, s, LogThree(), u))
    && (forall u {:trigger Unread(n, s, u)} :: i < u <= Needed(n) ==> Unread(n, s, u))
    && (forall u :: Needed(n) < u < n ==> s.nodes[u] == InitNode(u, n))
  }

  lemma LeadsOn(n: nat) returns (run: Run)
    requires 2 <= n < NO_ID && SafeSize(n)
    ensures Under(n, run, true, false) && Reading(n, Last(run), 0)
  {
    var before := HandsFirst(n);
    var s := Last(before);
    forall u: nat | 1 <= u <= Needed(n)
      ensures s.nodes[u].role == Follower && s.nodes[u].currentTerm == 1 && s.nodes[u].log == LogOne()
    {
      assert Slow(n, s, u);
    }
    run := LeadsAgain(n, before);
    assert LogThree()[..2] == LogOne();
    forall u: nat | 0 < u <= Needed(n) ensures Unread(n, Last(run), u) {
      assert Slow(n, s, u);
      assert Spawned(0, 3, n)[u - 1] == Replicator(0, u, 3, Idle);
    }
  }

  lemma ReadsOne(n: nat, run: Run, i: nat) returns (run': Run)
    requires Under(n, run, true, false) && Reading(n, Last(run), i) && i < Needed(n)
    ensures Under(n, run', true, false) && Reading(n, Last(run'), i + 1)
  {
    var s, u := Last(run), i + 1;
    assert Unread(n, s, u);
    run' := Ignored(n, run, true, OldOf(u), AppendRets(true, 1));
    var s' := Last(run');
    forall w: nat | 1 <= w <= u ensures Ready(n, s', LogThree(), w) {
      if w < u {
        assert Ready(n, s, LogThree(), w);
      }
    }
    forall w: nat | u < w <= Needed(n) ensures Unread(n, s', w) {
      assert Unread(n, s, w);
    }
  }

  lemma {:induction false} ReadsAll(n: nat, run: Run, i: nat) returns (run': Run)
    requires Under(n, run, true, false) && Reading(n, Last(run), i)
    ensures Under(n, run', true, false) && Reading(n, Last(run'), Needed(n))
    decreases Needed(n) - i
  {
    run' := run;
    if i < Needed(n) {
      var mid := ReadsOne(n, run, i);
      run' := ReadsAll(n, mid, i + 1);
    }
  }

  // ---- one entry, acknowledged twice -----------------------------------------------------

  /** Entry 2 was acknowledged to both replicators of u; the leader believes in position 3. */
  ghost predicate Twice(n: nat, s: Cluster, log: seq<Entry>, u: nat)
    requires s.Size() == n >= 2
  {
    && BothIdle(n, s, u) && At(s.nodes[0].nextIndex, u) == 4 && At(s.nodes[0].matchIndex, u) == 3 && 3 <= |log|
    && s.nodes[u].role == Follower && s.nodes[u].currentTerm == 3 && s.nodes[u].log == log[..3]
  }

  /** The old replicator's acknowledgement is counted, the new one's is on its way. */
  ghost predicate Half(n: nat, s: Cluster, log: seq<Entry>, u: nat)
    requires s.Size() == n >= 2
  {
    && 1 <= u < n && OldOf(u) < n - 1 && NewOf(n, u) < |s.replicators| && 3 <= |log|
    && At(s.nodes[0].nextIndex, u) == 3
    && s.replicators[OldOf(u)] == Replicator(0, u, 1, Idle)
    && s.replicators[NewOf(n, u)].(status := Idle) == Replicator(0, u, 3, Idle)
    && s.replicators[NewOf(n, u)].status.Waiting?
    && AppendReply(s.replicators[NewOf(n, u)].status.request, AppendRets(true, 3)) in s.appendReplies
    && s.nodes[u].role == Follower && s.nodes[u].currentTerm == 3 && s.nodes[u].log == log[..3]
  }

  /** The first i followers are done; follower i + 1 is halfway if `half`. */
  ghost predicate Doubling(n: nat, s: Cluster, log: seq<Entry>, i: nat, half: bool) {
    && n >= 2 && SafeSize(n) && Leads(n, s, 0, 3, log) && LogThree() <= log
    && |s.replicators| == 2 * (n - 1) && i + (if half then 1 else 0) <= Needed(n)
    && (forall u {:trigger Twice(n, s, log, u)} :: 1 <= u <= i ==> Twice(n, s, log, u))
    && (half ==> Half(n, s, log, i + 1))
    && (forall u {:trigger Ready(n, s, log, u)} ::
          (if half then i + 1 else i) < u <= Needed(n) ==> Ready(n, s, log, u))
    && (forall u :: Needed(n) < u < n ==> s.nodes[u] == InitNode(u, n))
  }

  lemma StartsDoubling(n: nat) returns (run: Run)
    requires 2 <= n < NO_ID && SafeSize(n)
    ensures Under(n, run, true, false) && Doubling(n, Last(run), LogThree(), 0, false)
  {
    var led := LeadsOn(n);
    run := ReadsAll(n, led, 0);
  }

  /** Both replicators of u have had entry 2 taken, and neither has read its reply. */
  ghost predicate Both(n: nat, s: Cluster, log: seq<Entry>, u: nat)
    requires s.Size() == n >= 2
  {
    && 1 <= u < n && OldOf(u) < n - 1 && NewOf(n, u) < |s.replicators| && 3 <= |log|
    && At(s.nodes[0].nextIndex, u) == 2
    && var (o, w) := (s.replicators[OldOf(u)], s.replicators[NewOf(n, u)]);
    && o.(status := Idle) == Replicator(0, u, 1, Idle) && w.(status := Idle) == Replicator(0, u, 3, Idle)
    && o.status.Waiting? && AppendReply(o.status.request, AppendRets(true, 3)) in s.appendReplies
    && w.status.Waiting? && AppendReply(w.status.request, AppendRets(true, 3)) in s.appendReplies
    && s.nodes[u].role == Follower && s.nodes[u].currentTerm == 3 && s.nodes[u].log == log[..3]
  }

  /** Nothing changes but what concerns follower u. */
  ghost predicate OnlyAbout(n: nat, s: Cluster, s': Cluster, u: nat)
    requires n >= 2 && u >= 1
  {
    && s.Size() == n == s'.Size() && |s'.replicators| == |s.replicators|
    && (forall g :: g != u ==>
          && At(s'.nodes[0].nextIndex, g) == At(s.nodes[0].nextIndex, g)
          && At(s'.nodes[0].matchIndex, g) == At(s.nodes[0].matchIndex, g))
    && (forall r :: 0 <= r < |s.replicators| && r != OldOf(u) && r != NewOf(n, u) ==>
          s'.replicators[r] == s.replicators[r])
    && (forall x :: 1 <= x < n && x != u ==> s'.nodes[x] == s.nodes[x])
  }

  /** Both replicators of follower u have it take entry 2; call q at event d is the second. */
  lemma TakesTwice(n: nat, run: Run, log: seq<Entry>, u: nat) returns (run': Run, d: nat, q: nat)
    requires Under(n, run, true, false) && n >= 2 && Leads(n, Last(run), 0, 3, log) && LogThree() <= log
    requires Ready(n, Last(run), log, u)
    ensures Under(n, run', true, false) && Continues(run, run') && Handles(n, run', d, q, u, 3, true)
    ensures Leads(n, Last(run'), 0, 3, log) && Both(n, Last(run'), log, u)
    ensures OnlyAbout(n, Last(run), Last(run'), u)
  {
    hide Handles, Obeys;
    assert log[2] == NoOpAt(3, 2);
    var once := Hands(n, run, true, false, 0, 3, log, 2, OldOf(u));
    assert log[..3][..2] == log[..2];
    run' := Hands(n, once, true, false, 0, 3, log, 2, NewOf(n, u));
    d, q := |run'.events| - 1, |Last(once).appends|;
  }

  /** The old replicator reads an acknowledgement of the new term and has it counted. */
  lemma OldCounted(n: nat, run: Run, log: seq<Entry>, u: nat) returns (run': Run)
    requires Under(n, run, true, false) && n >= 2 && Leads(n, Last(run), 0, 3, log) && Both(n, Last(run), log, u)
    ensures Under(n, run', true, false) && Continues(run, run')
    ensures Leads(n, Last(run'), 0, 3, log) && Half(n, Last(run'), log, u)
    ensures OnlyAbout(n, Last(run), Last(run'), u)
  {
    run' := Acked(n, run, true, false, OldOf(u));
  }

  lemma HalfDoubles(n: nat, run: Run, log: seq<Entry>, i: nat) returns (run': Run, d: nat, q: nat)
    requires Under(n, run, true, false) && Doubling(n, Last(run), log, i, false) && i < Needed(n)
    ensures Under(n, run', true, false) && Continues(run, run') && Doubling(n, Last(run'), log, i, true)
    ensures Handles(n, run', d, q, i + 1, 3, true)
  {
    hide Next;
    assert Ready(n, Last(run), log, i + 1);
    var taken;
    taken, d, q := TakesTwice(n, run, log, i + 1);
    run' := OldCounted(n, taken, log, i + 1);
    HandlesStays(n, taken, run', d, q, i + 1, 3, true);
    HalfDoubled(n, Last(run), Last(run'), log, i);
  }

  lemma HalfDoubled(n: nat, s: Cluster, s': Cluster, log: seq<Entry>, i: nat)
    requires Doubling(n, s, log, i, false) && i < Needed(n) && Leads(n, s', 0, 3, log) && Half(n, s', log, i + 1)
    requires OnlyAbout(n, s, s', i + 1)
    ensures Doubling(n, s', log, i, true)
  {
    forall w: nat | 1 <= w <= i ensures Twice(n, s', log, w) {
      assert Twice(n, s, log, w);
    }
    forall w: nat | i + 1 < w <= Needed(n) ensures Ready(n, s', log, w) {
      assert Ready(n, s, log, w);
    }
  }

  /** The second acknowledgement is counted for position 3, which the follower does not hold. */
  lemma RestDoubles(n: nat, run: Run, log: seq<Entry>, i: nat) returns (run': Run)
    requires Under(n, run, true, false) && Doubling(n, Last(run), log, i, true)
    ensures Under(n, run', true, false) && Continues(run, run') && Doubling(n, Last(run'), log, i + 1, false)
    ensures |run'.events| == |run.events| + 1 && run'.states[|run.events|] == Last(run)
    ensures i + 1 == Needed(n) ==> Counts(n, run', |run.events|, 0, 3)
  {
    hide Next;
    run' := Acked(n, run, true, false, NewOf(n, i + 1));
    RestDoubled(n, Last(run), Last(run'), log, i);
    if i + 1 == Needed(n) {
      BelieveThree(n, Last(run), log, i, true);
      AllMatch(n, Last(run).nodes[0], Needed(n), 3);
    }
  }

  lemma RestDoubled(n: nat, s: Cluster, s': Cluster, log: seq<Entry>, i: nat)
    requires Doubling(n, s, log, i, true) && s'.Size() == n
    requires s'.nodes[0].(commitIndex := 0) == Acknowledge(s.nodes[0], i + 1).(commitIndex := 0)
    requires forall u :: 1 <= u < n ==> s'.nodes[u] == s.nodes[u]
    requires s'.replicators == s.replicators[NewOf(n, i + 1) := Replicator(0, i + 1, 3, Idle)]
    requires s.appendReplies <= s'.appendReplies
    ensures Doubling(n, s', log, i + 1, false)
  {
    forall w: nat | 1 <= w <= i ensures Twice(n, s', log, w) {
      assert Twice(n, s, log, w);
    }
    forall w: nat | i + 1 < w <= Needed(n) ensures Ready(n, s', log, w) {
      assert Ready(n, s, log, w);
    }
  }

  lemma BelieveThree(n: nat, s: Cluster, log: seq<Entry>, i: nat, half: bool)
    requires Doubling(n, s, log, i, half)
    ensures forall w :: 1 <= w <= i ==> At(s.nodes[0].matchIndex, w) >= 3
  {
    forall w: nat | 1 <= w <= i ensures At(s.nodes[0].matchIndex, w) >= 3 {
      assert Twice(n, s, log, w);
    }
  }

  lemma {:induction false} DoublesUpTo(n: nat, run: Run, log: seq<Entry>, i: nat, last: nat) returns (run': Run)
    requires Under(n, run, true, false) && Doubling(n, Last(run), log, i, false) && i <= last <= Needed(n)
    ensures Under(n, run', true, false) && Doubling(n, Last(run'), log, last, false)
    decreases last - i
  {
    run' := run;
    if i < last {
      var half, _, _ := HalfDoubles(n, run, log, i);
      var mid := RestDoubles(n, half, log, i);
      run' := DoublesUpTo(n, mid, log, i + 1, last);
    }
  }

  /** Everything but the last acknowledgement. */
  lemma AlmostDoubled(n: nat) returns (run: Run, d: nat, q: nat)
    requires 2 <= n < NO_ID && SafeSize(n)
    ensures Under(n, run, true, false) && Doubling(n, Last(run), LogThree(), Needed(n) - 1, true)
    ensures Handles(n, run, d, q, Needed(n), 3, true)
  {
    hide Next;
    var start := StartsDoubling(n);
    var mid := DoublesUpTo(n, start, LogThree(), 0, Needed(n) - 1);
    run, d, q := HalfDoubles(n, mid, LogThree(), Needed(n) - 1);
  }

  // ---- an entry that only its leader holds is counted, and lost ------------------------------

  lemma WriteKeepsDoubling(n: nat, s: Cluster, s': Cluster, log: seq<Entry>, i: nat, half: bool, record: Record)
    requires Doubling(n, s, log, i, half) && s'.nodes == s.nodes[0 := OnClientAppend(s.nodes[0], record)]
    requires s'.replicators == s.replicators && s.appendReplies <= s'.appendReplies
    ensures Doubling(n, s', Appended(log, RegisterEntry(3, record)), i, half)
  {
    var log' := Appended(log, RegisterEntry(3, record));
    assert log'[..2] == log[..2] && log'[..3] == log[..3];
    forall w: nat | 1 <= w <= i ensures Twice(n, s', log', w) {
      assert Twice(n, s, log, w);
    }
    forall w: nat | (if half then i + 1 else i) < w <= Needed(n) ensures Ready(n, s', log', w) {
      assert Ready(n, s, log, w);
    }
  }

  function LogFour(record: Record): seq<Entry> { LogThree() + [Written(3, record, 3)] }

  lemma CountsUnsent(n: nat, record: Record) returns (run: Run, j: nat)
    requires 2 <= n < NO_ID && SafeSize(n)
    ensures Under(n, run, true, false) && |run.states| == j + 2 && Counts(n, run, j, 0, 3)
    ensures Leads(n, run.states[j], 0, 3, LogFour(record)) && Doubling(n, Last(run), LogFour(record), Needed(n), false)
  {
    var almost, _, _ := AlmostDoubled(n);
    var written := Writes(n, almost, true, false, 0, record);
    WriteKeepsDoubling(n, Last(almost), Last(written), LogThree(), Needed(n) - 1, true, record);
    assert Appended(LogThree(), RegisterEntry(3, record)) == LogFour(record);
    run := RestDoubles(n, written, LogFour(record), Needed(n) - 1);
    j := |written.events|;
  }

  /** With an odd number of nodes the next leader needs none of those that hold the counted entry. */
  lemma StaleLosesEntry(n: nat, record: Record) returns (run: Run, j: nat)
    requires 3 <= n < NO_ID && n % 2 == 1
    ensures Under(n, run, true, false) && Counts(n, run, j, 0, 3) && j + 1 < |run.states|
    ensures Leads(n, run.states[j], 0, 3, LogFour(record)) && Leads(n, Last(run), 1, 4, LogThree() + [NoOpAt(4, 3)])
    ensures !Complete(n, run)
  {
    hide Next;
    var before;
    before, j := CountsUnsent(n, record);
    var s := Last(before);
    assert Twice(n, s, LogFour(record), 1);
    assert LogFour(record)[..3] == LogThree();
    Sizes(n, before);
    run := ElectBy(n, before, true, false, 1, Needed(n) + 1, n);
    CountsStays(n, before, run, j, 0, 3);
    var log := LogThree() + [NoOpAt(4, 3)];
    assert Last(run).nodes[1].log == log;
    assert LogFour(record)[..4][3] == Written(3, record, 3) && log[..4][3] == NoOpAt(4, 3);
    assert !CompleteAt(n, run, j, |run.states| - 1, 0, 3, 1);
  }

  // ---- a position that does not exist is counted -------------------------------------------

  /** Event j counts position 3 of a log that ends at 2; call q was taken at event d. */
  ghost predicate BeyondEnd(n: nat, run: Run, j: nat, d: nat, q: nat) {
    && Under(n, run, true, false) && Counts(n, run, j, 0, 3) && j + 1 < |run.states|
    && Leads(n, run.states[j], 0, 3, LogThree()) && Doubling(n, run.states[j + 1], LogThree(), Needed(n), false)
    && Handles(n, run, d, q, Needed(n), 3, true)
  }

  lemma CountsBeyondEnd(n: nat) returns (run: Run, j: nat, d: nat, q: nat)
    requires 2 <= n < NO_ID && SafeSize(n)
    ensures BeyondEnd(n, run, j, d, q) && |run.states| == j + 2 && d < j
  {
    var almost;
    almost, d, q := AlmostDoubled(n);
    run := RestDoubles(n, almost, LogThree(), Needed(n) - 1);
    j := |almost.events|;
    HandlesStays(n, almost, run, d, q, Needed(n), 3, true);
  }

  lemma BeyondEndStays(n: nat, run: Run, run': Run, j: nat, d: nat, q: nat)
    requires BeyondEnd(n, run, j, d, q) && Under(n, run', true, false) && Continues(run, run')
    ensures BeyondEnd(n, run', j, d, q)
  {
    CountsStays(n, run, run', j, 0, 3);
    HandlesStays(n, run, run', d, q, Needed(n), 3, true);
    assert run'.states[j + 1] == run.states[j + 1];
  }

  lemma BeyondEndMisleads(n: nat, run: Run, j: nat, d: nat, q: nat)
    requires BeyondEnd(n, run, j, d, q)
    ensures !Complete(n, run) && !MatchSound(n, run)
  {
    assert Twice(n, run.states[j + 1], LogThree(), 1);
    assert !CompleteAt(n, run, j, j + 1, 0, 3, 0);
    assert !MatchAt(n, run, j + 1, j + 1, 0, 1);
  }

  function LogFive(record: Record): seq<Entry> { LogThree() + [Written(3, record, 3), Written(3, record, 4)] }

  /** The last follower is asked for position 4 and refuses; nextIndex goes back to 3. */
  lemma LastRefuses(n: nat, run: Run, record: Record) returns (run': Run, k: nat, q: nat)
    requires Under(n, run, true, false) && Doubling(n, Last(run), LogFive(record), Needed(n), false)
    ensures Under(n, run', true, false) && Continues(run, run') && k >= |run.events|
    ensures Handles(n, run', k, q, Needed(n), 3, false)
    ensures var (s, s', u) := (Last(run), Last(run'), Needed(n));
      && s'.Size() == n && s'.nodes[0] == s.nodes[0].(nextIndex := s.nodes[0].nextIndex[u := 3])
      && Voted(s.nodes[u], s'.nodes[u], 3)
      && OldOf(u) < |s'.replicators| && s'.replicators[OldOf(u)] == Replicator(0, u, 1, Idle)
  {
    hide Next, Handles;
    assert Twice(n, Last(run), LogFive(record), Needed(n));
    q := |Last(run).appends|;
    run', k := TurnsDown(n, run, true, false, 0, 3, LogFive(record), 4, NewOf(n, Needed(n)));
  }

  lemma WritesFive(n: nat, run: Run, record: Record) returns (run': Run)
    requires Under(n, run, true, false) && Doubling(n, Last(run), LogThree(), Needed(n), false)
    ensures Under(n, run', true, false) && Continues(run, run')
    ensures Doubling(n, Last(run'), LogFive(record), Needed(n), false)
  {
    var once := Writes(n, run, true, false, 0, record);
    WriteKeepsDoubling(n, Last(run), Last(once), LogThree(), Needed(n), false, record);
    assert Appended(LogThree(), RegisterEntry(3, record)) == LogFour(record);
    run' := Writes(n, once, true, false, 0, record);
    WriteKeepsDoubling(n, Last(once), Last(run'), LogFour(record), Needed(n), false, record);
    assert Appended(LogFour(record), RegisterEntry(3, record)) == LogFive(record);
  }

  lemma CanHandThird(n: nat, s: Cluster, s': Cluster, record: Record)
    requires Doubling(n, s, LogFive(record), Needed(n), false) && s'.Size() == n
    requires var u := Needed(n);
      && s'.nodes[0] == s.nodes[0].(nextIndex := s.nodes[0].nextIndex[u := 3]) && Voted(s.nodes[u], s'.nodes[u], 3)
    ensures Leads(n, s', 0, 3, LogFive(record)) && 1 <= Needed(n) < n
    ensures Behind(s'.nodes[Needed(n)], s'.nodes[0], Needed(n), 3)
    ensures forall w :: 1 <= w < Needed(n) ==> At(s'.nodes[0].matchIndex, w) >= 3
  {
    BelieveThree(n, s, LogFive(record), Needed(n), false);
    assert Twice(n, s, LogFive(record), Needed(n));
  }

  /** The last follower takes position 3, and the old replicator has it counted. */
  lemma CountsThird(n: nat, run: Run, record: Record) returns (run': Run, k: nat)
    requires Under(n, run, true, false) && n >= 2 && SafeSize(n) && Leads(n, Last(run), 0, 3, LogFive(record))
    requires 1 <= Needed(n) < n && Behind(Last(run).nodes[Needed(n)], Last(run).nodes[0], Needed(n), 3)
    requires OldOf(Needed(n)) < |Last(run).replicators|
    requires Last(run).replicators[OldOf(Needed(n))] == Replicator(0, Needed(n), 1, Idle)
    requires forall w :: 1 <= w < Needed(n) ==> At(Last(run).nodes[0].matchIndex, w) >= 3
    ensures Under(n, run', true, false) && Continues(run, run') && k >= |run.events| && Counts(n, run', k, 0, 3)
  {
    hide Next, Handles, IsCopy;
    assert LogFive(record)[3] == Written(3, record, 3);
    var handed := Hands(n, run, true, false, 0, 3, LogFive(record), 3, OldOf(Needed(n)));
    AllMatch(n, Last(handed).nodes[0], Needed(n), 3);
    run' := Acked(n, handed, true, false, OldOf(Needed(n)));
    k := |handed.events|;
  }

  /** Position 3 is counted again, now that there is one. */
  lemma CountsAgain(n: nat, run: Run, record: Record) returns (run': Run, k: nat, k': nat, q: nat)
    requires Under(n, run, true, false) && Doubling(n, Last(run), LogFive(record), Needed(n), false)
    ensures Under(n, run', true, false) && Continues(run, run') && |run.events| <= k < k'
    ensures Handles(n, run', k, q, Needed(n), 3, false) && Counts(n, run', k', 0, 3)
  {
    hide Next, Behind, Leads;
    var refused;
    refused, k, q := LastRefuses(n, run, record);
    CanHandThird(n, Last(run), Last(refused), record);
    run', k' := CountsThird(n, refused, record);
    HandlesStays(n, refused, run', k, q, Needed(n), 3, false);
  }

  /** In any cluster with followers every claim of FifoTheorems fails. */
  lemma StaleMisleads(n: nat, record: Record) returns (run: Run)
    requires 2 <= n < NO_ID && SafeSize(n)
    ensures Under(n, run, true, false)
    ensures !Complete(n, run) && !MatchSound(n, run) && !Steady(n, run) && !CountsAgree(n, run)
  {
    var beyond, j, d, q := CountsBeyondEnd(n);
    var written := WritesFive(n, beyond, record);
    var k, k', q';
    run, k, k', q' := CountsAgain(n, written, record);
    BeyondEndStays(n, beyond, run, j, d, q);
    BeyondEndMisleads(n, run, j, d, q);
    assert !SteadyAt(n, run, d, k, q, q', Needed(n), 3);
    assert !AgreeAt(n, run, j, k', 0, 0, 3, 3);
  }
}
