/**
 What goes wrong when a replicator of an earlier leadership goes on in a later one, although every
 request is handled once and in send order: replicateLog tests only that its node leads, not in
 which term (raft_node.cpp:242, :301, :320-323).
 */
module StaleRuns {
  import opened RaftTypes
  import opened RaftStep
  import opened Cluster
  import opened ElectionSafety
  import opened Leadership
  import opened RaftTheorems
  import opened Claims
  import opened Scenarios
  import opened DisorderedRun

  function LogThree(): seq<Entry> { LogOne() + [NoOpAt(3, 2)] }

  // ---- led, deposed, elected again -------------------------------------------------------

  /** Node 0 leads term 1, and followers 1 .. Needed(n) have at most its log. */
  ghost predicate CanLeadAgain(n: nat, s: Cluster) {
    && n >= 2 && SafeSize(n) && Leads(n, s, 0, 1, LogOne())
    && (forall u :: 1 <= u <= Needed(n) < n ==>
          && s.nodes[u].role == Follower && s.nodes[u].currentTerm == 1
          && (s.nodes[u].log == [SENTINEL] || s.nodes[u].log == LogOne()))
    && |s.replicators| == n - 1
  }

  /** Node 1 deposes node 0, which is then elected in term 3 by the followers it had. */
  lemma LeadsAgain(n: nat, run: Run) returns (run': Run)
    requires Under(n, run, true, false) && CanLeadAgain(n, Last(run))
    ensures Under(n, run', true, false) && Continues(run, run') && Grows(Last(run), Last(run'))
    ensures var (s, s') := (Last(run), Last(run'));
      && Leads(n, s', 0, 3, LogThree())
      && (forall u :: 1 <= u < n ==> At(s'.nodes[0].nextIndex, u) == 2)
      && (forall u :: 1 <= u <= Needed(n) < n ==> Voted(s.nodes[u], s'.nodes[u], 3))
      && (forall u :: Needed(n) < u < n ==> s'.nodes[u] == s.nodes[u])
      && s'.appends == s.appends && s'.replicators == s.replicators + Spawned(0, 3, n)
  {
    hide Next, WouldGrant;
    Sizes(n, run);
    var deposed := Deposes(n, run, true, false, 1, 0);
    Sizes(n, deposed);
    DeposedCanWin(n, Last(run), Last(deposed));
    run' := ElectBy(n, deposed, true, false, 0, 1, Needed(n) + 1);
    SecondTerm(n, Last(deposed).nodes[0]);
  }

  lemma DeposedCanWin(n: nat, s: Cluster, s': Cluster)
    requires CanLeadAgain(n, s) && s'.Size() == n && s'.nodes[0].log == LogOne() && s'.nodes[0].role == Follower
    requires s'.nodes[0].currentTerm == 2 && s'.nodes[1] == OnElectionTimeout(s.nodes[1])
    requires forall u :: 2 <= u < n ==> s'.nodes[u] == s.nodes[u]
    ensures forall u :: 1 <= u <= Needed(n) < n ==>
      WouldGrant(s'.nodes[u], VoteRequest(OnElectionTimeout(s'.nodes[0])))
  {
  }

  lemma SecondTerm(n: nat, nd: Node)
    requires nd.role != Leader && nd.log == LogOne() && nd.currentTerm == 2 && nd.id == 0 && nd.size == n
    ensures var lead := BecomeLeader(OnElectionTimeout(nd));
      lead.log == LogThree() && lead.currentTerm == 3 && forall u :: 1 <= u < n ==> At(lead.nextIndex, u) == 2
  {
    forall u | 1 <= u < n ensures u in Remotes(0, n) {
      assert Other(u, 0);
    }
  }

  // ---- an entry of an earlier term is counted ----------------------------------------------

  /** Follower u's replicators of terms 1 and 3 have these numbers. */
  function OldOf(u: nat): nat
    requires u >= 1
  {
    u - 1
  }

  function NewOf(n: nat, u: nat): nat
    requires n >= 2
  {
    n - 2 + u
  }

  ghost predicate NewIdle(n: nat, s: Cluster, u: nat)
    requires n >= 2
  {
    NewOf(n, u) < |s.replicators| && s.replicators[NewOf(n, u)] == Replicator(0, u, 3, Idle)
  }

  ghost predicate BothIdle(n: nat, s: Cluster, u: nat)
    requires n >= 2
  {
    && 1 <= u < n && NewIdle(n, s, u) && OldOf(u) < n - 1
    && s.replicators[OldOf(u)] == Replicator(0, u, 1, Idle)
  }

  /** Follower u has only the sentinel, and its new leader starts at position 2. */
  ghost predicate Bare(n: nat, s: Cluster, u: nat)
    requires s.Size() == n >= 2
  {
    && BothIdle(n, s, u) && At(s.nodes[0].nextIndex, u) == 2
    && s.nodes[u].role == Follower && s.nodes[u].currentTerm == 3 && s.nodes[u].log == [SENTINEL]
  }

  /** Node 0 leads term 3; the first i followers are known to hold position 1. */
  ghost predicate CountingFirst(n: nat, s: Cluster, i: nat) {
    && n >= 2 && SafeSize(n) && Leads(n, s, 0, 3, LogThree()) && i <= Needed(n)
    && (forall u :: 1 <= u <= i ==> At(s.nodes[0].matchIndex, u) >= 1)
    && (forall u {:trigger Bare(n, s, u)} :: i < u <= Needed(n) ==> Bare(n, s, u))
  }

  lemma StartsCounting(n: nat) returns (run: Run)
    requires 2 <= n < NO_ID && SafeSize(n)
    ensures Under(n, run, true, false) && CountingFirst(n, Last(run), 0)
  {
    var led := FirstLeader(n, true, false);
    run := LeadsAgain(n, led);
    forall u: nat | 0 < u <= Needed(n)
      ensures Bare(n, Last(run), u)
    {
      assert Spawned(0, 1, n)[u - 1] == Replicator(0, u, 1, Idle);
      assert Spawned(0, 3, n)[u - 1] == Replicator(0, u, 3, Idle);
    }
  }

  /** The old replicator's refused request takes nextIndex below the leadership's own entries. */
  lemma OldLowers(n: nat, run: Run, i: nat) returns (run': Run)
    requires Under(n, run, true, false) && CountingFirst(n, Last(run), i) && i < Needed(n)
    ensures Under(n, run', true, false) && Continues(run, run')
    ensures var (s, s', u) := (Last(run), Last(run'), i + 1);
      && Leads(n, s', 0, 3, LogThree())
      && s'.nodes[0] == s.nodes[0].(nextIndex := s.nodes[0].nextIndex[u := 1])
      && Voted(s.nodes[u], s'.nodes[u], 3) && NewIdle(n, s', u)
      && (forall w :: 1 <= w < n && w != u ==> s'.nodes[w] == s.nodes[w])
      && |s'.replicators| == |s.replicators|
      && (forall r :: 0 <= r < |s.replicators| && r != i ==> s'.replicators[r] == s.replicators[r])
      && u < n && s.nodes[u].log == [SENTINEL]
  {
    hide Next, Handles, Spread;
    assert Bare(n, Last(run), i + 1);
    assert LogThree()[2] == NoOpAt(3, 2);
    var k;
    run', k := TurnsDown(n, run, true, false, 0, 3, LogThree(), 2, OldOf(i + 1));
  }

  lemma CountsOneMore(n: nat, run: Run, i: nat) returns (run': Run)
    requires Under(n, run, true, false) && CountingFirst(n, Last(run), i) && i < Needed(n)
    ensures Under(n, run', true, false) && CountingFirst(n, Last(run'), i + 1) && |run'.events| > 0
    ensures i + 1 == Needed(n) ==> Counts(n, run', |run'.events| - 1, 0, 1)
    ensures Leads(n, run'.states[|run'.events| - 1], 0, 3, LogThree())
  {
    var u := i + 1;
    var lowered := OldLowers(n, run, i);
    var handed := NewHands(n, lowered, u);
    run' := Acked(n, handed, true, false, NewOf(n, u));
    CountedFirst(n, Last(run), Last(run'), i);
    if u == Needed(n) {
      AllMatch(n, Last(handed).nodes[0], u, 1);
    }
  }

  /** The new replicator hands entry 1, of term 1, to follower u. */
  lemma NewHands(n: nat, run: Run, u: nat) returns (run': Run)
    requires Under(n, run, true, false) && n >= 2 && 1 <= u < n && Leads(n, Last(run), 0, 3, LogThree())
    requires NewIdle(n, Last(run), u) && At(Last(run).nodes[0].nextIndex, u) == 1
    requires var nd := Last(run).nodes[u]; nd.role == Follower && nd.currentTerm == 3 && nd.log == [SENTINEL]
    ensures Under(n, run', true, false) && Last(run').Size() == n
    ensures forall w :: 0 <= w < n && w != u ==> Last(run').nodes[w] == Last(run).nodes[w]
    ensures var (s, s', r) := (Last(run), Last(run'), NewOf(n, u));
      && |s'.replicators| == |s.replicators| && Answered(n, s', r, AppendRets(true, 3))
      && s'.replicators[r].(status := Idle) == s.replicators[r]
      && forall r' :: 0 <= r' < |s.replicators| && r' != r ==> s'.replicators[r'] == s.replicators[r']
  {
    assert LogThree()[..1] == [SENTINEL][..1] && LogThree()[1] == NoOpAt(1, 1);
    run' := Hands(n, run, true, false, 0, 3, LogThree(), 1, NewOf(n, u));
  }

  lemma CountedFirst(n: nat, s: Cluster, s': Cluster, i: nat)
    requires CountingFirst(n, s, i) && i < Needed(n) && Leads(n, s', 0, 3, LogThree())
    requires var (nd, nd', u) := (s.nodes[0], s'.nodes[0], i + 1);
      && nd'.matchIndex == nd.matchIndex[u := 1]
      && (forall w :: w != u ==> At(nd'.nextIndex, w) == At(nd.nextIndex, w))
    requires forall w :: i + 1 < w < n ==> s'.nodes[w] == s.nodes[w]
    requires |s'.replicators| == |s.replicators|
    requires forall r :: 0 <= r < |s.replicators| && r != OldOf(i + 1) && r != NewOf(n, i + 1) ==>
               s'.replicators[r] == s.replicators[r]
    ensures CountingFirst(n, s', i + 1)
  {
    forall w | 1 <= w <= i + 1 ensures At(s'.nodes[0].matchIndex, w) >= 1 {
      assert w <= i ==> At(s.nodes[0].matchIndex, w) >= 1;
    }
    forall w: nat | i + 1 < w <= Needed(n) ensures Bare(n, s', w) {
      assert Bare(n, s, w);
    }
  }

  /** Follower u = Needed(n) completes the quorum when those before it are known to hold position k. */
  lemma AllMatch(n: nat, nd: Node, u: nat, k: nat)
    requires n >= 2 && SafeSize(n) && nd.size == n && nd.id == 0 && u == Needed(n) && At(nd.nextIndex, u) == k
    requires forall w :: 1 <= w < u ==> At(nd.matchIndex, w) >= k
    ensures |Replicas(Acknowledge(nd, u), k)| >= Threshold(n)
  {
    var fs := Others(n);
    forall f | f in fs ensures f < n && f != 0 && At(Acknowledge(nd, u).matchIndex, f) >= k {
      assert 1 <= f <= u && (f < u ==> At(nd.matchIndex, f) >= k);
    }
    EnoughReplicas(Acknowledge(nd, u), fs, k);
  }

  lemma {:induction false} CountsForeign(n: nat, run: Run, i: nat) returns (run': Run)
    requires Under(n, run, true, false) && CountingFirst(n, Last(run), i) && i < Needed(n)
    ensures Under(n, run', true, false) && |run'.events| > 0 && Counts(n, run', |run'.events| - 1, 0, 1)
    ensures Leads(n, run'.states[|run'.events| - 1], 0, 3, LogThree())
    decreases Needed(n) - i
  {
    run' := CountsOneMore(n, run, i);
    if i + 1 < Needed(n) {
      var mid := run';
      run' := CountsForeign(n, mid, i + 1);
    }
  }

  /** In any cluster with followers, a leader of term 3 counts an entry of term 1. */
  lemma StaleCountsForeign(n: nat) returns (run: Run)
    requires 2 <= n < NO_ID && SafeSize(n)
    ensures Under(n, run, true, false) && |run.events| > 0 && Counts(n, run, |run.events| - 1, 0, 1)
    ensures Leads(n, run.states[|run.events| - 1], 0, 3, LogThree()) && LogThree()[1] == NoOpAt(1, 1)
    ensures !OwnTerm(n, run)
  {
    var start := StartsCounting(n);
    run := CountsForeign(n, start, 0);
    assert LogThree()[1] == NoOpAt(1, 1);
    assert !OwnTermAt(n, run, |run.events| - 1, 0, 1);
  }
}
