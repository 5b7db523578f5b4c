/**
 A run in which requests are in order and replicators current: a leader counts its first entry, and a
 follower that acknowledged it is elected next. What FifoTheorems says is about such runs.
 */
module OrderlyRun {
  import opened RaftTypes
  import opened RaftStep
  import opened Cluster
  import opened ElectionSafety
  import opened RaftTheorems
  import opened FifoTheorems
  import opened Scenarios
  import opened DisorderedRun

  /** Node 0 and the followers that acknowledged its no-op, except the last, have that log and may vote. */
  lemma AllHoldFirst(n: nat, s: Cluster)
    requires n >= 2 && Spread(n, s, 0, 1, LogOne(), 1, Others(n), From(0, n), Needed(n))
    ensures forall u :: 0 <= u <= Needed(n) ==> s.nodes[u].log == LogOne() && s.nodes[u].currentTerm == 1
    ensures s.nodes[Needed(n)].role == Follower
  {
    forall u | 1 <= u <= Needed(n)
      ensures s.nodes[u].log == LogOne() && s.nodes[u].currentTerm == 1 && s.nodes[u].role == Follower
    {
      assert Caught(s.nodes[Others(n)[u - 1]], s.nodes[0], Others(n)[u - 1], 1);
    }
  }

  /** Event j counts position 1; later node Needed(n) leads term 2 and has deposed node 0. */
  lemma CountsThenHandsOver(n: nat) returns (run: Run, j: nat)
    requires 2 <= n < NO_ID && SafeSize(n)
    ensures FifoRun(n, run) && Counts(n, run, j, 0, 1) && j + 1 < |run.states|
    ensures Leads(n, run.states[j], 0, 1, LogOne())
    ensures Leads(n, Last(run), Needed(n), 2, LogOne() + [NoOpAt(2, 2)])
    ensures Last(run).nodes[0].role == Follower && Last(run).nodes[0].currentTerm == 2
    ensures Last(run).nodes[0].log == LogOne()
  {
    hide Next, Spread, Counts;
    var led := FirstLeader(n, true, true);
    FirstSpread(n, Last(led));
    var copied := CopyAll(n, led, true, true, 0, 1, LogOne(), 1, Others(n), From(0, n), 0);
    j := |copied.events| - 1;
    AllHoldFirst(n, Last(copied));
    Sizes(n, copied);
    var c := Needed(n);
    run := ElectBy(n, copied, true, true, c, 0, c);
    CountsStays(n, copied, run, j, 0, 1);
    RunSizes(n, copied, |copied.states| - 1);
    assert Last(run).nodes[c] == BecomeLeader(OnElectionTimeout(Last(copied).nodes[c]));
    assert Last(run).nodes[c].log == LogOne() + [NoOpAt(2, 2)];
    assert run.states[j] == copied.states[j];
  }
}
