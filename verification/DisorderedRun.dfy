/**
 What goes wrong when one append request is handled again after a later one: the follower drops an
 entry it was counted for.
 */
module DisorderedRun {
  import opened RaftTypes
  import opened RaftStep
  import opened Cluster
  import opened ElectionSafety
  import opened Leadership
  import opened RaftTheorems
  import opened Claims
  import opened Scenarios

  /** The no-op a leader of term t writes at position k. */
  function NoOpAt(t: nat, k: nat): Entry { NoOp(t).(index := k) }

  function Written(t: nat, record: Record, k: nat): Entry { RegisterEntry(t, record).(index := k) }

  /** Nodes 1 .. Needed(n), and replicator numbers from `base` on. */
  function Others(n: nat): seq<nat> { seq(Needed(n), i requires 0 <= i < Needed(n) => i + 1) }

  function From(base: nat, n: nat): seq<nat> { seq(Needed(n), i requires 0 <= i < Needed(n) => base + i) }

  /** Node 0 leads term 1 with its no-op; its voters have moved to term 1, the rest to nothing yet. */
  ghost predicate FirstLed(n: nat, s: Cluster) {
    && Leads(n, s, 0, 1, [SENTINEL, NoOpAt(1, 1)]) && n >= 2
    && (forall u :: 1 <= u < n ==> At(s.nodes[0].nextIndex, u) == 1)
    && (forall u :: 1 <= u <= Needed(n) < n ==>
          s.nodes[u].role == Follower && s.nodes[u].currentTerm == 1 && s.nodes[u].log == [SENTINEL])
    && (forall u :: Needed(n) < u < n ==> s.nodes[u] == InitNode(u, n))
    && s.replicators == Spawned(0, 1, n) && s.appends == []
  }

  lemma FirstLeader(n: nat, ordered: bool, current: bool) returns (run: Run)
    requires 2 <= n < NO_ID && SafeSize(n)
    ensures Under(n, run, ordered, current) && FirstLed(n, Last(run))
  {
    var start := Run([Init(n)], []);
    assert Last(start) == Init(n);
    run := ElectBy(n, start, ordered, current, 0, 1, Needed(n) + 1);
    forall u | 1 <= u < n ensures u in Remotes(0, n) {
      assert Other(u, 0);
    }
    assert Last(run).nodes[0].log == [SENTINEL, NoOpAt(1, 1)];
  }

  /** The voters of the first leader are behind it by its no-op. */
  lemma FirstSpread(n: nat, s: Cluster)
    requires FirstLed(n, s)
    ensures Spread(n, s, 0, 1, [SENTINEL, NoOpAt(1, 1)], 1, Others(n), From(0, n), 0)
  {
    forall x | 0 <= x < Needed(n) ensures s.replicators[x] == Replicator(0, x + 1, 1, Idle) {
    }
  }

  function LogOne(): seq<Entry> { [SENTINEL, NoOpAt(1, 1)] }

  function LogTwo(record: Record): seq<Entry> { LogOne() + [Written(1, record, 2)] }

  /** Event j counts position 2 of node 0's log; the first call for position 1 is number 0. */
  ghost predicate CountedTwo(n: nat, run: Run, j: nat, record: Record) {
    && Under(n, run, false, true) && n >= 2 && SafeSize(n) && Counts(n, run, j, 0, 2) && j + 1 < |run.states|
    && Leads(n, run.states[j], 0, 1, LogTwo(record)) && Leads(n, run.states[j + 1], 0, 1, LogTwo(record))
    && At(run.states[j + 1].nodes[0].matchIndex, 1) >= 2
    && IsCopy(Last(run), 0, 1, 1, LogOne(), 1)
  }

  lemma WritesTwo(n: nat, record: Record) returns (run: Run)
    requires 2 <= n < NO_ID && SafeSize(n)
    ensures Under(n, run, false, true) && IsCopy(Last(run), 0, 1, 1, LogOne(), 1)
    ensures Spread(n, Last(run), 0, 1, LogTwo(record), 2, Others(n), From(0, n), 0)
    ensures forall u :: Needed(n) < u < n ==> Last(run).nodes[u] == InitNode(u, n)
    ensures Last(run).replicators == Spawned(0, 1, n)
  {
    hide Next, FirstLed;
    var fs, rs := Others(n), From(0, n);
    var led := FirstLeader(n, false, true);
    FirstSpread(n, Last(led));
    var copied := CopyAll(n, led, false, true, 0, 1, LogOne(), 1, fs, rs, 0);
    run := Writes(n, copied, false, true, 0, record);
    WriteSpreads(n, Last(copied), Last(run), 0, 1, LogOne(), 1, fs, rs, record);
    assert Appended(LogOne(), RegisterEntry(1, record)) == LogTwo(record);
  }

  lemma CountsTwo(n: nat, record: Record) returns (run: Run, j: nat)
    requires 2 <= n < NO_ID && SafeSize(n)
    ensures CountedTwo(n, run, j, record) && |run.states| == j + 2
    ensures Spread(n, Last(run), 0, 1, LogTwo(record), 2, Others(n), From(0, n), Needed(n))
    ensures forall u :: Needed(n) < u < n ==> Last(run).nodes[u] == InitNode(u, n)
    ensures |Last(run).replicators| == n - 1
  {
    hide Next;
    var fs := Others(n);
    var written := WritesTwo(n, record);
    run := CopyAll(n, written, false, true, 0, 1, LogTwo(record), 2, fs, From(0, n), 0);
    j := |run.events| - 1;
    assert Caught(Last(run).nodes[fs[0]], Last(run).nodes[0], fs[0], 2);
  }

  /** The same, and node 1 has been handed position 1 once more. */
  ghost predicate TakenBack(n: nat, run: Run, j: nat, record: Record) {
    && CountedTwo(n, run, j, record) && Leads(n, Last(run), 0, 1, LogTwo(record))
    && var s := Last(run);
    && s.nodes[1].role == Follower && s.nodes[1].currentTerm == 1 && s.nodes[1].log == LogOne()
    && At(s.nodes[0].nextIndex, 1) == 3
    && (forall u :: 2 <= u <= Needed(n) < n ==>
          s.nodes[u].role == Follower && s.nodes[u].currentTerm == 1 && s.nodes[u].log == LogTwo(record))
    && (forall u :: Needed(n) < u < n ==> s.nodes[u] == InitNode(u, n))
    && |s.replicators| == n - 1 && s.replicators[0] == Replicator(0, 1, 1, Idle)
  }

  lemma AllCaught(n: nat, s: Cluster, record: Record)
    requires n >= 2 && Spread(n, s, 0, 1, LogTwo(record), 2, Others(n), From(0, n), Needed(n))
    ensures forall u :: 1 <= u <= Needed(n) < n ==>
              && s.nodes[u].role == Follower && s.nodes[u].currentTerm == 1 && s.nodes[u].log == LogTwo(record)
              && At(s.nodes[0].nextIndex, u) == 3
    ensures |s.replicators| > 0 && s.replicators[0] == Replicator(0, 1, 1, Idle)
  {
    var fs, rs := Others(n), From(0, n);
    forall u | 1 <= u <= Needed(n)
      ensures s.nodes[u].role == Follower && s.nodes[u].currentTerm == 1 && s.nodes[u].log == LogTwo(record)
      ensures At(s.nodes[0].nextIndex, u) == 3
    {
      assert Caught(s.nodes[fs[u - 1]], s.nodes[0], fs[u - 1], 2);
    }
    assert fs[0] == 1 && rs[0] == 0;
  }

  lemma Redelivers(n: nat, record: Record) returns (run: Run, j: nat, d: nat)
    requires 2 <= n < NO_ID && SafeSize(n)
    ensures TakenBack(n, run, j, record)
    ensures |run.events| == d + 1 && Handles(n, run, d, 0, 1, 1, true)
  {
    hide Next, Handles;
    var before;
    before, j := CountsTwo(n, record);
    var s := Last(before);
    AllCaught(n, s, record);
    run := Delivers(n, before, false, true, 0);
    d := |before.events|;
    assert Last(run).nodes[1].log == LogOne();
    CountsStays(n, before, run, j, 0, 2);
    AcceptedHandles(n, before, run, 0, 1, 1);
  }

  /** In any cluster with followers: matchIndex overstates, and a later request is rejected. */
  lemma DisorderMisleads(n: nat, record: Record) returns (run: Run)
    requires 2 <= n < NO_ID && SafeSize(n)
    ensures Under(n, run, false, true) && !MatchSound(n, run) && !Steady(n, run)
  {
    hide Next, Handles;
    var back, j, d := Redelivers(n, record);
    var k, q;
    run, k, q := RefusesThird(n, back, j, record);
    HandlesStays(n, back, run, d, 0, 1, 1, true);
    assert !SteadyAt(n, run, d, k, 0, q, 1, 1);
    var b := |back.states| - 1;
    assert run.states[j + 1] == back.states[j + 1] && run.states[b] == Last(back);
    assert !MatchAt(n, run, j + 1, b, 0, 1);
  }

  /** Node 1 lacks position 2 now, and refuses position 3. */
  lemma RefusesThird(n: nat, run: Run, j: nat, record: Record) returns (run': Run, k: nat, q: nat)
    requires TakenBack(n, run, j, record)
    ensures Under(n, run', false, true) && Continues(run, run') && k >= |run.events|
    ensures Handles(n, run', k, q, 1, 1, false)
  {
    hide Next, Handles;
    var written := Writes(n, run, false, true, 0, record);
    var log := Appended(LogTwo(record), RegisterEntry(1, record));
    assert Last(written).nodes[0].log == log && log[3] == Written(1, record, 3);
    q := |Last(written).appends|;
    run', k := TurnsDown(n, written, false, true, 0, 1, log, 3, 0);
  }

  /** With an odd number of nodes the next leader can do without the follower that forgot. */
  ghost predicate Forgotten(n: nat, run: Run, j: nat, record: Record) {
    && CountedTwo(n, run, j, record) && n >= 3
    && var log := LogOne() + [NoOpAt(2, 2)];
    && Spread(n, Last(run), 1, 2, log, 2, RestOf(n), From(n - 1, n), 0)
  }

  /** Nodes 0, 2, 3, ... Needed(n). */
  function RestOf(n: nat): seq<nat> {
    seq(Needed(n), i requires 0 <= i < Needed(n) => if i == 0 then 0 else i + 1)
  }

  lemma ForgetfulCanWin(n: nat, run: Run, j: nat, record: Record)
    requires TakenBack(n, run, j, record) && Last(run).Size() == n
    ensures forall u :: Needed(n) + 1 <= u < n ==>
      WouldGrant(Last(run).nodes[u], VoteRequest(OnElectionTimeout(Last(run).nodes[1])))
  {
    hide Next;
  }

  lemma Forgets(n: nat, record: Record) returns (run: Run, j: nat)
    requires 3 <= n < NO_ID && n % 2 == 1
    ensures Forgotten(n, run, j, record)
  {
    hide Next, Handles, WouldGrant;
    var back, d;
    back, j, d := Redelivers(n, record);
    Sizes(n, back);
    ForgetfulCanWin(n, back, j, record);
    run := ElectBy(n, back, false, true, 1, Needed(n) + 1, n);
    CountsStays(n, back, run, j, 0, 2);
    ForgottenSpread(n, Last(back), Last(run), record);
  }

  lemma ForgottenSpread(n: nat, s: Cluster, s': Cluster, record: Record)
    requires n >= 3 && n % 2 == 1 && s.Size() == n && s.nodes[1].id == 1 && s.nodes[1].size == n
    requires s.nodes[1].role != Leader
    requires s.nodes[1].currentTerm == 1 && s.nodes[1].log == LogOne()
    requires s.nodes[0].currentTerm == 1 && s.nodes[0].log == LogTwo(record)
    requires forall u :: 2 <= u <= Needed(n) ==> s.nodes[u].currentTerm == 1 && s.nodes[u].log == LogTwo(record)
    requires |s.replicators| == n - 1
    requires Elected(n, s, s', 1, OnElectionTimeout(s.nodes[1]), Needed(n) + 1, n)
    ensures Spread(n, s', 1, 2, LogOne() + [NoOpAt(2, 2)], 2, RestOf(n), From(n - 1, n), 0)
  {
    var log := LogOne() + [NoOpAt(2, 2)];
    assert s'.nodes[1].log == log;
    forall x | 0 <= x < Needed(n)
      ensures s'.replicators[n - 1 + x] == Replicator(1, RestOf(n)[x], 2, Idle)
      ensures Behind(s'.nodes[RestOf(n)[x]], s'.nodes[1], RestOf(n)[x], 2)
    {
      var f := RestOf(n)[x];
      assert Other(f, 1) && f in Remotes(1, n);
      assert LogTwo(record)[..2] == log[..2];
    }
  }

  /** The next leader lacks the entry counted at position 2, and counts its own no-op there. */
  lemma DisorderLosesEntry(n: nat, record: Record) returns (run: Run, j: nat, k: nat)
    requires 3 <= n < NO_ID && n % 2 == 1
    ensures Under(n, run, false, true) && j < k && Counts(n, run, j, 0, 2) && Counts(n, run, k, 1, 2)
    ensures Leads(n, run.states[j], 0, 1, LogTwo(record))
    ensures Leads(n, run.states[k], 1, 2, LogOne() + [NoOpAt(2, 2)])
    ensures !Complete(n, run) && !CountsAgree(n, run)
  {
    hide Next;
    var led;
    led, j := Forgets(n, record);
    var log := LogOne() + [NoOpAt(2, 2)];
    run := CopyAll(n, led, false, true, 1, 2, log, 2, RestOf(n), From(n - 1, n), 0);
    CountsStays(n, led, run, j, 0, 2);
    var b := |led.states| - 1;
    k := |run.events| - 1;
    assert run.states[b] == Last(led);
    assert LogTwo(record)[..3][2] == Written(1, record, 2) && log[..3][2] == NoOpAt(2, 2);
    assert !CompleteAt(n, run, j, b, 0, 2, 1);
    assert !AgreeAt(n, run, j, k, 0, 1, 2, 2);
  }
}
