/**
 What the Raft modules add up to, stated on runs: the theorems compare states and events the cluster
 actually goes through. Only BallotOrigin and helpers speak of the record the proofs are built on.
 */
module RaftTheorems {
  import opened RaftTypes
  import opened RaftStep
  import opened Cluster
  import opened ElectionSafety
  import opened LogMatching
  import opened Leadership
  import opened Replication
  import opened Progress
  import opened Choice

  /** Any network, any interleaving. */
  ghost predicate AnyRun(n: nat, run: Run) {
    1 <= n < NO_ID && SafeSize(n) && IsRun(n, run)
  }

  /** Requests are handled in order, or old replicators stay out, or both; any cluster size. */
  ghost predicate Obeys(n: nat, run: Run, ordered: bool, current: bool) {
    IsRun(n, run) && forall k {:trigger run.events[k]} :: 0 <= k < |run.events| ==>
      && Enabled(run.states[k], run.events[k])
      && (ordered ==> DeliversInOrder(run.states[k], run.events[k]))
      && (current ==> FreshReplicator(run.states[k], run.events[k]))
  }

  /** The same in a cluster of safe size. */
  ghost predicate Under(n: nat, run: Run, ordered: bool, current: bool) {
    1 <= n < NO_ID && SafeSize(n) && Obeys(n, run, ordered, current)
  }

  /** No replicator of an earlier leadership acts in a later one; any network. */
  ghost predicate FreshRun(n: nat, run: Run) {
    Under(n, run, false, true)
  }

  // ---- the invariants hold along runs ----------------------------------------------------

  lemma {:induction false} RunLogs(n: nat, run: Run, k: nat)
    requires AnyRun(n, run) && k < |run.states|
    ensures LogInv(run.states[k]) && run.states[k].Size() == n
  {
    if k == 0 {
      InitLogs(n);
    } else {
      RunLogs(n, run, k - 1);
      assert StepsTo(run.states[k - 1], run.events[k - 1], run.states[k]);
      LogsStep(run.states[k - 1], run.events[k - 1]);
    }
  }

  /** The record only grows, and nodes only move to later terms. */
  ghost predicate Later(s: Cluster, s': Cluster) {
    && s.Size() == s'.Size() && HistGrows(s.hist, s'.hist)
    && (forall i :: 0 <= i < s.Size() ==> s.nodes[i].currentTerm <= s'.nodes[i].currentTerm)
    && (forall v, t :: (v, t) in s.hist.ballots ==>
          (v, t) in s'.hist.ballots && s'.hist.ballots[(v, t)] == s.hist.ballots[(v, t)])
  }

  lemma {:induction false} RunLater(n: nat, run: Run, j: nat, k: nat)
    requires AnyRun(n, run) && j <= k < |run.states|
    ensures Later(run.states[j], run.states[k])
    decreases k
  {
    if j < k {
      RunLater(n, run, j, k - 1);
      RunLogs(n, run, k - 1);
      assert StepsTo(run.states[k - 1], run.events[k - 1], run.states[k]);
      StepAdvances(run.states[k - 1], run.events[k - 1]);
      LaterTransitive(run.states[j], run.states[k - 1], run.states[k]);
    }
  }

  lemma LaterTransitive(a: Cluster, b: Cluster, c: Cluster)
    requires Later(a, b) && Advances(b, c)
    ensures Later(a, c)
  {
  }

  // ---- without assumptions on the network ------------------------------------------------

  /** Two leaders of one term, at whatever moments of a run, are the same node. */
  lemma ElectionSafetyHolds(n: nat, run: Run, j: nat, k: nat, a: nat, b: nat)
    requires AnyRun(n, run) && j <= k < |run.states| && a < n && b < n
    requires run.states[j].Size() == run.states[k].Size() == n
    requires run.states[j].nodes[a].role == Leader && run.states[k].nodes[b].role == Leader
    requires run.states[j].nodes[a].currentTerm == run.states[k].nodes[b].currentTerm
    ensures a == b
  {
    RunLogs(n, run, j);
    RunLogs(n, run, k);
    RunLater(n, run, j, k);
    assert NodeOk(run.states[j], a) && NodeOk(run.states[k], b);
  }

  /** An entry of a given term at a given position fixes the whole log below it, across nodes and time. */
  lemma LogMatchingHolds(n: nat, run: Run, j: nat, k: nat, a: nat, b: nat, p: nat)
    requires AnyRun(n, run) && j <= k < |run.states| && a < n && b < n
    requires run.states[j].Size() == run.states[k].Size() == n
    requires var la, lb := run.states[j].nodes[a].log, run.states[k].nodes[b].log;
      p < |la| && p < |lb| && la[p].term == lb[p].term
    ensures run.states[j].nodes[a].log[..p + 1] == run.states[k].nodes[b].log[..p + 1]
  {
    hide AnyRun, Recorded;
    RunLogs(n, run, j);
    RunLogs(n, run, k);
    RunLater(n, run, j, k);
    var h, h' := run.states[j].hist, run.states[k].hist;
    var la, lb := run.states[j].nodes[a].log, run.states[k].nodes[b].log;
    assert NodeLogOk(h, run.states[j].nodes[a]) && NodeLogOk(h', run.states[k].nodes[b]);
    RecordedPrefix(h, la, p + 1);
    RecordedPrefix(h', lb, p + 1);
    RecordedGrows(h, h', la[..p + 1]);
    SameLast(h', la[..p + 1], lb[..p + 1]);
  }

  /** Positions carry their own index, terms never decrease along a log nor exceed the node's term. */
  lemma LogShapeHolds(n: nat, run: Run, k: nat, a: nat)
    requires AnyRun(n, run) && k < |run.states| && a < n
    ensures run.states[k].Size() == n
    ensures var nd := run.states[k].nodes[a];
      && nd.log != [] && nd.log[0] == SENTINEL
      && (forall i :: 0 <= i < |nd.log| ==> nd.log[i].index == i && nd.log[i].term <= nd.currentTerm)
      && (forall i, i' :: 0 <= i <= i' < |nd.log| ==> nd.log[i].term <= nd.log[i'].term)
  {
    RunLogs(n, run, k);
    var nd := run.states[k].nodes[a];
    assert NodeLogOk(run.states[k].hist, nd);
    RecordedIsShaped(run.states[k].hist, nd.log);
  }

  /** A leader's log only grows during its term. */
  lemma LeaderAppendOnly(n: nat, run: Run, j: nat, k: nat, a: nat)
    requires AnyRun(n, run) && j <= k < |run.states| && a < n
    requires run.states[j].Size() == run.states[k].Size() == n
    requires run.states[j].nodes[a].role == run.states[k].nodes[a].role == Leader
    requires run.states[j].nodes[a].currentTerm == run.states[k].nodes[a].currentTerm
    ensures run.states[j].nodes[a].log <= run.states[k].nodes[a].log
  {
    RunLogs(n, run, j);
    RunLogs(n, run, k);
    RunLater(n, run, j, k);
    assert NodeLogOk(run.states[j].hist, run.states[j].nodes[a]);
    assert NodeLogOk(run.states[k].hist, run.states[k].nodes[a]);
  }

  /** The redirect test lets a write through exactly at a leader; the two timers agree. */
  lemma LeaderGuardHolds(n: nat, run: Run, k: nat, a: nat)
    requires AnyRun(n, run) && k < |run.states| && a < n
    ensures run.states[k].Size() == n
    ensures var nd := run.states[k].nodes[a];
      && (AcceptsWrites(nd) <==> nd.role == Leader)
      && (nd.heartbeatOn <==> nd.role == Leader)
      && (nd.electionTimerOn <==> nd.role != Leader)
  {
    RunLogs(n, run, k);
    assert NodeOk(run.states[k], a);
  }

  /** A candidate's log is the same throughout its candidacy. */
  lemma CandidateLogFrozen(n: nat, run: Run, j: nat, k: nat, c: nat)
    requires AnyRun(n, run) && j <= k < |run.states| && c < n
    requires run.states[j].Size() == run.states[k].Size() == n
    requires run.states[j].nodes[c].role == run.states[k].nodes[c].role == Candidate
    requires run.states[j].nodes[c].currentTerm == run.states[k].nodes[c].currentTerm
    ensures run.states[j].nodes[c].log == run.states[k].nodes[c].log
  {
    RunLogs(n, run, j);
    RunLogs(n, run, k);
    RunLater(n, run, j, k);
    assert NodeOk(run.states[j], c) && NodeOk(run.states[k], c);
  }

  /** Event j granted node v's vote of term t to node c. */
  ghost predicate GrantedAt(n: nat, run: Run, j: nat, v: nat, t: nat, c: nat)
    requires IsRun(n, run)
  {
    && j < |run.events| && run.events[j].DeliverVote? && run.events[j].voter == v
    && var s := run.states[j];
       var e := run.events[j].election;
       && e < |s.elections| && v < s.Size()
       && s.elections[e].params.candidateId == c && s.elections[e].params.term == t
       && OnVote(s.nodes[v], s.elections[e].params).1.voteGranted
  }

  /** Every recorded ballot for another node goes back to the event that granted it. */
  lemma {:induction false} BallotOrigin(n: nat, run: Run, k: nat, v: nat, t: nat) returns (j: nat)
    requires AnyRun(n, run) && k < |run.states|
    requires (v, t) in run.states[k].hist.ballots && run.states[k].hist.ballots[(v, t)].cand != v
    ensures j < k && GrantedAt(n, run, j, v, t, run.states[k].hist.ballots[(v, t)].cand)
    ensures run.states[j].nodes[v].log == run.states[k].hist.ballots[(v, t)].voterLog
  {
    hide Next, LogInv;
    if k > 0 {
      var s, ev := run.states[k - 1], run.events[k - 1];
      assert StepsTo(s, ev, run.states[k]);
      RunLogs(n, run, k - 1);
      if (v, t) in s.hist.ballots {
        RunLater(n, run, k - 1, k);
        j := BallotOrigin(n, run, k - 1, v, t);
      } else {
        NewBallot(s, ev, v, t);
        j := k - 1;
      }
    }
  }

  lemma NewBallot(s: Cluster, ev: Event, v: nat, t: nat)
    requires VoteInv(s) && Enabled(s, ev)
    requires (v, t) in Next(s, ev).hist.ballots && (v, t) !in s.hist.ballots
    requires Next(s, ev).hist.ballots[(v, t)].cand != v
    ensures ev.DeliverVote? && ev.voter == v
    ensures var p := s.elections[ev.election].params;
      p.term == t && p.candidateId == Next(s, ev).hist.ballots[(v, t)].cand && OnVote(s.nodes[v], p).1.voteGranted
    ensures s.nodes[v].log == Next(s, ev).hist.ballots[(v, t)].voterLog
  {
    hide OnAppendReply, OnAppend;
  }

  /**
   The winner of an election has a quorum of voters behind it, and its log is at least as up to
   date as each voter's log was at the moment that voter granted its vote.
   */
  lemma ElectedLeaderDominates(n: nat, run: Run, k: nat, m: VoteReply) returns (voters: set<nat>)
    requires AnyRun(n, run) && k < |run.events| && run.events[k] == DeliverVoteReply(m)
    requires Enabled(run.states[k], run.events[k]) && IsWin(run.states[k], m)
    ensures run.states[k].Size() == n && Quorum(n, voters)
    ensures var c := run.states[k].elections[m.election].params.candidateId;
      var nd := run.states[k].nodes[c];
      && c in voters && run.states[k + 1].Size() == n && run.states[k + 1].nodes[c].role == Leader
      && forall v :: v in voters && v != c ==>
           exists j :: (0 <= j < k && GrantedAt(n, run, j, v, nd.currentTerm, c)
             && UpToDate(LastTerm(nd.log), LastIndex(nd.log), run.states[j].nodes[v].log))
  {
    RunLogs(n, run, k);
    var s := run.states[k];
    assert StepsTo(s, run.events[k], run.states[k + 1]);
    var c := s.elections[m.election].params.candidateId;
    assert NodeOk(s, c) && ElectionOk(s, m.election) && ReplyOk(s, m);
    WinnerHasQuorum(s, m);
    voters := WinningVoters(s, m);
    forall v | v in voters && v != c
      ensures exists j :: (0 <= j < k && GrantedAt(n, run, j, v, s.nodes[c].currentTerm, c)
             && UpToDate(LastTerm(s.nodes[c].log), LastIndex(s.nodes[c].log), run.states[j].nodes[v].log))
    {
      assert HasVote(s, v, s.nodes[c].currentTerm, c);
      VoterDominated(s, c, v);
      var j := BallotOrigin(n, run, k, v, s.nodes[c].currentTerm);
    }
  }

  // ---- while old replicators stay out ----------------------------------------------------

  lemma {:induction false} RunFresh(n: nat, run: Run, k: nat)
    requires FreshRun(n, run) && k < |run.states|
    ensures FreshInv(run.states[k]) && run.states[k].Size() == n
  {
    if k == 0 {
      InitLogs(n);
    } else {
      RunFresh(n, run, k - 1);
      assert StepsTo(run.states[k - 1], run.events[k - 1], run.states[k]);
      FreshStep(run.states[k - 1], run.events[k - 1]);
    }
  }

  /** Event k makes leader l count a quorum for position p of its log. */
  ghost predicate Counts(n: nat, run: Run, k: nat, l: nat, p: nat)
    requires IsRun(n, run)
  {
    && k < |run.events| && run.events[k].DeliverAppendReply?
    && var s := run.states[k];
       var r := run.events[k].r;
       && r < |s.replicators| && s.replicators[r].node == l && l < s.Size()
       && CountsQuorum(s.nodes[l], s.replicators[r].follower, run.events[k].rets)
       && p == At(s.nodes[l].nextIndex, s.replicators[r].follower)
  }

  /** A reply raises its leader's commit index exactly when it completes a quorum beyond it, to the position counted. */
  lemma ReplyCommits(n: nat, run: Run, k: nat)
    requires IsRun(n, run) && k < |run.events| && run.events[k].DeliverAppendReply?
    ensures var (s, s', r) := (run.states[k], run.states[k + 1], run.events[k].r);
      r < |s.replicators| && s.replicators[r].node < s.Size() == s'.Size()
    ensures var (s, s', rep) := (run.states[k], run.states[k + 1], run.states[k].replicators[run.events[k].r]);
      var p := At(s.nodes[rep.node].nextIndex, rep.follower);
      && (Counts(n, run, k, rep.node, p) && p > s.nodes[rep.node].commitIndex ==> s'.nodes[rep.node].commitIndex == p)
      && (!(Counts(n, run, k, rep.node, p) && p > s.nodes[rep.node].commitIndex) ==>
            s'.nodes[rep.node].commitIndex == s.nodes[rep.node].commitIndex)
      && (forall i :: 0 <= i < s.Size() && i != rep.node ==> s'.nodes[i] == s.nodes[i])
  {
    assert StepsTo(run.states[k], run.events[k], run.states[k + 1]);
  }

  /** No request of another leader reaches a leader in its own term. */
  lemma NoRivalRequest(s: Cluster, q: nat)
    requires LogInv(s) && q < |s.appends| && s.nodes[s.appends[q].to].role == Leader
    ensures s.appends[q].params.term != s.nodes[s.appends[q].to].currentTerm
  {
    assert CallOk(s.hist, s.appends[q].params) && NodeOk(s, s.appends[q].to);
  }

  lemma OnlyRepliesCommit(s: Cluster, ev: Event, l: nat)
    requires LogInv(s) && Enabled(s, ev) && !ev.DeliverAppendReply? && l < s.Size() && s.nodes[l].role == Leader
    requires Next(s, ev).Size() == s.Size() && Next(s, ev).nodes[l].role == Leader
    ensures Next(s, ev).nodes[l].commitIndex == s.nodes[l].commitIndex
  {
    hide Spliced, Matches, LogInv;
    if ev.DeliverAppend? && s.appends[ev.q].to == l {
      NoRivalRequest(s, ev.q);
    }
  }

  /** A leader's commit index changes only by counting a quorum, and then rises to the position counted. */
  lemma LeaderCommitsCounted(n: nat, run: Run, k: nat, l: nat)
    requires AnyRun(n, run) && k < |run.events| && l < n && run.states[k].Size() == run.states[k + 1].Size() == n
    requires run.states[k].nodes[l].role == run.states[k + 1].nodes[l].role == Leader
    requires run.states[k + 1].nodes[l].commitIndex != run.states[k].nodes[l].commitIndex
    ensures run.states[k + 1].nodes[l].commitIndex > run.states[k].nodes[l].commitIndex
    ensures Counts(n, run, k, l, run.states[k + 1].nodes[l].commitIndex)
  {
    RunLogs(n, run, k);
    assert StepsTo(run.states[k], run.events[k], run.states[k + 1]);
    if run.events[k].DeliverAppendReply? {
      ReplyCommits(n, run, k);
    } else {
      OnlyRepliesCommit(run.states[k], run.events[k], l);
    }
  }

  lemma LeaderLogRecorded(s: Cluster, l: nat)
    requires LogInv(s) && l < s.Size() && s.nodes[l].role == Leader
    ensures var t := s.nodes[l].currentTerm; t in s.hist.won && t in s.hist.tlog && s.nodes[l].log == s.hist.tlog[t]
  {
    assert NodeLogOk(s.hist, s.nodes[l]) && NodeOk(s, l);
  }

  lemma CountsOwn(s: Cluster, r: nat, rets: AppendRets)
    requires FreshInv(s) && Enabled(s, DeliverAppendReply(r, rets)) && CurrentReplicator(s, r)
    requires Accepts(s.nodes[s.replicators[r].node], rets)
    ensures var nd := s.nodes[s.replicators[r].node];
      var p := At(nd.nextIndex, s.replicators[r].follower);
      nd.role == Leader && p < |nd.log| && nd.log[p].term == nd.currentTerm
  {
    var l := s.replicators[r].node;
    assert OwnRequests(s, r) && CallOk(s.hist, s.appends[s.replicators[r].status.request].params);
    LeaderLogRecorded(s, l);
    assert TermLogOk(s.hist, s.nodes[l].currentTerm);
  }

  /** Only entries of the leader's own term are ever counted, on any network. */
  lemma OwnTermCommit(n: nat, run: Run, k: nat, l: nat, p: nat)
    requires FreshRun(n, run) && Counts(n, run, k, l, p)
    ensures run.states[k].Size() == n
    ensures var nd := run.states[k].nodes[l];
      nd.role == Leader && p < |nd.log| && nd.log[p].term == nd.currentTerm
    ensures run.states[k + 1].Size() == n
    ensures run.states[k + 1].nodes[l].commitIndex == Max(p, run.states[k].nodes[l].commitIndex)
  {
    RunFresh(n, run, k);
    CountsOwn(run.states[k], run.events[k].r, run.events[k].rets);
    ReplyCommits(n, run, k);
  }

  /** What a leader's commit index rises to is an entry of its own term. */
  lemma LeaderCommitsOwnTerm(n: nat, run: Run, k: nat, l: nat)
    requires FreshRun(n, run) && k < |run.events| && l < n && run.states[k].Size() == run.states[k + 1].Size() == n
    requires run.states[k].nodes[l].role == run.states[k + 1].nodes[l].role == Leader
    requires run.states[k + 1].nodes[l].commitIndex != run.states[k].nodes[l].commitIndex
    ensures var (nd, p) := (run.states[k].nodes[l], run.states[k + 1].nodes[l].commitIndex);
      p < |nd.log| && nd.log[p].term == nd.currentTerm
  {
    LeaderCommitsCounted(n, run, k, l);
    OwnTermCommit(n, run, k, l, run.states[k + 1].nodes[l].commitIndex);
  }
}
