/**
 A cluster of two nodes needs half of FIFO only: every election takes both votes, so each leader's
 log contains the whole log of every earlier one, whatever the network does, as long as old
 replicators stay out.
 */
module TwoNodes {
  import opened RaftTypes
  import opened RaftStep
  import opened Cluster
  import opened ElectionSafety
  import opened LogMatching
  import opened Leadership
  import opened Progress
  import opened Choice
  import opened RaftTheorems

  ghost predicate LaterContains(s: Cluster, t: nat, t': nat) {
    t in s.hist.won && t' in s.hist.won && t < t' ==>
      t in s.hist.tlog && t' in s.hist.tlog && s.hist.tlog[t] <= s.hist.tlog[t']
  }

  ghost predicate LeaderKeeps(s: Cluster, t: nat) {
    t in s.hist.won ==>
      s.hist.won[t].leader < s.Size() && t in s.hist.tlog && s.hist.tlog[t] <= s.nodes[s.hist.won[t].leader].log
  }

  ghost predicate BallotKeeps(s: Cluster, v: nat, t': nat, t: nat) {
    (v, t') in s.hist.ballots && t in s.hist.won && t < t' && s.hist.won[t].leader == v ==>
      t in s.hist.tlog && s.hist.tlog[t] <= s.hist.ballots[(v, t')].voterLog
  }

  ghost predicate TwoInv(s: Cluster) {
    && FreshInv(s) && s.Size() == 2
    && (forall t, t' :: LaterContains(s, t, t'))
    && (forall t :: LeaderKeeps(s, t))
    && (forall v, t', t :: BallotKeeps(s, v, t', t))
    && (forall v, t :: BallotRecorded(s, v, t))
  }

  /** Both nodes vote in every election that is won. */
  lemma EveryoneVoted(s: Cluster, t: nat, v: nat)
    requires VoteInv(s) && s.Size() == 2 && t in s.hist.won && v < 2
    ensures (v, t) in s.hist.ballots && t <= s.nodes[v].currentTerm
  {
    assert WonOk(s, t);
    var w := s.hist.won[t];
    AllOfTwo(w.voters);
    assert HasVote(s, v, t, w.leader) && BallotOk(s, v, t);
  }

  lemma AllOfTwo(q: set<nat>)
    requires Quorum(2, q)
    ensures q == {0, 1}
  {
    forall v | v in q ensures v in {0, 1} {
      assert v in Ids(2);
    }
    if q != {0, 1} {
      Subset(q, if 0 in q then {0} else {1});
    }
  }

  /** The log of an earlier leader ends before a later leadership begins. */
  lemma BeforeBase(s: Cluster, t: nat, t': nat)
    requires TwoInv(s) && t in s.hist.won && t' in s.hist.won && t < t'
    ensures t in s.hist.tlog && t' in s.hist.tlog && |s.hist.tlog[t]| <= s.hist.won[t'].base
  {
    assert LaterContains(s, t, t') && TermLogOk(s.hist, t) && TermLogOk(s.hist, t');
    var last := |s.hist.tlog[t]| - 1;
    assert s.hist.tlog[t'][last] == s.hist.tlog[t][last];
  }

  /** A log at least as up to date as one containing an earlier leader's contains it too. */
  lemma DominatingContains(s: Cluster, log: seq<Entry>, voterLog: seq<Entry>, t: nat)
    requires TwoInv(s) && Recorded(s.hist, log) && Recorded(s.hist, voterLog)
    requires UpToDate(LastTerm(log), LastIndex(log), voterLog)
    requires t in s.hist.won && t in s.hist.tlog && s.hist.tlog[t] <= voterLog
    ensures s.hist.tlog[t] <= log
  {
    var h := s.hist;
    RecordedIsShaped(h, log);
    RecordedIsShaped(h, voterLog);
    assert TermLogOk(h, t);
    var u := LastTerm(log);
    assert voterLog[|h.tlog[t]| - 1].term == t;
    if u > t {
      BeforeBase(s, t, u);
      assert LaterContains(s, t, u) && TermLogOk(h, u);
      assert log[|log| - 1] == h.tlog[u][|log| - 1];
    }
  }

  lemma WinnerContains(s: Cluster, m: VoteReply, t: nat)
    requires TwoInv(s) && Enabled(s, DeliverVoteReply(m)) && IsWin(s, m)
    requires t in s.hist.won && t < s.nodes[s.elections[m.election].params.candidateId].currentTerm
    ensures t in s.hist.tlog && s.hist.tlog[t] <= s.nodes[s.elections[m.election].params.candidateId].log
  {
    var c := s.elections[m.election].params.candidateId;
    var term, l := s.nodes[c].currentTerm, s.hist.won[t].leader;
    assert LeaderKeeps(s, t) && NodeOk(s, c) && ElectionOk(s, m.election) && ReplyOk(s, m);
    if l != c {
      WinnerHasQuorum(s, m);
      AllOfTwo(WinningVoters(s, m));
      assert HasVote(s, l, term, c) && BallotKeeps(s, l, term, t) && BallotRecorded(s, l, term);
      assert NodeLogOk(s.hist, s.nodes[c]);
      VoterDominated(s, c, l);
      DominatingContains(s, s.nodes[c].log, s.hist.ballots[(l, term)].voterLog, t);
    }
  }

  // ---- preservation ----------------------------------------------------------------------

  /** Either ballots are cast and no leader's log changes, or the other way round. */
  ghost predicate OneThing(s: Cluster, s': Cluster) {
    && Advances(s, s') && BallotsFresh(s, s')
    && (s'.hist.ballots == s.hist.ballots || (s'.hist.tlog == s.hist.tlog && s'.hist.won == s.hist.won))
    && (forall t :: t in s.hist.won && t in s.hist.tlog && s'.hist.tlog[t] != s.hist.tlog[t] ==>
          s.hist.won[t].leader < s.Size() && s.nodes[s.hist.won[t].leader].currentTerm == t)
    && (forall t :: t in s'.hist.won && t !in s.hist.won ==>
          s'.hist.won[t].leader < s.Size() && s.nodes[s'.hist.won[t].leader].currentTerm == t)
  }

  lemma BallotStays(s: Cluster, s': Cluster, v: nat, t': nat, t: nat)
    requires TwoInv(s) && FreshInv(s') && OneThing(s, s')
    ensures BallotKeeps(s', v, t', t) && BallotRecorded(s', v, t')
  {
    assert BallotRecorded(s, v, t') && BallotKeeps(s, v, t', t) && LeaderKeeps(s, t);
    if (v, t') in s.hist.ballots {
      assert BallotOk(s, v, t');
    } else if (v, t') in s'.hist.ballots {
      assert NodeLogOk(s.hist, s.nodes[v]);
    }
  }

  lemma LaterStays(s: Cluster, s': Cluster, t: nat, t': nat)
    requires TwoInv(s) && FreshInv(s') && OneThing(s, s') && t' in s.hist.won
    ensures LaterContains(s', t, t')
  {
    hide BallotKeeps, HistOk;
    if t in s'.hist.won && t < t' {
      if t in s.hist.won {
        assert LaterContains(s, t, t') && LeaderKeeps(s, t);
        EveryoneVoted(s, t', s.hist.won[t].leader);
      } else {
        EveryoneVoted(s, t', s'.hist.won[t].leader);
      }
    }
  }

  /** Combines the pieces. */
  lemma TwoFrame(s: Cluster, s': Cluster)
    requires TwoInv(s) && FreshInv(s') && s'.Size() == 2 && OneThing(s, s')
    requires forall t :: LeaderKeeps(s', t)
    requires forall t, t' :: t' !in s.hist.won ==> LaterContains(s', t, t')
    ensures TwoInv(s')
  {
    forall t, t' ensures LaterContains(s', t, t') {
      if t' in s.hist.won {
        LaterStays(s, s', t, t');
      }
    }
    forall v, t', t ensures BallotKeeps(s', v, t', t) {
      BallotStays(s, s', v, t', t);
    }
    forall v, t ensures BallotRecorded(s', v, t) {
      BallotStays(s, s', v, t, 0);
    }
  }

  lemma QuietRecord(s: Cluster, ev: Event)
    requires Wf(s) && Enabled(s, ev) && Quiet(s, ev)
    ensures Next(s, ev).hist.(ballots := s.hist.ballots) == s.hist
  {
    if ev.ElectionTimeout? || ev.StartElection? || ev.DeliverVote? || ev.DeliverVoteReply? {
      var i := StillEvent(s, ev);
    }
  }

  lemma TwoQuiet(s: Cluster, ev: Event)
    requires TwoInv(s) && Enabled(s, ev) && FreshReplicator(s, ev) && Quiet(s, ev)
    ensures TwoInv(Next(s, ev))
  {
    FreshStep(s, ev);
    QuietAdvances(s, ev);
    QuietRecord(s, ev);
    var s' := Next(s, ev);
    forall t ensures LeaderKeeps(s', t) {
      assert LeaderKeeps(s, t);
    }
    TwoFrame(s, s');
  }

  lemma ClientKeepsLeaders(s: Cluster, i: nat, record: Record, t: nat)
    requires TwoInv(s) && Enabled(s, ClientAppend(i, record))
    ensures LeaderKeeps(Next(s, ClientAppend(i, record)), t)
  {
    hide Next, HistOk, VoteInv;
    NodeFacts(s, i);
    ClientState(s, i, record);
    assert LeaderKeeps(s, t);
  }

  lemma TwoClientAppend(s: Cluster, i: nat, record: Record)
    requires TwoInv(s) && Enabled(s, ClientAppend(i, record))
    ensures TwoInv(Next(s, ClientAppend(i, record)))
  {
    hide LeaderKeeps, BallotKeeps, HistOk;
    FreshStep(s, ClientAppend(i, record));
    ClientAdvances(s, i, record);
    assert NodeOk(s, i);
    var s' := Next(s, ClientAppend(i, record));
    forall t ensures LeaderKeeps(s', t) {
      ClientKeepsLeaders(s, i, record, t);
    }
    TwoFrame(s, s');
  }

  /** The winner keeps what it had and starts the log of its term. */
  lemma WinKeepsLeaders(s: Cluster, m: VoteReply, t: nat)
    requires TwoInv(s) && Enabled(s, DeliverVoteReply(m)) && IsWin(s, m)
    requires s.nodes[s.elections[m.election].params.candidateId].currentTerm !in s.hist.won
    ensures LeaderKeeps(Next(s, DeliverVoteReply(m)), t)
  {
    hide Next, BecomeLeader;
    WinState(s, m);
    WinAdvances(s, m);
    assert LeaderKeeps(s, t);
  }

  lemma WinContains(s: Cluster, m: VoteReply, t: nat, t': nat)
    requires TwoInv(s) && Enabled(s, DeliverVoteReply(m)) && IsWin(s, m) && t' !in s.hist.won
    requires s.nodes[s.elections[m.election].params.candidateId].currentTerm !in s.hist.won
    ensures LaterContains(Next(s, DeliverVoteReply(m)), t, t')
  {
    hide Next, BecomeLeader;
    WinState(s, m);
    WinAdvances(s, m);
    if t in s.hist.won && t' == s.nodes[s.elections[m.election].params.candidateId].currentTerm && t < t' {
      WinnerContains(s, m, t);
    }
  }

  lemma TwoWin(s: Cluster, m: VoteReply)
    requires TwoInv(s) && Enabled(s, DeliverVoteReply(m)) && IsWin(s, m)
    ensures TwoInv(Next(s, DeliverVoteReply(m)))
  {
    hide Next, LeaderKeeps, LaterContains, BecomeLeader;
    FreshStep(s, DeliverVoteReply(m));
    NewTermIsFree(s, m);
    WinState(s, m);
    var s' := Next(s, DeliverVoteReply(m));
    forall t ensures LeaderKeeps(s', t) {
      WinKeepsLeaders(s, m, t);
    }
    forall t, t' | t' !in s.hist.won ensures LaterContains(s', t, t') {
      WinContains(s, m, t, t');
    }
    WinAdvances(s, m);
    TwoFrame(s, s');
  }

  /** A request of term T reaches beyond everything earlier leaders had. */
  lemma CallContains(s: Cluster, q: nat, t: nat)
    requires TwoInv(s) && q < |s.appends| && !IsHeartbeat(s.appends[q].params) && CallOk(s.hist, s.appends[q].params)
    requires t in s.hist.won && t < s.appends[q].params.term
    ensures var p := s.appends[q].params;
      t in s.hist.tlog && s.hist.tlog[t] <= s.hist.tlog[p.term][..p.prevLogIndex + 2]
  {
    assert CallBase(s, q);
    BeforeBase(s, t, s.appends[q].params.term);
    assert LaterContains(s, t, s.appends[q].params.term);
  }

  /** What a leader gets from a later one contains all it ever led. */
  lemma FollowerContains(s: Cluster, q: nat, t: nat)
    requires TwoInv(s) && Enabled(s, DeliverAppend(q))
    requires t in s.hist.won && s.hist.won[t].leader == s.appends[q].to
    ensures t in s.hist.tlog && s.hist.tlog[t] <= OnAppend(s.nodes[s.appends[q].to], s.appends[q].params).0.log
  {
    hide NodeLogOk;
    var v, p := s.appends[q].to, s.appends[q].params;
    assert LeaderKeeps(s, t) && WonOk(s, t);
    assert NodeOk(s, v) && CallOk(s.hist, p) && NodeLogOk(s.hist, s.nodes[v]);
    FollowerLog(s.hist, s.nodes[v], p);
    AppendTerms(s.nodes[v], p);
    if OnAppend(s.nodes[v], p).1.success && !IsHeartbeat(p) {
      CallContains(s, q, t);
    }
  }

  lemma DeliveryKeeps(s: Cluster, q: nat, t: nat)
    requires Wf(s) && Enabled(s, DeliverAppend(q)) && LeaderKeeps(s, t)
    requires t in s.hist.won && s.hist.won[t].leader == s.appends[q].to ==>
      s.hist.tlog[t] <= OnAppend(s.nodes[s.appends[q].to], s.appends[q].params).0.log
    ensures LeaderKeeps(DoDeliverAppend(s, q), t)
  {
  }

  lemma TwoDeliverAppend(s: Cluster, q: nat)
    requires TwoInv(s) && Enabled(s, DeliverAppend(q))
    ensures TwoInv(DoDeliverAppend(s, q))
  {
    hide HistOk, Wf;
    FreshStep(s, DeliverAppend(q));
    AppendAdvances(s, q);
    forall t ensures LeaderKeeps(DoDeliverAppend(s, q), t) {
      assert LeaderKeeps(s, t);
      if t in s.hist.won && s.hist.won[t].leader == s.appends[q].to {
        FollowerContains(s, q, t);
      }
      DeliveryKeeps(s, q, t);
    }
    TwoFrame(s, DoDeliverAppend(s, q));
  }

  lemma TwoStep(s: Cluster, ev: Event)
    requires TwoInv(s) && Enabled(s, ev) && FreshReplicator(s, ev)
    ensures TwoInv(Next(s, ev))
  {
    if Quiet(s, ev) {
      TwoQuiet(s, ev);
    } else {
      match ev
      case DeliverVoteReply(m) => TwoWin(s, m);
      case ClientAppend(i, record) => TwoClientAppend(s, i, record);
      case DeliverAppend(q) => TwoDeliverAppend(s, q);
    }
  }

  // ---- runs ------------------------------------------------------------------------------

  lemma {:induction false} RunTwo(run: Run, k: nat)
    requires FreshRun(2, run) && k < |run.states|
    ensures TwoInv(run.states[k])
  {
    if k == 0 {
      InitLogs(2);
    } else {
      RunTwo(run, k - 1);
      assert StepsTo(run.states[k - 1], run.events[k - 1], run.states[k]);
      TwoStep(run.states[k - 1], run.events[k - 1]);
    }
  }

  /** Each leader's log contains all that any leader of an earlier or the same term held before. */
  lemma TwoNodeLeaders(run: Run, j: nat, k: nat, a: nat, b: nat)
    requires FreshRun(2, run) && j <= k < |run.states| && a < 2 && b < 2
    requires run.states[j].Size() == run.states[k].Size() == 2
    requires run.states[j].nodes[a].role == run.states[k].nodes[b].role == Leader
    requires run.states[j].nodes[a].currentTerm <= run.states[k].nodes[b].currentTerm
    ensures run.states[j].nodes[a].log <= run.states[k].nodes[b].log
  {
    RunLogs(2, run, j);
    RunTwo(run, k);
    RunLater(2, run, j, k);
    LeaderLogRecorded(run.states[j], a);
    LeaderLogRecorded(run.states[k], b);
    assert LaterContains(run.states[k], run.states[j].nodes[a].currentTerm, run.states[k].nodes[b].currentTerm);
  }

  /** Seen from the later term: what an earlier leader still holds in office is contained as well. */
  lemma TwoNodeEarlier(run: Run, j: nat, k: nat, a: nat, b: nat)
    requires FreshRun(2, run) && j <= k < |run.states| && a < 2 && b < 2
    requires run.states[j].Size() == run.states[k].Size() == 2
    requires run.states[j].nodes[a].role == run.states[k].nodes[b].role == Leader
    requires run.states[k].nodes[b].currentTerm < run.states[j].nodes[a].currentTerm
    ensures var ta := run.states[j].nodes[a].currentTerm;
      && ta in run.states[k].hist.tlog
      && run.states[j].nodes[a].log <= run.states[k].hist.tlog[ta]
      && run.states[k].nodes[b].log <= run.states[k].hist.tlog[ta]
  {
    RunLogs(2, run, j);
    RunTwo(run, k);
    RunLater(2, run, j, k);
    LeaderLogRecorded(run.states[j], a);
    LeaderLogRecorded(run.states[k], b);
    assert LaterContains(run.states[k], run.states[k].nodes[b].currentTerm, run.states[j].nodes[a].currentTerm);
  }
}
