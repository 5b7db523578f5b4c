/**
 Election safety (Raft, section 5.2): at most one leader per term, whatever the network does and
 however elections overlap. The argument: a node gives at most one ballot per term, a winner has
 a quorum of ballots, and two quorums share a node.
 */
module ElectionSafety {
  import opened RaftTypes
  import opened RaftStep
  import opened Cluster

  // ---- quorums ---------------------------------------------------------------------------

  /** The sizes for which the threshold (n + 1) / 2 (and at least one remote vote) is a majority. */
  predicate SafeSize(n: nat) {
    n % 2 == 1 || n == 2
  }

  function Ids(n: nat): set<nat> {
    set i: nat {:trigger Other(i, n)} | 0 <= i < n && Other(i, n)
  }

  ghost predicate Quorum(n: nat, q: set<nat>) {
    q <= Ids(n) && |q| >= 2 && |q| >= Threshold(n)
  }

  lemma {:induction false} IdsSize(n: nat)
    ensures |Ids(n)| == n
  {
    if n == 0 {
      assert Ids(0) == {};
    } else {
      IdsSize(n - 1);
      forall i: nat ensures i in Ids(n) <==> i in Ids(n - 1) + {n - 1 as nat} {
        assert Other(i, n) <==> i != n;
        assert Other(i, n - 1) <==> i != n - 1;
      }
      assert Ids(n) == Ids(n - 1) + {n - 1 as nat};
      assert n - 1 !in Ids(n - 1);
    }
  }

  lemma QuorumsMeet(n: nat, a: set<nat>, b: set<nat>) returns (v: nat)
    requires SafeSize(n) && Quorum(n, a) && Quorum(n, b)
    ensures v in a && v in b
  {
    if a * b == {} {
      IdsSize(n);
      assert |a + b| == |a| + |b|;
      Subset(a + b, Ids(n));
      assert false;
    }
    v :| v in a * b;
  }

  lemma {:induction false} Subset(a: set<nat>, b: set<nat>)
    requires a <= b
    ensures |a| <= |b|
    decreases a
  {
    if x :| x in a {
      Subset(a - {x}, b - {x});
    }
  }

  // ---- the invariant ---------------------------------------------------------------------

  ghost predicate Wf(s: Cluster) {
    && 1 <= s.Size() < NO_ID && |s.starting| == s.Size()
    && (forall i :: 0 <= i < s.Size() ==> s.nodes[i].id == i && s.nodes[i].size == s.Size())
    && (forall e :: 0 <= e < |s.elections| ==>
          s.elections[e].params.candidateId < s.Size()
          && s.elections[e].pending <= Remotes(s.elections[e].params.candidateId, s.Size()))
    && (forall r :: 0 <= r < |s.replicators| ==>
          s.replicators[r].node < s.Size() && s.replicators[r].follower < s.Size()
          && s.replicators[r].node != s.replicators[r].follower)
    && (forall q :: 0 <= q < |s.appends| ==>
          s.appends[q].to < s.Size() && s.appends[q].params.leaderId != s.appends[q].to)
  }

  ghost predicate HasVote(s: Cluster, v: nat, t: nat, c: nat) {
    (v, t) in s.hist.ballots && s.hist.ballots[(v, t)].cand == c
  }

  ghost predicate BallotOk(s: Cluster, v: nat, t: nat)
    requires (v, t) in s.hist.ballots
  {
    var b := s.hist.ballots[(v, t)];
    && v < s.Size() && t <= s.nodes[v].currentTerm
    && b.cand < s.Size()
    && (b.cand != v ==>
          b.election < |s.elections| &&
          var p := s.elections[b.election].params;
          p.candidateId == b.cand && p.term == t && UpToDate(p.lastLogTerm, p.lastLogIndex, b.voterLog))
  }

  ghost predicate NodeOk(s: Cluster, i: nat)
    requires i < s.Size()
  {
    var nd := s.nodes[i];
    && (nd.role != Follower ==> HasVote(s, i, nd.currentTerm, i))
    && (nd.role == Candidate ==> s.hist.ballots[(i, nd.currentTerm)].voterLog == nd.log)
    && (nd.votedFor != NO_ID && nd.votedFor != i ==> HasVote(s, i, nd.currentTerm, nd.votedFor))
    && (nd.role == Leader ==> nd.currentTerm in s.hist.won && s.hist.won[nd.currentTerm].leader == i)
    && (nd.leaderId == i <==> nd.role == Leader)
    && (nd.heartbeatOn <==> nd.role == Leader)
    && (nd.electionTimerOn <==> nd.role != Leader)
  }

  ghost predicate ElectionOk(s: Cluster, e: nat)
    requires Wf(s) && e < |s.elections|
  {
    var el := s.elections[e];
    var c := el.params.candidateId;
    var nd := s.nodes[c];
    && el.params.term <= nd.currentTerm
    && (nd.role == Candidate && nd.currentTerm == el.params.term ==>
          el.params.lastLogIndex == LastIndex(nd.log) && el.params.lastLogTerm == LastTerm(nd.log))
    && el.counted !! el.pending
    && el.counted <= Remotes(c, s.Size())
    && el.granted == 1 + |el.counted|
    && (forall v :: v in el.counted ==> HasVote(s, v, el.params.term, c))
  }

  ghost predicate ReplyOk(s: Cluster, m: VoteReply) {
    && m.election < |s.elections|
    && (m.rets.voteGranted ==>
          var p := s.elections[m.election].params;
          m.rets.term == p.term && HasVote(s, m.voter, p.term, p.candidateId))
  }

  ghost predicate WonOk(s: Cluster, t: nat)
    requires t in s.hist.won
  {
    var w := s.hist.won[t];
    && Quorum(s.Size(), w.voters) && w.leader in w.voters
    && (forall v :: v in w.voters ==> HasVote(s, v, t, w.leader))
    && w.leader < s.Size() && t <= s.nodes[w.leader].currentTerm
    && (s.nodes[w.leader].currentTerm == t ==> s.nodes[w.leader].role == Leader)
  }

  ghost predicate VoteInv(s: Cluster) {
    && Wf(s)
    && (forall v, t {:trigger BallotOk(s, v, t)} :: (v, t) in s.hist.ballots ==> BallotOk(s, v, t))
    && (forall i {:trigger NodeOk(s, i)} :: 0 <= i < s.Size() ==> NodeOk(s, i))
    && (forall e {:trigger ElectionOk(s, e)} :: 0 <= e < |s.elections| ==> ElectionOk(s, e))
    && (forall m {:trigger ReplyOk(s, m)} :: m in s.voteReplies ==> ReplyOk(s, m))
    && (forall t {:trigger WonOk(s, t)} :: t in s.hist.won ==> WonOk(s, t))
  }

  // ---- preservation ----------------------------------------------------------------------

  /** What every event has in common: one node moves forward and the record only grows. */
  ghost predicate Moves(s: Cluster, s': Cluster, i: nat) {
    && i < s.Size() && s'.Size() == s.Size() && s'.nodes == s.nodes[i := s'.nodes[i]]
    && s.nodes[i].currentTerm <= s'.nodes[i].currentTerm
    && |s.elections| <= |s'.elections|
    && (forall e :: 0 <= e < |s.elections| ==> s'.elections[e].params == s.elections[e].params)
    && (forall v, t :: (v, t) in s.hist.ballots ==>
          (v, t) in s'.hist.ballots && s'.hist.ballots[(v, t)] == s.hist.ballots[(v, t)])
    && (forall t :: t in s.hist.won ==> t in s'.hist.won && s'.hist.won[t] == s.hist.won[t])
  }

  // a node that keeps its term keeps its office, and stays candidate only with the same log
  ghost predicate SameTermOk(a: Node, b: Node) {
    a.currentTerm == b.currentTerm ==>
      && (a.role == Leader ==> b.role == Leader)
      && (b.role == Candidate ==> a.role == Candidate && a.log == b.log)
  }

  lemma VotesFrame(s: Cluster, s': Cluster, i: nat)
    requires VoteInv(s) && Wf(s') && Moves(s, s', i) && SameTermOk(s.nodes[i], s'.nodes[i])
    requires NodeOk(s', i)
    requires forall v, t :: (v, t) in s'.hist.ballots && (v, t) !in s.hist.ballots ==> BallotOk(s', v, t)
    requires forall e :: 0 <= e < |s'.elections| ==>
               (e < |s.elections| && s'.elections[e] == s.elections[e]) || ElectionOk(s', e)
    requires forall m :: m in s'.voteReplies ==> m in s.voteReplies || ReplyOk(s', m)
    requires forall t :: t in s'.hist.won && t !in s.hist.won ==> WonOk(s', t)
    ensures VoteInv(s')
  {
    forall j | 0 <= j < s'.Size() ensures NodeOk(s', j) {
      assert NodeOk(s, j);
    }
    forall v, t | (v, t) in s'.hist.ballots ensures BallotOk(s', v, t) {
      if (v, t) in s.hist.ballots {
        assert BallotOk(s, v, t);
      }
    }
    forall e | 0 <= e < |s'.elections| ensures ElectionOk(s', e) {
      if e < |s.elections| && s'.elections[e] == s.elections[e] {
        assert ElectionOk(s, e);
      }
    }
    forall m | m in s'.voteReplies ensures ReplyOk(s', m) {
      if m in s.voteReplies {
        assert ReplyOk(s, m);
      }
    }
    forall t | t in s'.hist.won ensures WonOk(s', t) {
      if t in s.hist.won {
        assert WonOk(s, t);
      }
    }
  }

  lemma InitVotes(n: nat)
    requires 1 <= n < NO_ID
    ensures VoteInv(Init(n))
  {
  }

  lemma VotesElectionTimeout(s: Cluster, i: nat)
    requires VoteInv(s) && Enabled(s, ElectionTimeout(i))
    ensures VoteInv(Next(s, ElectionTimeout(i)))
  {
    var s' := DoElectionTimeout(s, i);
    assert NodeOk(s, i);
    forall v, t | (v, t) in s.hist.ballots
      ensures (v, t) in s'.hist.ballots && s'.hist.ballots[(v, t)] == s.hist.ballots[(v, t)]
    {
      assert BallotOk(s, v, t);
    }
    VotesFrame(s, s', i);
  }

  lemma VotesStartElection(s: Cluster, i: nat)
    requires VoteInv(s) && Enabled(s, StartElection(i))
    ensures VoteInv(Next(s, StartElection(i)))
  {
    var s' := DoStartElection(s, i);
    assert NodeOk(s, i);
    VotesFrame(s, s', i);
  }

  lemma VotesDeliverVote(s: Cluster, e: nat, v: nat)
    requires VoteInv(s) && Enabled(s, DeliverVote(e, v))
    ensures VoteInv(Next(s, DeliverVote(e, v)))
  {
    hide DoDeliverVote, OnVote;
    var s' := DoDeliverVote(s, e, v);
    var p := s.elections[e].params;
    assert NodeOk(s, v) && ElectionOk(s, e);
    if (v, p.term) in s.hist.ballots {
      assert BallotOk(s, v, p.term);
    }
    VoteFrame(s, e, v);
    VoteEffects(s, e, v);
    VotesFrame(s, s', v);
  }

  lemma VoteFrame(s: Cluster, e: nat, v: nat)
    requires Wf(s) && Enabled(s, DeliverVote(e, v))
    ensures var s' := DoDeliverVote(s, e, v);
      && Wf(s') && Moves(s, s', v) && SameTermOk(s.nodes[v], s'.nodes[v])
      && s'.elections == s.elections && s'.hist.won == s.hist.won
      && s'.hist.ballots.Keys <= s.hist.ballots.Keys + {(v, s.elections[e].params.term)}
      && s'.voteReplies == s.voteReplies + {VoteReply(e, v, OnVote(s.nodes[v], s.elections[e].params).1)}
  {
  }

  /** A granted vote is on record: now, or since the voter granted it before. */
  lemma VoteEffects(s: Cluster, e: nat, v: nat)
    requires Wf(s) && Enabled(s, DeliverVote(e, v)) && NodeOk(s, v)
    requires (v, s.elections[e].params.term) in s.hist.ballots ==> BallotOk(s, v, s.elections[e].params.term)
    ensures var s' := DoDeliverVote(s, e, v);
      var t := s.elections[e].params.term;
      && NodeOk(s', v) && ReplyOk(s', VoteReply(e, v, OnVote(s.nodes[v], s.elections[e].params).1))
      && ((v, t) in s'.hist.ballots && (v, t) !in s.hist.ballots ==> BallotOk(s', v, t))
  {
  }

  ghost function WinningVoters(s: Cluster, m: VoteReply): set<nat>
    requires Enabled(s, DeliverVoteReply(m))
  {
    var e := s.elections[m.election];
    e.counted + {m.voter, e.params.candidateId}
  }

  ghost predicate IsWin(s: Cluster, m: VoteReply)
    requires Enabled(s, DeliverVoteReply(m))
  {
    var e := s.elections[m.election];
    Wins(s.nodes[e.params.candidateId], e.granted, m.rets)
  }

  /** The voters counted by a winning reply are a quorum, each with a ballot for the winner. */
  lemma WinnerHasQuorum(s: Cluster, m: VoteReply)
    requires Enabled(s, DeliverVoteReply(m)) && IsWin(s, m)
    requires Wf(s) && ElectionOk(s, m.election) && ReplyOk(s, m)
    requires NodeOk(s, s.elections[m.election].params.candidateId)
    ensures var c := s.elections[m.election].params.candidateId;
      && Quorum(s.Size(), WinningVoters(s, m))
      && (forall v :: v in WinningVoters(s, m) ==> HasVote(s, v, s.nodes[c].currentTerm, c))
  {
    var e := s.elections[m.election];
    var c := e.params.candidateId;
    var voters := WinningVoters(s, m);
    assert m.voter in Remotes(c, s.Size());
    assert c !in Remotes(c, s.Size());
    TwoMore(e.counted, m.voter, c);
    forall v | v in voters ensures v in Ids(s.Size()) {
      assert Other(v, s.Size());
    }
  }

  lemma TwoMore(a: set<nat>, x: nat, y: nat)
    requires x !in a && y !in a && x != y
    ensures |a + {x, y}| == |a| + 2
  {
    assert a + {x, y} == (a + {x}) + {y};
  }

  /** Two quorums of ballots of one term elect the same node. */
  lemma OneWinner(s: Cluster, t: nat, c: nat, voters: set<nat>)
    requires SafeSize(s.Size()) && t in s.hist.won && WonOk(s, t)
    requires Quorum(s.Size(), voters) && forall v :: v in voters ==> HasVote(s, v, t, c)
    ensures c == s.hist.won[t].leader
  {
    var v := QuorumsMeet(s.Size(), voters, s.hist.won[t].voters);
    assert HasVote(s, v, t, c) && HasVote(s, v, t, s.hist.won[t].leader);
  }

  /** Nobody has won the term before. */
  lemma NewTermIsFree(s: Cluster, m: VoteReply)
    requires VoteInv(s) && Enabled(s, DeliverVoteReply(m)) && IsWin(s, m) && SafeSize(s.Size())
    ensures s.nodes[s.elections[m.election].params.candidateId].currentTerm !in s.hist.won
  {
    var c := s.elections[m.election].params.candidateId;
    var t := s.nodes[c].currentTerm;
    assert NodeOk(s, c) && ElectionOk(s, m.election) && ReplyOk(s, m);
    WinnerHasQuorum(s, m);
    if t in s.hist.won {
      assert WonOk(s, t);
      OneWinner(s, t, c, WinningVoters(s, m));
      assert false;
    }
  }

  lemma VotesWin(s: Cluster, m: VoteReply)
    requires VoteInv(s) && Enabled(s, DeliverVoteReply(m)) && IsWin(s, m) && SafeSize(s.Size())
    ensures VoteInv(Next(s, DeliverVoteReply(m)))
  {
    hide DoDeliverVoteReply;
    var s' := DoDeliverVoteReply(s, m);
    var c := s.elections[m.election].params.candidateId;
    var t := s.nodes[c].currentTerm;
    assert NodeOk(s, c) && ElectionOk(s, m.election) && ReplyOk(s, m);
    WinnerHasQuorum(s, m);
    NewTermIsFree(s, m);
    WinFrame(s, m);
    WinEffects(s, m);
    VotesFrame(s, s', c);
  }

  /** A won election, as far as it changes the cluster. */
  lemma WinState(s: Cluster, m: VoteReply)
    requires Enabled(s, DeliverVoteReply(m)) && IsWin(s, m)
    ensures var s' := Next(s, DeliverVoteReply(m));
      var c := s.elections[m.election].params.candidateId;
      var t := s.nodes[c].currentTerm;
      && s'.nodes == s.nodes[c := BecomeLeader(s.nodes[c])]
      && s'.nodes[c].log == Appended(s.nodes[c].log, NoOp(t)) && s'.nodes[c].currentTerm == t
      && s'.nodes[c].role == Leader && s'.nodes[c].id == s.nodes[c].id && s'.nodes[c].size == s.nodes[c].size
      && s'.replicators == s.replicators + Spawned(c, t, s.Size())
      && s'.appends == s.appends && s'.appendReplies == s.appendReplies
      && s'.hist.ballots == s.hist.ballots && s'.hist.handled == s.hist.handled
      && s'.hist.won == s.hist.won[t := Win(c, WinningVoters(s, m), |s.nodes[c].log|)]
      && s'.hist.tlog == s.hist.tlog[t := s'.nodes[c].log] && s'.hist.acked == s.hist.acked[(c, t) := |s.nodes[c].log|]
  {
  }

  lemma WinFrame(s: Cluster, m: VoteReply)
    requires Enabled(s, DeliverVoteReply(m)) && IsWin(s, m) && Wf(s)
    requires s.nodes[s.elections[m.election].params.candidateId].currentTerm !in s.hist.won
    ensures var s' := DoDeliverVoteReply(s, m);
      var c := s.elections[m.election].params.candidateId;
      && Wf(s') && Moves(s, s', c) && SameTermOk(s.nodes[c], s'.nodes[c])
      && s'.hist.ballots == s.hist.ballots && s'.voteReplies == s.voteReplies
      && |s'.elections| == |s.elections| && s'.elections == s.elections[m.election := s'.elections[m.election]]
      && s'.hist.won.Keys == s.hist.won.Keys + {s.nodes[c].currentTerm}
  {
  }

  lemma WinEffects(s: Cluster, m: VoteReply)
    requires Enabled(s, DeliverVoteReply(m)) && IsWin(s, m)
    requires Wf(s) && ElectionOk(s, m.election) && ReplyOk(s, m)
    requires var c := s.elections[m.election].params.candidateId;
      && NodeOk(s, c) && Quorum(s.Size(), WinningVoters(s, m))
      && (forall v :: v in WinningVoters(s, m) ==> HasVote(s, v, s.nodes[c].currentTerm, c))
    ensures var s' := DoDeliverVoteReply(s, m);
      var c := s.elections[m.election].params.candidateId;
      Wf(s') ==> NodeOk(s', c) && ElectionOk(s', m.election) && WonOk(s', s.nodes[c].currentTerm)
  {
    var s' := DoDeliverVoteReply(s, m);
    assert s'.elections[m.election].counted == s.elections[m.election].counted + {m.voter};
    assert m.voter !in s.elections[m.election].counted;
  }

  lemma LosingReply(s: Cluster, m: VoteReply)
    requires Enabled(s, DeliverVoteReply(m)) && !IsWin(s, m)
    requires Wf(s) && ElectionOk(s, m.election) && ReplyOk(s, m)
    requires NodeOk(s, s.elections[m.election].params.candidateId)
    ensures var s' := DoDeliverVoteReply(s, m);
      var c := s.elections[m.election].params.candidateId;
      && Wf(s') && NodeOk(s', c) && ElectionOk(s', m.election)
      && Moves(s, s', c) && SameTermOk(s.nodes[c], s'.nodes[c])
  {
  }

  lemma VotesDeliverVoteReply(s: Cluster, m: VoteReply)
    requires VoteInv(s) && Enabled(s, DeliverVoteReply(m)) && SafeSize(s.Size())
    ensures VoteInv(Next(s, DeliverVoteReply(m)))
  {
    if IsWin(s, m) {
      VotesWin(s, m);
    } else {
      var c := s.elections[m.election].params.candidateId;
      assert NodeOk(s, c) && ElectionOk(s, m.election) && ReplyOk(s, m);
      LosingReply(s, m);
      VotesFrame(s, DoDeliverVoteReply(s, m), c);
    }
  }

  lemma VotesDeliverAppendReply(s: Cluster, r: nat, rets: AppendRets)
    requires VoteInv(s) && Enabled(s, DeliverAppendReply(r, rets))
    ensures VoteInv(Next(s, DeliverAppendReply(r, rets)))
  {
    hide Moves, DoDeliverVoteReply;
    var i := s.replicators[r].node;
    assert NodeOk(s, i);
    VotesFrame(s, DoDeliverAppendReply(s, r, rets), i);
  }

  /** Apart from log and commit index, appendEntries leaves the node alone or has it step down. */
  lemma AppendMoves(nd: Node, p: AppendParams)
    ensures var nd' := OnAppend(nd, p).0;
      var down := p.term > nd.currentTerm || (p.term == nd.currentTerm && nd.role == Candidate);
      var like := if down then StepDown(nd, p.term, p.leaderId) else nd;
      && nd'.id == nd.id && nd'.size == nd.size && nd'.role == like.role && nd'.currentTerm == like.currentTerm
      && nd'.votedFor == like.votedFor && nd'.leaderId == like.leaderId
      && nd'.heartbeatOn == like.heartbeatOn && nd'.electionTimerOn == like.electionTimerOn
      && nd'.nextIndex == nd.nextIndex && nd'.matchIndex == nd.matchIndex
      && (!down && nd.role == Candidate ==> nd'.log == nd.log)
  {
    hide Spliced, Matches, Min;
  }

  lemma AppendEffects(s: Cluster, q: nat)
    requires Enabled(s, DeliverAppend(q)) && Wf(s) && NodeOk(s, s.appends[q].to)
    ensures var s' := DoDeliverAppend(s, q);
      var i := s.appends[q].to;
      Wf(s') && NodeOk(s', i) && Moves(s, s', i) && SameTermOk(s.nodes[i], s'.nodes[i])
  {
    hide OnAppend;
    AppendMoves(s.nodes[s.appends[q].to], s.appends[q].params);
  }

  lemma VotesDeliverAppend(s: Cluster, q: nat)
    requires VoteInv(s) && Enabled(s, DeliverAppend(q))
    ensures VoteInv(Next(s, DeliverAppend(q)))
  {
    var i := s.appends[q].to;
    assert NodeOk(s, i);
    AppendEffects(s, q);
    VotesFrame(s, DoDeliverAppend(s, q), i);
  }

  lemma VotesClientAppend(s: Cluster, i: nat, record: Record)
    requires VoteInv(s) && Enabled(s, ClientAppend(i, record))
    ensures VoteInv(Next(s, ClientAppend(i, record)))
  {
    assert NodeOk(s, i);
    VotesFrame(s, DoClientAppend(s, i, record), i);
  }

  lemma SendEffects(s: Cluster, ev: Event)
    requires Wf(s) && Enabled(s, ev) && (ev.Replicate? || ev.AbandonCall? || ev.SendHeartbeat?)
    ensures var s' := Next(s, ev);
      && Wf(s') && s'.nodes == s.nodes && s'.hist == s.hist
      && s'.elections == s.elections && s'.voteReplies == s.voteReplies
  {
  }

  lemma VotesSend(s: Cluster, ev: Event)
    requires VoteInv(s) && Enabled(s, ev) && (ev.Replicate? || ev.AbandonCall? || ev.SendHeartbeat?)
    ensures VoteInv(Next(s, ev))
  {
    hide Next;
    SendEffects(s, ev);
    var s' := Next(s, ev);
    assert NodeOk(s, 0);
    assert s'.nodes == s.nodes[0 := s'.nodes[0]];
    VotesFrame(s, s', 0);
  }

  lemma VotesStep(s: Cluster, ev: Event)
    requires VoteInv(s) && Enabled(s, ev) && SafeSize(s.Size())
    ensures VoteInv(Next(s, ev)) && Next(s, ev).Size() == s.Size()
  {
    match ev
    case ElectionTimeout(i) => VotesElectionTimeout(s, i);
    case StartElection(i) => VotesStartElection(s, i);
    case DeliverVote(e, v) => VotesDeliverVote(s, e, v);
    case DeliverVoteReply(m) => VotesDeliverVoteReply(s, m);
    case DeliverAppendReply(r, rets) => VotesDeliverAppendReply(s, r, rets);
    case DeliverAppend(q) => VotesDeliverAppend(s, q);
    case ClientAppend(i, record) => VotesClientAppend(s, i, record);
    case _ => VotesSend(s, ev);
  }
}
