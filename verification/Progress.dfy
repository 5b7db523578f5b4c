/** What every event does to terms, the record and acknowledgements: nothing is ever taken back. */
module Progress {
  import opened RaftTypes
  import opened RaftStep
  import opened Cluster
  import opened ElectionSafety
  import opened LogMatching
  import opened Leadership
  import opened Replication

  ghost predicate Advances(s: Cluster, s': Cluster) {
    && s'.Size() == s.Size() && HistGrows(s.hist, s'.hist)
    && (forall i :: 0 <= i < s.Size() ==> s.nodes[i].currentTerm <= s'.nodes[i].currentTerm)
    && (forall v, t :: (v, t) in s'.hist.acked && v < s.Size() && t != s'.nodes[v].currentTerm ==>
          (v, t) in s.hist.acked && s.hist.acked[(v, t)] == s'.hist.acked[(v, t)])
    && (forall v, t :: (v, t) in s.hist.ballots ==>
          (v, t) in s'.hist.ballots && s'.hist.ballots[(v, t)] == s.hist.ballots[(v, t)])
  }

  /** Ballots of s' : old ones, or cast now with the log the node has. */
  ghost predicate BallotsFresh(s: Cluster, s': Cluster) {
    forall v, t :: (v, t) in s'.hist.ballots && (v, t) !in s.hist.ballots ==>
      v < s.Size() && s'.hist.ballots[(v, t)].voterLog == s.nodes[v].log
  }

  /** Events after which nobody holds more, or holds office anew. */
  ghost predicate Quiet(s: Cluster, ev: Event)
    requires Enabled(s, ev)
  {
    !ev.DeliverAppend? && !ev.ClientAppend? && (ev.DeliverVoteReply? ==> !IsWin(s, ev.reply))
  }

  lemma AppendTerms(nd: Node, p: AppendParams)
    ensures nd.currentTerm <= OnAppend(nd, p).0.currentTerm
    ensures OnAppend(nd, p).1.success ==> OnAppend(nd, p).0.currentTerm == p.term
  {
  }

  lemma AppendAdvances(s: Cluster, q: nat)
    requires Wf(s) && Enabled(s, DeliverAppend(q))
    ensures var s' := DoDeliverAppend(s, q);
      Advances(s, s') && s'.hist.ballots == s.hist.ballots && s'.hist.won == s.hist.won
  {
    AppendTerms(s.nodes[s.appends[q].to], s.appends[q].params);
  }

  lemma WinAdvances(s: Cluster, m: VoteReply)
    requires LogInv(s) && Enabled(s, DeliverVoteReply(m)) && IsWin(s, m) && SafeSize(s.Size())
    requires s.nodes[s.elections[m.election].params.candidateId].currentTerm !in s.hist.won
    ensures var s' := Next(s, DeliverVoteReply(m));
      var c := s.elections[m.election].params.candidateId;
      var t := s.nodes[c].currentTerm;
      && Advances(s, s') && s'.hist.ballots == s.hist.ballots && s'.hist.won.Keys == s.hist.won.Keys + {t}
      && (forall v :: 0 <= v < s.Size() ==> s.nodes[v].log <= s'.nodes[v].log)
      && t in s'.hist.tlog && s'.hist.tlog[t] == s'.nodes[c].log
      && (forall u :: u in s.hist.won ==> u in s.hist.tlog && s'.hist.tlog[u] == s.hist.tlog[u])
  {
    hide Next, BecomeLeader;
    WinState(s, m);
    assert NodeLogOk(s.hist, s.nodes[s.elections[m.election].params.candidateId]);
  }

  lemma ClientAdvances(s: Cluster, i: nat, record: Record)
    requires LogInv(s) && Enabled(s, ClientAppend(i, record))
    ensures var s' := DoClientAppend(s, i, record);
      && Advances(s, s') && s'.hist.won == s.hist.won && s'.hist.ballots == s.hist.ballots
      && forall v :: 0 <= v < s.Size() ==> s.nodes[v].log <= s'.nodes[v].log
  {
    var s' := DoClientAppend(s, i, record);
    assert NodeOk(s, i) && NodeLogOk(s.hist, s.nodes[i]);
    assert s'.hist.tlog == s.hist.tlog[s.nodes[i].currentTerm := s'.nodes[i].log];
    assert HistGrows(s.hist, s'.hist);
  }

  lemma BallotsOnlyGrow(s: Cluster, ev: Event)
    requires VoteInv(s) && Enabled(s, ev)
    ensures forall v, t :: (v, t) in s.hist.ballots ==>
      (v, t) in Next(s, ev).hist.ballots && Next(s, ev).hist.ballots[(v, t)] == s.hist.ballots[(v, t)]
  {
    forall v, t | (v, t) in s.hist.ballots
      ensures (v, t) in Next(s, ev).hist.ballots && Next(s, ev).hist.ballots[(v, t)] == s.hist.ballots[(v, t)]
    {
      assert BallotOk(s, v, t);
    }
  }

  lemma VotingAdvances(s: Cluster, ev: Event)
    requires VoteInv(s) && Enabled(s, ev) && Quiet(s, ev)
    requires ev.ElectionTimeout? || ev.StartElection? || ev.DeliverVote? || ev.DeliverVoteReply?
    ensures var s' := Next(s, ev);
      && Advances(s, s') && BallotsFresh(s, s') && s'.hist.won == s.hist.won && s'.hist.acked == s.hist.acked
      && forall v :: 0 <= v < s.Size() ==> s.nodes[v].log == s'.nodes[v].log
  {
    var i := StillEvent(s, ev);
    BallotsOnlyGrow(s, ev);
  }

  lemma QuietAdvances(s: Cluster, ev: Event)
    requires VoteInv(s) && Enabled(s, ev)
    requires Quiet(s, ev)
    ensures var s' := Next(s, ev);
      && Advances(s, s') && BallotsFresh(s, s') && s'.hist.won == s.hist.won && s'.hist.acked == s.hist.acked
      && forall v :: 0 <= v < s.Size() ==> s.nodes[v].log == s'.nodes[v].log
  {
    hide Next;
    if ev.ElectionTimeout? || ev.StartElection? || ev.DeliverVote? || ev.DeliverVoteReply? {
      VotingAdvances(s, ev);
    } else if ev.DeliverAppendReply? {
      ReplyAdvances(s, ev.r, ev.rets);
    } else {
      SendEffects(s, ev);
    }
  }

  lemma ReplyAdvances(s: Cluster, r: nat, rets: AppendRets)
    requires Enabled(s, DeliverAppendReply(r, rets))
    ensures var s' := Next(s, DeliverAppendReply(r, rets));
      && Advances(s, s') && s'.hist == s.hist
      && forall v :: 0 <= v < s.Size() ==> s.nodes[v].log == s'.nodes[v].log
  {
    var rep := s.replicators[r];
    QuietAppendReply(s.nodes[rep.node], rep.follower, rets);
  }

  lemma StepAdvances(s: Cluster, ev: Event)
    requires LogInv(s) && Enabled(s, ev) && SafeSize(s.Size())
    ensures Advances(s, Next(s, ev))
  {
    match ev
    case DeliverVoteReply(m) =>
      if IsWin(s, m) { NewTermIsFree(s, m); WinAdvances(s, m); } else { QuietAdvances(s, ev); }
    case DeliverAppend(q) => AppendAdvances(s, q);
    case ClientAppend(i, record) => ClientAdvances(s, i, record);
    case _ => QuietAdvances(s, ev);
  }

  lemma DeliveryKeepsAck(s: Cluster, q: nat, v: nat, t: nat, k: nat)
    requires Enabled(s, DeliverAppend(q)) && HasAck(s, v, t, k)
    ensures HasAck(Next(s, DeliverAppend(q)), v, t, k)
  {
  }

  /** Acknowledgements are never taken back. */
  lemma StepAcks(s: Cluster, ev: Event, v: nat, t: nat, k: nat)
    requires FifoInv(s) && Enabled(s, ev) && SafeSize(s.Size()) && HasAck(s, v, t, k)
    ensures HasAck(Next(s, ev), v, t, k)
  {
    hide Next, HistOk, VoteInv;
    if !Quiet(s, ev) {
      assert AckOk(s, v, t);
      match ev
      case DeliverVoteReply(m) =>
        NewTermIsFree(s, m);
        WinState(s, m);
      case ClientAppend(i, record) =>
        NodeFacts(s, i);
        ClientState(s, i, record);
      case DeliverAppend(q) => DeliveryKeepsAck(s, q, v, t, k);
    } else {
      QuietAdvances(s, ev);
    }
  }
}
