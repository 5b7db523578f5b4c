/**
 Leader completeness (Raft, section 5.4.3) under the FIFO assumption: an index counted by a quorum
 of one leader is held, with everything below it, by every later leader.

 Every later leader, every node that accepted a choosable position and every ballot cast by such a
 node holds that position, and a counted position stays choosable for ever.
 */
module LeaderCompleteness {
  import opened RaftTypes
  import opened RaftStep
  import opened Cluster
  import opened ElectionSafety
  import opened LogMatching
  import opened Leadership
  import opened Replication
  import opened Progress
  import opened Choice

  lemma HoldsGrows(h: History, h': History, log: seq<Entry>, log': seq<Entry>, t: nat, k: nat)
    requires HistGrows(h, h') && Holds(h, log, t, k) && log <= log'
    ensures Holds(h', log', t, k)
  {
    assert h'.tlog[t][..k + 1] == h.tlog[t][..k + 1];
  }

  lemma OwnPositionShrinks(h: History, h': History, t: nat, k: nat)
    requires HistGrows(h, h') && OwnPosition(h', t, k) && t in h.won && t in h.tlog && k < |h.tlog[t]|
    ensures OwnPosition(h, t, k)
  {
  }

  lemma BallotHoldsKept(s: Cluster, s': Cluster, v: nat, t': nat, t: nat, k: nat)
    requires ChoiceInv(s) && FifoInv(s') && Advances(s, s') && BallotsFresh(s, s')
    requires (v, t') in s'.hist.ballots && (v, t') !in s.hist.ballots ==> s'.hist.acked == s.hist.acked
    ensures BallotHolds(s', v, t', t, k)
  {
    if (v, t') in s'.hist.ballots && t < t' && HasAck(s', v, t, k) && OwnPosition(s'.hist, t, k)
       && Choosable(s', t, k) {
      ChoosableShrinks(s, s', t, k);
      if (v, t') in s.hist.ballots {
        assert BallotOk(s, v, t');
        assert HasAck(s, v, t, k) && AckOk(s, v, t);
        OwnPositionShrinks(s.hist, s'.hist, t, k);
        assert BallotHolds(s, v, t', t, k);
        var b := s.hist.ballots[(v, t')];
        HoldsGrows(s.hist, s'.hist, b.voterLog, b.voterLog, t, k);
      } else {
        assert AckOk(s, v, t);
        OwnPositionShrinks(s.hist, s'.hist, t, k);
        assert NodeHolds(s, v, t, k);
        HoldsGrows(s.hist, s'.hist, s.nodes[v].log, s.nodes[v].log, t, k);
      }
    }
  }

  lemma NodeHoldsKept(s: Cluster, s': Cluster, v: nat, t: nat, k: nat)
    requires ChoiceInv(s) && FifoInv(s') && Advances(s, s')
    requires v < s.Size() ==> s.nodes[v].log <= s'.nodes[v].log
    ensures NodeHolds(s', v, t, k)
  {
    if v < s'.Size() && HasAck(s', v, t, k) && OwnPosition(s'.hist, t, k) && Choosable(s', t, k) {
      assert AckOk(s', v, t);
      if t == s'.nodes[v].currentTerm {
        AckedPrefix(s', v, t, k);
      } else {
        ChoosableShrinks(s, s', t, k);
        assert HasAck(s, v, t, k) && AckOk(s, v, t);
        OwnPositionShrinks(s.hist, s'.hist, t, k);
        assert NodeHolds(s, v, t, k);
        HoldsGrows(s.hist, s'.hist, s.nodes[v].log, s'.nodes[v].log, t, k);
      }
    }
  }

  lemma AckedPrefix(s: Cluster, v: nat, t: nat, k: nat)
    requires FifoInv(s) && HasAck(s, v, t, k) && v < s.Size() && s.nodes[v].currentTerm == t
    ensures Holds(s.hist, s.nodes[v].log, t, k)
  {
    assert AckOk(s, v, t);
    var a := s.hist.acked[(v, t)];
    assert s.hist.tlog[t][..k + 1] <= s.hist.tlog[t][..a + 1];
  }

  lemma LaterLeaderKept(s: Cluster, s': Cluster, t: nat, t': nat, k: nat)
    requires ChoiceInv(s) && FifoInv(s') && Advances(s, s') && SafeSize(s.Size())
    requires t' in s.hist.won
    ensures LaterLeaderHolds(s', t, t', k)
  {
    if t < t' && OwnPosition(s'.hist, t, k) && Choosable(s', t, k) {
      if t in s.hist.won && k < |s.hist.tlog[t]| {
        ChoosableShrinks(s, s', t, k);
        assert LaterLeaderHolds(s, t, t', k);
        HoldsGrows(s.hist, s'.hist, s.hist.tlog[t'], s'.hist.tlog[t'], t, k);
      } else {
        assert WonOk(s', t') && WonOk(s, t');
        forall v | v in s'.hist.won[t'].voters ensures !HasAck(s', v, t, k) {
          assert HasVote(s', v, t', s'.hist.won[t'].leader) && BallotOk(s', v, t');
          if (v, t) in s.hist.acked {
            assert AckOk(s, v, t);
          }
        }
        NotChoosable(s', t, t', k);
      }
    }
  }

  lemma BallotRecordedKept(s: Cluster, s': Cluster, v: nat, t: nat)
    requires ChoiceInv(s) && HistGrows(s.hist, s'.hist) && Advances(s, s') && BallotsFresh(s, s')
    ensures BallotRecorded(s', v, t)
  {
    if (v, t) in s'.hist.ballots {
      if (v, t) in s.hist.ballots {
        assert BallotRecorded(s, v, t);
      } else {
        assert NodeLogOk(s.hist, s.nodes[v]);
      }
    }
  }

  /** Events that win nothing and shorten no log. */
  lemma ChoiceKept(s: Cluster, s': Cluster)
    requires ChoiceInv(s) && FifoInv(s') && Advances(s, s') && BallotsFresh(s, s') && SafeSize(s.Size())
    requires s'.hist.won == s.hist.won
    requires s'.hist.ballots == s.hist.ballots || s'.hist.acked == s.hist.acked
    requires forall v :: 0 <= v < s.Size() ==> s.nodes[v].log <= s'.nodes[v].log
    ensures ChoiceInv(s')
  {
    forall t, t', k ensures LaterLeaderHolds(s', t, t', k) {
      if t' in s.hist.won {
        LaterLeaderKept(s, s', t, t', k);
      }
    }
    forall v, t, k ensures NodeHolds(s', v, t, k) {
      NodeHoldsKept(s, s', v, t, k);
    }
    forall v, t', t, k ensures BallotHolds(s', v, t', t, k) {
      BallotHoldsKept(s, s', v, t', t, k);
    }
    forall v, t ensures BallotRecorded(s', v, t) {
      BallotRecordedKept(s, s', v, t);
    }
  }

  lemma ChoiceDeliverAppend(s: Cluster, q: nat)
    requires ChoiceInv(s) && Enabled(s, DeliverAppend(q)) && InOrder(s, DeliverAppend(q)) && SafeSize(s.Size())
    ensures ChoiceInv(Next(s, DeliverAppend(q)))
  {
    hide HistOk, VoteInv, AckOk;
    IsWf(s);
    FifoStep(s, DeliverAppend(q));
    var s' := DoDeliverAppend(s, q);
    var v, p := s.appends[q].to, s.appends[q].params;
    AppendAdvances(s, q);
    if IsHeartbeat(p) || !OnAppend(s.nodes[v], p).1.success {
      assert s'.nodes[v].log == s.nodes[v].log;
      ChoiceKept(s, s');
    } else {
      ChoiceTakes(s, s', q);
    }
  }

  lemma ChoiceTakes(s: Cluster, s': Cluster, q: nat)
    requires ChoiceInv(s) && Enabled(s, DeliverAppend(q)) && InOrder(s, DeliverAppend(q)) && SafeSize(s.Size())
    requires s' == DoDeliverAppend(s, q) && FifoInv(s') && Advances(s, s')
    requires !IsHeartbeat(s.appends[q].params) && OnAppend(s.nodes[s.appends[q].to], s.appends[q].params).1.success
    requires s'.hist.ballots == s.hist.ballots && s'.hist.won == s.hist.won
    ensures ChoiceInv(s')
  {
    hide HistOk, VoteInv;
    IsWf(s);
    AcceptTakes(s, q);
    forall t, k ensures NodeHolds(s', s.appends[q].to, t, k) {
      FollowerHolds(s, s', q, t, k);
    }
    ChoiceAccept(s, s', s.appends[q].to);
  }

  /** Only node v's log may have lost entries. */
  lemma ChoiceAccept(s: Cluster, s': Cluster, v: nat)
    requires ChoiceInv(s) && FifoInv(s') && Advances(s, s') && SafeSize(s.Size()) && v < s.Size()
    requires s'.hist.won == s.hist.won && s'.hist.ballots == s.hist.ballots
    requires s'.nodes == s.nodes[v := s'.nodes[v]]
    requires forall t, k :: NodeHolds(s', v, t, k)
    ensures ChoiceInv(s')
  {
    forall t, t', k ensures LaterLeaderHolds(s', t, t', k) {
      if t' in s.hist.won {
        LaterLeaderKept(s, s', t, t', k);
      }
    }
    forall w, t, k ensures NodeHolds(s', w, t, k) {
      if w != v {
        NodeHoldsKept(s, s', w, t, k);
      }
    }
    forall w, t', t, k ensures BallotHolds(s', w, t', t, k) {
      BallotHoldsKept(s, s', w, t', t, k);
    }
    forall w, t ensures BallotRecorded(s', w, t) {
      BallotRecordedKept(s, s', w, t);
    }
  }

  /**
   The follower drops everything after the matched entry, but nothing choosable: the sender holds
   it, and sends only from the end of the log it was elected with.
   */
  lemma FollowerHolds(s: Cluster, s': Cluster, q: nat, t: nat, k: nat)
    requires ChoiceInv(s) && FifoInv(s') && Advances(s, s')
    requires q < |s.appends| && s.appends[q].to < s.Size() && !IsHeartbeat(s.appends[q].params) && Takes(s, s', q)
    ensures NodeHolds(s', s.appends[q].to, t, k)
  {
    var v, p := s.appends[q].to, s.appends[q].params;
    if HasAck(s', v, t, k) && OwnPosition(s'.hist, t, k) && Choosable(s', t, k) {
      assert AckOk(s', v, t);
      if t == p.term {
        AckedPrefix(s', v, t, k);
      } else {
        ChoosableShrinks(s, s', t, k);
        assert CallOk(s.hist, p) && CallBase(s, q);
        SenderHolds(s, p, t, k);
      }
    }
  }

  lemma SenderHolds(s: Cluster, p: AppendParams, t: nat, k: nat)
    requires ChoiceInv(s) && CallOk(s.hist, p) && !IsHeartbeat(p) && s.hist.won[p.term].base <= p.prevLogIndex + 1
    requires OwnPosition(s.hist, t, k) && t < p.term && Choosable(s, t, k)
    ensures Holds(s.hist, s.hist.tlog[p.term][..p.prevLogIndex + 2], t, k)
  {
    assert LaterLeaderHolds(s, t, p.term, k);
    SentLogHolds(s.hist, p, t, k);
  }

  lemma SentLogHolds(h: History, p: AppendParams, t: nat, k: nat)
    requires HistOk(h) && CallOk(h, p) && !IsHeartbeat(p) && h.won[p.term].base <= p.prevLogIndex + 1
    requires OwnPosition(h, t, k) && t < p.term && Holds(h, h.tlog[p.term], t, k)
    ensures Holds(h, h.tlog[p.term][..p.prevLogIndex + 2], t, k)
  {
    assert TermLogOk(h, t) && TermLogOk(h, p.term);
    assert h.tlog[p.term][k] == h.tlog[t][..k + 1][k] == h.tlog[t][k];
    assert k < h.won[p.term].base;
  }

  lemma ChoiceWin(s: Cluster, m: VoteReply)
    requires ChoiceInv(s) && Enabled(s, DeliverVoteReply(m)) && IsWin(s, m) && SafeSize(s.Size())
    ensures ChoiceInv(Next(s, DeliverVoteReply(m)))
  {
    var ev := DeliverVoteReply(m);
    FifoStep(s, ev);
    NewTermIsFree(s, m);
    var s' := Next(s, ev);
    var c := s.elections[m.election].params.candidateId;
    var term := s.nodes[c].currentTerm;
    WinAdvances(s, m);
    forall t, t', k ensures LaterLeaderHolds(s', t, t', k) {
      if t' in s.hist.won {
        LaterLeaderKept(s, s', t, t', k);
      } else if t' == term && t < t' && OwnPosition(s'.hist, t, k) && Choosable(s', t, k) {
        ChoosableShrinks(s, s', t, k);
        WinnerHolds(s, m, t, k);
        HoldsGrows(s.hist, s'.hist, s.nodes[c].log, s'.hist.tlog[t'], t, k);
      }
    }
    forall v, t, k ensures NodeHolds(s', v, t, k) {
      NodeHoldsKept(s, s', v, t, k);
    }
    forall v, t', t, k ensures BallotHolds(s', v, t', t, k) {
      BallotHoldsKept(s, s', v, t', t, k);
    }
    forall v, t ensures BallotRecorded(s', v, t) {
      BallotRecordedKept(s, s', v, t);
    }
  }

  lemma ChoiceClientAppend(s: Cluster, i: nat, record: Record)
    requires ChoiceInv(s) && Enabled(s, ClientAppend(i, record)) && SafeSize(s.Size())
    ensures ChoiceInv(Next(s, ClientAppend(i, record)))
  {
    FifoStep(s, ClientAppend(i, record));
    ClientAdvances(s, i, record);
    ChoiceKept(s, DoClientAppend(s, i, record));
  }

  lemma ChoiceQuiet(s: Cluster, ev: Event)
    requires ChoiceInv(s) && Enabled(s, ev) && InOrder(s, ev) && SafeSize(s.Size())
    requires Quiet(s, ev)
    ensures ChoiceInv(Next(s, ev))
  {
    FifoStep(s, ev);
    var s' := Next(s, ev);
    QuietAdvances(s, ev);
    ChoiceKept(s, s');
  }

  lemma ChoiceStep(s: Cluster, ev: Event)
    requires ChoiceInv(s) && Enabled(s, ev) && InOrder(s, ev) && SafeSize(s.Size())
    ensures ChoiceInv(Next(s, ev)) && Next(s, ev).Size() == s.Size()
  {
    hide Next;
    FifoStep(s, ev);
    match ev
    case DeliverVoteReply(m) => if IsWin(s, m) { ChoiceWin(s, m); } else { ChoiceQuiet(s, ev); }
    case DeliverAppend(q) => ChoiceDeliverAppend(s, q);
    case ClientAppend(i, record) => ChoiceClientAppend(s, i, record);
    case _ => ChoiceQuiet(s, ev);
  }

  lemma InitChoice(n: nat)
    requires 1 <= n < NO_ID
    ensures ChoiceInv(Init(n))
  {
    InitLogs(n);
  }
}
