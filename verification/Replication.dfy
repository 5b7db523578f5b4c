/**
 Replication under FIFO: what a leader learns from its replicators. The assumption has two halves:
 the log entries one leadership sends to one follower are handled in send order (they may be lost
 or repeated), and a replicator left over from an earlier leadership does not act in a later one.
 */
module Replication {
  import opened RaftTypes
  import opened RaftStep
  import opened Cluster
  import opened ElectionSafety
  import opened LogMatching
  import opened Leadership

  /** Of the log entries one leadership sends to one follower, none is handled after a later one. */
  ghost predicate DeliversInOrder(s: Cluster, ev: Event)
    requires Enabled(s, ev)
  {
    match ev
    case DeliverAppend(q) =>
      forall q1, v, t :: q1 in s.hist.handled && IsCall(s, q1, v, t) && IsCall(s, q, v, t) ==> q1 <= q
    case _ => true
  }

  /** The FIFO assumption, as a restriction on events. */
  ghost predicate InOrder(s: Cluster, ev: Event)
    requires Enabled(s, ev)
  {
    DeliversInOrder(s, ev) && FreshReplicator(s, ev)
  }

  // ---- the invariant ---------------------------------------------------------------------

  ghost predicate HasAck(s: Cluster, v: nat, t: nat, k: nat) {
    (v, t) in s.hist.acked && s.hist.acked[(v, t)] >= k
  }

  ghost predicate AckWitness(s: Cluster, q: nat, v: nat, t: nat, k: nat) {
    q in s.hist.handled && IsCall(s, q, v, t) && EntryIndex(s, q) == k
  }

  ghost predicate AckOk(s: Cluster, v: nat, t: nat)
    requires (v, t) in s.hist.acked
  {
    var k := s.hist.acked[(v, t)];
    && v < s.Size() && t in s.hist.won && t in s.hist.tlog && t <= s.nodes[v].currentTerm
    && s.hist.won[t].base <= k < |s.hist.tlog[t]|
    && (v == s.hist.won[t].leader ==> k == |s.hist.tlog[t]| - 1)
    && (v != s.hist.won[t].leader ==> exists q {:trigger AckWitness(s, q, v, t, k)} :: AckWitness(s, q, v, t, k))
    && (s.nodes[v].currentTerm == t ==> s.hist.tlog[t][..k + 1] <= s.nodes[v].log)
  }

  /** Everything below nextIndex has been accepted, and nothing beyond it was ever sent. */
  ghost predicate ReplicatorOk(s: Cluster, r: nat)
    requires Wf(s) && r < |s.replicators|
  {
    var rep := s.replicators[r];
    var f, t, next := rep.follower, rep.born, At(s.nodes[rep.node].nextIndex, rep.follower);
    Live(s, r) ==>
      && (t in s.hist.won && next > s.hist.won[t].base ==> HasAck(s, f, t, next - 1))
      && (forall q {:trigger IsCall(s, q, f, t)} :: IsCall(s, q, f, t) ==> EntryIndex(s, q) <= next)
  }

  ghost predicate CallsOrdered(s: Cluster) {
    forall q1, q2, v, t {:trigger IsCall(s, q1, v, t), IsCall(s, q2, v, t)} ::
      q1 <= q2 && IsCall(s, q1, v, t) && IsCall(s, q2, v, t) ==> EntryIndex(s, q1) <= EntryIndex(s, q2)
  }

  ghost predicate CallFifo(s: Cluster, q: nat)
    requires q < |s.appends|
  {
    var p := s.appends[q].params;
    !IsHeartbeat(p) && p.term in s.hist.won && EntryIndex(s, q) > s.hist.won[p.term].base ==>
      HasAck(s, s.appends[q].to, p.term, EntryIndex(s, q) - 1)
  }

  ghost predicate AppendReplyOk(s: Cluster, m: AppendReply) {
    && m.request < |s.appends|
    && (m.rets.success && !IsHeartbeat(s.appends[m.request].params) ==>
          var c := s.appends[m.request];
          m.rets.term == c.params.term && HasAck(s, c.to, c.params.term, EntryIndex(s, m.request)))
  }

  ghost predicate MatchOk(s: Cluster, i: nat)
    requires i < s.Size()
  {
    var nd := s.nodes[i];
    nd.role == Leader ==>
      nd.currentTerm in s.hist.won &&
      forall f {:trigger At(nd.matchIndex, f)} :: f in Remotes(i, s.Size()) ==>
        var m := At(nd.matchIndex, f);
        m == 0 || (s.hist.won[nd.currentTerm].base <= m && HasAck(s, f, nd.currentTerm, m))
  }

  ghost predicate FifoInv(s: Cluster) {
    && FreshInv(s)
    && (forall v, t {:trigger AckOk(s, v, t)} :: (v, t) in s.hist.acked ==> AckOk(s, v, t))
    && (forall t :: t in s.hist.won ==> (s.hist.won[t].leader, t) in s.hist.acked)
    && (forall r {:trigger ReplicatorOk(s, r)} :: 0 <= r < |s.replicators| ==> ReplicatorOk(s, r))
    && CallsOrdered(s)
    && (forall q {:trigger CallFifo(s, q)} :: 0 <= q < |s.appends| ==> CallFifo(s, q))
    && (forall m {:trigger AppendReplyOk(s, m)} :: m in s.appendReplies ==> AppendReplyOk(s, m))
    && (forall i {:trigger MatchOk(s, i)} :: 0 <= i < s.Size() ==> MatchOk(s, i))
    && (forall q :: q in s.hist.handled ==> q < |s.appends|)
  }

  // ---- preservation ----------------------------------------------------------------------

  ghost predicate AcksGrow(s: Cluster, s': Cluster) {
    && (forall v, t :: (v, t) in s.hist.acked ==>
          (v, t) in s'.hist.acked && s.hist.acked[(v, t)] <= s'.hist.acked[(v, t)])
    && HistGrows(s.hist, s'.hist)
    && s.hist.handled <= s'.hist.handled
    && |s.appends| <= |s'.appends| && (forall q :: 0 <= q < |s.appends| ==> s'.appends[q] == s.appends[q])
  }

  /** An acknowledgement that this event does not touch. */
  lemma AckStays(s: Cluster, s': Cluster, v: nat, t: nat)
    requires AcksGrow(s, s') && (v, t) in s.hist.acked && AckOk(s, v, t)
    requires s'.hist.acked[(v, t)] == s.hist.acked[(v, t)]
    requires v < s'.Size() && s'.Size() == s.Size() && s.nodes[v].currentTerm <= s'.nodes[v].currentTerm
    requires s'.nodes[v].currentTerm == t ==> s.nodes[v].log <= s'.nodes[v].log
    requires v == s.hist.won[t].leader ==> s'.hist.tlog[t] == s.hist.tlog[t]
    ensures AckOk(s', v, t)
  {
    var k := s.hist.acked[(v, t)];
    if v != s.hist.won[t].leader {
      var q: nat :| AckWitness(s, q, v, t, k);
      assert AckWitness(s', q, v, t, k);
    }
    assert s'.hist.tlog[t][..k + 1] == s.hist.tlog[t][..k + 1];
  }

  lemma ReplicatorStays(s: Cluster, s': Cluster, r: nat)
    requires Wf(s) && Wf(s') && s.Size() == s'.Size() && AcksGrow(s, s') && r < |s.replicators| <= |s'.replicators|
    requires ReplicatorOk(s, r) && OwnRequests(s, r) && s'.replicators[r] == s.replicators[r]
    requires var l := s.replicators[r].node;
      s'.nodes[l].currentTerm == s.replicators[r].born ==>
        && s.nodes[l].currentTerm == s.replicators[r].born
        && At(s'.nodes[l].nextIndex, s.replicators[r].follower) == At(s.nodes[l].nextIndex, s.replicators[r].follower)
    requires forall q: nat :: IsCall(s', q, s.replicators[r].follower, s.replicators[r].born) ==> q < |s.appends|
    ensures ReplicatorOk(s', r)
  {
    var f, t := s.replicators[r].follower, s.replicators[r].born;
    forall q: nat | IsCall(s', q, f, t) ensures IsCall(s, q, f, t) {
    }
    if Live(s', r) {
      assert Live(s, r);
    }
  }

  lemma CallStays(s: Cluster, s': Cluster, q: nat)
    requires AcksGrow(s, s') && q < |s.appends| && CallFifo(s, q) && CallBase(s, q)
    ensures CallFifo(s', q)
  {
  }

  lemma MatchStays(s: Cluster, s': Cluster, i: nat)
    requires AcksGrow(s, s') && i < s.Size() == s'.Size() && MatchOk(s, i)
    requires s'.nodes[i].role == Leader ==>
      && s.nodes[i].role == Leader && s.nodes[i].currentTerm == s'.nodes[i].currentTerm
      && s'.nodes[i].matchIndex == s.nodes[i].matchIndex
    ensures MatchOk(s', i)
  {
    if s'.nodes[i].role == Leader {
      var nd := s.nodes[i];
      forall f | f in Remotes(i, s.Size())
        ensures var m := At(nd.matchIndex, f);
          m == 0 || (s'.hist.won[nd.currentTerm].base <= m && HasAck(s', f, nd.currentTerm, m))
      {
        var m := At(nd.matchIndex, f);
      }
    }
  }

  /** Combines the pieces: everything of s' is either as in s or established by the caller. */
  lemma FifoFrame(s: Cluster, s': Cluster)
    requires FifoInv(s) && FreshInv(s') && s'.Size() == s.Size() && AcksGrow(s, s')
    requires forall v, t :: (v, t) in s'.hist.acked ==> AckOk(s', v, t)
    requires forall t :: t in s'.hist.won ==> (s'.hist.won[t].leader, t) in s'.hist.acked
    requires forall r :: 0 <= r < |s'.replicators| ==> ReplicatorOk(s', r)
    requires CallsOrdered(s')
    requires forall q :: |s.appends| <= q < |s'.appends| ==> CallFifo(s', q)
    requires forall m :: m in s'.appendReplies ==> m in s.appendReplies || AppendReplyOk(s', m)
    requires forall i :: 0 <= i < s.Size() ==> MatchOk(s', i)
    requires forall q :: q in s'.hist.handled ==> q < |s'.appends|
    ensures FifoInv(s')
  {
    forall q | 0 <= q < |s'.appends| ensures CallFifo(s', q) {
      if q < |s.appends| {
        assert CallBase(s, q);
        CallStays(s, s', q);
      }
    }
    forall m | m in s'.appendReplies ensures AppendReplyOk(s', m) {
      if m in s.appendReplies {
        assert AppendReplyOk(s, m);
      }
    }
  }

  lemma SameCallsOrdered(s: Cluster, s': Cluster)
    requires CallsOrdered(s) && s'.appends == s.appends
    ensures CallsOrdered(s')
  {
    forall q1, q2, v, t | q1 <= q2 && IsCall(s', q1, v, t) && IsCall(s', q2, v, t)
      ensures EntryIndex(s', q1) <= EntryIndex(s', q2)
    {
      assert IsCall(s, q1, v, t) && IsCall(s, q2, v, t);
    }
  }

  /** What holds of replicators, calls and match indices is kept when nothing is sent or counted. */
  lemma RestStays(s: Cluster, s': Cluster, i: nat)
    requires FifoInv(s) && Wf(s') && AcksGrow(s, s') && i < s.Size() == s'.Size()
    requires s'.nodes == s.nodes[i := s'.nodes[i]] && StillMove(s.nodes[i], s'.nodes[i].(log := s.nodes[i].log))
    requires s'.appends == s.appends && s'.replicators == s.replicators
    ensures forall r :: 0 <= r < |s'.replicators| ==> ReplicatorOk(s', r)
    ensures CallsOrdered(s')
    ensures forall j :: 0 <= j < s.Size() ==> MatchOk(s', j)
  {
    forall r | 0 <= r < |s'.replicators| ensures ReplicatorOk(s', r) {
      assert ReplicatorOk(s, r) && OwnRequests(s, r);
      BornNotAhead(s, r);
      ReplicatorStays(s, s', r);
    }
    SameCallsOrdered(s, s');
    forall j | 0 <= j < s.Size() ensures MatchOk(s', j) {
      assert MatchOk(s, j);
      MatchStays(s, s', j);
    }
  }

  lemma FifoStill(s: Cluster, s': Cluster, i: nat)
    requires FifoInv(s) && FreshInv(s') && i < s.Size() == s'.Size()
    requires s'.nodes == s.nodes[i := s'.nodes[i]] && StillMove(s.nodes[i], s'.nodes[i])
    requires s'.appends == s.appends && s'.replicators == s.replicators
    requires s'.hist.acked == s.hist.acked && s'.hist.tlog == s.hist.tlog && s'.hist.won == s.hist.won
    requires s.hist.handled <= s'.hist.handled && forall q :: q in s'.hist.handled ==> q < |s.appends|
    requires forall m :: m in s'.appendReplies ==> m in s.appendReplies || AppendReplyOk(s', m)
    ensures FifoInv(s')
  {
    assert AcksGrow(s, s');
    forall v, t | (v, t) in s'.hist.acked ensures AckOk(s', v, t) {
      assert AckOk(s, v, t);
      AckStays(s, s', v, t);
    }
    RestStays(s, s', i);
    FifoFrame(s, s');
  }

  lemma FifoQuiet(s: Cluster, ev: Event)
    requires FifoInv(s) && Enabled(s, ev) && SafeSize(s.Size())
    requires ev.ElectionTimeout? || ev.StartElection? || ev.DeliverVote?
          || (ev.DeliverVoteReply? && !IsWin(s, ev.reply))
    ensures FifoInv(Next(s, ev))
  {
    FreshStep(s, ev);
    var i := StillEvent(s, ev);
    FifoStill(s, Next(s, ev), i);
  }

  // ---- sending ---------------------------------------------------------------------------

  lemma FifoSends(s: Cluster, s': Cluster, r: nat)
    requires FifoInv(s) && FreshInv(s') && Sends(s, s', r) && s'.Size() == s.Size()
    requires r < |s.replicators| ==> ReplicatorOk(s', r)
    requires CallsOrdered(s')
    requires forall q :: |s.appends| <= q < |s'.appends| ==> CallFifo(s', q)
    requires forall r1, q :: 0 <= r1 < |s.replicators| && r1 != r && q >= |s.appends| ==>
               !IsCall(s', q, s.replicators[r1].follower, s.replicators[r1].born)
    ensures FifoInv(s')
  {
    assert AcksGrow(s, s');
    forall v, t | (v, t) in s'.hist.acked ensures AckOk(s', v, t) {
      assert AckOk(s, v, t);
      AckStays(s, s', v, t);
    }
    forall r1 | 0 <= r1 < |s'.replicators| ensures ReplicatorOk(s', r1) {
      if r1 != r {
        assert ReplicatorOk(s, r1) && OwnRequests(s, r1);
        ReplicatorStays(s, s', r1);
      }
    }
    forall j | 0 <= j < s.Size() ensures MatchOk(s', j) {
      assert MatchOk(s, j);
      MatchStays(s, s', j);
    }
    FifoFrame(s, s');
  }

  lemma FifoSendHeartbeat(s: Cluster, i: nat, f: nat)
    requires FifoInv(s) && Enabled(s, SendHeartbeat(i, f)) && SafeSize(s.Size())
    ensures FifoInv(Next(s, SendHeartbeat(i, f)))
  {
    hide FreshInv;
    FreshStep(s, SendHeartbeat(i, f));
    var s' := DoSendHeartbeat(s, i, f);
    assert forall q: nat, v: nat, t: nat {:trigger IsCall(s', q, v, t)} ::
        IsCall(s', q, v, t) ==> q < |s.appends| && IsCall(s, q, v, t);
    FifoSends(s, s', |s.replicators|);
  }

  lemma FifoAbandonCall(s: Cluster, r: nat)
    requires FifoInv(s) && Enabled(s, AbandonCall(r)) && SafeSize(s.Size())
    ensures FifoInv(Next(s, AbandonCall(r)))
  {
    hide HistOk, VoteInv;
    IsWf(s);
    FreshStep(s, AbandonCall(r));
    var s' := DoAbandonCall(s, r);
    SameCallsOrdered(s, s');
    assert ReplicatorOk(s, r);
    assert forall q: nat, v: nat, t: nat {:trigger IsCall(s', q, v, t)} :: IsCall(s', q, v, t) ==> IsCall(s, q, v, t);
    FifoSends(s, s', r);
  }

  lemma FifoReplicate(s: Cluster, r: nat)
    requires FifoInv(s) && Enabled(s, Replicate(r)) && InOrder(s, Replicate(r)) && SafeSize(s.Size())
    ensures FifoInv(Next(s, Replicate(r)))
  {
    FreshStep(s, Replicate(r));
    var s' := DoReplicate(s, r);
    if |s'.appends| == |s.appends| {
      FifoNoCall(s, s', r);
    } else {
      FifoCall(s, r);
    }
  }

  lemma FifoNoCall(s: Cluster, s': Cluster, r: nat)
    requires FifoInv(s) && Enabled(s, Replicate(r)) && FreshInv(s')
    requires s' == DoReplicate(s, r) && |s'.appends| == |s.appends|
    ensures FifoInv(s')
  {
    hide HistOk;
    assert ReplicatorOk(s, r);
    SameCallsOrdered(s, s');
    assert forall q: nat, v: nat, u: nat {:trigger IsCall(s', q, v, u)} :: IsCall(s', q, v, u) ==> IsCall(s, q, v, u);
    FifoSends(s, s', r);
  }

  lemma FifoCall(s: Cluster, r: nat)
    requires FifoInv(s) && Enabled(s, Replicate(r)) && InOrder(s, Replicate(r)) && SafeSize(s.Size())
    requires FreshInv(DoReplicate(s, r)) && |DoReplicate(s, r).appends| > |s.appends|
    ensures FifoInv(DoReplicate(s, r))
  {
    hide HistOk, VoteInv, AckOk;
    IsWf(s);
    var s' := DoReplicate(s, r);
    var f, t := s.replicators[r].follower, s.replicators[r].born;
    assert ReplicatorOk(s, r) && OwnRequests(s, r);
    NewCall(s, r);
    assert forall q: nat, v: nat, u: nat {:trigger IsCall(s', q, v, u)} :: IsCall(s', q, v, u) ==>
        IsCall(s, q, v, u) || (q == |s.appends| && v == f && u == t);
    FifoSends(s, s', r);
  }

  // ---- replies ---------------------------------------------------------------------------

  lemma FifoOwnReply(s: Cluster, s': Cluster, r: nat)
    requires FifoInv(s) && FreshInv(s') && r < |s.replicators| && s'.Size() == s.Size()
    requires s.replicators[r].node < s.Size() && OwnBookkeeping(s, s', r)
    requires ReplicatorOk(s', r) && MatchOk(s', s.replicators[r].node)
    ensures FifoInv(s')
  {
    assert AcksGrow(s, s');
    forall v, t | (v, t) in s'.hist.acked ensures AckOk(s', v, t) {
      assert AckOk(s, v, t);
      AckStays(s, s', v, t);
    }
    forall r1 | 0 <= r1 < |s'.replicators| ensures ReplicatorOk(s', r1) {
      if r1 != r {
        assert OwnRequests(s, r1) && OwnRequests(s, r) && ReplicatorOk(s, r1);
        if s.replicators[r1].node == s.replicators[r].node && s.replicators[r1].born == s.replicators[r].born {
          assert s.replicators[r1].follower != s.replicators[r].follower;
        }
        ReplicatorStays(s, s', r1);
      }
    }
    SameCallsOrdered(s, s');
    forall j | 0 <= j < s.Size() ensures MatchOk(s', j) {
      assert MatchOk(s, j);
      if j != s.replicators[r].node {
        MatchStays(s, s', j);
      }
    }
    FifoFrame(s, s');
  }

  lemma AcceptedReply(s: Cluster, r: nat, rets: AppendRets)
    requires FifoInv(s) && Enabled(s, DeliverAppendReply(r, rets)) && InOrder(s, DeliverAppendReply(r, rets))
    requires Accepts(s.nodes[s.replicators[r].node], rets)
    ensures var l, f := s.replicators[r].node, s.replicators[r].follower;
      var next := At(s.nodes[l].nextIndex, f);
      && Live(s, r) && s.nodes[l].currentTerm in s.hist.won
      && s.hist.won[s.nodes[l].currentTerm].base <= next
      && HasAck(s, f, s.nodes[l].currentTerm, next)
  {
    var q := s.replicators[r].status.request;
    assert ReplicatorOk(s, r) && OwnRequests(s, r);
    assert AppendReplyOk(s, AppendReply(q, rets));
  }

  lemma AcknowledgeEffects(s: Cluster, s': Cluster, r: nat, rets: AppendRets)
    requires FifoInv(s) && Enabled(s, DeliverAppendReply(r, rets)) && InOrder(s, DeliverAppendReply(r, rets))
    requires Accepts(s.nodes[s.replicators[r].node], rets)
    requires s' == Next(s, DeliverAppendReply(r, rets)) && Wf(s')
    ensures ReplicatorOk(s', r) && MatchOk(s', s.replicators[r].node)
  {
    hide HistOk, VoteInv;
    IsWf(s);
    AcceptedReply(s, r, rets);
    assert ReplicatorOk(s, r) && OwnRequests(s, r);
    var l, f := s.replicators[r].node, s.replicators[r].follower;
    assert MatchOk(s, l);
    assert forall q: nat, v: nat, u: nat {:trigger IsCall(s', q, v, u)} :: IsCall(s', q, v, u) ==> IsCall(s, q, v, u);
    var nd, nd' := s.nodes[l], s'.nodes[l];
    forall g | g in Remotes(l, s.Size())
      ensures var m := At(nd'.matchIndex, g);
        m == 0 || (s'.hist.won[nd'.currentTerm].base <= m && HasAck(s', g, nd'.currentTerm, m))
    {
      assert g != f ==> At(nd'.matchIndex, g) == At(nd.matchIndex, g);
    }
  }

  lemma FifoDeliverAppendReply(s: Cluster, r: nat, rets: AppendRets)
    requires FifoInv(s) && Enabled(s, DeliverAppendReply(r, rets)) && InOrder(s, DeliverAppendReply(r, rets))
    requires SafeSize(s.Size())
    ensures FifoInv(Next(s, DeliverAppendReply(r, rets)))
  {
    FreshStep(s, DeliverAppendReply(r, rets));
    var s' := Next(s, DeliverAppendReply(r, rets));
    var l := s.replicators[r].node;
    var nd := s.nodes[l];
    if nd.role != Leader || rets.term != nd.currentTerm {
      FifoIgnoredReply(s, r, rets);
    } else if rets.success {
      FreshAnswer(s, r, rets);
      AcknowledgeEffects(s, s', r, rets);
      FifoOwnReply(s, s', r);
    } else {
      FifoRejection(s, s', r, rets);
    }
  }

  lemma FifoRejection(s: Cluster, s': Cluster, r: nat, rets: AppendRets)
    requires FifoInv(s) && Enabled(s, DeliverAppendReply(r, rets)) && InOrder(s, DeliverAppendReply(r, rets))
    requires s' == DoDeliverAppendReply(s, r, rets) && FreshInv(s')
    requires var nd := s.nodes[s.replicators[r].node];
      nd.role == Leader && rets.term == nd.currentTerm && !rets.success
    ensures FifoInv(s')
  {
    hide HistOk, VoteInv;
    IsWf(s);
    var l := s.replicators[r].node;
    assert ReplicatorOk(s, r) && OwnRequests(s, r) && MatchOk(s, l);
    FreshAnswer(s, r, rets);
    MatchStays(s, s', l);
    FifoOwnReply(s, s', r);
  }

  lemma FifoIgnoredReply(s: Cluster, r: nat, rets: AppendRets)
    requires FifoInv(s) && Enabled(s, DeliverAppendReply(r, rets)) && InOrder(s, DeliverAppendReply(r, rets))
    requires FreshInv(Next(s, DeliverAppendReply(r, rets)))
    requires var nd := s.nodes[s.replicators[r].node]; nd.role != Leader || rets.term != nd.currentTerm
    ensures FifoInv(Next(s, DeliverAppendReply(r, rets)))
  {
    hide HistOk, VoteInv;
    IsWf(s);
    var s' := Next(s, DeliverAppendReply(r, rets));
    var l := s.replicators[r].node;
    var mid := SetStatus(s, r, s'.replicators[r].status);
    assert mid.nodes == s.nodes;
    assert s'.replicators == mid.replicators;
    assert ReplicatorOk(s, r);
    assert forall q: nat, v: nat, u: nat {:trigger IsCall(mid, q, v, u)} :: IsCall(mid, q, v, u) ==> IsCall(s, q, v, u);
    StatusKeepsFresh(s, r, s'.replicators[r].status);
    SameCallsOrdered(s, mid);
    FifoSends(s, mid, r);
    FifoStill(mid, s', l);
  }

  // ---- entries arriving ------------------------------------------------------------------

  /** Under FIFO a follower never goes back: the entry is at or beyond what it had accepted. */
  lemma NeverGoesBack(s: Cluster, q: nat)
    requires FifoInv(s) && Enabled(s, DeliverAppend(q)) && InOrder(s, DeliverAppend(q))
    requires !IsHeartbeat(s.appends[q].params)
    ensures var v, t := s.appends[q].to, s.appends[q].params.term;
      (v, t) in s.hist.acked ==> s.hist.acked[(v, t)] <= EntryIndex(s, q)
  {
    var v, t := s.appends[q].to, s.appends[q].params.term;
    if (v, t) in s.hist.acked {
      assert AckOk(s, v, t) && CallOk(s.hist, s.appends[q].params);
      var q1: nat :| AckWitness(s, q1, v, t, s.hist.acked[(v, t)]);
      assert IsCall(s, q, v, t);
      assert q1 <= q;
    }
  }

  /** What accepting call q does: its addressee takes the sender's log up to the entry, and says so. */
  ghost predicate Takes(s: Cluster, s': Cluster, q: nat)
    requires q < |s.appends| && s.appends[q].to < s.Size()
  {
    var v, t, k := s.appends[q].to, s.appends[q].params.term, EntryIndex(s, q);
    && s'.Size() == s.Size() && s'.nodes == s.nodes[v := s'.nodes[v]]
    && StillMove(s.nodes[v], s'.nodes[v].(log := s.nodes[v].log))
    && s'.nodes[v].role == Follower && s'.nodes[v].currentTerm == t
    && s'.appends == s.appends && s'.replicators == s.replicators
    && s'.appendReplies == s.appendReplies + {AppendReply(q, AppendRets(true, t))}
    && s'.hist == s.hist.(handled := s.hist.handled + {q}, acked := s.hist.acked[(v, t) := k])
    && t in s.hist.won && v != s.hist.won[t].leader
    && t in s.hist.tlog && k < |s.hist.tlog[t]| && s'.nodes[v].log == s.hist.tlog[t][..k + 1]
    && ((v, t) in s.hist.acked ==> s.hist.acked[(v, t)] <= k)
  }

  lemma AcceptTakes(s: Cluster, q: nat)
    requires FifoInv(s) && Enabled(s, DeliverAppend(q)) && InOrder(s, DeliverAppend(q))
    requires var p := s.appends[q].params; !IsHeartbeat(p) && OnAppend(s.nodes[s.appends[q].to], p).1.success
    ensures Takes(s, DoDeliverAppend(s, q), q)
  {
    hide Matches, Spliced;
    var v, p := s.appends[q].to, s.appends[q].params;
    NeverGoesBack(s, q);
    assert NodeOk(s, v) && CallOk(s.hist, p) && NodeLogOk(s.hist, s.nodes[v]);
    FollowerLog(s.hist, s.nodes[v], p);
    AcceptEffects(s, q);
  }

  lemma AcceptEffects(s: Cluster, q: nat)
    requires Wf(s) && Enabled(s, DeliverAppend(q)) && NodeOk(s, s.appends[q].to)
    requires CallOk(s.hist, s.appends[q].params)
    requires var p := s.appends[q].params; !IsHeartbeat(p) && OnAppend(s.nodes[s.appends[q].to], p).1.success
    requires var v, p := s.appends[q].to, s.appends[q].params;
      && OnAppend(s.nodes[v], p).0.log == s.hist.tlog[p.term][..p.prevLogIndex + 2]
      && ((v, p.term) in s.hist.acked ==> s.hist.acked[(v, p.term)] <= EntryIndex(s, q))
    ensures Takes(s, DoDeliverAppend(s, q), q)
  {
    hide Matches, Spliced, Min;
    var v, p := s.appends[q].to, s.appends[q].params;
    AcceptingNode(s.nodes[v], p);
    var s' := DoDeliverAppend(s, q);
    assert s'.hist.acked == s.hist.acked[(v, p.term) := EntryIndex(s, q)];
  }

  lemma AcceptingNode(nd: Node, p: AppendParams)
    requires OnAppend(nd, p).1.success && !IsHeartbeat(p) && !(nd.role == Leader && nd.currentTerm == p.term)
    ensures var (nd', rets) := OnAppend(nd, p);
      && nd'.currentTerm == p.term >= nd.currentTerm && nd'.role == Follower && rets.term == p.term
      && nd'.nextIndex == nd.nextIndex && nd'.matchIndex == nd.matchIndex
  {
  }

  lemma TakenAck(s: Cluster, s': Cluster, q: nat)
    requires FifoInv(s) && q < |s.appends| && s.appends[q].to < s.Size() && !IsHeartbeat(s.appends[q].params)
    requires Takes(s, s', q)
    ensures AckOk(s', s.appends[q].to, s.appends[q].params.term)
  {
    assert CallFifo(s, q) && CallBase(s, q);
    assert AckWitness(s', q, s.appends[q].to, s.appends[q].params.term, EntryIndex(s, q));
  }

  lemma FifoTakes(s: Cluster, s': Cluster, q: nat)
    requires FifoInv(s) && FreshInv(s') && q < |s.appends| && s.appends[q].to < s.Size()
    requires !IsHeartbeat(s.appends[q].params) && Takes(s, s', q)
    ensures FifoInv(s')
  {
    hide FreshInv, HistOk;
    var v, t := s.appends[q].to, s.appends[q].params.term;
    assert AcksGrow(s, s');
    TakenAck(s, s', q);
    forall w, u | (w, u) in s'.hist.acked ensures AckOk(s', w, u) {
      if w != v || u != t {
        assert AckOk(s, w, u);
        AckStays(s, s', w, u);
      }
    }
    FifoAccepted(s, s', v);
  }

  /** An acknowledged entry changes the log of one node that leads nothing. */
  lemma FifoAccepted(s: Cluster, s': Cluster, v: nat)
    requires FifoInv(s) && FreshInv(s') && AcksGrow(s, s') && v < s.Size() == s'.Size()
    requires s'.nodes == s.nodes[v := s'.nodes[v]] && StillMove(s.nodes[v], s'.nodes[v].(log := s.nodes[v].log))
    requires s'.appends == s.appends && s'.replicators == s.replicators && s'.hist.won == s.hist.won
    requires forall w, u :: (w, u) in s'.hist.acked ==> AckOk(s', w, u)
    requires forall m :: m in s'.appendReplies ==> m in s.appendReplies || AppendReplyOk(s', m)
    requires forall q :: q in s'.hist.handled ==> q < |s'.appends|
    ensures FifoInv(s')
  {
    RestStays(s, s', v);
    FifoFrame(s, s');
  }

  lemma FifoDeliverAppend(s: Cluster, q: nat)
    requires FifoInv(s) && Enabled(s, DeliverAppend(q)) && InOrder(s, DeliverAppend(q)) && SafeSize(s.Size())
    ensures FifoInv(Next(s, DeliverAppend(q)))
  {
    FreshStep(s, DeliverAppend(q));
    var s' := DoDeliverAppend(s, q);
    var v, p := s.appends[q].to, s.appends[q].params;
    if !IsHeartbeat(p) && OnAppend(s.nodes[v], p).1.success {
      AcceptTakes(s, q);
      FifoTakes(s, s', q);
    } else {
      FifoUntaken(s, s', q);
    }
  }

  lemma FifoUntaken(s: Cluster, s': Cluster, q: nat)
    requires FifoInv(s) && Enabled(s, DeliverAppend(q)) && s' == DoDeliverAppend(s, q) && FreshInv(s')
    requires var p := s.appends[q].params; IsHeartbeat(p) || !OnAppend(s.nodes[s.appends[q].to], p).1.success
    ensures FifoInv(s')
  {
    hide HistOk, VoteInv;
    var v := s.appends[q].to;
    NodeFacts(s, v);
    assert CallOk(s.hist, s.appends[q].params);
    assert StillMove(s.nodes[v], s'.nodes[v]);
    FifoStill(s, s', v);
  }

  // ---- the leader's own log --------------------------------------------------------------

  lemma ClientAppendAcks(s: Cluster, i: nat, record: Record)
    requires FifoInv(s) && Enabled(s, ClientAppend(i, record))
    ensures var s' := DoClientAppend(s, i, record);
      AcksGrow(s, s') && forall v, u :: (v, u) in s'.hist.acked ==> AckOk(s', v, u)
  {
    assert NodeOk(s, i) && NodeLogOk(s.hist, s.nodes[i]);
    OwnEntryAcks(s, DoClientAppend(s, i, record), i);
  }

  /** A leader extends its own log by one entry. */
  lemma OwnEntryAck(s: Cluster, s': Cluster, i: nat)
    requires FifoInv(s) && i < s.Size() == s'.Size() && s.nodes[i].currentTerm in s.hist.won
    requires var nd, nd' := s.nodes[i], s'.nodes[i];
      && s'.nodes == s.nodes[i := nd']
      && s.hist.won[nd.currentTerm].leader == i && nd'.currentTerm == nd.currentTerm
      && nd.currentTerm in s.hist.tlog && nd.log == s.hist.tlog[nd.currentTerm]
      && nd.log <= nd'.log && |nd'.log| == |nd.log| + 1
      && s'.appends == s.appends
      && s'.hist == s.hist.(tlog := s.hist.tlog[nd.currentTerm := nd'.log],
                            acked := s.hist.acked[(i, nd.currentTerm) := |nd.log|])
    ensures AcksGrow(s, s') && AckOk(s', i, s.nodes[i].currentTerm)
  {
    hide HistOk, VoteInv;
    IsWf(s);
    var t := s.nodes[i].currentTerm;
    TermFacts(s, t);
    assert AckOk(s, i, t);
    assert s'.hist.tlog[t][..|s'.hist.tlog[t]|] == s'.hist.tlog[t];
  }

  lemma OwnEntryAcks(s: Cluster, s': Cluster, i: nat)
    requires FifoInv(s) && i < s.Size() == s'.Size() && s.nodes[i].currentTerm in s.hist.won
    requires var nd, nd' := s.nodes[i], s'.nodes[i];
      && s'.nodes == s.nodes[i := nd']
      && s.hist.won[nd.currentTerm].leader == i && nd'.currentTerm == nd.currentTerm
      && nd.currentTerm in s.hist.tlog && nd.log == s.hist.tlog[nd.currentTerm]
      && nd.log <= nd'.log && |nd'.log| == |nd.log| + 1
      && s'.appends == s.appends
      && s'.hist == s.hist.(tlog := s.hist.tlog[nd.currentTerm := nd'.log],
                            acked := s.hist.acked[(i, nd.currentTerm) := |nd.log|])
    ensures AcksGrow(s, s') && forall v, u :: (v, u) in s'.hist.acked ==> AckOk(s', v, u)
  {
    hide HistOk, VoteInv;
    IsWf(s);
    OwnEntryAck(s, s', i);
    forall v, u | (v, u) in s'.hist.acked && !(v == i && u == s.nodes[i].currentTerm) ensures AckOk(s', v, u) {
      assert AckOk(s, v, u);
      AckStays(s, s', v, u);
    }
  }

  lemma FifoClientAppend(s: Cluster, i: nat, record: Record)
    requires FifoInv(s) && Enabled(s, ClientAppend(i, record)) && SafeSize(s.Size())
    ensures FifoInv(Next(s, ClientAppend(i, record)))
  {
    FreshStep(s, ClientAppend(i, record));
    var s' := DoClientAppend(s, i, record);
    ClientAppendAcks(s, i, record);
    FifoAccepted(s, s', i);
  }

  lemma NoAcksInNewTerm(s: Cluster, t: nat)
    requires FifoInv(s) && t !in s.hist.won
    ensures forall v :: (v, t) !in s.hist.acked
  {
    forall v, u | (v, u) in s.hist.acked ensures u in s.hist.won {
      assert AckOk(s, v, u);
    }
  }

  lemma FifoWin(s: Cluster, m: VoteReply)
    requires FifoInv(s) && Enabled(s, DeliverVoteReply(m)) && IsWin(s, m) && SafeSize(s.Size())
    ensures FifoInv(Next(s, DeliverVoteReply(m)))
  {
    hide Next, BecomeLeader, HistOk, AckOk;
    WinState(s, m);
    FreshStep(s, DeliverVoteReply(m));
    NewTermIsFree(s, m);
    var s' := Next(s, DeliverVoteReply(m));
    var c := s.elections[m.election].params.candidateId;
    NoAcksInNewTerm(s, s.nodes[c].currentTerm);
    WinGrows(s, m);
    WinAcks(s, m);
    WinReplicators(s, m);
    SameCallsOrdered(s, s');
    NewLeaderMatches(s, m);
    forall j | 0 <= j < s.Size() && j != c ensures MatchOk(s', j) {
      assert MatchOk(s, j);
      MatchStays(s, s', j);
    }
    FifoFrame(s, s');
  }

  lemma NewLeaderMatches(s: Cluster, m: VoteReply)
    requires Wf(s) && Enabled(s, DeliverVoteReply(m)) && IsWin(s, m)
    ensures MatchOk(Next(s, DeliverVoteReply(m)), s.elections[m.election].params.candidateId)
  {
    hide Next;
    WinState(s, m);
  }

  lemma WinGrows(s: Cluster, m: VoteReply)
    requires LogInv(s) && Enabled(s, DeliverVoteReply(m)) && IsWin(s, m)
    requires var t := s.nodes[s.elections[m.election].params.candidateId].currentTerm;
      t !in s.hist.won && forall v :: (v, t) !in s.hist.acked
    ensures AcksGrow(s, Next(s, DeliverVoteReply(m)))
  {
    hide Next, BecomeLeader;
    WinState(s, m);
    assert NodeLogOk(s.hist, s.nodes[s.elections[m.election].params.candidateId]);
  }

  lemma WinAcks(s: Cluster, m: VoteReply)
    requires FifoInv(s) && Enabled(s, DeliverVoteReply(m)) && IsWin(s, m)
    requires var s' := Next(s, DeliverVoteReply(m)); FreshInv(s') && AcksGrow(s, s')
    requires s.nodes[s.elections[m.election].params.candidateId].currentTerm !in s.hist.won
    ensures var s' := Next(s, DeliverVoteReply(m));
      forall v, u :: (v, u) in s'.hist.acked ==> AckOk(s', v, u)
  {
    hide Next, BecomeLeader, LogInv, HistGrows;
    WinState(s, m);
    var s' := Next(s, DeliverVoteReply(m));
    var c := s.elections[m.election].params.candidateId;
    var t := s.nodes[c].currentTerm;
    var log' := s'.nodes[c].log;
    forall v, u | (v, u) in s'.hist.acked ensures AckOk(s', v, u) {
      if v == c && u == t {
        assert log'[..|log'|] == log';
      } else {
        assert AckOk(s, v, u);
        AckStays(s, s', v, u);
      }
    }
  }

  lemma WinReplicators(s: Cluster, m: VoteReply)
    requires FifoInv(s) && Enabled(s, DeliverVoteReply(m)) && IsWin(s, m)
    requires var s' := Next(s, DeliverVoteReply(m)); FreshInv(s') && AcksGrow(s, s')
    requires s.nodes[s.elections[m.election].params.candidateId].currentTerm !in s.hist.won
    ensures var s' := Next(s, DeliverVoteReply(m));
      forall r :: 0 <= r < |s'.replicators| ==> ReplicatorOk(s', r)
  {
    hide Next, BecomeLeader, Spawned, OwnRequests, ReplicatorOk;
    WinState(s, m);
    var s' := Next(s, DeliverVoteReply(m));
    NothingOfNewTerm(s, s.nodes[s.elections[m.election].params.candidateId].currentTerm);
    forall r | 0 <= r < |s'.replicators| ensures ReplicatorOk(s', r) {
      if r < |s.replicators| {
        OldReplicator(s, m, r);
      } else {
        NewReplicator(s, m, r);
      }
    }
  }

  lemma OldReplicator(s: Cluster, m: VoteReply, r: nat)
    requires FifoInv(s) && Enabled(s, DeliverVoteReply(m)) && IsWin(s, m) && r < |s.replicators|
    requires var s' := Next(s, DeliverVoteReply(m)); FreshInv(s') && AcksGrow(s, s')
    requires s.replicators[r].born != s.nodes[s.elections[m.election].params.candidateId].currentTerm
    requires s.nodes[s.elections[m.election].params.candidateId].currentTerm !in s.hist.won
    ensures r < |Next(s, DeliverVoteReply(m)).replicators| && ReplicatorOk(Next(s, DeliverVoteReply(m)), r)
  {
    hide Next, BecomeLeader, HistOk, VoteInv;
    IsWf(s);
    IsWf(Next(s, DeliverVoteReply(m)));
    WinState(s, m);
    assert ReplicatorOk(s, r) && OwnRequests(s, r);
    ReplicatorStays(s, Next(s, DeliverVoteReply(m)), r);
  }

  lemma NewReplicator(s: Cluster, m: VoteReply, r: nat)
    requires FifoInv(s) && Enabled(s, DeliverVoteReply(m)) && IsWin(s, m)
    requires var s' := Next(s, DeliverVoteReply(m)); FreshInv(s') && |s.replicators| <= r < |s'.replicators|
    requires s.nodes[s.elections[m.election].params.candidateId].currentTerm !in s.hist.won
    ensures ReplicatorOk(Next(s, DeliverVoteReply(m)), r)
  {
    hide Next;
    WinState(s, m);
    var s' := Next(s, DeliverVoteReply(m));
    var t := s.nodes[s.elections[m.election].params.candidateId].currentTerm;
    NothingOfNewTerm(s, t);
    NewReplicatorRequests(s, m, r);
    assert forall q: nat, v: nat {:trigger IsCall(s', q, v, t)} :: IsCall(s', q, v, t) ==> IsCall(s, q, v, t);
  }

  lemma FifoStep(s: Cluster, ev: Event)
    requires FifoInv(s) && Enabled(s, ev) && InOrder(s, ev) && SafeSize(s.Size())
    ensures FifoInv(Next(s, ev)) && Next(s, ev).Size() == s.Size()
  {
    FreshStep(s, ev);
    match ev
    case DeliverVoteReply(m) => if IsWin(s, m) { FifoWin(s, m); } else { FifoQuiet(s, ev); }
    case DeliverAppend(q) => FifoDeliverAppend(s, q);
    case DeliverAppendReply(r, rets) => FifoDeliverAppendReply(s, r, rets);
    case ClientAppend(i, record) => FifoClientAppend(s, i, record);
    case Replicate(r) => FifoReplicate(s, r);
    case AbandonCall(r) => FifoAbandonCall(s, r);
    case SendHeartbeat(i, f) => FifoSendHeartbeat(s, i, f);
    case _ => FifoQuiet(s, ev);
  }
}
