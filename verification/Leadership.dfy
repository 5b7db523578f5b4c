/**
 Leaderships: what a leader's own requests are about, as long as a replicator left over from an
 earlier leadership of a node does not act in a later one. Nothing is assumed about the network.
 */
module Leadership {
  import opened RaftTypes
  import opened RaftStep
  import opened Cluster
  import opened ElectionSafety
  import opened LogMatching

  /** Call q carries a log entry of term t to node v. */
  ghost predicate IsCall(s: Cluster, q: nat, v: nat, t: nat) {
    && q < |s.appends| && s.appends[q].to == v && s.appends[q].params.term == t
    && !IsHeartbeat(s.appends[q].params)
  }

  function EntryIndex(s: Cluster, q: nat): nat
    requires q < |s.appends|
  {
    s.appends[q].params.prevLogIndex + 1
  }

  ghost predicate CurrentReplicator(s: Cluster, r: nat)
    requires r < |s.replicators| && s.replicators[r].node < s.Size()
  {
    var nd := s.nodes[s.replicators[r].node];
    nd.role == Leader ==> nd.currentTerm == s.replicators[r].born
  }

  /** The assumption, as a restriction on events. The code has no such test (raft_node.cpp:242, :301). */
  ghost predicate FreshReplicator(s: Cluster, ev: Event)
    requires Enabled(s, ev)
  {
    match ev
    case Replicate(r) => CurrentReplicator(s, r)
    case DeliverAppendReply(r, _) => CurrentReplicator(s, r)
    case _ => true
  }

  // ---- the invariant ---------------------------------------------------------------------

  ghost predicate Live(s: Cluster, r: nat)
    requires Wf(s) && r < |s.replicators|
  {
    var rep := s.replicators[r];
    !rep.status.Done? && s.nodes[rep.node].currentTerm == rep.born
  }

  /** A live replicator asks only for positions its own leadership wrote, one request at a time. */
  ghost predicate OwnRequests(s: Cluster, r: nat)
    requires Wf(s) && r < |s.replicators|
  {
    var rep := s.replicators[r];
    var next := At(s.nodes[rep.node].nextIndex, rep.follower);
    && rep.born in s.hist.won && s.hist.won[rep.born].leader == rep.node
    && (rep.status.Waiting? ==> IsCall(s, rep.status.request, rep.follower, rep.born))
    && (Live(s, r) ==>
          && s.hist.won[rep.born].base <= next
          && (rep.status.Waiting? ==> EntryIndex(s, rep.status.request) == next))
  }

  ghost predicate OneReplicator(s: Cluster) {
    forall r1, r2 :: 0 <= r1 < r2 < |s.replicators| ==>
      s.replicators[r1].born != s.replicators[r2].born || s.replicators[r1].follower != s.replicators[r2].follower
  }

  /** A request carries an entry that its sender's leadership wrote. */
  ghost predicate CallBase(s: Cluster, q: nat)
    requires q < |s.appends|
  {
    var p := s.appends[q].params;
    !IsHeartbeat(p) ==> p.term in s.hist.won && s.hist.won[p.term].base <= EntryIndex(s, q)
  }

  ghost predicate FreshInv(s: Cluster) {
    && LogInv(s)
    && (forall r {:trigger OwnRequests(s, r)} :: 0 <= r < |s.replicators| ==> OwnRequests(s, r))
    && OneReplicator(s)
    && (forall q {:trigger CallBase(s, q)} :: 0 <= q < |s.appends| ==> CallBase(s, q))
  }

  // ---- preservation ----------------------------------------------------------------------

  /** Won terms stay won, calls stay sent. */
  ghost predicate Sent(s: Cluster, s': Cluster) {
    && (forall t :: t in s.hist.won ==> t in s'.hist.won && s'.hist.won[t] == s.hist.won[t])
    && |s.appends| <= |s'.appends| && (forall q :: 0 <= q < |s.appends| ==> s'.appends[q] == s.appends[q])
  }

  lemma RequestsStay(s: Cluster, s': Cluster, r: nat)
    requires Wf(s) && Wf(s') && s.Size() == s'.Size() && Sent(s, s') && r < |s.replicators| <= |s'.replicators|
    requires OwnRequests(s, r) && s'.replicators[r] == s.replicators[r]
    requires var (l, f) := (s.replicators[r].node, s.replicators[r].follower);
      s'.nodes[l].currentTerm == s.replicators[r].born ==>
        && s.nodes[l].currentTerm == s.replicators[r].born
        && At(s'.nodes[l].nextIndex, f) == At(s.nodes[l].nextIndex, f)
    ensures OwnRequests(s', r)
  {
    if Live(s', r) {
      assert Live(s, r);
    }
  }

  lemma FreshFrame(s: Cluster, s': Cluster)
    requires FreshInv(s) && LogInv(s') && Sent(s, s')
    requires forall r :: 0 <= r < |s'.replicators| ==> OwnRequests(s', r)
    requires OneReplicator(s')
    requires forall q :: |s.appends| <= q < |s'.appends| ==> CallBase(s', q)
    ensures FreshInv(s')
  {
    forall q | 0 <= q < |s'.appends| ensures CallBase(s', q) {
      if q < |s.appends| {
        assert CallBase(s, q);
      }
    }
  }

  /** A node moved without touching log, nextIndex or matchIndex. */
  ghost predicate StillMove(nd: Node, nd': Node) {
    && nd'.log == nd.log && nd.currentTerm <= nd'.currentTerm
    && nd'.nextIndex == nd.nextIndex && nd'.matchIndex == nd.matchIndex
    && (nd'.role == Leader ==> nd.role == Leader && nd.currentTerm == nd'.currentTerm)
  }

  lemma BornNotAhead(s: Cluster, r: nat)
    requires VoteInv(s) && r < |s.replicators| && OwnRequests(s, r)
    ensures s.replicators[r].born <= s.nodes[s.replicators[r].node].currentTerm
    ensures s.nodes[s.replicators[r].node].currentTerm == s.replicators[r].born ==>
              s.nodes[s.replicators[r].node].role == Leader
  {
    assert WonOk(s, s.replicators[r].born);
  }

  lemma FreshStill(s: Cluster, s': Cluster, i: nat)
    requires FreshInv(s) && LogInv(s') && i < s.Size() == s'.Size() && Sent(s, s')
    requires s'.nodes == s.nodes[i := s'.nodes[i]] && StillMove(s.nodes[i], s'.nodes[i].(log := s.nodes[i].log))
    requires s'.appends == s.appends && s'.replicators == s.replicators
    ensures FreshInv(s')
  {
    forall r | 0 <= r < |s'.replicators| ensures OwnRequests(s', r) {
      assert OwnRequests(s, r);
      BornNotAhead(s, r);
      RequestsStay(s, s', r);
    }
    FreshFrame(s, s');
  }

  lemma StillReply(s: Cluster, m: VoteReply)
    requires Enabled(s, DeliverVoteReply(m)) && !IsWin(s, m)
    ensures var c := s.elections[m.election].params.candidateId;
      var s' := Next(s, DeliverVoteReply(m));
      s'.nodes == s.nodes[c := s'.nodes[c]] && StillMove(s.nodes[c], s'.nodes[c])
      && s'.appends == s.appends && s'.hist == s.hist
      && s'.replicators == s.replicators && s'.appendReplies == s.appendReplies
  {
  }

  lemma StillEvent(s: Cluster, ev: Event) returns (i: nat)
    requires Wf(s) && Enabled(s, ev)
    requires ev.ElectionTimeout? || ev.StartElection? || ev.DeliverVote?
          || (ev.DeliverVoteReply? && !IsWin(s, ev.reply))
    ensures var s' := Next(s, ev);
      && i < s.Size() == s'.Size() && s'.nodes == s.nodes[i := s'.nodes[i]] && StillMove(s.nodes[i], s'.nodes[i])
      && s'.appends == s.appends && s'.replicators == s.replicators && s'.appendReplies == s.appendReplies
      && s'.hist.(ballots := s.hist.ballots) == s.hist
  {
    match ev
    case ElectionTimeout(j) => i := j;
    case StartElection(j) => i := j;
    case DeliverVote(e, v) => i := v;
    case DeliverVoteReply(m) =>
      StillReply(s, m);
      i := s.elections[m.election].params.candidateId;
  }

  lemma FreshQuiet(s: Cluster, ev: Event)
    requires FreshInv(s) && Enabled(s, ev) && LogInv(Next(s, ev))
    requires ev.ElectionTimeout? || ev.StartElection? || ev.DeliverVote?
          || (ev.DeliverVoteReply? && !IsWin(s, ev.reply))
    ensures FreshInv(Next(s, ev))
  {
    var i := StillEvent(s, ev);
    FreshStill(s, Next(s, ev), i);
  }

  /** appendEntries leaves a node's indices alone. */
  lemma AppendIsStill(nd: Node, p: AppendParams)
    requires nd.role == Leader ==> nd.currentTerm != p.term || p.term < nd.currentTerm
    ensures StillMove(nd, OnAppend(nd, p).0.(log := nd.log))
  {
    hide OnAppend;
    AppendMoves(nd, p);
  }

  lemma FreshDeliverAppend(s: Cluster, q: nat)
    requires FreshInv(s) && Enabled(s, DeliverAppend(q)) && LogInv(DoDeliverAppend(s, q))
    ensures FreshInv(DoDeliverAppend(s, q))
  {
    hide HistOk;
    var v, p := s.appends[q].to, s.appends[q].params;
    assert NodeOk(s, v) && CallOk(s.hist, p);
    AppendIsStill(s.nodes[v], p);
    FreshStill(s, DoDeliverAppend(s, q), v);
  }

  // ---- sending ---------------------------------------------------------------------------

  /** Only the status of replicator r and the list of calls change. */
  ghost predicate Sends(s: Cluster, s': Cluster, r: nat) {
    && s'.nodes == s.nodes && s'.hist == s.hist && s'.appendReplies == s.appendReplies
    && s.appends <= s'.appends && |s'.appends| <= |s.appends| + 1
    && |s'.replicators| == |s.replicators|
    && (forall r1 :: 0 <= r1 < |s.replicators| ==>
          && s'.replicators[r1].(status := s.replicators[r1].status) == s.replicators[r1]
          && (r1 != r ==> s'.replicators[r1] == s.replicators[r1]))
  }

  lemma FreshSends(s: Cluster, s': Cluster, r: nat)
    requires FreshInv(s) && LogInv(s') && Sends(s, s', r) && s'.Size() == s.Size()
    requires r < |s.replicators| ==> OwnRequests(s', r)
    requires forall q :: |s.appends| <= q < |s'.appends| ==> CallBase(s', q)
    ensures FreshInv(s')
  {
    forall r1 | 0 <= r1 < |s'.replicators| ensures OwnRequests(s', r1) {
      if r1 != r {
        assert OwnRequests(s, r1);
        RequestsStay(s, s', r1);
      }
    }
    forall r1, r2 | 0 <= r1 < r2 < |s'.replicators|
      ensures s'.replicators[r1].born != s'.replicators[r2].born
           || s'.replicators[r1].follower != s'.replicators[r2].follower
    {
      assert s'.replicators[r1].born == s.replicators[r1].born;
      assert s'.replicators[r2].born == s.replicators[r2].born;
    }
    FreshFrame(s, s');
  }

  /** The entry a live replicator sends is the next one of its leadership. */
  lemma NewCall(s: Cluster, r: nat)
    requires FreshInv(s) && Enabled(s, Replicate(r)) && CurrentReplicator(s, r)
    requires |DoReplicate(s, r).appends| > |s.appends|
    ensures var s' := DoReplicate(s, r);
      var q := |s.appends|;
      var f, t := s.replicators[r].follower, s.replicators[r].born;
      && IsCall(s', q, f, t) && t in s.hist.won && s.hist.won[t].base <= EntryIndex(s', q)
      && EntryIndex(s', q) == At(s.nodes[s.replicators[r].node].nextIndex, f)
      && Live(s, r)
  {
    var l, f := s.replicators[r].node, s.replicators[r].follower;
    var nd := s.nodes[l];
    assert OwnRequests(s, r) && NodeLogOk(s.hist, nd) && NodeOk(s, l);
    RecordedIsShaped(s.hist, nd.log);
    assert f in Remotes(l, s.Size());
  }

  lemma FreshReplicate(s: Cluster, r: nat)
    requires FreshInv(s) && Enabled(s, Replicate(r)) && CurrentReplicator(s, r) && LogInv(DoReplicate(s, r))
    ensures FreshInv(DoReplicate(s, r))
  {
    var s' := DoReplicate(s, r);
    assert OwnRequests(s, r);
    if |s'.appends| > |s.appends| {
      NewCall(s, r);
    }
    FreshSends(s, s', r);
  }

  // ---- replies ---------------------------------------------------------------------------

  /** Only the leader's own bookkeeping for one follower, and its replicator's status, change. */
  lemma FreshOwnReply(s: Cluster, s': Cluster, r: nat)
    requires FreshInv(s) && LogInv(s') && r < |s.replicators| && s'.Size() == s.Size()
    requires s.replicators[r].node < s.Size() && OwnBookkeeping(s, s', r) && OwnRequests(s', r)
    ensures FreshInv(s')
  {
    forall r1 | 0 <= r1 < |s'.replicators| ensures OwnRequests(s', r1) {
      if r1 != r {
        assert OwnRequests(s, r1) && OwnRequests(s, r);
        if s.replicators[r1].node == s.replicators[r].node && s.replicators[r1].born == s.replicators[r].born {
          assert s.replicators[r1].follower != s.replicators[r].follower;
        }
        RequestsStay(s, s', r1);
      }
    }
    FreshFrame(s, s');
  }

  ghost predicate OwnBookkeeping(s: Cluster, s': Cluster, r: nat)
    requires r < |s.replicators| && s.replicators[r].node < s.Size() == s'.Size()
  {
    var l, f := s.replicators[r].node, s.replicators[r].follower;
    && s'.nodes == s.nodes[l := s'.nodes[l]]
    && s'.nodes[l].currentTerm == s.nodes[l].currentTerm == s.replicators[r].born
    && s'.nodes[l].role == s.nodes[l].role && s'.nodes[l].log == s.nodes[l].log
    && (forall g :: g != f ==> At(s'.nodes[l].nextIndex, g) == At(s.nodes[l].nextIndex, g))
    && s'.appends == s.appends && s'.hist == s.hist && s'.appendReplies == s.appendReplies
    && |s'.replicators| == |s.replicators|
    && s'.replicators == s.replicators[r := s.replicators[r].(status := s'.replicators[r].status)]
  }

  lemma StatusKeepsFresh(s: Cluster, r: nat, st: Status)
    requires FreshInv(s) && r < |s.replicators| && !st.Waiting?
    requires Live(SetStatus(s, r, st), r) ==> Live(s, r)
    ensures FreshInv(SetStatus(s, r, st))
  {
    var s' := SetStatus(s, r, st);
    assert s'.nodes == s.nodes[0 := s.nodes[0]];
    assert NodeOk(s, 0) && NodeLogOk(s.hist, s.nodes[0]);
    assert NodeOk(s', 0);
    VotesFrame(s, s', 0);
    LogsFrame(s, s', 0);
    assert OwnRequests(s, r);
    FreshSends(s, s', r);
  }

  /** A reply that the leader's state or term makes it ignore, or that deposes it. */
  lemma FreshIgnoredReply(s: Cluster, r: nat, rets: AppendRets)
    requires FreshInv(s) && Enabled(s, DeliverAppendReply(r, rets)) && LogInv(DoDeliverAppendReply(s, r, rets))
    requires var nd := s.nodes[s.replicators[r].node]; nd.role != Leader || rets.term != nd.currentTerm
    ensures FreshInv(DoDeliverAppendReply(s, r, rets))
  {
    var s' := DoDeliverAppendReply(s, r, rets);
    var mid := SetStatus(s, r, s'.replicators[r].status);
    assert mid.nodes == s.nodes && s'.replicators == mid.replicators;
    StatusKeepsFresh(s, r, s'.replicators[r].status);
    FreshStill(mid, s', s.replicators[r].node);
  }

  lemma FreshAnswer(s: Cluster, r: nat, rets: AppendRets)
    requires FreshInv(s) && Enabled(s, DeliverAppendReply(r, rets)) && CurrentReplicator(s, r)
    requires LogInv(DoDeliverAppendReply(s, r, rets))
    requires var nd := s.nodes[s.replicators[r].node]; nd.role == Leader && rets.term == nd.currentTerm
    ensures FreshInv(DoDeliverAppendReply(s, r, rets)) && OwnBookkeeping(s, DoDeliverAppendReply(s, r, rets), r)
  {
    assert OwnRequests(s, r);
    FreshOwnReply(s, DoDeliverAppendReply(s, r, rets), r);
  }

  // ---- elections -------------------------------------------------------------------------

  lemma SpawnedAt(l: nat, t: nat, n: nat, j: nat)
    requires l < n && j < |Spawned(l, t, n)|
    ensures var rep := Spawned(l, t, n)[j];
      rep == Replicator(l, if j < l then j else j + 1, t, Idle) && rep.follower in Remotes(l, n)
  {
    assert Other(if j < l then j else j + 1, l);
  }

  lemma NothingOfNewTerm(s: Cluster, t: nat)
    requires FreshInv(s) && t !in s.hist.won
    ensures forall q, v {:trigger IsCall(s, q, v, t)} :: !IsCall(s, q, v, t)
    ensures forall r :: 0 <= r < |s.replicators| ==> s.replicators[r].born != t
  {
    forall q: nat, v: nat, u: nat | IsCall(s, q, v, u) ensures u in s.hist.won {
      assert CallOk(s.hist, s.appends[q].params);
    }
    forall r | 0 <= r < |s.replicators| ensures s.replicators[r].born != t {
      assert OwnRequests(s, r);
    }
  }

  lemma WinOneReplicator(s: Cluster, m: VoteReply)
    requires Wf(s) && OneReplicator(s) && Enabled(s, DeliverVoteReply(m)) && IsWin(s, m)
    requires forall r :: 0 <= r < |s.replicators| ==>
               s.replicators[r].born != s.nodes[s.elections[m.election].params.candidateId].currentTerm
    ensures OneReplicator(Next(s, DeliverVoteReply(m)))
  {
    hide Next;
    WinState(s, m);
    var s' := Next(s, DeliverVoteReply(m));
    var c := s.elections[m.election].params.candidateId;
    var spawned := Spawned(c, s.nodes[c].currentTerm, s.Size());
    assert s'.replicators == s.replicators + spawned;
    forall j | 0 <= j < |spawned|
      ensures spawned[j] == Replicator(c, if j < c then j else j + 1, s.nodes[c].currentTerm, Idle)
    {
      SpawnedAt(c, s.nodes[c].currentTerm, s.Size(), j);
    }
  }

  lemma FreshWin(s: Cluster, m: VoteReply)
    requires FreshInv(s) && Enabled(s, DeliverVoteReply(m)) && IsWin(s, m) && SafeSize(s.Size())
    requires LogInv(Next(s, DeliverVoteReply(m)))
    ensures FreshInv(Next(s, DeliverVoteReply(m)))
  {
    hide Next, BecomeLeader, HistOk;
    WinState(s, m);
    NewTermIsFree(s, m);
    var s' := Next(s, DeliverVoteReply(m));
    var c := s.elections[m.election].params.candidateId;
    NothingOfNewTerm(s, s.nodes[c].currentTerm);
    forall r | 0 <= r < |s'.replicators| ensures OwnRequests(s', r) {
      if r < |s.replicators| {
        assert OwnRequests(s, r);
        RequestsStay(s, s', r);
      } else {
        NewReplicatorRequests(s, m, r);
      }
    }
    WinOneReplicator(s, m);
    FreshFrame(s, s');
  }

  /** A new leader starts right after the log it was elected with. */
  lemma NewReplicatorRequests(s: Cluster, m: VoteReply, r: nat)
    requires FreshInv(s) && Enabled(s, DeliverVoteReply(m)) && IsWin(s, m)
    requires var s' := Next(s, DeliverVoteReply(m)); LogInv(s') && |s.replicators| <= r < |s'.replicators|
    ensures var s' := Next(s, DeliverVoteReply(m));
      var rep := s'.replicators[r];
      && OwnRequests(s', r) && At(s'.nodes[rep.node].nextIndex, rep.follower) == s'.hist.won[rep.born].base
      && rep.born == s.nodes[s.elections[m.election].params.candidateId].currentTerm
  {
    hide Next;
    WinState(s, m);
    var c := s.elections[m.election].params.candidateId;
    var nd := s.nodes[c];
    assert NodeLogOk(s.hist, nd);
    RecordedIsShaped(s.hist, nd.log);
    SpawnedAt(c, nd.currentTerm, s.Size(), r - |s.replicators|);
  }

  lemma FreshStep(s: Cluster, ev: Event)
    requires FreshInv(s) && Enabled(s, ev) && FreshReplicator(s, ev) && SafeSize(s.Size())
    ensures FreshInv(Next(s, ev)) && Next(s, ev).Size() == s.Size()
  {
    hide LogInv, VoteInv;
    LogsStep(s, ev);
    match ev
    case DeliverVoteReply(m) => if IsWin(s, m) { FreshWin(s, m); } else { FreshQuiet(s, ev); }
    case DeliverAppend(q) => FreshDeliverAppend(s, q);
    case DeliverAppendReply(r, rets) =>
      var nd := s.nodes[s.replicators[r].node];
      if nd.role == Leader && rets.term == nd.currentTerm {
        FreshAnswer(s, r, rets);
      } else {
        FreshIgnoredReply(s, r, rets);
      }
    case ClientAppend(i, record) => FreshStill(s, DoClientAppend(s, i, record), i);
    case Replicate(r) => FreshReplicate(s, r);
    case AbandonCall(r) => StatusKeepsFresh(s, r, Idle);
    case SendHeartbeat(i, f) => FreshSends(s, DoSendHeartbeat(s, i, f), |s.replicators|);
    case _ => FreshQuiet(s, ev);
  }
}
