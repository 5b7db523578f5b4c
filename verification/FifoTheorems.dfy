/**
 The theorems that need FIFO, stated on runs: matchIndex, quorum counting and leader completeness
 (Raft, sections 5.3 and 5.4). ExactConditions.dfy shows that neither half of FIFO can be dropped.
 */
module FifoTheorems {
  import opened RaftTypes
  import opened RaftStep
  import opened Cluster
  import opened ElectionSafety
  import opened LogMatching
  import opened Leadership
  import opened Replication
  import opened Progress
  import opened Choice
  import opened LeaderCompleteness
  import opened RaftTheorems

  ghost predicate FifoRun(n: nat, run: Run) {
    Under(n, run, true, true)
  }

  lemma {:induction false} RunChoice(n: nat, run: Run, k: nat)
    requires FifoRun(n, run) && k < |run.states|
    ensures ChoiceInv(run.states[k]) && run.states[k].Size() == n
  {
    hide BallotsFresh, Quiet;
    if k == 0 {
      InitChoice(n);
    } else {
      RunChoice(n, run, k - 1);
      assert StepsTo(run.states[k - 1], run.events[k - 1], run.states[k]);
      ChoiceStep(run.states[k - 1], run.events[k - 1]);
    }
  }

  lemma RunFifo(n: nat, run: Run, k: nat)
    requires FifoRun(n, run) && k < |run.states|
    ensures FifoInv(run.states[k]) && run.states[k].Size() == n
  {
    RunChoice(n, run, k);
  }

  lemma {:induction false} RunAcks(n: nat, run: Run, j: nat, k: nat, v: nat, t: nat, p: nat)
    requires FifoRun(n, run) && j <= k < |run.states| && HasAck(run.states[j], v, t, p)
    ensures HasAck(run.states[k], v, t, p)
    decreases k
  {
    hide FifoInv;
    if j < k {
      RunAcks(n, run, j, k - 1, v, t, p);
      RunFifo(n, run, k - 1);
      assert StepsTo(run.states[k - 1], run.events[k - 1], run.states[k]);
      StepAcks(run.states[k - 1], run.events[k - 1], v, t, p);
    }
  }

  /**
   What a leader believes replicated is: once matchIndex is m, the follower holds the leader's
   entries up to m for as long as it stays in that term.
   */
  lemma MatchIndexSound(n: nat, run: Run, j: nat, k: nat, l: nat, f: nat)
    requires FifoRun(n, run) && j <= k < |run.states| && l < n && f < n && f != l
    requires run.states[j].Size() == run.states[k].Size() == n
    requires run.states[j].nodes[l].role == Leader && At(run.states[j].nodes[l].matchIndex, f) > 0
    requires run.states[k].nodes[f].currentTerm == run.states[j].nodes[l].currentTerm
    ensures var m := At(run.states[j].nodes[l].matchIndex, f);
      m < |run.states[j].nodes[l].log| && run.states[j].nodes[l].log[..m + 1] <= run.states[k].nodes[f].log
  {
    hide FifoInv;
    var s, s' := run.states[j], run.states[k];
    var t, m := s.nodes[l].currentTerm, At(s.nodes[l].matchIndex, f);
    MatchedAck(n, run, j, l, f);
    RunLater(n, run, j, k);
    RunAcks(n, run, j, k, f, t, m);
    RunFifo(n, run, k);
    AckedPrefix(s', f, t, m);
    assert s'.hist.tlog[t][..m + 1] == s.hist.tlog[t][..m + 1];
  }

  lemma MatchedAck(n: nat, run: Run, k: nat, l: nat, f: nat)
    requires FifoRun(n, run) && k < |run.states|
    requires var s := run.states[k];
      l < s.Size() && f < s.Size() && f != l && s.nodes[l].role == Leader && At(s.nodes[l].matchIndex, f) > 0
    ensures var s := run.states[k];
      var t, m := s.nodes[l].currentTerm, At(s.nodes[l].matchIndex, f);
      HasAck(s, f, t, m) && t in s.hist.tlog && s.nodes[l].log == s.hist.tlog[t] && m < |s.nodes[l].log|
  {
    RunFifo(n, run, k);
    var s := run.states[k];
    assert MatchOk(s, l) && Other(f, l) && f in Remotes(l, s.Size());
    LeaderLogRecorded(s, l);
    assert AckOk(s, f, s.nodes[l].currentTerm);
  }

  /** Once a follower has accepted an entry from a leadership it rejects none of its later ones. */
  lemma NeverRejectsAfterAccepting(n: nat, run: Run, j: nat, k: nat, q1: nat, q2: nat, f: nat, t: nat)
    requires FifoRun(n, run) && j < k < |run.events|
    requires run.events[j] == DeliverAppend(q1) && run.events[k] == DeliverAppend(q2)
    requires IsCall(run.states[j], q1, f, t) && IsCall(run.states[k], q2, f, t)
    requires f < run.states[j].Size() && OnAppend(run.states[j].nodes[f], run.states[j].appends[q1].params).1.success
    requires f < run.states[k].Size() && run.states[k].nodes[f].currentTerm <= t
    ensures OnAppend(run.states[k].nodes[f], run.states[k].appends[q2].params).1.success
  {
    hide Next, FifoInv;
    RunFifo(n, run, j);
    assert StepsTo(run.states[j], run.events[j], run.states[j + 1]);
    AcceptingAcks(run.states[j], q1, f, t);
    RunAcks(n, run, j + 1, k, f, t, 0);
    RunFifo(n, run, k);
    AckedAccepts(run.states[k], q2, f, t);
  }

  lemma AcceptingAcks(s: Cluster, q: nat, f: nat, t: nat)
    requires FifoInv(s) && Enabled(s, DeliverAppend(q)) && InOrder(s, DeliverAppend(q)) && IsCall(s, q, f, t)
    requires OnAppend(s.nodes[f], s.appends[q].params).1.success
    ensures HasAck(Next(s, DeliverAppend(q)), f, t, 0)
  {
    AcceptTakes(s, q);
  }

  lemma AckedAccepts(s: Cluster, q: nat, f: nat, t: nat)
    requires FifoInv(s) && IsCall(s, q, f, t) && f < s.Size() && (f, t) in s.hist.acked
    requires s.nodes[f].currentTerm <= t
    ensures OnAppend(s.nodes[f], s.appends[q].params).1.success
  {
    var p := s.appends[q].params;
    var nd := s.nodes[f];
    assert AckOk(s, f, t) && CallFifo(s, q) && CallOk(s.hist, p) && NodeLogOk(s.hist, nd);
    AckedPrefix(s, f, t, s.hist.acked[(f, t)]);
    RecordedIsShaped(s.hist, nd.log);
    FindLastShaped(nd.log, p.prevLogIndex);
    assert s.hist.tlog[t][..s.hist.acked[(f, t)] + 1][p.prevLogIndex] == nd.log[p.prevLogIndex];
  }

  ghost predicate AckQuorum(s: Cluster, q: set<nat>, t: nat, p: nat) {
    Quorum(s.Size(), q) && forall v :: v in q ==> HasAck(s, v, t, p)
  }

  lemma CountedAcks(n: nat, run: Run, k: nat, l: nat, p: nat) returns (q: set<nat>)
    requires FifoRun(n, run) && Counts(n, run, k, l, p)
    ensures var s := run.states[k];
      && ChoiceInv(s) && s.Size() == n && s.nodes[l].role == Leader
      && AckQuorum(s, q, s.nodes[l].currentTerm, p) && l in q
      && OwnPosition(s.hist, s.nodes[l].currentTerm, p)
  {
    RunChoice(n, run, k);
    q := QuorumCounted(run.states[k], run.events[k].r, run.events[k].rets);
  }

  /** Whoever is a replica of the position just acknowledged has acknowledged it. */
  lemma ReplicaAcked(s: Cluster, l: nat, f: nat, v: nat)
    requires FifoInv(s) && l < s.Size() && s.nodes[l].role == Leader
    requires var (t, p) := (s.nodes[l].currentTerm, At(s.nodes[l].nextIndex, f));
      p > 0 && HasAck(s, f, t, p) && HasAck(s, l, t, p)
    requires v in Replicas(Acknowledge(s.nodes[l], f), At(s.nodes[l].nextIndex, f))
    ensures v in Ids(s.Size()) && HasAck(s, v, s.nodes[l].currentTerm, At(s.nodes[l].nextIndex, f))
  {
    var nd := s.nodes[l];
    assert MatchOk(s, l) && NodeOk(s, l) && Other(v, s.Size());
    if v != l && v != f {
      assert Other(v, l) && v in Remotes(l, s.Size());
      assert At(Acknowledge(nd, f).matchIndex, v) == At(nd.matchIndex, v);
    }
  }

  lemma ReplicasAck(s: Cluster, l: nat, f: nat) returns (q: set<nat>)
    requires FifoInv(s) && l < s.Size() && f != l && s.nodes[l].role == Leader && s.nodes[l].currentTerm in s.hist.won
    requires var (t, p) := (s.nodes[l].currentTerm, At(s.nodes[l].nextIndex, f));
      && s.hist.won[t].base <= p && HasAck(s, f, t, p)
      && |Replicas(Acknowledge(s.nodes[l], f), p)| >= Threshold(s.nodes[l].size)
    ensures var (t, p) := (s.nodes[l].currentTerm, At(s.nodes[l].nextIndex, f));
      AckQuorum(s, q, t, p) && OwnPosition(s.hist, t, p) && l in q
  {
    var nd := s.nodes[l];
    var t, p := nd.currentTerm, At(nd.nextIndex, f);
    q := Replicas(Acknowledge(nd, f), p);
    assert NodeOk(s, l) && AckOk(s, f, t) && AckOk(s, l, t) && TermLogOk(s.hist, t);
    forall v | v in q ensures v in Ids(s.Size()) && HasAck(s, v, t, p) {
      ReplicaAcked(s, l, f, v);
    }
    assert {l, f} <= q;
    Subset({l, f}, q);
  }

  lemma QuorumCounted(s: Cluster, r: nat, rets: AppendRets) returns (q: set<nat>)
    requires FifoInv(s) && Enabled(s, DeliverAppendReply(r, rets)) && InOrder(s, DeliverAppendReply(r, rets))
    requires CountsQuorum(s.nodes[s.replicators[r].node], s.replicators[r].follower, rets)
    ensures var l := s.replicators[r].node;
      var t, p := s.nodes[l].currentTerm, At(s.nodes[l].nextIndex, s.replicators[r].follower);
      s.nodes[l].role == Leader && AckQuorum(s, q, t, p) && OwnPosition(s.hist, t, p) && l in q
  {
    hide Next;
    AcceptedReply(s, r, rets);
    q := ReplicasAck(s, s.replicators[r].node, s.replicators[r].follower);
  }

  /** Event j gave node v an entry of leadership t, after which it was in t and its log held `log`. */
  ghost predicate TookAt(n: nat, run: Run, j: nat, v: nat, t: nat, log: seq<Entry>)
    requires IsRun(n, run)
  {
    && j < |run.events| && run.events[j].DeliverAppend? && IsCall(run.states[j], run.events[j].q, v, t)
    && var s := run.states[j + 1];
    v < s.Size() && s.nodes[v].currentTerm == t && log <= s.nodes[v].log
  }

  ghost predicate TookBefore(n: nat, run: Run, k: nat, v: nat, t: nat, log: seq<Entry>)
    requires IsRun(n, run)
  {
    exists j :: 0 <= j < k && TookAt(n, run, j, v, t, log)
  }

  /** An acknowledgement of a follower goes back to one delivery. */
  lemma {:induction false} AckOrigin(n: nat, run: Run, k: nat, v: nat, t: nat, p: nat) returns (j: nat)
    requires FifoRun(n, run) && k < |run.states| && HasAck(run.states[k], v, t, p)
    requires t in run.states[k].hist.won && v != run.states[k].hist.won[t].leader
    ensures t in run.states[k].hist.tlog && p < |run.states[k].hist.tlog[t]|
    ensures j < k && TookAt(n, run, j, v, t, run.states[k].hist.tlog[t][..p + 1])
  {
    if k > 0 && HasAck(run.states[k - 1], v, t, p) {
      EarlierAck(n, run, k, v, t);
      j := AckOrigin(n, run, k - 1, v, t, p);
      assert run.states[k - 1].hist.tlog[t][..p + 1] == run.states[k].hist.tlog[t][..p + 1];
    } else {
      FirstAck(n, run, k, v, t, p);
      j := k - 1;
    }
  }

  lemma FirstAck(n: nat, run: Run, k: nat, v: nat, t: nat, p: nat)
    requires FifoRun(n, run) && k < |run.states| && HasAck(run.states[k], v, t, p)
    requires k > 0 ==> !HasAck(run.states[k - 1], v, t, p)
    requires t in run.states[k].hist.won && v != run.states[k].hist.won[t].leader
    ensures t in run.states[k].hist.tlog && p < |run.states[k].hist.tlog[t]|
    ensures k > 0 && TookAt(n, run, k - 1, v, t, run.states[k].hist.tlog[t][..p + 1])
  {
    RunFifo(n, run, k);
    assert AckOk(run.states[k], v, t);
    assert StepsTo(run.states[k - 1], run.events[k - 1], run.states[k]);
    RunFifo(n, run, k - 1);
    var ev := run.events[k - 1];
    if !ev.DeliverAppend? {
      OnlyDeliveriesAck(run.states[k - 1], ev, v, t, p);
    }
    DeliveryAcks(run.states[k - 1], ev.q, v, t, p);
    AckedPrefix(run.states[k], v, t, p);
  }

  lemma EarlierAck(n: nat, run: Run, k: nat, v: nat, t: nat)
    requires FifoRun(n, run) && 0 < k < |run.states| && (v, t) in run.states[k - 1].hist.acked
    ensures HistGrows(run.states[k - 1].hist, run.states[k].hist)
    ensures t in run.states[k - 1].hist.won && t in run.states[k - 1].hist.tlog
  {
    RunLater(n, run, k - 1, k);
    RunFifo(n, run, k - 1);
    assert AckOk(run.states[k - 1], v, t);
  }

  /** A node other than the leader acknowledges only by taking an entry. */
  lemma OnlyDeliveriesAck(s: Cluster, ev: Event, v: nat, t: nat, p: nat)
    requires FifoInv(s) && Enabled(s, ev) && SafeSize(s.Size()) && !ev.DeliverAppend?
    requires t in Next(s, ev).hist.won && v != Next(s, ev).hist.won[t].leader
    ensures HasAck(Next(s, ev), v, t, p) ==> HasAck(s, v, t, p)
  {
    hide Next, HistOk, VoteInv;
    if Quiet(s, ev) {
      QuietAdvances(s, ev);
    } else if ev.ClientAppend? {
      NodeFacts(s, ev.i);
      ClientState(s, ev.i, ev.record);
    } else {
      WinState(s, ev.reply);
    }
  }

  lemma DeliveryAcks(s: Cluster, q: nat, v: nat, t: nat, p: nat)
    requires FifoInv(s) && Enabled(s, DeliverAppend(q)) && InOrder(s, DeliverAppend(q))
    requires HasAck(DoDeliverAppend(s, q), v, t, p) && !HasAck(s, v, t, p)
    ensures IsCall(s, q, v, t) && v < s.Size() && DoDeliverAppend(s, q).nodes[v].currentTerm == t
  {
    var c := s.appends[q];
    if !IsHeartbeat(c.params) && OnAppend(s.nodes[c.to], c.params).1.success {
      AcceptTakes(s, q);
    }
  }

  /** Whenever a position is counted, a quorum of nodes had taken the leader's log up to it. */
  lemma CountedQuorum(n: nat, run: Run, k: nat, l: nat, p: nat) returns (q: set<nat>)
    requires FifoRun(n, run) && Counts(n, run, k, l, p)
    ensures run.states[k].Size() == n && Quorum(n, q) && l in q
    ensures var nd := run.states[k].nodes[l];
      && nd.role == Leader && p < |nd.log|
      && forall v :: v in q && v != l ==> TookBefore(n, run, k, v, nd.currentTerm, nd.log[..p + 1])
  {
    q := CountedAcks(n, run, k, l, p);
    OwnTermCommit(n, run, k, l, p);
    var nd := run.states[k].nodes[l];
    forall v | v in q && v != l
      ensures TookBefore(n, run, k, v, nd.currentTerm, nd.log[..p + 1])
    {
      var j := AckerTook(n, run, k, l, v, p);
    }
  }

  lemma AckerTook(n: nat, run: Run, k: nat, l: nat, v: nat, p: nat) returns (j: nat)
    requires FifoRun(n, run) && k < |run.states| && l < run.states[k].Size() && v != l
    requires var nd := run.states[k].nodes[l];
      nd.role == Leader && HasAck(run.states[k], v, nd.currentTerm, p) && p < |nd.log|
    ensures var nd := run.states[k].nodes[l];
      j < k && TookAt(n, run, j, v, nd.currentTerm, nd.log[..p + 1])
  {
    RunLogs(n, run, k);
    LeaderLogRecorded(run.states[k], l);
    assert NodeOk(run.states[k], l);
    j := AckOrigin(n, run, k, v, run.states[k].nodes[l].currentTerm, p);
  }

  /** A counted position stays accepted by its quorum, and the record keeps what the leader held. */
  lemma CountedLasts(n: nat, run: Run, j: nat, k: nat, l: nat, p: nat) returns (q: set<nat>)
    requires FifoRun(n, run) && Counts(n, run, j, l, p) && j < k < |run.states|
    ensures run.states[j].Size() == run.states[k].Size() == n
    ensures var nd, s' := run.states[j].nodes[l], run.states[k];
      && AckQuorum(s', q, nd.currentTerm, p) && OwnPosition(s'.hist, nd.currentTerm, p)
      && p < |nd.log| && nd.log[..p + 1] == s'.hist.tlog[nd.currentTerm][..p + 1]
  {
    q := CountedAcks(n, run, j, l, p);
    RunLater(n, run, j, k);
    var s, s' := run.states[j], run.states[k];
    var t := s.nodes[l].currentTerm;
    LeaderLogRecorded(s, l);
    forall v | v in q ensures HasAck(s', v, t, p) {
      RunAcks(n, run, j, k, v, t, p);
    }
    assert s'.hist.tlog[t][..p + 1] == s.hist.tlog[t][..p + 1];
  }

  /** The same at the level of one state: every leader from term t on holds what a quorum accepted. */
  lemma LaterLeadersHold(s: Cluster, q: set<nat>, t: nat, p: nat, b: nat)
    requires ChoiceInv(s) && AckQuorum(s, q, t, p) && OwnPosition(s.hist, t, p)
    requires b < s.Size() && s.nodes[b].role == Leader && t <= s.nodes[b].currentTerm
    ensures s.hist.tlog[t][..p + 1] <= s.nodes[b].log
  {
    LeaderLogRecorded(s, b);
    if t < s.nodes[b].currentTerm {
      assert CouldChoose(s, q, t, p) by {
        forall v | v in q ensures Could(s, v, t, p) {
          assert AckOk(s, v, t);
        }
      }
      assert LaterLeaderHolds(s, t, s.nodes[b].currentTerm, p);
    }
  }

  /** Every leader of a later (or the same) term holds a counted position and the whole log below it. */
  lemma LeaderCompletenessHolds(n: nat, run: Run, j: nat, k: nat, l: nat, p: nat, b: nat)
    requires FifoRun(n, run) && Counts(n, run, j, l, p) && j < k < |run.states| && b < n
    requires run.states[j].Size() == run.states[k].Size() == n
    requires run.states[k].nodes[b].role == Leader
    requires run.states[j].nodes[l].currentTerm <= run.states[k].nodes[b].currentTerm
    ensures p < |run.states[j].nodes[l].log|
    ensures run.states[j].nodes[l].log[..p + 1] <= run.states[k].nodes[b].log
  {
    var q := CountedLasts(n, run, j, k, l, p);
    RunChoice(n, run, k);
    LaterLeadersHold(run.states[k], q, run.states[j].nodes[l].currentTerm, p, b);
  }

  /** What a leader's commit index rises to, every leader of a later (or the same) term holds. */
  lemma CommittedIsHeld(n: nat, run: Run, j: nat, k: nat, l: nat, b: nat)
    requires FifoRun(n, run) && j < k < |run.states| && l < n && b < n
    requires run.states[j].Size() == run.states[j + 1].Size() == run.states[k].Size() == n
    requires run.states[j].nodes[l].role == run.states[j + 1].nodes[l].role == run.states[k].nodes[b].role == Leader
    requires run.states[j + 1].nodes[l].commitIndex != run.states[j].nodes[l].commitIndex
    requires run.states[j].nodes[l].currentTerm <= run.states[k].nodes[b].currentTerm
    ensures var (nd, p) := (run.states[j].nodes[l], run.states[j + 1].nodes[l].commitIndex);
      p < |nd.log| && nd.log[..p + 1] <= run.states[k].nodes[b].log
  {
    LeaderCommitsCounted(n, run, j, l);
    LeaderCompletenessHolds(n, run, j, k, l, run.states[j + 1].nodes[l].commitIndex, b);
  }

  /** Two leaders' counted prefixes never disagree. */
  lemma CountedPrefixesAgree(n: nat, run: Run, j: nat, k: nat, a: nat, b: nat, p: nat, p': nat)
    requires FifoRun(n, run) && j < k && Counts(n, run, j, a, p) && Counts(n, run, k, b, p')
    ensures var la, lb := run.states[j].nodes[a].log, run.states[k].nodes[b].log;
      var m := Min(p, p');
      m < |la| && m < |lb| && la[..m + 1] == lb[..m + 1]
  {
    OwnTermCommit(n, run, j, a, p);
    OwnTermCommit(n, run, k, b, p');
    var la, lb := run.states[j].nodes[a].log, run.states[k].nodes[b].log;
    var ta, tb := run.states[j].nodes[a].currentTerm, run.states[k].nodes[b].currentTerm;
    var m := Min(p, p');
    if ta <= tb {
      LeaderCompletenessHolds(n, run, j, k, a, p, b);
      assert la[..m + 1] == la[..p + 1][..m + 1] == lb[..m + 1];
    } else {
      EarlierTermCountedLater(n, run, j, k, a, b, p, p');
    }
  }

  /** A leader of an earlier term may count after a later one was elected; they agree all the same. */
  lemma EarlierTermCountedLater(n: nat, run: Run, j: nat, k: nat, a: nat, b: nat, p: nat, p': nat)
    requires FifoRun(n, run) && j < k && Counts(n, run, j, a, p) && Counts(n, run, k, b, p')
    requires run.states[k].nodes[b].currentTerm < run.states[j].nodes[a].currentTerm
    ensures var la, lb := run.states[j].nodes[a].log, run.states[k].nodes[b].log;
      var m := Min(p, p');
      m < |la| && m < |lb| && la[..m + 1] == lb[..m + 1]
  {
    var q' := CountedAcks(n, run, k, b, p');
    RunLogs(n, run, j);
    OwnTermCommit(n, run, j, a, p);
    OwnTermCommit(n, run, k, b, p');
    RunLater(n, run, j, k);
    var s, s' := run.states[j], run.states[k];
    assert NodeLogOk(s.hist, s.nodes[a]) && NodeOk(s, a);
    var ta := s.nodes[a].currentTerm;
    CountedHeldLater(s', q', b, p', ta);
    PrefixesAgree(s.nodes[a].log, s'.nodes[b].log, s'.hist.tlog[ta], p, p');
  }

  lemma PrefixesAgree(la: seq<Entry>, lb: seq<Entry>, whole: seq<Entry>, p: nat, p': nat)
    requires la <= whole && p < |la| && p' < |lb| && lb[..p' + 1] <= whole
    ensures var m := Min(p, p'); m < |la| && m < |lb| && la[..m + 1] == lb[..m + 1]
  {
    var m := Min(p, p');
    assert lb[..m + 1] == lb[..p' + 1][..m + 1] == whole[..m + 1];
    assert la[..m + 1] == whole[..m + 1];
  }

  lemma CountedHeldLater(s: Cluster, q: set<nat>, b: nat, p: nat, t': nat)
    requires ChoiceInv(s) && b < s.Size() && s.nodes[b].role == Leader && p < |s.nodes[b].log|
    requires AckQuorum(s, q, s.nodes[b].currentTerm, p) && OwnPosition(s.hist, s.nodes[b].currentTerm, p)
    requires s.nodes[b].currentTerm < t' && t' in s.hist.won
    ensures t' in s.hist.tlog && s.nodes[b].log[..p + 1] <= s.hist.tlog[t']
  {
    var t := s.nodes[b].currentTerm;
    assert NodeLogOk(s.hist, s.nodes[b]);
    forall v | v in q ensures Could(s, v, t, p) {
      assert AckOk(s, v, t);
    }
    assert CouldChoose(s, q, t, p);
    assert LaterLeaderHolds(s, t, t', p);
  }
}
