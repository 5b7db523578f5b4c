/**
 Log shape, leader append-only and log matching (Raft, section 5.3). Every entry of term t was
 written by the one leader of t, whose log only grew; so an entry of term t at position k fixes
 the whole log up to k, in every log of the cluster, however requests are lost, repeated or
 reordered.
 */
module LogMatching {
  import opened RaftTypes
  import opened RaftStep
  import opened Cluster
  import opened ElectionSafety

  ghost predicate Shaped(log: seq<Entry>) {
    && |log| > 0 && log[0] == SENTINEL
    && (forall i :: 0 <= i < |log| ==> log[i].index == i && log[i].op != OP_HEARTBEAT)
    && (forall i, j :: 0 <= i <= j < |log| ==> log[i].term <= log[j].term)
  }

  /** `log` is the beginning of what the leader of its last term had. */
  ghost predicate Recorded(h: History, log: seq<Entry>) {
    && |log| > 0 && LastTerm(log) in h.tlog
    && log <= h.tlog[LastTerm(log)]
  }

  ghost predicate TermLogOk(h: History, t: nat)
    requires t in h.tlog
  {
    var log := h.tlog[t];
    && Shaped(log) && LastTerm(log) == t
    && (forall k {:trigger Recorded(h, log[..k])} :: 0 < k <= |log| ==> Recorded(h, log[..k]))
    && (t in h.won ==>
          && 1 <= h.won[t].base < |log|
          && (forall i :: 0 <= i < |log| ==> (log[i].term == t <==> h.won[t].base <= i)))
  }

  ghost predicate HistOk(h: History) {
    && 0 in h.tlog && h.tlog[0] == [SENTINEL] && 0 !in h.won
    && (forall t :: t in h.tlog && t != 0 ==> t in h.won)
    && (forall t :: t in h.won ==> t in h.tlog)
    && (forall t {:trigger TermLogOk(h, t)} :: t in h.tlog ==> TermLogOk(h, t))
  }

  ghost predicate NodeLogOk(h: History, nd: Node) {
    && Recorded(h, nd.log) && LastTerm(nd.log) <= nd.currentTerm
    && (nd.role == Candidate ==> LastTerm(nd.log) < nd.currentTerm)
    && (nd.role == Leader ==>
          && nd.currentTerm in h.tlog && nd.log == h.tlog[nd.currentTerm]
          && (forall f :: f in Remotes(nd.id, nd.size) ==> f in nd.nextIndex && nd.nextIndex[f] >= 1))
  }

  ghost predicate CallOk(h: History, p: AppendParams) {
    && p.term in h.won && h.won[p.term].leader == p.leaderId
    && (!IsHeartbeat(p) ==>
          && p.term in h.tlog && p.prevLogIndex + 1 < |h.tlog[p.term]|
          && p.entry == h.tlog[p.term][p.prevLogIndex + 1]
          && p.prevLogTerm == h.tlog[p.term][p.prevLogIndex].term)
  }

  ghost predicate LogInv(s: Cluster) {
    && VoteInv(s)
    && HistOk(s.hist)
    && (forall i {:trigger NodeLogOk(s.hist, s.nodes[i])} :: 0 <= i < s.Size() ==> NodeLogOk(s.hist, s.nodes[i]))
    && (forall q {:trigger CallOk(s.hist, s.appends[q].params)} ::
          0 <= q < |s.appends| ==> CallOk(s.hist, s.appends[q].params))
  }

  // ---- consequences of the shape ---------------------------------------------------------

  lemma {:induction false} FindLastShaped(log: seq<Entry>, k: nat)
    requires forall i :: 0 <= i < |log| ==> log[i].index == i
    ensures FindLast(log, k) == if k < |log| then k else -1
  {
    var at := FindLast(log, k);
    if k < |log| {
      assert log[k].index == k;
    }
  }

  lemma RecordedIsShaped(h: History, log: seq<Entry>)
    requires HistOk(h) && Recorded(h, log)
    ensures Shaped(log) && LastIndex(log) == |log| - 1
  {
    assert TermLogOk(h, LastTerm(log));
    var whole := h.tlog[LastTerm(log)];
    assert forall i :: 0 <= i < |log| ==> log[i] == whole[i];
  }

  lemma RecordedPrefix(h: History, log: seq<Entry>, k: nat)
    requires HistOk(h) && Recorded(h, log) && 0 < k <= |log|
    ensures Recorded(h, log[..k])
  {
    assert TermLogOk(h, LastTerm(log));
    assert log[..k] == h.tlog[LastTerm(log)][..k];
  }

  /** An accepted request makes the follower's log the beginning of the sender's. */
  lemma SplicedIsLeaderPrefix(h: History, log: seq<Entry>, p: AppendParams)
    requires HistOk(h) && Recorded(h, log) && CallOk(h, p) && !IsHeartbeat(p)
    requires Matches(log, p.prevLogIndex, p.prevLogTerm)
    ensures Spliced(log, p.entry, p.prevLogIndex, p.prevLogTerm) == h.tlog[p.term][..p.prevLogIndex + 2]
    ensures log[..p.prevLogIndex + 1] == h.tlog[p.term][..p.prevLogIndex + 1]
  {
    var k := p.prevLogIndex;
    RecordedIsShaped(h, log);
    FindLastShaped(log, k);
    assert TermLogOk(h, p.term);
    RecordedPrefix(h, log, k + 1);
    assert Recorded(h, h.tlog[p.term][..k + 1]);
    SameLast(h, log[..k + 1], h.tlog[p.term][..k + 1]);
  }

  lemma SameLast(h: History, a: seq<Entry>, b: seq<Entry>)
    requires Recorded(h, a) && Recorded(h, b) && |a| == |b| && LastTerm(a) == LastTerm(b)
    ensures a == b
  {
    var whole := h.tlog[LastTerm(a)];
    assert a == whole[..|a|] && b == whole[..|b|];
  }

  // ---- preservation ----------------------------------------------------------------------

  ghost predicate HistGrows(h: History, h': History) {
    && (forall t :: t in h.tlog ==> t in h'.tlog && h.tlog[t] <= h'.tlog[t])
    && (forall t :: t in h.won ==> t in h'.won && h'.won[t] == h.won[t])
  }

  lemma RecordedGrows(h: History, h': History, log: seq<Entry>)
    requires HistGrows(h, h') && Recorded(h, log)
    ensures Recorded(h', log)
  {
  }

  lemma CallGrows(h: History, h': History, p: AppendParams)
    requires HistGrows(h, h') && CallOk(h, p)
    ensures CallOk(h', p)
  {
  }

  ghost predicate SameTermLog(h: History, h': History, t: nat) {
    t in h.tlog ==> t in h'.tlog && h'.tlog[t] == h.tlog[t]
  }

  lemma IsWf(s: Cluster)
    requires LogInv(s)
    ensures Wf(s)
  {
  }

  lemma NodeFacts(s: Cluster, i: nat)
    requires LogInv(s) && i < s.Size()
    ensures Wf(s) && NodeOk(s, i) && NodeLogOk(s.hist, s.nodes[i])
  {
  }

  lemma TermFacts(s: Cluster, t: nat)
    requires LogInv(s) && t in s.hist.tlog
    ensures TermLogOk(s.hist, t)
  {
  }

  lemma LogsFrame(s: Cluster, s': Cluster, i: nat)
    requires LogInv(s) && VoteInv(s') && HistOk(s'.hist) && HistGrows(s.hist, s'.hist)
    requires i < s.Size() == s'.Size() && s'.nodes == s.nodes[i := s'.nodes[i]]
    requires NodeLogOk(s'.hist, s'.nodes[i])
    requires forall j :: 0 <= j < s.Size() && j != i && s.nodes[j].role == Leader ==>
               SameTermLog(s.hist, s'.hist, s.nodes[j].currentTerm)
    requires forall q :: 0 <= q < |s'.appends| ==>
               (q < |s.appends| && s'.appends[q] == s.appends[q]) || CallOk(s'.hist, s'.appends[q].params)
    ensures LogInv(s')
  {
    forall j | 0 <= j < s'.Size() ensures NodeLogOk(s'.hist, s'.nodes[j]) {
      assert NodeLogOk(s.hist, s.nodes[j]);
      RecordedGrows(s.hist, s'.hist, s.nodes[j].log);
    }
    forall q | 0 <= q < |s'.appends| ensures CallOk(s'.hist, s'.appends[q].params) {
      if q < |s.appends| && s'.appends[q] == s.appends[q] {
        CallGrows(s.hist, s'.hist, s.appends[q].params);
      }
    }
  }

  lemma InitLogs(n: nat)
    requires 1 <= n < NO_ID
    ensures LogInv(Init(n))
  {
    InitVotes(n);
    var h := Init(n).hist;
    assert forall k :: 0 < k <= 1 ==> [SENTINEL][..k] == [SENTINEL];
    assert TermLogOk(h, 0);
  }

  /** A change of a node that leaves its log alone. */
  ghost predicate QuietMove(nd: Node, nd': Node) {
    && nd'.id == nd.id && nd'.size == nd.size && nd'.log == nd.log
    && nd.currentTerm <= nd'.currentTerm
    && (nd'.role == Candidate && nd.currentTerm == nd'.currentTerm ==> nd.role == Candidate)
    && (nd'.role == Leader ==>
          && nd.role == Leader && nd'.currentTerm == nd.currentTerm
          && forall f :: f in nd.nextIndex && nd.nextIndex[f] >= 1 ==> f in nd'.nextIndex && nd'.nextIndex[f] >= 1)
  }

  lemma QuietNode(h: History, nd: Node, nd': Node)
    requires NodeLogOk(h, nd) && QuietMove(nd, nd')
    ensures NodeLogOk(h, nd')
  {
  }

  lemma QuietReply(s: Cluster, m: VoteReply)
    requires Enabled(s, DeliverVoteReply(m)) && !IsWin(s, m)
    ensures var c := s.elections[m.election].params.candidateId;
      var s' := Next(s, DeliverVoteReply(m));
      s'.nodes == s.nodes[c := s'.nodes[c]] && QuietMove(s.nodes[c], s'.nodes[c])
      && s'.appends == s.appends && s'.hist == s.hist
  {
  }

  lemma QuietAppendReply(nd: Node, f: nat, rets: AppendRets)
    ensures QuietMove(nd, OnAppendReply(nd, f, rets).0)
  {
  }

  lemma QuietEvent(s: Cluster, ev: Event) returns (i: nat)
    requires Wf(s) && Enabled(s, ev)
    requires ev.ElectionTimeout? || ev.StartElection? || ev.DeliverVote? || ev.DeliverAppendReply?
          || (ev.DeliverVoteReply? && !IsWin(s, ev.reply))
    ensures var s' := Next(s, ev);
      i < s.Size() == s'.Size() && s'.nodes == s.nodes[i := s'.nodes[i]] && QuietMove(s.nodes[i], s'.nodes[i])
      && s'.appends == s.appends && s'.hist.tlog == s.hist.tlog && s'.hist.won == s.hist.won
  {
    hide Wf, DoReplicate, DoDeliverAppend;
    match ev
    case ElectionTimeout(j) => i := j;
    case StartElection(j) => i := j;
    case DeliverVote(e, v) => i := v;
    case DeliverVoteReply(m) =>
      QuietReply(s, m);
      i := s.elections[m.election].params.candidateId;
    case DeliverAppendReply(r, rets) =>
      i := s.replicators[r].node;
      QuietAppendReply(s.nodes[i], s.replicators[r].follower, rets);
  }

  /** Events that leave every log and the record of logs alone. */
  lemma LogsQuiet(s: Cluster, ev: Event)
    requires LogInv(s) && Enabled(s, ev) && SafeSize(s.Size())
    requires ev.ElectionTimeout? || ev.StartElection? || ev.DeliverVote? || ev.DeliverAppendReply?
          || (ev.DeliverVoteReply? && !IsWin(s, ev.reply))
    ensures LogInv(Next(s, ev))
  {
    VotesStep(s, ev);
    var s' := Next(s, ev);
    var i := QuietEvent(s, ev);
    QuietNode(s.hist, s.nodes[i], s'.nodes[i]);
    HistQuiet(s.hist, s'.hist);
    QuietNode(s'.hist, s.nodes[i], s'.nodes[i]);
    LogsFrame(s, s', i);
  }

  lemma HistQuiet(h: History, h': History)
    requires HistOk(h) && h'.tlog == h.tlog && h'.won == h.won
    ensures HistOk(h') && HistGrows(h, h')
  {
    forall t | t in h'.tlog ensures TermLogOk(h', t) {
      assert TermLogOk(h, t);
      forall k | 0 < k <= |h'.tlog[t]| ensures Recorded(h', h'.tlog[t][..k]) {
        assert Recorded(h, h.tlog[t][..k]);
      }
    }
  }

  lemma LogsSend(s: Cluster, ev: Event)
    requires LogInv(s) && Enabled(s, ev) && SafeSize(s.Size())
    requires ev.Replicate? || ev.AbandonCall? || ev.SendHeartbeat?
    ensures LogInv(Next(s, ev))
  {
    hide Next;
    VotesStep(s, ev);
    var s' := Next(s, ev);
    SendEffects(s, ev);
    assert s'.nodes == s.nodes[0 := s'.nodes[0]];
    assert NodeLogOk(s.hist, s.nodes[0]);
    SentCalls(s, ev);
    LogsFrame(s, s', 0);
  }

  lemma SentCalls(s: Cluster, ev: Event)
    requires LogInv(s) && Enabled(s, ev) && (ev.Replicate? || ev.AbandonCall? || ev.SendHeartbeat?)
    ensures var s' := Next(s, ev);
      forall q :: 0 <= q < |s'.appends| ==>
        (q < |s.appends| && s'.appends[q] == s.appends[q]) || CallOk(s.hist, s'.appends[q].params)
  {
    var s' := Next(s, ev);
    if |s'.appends| > |s.appends| {
      var l, f := if ev.Replicate? then s.replicators[ev.r].node else ev.i,
                  if ev.Replicate? then s.replicators[ev.r].follower else ev.f;
      assert Other(f, l);
      SentCallOk(s, l, f, s'.appends[|s.appends|].params.entry);
    }
  }

  lemma SentCallOk(s: Cluster, l: nat, f: nat, e: Entry)
    requires LogInv(s) && l < s.Size() && s.nodes[l].role == Leader && f in Remotes(l, s.Size())
    requires e == HEARTBEAT_ENTRY || (e == NextEntry(s.nodes[l], f) && e.op != OP_NULL)
    ensures CallOk(s.hist, AppendRequest(s.nodes[l], f, e))
  {
    assert NodeOk(s, l) && NodeLogOk(s.hist, s.nodes[l]);
  }

  lemma AppendedShape(log: seq<Entry>, e: Entry)
    requires Shaped(log) && LastTerm(log) <= e.term && e.op != OP_HEARTBEAT
    ensures Shaped(Appended(log, e)) && LastTerm(Appended(log, e)) == e.term
    ensures LastIndex(log) == |log| - 1
  {
  }

  /** Term logs stay recorded when the record grows. */
  lemma PrefixesGrow(h: History, h': History, u: nat)
    requires HistOk(h) && HistGrows(h, h') && u in h.tlog
    ensures forall k {:trigger Recorded(h', h.tlog[u][..k])} :: 0 < k <= |h.tlog[u]| ==> Recorded(h', h.tlog[u][..k])
  {
    assert TermLogOk(h, u);
    forall k | 0 < k <= |h.tlog[u]| ensures Recorded(h', h.tlog[u][..k]) {
      assert Recorded(h, h.tlog[u][..k]);
    }
  }

  lemma OtherTermLog(h: History, h': History, u: nat)
    requires HistOk(h) && HistGrows(h, h') && u in h.tlog && h'.tlog[u] == h.tlog[u]
    requires u in h'.won ==> u in h.won
    ensures TermLogOk(h', u)
  {
    assert TermLogOk(h, u);
    PrefixesGrow(h, h', u);
  }

  lemma ExtendedTermLog(h: History, h': History, t: nat, e: Entry)
    requires HistOk(h) && HistGrows(h, h') && t in h.won && t in h.tlog && e.term == t && e.op != OP_HEARTBEAT
    requires h'.tlog[t] == Appended(h.tlog[t], e)
    ensures TermLogOk(h', t)
  {
    assert TermLogOk(h, t);
    var log, log' := h.tlog[t], h'.tlog[t];
    AppendedShape(log, e);
    PrefixesGrow(h, h', t);
    forall k | 0 < k <= |log'| ensures Recorded(h', log'[..k]) {
      if k <= |log| {
        assert log'[..k] == log[..k];
        assert Recorded(h', log[..k]);
      } else {
        assert log'[..k] == log';
      }
    }
  }

  lemma ExtendTermLog(h: History, h': History, t: nat, e: Entry)
    requires HistOk(h) && t in h.won && t in h.tlog && e.term == t && e.op != OP_HEARTBEAT
    requires h'.won == h.won && h'.tlog == h.tlog[t := Appended(h.tlog[t], e)]
    ensures HistOk(h') && HistGrows(h, h')
  {
    forall u | u in h'.tlog ensures TermLogOk(h', u) {
      if u == t {
        ExtendedTermLog(h, h', t, e);
      } else {
        OtherTermLog(h, h', u);
      }
    }
  }

  lemma FirstTermLog(h: History, h': History, log: seq<Entry>, t: nat, e: Entry)
    requires HistOk(h) && HistGrows(h, h') && Recorded(h, log) && LastTerm(log) < t
    requires e.term == t && e.op != OP_HEARTBEAT
    requires t in h'.won && h'.won[t].base == |log| && t in h'.tlog && h'.tlog[t] == Appended(log, e)
    ensures TermLogOk(h', t)
  {
    RecordedIsShaped(h, log);
    var log' := h'.tlog[t];
    AppendedShape(log, e);
    forall k | 0 < k <= |log'| ensures Recorded(h', log'[..k]) {
      if k <= |log| {
        RecordedPrefix(h, log, k);
        assert log'[..k] == log[..k];
      } else {
        assert log'[..k] == log';
      }
    }
  }

  lemma NewTermLog(h: History, h': History, log: seq<Entry>, t: nat, e: Entry, w: Win)
    requires HistOk(h) && Recorded(h, log) && LastTerm(log) < t && t !in h.won
    requires e.term == t && e.op != OP_HEARTBEAT && w.base == |log|
    requires h'.won == h.won[t := w] && h'.tlog == h.tlog[t := Appended(log, e)]
    ensures HistOk(h') && HistGrows(h, h')
  {
    assert HistGrows(h, h');
    forall u | u in h'.tlog ensures TermLogOk(h', u) {
      if u == t {
        FirstTermLog(h, h', log, t, e);
      } else {
        OtherTermLog(h, h', u);
      }
    }
  }

  lemma WinnerLogOk(h: History, nd: Node)
    requires nd.currentTerm in h.tlog && h.tlog[nd.currentTerm] == Appended(nd.log, NoOp(nd.currentTerm))
    ensures NodeLogOk(h, BecomeLeader(nd))
  {
  }

  /** The new leader's log starts the record of its term; nothing else of the record changes. */
  lemma WinHistory(s: Cluster, m: VoteReply)
    requires LogInv(s) && Enabled(s, DeliverVoteReply(m)) && IsWin(s, m)
    requires s.nodes[s.elections[m.election].params.candidateId].currentTerm !in s.hist.won
    ensures var s' := Next(s, DeliverVoteReply(m));
      HistOk(s'.hist) && HistGrows(s.hist, s'.hist)
      && NodeLogOk(s'.hist, s'.nodes[s.elections[m.election].params.candidateId])
  {
    hide Next, BecomeLeader;
    WinState(s, m);
    var h', nd := Next(s, DeliverVoteReply(m)).hist, s.nodes[s.elections[m.election].params.candidateId];
    assert NodeLogOk(s.hist, nd);
    NewTermLog(s.hist, h', nd.log, nd.currentTerm, NoOp(nd.currentTerm), h'.won[nd.currentTerm]);
    WinnerLogOk(h', nd);
  }

  lemma LogsWin(s: Cluster, m: VoteReply)
    requires LogInv(s) && Enabled(s, DeliverVoteReply(m)) && IsWin(s, m) && SafeSize(s.Size())
    ensures LogInv(Next(s, DeliverVoteReply(m)))
  {
    hide Next, BecomeLeader, HistOk, NodeLogOk;
    VotesStep(s, DeliverVoteReply(m));
    NewTermIsFree(s, m);
    WinState(s, m);
    WinHistory(s, m);
    var s' := Next(s, DeliverVoteReply(m));
    var c := s.elections[m.election].params.candidateId;
    forall j | 0 <= j < s.Size() && j != c && s.nodes[j].role == Leader
      ensures SameTermLog(s.hist, s'.hist, s.nodes[j].currentTerm)
    {
      assert NodeOk(s, j);
    }
    LogsFrame(s, s', c);
  }

  lemma ClientState(s: Cluster, i: nat, record: Record)
    requires Enabled(s, ClientAppend(i, record))
    ensures var s' := Next(s, ClientAppend(i, record));
      var (nd, t) := (s.nodes[i], s.nodes[i].currentTerm);
      && s'.nodes == s.nodes[i := OnClientAppend(nd, record)] && s'.appends == s.appends
      && s'.hist.won == s.hist.won && s'.hist.tlog == s.hist.tlog[t := Appended(nd.log, RegisterEntry(t, record))]
      && s'.hist.ballots == s.hist.ballots && s'.hist.acked == s.hist.acked[(i, t) := |nd.log|]
  {
  }

  lemma LogsClientAppend(s: Cluster, i: nat, record: Record)
    requires LogInv(s) && Enabled(s, ClientAppend(i, record)) && SafeSize(s.Size())
    ensures LogInv(Next(s, ClientAppend(i, record)))
  {
    hide Next, DoClientAppend;
    VotesStep(s, ClientAppend(i, record));
    ClientState(s, i, record);
    var s' := Next(s, ClientAppend(i, record));
    var nd := s.nodes[i];
    assert NodeLogOk(s.hist, nd) && NodeOk(s, i);
    var t := nd.currentTerm;
    ExtendTermLog(s.hist, s'.hist, t, RegisterEntry(t, record));
    forall j | 0 <= j < s.Size() && j != i && s.nodes[j].role == Leader
      ensures SameTermLog(s.hist, s'.hist, s.nodes[j].currentTerm)
    {
      assert NodeOk(s, j);
    }
    var log' := s'.nodes[i].log;
    assert LastTerm(log') == t;
    LogsFrame(s, s', i);
  }

  lemma LogsDeliverAppend(s: Cluster, q: nat)
    requires LogInv(s) && Enabled(s, DeliverAppend(q)) && SafeSize(s.Size())
    ensures LogInv(Next(s, DeliverAppend(q)))
  {
    hide OnAppend;
    VotesStep(s, DeliverAppend(q));
    var s' := Next(s, DeliverAppend(q));
    var i, p := s.appends[q].to, s.appends[q].params;
    HistQuiet(s.hist, s'.hist);
    assert NodeOk(s, i) && CallOk(s.hist, p);
    FollowerLog(s.hist, s.nodes[i], p);
    LogsFrame(s, s', i);
  }

  /** What a node's log is after appendEntries. */
  lemma FollowerLog(h: History, nd: Node, p: AppendParams)
    requires HistOk(h) && NodeLogOk(h, nd) && CallOk(h, p)
    requires nd.role == Leader ==> nd.currentTerm in h.won && h.won[nd.currentTerm].leader == nd.id
    requires p.leaderId != nd.id
    ensures NodeLogOk(h, OnAppend(nd, p).0)
    ensures var (nd', rets) := OnAppend(nd, p);
      && (rets.success && !IsHeartbeat(p) ==> nd'.log == h.tlog[p.term][..p.prevLogIndex + 2])
      && (!rets.success || IsHeartbeat(p) ==> nd'.log == nd.log)
  {
    hide FindLast, Spliced;
    if p.term >= nd.currentTerm {
      var nd1 := BeforeAppend(nd, p);
      assert nd1.role == Follower && QuietMove(nd, nd1);
      QuietNode(h, nd, nd1);
      if !IsHeartbeat(p) && Matches(nd.log, p.prevLogIndex, p.prevLogTerm) {
        SplicedIsLeaderPrefix(h, nd.log, p);
        LeaderPrefix(h, p);
      }
    }
  }

  lemma LeaderPrefix(h: History, p: AppendParams)
    requires HistOk(h) && CallOk(h, p) && !IsHeartbeat(p)
    ensures var log := h.tlog[p.term][..p.prevLogIndex + 2]; Recorded(h, log) && LastTerm(log) <= p.term
  {
    assert TermLogOk(h, p.term);
    assert Recorded(h, h.tlog[p.term][..p.prevLogIndex + 2]);
  }

  lemma LogsStep(s: Cluster, ev: Event)
    requires LogInv(s) && Enabled(s, ev) && SafeSize(s.Size())
    ensures LogInv(Next(s, ev)) && Next(s, ev).Size() == s.Size()
  {
    VotesStep(s, ev);
    match ev
    case DeliverVoteReply(m) => if IsWin(s, m) { LogsWin(s, m); } else { LogsQuiet(s, ev); }
    case DeliverAppend(q) => LogsDeliverAppend(s, q);
    case ClientAppend(i, record) => LogsClientAppend(s, i, record);
    case Replicate(_) => LogsSend(s, ev);
    case AbandonCall(_) => LogsSend(s, ev);
    case SendHeartbeat(_, _) => LogsSend(s, ev);
    case _ => LogsQuiet(s, ev);
  }
}
