/**
 A cluster of Raft nodes as a state machine. Every event is one lock region of one node (or the
 delivery of one RPC to it); messages may be lost, duplicated and reordered at will. Beside the
 nodes the state holds what the coroutines of raft_node.cpp keep on their stacks (pending elections,
 vote tasks, replicators) and a record of the past that no event ever reads.
 */
module Cluster {
  import opened RaftTypes
  import opened RaftStep

  /** One call of startElection: its request, the vote tasks still waiting, and the shared counter. */
  datatype Election = Election(params: VoteParams, pending: set<nat>, granted: nat, counted: set<nat>)

  datatype VoteReply = VoteReply(election: nat, voter: nat, rets: VoteRets)

  datatype Status = Idle | Waiting(request: nat) | Done

  /** One replicateLog coroutine, started when `node` became leader of term `born`. */
  datatype Replicator = Replicator(node: nat, follower: nat, born: nat, status: Status)

  /** An appendEntries call; its position in `appends` is its RPC sequence number. */
  datatype AppendCall = AppendCall(to: nat, params: AppendParams)

  datatype AppendReply = AppendReply(request: nat, rets: AppendRets)

  // ---- record of the past ----------------------------------------------------------------

  /** The first vote of a node in a term; `election` is meaningless for a vote for itself. */
  datatype Ballot = Ballot(cand: nat, election: nat, voterLog: seq<Entry>)

  /** A won election: who counted as voter, and how long the log was before the no-op. */
  datatype Win = Win(leader: nat, voters: set<nat>, base: nat)

  datatype History = History(
    ballots: map<(nat, nat), Ballot>,   // (voter, term)
    won: map<nat, Win>,                 // term
    tlog: map<nat, seq<Entry>>,         // term -> log of its leader while in office
    acked: map<(nat, nat), nat>,        // (node, term) -> highest position accepted in that term
    handled: set<nat>)                  // appendEntries calls delivered at least once

  datatype Cluster = Cluster(
    nodes: seq<Node>,
    starting: seq<nat>,                 // timer callbacks between their two lock regions
    elections: seq<Election>,
    voteReplies: set<VoteReply>,
    replicators: seq<Replicator>,
    appends: seq<AppendCall>,
    appendReplies: set<AppendReply>,
    hist: History)
  {
    function Size(): nat { |nodes| }
  }

  datatype Event =
    | ElectionTimeout(i: nat)
    | StartElection(i: nat)
    | DeliverVote(election: nat, voter: nat)
    | DeliverVoteReply(reply: VoteReply)
    | Replicate(r: nat)
    | AbandonCall(r: nat)
    | DeliverAppendReply(r: nat, rets: AppendRets)
    | SendHeartbeat(i: nat, f: nat)
    | DeliverAppend(q: nat)
    | ClientAppend(i: nat, record: Record)

  function Init(n: nat): Cluster {
    Cluster(seq(n, (i: nat) => InitNode(i, n)), seq(n, i => 0), [], {}, [], [], {},
            History(map[], map[], map[0 := [SENTINEL]], map[], {}))
  }

  predicate Enabled(s: Cluster, ev: Event) {
    match ev
    case ElectionTimeout(i) => i < s.Size() && i < |s.starting|
    case StartElection(i) => i < s.Size() && i < |s.starting| && s.starting[i] > 0
    case DeliverVote(e, v) => e < |s.elections| && v < s.Size() && v != s.elections[e].params.candidateId
    case DeliverVoteReply(m) =>
      && m in s.voteReplies && m.election < |s.elections|
      && m.voter in s.elections[m.election].pending
      && s.elections[m.election].params.candidateId < s.Size()
    case Replicate(r) =>
      r < |s.replicators| && s.replicators[r].status.Idle? && s.replicators[r].node < s.Size()
    case AbandonCall(r) => r < |s.replicators| && s.replicators[r].status.Waiting?
    case DeliverAppendReply(r, rets) =>
      && r < |s.replicators| && s.replicators[r].node < s.Size()
      && s.replicators[r].status.Waiting? && AppendReply(s.replicators[r].status.request, rets) in s.appendReplies
    case SendHeartbeat(i, f) => i < s.Size() && f < s.Size() && f != i && s.nodes[i].role == Leader
    case DeliverAppend(q) => q < |s.appends| && s.appends[q].to < s.Size()
    case ClientAppend(i, _) => i < s.Size() && AcceptsWrites(s.nodes[i])
  }

  // ---- the events ------------------------------------------------------------------------

  function WithNode(s: Cluster, i: nat, nd: Node): Cluster
    requires i < s.Size()
  {
    s.(nodes := s.nodes[i := nd])
  }

  function DoElectionTimeout(s: Cluster, i: nat): Cluster
    requires Enabled(s, ElectionTimeout(i))
  {
    if s.nodes[i].role == Leader then s
    else
      var nd := OnElectionTimeout(s.nodes[i]);
      WithNode(s, i, nd).(
        starting := s.starting[i := s.starting[i] + 1],
        hist := s.hist.(ballots := s.hist.ballots[(i, nd.currentTerm) := Ballot(i, 0, nd.log)]))
  }

  function DoStartElection(s: Cluster, i: nat): Cluster
    requires Enabled(s, StartElection(i))
  {
    WithNode(s, i, OnStartElection(s.nodes[i])).(
      starting := s.starting[i := s.starting[i] - 1],
      elections := s.elections + [Election(VoteRequest(s.nodes[i]), Remotes(i, s.Size()), 1, {})])
  }

  function RecordBallot(h: History, v: nat, term: nat, b: Ballot): History {
    if (v, term) in h.ballots then h else h.(ballots := h.ballots[(v, term) := b])
  }

  function DoDeliverVote(s: Cluster, e: nat, v: nat): Cluster
    requires Enabled(s, DeliverVote(e, v))
  {
    var p := s.elections[e].params;
    var (nd, rets) := OnVote(s.nodes[v], p);
    WithNode(s, v, nd).(
      voteReplies := s.voteReplies + {VoteReply(e, v, rets)},
      hist := if rets.voteGranted then RecordBallot(s.hist, v, p.term, Ballot(p.candidateId, e, nd.log)) else s.hist)
  }

  function Spawned(l: nat, term: nat, n: nat): seq<Replicator> {
    if n == 0 then []
    else seq(n - 1, (j: nat) => Replicator(l, if j < l then j else j + 1, term, Idle))
  }

  function CloseTask(s: Cluster, m: VoteReply, granted: nat, counts: bool): Cluster
    requires m.election < |s.elections|
  {
    var e := s.elections[m.election];
    s.(elections := s.elections[m.election :=
         e.(pending := e.pending - {m.voter}, granted := granted,
            counted := if counts then e.counted + {m.voter} else e.counted)])
  }

  function DoDeliverVoteReply(s: Cluster, m: VoteReply): Cluster
    requires Enabled(s, DeliverVoteReply(m))
  {
    var e := s.elections[m.election];
    var c := e.params.candidateId;
    var (nd, granted) := OnVoteReply(s.nodes[c], e.granted, m.rets);
    var s1 := WithNode(CloseTask(s, m, granted, CountsVote(s.nodes[c], m.rets)), c, nd);
    if Wins(s.nodes[c], e.granted, m.rets) then
      s1.(replicators := s.replicators + Spawned(c, nd.currentTerm, s.Size()),
          hist := s.hist.(won := s.hist.won[nd.currentTerm := Win(c, e.counted + {m.voter, c}, |s.nodes[c].log|)],
                          tlog := s.hist.tlog[nd.currentTerm := nd.log],
                          acked := s.hist.acked[(c, nd.currentTerm) := |s.nodes[c].log|]))
    else s1
  }

  function SetStatus(s: Cluster, r: nat, status: Status): Cluster
    requires r < |s.replicators|
  {
    s.(replicators := s.replicators[r := s.replicators[r].(status := status)])
  }

  function DoReplicate(s: Cluster, r: nat): Cluster
    requires Enabled(s, Replicate(r))
  {
    var rep := s.replicators[r];
    var nd := s.nodes[rep.node];
    if nd.role != Leader then SetStatus(s, r, Done)
    else
      var e := NextEntry(nd, rep.follower);
      if e.op == OP_NULL then s
      else
        SetStatus(s, r, Waiting(|s.appends|)).(
          appends := s.appends + [AppendCall(rep.follower, AppendRequest(nd, rep.follower, e))])
  }

  function DoAbandonCall(s: Cluster, r: nat): Cluster
    requires Enabled(s, AbandonCall(r))
  {
    SetStatus(s, r, Idle)
  }

  function DoDeliverAppendReply(s: Cluster, r: nat, rets: AppendRets): Cluster
    requires Enabled(s, DeliverAppendReply(r, rets))
  {
    var rep := s.replicators[r];
    var (nd, ends) := OnAppendReply(s.nodes[rep.node], rep.follower, rets);
    WithNode(SetStatus(s, r, if ends then Done else Idle), rep.node, nd)
  }

  function DoSendHeartbeat(s: Cluster, i: nat, f: nat): Cluster
    requires Enabled(s, SendHeartbeat(i, f))
  {
    s.(appends := s.appends + [AppendCall(f, AppendRequest(s.nodes[i], f, HEARTBEAT_ENTRY))])
  }

  function RecordAck(h: History, v: nat, term: nat, k: nat): History {
    if (v, term) in h.acked && h.acked[(v, term)] >= k then h else h.(acked := h.acked[(v, term) := k])
  }

  function DoDeliverAppend(s: Cluster, q: nat): Cluster
    requires Enabled(s, DeliverAppend(q))
  {
    var v := s.appends[q].to;
    var p := s.appends[q].params;
    var (nd, rets) := OnAppend(s.nodes[v], p);
    var h := s.hist.(handled := s.hist.handled + {q});
    WithNode(s, v, nd).(
      appendReplies := s.appendReplies + {AppendReply(q, rets)},
      hist := if rets.success && !IsHeartbeat(p) then RecordAck(h, v, p.term, p.prevLogIndex + 1) else h)
  }

  function DoClientAppend(s: Cluster, i: nat, record: Record): Cluster
    requires Enabled(s, ClientAppend(i, record))
  {
    var nd := OnClientAppend(s.nodes[i], record);
    var t := nd.currentTerm;
    WithNode(s, i, nd).(
      hist := s.hist.(tlog := s.hist.tlog[t := nd.log], acked := s.hist.acked[(i, t) := |s.nodes[i].log|]))
  }

  function Next(s: Cluster, ev: Event): Cluster
    requires Enabled(s, ev)
  {
    match ev
    case ElectionTimeout(i) => DoElectionTimeout(s, i)
    case StartElection(i) => DoStartElection(s, i)
    case DeliverVote(e, v) => DoDeliverVote(s, e, v)
    case DeliverVoteReply(m) => DoDeliverVoteReply(s, m)
    case Replicate(r) => DoReplicate(s, r)
    case AbandonCall(r) => DoAbandonCall(s, r)
    case DeliverAppendReply(r, rets) => DoDeliverAppendReply(s, r, rets)
    case SendHeartbeat(i, f) => DoSendHeartbeat(s, i, f)
    case DeliverAppend(q) => DoDeliverAppend(s, q)
    case ClientAppend(i, record) => DoClientAppend(s, i, record)
  }

  // ---- runs ------------------------------------------------------------------------------

  /** A run of an n-node cluster: states[k] is the state before events[k]. */
  datatype Run = Run(states: seq<Cluster>, events: seq<Event>)

  predicate StepsTo(s: Cluster, ev: Event, s': Cluster) {
    Enabled(s, ev) && s' == Next(s, ev)
  }

  ghost predicate IsRun(n: nat, run: Run) {
    && |run.states| == |run.events| + 1
    && run.states[0] == Init(n)
    && forall k {:trigger run.events[k]} :: 0 <= k < |run.events| ==>
         StepsTo(run.states[k], run.events[k], run.states[k + 1])
  }

  function Last(run: Run): Cluster
    requires run.states != []
  {
    run.states[|run.states| - 1]
  }

  function Extend(run: Run, ev: Event): Run
    requires run.states != [] && Enabled(Last(run), ev)
  {
    Run(run.states + [Next(Last(run), ev)], run.events + [ev])
  }

  predicate Continues(run: Run, run': Run) {
    run.states <= run'.states && run.events <= run'.events
  }

  lemma ExtendIsRun(n: nat, run: Run, ev: Event)
    requires IsRun(n, run) && Enabled(Last(run), ev)
    ensures IsRun(n, Extend(run, ev)) && Last(Extend(run, ev)) == Next(Last(run), ev) && Continues(run, Extend(run, ev))
  {
    var run' := Extend(run, ev);
    forall k | 0 <= k < |run'.events| ensures StepsTo(run'.states[k], run'.events[k], run'.states[k + 1]) {
      if k < |run.events| {
        assert StepsTo(run.states[k], run.events[k], run.states[k + 1]);
      }
    }
  }
}
