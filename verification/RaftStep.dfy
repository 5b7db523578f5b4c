/**
 Specification of one Raft node: what each lock region of source/raft/raft_node.cpp and
 source/raft/raft_logger.h computes, as functions on values. The classes in RaftNode.dfy are
 proved against these functions and the cluster in Cluster.dfy is built from them.
 */
module RaftStep {
  import opened RaftTypes

  datatype Role = Follower | Candidate | Leader

  /** The fields of a RaftNode together with those of its RaftLogger. */
  datatype Node = Node(
    id: nat,
    size: nat,                  // m_nodes.size()
    role: Role,
    currentTerm: nat,
    votedFor: nat,
    leaderId: nat,
    nextIndex: map<nat, nat>,
    matchIndex: map<nat, nat>,
    log: seq<Entry>,
    commitIndex: nat,
    electionTimerOn: bool,
    heartbeatOn: bool)

  // ---- the log ---------------------------------------------------------------------------

  function LastIndex(log: seq<Entry>): nat {
    if log == [] then 0 else log[|log| - 1].index
  }

  function LastTerm(log: seq<Entry>): nat {
    if log == [] then 0 else log[|log| - 1].term
  }

  predicate UpToDate(term: nat, index: nat, log: seq<Entry>) {
    term > LastTerm(log) || (term == LastTerm(log) && index >= LastIndex(log))
  }

  function GetEntry(log: seq<Entry>, i: nat): Entry {
    if i < |log| then log[i] else NULL_ENTRY
  }

  /** Position of the last entry carrying the given index, if any. */
  function FindLast(log: seq<Entry>, index: nat): (r: int)
    ensures -1 <= r < |log|
    ensures r >= 0 ==> log[r].index == index && forall j :: r < j < |log| ==> log[j].index != index
    ensures r == -1 ==> forall j :: 0 <= j < |log| ==> log[j].index != index
  {
    if log == [] then -1
    else if log[|log| - 1].index == index then |log| - 1
    else FindLast(log[..|log| - 1], index)
  }

  predicate Matches(log: seq<Entry>, prevIndex: nat, prevTerm: nat) {
    var at := FindLast(log, prevIndex);
    at >= 0 && log[at].term == prevTerm
  }

  /** What the follower's log becomes: everything after the matched entry is dropped. */
  function Spliced(log: seq<Entry>, e: Entry, prevIndex: nat, prevTerm: nat): seq<Entry> {
    if Matches(log, prevIndex, prevTerm) then log[..FindLast(log, prevIndex) + 1] + [e] else log
  }

  function Appended(log: seq<Entry>, e: Entry): seq<Entry> {
    log + [e.(index := LastIndex(log) + 1)]
  }

  // ---- small helpers ---------------------------------------------------------------------

  predicate Other(i: nat, id: nat) { i != id }

  function Remotes(id: nat, size: nat): set<nat> {
    set i: nat | 0 <= i < size && Other(i, id)
  }

  // operator[] of a std::map<uint64_t, uint64_t>
  function At(m: map<nat, nat>, i: nat): nat {
    if i in m then m[i] else 0
  }

  function Threshold(size: nat): nat {
    (size + 1) / 2
  }

  function Min(a: nat, b: nat): nat { if a <= b then a else b }

  function Max(a: nat, b: nat): nat { if a >= b then a else b }

  function InitNode(id: nat, size: nat): Node {
    Node(id, size, Follower, 0, NO_ID, NO_ID, map[], map[], [SENTINEL], 0, true, false)
  }

  /** Adopt a term as follower; a leader also swaps its timers. */
  function StepDown(nd: Node, term: nat, leaderId: nat): Node {
    nd.(role := Follower, currentTerm := term, votedFor := NO_ID, leaderId := leaderId,
        electionTimerOn := nd.role == Leader || nd.electionTimerOn,
        heartbeatOn := nd.role != Leader && nd.heartbeatOn)
  }

  // ---- elections -------------------------------------------------------------------------

  function OnElectionTimeout(nd: Node): Node {
    if nd.role == Leader then nd
    else nd.(role := Candidate, currentTerm := nd.currentTerm + 1, votedFor := nd.id, leaderId := NO_ID)
  }

  function VoteRequest(nd: Node): VoteParams {
    VoteParams(nd.currentTerm, nd.id, LastIndex(nd.log), LastTerm(nd.log))
  }

  function OnStartElection(nd: Node): Node {
    nd.(votedFor := nd.id)
  }

  function OnVote(nd: Node, p: VoteParams): (Node, VoteRets) {
    if p.term < nd.currentTerm || (p.term == nd.currentTerm && nd.votedFor != p.candidateId) then
      (nd, VoteRets(nd.currentTerm, false))
    else
      var nd1 := if p.term > nd.currentTerm then StepDown(nd, p.term, p.candidateId) else nd;
      if !UpToDate(p.lastLogTerm, p.lastLogIndex, nd1.log) then (nd1, VoteRets(nd1.currentTerm, false))
      else (nd1.(votedFor := p.candidateId), VoteRets(nd1.currentTerm, true))
  }

  function NoOp(term: nat): Entry {
    Entry(0, term, OP_NOOP, [], [], 0)
  }

  function BecomeLeader(nd: Node): Node {
    nd.(role := Leader, leaderId := nd.id, electionTimerOn := false, heartbeatOn := true,
        nextIndex := map f: nat | f in Remotes(nd.id, nd.size) :: LastIndex(nd.log) + 1,
        matchIndex := map f: nat | f in Remotes(nd.id, nd.size) :: 0,
        log := Appended(nd.log, NoOp(nd.currentTerm)))
  }

  predicate CountsVote(nd: Node, rets: VoteRets) {
    nd.currentTerm == rets.term && nd.role == Candidate && rets.voteGranted
  }

  // `granted` is the election's shared counter before this reply is looked at
  predicate Wins(nd: Node, granted: nat, rets: VoteRets) {
    CountsVote(nd, rets) && granted + 1 >= Threshold(nd.size)
  }

  function OnVoteReply(nd: Node, granted: nat, rets: VoteRets): (Node, nat) {
    if nd.currentTerm == rets.term && nd.role == Candidate then
      if rets.voteGranted then
        (if granted + 1 >= Threshold(nd.size) then BecomeLeader(nd) else nd, granted + 1)
      else (nd, granted)
    else if nd.currentTerm < rets.term then (StepDown(nd, rets.term, NO_ID), granted)
    else (nd, granted)
  }

  // ---- replication -----------------------------------------------------------------------

  function PrevIndex(next: nat): nat {
    // m_nextIndexs[f] - 1 on uint64_t
    if next == 0 then NO_ID else next - 1
  }

  function AppendRequest(nd: Node, f: nat, e: Entry): AppendParams {
    var prev := PrevIndex(At(nd.nextIndex, f));
    AppendParams(nd.currentTerm, nd.id, prev, GetEntry(nd.log, prev).term, e, nd.commitIndex)
  }

  function NextEntry(nd: Node, f: nat): Entry {
    GetEntry(nd.log, At(nd.nextIndex, f))
  }

  const HEARTBEAT_ENTRY := SENTINEL.(op := OP_HEARTBEAT)

  predicate IsHeartbeat(p: AppendParams) {
    p.entry.op == OP_HEARTBEAT
  }

  // state of the node when appendEntries reaches the log: term adopted, commit index moved
  function BeforeAppend(nd: Node, p: AppendParams): Node {
    var nd1 :=
      if p.term > nd.currentTerm || (p.term == nd.currentTerm && nd.role == Candidate)
      then StepDown(nd, p.term, p.leaderId) else nd;
    nd1.(commitIndex := Min(p.leaderCommit, LastIndex(nd.log)))
  }

  function OnAppend(nd: Node, p: AppendParams): (Node, AppendRets) {
    if p.term < nd.currentTerm then (nd, AppendRets(false, nd.currentTerm))
    else
      var nd1 := BeforeAppend(nd, p);
      if IsHeartbeat(p) then (nd1, AppendRets(true, nd1.currentTerm))
      else if !Matches(nd1.log, p.prevLogIndex, p.prevLogTerm) then (nd1, AppendRets(false, nd1.currentTerm))
      else (nd1.(log := Spliced(nd1.log, p.entry, p.prevLogIndex, p.prevLogTerm)), AppendRets(true, nd1.currentTerm))
  }

  /** Followers known to hold position k, the node itself included. */
  function Replicas(nd: Node, k: nat): set<nat> {
    set i: nat | 0 <= i < nd.size && (i == nd.id || At(nd.matchIndex, i) >= k)
  }

  function Acknowledge(nd: Node, f: nat): Node {
    nd.(nextIndex := nd.nextIndex[f := At(nd.nextIndex, f) + 1],
        matchIndex := nd.matchIndex[f := At(nd.nextIndex, f)])
  }

  // the reply makes the node count replicas of the acknowledged position
  predicate Accepts(nd: Node, rets: AppendRets) {
    nd.role == Leader && rets.term == nd.currentTerm && rets.success
  }

  // ... and that count reaches the threshold
  predicate CountsQuorum(nd: Node, f: nat, rets: AppendRets) {
    Accepts(nd, rets) && |Replicas(Acknowledge(nd, f), At(nd.nextIndex, f))| >= Threshold(nd.size)
  }

  /** Result: the node, and whether this replicator ends. */
  function OnAppendReply(nd: Node, f: nat, rets: AppendRets): (Node, bool) {
    if nd.role != Leader then (nd, true)
    else if rets.term > nd.currentTerm then (StepDown(nd, rets.term, NO_ID), true)
    else if rets.term < nd.currentTerm then (nd, false)
    else if !rets.success then
      var next := At(nd.nextIndex, f);
      (if next > 1 then nd.(nextIndex := nd.nextIndex[f := next - 1]) else nd, true)
    else
      var nd1 := Acknowledge(nd, f);
      var k := At(nd.nextIndex, f);
      (if |Replicas(nd1, k)| >= Threshold(nd.size) then nd1.(commitIndex := Max(k, nd.commitIndex)) else nd1, false)
  }

  // ---- client writes ---------------------------------------------------------------------

  // the test in handleMsg that lets a write through instead of redirecting it
  predicate AcceptsWrites(nd: Node) {
    nd.leaderId == nd.id
  }

  function RegisterEntry(term: nat, r: Record): Entry {
    Entry(0, term, OP_REGISTER, r.name, r.ip, r.port)
  }

  function OnClientAppend(nd: Node, r: Record): Node {
    nd.(log := Appended(nd.log, RegisterEntry(nd.currentTerm, r)))
  }
}
