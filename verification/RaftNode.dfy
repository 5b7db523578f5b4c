/** The node itself: the classes of raft_logger.h and raft_node.cpp, proved against RaftStep. */
module RaftNode {
  import opened RaftTypes
  import opened RaftStep

  /** Position `at` is the last one whose entry carries this index. */
  ghost predicate LastWith(log: seq<Entry>, index: nat, at: nat) {
    at < |log| && log[at].index == index && forall j :: at < j < |log| ==> log[j].index != index
  }

  /** The last entry carrying the index has the given term. */
  ghost predicate Agrees(log: seq<Entry>, index: nat, term: nat) {
    exists at: nat :: LastWith(log, index, at) && log[at].term == term
  }

  /** The log ends with e, right behind the last entry that carries the index. */
  ghost predicate EndsBehind(log: seq<Entry>, log': seq<Entry>, index: nat, e: Entry) {
    forall at: nat :: LastWith(log, index, at) ==> log' == log[..at + 1] + [e]
  }

  class RaftLogger {
    var entries: seq<Entry>
    var commitIndex: nat

    constructor ()
      ensures entries == [SENTINEL] && commitIndex == 0
    {
      entries := [SENTINEL];
      commitIndex := 0;
    }

    method IsNewer(term: nat, index: nat) returns (r: bool)
      requires entries != []
      ensures r == UpToDate(term, index, entries)
      ensures var last := entries[|entries| - 1];
        r <==> term > last.term || (term == last.term && index >= last.index)
    {
      var last := entries[|entries| - 1];
      if term > last.term {
        return true;
      } else if term == last.term {
        return index >= last.index;
      }
      return false;
    }

    method GetEntry(index: nat) returns (e: Entry)
      ensures e == RaftStep.GetEntry(entries, index)
      ensures e == if index < |entries| then entries[index] else Entry(0, 0, OP_NULL, [], [], 0)
    {
      if index < |entries| {
        e := entries[index];
      } else {
        e := SENTINEL.(op := OP_NULL);
      }
    }

    method SetCommitIndex(index: nat)
      modifies `commitIndex
      ensures commitIndex == index
    {
      commitIndex := index;
    }

    /** Scan back for the previous entry; on a match drop everything after it and append. */
    method AppendAfter(e: Entry, prevIndex: nat, prevTerm: nat) returns (ok: bool)
      modifies `entries
      ensures ok == Matches(old(entries), prevIndex, prevTerm)
      ensures entries == Spliced(old(entries), e, prevIndex, prevTerm)
      ensures ok <==> Agrees(old(entries), prevIndex, prevTerm)
      ensures if ok then EndsBehind(old(entries), entries, prevIndex, e) else entries == old(entries)
    {
      var at := |entries| - 1;
      while at >= 0 && entries[at].index != prevIndex
        invariant -1 <= at < |entries|
        invariant forall j :: at < j < |entries| ==> entries[j].index != prevIndex
      {
        at := at - 1;
      }
      assert forall a: nat :: LastWith(entries, prevIndex, a) ==> a == at;
      if at < 0 || entries[at].term != prevTerm {
        return false;
      }
      assert FindLast(entries, prevIndex) == at && LastWith(entries, prevIndex, at);
      entries := entries[..at + 1];
      entries := entries + [e];
      return true;
    }

    method Append(e: Entry) returns (index: nat)
      requires entries != []
      modifies `entries
      ensures entries == Appended(old(entries), e)
      ensures index == |old(entries)|
      ensures var next := old(entries)[|old(entries)| - 1].index + 1;
        entries == old(entries) + [Entry(next, e.term, e.op, e.fName, e.fIp, e.fPort)]
    {
      var e' := e.(index := entries[|entries| - 1].index + 1);
      entries := entries + [e'];
      index := |entries| - 1;
    }
  }

  lemma SameForAll(m: map<nat, nat>, id: nat, size: nat, v: nat)
    requires m.Keys <= Remotes(id, size) && forall g: nat :: g < size && g != id ==> g in m && m[g] == v
    ensures m == map g: nat | g in Remotes(id, size) :: v
  {
    forall g: nat | g in Remotes(id, size) ensures g in m {
      assert Other(g, id);
    }
  }

  class RaftNode {
    const id: nat
    const size: nat
    const logger: RaftLogger
    var state: Role
    var currentTerm: nat
    var votedFor: nat
    var leaderId: nat
    var nextIndex: map<nat, nat>
    var matchIndex: map<nat, nat>
    var electionTimerOn: bool
    var heartbeatOn: bool

    ghost predicate Valid()
      reads this, logger
    {
      && id < size && logger.entries != []
      && nextIndex.Keys <= Remotes(id, size) && matchIndex.Keys <= Remotes(id, size)
    }

    ghost function View(): Node
      reads this, logger
    {
      Node(id, size, state, currentTerm, votedFor, leaderId, nextIndex, matchIndex,
           logger.entries, logger.commitIndex, electionTimerOn, heartbeatOn)
    }

    constructor (id: nat, size: nat)
      requires id < size
      ensures Valid() && View() == InitNode(id, size) && fresh(logger)
    {
      this.id, this.size := id, size;
      logger := new RaftLogger();
      state, currentTerm, votedFor, leaderId := Follower, 0, NO_ID, NO_ID;
      nextIndex, matchIndex := map[], map[];
      electionTimerOn, heartbeatOn := true, false;
    }

    /** Election timer, first lock region. */
    method ElectionTimeout() returns (starts: bool)
      requires Valid()
      modifies this
      ensures Valid() && View() == OnElectionTimeout(old(View()))
      ensures starts == (old(state) != Leader)
      ensures starts ==>
        state == Candidate && currentTerm == old(currentTerm) + 1 && votedFor == id && leaderId == NO_ID
      ensures !starts ==> unchanged(this)
      ensures unchanged(`nextIndex, `matchIndex, `electionTimerOn, `heartbeatOn)
    {
      starts := state != Leader;
      if starts {
        state := Candidate;
        currentTerm := currentTerm + 1;
        votedFor := id;
        leaderId := NO_ID;
      }
    }

    /** startElection, the second lock region: other events may have come in between. */
    method StartElection() returns (request: VoteParams)
      requires Valid()
      modifies this
      ensures Valid() && View() == OnStartElection(old(View()))
      ensures request == VoteRequest(old(View()))
      ensures var last := logger.entries[|logger.entries| - 1];
        request == VoteParams(currentTerm, id, last.index, last.term)
      ensures votedFor == id && unchanged(`state, `currentTerm, `leaderId)
      ensures unchanged(`nextIndex, `matchIndex, `electionTimerOn, `heartbeatOn)
    {
      var last := logger.entries[|logger.entries| - 1];
      request := VoteParams(currentTerm, id, last.index, last.term);
      votedFor := id;
    }

    method BecomeFollower(term: nat, leader: nat)
      requires Valid()
      modifies this
      ensures Valid() && View() == StepDown(old(View()), term, leader)
      ensures state == Follower && currentTerm == term && votedFor == NO_ID && leaderId == leader
      ensures if old(state) == Leader then electionTimerOn && !heartbeatOn
              else unchanged(`electionTimerOn, `heartbeatOn)
      ensures unchanged(`nextIndex, `matchIndex)
    {
      if state == Leader {
        heartbeatOn := false;
        electionTimerOn := true;
      }
      state := Follower;
      currentTerm := term;
      votedFor := NO_ID;
      leaderId := leader;
    }

    method RaftVote(params: VoteParams) returns (rets: VoteRets)
      requires Valid()
      modifies this
      ensures Valid() && (View(), rets) == OnVote(old(View()), params)
      ensures var last := logger.entries[|logger.entries| - 1];
        rets.voteGranted <==>
          && (params.term > old(currentTerm)
              || (params.term == old(currentTerm) && old(votedFor) == params.candidateId))
          && (params.lastLogTerm > last.term || (params.lastLogTerm == last.term && params.lastLogIndex >= last.index))
      ensures rets.term == currentTerm
      ensures currentTerm == if params.term > old(currentTerm) then params.term else old(currentTerm)
      ensures votedFor == if rets.voteGranted then params.candidateId
                          else if params.term > old(currentTerm) then NO_ID else old(votedFor)
      ensures params.term > old(currentTerm) ==> state == Follower && leaderId == params.candidateId
      ensures params.term <= old(currentTerm) ==> unchanged(`state, `leaderId)
      ensures if params.term > old(currentTerm) && old(state) == Leader then electionTimerOn && !heartbeatOn
              else unchanged(`electionTimerOn, `heartbeatOn)
      ensures unchanged(`nextIndex, `matchIndex)
    {
      if params.term < currentTerm || (params.term == currentTerm && votedFor != params.candidateId) {
        return VoteRets(currentTerm, false);
      }
      if params.term > currentTerm {
        BecomeFollower(params.term, params.candidateId);
      }
      var newer := logger.IsNewer(params.lastLogTerm, params.lastLogIndex);
      if !newer {
        return VoteRets(currentTerm, false);
      }
      votedFor := params.candidateId;
      return VoteRets(currentTerm, true);
    }

    /** What the winner of an election is, over its fields: `log` is what it had. */
    ghost predicate InOffice(log: seq<Entry>)
      requires log != []
      reads this, logger
    {
      var last := log[|log| - 1].index;
      && state == Leader && leaderId == id && !electionTimerOn && heartbeatOn
      && (forall g: nat :: g in nextIndex <==> g < size && g != id)
      && (forall g: nat :: g in matchIndex <==> g < size && g != id)
      && (forall g <- nextIndex :: nextIndex[g] == last + 1) && (forall g <- matchIndex :: matchIndex[g] == 0)
      && logger.entries == log + [Entry(last + 1, currentTerm, OP_NOOP, [], [], 0)]
    }

    method TakeOffice()
      requires Valid()
      modifies this, logger
      ensures Valid() && View() == BecomeLeader(old(View()))
      ensures InOffice(old(logger.entries)) && unchanged(`currentTerm, `votedFor, logger`commitIndex)
    {
      electionTimerOn := false;
      state := Leader;
      leaderId := id;
      ResetIndices(logger.entries[|logger.entries| - 1].index);
      var _ := logger.Append(Entry(0, currentTerm, OP_NOOP, [], [], 0));
      heartbeatOn := true;
    }

    /** Its loop over the remote nodes. */
    method ResetIndices(last: nat)
      requires nextIndex.Keys <= Remotes(id, size) && matchIndex.Keys <= Remotes(id, size)
      modifies `nextIndex, `matchIndex
      ensures nextIndex == map g: nat | g in Remotes(id, size) :: last + 1
      ensures matchIndex == map g: nat | g in Remotes(id, size) :: 0
    {
      var f := 0;
      while f < size
        invariant 0 <= f <= size
        invariant nextIndex.Keys <= Remotes(id, size) && matchIndex.Keys <= Remotes(id, size)
        invariant forall g: nat :: g < f && g != id ==>
          g in nextIndex && nextIndex[g] == last + 1 && g in matchIndex && matchIndex[g] == 0
      {
        if f != id {
          assert Other(f, id);
          nextIndex := nextIndex[f := last + 1];
          matchIndex := matchIndex[f := 0];
        }
        f := f + 1;
      }
      SameForAll(nextIndex, id, size, last + 1);
      SameForAll(matchIndex, id, size, 0);
    }

    /** A vote task sees its reply; `granted` is the election's shared counter. */
    method HandleVoteReply(granted: nat, rets: VoteRets) returns (granted': nat)
      requires Valid()
      modifies this, logger
      ensures Valid() && (View(), granted') == OnVoteReply(old(View()), granted, rets)
      ensures var counts := old(currentTerm) == rets.term && old(state) == Candidate && rets.voteGranted;
        && granted' == granted + (if counts then 1 else 0)
        && (counts && granted' >= (size + 1) / 2 ==>
              InOffice(old(logger.entries)) && unchanged(`currentTerm, `votedFor, logger`commitIndex))
        && (old(currentTerm) < rets.term ==>
              && state == Follower && currentTerm == rets.term && votedFor == leaderId == NO_ID
              && (if old(state) == Leader then electionTimerOn && !heartbeatOn
                  else unchanged(`electionTimerOn, `heartbeatOn))
              && unchanged(`nextIndex, `matchIndex, logger))
        && (!(counts && granted' >= (size + 1) / 2) && old(currentTerm) >= rets.term ==> unchanged(this, logger))
    {
      granted' := granted;
      if currentTerm == rets.term && state == Candidate {
        if rets.voteGranted {
          granted' := granted' + 1;
          if granted' >= (size + 1) / 2 {
            TakeOffice();
          }
        }
      } else if currentTerm < rets.term {
        BecomeFollower(rets.term, NO_ID);
      }
    }

    /** m_nextIndexs[f] */
    ghost function NextOf(f: nat): nat
      reads this
    {
      if f in nextIndex then nextIndex[f] else 0
    }

    /** The request describes this node, and the entry before the one at f's nextIndex. */
    ghost predicate Describes(request: AppendParams, f: nat, e: Entry)
      reads this, logger
    {
      && request.term == currentTerm && request.leaderId == id && request.entry == e
      && request.leaderCommit == logger.commitIndex
      && request.prevLogIndex == (if NextOf(f) == 0 then NO_ID else NextOf(f) - 1)
      && request.prevLogTerm ==
           if request.prevLogIndex < |logger.entries| then logger.entries[request.prevLogIndex].term else 0
    }

    method BuildRequest(f: nat, e: Entry) returns (request: AppendParams)
      requires Valid()
      ensures request == AppendRequest(View(), f, e)
      ensures Describes(request, f, e)
    {
      var next := if f in nextIndex then nextIndex[f] else 0;
      var prev := if next == 0 then NO_ID else next - 1;
      var prevEntry := logger.GetEntry(prev);
      request := AppendParams(currentTerm, id, prev, prevEntry.term, e, logger.commitIndex);
    }

    /** Top of the replicator loop: nothing to send if there is no next entry. */
    method NextRequest(f: nat) returns (sends: bool, request: AppendParams)
      requires Valid()
      ensures sends == (NextEntry(View(), f).op != OP_NULL)
      ensures request == AppendRequest(View(), f, NextEntry(View(), f))
      ensures sends <==> NextOf(f) < |logger.entries| && logger.entries[NextOf(f)].op != OP_NULL
      ensures sends ==> Describes(request, f, logger.entries[NextOf(f)])
    {
      var next := if f in nextIndex then nextIndex[f] else 0;
      var e := logger.GetEntry(next);
      request := BuildRequest(f, e);
      sends := e.op != OP_NULL;
    }

    /** A newer term, or a candidate's own, makes the node a follower of the sender. */
    ghost predicate Follows(params: AppendParams, term: nat, role: Role, leader: nat, vote: nat)
      reads this
    {
      if params.term > term || role == Candidate
      then state == Follower && leaderId == params.leaderId && votedFor == NO_ID
      else state == role && leaderId == leader && votedFor == vote
    }

    method AppendEntries(params: AppendParams) returns (rets: AppendRets)
      requires Valid()
      modifies this, logger
      ensures Valid() && (View(), rets) == OnAppend(old(View()), params)
      ensures params.term < old(currentTerm) ==> unchanged(this, logger) && rets == AppendRets(false, currentTerm)
      ensures params.term >= old(currentTerm) ==>
        && currentTerm == rets.term == params.term
        && Follows(params, old(currentTerm), old(state), old(leaderId), old(votedFor))
        && logger.commitIndex == (var last := old(logger.entries)[|old(logger.entries)| - 1].index;
                                  if params.leaderCommit <= last then params.leaderCommit else last)
        && (params.entry.op == OP_HEARTBEAT ==> rets.success && unchanged(logger`entries))
        && (params.entry.op != OP_HEARTBEAT ==>
              && (rets.success <==> Agrees(old(logger.entries), params.prevLogIndex, params.prevLogTerm))
              && (if rets.success
                  then EndsBehind(old(logger.entries), logger.entries, params.prevLogIndex, params.entry)
                  else unchanged(logger`entries)))
      ensures if old(state) == Leader && params.term > old(currentTerm) then electionTimerOn && !heartbeatOn
              else unchanged(`electionTimerOn, `heartbeatOn)
      ensures unchanged(`nextIndex, `matchIndex)
    {
      if params.term < currentTerm {
        return AppendRets(false, currentTerm);
      }
      if params.term > currentTerm || (params.term == currentTerm && state == Candidate) {
        BecomeFollower(params.term, params.leaderId);
      }
      var last := logger.entries[|logger.entries| - 1].index;
      logger.SetCommitIndex(if params.leaderCommit <= last then params.leaderCommit else last);
      if params.entry.op == OP_HEARTBEAT {
        return AppendRets(true, currentTerm);
      }
      var ok := logger.AppendAfter(params.entry, params.prevLogIndex, params.prevLogTerm);
      return AppendRets(ok, currentTerm);
    }

    /** The replicator of f sees its reply: move the indices and count replicas. */
    method HandleAppendReply(f: nat, rets: AppendRets) returns (ends: bool)
      requires Valid() && f in Remotes(id, size)
      modifies this, logger
      ensures Valid() && (View(), ends) == OnAppendReply(old(View()), f, rets)
      ensures ends <==> old(state) != Leader || rets.term > old(currentTerm)
                        || (rets.term == old(currentTerm) && !rets.success)
      ensures old(state) != Leader || rets.term < old(currentTerm) ==> unchanged(this, logger)
      ensures old(state) == Leader && rets.term > old(currentTerm) ==>
        && state == Follower && currentTerm == rets.term && votedFor == leaderId == NO_ID
        && electionTimerOn && !heartbeatOn && unchanged(`nextIndex, `matchIndex, logger)
      ensures old(state) == Leader && rets.term == old(currentTerm) ==>
        && unchanged(`state, `currentTerm, `votedFor, `leaderId, `electionTimerOn, `heartbeatOn, logger`entries)
        && nextIndex == (if rets.success then old(nextIndex)[f := old(NextOf(f)) + 1]
                         else if old(NextOf(f)) > 1 then old(nextIndex)[f := old(NextOf(f)) - 1] else old(nextIndex))
        && matchIndex == (if rets.success then old(matchIndex)[f := old(NextOf(f))] else old(matchIndex))
        && logger.commitIndex ==
             if rets.success && |Holding(old(NextOf(f)))| >= (size + 1) / 2 && old(NextOf(f)) > old(logger.commitIndex)
             then old(NextOf(f)) else old(logger.commitIndex)
    {
      if state != Leader {
        return true;
      }
      if rets.term > currentTerm {
        BecomeFollower(rets.term, NO_ID);
        return true;
      }
      if rets.term < currentTerm {
        return false;
      }
      var next := if f in nextIndex then nextIndex[f] else 0;
      if !rets.success {
        if next > 1 {
          nextIndex := nextIndex[f := next - 1];
        }
        return true;
      }
      nextIndex := nextIndex[f := next + 1];
      matchIndex := matchIndex[f := next];
      CountReplicas(next);
      return false;
    }

    /** The node itself, and those whose matchIndex has reached k. */
    ghost function Holding(k: nat): set<nat>
      reads this
    {
      set i: nat | i < size && (i == id || (if i in matchIndex then matchIndex[i] else 0) >= k)
    }

    method CountReplicas(last: nat)
      requires Valid()
      modifies logger
      ensures Valid()
      ensures View() == if |Replicas(old(View()), last)| >= Threshold(size)
                        then old(View()).(commitIndex := Max(last, old(logger.commitIndex))) else old(View())
      ensures unchanged(logger`entries)
      ensures logger.commitIndex ==
        if |Holding(last)| >= (size + 1) / 2 && last > old(logger.commitIndex) then last else old(logger.commitIndex)
    {
      ghost var nd := View();
      assert Holding(last) == Replicas(nd, last);
      var vote, i := 0, 0;
      assert Among(nd, last, 0) == {};
      while i < size
        invariant 0 <= i <= size && unchanged(logger)
        invariant vote == |Among(nd, last, i)|
        invariant i > 0 ==> vote < Threshold(size)
      {
        AmongGrows(nd, last, i);
        if i == id {
          vote := vote + 1;
        } else if (if i in matchIndex then matchIndex[i] else 0) >= last {
          vote := vote + 1;
        }
        if vote >= (size + 1) / 2 {
          AmongAll(nd, last, i + 1);
          logger.SetCommitIndex(if last >= logger.commitIndex then last else logger.commitIndex);
          break;
        }
        i := i + 1;
      }
      AmongAll(nd, last, size);
    }

    /** Behind `log` come the first k records, each in its own entry, with the next indices and the node's term. */
    ghost predicate Stored(log: seq<Entry>, records: seq<Record>, k: nat)
      requires log != [] && k <= |records|
      reads this, logger
    {
      && |logger.entries| == |log| + k && log == logger.entries[..|log|]
      && forall j {:trigger records[j]} :: 0 <= j < k ==>
           logger.entries[|log| + j] == Entry(log[|log| - 1].index + 1 + j, currentTerm, OP_REGISTER,
                                              records[j].name, records[j].ip, records[j].port)
    }

    /** Registry writes, under the leader check of handleMsg. */
    method RegisterRecords(records: seq<Record>)
      requires Valid()
      modifies logger
      ensures Valid() && View() == AppendAll(old(View()), records)
      ensures unchanged(logger`commitIndex) && Stored(old(logger.entries), records, |records|)
    {
      hide AppendAll;
      NoneAppended(View(), records);
      var k := 0;
      while k < |records|
        invariant 0 <= k <= |records| && Valid()
        invariant View() == AppendAll(old(View()), records[..k])
        invariant unchanged(logger`commitIndex) && Stored(old(logger.entries), records, k)
      {
        var r := records[k];
        ghost var log, was := old(logger.entries), logger.entries;
        assert was[|was| - 1].index == log[|log| - 1].index + k by {
          assert k == 0 ==> was == log;
          assert k > 0 ==> was[|log| + (k - 1)].fName == records[k - 1].name;
        }
        var _ := logger.Append(Entry(0, currentTerm, OP_REGISTER, r.name, r.ip, r.port));
        AppendsOne(old(View()), records, k);
        k := k + 1;
      }
      assert records[..|records|] == records;
    }
  }

  /** One client append per record, in order. */
  function AppendAll(nd: Node, records: seq<Record>): Node {
    if records == [] then nd
    else OnClientAppend(AppendAll(nd, records[..|records| - 1]), records[|records| - 1])
  }

  lemma NoneAppended(nd: Node, records: seq<Record>)
    ensures AppendAll(nd, records[..0]) == nd
  {
    assert records[..0] == [];
  }

  lemma AppendsOne(nd: Node, records: seq<Record>, k: nat)
    requires k < |records|
    ensures AppendAll(nd, records[..k + 1]) == OnClientAppend(AppendAll(nd, records[..k]), records[k])
  {
    assert records[..k + 1][..k] == records[..k];
  }

  predicate HoldsAt(nd: Node, k: nat, i: nat) { i == nd.id || At(nd.matchIndex, i) >= k }

  ghost function Among(nd: Node, k: nat, n: nat): set<nat> {
    set i: nat | 0 <= i < n && HoldsAt(nd, k, i)
  }

  lemma AmongGrows(nd: Node, k: nat, n: nat)
    ensures |Among(nd, k, n + 1)| == |Among(nd, k, n)| + (if n == nd.id || At(nd.matchIndex, n) >= k then 1 else 0)
  {
    if HoldsAt(nd, k, n) {
      assert Among(nd, k, n + 1) == Among(nd, k, n) + {n};
    } else {
      assert Among(nd, k, n + 1) == Among(nd, k, n);
    }
  }

  lemma {:induction false} AmongAll(nd: Node, k: nat, n: nat)
    requires n <= nd.size
    ensures |Among(nd, k, n)| <= |Replicas(nd, k)|
    ensures n == nd.size ==> Among(nd, k, n) == Replicas(nd, k)
    decreases nd.size - n
  {
    if n < nd.size {
      AmongGrows(nd, k, n);
      AmongAll(nd, k, n + 1);
    } else {
      forall i: nat ensures i in Among(nd, k, n) <==> i in Replicas(nd, k) {
        assert HoldsAt(nd, k, i) <==> i == nd.id || At(nd.matchIndex, i) >= k;
      }
      assert Among(nd, k, n) == Replicas(nd, k);
    }
  }
}
