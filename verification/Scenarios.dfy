/**
 Building blocks of concrete runs, for any cluster size: an election, a request sent, taken or
 refused, a reply counted. A block promises what it changes and that the run stays within the
 assumptions asked of it.
 */
module Scenarios {
  import opened RaftTypes
  import opened RaftStep
  import opened Cluster
  import opened ElectionSafety
  import opened LogMatching
  import opened Leadership
  import opened Replication
  import opened RaftTheorems
  import opened Claims

  /** Votes or acknowledgements of others that a leader needs. */
  function Needed(n: nat): nat { n / 2 }

  lemma Step(n: nat, run: Run, ordered: bool, current: bool, ev: Event) returns (run': Run)
    requires Obeys(n, run, ordered, current) && Enabled(Last(run), ev)
    requires ordered ==> DeliversInOrder(Last(run), ev)
    requires current ==> FreshReplicator(Last(run), ev)
    ensures Obeys(n, run', ordered, current) && Continues(run, run')
    ensures Last(run') == Next(Last(run), ev) && |run'.events| == |run.events| + 1
    ensures run'.events[|run.events|] == ev && run'.states[|run.events|] == Last(run)
  {
    run' := Extend(run, ev);
    ExtendIsRun(n, run, ev);
    forall k | 0 <= k < |run'.events|
      ensures Enabled(run'.states[k], run'.events[k])
      ensures ordered ==> DeliversInOrder(run'.states[k], run'.events[k])
      ensures current ==> FreshReplicator(run'.states[k], run'.events[k])
    {
      if k < |run.events| {
        assert run'.events[k] == run.events[k] && run'.states[k] == run.states[k];
      }
    }
  }

  lemma {:induction false} RunSizes(n: nat, run: Run, k: nat)
    requires IsRun(n, run) && k < |run.states|
    ensures run.states[k].Size() == |run.states[k].starting| == n
    ensures forall i :: 0 <= i < n ==> run.states[k].nodes[i].id == i && run.states[k].nodes[i].size == n
  {
    if k > 0 {
      RunSizes(n, run, k - 1);
      assert StepsTo(run.states[k - 1], run.events[k - 1], run.states[k]);
      SizesStep(run.states[k - 1], run.events[k - 1]);
    }
  }

  lemma SizesStep(s: Cluster, ev: Event)
    requires Enabled(s, ev)
    ensures Next(s, ev).Size() == s.Size() && |Next(s, ev).starting| == |s.starting|
    ensures forall i :: 0 <= i < s.Size() ==>
      Next(s, ev).nodes[i].id == s.nodes[i].id && Next(s, ev).nodes[i].size == s.nodes[i].size
  {
  }

  lemma Sizes(n: nat, run: Run)
    requires AnyRun(n, run)
    ensures Last(run).Size() == |Last(run).starting| == n && LogInv(Last(run))
  {
    RunLogs(n, run, |run.states| - 1);
  }

  lemma {:induction false} RunHandled(n: nat, run: Run, k: nat)
    requires AnyRun(n, run) && k < |run.states|
    ensures forall q :: q in run.states[k].hist.handled ==> q < |run.states[k].appends|
  {
    if k > 0 {
      RunHandled(n, run, k - 1);
      assert StepsTo(run.states[k - 1], run.events[k - 1], run.states[k]);
      HandledStep(run.states[k - 1], run.events[k - 1]);
    }
  }

  lemma HandledStep(s: Cluster, ev: Event)
    requires Enabled(s, ev) && forall q :: q in s.hist.handled ==> q < |s.appends|
    ensures forall q :: q in Next(s, ev).hist.handled ==> q < |Next(s, ev).appends|
  {
  }

  /** Messages and replicators of the past stay. */
  ghost predicate Grows(s: Cluster, s': Cluster) {
    s'.Size() == s.Size() && s.appends <= s'.appends && s.appendReplies <= s'.appendReplies
  }

  // ---- elections -------------------------------------------------------------------------

  lemma Campaigns(n: nat, run: Run, ordered: bool, current: bool, c: nat) returns (run': Run)
    requires Obeys(n, run, ordered, current) && c < n && Last(run).Size() == n && Last(run).nodes[c].role != Leader
    ensures Obeys(n, run', ordered, current) && Continues(run, run') && Grows(Last(run), Last(run'))
    ensures var s, s' := Last(run), Last(run');
      var nd := OnElectionTimeout(s.nodes[c]);
      && s'.nodes == s.nodes[c := nd] && s'.appends == s.appends && s'.replicators == s.replicators
      && s'.elections == s.elections + [Election(VoteRequest(nd), Remotes(c, n), 1, {})]
  {
    RunSizes(n, run, |run.states| - 1);
    run' := Step(n, run, ordered, current, ElectionTimeout(c));
    run' := Step(n, run', ordered, current, StartElection(c));
  }

  /** c stands in election e with `got` votes of others; v .. hi-1 have not been asked and would grant. */
  ghost predicate Polling(n: nat, s: Cluster, c: nat, e: nat, v: nat, hi: nat, got: nat) {
    && s.Size() == n && c < n && v <= hi <= n && e < |s.elections|
    && var (nd, el) := (s.nodes[c], s.elections[e]);
    && nd.role == Candidate && nd.size == n && nd.id == c
    && el.params == VoteRequest(nd) && el.granted == 1 + got
    && forall u :: v <= u < hi ==> u != c && u in el.pending && WouldGrant(s.nodes[u], el.params)
  }

  predicate WouldGrant(nd: Node, p: VoteParams) {
    nd.currentTerm < p.term && UpToDate(p.lastLogTerm, p.lastLogIndex, nd.log)
  }

  /** A voter moves to the candidate's term and is otherwise what it was, as far as its log goes. */
  ghost predicate Voted(nd: Node, nd': Node, t: nat) {
    nd'.role == Follower && nd'.currentTerm == t && nd'.log == nd.log
  }

  lemma Grants(n: nat, run: Run, ordered: bool, current: bool, c: nat, e: nat, v: nat, hi: nat, got: nat)
    returns (run': Run)
    requires Obeys(n, run, ordered, current) && Polling(n, Last(run), c, e, v, hi, got) && v < hi
    ensures Obeys(n, run', ordered, current) && Continues(run, run') && Grows(Last(run), Last(run'))
    ensures var s, s' := Last(run), Last(run');
      var t := s.nodes[c].currentTerm;
      && Voted(s.nodes[v], s'.nodes[v], t) && s'.elections == s.elections
      && (forall u :: 0 <= u < n && u != v ==> s'.nodes[u] == s.nodes[u])
      && s'.appends == s.appends && s'.replicators == s.replicators
      && VoteReply(e, v, VoteRets(t, true)) in s'.voteReplies
  {
    var s := Last(run);
    assert v != c && WouldGrant(s.nodes[v], s.elections[e].params);
    run' := Step(n, run, ordered, current, DeliverVote(e, v));
    assert OnVote(s.nodes[v], s.elections[e].params).1 == VoteRets(s.nodes[c].currentTerm, true);
  }

  /** One more vote: it decides the election, or the polling goes on. */
  lemma OneVote(n: nat, run: Run, ordered: bool, current: bool, c: nat, e: nat, v: nat, hi: nat, got: nat)
    returns (run': Run)
    requires Obeys(n, run, ordered, current) && Polling(n, Last(run), c, e, v, hi, got) && v < hi
    ensures Obeys(n, run', ordered, current) && Continues(run, run') && Grows(Last(run), Last(run'))
    ensures var s, s' := Last(run), Last(run');
      && Voted(s.nodes[v], s'.nodes[v], s.nodes[c].currentTerm)
      && (forall u :: 0 <= u < n && u != v && u != c ==> s'.nodes[u] == s.nodes[u])
      && s'.appends == s.appends
      && (2 + got >= Threshold(n) ==>
            && s'.nodes[c] == BecomeLeader(s.nodes[c])
            && s'.replicators == s.replicators + Spawned(c, s.nodes[c].currentTerm, n))
      && (2 + got < Threshold(n) ==>
            && s'.nodes[c] == s.nodes[c] && s'.replicators == s.replicators
            && Polling(n, s', c, e, v + 1, hi, got + 1))
  {
    run' := Grants(n, run, ordered, current, c, e, v, hi, got);
    var s := Last(run');
    assert v in s.elections[e].pending;
    run' := Step(n, run', ordered, current, DeliverVoteReply(VoteReply(e, v, VoteRets(s.nodes[c].currentTerm, true))));
  }

  /** What an election won with the votes of lo .. hi-1 leaves: the winner in office, its voters behind it. */
  ghost predicate Elected(n: nat, s: Cluster, s': Cluster, c: nat, cand: Node, lo: nat, hi: nat) {
    && s.Size() == n == s'.Size() && c < n && hi <= n
    && s'.nodes[c] == BecomeLeader(cand)
    && (forall u :: lo <= u < hi ==> Voted(s.nodes[u], s'.nodes[u], cand.currentTerm))
    && (forall u :: 0 <= u < n && u != c && !(lo <= u < hi) ==> s'.nodes[u] == s.nodes[u])
    && s'.appends == s.appends && s'.replicators == s.replicators + Spawned(c, cand.currentTerm, n)
  }

  lemma {:induction false} Collect(n: nat, run: Run, ordered: bool, current: bool, c: nat, e: nat, v: nat, hi: nat,
                                   got: nat)
    returns (run': Run)
    requires Obeys(n, run, ordered, current) && Polling(n, Last(run), c, e, v, hi, got) && v < hi
    requires 1 + got + (hi - v) == Max(2, Threshold(n))
    ensures Obeys(n, run', ordered, current) && Continues(run, run') && Grows(Last(run), Last(run'))
    ensures Elected(n, Last(run), Last(run'), c, Last(run).nodes[c], v, hi)
    decreases hi - v
  {
    run' := OneVote(n, run, ordered, current, c, e, v, hi, got);
    if v + 1 < hi {
      var mid := run';
      run' := Collect(n, mid, ordered, current, c, e, v + 1, hi, got + 1);
    }
  }

  /** Node c times out and is elected with the votes of lo .. hi-1. */
  lemma ElectBy(n: nat, run: Run, ordered: bool, current: bool, c: nat, lo: nat, hi: nat) returns (run': Run)
    requires Obeys(n, run, ordered, current) && Last(run).Size() == n && c < n
    requires lo < hi <= n && 1 + hi - lo == Max(2, Threshold(n)) && !(lo <= c < hi) && Last(run).nodes[c].role != Leader
    requires var cand := OnElectionTimeout(Last(run).nodes[c]);
      forall u :: lo <= u < hi ==> WouldGrant(Last(run).nodes[u], VoteRequest(cand))
    ensures Obeys(n, run', ordered, current) && Continues(run, run') && Grows(Last(run), Last(run'))
    ensures Elected(n, Last(run), Last(run'), c, OnElectionTimeout(Last(run).nodes[c]), lo, hi)
  {
    RunSizes(n, run, |run.states| - 1);
    var standing := Campaigns(n, run, ordered, current, c);
    var e := |Last(run).elections|;
    forall u | lo <= u < hi ensures u in Remotes(c, n) {
      assert Other(u, c);
    }
    run' := Collect(n, standing, ordered, current, c, e, lo, hi, 0);
  }

  lemma Polled(n: nat, run: Run, ordered: bool, current: bool, e: nat, v: nat) returns (run': Run)
    requires Under(n, run, ordered, current) && v < Last(run).Size() && e < |Last(run).elections|
    requires v != Last(run).elections[e].params.candidateId
    ensures Under(n, run', ordered, current) && Continues(run, run') && Grows(Last(run), Last(run'))
    ensures var s, s' := Last(run), Last(run');
      && s'.nodes == s.nodes[v := OnVote(s.nodes[v], s.elections[e].params).0]
      && s'.appends == s.appends && s'.replicators == s.replicators
  {
    run' := Step(n, run, ordered, current, DeliverVote(e, v));
  }

  lemma VoteDeposes(nd: Node, p: VoteParams)
    requires nd.currentTerm < p.term
    ensures Voted(nd, OnVote(nd, p).0, p.term)
  {
  }

  /** A vote request of a later term deposes whoever it reaches, granted or not. */
  lemma Deposes(n: nat, run: Run, ordered: bool, current: bool, c: nat, v: nat) returns (run': Run)
    requires Under(n, run, ordered, current) && c < n && v < n && v != c && Last(run).Size() == n
    requires Last(run).nodes[c].role != Leader && Last(run).nodes[v].currentTerm <= Last(run).nodes[c].currentTerm
    ensures Under(n, run', ordered, current) && Continues(run, run') && Grows(Last(run), Last(run'))
    ensures var s, s' := Last(run), Last(run');
      && Voted(s.nodes[v], s'.nodes[v], s.nodes[c].currentTerm + 1)
      && s'.nodes[c] == OnElectionTimeout(s.nodes[c])
      && (forall u :: 0 <= u < n && u != c && u != v ==> s'.nodes[u] == s.nodes[u])
      && s'.appends == s.appends && s'.replicators == s.replicators
  {
    hide Next, OnVote;
    Sizes(n, run);
    var p := VoteRequest(OnElectionTimeout(Last(run).nodes[c]));
    VoteDeposes(Last(run).nodes[v], p);
    var standing := Campaigns(n, run, ordered, current, c);
    run' := Polled(n, standing, ordered, current, |Last(run).elections|, v);
  }

  // ---- requests and replies --------------------------------------------------------------

  /** Replicator r asks its follower to take the next entry. */
  lemma Asks(n: nat, run: Run, ordered: bool, current: bool, r: nat) returns (run': Run)
    requires Under(n, run, ordered, current) && Last(run).Size() == n && r < |Last(run).replicators|
    requires var s := Last(run);
      var rep := s.replicators[r];
      && rep.status.Idle? && rep.node < n && s.nodes[rep.node].role == Leader
      && NextEntry(s.nodes[rep.node], rep.follower).op != OP_NULL
      && (current ==> CurrentReplicator(s, r))
    ensures Under(n, run', ordered, current) && Continues(run, run') && Grows(Last(run), Last(run'))
    ensures var s := Last(run);
      var rep := s.replicators[r];
      var nd := s.nodes[rep.node];
      Last(run') == SetStatus(s, r, Waiting(|s.appends|)).(
        appends := s.appends + [AppendCall(rep.follower, AppendRequest(nd, rep.follower, NextEntry(nd, rep.follower)))])
  {
    run' := Step(n, run, ordered, current, Replicate(r));
  }

  /** Delivering the newest call is always in order. */
  lemma NewestInOrder(n: nat, run: Run, q: nat)
    requires AnyRun(n, run) && q + 1 == |Last(run).appends| && Enabled(Last(run), DeliverAppend(q))
    ensures DeliversInOrder(Last(run), DeliverAppend(q))
  {
    RunHandled(n, run, |run.states| - 1);
  }

  ghost predicate CanTake(nd: Node, p: AppendParams) {
    && (nd.currentTerm < p.term || (nd.role == Follower && nd.currentTerm == p.term)) && !IsHeartbeat(p)
    && p.prevLogIndex < |nd.log| && nd.log[p.prevLogIndex].term == p.prevLogTerm
  }

  /** A follower that has the previous entry takes the new one and drops what it had after it. */
  lemma Delivers(n: nat, run: Run, ordered: bool, current: bool, q: nat) returns (run': Run)
    requires Under(n, run, ordered, current) && Last(run).Size() == n && q < |Last(run).appends|
    requires Last(run).appends[q].to < n
    requires CanTake(Last(run).nodes[Last(run).appends[q].to], Last(run).appends[q].params)
    requires ordered ==> q + 1 == |Last(run).appends|
    ensures Under(n, run', ordered, current) && Continues(run, run') && Grows(Last(run), Last(run'))
    ensures |run'.events| == |run.events| + 1 && run'.events[|run.events|] == DeliverAppend(q)
    ensures run'.states[|run.events|] == Last(run)
    ensures var s, s' := Last(run), Last(run');
      var (f, p) := (s.appends[q].to, s.appends[q].params);
      && Took(s.nodes[f], s'.nodes[f], p)
      && (forall u :: 0 <= u < n && u != f ==> s'.nodes[u] == s.nodes[u])
      && s'.replicators == s.replicators && s'.appends == s.appends
      && AppendReply(q, AppendRets(true, p.term)) in s'.appendReplies
  {
    var s := Last(run);
    var f, p := s.appends[q].to, s.appends[q].params;
    OwnIndices(n, run, f);
    TakesEntry(s.nodes[f], p);
    if ordered {
      NewestInOrder(n, run, q);
    }
    run' := Step(n, run, ordered, current, DeliverAppend(q));
    assert Last(run').nodes == s.nodes[f := OnAppend(s.nodes[f], p).0];
  }

  ghost predicate Took(nd: Node, nd': Node, p: AppendParams)
    requires p.prevLogIndex < |nd.log|
  {
    nd'.role == Follower && nd'.currentTerm == p.term && nd'.log == nd.log[..p.prevLogIndex + 1] + [p.entry]
  }

  lemma OwnIndices(n: nat, run: Run, f: nat)
    requires AnyRun(n, run) && f < Last(run).Size()
    ensures forall i :: 0 <= i < |Last(run).nodes[f].log| ==> Last(run).nodes[f].log[i].index == i
  {
    Sizes(n, run);
    var s := Last(run);
    assert NodeLogOk(s.hist, s.nodes[f]);
    RecordedIsShaped(s.hist, s.nodes[f].log);
  }

  lemma TakesEntry(nd: Node, p: AppendParams)
    requires CanTake(nd, p) && forall i :: 0 <= i < |nd.log| ==> nd.log[i].index == i
    ensures OnAppend(nd, p).1 == AppendRets(true, p.term) && Took(nd, OnAppend(nd, p).0, p)
  {
    FindLastShaped(nd.log, p.prevLogIndex);
  }

  lemma AcceptedHandles(n: nat, run: Run, run': Run, q: nat, f: nat, t: nat)
    requires AnyRun(n, run) && AnyRun(n, run') && f < n && Last(run).Size() == n && IsCall(Last(run), q, f, t)
    requires CanTake(Last(run).nodes[f], Last(run).appends[q].params)
    requires |run'.events| == |run.events| + 1 && run'.events[|run.events|] == DeliverAppend(q)
    requires run'.states[|run.events|] == Last(run)
    ensures Handles(n, run', |run.events|, q, f, t, true)
  {
    OwnIndices(n, run, f);
    TakesEntry(Last(run).nodes[f], Last(run).appends[q].params);
  }

  lemma HandlesStays(n: nat, run: Run, run': Run, k: nat, q: nat, f: nat, t: nat, success: bool)
    requires IsRun(n, run) && IsRun(n, run') && Continues(run, run') && Handles(n, run, k, q, f, t, success)
    ensures Handles(n, run', k, q, f, t, success) && k < |run.events|
  {
    assert run'.events[k] == run.events[k] && run'.states[k] == run.states[k];
  }

  ghost predicate MustRefuse(nd: Node, p: AppendParams) {
    nd.role == Follower && nd.currentTerm == p.term && !IsHeartbeat(p) && |nd.log| <= p.prevLogIndex
  }

  /** A follower without the previous entry refuses, and keeps its log. */
  lemma Refuses(n: nat, run: Run, ordered: bool, current: bool, q: nat) returns (run': Run)
    requires Under(n, run, ordered, current) && Last(run).Size() == n && q + 1 == |Last(run).appends|
    requires Last(run).appends[q].to < n
    requires MustRefuse(Last(run).nodes[Last(run).appends[q].to], Last(run).appends[q].params)
    ensures Under(n, run', ordered, current) && Continues(run, run') && Grows(Last(run), Last(run'))
    ensures |run'.events| == |run.events| + 1 && run'.events[|run.events|] == DeliverAppend(q)
    ensures run'.states[|run.events|] == Last(run)
    ensures var s, s' := Last(run), Last(run');
      var (f, p) := (s.appends[q].to, s.appends[q].params);
      && Voted(s.nodes[f], s'.nodes[f], p.term) && !OnAppend(s.nodes[f], p).1.success
      && (forall u :: 0 <= u < n && u != f ==> s'.nodes[u] == s.nodes[u])
      && s'.replicators == s.replicators && s'.appends == s.appends
      && AppendReply(q, AppendRets(false, p.term)) in s'.appendReplies
  {
    var s := Last(run);
    var f, p := s.appends[q].to, s.appends[q].params;
    OwnIndices(n, run, f);
    FindLastShaped(s.nodes[f].log, p.prevLogIndex);
    assert OnAppend(s.nodes[f], p).1 == AppendRets(false, p.term);
    NewestInOrder(n, run, q);
    run' := Step(n, run, ordered, current, DeliverAppend(q));
    assert Last(run').nodes == s.nodes[f := OnAppend(s.nodes[f], p).0];
  }

  /** Replicator r waits for a reply, which is there. */
  ghost predicate Answered(n: nat, s: Cluster, r: nat, rets: AppendRets) {
    && s.Size() == n && r < |s.replicators|
    && var rep := s.replicators[r];
    && rep.node < n && s.nodes[rep.node].role == Leader && s.nodes[rep.node].id == rep.node && rep.status.Waiting?
    && AppendReply(rep.status.request, rets) in s.appendReplies
  }

  /** An accepting reply of the leader's own term is counted, whoever's replicator reads it. */
  lemma Acked(n: nat, run: Run, ordered: bool, current: bool, r: nat) returns (run': Run)
    requires Under(n, run, ordered, current)
    requires r < |Last(run).replicators| && Last(run).replicators[r].node < Last(run).Size()
    requires var t := Last(run).nodes[Last(run).replicators[r].node].currentTerm;
      Answered(n, Last(run), r, AppendRets(true, t))
    requires current ==> CurrentReplicator(Last(run), r)
    ensures Under(n, run', ordered, current) && Continues(run, run') && Grows(Last(run), Last(run'))
    ensures |run'.events| == |run.events| + 1 && run'.states[|run.events|] == Last(run)
    ensures var s, s' := Last(run), Last(run');
      var rep := s.replicators[r];
      var (l, f) := (rep.node, rep.follower);
      && s'.nodes[l].(commitIndex := 0) == Acknowledge(s.nodes[l], f).(commitIndex := 0)
      && (forall u :: 0 <= u < n && u != l ==> s'.nodes[u] == s.nodes[u])
      && s'.replicators == s.replicators[r := rep.(status := Idle)] && s'.appends == s.appends
      && (|Replicas(Acknowledge(s.nodes[l], f), At(s.nodes[l].nextIndex, f))| >= Threshold(s.nodes[l].size) ==>
            Counts(n, run', |run.events|, l, At(s.nodes[l].nextIndex, f)))
  {
    var s := Last(run);
    var ev := DeliverAppendReply(r, AppendRets(true, s.nodes[s.replicators[r].node].currentTerm));
    run' := Step(n, run, ordered, current, ev);
  }

  /** A rejecting reply lowers nextIndex and ends the replicator. */
  lemma Denied(n: nat, run: Run, ordered: bool, current: bool, r: nat) returns (run': Run)
    requires Under(n, run, ordered, current)
    requires r < |Last(run).replicators| && Last(run).replicators[r].node < Last(run).Size()
    requires var nd := Last(run).nodes[Last(run).replicators[r].node];
      && Answered(n, Last(run), r, AppendRets(false, nd.currentTerm))
      && At(nd.nextIndex, Last(run).replicators[r].follower) > 1
    requires current ==> CurrentReplicator(Last(run), r)
    ensures Under(n, run', ordered, current) && Continues(run, run') && Grows(Last(run), Last(run'))
    ensures var s, s' := Last(run), Last(run');
      var rep := s.replicators[r];
      var (nd, f) := (s.nodes[rep.node], rep.follower);
      && s'.nodes == s.nodes[rep.node := nd.(nextIndex := nd.nextIndex[f := At(nd.nextIndex, f) - 1])]
      && s'.replicators == s.replicators[r := rep.(status := Done)] && s'.appends == s.appends
  {
    var s := Last(run);
    var ev := DeliverAppendReply(r, AppendRets(false, s.nodes[s.replicators[r].node].currentTerm));
    run' := Step(n, run, ordered, current, ev);
  }

  /** A reply of an earlier term is ignored, but the replicator goes on (raft_node.cpp:320-323). */
  lemma Ignored(n: nat, run: Run, ordered: bool, r: nat, rets: AppendRets) returns (run': Run)
    requires Under(n, run, ordered, false) && Answered(n, Last(run), r, rets)
    requires rets.term < Last(run).nodes[Last(run).replicators[r].node].currentTerm
    ensures Under(n, run', ordered, false) && Continues(run, run') && Grows(Last(run), Last(run'))
    ensures Last(run') == SetStatus(Last(run), r, Idle)
  {
    run' := Step(n, run, ordered, false, DeliverAppendReply(r, rets));
    assert Last(run').nodes == Last(run).nodes;
  }

  /** A client write at leader l. */
  lemma Writes(n: nat, run: Run, ordered: bool, current: bool, l: nat, record: Record) returns (run': Run)
    requires Under(n, run, ordered, current) && Last(run).Size() == n && l < n && AcceptsWrites(Last(run).nodes[l])
    ensures Under(n, run', ordered, current) && Continues(run, run') && Grows(Last(run), Last(run'))
    ensures var s, s' := Last(run), Last(run');
      && s'.nodes == s.nodes[l := OnClientAppend(s.nodes[l], record)]
      && s'.appends == s.appends && s'.replicators == s.replicators
  {
    run' := Step(n, run, ordered, current, ClientAppend(l, record));
  }

  lemma CountsStays(n: nat, run: Run, run': Run, k: nat, l: nat, p: nat)
    requires IsRun(n, run) && IsRun(n, run') && Continues(run, run') && Counts(n, run, k, l, p)
    ensures Counts(n, run', k, l, p) && run'.states[k] == run.states[k]
  {
    assert run'.events[k] == run.events[k];
  }

  // ---- replicating one entry to a number of followers --------------------------------------

  ghost predicate Leads(n: nat, s: Cluster, c: nat, t: nat, log: seq<Entry>) {
    && s.Size() == n && c < n
    && var nd := s.nodes[c];
    nd.role == Leader && nd.currentTerm == t && nd.log == log && nd.id == c && nd.size == n && nd.leaderId == c
  }

  ghost predicate Distinct(fs: seq<nat>) {
    forall x, y :: 0 <= x < y < |fs| ==> fs[x] != fs[y]
  }

  /** Followers fs and their idle replicators rs of the leadership of c in term t. */
  ghost predicate Roster(n: nat, s: Cluster, c: nat, t: nat, fs: seq<nat>, rs: seq<nat>) {
    && |fs| == |rs| && Distinct(fs)
    && forall x :: 0 <= x < |fs| ==>
         fs[x] < n && fs[x] != c && rs[x] < |s.replicators| && s.replicators[rs[x]] == Replicator(c, fs[x], t, Idle)
  }

  /** Follower nd, called f, has everything below `next` and can take the entry there. */
  ghost predicate Behind(nd: Node, lead: Node, f: nat, next: nat) {
    && At(lead.nextIndex, f) == next && next <= |nd.log| && next <= |lead.log| && nd.log[..next] == lead.log[..next]
    && (nd.currentTerm < lead.currentTerm || (nd.role == Follower && nd.currentTerm == lead.currentTerm))
  }

  ghost predicate Caught(nd: Node, lead: Node, f: nat, next: nat) {
    && At(lead.nextIndex, f) == next + 1 && At(lead.matchIndex, f) >= next && next + 1 <= |lead.log|
    && nd.role == Follower && nd.currentTerm == lead.currentTerm && nd.log == lead.log[..next + 1]
  }

  /** Entry `next` of c's log is with the first i followers, and next for the others. */
  ghost predicate Spread(n: nat, s: Cluster, c: nat, t: nat, log: seq<Entry>, next: nat, fs: seq<nat>, rs: seq<nat>,
                         i: nat) {
    && Leads(n, s, c, t, log) && Roster(n, s, c, t, fs, rs) && i <= |fs|
    && 0 < next < |log| && log[next].op != OP_NULL && log[next].op != OP_HEARTBEAT
    && (forall x :: 0 <= x < i ==> Caught(s.nodes[fs[x]], s.nodes[c], fs[x], next))
    && (forall x :: i <= x < |fs| ==> Behind(s.nodes[fs[x]], s.nodes[c], fs[x], next))
  }

  function Members(fs: seq<nat>): set<nat> {
    set f | f in fs
  }

  lemma {:induction false} DistinctSize(fs: seq<nat>)
    requires Distinct(fs)
    ensures |Members(fs)| == |fs|
  {
    if fs != [] {
      var last, front := fs[|fs| - 1], fs[..|fs| - 1];
      DistinctSize(front);
      assert fs == front + [last];
      assert Members(fs) == Members(front) + {last};
    }
  }

  lemma EnoughReplicas(nd: Node, fs: seq<nat>, k: nat)
    requires nd.size >= 2 && SafeSize(nd.size) && nd.id < nd.size && Distinct(fs) && |fs| == Needed(nd.size)
    requires forall f :: f in fs ==> f < nd.size && f != nd.id && At(nd.matchIndex, f) >= k
    ensures |Replicas(nd, k)| >= Threshold(nd.size)
  {
    DistinctSize(fs);
    Subset(Members(fs) + {nd.id}, Replicas(nd, k));
  }

  /** Call number q carries entry `next` of `log` to follower f for the leadership of term t. */
  ghost predicate IsCopy(s: Cluster, q: nat, f: nat, t: nat, log: seq<Entry>, next: nat) {
    && q < |s.appends| && 0 < next < |log|
    && var call := s.appends[q];
    && call.to == f && call.params.term == t && call.params.entry == log[next]
    && call.params.prevLogIndex == next - 1 && call.params.prevLogTerm == log[next - 1].term
  }

  /** Replicator r of the leader c sends entry `next`, and f takes it; the reply is on its way. */
  lemma Hands(n: nat, run: Run, ordered: bool, current: bool, c: nat, t: nat, log: seq<Entry>, next: nat, r: nat)
    returns (run': Run)
    requires Under(n, run, ordered, current) && Leads(n, Last(run), c, t, log) && r < |Last(run).replicators|
    requires var (s, rep) := (Last(run), Last(run).replicators[r]);
      && rep.node == c && rep.follower < n && rep.follower != c && rep.status.Idle? && (current ==> rep.born == t)
      && Behind(s.nodes[rep.follower], s.nodes[c], rep.follower, next)
    requires 0 < next < |log| && log[next].op != OP_NULL && log[next].op != OP_HEARTBEAT
    ensures Under(n, run', ordered, current) && Continues(run, run') && Grows(Last(run), Last(run'))
    ensures var (s, s') := (Last(run), Last(run'));
      var (f, q) := (s.replicators[r].follower, |s.appends|);
      && s'.nodes[f].role == Follower && s'.nodes[f].currentTerm == t && s'.nodes[f].log == log[..next + 1]
      && (forall u :: 0 <= u < n && u != f ==> s'.nodes[u] == s.nodes[u])
      && s'.replicators == s.replicators[r := s.replicators[r].(status := Waiting(q))]
      && |s'.appends| == q + 1 && IsCopy(s', q, f, t, log, next)
      && AppendReply(q, AppendRets(true, t)) in s'.appendReplies
    ensures |run'.events| > 0
    ensures Handles(n, run', |run'.events| - 1, |Last(run).appends|, Last(run).replicators[r].follower, t, true)
  {
    hide Next, Handles;
    var s := Last(run);
    var f, q := s.replicators[r].follower, |s.appends|;
    var sent := Asks(n, run, ordered, current, r);
    assert Last(sent).appends[q] == AppendCall(f, AppendRequest(s.nodes[c], f, log[next]));
    assert s.nodes[f].log[..next][next - 1] == log[..next][next - 1];
    run' := Delivers(n, sent, ordered, current, q);
    AcceptedHandles(n, sent, run', q, f, t);
    assert Last(run').nodes[f].log == log[..next + 1];
  }

  /** Replicator r asks for entry `next`, its follower's log is too short for it, and nextIndex goes back. */
  lemma TurnsDown(n: nat, run: Run, ordered: bool, current: bool, c: nat, t: nat, log: seq<Entry>, next: nat, r: nat)
    returns (run': Run, k: nat)
    requires Under(n, run, ordered, current) && Leads(n, Last(run), c, t, log) && r < |Last(run).replicators|
    requires var (s, rep) := (Last(run), Last(run).replicators[r]);
      && rep.node == c && rep.follower < n && rep.follower != c && rep.status.Idle? && (current ==> rep.born == t)
      && At(s.nodes[c].nextIndex, rep.follower) == next
      && s.nodes[rep.follower].role == Follower && s.nodes[rep.follower].currentTerm == t
      && |s.nodes[rep.follower].log| < next
    requires 1 < next < |log| && log[next].op != OP_NULL && log[next].op != OP_HEARTBEAT
    ensures Under(n, run', ordered, current) && Continues(run, run') && Grows(Last(run), Last(run'))
    ensures k >= |run.events|
    ensures Handles(n, run', k, |Last(run).appends|, Last(run).replicators[r].follower, t, false)
    ensures var (s, s') := (Last(run), Last(run'));
      var f := s.replicators[r].follower;
      && s'.nodes[c] == s.nodes[c].(nextIndex := s.nodes[c].nextIndex[f := next - 1])
      && Voted(s.nodes[f], s'.nodes[f], t)
      && (forall u :: 0 <= u < n && u != f && u != c ==> s'.nodes[u] == s.nodes[u])
      && s'.replicators == s.replicators[r := s.replicators[r].(status := Done)]
  {
    hide Next;
    var s := Last(run);
    var f, q := s.replicators[r].follower, |s.appends|;
    var asked := Asks(n, run, ordered, current, r);
    assert Last(asked).appends[q] == AppendCall(f, AppendRequest(s.nodes[c], f, log[next]));
    var refused := Refuses(n, asked, ordered, current, q);
    k := |asked.events|;
    assert Handles(n, refused, k, q, f, t, false);
    run' := Denied(n, refused, ordered, current, r);
    HandlesStays(n, refused, run', k, q, f, t, false);
  }

  /** Replicator rs[i] sends the entry, its follower takes it, and the leader counts it. */
  lemma CopyOne(n: nat, run: Run, ordered: bool, current: bool, c: nat, t: nat, log: seq<Entry>,
                                   next: nat, fs: seq<nat>, rs: seq<nat>, i: nat) returns (run': Run)
    requires Under(n, run, ordered, current) && n >= 2
    requires Spread(n, Last(run), c, t, log, next, fs, rs, i) && i < |fs|
    ensures Under(n, run', ordered, current) && Continues(run, run') && Grows(Last(run), Last(run'))
    ensures Spread(n, Last(run'), c, t, log, next, fs, rs, i + 1)
    ensures forall u :: 0 <= u < n && u != c && u != fs[i] ==> Last(run').nodes[u] == Last(run).nodes[u]
    ensures Last(run').replicators == Last(run).replicators
    ensures IsCopy(Last(run'), |Last(run).appends|, fs[i], t, log, next)
    ensures |run'.events| > 0 && run'.states[|run'.events| - 1].Size() == n
    ensures i + 1 == |fs| == Needed(n) ==> Counts(n, run', |run'.events| - 1, c, next)
    ensures Leads(n, run'.states[|run'.events| - 1], c, t, log)
  {
    hide Next, Handles;
    var s := Last(run);
    assert Behind(s.nodes[fs[i]], s.nodes[c], fs[i], next);
    var taken := Hands(n, run, ordered, current, c, t, log, next, rs[i]);
    run' := Acked(n, taken, ordered, current, rs[i]);
    CopyOneSpread(n, s, Last(run'), c, t, log, next, fs, rs, i);
    if i + 1 == |fs| == Needed(n) {
      CaughtEnough(n, Last(taken), c, t, log, next, fs, rs, i);
    }
  }

  lemma CopyOneSpread(n: nat, s: Cluster, s': Cluster, c: nat, t: nat, log: seq<Entry>, next: nat,
                      fs: seq<nat>, rs: seq<nat>, i: nat)
    requires Spread(n, s, c, t, log, next, fs, rs, i) && i < |fs| && s'.Size() == n
    requires s'.nodes[c].(commitIndex := 0) == Acknowledge(s.nodes[c], fs[i]).(commitIndex := 0)
    requires s'.nodes[fs[i]].role == Follower && s'.nodes[fs[i]].currentTerm == t
    requires s'.nodes[fs[i]].log == log[..next + 1]
    requires forall u :: 0 <= u < n && u != c && u != fs[i] ==> s'.nodes[u] == s.nodes[u]
    requires s'.replicators == s.replicators
    ensures Spread(n, s', c, t, log, next, fs, rs, i + 1)
  {
    assert Behind(s.nodes[fs[i]], s.nodes[c], fs[i], next);
    forall x | 0 <= x < i + 1 ensures Caught(s'.nodes[fs[x]], s'.nodes[c], fs[x], next) {
      if x < i {
        assert Caught(s.nodes[fs[x]], s.nodes[c], fs[x], next);
      }
    }
    forall x | i + 1 <= x < |fs| ensures Behind(s'.nodes[fs[x]], s'.nodes[c], fs[x], next) {
      assert Behind(s.nodes[fs[x]], s.nodes[c], fs[x], next);
    }
  }

  lemma CaughtEnough(n: nat, s: Cluster, c: nat, t: nat, log: seq<Entry>, next: nat, fs: seq<nat>, rs: seq<nat>, i: nat)
    requires n >= 2 && SafeSize(n) && Leads(n, s, c, t, log) && Distinct(fs) && i + 1 == |fs| == Needed(n)
    requires forall x :: 0 <= x < |fs| ==> fs[x] < n && fs[x] != c
    requires At(s.nodes[c].nextIndex, fs[i]) == next
    requires forall x :: 0 <= x < i ==> At(s.nodes[c].matchIndex, fs[x]) >= next
    ensures |Replicas(Acknowledge(s.nodes[c], fs[i]), next)| >= Threshold(n)
  {
    var nd := Acknowledge(s.nodes[c], fs[i]);
    forall f | f in fs ensures f < n && f != c && At(nd.matchIndex, f) >= next {
      var x :| 0 <= x < |fs| && fs[x] == f;
    }
    EnoughReplicas(nd, fs, next);
  }

  lemma {:induction false} CopyAll(n: nat, run: Run, ordered: bool, current: bool, c: nat, t: nat, log: seq<Entry>,
                                   next: nat, fs: seq<nat>, rs: seq<nat>, i: nat) returns (run': Run)
    requires Under(n, run, ordered, current) && n >= 2 && |fs| == Needed(n)
    requires Spread(n, Last(run), c, t, log, next, fs, rs, i) && i < |fs|
    ensures Under(n, run', ordered, current) && Continues(run, run') && Grows(Last(run), Last(run'))
    ensures Spread(n, Last(run'), c, t, log, next, fs, rs, |fs|)
    ensures forall u :: 0 <= u < n && u != c && u !in fs ==> Last(run').nodes[u] == Last(run).nodes[u]
    ensures Last(run').replicators == Last(run).replicators
    ensures IsCopy(Last(run'), |Last(run).appends|, fs[i], t, log, next)
    ensures |run'.events| > 0 && Counts(n, run', |run'.events| - 1, c, next)
    ensures Leads(n, run'.states[|run'.events| - 1], c, t, log)
    decreases |fs| - i
  {
    hide Next, Spread;
    run' := CopyOne(n, run, ordered, current, c, t, log, next, fs, rs, i);
    if i + 1 < |fs| {
      var mid := run';
      run' := CopyAll(n, mid, ordered, current, c, t, log, next, fs, rs, i + 1);
    }
  }

  /** After a client write the next entry is ahead of the same followers. */
  lemma WriteSpreads(n: nat, s: Cluster, s': Cluster, c: nat, t: nat, log: seq<Entry>, next: nat,
                     fs: seq<nat>, rs: seq<nat>, record: Record)
    requires Spread(n, s, c, t, log, next, fs, rs, |fs|) && |log| == next + 1
    requires s'.nodes == s.nodes[c := OnClientAppend(s.nodes[c], record)] && s'.replicators == s.replicators
    ensures Spread(n, s', c, t, Appended(log, RegisterEntry(t, record)), next + 1, fs, rs, 0)
  {
    var log' := Appended(log, RegisterEntry(t, record));
    forall x | 0 <= x < |fs| ensures Behind(s'.nodes[fs[x]], s'.nodes[c], fs[x], next + 1) {
      assert Caught(s.nodes[fs[x]], s.nodes[c], fs[x], next);
      assert log'[..next + 1] == log[..next + 1];
    }
  }
}
