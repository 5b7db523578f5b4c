/**
 What a quorum can still do: position k of term t is choosable while some quorum consists of nodes
 that accepted it or have not left term t. This only ever shrinks, and a log that is at least as up
 to date as one holding a choosable position holds it too (Raft, section 5.4.3).
 */
module Choice {
  import opened RaftTypes
  import opened RaftStep
  import opened Cluster
  import opened ElectionSafety
  import opened LogMatching
  import opened Leadership
  import opened Replication
  import opened Progress

  ghost predicate Could(s: Cluster, v: nat, t: nat, k: nat) {
    v < s.Size() && (s.nodes[v].currentTerm <= t || HasAck(s, v, t, k))
  }

  ghost predicate CouldChoose(s: Cluster, q: set<nat>, t: nat, k: nat) {
    Quorum(s.Size(), q) && forall v :: v in q ==> Could(s, v, t, k)
  }

  ghost predicate Choosable(s: Cluster, t: nat, k: nat) {
    exists q :: CouldChoose(s, q, t, k)
  }

  /** Position k was written by the leader of t itself. */
  ghost predicate OwnPosition(h: History, t: nat, k: nat) {
    t in h.won && t in h.tlog && h.won[t].base <= k < |h.tlog[t]|
  }

  /** `log` holds position k of term t and everything below it. */
  ghost predicate Holds(h: History, log: seq<Entry>, t: nat, k: nat) {
    t in h.tlog && k < |h.tlog[t]| && h.tlog[t][..k + 1] <= log
  }

  ghost predicate LaterLeaderHolds(s: Cluster, t: nat, t': nat, k: nat) {
    t in s.hist.won && t' in s.hist.won && t < t' && OwnPosition(s.hist, t, k) && Choosable(s, t, k) ==>
      t' in s.hist.tlog && Holds(s.hist, s.hist.tlog[t'], t, k)
  }

  ghost predicate NodeHolds(s: Cluster, v: nat, t: nat, k: nat) {
    v < s.Size() && HasAck(s, v, t, k) && OwnPosition(s.hist, t, k) && Choosable(s, t, k) ==>
      Holds(s.hist, s.nodes[v].log, t, k)
  }

  ghost predicate BallotHolds(s: Cluster, v: nat, t': nat, t: nat, k: nat) {
    (v, t') in s.hist.ballots && t < t' && HasAck(s, v, t, k) && OwnPosition(s.hist, t, k) && Choosable(s, t, k) ==>
      Holds(s.hist, s.hist.ballots[(v, t')].voterLog, t, k)
  }

  ghost predicate BallotRecorded(s: Cluster, v: nat, t: nat) {
    (v, t) in s.hist.ballots ==> Recorded(s.hist, s.hist.ballots[(v, t)].voterLog)
  }

  ghost predicate ChoiceInv(s: Cluster) {
    && FifoInv(s)
    && (forall t, t', k :: LaterLeaderHolds(s, t, t', k))
    && (forall v, t, k :: NodeHolds(s, v, t, k))
    && (forall v, t', t, k :: BallotHolds(s, v, t', t, k))
    && (forall v, t :: BallotRecorded(s, v, t))
  }

  // ---- choosable only shrinks ------------------------------------------------------------

  lemma ChoosableShrinks(s: Cluster, s': Cluster, t: nat, k: nat)
    requires Advances(s, s') && Choosable(s', t, k)
    ensures Choosable(s, t, k)
  {
    var q :| CouldChoose(s', q, t, k);
    forall v | v in q ensures Could(s, v, t, k) {
      assert Could(s', v, t, k);
    }
    assert CouldChoose(s, q, t, k);
  }

  /** Once a later leader exists, a position its voters had not accepted is lost for good. */
  lemma NotChoosable(s: Cluster, t: nat, t': nat, k: nat)
    requires VoteInv(s) && SafeSize(s.Size()) && t' in s.hist.won && t < t'
    requires forall v :: v in s.hist.won[t'].voters ==> !HasAck(s, v, t, k)
    ensures !Choosable(s, t, k)
  {
    assert WonOk(s, t');
    forall v | v in s.hist.won[t'].voters ensures !Could(s, v, t, k) {
      assert HasVote(s, v, t', s.hist.won[t'].leader) && BallotOk(s, v, t');
    }
    if Choosable(s, t, k) {
      var q :| CouldChoose(s, q, t, k);
      var v := QuorumsMeet(s.Size(), q, s.hist.won[t'].voters);
      assert false;
    }
  }

  // ---- the winner's log ------------------------------------------------------------------

  /** A log at least as up to date as one that holds a choosable position holds it too. */
  lemma DominatingHolds(s: Cluster, log: seq<Entry>, voterLog: seq<Entry>, t: nat, k: nat)
    requires ChoiceInv(s) && Recorded(s.hist, log) && Recorded(s.hist, voterLog)
    requires UpToDate(LastTerm(log), LastIndex(log), voterLog)
    requires OwnPosition(s.hist, t, k) && Choosable(s, t, k) && Holds(s.hist, voterLog, t, k)
    ensures Holds(s.hist, log, t, k)
  {
    var h := s.hist;
    RecordedIsShaped(h, log);
    RecordedIsShaped(h, voterLog);
    assert TermLogOk(h, t) && TermLogOk(h, LastTerm(log));
    var mine := h.tlog[t];
    assert mine[..k + 1][k] == mine[k] == voterLog[k];
    var u := LastTerm(log);
    assert t <= LastTerm(voterLog) <= u;
    if u == t {
      assert log == mine[..|log|];
      assert k < |log|;
    } else {
      assert LaterLeaderHolds(s, t, u, k);
      var theirs := h.tlog[u];
      assert theirs[k] == mine[..k + 1][k];
      assert theirs[|log| - 1].term == u;
      assert k < |log| - 1;
    }
  }

  lemma WinnerHolds(s: Cluster, m: VoteReply, t: nat, k: nat)
    requires ChoiceInv(s) && Enabled(s, DeliverVoteReply(m)) && IsWin(s, m) && SafeSize(s.Size())
    requires OwnPosition(s.hist, t, k) && Choosable(s, t, k)
    requires t < s.nodes[s.elections[m.election].params.candidateId].currentTerm
    ensures Holds(s.hist, s.nodes[s.elections[m.election].params.candidateId].log, t, k)
  {
    var c := s.elections[m.election].params.candidateId;
    var term := s.nodes[c].currentTerm;
    assert NodeOk(s, c) && ElectionOk(s, m.election) && ReplyOk(s, m);
    WinnerHasQuorum(s, m);
    var q :| CouldChoose(s, q, t, k);
    var v := QuorumsMeet(s.Size(), q, WinningVoters(s, m));
    assert HasVote(s, v, term, c) && BallotOk(s, v, term) && Could(s, v, t, k);
    assert BallotHolds(s, v, term, t, k) && BallotRecorded(s, v, term);
    assert NodeLogOk(s.hist, s.nodes[c]);
    VoterDominated(s, c, v);
    DominatingHolds(s, s.nodes[c].log, s.hist.ballots[(v, term)].voterLog, t, k);
  }

  /** While it is candidate, a node's log is at least as up to date as each of its voters' was. */
  lemma VoterDominated(s: Cluster, c: nat, v: nat)
    requires VoteInv(s) && c < s.Size() && s.nodes[c].role == Candidate && HasVote(s, v, s.nodes[c].currentTerm, c)
    ensures UpToDate(LastTerm(s.nodes[c].log), LastIndex(s.nodes[c].log),
                     s.hist.ballots[(v, s.nodes[c].currentTerm)].voterLog)
  {
    var term := s.nodes[c].currentTerm;
    assert NodeOk(s, c) && BallotOk(s, v, term);
    var b := s.hist.ballots[(v, term)];
    if v != c {
      assert ElectionOk(s, b.election);
    }
  }
}
