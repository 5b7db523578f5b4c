/**
 Exactly which assumptions each claim of FifoTheorems and OwnTermCommit needs, for every cluster
 size: `ordered` is in-order handling of requests, a matter of the network; `current` is that no
 replicator of an earlier leadership acts in a later one, a matter of the code, which does not test it.
 */
module ExactConditions {
  import opened RaftTypes
  import opened RaftStep
  import opened Cluster
  import opened ElectionSafety
  import opened LogMatching
  import opened Leadership
  import opened Replication
  import opened RaftTheorems
  import opened FifoTheorems
  import opened TwoNodes
  import opened Claims
  import opened DisorderedRun
  import opened StaleRuns
  import opened DoubleCounts

  const SOME_RECORD := Record([], [], 0)

  lemma Weaker(n: nat, run: Run, ordered: bool, current: bool, ordered': bool, current': bool)
    requires Under(n, run, ordered, current) && (ordered' ==> ordered) && (current' ==> current)
    ensures Under(n, run, ordered', current')
  {
    hide Next;
  }

  /** A node alone never leads, so it counts nothing and is sent nothing. */
  lemma AloneCountsNothing(run: Run, k: nat, l: nat, p: nat)
    requires AnyRun(1, run)
    ensures !Counts(1, run, k, l, p)
  {
    if k < |run.events| {
      RunLogs(1, run, k);
    }
  }

  lemma AloneHandlesNothing(run: Run, k: nat, q: nat, f: nat, t: nat, success: bool)
    requires AnyRun(1, run)
    ensures !Handles(1, run, k, q, f, t, success)
  {
    if k < |run.events| {
      RunLogs(1, run, k);
      if q < |run.states[k].appends| {
        CallsLeaveTheirNode(run.states[k], q);
      }
    }
  }

  lemma CallsLeaveTheirNode(s: Cluster, q: nat)
    requires LogInv(s) && q < |s.appends|
    ensures s.Size() >= 2
  {
    assert CallOk(s.hist, s.appends[q].params) && WonOk(s, s.appends[q].params.term);
  }

  // ---- only entries of the leader's own term are counted -----------------------------------

  lemma OwnTermFollows(n: nat, run: Run)
    requires FreshRun(n, run)
    ensures OwnTerm(n, run)
  {
    forall k: nat, l: nat, p: nat ensures OwnTermAt(n, run, k, l, p) {
      if Counts(n, run, k, l, p) {
        OwnTermCommit(n, run, k, l, p);
      }
    }
  }

  /** Own-term counting needs current replicators, and nothing of the network. */
  lemma OwnTermExactlyWhen(n: nat, ordered: bool, current: bool)
    requires 1 <= n < NO_ID && SafeSize(n)
    ensures (forall run :: Under(n, run, ordered, current) ==> OwnTerm(n, run)) <==> (current || n == 1)
  {
    if current {
      forall run | Under(n, run, ordered, current) ensures OwnTerm(n, run) {
        Weaker(n, run, ordered, current, false, true);
        OwnTermFollows(n, run);
      }
    } else if n == 1 {
      forall run | Under(n, run, ordered, current) ensures OwnTerm(n, run) {
        forall k: nat, l: nat, p: nat ensures OwnTermAt(n, run, k, l, p) {
          AloneCountsNothing(run, k, l, p);
        }
      }
    } else {
      var run := StaleCountsForeign(n);
      Weaker(n, run, true, false, ordered, current);
    }
  }

  // ---- leader completeness ---------------------------------------------------------------

  lemma CompleteFollows(n: nat, run: Run)
    requires FifoRun(n, run)
    ensures Complete(n, run)
  {
    forall j: nat, k: nat, l: nat, p: nat, b: nat ensures CompleteAt(n, run, j, k, l, p, b) {
      if Counts(n, run, j, l, p) && j < k < |run.states| && b < run.states[k].Size()
        && run.states[k].nodes[b].role == Leader
        && run.states[j].nodes[l].currentTerm <= run.states[k].nodes[b].currentTerm {
        RunLogs(n, run, j);
        RunLogs(n, run, k);
        LeaderCompletenessHolds(n, run, j, k, l, p, b);
      }
    }
  }

  lemma TwoNodesComplete(run: Run)
    requires FreshRun(2, run)
    ensures Complete(2, run)
  {
    forall j: nat, k: nat, l: nat, p: nat, b: nat ensures CompleteAt(2, run, j, k, l, p, b) {
      if Counts(2, run, j, l, p) && j < k < |run.states| && b < run.states[k].Size()
        && run.states[k].nodes[b].role == Leader
        && run.states[j].nodes[l].currentTerm <= run.states[k].nodes[b].currentTerm {
        RunLogs(2, run, k);
        OwnTermCommit(2, run, j, l, p);
        TwoNodeLeaders(run, j, k, l, b);
      }
    }
  }

  /** The exact condition of leader completeness and of the agreement of counted prefixes. */
  predicate Suffices(n: nat, ordered: bool, current: bool) {
    n == 1 || (current && (ordered || n == 2))
  }

  /** Leader completeness needs both halves of FIFO, except that two nodes do without order. */
  lemma CompleteExactlyWhen(n: nat, ordered: bool, current: bool)
    requires 1 <= n < NO_ID && SafeSize(n)
    ensures (forall run :: Under(n, run, ordered, current) ==> Complete(n, run)) <==> Suffices(n, ordered, current)
  {
    if Suffices(n, ordered, current) {
      forall run | Under(n, run, ordered, current) ensures Complete(n, run) {
        if n == 1 {
          forall j: nat, k: nat, l: nat, p: nat, b: nat ensures CompleteAt(n, run, j, k, l, p, b) {
            AloneCountsNothing(run, j, l, p);
          }
        } else if n == 2 {
          Weaker(n, run, ordered, current, false, true);
          TwoNodesComplete(run);
        } else {
          CompleteFollows(n, run);
        }
      }
    } else if !current {
      var run := StaleMisleads(n, SOME_RECORD);
      Weaker(n, run, true, false, ordered, current);
    } else {
      var run, _, _ := DisorderLosesEntry(n, SOME_RECORD);
    }
  }

  // ---- counted prefixes agree ------------------------------------------------------------

  lemma AgreementFollows(n: nat, run: Run)
    requires FifoRun(n, run)
    ensures CountsAgree(n, run)
  {
    forall j: nat, k: nat, a: nat, b: nat, p: nat, p': nat ensures AgreeAt(n, run, j, k, a, b, p, p') {
      if j < k && Counts(n, run, j, a, p) && Counts(n, run, k, b, p') {
        CountedPrefixesAgree(n, run, j, k, a, b, p, p');
      }
    }
  }

  lemma TwoNodesAgree(run: Run, j: nat, k: nat, a: nat, b: nat, p: nat, p': nat)
    requires FreshRun(2, run) && j < k && Counts(2, run, j, a, p) && Counts(2, run, k, b, p')
    ensures AgreeAt(2, run, j, k, a, b, p, p')
  {
    OwnTermCommit(2, run, j, a, p);
    OwnTermCommit(2, run, k, b, p');
    var la, lb := run.states[j].nodes[a].log, run.states[k].nodes[b].log;
    var ta := run.states[j].nodes[a].currentTerm;
    if ta <= run.states[k].nodes[b].currentTerm {
      TwoNodeLeaders(run, j, k, a, b);
    } else {
      TwoNodeEarlier(run, j, k, a, b);
      PrefixesAgree(la, lb, run.states[k].hist.tlog[ta], p, p');
    }
  }

  lemma AgreementExactlyWhen(n: nat, ordered: bool, current: bool)
    requires 1 <= n < NO_ID && SafeSize(n)
    ensures (forall run :: Under(n, run, ordered, current) ==> CountsAgree(n, run)) <==> Suffices(n, ordered, current)
  {
    if Suffices(n, ordered, current) {
      forall run | Under(n, run, ordered, current) ensures CountsAgree(n, run) {
        if n > 2 {
          AgreementFollows(n, run);
        } else {
          forall j: nat, k: nat, a: nat, b: nat, p: nat, p': nat ensures AgreeAt(n, run, j, k, a, b, p, p') {
            if n == 1 {
              AloneCountsNothing(run, j, a, p);
            } else if j < k && Counts(n, run, j, a, p) && Counts(n, run, k, b, p') {
              Weaker(n, run, ordered, current, false, true);
              TwoNodesAgree(run, j, k, a, b, p, p');
            }
          }
        }
      }
    } else if !current {
      var run := StaleMisleads(n, SOME_RECORD);
      Weaker(n, run, true, false, ordered, current);
    } else {
      var run, _, _ := DisorderLosesEntry(n, SOME_RECORD);
    }
  }

  // ---- matchIndex ------------------------------------------------------------------------

  lemma MatchFollows(n: nat, run: Run)
    requires FifoRun(n, run)
    ensures MatchSound(n, run)
  {
    forall j: nat, k: nat, l: nat, f: nat ensures MatchAt(n, run, j, k, l, f) {
      if j <= k < |run.states| && l < run.states[j].Size() && f < run.states[k].Size() && f != l
        && run.states[j].nodes[l].role == Leader && At(run.states[j].nodes[l].matchIndex, f) > 0
        && run.states[k].nodes[f].currentTerm == run.states[j].nodes[l].currentTerm {
        RunLogs(n, run, j);
        RunLogs(n, run, k);
        MatchIndexSound(n, run, j, k, l, f);
      }
    }
  }

  /** matchIndex can be trusted exactly under both halves of FIFO, or when there is nobody to match. */
  lemma MatchExactlyWhen(n: nat, ordered: bool, current: bool)
    requires 1 <= n < NO_ID && SafeSize(n)
    ensures (forall run :: Under(n, run, ordered, current) ==> MatchSound(n, run))
      <==> n == 1 || (ordered && current)
  {
    if n == 1 {
      forall run | Under(n, run, ordered, current) ensures MatchSound(n, run) {
        forall j: nat, k: nat, l: nat, f: nat ensures MatchAt(n, run, j, k, l, f) {
          if j < |run.states| && k < |run.states| {
            RunLogs(n, run, j);
            RunLogs(n, run, k);
          }
        }
      }
    } else if ordered && current {
      forall run | Under(n, run, ordered, current) ensures MatchSound(n, run) {
        MatchFollows(n, run);
      }
    } else if !current {
      var run := StaleMisleads(n, SOME_RECORD);
      Weaker(n, run, true, false, ordered, current);
    } else {
      var run := DisorderMisleads(n, SOME_RECORD);
    }
  }

  // ---- no rejection after an acceptance ----------------------------------------------------

  lemma SteadyFollows(n: nat, run: Run)
    requires FifoRun(n, run)
    ensures Steady(n, run)
  {
    forall j: nat, k: nat, q: nat, q': nat, f: nat, t: nat ensures SteadyAt(n, run, j, k, q, q', f, t) {
      if j < k && Handles(n, run, j, q, f, t, true) && Handles(n, run, k, q', f, t, false) {
        NeverRejectsAfterAccepting(n, run, j, k, q, q', f, t);
      }
    }
  }

  /** A follower is steady exactly under both halves of FIFO, or when there is none. */
  lemma SteadyExactlyWhen(n: nat, ordered: bool, current: bool)
    requires 1 <= n < NO_ID && SafeSize(n)
    ensures (forall run :: Under(n, run, ordered, current) ==> Steady(n, run))
      <==> n == 1 || (ordered && current)
  {
    if n == 1 {
      forall run | Under(n, run, ordered, current) ensures Steady(n, run) {
        forall j: nat, k: nat, q: nat, q': nat, f: nat, t: nat ensures SteadyAt(n, run, j, k, q, q', f, t) {
          AloneHandlesNothing(run, j, q, f, t, true);
        }
      }
    } else if ordered && current {
      forall run | Under(n, run, ordered, current) ensures Steady(n, run) {
        SteadyFollows(n, run);
      }
    } else if !current {
      var run := StaleMisleads(n, SOME_RECORD);
      Weaker(n, run, true, false, ordered, current);
    } else {
      var run := DisorderMisleads(n, SOME_RECORD);
    }
  }
}
