/** The claims of FifoTheorems and OwnTermCommit as predicates on runs, so that their exact conditions can be stated. */
module Claims {
  import opened RaftTypes
  import opened RaftStep
  import opened Cluster
  import opened Leadership
  import opened RaftTheorems

  /** What leader l counts at event k is an entry of its own term. */
  ghost predicate OwnTermAt(n: nat, run: Run, k: nat, l: nat, p: nat)
    requires IsRun(n, run)
  {
    Counts(n, run, k, l, p) ==>
      var nd := run.states[k].nodes[l];
      nd.role == Leader && p < |nd.log| && nd.log[p].term == nd.currentTerm
  }

  ghost predicate OwnTerm(n: nat, run: Run)
    requires IsRun(n, run)
  {
    forall k, l, p :: OwnTermAt(n, run, k, l, p)
  }

  /** What l counts at event j, leader b of the same or a later term holds in state k. */
  ghost predicate CompleteAt(n: nat, run: Run, j: nat, k: nat, l: nat, p: nat, b: nat)
    requires IsRun(n, run)
  {
    && Counts(n, run, j, l, p) && j < k < |run.states| && b < run.states[k].Size()
    && run.states[k].nodes[b].role == Leader
    && run.states[j].nodes[l].currentTerm <= run.states[k].nodes[b].currentTerm ==>
      p < |run.states[j].nodes[l].log| && run.states[j].nodes[l].log[..p + 1] <= run.states[k].nodes[b].log
  }

  ghost predicate Complete(n: nat, run: Run)
    requires IsRun(n, run)
  {
    forall j, k, l, p, b :: CompleteAt(n, run, j, k, l, p, b)
  }

  /** What a counts at event j and what b counts at event k agree as far as both go. */
  ghost predicate AgreeAt(n: nat, run: Run, j: nat, k: nat, a: nat, b: nat, p: nat, p': nat)
    requires IsRun(n, run)
  {
    j < k && Counts(n, run, j, a, p) && Counts(n, run, k, b, p') ==>
      var la, lb := run.states[j].nodes[a].log, run.states[k].nodes[b].log;
      var m := Min(p, p');
      m < |la| && m < |lb| && la[..m + 1] == lb[..m + 1]
  }

  ghost predicate CountsAgree(n: nat, run: Run)
    requires IsRun(n, run)
  {
    forall j, k, a, b, p, p' :: AgreeAt(n, run, j, k, a, b, p, p')
  }

  /** Up to what l's matchIndex said in state j, f holds l's entries in state k, if still in that term. */
  ghost predicate MatchAt(n: nat, run: Run, j: nat, k: nat, l: nat, f: nat)
    requires IsRun(n, run)
  {
    && j <= k < |run.states| && l < run.states[j].Size() && f < run.states[k].Size() && f != l
    && run.states[j].nodes[l].role == Leader && At(run.states[j].nodes[l].matchIndex, f) > 0
    && run.states[k].nodes[f].currentTerm == run.states[j].nodes[l].currentTerm ==>
      var m := At(run.states[j].nodes[l].matchIndex, f);
      m < |run.states[j].nodes[l].log| && run.states[j].nodes[l].log[..m + 1] <= run.states[k].nodes[f].log
  }

  ghost predicate MatchSound(n: nat, run: Run)
    requires IsRun(n, run)
  {
    forall j, k, l, f :: MatchAt(n, run, j, k, l, f)
  }

  /** Event k delivers call q of leadership t to f, with this outcome. */
  ghost predicate Handles(n: nat, run: Run, k: nat, q: nat, f: nat, t: nat, success: bool)
    requires IsRun(n, run)
  {
    && k < |run.events| && run.events[k] == DeliverAppend(q) && IsCall(run.states[k], q, f, t)
    && f < run.states[k].Size() && run.states[k].nodes[f].currentTerm <= t
    && OnAppend(run.states[k].nodes[f], run.states[k].appends[q].params).1.success == success
  }

  /** Having accepted from a leadership, f does not reject a later call of it. */
  ghost predicate SteadyAt(n: nat, run: Run, j: nat, k: nat, q: nat, q': nat, f: nat, t: nat)
    requires IsRun(n, run)
  {
    j < k && Handles(n, run, j, q, f, t, true) ==> !Handles(n, run, k, q', f, t, false)
  }

  ghost predicate Steady(n: nat, run: Run)
    requires IsRun(n, run)
  {
    forall j, k, q, q', f, t :: SteadyAt(n, run, j, k, q, q', f, t)
  }
}
