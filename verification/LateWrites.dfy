/**
 Client writes as the code performs them: handleMsg tests for the leader without a lock, and the
 entry is appended later, under the lock, whatever the node has become by then. Log matching holds
 in all runs exactly when the test is repeated before the append.
 */
module LateWrites {
  import opened RaftTypes
  import opened RaftStep
  import opened Cluster
  import opened ElectionSafety
  import opened LogMatching
  import opened RaftTheorems
  import opened FifoTheorems
  import opened Scenarios
  import opened DisorderedRun
  import opened OrderlyRun

  /** The cluster, and the nodes with writes that have passed the test and are not appended yet. */
  datatype Wide = Wide(cluster: Cluster, passed: multiset<nat>)

  /** An event of the cluster, or one of the two halves of a write. */
  datatype WideEvent = Inner(ev: Event) | Pass(i: nat) | Write(i: nat, record: Record)

  predicate Possible(w: Wide, ev: WideEvent) {
    match ev
    case Inner(ev') => Enabled(w.cluster, ev')
    case Pass(i) => i < w.cluster.Size() && AcceptsWrites(w.cluster.nodes[i])
    case Write(i, _) => i < w.cluster.Size() && i in w.passed
  }

  /** The append itself; the record of the past follows leaders only. */
  function DoWrite(s: Cluster, i: nat, record: Record): Cluster
    requires i < s.Size()
  {
    if AcceptsWrites(s.nodes[i]) then DoClientAppend(s, i, record)
    else WithNode(s, i, OnClientAppend(s.nodes[i], record))
  }

  function WideNext(w: Wide, ev: WideEvent): Wide
    requires Possible(w, ev)
  {
    match ev
    case Inner(ev') => w.(cluster := Next(w.cluster, ev'))
    case Pass(i) => w.(passed := w.passed + multiset{i})
    case Write(i, record) => Wide(DoWrite(w.cluster, i, record), w.passed - multiset{i})
  }

  datatype WideRun = WideRun(states: seq<Wide>, events: seq<WideEvent>)

  predicate WideStep(w: Wide, ev: WideEvent, w': Wide) {
    Possible(w, ev) && w' == WideNext(w, ev)
  }

  /** The test at the head of the write, once more at its append. */
  predicate Tested(w: Wide, ev: WideEvent)
    requires Possible(w, ev)
  {
    ev.Write? ==> AcceptsWrites(w.cluster.nodes[ev.i])
  }

  ghost predicate IsWideRun(n: nat, run: WideRun, tested: bool) {
    && |run.states| == |run.events| + 1
    && run.states[0] == Wide(Init(n), multiset{})
    && forall k {:trigger run.events[k]} :: 0 <= k < |run.events| ==>
         && WideStep(run.states[k], run.events[k], run.states[k + 1])
         && (tested ==> Tested(run.states[k], run.events[k]))
  }

  /** Equal terms at one position, in two logs at two moments, mean equal logs up to there. */
  ghost predicate MatchingAt(run: WideRun, j: nat, k: nat, a: nat, b: nat, p: nat) {
    (j < |run.states| && k < |run.states|
      && a < run.states[j].cluster.Size() && b < run.states[k].cluster.Size()
      && p < |run.states[j].cluster.nodes[a].log| && p < |run.states[k].cluster.nodes[b].log|
      && run.states[j].cluster.nodes[a].log[p].term == run.states[k].cluster.nodes[b].log[p].term) ==>
      run.states[j].cluster.nodes[a].log[..p + 1] == run.states[k].cluster.nodes[b].log[..p + 1]
  }

  ghost predicate LogsMatch(run: WideRun) {
    forall j, k, a, b, p :: MatchingAt(run, j, k, a, b, p)
  }

  // ---- with the test repeated, a wide run is a run ---------------------------------------

  /** State k of the wide run is state at[k] of the run. */
  ghost predicate Shadows(n: nat, wide: WideRun, run: Run, at: seq<nat>) {
    && IsRun(n, run) && |at| == |wide.states|
    && (forall k :: 0 <= k < |at| ==> at[k] < |run.states| && wide.states[k].cluster == run.states[at[k]])
    && (forall j, k :: 0 <= j <= k < |at| ==> at[j] <= at[k])
    && (|at| > 0 ==> at[|at| - 1] == |run.states| - 1)
  }

  function Upto(wide: WideRun, k: nat): WideRun
    requires k < |wide.states| == |wide.events| + 1
  {
    WideRun(wide.states[..k + 1], wide.events[..k])
  }

  lemma UptoIsRun(n: nat, wide: WideRun, k: nat)
    requires IsWideRun(n, wide, true) && k < |wide.states|
    ensures IsWideRun(n, Upto(wide, k), true)
  {
    forall i | 0 <= i < k
      ensures WideStep(wide.states[i], wide.events[i], wide.states[i + 1]) && Tested(wide.states[i], wide.events[i])
    {
      assert WideStep(wide.states[i], wide.events[i], wide.states[i + 1]);
    }
  }

  /** What a tested event is to the cluster: nothing, or one of its own events. */
  lemma TestedIsInner(w: Wide, ev: WideEvent) returns (ev': Event)
    requires Possible(w, ev) && Tested(w, ev) && !ev.Pass?
    ensures Enabled(w.cluster, ev') && WideNext(w, ev).cluster == Next(w.cluster, ev')
  {
    match ev
    case Inner(e) => ev' := e;
    case Write(i, record) => ev' := ClientAppend(i, record);
  }

  lemma StillShadows(n: nat, wide: WideRun, run: Run, at: seq<nat>, run': Run)
    requires |wide.states| == |wide.events| + 1 && wide.events != []
    requires Shadows(n, Upto(wide, |wide.events| - 1), run, at) && IsRun(n, run') && Continues(run, run')
    requires wide.states[|wide.events|].cluster == Last(run')
    ensures Shadows(n, wide, run', at + [|run'.states| - 1])
  {
    hide Next;
    var at', k := at + [|run'.states| - 1], |wide.events|;
    forall j | 0 <= j < |at'| ensures at'[j] < |run'.states| && wide.states[j].cluster == run'.states[at'[j]] {
      if j < k {
        assert Upto(wide, k - 1).states[j] == wide.states[j] && run.states[at[j]] == run'.states[at[j]];
      }
    }
  }

  lemma {:induction false} TestedIsRun(n: nat, wide: WideRun) returns (run: Run, at: seq<nat>)
    requires IsWideRun(n, wide, true)
    ensures Shadows(n, wide, run, at)
    decreases |wide.events|
  {
    hide Next;
    if wide.events == [] {
      run, at := Run([Init(n)], []), [0];
    } else {
      var k := |wide.events| - 1;
      UptoIsRun(n, wide, k);
      run, at := TestedIsRun(n, Upto(wide, k));
      var w, ev := wide.states[k], wide.events[k];
      assert WideStep(w, ev, wide.states[k + 1]) && Tested(w, ev);
      assert Upto(wide, k).states[k] == w && Last(run) == w.cluster;
      var before, at0 := run, at;
      if !ev.Pass? {
        var ev' := TestedIsInner(w, ev);
        ExtendIsRun(n, before, ev');
        run := Extend(before, ev');
      }
      at := at0 + [|run.states| - 1];
      StillShadows(n, wide, before, at0, run);
    }
  }

  lemma TestedMatches(n: nat, wide: WideRun)
    requires 1 <= n < NO_ID && SafeSize(n) && IsWideRun(n, wide, true)
    ensures LogsMatch(wide)
  {
    var run, at := TestedIsRun(n, wide);
    forall j: nat, k: nat, a: nat, b: nat, p: nat ensures MatchingAt(wide, j, k, a, b, p) {
      if j < |at| && k < |at| && !MatchingAt(wide, j, k, a, b, p) {
        RunMatches(n, run, at[j], at[k], a, b, p);
      }
    }
  }

  lemma RunMatches(n: nat, run: Run, j: nat, k: nat, a: nat, b: nat, p: nat)
    requires AnyRun(n, run) && j < |run.states| && k < |run.states|
    requires a < run.states[j].Size() && b < run.states[k].Size()
    requires var la, lb := run.states[j].nodes[a].log, run.states[k].nodes[b].log;
      p < |la| && p < |lb| && la[p].term == lb[p].term
    ensures run.states[j].nodes[a].log[..p + 1] == run.states[k].nodes[b].log[..p + 1]
  {
    RunSizes(n, run, j);
    RunSizes(n, run, k);
    if j <= k {
      LogMatchingHolds(n, run, j, k, a, b, p);
    } else {
      LogMatchingHolds(n, run, k, j, b, a, p);
    }
  }

  // ---- without it ------------------------------------------------------------------------

  /** The run with a write of node i that passes the test in state j and is appended at the end. */
  function WithLateWrite(run: Run, j: nat, i: nat, record: Record): WideRun
    requires j < |run.states| == |run.events| + 1 && i < Last(run).Size()
  {
    WideRun(
      seq(|run.states| + 2, (k: nat) =>
        if k <= j && k < |run.states| then Wide(run.states[k], multiset{})
        else if 1 <= k <= |run.states| then Wide(run.states[k - 1], multiset{i})
        else Wide(DoWrite(Last(run), i, record), multiset{})),
      seq(|run.events| + 2, (k: nat) =>
        if k < j && k < |run.events| then Inner(run.events[k])
        else if k == j then Pass(i)
        else if 1 <= k <= |run.events| then Inner(run.events[k - 1])
        else Write(i, record)))
  }

  lemma LateWriteIsRun(n: nat, run: Run, j: nat, i: nat, record: Record)
    requires IsRun(n, run) && j < |run.states| && i < run.states[j].Size() && i < Last(run).Size()
    requires AcceptsWrites(run.states[j].nodes[i])
    ensures IsWideRun(n, WithLateWrite(run, j, i, record), false)
  {
    hide Next;
    var wide := WithLateWrite(run, j, i, record);
    forall k | 0 <= k < |wide.events| ensures WideStep(wide.states[k], wide.events[k], wide.states[k + 1]) {
      if k < j {
        assert StepsTo(run.states[k], run.events[k], run.states[k + 1]);
      } else if j < k <= |run.events| {
        assert StepsTo(run.states[k - 1], run.events[k - 1], run.states[k]);
      }
    }
  }

  /** A leader deposed between test and append writes an entry of a term it does not lead. */
  lemma LateWriteBreaksMatching(n: nat, record: Record) returns (wide: WideRun)
    requires 2 <= n < NO_ID && SafeSize(n)
    ensures IsWideRun(n, wide, false) && !LogsMatch(wide) && |wide.events| > 0
    ensures var last := |wide.events| - 1;
      wide.events[last] == Write(0, record) && Possible(wide.states[last], wide.events[last])
      && wide.states[last].cluster.nodes[0].role == Follower
  {
    var run, j := CountsThenHandsOver(n);
    RunSizes(n, run, |run.states| - 1);
    LateWriteIsRun(n, run, j, 0, record);
    wide := WithLateWrite(run, j, 0, record);
    var k := |wide.states| - 1;
    LeaderGuardHolds(n, run, |run.states| - 1, 0);
    LateEntryDiffers(n, Last(run), record);
    assert !MatchingAt(wide, k, k, 0, Needed(n), 2);
  }

  /** Position 2 of both logs is of term 2, with different entries. */
  lemma LateEntryDiffers(n: nat, s: Cluster, record: Record)
    requires n >= 2 && Leads(n, s, Needed(n), 2, LogOne() + [NoOpAt(2, 2)]) && !AcceptsWrites(s.nodes[0])
    requires s.nodes[0].currentTerm == 2 && s.nodes[0].log == LogOne()
    ensures var (la, lb) := (DoWrite(s, 0, record).nodes[0].log, DoWrite(s, 0, record).nodes[Needed(n)].log);
      |la| == |lb| == 3 && la[2].term == lb[2].term && la[..3] != lb[..3]
  {
    var la, lb := DoWrite(s, 0, record).nodes[0].log, DoWrite(s, 0, record).nodes[Needed(n)].log;
    assert la == LogOne() + [Written(2, record, 2)] && lb == LogOne() + [NoOpAt(2, 2)];
    assert la[..3][2] == Written(2, record, 2) && lb[..3][2] == NoOpAt(2, 2);
  }

  /** A node alone never leads, so no write passes its test. */
  lemma {:induction false} AloneNothingPasses(wide: WideRun, k: nat) returns (run: Run)
    requires IsWideRun(1, wide, false) && k < |wide.states|
    ensures wide.states[k].passed == multiset{} && IsRun(1, run) && wide.states[k].cluster == Last(run)
  {
    hide Next;
    if k == 0 {
      run := Run([Init(1)], []);
    } else {
      var before := AloneNothingPasses(wide, k - 1);
      assert WideStep(wide.states[k - 1], wide.events[k - 1], wide.states[k]);
      var ev := wide.events[k - 1];
      RunLogs(1, before, |before.states| - 1);
      AloneNeverAccepts(Last(before));
      ExtendIsRun(1, before, ev.ev);
      run := Extend(before, ev.ev);
    }
  }

  lemma AloneNeverAccepts(s: Cluster)
    requires LogInv(s) && s.Size() == 1
    ensures !AcceptsWrites(s.nodes[0])
  {
    assert NodeOk(s, 0);
    if s.nodes[0].currentTerm in s.hist.won {
      WonNeedsTwo(s, s.nodes[0].currentTerm);
    }
  }

  lemma WonNeedsTwo(s: Cluster, t: nat)
    requires LogInv(s) && t in s.hist.won
    ensures s.Size() >= 2
  {
    assert WonOk(s, t);
    Subset(s.hist.won[t].voters, Ids(s.Size()));
    IdsSize(s.Size());
  }

  lemma AloneIsTested(wide: WideRun)
    requires IsWideRun(1, wide, false)
    ensures IsWideRun(1, wide, true)
  {
    forall k | 0 <= k < |wide.events|
      ensures WideStep(wide.states[k], wide.events[k], wide.states[k + 1]) && Tested(wide.states[k], wide.events[k])
    {
      assert WideStep(wide.states[k], wide.events[k], wide.states[k + 1]);
      var _ := AloneNothingPasses(wide, k);
    }
  }

  /** Log matching survives the gap between test and append exactly when the test is repeated. */
  lemma MatchingExactlyWhen(n: nat, tested: bool)
    requires 1 <= n < NO_ID && SafeSize(n)
    ensures (forall wide :: IsWideRun(n, wide, tested) ==> LogsMatch(wide)) <==> (tested || n == 1)
  {
    if tested || n == 1 {
      forall wide | IsWideRun(n, wide, tested) ensures LogsMatch(wide) {
        if !tested {
          AloneIsTested(wide);
        }
        TestedMatches(n, wide);
      }
    } else {
      var wide := LateWriteBreaksMatching(n, Record([], [], 0));
    }
  }
}
