/**
 For which cluster sizes election safety holds: exactly the odd ones and 2. In every other even
 cluster the threshold (n + 1) / 2 is half the nodes, and two candidates of one term can each
 collect their half.
 */
module EvenClusters {
  import opened RaftTypes
  import opened RaftStep
  import opened Cluster
  import opened ElectionSafety
  import opened RaftTheorems
  import opened Scenarios

  /** Node a in state j and node b in state k do not lead the same term, unless they are the same. */
  ghost predicate SameLeaderAt(run: Run, j: nat, k: nat, a: nat, b: nat) {
    (j < |run.states| && k < |run.states| && a < run.states[j].Size() && b < run.states[k].Size()
      && run.states[j].nodes[a].role == Leader && run.states[k].nodes[b].role == Leader
      && run.states[j].nodes[a].currentTerm == run.states[k].nodes[b].currentTerm) ==> a == b
  }

  ghost predicate OneLeaderPerTerm(run: Run) {
    forall j, k, a, b :: SameLeaderAt(run, j, k, a, b)
  }

  /** In an even cluster of at least four nodes some run elects two leaders in term 1. */
  lemma TwoLeaders(n: nat) returns (run: Run)
    requires n % 2 == 0 && n >= 4
    ensures IsRun(n, run) && Last(run).Size() == n && !OneLeaderPerTerm(run)
    ensures forall c :: 0 <= c < 2 ==> Last(run).nodes[c].role == Leader && Last(run).nodes[c].currentTerm == 1
  {
    var start := Run([Init(n)], []);
    assert Last(start) == Init(n);
    var led := ElectBy(n, start, false, false, 0, 2, n / 2 + 1);
    assert Last(led).nodes[1] == InitNode(1, n);
    run := ElectBy(n, led, false, false, 1, n / 2 + 1, n);
    assert !SameLeaderAt(run, |run.states| - 1, |run.states| - 1, 0, 1);
  }

  /** Election safety holds in all runs exactly when the size is odd or 2. */
  lemma SafeExactlyWhen(n: nat)
    requires 1 <= n < NO_ID
    ensures (forall run :: IsRun(n, run) ==> OneLeaderPerTerm(run)) <==> SafeSize(n)
  {
    if SafeSize(n) {
      forall run | IsRun(n, run) ensures OneLeaderPerTerm(run) {
        forall j: nat, k: nat, a: nat, b: nat ensures SameLeaderAt(run, j, k, a, b) {
          SafeRun(n, run, j, k, a, b);
        }
      }
    } else {
      var run := TwoLeaders(n);
    }
  }

  lemma SafeRun(n: nat, run: Run, j: nat, k: nat, a: nat, b: nat)
    requires AnyRun(n, run)
    ensures SameLeaderAt(run, j, k, a, b)
  {
    if j < |run.states| && k < |run.states| && a < run.states[j].Size() && b < run.states[k].Size()
      && run.states[j].nodes[a].role == Leader && run.states[k].nodes[b].role == Leader
      && run.states[j].nodes[a].currentTerm == run.states[k].nodes[b].currentTerm {
      RunSizes(n, run, j);
      RunSizes(n, run, k);
      if j <= k {
        ElectionSafetyHolds(n, run, j, k, a, b);
      } else {
        ElectionSafetyHolds(n, run, k, j, b, a);
      }
    }
  }
}
