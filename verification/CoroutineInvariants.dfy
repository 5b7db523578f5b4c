/**
 Conservation of coroutines and the coroutine mutex, in every run of the cooperative machine: a live
 coroutine is in exactly one place and its state says which; a mutex has at most one holder; nobody
 is left in the queue of a free mutex without somebody on the way to it.
 */
module CoroutineInvariants {
  import opened Coroutines

  ghost predicate NoDup(q: seq<nat>) {
    forall i, j :: 0 <= i < j < |q| ==> q[i] != q[j]
  }

  /** Whoever is in the queue is a coroutine in the given state, once. */
  ghost predicate AllIn(sc: Sched, q: seq<nat>, st: CoState) {
    NoDup(q) && forall c :: c in q ==> 0 < c < |sc.cos| && sc.cos[c].state == st
  }

  ghost predicate CoOk(rt: Rt, c: nat)
    requires 0 < c < |rt.sched.cos|
  {
    var co := rt.sched.cos[c];
    && (co.state == Ready ==> c == rt.sched.current || c in rt.sched.tasks)
    && (co.state == Blocked ==>
          co.retry.Some? && co.retry.value < |rt.mutexes| && c in rt.mutexes[co.retry.value].queue)
    && (co.state == Waiting ==> co.waitsOn < |rt.cvs| && c in rt.cvs[co.waitsOn])
    && (co.retry.Some? ==> co.retry.value < |rt.mutexes| && rt.mutexes[co.retry.value].owner != c)
    && (forall m :: m in co.held ==> m < |rt.mutexes| && rt.mutexes[m].owner == c)
  }

  /** Somebody who was woken is about to try for mutex m. */
  ghost predicate Coming(sc: Sched, m: nat) {
    exists c :: c in sc.tasks && Of(sc, c).retry == Some(m)
  }

  ghost predicate MutexOk(rt: Rt, m: nat)
    requires m < |rt.mutexes|
  {
    var mu := rt.mutexes[m];
    && AllIn(rt.sched, mu.queue, Blocked)
    && (forall c :: c in mu.queue ==> Of(rt.sched, c).retry == Some(m))
    && (mu.locked <==> mu.owner != 0)
    && (mu.owner != 0 ==> mu.owner < |rt.sched.cos| && m in rt.sched.cos[mu.owner].held)
    && (mu.queue != [] ==> mu.locked || Coming(rt.sched, m))
  }

  ghost predicate CvOk(rt: Rt, cv: nat)
    requires cv < |rt.cvs|
  {
    && AllIn(rt.sched, rt.cvs[cv], Waiting)
    && forall c :: c in rt.cvs[cv] ==> Of(rt.sched, c).waitsOn == cv
  }

  ghost predicate SchedOk(sc: Sched) {
    && |sc.cos| > 0 && sc.cos[0] == Co(Terminated, None, 0, {})
    && AllIn(sc, sc.tasks, Ready) && sc.current !in sc.tasks
    && (sc.current != 0 ==>
          sc.current < |sc.cos| && sc.cos[sc.current].state == Ready && sc.cos[sc.current].retry == None)
  }

  ghost predicate RtInv(rt: Rt) {
    && SchedOk(rt.sched)
    && (forall c {:trigger CoOk(rt, c)} :: 0 < c < |rt.sched.cos| ==> CoOk(rt, c))
    && (forall m {:trigger MutexOk(rt, m)} :: 0 <= m < |rt.mutexes| ==> MutexOk(rt, m))
    && (forall cv {:trigger CvOk(rt, cv)} :: 0 <= cv < |rt.cvs| ==> CvOk(rt, cv))
  }

  lemma InitRt(mutexes: nat, cvs: nat)
    ensures RtInv(Init(mutexes, cvs))
  {
  }

  // ---- preservation ----------------------------------------------------------------------

  lemma Pushed(q: seq<nat>, c: nat)
    requires NoDup(q) && c !in q
    ensures NoDup(q + [c]) && forall x :: x in q + [c] <==> x in q || x == c
  {
  }

  lemma Popped(q: seq<nat>)
    requires NoDup(q) && q != []
    ensures NoDup(q[1..]) && q[0] !in q[1..] && forall x :: x in q <==> x == q[0] || x in q[1..]
  {
    assert q == [q[0]] + q[1..];
  }

  /** A mutex the event does not touch. */
  lemma MutexStays(rt: Rt, rt': Rt, m: nat)
    requires m < |rt.mutexes| == |rt'.mutexes| && MutexOk(rt, m) && rt'.mutexes[m] == rt.mutexes[m]
    requires |rt.sched.cos| <= |rt'.sched.cos|
    requires forall c :: c in rt.mutexes[m].queue ==>
               Of(rt'.sched, c).state == Blocked && Of(rt'.sched, c).retry == Some(m)
    requires forall c :: 0 < c < |rt.sched.cos| && m in Of(rt.sched, c).held ==> m in Of(rt'.sched, c).held
    requires forall c :: c in rt.sched.tasks && Of(rt.sched, c).retry == Some(m) ==>
               c in rt'.sched.tasks && Of(rt'.sched, c).retry == Some(m)
    ensures MutexOk(rt', m)
  {
    var o := rt.mutexes[m].owner;
    assert o != 0 ==> m in Of(rt.sched, o).held;
    if Coming(rt.sched, m) {
      var c :| c in rt.sched.tasks && Of(rt.sched, c).retry == Some(m);
      assert c in rt'.sched.tasks && Of(rt'.sched, c).retry == Some(m);
    }
  }

  lemma KeepsLock(rt: Rt, m: nat)
    requires RtInv(rt) && rt.sched.current != 0 && m < |rt.mutexes|
    ensures RtInv(LockAt(rt, m))
  {
    hide Dispatch;
    var rt' := LockAt(rt, m);
    assert CoOk(rt, rt.sched.current) && MutexOk(rt, m);
    forall c | 0 < c < |rt'.sched.cos| ensures CoOk(rt', c) {
      assert CoOk(rt, c);
    }
    forall m' | 0 <= m' < |rt'.mutexes| ensures MutexOk(rt', m') {
      assert MutexOk(rt, m');
      if m' != m {
        MutexStays(rt, rt', m');
      }
    }
    forall cv' | 0 <= cv' < |rt'.cvs| ensures CvOk(rt', cv') {
      assert CvOk(rt, cv');
    }
  }

  lemma UnlockKeepsCos(rt: Rt, m: nat, c: nat)
    requires RtInv(rt) && rt.sched.current != 0 && m < |rt.mutexes|
    requires 0 < c < |UnlockAt(rt, m).sched.cos|
    ensures CoOk(UnlockAt(rt, m), c)
  {
    assert CoOk(rt, rt.sched.current) && MutexOk(rt, m) && CoOk(rt, c);
    if rt.mutexes[m].owner == rt.sched.current && rt.mutexes[m].queue != [] {
      UnlockWakes(rt, m);
    }
  }

  lemma UnlockKeepsMutexes(rt: Rt, m: nat, m': nat)
    requires RtInv(rt) && rt.sched.current != 0 && m < |rt.mutexes| && m' < |UnlockAt(rt, m).mutexes|
    ensures MutexOk(UnlockAt(rt, m), m')
  {
    assert CoOk(rt, rt.sched.current) && MutexOk(rt, m) && MutexOk(rt, m');
    if rt.mutexes[m].owner == rt.sched.current && rt.mutexes[m].queue != [] {
      UnlockWakes(rt, m);
    }
    if m' != m {
      MutexStays(rt, UnlockAt(rt, m), m');
    }
  }

  lemma UnlockKeepsCvs(rt: Rt, m: nat, cv: nat)
    requires RtInv(rt) && m < |rt.mutexes| && cv < |rt.cvs|
    ensures CvOk(UnlockAt(rt, m), cv)
  {
    assert MutexOk(rt, m) && CvOk(rt, cv);
  }

  lemma KeepsUnlock(rt: Rt, m: nat)
    requires RtInv(rt) && rt.sched.current != 0 && m < |rt.mutexes|
    ensures RtInv(UnlockAt(rt, m))
  {
    hide CoOk, MutexOk, CvOk;
    var rt' := UnlockAt(rt, m);
    if rt.mutexes[m].owner == rt.sched.current && rt.mutexes[m].queue != [] {
      UnlockWakes(rt, m);
    }
    forall c | 0 < c < |rt'.sched.cos| ensures CoOk(rt', c) {
      UnlockKeepsCos(rt, m, c);
    }
    forall m' | 0 <= m' < |rt'.mutexes| ensures MutexOk(rt', m') {
      UnlockKeepsMutexes(rt, m, m');
    }
    forall cv' | 0 <= cv' < |rt'.cvs| ensures CvOk(rt', cv') {
      UnlockKeepsCvs(rt, m, cv');
    }
  }

  /** Releasing with waiters: the first one becomes READY and is queued to run. */
  lemma UnlockWakes(rt: Rt, m: nat)
    requires SchedOk(rt.sched) && m < |rt.mutexes| && MutexOk(rt, m)
    requires rt.sched.current != 0 && rt.mutexes[m].owner == rt.sched.current && rt.mutexes[m].queue != []
    ensures var rt' := UnlockAt(rt, m);
      && SchedOk(rt'.sched) && MutexOk(rt', m)
      && (forall x :: x in rt.mutexes[m].queue <==> x == rt.mutexes[m].queue[0] || x in rt'.mutexes[m].queue)
      && rt'.sched.tasks == rt.sched.tasks + [rt.mutexes[m].queue[0]]
  {
    var q := rt.mutexes[m].queue;
    Popped(q);
    Pushed(rt.sched.tasks, q[0]);
    assert q[0] in UnlockAt(rt, m).sched.tasks;
  }

  /** Going to sleep without a mutex in hand. */
  lemma KeepsWaitPlain(rt: Rt, cv: nat)
    requires RtInv(rt) && rt.sched.current != 0 && cv < |rt.cvs|
    ensures RtInv(WaitPlainAt(rt, cv))
  {
    var rt' := WaitPlainAt(rt, cv);
    assert CoOk(rt, rt.sched.current) && CvOk(rt, cv);
    Pushed(rt.cvs[cv], rt.sched.current);
    forall c | 0 < c < |rt'.sched.cos| ensures CoOk(rt', c) {
      assert CoOk(rt, c);
    }
    forall m' | 0 <= m' < |rt'.mutexes| ensures MutexOk(rt', m') {
      assert MutexOk(rt, m');
      MutexStays(rt, rt', m');
    }
    forall cv' | 0 <= cv' < |rt'.cvs| ensures CvOk(rt', cv') {
      assert CvOk(rt, cv');
    }
  }

  /** wait(mutex) is: release the mutex, then sleep with the intention to lock it again. */
  lemma WaitIsUnlockThenSleep(rt: Rt, cv: nat, m: nat)
    requires cv < |rt.cvs| && m < |rt.mutexes|
    ensures var mid := UnlockAt(rt, m);
      var plain := WaitPlainAt(mid, cv);
      mid.sched.current == rt.sched.current && mid.cvs == rt.cvs
      && WaitAt(rt, cv, m) == plain.(sched := SetCo(plain.sched, rt.sched.current,
                                                  Of(plain.sched, rt.sched.current).(retry := Some(m))))
  {
  }

  lemma KeepsWait(rt: Rt, cv: nat, m: nat)
    requires RtInv(rt) && rt.sched.current != 0 && m < |rt.mutexes| && cv < |rt.cvs|
    ensures RtInv(WaitAt(rt, cv, m))
  {
    var c := rt.sched.current;
    WaitIsUnlockThenSleep(rt, cv, m);
    KeepsUnlock(rt, m);
    var mid := UnlockAt(rt, m);
    assert MutexOk(rt, m) && CoOk(rt, c);
    KeepsWaitPlain(mid, cv);
    SetsRetry(WaitPlainAt(mid, cv), c, m);
  }

  lemma SetsRetry(rt: Rt, c: nat, m: nat)
    requires RtInv(rt) && 0 < c < |rt.sched.cos| && m < |rt.mutexes| && rt.mutexes[m].owner != c
    requires rt.sched.cos[c].state == Waiting
    ensures RtInv(rt.(sched := SetCo(rt.sched, c, Of(rt.sched, c).(retry := Some(m)))))
  {
    var rt' := rt.(sched := SetCo(rt.sched, c, Of(rt.sched, c).(retry := Some(m))));
    forall d | 0 < d < |rt'.sched.cos| ensures CoOk(rt', d) {
      assert CoOk(rt, d);
    }
    forall m' | 0 <= m' < |rt'.mutexes| ensures MutexOk(rt', m') {
      assert MutexOk(rt, m');
      MutexStays(rt, rt', m');
    }
    forall cv' | 0 <= cv' < |rt'.cvs| ensures CvOk(rt', cv') {
      assert CvOk(rt, cv');
    }
  }

  lemma KeepsNotify(rt: Rt, cv: nat)
    requires RtInv(rt) && cv < |rt.cvs|
    ensures RtInv(NotifyAt(rt, cv))
  {
    var rt' := NotifyAt(rt, cv);
    var q := rt.cvs[cv];
    assert CvOk(rt, cv);
    if q != [] {
      Popped(q);
      Pushed(rt.sched.tasks, q[0]);
    }
    forall c | 0 < c < |rt'.sched.cos| ensures CoOk(rt', c) {
      assert CoOk(rt, c);
    }
    forall m' | 0 <= m' < |rt'.mutexes| ensures MutexOk(rt', m') {
      assert MutexOk(rt, m');
      MutexStays(rt, rt', m');
    }
    forall cv' | 0 <= cv' < |rt'.cvs| ensures CvOk(rt', cv') {
      assert CvOk(rt, cv');
    }
  }

  lemma {:induction false} KeepsNotifyAll(rt: Rt, cv: nat)
    requires RtInv(rt) && cv < |rt.cvs|
    ensures RtInv(NotifyAllAt(rt, cv))
    decreases |rt.cvs[cv]|
  {
    if rt.cvs[cv] == [] {
      assert NotifyAllAt(rt, cv) == rt;
    } else {
      KeepsNotify(rt, cv);
      KeepsNotifyAll(NotifyAt(rt, cv), cv);
      assert NotifyAllAt(rt, cv) == NotifyAllAt(NotifyAt(rt, cv), cv);
    }
  }

  lemma KeepsSpawn(rt: Rt)
    requires RtInv(rt)
    ensures RtInv(rt.(sched := Spawn(rt.sched)))
  {
    var rt' := rt.(sched := Spawn(rt.sched));
    Pushed(rt.sched.tasks, |rt.sched.cos|);
    forall c | 0 < c < |rt'.sched.cos| ensures CoOk(rt', c) {
      if c < |rt.sched.cos| { assert CoOk(rt, c); }
    }
    forall m' | 0 <= m' < |rt'.mutexes| ensures MutexOk(rt', m') {
      assert MutexOk(rt, m');
      MutexStays(rt, rt', m');
    }
    forall cv' | 0 <= cv' < |rt'.cvs| ensures CvOk(rt', cv') {
      assert CvOk(rt, cv');
    }
  }

  lemma KeepsFinish(rt: Rt)
    requires RtInv(rt) && rt.sched.current != 0
    ensures RtInv(rt.(sched := Finish(rt.sched)))
  {
    var rt' := rt.(sched := Finish(rt.sched));
    assert CoOk(rt, rt.sched.current);
    forall c | 0 < c < |rt'.sched.cos| ensures CoOk(rt', c) {
      assert CoOk(rt, c);
    }
    forall m' | 0 <= m' < |rt'.mutexes| ensures MutexOk(rt', m') {
      assert MutexOk(rt, m');
      MutexStays(rt, rt', m');
    }
    forall cv' | 0 <= cv' < |rt'.cvs| ensures CvOk(rt', cv') {
      assert CvOk(rt, cv');
    }
  }

  ghost predicate Retries(rt: Rt, c: nat) {
    Of(rt.sched, c).retry.Some? && Of(rt.sched, c).retry.value < |rt.mutexes|
  }

  lemma KeepsDispatchPlain(rt: Rt)
    requires RtInv(rt) && rt.sched.current == 0 && rt.sched.tasks != []
    requires !Retries(rt, rt.sched.tasks[0])
    ensures RtInv(Dispatch(rt))
  {
    var rt' := Dispatch(rt);
    var d := rt.sched.tasks[0];
    assert d in rt.sched.tasks;
    Popped(rt.sched.tasks);
    assert CoOk(rt, d);
    forall c | 0 < c < |rt'.sched.cos| ensures CoOk(rt', c) {
      assert CoOk(rt, c);
    }
    forall m' | 0 <= m' < |rt'.mutexes| ensures MutexOk(rt', m') {
      assert MutexOk(rt, m');
      MutexStays(rt, rt', m');
    }
    forall cv' | 0 <= cv' < |rt'.cvs| ensures CvOk(rt', cv') {
      assert CvOk(rt, cv');
    }
  }

  /**
   What a dispatch does: the first task runs; inside lock() it goes on only with the mutex, and otherwise
   joins the mutex's queue and the worker is free again. Everybody else stays as they are.
   */
  lemma DispatchRunsFirst(rt: Rt)
    requires RtInv(rt) && rt.sched.current == 0 && rt.sched.tasks != []
    ensures var (rt', c, co) := (Dispatch(rt), rt.sched.tasks[0], Of(rt.sched, rt.sched.tasks[0]));
      && c < |rt.sched.cos| && rt'.sched.tasks == rt.sched.tasks[1..] && rt'.cvs == rt.cvs
      && (forall i :: 0 <= i < |rt.sched.cos| && i != c ==> i < |rt'.sched.cos| && rt'.sched.cos[i] == rt.sched.cos[i])
      && (co.retry.None? ==> rt'.sched.current == c && rt'.mutexes == rt.mutexes && Of(rt'.sched, c) == co)
      && (co.retry.Some? ==>
            var m := co.retry.value;
            && m < |rt.mutexes| == |rt'.mutexes|
            && (forall i :: 0 <= i < |rt.mutexes| && i != m ==> rt'.mutexes[i] == rt.mutexes[i])
            && (!rt.mutexes[m].locked ==>
                  && rt'.sched.current == c && rt'.mutexes[m] == Mutex(true, c, rt.mutexes[m].queue)
                  && Of(rt'.sched, c) == Co(co.state, None, co.waitsOn, co.held + {m}))
            && (rt.mutexes[m].locked ==>
                  && rt'.sched.current == 0
                  && rt'.mutexes[m] == Mutex(true, rt.mutexes[m].owner, rt.mutexes[m].queue + [c])
                  && Of(rt'.sched, c) == Co(Blocked, Some(m), co.waitsOn, co.held)))
  {
    assert rt.sched.tasks[0] in rt.sched.tasks;
    assert CoOk(rt, rt.sched.tasks[0]);
  }

  ghost predicate TakesLock(rt: Rt) {
    && RtInv(rt) && rt.sched.current == 0 && rt.sched.tasks != []
    && Retries(rt, rt.sched.tasks[0]) && !rt.mutexes[Of(rt.sched, rt.sched.tasks[0]).retry.value].locked
  }

  lemma TakerKeepsCos(rt: Rt, c: nat)
    requires TakesLock(rt) && 0 < c < |Dispatch(rt).sched.cos|
    ensures CoOk(Dispatch(rt), c)
  {
    assert rt.sched.tasks[0] in rt.sched.tasks;
    Popped(rt.sched.tasks);
    assert CoOk(rt, rt.sched.tasks[0]) && CoOk(rt, c);
    assert MutexOk(rt, rt.sched.cos[rt.sched.tasks[0]].retry.value);
  }

  lemma TakerKeepsMutexes(rt: Rt, m: nat)
    requires TakesLock(rt) && m < |Dispatch(rt).mutexes|
    ensures MutexOk(Dispatch(rt), m)
  {
    var d := rt.sched.tasks[0];
    assert d in rt.sched.tasks;
    Popped(rt.sched.tasks);
    assert CoOk(rt, d) && MutexOk(rt, rt.sched.cos[d].retry.value) && MutexOk(rt, m);
    if m != rt.sched.cos[d].retry.value {
      MutexStays(rt, Dispatch(rt), m);
    }
  }

  lemma KeepsDispatchTakes(rt: Rt)
    requires TakesLock(rt)
    ensures RtInv(Dispatch(rt))
  {
    hide CoOk, MutexOk;
    var rt' := Dispatch(rt);
    Popped(rt.sched.tasks);
    forall c | 0 < c < |rt'.sched.cos| ensures CoOk(rt', c) {
      TakerKeepsCos(rt, c);
    }
    forall m | 0 <= m < |rt'.mutexes| ensures MutexOk(rt', m) {
      TakerKeepsMutexes(rt, m);
    }
    forall cv | 0 <= cv < |rt'.cvs| ensures CvOk(rt', cv) {
      assert CvOk(rt, cv);
    }
  }

  lemma KeepsDispatchBlocks(rt: Rt)
    requires RtInv(rt) && rt.sched.current == 0 && rt.sched.tasks != []
    requires Retries(rt, rt.sched.tasks[0]) && rt.mutexes[Of(rt.sched, rt.sched.tasks[0]).retry.value].locked
    ensures RtInv(Dispatch(rt))
  {
    hide NoDup;
    var rt' := Dispatch(rt);
    var d := rt.sched.tasks[0];
    assert d in rt.sched.tasks;
    Popped(rt.sched.tasks);
    assert CoOk(rt, d);
    var m := rt.sched.cos[d].retry.value;
    assert MutexOk(rt, m);
    Pushed(rt.mutexes[m].queue, d);
    forall c | 0 < c < |rt'.sched.cos| ensures CoOk(rt', c) {
      assert CoOk(rt, c);
    }
    forall m' | 0 <= m' < |rt'.mutexes| ensures MutexOk(rt', m') {
      assert MutexOk(rt, m');
      if m' != rt.sched.cos[d].retry.value {
        MutexStays(rt, rt', m');
      }
    }
    forall cv' | 0 <= cv' < |rt'.cvs| ensures CvOk(rt', cv') {
      assert CvOk(rt, cv');
    }
  }

  /** The resumed coroutine runs on, takes the lock it was after, or goes back to the end of its queue. */
  lemma KeepsDispatch(rt: Rt)
    requires RtInv(rt) && rt.sched.current == 0 && rt.sched.tasks != []
    ensures RtInv(Dispatch(rt))
  {
    var d := rt.sched.tasks[0];
    if !Retries(rt, d) {
      KeepsDispatchPlain(rt);
    } else if rt.mutexes[Of(rt.sched, d).retry.value].locked {
      KeepsDispatchBlocks(rt);
    } else {
      KeepsDispatchTakes(rt);
    }
  }

  lemma KeepsRequeue(rt: Rt)
    requires RtInv(rt) && rt.sched.current != 0
    ensures RtInv(rt.(sched := Yield(rt.sched, 0)))
  {
    var rt' := rt.(sched := Yield(rt.sched, 0));
    assert CoOk(rt, rt.sched.current);
    Pushed(rt.sched.tasks, rt.sched.current);
    forall c | 0 < c < |rt'.sched.cos| ensures CoOk(rt', c) {
      assert CoOk(rt, c);
    }
    forall m' | 0 <= m' < |rt'.mutexes| ensures MutexOk(rt', m') {
      assert MutexOk(rt, m');
      MutexStays(rt, rt', m');
    }
    forall cv' | 0 <= cv' < |rt'.cvs| ensures CvOk(rt', cv') {
      assert CvOk(rt, cv');
    }
  }

  lemma {:induction false} SpawnManyFrame(sc: Sched, k: nat)
    ensures SpawnMany(sc, k).current == sc.current
    ensures SpawnMany(sc.(current := 0), k) == SpawnMany(sc, k).(current := 0)
  {
    if k > 0 {
      SpawnManyFrame(sc, k - 1);
    }
  }

  lemma {:induction false} KeepsSpawnMany(rt: Rt, k: nat)
    requires RtInv(rt)
    ensures RtInv(rt.(sched := SpawnMany(rt.sched, k)))
  {
    if k == 0 {
      assert rt.(sched := SpawnMany(rt.sched, 0)) == rt;
    } else {
      KeepsSpawnMany(rt, k - 1);
      KeepsSpawn(rt.(sched := SpawnMany(rt.sched, k - 1)));
    }
  }

  /** Callbacks that expire between a yield and the requeueing of the coroutine. */
  lemma KeepsYield(rt: Rt, timers: nat)
    requires RtInv(rt) && rt.sched.current != 0
    ensures RtInv(rt.(sched := Yield(rt.sched, timers)))
  {
    SpawnManyFrame(rt.sched, timers);
    KeepsSpawnMany(rt, timers);
    KeepsRequeue(rt.(sched := SpawnMany(rt.sched, timers)));
  }

  lemma KeepsRtInv(rt: Rt, ev: Event)
    requires RtInv(rt) && Enabled(rt, ev)
    ensures RtInv(Next(rt, ev))
  {
    match ev
    case DoDispatch => KeepsDispatch(rt);
    case DoLock(m) => KeepsLock(rt, m);
    case DoUnlock(m) => KeepsUnlock(rt, m);
    case DoWait(cv, m) => KeepsWait(rt, cv, m);
    case DoWaitPlain(cv) => KeepsWaitPlain(rt, cv);
    case DoNotify(cv) => KeepsNotify(rt, cv);
    case DoNotifyAll(cv) => KeepsNotifyAll(rt, cv);
    case DoYield(timers) => KeepsYield(rt, timers);
    case DoFinish => KeepsFinish(rt);
    case DoSpawn => KeepsSpawn(rt);
  }

  // ---- runs ------------------------------------------------------------------------------

  /** states[k] is the state before events[k]. */
  datatype Run = Run(states: seq<Rt>, events: seq<Event>)

  predicate StepsTo(rt: Rt, ev: Event, rt': Rt) {
    Enabled(rt, ev) && rt' == Next(rt, ev)
  }

  ghost predicate IsRun(mutexes: nat, cvs: nat, run: Run) {
    && |run.states| == |run.events| + 1
    && run.states[0] == Init(mutexes, cvs)
    && forall k {:trigger run.events[k]} :: 0 <= k < |run.events| ==>
         StepsTo(run.states[k], run.events[k], run.states[k + 1])
  }

  lemma {:induction false} RunInv(mutexes: nat, cvs: nat, run: Run, k: nat)
    requires IsRun(mutexes, cvs, run) && k < |run.states|
    ensures RtInv(run.states[k])
  {
    if k == 0 {
      InitRt(mutexes, cvs);
    } else {
      RunInv(mutexes, cvs, run, k - 1);
      assert StepsTo(run.states[k - 1], run.events[k - 1], run.states[k]);
      KeepsRtInv(run.states[k - 1], run.events[k - 1]);
    }
  }

  datatype Place = Running | RunQueue | MutexQueue(m: nat) | CvQueue(cv: nat)

  ghost predicate IsAt(rt: Rt, c: nat, p: Place) {
    match p
    case Running => rt.sched.current == c
    case RunQueue => c in rt.sched.tasks
    case MutexQueue(m) => m < |rt.mutexes| && c in rt.mutexes[m].queue
    case CvQueue(cv) => cv < |rt.cvs| && c in rt.cvs[cv]
  }

  function StateAt(p: Place): CoState {
    match p
    case Running => Ready
    case RunQueue => Ready
    case MutexQueue(_) => Blocked
    case CvQueue(_) => Waiting
  }

  /**
   Conservation: a coroutine that has not terminated is in exactly one place, its state says which
   kind, a terminated one is nowhere, and no queue holds anybody twice.
   */
  lemma Conservation(mutexes: nat, cvs: nat, run: Run, k: nat, c: nat)
    requires IsRun(mutexes, cvs, run) && k < |run.states| && 0 < c < |run.states[k].sched.cos|
    ensures var rt := run.states[k];
      && (rt.sched.cos[c].state != Terminated <==> exists p :: IsAt(rt, c, p))
      && (forall p, p' :: IsAt(rt, c, p) && IsAt(rt, c, p') ==> p == p')
      && (forall p :: IsAt(rt, c, p) ==> rt.sched.cos[c].state == StateAt(p))
    ensures var rt := run.states[k];
      && NoDup(rt.sched.tasks)
      && (forall m :: 0 <= m < |rt.mutexes| ==> NoDup(rt.mutexes[m].queue))
      && (forall cv :: 0 <= cv < |rt.cvs| ==> NoDup(rt.cvs[cv]))
  {
    RunInv(mutexes, cvs, run, k);
    var rt := run.states[k];
    assert CoOk(rt, c);
    forall m | 0 <= m < |rt.mutexes|
      ensures NoDup(rt.mutexes[m].queue)
      ensures c in rt.mutexes[m].queue ==> rt.sched.cos[c].retry == Some(m) && rt.sched.cos[c].state == Blocked
    {
      assert MutexOk(rt, m);
    }
    forall cv | 0 <= cv < |rt.cvs|
      ensures NoDup(rt.cvs[cv])
      ensures c in rt.cvs[cv] ==> rt.sched.cos[c].waitsOn == cv && rt.sched.cos[c].state == Waiting
    {
      assert CvOk(rt, cv);
    }
    var co := rt.sched.cos[c];
    match co.state
    case Ready => assert IsAt(rt, c, Running) || IsAt(rt, c, RunQueue);
    case Blocked => assert IsAt(rt, c, MutexQueue(co.retry.value));
    case Waiting => assert IsAt(rt, c, CvQueue(co.waitsOn));
    case Terminated =>
  }

  /** lock() has returned to at most one coroutine, and the owner id is its id. */
  lemma MutualExclusion(mutexes: nat, cvs: nat, run: Run, k: nat, c: nat, m: nat)
    requires IsRun(mutexes, cvs, run) && k < |run.states|
    requires 0 < c < |run.states[k].sched.cos| && m < |run.states[k].mutexes|
    ensures var rt := run.states[k];
      && (m in rt.sched.cos[c].held <==> rt.mutexes[m].owner == c)
      && (rt.mutexes[m].locked <==> rt.mutexes[m].owner != 0)
  {
    RunInv(mutexes, cvs, run, k);
    assert CoOk(run.states[k], c) && MutexOk(run.states[k], m);
  }

  /** Nobody is left queueing for a mutex that is free unless a woken waiter is about to try for it. */
  lemma NoLostWaiter(mutexes: nat, cvs: nat, run: Run, k: nat, m: nat)
    requires IsRun(mutexes, cvs, run) && k < |run.states| && m < |run.states[k].mutexes|
    ensures var rt := run.states[k];
      rt.mutexes[m].queue != [] ==> rt.mutexes[m].locked || Coming(rt.sched, m)
  {
    RunInv(mutexes, cvs, run, k);
    assert MutexOk(run.states[k], m);
  }
}
