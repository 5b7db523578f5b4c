/** What every event of the channel machine keeps, whatever the rest of the program does beside it. */
module ChannelInvariants {
  import opened Coroutines
  import opened CoroutineInvariants
  import opened Channel

  // ---- the invariant ---------------------------------------------------------------------

  /** Producers (or consumers) that were woken and have not run yet. */
  ghost function Woken<T>(ch: Chan<T>, pushing: bool): set<nat> {
    set c | c in ch.rt.sched.tasks && c in ch.ops && ch.ops[c].Pushing? == pushing
  }

  ghost predicate OpOk<T>(ch: Chan<T>, c: nat)
    requires Wf(ch) && c in ch.ops
  {
    && 0 < c < |ch.rt.sched.cos| && c != ch.rt.sched.current
    && ch.rt.sched.cos[c].retry == Some(MUTEX)
    && (c in ch.rt.sched.tasks
        || c in ch.rt.cvs[if ch.ops[c].Pushing? then PUSH_CV else POP_CV])
  }

  ghost predicate SleepersOk<T>(ch: Chan<T>)
    requires Wf(ch)
  {
    && (forall c :: c in ch.rt.cvs[PUSH_CV] ==> c in ch.ops && ch.ops[c].Pushing?)
    && (forall c :: c in ch.rt.cvs[POP_CV] ==> c in ch.ops && ch.ops[c].Popping?)
    && (forall c :: 0 < c < |ch.rt.sched.cos| && ch.rt.sched.cos[c].retry == Some(MUTEX) ==> c in ch.ops)
  }

  ghost predicate CountsOk<T>(ch: Chan<T>)
    requires Wf(ch)
  {
    && |ch.queue| <= ch.capacity
    && ch.accepted == ch.delivered + ch.queue
    && (ch.closed ==> ch.rt.cvs[PUSH_CV] == [] && ch.rt.cvs[POP_CV] == [])
    && (ch.rt.cvs[POP_CV] != [] ==> |ch.queue| <= |Woken(ch, false)|)
    && (ch.rt.cvs[PUSH_CV] != [] ==> ch.capacity - |ch.queue| <= |Woken(ch, true)|)
  }

  ghost predicate ChanInv<T>(ch: Chan<T>) {
    && Wf(ch) && RtInv(ch.rt)
    && ch.rt.mutexes[MUTEX] == Mutex(false, 0, [])
    && (forall c {:trigger OpOk(ch, c)} :: c in ch.ops ==> OpOk(ch, c))
    && SleepersOk(ch) && CountsOk(ch)
  }

  lemma InitChan<T>(capacity: nat, mutexes: nat, cvs: nat)
    ensures ChanInv(Channel.Init<T>(capacity, mutexes, cvs))
  {
    InitRt(mutexes + 1, cvs + 2);
  }

  // ---- a call's segment ------------------------------------------------------------------

  /** Putting the running coroutine to sleep on cv, with the channel's mutex to be locked again. */
  function Slept(rt: Rt, cv: nat): Rt
    requires cv < |rt.cvs|
  {
    rt.(cvs := rt.cvs[cv := rt.cvs[cv] + [rt.sched.current]], sched := Sleep(rt.sched, cv, Some(MUTEX)))
  }

  /** With the mutex free, locking and then releasing (or waiting) leaves no trace of the mutex. */
  lemma FreeMutex(rt: Rt, cv: nat)
    requires RtInv(rt) && rt.sched.current != 0 && |rt.mutexes| >= 1 && cv < |rt.cvs|
    requires rt.mutexes[MUTEX] == Mutex(false, 0, [])
    ensures UnlockAt(LockAt(rt, MUTEX), MUTEX) == rt
    ensures WaitAt(LockAt(rt, MUTEX), cv, MUTEX) == Slept(rt, cv)
    ensures LockAt(rt, MUTEX).sched.current == rt.sched.current
  {
    var c := rt.sched.current;
    var co := rt.sched.cos[c];
    assert CoOk(rt, c);
    assert MUTEX !in co.held;
    assert co.held + {MUTEX} - {MUTEX} == co.held;
    var locked := LockAt(rt, MUTEX);
    assert locked.sched.cos[c] == co.(held := co.held + {MUTEX});
    assert UnlockAt(locked, MUTEX).sched.cos == rt.sched.cos;
    assert UnlockAt(locked, MUTEX).mutexes == rt.mutexes;
    assert WaitAt(locked, cv, MUTEX).sched.cos == Slept(rt, cv).sched.cos;
    assert WaitAt(locked, cv, MUTEX).mutexes == rt.mutexes;
  }

  lemma SleptInv(rt: Rt, cv: nat)
    requires RtInv(rt) && rt.sched.current != 0 && |rt.mutexes| >= 1 && cv < |rt.cvs|
    requires rt.mutexes[MUTEX] == Mutex(false, 0, [])
    ensures RtInv(Slept(rt, cv))
  {
    FreeMutex(rt, cv);
    KeepsLock(rt, MUTEX);
    KeepsWait(LockAt(rt, MUTEX), cv, MUTEX);
  }

  /** The invariant while the running coroutine is in the middle of `op`, holding nothing yet. */
  ghost predicate MidCall<T>(ch: Chan<T>, op: Op<T>) {
    && Wf(ch) && RtInv(ch.rt) && ch.rt.sched.current != 0 && ch.rt.sched.current !in ch.ops
    && ch.rt.mutexes[MUTEX] == Mutex(false, 0, [])
    && (forall c {:trigger OpOk(ch, c)} :: c in ch.ops ==> OpOk(ch, c))
    && SleepersOk(ch)
    && |ch.queue| <= ch.capacity
    && ch.accepted == ch.delivered + ch.queue
    && (ch.closed ==> ch.rt.cvs[PUSH_CV] == [] && ch.rt.cvs[POP_CV] == [])
    && (ch.rt.cvs[POP_CV] != [] ==> |ch.queue| <= |Woken(ch, false)| + (if op.Popping? then 1 else 0))
    && (ch.rt.cvs[PUSH_CV] != [] ==>
          ch.capacity - |ch.queue| <= |Woken(ch, true)| + (if op.Pushing? then 1 else 0))
  }

  lemma KeepsReturn<T>(ch: Chan<T>, op: Op<T>)
    requires MidCall(ch, op) && ch.closed
    ensures ChanInv(Returns(ch, ch.rt, false))
  {
    var ch' := Returns(ch, ch.rt, false);
    assert ch'.ops == ch.ops;
    forall c | c in ch'.ops ensures OpOk(ch', c) {
      assert OpOk(ch, c);
    }
  }

  lemma KeepsSlept<T>(ch: Chan<T>, op: Op<T>)
    requires MidCall(ch, op) && !ch.closed
    requires if op.Pushing? then |ch.queue| >= ch.capacity else ch.queue == []
    ensures ChanInv(ch.(rt := Slept(ch.rt, if op.Pushing? then PUSH_CV else POP_CV),
                        ops := ch.ops[ch.rt.sched.current := op]))
  {
    hide OpOk, Woken;
    var cv := if op.Pushing? then PUSH_CV else POP_CV;
    var ch' := ch.(rt := Slept(ch.rt, cv), ops := ch.ops[ch.rt.sched.current := op]);
    SleptInv(ch.rt, cv);
    forall c | c in ch'.ops ensures OpOk(ch', c) {
      SleptOp(ch, op, c);
    }
    SleptWoken(ch, op, false);
    SleptWoken(ch, op, true);
  }

  lemma SleptOp<T>(ch: Chan<T>, op: Op<T>, c: nat)
    requires MidCall(ch, op) && (c in ch.ops || c == ch.rt.sched.current)
    ensures OpOk(ch.(rt := Slept(ch.rt, if op.Pushing? then PUSH_CV else POP_CV),
                     ops := ch.ops[ch.rt.sched.current := op]), c)
  {
    if c != ch.rt.sched.current {
      assert OpOk(ch, c);
    }
  }

  lemma SleptWoken<T>(ch: Chan<T>, op: Op<T>, pushing: bool)
    requires MidCall(ch, op)
    ensures Woken(ch.(rt := Slept(ch.rt, if op.Pushing? then PUSH_CV else POP_CV),
                      ops := ch.ops[ch.rt.sched.current := op]), pushing) == Woken(ch, pushing)
  {
  }

  /** Waking the head of a condition variable of the channel adds it to the woken ones. */
  lemma KeepsWake<T>(ch: Chan<T>, op: Op<T>, queue: seq<T>, accepted: seq<T>, delivered: seq<T>)
    requires MidCall(ch, op) && !ch.closed
    requires accepted == delivered + queue && |queue| <= ch.capacity
    requires |queue| == if op.Pushing? then |ch.queue| + 1 else |ch.queue| - 1
    ensures ChanInv(ch.(rt := NotifyAt(ch.rt, if op.Pushing? then POP_CV else PUSH_CV),
                        ops := ch.ops - {ch.rt.sched.current},
                        queue := queue, accepted := accepted, delivered := delivered, lastResult := Some(true)))
  {
    var cv := if op.Pushing? then POP_CV else PUSH_CV;
    var ch' := ch.(rt := NotifyAt(ch.rt, cv), ops := ch.ops - {ch.rt.sched.current},
                   queue := queue, accepted := accepted, delivered := delivered, lastResult := Some(true));
    assert ch'.ops == ch.ops;
    KeepsNotify(ch.rt, cv);
    var q := ch.rt.cvs[cv];
    forall c | c in ch'.ops ensures OpOk(ch', c) {
      assert OpOk(ch, c);
    }
    WokenAfterNotify(ch, ch', cv);
  }

  lemma WokenAfterNotify<T>(ch: Chan<T>, ch': Chan<T>, cv: nat)
    requires Wf(ch) && RtInv(ch.rt) && SleepersOk(ch) && ch'.ops == ch.ops && (cv == PUSH_CV || cv == POP_CV)
    requires ch'.rt == NotifyAt(ch.rt, cv)
    ensures Woken(ch', cv != PUSH_CV) == Woken(ch, cv != PUSH_CV)
    ensures ch.rt.cvs[cv] != [] ==> |Woken(ch', cv == PUSH_CV)| == |Woken(ch, cv == PUSH_CV)| + 1
    ensures SleepersOk(ch')
  {
    var q := ch.rt.cvs[cv];
    if q != [] {
      assert CvOk(ch.rt, cv) && q[0] in q;
      OneMoreWoken(ch, ch', q[0]);
    }
  }

  lemma OneMoreWoken<T>(ch: Chan<T>, ch': Chan<T>, c: nat)
    requires ch'.ops == ch.ops && c in ch.ops && c !in ch.rt.sched.tasks
    requires ch'.rt.sched.tasks == ch.rt.sched.tasks + [c]
    ensures var kind := ch.ops[c].Pushing?;
      Woken(ch', !kind) == Woken(ch, !kind) && |Woken(ch', kind)| == |Woken(ch, kind)| + 1
  {
    var kind := ch.ops[c].Pushing?;
    assert Woken(ch', kind) == Woken(ch, kind) + {c};
    assert c !in Woken(ch, kind);
  }

  lemma KeepsBody<T>(ch: Chan<T>, op: Op<T>)
    requires MidCall(ch, op)
    ensures ChanInv(Body(ch.(rt := LockAt(ch.rt, MUTEX)), op))
  {
    FreeMutex(ch.rt, if op.Pushing? then PUSH_CV else POP_CV);
    if ch.closed {
      KeepsReturn(ch, op);
    } else if op.Pushing? && |ch.queue| < ch.capacity {
      KeepsWake(ch, op, ch.queue + [op.item], ch.accepted + [op.item], ch.delivered);
    } else if op.Popping? && ch.queue != [] {
      KeepsWake(ch, op, ch.queue[1..], ch.accepted, ch.delivered + [ch.queue[0]]);
    } else {
      KeepsSlept(ch, op);
    }
  }

  lemma KeepsBegin<T>(ch: Chan<T>, op: Op<T>)
    requires ChanInv(ch) && ch.rt.sched.current != 0
    ensures ChanInv(Begin(ch, op))
  {
    assert ch.rt.sched.current in ch.ops ==> OpOk(ch, ch.rt.sched.current);
    FreeMutex(ch.rt, PUSH_CV);
    KeepsBody(ch, op);
  }

  // ---- resuming a suspended call ---------------------------------------------------------

  /** The first task starts running, past its lock attempt but without the mutex. */
  function Resumed(rt: Rt): Rt
    requires rt.sched.tasks != []
  {
    var c := rt.sched.tasks[0];
    rt.(sched := SetCo(rt.sched, c, Of(rt.sched, c).(retry := None)).(current := c, tasks := rt.sched.tasks[1..]))
  }

  lemma DispatchLocks(rt: Rt)
    requires RtInv(rt) && rt.sched.current == 0 && rt.sched.tasks != [] && |rt.mutexes| >= 1
    requires rt.mutexes[MUTEX] == Mutex(false, 0, []) && Of(rt.sched, rt.sched.tasks[0]).retry == Some(MUTEX)
    ensures Dispatch(rt) == LockAt(Resumed(rt), MUTEX)
    ensures RtInv(Resumed(rt))
  {
    var d := rt.sched.tasks[0];
    assert d in rt.sched.tasks;
    var rt' := Resumed(rt);
    Popped(rt.sched.tasks);
    assert CoOk(rt, d);
    assert Dispatch(rt).sched.cos == LockAt(rt', MUTEX).sched.cos;
    forall c | 0 < c < |rt'.sched.cos| ensures CoOk(rt', c) {
      assert CoOk(rt, c);
    }
    forall m | 0 <= m < |rt'.mutexes| ensures MutexOk(rt', m) {
      assert MutexOk(rt, m);
      if m != MUTEX {
        MutexStays(rt, rt', m);
      }
    }
    forall cv | 0 <= cv < |rt'.cvs| ensures CvOk(rt', cv) {
      assert CvOk(rt, cv);
    }
  }

  lemma BodyForgetsOp<T>(ch: Chan<T>, op: Op<T>)
    requires Wf(ch)
    ensures Body(ch, op) == Body(ch.(ops := ch.ops - {ch.rt.sched.current}), op)
  {
    var c := ch.rt.sched.current;
    assert ch.ops - {c} - {c} == ch.ops - {c};
    assert ch.ops[c := op] == (ch.ops - {c})[c := op];
  }

  lemma KeepsResume<T>(ch: Chan<T>)
    requires ChanInv(ch) && ch.rt.sched.current == 0 && ch.rt.sched.tasks != []
    requires ch.rt.sched.tasks[0] in ch.ops
    ensures ChanInv(Resume(ch))
  {
    hide Returns;
    var c := ch.rt.sched.tasks[0];
    var op := ch.ops[c];
    assert c in ch.rt.sched.tasks;
    assert OpOk(ch, c);
    DispatchLocks(ch.rt);
    ResumedMidCall(ch);
    var mid := ch.(rt := Resumed(ch.rt), ops := ch.ops - {c});
    KeepsBody(mid, op);
    BodyForgetsOp(ch.(rt := Dispatch(ch.rt)), op);
  }

  lemma ResumedMidCall<T>(ch: Chan<T>)
    requires ChanInv(ch) && ch.rt.sched.current == 0 && ch.rt.sched.tasks != []
    requires ch.rt.sched.tasks[0] in ch.ops && RtInv(Resumed(ch.rt))
    ensures var c := ch.rt.sched.tasks[0];
      MidCall(ch.(rt := Resumed(ch.rt), ops := ch.ops - {c}), ch.ops[c])
  {
    var d := ch.rt.sched.tasks[0];
    var mid := ch.(rt := Resumed(ch.rt), ops := ch.ops - {d});
    SleepersAfterResume(ch, mid);
    Popped(ch.rt.sched.tasks);
    OneLessWoken(ch, mid, d);
  }

  lemma SleepersAfterResume<T>(ch: Chan<T>, mid: Chan<T>)
    requires ChanInv(ch) && ch.rt.sched.tasks != [] && ch.rt.sched.tasks[0] in ch.ops
    requires mid == ch.(rt := Resumed(ch.rt), ops := ch.ops - {ch.rt.sched.tasks[0]})
    ensures SleepersOk(mid) && forall c :: c in mid.ops ==> OpOk(mid, c)
  {
    var d := ch.rt.sched.tasks[0];
    assert d in ch.rt.sched.tasks && OpOk(ch, d);
    Popped(ch.rt.sched.tasks);
    forall c | c in mid.ops ensures OpOk(mid, c) {
      assert OpOk(ch, c);
    }
    assert CvOk(ch.rt, PUSH_CV) && CvOk(ch.rt, POP_CV);
  }

  lemma OneLessWoken<T>(ch: Chan<T>, ch': Chan<T>, c: nat)
    requires c in ch.ops && ch'.ops == ch.ops - {c}
    requires c !in ch'.rt.sched.tasks && forall x :: x in ch.rt.sched.tasks <==> x == c || x in ch'.rt.sched.tasks
    ensures var kind := ch.ops[c].Pushing?;
      Woken(ch', !kind) == Woken(ch, !kind) && |Woken(ch', kind)| == |Woken(ch, kind)| - 1
  {
    var kind := ch.ops[c].Pushing?;
    assert Woken(ch', kind) == Woken(ch, kind) - {c};
    assert c in Woken(ch, kind);
  }

  // ---- other coroutines ------------------------------------------------------------------

  /** What an event of the rest of the program leaves alone. */
  ghost predicate Apart<T>(ch: Chan<T>, rt': Rt)
    requires Wf(ch)
  {
    && |rt'.mutexes| == |ch.rt.mutexes| && |rt'.cvs| == |ch.rt.cvs|
    && rt'.mutexes[MUTEX] == ch.rt.mutexes[MUTEX]
    && rt'.cvs[PUSH_CV] == ch.rt.cvs[PUSH_CV] && rt'.cvs[POP_CV] == ch.rt.cvs[POP_CV]
    && |ch.rt.sched.cos| <= |rt'.sched.cos|
    && (forall c :: c in ch.ops && c < |ch.rt.sched.cos| ==>
          (c in rt'.sched.tasks <==> c in ch.rt.sched.tasks) && rt'.sched.cos[c].retry == ch.rt.sched.cos[c].retry
          && c != rt'.sched.current)
    && (forall c :: 0 < c < |rt'.sched.cos| && rt'.sched.cos[c].retry == Some(MUTEX) ==>
          c < |ch.rt.sched.cos| && ch.rt.sched.cos[c].retry == Some(MUTEX))
  }

  lemma KeepsApart<T>(ch: Chan<T>, rt': Rt)
    requires ChanInv(ch) && RtInv(rt') && Apart(ch, rt')
    ensures ChanInv(ch.(rt := rt'))
  {
    var ch' := ch.(rt := rt');
    forall c | c in ch'.ops ensures OpOk(ch', c) {
      assert OpOk(ch, c);
    }
    forall b: bool ensures Woken(ch', b) == Woken(ch, b) {
      forall c ensures c in Woken(ch', b) <==> c in Woken(ch, b) {
        assert c in ch.ops ==> OpOk(ch, c);
      }
    }
  }

  lemma {:induction false} NotifyAllEffect(sc: Sched, q: seq<nat>)
    ensures var sc' := NotifyAll(sc, q);
      && sc'.tasks == sc.tasks + q && sc'.current == sc.current && |sc'.cos| == |sc.cos|
      && forall c :: 0 <= c < |sc.cos| ==> sc'.cos[c].retry == sc.cos[c].retry && sc'.cos[c].held == sc.cos[c].held
    decreases |q|
  {
    if q != [] {
      NotifyAllEffect(Wake(sc, q[0]), q[1..]);
      assert sc.tasks + [q[0]] + q[1..] == sc.tasks + q;
    }
  }

  lemma {:induction false} SpawnManyEffect(sc: Sched, k: nat)
    ensures var sc' := SpawnMany(sc, k);
      && sc'.current == sc.current && |sc'.cos| == |sc.cos| + k && sc.tasks <= sc'.tasks
      && (forall c :: 0 <= c < |sc.cos| ==> sc'.cos[c] == sc.cos[c])
      && (forall c :: |sc.cos| <= c < |sc'.cos| ==> sc'.cos[c].retry == None)
      && (forall c :: c in sc'.tasks ==> c in sc.tasks || |sc.cos| <= c)
  {
    if k > 0 {
      SpawnManyEffect(sc, k - 1);
    }
  }

  /** A coroutine suspended in the channel sleeps on no condition variable but the channel's. */
  lemma NotElsewhere<T>(ch: Chan<T>, cv: nat)
    requires ChanInv(ch) && cv < |ch.rt.cvs| && cv != PUSH_CV && cv != POP_CV
    ensures forall c :: c in ch.rt.cvs[cv] ==> c !in ch.ops
  {
    assert CvOk(ch.rt, cv) && CvOk(ch.rt, PUSH_CV) && CvOk(ch.rt, POP_CV);
    forall c | c in ch.ops ensures c !in ch.rt.cvs[cv] {
      assert OpOk(ch, c);
    }
  }

  lemma NotQueued<T>(ch: Chan<T>, m: nat)
    requires ChanInv(ch) && m < |ch.rt.mutexes| && m != MUTEX
    ensures forall c :: c in ch.rt.mutexes[m].queue ==> c !in ch.ops
  {
    assert MutexOk(ch.rt, m);
    forall c | c in ch.ops ensures c !in ch.rt.mutexes[m].queue {
      assert OpOk(ch, c);
    }
  }

  lemma DispatchIsApart<T>(ch: Chan<T>)
    requires ChanInv(ch) && Coroutines.Enabled(ch.rt, DoDispatch) && ch.rt.sched.tasks[0] !in ch.ops
    ensures Apart(ch, Dispatch(ch.rt))
  {
    hide Woken;
    var sc := ch.rt.sched;
    assert forall c :: c in ch.ops ==> OpOk(ch, c);
    assert sc.tasks[0] in sc.tasks;
    Popped(sc.tasks);
    assert CoOk(ch.rt, sc.tasks[0]);
  }

  lemma MutexIsApart<T>(ch: Chan<T>, ev: Event)
    requires ChanInv(ch) && Foreign(ev) && Coroutines.Enabled(ch.rt, ev)
    requires ev.DoLock? || ev.DoUnlock?
    ensures Apart(ch, Coroutines.Next(ch.rt, ev))
  {
    hide RtInv, CountsOk, Woken;
    assert forall c :: c in ch.ops ==> OpOk(ch, c);
    NotQueued(ch, ev.m);
    if ev.DoUnlock? {
      UnlockIsApart(ch, ev.m);
    }
  }

  lemma UnlockIsApart<T>(ch: Chan<T>, m: nat)
    requires ChanInv(ch) && m < |ch.rt.mutexes| && m != MUTEX
    requires forall c :: c in ch.ops ==> OpOk(ch, c)
    requires forall c :: c in ch.rt.mutexes[m].queue ==> c !in ch.ops
    ensures Apart(ch, UnlockAt(ch.rt, m))
  {
    hide CountsOk, Woken;
    assert MutexOk(ch.rt, m);
  }

  lemma WaitIsApart<T>(ch: Chan<T>, cv: nat, m: nat)
    requires ChanInv(ch) && Foreign(DoWait(cv, m)) && Coroutines.Enabled(ch.rt, DoWait(cv, m))
    ensures Apart(ch, WaitAt(ch.rt, cv, m))
  {
    assert forall c :: c in ch.ops ==> OpOk(ch, c);
    MutexIsApart(ch, DoUnlock(m));
    WaitIsUnlockThenSleep(ch.rt, cv, m);
  }

  lemma NotifyIsApart<T>(ch: Chan<T>, ev: Event)
    requires ChanInv(ch) && Foreign(ev) && Coroutines.Enabled(ch.rt, ev)
    requires ev.DoWaitPlain? || ev.DoNotify? || ev.DoNotifyAll?
    ensures Apart(ch, Coroutines.Next(ch.rt, ev))
  {
    hide RtInv, CountsOk, Woken;
    assert forall c :: c in ch.ops ==> OpOk(ch, c);
    NotElsewhere(ch, ev.cv);
    NotifyAllEffect(ch.rt.sched, ch.rt.cvs[ev.cv]);
  }

  lemma YieldIsApart<T>(ch: Chan<T>, ev: Event)
    requires ChanInv(ch) && Coroutines.Enabled(ch.rt, ev)
    requires ev.DoYield? || ev.DoFinish? || ev.DoSpawn?
    ensures Apart(ch, Coroutines.Next(ch.rt, ev))
  {
    assert forall c :: c in ch.ops ==> OpOk(ch, c);
    SpawnManyEffect(ch.rt.sched.(current := 0), if ev.DoYield? then ev.timers else 0);
  }

  lemma OtherIsApart<T>(ch: Chan<T>, ev: Event)
    requires ChanInv(ch) && Foreign(ev) && Coroutines.Enabled(ch.rt, ev)
    requires ev.DoDispatch? ==> ch.rt.sched.tasks[0] !in ch.ops
    ensures Apart(ch, Coroutines.Next(ch.rt, ev))
  {
    match ev
    case DoDispatch => DispatchIsApart(ch);
    case DoLock(_) => MutexIsApart(ch, ev);
    case DoUnlock(_) => MutexIsApart(ch, ev);
    case DoWait(cv, m) => WaitIsApart(ch, cv, m);
    case DoWaitPlain(_) => NotifyIsApart(ch, ev);
    case DoNotify(_) => NotifyIsApart(ch, ev);
    case DoNotifyAll(_) => NotifyIsApart(ch, ev);
    case _ => YieldIsApart(ch, ev);
  }

  // ---- closing ---------------------------------------------------------------------------

  lemma KeepsClose<T>(ch: Chan<T>)
    requires ChanInv(ch) && ch.rt.sched.current != 0
    ensures ChanInv(CloseBody(ch)) && CloseBody(ch).closed
  {
    var rt := ch.rt;
    var me := rt.sched.current;
    FreeMutex(rt, PUSH_CV);
    assert me in ch.ops ==> OpOk(ch, me);
    if !ch.closed {
      var rt1 := LockAt(rt, MUTEX);
      KeepsLock(rt, MUTEX);
      NotifyAllEffect(rt1.sched, rt1.cvs[PUSH_CV]);
      KeepsNotifyAll(rt1, PUSH_CV);
      var rt2 := NotifyAllAt(rt1, PUSH_CV);
      NotifyAllEffect(rt2.sched, rt2.cvs[POP_CV]);
      KeepsNotifyAll(rt2, POP_CV);
      var rt3 := NotifyAllAt(rt2, POP_CV);
      KeepsUnlock(rt3, MUTEX);
      var ch' := CloseBody(ch);
      assert ch'.rt == UnlockAt(rt3, MUTEX);
      forall c | c in ch'.ops ensures OpOk(ch', c) {
        assert OpOk(ch, c);
      }
    }
  }

  lemma KeepsChanInv<T>(ch: Chan<T>, ev: ChanEvent<T>)
    requires ChanInv(ch) && Channel.Enabled(ch, ev)
    ensures ChanInv(Channel.Next(ch, ev))
  {
    match ev
    case Push(item) => KeepsBegin(ch, Pushing(item));
    case Pop => KeepsBegin(ch, Popping);
    case Close => KeepsClose(ch);
    case Other(e) =>
      if e.DoDispatch? && ch.rt.sched.tasks[0] in ch.ops {
        KeepsResume(ch);
      } else {
        KeepsRtInv(ch.rt, e);
        OtherIsApart(ch, e);
        KeepsApart(ch, Coroutines.Next(ch.rt, e));
      }
  }
}
