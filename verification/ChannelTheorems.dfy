/** The channel over whole runs: bounded FIFO, no stranded waiter, and close. */
module ChannelTheorems {
  import opened Coroutines
  import opened CoroutineInvariants
  import opened Channel
  import opened ChannelInvariants

  /** states[k] is the state before events[k]. */
  datatype ChanRun<T> = ChanRun(states: seq<Chan<T>>, events: seq<ChanEvent<T>>)

  ghost predicate StepsFrom<T>(ch: Chan<T>, ev: ChanEvent<T>, ch': Chan<T>) {
    Channel.Enabled(ch, ev) && ch' == Channel.Next(ch, ev)
  }

  /** A run of one channel of the given capacity, among other mutexes and condition variables. */
  ghost predicate IsChanRun<T>(capacity: nat, mutexes: nat, cvs: nat, run: ChanRun<T>) {
    && |run.states| == |run.events| + 1
    && run.states[0] == Channel.Init(capacity, mutexes, cvs)
    && forall k {:trigger run.events[k]} :: 0 <= k < |run.events| ==>
         StepsFrom(run.states[k], run.events[k], run.states[k + 1])
  }

  lemma {:induction false} ChanRunInv<T>(capacity: nat, mutexes: nat, cvs: nat, run: ChanRun<T>, k: nat)
    requires IsChanRun(capacity, mutexes, cvs, run) && k < |run.states|
    ensures ChanInv(run.states[k]) && run.states[k].capacity == capacity
  {
    if k == 0 {
      InitChan<T>(capacity, mutexes, cvs);
    } else {
      ChanRunInv(capacity, mutexes, cvs, run, k - 1);
      assert StepsFrom(run.states[k - 1], run.events[k - 1], run.states[k]);
      KeepsChanInv(run.states[k - 1], run.events[k - 1]);
    }
  }

  // ---- what the calls do -----------------------------------------------------------------

  /** The call of c returned r and c goes on; nobody holds the mutex. */
  ghost predicate Returned<T>(ch': Chan<T>, c: nat, r: bool) {
    && ch'.lastResult == Some(r) && c !in ch'.ops && ch'.rt.sched.current == c
    && Wf(ch') && ch'.rt.mutexes[MUTEX] == Mutex(false, 0, [])
  }

  /** The call op of c went to sleep at the end of cv's queue, without the mutex. */
  ghost predicate Slumbers<T>(ch: Chan<T>, ch': Chan<T>, c: nat, op: Op<T>, cv: nat) {
    && ch'.queue == ch.queue && c in ch'.ops && ch'.ops[c] == op && ch'.rt.sched.current == 0
    && Wf(ch) && Wf(ch') && cv < 2 && ch'.rt.cvs[cv] == ch.rt.cvs[cv] + [c]
    && c < |ch'.rt.sched.cos| && ch'.rt.sched.cos[c].state == Waiting && ch'.rt.sched.cos[c].waitsOn == cv
    && ch'.rt.mutexes[MUTEX] == Mutex(false, 0, [])
  }

  /** A call of c runs from its loop test to its return or next sleep. */
  ghost predicate Proceeds<T>(ch: Chan<T>, ch': Chan<T>, c: nat, op: Op<T>) {
    && ch'.closed == ch.closed
    && (ch.closed ==> Returned(ch', c, false) && ch'.queue == ch.queue)
    && (!ch.closed && op.Pushing? && |ch.queue| < ch.capacity ==>
          Returned(ch', c, true) && ch'.queue == ch.queue + [op.item])
    && (!ch.closed && op.Pushing? && |ch.queue| >= ch.capacity ==> Slumbers(ch, ch', c, op, PUSH_CV))
    && (!ch.closed && op.Popping? && ch.queue != [] ==> Returned(ch', c, true) && ch'.queue == ch.queue[1..])
    && (!ch.closed && op.Popping? && ch.queue == [] ==> Slumbers(ch, ch', c, op, POP_CV))
  }

  /** The coroutine and the call that an event starts or resumes, if it is about the channel. */
  ghost function CallOf<T>(ch: Chan<T>, ev: ChanEvent<T>): Option<(nat, Op<T>)> {
    match ev
    case Push(item) => Some((ch.rt.sched.current, Pushing(item)))
    case Pop => Some((ch.rt.sched.current, Popping))
    case Close => None
    case Other(e) =>
      if e.DoDispatch? && ch.rt.sched.tasks != [] && ch.rt.sched.tasks[0] in ch.ops
      then Some((ch.rt.sched.tasks[0], ch.ops[ch.rt.sched.tasks[0]])) else None
  }

  lemma BodyProceeds<T>(ch: Chan<T>, op: Op<T>)
    requires MidCall(ch, op)
    ensures Proceeds(ch, Body(ch.(rt := LockAt(ch.rt, MUTEX)), op), ch.rt.sched.current, op)
  {
    FreeMutex(ch.rt, if op.Pushing? then PUSH_CV else POP_CV);
  }

  lemma ResumedProceeds<T>(ch: Chan<T>)
    requires ChanInv(ch) && ch.rt.sched.current == 0 && ch.rt.sched.tasks != []
    requires ch.rt.sched.tasks[0] in ch.ops
    ensures Proceeds(ch, Resume(ch), ch.rt.sched.tasks[0], ch.ops[ch.rt.sched.tasks[0]])
  {
    var c := ch.rt.sched.tasks[0];
    var op := ch.ops[c];
    assert OpOk(ch, c);
    DispatchLocks(ch.rt);
    ResumedMidCall(ch);
    BodyProceeds(ch.(rt := Resumed(ch.rt), ops := ch.ops - {c}), op);
    BodyForgetsOp(ch.(rt := Dispatch(ch.rt)), op);
  }

  /** Every call, new or resumed, does what its loop test says; nothing else touches the queue. */
  lemma StepProceeds<T>(ch: Chan<T>, ev: ChanEvent<T>)
    requires ChanInv(ch) && Channel.Enabled(ch, ev)
    ensures var ch' := Channel.Next(ch, ev);
      match CallOf(ch, ev)
      case Some(call) => Proceeds(ch, ch', call.0, call.1)
      case None => ch'.queue == ch.queue && ch'.ops == ch.ops && ch'.closed == (ch.closed || ev.Close?)
  {
    match ev
    case Push(item) =>
      assert ch.rt.sched.current in ch.ops ==> OpOk(ch, ch.rt.sched.current);
      FreeMutex(ch.rt, PUSH_CV);
      BodyProceeds(ch, Pushing(item));
    case Pop =>
      assert ch.rt.sched.current in ch.ops ==> OpOk(ch, ch.rt.sched.current);
      FreeMutex(ch.rt, POP_CV);
      BodyProceeds(ch, Popping);
    case Close =>
    case Other(e) =>
      if e.DoDispatch? && ch.rt.sched.tasks[0] in ch.ops {
        ResumedProceeds(ch);
      }
  }

  /** The call an event starts or resumes has returned true. */
  ghost predicate ReturnsTrue<T>(ch: Chan<T>, ev: ChanEvent<T>, ch': Chan<T>) {
    CallOf(ch, ev).Some? && CallOf(ch, ev).value.0 !in ch'.ops && ch'.lastResult == Some(true)
  }

  /** The item of the event's push, if that returned true. */
  ghost function Gained<T>(ch: Chan<T>, ev: ChanEvent<T>, ch': Chan<T>): seq<T> {
    if ReturnsTrue(ch, ev, ch') && CallOf(ch, ev).value.1.Pushing? then [CallOf(ch, ev).value.1.item] else []
  }

  /** What the event's pop found at the head of the queue, if that returned true. */
  ghost function Lost<T>(ch: Chan<T>, ev: ChanEvent<T>, ch': Chan<T>): seq<T> {
    if ReturnsTrue(ch, ev, ch') && CallOf(ch, ev).value.1.Popping? && ch.queue != [] then [ch.queue[0]] else []
  }

  /** The items of all pushes that returned true in the first k events, in order; and those of the pops. */
  ghost function Pushed<T>(run: ChanRun<T>, k: nat): seq<T>
    requires k < |run.states| == |run.events| + 1
  {
    if k == 0 then [] else Pushed(run, k - 1) + Gained(run.states[k - 1], run.events[k - 1], run.states[k])
  }

  ghost function Popped<T>(run: ChanRun<T>, k: nat): seq<T>
    requires k < |run.states| == |run.events| + 1
  {
    if k == 0 then [] else Popped(run, k - 1) + Lost(run.states[k - 1], run.events[k - 1], run.states[k])
  }

  /** A call returns true exactly when the queue gained its item or lost its head. */
  lemma StepConserves<T>(ch: Chan<T>, ev: ChanEvent<T>)
    requires ChanInv(ch) && Channel.Enabled(ch, ev)
    ensures var ch' := Channel.Next(ch, ev);
      && ch.queue + Gained(ch, ev, ch') == Lost(ch, ev, ch') + ch'.queue
      && (ch'.queue != ch.queue ==> ReturnsTrue(ch, ev, ch'))
      && (ReturnsTrue(ch, ev, ch') ==> |Gained(ch, ev, ch')| + |Lost(ch, ev, ch')| == 1)
  {
    hide Channel.Next, ChanInv;
    StepProceeds(ch, ev);
    var ch' := Channel.Next(ch, ev);
    assert ch.queue != [] ==> ch.queue == [ch.queue[0]] + ch.queue[1..];
    assert ch.queue + [] == ch.queue && [] + ch'.queue == ch'.queue;
  }

  /** Between two events the channel's mutex is free, so push, pop and close never block on it. */
  lemma LockNeverBlocks<T>(capacity: nat, mutexes: nat, cvs: nat, run: ChanRun<T>, k: nat)
    requires IsChanRun(capacity, mutexes, cvs, run) && k < |run.states|
    ensures var rt := run.states[k].rt;
      && |rt.mutexes| >= 1 && rt.mutexes[MUTEX] == Mutex(false, 0, [])
      && LockAt(rt, MUTEX).sched.current == rt.sched.current
  {
    ChanRunInv(capacity, mutexes, cvs, run, k);
  }

  /**
   Bounded FIFO: the items of the pushes that returned true are those that pops which returned true
   found at the head, followed by the queue, which is at most `capacity` long.
   */
  lemma {:induction false} BoundedFifo<T>(capacity: nat, mutexes: nat, cvs: nat, run: ChanRun<T>, k: nat)
    requires IsChanRun(capacity, mutexes, cvs, run) && k < |run.states|
    ensures Pushed(run, k) == Popped(run, k) + run.states[k].queue
    ensures |run.states[k].queue| <= capacity
  {
    hide Channel.Next, ReturnsTrue, Gained, Lost;
    ChanRunInv(capacity, mutexes, cvs, run, k);
    if k > 0 {
      BoundedFifo(capacity, mutexes, cvs, run, k - 1);
      ChanRunInv(capacity, mutexes, cvs, run, k - 1);
      assert StepsFrom(run.states[k - 1], run.events[k - 1], run.states[k]);
      StepConserves(run.states[k - 1], run.events[k - 1]);
      Carry(Popped(run, k - 1), run.states[k - 1].queue,
            Gained(run.states[k - 1], run.events[k - 1], run.states[k]),
            Lost(run.states[k - 1], run.events[k - 1], run.states[k]), run.states[k].queue);
    }
  }

  lemma Carry<T>(popped: seq<T>, q: seq<T>, gained: seq<T>, lost: seq<T>, q': seq<T>)
    requires q + gained == lost + q'
    ensures popped + q + gained == popped + lost + q'
  {
    assert popped + q + gained == popped + (q + gained);
    assert popped + lost + q' == popped + (lost + q');
  }

  /**
   No stranded waiter: while a consumer sleeps, every queued item has a woken consumer on its way;
   while a producer sleeps, every free slot has a woken producer on its way.
   */
  lemma NoStrandedWaiter<T>(capacity: nat, mutexes: nat, cvs: nat, run: ChanRun<T>, k: nat)
    requires IsChanRun(capacity, mutexes, cvs, run) && k < |run.states|
    ensures var ch := run.states[k];
      && Wf(ch)
      && (ch.rt.cvs[POP_CV] != [] ==> |ch.queue| <= |Woken(ch, false)|)
      && (ch.rt.cvs[PUSH_CV] != [] ==> capacity - |ch.queue| <= |Woken(ch, true)|)
  {
    ChanRunInv(capacity, mutexes, cvs, run, k);
  }

  /** When no coroutine is left to run, consumers sleep only on an empty channel and producers only on a full one. */
  lemma IdleMeansJustified<T>(capacity: nat, mutexes: nat, cvs: nat, run: ChanRun<T>, k: nat)
    requires IsChanRun(capacity, mutexes, cvs, run) && k < |run.states|
    requires run.states[k].rt.sched.tasks == []
    ensures var ch := run.states[k];
      && Wf(ch)
      && (ch.rt.cvs[POP_CV] != [] ==> ch.queue == [] && !ch.closed)
      && (ch.rt.cvs[PUSH_CV] != [] ==> |ch.queue| == capacity && !ch.closed)
  {
    ChanRunInv(capacity, mutexes, cvs, run, k);
    assert Woken(run.states[k], false) == {};
    assert Woken(run.states[k], true) == {};
  }

  /** Once closed, a channel stays closed, its queue never changes and nobody sleeps on it. */
  lemma {:induction false} ClosedForGood<T>(capacity: nat, mutexes: nat, cvs: nat, run: ChanRun<T>, j: nat, k: nat)
    requires IsChanRun(capacity, mutexes, cvs, run) && j <= k < |run.states| && run.states[j].closed
    ensures var ch := run.states[k];
      && ch.closed && ch.queue == run.states[j].queue
      && ch.accepted == run.states[j].accepted && ch.delivered == run.states[j].delivered
      && Wf(ch) && ch.rt.cvs[PUSH_CV] == [] && ch.rt.cvs[POP_CV] == []
    decreases k
  {
    ChanRunInv(capacity, mutexes, cvs, run, k);
    if j < k {
      ClosedForGood(capacity, mutexes, cvs, run, j, k - 1);
      ChanRunInv(capacity, mutexes, cvs, run, k - 1);
      assert StepsFrom(run.states[k - 1], run.events[k - 1], run.states[k]);
      ClosedStep(run.states[k - 1], run.events[k - 1]);
    }
  }

  /** After close every push and pop, new or resumed, returns false at once. */
  lemma ClosedStep<T>(ch: Chan<T>, ev: ChanEvent<T>)
    requires ChanInv(ch) && ch.closed && Channel.Enabled(ch, ev)
    ensures var ch' := Channel.Next(ch, ev);
      && ch'.closed && ch'.queue == ch.queue && ch'.accepted == ch.accepted && ch'.delivered == ch.delivered
      && (ev.Push? || ev.Pop? ==>
            ch' == ch.(ops := ch'.ops, lastResult := Some(false)) && ch.rt.sched.current !in ch'.ops)
      && (ev == Other(DoDispatch) && ch.rt.sched.tasks[0] in ch.ops ==>
            ch'.lastResult == Some(false) && ch'.ops == ch.ops - {ch.rt.sched.tasks[0]})
  {
    match ev
    case Push(item) => FreeMutex(ch.rt, PUSH_CV);
    case Pop => FreeMutex(ch.rt, POP_CV);
    case Close =>
    case Other(e) =>
      if e.DoDispatch? && ch.rt.sched.tasks[0] in ch.ops {
        assert OpOk(ch, ch.rt.sched.tasks[0]);
        DispatchLocks(ch.rt);
      }
  }
}
