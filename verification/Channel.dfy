/**
 The bounded channel (source/coroutine/coroutinechannal.h) on the cooperative runtime: its mutex is
 mutex 0 of the machine, its two condition variables are number 0 (push) and 1 (pop). Each event is
 what one coroutine does between two yields; other coroutines run arbitrary programs beside it.
 */
module Channel {
  import opened Coroutines

  const MUTEX: nat := 0
  const PUSH_CV: nat := 0
  const POP_CV: nat := 1

  /** The call a coroutine is suspended in. */
  datatype Op<T> = Pushing(item: T) | Popping

  datatype Chan<T> = Chan(
    rt: Rt,
    capacity: nat,
    queue: seq<T>,
    closed: bool,
    ops: map<nat, Op<T>>,
    // record of the past: what was accepted and handed out, and what the calls returned
    accepted: seq<T>,
    delivered: seq<T>,
    lastResult: Option<bool>)

  datatype ChanEvent<T> =
    | Push(item: T)
    | Pop
    | Close
    | Other(ev: Event)

  function Init<T>(capacity: nat, mutexes: nat, cvs: nat): Chan<T> {
    Chan(Coroutines.Init(mutexes + 1, cvs + 2), capacity, [], false, map[], [], [], None)
  }

  predicate Wf<T>(ch: Chan<T>) {
    |ch.rt.mutexes| >= 1 && |ch.rt.cvs| >= 2
  }

  /** Everything but the channel's private mutex and condition variables. */
  predicate Foreign(ev: Event) {
    match ev
    case DoLock(m) => m != MUTEX
    case DoUnlock(m) => m != MUTEX
    case DoWait(cv, m) => m != MUTEX && cv != PUSH_CV && cv != POP_CV
    case DoWaitPlain(cv) => cv != PUSH_CV && cv != POP_CV
    case DoNotify(cv) => cv != PUSH_CV && cv != POP_CV
    case DoNotifyAll(cv) => cv != PUSH_CV && cv != POP_CV
    case _ => true
  }

  predicate Enabled<T>(ch: Chan<T>, ev: ChanEvent<T>) {
    Wf(ch) &&
    match ev
    case Other(e) => Foreign(e) && Coroutines.Enabled(ch.rt, e)
    case _ => ch.rt.sched.current != 0
  }

  function Returns<T>(ch: Chan<T>, rt: Rt, r: bool): Chan<T> {
    ch.(rt := rt, ops := ch.ops - {ch.rt.sched.current}, lastResult := Some(r))
  }

  /** push from the point where the mutex is held, up to its return or its next wait. */
  function PushBody<T>(ch: Chan<T>, item: T): Chan<T>
    requires Wf(ch)
  {
    if ch.closed then Returns(ch, UnlockAt(ch.rt, MUTEX), false)
    else if |ch.queue| >= ch.capacity then
      ch.(rt := WaitAt(ch.rt, PUSH_CV, MUTEX), ops := ch.ops[ch.rt.sched.current := Pushing(item)])
    else
      Returns(ch, NotifyAt(UnlockAt(ch.rt, MUTEX), POP_CV), true).(
        queue := ch.queue + [item], accepted := ch.accepted + [item])
  }

  function PopBody<T>(ch: Chan<T>): Chan<T>
    requires Wf(ch)
  {
    if ch.closed then Returns(ch, UnlockAt(ch.rt, MUTEX), false)
    else if ch.queue == [] then
      ch.(rt := WaitAt(ch.rt, POP_CV, MUTEX), ops := ch.ops[ch.rt.sched.current := Popping])
    else
      Returns(ch, NotifyAt(UnlockAt(ch.rt, MUTEX), PUSH_CV), true).(
        queue := ch.queue[1..], delivered := ch.delivered + [ch.queue[0]])
  }

  function Body<T>(ch: Chan<T>, op: Op<T>): Chan<T>
    requires Wf(ch)
  {
    match op
    case Pushing(item) => PushBody(ch, item)
    case Popping => PopBody(ch)
  }

  /** A call begins by locking; if that blocks, the call is suspended before its body. */
  function Begin<T>(ch: Chan<T>, op: Op<T>): Chan<T>
    requires Wf(ch)
  {
    var ch1 := ch.(rt := LockAt(ch.rt, MUTEX));
    if ch1.rt.sched.current == ch.rt.sched.current then Body(ch1, op)
    else ch1.(ops := ch.ops[ch.rt.sched.current := op])
  }

  /** close() from the point where the mutex is held. */
  function CloseLocked<T>(ch: Chan<T>): Chan<T>
    requires Wf(ch)
  {
    if ch.closed then ch.(rt := UnlockAt(ch.rt, MUTEX))
    else ch.(rt := UnlockAt(NotifyAllAt(NotifyAllAt(ch.rt, PUSH_CV), POP_CV), MUTEX), closed := true)
  }

  /** close() whose lock() does not block: between events the mutex is always free (ChanInv). */
  function CloseBody<T>(ch: Chan<T>): Chan<T>
    requires Wf(ch)
  {
    CloseLocked(ch.(rt := LockAt(ch.rt, MUTEX)))
  }

  /** A resumed coroutine that is inside push or pop and got the mutex back continues with its body. */
  function Resume<T>(ch: Chan<T>): Chan<T>
    requires Wf(ch) && ch.rt.sched.tasks != []
  {
    var c := ch.rt.sched.tasks[0];
    var ch1 := ch.(rt := Dispatch(ch.rt));
    if c in ch.ops && ch1.rt.sched.current == c then Body(ch1, ch.ops[c]) else ch1
  }

  function Next<T>(ch: Chan<T>, ev: ChanEvent<T>): Chan<T>
    requires Enabled(ch, ev)
  {
    match ev
    case Push(item) => Begin(ch, Pushing(item))
    case Pop => Begin(ch, Popping)
    case Close => CloseBody(ch)
    case Other(e) => if e.DoDispatch? then Resume(ch) else ch.(rt := Coroutines.Next(ch.rt, e))
  }
}
