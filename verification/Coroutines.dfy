/**
 The coroutine runtime (source/coroutine) as a cooperative one-worker machine: what happens between
 two yields is one event. A coroutine is named by its id; id 0 stands for "nobody", and `current`
 is 0 while the worker's main coroutine runs the scheduler.
 */
module Coroutines {

  datatype Option<T> = None | Some(value: T)

  datatype CoState = Ready | Blocked | Waiting | Terminated

  /**
   `retry` names the mutex whose lock() the suspended coroutine is inside of, `waitsOn` the condition
   variable it was last put to sleep on, `held` the mutexes whose lock() returned to it.
   */
  datatype Co = Co(state: CoState, retry: Option<nat>, waitsOn: nat, held: set<nat>)

  datatype Sched = Sched(current: nat, tasks: seq<nat>, cos: seq<Co>)

  datatype Mutex = Mutex(locked: bool, owner: nat, queue: seq<nat>)

  // ---- operations on one mutex or one queue ----------------------------------------------

  function SetCo(sc: Sched, c: nat, co: Co): Sched {
    if c < |sc.cos| then sc.(cos := sc.cos[c := co]) else sc
  }

  function Of(sc: Sched, c: nat): Co {
    if c < |sc.cos| then sc.cos[c] else Co(Terminated, None, 0, {})
  }

  /** setState(READY) and addTask. */
  function Wake(sc: Sched, c: nat): Sched {
    SetCo(sc, c, Of(sc, c).(state := Ready)).(tasks := sc.tasks + [c])
  }

  /** One round of `while (!tryLock())`: take the lock, or queue up, become BLOCKED and yield. */
  function Attempt(sc: Sched, mu: Mutex, m: nat): (Sched, Mutex) {
    var c := sc.current;
    if !mu.locked then
      (SetCo(sc, c, Of(sc, c).(retry := None, held := Of(sc, c).held + {m})), mu.(locked := true, owner := c))
    else
      (SetCo(sc, c, Of(sc, c).(state := Blocked, retry := Some(m))).(current := 0), mu.(queue := mu.queue + [c]))
  }

  function Lock(sc: Sched, mu: Mutex, m: nat): (Sched, Mutex) {
    if mu.owner == sc.current then (sc, mu) else Attempt(sc, mu, m)
  }

  function Unlock(sc: Sched, mu: Mutex, m: nat): (Sched, Mutex) {
    var c := sc.current;
    if mu.owner != c then (sc, mu)
    else
      var sc1 := SetCo(sc, c, Of(sc, c).(held := Of(sc, c).held - {m}));
      if mu.queue == [] then (sc1, Mutex(false, 0, []))
      else (Wake(sc1, mu.queue[0]), Mutex(false, 0, mu.queue[1..]))
  }

  /** The part of wait() after the mutex is released: WAITING and yield. */
  function Sleep(sc: Sched, cv: nat, retry: Option<nat>): Sched {
    var c := sc.current;
    SetCo(sc, c, Of(sc, c).(state := Waiting, retry := retry, waitsOn := cv)).(current := 0)
  }

  function Notify(sc: Sched, q: seq<nat>): (Sched, seq<nat>) {
    if q == [] then (sc, q) else (Wake(sc, q[0]), q[1..])
  }

  function NotifyAll(sc: Sched, q: seq<nat>): Sched
    decreases |q|
  {
    if q == [] then sc else NotifyAll(Wake(sc, q[0]), q[1..])
  }

  function Spawn(sc: Sched): Sched {
    sc.(cos := sc.cos + [Co(Ready, None, 0, {})], tasks := sc.tasks + [|sc.cos|])
  }

  function SpawnMany(sc: Sched, k: nat): Sched {
    if k == 0 then sc else Spawn(SpawnMany(sc, k - 1))
  }

  /** Back to the scheduler while READY: timer callbacks are queued first, then the coroutine. */
  function Yield(sc: Sched, timers: nat): Sched {
    var sc1 := SpawnMany(sc.(current := 0), timers);
    sc1.(tasks := sc1.tasks + [sc.current])
  }

  function Finish(sc: Sched): Sched {
    SetCo(sc, sc.current, Of(sc, sc.current).(state := Terminated)).(current := 0)
  }

  // ---- the machine -----------------------------------------------------------------------

  datatype Rt = Rt(sched: Sched, mutexes: seq<Mutex>, cvs: seq<seq<nat>>)

  datatype Event =
    | DoDispatch
    | DoLock(m: nat)
    | DoUnlock(m: nat)
    | DoWait(cv: nat, m: nat)
    | DoWaitPlain(cv: nat)
    | DoNotify(cv: nat)
    | DoNotifyAll(cv: nat)
    | DoYield(timers: nat)
    | DoFinish
    | DoSpawn

  function Init(mutexes: nat, cvs: nat): Rt {
    Rt(Sched(0, [], [Co(Terminated, None, 0, {})]), seq(mutexes, i => Mutex(false, 0, [])), seq(cvs, i => []))
  }

  predicate Enabled(rt: Rt, ev: Event) {
    match ev
    case DoDispatch => rt.sched.current == 0 && rt.sched.tasks != []
    case DoLock(m) => rt.sched.current != 0 && m < |rt.mutexes|
    case DoUnlock(m) => rt.sched.current != 0 && m < |rt.mutexes|
    case DoWait(cv, m) => rt.sched.current != 0 && cv < |rt.cvs| && m < |rt.mutexes|
    case DoWaitPlain(cv) => rt.sched.current != 0 && cv < |rt.cvs|
    case DoNotify(cv) => rt.sched.current != 0 && cv < |rt.cvs|
    case DoNotifyAll(cv) => rt.sched.current != 0 && cv < |rt.cvs|
    case DoYield(_) => rt.sched.current != 0
    case DoFinish => rt.sched.current != 0
    case DoSpawn => true
  }

  function WithMutex(rt: Rt, m: nat, r: (Sched, Mutex)): Rt
    requires m < |rt.mutexes|
  {
    rt.(sched := r.0, mutexes := rt.mutexes[m := r.1])
  }

  function LockAt(rt: Rt, m: nat): Rt
    requires m < |rt.mutexes|
  {
    WithMutex(rt, m, Lock(rt.sched, rt.mutexes[m], m))
  }

  function UnlockAt(rt: Rt, m: nat): Rt
    requires m < |rt.mutexes|
  {
    WithMutex(rt, m, Unlock(rt.sched, rt.mutexes[m], m))
  }

  function AttemptAt(rt: Rt, m: nat): Rt
    requires m < |rt.mutexes|
  {
    WithMutex(rt, m, Attempt(rt.sched, rt.mutexes[m], m))
  }

  function WaitAt(rt: Rt, cv: nat, m: nat): Rt
    requires cv < |rt.cvs| && m < |rt.mutexes|
  {
    var rt1 := UnlockAt(rt.(cvs := rt.cvs[cv := rt.cvs[cv] + [rt.sched.current]]), m);
    rt1.(sched := Sleep(rt1.sched, cv, Some(m)))
  }

  function WaitPlainAt(rt: Rt, cv: nat): Rt
    requires cv < |rt.cvs|
  {
    rt.(cvs := rt.cvs[cv := rt.cvs[cv] + [rt.sched.current]], sched := Sleep(rt.sched, cv, None))
  }

  function NotifyAt(rt: Rt, cv: nat): Rt
    requires cv < |rt.cvs|
  {
    var (sc, q) := Notify(rt.sched, rt.cvs[cv]);
    rt.(sched := sc, cvs := rt.cvs[cv := q])
  }

  function NotifyAllAt(rt: Rt, cv: nat): Rt
    requires cv < |rt.cvs|
  {
    rt.(sched := NotifyAll(rt.sched, rt.cvs[cv]), cvs := rt.cvs[cv := []])
  }

  /** The worker resumes the first task; inside lock() it goes straight to its next attempt. */
  function Dispatch(rt: Rt): Rt
    requires rt.sched.tasks != []
  {
    var c := rt.sched.tasks[0];
    var rt1 := rt.(sched := rt.sched.(current := c, tasks := rt.sched.tasks[1..]));
    match Of(rt.sched, c).retry
    case Some(m) => if m < |rt.mutexes| then AttemptAt(rt1, m) else rt1
    case None => rt1
  }

  function Next(rt: Rt, ev: Event): Rt
    requires Enabled(rt, ev)
  {
    match ev
    case DoDispatch => Dispatch(rt)
    case DoLock(m) => LockAt(rt, m)
    case DoUnlock(m) => UnlockAt(rt, m)
    case DoWait(cv, m) => WaitAt(rt, cv, m)
    case DoWaitPlain(cv) => WaitPlainAt(rt, cv)
    case DoNotify(cv) => NotifyAt(rt, cv)
    case DoNotifyAll(cv) => NotifyAllAt(rt, cv)
    case DoYield(timers) => rt.(sched := Yield(rt.sched, timers))
    case DoFinish => rt.(sched := Finish(rt.sched))
    case DoSpawn => rt.(sched := Spawn(rt.sched))
  }
}
