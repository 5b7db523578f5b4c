/**
 The objects of source/coroutine: scheduler, coroutine mutex, condition variable and channel, their
 methods proved against the functions of Coroutines.dfy and Channel.dfy. A method that yields in the
 C++ code is split there: it returns with `current` 0 and its continuation is another method.
 */
module CoroutineSync {
  import opened Coroutines
  import C = Channel

  /** The ids of the next k coroutines. */
  function Fresh(from: nat, k: nat): seq<nat> {
    seq(k, i requires 0 <= i < k => from + i)
  }

  class Scheduler {
    var current: nat
    var tasks: seq<nat>
    var cos: seq<Co>

    ghost function View(): Sched
      reads this
    {
      Sched(current, tasks, cos)
    }

    constructor ()
      ensures View() == Sched(0, [], [Co(Terminated, None, 0, {})])
    {
      current, tasks, cos := 0, [], [Co(Terminated, None, 0, {})];
    }

    /** Nothing about the coroutines changes but the state of c, if it is one. */
    twostate predicate OnlyState(c: nat, st: CoState)
      reads this
    {
      && |cos| == |old(cos)|
      && forall i :: 0 <= i < |cos| ==> cos[i] == if i == c then old(cos)[i].(state := st) else old(cos)[i]
    }

    method Set(c: nat, co: Co)
      modifies `cos
      ensures View() == SetCo(old(View()), c, co)
    {
      if c < |cos| {
        cos := cos[c := co];
      }
    }

    method Get(c: nat) returns (co: Co)
      ensures co == Of(View(), c)
    {
      co := if c < |cos| then cos[c] else Co(Terminated, None, 0, {});
    }

    /** setState(READY), then addTask on the running scheduler. */
    method WakeUp(c: nat)
      modifies this
      ensures View() == Wake(old(View()), c)
      ensures tasks == old(tasks) + [c] && current == old(current) && OnlyState(c, Ready)
    {
      var co := Get(c);
      Set(c, co.(state := Ready));
      tasks := tasks + [c];
    }

    method AddCallback()
      modifies this
      ensures View() == Spawn(old(View()))
      ensures tasks == old(tasks) + [|old(cos)|] && current == old(current)
      ensures cos == old(cos) + [Co(Ready, None, 0, {})]
    {
      cos, tasks := cos + [Co(Ready, None, 0, {})], tasks + [|cos|];
    }

    /** The coroutine yields while READY: the worker takes expired timers, then queues it again. */
    method YieldReady(timers: nat)
      modifies this
      ensures View() == Yield(old(View()), timers)
      ensures current == 0 && tasks == old(tasks) + Fresh(|old(cos)|, timers) + [old(current)]
      ensures |cos| == |old(cos)| + timers && old(cos) == cos[..|old(cos)|]
      ensures forall i :: |old(cos)| <= i < |cos| ==> cos[i] == Co(Ready, None, 0, {})
    {
      var c := current;
      current := 0;
      ghost var start := View();
      var k := 0;
      while k < timers
        invariant 0 <= k <= timers
        invariant View() == SpawnMany(start, k)
        invariant current == 0 && tasks == old(tasks) + Fresh(|old(cos)|, k)
        invariant |cos| == |old(cos)| + k && old(cos) == cos[..|old(cos)|]
        invariant forall i :: |old(cos)| <= i < |cos| ==> cos[i] == Co(Ready, None, 0, {})
      {
        AddCallback();
        assert Fresh(|old(cos)|, k + 1) == Fresh(|old(cos)|, k) + [|old(cos)| + k];
        k := k + 1;
      }
      tasks := tasks + [c];
    }

    /** Top of the worker's loop: the first task, if there is one, leaves the queue and runs. */
    method TakeTask() returns (some: bool)
      modifies this
      ensures some == (old(tasks) != [])
      ensures some ==> current == old(tasks)[0] && tasks == old(tasks)[1..] && cos == old(cos)
      ensures !some ==> unchanged(this)
    {
      some := tasks != [];
      if some {
        current, tasks := tasks[0], tasks[1..];
      }
    }

    /** MainFunc after the callback has returned. */
    method Terminate()
      modifies this
      ensures View() == Finish(old(View()))
      ensures current == 0 && tasks == old(tasks) && OnlyState(old(current), Terminated)
    {
      var co := Get(current);
      Set(current, co.(state := Terminated));
      current := 0;
    }
  }

  class CoroutineMutex {
    const index: nat
    var locked: bool
    var ownerId: nat
    var waitQueue: seq<nat>

    ghost function View(): Mutex
      reads this
    {
      Mutex(locked, ownerId, waitQueue)
    }

    constructor (index: nat)
      ensures View() == Mutex(false, 0, []) && this.index == index
    {
      this.index := index;
      locked, ownerId, waitQueue := false, 0, [];
    }

    method TryLock() returns (ok: bool)
      modifies `locked
      ensures ok == !old(locked) && locked
    {
      ok := !locked;
      locked := true;
    }

    /** The caller owns the mutex and goes on. */
    twostate predicate Taken(s: Scheduler)
      reads this, s
    {
      && locked && ownerId == s.current == old(s.current) && waitQueue == old(waitQueue) && s.tasks == old(s.tasks)
      && |s.cos| == |old(s.cos)|
      && forall i :: 0 <= i < |s.cos| ==>
           s.cos[i] == if i == s.current then old(s.cos)[i].(retry := None, held := old(s.cos)[i].held + {index})
                       else old(s.cos)[i]
    }

    /** The caller waits for the mutex and has yielded. */
    twostate predicate Queued(s: Scheduler)
      reads this, s
    {
      && locked == old(locked) && ownerId == old(ownerId) && waitQueue == old(waitQueue) + [old(s.current)]
      && s.current == 0 && s.tasks == old(s.tasks) && |s.cos| == |old(s.cos)|
      && forall i :: 0 <= i < |s.cos| ==>
           s.cos[i] == if i == old(s.current) then old(s.cos)[i].(state := Blocked, retry := Some(index))
                       else old(s.cos)[i]
    }

    /** One round of the loop in lock(). */
    method Try(s: Scheduler)
      modifies this, s
      ensures (s.View(), View()) == Attempt(old(s.View()), old(View()), index)
      ensures if old(locked) then Queued(s) else Taken(s)
    {
      var co := s.Get(s.current);
      var ok := TryLock();
      if ok {
        ownerId := s.current;
        s.Set(s.current, co.(retry := None, held := co.held + {index}));
      } else {
        waitQueue := waitQueue + [s.current];
        s.Set(s.current, co.(state := Blocked, retry := Some(index)));
        s.current := 0;
      }
    }

    method LockFirst(s: Scheduler)
      modifies this, s
      ensures (s.View(), View()) == Lock(old(s.View()), old(View()), index)
      ensures if old(ownerId) == old(s.current) then unchanged(this, s) else if old(locked) then Queued(s) else Taken(s)
    {
      if s.current == ownerId {
        return;
      }
      Try(s);
    }

    method Release(s: Scheduler)
      modifies this, s
      ensures (s.View(), View()) == Unlock(old(s.View()), old(View()), index)
      ensures old(ownerId) != old(s.current) ==> unchanged(this, s)
      ensures old(ownerId) == old(s.current) ==>
        && !locked && ownerId == 0 && s.current == old(s.current) && |s.cos| == |old(s.cos)|
        && (old(waitQueue) == [] ==> waitQueue == [] && s.tasks == old(s.tasks))
        && (old(waitQueue) != [] ==>
              waitQueue == old(waitQueue)[1..] && s.tasks == old(s.tasks) + [old(waitQueue)[0]])
        && forall i :: 0 <= i < |s.cos| ==>
             var co := old(s.cos)[i];
             && s.cos[i].held == (if i == s.current then co.held - {index} else co.held)
             && s.cos[i].state == (if old(waitQueue) != [] && i == old(waitQueue)[0] then Ready else co.state)
             && s.cos[i].retry == co.retry && s.cos[i].waitsOn == co.waitsOn
    {
      if s.current != ownerId {
        return;
      }
      ownerId := 0;
      var co := s.Get(s.current);
      s.Set(s.current, co.(held := co.held - {index}));
      if waitQueue != [] {
        var next := waitQueue[0];
        waitQueue := waitQueue[1..];
        locked := false;
        s.WakeUp(next);
      } else {
        locked := false;
      }
    }
  }

  class CoroutineCV {
    const index: nat
    var waitQueue: seq<nat>

    constructor (index: nat)
      ensures waitQueue == [] && this.index == index
    {
      this.index := index;
      waitQueue := [];
    }

    method NotifyOne(s: Scheduler)
      modifies this, s
      ensures (s.View(), waitQueue) == Notify(old(s.View()), old(waitQueue))
      ensures old(waitQueue) == [] ==> unchanged(this, s)
      ensures old(waitQueue) != [] ==>
        && waitQueue == old(waitQueue)[1..] && s.tasks == old(s.tasks) + [old(waitQueue)[0]]
        && s.current == old(s.current) && s.OnlyState(old(waitQueue)[0], Ready)
    {
      if waitQueue == [] {
        return;
      }
      var c := waitQueue[0];
      waitQueue := waitQueue[1..];
      s.WakeUp(c);
    }

    method NotifyEveryone(s: Scheduler)
      modifies this, s
      ensures s.View() == NotifyAll(old(s.View()), old(waitQueue)) && waitQueue == []
      ensures s.tasks == old(s.tasks) + old(waitQueue) && s.current == old(s.current) && |s.cos| == |old(s.cos)|
      ensures forall i :: 0 <= i < |s.cos| ==>
        s.cos[i] == if i in old(waitQueue) then old(s.cos)[i].(state := Ready) else old(s.cos)[i]
    {
      while waitQueue != []
        invariant NotifyAll(s.View(), waitQueue) == NotifyAll(old(s.View()), old(waitQueue))
        invariant s.tasks + waitQueue == old(s.tasks) + old(waitQueue)
        invariant s.current == old(s.current) && |s.cos| == |old(s.cos)|
        invariant forall x :: x in waitQueue ==> x in old(waitQueue)
        invariant forall i :: 0 <= i < |s.cos| ==>
          s.cos[i] == old(s.cos)[i] || (i in old(waitQueue) && s.cos[i] == old(s.cos)[i].(state := Ready))
        invariant forall i :: 0 <= i < |s.cos| && i in old(waitQueue) && i !in waitQueue ==>
          s.cos[i] == old(s.cos)[i].(state := Ready)
        decreases |waitQueue|
      {
        var c := waitQueue[0];
        waitQueue := waitQueue[1..];
        s.WakeUp(c);
      }
    }

    method WaitPlain(s: Scheduler)
      modifies this, s
      ensures waitQueue == old(waitQueue) + [old(s.current)]
      ensures s.View() == Sleep(old(s.View()), index, None)
      ensures s.current == 0 && s.tasks == old(s.tasks) && |s.cos| == |old(s.cos)|
      ensures forall i :: 0 <= i < |s.cos| ==>
        s.cos[i] == if i == old(s.current) then old(s.cos)[i].(state := Waiting, retry := None, waitsOn := index)
                    else old(s.cos)[i]
    {
      waitQueue := waitQueue + [s.current];
      var co := s.Get(s.current);
      s.Set(s.current, co.(state := Waiting, retry := None, waitsOn := index));
      s.current := 0;
    }

    /** wait(mutex) up to its yield; its continuation is the lock attempt that Dispatch makes. */
    method WaitReleasing(s: Scheduler, mutex: CoroutineMutex)
      modifies this, s, mutex
      ensures waitQueue == old(waitQueue) + [old(s.current)]
      ensures var (sc, mu) := Unlock(old(s.View()), old(mutex.View()), mutex.index);
        s.View() == Sleep(sc, index, Some(mutex.index)) && mutex.View() == mu
      ensures s.current == 0 && |s.cos| == |old(s.cos)|
      ensures old(mutex.ownerId) == old(s.current) ==>
        && !mutex.locked && mutex.ownerId == 0
        && mutex.waitQueue == (if old(mutex.waitQueue) == [] then [] else old(mutex.waitQueue)[1..])
        && s.tasks == old(s.tasks) + (if old(mutex.waitQueue) == [] then [] else [old(mutex.waitQueue)[0]])
      ensures old(s.current) < |s.cos| ==>
        var co := s.cos[old(s.current)];
        co.state == Waiting && co.retry == Some(mutex.index) && co.waitsOn == index
    {
      waitQueue := waitQueue + [s.current];
      mutex.Release(s);
      var co := s.Get(s.current);
      s.Set(s.current, co.(state := Waiting, retry := Some(mutex.index), waitsOn := index));
      s.current := 0;
    }
  }

  class CoroutineChannal<T> {
    const capacity: nat
    const mutex: CoroutineMutex
    const pushCv: CoroutineCV
    const popCv: CoroutineCV
    var queue: seq<T>
    var isClose: bool

    ghost predicate Valid() {
      mutex.index == C.MUTEX && pushCv.index == C.PUSH_CV && popCv.index == C.POP_CV && pushCv != popCv
    }

    /** The channel and its part of the machine; the record fields of Chan play no role here. */
    ghost function View(s: Scheduler): C.Chan<T>
      reads this, s, mutex, pushCv, popCv
    {
      C.Chan(Rt(s.View(), [mutex.View()], [pushCv.waitQueue, popCv.waitQueue]), capacity, queue, isClose,
             map[], [], [], None)
    }

    ghost predicate Is(s: Scheduler, ch: C.Chan<T>)
      reads this, s, mutex, pushCv, popCv
    {
      View(s) == ch.(ops := map[], accepted := [], delivered := [], lastResult := None)
    }

    constructor (capacity: nat)
      ensures Valid() && fresh(mutex) && fresh(pushCv) && fresh(popCv)
      ensures queue == [] && !isClose && this.capacity == capacity
      ensures mutex.View() == Mutex(false, 0, []) && pushCv.waitQueue == [] && popCv.waitQueue == []
    {
      this.capacity := capacity;
      mutex := new CoroutineMutex(C.MUTEX);
      pushCv := new CoroutineCV(C.PUSH_CV);
      popCv := new CoroutineCV(C.POP_CV);
      queue, isClose := [], false;
    }

    /** The caller sleeps on cv, READY no more, and will lock the mutex again. */
    twostate predicate WentToSleep(s: Scheduler, cv: CoroutineCV)
      reads s, mutex, cv
    {
      && cv.waitQueue == old(cv.waitQueue) + [old(s.current)] && s.current == 0
      && (old(s.current) < |s.cos| ==>
            s.cos[old(s.current)].state == Waiting && s.cos[old(s.current)].retry == Some(mutex.index))
    }

    /** The longest sleeper of cv, if there is one, is off its queue. */
    twostate predicate HeadLeft(cv: CoroutineCV)
      reads cv
    {
      cv.waitQueue == if old(cv.waitQueue) == [] then [] else old(cv.waitQueue)[1..]
    }

    /** The tasks are the old ones, then the mutex's next waiter, then whoever the other side woke. */
    twostate predicate Woke(s: Scheduler, woken: seq<nat>)
      reads s, mutex
    {
      s.tasks == old(s.tasks) + (if old(mutex.waitQueue) == [] then [] else [old(mutex.waitQueue)[0]])
                 + (if woken == [] then [] else [woken[0]])
    }

    /** What a push by the owner of the mutex does: it sleeps on a full queue, and otherwise returns. */
    twostate predicate Pushes(s: Scheduler, t: T, r: Option<bool>)
      reads this, s, mutex, pushCv, popCv
    {
      && isClose == old(isClose) && !mutex.locked && mutex.ownerId == 0
      && (if old(isClose) then
            && r == Some(false) && queue == old(queue) && s.current == old(s.current) && Woke(s, [])
            && pushCv.waitQueue == old(pushCv.waitQueue) && popCv.waitQueue == old(popCv.waitQueue)
          else if |old(queue)| >= capacity then
            && r == None && queue == old(queue) && WentToSleep(s, pushCv) && Woke(s, [])
            && popCv.waitQueue == old(popCv.waitQueue)
          else
            && r == Some(true) && queue == old(queue) + [t] && s.current == old(s.current)
            && pushCv.waitQueue == old(pushCv.waitQueue) && HeadLeft(popCv) && Woke(s, old(popCv.waitQueue)))
    }

    /** What a pop by the owner of the mutex does: it sleeps on an empty queue, and otherwise returns. */
    twostate predicate Pops(s: Scheduler, r: Option<bool>, t: Option<T>)
      reads this, s, mutex, pushCv, popCv
    {
      && isClose == old(isClose) && !mutex.locked && mutex.ownerId == 0
      && (if old(isClose) then
            && r == Some(false) && t == None && queue == old(queue) && s.current == old(s.current) && Woke(s, [])
            && pushCv.waitQueue == old(pushCv.waitQueue) && popCv.waitQueue == old(popCv.waitQueue)
          else if old(queue) == [] then
            && r == None && t == None && queue == [] && WentToSleep(s, popCv) && Woke(s, [])
            && pushCv.waitQueue == old(pushCv.waitQueue)
          else
            && r == Some(true) && t == Some(old(queue)[0]) && queue == old(queue)[1..] && s.current == old(s.current)
            && popCv.waitQueue == old(popCv.waitQueue) && HeadLeft(pushCv) && Woke(s, old(pushCv.waitQueue)))
    }

    /** close() by the owner of the mutex: everybody asleep on the channel is woken, once. */
    twostate predicate Closes(s: Scheduler)
      reads this, s, mutex, pushCv, popCv
    {
      && isClose && queue == old(queue) && !mutex.locked && mutex.ownerId == 0 && s.current == old(s.current)
      && (if old(isClose) then
            && Woke(s, [])
            && pushCv.waitQueue == old(pushCv.waitQueue) && popCv.waitQueue == old(popCv.waitQueue)
          else
            && pushCv.waitQueue == [] && popCv.waitQueue == []
            && s.tasks == old(s.tasks) + old(pushCv.waitQueue) + old(popCv.waitQueue)
                          + if old(mutex.waitQueue) == [] then [] else [old(mutex.waitQueue)[0]])
    }

    /** The lock was taken by somebody else: nothing happened but that the caller waits for it. */
    twostate predicate Blocks(s: Scheduler)
      reads this, s, mutex, pushCv, popCv
    {
      mutex.Queued(s) && unchanged(this, pushCv, popCv)
    }

    /** push with the mutex held; the result is None when the caller went to sleep. */
    method PushLocked(s: Scheduler, t: T) returns (r: Option<bool>)
      requires Valid()
      modifies this, s, mutex, pushCv, popCv
      ensures Is(s, C.PushBody(old(View(s)), t)) && r == C.PushBody(old(View(s)), t).lastResult
      ensures old(mutex.ownerId) == old(s.current) ==> Pushes(s, t, r)
    {
      hide Unlock, Notify, Sleep;
      if isClose {
        mutex.Release(s);
        return Some(false);
      }
      if |queue| >= capacity {
        pushCv.WaitReleasing(s, mutex);
        return None;
      }
      queue := queue + [t];
      mutex.Release(s);
      popCv.NotifyOne(s);
      return Some(true);
    }

    method PopLocked(s: Scheduler) returns (r: Option<bool>, t: Option<T>)
      requires Valid()
      modifies this, s, mutex, pushCv, popCv
      ensures Is(s, C.PopBody(old(View(s)))) && r == C.PopBody(old(View(s))).lastResult
      ensures r == Some(true) ==> old(queue) != [] && t == Some(old(queue)[0])
      ensures r != Some(true) ==> t == None
      ensures old(mutex.ownerId) == old(s.current) ==> Pops(s, r, t)
    {
      hide Unlock, Notify, Sleep;
      if isClose {
        mutex.Release(s);
        return Some(false), None;
      }
      if queue == [] {
        popCv.WaitReleasing(s, mutex);
        return None, None;
      }
      t := Some(queue[0]);
      queue := queue[1..];
      mutex.Release(s);
      pushCv.NotifyOne(s);
      r := Some(true);
    }

    method Push(s: Scheduler, t: T) returns (r: Option<bool>)
      requires Valid()
      modifies this, s, mutex, pushCv, popCv
      ensures Is(s, C.Begin(old(View(s)), C.Pushing(t))) && r == C.Begin(old(View(s)), C.Pushing(t)).lastResult
      ensures !old(mutex.locked) ==> Pushes(s, t, r)
      ensures old(mutex.locked) && old(mutex.ownerId) != old(s.current) && old(s.current) != 0 ==>
        r == None && Blocks(s)
    {
      hide Lock, Unlock, C.PushBody;
      var c := s.current;
      mutex.LockFirst(s);
      assert View(s) == old(View(s)).(rt := LockAt(old(View(s)).rt, C.MUTEX));
      if s.current != c {
        return None;
      }
      r := PushLocked(s, t);
    }

    method Pop(s: Scheduler) returns (r: Option<bool>, t: Option<T>)
      requires Valid()
      modifies this, s, mutex, pushCv, popCv
      ensures Is(s, C.Begin(old(View(s)), C.Popping)) && r == C.Begin(old(View(s)), C.Popping).lastResult
      ensures r == Some(true) ==> old(queue) != [] && t == Some(old(queue)[0])
      ensures r != Some(true) ==> t == None
      ensures !old(mutex.locked) ==> Pops(s, r, t)
      ensures old(mutex.locked) && old(mutex.ownerId) != old(s.current) && old(s.current) != 0 ==>
        r == None && Blocks(s)
    {
      hide Lock, Unlock, C.PopBody;
      var c := s.current;
      mutex.LockFirst(s);
      assert View(s) == old(View(s)).(rt := LockAt(old(View(s)).rt, C.MUTEX));
      if s.current != c {
        return None, None;
      }
      r, t := PopLocked(s);
    }

    method CloseWhileLocked(s: Scheduler)
      requires Valid()
      modifies this, s, mutex, pushCv, popCv
      ensures Is(s, C.CloseLocked(old(View(s))))
      ensures old(mutex.ownerId) == old(s.current) ==> Closes(s)
    {
      hide Unlock, NotifyAll;
      if isClose {
        mutex.Release(s);
        return;
      }
      isClose := true;
      pushCv.NotifyEveryone(s);
      popCv.NotifyEveryone(s);
      mutex.Release(s);
    }

    /** close; false when lock() put the caller to sleep, which no run of the channel ever does. */
    method Close(s: Scheduler) returns (done: bool)
      requires Valid()
      modifies this, s, mutex, pushCv, popCv
      ensures var ch := old(View(s));
        var locked := ch.(rt := LockAt(ch.rt, C.MUTEX));
        && done == (locked.rt.sched.current == ch.rt.sched.current)
        && Is(s, if done then C.CloseBody(ch) else locked)
      ensures !old(mutex.locked) ==> done && Closes(s)
      ensures old(mutex.locked) && old(mutex.ownerId) != old(s.current) && old(s.current) != 0 ==> !done && Blocks(s)
    {
      hide Lock, Unlock, C.CloseLocked;
      var c := s.current;
      mutex.LockFirst(s);
      assert View(s) == old(View(s)).(rt := LockAt(old(View(s)).rt, C.MUTEX));
      done := s.current == c;
      if done {
        CloseWhileLocked(s);
      }
    }
  }
}
