/**
 How a worker goes to sleep and how it is woken (runtime/rt_sched.c).

 Threads 0 .. n-1 are the workers; the others (the reader threads) only unpark.
 A worker that finds nothing to run locks its own mutex, looks once more, sets
 `parked` and waits on its own condition variable.  A waker publishes a fiber on
 the worker's ready list (or stores the end of MAIN) and then runs rt_wake_one:
 it locks the worker's mutex and signals only if it sees `parked`.  Every load,
 store, lock, unlock, signal and wait is one step, interleaved at will; a wait
 may also end by a timeout.

 The result: no wakeup is lost.  Whenever a worker is asleep and unsignalled
 although its ready list is not empty (or, for worker 0, MAIN is done), some
 waker has published and not yet finished waking it.
 */
module WorkerWake {

  datatype Pc =
    | Running                            // the worker loop, a task, or a reader thread
      // rt_worker_park
    | ParkLock
    | ParkMain
    | ParkLocal
    | ParkReady
    | ParkGlobal
    | ParkSet
    | ParkWait
    | Asleep                             // in the wait, not signalled
    | Woken                              // signalled or timed out; re-locks the mutex
    | ParkClear
    | ParkUnlock
      // rt_wake_one(target); `all` in the loop over the workers that ends MAIN
    | WakeTest(target: nat, all: bool)
    | WakeLock(target: nat, all: bool)
    | WakeRead(target: nat, all: bool)
    | WakeSignal(target: nat, all: bool)
    | WakeUnlock(target: nat, all: bool)
    | Exited

  /** `mutex[w]` is 0 when free, else 1 + the holder. */
  datatype State = State(
    ready: seq<nat>,
    mainDone: bool,
    parked: seq<bool>,
    mutex: seq<nat>,
    pc: seq<Pc>)

  datatype Action =
    | Unpark(t: nat, home: nat)          // a push onto a ready list; rt_wake_one follows
    | MainEnds(t: nat)                   // a worker stores rt_main_done; the wakes follow
    | Drain(w: nat)                      // the worker loop takes its whole ready list
    | GoPark(w: nat)                     // nothing to run
    | Leave(w: nat)                      // worker 0 ends with MAIN
    | Step(t: nat, found: bool)          // `found`: the local or the global queue holds work
    | Timeout(w: nat)

  predicate Enabled(s: State, a: Action) {
    && |s.ready| == |s.parked| == |s.mutex| <= |s.pc|
    && match a
       case Unpark(t, home) => t < |s.pc| && s.pc[t].Running? && home < |s.ready|
       case MainEnds(t) => t < |s.ready| && s.pc[t].Running?
       case Drain(w) => w < |s.ready| && s.pc[w].Running?
       case GoPark(w) => w < |s.ready| && s.pc[w].Running?
       case Leave(w) => w == 0 < |s.ready| && s.pc[0].Running? && s.mainDone
       case Timeout(w) => w < |s.ready| && s.pc[w].Asleep?
       case Step(t, _) => t < |s.pc| && CanStep(s, t)
  }

  /** A lock is taken only when it is free; the other steps never block. */
  predicate CanStep(s: State, t: nat)
    requires |s.ready| == |s.parked| == |s.mutex| <= |s.pc| && t < |s.pc|
  {
    match s.pc[t]
    case Running => false
    case Asleep => false
    case Exited => false
    case ParkLock => t < |s.mutex| && s.mutex[t] == 0
    case Woken => t < |s.mutex| && s.mutex[t] == 0
    case WakeTest(w, _) => w < |s.mutex|
    case WakeLock(w, _) => w < |s.mutex| && s.mutex[w] == 0
    case WakeRead(w, _) => w < |s.mutex|
    case WakeSignal(w, _) => w < |s.mutex|
    case WakeUnlock(w, _) => w < |s.mutex|
    case _ => t < |s.mutex|
  }

  function At(s: State, t: nat, pc: Pc): State
    requires t < |s.pc|
  {
    s.(pc := s.pc[t := pc])
  }

  /** rt_wake_one(target) is over: the loop over the workers goes on, or not. */
  function Next(n: nat, target: nat, all: bool): Pc {
    if all && target + 1 < n then WakeTest(target + 1, true) else Running
  }

  function DoStep(s: State, t: nat, found: bool): (r: State)
    requires Enabled(s, Step(t, found))
    ensures |r.pc| == |s.pc| && |r.ready| == |r.parked| == |r.mutex| == |s.ready|
  {
    var n := |s.ready|;
    match s.pc[t]
    case ParkLock => At(s, t, ParkMain).(mutex := s.mutex[t := t + 1])
    case ParkMain => At(s, t, if t == 0 && s.mainDone then ParkUnlock else ParkLocal)
    case ParkLocal => At(s, t, if found then ParkUnlock else ParkReady)
    case ParkReady => At(s, t, if s.ready[t] > 0 then ParkUnlock else ParkGlobal)
    case ParkGlobal => At(s, t, if found then ParkUnlock else ParkSet)
    case ParkSet => At(s, t, ParkWait).(parked := s.parked[t := true])
    case ParkWait => At(s, t, Asleep).(mutex := s.mutex[t := 0])
    case Woken => At(s, t, ParkClear).(mutex := s.mutex[t := t + 1])
    case ParkClear => At(s, t, ParkUnlock).(parked := s.parked[t := false])
    case ParkUnlock => At(s, t, Running).(mutex := s.mutex[t := 0])
    case WakeTest(w, all) => At(s, t, if w == t then Next(n, w, all) else WakeLock(w, all))
    case WakeLock(w, all) => At(s, t, WakeRead(w, all)).(mutex := s.mutex[w := t + 1])
    case WakeRead(w, all) => At(s, t, if s.parked[w] then WakeSignal(w, all) else WakeUnlock(w, all))
    case WakeSignal(w, all) =>
        var s1 := if s.pc[w].Asleep? then At(s, w, Woken) else s;
        At(s1, t, WakeUnlock(w, all))
    case WakeUnlock(w, all) => At(s, t, Next(n, w, all)).(mutex := s.mutex[w := 0])
    case _ => s
  }

  function Do(s: State, a: Action): (r: State)
    requires Enabled(s, a)
    ensures |r.pc| == |s.pc| && |r.ready| == |r.parked| == |r.mutex| == |s.ready|
  {
    match a
    case Unpark(t, home) => At(s, t, WakeTest(home, false)).(ready := s.ready[home := s.ready[home] + 1])
    case MainEnds(t) => At(s, t, WakeTest(0, true)).(mainDone := true)
    case Drain(w) => s.(ready := s.ready[w := 0])
    case GoPark(w) => At(s, w, ParkLock)
    case Leave(w) => At(s, w, Exited)
    case Timeout(w) => At(s, w, Woken)
    case Step(t, found) => DoStep(s, t, found)
  }

  predicate Init(s: State) {
    && |s.ready| == |s.parked| == |s.mutex| <= |s.pc| && !s.mainDone
    && (forall w :: 0 <= w < |s.ready| ==> s.ready[w] == 0 && !s.parked[w] && s.mutex[w] == 0)
    && (forall t :: 0 <= t < |s.pc| ==> s.pc[t] == Running)
  }

  datatype Outcome = Blocked | Reached(s: State)

  function Exec(s: State, acts: seq<Action>): Outcome
    decreases |acts|
  {
    if acts == [] then Reached(s)
    else if !Enabled(s, acts[0]) then Blocked
    else Exec(Do(s, acts[0]), acts[1..])
  }

  // ---------------------------------------------------------------------

  /** Thread t has published and has not finished rt_wake_one on worker w. */
  predicate Wakes(s: State, t: nat, w: nat) {
    && t < |s.pc|
    && match s.pc[t]
       case WakeTest(v, all) => v == w || (all && v < w)
       case WakeLock(v, all) => v == w || (all && v < w)
       case WakeRead(v, all) => v == w || (all && v < w)
       case WakeSignal(v, all) => v == w || (all && v < w)
       case WakeUnlock(v, all) => all && v < w
       case _ => false
  }

  ghost predicate WakePending(s: State, w: nat) {
    exists t :: Wakes(s, t, w)
  }

  /** There is something for worker w to wake up for. */
  predicate HasReason(s: State, w: nat) {
    (w < |s.ready| && s.ready[w] > 0) || (w == 0 && s.mainDone)
  }

  /** No wakeup is lost. */
  ghost predicate NoLostWakeup(s: State) {
    forall w :: 0 <= w < |s.ready| && w < |s.pc| && s.pc[w].Asleep? && HasReason(s, w) ==> WakePending(s, w)
  }

  // The invariant.

  /** Thread t is inside the critical section of worker w's mutex. */
  predicate Inside(s: State, t: nat, w: nat)
    requires t < |s.pc|
  {
    match s.pc[t]
    case ParkMain => t == w
    case ParkLocal => t == w
    case ParkReady => t == w
    case ParkGlobal => t == w
    case ParkSet => t == w
    case ParkWait => t == w
    case ParkClear => t == w
    case ParkUnlock => t == w
    case WakeRead(v, _) => v == w
    case WakeSignal(v, _) => v == w
    case WakeUnlock(v, _) => v == w
    case _ => false
  }

  /** The worker has looked at its ready list for the last time before sleeping. */
  predicate PastReady(pc: Pc) { pc.ParkGlobal? || pc.ParkSet? || pc.ParkWait? || pc.Asleep? }
  /** ... and at the end of MAIN. */
  predicate PastMain(pc: Pc) { pc.ParkLocal? || pc.ParkReady? || PastReady(pc) }

  ghost predicate Mutex(s: State) {
    && |s.ready| == |s.parked| == |s.mutex| <= |s.pc|
    && (forall t, w :: 0 <= t < |s.pc| && 0 <= w < |s.mutex| && Inside(s, t, w) ==> s.mutex[w] == t + 1)
  }

  ghost predicate WorkerOk(s: State, w: nat)
    requires |s.ready| == |s.parked| == |s.mutex| <= |s.pc| && w < |s.ready|
  {
    && (s.pc[w].ParkWait? || s.pc[w].Asleep? ==> s.parked[w])
    && (PastReady(s.pc[w]) && s.ready[w] > 0 ==> WakePending(s, w))
    && (w == 0 && PastMain(s.pc[w]) && s.mainDone ==> WakePending(s, w))
  }

  ghost predicate Inv(s: State) {
    Mutex(s) && forall w :: 0 <= w < |s.ready| ==> WorkerOk(s, w)
  }

  lemma InitInv(s: State)
    requires Init(s)
    ensures Inv(s)
  {
  }

  /** The thread that acts. */
  function Actor(a: Action): nat {
    match a
    case Unpark(t, _) => t
    case MainEnds(t) => t
    case Drain(w) => w
    case GoPark(w) => w
    case Leave(w) => w
    case Timeout(w) => w
    case Step(t, _) => t
  }

  /** What another thread's step does to worker x: at most a signal or a push. */
  lemma Others(s: State, a: Action, x: nat)
    requires Enabled(s, a) && x < |s.pc| && x != Actor(a)
    ensures Do(s, a).pc[x] == s.pc[x] || (s.pc[x].Asleep? && Do(s, a).pc[x].Woken?)
    ensures x < |s.ready| ==> Do(s, a).parked[x] == s.parked[x]
    ensures x < |s.ready| ==> Do(s, a).ready[x] == s.ready[x] || (a.Unpark? && a.home == x)
  {
    if a.Step? { OthersStep(s, a.t, a.found, x); }
  }

  lemma OthersStep(s: State, t: nat, found: bool, x: nat)
    requires Enabled(s, Step(t, found)) && x < |s.pc| && x != t
    ensures var r := DoStep(s, t, found);
            && (r.pc[x] == s.pc[x] || (s.pc[x].Asleep? && r.pc[x].Woken?))
            && (x < |s.ready| ==> r.parked[x] == s.parked[x] && r.ready[x] == s.ready[x])
  {
  }

  /** What a worker's own step does on its way to sleep. */
  lemma OwnStep(s: State, w: nat, found: bool)
    requires Enabled(s, Step(w, found)) && w < |s.ready|
    ensures var r := DoStep(s, w, found);
            && r.ready == s.ready && r.mainDone == s.mainDone
            && (PastReady(r.pc[w]) ==> PastReady(s.pc[w]) || s.ready[w] == 0)
            && (PastMain(r.pc[w]) ==> PastMain(s.pc[w]) || w != 0 || !s.mainDone)
  {
    var pc := DoStep(s, w, found).pc[w];
    match s.pc[w] {
      case ParkMain => assert !PastReady(pc);
      case ParkLocal =>
      case ParkReady => assert s.ready[w] > 0 ==> pc.ParkUnlock?;
      case ParkGlobal =>
      case ParkSet =>
      case ParkWait =>
      case _ =>
    }
  }

  lemma OwnPark(s: State, w: nat, found: bool)
    requires Enabled(s, Step(w, found)) && w < |s.ready|
    requires s.pc[w].ParkWait? || s.pc[w].Asleep? ==> s.parked[w]
    ensures var r := DoStep(s, w, found);
            r.pc[w].ParkWait? || r.pc[w].Asleep? ==> r.parked[w]
  {
    if s.pc[w].ParkSet? || s.pc[w].ParkWait? {
    } else {
      assert !DoStep(s, w, found).pc[w].ParkWait?;
    }
  }

  lemma KeepMutex(s: State, a: Action)
    requires Mutex(s) && Enabled(s, a)
    ensures Mutex(Do(s, a))
  {
    var s' := Do(s, a);
    forall t, w | 0 <= t < |s'.pc| && 0 <= w < |s'.mutex| && Inside(s', t, w) ensures s'.mutex[w] == t + 1 {
      if a.Step? { KeepMutexStep(s, a.t, a.found, t, w); }
      else { KeepMutexQuiet(s, a, t, w); }
    }
  }

  lemma KeepMutexQuiet(s: State, a: Action, t: nat, w: nat)
    requires Mutex(s) && Enabled(s, a) && !a.Step? && t < |s.pc| && w < |s.mutex| && Inside(Do(s, a), t, w)
    ensures Do(s, a).mutex[w] == t + 1
  {
    assert Inside(s, t, w);
  }

  lemma KeepMutexStep(s: State, u: nat, found: bool, t: nat, w: nat)
    requires Mutex(s) && Enabled(s, Step(u, found)) && t < |s.pc| && w < |s.mutex|
    requires Inside(DoStep(s, u, found), t, w)
    ensures DoStep(s, u, found).mutex[w] == t + 1
  {
    if t == u {
      assert Inside(s, u, w) || s.pc[u].ParkLock? || s.pc[u].Woken? || s.pc[u].WakeLock?;
    } else {
      OthersStep(s, u, found, t);
      OthersMutex(s, u, found, t, w);
    }
  }

  lemma OthersMutex(s: State, u: nat, found: bool, t: nat, w: nat)
    requires Mutex(s) && Enabled(s, Step(u, found)) && t < |s.pc| && t != u && w < |s.mutex| && Inside(s, t, w)
    ensures DoStep(s, u, found).mutex[w] == t + 1
  {
    match s.pc[u] {
      case WakeUnlock(v, _) => assert Inside(s, u, v);
      case ParkWait => assert Inside(s, u, u);
      case ParkUnlock => assert Inside(s, u, u);
      case _ =>
    }
  }

  /** A worker about to sleep is asleep already or holds its own mutex. */
  lemma SleeperHolds(s: State, t: nat, w: nat)
    requires Inv(s) && w < |s.ready| && t < |s.pc| && t != w && Inside(s, t, w) && PastMain(s.pc[w])
    ensures s.pc[w].Asleep? && s.parked[w]
  {
    assert WorkerOk(s, w);
    assert Inside(s, w, w) || s.pc[w].Asleep?;
  }

  /** A pending wake stays pending, unless it has just done its work. */
  lemma KeepPending(s: State, a: Action, w: nat)
    requires Inv(s) && Enabled(s, a) && w < |s.ready| && WakePending(s, w) && PastMain(Do(s, a).pc[w])
    ensures WakePending(Do(s, a), w)
  {
    var t :| Wakes(s, t, w);
    if a.Step? && a.t == t { KeepOwnWake(s, t, a.found, w); }
    else if t != Actor(a) { Others(s, a, t); }
    assert Wakes(Do(s, a), t, w);
  }

  lemma KeepOwnWake(s: State, t: nat, found: bool, w: nat)
    requires Inv(s) && Enabled(s, Step(t, found)) && w < |s.ready| && Wakes(s, t, w)
    requires PastMain(Do(s, Step(t, found)).pc[w])
    ensures Wakes(Do(s, Step(t, found)), t, w)
  {
    if Inside(s, t, w) && t != w {
      SleeperHolds(s, t, w);
    }
  }

  lemma KeepParked(s: State, a: Action, w: nat)
    requires Inv(s) && Enabled(s, a) && w < |s.ready| && (Do(s, a).pc[w].ParkWait? || Do(s, a).pc[w].Asleep?)
    ensures Do(s, a).parked[w]
  {
    assert WorkerOk(s, w);
    if w != Actor(a) { Others(s, a, w); } else if a.Step? { OwnPark(s, w, a.found); }
  }

  /** A reason that appears after the worker's last look brings its waker along. */
  lemma KeepReady(s: State, a: Action, w: nat)
    requires Inv(s) && Enabled(s, a) && w < |s.ready| && PastReady(Do(s, a).pc[w]) && Do(s, a).ready[w] > 0
    ensures WakePending(Do(s, a), w)
  {
    if a.Unpark? && a.home == w {
      assert Wakes(Do(s, a), a.t, w);
    } else {
      assert WorkerOk(s, w);
      if w != Actor(a) { Others(s, a, w); } else if a.Step? { OwnStep(s, w, a.found); }
      KeepPending(s, a, w);
    }
  }

  lemma KeepMain(s: State, a: Action)
    requires Inv(s) && Enabled(s, a) && 0 < |s.ready| && PastMain(Do(s, a).pc[0]) && Do(s, a).mainDone
    ensures WakePending(Do(s, a), 0)
  {
    if a.MainEnds? {
      assert Wakes(Do(s, a), a.t, 0);
    } else {
      assert WorkerOk(s, 0);
      if 0 != Actor(a) { Others(s, a, 0); } else if a.Step? { OwnStep(s, 0, a.found); }
      KeepPending(s, a, 0);
    }
  }

  lemma Keep(s: State, a: Action)
    requires Inv(s) && Enabled(s, a)
    ensures Inv(Do(s, a))
  {
    var s' := Do(s, a);
    KeepMutex(s, a);
    forall w | 0 <= w < |s'.ready| ensures WorkerOk(s', w) {
      if s'.pc[w].ParkWait? || s'.pc[w].Asleep? { KeepParked(s, a, w); }
      if PastReady(s'.pc[w]) && s'.ready[w] > 0 { KeepReady(s, a, w); }
      if w == 0 && PastMain(s'.pc[w]) && s'.mainDone { KeepMain(s, a); }
    }
  }

  lemma {:induction false} KeepRun(s: State, acts: seq<Action>)
    requires Inv(s) && Exec(s, acts).Reached?
    ensures Inv(Exec(s, acts).s)
    decreases |acts|
  {
    if acts != [] {
      Keep(s, acts[0]);
      KeepRun(Do(s, acts[0]), acts[1..]);
    }
  }

  /** In every state of every run, a worker that sleeps on a reason to wake has
      a waker on its way. */
  lemma WakeupsAreNeverLost(s0: State, acts: seq<Action>)
    requires Init(s0) && Exec(s0, acts).Reached?
    ensures NoLostWakeup(Exec(s0, acts).s)
  {
    InitInv(s0);
    KeepRun(s0, acts);
    var s := Exec(s0, acts).s;
    forall w | 0 <= w < |s.ready| && s.pc[w].Asleep? && HasReason(s, w) ensures WakePending(s, w) {
      assert WorkerOk(s, w);
    }
  }
}
