/**
 Fibers on workers: spawn, park, unpark, steal, switch (runtime/rt_sched.c).

 Any number of fibers run on any number of workers.  A fiber that waits records
 its worker as its home, publishes itself on some wait queue (a lock's, a
 condition's, a broker's or the timer heap), and only then switches out, so
 another thread may unpark it while it is still running.  Every one of these
 steps, and every step of the worker loop, of a steal and of an unpark, is a
 transition here, in any interleaving.

 A run queue is an atomic bag in this module, and what is proved here is proved of
 such bags.  The queues of the code are not bags: the module Workers puts the
 lock-free queues of RunQueue in their place, where the same promises hold exactly
 with at most two workers or with the priority scan in force from the start.

 The results, for every state of every run: no fiber is current on two workers;
 a worker switches only to a fiber whose own switch-out has finished; every park
 is matched by exactly one unpark; and the global queue stays empty.
 */
module Scheduler {

  import opened Options

  datatype FibState = RUNNABLE | RUNNING | WAITING | DEAD

  /** How far the task on the fiber is on its way to a park. */
  datatype Stage = Task | HomeSet | Published | Parking | Ended

  /** `saved`: the registers are in the fiber, so it may be switched to.
      `parks` and `unparks` count publications and hand-overs; no step reads them. */
  datatype Fiber = Fiber(
    home: Option<nat>, saved: bool, state: FibState, stage: Stage, parks: nat, unparks: nat)

  /** Where a worker thread stands. */
  datatype Pc = Loop | Picked(f: nat) | InFiber | Back(f: nat)

  datatype Worker = Worker(
    pc: Pc,
    cur: Option<nat>,
    local: multiset<nat>,
    ready: multiset<nat>,
    runnext: Option<nat>,
    displaced: Option<nat>,  // the old runnext on its way to the run queue
    spare: Option<nat>,
    drained: multiset<nat>,  // taken from the ready list, not yet queued
    stolen: multiset<nat>)   // detached from a victim, not yet queued

  datatype State = State(
    fib: seq<Fiber>,
    wk: seq<Worker>,
    unborn: multiset<nat>,
    pool: multiset<nat>,
    global: multiset<nat>,
    waiting: multiset<nat>,               // published on some wait queue
    claimed: multiset<nat>,               // taken off it, rt_sched_unpark called
    marked: multiset<nat>,                // marked RUNNABLE
    routed: multiset<(nat, Option<nat>)>) // the home has been read

  /** A fiber's way into a wait, or to its end. */
  datatype WaitStep = SetHome(timed: bool) | Publish(timed: bool) | Park | SwitchOut | End

  /** rt_sched_unpark(f), by any thread. */
  datatype UnparkStep = Claim | Mark | Route | Push(h: Option<nat>)

  /** The worker loop and a steal. */
  datatype LoopStep =
    | Drain
    | Queue(f: nat)
    | PickNext
    | FoldNext
    | PickLocal(f: nat)
    | PickGlobal(f: nat)
    | Steal(v: nat, part: multiset<nat>)
    | Unload
    | Resume
    | Check

  /** rt_sched_spawn: the worker's spare fiber, a pooled one or a new one. */
  datatype SpawnStep = FromSpare | FromPool(f: nat) | FromNew(f: nat) | Requeue

  datatype Action =
    | Wait(w: nat, wait: WaitStep)
    | Unpark(f: nat, unpark: UnparkStep)
    | Work(w: nat, work: LoopStep)
    | Spawn(w: nat, spawn: SpawnStep)

  predicate Running(s: State, w: nat, stage: Stage) {
    && w < |s.wk| && s.wk[w].pc == InFiber && s.wk[w].cur.Some? && s.wk[w].cur.value < |s.fib|
    && s.fib[s.wk[w].cur.value].stage == stage
  }

  /** The worker is in its own context with nothing half done. */
  predicate Idle(s: State, w: nat) {
    && w < |s.wk| && s.wk[w].pc == Loop && s.wk[w].drained == multiset{}
  }

  predicate WaitEnabled(s: State, w: nat, a: WaitStep) {
    match a
    case SetHome(_) => Running(s, w, Task) && s.wk[w].displaced == None
    case Publish(_) => Running(s, w, HomeSet)
    case Park => Running(s, w, Published)
    case SwitchOut => Running(s, w, Parking) || Running(s, w, Ended)
    case End => Running(s, w, Task) && s.wk[w].displaced == None
  }

  predicate UnparkEnabled(s: State, f: nat, a: UnparkStep) {
    && f < |s.fib|
    && match a
       case Claim => f in s.waiting
       case Mark => f in s.claimed
       case Route => f in s.marked
       case Push(h) => (f, h) in s.routed && (h.Some? ==> h.value < |s.wk|)
  }

  predicate WorkEnabled(s: State, w: nat, a: LoopStep) {
    && w < |s.wk|
    && match a
       case Drain => Idle(s, w)
       case Queue(f) => s.wk[w].pc == Loop && f in s.wk[w].drained
       case PickNext => Idle(s, w) && s.wk[w].runnext.Some?
       case FoldNext => Idle(s, w) && s.wk[w].runnext.Some?
       case PickLocal(f) => Idle(s, w) && f in s.wk[w].local
       case PickGlobal(f) => Idle(s, w) && f in s.global
       case Steal(v, part) => Idle(s, w) && v < |s.wk| && v != w && part <= s.wk[v].local
       case Unload => s.wk[w].pc == Loop
       case Resume => s.wk[w].pc.Picked? && s.wk[w].pc.f < |s.fib|
       case Check => s.wk[w].pc.Back? && s.wk[w].pc.f < |s.fib|
  }

  predicate SpawnEnabled(s: State, w: nat, a: SpawnStep) {
    if a.Requeue? then w < |s.wk| && s.wk[w].pc == InFiber && s.wk[w].displaced.Some?
    else
      && Running(s, w, Task) && s.wk[w].displaced == None
      && match a
         case FromSpare => s.wk[w].spare.Some? && s.wk[w].spare.value < |s.fib|
         case FromPool(f) => s.wk[w].spare == None && f in s.pool && f < |s.fib|
         case FromNew(f) => s.wk[w].spare == None && f in s.unborn && f < |s.fib|
         case Requeue => false
  }

  predicate Enabled(s: State, a: Action) {
    match a
    case Wait(w, x) => WaitEnabled(s, w, x)
    case Unpark(f, x) => UnparkEnabled(s, f, x)
    case Work(w, x) => WorkEnabled(s, w, x)
    case Spawn(w, x) => SpawnEnabled(s, w, x)
  }

  function SetW(s: State, w: nat, k: Worker): State
    requires w < |s.wk|
  {
    s.(wk := s.wk[w := k])
  }

  function SetF(s: State, f: nat, x: Fiber): State
    requires f < |s.fib|
  {
    s.(fib := s.fib[f := x])
  }

  /** rt_fiber_prepare, and the new task in the runnext slot. */
  function Start(s: State, w: nat, f: nat): State
    requires w < |s.wk| && f < |s.fib|
  {
    var k := s.wk[w];
    SetW(SetF(s, f, s.fib[f].(home := None, saved := true, state := RUNNABLE, stage := Task)),
         w, k.(runnext := Some(f), displaced := k.runnext))
  }

  function DoWait(s: State, w: nat, a: WaitStep): (r: State)
    requires WaitEnabled(s, w, a)
    ensures |r.fib| == |s.fib| && |r.wk| == |s.wk|
  {
    var f := s.wk[w].cur.value;
    var x := s.fib[f];
    match a
    case SetHome(timed) => SetF(s, f, x.(home := Some(w), stage := HomeSet, state := if timed then WAITING else x.state))
    case Publish(timed) =>
      SetF(s, f, x.(stage := if timed then Parking else Published, parks := x.parks + 1))
        .(waiting := s.waiting + multiset{f})
    case Park => SetF(s, f, x.(stage := Parking, state := WAITING, home := if x.home != Some(w) then Some(w) else x.home))
    case SwitchOut => SetW(SetF(s, f, x.(saved := true)), w, s.wk[w].(pc := Back(f), cur := None))
    case End => SetF(s, f, x.(stage := Ended, state := DEAD))
  }

  function DoUnpark(s: State, f: nat, a: UnparkStep): (r: State)
    requires UnparkEnabled(s, f, a)
    ensures |r.fib| == |s.fib| && |r.wk| == |s.wk|
  {
    match a
    case Claim => s.(waiting := s.waiting - multiset{f}, claimed := s.claimed + multiset{f})
    case Mark =>
      SetF(s, f, s.fib[f].(state := RUNNABLE)).(claimed := s.claimed - multiset{f}, marked := s.marked + multiset{f})
    case Route => s.(marked := s.marked - multiset{f}, routed := s.routed + multiset{(f, s.fib[f].home)})
    case Push(h) =>
      var s1 := SetF(s, f, s.fib[f].(unparks := s.fib[f].unparks + 1)).(routed := s.routed - multiset{(f, h)});
      if h.None? then s1.(global := s.global + multiset{f})
      else SetW(s1, h.value, s.wk[h.value].(ready := s.wk[h.value].ready + multiset{f}))
  }

  /** The fiber f joins the run queue: off the drained list, the runnext slot, or
      the slot of the displaced runnext. */
  function FromDrained(s: State, w: nat, f: nat): State
    requires w < |s.wk|
  {
    SetW(s, w, s.wk[w].(drained := s.wk[w].drained - multiset{f}, local := s.wk[w].local + multiset{f}))
  }

  function FromNext(s: State, w: nat, f: nat): State
    requires w < |s.wk|
  {
    SetW(s, w, s.wk[w].(runnext := None, local := s.wk[w].local + multiset{f}))
  }

  function FromDisplaced(s: State, w: nat, f: nat): State
    requires w < |s.wk|
  {
    SetW(s, w, s.wk[w].(displaced := None, local := s.wk[w].local + multiset{f}))
  }

  /** The worker takes f off its run queue. */
  function Took(s: State, w: nat, f: nat): State
    requires w < |s.wk|
  {
    SetW(s, w, s.wk[w].(pc := Picked(f), local := s.wk[w].local - multiset{f}))
  }

  /** The worker takes fibers off the run queue of v ... */
  function Stole(s: State, w: nat, v: nat, part: multiset<nat>): State
    requires w < |s.wk| && v < |s.wk|
  {
    var s1 := SetW(s, v, s.wk[v].(local := s.wk[v].local - part));
    SetW(s1, w, s1.wk[w].(stolen := s1.wk[w].stolen + part))
  }

  /** ... and puts them on its own. */
  function Unloaded(s: State, w: nat): State
    requires w < |s.wk|
  {
    SetW(s, w, s.wk[w].(local := s.wk[w].local + s.wk[w].stolen, stolen := multiset{}))
  }

  function DoWork(s: State, w: nat, a: LoopStep): (r: State)
    requires WorkEnabled(s, w, a)
    ensures |r.fib| == |s.fib| && |r.wk| == |s.wk|
  {
    var k := s.wk[w];
    match a
    case Drain => SetW(s, w, k.(ready := multiset{}, drained := k.ready))
    case Queue(f) => FromDrained(s, w, f)
    case PickNext => SetW(s, w, k.(pc := Picked(k.runnext.value), runnext := None))
    case FoldNext => FromNext(s, w, k.runnext.value)
    case PickLocal(f) => Took(s, w, f)
    case PickGlobal(f) => SetW(s, w, k.(pc := Picked(f))).(global := s.global - multiset{f})
    case Steal(v, part) => Stole(s, w, v, part)
    case Unload => Unloaded(s, w)
    case Resume =>
      var f := k.pc.f;
      SetW(SetF(s, f, s.fib[f].(state := RUNNING, saved := false, stage := Task)), w, k.(pc := InFiber, cur := Some(f)))
    case Check =>
      var f := k.pc.f;
      if s.fib[f].state != DEAD then SetW(s, w, k.(pc := Loop))
      else if k.spare == None then SetW(s, w, k.(pc := Loop, spare := Some(f)))
      else SetW(s, w, k.(pc := Loop)).(pool := s.pool + multiset{f})
  }

  function DoSpawn(s: State, w: nat, a: SpawnStep): (r: State)
    requires SpawnEnabled(s, w, a)
    ensures |r.fib| == |s.fib| && |r.wk| == |s.wk|
  {
    match a
    case FromSpare => Start(SetW(s, w, s.wk[w].(spare := None)), w, s.wk[w].spare.value)
    case FromPool(f) => Start(s, w, f).(pool := s.pool - multiset{f})
    case FromNew(f) => Start(s, w, f).(unborn := s.unborn - multiset{f})
    case Requeue => FromDisplaced(s, w, s.wk[w].displaced.value)
  }

  function Do(s: State, a: Action): (r: State)
    requires Enabled(s, a)
    ensures |r.fib| == |s.fib| && |r.wk| == |s.wk|
  {
    match a
    case Wait(w, x) => DoWait(s, w, x)
    case Unpark(f, x) => DoUnpark(s, f, x)
    case Work(w, x) => DoWork(s, w, x)
    case Spawn(w, x) => DoSpawn(s, w, x)
  }

  /** Fiber 0 is MAIN, in the runnext slot of worker 0; the others are unborn. */
  ghost predicate Init(s: State) {
    && |s.wk| >= 1 && |s.fib| >= 1
    && (forall f: nat :: s.unborn[f] == if 0 < f < |s.fib| then 1 else 0)
    && s.pool == s.global == s.waiting == s.claimed == s.marked == multiset{} && s.routed == multiset{}
    && (forall f :: 0 <= f < |s.fib| ==> s.fib[f] == Fiber(None, true, RUNNABLE, Task, 0, 0))
    && (forall w :: 0 <= w < |s.wk| ==>
          s.wk[w] == Worker(Loop, None, multiset{}, multiset{}, if w == 0 then Some(0) else None, None, None, multiset{}, multiset{}))
  }

  datatype Outcome = Blocked | Reached(s: State)

  function Exec(s: State, acts: seq<Action>): Outcome
    decreases |acts|
  {
    if acts == [] then Reached(s)
    else if !Enabled(s, acts[0]) then Blocked
    else Exec(Do(s, acts[0]), acts[1..])
  }

  // ---------------------------------------------------------------------
  // What must hold in every state
  // ---------------------------------------------------------------------

  /** No fiber is current on two workers. */
  ghost predicate OneWorkerEach(s: State) {
    forall w, v :: 0 <= w < |s.wk| && 0 <= v < |s.wk| && s.wk[w].cur.Some? && s.wk[w].cur == s.wk[v].cur ==> w == v
  }

  /** A worker about to switch to a fiber finds its registers saved, and the
      fiber is running nowhere. */
  ghost predicate SwitchesToSaved(s: State) {
    forall w, v :: 0 <= w < |s.wk| && 0 <= v < |s.wk| && s.wk[w].pc.Picked? ==>
      s.wk[w].pc.f < |s.fib| && s.fib[s.wk[w].pc.f].saved && s.wk[v].cur != Some(s.wk[w].pc.f)
  }

  /** A fiber on a ready list is at home there, and has switched out unless it is
      still the current fiber of that very worker. */
  ghost predicate ReadyAtHome(s: State) {
    forall w: nat, f: nat :: AtHome(s, w, f)
  }

  predicate AtHome(s: State, w: nat, f: nat) {
    w < |s.wk| && f in s.wk[w].ready ==>
      f < |s.fib| && s.fib[f].home == Some(w) && (s.fib[f].saved || s.wk[w].cur == Some(f))
  }

  /** Publications and hand-overs alternate. */
  ghost predicate ParksMatchUnparks(s: State) {
    forall f :: 0 <= f < |s.fib| ==>
      s.fib[f].parks == s.fib[f].unparks + s.waiting[f] + s.claimed[f] + s.marked[f] + s.routed[(f, s.fib[f].home)]
      && s.fib[f].parks <= s.fib[f].unparks + 1
  }

  ghost predicate Safe(s: State) {
    && OneWorkerEach(s) && SwitchesToSaved(s) && ReadyAtHome(s) && ParksMatchUnparks(s)
    && s.global == multiset{}
  }

  // ---------------------------------------------------------------------
  // The invariant: every fiber is in exactly one place
  // ---------------------------------------------------------------------

  datatype Place =
    | Unborn | Pooled | Waiting | Claimed | Marked | Routed
    | Spare(w: nat) | Next(w: nat) | Displaced(w: nat) | Local(w: nat) | Stolen(w: nat) | Drained(w: nat)
    | Chosen(w: nat) | On(w: nat) | Ready(w: nat) | Gone(w: nat)

  /** m holds exactly the fibers at place p, each once. */
  ghost predicate Bag(m: multiset<nat>, at: seq<Place>, p: Place) {
    forall f: nat {:trigger m[f]} :: m[f] == if f < |at| && at[f] == p then 1 else 0
  }

  /** o holds the fiber at place p, if there is one. */
  ghost predicate Slot(o: Option<nat>, at: seq<Place>, p: Place) {
    && (o.Some? ==> o.value < |at|)
    && (forall f :: 0 <= f < |at| ==> (at[f] == p <==> o == Some(f)))
  }

  ghost predicate RoutedBag(m: multiset<(nat, Option<nat>)>, at: seq<Place>, fib: seq<Fiber>)
    requires |at| == |fib|
  {
    forall f: nat, h {:trigger m[(f, h)]} :: m[(f, h)] == if f < |at| && at[f] == Routed && fib[f].home == h then 1 else 0
  }

  /** Published and not yet taken over by the home worker. */
  predicate Limbo(p: Place) { p.Waiting? || p.Claimed? || p.Marked? || p.Routed? || p.Ready? }

  /** Waiting in a queue or slot of some worker, switched out. */
  predicate Queued(p: Place) { p.Next? || p.Displaced? || p.Local? || p.Stolen? || p.Drained? || p.Chosen? }

  ghost predicate BagsOf(k: Worker, at: seq<Place>, w: nat) {
    && Bag(k.local, at, Local(w)) && Bag(k.ready, at, Ready(w))
    && Bag(k.drained, at, Drained(w)) && Bag(k.stolen, at, Stolen(w))
  }

  function ChosenBy(k: Worker): Option<nat> {
    if k.pc.Picked? then Some(k.pc.f) else None
  }

  ghost predicate SlotsOf(k: Worker, at: seq<Place>, w: nat) {
    && Slot(k.runnext, at, Next(w)) && Slot(k.displaced, at, Displaced(w)) && Slot(k.spare, at, Spare(w))
    && Slot(ChosenBy(k), at, Chosen(w))
  }

  ghost predicate WorkerOk(k: Worker, at: seq<Place>, w: nat) {
    BagsOf(k, at, w) && SlotsOf(k, at, w) && (k.pc == InFiber <==> k.cur.Some?)
  }

  /** The fiber that worker w is running, or has just come back from. */
  ghost predicate CurOk(s: State, at: seq<Place>, w: nat)
    requires |at| == |s.fib| && w < |s.wk|
  {
    var k := s.wk[w];
    && (k.cur.Some? ==>
          && k.cur.value < |at| && !s.fib[k.cur.value].saved
          && (var p := at[k.cur.value];
              || p == On(w) || p == Gone(w)
              || (Limbo(p) && s.fib[k.cur.value].home == Some(w))))
    && (k.pc.Back? ==>
          && k.pc.f < |at|
          && (var p := at[k.pc.f];
              p == Gone(w) || (Limbo(p) && s.fib[k.pc.f].home == Some(w))))
  }

  ghost predicate FiberOk(s: State, at: seq<Place>, f: nat)
    requires |at| == |s.fib| && f < |at|
  {
    var x, p := s.fib[f], at[f];
    && x.parks == x.unparks + (if p.Waiting? || p.Claimed? || p.Marked? || p.Routed? then 1 else 0)
    && (Limbo(p) ==>
          && x.home.Some? && x.home.value < |s.wk| && x.state != DEAD
          && (x.stage == Published || x.stage == Parking)
          && (p.Ready? ==> x.home == Some(p.w))
          && (x.saved || s.wk[x.home.value].cur == Some(f)))
    && (Queued(p) ==> p.w < |s.wk| && x.saved && x.state != DEAD)
    && (p.On? ==>
          && p.w < |s.wk| && s.wk[p.w].cur == Some(f) && x.state != DEAD
          && (x.stage == Task || (x.stage == HomeSet && x.home == Some(p.w))))
    && (p.Gone? ==>
          && p.w < |s.wk| && x.stage == Ended && x.state == DEAD
          && (s.wk[p.w].cur == Some(f) || s.wk[p.w].pc == Back(f)))
    && (p.Spare? ==> p.w < |s.wk|)
  }

  ghost predicate Bags(s: State, at: seq<Place>)
    requires |at| == |s.fib|
  {
    && Bag(s.unborn, at, Unborn) && Bag(s.pool, at, Pooled) && Bag(s.waiting, at, Waiting)
    && Bag(s.claimed, at, Claimed) && Bag(s.marked, at, Marked) && RoutedBag(s.routed, at, s.fib)
  }

  ghost predicate WorkersOk(s: State, at: seq<Place>) {
    forall w {:trigger WorkerOk(s.wk[w], at, w)} :: 0 <= w < |s.wk| ==> WorkerOk(s.wk[w], at, w)
  }

  ghost predicate CursOk(s: State, at: seq<Place>)
    requires |at| == |s.fib|
  {
    forall w :: 0 <= w < |s.wk| ==> CurOk(s, at, w)
  }

  ghost predicate FibersOk(s: State, at: seq<Place>)
    requires |at| == |s.fib|
  {
    forall f :: 0 <= f < |at| ==> FiberOk(s, at, f)
  }

  ghost predicate Inv(s: State, at: seq<Place>) {
    && |at| == |s.fib| && s.global == multiset{}
    && Bags(s, at)
    && WorkersOk(s, at) && CursOk(s, at) && FibersOk(s, at)
  }

  lemma InitInv(s: State) returns (at: seq<Place>)
    requires Init(s)
    ensures Inv(s, at) && AtStart(s, at)
  {
    at := seq(|s.fib|, i => if i == 0 then Next(0) else Unborn);
    assert Bags(s, at) by { InitBags(s, at); }
    assert WorkersOk(s, at) by { InitWorkers(s, at); }
    forall w | 0 <= w < |s.wk| ensures CurOk(s, at, w) { }
    forall f | 0 <= f < |at| ensures FiberOk(s, at, f) { }
  }

  ghost predicate AtStart(s: State, at: seq<Place>) {
    Init(s) && |at| == |s.fib| && forall i :: 0 <= i < |at| ==> at[i] == if i == 0 then Next(0) else Unborn
  }

  lemma InitBags(s: State, at: seq<Place>)
    requires AtStart(s, at)
    ensures Bags(s, at)
  {
  }

  lemma InitWorkers(s: State, at: seq<Place>)
    requires AtStart(s, at)
    ensures WorkersOk(s, at)
  {
    forall w | 0 <= w < |s.wk| ensures WorkerOk(s.wk[w], at, w) { }
  }

  // ---------------------------------------------------------------------
  // The invariant gives every promise of the module
  // ---------------------------------------------------------------------

  lemma OneEach(s: State, at: seq<Place>)
    requires |at| == |s.fib| && CursOk(s, at)
    ensures OneWorkerEach(s)
  {
    forall w, v | 0 <= w < |s.wk| && 0 <= v < |s.wk| && s.wk[w].cur.Some? && s.wk[w].cur == s.wk[v].cur ensures w == v {
      assert CurOk(s, at, w) && CurOk(s, at, v);
    }
  }

  lemma PickedIsSaved(s: State, at: seq<Place>)
    requires |at| == |s.fib| && WorkersOk(s, at) && CursOk(s, at) && FibersOk(s, at)
    ensures SwitchesToSaved(s)
  {
    forall w, v | 0 <= w < |s.wk| && 0 <= v < |s.wk| && s.wk[w].pc.Picked?
      ensures s.wk[w].pc.f < |s.fib| && s.fib[s.wk[w].pc.f].saved && s.wk[v].cur != Some(s.wk[w].pc.f)
    {
      PickedPlace(s, at, w);
      assert FiberOk(s, at, s.wk[w].pc.f) && CurOk(s, at, v);
    }
  }

  lemma PickedPlace(s: State, at: seq<Place>, w: nat)
    requires WorkersOk(s, at) && w < |s.wk| && s.wk[w].pc.Picked?
    ensures s.wk[w].pc.f < |at| && at[s.wk[w].pc.f] == Chosen(w)
  {
    assert WorkerOk(s.wk[w], at, w);
  }

  lemma ReadyPlace(s: State, at: seq<Place>, w: nat, f: nat)
    requires WorkersOk(s, at) && w < |s.wk| && f in s.wk[w].ready
    ensures f < |at| && at[f] == Ready(w)
  {
    assert WorkerOk(s.wk[w], at, w);
    assert s.wk[w].ready[f] > 0;
  }

  lemma ReadyIsHome(s: State, at: seq<Place>)
    requires |at| == |s.fib| && WorkersOk(s, at) && FibersOk(s, at)
    ensures ReadyAtHome(s)
  {
    forall w: nat, f: nat ensures AtHome(s, w, f) {
      if w < |s.wk| && f in s.wk[w].ready {
        ReadyPlace(s, at, w, f);
        assert FiberOk(s, at, f);
      }
    }
  }

  lemma ParksMatch(s: State, at: seq<Place>)
    requires |at| == |s.fib| && Bags(s, at) && FibersOk(s, at)
    ensures ParksMatchUnparks(s)
  {
    forall f | 0 <= f < |s.fib|
      ensures s.fib[f].parks == s.fib[f].unparks + s.waiting[f] + s.claimed[f] + s.marked[f] + s.routed[(f, s.fib[f].home)]
      ensures s.fib[f].parks <= s.fib[f].unparks + 1
    {
      assert FiberOk(s, at, f);
    }
  }

  lemma InvSafe(s: State, at: seq<Place>)
    requires Inv(s, at)
    ensures Safe(s)
  {
    OneEach(s, at);
    PickedIsSaved(s, at);
    ReadyIsHome(s, at);
    ParksMatch(s, at);
  }

  // ---------------------------------------------------------------------
  // Moving fibers from one place to another
  // ---------------------------------------------------------------------

  /** Some fibers moved from p to q. */
  ghost predicate Shift(at: seq<Place>, at': seq<Place>, p: Place, q: Place) {
    && |at'| == |at|
    && (forall g :: 0 <= g < |at| && at'[g] != at[g] ==> at[g] == p && at'[g] == q)
  }

  /** No fiber came to a run queue or a stolen list, or left one. */
  ghost predicate QueuesStay(at: seq<Place>, at': seq<Place>) {
    |at'| == |at| && forall f :: 0 <= f < |at| ==> at'[f] == at[f] || (OffQueues(at[f]) && OffQueues(at'[f]))
  }

  predicate OffQueues(p: Place) { !p.Local? && !p.Stolen? }

  lemma StayOne(at: seq<Place>, f: nat, q: Place)
    requires f < |at| && OffQueues(at[f]) && OffQueues(q)
    ensures QueuesStay(at, at[f := q])
  {
  }

  lemma StayTwice(at: seq<Place>, at1: seq<Place>, at2: seq<Place>)
    requires QueuesStay(at, at1) && QueuesStay(at1, at2)
    ensures QueuesStay(at, at2)
  {
  }

  lemma BagKept(m: multiset<nat>, at: seq<Place>, at': seq<Place>, p: Place, q: Place, r: Place)
    requires Bag(m, at, r) && Shift(at, at', p, q) && r != p && r != q
    ensures Bag(m, at', r)
  {
  }

  lemma SlotKept(o: Option<nat>, at: seq<Place>, at': seq<Place>, p: Place, q: Place, r: Place)
    requires Slot(o, at, r) && Shift(at, at', p, q) && r != p && r != q
    ensures Slot(o, at', r)
  {
  }

  lemma BagLess(m: multiset<nat>, at: seq<Place>, f: nat, p: Place, q: Place)
    requires Bag(m, at, p) && f < |at| && at[f] == p && q != p
    ensures Bag(m - multiset{f}, at[f := q], p)
  {
  }

  lemma BagMore(m: multiset<nat>, at: seq<Place>, f: nat, p: Place)
    requires Bag(m, at, p) && f < |at| && at[f] != p
    ensures Bag(m + multiset{f}, at[f := p], p)
  {
  }

  lemma BagHas(m: multiset<nat>, at: seq<Place>, p: Place, f: nat)
    requires Bag(m, at, p) && f in m
    ensures f < |at| && at[f] == p
  {
    assert m[f] > 0;
  }

  /** The worker that owns the container a place stands for, if any. */
  function OwnerOf(p: Place): Option<nat> {
    match p
    case Spare(w) => Some(w)
    case Next(w) => Some(w)
    case Displaced(w) => Some(w)
    case Local(w) => Some(w)
    case Stolen(w) => Some(w)
    case Drained(w) => Some(w)
    case Chosen(w) => Some(w)
    case Ready(w) => Some(w)
    case _ => None
  }

  lemma BagsOfKept(k: Worker, k': Worker, at: seq<Place>, at': seq<Place>, p: Place, q: Place, w: nat)
    requires BagsOf(k, at, w) && Shift(at, at', p, q)
    requires OwnerOf(p) != Some(w) && OwnerOf(q) != Some(w)
    requires k'.local == k.local && k'.ready == k.ready && k'.drained == k.drained && k'.stolen == k.stolen
    ensures BagsOf(k', at', w)
  {
    BagKept(k.local, at, at', p, q, Local(w));
    BagKept(k.ready, at, at', p, q, Ready(w));
    BagKept(k.drained, at, at', p, q, Drained(w));
    BagKept(k.stolen, at, at', p, q, Stolen(w));
  }

  lemma SlotsOfKept(k: Worker, k': Worker, at: seq<Place>, at': seq<Place>, p: Place, q: Place, w: nat)
    requires SlotsOf(k, at, w) && Shift(at, at', p, q)
    requires OwnerOf(p) != Some(w) && OwnerOf(q) != Some(w)
    requires k'.runnext == k.runnext && k'.displaced == k.displaced && k'.spare == k.spare && ChosenBy(k') == ChosenBy(k)
    ensures SlotsOf(k', at', w)
  {
    SlotKept(k.runnext, at, at', p, q, Next(w));
    SlotKept(k.displaced, at, at', p, q, Displaced(w));
    SlotKept(k.spare, at, at', p, q, Spare(w));
    SlotKept(ChosenBy(k), at, at', p, q, Chosen(w));
  }

  /** Every worker, in a step that touches no container of a worker. */
  lemma WorkersKept(s: State, s': State, at: seq<Place>, at': seq<Place>, p: Place, q: Place)
    requires WorkersOk(s, at) && Shift(at, at', p, q) && OwnerOf(p) == OwnerOf(q) == None && |s'.wk| == |s.wk|
    requires forall w :: 0 <= w < |s.wk| ==> SameContainers(s.wk[w], s'.wk[w])
    ensures WorkersOk(s', at')
  {
    forall w | 0 <= w < |s.wk| ensures WorkerOk(s'.wk[w], at', w) {
      assert WorkerOk(s.wk[w], at, w) && SameContainers(s.wk[w], s'.wk[w]);
      BagsOfKept(s.wk[w], s'.wk[w], at, at', p, q, w);
      SlotsOfKept(s.wk[w], s'.wk[w], at, at', p, q, w);
    }
  }

  predicate SameContainers(k: Worker, k': Worker) {
    k' == k.(pc := k'.pc, cur := k'.cur) && ChosenBy(k') == ChosenBy(k) && (k'.pc == InFiber <==> k'.cur.Some?)
  }

  /** Every worker, in a step on the containers of worker w alone. */
  lemma WorkersButOne(s: State, s': State, at: seq<Place>, at': seq<Place>, p: Place, q: Place, w: nat)
    requires WorkersOk(s, at) && Shift(at, at', p, q) && |s'.wk| == |s.wk| && w < |s.wk|
    requires OwnerOf(p) == None || OwnerOf(p) == Some(w)
    requires OwnerOf(q) == None || OwnerOf(q) == Some(w)
    requires s'.wk == s.wk[w := s'.wk[w]] && WorkerOk(s'.wk[w], at', w)
    ensures WorkersOk(s', at')
  {
    forall v | 0 <= v < |s.wk| ensures WorkerOk(s'.wk[v], at', v) {
      if v != w {
        assert WorkerOk(s.wk[v], at, v);
        BagsOfKept(s.wk[v], s'.wk[v], at, at', p, q, v);
        SlotsOfKept(s.wk[v], s'.wk[v], at, at', p, q, v);
      }
    }
  }

  /** The shared collections that take no part in the move. */
  lemma BagsKept(s: State, fib': seq<Fiber>, at: seq<Place>, at': seq<Place>, p: Place, q: Place)
    requires |at| == |s.fib| == |fib'| && Bags(s, at) && Shift(at, at', p, q)
    requires forall g :: 0 <= g < |at| && at[g] == Routed ==> fib'[g].home == s.fib[g].home
    ensures Unborn != p && Unborn != q ==> Bag(s.unborn, at', Unborn)
    ensures Pooled != p && Pooled != q ==> Bag(s.pool, at', Pooled)
    ensures Waiting != p && Waiting != q ==> Bag(s.waiting, at', Waiting)
    ensures Claimed != p && Claimed != q ==> Bag(s.claimed, at', Claimed)
    ensures Marked != p && Marked != q ==> Bag(s.marked, at', Marked)
    ensures Routed != p && Routed != q ==> RoutedBag(s.routed, at', fib')
  {
    if Unborn != p && Unborn != q { BagKept(s.unborn, at, at', p, q, Unborn); }
    if Pooled != p && Pooled != q { BagKept(s.pool, at, at', p, q, Pooled); }
    if Waiting != p && Waiting != q { BagKept(s.waiting, at, at', p, q, Waiting); }
    if Claimed != p && Claimed != q { BagKept(s.claimed, at, at', p, q, Claimed); }
    if Marked != p && Marked != q { BagKept(s.marked, at, at', p, q, Marked); }
    if Routed != p && Routed != q { RoutedKept(s.routed, at, at', s.fib, fib', p, q); }
  }

  predicate Shared(p: Place) {
    p.Unborn? || p.Pooled? || p.Waiting? || p.Claimed? || p.Marked? || p.Routed?
  }

  predicate SameShared(s: State, s': State) {
    && s'.unborn == s.unborn && s'.pool == s.pool && s'.waiting == s.waiting
    && s'.claimed == s.claimed && s'.marked == s.marked && s'.routed == s.routed && s'.global == s.global
  }

  lemma NoShared(s: State, s': State, at: seq<Place>, at': seq<Place>, p: Place, q: Place)
    requires |at| == |s.fib| == |s'.fib| && Bags(s, at) && SameShared(s, s')
    requires Shift(at, at', p, q) && !Shared(p) && !Shared(q)
    requires forall g :: 0 <= g < |at| && at[g] == Routed ==> s'.fib[g].home == s.fib[g].home
    ensures Bags(s', at')
  {
    BagsKept(s, s'.fib, at, at', p, q);
  }

  lemma RoutedKept(m: multiset<(nat, Option<nat>)>, at: seq<Place>, at': seq<Place>, fib: seq<Fiber>, fib': seq<Fiber>, p: Place, q: Place)
    requires |at| == |fib| == |fib'| && RoutedBag(m, at, fib) && Shift(at, at', p, q) && p != Routed && q != Routed
    requires forall g :: 0 <= g < |at| && at[g] == Routed ==> fib'[g].home == fib[g].home
    ensures RoutedBag(m, at', fib')
  {
  }

  /** No worker lost sight of fiber g. */
  ghost predicate StillSeen(s: State, s': State, g: nat) {
    && |s'.wk| == |s.wk|
    && (forall v :: 0 <= v < |s.wk| ==>
          && (s.wk[v].cur == Some(g) ==> s'.wk[v].cur == Some(g))
          && (s.wk[v].pc == Back(g) ==> s'.wk[v].pc == Back(g)))
  }

  lemma FiberKept(s: State, s': State, at: seq<Place>, at': seq<Place>, g: nat)
    requires |at| == |s.fib| == |s'.fib| == |at'| && g < |at| && FiberOk(s, at, g)
    requires at'[g] == at[g] && s'.fib[g] == s.fib[g] && StillSeen(s, s', g)
    ensures FiberOk(s', at', g)
  {
  }

  /** The step left fiber g alone, or only moved it on its way from a wait queue
      to its home's ready list. */
  predicate SameForRunner(s: State, s': State, at: seq<Place>, at': seq<Place>, g: nat)
    requires |at| == |s.fib| == |s'.fib| == |at'| && g < |at|
  {
    && s'.fib[g].home == s.fib[g].home && s'.fib[g].saved == s.fib[g].saved
    && (at'[g] == at[g] || (Limbo(at[g]) && Limbo(at'[g])))
  }

  lemma CurKept(s: State, s': State, at: seq<Place>, at': seq<Place>, v: nat)
    requires |at| == |s.fib| == |s'.fib| == |at'| && v < |s.wk| == |s'.wk| && CurOk(s, at, v)
    requires s'.wk[v].cur == s.wk[v].cur && (s'.wk[v].pc.Back? ==> s'.wk[v].pc == s.wk[v].pc)
    requires s.wk[v].cur.Some? ==> SameForRunner(s, s', at, at', s.wk[v].cur.value)
    requires s.wk[v].pc.Back? ==> SameForRunner(s, s', at, at', s.wk[v].pc.f)
    ensures CurOk(s', at', v)
  {
  }

  /** A fiber that is not on its way to a ready list is current only where its
      place says. */
  lemma OnlyRunner(s: State, at: seq<Place>, f: nat, v: nat)
    requires Inv(s, at) && f < |at| && v < |s.wk|
    requires if Limbo(at[f]) then s.fib[f].home != Some(v) else at[f] != On(v) && at[f] != Gone(v)
    ensures s.wk[v].cur != Some(f) && s.wk[v].pc != Back(f)
  {
    assert CurOk(s, at, v);
  }

  /** Only fiber f, and only worker w's view of f, changed. */
  ghost predicate OnlyOne(s: State, s': State, f: nat, w: nat) {
    && |s'.fib| == |s.fib| && |s'.wk| == |s.wk| && f < |s.fib|
    && s'.fib == s.fib[f := s'.fib[f]]
    && (forall v :: 0 <= v < |s.wk| && v != w ==> s'.wk[v].cur == s.wk[v].cur && s'.wk[v].pc == s.wk[v].pc)
    && (w < |s.wk| ==>
          && (s.wk[w].cur == s'.wk[w].cur || s.wk[w].cur == None || s.wk[w].cur == Some(f))
          && (s.wk[w].pc.Back? ==> s.wk[w].pc.f == f || s'.wk[w].pc == s.wk[w].pc))
  }

  /** No worker but w runs f. */
  ghost predicate Away(s: State, f: nat, w: nat) {
    forall v :: 0 <= v < |s.wk| && v != w ==> s.wk[v].cur != Some(f) && s.wk[v].pc != Back(f)
  }

  lemma OthersKept(s: State, s': State, at: seq<Place>, at': seq<Place>, f: nat, w: nat)
    requires Inv(s, at) && OnlyOne(s, s', f, w) && |at'| == |at| && at' == at[f := at'[f]]
    requires FiberOk(s', at', f)
    ensures FibersOk(s', at')
  {
    forall g | 0 <= g < |at| ensures FiberOk(s', at', g) {
      if g != f {
        assert FiberOk(s, at, g);
        FiberKept(s, s', at, at', g);
      }
    }
  }

  lemma CursKept(s: State, s': State, at: seq<Place>, at': seq<Place>, f: nat, w: nat)
    requires Inv(s, at) && OnlyOne(s, s', f, w) && |at'| == |at| && at' == at[f := at'[f]]
    requires SameForRunner(s, s', at, at', f) || Away(s, f, w)
    requires w < |s.wk| ==> CurOk(s', at', w)
    ensures CursOk(s', at')
  {
    forall v | 0 <= v < |s.wk| ensures CurOk(s', at', v) {
      if v != w {
        assert CurOk(s, at, v);
        CurKept(s, s', at, at', v);
      }
    }
  }

  // ---------------------------------------------------------------------
  // A fiber on its way into a wait
  // ---------------------------------------------------------------------

  lemma AwayFrom(s: State, at: seq<Place>, f: nat, w: nat)
    requires Inv(s, at) && f < |at|
    requires if Limbo(at[f]) then s.fib[f].home == Some(w) else (at[f].On? || at[f].Gone? ==> at[f].w == w)
    ensures Away(s, f, w)
  {
    forall v | 0 <= v < |s.wk| && v != w ensures s.wk[v].cur != Some(f) && s.wk[v].pc != Back(f) {
      OnlyRunner(s, at, f, v);
    }
  }

  /** Where the step leaves the current fiber of w, which is at p. */
  function WaitPlace(a: WaitStep, p: Place, w: nat): Place {
    match a
    case Publish(_) => Waiting
    case End => Gone(w)
    case _ => p
  }

  /** The fiber and the worker that take the step. */
  lemma WaitLocal(s: State, at: seq<Place>, w: nat, a: WaitStep)
    requires WaitEnabled(s, w, a) && |at| == |s.fib| && CurOk(s, at, w) && FiberOk(s, at, s.wk[w].cur.value)
    ensures var f, s' := s.wk[w].cur.value, DoWait(s, w, a); var q := WaitPlace(a, at[f], w);
      && FiberOk(s', at[f := q], f) && CurOk(s', at[f := q], w)
      && OwnerOf(at[f]) in {None, Some(w)} && (a.Publish? || a.End? ==> at[f] == On(w))
      && OnlyOne(s, s', f, w)
      && (if Limbo(at[f]) then s.fib[f].home == Some(w) && s'.fib[f].home == Some(w) else at[f] == On(w) || at[f] == Gone(w))
  {
  }

  lemma WaitBags(s: State, at: seq<Place>, w: nat, a: WaitStep)
    requires |at| == |s.fib| && Bags(s, at) && WaitEnabled(s, w, a)
    requires var f := s.wk[w].cur.value;
      && (a.Publish? || a.End? ==> at[f] == On(w))
      && (at[f] == Routed ==> DoWait(s, w, a).fib[f].home == s.fib[f].home)
    ensures var f := s.wk[w].cur.value; Bags(DoWait(s, w, a), at[f := WaitPlace(a, at[f], w)])
  {
    var f, s' := s.wk[w].cur.value, DoWait(s, w, a);
    var q := WaitPlace(a, at[f], w);
    var at' := at[f := q];
    if a.Publish? {
      BagMore(s.waiting, at, f, Waiting);
      BagsKept(s, s'.fib, at, at', On(w), Waiting);
    } else {
      assert Shift(at, at', On(w), Gone(w));
      BagsKept(s, s'.fib, at, at', On(w), Gone(w));
    }
  }

  lemma WaitWorkers(s: State, at: seq<Place>, w: nat, a: WaitStep)
    requires |at| == |s.fib| && WorkersOk(s, at) && WaitEnabled(s, w, a)
    requires a.Publish? || a.End? ==> at[s.wk[w].cur.value] == On(w)
    ensures var f := s.wk[w].cur.value; WorkersOk(DoWait(s, w, a), at[f := WaitPlace(a, at[f], w)])
  {
    var f, s' := s.wk[w].cur.value, DoWait(s, w, a);
    var at' := at[f := WaitPlace(a, at[f], w)];
    var q := if a.Publish? then Waiting else Gone(w);
    SameAll(s, at);
    WorkersKept(s, s', at, at', On(w), q);
  }

  lemma SameAll(s: State, at: seq<Place>)
    requires WorkersOk(s, at)
    ensures forall w :: 0 <= w < |s.wk| ==> SameContainers(s.wk[w], s.wk[w])
  {
    forall w | 0 <= w < |s.wk| ensures SameContainers(s.wk[w], s.wk[w]) { assert WorkerOk(s.wk[w], at, w); }
  }

  lemma KeepWait(s: State, at: seq<Place>, w: nat, a: WaitStep) returns (at': seq<Place>)
    requires Inv(s, at) && WaitEnabled(s, w, a)
    ensures Inv(DoWait(s, w, a), at') && QueuesStay(at, at')
  {
    var f, s' := s.wk[w].cur.value, DoWait(s, w, a);
    at' := at[f := WaitPlace(a, at[f], w)];
    WaitLocal(s, at, w, a);
    AwayFrom(s, at, f, w);
    WaitBags(s, at, w, a);
    WaitWorkers(s, at, w, a);
    OthersKept(s, s', at, at', f, w);
    CursKept(s, s', at, at', f, w);
  }

  // ---------------------------------------------------------------------
  // A waiting fiber on its way to its home's ready list
  // ---------------------------------------------------------------------

  function UnparkFrom(a: UnparkStep): Place {
    match a
    case Claim => Waiting
    case Mark => Claimed
    case Route => Marked
    case Push(_) => Routed
  }

  function UnparkTo(a: UnparkStep): Place {
    match a
    case Claim => Claimed
    case Mark => Marked
    case Route => Routed
    case Push(h) => if h.Some? then Ready(h.value) else Unborn
  }

  lemma UnparkPlace(s: State, at: seq<Place>, f: nat, a: UnparkStep)
    requires |at| == |s.fib| && Bags(s, at) && UnparkEnabled(s, f, a)
    ensures at[f] == UnparkFrom(a) && (a.Push? ==> a.h == s.fib[f].home)
  {
    match a
    case Claim => BagHas(s.waiting, at, Waiting, f);
    case Mark => BagHas(s.claimed, at, Claimed, f);
    case Route => BagHas(s.marked, at, Marked, f);
    case Push(h) => assert s.routed[(f, h)] > 0;
  }

  lemma UnparkLocal(s: State, at: seq<Place>, f: nat, a: UnparkStep)
    requires UnparkEnabled(s, f, a) && |at| == |s.fib| && FiberOk(s, at, f)
    requires at[f] == UnparkFrom(a) && (a.Push? ==> a.h == s.fib[f].home)
    ensures FiberOk(DoUnpark(s, f, a), at[f := UnparkTo(a)], f) && (a.Push? ==> a.h.Some?)
  {
    if a.Push? { PushLocal(s, at, f, a.h); }
  }

  lemma PushLocal(s: State, at: seq<Place>, f: nat, h: Option<nat>)
    requires UnparkEnabled(s, f, Push(h)) && |at| == |s.fib| && FiberOk(s, at, f) && at[f] == Routed && h == s.fib[f].home
    ensures h.Some? && FiberOk(DoUnpark(s, f, Push(h)), at[f := Ready(h.value)], f)
  {
    var s' := DoUnpark(s, f, Push(h));
    assert s'.wk[h.value].cur == s.wk[h.value].cur;
    assert s'.fib[f] == s.fib[f].(unparks := s.fib[f].unparks + 1);
  }

  lemma UnparkOnly(s: State, at: seq<Place>, f: nat, a: UnparkStep)
    requires UnparkEnabled(s, f, a) && |at| == |s.fib| && at[f] == UnparkFrom(a) && (a.Push? ==> a.h.Some?)
    ensures OnlyOne(s, DoUnpark(s, f, a), f, |s.wk|) && SameForRunner(s, DoUnpark(s, f, a), at, at[f := UnparkTo(a)], f)
  {
    assert s.fib == s.fib[f := s.fib[f]];
  }

  lemma RoutedMore(m: multiset<(nat, Option<nat>)>, at: seq<Place>, fib: seq<Fiber>, f: nat)
    requires |at| == |fib| && RoutedBag(m, at, fib) && f < |at| && at[f] != Routed
    ensures RoutedBag(m + multiset{(f, fib[f].home)}, at[f := Routed], fib)
  {
  }

  lemma RoutedLess(m: multiset<(nat, Option<nat>)>, at: seq<Place>, fib: seq<Fiber>, fib': seq<Fiber>, f: nat, q: Place)
    requires |at| == |fib| == |fib'| && RoutedBag(m, at, fib) && f < |at| && at[f] == Routed && q != Routed
    requires forall g :: 0 <= g < |fib| ==> fib'[g].home == fib[g].home
    ensures RoutedBag(m - multiset{(f, fib[f].home)}, at[f := q], fib')
  {
  }

  lemma UnparkBags(s: State, at: seq<Place>, f: nat, a: UnparkStep)
    requires |at| == |s.fib| && Bags(s, at) && UnparkEnabled(s, f, a)
    requires at[f] == UnparkFrom(a) && (a.Push? ==> a.h.Some? && a.h == s.fib[f].home)
    ensures Bags(DoUnpark(s, f, a), at[f := UnparkTo(a)])
  {
    match a
    case Claim => ClaimBags(s, at, f);
    case Mark => MarkBags(s, at, f);
    case Route => RouteBags(s, at, f);
    case Push(h) =>
      var fib' := DoUnpark(s, f, a).fib;
      BagsKept(s, fib', at, at[f := UnparkTo(a)], Routed, UnparkTo(a));
      RoutedLess(s.routed, at, s.fib, fib', f, UnparkTo(a));
  }

  lemma ClaimBags(s: State, at: seq<Place>, f: nat)
    requires |at| == |s.fib| && Bags(s, at) && UnparkEnabled(s, f, Claim) && at[f] == Waiting
    ensures Bags(DoUnpark(s, f, Claim), at[f := Claimed])
  {
    BagsKept(s, s.fib, at, at[f := Claimed], Waiting, Claimed);
    BagLess(s.waiting, at, f, Waiting, Claimed);
    BagMore(s.claimed, at, f, Claimed);
  }

  lemma MarkBags(s: State, at: seq<Place>, f: nat)
    requires |at| == |s.fib| && Bags(s, at) && UnparkEnabled(s, f, Mark) && at[f] == Claimed
    ensures Bags(DoUnpark(s, f, Mark), at[f := Marked])
  {
    BagsKept(s, DoUnpark(s, f, Mark).fib, at, at[f := Marked], Claimed, Marked);
    BagLess(s.claimed, at, f, Claimed, Marked);
    BagMore(s.marked, at, f, Marked);
  }

  lemma RouteBags(s: State, at: seq<Place>, f: nat)
    requires |at| == |s.fib| && Bags(s, at) && UnparkEnabled(s, f, Route) && at[f] == Marked
    ensures Bags(DoUnpark(s, f, Route), at[f := Routed])
  {
    BagsKept(s, s.fib, at, at[f := Routed], Marked, Routed);
    BagLess(s.marked, at, f, Marked, Routed);
    RoutedMore(s.routed, at, s.fib, f);
  }

  lemma UnparkWorkers(s: State, at: seq<Place>, f: nat, a: UnparkStep)
    requires |at| == |s.fib| && WorkersOk(s, at) && UnparkEnabled(s, f, a)
    requires at[f] == UnparkFrom(a) && (a.Push? ==> a.h.Some?)
    ensures WorkersOk(DoUnpark(s, f, a), at[f := UnparkTo(a)])
  {
    var s', p, q := DoUnpark(s, f, a), UnparkFrom(a), UnparkTo(a);
    var at' := at[f := q];
    if a.Push? {
      var w := a.h.value;
      PushWorkers(s, s', at, f, w);
    } else {
      SameAll(s, at);
      WorkersKept(s, s', at, at', p, q);
    }
  }

  lemma PushWorkers(s: State, s': State, at: seq<Place>, f: nat, w: nat)
    requires WorkersOk(s, at) && w < |s.wk| && f < |at| && at[f] == Routed
    requires s'.wk == s.wk[w := s.wk[w].(ready := s.wk[w].ready + multiset{f})]
    ensures WorkersOk(s', at[f := Ready(w)])
  {
    assert WorkerOk(s'.wk[w], at[f := Ready(w)], w) by { ReadyMore(s.wk[w], at, f, w); }
    WorkersButOne(s, s', at, at[f := Ready(w)], Routed, Ready(w), w);
  }

  lemma ReadyMore(k: Worker, at: seq<Place>, f: nat, w: nat)
    requires WorkerOk(k, at, w) && f < |at| && at[f] == Routed
    ensures WorkerOk(k.(ready := k.ready + multiset{f}), at[f := Ready(w)], w)
  {
    var at' := at[f := Ready(w)];
    BagMore(k.ready, at, f, Ready(w));
    WorkerParts(k, at, at', Routed, Ready(w), w);
  }

  /** The containers of a worker that take no part in the move. */
  lemma WorkerParts(k: Worker, at: seq<Place>, at': seq<Place>, p: Place, q: Place, w: nat)
    requires WorkerOk(k, at, w) && Shift(at, at', p, q)
    ensures Local(w) != p && Local(w) != q ==> Bag(k.local, at', Local(w))
    ensures Ready(w) != p && Ready(w) != q ==> Bag(k.ready, at', Ready(w))
    ensures Drained(w) != p && Drained(w) != q ==> Bag(k.drained, at', Drained(w))
    ensures Stolen(w) != p && Stolen(w) != q ==> Bag(k.stolen, at', Stolen(w))
    ensures Next(w) != p && Next(w) != q ==> Slot(k.runnext, at', Next(w))
    ensures Displaced(w) != p && Displaced(w) != q ==> Slot(k.displaced, at', Displaced(w))
    ensures Spare(w) != p && Spare(w) != q ==> Slot(k.spare, at', Spare(w))
    ensures Chosen(w) != p && Chosen(w) != q ==> Slot(ChosenBy(k), at', Chosen(w))
  {
    BagParts(k, at, at', p, q, w);
    if Next(w) != p && Next(w) != q { SlotKept(k.runnext, at, at', p, q, Next(w)); }
    if Displaced(w) != p && Displaced(w) != q { SlotKept(k.displaced, at, at', p, q, Displaced(w)); }
    if Spare(w) != p && Spare(w) != q { SlotKept(k.spare, at, at', p, q, Spare(w)); }
    if Chosen(w) != p && Chosen(w) != q { SlotKept(ChosenBy(k), at, at', p, q, Chosen(w)); }
  }

  lemma BagParts(k: Worker, at: seq<Place>, at': seq<Place>, p: Place, q: Place, w: nat)
    requires BagsOf(k, at, w) && Shift(at, at', p, q)
    ensures Local(w) != p && Local(w) != q ==> Bag(k.local, at', Local(w))
    ensures Ready(w) != p && Ready(w) != q ==> Bag(k.ready, at', Ready(w))
    ensures Drained(w) != p && Drained(w) != q ==> Bag(k.drained, at', Drained(w))
    ensures Stolen(w) != p && Stolen(w) != q ==> Bag(k.stolen, at', Stolen(w))
  {
    if Local(w) != p && Local(w) != q { BagKept(k.local, at, at', p, q, Local(w)); }
    if Ready(w) != p && Ready(w) != q { BagKept(k.ready, at, at', p, q, Ready(w)); }
    if Drained(w) != p && Drained(w) != q { BagKept(k.drained, at, at', p, q, Drained(w)); }
    if Stolen(w) != p && Stolen(w) != q { BagKept(k.stolen, at, at', p, q, Stolen(w)); }
  }

  lemma KeepUnpark(s: State, at: seq<Place>, f: nat, a: UnparkStep) returns (at': seq<Place>)
    requires Inv(s, at) && UnparkEnabled(s, f, a)
    ensures Inv(DoUnpark(s, f, a), at') && QueuesStay(at, at')
  {
    var s' := DoUnpark(s, f, a);
    at' := at[f := UnparkTo(a)];
    UnparkPlace(s, at, f, a);
    UnparkLocal(s, at, f, a);
    UnparkOnly(s, at, f, a);
    UnparkBags(s, at, f, a);
    UnparkWorkers(s, at, f, a);
    assert FibersOk(s', at') by { OthersKept(s, s', at, at', f, |s.wk|); }
    assert CursOk(s', at') by { CursKept(s, s', at, at', f, |s.wk|); }
    StayOne(at, f, UnparkTo(a));
  }

  // ---------------------------------------------------------------------
  // A worker in its loop
  // ---------------------------------------------------------------------

  lemma SlotEmptied(o: Option<nat>, at: seq<Place>, f: nat, p: Place, q: Place)
    requires Slot(o, at, p) && f < |at| && at[f] == p && q != p
    ensures o == Some(f) && Slot(None, at[f := q], p)
  {
  }

  lemma SlotFilled(at: seq<Place>, f: nat, q: Place)
    requires Slot(None, at, q) && f < |at|
    ensures Slot(Some(f), at[f := q], q)
  {
  }

  lemma OnlyWorker(s: State, s': State, f: nat, w: nat)
    requires |s'.wk| == |s.wk| && w < |s.wk| && f < |s.fib| && s' == SetW(s, w, s'.wk[w])
    requires s'.wk[w].cur == s.wk[w].cur && !s.wk[w].pc.Back? && !s'.wk[w].pc.Back?
    ensures OnlyOne(s, s', f, w)
  {
    assert s.fib == s.fib[f := s.fib[f]];
  }

  /** A switched-out fiber moves between two containers of worker w. */
  lemma KeepInside(s: State, s': State, at: seq<Place>, at': seq<Place>, f: nat, w: nat)
    requires Inv(s, at) && w < |s.wk| && f < |at| && |at'| == |at| && at' == at[f := at'[f]]
    requires Queued(at[f]) && at[f].w == w && Queued(at'[f]) && at'[f].w == w
    requires |s'.wk| == |s.wk| && s' == SetW(s, w, s'.wk[w])
    requires s'.wk[w].cur == s.wk[w].cur && !s.wk[w].pc.Back? && !s'.wk[w].pc.Back?
    requires WorkerOk(s'.wk[w], at', w)
    ensures Inv(s', at')
  {
    assert Away(s, f, w) by { AwayFrom(s, at, f, w); }
    assert Bags(s', at') by { NoShared(s, s', at, at', at[f], at'[f]); }
    assert WorkersOk(s', at') by { WorkersButOne(s, s', at, at', at[f], at'[f], w); }
    assert FiberOk(s', at', f) && CurOk(s', at', w) by { InsideFiber(s, s', at, at', f, w); }
    assert OnlyOne(s, s', f, w) by { OnlyWorker(s, s', f, w); }
    assert FibersOk(s', at') by { OthersKept(s, s', at, at', f, w); }
    assert CursOk(s', at') by { CursKept(s, s', at, at', f, w); }
  }

  lemma InsideFiber(s: State, s': State, at: seq<Place>, at': seq<Place>, f: nat, w: nat)
    requires |at| == |s.fib| && FibersOk(s, at) && CursOk(s, at)
    requires w < |s.wk| && f < |at| && |at'| == |at| && at' == at[f := at'[f]]
    requires Queued(at[f]) && at[f].w == w && Queued(at'[f]) && at'[f].w == w
    requires |s'.wk| == |s.wk| && s' == SetW(s, w, s'.wk[w])
    requires s'.wk[w].cur == s.wk[w].cur && !s.wk[w].pc.Back? && !s'.wk[w].pc.Back?
    ensures FiberOk(s', at', f) && CurOk(s', at', w)
  {
    assert FiberOk(s, at, f) && CurOk(s, at, w);
  }

  lemma KeepQueue(s: State, at: seq<Place>, w: nat, f: nat) returns (at': seq<Place>)
    requires Inv(s, at) && WorkEnabled(s, w, Queue(f))
    ensures Inv(DoWork(s, w, Queue(f)), at') && f < |at| && at[f] == Drained(w) && at' == at[f := Local(w)]
  {
    var k := s.wk[w];
    assert WorkerOk(k, at, w);
    BagHas(k.drained, at, Drained(w), f);
    at' := at[f := Local(w)];
    BagLess(k.drained, at, f, Drained(w), Local(w));
    BagMore(k.local, at, f, Local(w));
    WorkerParts(k, at, at', Drained(w), Local(w), w);
    KeepInside(s, DoWork(s, w, Queue(f)), at, at', f, w);
  }

  lemma KeepPickNext(s: State, at: seq<Place>, w: nat) returns (at': seq<Place>)
    requires Inv(s, at) && WorkEnabled(s, w, PickNext)
    ensures Inv(DoWork(s, w, PickNext), at') && QueuesStay(at, at')
  {
    var k := s.wk[w];
    var f := k.runnext.value;
    assert WorkerOk(k, at, w);
    at' := at[f := Chosen(w)];
    SlotEmptied(k.runnext, at, f, Next(w), Chosen(w));
    SlotFilled(at, f, Chosen(w));
    WorkerParts(k, at, at', Next(w), Chosen(w), w);
    KeepInside(s, DoWork(s, w, PickNext), at, at', f, w);
  }

  lemma KeepFoldNext(s: State, at: seq<Place>, w: nat) returns (at': seq<Place>)
    requires Inv(s, at) && WorkEnabled(s, w, FoldNext)
    ensures Inv(DoWork(s, w, FoldNext), at')
    ensures var f := s.wk[w].runnext.value; f < |at| && at[f] == Next(w) && at' == at[f := Local(w)]
  {
    var k := s.wk[w];
    var f := k.runnext.value;
    assert WorkerOk(k, at, w);
    at' := at[f := Local(w)];
    SlotEmptied(k.runnext, at, f, Next(w), Local(w));
    BagMore(k.local, at, f, Local(w));
    WorkerParts(k, at, at', Next(w), Local(w), w);
    KeepInside(s, DoWork(s, w, FoldNext), at, at', f, w);
  }

  lemma KeepPickLocal(s: State, at: seq<Place>, w: nat, f: nat) returns (at': seq<Place>)
    requires Inv(s, at) && WorkEnabled(s, w, PickLocal(f))
    ensures Inv(DoWork(s, w, PickLocal(f)), at') && f < |at| && at[f] == Local(w) && at' == at[f := Chosen(w)]
  {
    var k := s.wk[w];
    assert WorkerOk(k, at, w);
    BagHas(k.local, at, Local(w), f);
    at' := at[f := Chosen(w)];
    BagLess(k.local, at, f, Local(w), Chosen(w));
    SlotFilled(at, f, Chosen(w));
    WorkerParts(k, at, at', Local(w), Chosen(w), w);
    KeepInside(s, DoWork(s, w, PickLocal(f)), at, at', f, w);
  }

  lemma KeepRequeue(s: State, at: seq<Place>, w: nat) returns (at': seq<Place>)
    requires Inv(s, at) && SpawnEnabled(s, w, Requeue)
    ensures Inv(DoSpawn(s, w, Requeue), at')
    ensures var f := s.wk[w].displaced.value; f < |at| && at[f] == Displaced(w) && at' == at[f := Local(w)]
  {
    var k := s.wk[w];
    var f := k.displaced.value;
    assert WorkerOk(k, at, w);
    at' := at[f := Local(w)];
    SlotEmptied(k.displaced, at, f, Displaced(w), Local(w));
    BagMore(k.local, at, f, Local(w));
    WorkerParts(k, at, at', Displaced(w), Local(w), w);
    KeepInside(s, DoSpawn(s, w, Requeue), at, at', f, w);
  }

  // ---------------------------------------------------------------------
  // Switching to a fiber and coming back
  // ---------------------------------------------------------------------

  lemma ResumeLocal(s: State, at: seq<Place>, w: nat, f: nat)
    requires WorkEnabled(s, w, Resume) && |at| == |s.fib| && f == s.wk[w].pc.f
    requires FiberOk(s, at, f) && at[f] == Chosen(w)
    ensures var s', at' := DoWork(s, w, Resume), at[f := On(w)];
      FiberOk(s', at', f) && CurOk(s', at', w)
  {
  }

  lemma KeepResume(s: State, at: seq<Place>, w: nat) returns (at': seq<Place>)
    requires Inv(s, at) && WorkEnabled(s, w, Resume)
    ensures Inv(DoWork(s, w, Resume), at') && QueuesStay(at, at')
  {
    PickedPlace(s, at, w);
    at' := at[s.wk[w].pc.f := On(w)];
    ResumeLocal(s, at, w, s.wk[w].pc.f);
    KeepSwitch(s, DoWork(s, w, Resume), at, at', s.wk[w].pc.f, w);
  }

  lemma KeepSwitch(s: State, s': State, at: seq<Place>, at': seq<Place>, f: nat, w: nat)
    requires Inv(s, at) && w < |s.wk| && s.wk[w].pc == Picked(f) && f < |at| && at[f] == Chosen(w) && at' == at[f := On(w)]
    requires |s'.fib| == |s.fib| && s'.fib == s.fib[f := s'.fib[f]]
    requires s'.wk == s.wk[w := s.wk[w].(pc := InFiber, cur := Some(f))] && SameShared(s, s')
    requires FiberOk(s', at', f) && CurOk(s', at', w)
    ensures Inv(s', at')
  {
    var k := s.wk[w];
    assert Away(s, f, w) by { AwayFrom(s, at, f, w); }
    assert Bags(s', at') by { NoShared(s, s', at, at', Chosen(w), On(w)); }
    assert WorkersOk(s', at') by {
      ResumeWorker(k, at, w, s'.wk[w]);
      WorkersButOne(s, s', at, at', Chosen(w), On(w), w);
    }
    assert k.cur == None by { assert WorkerOk(k, at, w); }
    assert FibersOk(s', at') by { OthersKept(s, s', at, at', f, w); }
    assert CursOk(s', at') by { CursKept(s, s', at, at', f, w); }
  }

  lemma ResumeWorker(k: Worker, at: seq<Place>, w: nat, k': Worker)
    requires WorkerOk(k, at, w) && k.pc.Picked? && k' == k.(pc := InFiber, cur := Some(k.pc.f))
    ensures k.pc.f < |at| && WorkerOk(k', at[k.pc.f := On(w)], w)
  {
    SlotEmptied(Some(k.pc.f), at, k.pc.f, Chosen(w), On(w));
    WorkerParts(k, at, at[k.pc.f := On(w)], Chosen(w), On(w), w);
  }

  /** Back in the loop, the worker finds a live fiber on its way to a ready
      list, or a dead one that is its own. */
  lemma BackPlace(s: State, at: seq<Place>, w: nat)
    requires |at| == |s.fib| && CursOk(s, at) && FibersOk(s, at) && w < |s.wk| && s.wk[w].pc.Back? && s.wk[w].pc.f < |at|
    ensures var f := s.wk[w].pc.f;
      if s.fib[f].state == DEAD then at[f] == Gone(w) else Limbo(at[f]) && s.fib[f].home == Some(w)
  {
    assert CurOk(s, at, w);
    assert FiberOk(s, at, s.wk[w].pc.f);
  }

  lemma BackIdle(s: State, at: seq<Place>, w: nat)
    requires WorkersOk(s, at) && w < |s.wk| && s.wk[w].pc.Back?
    ensures s.wk[w].cur == None
  {
    assert WorkerOk(s.wk[w], at, w);
  }

  lemma CheckLocal(s: State, at: seq<Place>, w: nat, q: Place)
    requires WorkEnabled(s, w, Check) && |at| == |s.fib| && s.wk[w].cur == None
    requires var f, s' := s.wk[w].pc.f, DoWork(s, w, Check);
      && FiberOk(s, at, f)
      && (if s.fib[f].state == DEAD then at[f] == Gone(w) && (q == Spare(w) || q == Pooled) else Limbo(at[f]) && q == at[f])
    ensures var f, s' := s.wk[w].pc.f, DoWork(s, w, Check);
      FiberOk(s', at[f := q], f) && CurOk(s', at[f := q], w) && OnlyOne(s, s', f, w)
  {
  }

  lemma KeepCheck(s: State, at: seq<Place>, w: nat) returns (at': seq<Place>)
    requires Inv(s, at) && WorkEnabled(s, w, Check)
    ensures Inv(DoWork(s, w, Check), at') && QueuesStay(at, at')
  {
    var k, f, s' := s.wk[w], s.wk[w].pc.f, DoWork(s, w, Check);
    BackPlace(s, at, w);
    BackIdle(s, at, w);
    AwayFrom(s, at, f, w);
    var q := if s.fib[f].state != DEAD then at[f] else if k.spare == None then Spare(w) else Pooled;
    at' := at[f := q];
    CheckLocal(s, at, w, q);
    CheckBags(s, at, w, q);
    CheckWorkers(s, at, w, q);
    OthersKept(s, s', at, at', f, w);
    CursKept(s, s', at, at', f, w);
  }

  lemma CheckBags(s: State, at: seq<Place>, w: nat, q: Place)
    requires |at| == |s.fib| && Bags(s, at) && WorkEnabled(s, w, Check)
    requires var f := s.wk[w].pc.f;
      if s.fib[f].state != DEAD then q == at[f]
      else at[f] == Gone(w) && q == if s.wk[w].spare == None then Spare(w) else Pooled
    ensures Bags(DoWork(s, w, Check), at[s.wk[w].pc.f := q])
  {
    var f, s' := s.wk[w].pc.f, DoWork(s, w, Check);
    if q == Pooled && s.fib[f].state == DEAD {
      BagMore(s.pool, at, f, Pooled);
      BagsKept(s, s.fib, at, at[f := q], Gone(w), Pooled);
    } else {
      NoShared(s, s', at, at[f := q], Gone(w), Spare(w));
    }
  }

  lemma CheckWorkers(s: State, at: seq<Place>, w: nat, q: Place)
    requires |at| == |s.fib| && WorkersOk(s, at) && WorkEnabled(s, w, Check)
    requires var f := s.wk[w].pc.f;
      if s.fib[f].state != DEAD then q == at[f]
      else at[f] == Gone(w) && q == if s.wk[w].spare == None then Spare(w) else Pooled
    ensures WorkersOk(DoWork(s, w, Check), at[s.wk[w].pc.f := q])
  {
    var k, f, s' := s.wk[w], s.wk[w].pc.f, DoWork(s, w, Check);
    var at' := at[f := q];
    if q == Spare(w) && s.fib[f].state == DEAD {
      SpareFilled(k, at, f, w);
      WorkersButOne(s, s', at, at', Gone(w), Spare(w), w);
    } else {
      SameAll(s, at);
      WorkersKept(s, s', at, at', Gone(w), Pooled);
    }
  }

  lemma SpareFilled(k: Worker, at: seq<Place>, f: nat, w: nat)
    requires WorkerOk(k, at, w) && k.pc == Back(f) && k.spare == None && f < |at| && at[f] == Gone(w)
    ensures WorkerOk(k.(pc := Loop, spare := Some(f)), at[f := Spare(w)], w)
  {
    SlotFilled(at, f, Spare(w));
    WorkerParts(k, at, at[f := Spare(w)], Gone(w), Spare(w), w);
  }

  // ---------------------------------------------------------------------
  // Whole lists: draining, stealing
  // ---------------------------------------------------------------------

  /** Fibers moved from p to q, and no worker changed what it runs. */
  lemma KeepMany(s: State, s': State, at: seq<Place>, at': seq<Place>, p: Place, q: Place)
    requires Inv(s, at) && s' == s.(wk := s'.wk) && |s'.wk| == |s.wk| && Shift(at, at', p, q)
    requires forall v :: 0 <= v < |s.wk| ==> s'.wk[v].cur == s.wk[v].cur && s'.wk[v].pc == s.wk[v].pc
    requires Queued(p) || (p.Ready? && p.w < |s.wk| && s.wk[p.w].pc == Loop && s.wk[p.w].cur == None)
    requires Queued(q) && q.w < |s.wk|
    requires WorkersOk(s', at')
    ensures Inv(s', at')
  {
    NoShared(s, s', at, at', p, q);
    ManyFibers(s, s', at, at', p, q);
    ManyCurs(s, s', at, at', p, q);
  }

  lemma ManyFibers(s: State, s': State, at: seq<Place>, at': seq<Place>, p: Place, q: Place)
    requires |at| == |s.fib| && FibersOk(s, at)
    requires s' == s.(wk := s'.wk) && |s'.wk| == |s.wk| && Shift(at, at', p, q)
    requires forall v :: 0 <= v < |s.wk| ==> s'.wk[v].cur == s.wk[v].cur && s'.wk[v].pc == s.wk[v].pc
    requires Queued(p) || (p.Ready? && p.w < |s.wk| && s.wk[p.w].pc == Loop && s.wk[p.w].cur == None)
    requires Queued(q) && q.w < |s.wk|
    ensures FibersOk(s', at')
  {
    forall g | 0 <= g < |at| ensures FiberOk(s', at', g) {
      assert FiberOk(s, at, g);
      if at'[g] == at[g] { FiberKept(s, s', at, at', g); }
    }
  }

  lemma ManyCurs(s: State, s': State, at: seq<Place>, at': seq<Place>, p: Place, q: Place)
    requires |at| == |s.fib| && CursOk(s, at) && FibersOk(s, at)
    requires s' == s.(wk := s'.wk) && |s'.wk| == |s.wk| && Shift(at, at', p, q)
    requires forall v :: 0 <= v < |s.wk| ==> s'.wk[v].cur == s.wk[v].cur && s'.wk[v].pc == s.wk[v].pc
    requires Queued(p) || (p.Ready? && p.w < |s.wk| && s.wk[p.w].pc == Loop && s.wk[p.w].cur == None)
    ensures CursOk(s', at')
  {
    forall v | 0 <= v < |s.wk| ensures CurOk(s', at', v) {
      assert CurOk(s, at, v);
      if s.wk[v].cur.Some? { assert FiberOk(s, at, s.wk[v].cur.value); }
      if s.wk[v].pc.Back? { assert FiberOk(s, at, s.wk[v].pc.f); }
      CurKept(s, s', at, at', v);
    }
  }

  lemma KeepDrain(s: State, at: seq<Place>, w: nat) returns (at': seq<Place>)
    requires Inv(s, at) && WorkEnabled(s, w, Drain)
    ensures Inv(DoWork(s, w, Drain), at') && QueuesStay(at, at')
  {
    var k, s' := s.wk[w], DoWork(s, w, Drain);
    at' := seq(|at|, g requires 0 <= g < |at| => if at[g] == Ready(w) then Drained(w) else at[g]);
    assert WorkerOk(k, at, w);
    DrainWorker(k, at, at', w);
    WorkersButOne(s, s', at, at', Ready(w), Drained(w), w);
    KeepMany(s, s', at, at', Ready(w), Drained(w));
  }

  lemma DrainWorker(k: Worker, at: seq<Place>, at': seq<Place>, w: nat)
    requires WorkerOk(k, at, w) && k.drained == multiset{} && Shift(at, at', Ready(w), Drained(w))
    requires forall g :: 0 <= g < |at| ==> at'[g] != Ready(w)
    ensures WorkerOk(k.(ready := multiset{}, drained := k.ready), at', w)
  {
    WorkerParts(k, at, at', Ready(w), Drained(w), w);
    assert Bag(k.drained, at, Drained(w)) && Bag(k.ready, at, Ready(w));
    forall f: nat ensures k.ready[f] == if f < |at'| && at'[f] == Drained(w) then 1 else 0 {
      assert k.drained[f] == 0;
    }
  }

  ghost function UnloadPlaces(at: seq<Place>, w: nat): (r: seq<Place>)
    ensures |r| == |at| && forall g :: 0 <= g < |at| ==> r[g] == if at[g] == Stolen(w) then Local(w) else at[g]
  {
    seq(|at|, g requires 0 <= g < |at| => if at[g] == Stolen(w) then Local(w) else at[g])
  }

  lemma KeepUnload(s: State, at: seq<Place>, w: nat) returns (at': seq<Place>)
    requires Inv(s, at) && WorkEnabled(s, w, Unload)
    ensures Inv(DoWork(s, w, Unload), at') && at' == UnloadPlaces(at, w)
  {
    var k, s' := s.wk[w], DoWork(s, w, Unload);
    at' := UnloadPlaces(at, w);
    assert WorkerOk(k, at, w);
    UnloadWorker(k, at, at', w);
    WorkersButOne(s, s', at, at', Stolen(w), Local(w), w);
    KeepMany(s, s', at, at', Stolen(w), Local(w));
  }

  lemma UnloadWorker(k: Worker, at: seq<Place>, at': seq<Place>, w: nat)
    requires WorkerOk(k, at, w) && Shift(at, at', Stolen(w), Local(w))
    requires forall g :: 0 <= g < |at| ==> at'[g] != Stolen(w)
    ensures WorkerOk(k.(local := k.local + k.stolen, stolen := multiset{}), at', w)
  {
    WorkerParts(k, at, at', Stolen(w), Local(w), w);
    assert Bag(k.local, at, Local(w)) && Bag(k.stolen, at, Stolen(w));
    forall f: nat ensures (k.local + k.stolen)[f] == if f < |at'| && at'[f] == Local(w) then 1 else 0 {
      assert k.local[f] + k.stolen[f] == (k.local + k.stolen)[f];
    }
  }

  lemma KeepSteal(s: State, at: seq<Place>, w: nat, v: nat, part: multiset<nat>) returns (at': seq<Place>)
    requires Inv(s, at) && WorkEnabled(s, w, Steal(v, part))
    ensures Inv(DoWork(s, w, Steal(v, part)), at') && at' == StealPlaces(at, w, part)
  {
    var s' := DoWork(s, w, Steal(v, part));
    at' := StealPlaces(at, w, part);
    assert Shift(at, at', Local(v), Stolen(w)) by {
      assert WorkerOk(s.wk[v], at, v);
      StealShift(s.wk[v], at, at', w, v, part);
    }
    assert WorkersOk(s', at') by { StealWorkers(s, at, at', w, v, part); }
    StealRunsOn(s, w, v, part);
    KeepMany(s, s', at, at', Local(v), Stolen(w));
  }

  lemma StealRunsOn(s: State, w: nat, v: nat, part: multiset<nat>)
    requires WorkEnabled(s, w, Steal(v, part))
    ensures var s' := DoWork(s, w, Steal(v, part));
      && s' == s.(wk := s'.wk) && forall u :: 0 <= u < |s.wk| ==> s'.wk[u].cur == s.wk[u].cur && s'.wk[u].pc == s.wk[u].pc
  {
  }

  ghost function StealPlaces(at: seq<Place>, w: nat, part: multiset<nat>): (r: seq<Place>)
    ensures Taken(at, r, w, part)
  {
    seq(|at|, g requires 0 <= g < |at| => if g in part then Stolen(w) else at[g])
  }

  lemma StealWorkers(s: State, at: seq<Place>, at': seq<Place>, w: nat, v: nat, part: multiset<nat>)
    requires WorkersOk(s, at) && WorkEnabled(s, w, Steal(v, part)) && Taken(at, at', w, part)
    requires Shift(at, at', Local(v), Stolen(w))
    ensures WorkersOk(DoWork(s, w, Steal(v, part)), at')
  {
    var s' := DoWork(s, w, Steal(v, part));
    forall u | 0 <= u < |s.wk| ensures WorkerOk(s'.wk[u], at', u) {
      assert WorkerOk(s.wk[u], at, u);
      if u == w {
        assert WorkerOk(s.wk[v], at, v);
        StealThief(s.wk[w], s.wk[v], at, at', w, v, part);
      } else if u == v {
        StealVictim(s.wk[v], at, at', w, v, part);
      } else {
        BagsOfKept(s.wk[u], s'.wk[u], at, at', Local(v), Stolen(w), u);
        SlotsOfKept(s.wk[u], s'.wk[u], at, at', Local(v), Stolen(w), u);
      }
    }
  }

  ghost predicate Taken(at: seq<Place>, at': seq<Place>, w: nat, part: multiset<nat>) {
    |at'| == |at| && forall g :: 0 <= g < |at| ==> at'[g] == if g in part then Stolen(w) else at[g]
  }

  lemma StealShift(k: Worker, at: seq<Place>, at': seq<Place>, w: nat, v: nat, part: multiset<nat>)
    requires Bag(k.local, at, Local(v)) && part <= k.local && Taken(at, at', w, part)
    ensures Shift(at, at', Local(v), Stolen(w))
    ensures forall f: nat :: part[f] == if f < |at| && at[f] == Local(v) && f in part then 1 else 0
  {
    forall f: nat ensures part[f] == if f < |at| && at[f] == Local(v) && f in part then 1 else 0 {
      assert part[f] <= k.local[f];
    }
    forall g | 0 <= g < |at| && at'[g] != at[g] ensures at[g] == Local(v) {
      assert part[g] > 0;
    }
  }

  lemma StealVictim(k: Worker, at: seq<Place>, at': seq<Place>, w: nat, v: nat, part: multiset<nat>)
    requires WorkerOk(k, at, v) && part <= k.local && Taken(at, at', w, part) && w != v
    ensures WorkerOk(k.(local := k.local - part), at', v)
  {
    StealShift(k, at, at', w, v, part);
    WorkerParts(k, at, at', Local(v), Stolen(w), v);
    assert Bag(k.local, at, Local(v));
    forall f: nat ensures (k.local - part)[f] == if f < |at'| && at'[f] == Local(v) then 1 else 0 {
      assert (k.local - part)[f] == k.local[f] - part[f];
    }
  }

  lemma StealThief(k: Worker, kv: Worker, at: seq<Place>, at': seq<Place>, w: nat, v: nat, part: multiset<nat>)
    requires WorkerOk(k, at, w) && w != v
    requires Bag(kv.local, at, Local(v)) && part <= kv.local && Taken(at, at', w, part)
    ensures WorkerOk(k.(stolen := k.stolen + part), at', w)
  {
    StealShift(kv, at, at', w, v, part);
    WorkerParts(k, at, at', Local(v), Stolen(w), w);
    assert Bag(k.stolen, at, Stolen(w));
    forall f: nat ensures (k.stolen + part)[f] == if f < |at'| && at'[f] == Stolen(w) then 1 else 0 {
      assert (k.stolen + part)[f] == k.stolen[f] + part[f];
    }
  }

  // ---------------------------------------------------------------------
  // Starting a task
  // ---------------------------------------------------------------------

  /** The old runnext makes room. */
  lemma KeepDisplace(s: State, at: seq<Place>, w: nat) returns (at': seq<Place>)
    requires Inv(s, at) && Running(s, w, Task) && s.wk[w].displaced == None
    ensures Inv(SetW(s, w, s.wk[w].(runnext := None, displaced := s.wk[w].runnext)), at')
    ensures Shift(at, at', Next(w), Displaced(w)) && QueuesStay(at, at')
  {
    var k := s.wk[w];
    if k.runnext == None {
      at' := at;
      assert s.wk == s.wk[w := k];
      return;
    }
    var f := k.runnext.value;
    assert WorkerOk(k, at, w);
    at' := at[f := Displaced(w)];
    SlotEmptied(k.runnext, at, f, Next(w), Displaced(w));
    SlotFilled(at, f, Displaced(w));
    WorkerParts(k, at, at', Next(w), Displaced(w), w);
    KeepInside(s, SetW(s, w, k.(runnext := None, displaced := k.runnext)), at, at', f, w);
  }

  /** A fiber from p, prepared and put into the empty runnext slot of w. */
  lemma KeepStart(s: State, s': State, at: seq<Place>, at': seq<Place>, f: nat, w: nat)
    requires Inv(s, at) && w < |s.wk| && f < |at| && at' == at[f := Next(w)] && |s'.wk| == |s.wk| && |s'.fib| == |s.fib|
    requires at[f] == Unborn || at[f] == Pooled || at[f] == Spare(w)
    requires s'.wk == s.wk[w := s'.wk[w]] && s'.wk[w].cur == s.wk[w].cur && s'.wk[w].pc == s.wk[w].pc == InFiber
    requires s'.fib == s.fib[f := s.fib[f].(home := None, saved := true, state := RUNNABLE, stage := Task)]
    requires s'.global == s.global && Bags(s', at') && WorkerOk(s'.wk[w], at', w)
    ensures Inv(s', at')
  {
    assert Away(s, f, w) by { AwayFrom(s, at, f, w); }
    assert WorkersOk(s', at') by { WorkersButOne(s, s', at, at', at[f], Next(w), w); }
    assert FiberOk(s', at', f) by { assert FiberOk(s, at, f); }
    assert CurOk(s', at', w) by { StartCur(s, s', at, at', f, w); }
    assert FibersOk(s', at') by { OthersKept(s, s', at, at', f, w); }
    assert CursOk(s', at') by { CursKept(s, s', at, at', f, w); }
  }

  lemma StartCur(s: State, s': State, at: seq<Place>, at': seq<Place>, f: nat, w: nat)
    requires |at| == |s.fib| == |s'.fib| && w < |s.wk| == |s'.wk| && f < |at| && at' == at[f := Next(w)] && CurOk(s, at, w)
    requires at[f] == Unborn || at[f] == Pooled || at[f] == Spare(w)
    requires s'.fib == s.fib[f := s'.fib[f]] && s'.wk[w].cur == s.wk[w].cur && s'.wk[w].pc == s.wk[w].pc == InFiber
    ensures CurOk(s', at', w)
  {
  }

  lemma KeepSpare(s: State, at: seq<Place>, w: nat) returns (at': seq<Place>)
    requires Inv(s, at) && SpawnEnabled(s, w, FromSpare)
    ensures Inv(DoSpawn(s, w, FromSpare), at') && QueuesStay(at, at')
  {
    var at1 := KeepDisplace(s, at, w);
    var s1 := SetW(s, w, s.wk[w].(runnext := None, displaced := s.wk[w].runnext));
    var f := s.wk[w].spare.value;
    at' := KeepOwn(s1, DoSpawn(s, w, FromSpare), at1, f, w);
    StayOne(at1, f, Next(w));
    StayTwice(at, at1, at');
  }

  lemma KeepOwn(s: State, s': State, at: seq<Place>, f: nat, w: nat) returns (at': seq<Place>)
    requires Inv(s, at) && w < |s.wk| && s.wk[w].spare == Some(f) && f < |s.fib|
    requires s.wk[w].pc == InFiber && s.wk[w].runnext == None
    requires s'.wk == s.wk[w := s.wk[w].(runnext := Some(f), spare := None)]
    requires s'.fib == s.fib[f := s.fib[f].(home := None, saved := true, state := RUNNABLE, stage := Task)]
    requires SameShared(s, s')
    ensures Inv(s', at') && f < |at| && at[f] == Spare(w) && at' == at[f := Next(w)]
  {
    assert at[f] == Spare(w) by { assert WorkerOk(s.wk[w], at, w); }
    at' := at[f := Next(w)];
    assert WorkerOk(s'.wk[w], at', w) by {
      assert WorkerOk(s.wk[w], at, w);
      SpareToNext(s.wk[w], at, f, w);
    }
    assert Bags(s', at') by { NoShared(s, s', at, at', Spare(w), Next(w)); }
    KeepStart(s, s', at, at', f, w);
  }

  lemma SpareToNext(k: Worker, at: seq<Place>, f: nat, w: nat)
    requires WorkerOk(k, at, w) && k.runnext == None && k.spare == Some(f)
    ensures f < |at| && WorkerOk(k.(runnext := Some(f), spare := None), at[f := Next(w)], w)
  {
    SlotEmptied(k.spare, at, f, Spare(w), Next(w));
    SlotFilled(at, f, Next(w));
    WorkerParts(k, at, at[f := Next(w)], Spare(w), Next(w), w);
  }

  lemma FreeToNext(k: Worker, at: seq<Place>, f: nat, w: nat)
    requires WorkerOk(k, at, w) && k.runnext == None && f < |at| && OwnerOf(at[f]) == None
    ensures WorkerOk(k.(runnext := Some(f)), at[f := Next(w)], w)
  {
    SlotFilled(at, f, Next(w));
    WorkerParts(k, at, at[f := Next(w)], at[f], Next(w), w);
  }

  lemma KeepFresh(s: State, at: seq<Place>, w: nat, f: nat, a: SpawnStep) returns (at': seq<Place>)
    requires Inv(s, at) && SpawnEnabled(s, w, a) && (a == FromPool(f) || a == FromNew(f))
    ensures Inv(DoSpawn(s, w, a), at') && QueuesStay(at, at')
  {
    var at1 := KeepDisplace(s, at, w);
    var s1 := SetW(s, w, s.wk[w].(runnext := None, displaced := s.wk[w].runnext));
    assert f < |at1| && at1[f] == if a.FromPool? then Pooled else Unborn by {
      if a.FromPool? { BagHas(s.pool, at, Pooled, f); } else { BagHas(s.unborn, at, Unborn, f); }
    }
    at' := at1[f := Next(w)];
    KeepFree(s1, DoSpawn(s, w, a), at1, f, w);
    StayOne(at1, f, Next(w));
    StayTwice(at, at1, at');
  }

  lemma KeepFree(s: State, s': State, at: seq<Place>, f: nat, w: nat)
    requires Inv(s, at) && w < |s.wk| && f < |at| && (at[f] == Pooled || at[f] == Unborn)
    requires s.wk[w].pc == InFiber && s.wk[w].runnext == None
    requires s'.wk == s.wk[w := s.wk[w].(runnext := Some(f))]
    requires s'.fib == s.fib[f := s.fib[f].(home := None, saved := true, state := RUNNABLE, stage := Task)]
    requires SameShared(s.(pool := s'.pool, unborn := s'.unborn), s')
    requires s'.pool == (if at[f] == Pooled then s.pool - multiset{f} else s.pool)
    requires s'.unborn == (if at[f] == Unborn then s.unborn - multiset{f} else s.unborn)
    ensures Inv(s', at[f := Next(w)])
  {
    var at' := at[f := Next(w)];
    assert WorkerOk(s'.wk[w], at', w) by {
      assert WorkerOk(s.wk[w], at, w);
      FreeToNext(s.wk[w], at, f, w);
    }
    assert Bags(s', at') by { FreshBags(s, s', at, f, w, at[f]); }
    KeepStart(s, s', at, at', f, w);
  }

  lemma FreshBags(s: State, s': State, at: seq<Place>, f: nat, w: nat, p: Place)
    requires |at| == |s.fib| == |s'.fib| && Bags(s, at) && f < |at| && at[f] == p && (p == Pooled || p == Unborn)
    requires s'.fib == s.fib[f := s'.fib[f]]
    requires SameShared(s.(pool := s'.pool, unborn := s'.unborn), s')
    requires s'.pool == (if p == Pooled then s.pool - multiset{f} else s.pool)
    requires s'.unborn == (if p == Unborn then s.unborn - multiset{f} else s.unborn)
    ensures Bags(s', at[f := Next(w)])
  {
    BagsKept(s, s'.fib, at, at[f := Next(w)], p, Next(w));
    if p == Pooled { BagLess(s.pool, at, f, p, Next(w)); } else { BagLess(s.unborn, at, f, p, Next(w)); }
  }

  // ---------------------------------------------------------------------
  // Every run
  // ---------------------------------------------------------------------

  lemma KeepWork(s: State, at: seq<Place>, w: nat, a: LoopStep) returns (at': seq<Place>)
    requires Inv(s, at) && WorkEnabled(s, w, a)
    ensures Inv(DoWork(s, w, a), at')
  {
    match a
    case Drain => at' := KeepDrain(s, at, w);
    case Queue(f) => at' := KeepQueue(s, at, w, f);
    case PickNext => at' := KeepPickNext(s, at, w);
    case FoldNext => at' := KeepFoldNext(s, at, w);
    case PickLocal(f) => at' := KeepPickLocal(s, at, w, f);
    case PickGlobal(f) => assert false;
    case Steal(v, part) => at' := KeepSteal(s, at, w, v, part);
    case Unload => at' := KeepUnload(s, at, w);
    case Resume => at' := KeepResume(s, at, w);
    case Check => at' := KeepCheck(s, at, w);
  }

  /** Every step keeps every fiber in exactly one place. */
  lemma Keep(s: State, at: seq<Place>, a: Action) returns (at': seq<Place>)
    requires Inv(s, at) && Enabled(s, a)
    ensures Inv(Do(s, a), at')
  {
    match a
    case Wait(w, x) => at' := KeepWait(s, at, w, x);
    case Unpark(f, x) => at' := KeepUnpark(s, at, f, x);
    case Work(w, x) => at' := KeepWork(s, at, w, x);
    case Spawn(w, x) =>
      match x {
        case FromSpare => at' := KeepSpare(s, at, w);
        case FromPool(f) => at' := KeepFresh(s, at, w, f, x);
        case FromNew(f) => at' := KeepFresh(s, at, w, f, x);
        case Requeue => at' := KeepRequeue(s, at, w);
      }
  }

  lemma {:induction false} KeepRun(s: State, at: seq<Place>, acts: seq<Action>)
    requires Inv(s, at) && Exec(s, acts).Reached?
    ensures Safe(Exec(s, acts).s)
    decreases |acts|
  {
    if acts == [] {
      InvSafe(s, at);
    } else {
      var at' := Keep(s, at, acts[0]);
      KeepRun(Do(s, acts[0]), at', acts[1..]);
    }
  }

  /** With run queues that are atomic bags, in every state of every run, on any
      number of workers and fibers: no fiber is current on two workers, none is
      switched to before its own switch-out has finished, every fiber on a ready list
      is at home there, parks and unparks match one to one, and the global queue is
      empty. */
  lemma EveryRunIsSafe(s: State, acts: seq<Action>)
    requires Init(s) && Exec(s, acts).Reached?
    ensures Safe(Exec(s, acts).s)
  {
    var at := InitInv(s);
    KeepRun(s, at, acts);
  }
}
