/**
 The scheduler on its lock-free run queues (runtime/rt_sched.c).

 In the module Scheduler a run queue is an atomic bag.  Here the same workers and
 fibers run on the queues of the module RunQueue: a push, a pop, the priority scan
 and a steal are made of their single atomic accesses, and everything else a worker
 or another thread does may fall between any two of them.  A fiber's address is its
 number plus one.

 The bags `local` and `stolen` of a worker, and the sets `hand` of the queues, are
 kept up as a record of what the queues have handed out.  No step reads them.
 */
module Workers {
  import opened Options
  import opened Links
  import S = Scheduler
  import R = RunQueue

  /** What a worker is pushing: an unparked fiber, its old runnext slot, or the fiber
      that a spawn has displaced from there. */
  datatype Source = Drained | Next | Displaced

  datatype State = State(s: S.State, r: R.State, from: seq<Source>)

  datatype Action =
    | Away(a: S.Action)                        // a step that touches no run queue
    | Push(w: nat, f: nat, from: Source)       // the worker enters a queue operation
    | Pop(w: nat)
    | Steal(w: nat, v: nat)
    | Step(w: nat)                             // the next atomic access of the operation
    | Scan(w: nat, l: seq<Ptr>)
    | CasFails(w: nat)
    | SetPriority(f: nat, p: int)
    | Relink(f: nat, v: Ptr)                   // the link of a fiber that is on no run queue

  // ---------------------------------------------------------------------
  // The steps
  // ---------------------------------------------------------------------

  predicate OffQueue(a: S.Action) {
    match a
    case Wait(_, _) => true
    case Unpark(_, _) => true
    case Work(_, x) => x.Drain? || x.PickNext? || x.PickGlobal? || x.Resume? || x.Check?
    case Spawn(_, x) => !x.Requeue?
  }

  /** The worker whose own code takes the step, if it is one. */
  function Actor(a: S.Action): Option<nat> { if a.Unpark? then None else Some(a.w) }

  predicate Sizes(c: State) {
    |c.s.wk| == |c.r.pc| == |c.r.head| == |c.r.hand| == |c.from| && |c.r.next| == |c.s.fib| + 1
  }

  predicate Free(c: State, w: nat) { w < |c.r.pc| && c.r.pc[w].Idle? }

  predicate AwayEnabled(c: State, a: S.Action) {
    && OffQueue(a) && S.Enabled(c.s, a)
    && (Actor(a).Some? ==> Free(c, Actor(a).value))
    && (a.Work? && a.work.PickNext? ==> !c.r.prioUsed)
  }

  predicate MayPush(k: S.Worker, f: nat, from: Source) {
    match from
    case Drained => k.pc == S.Loop && f in k.drained
    case Next => k.pc == S.Loop && k.drained == multiset{} && k.runnext == Some(f)
    case Displaced => k.pc == S.InFiber && k.displaced == Some(f)
  }

  predicate PushEnabled(c: State, w: nat, f: nat, from: Source)
    requires Sizes(c)
  {
    Free(c, w) && f < |c.s.fib| && MayPush(c.s.wk[w], f, from) && (from.Next? ==> c.r.prioUsed)
  }

  /** Not on a run queue, nor on the way to one or from one. */
  ghost predicate Loose(s: S.State, f: nat) {
    || f in s.unborn || f in s.pool || f in s.claimed || f in s.marked || (exists h :: (f, h) in s.routed)
    || (exists w :: 0 <= w < |s.wk| && (f in s.wk[w].ready || s.wk[w].spare == Some(f)))
  }

  ghost predicate Enabled(c: State, a: Action) {
    && Sizes(c)
    && match a
       case Away(x) => AwayEnabled(c, x)
       case Push(w, f, from) => PushEnabled(c, w, f, from)
       case Pop(w) => Free(c, w) && S.Idle(c.s, w)
       case Steal(w, v) => Free(c, w) && S.Idle(c.s, w) && v < |c.s.wk| && v != w
       case Step(w) => R.Enabled(c.r, R.Step(w))
       case Scan(w, l) => R.Enabled(c.r, R.Scan(w, l))
       case CasFails(w) => R.Enabled(c.r, R.CasFails(w))
       case SetPriority(f, p) => R.Enabled(c.r, R.SetPriority(f + 1, p))
       case Relink(f, v) => Loose(c.s, f)
  }

  /** Whoever held the fiber, w does now. */
  ghost function Grab(r: R.State, w: nat, x: Ptr): R.State {
    r.(hand := seq(|r.hand|, u requires 0 <= u < |r.hand| => if u == w then r.hand[u] + {x} else r.hand[u] - {x}))
  }

  function Queued(s: S.State, w: nat, f: nat, from: Source): S.State
    requires w < |s.wk|
  {
    match from
    case Drained => S.FromDrained(s, w, f)
    case Next => S.FromNext(s, w, f)
    case Displaced => S.FromDisplaced(s, w, f)
  }

  /** A push is done with its swap, so is a pop, and a steal with the push of what
      was stolen. */
  ghost function StepEffect(c: State, w: nat): S.State
    requires Sizes(c) && R.Enabled(c.r, R.Step(w))
  {
    match c.r.pc[w]
    case PushCas(x, h) => if c.r.head[w] == h && x > 0 then Queued(c.s, w, x - 1, c.from[w]) else c.s
    case PopCas(h, _) => if c.r.head[w] == h && h > 0 then S.Took(c.s, w, h - 1) else c.s
    case ListCas(_, _, again, h) => if c.r.head[w] == h && again then S.Unloaded(c.s, w) else c.s
    case _ => c.s
  }

  function Numbers(l: seq<Ptr>): seq<nat> { seq(|l|, i requires 0 <= i < |l| => if l[i] > 0 then l[i] - 1 else 0) }

  function Kept(l: seq<Ptr>): seq<Ptr> { if |l| < 2 then l else l[..|l| / 2] }

  /** The scan takes the best fiber, or the thief the newer half. */
  ghost function ScanEffect(c: State, w: nat, l: seq<Ptr>): S.State
    requires Sizes(c) && R.Enabled(c.r, R.Scan(w, l))
  {
    if c.r.pc[w].BestScan? then S.Took(c.s, w, Numbers(l)[R.BestIndex(c.r.priority, l)])
    else if c.r.pc[w].v < |c.s.wk| then S.Stole(c.s, w, c.r.pc[w].v, multiset(Numbers(Kept(l))))
    else c.s
  }

  ghost function Do(c: State, a: Action): State
    requires Enabled(c, a)
  {
    match a
    case Away(x) => c.(s := S.Do(c.s, x))
    case Push(w, f, from) => c.(r := R.At(Grab(c.r, w, f + 1), w, R.PushLoad(f + 1)), from := c.from[w := from])
    case Pop(w) => c.(r := R.Do(c.r, R.BeginPop(w)))
    case Steal(w, v) => c.(r := R.Do(c.r, R.BeginSteal(w, v)))
    case Step(w) => c.(s := StepEffect(c, w), r := R.Do(c.r, R.Step(w)))
    case Scan(w, l) => c.(s := ScanEffect(c, w, l), r := R.Do(c.r, R.Scan(w, l)))
    case CasFails(w) => c.(r := R.Do(c.r, R.CasFails(w)))
    case SetPriority(f, p) => c.(r := R.Do(c.r, R.SetPriority(f + 1, p)))
    case Relink(f, v) => c.(r := c.r.(next := R.Store(c.r.next, f + 1, v)))
  }

  /** n workers at the start of the program, with the priority flag as given. */
  ghost predicate Init(c: State, n: nat, prio: bool) {
    Sizes(c) && S.Init(c.s) && R.Init(c.r, n, prio)
  }

  datatype Outcome = Blocked | Reached(c: State)

  ghost function Exec(c: State, acts: seq<Action>): Outcome
    decreases |acts|
  {
    if acts == [] then Reached(c)
    else if !Enabled(c, acts[0]) then Blocked
    else Exec(Do(c, acts[0]), acts[1..])
  }

  // ---------------------------------------------------------------------
  // The queues and the scheduler agree
  // ---------------------------------------------------------------------

  /** What the fibers on a detached list are to the scheduler. */
  function ListPlace(pc: R.Pc, w: nat): Option<S.Place> {
    match pc
    case StealSplit(v, _) => Some(S.Local(v))
    case BackLoad(_, _, _, _, _) => Some(S.Stolen(w))
    case BackStore(_, _, _, _, _, _) => Some(S.Stolen(w))
    case BackCas(_, _, _, _, _, _) => Some(S.Stolen(w))
    case BestScan(_) => Some(S.Local(w))
    case ListLoad(_, _, again) => Some(if again then S.Stolen(w) else S.Local(w))
    case ListStore(_, _, again, _) => Some(if again then S.Stolen(w) else S.Local(w))
    case ListCas(_, _, again, _) => Some(if again then S.Stolen(w) else S.Local(w))
    case _ => None
  }

  /** The scheduler's place of a fiber that the queues have at l, if they have it. */
  function PlaceFor(pcs: seq<R.Pc>, l: R.Loc): Option<S.Place> {
    match l
    case InHand(_) => None
    case InQueue(v) => Some(S.Local(v))
    case InList(w) => if w < |pcs| then ListPlace(pcs[w], w) else None
    case InRest(w) => if w < |pcs| && R.PuttingBack(pcs[w]) then Some(S.Local(pcs[w].v)) else None
  }

  predicate Fits(o: Option<S.Place>, p: S.Place) { if o.Some? then p == o.value else S.OffQueues(p) }

  ghost predicate Agree(pcs: seq<R.Pc>, loc: seq<R.Loc>, at: seq<S.Place>) {
    |loc| == |at| + 1 && forall f :: 0 <= f < |at| ==> Fits(PlaceFor(pcs, loc[f + 1]), at[f])
  }

  /** A worker inside a queue operation has not moved on. */
  predicate Phase(pc: R.Pc, k: S.Worker, from: Source) {
    match pc
    case Idle => true
    case PushLoad(x) => x > 0 && MayPush(k, x - 1, from)
    case PushStore(x, _) => x > 0 && MayPush(k, x - 1, from)
    case PushCas(x, _) => x > 0 && MayPush(k, x - 1, from)
    case PopClear(x) => x > 0 && k.pc == S.Picked(x - 1)
    case ListLoad(_, _, again) => if again then AtLoop(k) else k.pc.Picked?
    case ListStore(_, _, again, _) => if again then AtLoop(k) else k.pc.Picked?
    case ListCas(_, _, again, _) => if again then AtLoop(k) else k.pc.Picked?
    case _ => AtLoop(k)
  }

  predicate AtLoop(k: S.Worker) { k.pc == S.Loop && k.drained == multiset{} }

  ghost predicate Phases(pcs: seq<R.Pc>, wk: seq<S.Worker>, from: seq<Source>)
  {
    |pcs| == |wk| == |from| && forall w :: 0 <= w < |pcs| ==> Phase(pcs[w], wk[w], from[w])
  }

  ghost predicate Inv(c: State, p: R.Places, at: seq<S.Place>) {
    && Sizes(c) && R.Inv(c.r, p) && S.Inv(c.s, at)
    && Agree(c.r.pc, p.loc, at) && Phases(c.r.pc, c.s.wk, c.from)
  }

  // ---------------------------------------------------------------------
  // What the queues' own invariant says about lists
  // ---------------------------------------------------------------------

  /** Fibers are on a list only of a worker that has one. */
  ghost predicate Sound(pcs: seq<R.Pc>, loc: seq<R.Loc>) {
    forall x :: 0 < x < |loc| ==> SoundAt(pcs, loc[x])
  }

  predicate SoundAt(pcs: seq<R.Pc>, l: R.Loc) {
    && l.w < |pcs|
    && (l.InList? ==> ListPlace(pcs[l.w], l.w).Some?)
    && (l.InRest? ==> R.PuttingBack(pcs[l.w]))
  }

  lemma PlacedSound(r: R.State, p: R.Places)
    requires R.Placed(r, p)
    ensures Sound(r.pc, p.loc)
  {
    forall x | 0 < x < |p.loc| ensures SoundAt(r.pc, p.loc[x]) {
      var w := p.loc[x].w;
      assert R.PlacedAt(r, p, w);
      if p.loc[x].InList? { assert x in p.list[w]; }
      if p.loc[x].InRest? { assert x in p.rest[w]; }
    }
  }

  /** A fiber that is on no queue or list is in the hand of its worker. */
  lemma Held(r: R.State, p: R.Places, at: seq<S.Place>, f: nat) returns (u: nat)
    requires R.Placed(r, p) && Agree(r.pc, p.loc, at) && f < |at| && S.OffQueues(at[f])
    ensures u < |r.pc| && f + 1 < |p.loc| && p.loc[f + 1] == R.InHand(u) && f + 1 in r.hand[u]
  {
    PlacedSound(r, p);
    assert SoundAt(r.pc, p.loc[f + 1]) && Fits(PlaceFor(r.pc, p.loc[f + 1]), at[f]);
    u := p.loc[f + 1].w;
  }

  // ---------------------------------------------------------------------
  // The agreement, step by step
  // ---------------------------------------------------------------------

  /** Nothing moves, and the worker's list stays what it is. */
  lemma AgreeStill(pcs: seq<R.Pc>, loc: seq<R.Loc>, at: seq<S.Place>, w: nat, pc: R.Pc)
    requires Agree(pcs, loc, at) && Sound(pcs, loc) && w < |pcs|
    requires ListPlace(pcs[w], w).Some? ==> ListPlace(pc, w) == ListPlace(pcs[w], w)
    requires R.PuttingBack(pcs[w]) ==> R.PuttingBack(pc) && pc.v == pcs[w].v
    ensures Agree(pcs[w := pc], loc, at)
  {
    forall f | 0 <= f < |at| ensures Fits(PlaceFor(pcs[w := pc], loc[f + 1]), at[f]) {
      assert SoundAt(pcs, loc[f + 1]) && Fits(PlaceFor(pcs, loc[f + 1]), at[f]);
    }
  }

  /** All fibers at one place move to another that means the same. */
  lemma AgreeMove(pcs: seq<R.Pc>, loc: seq<R.Loc>, at: seq<S.Place>, w: nat, pc: R.Pc, a: R.Loc, b: R.Loc)
    requires Agree(pcs, loc, at) && Sound(pcs, loc) && w < |pcs|
    requires PlaceFor(pcs[w := pc], b) == PlaceFor(pcs, a)
    requires a != R.InList(w) && ListPlace(pcs[w], w).Some? ==> ListPlace(pc, w) == ListPlace(pcs[w], w)
    requires a != R.InRest(w) && R.PuttingBack(pcs[w]) ==> R.PuttingBack(pc) && pc.v == pcs[w].v
    ensures Agree(pcs[w := pc], R.Move(loc, a, b), at)
  {
    forall f | 0 <= f < |at| ensures Fits(PlaceFor(pcs[w := pc], R.Move(loc, a, b)[f + 1]), at[f]) {
      assert SoundAt(pcs, loc[f + 1]) && Fits(PlaceFor(pcs, loc[f + 1]), at[f]);
    }
  }

  /** One fiber moves, with the queues and with the scheduler. */
  lemma AgreeOne(pcs: seq<R.Pc>, loc: seq<R.Loc>, at: seq<S.Place>, w: nat, pc: R.Pc, f: nat, l: R.Loc, q: S.Place)
    requires Agree(pcs, loc, at) && Sound(pcs, loc) && w < |pcs| && f < |at|
    requires Fits(PlaceFor(pcs[w := pc], l), q)
    requires forall g {:trigger at[g]} :: 0 <= g < |at| && g != f && loc[g + 1] == R.InList(w) ==> ListPlace(pc, w) == ListPlace(pcs[w], w)
    requires R.PuttingBack(pcs[w]) ==> R.PuttingBack(pc) && pc.v == pcs[w].v
    ensures Agree(pcs[w := pc], loc[f + 1 := l], at[f := q])
  {
    var pcs', loc', at' := pcs[w := pc], loc[f + 1 := l], at[f := q];
    forall g | 0 <= g < |at'| ensures Fits(PlaceFor(pcs', loc'[g + 1]), at'[g]) {
      assert SoundAt(pcs, loc[g + 1]) && Fits(PlaceFor(pcs, loc[g + 1]), at[g]);
    }
  }

  /** The stolen fibers reach the thief's own queue. */
  lemma AgreeUnload(pcs: seq<R.Pc>, loc: seq<R.Loc>, at: seq<S.Place>, w: nat)
    requires Agree(pcs, loc, at) && Sound(pcs, loc) && w < |pcs| && pcs[w].ListCas? && pcs[w].again
    ensures Agree(pcs[w := R.PopStart], R.Move(loc, R.InList(w), R.InQueue(w)), S.UnloadPlaces(at, w))
  {
    var pcs', loc', at' := pcs[w := R.PopStart], R.Move(loc, R.InList(w), R.InQueue(w)), S.UnloadPlaces(at, w);
    forall g | 0 <= g < |at'| ensures Fits(PlaceFor(pcs', loc'[g + 1]), at'[g]) {
      assert SoundAt(pcs, loc[g + 1]) && Fits(PlaceFor(pcs, loc[g + 1]), at[g]);
    }
  }

  /** Part of the detached list becomes the thief's. */
  lemma AgreeSteal(pcs: seq<R.Pc>, loc: seq<R.Loc>, at: seq<S.Place>, w: nat, pc: R.Pc, loc': seq<R.Loc>, part: multiset<nat>)
    requires Agree(pcs, loc, at) && Sound(pcs, loc) && w < |pcs| && pcs[w].StealSplit?
    requires ListPlace(pc, w) == Some(S.Stolen(w)) && (R.PuttingBack(pc) ==> pc.v == pcs[w].v) && |loc'| == |loc|
    requires forall f :: 0 <= f < |at| ==>
      && (f in part ==> loc[f + 1] == R.InList(w) && loc'[f + 1] == R.InList(w))
      && (f !in part ==> if loc[f + 1] == R.InList(w) then loc'[f + 1] == R.InRest(w) && R.PuttingBack(pc) else loc'[f + 1] == loc[f + 1])
    ensures Agree(pcs[w := pc], loc', S.StealPlaces(at, w, part))
  {
    var pcs', at' := pcs[w := pc], S.StealPlaces(at, w, part);
    forall g | 0 <= g < |at'| ensures Fits(PlaceFor(pcs', loc'[g + 1]), at'[g]) {
      assert SoundAt(pcs, loc[g + 1]) && Fits(PlaceFor(pcs, loc[g + 1]), at[g]);
    }
  }

  lemma AgreeStay(pcs: seq<R.Pc>, loc: seq<R.Loc>, at: seq<S.Place>, at': seq<S.Place>)
    requires Agree(pcs, loc, at) && S.QueuesStay(at, at')
    ensures Agree(pcs, loc, at')
  {
  }

  // ---------------------------------------------------------------------
  // Steps that touch no run queue
  // ---------------------------------------------------------------------

  lemma AwayKeeps(s: S.State, at: seq<S.Place>, a: S.Action) returns (at': seq<S.Place>)
    requires S.Inv(s, at) && OffQueue(a) && S.Enabled(s, a)
    ensures S.Inv(S.Do(s, a), at') && S.QueuesStay(at, at')
  {
    match a
    case Wait(w, x) => at' := S.KeepWait(s, at, w, x);
    case Unpark(f, x) => at' := S.KeepUnpark(s, at, f, x);
    case Work(w, x) => at' := AwayWork(s, at, w, x);
    case Spawn(w, x) => at' := AwaySpawn(s, at, w, x);
  }

  lemma AwayWork(s: S.State, at: seq<S.Place>, w: nat, x: S.LoopStep) returns (at': seq<S.Place>)
    requires S.Inv(s, at) && OffQueue(S.Work(w, x)) && S.WorkEnabled(s, w, x)
    ensures S.Inv(S.DoWork(s, w, x), at') && S.QueuesStay(at, at')
  {
    match x
    case Drain => at' := S.KeepDrain(s, at, w);
    case PickNext => at' := S.KeepPickNext(s, at, w);
    case PickGlobal(f) => assert false;
    case Resume => at' := S.KeepResume(s, at, w);
    case Check => at' := S.KeepCheck(s, at, w);
  }

  lemma AwaySpawn(s: S.State, at: seq<S.Place>, w: nat, x: S.SpawnStep) returns (at': seq<S.Place>)
    requires S.Inv(s, at) && !x.Requeue? && S.SpawnEnabled(s, w, x)
    ensures S.Inv(S.DoSpawn(s, w, x), at') && S.QueuesStay(at, at')
  {
    match x
    case FromSpare => at' := S.KeepSpare(s, at, w);
    case FromPool(f) => at' := S.KeepFresh(s, at, w, f, x);
    case FromNew(f) => at' := S.KeepFresh(s, at, w, f, x);
  }

  /** What a queue operation of the worker depends on. */
  predicate SameDesk(k: S.Worker, k': S.Worker) {
    k'.pc == k.pc && k'.drained == k.drained && k'.runnext == k.runnext && k'.displaced == k.displaced
  }

  lemma AwayDesks(s: S.State, a: S.Action, u: nat)
    requires OffQueue(a) && S.Enabled(s, a) && u < |s.wk| && Actor(a) != Some(u)
    ensures SameDesk(s.wk[u], S.Do(s, a).wk[u])
  {
    match a
    case Wait(w, x) =>
    case Unpark(f, x) =>
    case Work(w, x) => WorkDesks(s, w, x, u);
    case Spawn(w, x) => SpawnDesks(s, w, x, u);
  }

  lemma WorkDesks(s: S.State, w: nat, x: S.LoopStep, u: nat)
    requires OffQueue(S.Work(w, x)) && S.WorkEnabled(s, w, x) && u < |s.wk| && u != w
    ensures S.DoWork(s, w, x).wk[u] == s.wk[u]
  {
  }

  lemma SpawnDesks(s: S.State, w: nat, x: S.SpawnStep, u: nat)
    requires !x.Requeue? && S.SpawnEnabled(s, w, x) && u < |s.wk| && u != w
    ensures S.DoSpawn(s, w, x).wk[u] == s.wk[u]
  {
  }

  lemma KeepAway(c: State, p: R.Places, at: seq<S.Place>, a: S.Action) returns (at': seq<S.Place>)
    requires Inv(c, p, at) && Enabled(c, Away(a))
    ensures Inv(Do(c, Away(a)), p, at')
  {
    at' := AwayKeeps(c.s, at, a);
    AgreeStay(c.r.pc, p.loc, at, at');
    var s' := S.Do(c.s, a);
    forall u | 0 <= u < |c.r.pc| ensures Phase(c.r.pc[u], s'.wk[u], c.from[u]) {
      assert Phase(c.r.pc[u], c.s.wk[u], c.from[u]);
      if Actor(a) != Some(u) { AwayDesks(c.s, a, u); }
    }
  }

  // ---------------------------------------------------------------------
  // Entering a queue operation
  // ---------------------------------------------------------------------

  function SourcePlace(from: Source, w: nat): S.Place {
    match from
    case Drained => S.Drained(w)
    case Next => S.Next(w)
    case Displaced => S.Displaced(w)
  }

  lemma SourceOf(s: S.State, at: seq<S.Place>, w: nat, f: nat, from: Source)
    requires S.WorkersOk(s, at) && w < |s.wk| && MayPush(s.wk[w], f, from)
    ensures f < |at| && at[f] == SourcePlace(from, w)
  {
    assert S.WorkerOk(s.wk[w], at, w);
    if from.Drained? { S.BagHas(s.wk[w].drained, at, S.Drained(w), f); }
  }

  /** A fiber being published, or just popped, is where its worker has it. */
  lemma HandledPlace(s: S.State, at: seq<S.Place>, u: nat, pc: R.Pc, from: Source, f: nat)
    requires S.WorkersOk(s, at) && u < |s.wk| && Phase(pc, s.wk[u], from) && R.Handling(pc, f + 1)
    ensures f < |at| && (at[f] == SourcePlace(from, u) || at[f] == S.Chosen(u))
  {
    if pc.PopClear? { S.PickedPlace(s, at, u); } else { SourceOf(s, at, u, f, from); }
  }

  lemma GrabIsGive(r: R.State, p: R.Places, u: nat, w: nat, x: Ptr)
    requires R.Placed(r, p) && u < |r.pc| && w < |r.pc| && 0 < x < |p.loc| && p.loc[x] == R.InHand(u)
    requires R.Enabled(r, R.Give(u, w, x))
    ensures Grab(r, w, x) == R.Do(r, R.Give(u, w, x))
  {
    var a, b := Grab(r, w, x).hand, R.Do(r, R.Give(u, w, x)).hand;
    forall y | 0 <= y < |r.hand| ensures a[y] == b[y] {
      assert R.PlacedAt(r, p, y);
      if y != u && y != w { assert x !in r.hand[y]; }
    }
    assert a == b;
  }

  lemma PushQueues(c: State, p: R.Places, at: seq<S.Place>, w: nat, f: nat, from: Source) returns (p': R.Places)
    requires Inv(c, p, at) && Enabled(c, Push(w, f, from))
    ensures f < |at| && R.Inv(Do(c, Push(w, f, from)).r, p') && p'.loc == p.loc[f + 1 := R.InHand(w)]
  {
    var x := f + 1;
    SourceOf(c.s, at, w, f, from);
    var u := Held(c.r, p, at, f);
    assert !R.Handling(c.r.pc[u], x) by {
      if R.Handling(c.r.pc[u], x) { HandledPlace(c.s, at, u, c.r.pc[u], c.from[u], f); }
    }
    GrabIsGive(c.r, p, u, w, x);
    var p1 := R.Keep(c.r, p, R.Give(u, w, x));
    var r1 := Grab(c.r, w, x);
    p' := R.Keep(r1, p1, R.BeginPush(w, x));
  }

  lemma KeepPush(c: State, p: R.Places, at: seq<S.Place>, w: nat, f: nat, from: Source) returns (p': R.Places)
    requires Inv(c, p, at) && Enabled(c, Push(w, f, from))
    ensures Inv(Do(c, Push(w, f, from)), p', at)
  {
    p' := PushQueues(c, p, at, w, f, from);
    SourceOf(c.s, at, w, f, from);
    PlacedSound(c.r, p);
    assert at[f := at[f]] == at;
    NoList(c, p, at, w);
    AgreeOne(c.r.pc, p.loc, at, w, R.PushLoad(f + 1), f, R.InHand(w), at[f]);
  }

  /** A worker outside the queue operations has no list. */
  lemma NoList(c: State, p: R.Places, at: seq<S.Place>, w: nat)
    requires Sound(c.r.pc, p.loc) && Agree(c.r.pc, p.loc, at) && w < |c.r.pc| && ListPlace(c.r.pc[w], w).None?
    ensures forall g {:trigger at[g]} :: 0 <= g < |at| ==> p.loc[g + 1] != R.InList(w)
  {
    assert forall x :: 0 < x < |p.loc| ==> SoundAt(c.r.pc, p.loc[x]);
  }

  lemma KeepBegin(c: State, p: R.Places, at: seq<S.Place>, a: Action) returns (p': R.Places)
    requires Inv(c, p, at) && Enabled(c, a) && (a.Pop? || a.Steal?)
    ensures Inv(Do(c, a), p', at)
  {
    var b := if a.Pop? then R.BeginPop(a.w) else R.BeginSteal(a.w, a.v);
    p' := R.Keep(c.r, p, b);
    PlacedSound(c.r, p);
    AgreeStill(c.r.pc, p.loc, at, a.w, R.Do(c.r, b).pc[a.w]);
  }

  // ---------------------------------------------------------------------
  // The accesses that move no fiber
  // ---------------------------------------------------------------------

  /** The worker's step leaves its list, its halves and its business as they are. */
  predicate Quiet(pc: R.Pc, pc': R.Pc, w: nat, k: S.Worker, from: Source) {
    && (ListPlace(pc, w).Some? ==> ListPlace(pc', w) == ListPlace(pc, w))
    && (R.PuttingBack(pc) ==> R.PuttingBack(pc') && pc'.v == pc.v)
    && (Phase(pc, k, from) ==> Phase(pc', k, from))
  }

  lemma KeepQuiet(c: State, p: R.Places, at: seq<S.Place>, a: Action, b: R.Action, w: nat) returns (p': R.Places)
    requires Inv(c, p, at) && R.Enabled(c.r, b) && SameLocs(p.loc, R.LocAfter(c.r, p.loc, b)) && w < |c.r.pc|
    requires Enabled(c, a) && Do(c, a) == c.(r := R.Do(c.r, b))
    requires R.Do(c.r, b).pc == c.r.pc[w := R.Do(c.r, b).pc[w]] && Quiet(c.r.pc[w], R.Do(c.r, b).pc[w], w, c.s.wk[w], c.from[w])
    ensures Inv(Do(c, a), p', at)
  {
    p' := R.Keep(c.r, p, b);
    PlacedSound(c.r, p);
    AgreeStill(c.r.pc, p.loc, at, w, R.Do(c.r, b).pc[w]);
    AgreeSame(R.Do(c.r, b).pc, p.loc, p'.loc, at);
  }

  /** The word 0 is no fiber's. */
  ghost predicate SameLocs(loc: seq<R.Loc>, loc': seq<R.Loc>) {
    |loc'| == |loc| && forall x :: 0 < x < |loc| ==> loc'[x] == loc[x]
  }

  lemma AgreeSame(pcs: seq<R.Pc>, loc: seq<R.Loc>, loc': seq<R.Loc>, at: seq<S.Place>)
    requires Agree(pcs, loc, at) && SameLocs(loc, loc')
    ensures Agree(pcs, loc', at)
  {
  }

  lemma RetryIsQuiet(r: R.State, w: nat, k: S.Worker, from: Source)
    requires w < |r.pc| && R.IsCas(r.pc[w])
    ensures R.Retry(r, w).pc == r.pc[w := R.Retry(r, w).pc[w]] && Quiet(r.pc[w], R.Retry(r, w).pc[w], w, k, from)
  {
  }

  /** The steps of the operations that move fibers. */
  predicate Moves(r: R.State, w: nat)
    requires w < |r.pc| == |r.head|
  {
    match r.pc[w]
    case PushCas(_, h) => r.head[w] == h
    case PopCas(h, _) => r.head[w] == h
    case BestXchg => r.head[w] != 0
    case ListCas(_, _, _, h) => r.head[w] == h
    case StealXchg(v) => R.Load(r.head, v) != 0
    case BackCas(v, _, _, _, _, h) => R.Load(r.head, v) == h
    case _ => false
  }

  lemma StepIsQuiet(r: R.State, w: nat, k: S.Worker, from: Source)
    requires R.Enabled(r, R.Step(w)) && !Moves(r, w)
    ensures R.DoStep(r, w).pc == r.pc[w := R.DoStep(r, w).pc[w]] && Quiet(r.pc[w], R.DoStep(r, w).pc[w], w, k, from)
  {
    if R.IsCas(r.pc[w]) { RetryIsQuiet(r, w, k, from); }
  }

  /** An empty queue is detached in vain. */
  lemma NobodyMoves(r: R.State, p: R.Places, w: nat)
    requires R.Inv(r, p) && R.Enabled(r, R.Step(w)) && !Moves(r, w)
    ensures SameLocs(p.loc, R.StepLoc(r, p.loc, w))
  {
    if r.pc[w].BestXchg? { EmptyQueue(r, p, w, R.InList(w)); }
    if r.pc[w].StealXchg? {
      assert R.OwnerSafe(r, p, w);
      EmptyQueue(r, p, r.pc[w].v, R.InList(w));
    }
  }

  lemma EmptyQueue(r: R.State, p: R.Places, v: nat, to: R.Loc)
    requires R.Placed(r, p) && v < |r.pc| && r.head[v] == 0
    ensures SameLocs(p.loc, R.Move(p.loc, R.InQueue(v), to))
  {
    assert R.PlacedAt(r, p, v);
  }

  // ---------------------------------------------------------------------
  // The accesses that move fibers
  // ---------------------------------------------------------------------

  lemma QueuedKeeps(s: S.State, at: seq<S.Place>, w: nat, f: nat, from: Source) returns (at': seq<S.Place>)
    requires S.Inv(s, at) && w < |s.wk| && MayPush(s.wk[w], f, from)
    ensures S.Inv(Queued(s, w, f, from), at') && f < |at| && at' == at[f := S.Local(w)]
  {
    match from
    case Drained => at' := S.KeepQueue(s, at, w, f);
    case Next => at' := S.KeepFoldNext(s, at, w);
    case Displaced => at' := S.KeepRequeue(s, at, w);
  }

  lemma KeepPushed(c: State, p: R.Places, at: seq<S.Place>, w: nat) returns (p': R.Places, at': seq<S.Place>)
    requires Inv(c, p, at) && Enabled(c, Step(w)) && c.r.pc[w].PushCas? && Moves(c.r, w)
    ensures Inv(Do(c, Step(w)), p', at')
  {
    assert Phase(c.r.pc[w], c.s.wk[w], c.from[w]);
    var f := c.r.pc[w].f - 1;
    at' := QueuedKeeps(c.s, at, w, f, c.from[w]);
    p' := R.Keep(c.r, p, R.Step(w));
    PlacedSound(c.r, p);
    PushLinks(c, p, at, w, f);
  }

  lemma PushLinks(c: State, p: R.Places, at: seq<S.Place>, w: nat, f: nat)
    requires Sizes(c) && Agree(c.r.pc, p.loc, at) && Sound(c.r.pc, p.loc) && Phases(c.r.pc, c.s.wk, c.from)
    requires w < |c.r.pc| && c.r.pc[w].PushCas? && f < |at|
    ensures Agree(c.r.pc[w := R.Idle], p.loc[f + 1 := R.InQueue(w)], at[f := S.Local(w)])
    ensures Phases(c.r.pc[w := R.Idle], Queued(c.s, w, f, c.from[w]).wk, c.from)
  {
    NoList(c, p, at, w);
    AgreeOne(c.r.pc, p.loc, at, w, R.Idle, f, R.InQueue(w), S.Local(w));
    OwnDesk(c, Queued(c.s, w, f, c.from[w]), w, R.Idle);
  }

  /** The step of worker w changes no other worker's business. */
  lemma OwnDesk(c: State, s': S.State, w: nat, pc: R.Pc)
    requires Sizes(c) && Phases(c.r.pc, c.s.wk, c.from) && w < |c.s.wk| == |s'.wk|
    requires forall u :: 0 <= u < |c.s.wk| && u != w ==> SameDesk(c.s.wk[u], s'.wk[u])
    requires Phase(pc, s'.wk[w], c.from[w])
    ensures Phases(c.r.pc[w := pc], s'.wk, c.from)
  {
    forall u | 0 <= u < |c.s.wk| ensures Phase(c.r.pc[w := pc][u], s'.wk[u], c.from[u]) {
      assert Phase(c.r.pc[u], c.s.wk[u], c.from[u]);
    }
  }

  lemma TookKeeps(s: S.State, at: seq<S.Place>, w: nat, f: nat) returns (at': seq<S.Place>)
    requires S.Inv(s, at) && w < |s.wk| && AtLoop(s.wk[w]) && f < |at| && at[f] == S.Local(w)
    ensures S.Inv(S.Took(s, w, f), at') && at' == at[f := S.Chosen(w)]
  {
    assert f in s.wk[w].local by {
      assert S.WorkerOk(s.wk[w], at, w);
      assert s.wk[w].local[f] == 1;
    }
    at' := S.KeepPickLocal(s, at, w, f);
  }

  lemma PopHead(r: R.State, p: R.Places, w: nat)
    requires R.Inv(r, p) && w < |r.pc| && r.pc[w].PopCas? && r.head[w] == r.pc[w].h
    ensures 0 < r.pc[w].h < |p.loc| && p.loc[r.pc[w].h] == R.InQueue(w)
  {
    assert R.OwnerSafe(r, p, w) && R.PlacedAt(r, p, w);
    assert p.q[w][0] == r.pc[w].h;
  }

  lemma KeepPopped(c: State, p: R.Places, at: seq<S.Place>, w: nat) returns (p': R.Places, at': seq<S.Place>)
    requires Inv(c, p, at) && Enabled(c, Step(w)) && c.r.pc[w].PopCas? && Moves(c.r, w)
    ensures Inv(Do(c, Step(w)), p', at')
  {
    assert Phase(c.r.pc[w], c.s.wk[w], c.from[w]);
    var h := c.r.pc[w].h;
    PopHead(c.r, p, w);
    var f := h - 1;
    assert Fits(PlaceFor(c.r.pc, p.loc[f + 1]), at[f]);
    at' := TookKeeps(c.s, at, w, f);
    p' := R.Keep(c.r, p, R.Step(w));
    PlacedSound(c.r, p);
    NoList(c, p, at, w);
    AgreeOne(c.r.pc, p.loc, at, w, R.PopClear(h), f, R.InHand(w), S.Chosen(w));
    OwnDesk(c, S.Took(c.s, w, f), w, R.PopClear(h));
  }

  /** A queue is detached or put back, and the scheduler does not notice. */
  lemma KeepMoved(c: State, p: R.Places, at: seq<S.Place>, w: nat, pc: R.Pc, a: R.Loc, b: R.Loc) returns (p': R.Places)
    requires Inv(c, p, at) && Enabled(c, Step(w)) && StepEffect(c, w) == c.s
    requires R.StepLoc(c.r, p.loc, w) == R.Move(p.loc, a, b) && R.DoStep(c.r, w).pc == c.r.pc[w := pc]
    requires PlaceFor(c.r.pc[w := pc], b) == PlaceFor(c.r.pc, a)
    requires a != R.InList(w) && ListPlace(c.r.pc[w], w).Some? ==> ListPlace(pc, w) == ListPlace(c.r.pc[w], w)
    requires a != R.InRest(w) && R.PuttingBack(c.r.pc[w]) ==> R.PuttingBack(pc) && pc.v == c.r.pc[w].v
    requires Phase(pc, c.s.wk[w], c.from[w])
    ensures Inv(Do(c, Step(w)), p', at)
  {
    p' := R.Keep(c.r, p, R.Step(w));
    PlacedSound(c.r, p);
    AgreeMove(c.r.pc, p.loc, at, w, pc, a, b);
    OwnDesk(c, c.s, w, pc);
  }

  lemma KeepUnloaded(c: State, p: R.Places, at: seq<S.Place>, w: nat) returns (p': R.Places, at': seq<S.Place>)
    requires Inv(c, p, at) && Enabled(c, Step(w)) && c.r.pc[w].ListCas? && c.r.pc[w].again && Moves(c.r, w)
    ensures Inv(Do(c, Step(w)), p', at')
  {
    assert Phase(c.r.pc[w], c.s.wk[w], c.from[w]);
    at' := S.KeepUnload(c.s, at, w);
    p' := R.Keep(c.r, p, R.Step(w));
    PlacedSound(c.r, p);
    AgreeUnload(c.r.pc, p.loc, at, w);
    OwnDesk(c, S.Unloaded(c.s, w), w, R.PopStart);
  }

  lemma KeepStep(c: State, p: R.Places, at: seq<S.Place>, w: nat) returns (p': R.Places, at': seq<S.Place>)
    requires Inv(c, p, at) && Enabled(c, Step(w))
    ensures Inv(Do(c, Step(w)), p', at')
  {
    at' := at;
    if !Moves(c.r, w) {
      StepIsQuiet(c.r, w, c.s.wk[w], c.from[w]);
      NobodyMoves(c.r, p, w);
      p' := KeepQuiet(c, p, at, Step(w), R.Step(w), w);
    } else if c.r.pc[w].PushCas? {
      p', at' := KeepPushed(c, p, at, w);
    } else if c.r.pc[w].PopCas? {
      p', at' := KeepPopped(c, p, at, w);
    } else if c.r.pc[w].ListCas? && c.r.pc[w].again {
      p', at' := KeepUnloaded(c, p, at, w);
    } else {
      p' := KeepDetached(c, p, at, w);
    }
  }

  lemma KeepDetached(c: State, p: R.Places, at: seq<S.Place>, w: nat) returns (p': R.Places)
    requires Inv(c, p, at) && Enabled(c, Step(w)) && Moves(c.r, w)
    requires c.r.pc[w].BestXchg? || c.r.pc[w].StealXchg? || c.r.pc[w].BackCas? || (c.r.pc[w].ListCas? && !c.r.pc[w].again)
    ensures Inv(Do(c, Step(w)), p', at)
  {
    assert Phase(c.r.pc[w], c.s.wk[w], c.from[w]);
    assert R.OwnerSafe(c.r, p, w);
    var pc, a, b := DetachedPc(c.r, p.loc, w);
    p' := KeepMoved(c, p, at, w, pc, a, b);
  }

  lemma DetachedPc(r: R.State, loc: seq<R.Loc>, w: nat) returns (pc: R.Pc, a: R.Loc, b: R.Loc)
    requires R.Enabled(r, R.Step(w)) && Moves(r, w) && (r.pc[w].StealXchg? || r.pc[w].BackCas? ==> r.pc[w].v < |r.head|)
    requires r.pc[w].BestXchg? || r.pc[w].StealXchg? || r.pc[w].BackCas? || (r.pc[w].ListCas? && !r.pc[w].again)
    ensures R.StepLoc(r, loc, w) == R.Move(loc, a, b) && R.DoStep(r, w).pc == r.pc[w := pc]
    ensures PlaceFor(r.pc[w := pc], b) == PlaceFor(r.pc, a)
    ensures a != R.InList(w) && ListPlace(r.pc[w], w).Some? ==> ListPlace(pc, w) == ListPlace(r.pc[w], w)
    ensures a != R.InRest(w) ==> !R.PuttingBack(r.pc[w])
    ensures forall k: S.Worker, from: Source :: Phase(r.pc[w], k, from) ==> Phase(pc, k, from)
  {
    match r.pc[w]
    case BestXchg => pc, a, b := R.BestScan(r.head[w]), R.InQueue(w), R.InList(w);
    case StealXchg(v) => pc, a, b := R.StealSplit(v, r.head[v]), R.InQueue(v), R.InList(w);
    case BackCas(v, list, tail, _, _, _) => pc, a, b := R.ListLoad(list, tail, true), R.InRest(w), R.InQueue(v);
    case ListCas(_, _, _, _) => pc, a, b := R.Idle, R.InList(w), R.InQueue(w);
  }

  // ---------------------------------------------------------------------
  // The scans
  // ---------------------------------------------------------------------

  lemma ScansList(r: R.State, p: R.Places, w: nat, l: seq<Ptr>)
    requires R.Inv(r, p) && R.Enabled(r, R.Scan(w, l))
    ensures w < |p.list| && p.list[w] == l && R.Holds(p.loc, l, R.InList(w))
  {
    assert R.PlacedAt(r, p, w);
    ChainUnique(r.next, r.pc[w].list, l, p.list[w]);
  }

  lemma KeepBest(c: State, p: R.Places, at: seq<S.Place>, w: nat, l: seq<Ptr>) returns (p': R.Places, at': seq<S.Place>)
    requires Inv(c, p, at) && Enabled(c, Scan(w, l)) && c.r.pc[w].BestScan?
    ensures Inv(Do(c, Scan(w, l)), p', at')
  {
    assert Phase(c.r.pc[w], c.s.wk[w], c.from[w]);
    ScansList(c.r, p, w, l);
    var b := R.BestIndex(c.r.priority, l);
    var f := Numbers(l)[b];
    assert l[b] == f + 1 && p.loc[f + 1] == R.InList(w);
    assert Fits(PlaceFor(c.r.pc, p.loc[f + 1]), at[f]);
    at' := TookKeeps(c.s, at, w, f);
    p' := R.Keep(c.r, p, R.Scan(w, l));
    PlacedSound(c.r, p);
    var pc := BestPc(c.r, w, l);
    BestLinks(c, p, at, w, l, f, pc);
  }

  lemma BestPc(r: R.State, w: nat, l: seq<Ptr>) returns (pc: R.Pc)
    requires R.Enabled(r, R.Scan(w, l)) && r.pc[w].BestScan?
    ensures R.Do(r, R.Scan(w, l)).pc == r.pc[w := pc]
    ensures if |l| == 1 then pc == R.Idle else pc.ListLoad? && !pc.again
  {
    pc := R.Do(r, R.Scan(w, l)).pc[w];
  }

  lemma BestLinks(c: State, p: R.Places, at: seq<S.Place>, w: nat, l: seq<Ptr>, f: nat, pc: R.Pc)
    requires Sizes(c) && Agree(c.r.pc, p.loc, at) && Sound(c.r.pc, p.loc) && Phases(c.r.pc, c.s.wk, c.from)
    requires w < |c.r.pc| && c.r.pc[w].BestScan? && R.Holds(p.loc, l, R.InList(w)) && f < |at| && f + 1 in l
    requires if |l| == 1 then pc == R.Idle else pc.ListLoad? && !pc.again
    ensures Agree(c.r.pc[w := pc], p.loc[f + 1 := R.InHand(w)], at[f := S.Chosen(w)])
    ensures Phases(c.r.pc[w := pc], S.Took(c.s, w, f).wk, c.from)
  {
    BestOthers(p, at, w, l, f, pc);
    AgreeOne(c.r.pc, p.loc, at, w, pc, f, R.InHand(w), S.Chosen(w));
    OwnDesk(c, S.Took(c.s, w, f), w, pc);
  }

  lemma BestOthers(p: R.Places, at: seq<S.Place>, w: nat, l: seq<Ptr>, f: nat, pc: R.Pc)
    requires R.Holds(p.loc, l, R.InList(w)) && |p.loc| == |at| + 1 && f < |at| && f + 1 in l
    requires if |l| == 1 then pc == R.Idle else ListPlace(pc, w) == Some(S.Local(w))
    ensures forall g {:trigger at[g]} :: 0 <= g < |at| && g != f && p.loc[g + 1] == R.InList(w) ==> ListPlace(pc, w) == Some(S.Local(w))
  {
    forall x | 0 < x < |p.loc| && x != f + 1 && p.loc[x] == R.InList(w) ensures |l| > 1 {
      assert x in l;
    }
  }

  lemma NumbersAre(l: seq<Ptr>, f: nat)
    requires forall i :: 0 <= i < |l| ==> l[i] > 0
    ensures f in multiset(Numbers(l)) <==> f + 1 in l
  {
    if f + 1 in l {
      var i :| 0 <= i < |l| && l[i] == f + 1;
      assert Numbers(l)[i] == f;
    }
    if f in multiset(Numbers(l)) {
      assert f in Numbers(l);
      var i :| 0 <= i < |l| && Numbers(l)[i] == f;
      assert l[i] == f + 1;
    }
  }

  lemma {:induction false} OnceEach(l: seq<Ptr>, f: nat)
    requires (forall i :: 0 <= i < |l| ==> l[i] > 0) && forall i, j :: 0 <= i < j < |l| ==> l[i] != l[j]
    ensures multiset(Numbers(l))[f] <= 1
    decreases |l|
  {
    if l != [] {
      var m := l[..|l| - 1];
      OnceEach(m, f);
      NumbersAre(m, f);
      assert Numbers(l) == Numbers(m) + [Numbers(l)[|l| - 1]];
      assert forall i :: 0 <= i < |m| ==> m[i] != l[|l| - 1];
    }
  }

  /** The kept fibers are on the victim's bag, each once. */
  lemma PartIn(s: S.State, at: seq<S.Place>, v: nat, l: seq<Ptr>)
    requires S.WorkersOk(s, at) && v < |s.wk| && (forall i, j :: 0 <= i < j < |l| ==> l[i] != l[j])
    requires forall i :: 0 <= i < |l| ==> 0 < l[i] <= |at| && at[l[i] - 1] == S.Local(v)
    ensures multiset(Numbers(l)) <= s.wk[v].local
  {
    assert S.WorkerOk(s.wk[v], at, v);
    forall f: nat ensures multiset(Numbers(l))[f] <= s.wk[v].local[f] {
      OnceEach(l, f);
      NumbersAre(l, f);
    }
  }

  lemma StoleKeeps(s: S.State, at: seq<S.Place>, w: nat, v: nat, l: seq<Ptr>) returns (at': seq<S.Place>)
    requires S.Inv(s, at) && w < |s.wk| && v < |s.wk| && v != w && AtLoop(s.wk[w])
    requires forall i, j :: 0 <= i < j < |l| ==> l[i] != l[j]
    requires forall i :: 0 <= i < |l| ==> 0 < l[i] <= |at| && at[l[i] - 1] == S.Local(v)
    ensures S.Inv(S.Stole(s, w, v, multiset(Numbers(l))), at') && at' == S.StealPlaces(at, w, multiset(Numbers(l)))
  {
    PartIn(s, at, v, l);
    at' := S.KeepSteal(s, at, w, v, multiset(Numbers(l)));
  }

  lemma KeepSplit(c: State, p: R.Places, at: seq<S.Place>, w: nat, l: seq<Ptr>) returns (p': R.Places, at': seq<S.Place>)
    requires Inv(c, p, at) && Enabled(c, Scan(w, l)) && c.r.pc[w].StealSplit?
    ensures Inv(Do(c, Scan(w, l)), p', at')
  {
    assert Phase(c.r.pc[w], c.s.wk[w], c.from[w]);
    assert R.OwnerSafe(c.r, p, w);
    ScansList(c.r, p, w, l);
    at' := SplitScheduler(c, p, at, w, l);
    p' := R.Keep(c.r, p, R.Scan(w, l));
    PlacedSound(c.r, p);
    var pc := SplitPc(c.r, w, l);
    SplitLinks(c, p, at, w, l, pc, p'.loc);
  }

  lemma SplitScheduler(c: State, p: R.Places, at: seq<S.Place>, w: nat, l: seq<Ptr>) returns (at': seq<S.Place>)
    requires Sizes(c) && S.Inv(c.s, at) && Agree(c.r.pc, p.loc, at) && R.Holds(p.loc, l, R.InList(w))
    requires w < |c.r.pc| && c.r.pc[w].StealSplit? && c.r.pc[w].v < |c.s.wk| && c.r.pc[w].v != w && AtLoop(c.s.wk[w])
    ensures at' == S.StealPlaces(at, w, multiset(Numbers(Kept(l))))
    ensures S.Inv(S.Stole(c.s, w, c.r.pc[w].v, multiset(Numbers(Kept(l)))), at')
  {
    KeptLocal(c, p, at, w, l);
    at' := StoleKeeps(c.s, at, w, c.r.pc[w].v, Kept(l));
  }

  lemma SplitPc(r: R.State, w: nat, l: seq<Ptr>) returns (pc: R.Pc)
    requires R.Enabled(r, R.Scan(w, l)) && r.pc[w].StealSplit?
    ensures R.Do(r, R.Scan(w, l)).pc == r.pc[w := pc]
    ensures if |l| >= 2 then pc.BackLoad? && pc.v == r.pc[w].v else pc.ListLoad? && pc.again
  {
    pc := R.Do(r, R.Scan(w, l)).pc[w];
  }

  lemma SplitLinks(c: State, p: R.Places, at: seq<S.Place>, w: nat, l: seq<Ptr>, pc: R.Pc, loc': seq<R.Loc>)
    requires Sizes(c) && Agree(c.r.pc, p.loc, at) && Sound(c.r.pc, p.loc) && Phases(c.r.pc, c.s.wk, c.from)
    requires w < |c.r.pc| && c.r.pc[w].StealSplit? && R.Holds(p.loc, l, R.InList(w)) && c.r.pc[w].v < |c.s.wk|
    requires loc' == if |l| >= 2 then R.SplitLoc(p.loc, l, |l| / 2, w) else p.loc
    requires if |l| >= 2 then pc.BackLoad? && pc.v == c.r.pc[w].v else pc.ListLoad? && pc.again
    ensures Agree(c.r.pc[w := pc], loc', S.StealPlaces(at, w, multiset(Numbers(Kept(l)))))
    ensures Phases(c.r.pc[w := pc], S.Stole(c.s, w, c.r.pc[w].v, multiset(Numbers(Kept(l)))).wk, c.from)
  {
    var part := multiset(Numbers(Kept(l)));
    SplitMoves(p.loc, loc', at, w, l, pc);
    AgreeSteal(c.r.pc, p.loc, at, w, pc, loc', part);
    StealDesk(c, w, c.r.pc[w].v, part, pc);
  }

  lemma StealDesk(c: State, w: nat, v: nat, part: multiset<nat>, pc: R.Pc)
    requires Sizes(c) && Phases(c.r.pc, c.s.wk, c.from) && w < |c.r.pc| && c.r.pc[w].StealSplit? && v < |c.s.wk|
    requires pc.BackLoad? || (pc.ListLoad? && pc.again)
    ensures Phases(c.r.pc[w := pc], S.Stole(c.s, w, v, part).wk, c.from)
  {
    assert Phase(c.r.pc[w], c.s.wk[w], c.from[w]);
    OwnDesk(c, S.Stole(c.s, w, v, part), w, pc);
  }

  lemma KeptLocal(c: State, p: R.Places, at: seq<S.Place>, w: nat, l: seq<Ptr>)
    requires Agree(c.r.pc, p.loc, at) && w < |c.r.pc| && c.r.pc[w].StealSplit? && R.Holds(p.loc, l, R.InList(w))
    ensures forall i, j :: 0 <= i < j < |Kept(l)| ==> Kept(l)[i] != Kept(l)[j]
    ensures forall i :: 0 <= i < |Kept(l)| ==> 0 < Kept(l)[i] <= |at| && at[Kept(l)[i] - 1] == S.Local(c.r.pc[w].v)
  {
    forall i | 0 <= i < |Kept(l)| ensures 0 < Kept(l)[i] <= |at| && at[Kept(l)[i] - 1] == S.Local(c.r.pc[w].v) {
      assert Kept(l)[i] == l[i];
      var f := l[i] - 1;
      assert Fits(PlaceFor(c.r.pc, p.loc[f + 1]), at[f]);
    }
  }

  lemma SplitMoves(loc: seq<R.Loc>, loc': seq<R.Loc>, at: seq<S.Place>, w: nat, l: seq<Ptr>, pc: R.Pc)
    requires R.Holds(loc, l, R.InList(w)) && |loc| == |at| + 1
    requires loc' == if |l| >= 2 then R.SplitLoc(loc, l, |l| / 2, w) else loc
    requires |l| >= 2 ==> R.PuttingBack(pc)
    ensures forall f :: 0 <= f < |at| ==>
      && (f in multiset(Numbers(Kept(l))) ==> loc[f + 1] == R.InList(w) && loc'[f + 1] == R.InList(w))
      && (f !in multiset(Numbers(Kept(l))) ==>
            if loc[f + 1] == R.InList(w) then loc'[f + 1] == R.InRest(w) && R.PuttingBack(pc) else loc'[f + 1] == loc[f + 1])
  {
    var m := Kept(l);
    assert forall i :: 0 <= i < |m| ==> m[i] == l[i];
    forall f | 0 <= f < |at|
      ensures f in multiset(Numbers(m)) ==> loc[f + 1] == R.InList(w) && loc'[f + 1] == R.InList(w)
      ensures f !in multiset(Numbers(m)) ==>
        if loc[f + 1] == R.InList(w) then loc'[f + 1] == R.InRest(w) && R.PuttingBack(pc) else loc'[f + 1] == loc[f + 1]
    {
      NumbersAre(m, f);
      if |l| >= 2 { Halves(l, |l| / 2, f + 1); }
    }
  }

  lemma Halves(l: seq<Ptr>, half: nat, x: Ptr)
    requires half <= |l| && forall i, j :: 0 <= i < j < |l| ==> l[i] != l[j]
    ensures x in l <==> x in l[..half] || x in l[half..]
    ensures !(x in l[..half] && x in l[half..])
  {
    assert l == l[..half] + l[half..];
  }

  // ---------------------------------------------------------------------
  // Every run
  // ---------------------------------------------------------------------

  lemma LoosePlace(s: S.State, at: seq<S.Place>, f: nat)
    requires |at| == |s.fib| && S.Bags(s, at) && S.WorkersOk(s, at) && Loose(s, f)
    ensures f < |at| && S.OffQueues(at[f]) && !S.Queued(at[f])
  {
    if f in s.unborn { S.BagHas(s.unborn, at, S.Unborn, f); }
    else if f in s.pool { S.BagHas(s.pool, at, S.Pooled, f); }
    else if f in s.claimed { S.BagHas(s.claimed, at, S.Claimed, f); }
    else if f in s.marked { S.BagHas(s.marked, at, S.Marked, f); }
    else if h :| (f, h) in s.routed { assert s.routed[(f, h)] > 0; }
    else {
      var w :| 0 <= w < |s.wk| && (f in s.wk[w].ready || s.wk[w].spare == Some(f));
      assert S.WorkerOk(s.wk[w], at, w);
      if f in s.wk[w].ready { S.ReadyPlace(s, at, w, f); }
    }
  }

  lemma KeepRelink(c: State, p: R.Places, at: seq<S.Place>, f: nat, v: Ptr) returns (p': R.Places)
    requires Inv(c, p, at) && Enabled(c, Relink(f, v))
    ensures Inv(Do(c, Relink(f, v)), p', at)
  {
    LoosePlace(c.s, at, f);
    var u := Held(c.r, p, at, f);
    assert !R.Handling(c.r.pc[u], f + 1) by {
      if R.Handling(c.r.pc[u], f + 1) { HandledPlace(c.s, at, u, c.r.pc[u], c.from[u], f); }
    }
    p' := R.Keep(c.r, p, R.Scribble(u, f + 1, v));
  }

  lemma KeepPriority(c: State, p: R.Places, at: seq<S.Place>, f: nat, q: int) returns (p': R.Places)
    requires Inv(c, p, at) && Enabled(c, SetPriority(f, q))
    ensures Inv(Do(c, SetPriority(f, q)), p', at)
  {
    var b := R.SetPriority(f + 1, q);
    assert R.Do(c.r, b).pc == c.r.pc && R.LocAfter(c.r, p.loc, b) == p.loc;
    p' := R.Keep(c.r, p, b);
  }

  lemma KeepFails(c: State, p: R.Places, at: seq<S.Place>, w: nat) returns (p': R.Places)
    requires Inv(c, p, at) && Enabled(c, CasFails(w))
    ensures Inv(Do(c, CasFails(w)), p', at)
  {
    RetryIsQuiet(c.r, w, c.s.wk[w], c.from[w]);
    p' := KeepQuiet(c, p, at, CasFails(w), R.CasFails(w), w);
  }

  /** Every step keeps the queues' invariant, the scheduler's, and their agreement. */
  lemma Keep(c: State, p: R.Places, at: seq<S.Place>, a: Action) returns (p': R.Places, at': seq<S.Place>)
    requires Inv(c, p, at) && Enabled(c, a)
    ensures Inv(Do(c, a), p', at')
  {
    p', at' := p, at;
    match a
    case Away(x) => at' := KeepAway(c, p, at, x);
    case Push(w, f, from) => p' := KeepPush(c, p, at, w, f, from);
    case Pop(_) => p' := KeepBegin(c, p, at, a);
    case Steal(_, _) => p' := KeepBegin(c, p, at, a);
    case Step(w) => p', at' := KeepStep(c, p, at, w);
    case Scan(w, l) =>
      if c.r.pc[w].BestScan? { p', at' := KeepBest(c, p, at, w, l); } else { p', at' := KeepSplit(c, p, at, w, l); }
    case CasFails(w) => p' := KeepFails(c, p, at, w);
    case SetPriority(f, q) => p' := KeepPriority(c, p, at, f, q);
    case Relink(f, v) => p' := KeepRelink(c, p, at, f, v);
  }

  lemma {:induction false} KeepRun(c: State, p: R.Places, at: seq<S.Place>, acts: seq<Action>)
    requires Inv(c, p, at) && Exec(c, acts).Reached?
    ensures S.Safe(Exec(c, acts).c.s) && R.Conserved(Exec(c, acts).c.r)
    decreases |acts|
  {
    if acts == [] {
      S.InvSafe(c.s, at);
    } else {
      var p', at' := Keep(c, p, at, acts[0]);
      KeepRun(Do(c, acts[0]), p', at', acts[1..]);
    }
  }

  lemma InitInv(c: State, n: nat, prio: bool) returns (p: R.Places, at: seq<S.Place>)
    requires Init(c, n, prio) && (n <= 2 || prio)
    ensures Inv(c, p, at)
  {
    p := R.InitInv(c.r, n, prio);
    at := S.InitInv(c.s);
    StartAgrees(c, p, at, n, prio);
  }

  lemma StartAgrees(c: State, p: R.Places, at: seq<S.Place>, n: nat, prio: bool)
    requires Init(c, n, prio) && R.Placed(c.r, p) && S.AtStart(c.s, at)
    ensures Agree(c.r.pc, p.loc, at) && Phases(c.r.pc, c.s.wk, c.from)
  {
    PlacedSound(c.r, p);
    forall f | 0 <= f < |at| ensures Fits(PlaceFor(c.r.pc, p.loc[f + 1]), at[f]) {
      assert SoundAt(c.r.pc, p.loc[f + 1]);
      var w := p.loc[f + 1].w;
      assert R.PlacedAt(c.r, p, w) && c.r.pc[w] == R.Idle && c.r.head[w] == 0;
      assert p.q[w] == [];
    }
  }

  /** With at most two workers, or the priority scan in force from the start, every
      run of the workers on their lock-free queues is safe: no fiber is current on
      two workers, none is switched to before its own switch-out has finished, parks
      and unparks match, and no fiber is lost or on two queues. */
  lemma SafeRuns(c: State, n: nat, prio: bool, acts: seq<Action>)
    requires Init(c, n, prio) && (n <= 2 || prio) && Exec(c, acts).Reached?
    ensures S.Safe(Exec(c, acts).c.s) && R.Conserved(Exec(c, acts).c.r)
  {
    var p, at := InitInv(c, n, prio);
    KeepRun(c, p, at, acts);
  }
}
