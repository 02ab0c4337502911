/**
 The lock-free run queues of the task scheduler (runtime/rt_sched.c).

 Every worker owns one singly linked LIFO of fibers whose head is an atomic
 word.  The owner pushes, pops and takes the best-priority fiber; any other
 worker may detach the whole list, keep the newer half and put the older half
 back.  Each atomic load, store, exchange or compare-and-swap is one step here;
 a scan over a list that the scanning worker has detached is one step, because
 nobody else writes the links of a detached list.  The interleaving of the
 workers is arbitrary, and a weak compare-and-swap may fail for no reason.

 Here the safe configurations are proved: with at most two workers, or with the
 priority scan in force from the start, no run loses or duplicates a fiber.  That
 no other configuration is safe is the subject of QueueRaces.
 */
module RunQueue {
  import opened Links

  /** Where a worker stands inside the queue operations. */
  datatype Pc =
    | Idle
      // rt_queue_push(&w->local, f)
    | PushLoad(f: Ptr)
    | PushStore(f: Ptr, h: Ptr)
    | PushCas(f: Ptr, h: Ptr)
      // rt_queue_pop_best: the flag decides between the pop and the scan
    | PopStart
      // rt_queue_pop(&w->local)
    | PopLoad
    | PopRead(h: Ptr)
    | PopCas(h: Ptr, nx: Ptr)
    | PopClear(h: Ptr)
      // the priority scan
    | BestXchg
    | BestScan(list: Ptr)
      // rt_queue_push_list(&w->local, list); `again` when a pop follows
    | ListLoad(list: Ptr, tail: Ptr, again: bool)
    | ListStore(list: Ptr, tail: Ptr, again: bool, h: Ptr)
    | ListCas(list: Ptr, tail: Ptr, again: bool, h: Ptr)
      // rt_queue_steal(&victim->local)
    | StealXchg(v: nat)
    | StealSplit(v: nat, list: Ptr)
    | BackLoad(v: nat, list: Ptr, tail: Ptr, rest: Ptr, rtail: Ptr)
    | BackStore(v: nat, list: Ptr, tail: Ptr, rest: Ptr, rtail: Ptr, h: Ptr)
    | BackCas(v: nat, list: Ptr, tail: Ptr, rest: Ptr, rtail: Ptr, h: Ptr)

  /** The shared memory (links, heads, priorities) and the workers' registers.
      `hand[w]` is what worker w holds outside any queue. */
  datatype State = State(
    next: seq<Ptr>,
    head: seq<Ptr>,
    priority: seq<int>,
    prioUsed: bool,
    pc: seq<Pc>,
    hand: seq<set<Ptr>>)

  datatype Action =
    | Give(w: nat, u: nat, f: Ptr)         // a fiber changes hands outside the queues
    | Scribble(w: nat, f: Ptr, v: Ptr)     // there, its link may be used for other lists
    | SetPriority(f: Ptr, p: int)
    | BeginPush(w: nat, f: Ptr)
    | BeginPop(w: nat)
    | BeginSteal(w: nat, v: nat)
    | Step(w: nat)                         // the worker's next atomic instruction
    | Scan(w: nat, l: seq<Ptr>)            // the walk over a detached list l
    | CasFails(w: nat)                     // a weak compare-and-swap fails spuriously

  /** The index rt_queue_pop_best selects: a maximum, the newest one on ties. */
  function BestIndex(priority: seq<int>, l: seq<Ptr>): (b: nat)
    requires l != []
    requires forall i :: 0 <= i < |l| ==> l[i] < |priority|
    ensures b < |l|
    ensures forall i :: 0 <= i < |l| ==> priority[l[i]] <= priority[l[b]]
    ensures forall i :: 0 <= i < b ==> priority[l[i]] < priority[l[b]]
  {
    if |l| == 1 then 0
    else
      var m := |l| - 1;
      assert forall i :: 0 <= i < m ==> l[..m][i] == l[i];
      var b := BestIndex(priority, l[..m]);
      if priority[l[m]] > priority[l[b]] then m else b
  }

  // ---------------------------------------------------------------------
  // The steps
  // ---------------------------------------------------------------------

  /** A load and a store of one word; addresses outside the memory do nothing. */
  function Load(mem: seq<Ptr>, p: nat): Ptr { if p < |mem| then mem[p] else 0 }
  function Store(mem: seq<Ptr>, p: nat, v: Ptr): seq<Ptr> { if p < |mem| then mem[p := v] else mem }

  predicate IsCas(pc: Pc) { pc.PushCas? || pc.PopCas? || pc.ListCas? || pc.BackCas? }

  /** The worker is about to publish the fiber, or to clear its link. */
  predicate Handling(pc: Pc, f: Ptr) {
    match pc
    case PushLoad(g) => g == f
    case PushStore(g, _) => g == f
    case PushCas(g, _) => g == f
    case PopClear(g) => g == f
    case _ => false
  }

  ghost predicate Enabled(s: State, a: Action)
  {
    && |s.pc| == |s.head| == |s.hand|
    && match a
    case Give(w, u, f) => w < |s.pc| && u < |s.pc| && !Handling(s.pc[w], f) && f in s.hand[w]
    case Scribble(w, f, v) => w < |s.pc| && !Handling(s.pc[w], f) && f in s.hand[w]
    case SetPriority(f, p) => f < |s.priority|
    case BeginPush(w, f) => w < |s.pc| && s.pc[w].Idle? && f in s.hand[w] && 0 < f < |s.next|
    case BeginPop(w) => w < |s.pc| && s.pc[w].Idle?
    case BeginSteal(w, v) => w < |s.pc| && v < |s.pc| && v != w && s.pc[w].Idle?
    case Step(w) => w < |s.pc| && !s.pc[w].Idle? && !s.pc[w].BestScan? && !s.pc[w].StealSplit?
    case Scan(w, l) =>
      && w < |s.pc| && l != []
      && (s.pc[w].BestScan? || s.pc[w].StealSplit?)
      && Chain(s.next, s.pc[w].list, l) && |s.priority| == |s.next|
    case CasFails(w) => w < |s.pc| && IsCas(s.pc[w])
  }

  ghost function At(s: State, w: nat, pc: Pc): State
    requires w < |s.pc|
  {
    s.(pc := s.pc[w := pc])
  }

  /** The retry of a compare-and-swap loop. */
  ghost function Retry(s: State, w: nat): State
    requires w < |s.pc| && IsCas(s.pc[w])
  {
    match s.pc[w]
    case PushCas(f, _) => At(s, w, PushLoad(f))
    case PopCas(_, _) => At(s, w, PopLoad)
    case ListCas(list, tail, again, _) => At(s, w, ListLoad(list, tail, again))
    case BackCas(v, list, tail, rest, rtail, _) => At(s, w, BackLoad(v, list, tail, rest, rtail))
  }

  ghost function DoStep(s: State, w: nat): State
    requires Enabled(s, Step(w))
  {
    match s.pc[w]
    case PushLoad(f) => At(s, w, PushStore(f, s.head[w]))
    case PushStore(f, h) => At(s, w, PushCas(f, h)).(next := Store(s.next, f, h))
    case PushCas(f, h) =>
      if s.head[w] != h then Retry(s, w)
      else At(s, w, Idle).(head := s.head[w := f], hand := s.hand[w := s.hand[w] - {f}])
    case PopStart => At(s, w, if s.prioUsed then BestXchg else PopLoad)
    case PopLoad => At(s, w, if s.head[w] == 0 then Idle else PopRead(s.head[w]))
    case PopRead(h) => At(s, w, PopCas(h, Load(s.next, h)))
    case PopCas(h, nx) =>
      if s.head[w] != h then Retry(s, w)
      else At(s, w, PopClear(h)).(head := s.head[w := nx], hand := s.hand[w := s.hand[w] + {h}])
    case PopClear(h) => At(s, w, Idle).(next := Store(s.next, h, 0))
    case BestXchg =>
      At(s, w, if s.head[w] == 0 then Idle else BestScan(s.head[w])).(head := s.head[w := 0])
    case ListLoad(list, tail, again) => At(s, w, ListStore(list, tail, again, s.head[w]))
    case ListStore(list, tail, again, h) =>
      At(s, w, ListCas(list, tail, again, h)).(next := Store(s.next, tail, h))
    case ListCas(list, tail, again, h) =>
      if s.head[w] != h then Retry(s, w)
      else At(s, w, if again then PopStart else Idle).(head := s.head[w := list])
    case StealXchg(v) =>
      At(s, w, if Load(s.head, v) == 0 then Idle else StealSplit(v, Load(s.head, v))).(head := Store(s.head, v, 0))
    case BackLoad(v, list, tail, rest, rtail) =>
      At(s, w, BackStore(v, list, tail, rest, rtail, Load(s.head, v)))
    case BackStore(v, list, tail, rest, rtail, h) =>
      At(s, w, BackCas(v, list, tail, rest, rtail, h)).(next := Store(s.next, rtail, h))
    case BackCas(v, list, tail, rest, rtail, h) =>
      if Load(s.head, v) != h then Retry(s, w)
      else At(s, w, ListLoad(list, tail, true)).(head := Store(s.head, v, rest))
    case _ => s
  }

  /** Unlink the fiber at index b of the detached list l; push the rest back. */
  ghost function Unlink(s: State, w: nat, l: seq<Ptr>, b: nat): State
    requires w < |s.pc| == |s.hand| && b < |l|
    requires forall i :: 0 <= i < |l| ==> l[i] < |s.next|
  {
    var best := l[b];
    var next1 := if b > 0 then s.next[l[b - 1] := s.next[best]] else s.next;
    var list := if b > 0 then l[0] else s.next[best];
    var tail := if b < |l| - 1 then l[|l| - 1] else if b > 0 then l[b - 1] else 0;
    At(s, w, if |l| == 1 then Idle else ListLoad(list, tail, false))
      .(next := next1[best := 0], hand := s.hand[w := s.hand[w] + {best}])
  }

  /** The priority scan takes the best fiber of the detached list. */
  ghost function DoBest(s: State, w: nat, l: seq<Ptr>): State
    requires Enabled(s, Scan(w, l)) && s.pc[w].BestScan?
  {
    Unlink(s, w, l, BestIndex(s.priority, l))
  }

  /** Keep the newer half of the detached list l; the older half goes back. */
  ghost function DoSplit(s: State, w: nat, l: seq<Ptr>): State
    requires Enabled(s, Scan(w, l)) && s.pc[w].StealSplit?
  {
    if |l| < 2 then At(s, w, ListLoad(l[0], l[|l| - 1], true))
    else
      var half := |l| / 2;
      At(s, w, BackLoad(s.pc[w].v, l[0], l[half - 1], l[half], l[|l| - 1]))
        .(next := s.next[l[half - 1] := 0])
  }

  ghost function Do(s: State, a: Action): State
    requires Enabled(s, a)
  {
    match a
    case Give(w, u, f) =>
      var without := s.hand[w := s.hand[w] - {f}];
      s.(hand := without[u := without[u] + {f}])
    case Scribble(_, f, v) => s.(next := Store(s.next, f, v))
    case SetPriority(f, p) => s.(priority := s.priority[f := p], prioUsed := s.prioUsed || p != 0)
    case BeginPush(w, f) => At(s, w, PushLoad(f))
    case BeginPop(w) => At(s, w, PopStart)
    case BeginSteal(w, v) => At(s, w, StealXchg(v))
    case Step(w) => DoStep(s, w)
    case Scan(w, l) => if s.pc[w].BestScan? then DoBest(s, w, l) else DoSplit(s, w, l)
    case CasFails(w) => Retry(s, w)
  }

  ghost predicate HeldBySomeone(s: State, x: Ptr) { exists w :: 0 <= w < |s.hand| && x in s.hand[w] }

  /** n workers, idle, with empty queues; every fiber is in somebody's hand. */
  ghost predicate Init(s: State, n: nat, prio: bool) {
    && |s.pc| == |s.head| == |s.hand| == n
    && |s.next| == |s.priority| >= 1
    && s.prioUsed == prio
    && (forall w :: 0 <= w < n ==> s.pc[w] == Idle && s.head[w] == 0)
    && (forall x :: 0 < x < |s.next| ==> HeldBySomeone(s, x))
    && (forall x, w, u :: 0 <= w < n && 0 <= u < n && x in s.hand[w] && x in s.hand[u] ==> w == u)
    && (forall w, x :: 0 <= w < n && x in s.hand[w] ==> 0 < x < |s.next|)
  }

  datatype Outcome = Blocked | Reached(s: State)

  /** The state after a run of steps, or Blocked when one of them is impossible. */
  ghost function Exec(s: State, acts: seq<Action>): Outcome
    decreases |acts|
  {
    if acts == [] then Reached(s)
    else if !Enabled(s, acts[0]) then Blocked
    else Exec(Do(s, acts[0]), acts[1..])
  }

  // ---------------------------------------------------------------------
  // Conservation
  // ---------------------------------------------------------------------

  /** Where a fiber is. */
  datatype Loc = InHand(w: nat) | InQueue(w: nat) | InList(w: nat) | InRest(w: nat)

  /** The contents of the queues, of the detached lists and of the halves on
      their way back, and the place of every fiber. */
  datatype Places = Places(q: seq<seq<Ptr>>, list: seq<seq<Ptr>>, rest: seq<seq<Ptr>>, loc: seq<Loc>)

  /** l holds exactly the fibers whose place is p, each once. */
  ghost predicate Holds(loc: seq<Loc>, l: seq<Ptr>, p: Loc) {
    && (forall i, j :: 0 <= i < j < |l| ==> l[i] != l[j])
    && (forall i :: 0 <= i < |l| ==> 0 < l[i] < |loc| && loc[l[i]] == p)
    && (forall x :: 0 < x < |loc| && loc[x] == p ==> x in l)
  }

  /** A worker's registers agree with the lists it has detached. */
  ghost predicate Registers(next: seq<Ptr>, pc: Pc, list: seq<Ptr>, rest: seq<Ptr>) {
    match pc
    case BestScan(p) => list != [] && Chain(next, p, list) && rest == []
    case ListLoad(p, tail, _) => list != [] && Seg(next, p, list) && tail == list[|list| - 1] && rest == []
    case ListStore(p, tail, _, _) => list != [] && Seg(next, p, list) && tail == list[|list| - 1] && rest == []
    case ListCas(p, tail, _, h) =>
      list != [] && Seg(next, p, list) && tail == list[|list| - 1] && rest == [] && next[tail] == h
    case StealSplit(_, p) => list != [] && Chain(next, p, list) && rest == []
    case BackLoad(_, p, tail, r, rtail) =>
      && list != [] && Seg(next, p, list) && tail == list[|list| - 1]
      && rest != [] && Seg(next, r, rest) && rtail == rest[|rest| - 1]
    case BackStore(_, p, tail, r, rtail, _) =>
      && list != [] && Seg(next, p, list) && tail == list[|list| - 1]
      && rest != [] && Seg(next, r, rest) && rtail == rest[|rest| - 1]
    case BackCas(_, p, tail, r, rtail, h) =>
      && list != [] && Seg(next, p, list) && tail == list[|list| - 1]
      && rest != [] && Seg(next, r, rest) && rtail == rest[|rest| - 1] && next[rtail] == h
    case _ => list == [] && rest == []
  }

  /** The fiber a worker is about to publish, if any, is still in its hand. */
  ghost predicate InFlight(next: seq<Ptr>, pc: Pc, hand: set<Ptr>) {
    match pc
    case PushLoad(f) => f in hand
    case PushStore(f, _) => f in hand
    case PushCas(f, h) => f in hand && 0 < f < |next| && next[f] == h
    case PopClear(h) => h in hand
    case _ => true
  }

  ghost predicate PlacedAt(s: State, p: Places, w: nat)
    requires |s.pc| == |s.head| == |s.hand| == |p.q| == |p.list| == |p.rest|
    requires w < |s.pc|
  {
    && Chain(s.next, s.head[w], p.q[w])
    && Holds(p.loc, p.q[w], InQueue(w))
    && Holds(p.loc, p.list[w], InList(w))
    && Holds(p.loc, p.rest[w], InRest(w))
    && (forall x :: x in s.hand[w] ==> 0 < x < |p.loc| && p.loc[x] == InHand(w))
    && Registers(s.next, s.pc[w], p.list[w], p.rest[w])
    && InFlight(s.next, s.pc[w], s.hand[w])
  }

  /** Every fiber is in exactly one place, and the memory says the same. */
  ghost predicate Placed(s: State, p: Places) {
    && |s.pc| == |s.head| == |s.hand| == |p.q| == |p.list| == |p.rest|
    && |p.loc| == |s.next| == |s.priority| >= 1
    && (forall x :: 0 < x < |p.loc| ==> p.loc[x].w < |s.pc|)
    && (forall x :: 0 < x < |p.loc| && p.loc[x].InHand? ==> x in s.hand[p.loc[x].w])
    && (forall w :: 0 <= w < |s.pc| ==> PlacedAt(s, p, w))
  }

  /** No fiber is lost and none is duplicated. */
  ghost predicate Conserved(s: State) {
    exists p :: Placed(s, p)
  }

  // ---------------------------------------------------------------------
  // The invariant of the safe configurations
  // ---------------------------------------------------------------------

  predicate InPop(pc: Pc) { pc.PopLoad? || pc.PopRead? || pc.PopCas? }
  predicate HasRead(pc: Pc) { pc.PopRead? || pc.PopCas? }
  predicate PuttingBack(pc: Pc) { pc.BackLoad? || pc.BackStore? || pc.BackCas? }

  /** Thief t may still put the fiber h back on the queue of worker w. */
  ghost predicate MayReturn(s: State, p: Places, w: nat, t: nat, h: Ptr)
    requires Placed(s, p) && w < |s.pc| && t < |s.pc| && 0 < h < |p.loc|
  {
    || (s.pc[t].StealSplit? && s.pc[t].v == w && p.loc[h] == InList(t))
    || (PuttingBack(s.pc[t]) && s.pc[t].v == w && p.loc[h] == InRest(t))
  }

  /** Between its read of the head and its compare-and-swap, the owner w may
      rely on this: a fiber that is still on its queue has the link it read. */
  ghost predicate OwnerSafe(s: State, p: Places, w: nat)
    requires Placed(s, p) && w < |s.pc|
  {
    && (HasRead(s.pc[w]) ==> 0 < s.pc[w].h < |p.loc|)
    && (s.pc[w].PopCas? && p.loc[s.pc[w].h] == InQueue(w) ==> s.next[s.pc[w].h] == s.pc[w].nx)
    && (s.pc[w].StealXchg? || s.pc[w].StealSplit? || PuttingBack(s.pc[w]) ==> s.pc[w].v != w && s.pc[w].v < |s.pc|)
  }

  /** ... and a fiber that the thief t may still put back finds the queue
      empty, so it comes back with the link it left with. */
  ghost predicate PairSafe(s: State, p: Places, w: nat, t: nat)
    requires Placed(s, p) && w < |s.pc| && t < |s.pc|
    requires OwnerSafe(s, p, w)
  {
    HasRead(s.pc[w]) && MayReturn(s, p, w, t, s.pc[w].h) ==>
      && p.q[w] == []
      && (PuttingBack(s.pc[t]) ==> Load(s.next, s.pc[t].rtail) == 0)
      && (s.pc[t].BackStore? || s.pc[t].BackCas? ==> s.pc[t].h == 0)
      && (s.pc[w].PopCas? ==> s.next[s.pc[w].h] == s.pc[w].nx)
  }

  ghost predicate Inv(s: State, p: Places) {
    && Placed(s, p)
    && (forall w :: 0 <= w < |s.pc| ==> OwnerSafe(s, p, w))
    && (forall w, t :: 0 <= w < |s.pc| && 0 <= t < |s.pc| && w != t ==> PairSafe(s, p, w, t))
    && (|s.pc| > 2 ==> s.prioUsed && forall w :: 0 <= w < |s.pc| ==> !InPop(s.pc[w]))
  }

  ghost function Move(loc: seq<Loc>, from: Loc, to: Loc): (r: seq<Loc>)
    ensures |r| == |loc|
    ensures forall i :: 0 <= i < |loc| ==> r[i] == if loc[i] == from then to else loc[i]
  {
    seq(|loc|, i requires 0 <= i < |loc| => if loc[i] == from then to else loc[i])
  }

  /** The places after the next atomic instruction of worker w. */
  ghost function StepLoc(s: State, loc: seq<Loc>, w: nat): seq<Loc>
    requires Enabled(s, Step(w))
  {
    match s.pc[w]
    case PushCas(f, h) => if s.head[w] == h && f < |loc| then loc[f := InQueue(w)] else loc
    case PopCas(h, _) => if s.head[w] == h && h < |loc| then loc[h := InHand(w)] else loc
    case BestXchg => Move(loc, InQueue(w), InList(w))
    case ListCas(_, _, _, h) => if s.head[w] == h then Move(loc, InList(w), InQueue(w)) else loc
    case StealXchg(v) => Move(loc, InQueue(v), InList(w))
    case BackCas(v, _, _, _, _, h) => if Load(s.head, v) == h then Move(loc, InRest(w), InQueue(v)) else loc
    case _ => loc
  }

  ghost function SplitLoc(loc: seq<Loc>, l: seq<Ptr>, half: nat, w: nat): (r: seq<Loc>)
    requires half <= |l|
    ensures |r| == |loc|
  {
    seq(|loc|, i requires 0 <= i < |loc| => if i in l[half..] then InRest(w) else loc[i])
  }

  /** ... and after the scan of the detached list l. */
  ghost function ScanLoc(s: State, loc: seq<Loc>, w: nat, l: seq<Ptr>): seq<Loc>
    requires Enabled(s, Scan(w, l))
  {
    if s.pc[w].BestScan? then
      (var b := BestIndex(s.priority, l); if l[b] < |loc| then loc[l[b] := InHand(w)] else loc)
    else if |l| >= 2 then SplitLoc(loc, l, |l| / 2, w)
    else loc
  }

  ghost function LocAfter(s: State, loc: seq<Loc>, a: Action): seq<Loc>
    requires Enabled(s, a)
  {
    match a
    case Give(w, u, f) => if f < |loc| then loc[f := InHand(u)] else loc
    case Step(w) => StepLoc(s, loc, w)
    case Scan(w, l) => ScanLoc(s, loc, w, l)
    case _ => loc
  }

  // ---------------------------------------------------------------------
  // Framing: a step touches what belongs to at most two workers
  // ---------------------------------------------------------------------

  ghost predicate SameSizes(s: State, s': State, p: Places, p': Places) {
    && |s'.pc| == |s'.head| == |s'.hand| == |p'.q| == |p'.list| == |p'.rest| == |s.pc|
    && |p'.loc| == |s'.next| == |s'.priority| == |p.loc|
  }

  /** Everything of worker u is as before. */
  ghost predicate Untouched(s: State, s': State, p: Places, p': Places, u: nat)
    requires Placed(s, p) && SameSizes(s, s', p, p') && u < |s.pc|
  {
    && s'.pc[u] == s.pc[u] && s'.hand[u] == s.hand[u] && s'.head[u] == s.head[u]
    && p'.q[u] == p.q[u] && p'.list[u] == p.list[u] && p'.rest[u] == p.rest[u]
    && (forall x :: 0 < x < |p.loc| && (p.loc[x].w == u || p'.loc[x].w == u) ==>
          p'.loc[x] == p.loc[x] && s'.next[x] == s.next[x])
  }

  lemma HoldsFrame(loc: seq<Loc>, loc': seq<Loc>, l: seq<Ptr>, pl: Loc)
    requires Holds(loc, l, pl) && |loc'| == |loc|
    requires forall x :: 0 < x < |loc| ==> (loc[x] == pl <==> loc'[x] == pl)
    ensures Holds(loc', l, pl)
  {
  }

  lemma FrameAt(s: State, s': State, p: Places, p': Places, u: nat)
    requires Placed(s, p) && SameSizes(s, s', p, p') && u < |s.pc| && Untouched(s, s', p, p', u)
    ensures PlacedAt(s', p', u)
  {
    assert PlacedAt(s, p, u);
    SegFrame(s.next, s'.next, s.head[u], p.q[u]);
    HoldsFrame(p.loc, p'.loc, p.q[u], InQueue(u));
    HoldsFrame(p.loc, p'.loc, p.list[u], InList(u));
    HoldsFrame(p.loc, p'.loc, p.rest[u], InRest(u));
    assert forall x :: x in s.hand[u] ==> p.loc[x].w == u;
    FrameRegisters(s.next, s'.next, s.pc[u], p.list[u], p.rest[u]);
  }

  lemma FrameRegisters(next: seq<Ptr>, next': seq<Ptr>, pc: Pc, list: seq<Ptr>, rest: seq<Ptr>)
    requires Registers(next, pc, list, rest) && |next'| == |next|
    requires forall i :: 0 <= i < |list| ==> 0 < list[i] < |next| && next'[list[i]] == next[list[i]]
    requires forall i :: 0 <= i < |rest| ==> 0 < rest[i] < |next| && next'[rest[i]] == next[rest[i]]
    ensures Registers(next', pc, list, rest)
  {
    if list != [] && Seg(next, list[0], list) { SegFrame(next, next', list[0], list); }
    if rest != [] && Seg(next, rest[0], rest) { SegFrame(next, next', rest[0], rest); }
  }

  lemma FramePlaced(s: State, s': State, p: Places, p': Places, w: nat, v: nat)
    requires Placed(s, p) && SameSizes(s, s', p, p') && w < |s.pc| && v < |s.pc|
    requires forall u :: 0 <= u < |s.pc| && u != w && u != v ==> Untouched(s, s', p, p', u)
    requires PlacedAt(s', p', w) && PlacedAt(s', p', v)
    requires forall x :: 0 < x < |p.loc| ==> p'.loc[x].w < |s.pc|
    requires forall x :: 0 < x < |p.loc| && p'.loc[x].InHand? && (p'.loc[x].w == w || p'.loc[x].w == v) ==> x in s'.hand[p'.loc[x].w]
    ensures Placed(s', p')
  {
    forall u | 0 <= u < |s.pc| ensures PlacedAt(s', p', u) {
      if u != w && u != v { FrameAt(s, s', p, p', u); }
    }
    forall x | 0 < x < |p'.loc| && p'.loc[x].InHand? ensures x in s'.hand[p'.loc[x].w] {
      var u := p'.loc[x].w;
      if u != w && u != v { assert Untouched(s, s', p, p', u); }
    }
  }

  lemma FrameInv(s: State, s': State, p: Places, p': Places, w: nat, v: nat)
    requires Inv(s, p) && SameSizes(s, s', p, p') && w < |s.pc| && v < |s.pc| && Placed(s', p')
    requires forall u :: 0 <= u < |s.pc| && u != w && u != v ==> Untouched(s, s', p, p', u)
    requires OwnerSafe(s', p', w) && OwnerSafe(s', p', v)
    requires forall t :: 0 <= t < |s.pc| && t != w ==> PairSafe(s', p', w, t)
    requires forall t :: 0 <= t < |s.pc| && t != v ==> PairSafe(s', p', v, t)
    requires forall u :: 0 <= u < |s.pc| && u != w && u != v ==> OwnerSafe(s', p', u) ==> PairSafe(s', p', u, w) && PairSafe(s', p', u, v)
    requires |s.pc| > 2 ==> s'.prioUsed && !InPop(s'.pc[w]) && !InPop(s'.pc[v])
    ensures Inv(s', p')
  {
    forall u | 0 <= u < |s.pc| ensures OwnerSafe(s', p', u) {
      if u != w && u != v { assert Untouched(s, s', p, p', u) && OwnerSafe(s, p, u); }
    }
    forall u, t | 0 <= u < |s.pc| && 0 <= t < |s.pc| && u != t ensures PairSafe(s', p', u, t) {
      if u != w && u != v && t != w && t != v { FramePair(s, s', p, p', u, t); }
    }
    forall u | |s.pc| > 2 && 0 <= u < |s.pc| ensures !InPop(s'.pc[u]) {
      if u != w && u != v { assert Untouched(s, s', p, p', u) && !InPop(s.pc[u]); }
    }
  }

  lemma FramePair(s: State, s': State, p: Places, p': Places, u: nat, t: nat)
    requires Inv(s, p) && SameSizes(s, s', p, p') && Placed(s', p')
    requires u < |s.pc| && t < |s.pc| && u != t && OwnerSafe(s', p', u)
    requires Untouched(s, s', p, p', u) && Untouched(s, s', p, p', t)
    ensures PairSafe(s', p', u, t)
  {
    assert PairSafe(s, p, u, t) && PlacedAt(s, p, t) && OwnerSafe(s, p, u);
  }

  // ---------------------------------------------------------------------
  // Every step keeps the invariant
  // ---------------------------------------------------------------------

  lemma HoldsCons(loc: seq<Loc>, l: seq<Ptr>, pl: Loc, f: Ptr)
    requires Holds(loc, l, pl) && 0 < f < |loc| && loc[f] != pl
    ensures Holds(loc[f := pl], [f] + l, pl)
  {
  }

  lemma HoldsTail(loc: seq<Loc>, l: seq<Ptr>, pl: Loc, other: Loc)
    requires Holds(loc, l, pl) && l != [] && other != pl
    ensures Holds(loc[l[0] := other], l[1..], pl)
  {
  }

  lemma HoldsMove(loc: seq<Loc>, l: seq<Ptr>, from: Loc, m: seq<Ptr>, to: Loc)
    requires Holds(loc, l, from) && Holds(loc, m, to) && from != to
    ensures Holds(Move(loc, from, to), l + m, to) && Holds(Move(loc, from, to), [], from)
  {
    var loc' := Move(loc, from, to);
    forall x | 0 < x < |loc'| && loc'[x] == to ensures x in l + m {
      assert x in l || x in m;
    }
    assert forall i :: 0 <= i < |l + m| ==> (l + m)[i] in l || (l + m)[i] in m;
  }

  lemma HoldsRename(loc: seq<Loc>, l: seq<Ptr>, from: Loc, to: Loc)
    requires Holds(loc, l, from) && Holds(loc, [], to) && from != to
    ensures Holds(Move(loc, from, to), l, to) && Holds(Move(loc, from, to), [], from)
  {
    HoldsMove(loc, l, from, [], to);
    assert l + [] == l;
  }

  /** A step after which worker w is neither between a read and its swap nor
      holding something it may put back. */
  lemma Quiet(s: State, s': State, p: Places, p': Places, w: nat)
    requires Inv(s, p) && SameSizes(s, s', p, p') && w < |s.pc| && Placed(s', p')
    requires forall u :: 0 <= u < |s.pc| && u != w ==> Untouched(s, s', p, p', u)
    requires !HasRead(s'.pc[w]) && !s'.pc[w].StealSplit? && !PuttingBack(s'.pc[w])
    requires s'.pc[w].StealXchg? ==> s'.pc[w].v != w && s'.pc[w].v < |s.pc|
    requires |s.pc| > 2 ==> s'.prioUsed && !InPop(s'.pc[w])
    ensures Inv(s', p')
  {
    FrameInv(s, s', p, p', w, w);
  }

  lemma KeepRegisters(s: State, p: Places, w: nat, pc: Pc)
    requires Inv(s, p) && w < |s.pc|
    requires Registers(s.next, pc, p.list[w], p.rest[w]) && InFlight(s.next, pc, s.hand[w])
    requires !HasRead(pc) && !pc.StealSplit? && !PuttingBack(pc)
    requires pc.StealXchg? ==> pc.v != w && pc.v < |s.pc|
    requires |s.pc| > 2 ==> !InPop(pc)
    ensures Inv(At(s, w, pc), p)
  {
    var s' := At(s, w, pc);
    assert PlacedAt(s, p, w);
    FramePlaced(s, s', p, p, w, w);
    Quiet(s, s', p, p, w);
  }

  lemma KeepPopLoad(s: State, p: Places, w: nat)
    requires Inv(s, p) && w < |s.pc| && s.pc[w].PopLoad? && s.head[w] != 0
    ensures Inv(At(s, w, PopRead(s.head[w])), p)
  {
    var s' := At(s, w, PopRead(s.head[w]));
    assert PlacedAt(s, p, w);
    assert p.q[w][0] == s.head[w];
    FramePlaced(s, s', p, p, w, w);
    FrameInv(s, s', p, p, w, w);
  }

  lemma KeepPopRead(s: State, p: Places, w: nat)
    requires Inv(s, p) && w < |s.pc| && s.pc[w].PopRead?
    ensures Inv(DoStep(s, w), p)
  {
    var s' := DoStep(s, w);
    assert PlacedAt(s, p, w) && OwnerSafe(s, p, w);
    FramePlaced(s, s', p, p, w, w);
    forall t | 0 <= t < |s.pc| && t != w ensures PairSafe(s', p, w, t) {
      assert PairSafe(s, p, w, t);
    }
    FrameInv(s, s', p, p, w, w);
  }

  lemma KeepBackLoad(s: State, p: Places, w: nat)
    requires Inv(s, p) && w < |s.pc| && s.pc[w].BackLoad?
    ensures Inv(DoStep(s, w), p)
  {
    var s' := DoStep(s, w);
    assert PlacedAt(s, p, w) && OwnerSafe(s, p, w);
    FramePlaced(s, s', p, p, w, w);
    forall t | 0 <= t < |s.pc| && t != w && OwnerSafe(s', p, t) ensures PairSafe(s', p, t, w) {
      assert PairSafe(s, p, t, w) && PlacedAt(s, p, t);
    }
    FrameInv(s, s', p, p, w, w);
  }

  lemma KeepBackRetry(s: State, p: Places, w: nat)
    requires Inv(s, p) && w < |s.pc| && s.pc[w].BackCas?
    ensures Inv(Retry(s, w), p)
  {
    var s' := Retry(s, w);
    assert PlacedAt(s, p, w) && OwnerSafe(s, p, w);
    FramePlaced(s, s', p, p, w, w);
    forall t | 0 <= t < |s.pc| && t != w && OwnerSafe(s', p, t) ensures PairSafe(s', p, t, w) {
      assert PairSafe(s, p, t, w) && PlacedAt(s, p, t);
    }
    FrameInv(s, s', p, p, w, w);
  }

  lemma KeepPushStore(s: State, p: Places, w: nat)
    requires Inv(s, p) && w < |s.pc| && s.pc[w].PushStore?
    ensures Inv(DoStep(s, w), p)
  {
    var s' := DoStep(s, w);
    assert PlacedAt(s, p, w);
    SegFrame(s.next, s'.next, s.head[w], p.q[w]);
    FramePlaced(s, s', p, p, w, w);
    Quiet(s, s', p, p, w);
  }

  lemma KeepPopClear(s: State, p: Places, w: nat)
    requires Inv(s, p) && w < |s.pc| && s.pc[w].PopClear?
    ensures Inv(DoStep(s, w), p)
  {
    var s' := DoStep(s, w);
    assert PlacedAt(s, p, w);
    SegFrame(s.next, s'.next, s.head[w], p.q[w]);
    FramePlaced(s, s', p, p, w, w);
    Quiet(s, s', p, p, w);
  }

  lemma KeepListStore(s: State, p: Places, w: nat)
    requires Inv(s, p) && w < |s.pc| && s.pc[w].ListStore?
    ensures Inv(DoStep(s, w), p)
  {
    var s' := DoStep(s, w);
    assert PlacedAt(s, p, w);
    SegFrame(s.next, s'.next, s.head[w], p.q[w]);
    FramePlaced(s, s', p, p, w, w);
    Quiet(s, s', p, p, w);
  }

  lemma PlacedBackStore(s: State, p: Places, w: nat)
    requires Placed(s, p) && w < |s.pc| && s.pc[w].BackStore?
    ensures Placed(DoStep(s, w), p)
  {
    var s' := DoStep(s, w);
    assert PlacedAt(s, p, w);
    SegFrame(s.next, s'.next, s.head[w], p.q[w]);
    SegFrame(s.next, s'.next, s.pc[w].list, p.list[w]);
    FramePlaced(s, s', p, p, w, w);
  }

  lemma KeepBackStore(s: State, p: Places, w: nat)
    requires Inv(s, p) && w < |s.pc| && s.pc[w].BackStore?
    ensures Inv(DoStep(s, w), p)
  {
    var s' := DoStep(s, w);
    PlacedBackStore(s, p, w);
    assert PlacedAt(s, p, w) && OwnerSafe(s, p, w);
    forall t | 0 <= t < |s.pc| && t != w && OwnerSafe(s', p, t) ensures PairSafe(s', p, t, w) {
      PairBackStore(s, p, w, t);
    }
    FrameInv(s, s', p, p, w, w);
  }

  /** The swap-back store: a fiber the owner t has read keeps its link. */
  lemma PairBackStore(s: State, p: Places, w: nat, t: nat)
    requires Placed(s, p) && w < |s.pc| && s.pc[w].BackStore? && t < |s.pc| && t != w
    requires Placed(DoStep(s, w), p) && OwnerSafe(DoStep(s, w), p, t) && OwnerSafe(s, p, t) && PairSafe(s, p, t, w)
    ensures PairSafe(DoStep(s, w), p, t, w)
  {
    assert PlacedAt(s, p, w);
  }

  ghost function PushPlaces(p: Places, w: nat, f: Ptr): Places
    requires w < |p.q| && f < |p.loc|
  {
    p.(q := p.q[w := [f] + p.q[w]], loc := p.loc[f := InQueue(w)])
  }

  lemma AtPushCas(s: State, p: Places, w: nat)
    requires SameSizes(s, s, p, p) && w < |s.pc| && PlacedAt(s, p, w) && s.pc[w].PushCas? && s.head[w] == s.pc[w].h
    ensures s.pc[w].f < |p.loc| && PlacedAt(DoStep(s, w), PushPlaces(p, w, s.pc[w].f), w)
  {
    var f := s.pc[w].f;
    var p' := PushPlaces(p, w, f);
    HoldsCons(p.loc, p.q[w], InQueue(w), f);
    ChainAppend(s.next, f, [f], s.head[w], p.q[w]);
    HoldsFrame(p.loc, p'.loc, p.list[w], InList(w));
    HoldsFrame(p.loc, p'.loc, p.rest[w], InRest(w));
  }

  lemma PlacedPushCas(s: State, p: Places, w: nat)
    requires Placed(s, p) && w < |s.pc| && s.pc[w].PushCas? && s.head[w] == s.pc[w].h
    requires 0 < s.pc[w].f < |p.loc| && p.loc[s.pc[w].f] == InHand(w)
    ensures Placed(DoStep(s, w), PushPlaces(p, w, s.pc[w].f))
  {
    assert PlacedAt(s, p, w);
    AtPushCas(s, p, w);
    FramePlaced(s, DoStep(s, w), p, PushPlaces(p, w, s.pc[w].f), w, w);
  }

  lemma KeepPushCas(s: State, p: Places, w: nat) returns (p': Places)
    requires Inv(s, p) && w < |s.pc| && s.pc[w].PushCas? && s.head[w] == s.pc[w].h
    ensures Inv(DoStep(s, w), p') && s.pc[w].f < |p.loc| && p'.loc == p.loc[s.pc[w].f := InQueue(w)]
  {
    assert PlacedAt(s, p, w);
    p' := PushPlaces(p, w, s.pc[w].f);
    PlacedPushCas(s, p, w);
    Quiet(s, DoStep(s, w), p, p', w);
  }

  ghost function PopPlaces(p: Places, w: nat): Places
    requires w < |p.q| && p.q[w] != [] && p.q[w][0] < |p.loc|
  {
    p.(q := p.q[w := p.q[w][1..]], loc := p.loc[p.q[w][0] := InHand(w)])
  }

  lemma AtPopCas(s: State, p: Places, w: nat)
    requires SameSizes(s, s, p, p) && w < |s.pc| && PlacedAt(s, p, w) && s.pc[w].PopCas? && s.head[w] == s.pc[w].h
    requires p.q[w] != [] && p.q[w][0] == s.pc[w].h && 0 < s.pc[w].h < |p.loc|
    requires s.next[s.pc[w].h] == s.pc[w].nx
    ensures PlacedAt(DoStep(s, w), PopPlaces(p, w), w)
  {
    var p' := PopPlaces(p, w);
    HoldsTail(p.loc, p.q[w], InQueue(w), InHand(w));
    HoldsFrame(p.loc, p'.loc, p.list[w], InList(w));
    HoldsFrame(p.loc, p'.loc, p.rest[w], InRest(w));
    ChainTail(s.next, s.head[w], p.q[w]);
  }

  lemma PlacedPopCas(s: State, p: Places, w: nat)
    requires Placed(s, p) && w < |s.pc| && s.pc[w].PopCas? && s.head[w] == s.pc[w].h
    requires p.q[w] != [] && p.q[w][0] == s.pc[w].h && 0 < s.pc[w].h < |p.loc| && p.loc[s.pc[w].h] == InQueue(w)
    requires s.next[s.pc[w].h] == s.pc[w].nx
    ensures Placed(DoStep(s, w), PopPlaces(p, w))
  {
    assert PlacedAt(s, p, w);
    AtPopCas(s, p, w);
    FramePlaced(s, DoStep(s, w), p, PopPlaces(p, w), w, w);
  }

  lemma KeepPopCas(s: State, p: Places, w: nat) returns (p': Places)
    requires Inv(s, p) && w < |s.pc| && s.pc[w].PopCas? && s.head[w] == s.pc[w].h
    ensures Inv(DoStep(s, w), p') && s.pc[w].h < |p.loc| && p'.loc == p.loc[s.pc[w].h := InHand(w)]
  {
    assert OwnerSafe(s, p, w) && PlacedAt(s, p, w);
    assert p.q[w][0] == s.pc[w].h;
    p' := PopPlaces(p, w);
    PlacedPopCas(s, p, w);
    Quiet(s, DoStep(s, w), p, p', w);
  }

  ghost function ListPlaces(p: Places, w: nat): Places
    requires w < |p.q| == |p.list|
  {
    p.(q := p.q[w := p.list[w] + p.q[w]], list := p.list[w := []], loc := Move(p.loc, InList(w), InQueue(w)))
  }

  lemma AtListCas(s: State, p: Places, w: nat)
    requires Placed(s, p) && w < |s.pc| && s.pc[w].ListCas? && s.head[w] == s.pc[w].h
    ensures PlacedAt(DoStep(s, w), ListPlaces(p, w), w)
  {
    var s', p' := DoStep(s, w), ListPlaces(p, w);
    assert PlacedAt(s, p, w);
    HoldsMove(p.loc, p.list[w], InList(w), p.q[w], InQueue(w));
    ChainAppend(s.next, s.pc[w].list, p.list[w], s.head[w], p.q[w]);
    HoldsFrame(p.loc, p'.loc, p.rest[w], InRest(w));
  }

  lemma PlacedListCas(s: State, p: Places, w: nat)
    requires Placed(s, p) && w < |s.pc| && s.pc[w].ListCas? && s.head[w] == s.pc[w].h
    ensures Placed(DoStep(s, w), ListPlaces(p, w))
  {
    AtListCas(s, p, w);
    FramePlaced(s, DoStep(s, w), p, ListPlaces(p, w), w, w);
  }

  lemma KeepListCas(s: State, p: Places, w: nat) returns (p': Places)
    requires Inv(s, p) && w < |s.pc| && s.pc[w].ListCas? && s.head[w] == s.pc[w].h
    ensures Inv(DoStep(s, w), p') && p'.loc == Move(p.loc, InList(w), InQueue(w))
  {
    p' := ListPlaces(p, w);
    PlacedListCas(s, p, w);
    Quiet(s, DoStep(s, w), p, p', w);
  }

  /** Worker w detaches the queue of worker v (its own, or a victim's). */
  ghost function XchgPlaces(p: Places, w: nat, v: nat): Places
    requires w < |p.q| == |p.list| && v < |p.q|
  {
    p.(q := p.q[v := []], list := p.list[w := p.q[v]], loc := Move(p.loc, InQueue(v), InList(w)))
  }

  lemma AtBestXchg(s: State, p: Places, w: nat)
    requires Placed(s, p) && w < |s.pc| && s.pc[w].BestXchg?
    ensures PlacedAt(DoStep(s, w), XchgPlaces(p, w, w), w)
  {
    var s', p' := DoStep(s, w), XchgPlaces(p, w, w);
    assert PlacedAt(s, p, w);
    HoldsRename(p.loc, p.q[w], InQueue(w), InList(w));
    HoldsFrame(p.loc, p'.loc, p.rest[w], InRest(w));
  }

  lemma PlacedBestXchg(s: State, p: Places, w: nat)
    requires Placed(s, p) && w < |s.pc| && s.pc[w].BestXchg?
    ensures Placed(DoStep(s, w), XchgPlaces(p, w, w))
  {
    AtBestXchg(s, p, w);
    FramePlaced(s, DoStep(s, w), p, XchgPlaces(p, w, w), w, w);
  }

  lemma KeepBestXchg(s: State, p: Places, w: nat) returns (p': Places)
    requires Inv(s, p) && w < |s.pc| && s.pc[w].BestXchg?
    ensures Inv(DoStep(s, w), p') && p'.loc == Move(p.loc, InQueue(w), InList(w))
  {
    p' := XchgPlaces(p, w, w);
    PlacedBestXchg(s, p, w);
    Quiet(s, DoStep(s, w), p, p', w);
  }

  lemma AtStealXchg(s: State, p: Places, w: nat)
    requires Placed(s, p) && w < |s.pc| && s.pc[w].StealXchg? && s.pc[w].v < |s.pc| && s.pc[w].v != w
    ensures PlacedAt(DoStep(s, w), XchgPlaces(p, w, s.pc[w].v), w)
  {
    var v := s.pc[w].v;
    var s', p' := DoStep(s, w), XchgPlaces(p, w, v);
    assert PlacedAt(s, p, w) && PlacedAt(s, p, v);
    HoldsRename(p.loc, p.q[v], InQueue(v), InList(w));
    HoldsFrame(p.loc, p'.loc, p.rest[w], InRest(w));
    HoldsFrame(p.loc, p'.loc, p.q[w], InQueue(w));
  }

  lemma VictimStealXchg(s: State, p: Places, w: nat)
    requires Placed(s, p) && w < |s.pc| && s.pc[w].StealXchg? && s.pc[w].v < |s.pc| && s.pc[w].v != w
    ensures PlacedAt(DoStep(s, w), XchgPlaces(p, w, s.pc[w].v), s.pc[w].v)
  {
    var v := s.pc[w].v;
    var s', p' := DoStep(s, w), XchgPlaces(p, w, v);
    assert PlacedAt(s, p, v);
    HoldsFrame(p.loc, p'.loc, p.list[v], InList(v));
    HoldsFrame(p.loc, p'.loc, p.rest[v], InRest(v));
  }

  lemma PlacedStealXchg(s: State, p: Places, w: nat)
    requires Placed(s, p) && w < |s.pc| && s.pc[w].StealXchg? && s.pc[w].v < |s.pc| && s.pc[w].v != w
    ensures Placed(DoStep(s, w), XchgPlaces(p, w, s.pc[w].v))
  {
    var s', p' := DoStep(s, w), XchgPlaces(p, w, s.pc[w].v);
    forall u | 0 <= u < |s.pc| ensures PlacedAt(s', p', u) {
      if u == w { AtStealXchg(s, p, w); }
      else if u == s.pc[w].v { VictimStealXchg(s, p, w); }
      else { OthersStealXchg(s, p, w, u); }
    }
  }

  lemma OthersStealXchg(s: State, p: Places, w: nat, u: nat)
    requires Placed(s, p) && w < |s.pc| && s.pc[w].StealXchg? && s.pc[w].v < |s.pc| && s.pc[w].v != w
    requires u < |s.pc| && u != w && u != s.pc[w].v
    ensures PlacedAt(DoStep(s, w), XchgPlaces(p, w, s.pc[w].v), u)
  {
    FrameAt(s, DoStep(s, w), p, XchgPlaces(p, w, s.pc[w].v), u);
  }

  lemma KeepStealXchg(s: State, p: Places, w: nat) returns (p': Places)
    requires Inv(s, p) && w < |s.pc| && s.pc[w].StealXchg?
    ensures Inv(DoStep(s, w), p') && p'.loc == Move(p.loc, InQueue(s.pc[w].v), InList(w))
  {
    var s' := DoStep(s, w);
    var v := s.pc[w].v;
    assert OwnerSafe(s, p, w);
    p' := XchgPlaces(p, w, v);
    PlacedStealXchg(s, p, w);
    assert PlacedAt(s, p, w) && OwnerSafe(s, p, v);
    assert OwnerSafe(s', p', w) && OwnerSafe(s', p', v);
    forall t | 0 <= t < |s.pc| && t != v ensures PairSafe(s', p', v, t) {
      if t != w { assert PairSafe(s, p, v, t); }
    }
    FrameInv(s, s', p, p', w, v);
  }

  ghost function BackPlaces(p: Places, w: nat, v: nat): Places
    requires w < |p.q| == |p.rest| && v < |p.q|
  {
    p.(q := p.q[v := p.rest[w] + p.q[v]], rest := p.rest[w := []], loc := Move(p.loc, InRest(w), InQueue(v)))
  }

  lemma AtBackCas(s: State, p: Places, w: nat)
    requires Placed(s, p) && w < |s.pc| && s.pc[w].BackCas? && s.pc[w].v < |s.pc| && s.pc[w].v != w
    requires s.head[s.pc[w].v] == s.pc[w].h
    ensures PlacedAt(DoStep(s, w), BackPlaces(p, w, s.pc[w].v), w)
  {
    var v := s.pc[w].v;
    var s', p' := DoStep(s, w), BackPlaces(p, w, v);
    assert PlacedAt(s, p, w) && PlacedAt(s, p, v);
    HoldsMove(p.loc, p.rest[w], InRest(w), p.q[v], InQueue(v));
    HoldsFrame(p.loc, p'.loc, p.list[w], InList(w));
    HoldsFrame(p.loc, p'.loc, p.q[w], InQueue(w));
  }

  lemma VictimBackCas(s: State, p: Places, w: nat)
    requires Placed(s, p) && w < |s.pc| && s.pc[w].BackCas? && s.pc[w].v < |s.pc| && s.pc[w].v != w
    requires s.head[s.pc[w].v] == s.pc[w].h
    ensures PlacedAt(DoStep(s, w), BackPlaces(p, w, s.pc[w].v), s.pc[w].v)
  {
    var v := s.pc[w].v;
    var p' := BackPlaces(p, w, v);
    assert Holds(p.loc, p.rest[w], InRest(w)) && Registers(s.next, s.pc[w], p.list[w], p.rest[w]) by {
      assert PlacedAt(s, p, w);
    }
    BackChain(s.next, s.pc[w], p.list[w], p.rest[w], p.q[v], s.head[v]) by { assert PlacedAt(s, p, v); }
    VictimHolds(s, p, p', w, v);
  }

  lemma BackChain(next: seq<Ptr>, pc: Pc, list: seq<Ptr>, rest: seq<Ptr>, q: seq<Ptr>, head: Ptr)
    requires pc.BackCas? && Registers(next, pc, list, rest) && Chain(next, head, q) && head == pc.h
    ensures Chain(next, pc.rest, rest + q)
  {
    ChainAppend(next, pc.rest, rest, head, q);
  }

  lemma VictimHolds(s: State, p: Places, p': Places, w: nat, v: nat)
    requires SameSizes(s, s, p, p) && w < |s.pc| && v < |s.pc| && v != w && PlacedAt(s, p, v)
    requires Holds(p.loc, p.rest[w], InRest(w)) && p' == BackPlaces(p, w, v)
    ensures Holds(p'.loc, p'.q[v], InQueue(v)) && Holds(p'.loc, p'.list[v], InList(v)) && Holds(p'.loc, p'.rest[v], InRest(v))
    ensures forall x :: x in s.hand[v] ==> 0 < x < |p'.loc| && p'.loc[x] == InHand(v)
  {
    HoldsMove(p.loc, p.rest[w], InRest(w), p.q[v], InQueue(v));
    HoldsFrame(p.loc, p'.loc, p.list[v], InList(v));
    HoldsFrame(p.loc, p'.loc, p.rest[v], InRest(v));
  }

  lemma OthersBackCas(s: State, p: Places, w: nat, u: nat)
    requires Placed(s, p) && w < |s.pc| && s.pc[w].BackCas? && s.pc[w].v < |s.pc| && s.pc[w].v != w
    requires s.head[s.pc[w].v] == s.pc[w].h && u < |s.pc| && u != w && u != s.pc[w].v
    ensures PlacedAt(DoStep(s, w), BackPlaces(p, w, s.pc[w].v), u)
  {
    FrameAt(s, DoStep(s, w), p, BackPlaces(p, w, s.pc[w].v), u);
  }

  lemma PlacedBackCas(s: State, p: Places, w: nat)
    requires Placed(s, p) && w < |s.pc| && s.pc[w].BackCas? && s.pc[w].v < |s.pc| && s.pc[w].v != w
    requires s.head[s.pc[w].v] == s.pc[w].h
    ensures Placed(DoStep(s, w), BackPlaces(p, w, s.pc[w].v))
  {
    var s', p' := DoStep(s, w), BackPlaces(p, w, s.pc[w].v);
    forall u | 0 <= u < |s.pc| ensures PlacedAt(s', p', u) {
      if u == w { AtBackCas(s, p, w); }
      else if u == s.pc[w].v { VictimBackCas(s, p, w); }
      else { OthersBackCas(s, p, w, u); }
    }
  }

  lemma KeepBackCas(s: State, p: Places, w: nat) returns (p': Places)
    requires Inv(s, p) && w < |s.pc| && s.pc[w].BackCas? && Load(s.head, s.pc[w].v) == s.pc[w].h
    ensures Inv(DoStep(s, w), p') && p'.loc == Move(p.loc, InRest(w), InQueue(s.pc[w].v))
  {
    var s' := DoStep(s, w);
    var v := s.pc[w].v;
    assert OwnerSafe(s, p, w);
    p' := BackPlaces(p, w, v);
    PlacedBackCas(s, p, w);
    BackOwner(s, p, w);
    forall t | 0 <= t < |s.pc| && t != v ensures PairSafe(s', p', v, t) { BackPair(s, p, w, t); }
    FrameInv(s, s', p, p', w, v);
  }

  lemma BackOwner(s: State, p: Places, w: nat)
    requires Inv(s, p) && w < |s.pc| && s.pc[w].BackCas? && Load(s.head, s.pc[w].v) == s.pc[w].h
    requires s.pc[w].v < |s.pc| && s.pc[w].v != w && Placed(DoStep(s, w), BackPlaces(p, w, s.pc[w].v))
    ensures OwnerSafe(DoStep(s, w), BackPlaces(p, w, s.pc[w].v), w)
    ensures OwnerSafe(DoStep(s, w), BackPlaces(p, w, s.pc[w].v), s.pc[w].v)
  {
    var v := s.pc[w].v;
    assert PlacedAt(s, p, w) && OwnerSafe(s, p, v) && PairSafe(s, p, v, w);
  }

  /** After the older half is back, its owner may swap against what it read. */
  lemma BackPair(s: State, p: Places, w: nat, t: nat)
    requires Inv(s, p) && w < |s.pc| && s.pc[w].BackCas? && Load(s.head, s.pc[w].v) == s.pc[w].h
    requires s.pc[w].v < |s.pc| && s.pc[w].v != w && t < |s.pc| && t != s.pc[w].v
    requires Placed(DoStep(s, w), BackPlaces(p, w, s.pc[w].v)) && OwnerSafe(DoStep(s, w), BackPlaces(p, w, s.pc[w].v), s.pc[w].v)
    ensures PairSafe(DoStep(s, w), BackPlaces(p, w, s.pc[w].v), s.pc[w].v, t)
  {
    assert |s.pc| > 2 ==> !InPop(s.pc[s.pc[w].v]);
    assert OwnerSafe(s, p, s.pc[w].v) && PlacedAt(s, p, w);
  }

  lemma HoldsRemove(loc: seq<Loc>, l: seq<Ptr>, pl: Loc, b: nat, other: Loc)
    requires Holds(loc, l, pl) && b < |l| && other != pl
    ensures Holds(loc[l[b] := other], l[..b] + l[b + 1..], pl)
  {
    var m := l[..b] + l[b + 1..];
    var loc' := loc[l[b] := other];
    forall x | 0 < x < |loc'| && loc'[x] == pl ensures x in m {
      var i :| 0 <= i < |l| && l[i] == x;
      if i < b { assert m[i] == x; } else { assert m[i - 1] == x; }
    }
  }

  /** Unlinking one cell of a detached list leaves a list of the others. */
  lemma SegRemove(next: seq<Ptr>, p: Ptr, l: seq<Ptr>, b: nat)
    requires Chain(next, p, l) && b < |l| && |l| > 1
    requires forall i, j :: 0 <= i < j < |l| ==> l[i] != l[j]
    ensures var next1 := if b > 0 then next[l[b - 1] := next[l[b]]] else next;
            var list := if b > 0 then l[0] else next[l[b]];
            Chain(next1[l[b] := 0], list, l[..b] + l[b + 1..])
  {
    var m := l[..b] + l[b + 1..];
    var next1 := if b > 0 then next[l[b - 1] := next[l[b]]] else next;
    var next2 := next1[l[b] := 0];
    forall i, j | 0 <= i && j == i + 1 && j < |m| ensures next2[m[i]] == m[j] {
      if i == b - 1 { assert next[l[b]] == l[b + 1]; }
    }
  }

  ghost function BestPlaces(p: Places, w: nat, b: nat): Places
    requires w < |p.list| && b < |p.list[w]| && p.list[w][b] < |p.loc|
  {
    var l := p.list[w];
    p.(list := p.list[w := l[..b] + l[b + 1..]], loc := p.loc[l[b] := InHand(w)])
  }

  ghost predicate Scanning(s: State, p: Places, w: nat, b: nat) {
    && Placed(s, p) && w < |s.pc| && s.pc[w].BestScan? && b < |p.list[w]|
    && Chain(s.next, s.pc[w].list, p.list[w])
    && (forall i :: 0 <= i < |p.list[w]| ==> 0 < p.list[w][i] < |p.loc|)
  }

  lemma AtBest(s: State, p: Places, w: nat, b: nat)
    requires Scanning(s, p, w, b)
    ensures PlacedAt(Unlink(s, w, p.list[w], b), BestPlaces(p, w, b), w)
  {
    BestLinks(s, p, w, b);
    BestHolds(s, p, w, b);
  }

  lemma BestHolds(s: State, p: Places, w: nat, b: nat)
    requires Placed(s, p) && w < |s.pc| && s.pc[w].BestScan? && b < |p.list[w]|
    ensures forall i :: 0 <= i < |p.list[w]| ==> 0 < p.list[w][i] < |p.loc|
    ensures var p' := BestPlaces(p, w, b);
            && Holds(p'.loc, p'.q[w], InQueue(w)) && Holds(p'.loc, p'.list[w], InList(w)) && Holds(p'.loc, p'.rest[w], InRest(w))
            && (forall x :: x in s.hand[w] + {p.list[w][b]} ==> 0 < x < |p'.loc| && p'.loc[x] == InHand(w))
            && p'.rest[w] == []
  {
    var l := p.list[w];
    assert PlacedAt(s, p, w);
    var p' := BestPlaces(p, w, b);
    HoldsRemove(p.loc, l, InList(w), b, InHand(w));
    HoldsFrame(p.loc, p'.loc, p.q[w], InQueue(w));
    HoldsFrame(p.loc, p'.loc, p.rest[w], InRest(w));
  }

  lemma BestLinks(s: State, p: Places, w: nat, b: nat)
    requires Scanning(s, p, w, b)
    ensures var l := p.list[w];
            var s' := Unlink(s, w, l, b);
            && Registers(s'.next, s'.pc[w], l[..b] + l[b + 1..], [])
            && Chain(s'.next, s.head[w], p.q[w])
            && (forall x :: 0 < x < |s.next| && p.loc[x] != InList(w) ==> s'.next[x] == s.next[x])
  {
    var l := p.list[w];
    var s' := Unlink(s, w, l, b);
    assert Holds(p.loc, l, InList(w)) && Chain(s.next, s.head[w], p.q[w]) && Holds(p.loc, p.q[w], InQueue(w)) by {
      assert PlacedAt(s, p, w);
    }
    BestUnlink(s.next, s'.next, s.pc[w].list, l, b, p.loc, w);
    OtherChain(s.next, s'.next, s.head[w], p.q[w], p.loc, InQueue(w), InList(w));
    if |l| > 1 { BestTail(l, b); }
  }

  /** Writing links at one place leaves the lists at another place alone. */
  lemma OtherChain(next: seq<Ptr>, next': seq<Ptr>, p: Ptr, l: seq<Ptr>, loc: seq<Loc>, pl: Loc, touched: Loc)
    requires Chain(next, p, l) && |next'| == |next| == |loc| && Holds(loc, l, pl) && pl != touched
    requires forall x :: 0 < x < |next| && loc[x] != touched ==> next'[x] == next[x]
    ensures Chain(next', p, l)
  {
    SegFrame(next, next', p, l);
  }

  lemma BestTail(l: seq<Ptr>, b: nat)
    requires b < |l| && |l| > 1
    ensures var m := l[..b] + l[b + 1..];
            m[|m| - 1] == if b < |l| - 1 then l[|l| - 1] else l[b - 1]
  {
  }

  lemma BestUnlink(next: seq<Ptr>, next': seq<Ptr>, p: Ptr, l: seq<Ptr>, b: nat, loc: seq<Loc>, w: nat)
    requires Chain(next, p, l) && b < |l| && |loc| == |next| && Holds(loc, l, InList(w))
    requires next' == (if b > 0 then next[l[b - 1] := next[l[b]]] else next)[l[b] := 0]
    ensures |l| > 1 ==> Chain(next', if b > 0 then l[0] else next[l[b]], l[..b] + l[b + 1..])
    ensures forall x :: 0 < x < |next| && loc[x] != InList(w) ==> next'[x] == next[x]
  {
    if |l| > 1 { SegRemove(next, p, l, b); }
  }

  lemma PlacedBest(s: State, p: Places, w: nat, b: nat)
    requires Scanning(s, p, w, b)
    ensures Placed(Unlink(s, w, p.list[w], b), BestPlaces(p, w, b))
  {
    AtBest(s, p, w, b);
    BestLinks(s, p, w, b);
    var l := p.list[w];
    assert p.loc[l[b]] == InList(w) by { assert PlacedAt(s, p, w); }
    BestFrame(s, Unlink(s, w, l, b), p, BestPlaces(p, w, b), w, l[b]);
  }

  /** Only lists of worker w changed, and the fiber x went to its hand. */
  lemma BestFrame(s: State, s': State, p: Places, p': Places, w: nat, x: Ptr)
    requires Placed(s, p) && SameSizes(s, s', p, p') && w < |s.pc| && 0 < x < |p.loc| && p.loc[x] == InList(w)
    requires s'.head == s.head && s'.pc == s.pc[w := s'.pc[w]] && s'.hand == s.hand[w := s.hand[w] + {x}]
    requires p'.q == p.q && p'.rest == p.rest && p'.list == p.list[w := p'.list[w]]
    requires p'.loc == p.loc[x := InHand(w)]
    requires forall y :: 0 < y < |s.next| && p.loc[y] != InList(w) ==> s'.next[y] == s.next[y]
    requires PlacedAt(s', p', w)
    ensures Placed(s', p')
  {
    FramePlaced(s, s', p, p', w, w);
  }

  lemma KeepUnlink(s: State, p: Places, w: nat, b: nat)
    requires Inv(s, p) && Scanning(s, p, w, b)
    ensures Inv(Unlink(s, w, p.list[w], b), BestPlaces(p, w, b))
  {
    var s', p' := Unlink(s, w, p.list[w], b), BestPlaces(p, w, b);
    assert Placed(s', p') by { PlacedBest(s, p, w, b); }
    forall u | 0 <= u < |s.pc| && u != w ensures Untouched(s, s', p, p', u) { BestUntouched(s, p, w, b, u); }
    Quiet(s, s', p, p', w);
  }

  lemma BestUntouched(s: State, p: Places, w: nat, b: nat, u: nat)
    requires Scanning(s, p, w, b) && u < |s.pc| && u != w
    ensures SameSizes(s, Unlink(s, w, p.list[w], b), p, BestPlaces(p, w, b))
    ensures Untouched(s, Unlink(s, w, p.list[w], b), p, BestPlaces(p, w, b), u)
  {
    BestLinks(s, p, w, b);
    assert p.loc[p.list[w][b]] == InList(w) by { assert PlacedAt(s, p, w); }
  }

  lemma KeepBest(s: State, p: Places, w: nat, l: seq<Ptr>) returns (p': Places)
    requires Inv(s, p) && Enabled(s, Scan(w, l)) && s.pc[w].BestScan?
    ensures Inv(DoBest(s, w, l), p') && p'.loc == ScanLoc(s, p.loc, w, l)
  {
    assert PlacedAt(s, p, w);
    ChainUnique(s.next, s.pc[w].list, l, p.list[w]);
    var b := BestIndex(s.priority, l);
    KeepUnlink(s, p, w, b);
    p' := BestPlaces(p, w, b);
  }

  ghost function SplitPlaces(p: Places, w: nat, half: nat): (r: Places)
    requires w < |p.list| == |p.rest| && half <= |p.list[w]|
    ensures |r.loc| == |p.loc|
  {
    var l := p.list[w];
    p.(list := p.list[w := l[..half]], rest := p.rest[w := l[half..]],
       loc := SplitLoc(p.loc, l, half, w))
  }

  lemma HoldsSplit(loc: seq<Loc>, loc': seq<Loc>, l: seq<Ptr>, half: nat, from: Loc, to: Loc)
    requires Holds(loc, l, from) && Holds(loc, [], to) && half <= |l| && from != to && |loc'| == |loc|
    requires forall i :: 0 <= i < |loc| ==> loc'[i] == if i in l[half..] then to else loc[i]
    ensures Holds(loc', l[..half], from) && Holds(loc', l[half..], to)
  {
    forall x | 0 < x < |loc'| && loc'[x] == from ensures x in l[..half] {
      assert x in l && x !in l[half..];
      assert l == l[..half] + l[half..];
    }
    forall i | 0 <= i < half ensures loc'[l[..half][i]] == from {
      assert l[i] !in l[half..];
    }
  }

  lemma SplitLinks(next: seq<Ptr>, next': seq<Ptr>, p: Ptr, l: seq<Ptr>, half: nat, v: nat)
    requires Chain(next, p, l) && 0 < half < |l|
    requires forall i, j :: 0 <= i < j < |l| ==> l[i] != l[j]
    requires next' == next[l[half - 1] := 0]
    ensures Registers(next', BackLoad(v, l[0], l[half - 1], l[half], l[|l| - 1]), l[..half], l[half..])
  {
    var a, b := l[..half], l[half..];
    forall i, j | 0 <= i && j == i + 1 && j < |b| ensures next'[b[i]] == b[j] {
      assert b[i] == l[half + i] && b[j] == l[half + j];
    }
  }

  lemma SplitHolds(s: State, p: Places, w: nat, half: nat)
    requires Placed(s, p) && w < |s.pc| && s.pc[w].StealSplit? && half <= |p.list[w]|
    ensures var p' := SplitPlaces(p, w, half);
            && Holds(p'.loc, p'.q[w], InQueue(w)) && Holds(p'.loc, p'.list[w], InList(w)) && Holds(p'.loc, p'.rest[w], InRest(w))
            && (forall x :: x in s.hand[w] ==> 0 < x < |p'.loc| && p'.loc[x] == InHand(w))
            && (forall x :: 0 < x < |p.loc| && p'.loc[x] != p.loc[x] ==> p.loc[x] == InList(w) && p'.loc[x] == InRest(w))
  {
    var p' := SplitPlaces(p, w, half);
    assert Holds(p.loc, p.list[w], InList(w)) && Holds(p.loc, p.q[w], InQueue(w)) && p.rest[w] == [] && Holds(p.loc, p.rest[w], InRest(w)) by {
      assert PlacedAt(s, p, w);
    }
    assert forall x :: x in s.hand[w] ==> 0 < x < |p.loc| && p.loc[x] == InHand(w) by { assert PlacedAt(s, p, w); }
    SplitMoves(p, w, half);
    HoldsSplit(p.loc, p'.loc, p.list[w], half, InList(w), InRest(w));
    HoldsFrame(p.loc, p'.loc, p.q[w], InQueue(w));
  }

  lemma SplitMoves(p: Places, w: nat, half: nat)
    requires w < |p.list| == |p.rest| && half <= |p.list[w]| && Holds(p.loc, p.list[w], InList(w))
    ensures forall x :: 0 <= x < |p.loc| && SplitPlaces(p, w, half).loc[x] != p.loc[x] ==>
      p.loc[x] == InList(w) && SplitPlaces(p, w, half).loc[x] == InRest(w)
  {
    var l := p.list[w];
    forall x | 0 <= x < |p.loc| && x in l[half..] ensures p.loc[x] == InList(w) {
      assert x in l;
    }
  }

  lemma AtSplit(s: State, p: Places, w: nat)
    requires Placed(s, p) && w < |s.pc| && s.pc[w].StealSplit? && Enabled(s, Scan(w, p.list[w])) && |p.list[w]| >= 2
    ensures PlacedAt(DoSplit(s, w, p.list[w]), SplitPlaces(p, w, |p.list[w]| / 2), w)
  {
    var l := p.list[w];
    var half := |l| / 2;
    var s' := DoSplit(s, w, l);
    SplitHolds(s, p, w, half);
    assert Chain(s.next, s.head[w], p.q[w]) && Holds(p.loc, p.q[w], InQueue(w)) && Holds(p.loc, l, InList(w)) by {
      assert PlacedAt(s, p, w);
    }
    OtherChain(s.next, s'.next, s.head[w], p.q[w], p.loc, InQueue(w), InList(w));
    SplitLinks(s.next, s'.next, s.pc[w].list, l, half, s.pc[w].v);
  }

  lemma PlacedSplit(s: State, p: Places, w: nat)
    requires Placed(s, p) && w < |s.pc| && s.pc[w].StealSplit? && Enabled(s, Scan(w, p.list[w])) && |p.list[w]| >= 2
    ensures Placed(DoSplit(s, w, p.list[w]), SplitPlaces(p, w, |p.list[w]| / 2))
  {
    AtSplit(s, p, w);
    assert PlacedAt(s, p, w);
    FramePlaced(s, DoSplit(s, w, p.list[w]), p, SplitPlaces(p, w, |p.list[w]| / 2), w, w);
  }

  lemma PairSplit(s: State, p: Places, w: nat, t: nat)
    requires Placed(s, p) && w < |s.pc| && s.pc[w].StealSplit? && Enabled(s, Scan(w, p.list[w])) && |p.list[w]| >= 2
    requires Placed(DoSplit(s, w, p.list[w]), SplitPlaces(p, w, |p.list[w]| / 2))
    requires t < |s.pc| && t != w && OwnerSafe(s, p, t) && PairSafe(s, p, t, w)
    requires OwnerSafe(DoSplit(s, w, p.list[w]), SplitPlaces(p, w, |p.list[w]| / 2), t)
    ensures PairSafe(DoSplit(s, w, p.list[w]), SplitPlaces(p, w, |p.list[w]| / 2), t, w)
  {
    assert PlacedAt(s, p, w);
  }

  lemma KeepSplit(s: State, p: Places, w: nat, l: seq<Ptr>) returns (p': Places)
    requires Inv(s, p) && Enabled(s, Scan(w, l)) && s.pc[w].StealSplit? && |l| >= 2
    ensures Inv(DoSplit(s, w, l), p') && p'.loc == SplitLoc(p.loc, l, |l| / 2, w)
  {
    assert PlacedAt(s, p, w) && OwnerSafe(s, p, w);
    ChainUnique(s.next, s.pc[w].list, l, p.list[w]);
    p' := SplitPlaces(p, w, |l| / 2);
    KeepOwnSplit(s, p, w);
  }

  lemma KeepOwnSplit(s: State, p: Places, w: nat)
    requires Inv(s, p) && w < |s.pc| && s.pc[w].StealSplit? && Enabled(s, Scan(w, p.list[w])) && |p.list[w]| >= 2
    ensures Inv(DoSplit(s, w, p.list[w]), SplitPlaces(p, w, |p.list[w]| / 2))
  {
    PlacedSplit(s, p, w);
    var s' := DoSplit(s, w, p.list[w]);
    var p' := SplitPlaces(p, w, |p.list[w]| / 2);
    assert OwnerSafe(s, p, w);
    assert forall u :: 0 <= u < |s.pc| && u != w ==> Untouched(s, s', p, p', u) by {
      assert PlacedAt(s, p, w);
    }
    forall t | 0 <= t < |s.pc| && t != w && OwnerSafe(s', p', t) ensures PairSafe(s', p', t, w) {
      assert OwnerSafe(s, p, t) && PairSafe(s, p, t, w);
      PairSplit(s, p, w, t);
    }
    FrameInv(s, s', p, p', w, w);
  }

  lemma KeepSingle(s: State, p: Places, w: nat, l: seq<Ptr>)
    requires Inv(s, p) && Enabled(s, Scan(w, l)) && s.pc[w].StealSplit? && |l| < 2
    ensures Inv(DoSplit(s, w, l), p)
  {
    assert PlacedAt(s, p, w);
    ChainUnique(s.next, s.pc[w].list, l, p.list[w]);
    KeepRegisters(s, p, w, ListLoad(l[0], l[|l| - 1], true));
  }

  lemma AtHand(s: State, s': State, p: Places, p': Places, v: nat)
    requires Placed(s, p) && SameSizes(s, s', p, p') && v < |s.pc|
    requires s'.pc[v] == s.pc[v] && s'.head[v] == s.head[v] && s'.next == s.next
    requires p' == p.(loc := p'.loc)
    requires forall x :: 0 < x < |p.loc| ==> p'.loc[x] == p.loc[x] || (p.loc[x].InHand? && p'.loc[x].InHand?)
    requires forall x :: x in s'.hand[v] ==> 0 < x < |p'.loc| && p'.loc[x] == InHand(v)
    requires InFlight(s.next, s.pc[v], s'.hand[v])
    ensures PlacedAt(s', p', v)
  {
    assert PlacedAt(s, p, v);
    HoldsFrame(p.loc, p'.loc, p.q[v], InQueue(v));
    HoldsFrame(p.loc, p'.loc, p.list[v], InList(v));
    HoldsFrame(p.loc, p'.loc, p.rest[v], InRest(v));
  }

  lemma AtGive(s: State, p: Places, w: nat, u: nat, f: Ptr, v: nat)
    requires Placed(s, p) && Enabled(s, Give(w, u, f)) && f < |p.loc| && (v == w || v == u)
    ensures PlacedAt(Do(s, Give(w, u, f)), p.(loc := p.loc[f := InHand(u)]), v)
  {
    assert PlacedAt(s, p, v) && PlacedAt(s, p, w);
    AtHand(s, Do(s, Give(w, u, f)), p, p.(loc := p.loc[f := InHand(u)]), v);
  }

  lemma PlacedGive(s: State, p: Places, w: nat, u: nat, f: Ptr)
    requires Placed(s, p) && Enabled(s, Give(w, u, f)) && f < |p.loc|
    ensures Placed(Do(s, Give(w, u, f)), p.(loc := p.loc[f := InHand(u)]))
  {
    AtGive(s, p, w, u, f, w);
    AtGive(s, p, w, u, f, u);
    assert p.loc[f] == InHand(w) by { assert PlacedAt(s, p, w); }
    FramePlaced(s, Do(s, Give(w, u, f)), p, p.(loc := p.loc[f := InHand(u)]), w, u);
  }

  lemma KeepGive(s: State, p: Places, w: nat, u: nat, f: Ptr) returns (p': Places)
    requires Inv(s, p) && Enabled(s, Give(w, u, f))
    ensures Inv(Do(s, Give(w, u, f)), p') && f < |p.loc| && p'.loc == p.loc[f := InHand(u)]
  {
    assert PlacedAt(s, p, w);
    p' := p.(loc := p.loc[f := InHand(u)]);
    PlacedGive(s, p, w, u, f);
    KeepHands(s, Do(s, Give(w, u, f)), p, p', w, u);
  }

  /** Only the hands of two workers changed. */
  lemma KeepHands(s: State, s': State, p: Places, p': Places, w: nat, u: nat)
    requires Inv(s, p) && SameSizes(s, s', p, p') && Placed(s', p') && w < |s.pc| && u < |s.pc|
    requires s' == s.(hand := s'.hand) && p' == p.(loc := p'.loc)
    requires forall x :: 0 < x < |p.loc| ==> p'.loc[x] == p.loc[x] || (p.loc[x].InHand? && p'.loc[x].InHand?)
    ensures Inv(s', p')
  {
    forall v | 0 <= v < |s.pc| ensures OwnerSafe(s', p', v) { assert OwnerSafe(s, p, v); }
    forall v, t | 0 <= v < |s.pc| && 0 <= t < |s.pc| && v != t ensures PairSafe(s', p', v, t) {
      assert PairSafe(s, p, v, t) && OwnerSafe(s, p, v);
    }
  }

  lemma AtScribble(s: State, p: Places, w: nat, f: Ptr, v: Ptr, u: nat)
    requires Placed(s, p) && Enabled(s, Scribble(w, f, v)) && u < |s.pc|
    ensures PlacedAt(Do(s, Scribble(w, f, v)), p, u)
  {
    var s' := Do(s, Scribble(w, f, v));
    assert PlacedAt(s, p, w) && PlacedAt(s, p, u);
    assert forall x :: 0 < x < |p.loc| && !p.loc[x].InHand? ==> s'.next[x] == s.next[x];
    SegFrame(s.next, s'.next, s.head[u], p.q[u]);
    FrameRegisters(s.next, s'.next, s.pc[u], p.list[u], p.rest[u]);
  }

  /** The link of a fiber that is on no queue, and that nobody is about to publish,
      is read by nobody who could swap by it. */
  lemma KeepScribble(s: State, p: Places, w: nat, f: Ptr, v: Ptr)
    requires Inv(s, p) && Enabled(s, Scribble(w, f, v))
    ensures Inv(Do(s, Scribble(w, f, v)), p)
  {
    var s' := Do(s, Scribble(w, f, v));
    forall u | 0 <= u < |s.pc| ensures PlacedAt(s', p, u) { AtScribble(s, p, w, f, v, u); }
    assert 0 < f < |p.loc| && p.loc[f] == InHand(w) by { assert PlacedAt(s, p, w); }
    forall u | 0 <= u < |s.pc| ensures OwnerSafe(s', p, u) { assert OwnerSafe(s, p, u); }
    forall u, t | 0 <= u < |s.pc| && 0 <= t < |s.pc| && u != t ensures PairSafe(s', p, u, t) {
      ScribblePair(s, p, w, f, v, u, t);
    }
  }

  lemma ScribblePair(s: State, p: Places, w: nat, f: Ptr, v: Ptr, u: nat, t: nat)
    requires Inv(s, p) && Enabled(s, Scribble(w, f, v)) && Placed(Do(s, Scribble(w, f, v)), p)
    requires u < |s.pc| && t < |s.pc| && u != t && OwnerSafe(Do(s, Scribble(w, f, v)), p, u)
    requires 0 < f < |p.loc| && p.loc[f] == InHand(w)
    ensures PairSafe(Do(s, Scribble(w, f, v)), p, u, t)
  {
    assert PairSafe(s, p, u, t) && OwnerSafe(s, p, u) && PlacedAt(s, p, t);
  }

  lemma KeepPriority(s: State, p: Places, f: Ptr, pr: int)
    requires Inv(s, p) && Enabled(s, SetPriority(f, pr))
    ensures Inv(Do(s, SetPriority(f, pr)), p)
  {
    var s' := Do(s, SetPriority(f, pr));
    forall v | 0 <= v < |s.pc| ensures PlacedAt(s', p, v) { assert PlacedAt(s, p, v); }
    forall v | 0 <= v < |s.pc| ensures OwnerSafe(s', p, v) { assert OwnerSafe(s, p, v); }
    forall v, t | 0 <= v < |s.pc| && 0 <= t < |s.pc| && v != t ensures PairSafe(s', p, v, t) {
      assert PairSafe(s, p, v, t) && OwnerSafe(s, p, v);
    }
  }

  lemma KeepPushStep(s: State, p: Places, w: nat) returns (p': Places)
    requires Inv(s, p) && w < |s.pc| && (s.pc[w].PushLoad? || s.pc[w].PushStore? || s.pc[w].PushCas?)
    ensures Inv(DoStep(s, w), p') && p'.loc == StepLoc(s, p.loc, w)
  {
    p' := p;
    match s.pc[w] {
      case PushLoad(f) =>
        assert PlacedAt(s, p, w);
        KeepRegisters(s, p, w, PushStore(f, s.head[w]));
      case PushStore(_, _) => KeepPushStore(s, p, w);
      case PushCas(f, h) => if s.head[w] == h { p' := KeepPushCas(s, p, w); } else { KeepRetry(s, p, w); }
    }
  }

  lemma KeepPopStep(s: State, p: Places, w: nat) returns (p': Places)
    requires Inv(s, p) && w < |s.pc| && (s.pc[w].PopStart? || InPop(s.pc[w]) || s.pc[w].PopClear?)
    ensures Inv(DoStep(s, w), p') && p'.loc == StepLoc(s, p.loc, w)
  {
    p' := p;
    match s.pc[w] {
      case PopStart => assert PlacedAt(s, p, w); KeepRegisters(s, p, w, if s.prioUsed then BestXchg else PopLoad);
      case PopLoad =>
        if s.head[w] == 0 { assert PlacedAt(s, p, w); KeepRegisters(s, p, w, Idle); } else { KeepPopLoad(s, p, w); }
      case PopRead(_) => KeepPopRead(s, p, w);
      case PopCas(h, _) => if s.head[w] == h { p' := KeepPopCas(s, p, w); } else { KeepRetry(s, p, w); }
      case PopClear(_) => KeepPopClear(s, p, w);
    }
  }

  lemma KeepListStep(s: State, p: Places, w: nat) returns (p': Places)
    requires Inv(s, p) && w < |s.pc| && (s.pc[w].ListLoad? || s.pc[w].ListStore? || s.pc[w].ListCas?)
    ensures Inv(DoStep(s, w), p') && p'.loc == StepLoc(s, p.loc, w)
  {
    p' := p;
    match s.pc[w] {
      case ListLoad(list, tail, again) =>
        assert PlacedAt(s, p, w);
        KeepRegisters(s, p, w, ListStore(list, tail, again, s.head[w]));
      case ListStore(_, _, _, _) => KeepListStore(s, p, w);
      case ListCas(_, _, _, h) => if s.head[w] == h { p' := KeepListCas(s, p, w); } else { KeepRetry(s, p, w); }
    }
  }

  lemma KeepStealStep(s: State, p: Places, w: nat) returns (p': Places)
    requires Inv(s, p) && w < |s.pc| && (s.pc[w].StealXchg? || PuttingBack(s.pc[w]))
    ensures Inv(DoStep(s, w), p') && p'.loc == StepLoc(s, p.loc, w)
  {
    p' := p;
    match s.pc[w] {
      case StealXchg(_) => p' := KeepStealXchg(s, p, w);
      case BackLoad(_, _, _, _, _) => KeepBackLoad(s, p, w);
      case BackStore(_, _, _, _, _, _) => KeepBackStore(s, p, w);
      case BackCas(v, _, _, _, _, h) =>
        if Load(s.head, v) == h { p' := KeepBackCas(s, p, w); } else { KeepRetry(s, p, w); }
    }
  }

  lemma KeepStep(s: State, p: Places, w: nat) returns (p': Places)
    requires Inv(s, p) && Enabled(s, Step(w))
    ensures Inv(DoStep(s, w), p') && p'.loc == StepLoc(s, p.loc, w)
  {
    if s.pc[w].PushLoad? || s.pc[w].PushStore? || s.pc[w].PushCas? { p' := KeepPushStep(s, p, w); }
    else if s.pc[w].PopStart? || InPop(s.pc[w]) || s.pc[w].PopClear? { p' := KeepPopStep(s, p, w); }
    else if s.pc[w].ListLoad? || s.pc[w].ListStore? || s.pc[w].ListCas? { p' := KeepListStep(s, p, w); }
    else if s.pc[w].BestXchg? { p' := KeepBestXchg(s, p, w); }
    else { p' := KeepStealStep(s, p, w); }
  }

  lemma KeepRetry(s: State, p: Places, w: nat)
    requires Inv(s, p) && w < |s.pc| && IsCas(s.pc[w])
    ensures Inv(Retry(s, w), p)
  {
    assert PlacedAt(s, p, w);
    match s.pc[w] {
      case PushCas(f, _) => KeepRegisters(s, p, w, PushLoad(f));
      case PopCas(_, _) => KeepRegisters(s, p, w, PopLoad);
      case ListCas(list, tail, again, _) => KeepRegisters(s, p, w, ListLoad(list, tail, again));
      case BackCas(_, _, _, _, _, _) => KeepBackRetry(s, p, w);
    }
  }

  /** Every step of every worker keeps the invariant. */
  lemma Keep(s: State, p: Places, a: Action) returns (p': Places)
    requires Inv(s, p) && Enabled(s, a)
    ensures Inv(Do(s, a), p') && p'.loc == LocAfter(s, p.loc, a)
  {
    p' := p;
    match a {
      case Give(w, u, f) => p' := KeepGive(s, p, w, u, f);
      case Scribble(w, f, v) => KeepScribble(s, p, w, f, v);
      case SetPriority(f, pr) => KeepPriority(s, p, f, pr);
      case BeginPush(w, f) => assert PlacedAt(s, p, w); KeepRegisters(s, p, w, PushLoad(f));
      case BeginPop(w) => assert PlacedAt(s, p, w); KeepRegisters(s, p, w, PopStart);
      case BeginSteal(w, v) => assert PlacedAt(s, p, w); KeepRegisters(s, p, w, StealXchg(v));
      case Step(w) => p' := KeepStep(s, p, w);
      case Scan(w, l) =>
        if s.pc[w].BestScan? { p' := KeepBest(s, p, w, l); }
        else if |l| >= 2 { p' := KeepSplit(s, p, w, l); }
        else { KeepSingle(s, p, w, l); }
      case CasFails(w) => KeepRetry(s, p, w);
    }
  }

  lemma {:induction false} KeepRun(s: State, p: Places, acts: seq<Action>) returns (p': Places)
    requires Inv(s, p) && Exec(s, acts).Reached?
    ensures Inv(Exec(s, acts).s, p')
    decreases |acts|
  {
    p' := p;
    if acts != [] {
      p' := Keep(s, p, acts[0]);
      p' := KeepRun(Do(s, acts[0]), p', acts[1..]);
    }
  }

  lemma InitInv(s: State, n: nat, prio: bool) returns (p: Places)
    requires Init(s, n, prio) && (n <= 2 || prio)
    ensures Inv(s, p)
  {
    var loc := seq(|s.next|, i requires 0 <= i < |s.next| => if HeldBySomeone(s, i) then InHand(HolderOf(s, i)) else InHand(0));
    p := Places(seq(n, _ => []), seq(n, _ => []), seq(n, _ => []), loc);
    forall w | 0 <= w < n ensures PlacedAt(s, p, w) {
      forall x | x in s.hand[w] ensures 0 < x < |loc| && loc[x] == InHand(w) {
        assert HeldBySomeone(s, x);
      }
    }
    forall x | 0 < x < |loc| ensures loc[x].w < n && x in s.hand[loc[x].w] {
      assert HeldBySomeone(s, x);
    }
  }

  ghost function HolderOf(s: State, x: Ptr): (w: nat)
    requires HeldBySomeone(s, x)
    ensures w < |s.hand| && x in s.hand[w]
  {
    var w :| 0 <= w < |s.hand| && x in s.hand[w]; w
  }

  /** The safe configurations: no run of any length loses or duplicates a fiber. */
  lemma SafeRuns(s0: State, n: nat, prio: bool, acts: seq<Action>)
    requires Init(s0, n, prio) && (n <= 2 || prio) && Exec(s0, acts).Reached?
    ensures Conserved(Exec(s0, acts).s)
  {
    var p := InitInv(s0, n, prio);
    p := KeepRun(s0, p, acts);
  }
}
