/**
 The pool of recycled fibers (runtime/rt_sched.c): a Treiber stack whose head
 word packs a 48-bit address and a 16-bit generation tag.

 Each atomic load, store and compare-and-swap is one step; any number of threads
 push and pop in any interleaving, and the holder of a fiber may overwrite its
 link at any time.  The tag makes the pop safe as long as it does not wrap: the
 pool hands out each fiber once, and loses none, exactly when fewer than 2^16
 updates of the head fall between a pop's load of the head and its swap.
 */
module FiberPool {
  import opened Links

  const PTR_SPAN: nat := 0x1_0000_0000_0000       // 2^48
  const TAG_SPAN: nat := 0x1_0000                 // 2^16
  const WORD_SPAN: nat := 0x1_0000_0000_0000_0000 // 2^64

  /** A 64-bit word. */
  type Word = w: nat | w < WORD_SPAN

  function PtrOf(h: Word): Ptr { h % PTR_SPAN }
  function TagOf(h: Word): nat { h / PTR_SPAN }

  /** (next & PTR_MASK) | ((h + TAG_ONE) & TAG_MASK) */
  function Bump(next: Ptr, h: Word): (r: Word)
    ensures PtrOf(r) == next % PTR_SPAN
    ensures TagOf(r) == (TagOf(h) + 1) % TAG_SPAN
  {
    next % PTR_SPAN + ((h + PTR_SPAN) % WORD_SPAN) / PTR_SPAN * PTR_SPAN
  }

  lemma WordFields(h: Word, g: Word)
    requires PtrOf(h) == PtrOf(g) && TagOf(h) == TagOf(g)
    ensures h == g
  {
  }

  /** A thread's registers; `age` counts the updates of the head since the
      thread loaded h, and no step reads it. */
  datatype Pc =
    | Idle
    | PopTest(h: Word, age: nat)
    | PopSwap(h: Word, nx: Ptr, age: nat)
    | PushLink(f: Ptr, h: Word)
    | PushSwap(f: Ptr, h: Word)

  datatype State = State(next: seq<Ptr>, head: Word, pc: seq<Pc>, hand: seq<set<Ptr>>, dropped: set<Ptr>)

  datatype Action =
    | Give(t: nat, u: nat, f: Ptr)      // a fiber changes hands
    | Scribble(t: nat, f: Ptr, v: Ptr)  // its holder uses the link for something else
    | BeginPop(t: nat)                  // load the head
    | BeginPush(t: nat, f: Ptr)         // test the address, load the head
    | Step(t: nat)
    | SwapFails(t: nat)                 // a weak compare-and-swap fails spuriously

  /** Fiber f is in t's hand and t is not about to push it. */
  ghost predicate Free(s: State, t: nat, f: Ptr) {
    && t < |s.pc| == |s.hand| && f in s.hand[t]
    && (s.pc[t].PushLink? || s.pc[t].PushSwap? ==> s.pc[t].f != f)
  }

  ghost predicate Enabled(s: State, a: Action) {
    && |s.pc| == |s.hand|
    && match a
       case Give(t, u, f) => Free(s, t, f) && u < |s.pc|
       case Scribble(t, f, v) => Free(s, t, f) && f < |s.next|
       case BeginPop(t) => t < |s.pc| && s.pc[t].Idle?
       case BeginPush(t, f) => Free(s, t, f) && s.pc[t].Idle?
       case Step(t) => t < |s.pc| && !s.pc[t].Idle?
       case SwapFails(t) => t < |s.pc| && (s.pc[t].PopSwap? || s.pc[t].PushSwap?)
  }

  ghost function At(s: State, t: nat, pc: Pc): State
    requires t < |s.pc|
  {
    s.(pc := s.pc[t := pc])
  }

  function Aged(pc: Pc): Pc {
    match pc
    case PopTest(h, age) => PopTest(h, age + 1)
    case PopSwap(h, nx, age) => PopSwap(h, nx, age + 1)
    case _ => pc
  }

  /** A successful swap: everybody else's load of the head is one update older. */
  ghost function Swapped(s: State, t: nat, head: Word): (r: State)
    requires t < |s.pc|
  {
    s.(head := head, pc := seq(|s.pc|, i requires 0 <= i < |s.pc| => if i == t then Idle else Aged(s.pc[i])))
  }

  function Load(mem: seq<Ptr>, p: nat): Ptr { if p < |mem| then mem[p] else 0 }
  function Store(mem: seq<Ptr>, p: nat, v: Ptr): seq<Ptr> { if p < |mem| then mem[p := v] else mem }

  /** A failed swap leaves the current head in h and tries again. */
  ghost function Retry(s: State, t: nat): State
    requires t < |s.pc|
  {
    match s.pc[t]
    case PopSwap(_, _, _) => At(s, t, PopTest(s.head, 0))
    case PushSwap(f, _) => At(s, t, PushLink(f, s.head))
    case _ => s
  }

  ghost function Do(s: State, a: Action): State
    requires Enabled(s, a)
  {
    match a
    case Give(t, u, f) =>
      var without := s.hand[t := s.hand[t] - {f}];
      s.(hand := without[u := without[u] + {f}])
    case Scribble(t, f, v) => s.(next := s.next[f := v])
    case BeginPop(t) => At(s, t, PopTest(s.head, 0))
    case BeginPush(t, f) =>
      if f >= PTR_SPAN then s.(hand := s.hand[t := s.hand[t] - {f}], dropped := s.dropped + {f})
      else At(s, t, PushLink(f, s.head))
    case SwapFails(t) => Retry(s, t)
    case Step(t) =>
      match s.pc[t]
      case PopTest(h, age) => At(s, t, if PtrOf(h) == 0 then Idle else PopSwap(h, Load(s.next, PtrOf(h)), age))
      case PopSwap(h, nx, _) =>
        if s.head != h then Retry(s, t)
        else Swapped(s, t, Bump(nx, h)).(hand := s.hand[t := s.hand[t] + {PtrOf(h)}])
      case PushLink(f, h) => At(s, t, PushSwap(f, h)).(next := Store(s.next, f, PtrOf(h)))
      case PushSwap(f, h) =>
        if s.head != h then Retry(s, t)
        else Swapped(s, t, Bump(f, h)).(hand := s.hand[t := s.hand[t] - {f}])
      case Idle => s
  }

  /** Every pop swaps within `bound` updates of its load. */
  ghost predicate Timely(s: State, a: Action, bound: nat) {
    a.Step? && a.t < |s.pc| && s.pc[a.t].PopSwap? ==> s.pc[a.t].age <= bound
  }

  datatype Outcome = Blocked | Reached(s: State)

  ghost function Exec(s: State, acts: seq<Action>, bound: nat): Outcome
    decreases |acts|
  {
    if acts == [] then Reached(s)
    else if !Enabled(s, acts[0]) || !Timely(s, acts[0], bound) then Blocked
    else Exec(Do(s, acts[0]), acts[1..], bound)
  }

  /** n threads, an empty pool, and every fiber in exactly one hand. */
  ghost predicate Init(s: State, n: nat, owner: seq<nat>) {
    && |s.pc| == |s.hand| == n && |owner| == |s.next| >= 1
    && s.head == 0 && s.dropped == {}
    && (forall t :: 0 <= t < n ==> s.pc[t] == Idle)
    && (forall t :: 0 <= t < n ==> s.hand[t] == set f: Ptr | 0 < f < |owner| && owner[f] == t)
    && (forall f :: 0 < f < |owner| ==> owner[f] < n)
  }

  // ---------------------------------------------------------------------
  // Conservation
  // ---------------------------------------------------------------------

  datatype Loc = InPool | InHand(t: nat) | Dropped

  ghost predicate HandOk(loc: seq<Loc>, hand: set<Ptr>, t: nat) {
    forall f :: f in hand ==> 0 < f < |loc| && loc[f] == InHand(t)
  }

  /** Every fiber is in the pool, in one hand or abandoned, and only there. */
  ghost predicate Placed(s: State, q: seq<Ptr>, loc: seq<Loc>) {
    && |s.pc| == |s.hand| && |loc| == |s.next| >= 1
    && Chain(s.next, PtrOf(s.head), q)
    && (forall i, j :: 0 <= i < j < |q| ==> q[i] != q[j])
    && (forall i :: 0 <= i < |q| ==> 0 < q[i] < |loc| && q[i] < PTR_SPAN && loc[q[i]] == InPool)
    && (forall f :: 0 < f < |loc| && loc[f] == InPool ==> f in q)
    && (forall t :: 0 <= t < |s.hand| ==> HandOk(loc, s.hand[t], t))
    && (forall f :: 0 < f < |loc| && loc[f].InHand? ==> loc[f].t < |s.hand| && f in s.hand[loc[f].t])
    && (forall f :: f in s.dropped ==> 0 < f < |loc| && loc[f] == Dropped)
    && (forall f :: 0 < f < |loc| && loc[f] == Dropped ==> f in s.dropped)
  }

  ghost predicate Conserved(s: State) {
    exists q, loc :: Placed(s, q, loc)
  }

  /** A thread's registers against the memory; g is the number of updates so far. */
  ghost predicate ThreadOk(s: State, g: nat, t: nat)
    requires t < |s.pc| == |s.hand|
  {
    match s.pc[t]
    case PopTest(h, age) =>
      && age <= g && TagOf(h) == (g - age) % TAG_SPAN
      && (age == 0 ==> h == s.head) && (|s.pc| == 1 ==> age == 0)
    case PopSwap(h, nx, age) =>
      && age <= g && TagOf(h) == (g - age) % TAG_SPAN && PtrOf(h) != 0
      && (age == 0 ==> h == s.head && nx == Load(s.next, PtrOf(h))) && (|s.pc| == 1 ==> age == 0)
    case PushLink(f, h) => f in s.hand[t] && f < PTR_SPAN
    case PushSwap(f, h) => f in s.hand[t] && f < PTR_SPAN && Load(s.next, f) == PtrOf(h)
    case Idle => true
  }

  ghost predicate Inv(s: State, q: seq<Ptr>, loc: seq<Loc>, g: nat) {
    && Placed(s, q, loc)
    && TagOf(s.head) == g % TAG_SPAN
    && ThreadsOk(s, g)
  }

  ghost predicate ThreadsOk(s: State, g: nat) {
    |s.pc| == |s.hand| && forall t :: 0 <= t < |s.pc| ==> ThreadOk(s, g, t)
  }

  lemma KeepGive(s: State, q: seq<Ptr>, loc: seq<Loc>, g: nat, t: nat, u: nat, f: Ptr) returns (loc': seq<Loc>)
    requires Inv(s, q, loc, g) && Enabled(s, Give(t, u, f))
    ensures Inv(Do(s, Give(t, u, f)), q, loc', g)
  {
    var s' := Do(s, Give(t, u, f));
    loc' := loc[f := InHand(u)];
    forall v | 0 <= v < |s.pc| ensures ThreadOk(s', g, v) { GiveKeeps(s, g, t, u, f, v); }
  }

  lemma GiveKeeps(s: State, g: nat, t: nat, u: nat, f: Ptr, v: nat)
    requires ThreadsOk(s, g) && Enabled(s, Give(t, u, f)) && v < |s.pc|
    ensures ThreadOk(Do(s, Give(t, u, f)), g, v)
  {
    assert ThreadOk(s, g, v);
  }

  lemma KeepScribble(s: State, q: seq<Ptr>, loc: seq<Loc>, g: nat, t: nat, f: Ptr, v: Ptr)
    requires Inv(s, q, loc, g) && Enabled(s, Scribble(t, f, v))
    ensures Inv(Do(s, Scribble(t, f, v)), q, loc, g)
  {
    var s' := Do(s, Scribble(t, f, v));
    assert loc[f] == InHand(t);
    SegFrame(s.next, s'.next, PtrOf(s.head), q);
    forall u | 0 <= u < |s.pc| ensures ThreadOk(s', g, u) {
      assert ThreadOk(s, g, u);
      if s.pc[u].PushSwap? { assert loc[s.pc[u].f] == InHand(u); }
      if s.pc[u].PopSwap? && s.pc[u].age == 0 { assert PtrOf(s.head) == q[0]; }
    }
  }

  lemma KeepDrop(s: State, q: seq<Ptr>, loc: seq<Loc>, g: nat, t: nat, f: Ptr) returns (loc': seq<Loc>)
    requires Inv(s, q, loc, g) && Enabled(s, BeginPush(t, f)) && f >= PTR_SPAN
    ensures Inv(Do(s, BeginPush(t, f)), q, loc', g)
  {
    var s' := Do(s, BeginPush(t, f));
    loc' := loc[f := Dropped];
    forall u | 0 <= u < |s.pc| ensures ThreadOk(s', g, u) {
      assert ThreadOk(s, g, u);
    }
  }

  /** A step that only changes the registers of thread t. */
  lemma KeepRegisters(s: State, q: seq<Ptr>, loc: seq<Loc>, g: nat, t: nat, pc: Pc)
    requires Inv(s, q, loc, g) && t < |s.pc| && ThreadOk(At(s, t, pc), g, t)
    ensures Inv(At(s, t, pc), q, loc, g)
  {
    forall u | 0 <= u < |s.pc| ensures ThreadOk(At(s, t, pc), g, u) {
      assert ThreadOk(s, g, u);
    }
  }

  lemma KeepLink(s: State, q: seq<Ptr>, loc: seq<Loc>, g: nat, t: nat)
    requires Inv(s, q, loc, g) && t < |s.pc| && s.pc[t].PushLink?
    ensures Inv(Do(s, Step(t)), q, loc, g)
  {
    var s' := Do(s, Step(t));
    assert ThreadOk(s, g, t);
    assert loc[s.pc[t].f] == InHand(t);
    SegFrame(s.next, s'.next, PtrOf(s.head), q);
    forall u | 0 <= u < |s.pc| ensures ThreadOk(s', g, u) {
      assert ThreadOk(s, g, u);
      if s.pc[u].PushSwap? { assert loc[s.pc[u].f] == InHand(u); }
      if s.pc[u].PopSwap? && s.pc[u].age == 0 { assert PtrOf(s.head) == q[0]; }
    }
  }

  /** After an update of the head, every load is one update older. */
  lemma KeepAged(s: State, g: nat, t: nat, head: Word, hand: seq<set<Ptr>>)
    requires t < |s.pc| == |hand| && ThreadsOk(s, g)
    requires forall u :: 0 <= u < |s.pc| && u != t ==> hand[u] == s.hand[u]
    ensures ThreadsOk(Swapped(s, t, head).(hand := hand), g + 1)
  {
    var s', g' := Swapped(s, t, head).(hand := hand), g + 1;
    forall u | 0 <= u < |s'.pc| ensures ThreadOk(s', g', u) {
      assert ThreadOk(s, g, u);
    }
  }

  lemma PlacedPush(s: State, q: seq<Ptr>, loc: seq<Loc>, t: nat, f: Ptr)
    requires Placed(s, q, loc) && t < |s.hand| && f in s.hand[t] && 0 < f < |s.next| && f < PTR_SPAN
    requires s.next[f] == PtrOf(s.head)
    ensures Placed(Swapped(s, t, Bump(f, s.head)).(hand := s.hand[t := s.hand[t] - {f}]), [f] + q, loc[f := InPool])
  {
    var q', loc' := [f] + q, loc[f := InPool];
    assert HandOk(loc, s.hand[t], t);
    ChainAppend(s.next, f, [f], PtrOf(s.head), q);
    var hand' := s.hand[t := s.hand[t] - {f}];
    forall u | 0 <= u < |s.hand| ensures HandOk(loc', hand'[u], u) {
      assert HandOk(loc, s.hand[u], u);
    }
  }

  lemma PoppedChain(s: State, q: seq<Ptr>)
    requires Chain(s.next, PtrOf(s.head), q) && q != [] && forall i :: 0 <= i < |q| ==> q[i] < PTR_SPAN
    ensures Chain(s.next, PtrOf(Bump(s.next[q[0]], s.head)), q[1..])
  {
    ChainTail(s.next, q[0], q);
    assert q[1..] != [] ==> q[1..][0] == q[1];
  }

  lemma PlacedPop(s: State, q: seq<Ptr>, loc: seq<Loc>, t: nat)
    requires Placed(s, q, loc) && t < |s.hand| && q != []
    ensures var f := q[0];
            Placed(Swapped(s, t, Bump(s.next[f], s.head)).(hand := s.hand[t := s.hand[t] + {f}]), q[1..], loc[f := InHand(t)])
  {
    var f := q[0];
    var q', loc' := q[1..], loc[f := InHand(t)];
    assert Chain(s.next, PtrOf(Bump(s.next[f], s.head)), q') by { PoppedChain(s, q); }
    var hand' := s.hand[t := s.hand[t] + {f}];
    forall u | 0 <= u < |s.hand| ensures HandOk(loc', hand'[u], u) {
      assert HandOk(loc, s.hand[u], u);
    }
  }

  lemma KeepPushSwap(s: State, q: seq<Ptr>, loc: seq<Loc>, g: nat, t: nat)
    returns (q': seq<Ptr>, loc': seq<Loc>)
    requires Inv(s, q, loc, g) && t < |s.pc| && s.pc[t].PushSwap? && s.head == s.pc[t].h
    ensures Inv(Do(s, Step(t)), q', loc', g + 1)
  {
    var f := s.pc[t].f;
    assert f in s.hand[t] && 0 < f < |s.next| && f < PTR_SPAN && s.next[f] == PtrOf(s.head) by {
      assert ThreadOk(s, g, t) && HandOk(loc, s.hand[t], t);
    }
    q', loc' := [f] + q, loc[f := InPool];
    PlacedPush(s, q, loc, t, f);
    KeepAged(s, g, t, Bump(f, s.head), s.hand[t := s.hand[t] - {f}]);
    NextTag(TagOf(s.head), g);
  }

  /** The swap of a pop succeeds only on an unchanged stack: within 2^16 updates
      equal tags mean that there was no update at all. */
  lemma NoUpdateInBetween(s: State, g: nat, t: nat)
    requires t < |s.pc| == |s.hand| && s.pc[t].PopSwap? && s.head == s.pc[t].h && s.pc[t].age < TAG_SPAN
    requires TagOf(s.head) == g % TAG_SPAN && ThreadOk(s, g, t)
    ensures s.pc[t].age == 0
  {
    var age := s.pc[t].age;
    assert g % TAG_SPAN == (g - age) % TAG_SPAN;
  }

  lemma KeepPopSwap(s: State, q: seq<Ptr>, loc: seq<Loc>, g: nat, t: nat)
    returns (q': seq<Ptr>, loc': seq<Loc>)
    requires Inv(s, q, loc, g) && t < |s.pc| && s.pc[t].PopSwap? && s.head == s.pc[t].h && s.pc[t].age < TAG_SPAN
    ensures Inv(Do(s, Step(t)), q', loc', g + 1)
  {
    assert s.pc[t].age == 0 && PtrOf(s.head) != 0 && s.pc[t].nx == Load(s.next, PtrOf(s.head)) by {
      assert ThreadOk(s, g, t);
      NoUpdateInBetween(s, g, t);
    }
    var f := PtrOf(s.head);
    assert q[0] == f;
    q', loc' := q[1..], loc[f := InHand(t)];
    PlacedPop(s, q, loc, t);
    KeepAged(s, g, t, Bump(s.pc[t].nx, s.head), s.hand[t := s.hand[t] + {f}]);
    NextTag(TagOf(s.head), g);
  }

  lemma NextTag(tag: nat, g: nat)
    requires tag == g % TAG_SPAN
    ensures (tag + 1) % TAG_SPAN == (g + 1) % TAG_SPAN
  {
  }

  lemma KeepPopTest(s: State, q: seq<Ptr>, loc: seq<Loc>, g: nat, t: nat)
    requires Inv(s, q, loc, g) && t < |s.pc| && s.pc[t].PopTest?
    ensures Inv(Do(s, Step(t)), q, loc, g)
  {
    var h := s.pc[t].h;
    assert ThreadOk(s, g, t);
    KeepRegisters(s, q, loc, g, t, if PtrOf(h) == 0 then Idle else PopSwap(h, Load(s.next, PtrOf(h)), s.pc[t].age));
  }

  lemma KeepStep(s: State, q: seq<Ptr>, loc: seq<Loc>, g: nat, t: nat)
    returns (q': seq<Ptr>, loc': seq<Loc>, g': nat)
    requires Inv(s, q, loc, g) && Enabled(s, Step(t)) && (|s.pc| <= 1 || Timely(s, Step(t), TAG_SPAN - 1))
    ensures Inv(Do(s, Step(t)), q', loc', g')
  {
    q', loc', g' := q, loc, g;
    match s.pc[t] {
      case PopTest(h, age) =>
        KeepPopTest(s, q, loc, g, t);
      case PopSwap(h, _, _) =>
        assert s.pc[t].age < TAG_SPAN by { if |s.pc| <= 1 { assert ThreadOk(s, g, t); } }
        if s.head == h { q', loc' := KeepPopSwap(s, q, loc, g, t); g' := g + 1; } else { KeepRetry(s, q, loc, g, t); }
      case PushLink(_, _) => KeepLink(s, q, loc, g, t);
      case PushSwap(_, h) =>
        if s.head == h { q', loc' := KeepPushSwap(s, q, loc, g, t); g' := g + 1; } else { KeepRetry(s, q, loc, g, t); }
    }
  }

  lemma Keep(s: State, q: seq<Ptr>, loc: seq<Loc>, g: nat, a: Action, bound: nat)
    returns (q': seq<Ptr>, loc': seq<Loc>, g': nat)
    requires Inv(s, q, loc, g) && Enabled(s, a) && Timely(s, a, bound) && (|s.pc| <= 1 || bound < TAG_SPAN)
    ensures Inv(Do(s, a), q', loc', g')
  {
    q', loc', g' := q, loc, g;
    match a {
      case Give(t, u, f) => loc' := KeepGive(s, q, loc, g, t, u, f);
      case Scribble(t, f, v) => KeepScribble(s, q, loc, g, t, f, v);
      case BeginPop(t) => KeepRegisters(s, q, loc, g, t, PopTest(s.head, 0));
      case BeginPush(t, f) =>
        if f >= PTR_SPAN { loc' := KeepDrop(s, q, loc, g, t, f); }
        else { KeepRegisters(s, q, loc, g, t, PushLink(f, s.head)); }
      case SwapFails(t) => KeepRetry(s, q, loc, g, t);
      case Step(t) => q', loc', g' := KeepStep(s, q, loc, g, t);
    }
  }

  lemma KeepRetry(s: State, q: seq<Ptr>, loc: seq<Loc>, g: nat, t: nat)
    requires Inv(s, q, loc, g) && t < |s.pc| && (s.pc[t].PopSwap? || s.pc[t].PushSwap?)
    ensures Inv(Retry(s, t), q, loc, g)
  {
    assert ThreadOk(s, g, t);
    match s.pc[t] {
      case PopSwap(_, _, _) => KeepRegisters(s, q, loc, g, t, PopTest(s.head, 0));
      case PushSwap(f, _) => KeepRegisters(s, q, loc, g, t, PushLink(f, s.head));
    }
  }

  lemma {:induction false} KeepRun(s: State, q: seq<Ptr>, loc: seq<Loc>, g: nat, acts: seq<Action>, bound: nat)
    requires Inv(s, q, loc, g) && Exec(s, acts, bound).Reached? && (|s.pc| <= 1 || bound < TAG_SPAN)
    ensures Conserved(Exec(s, acts, bound).s)
    decreases |acts|
  {
    if acts != [] {
      var q', loc', g' := Keep(s, q, loc, g, acts[0], bound);
      KeepRun(Do(s, acts[0]), q', loc', g', acts[1..], bound);
    }
  }

  lemma InitInv(s: State, n: nat, owner: seq<nat>) returns (loc: seq<Loc>)
    requires Init(s, n, owner)
    ensures Inv(s, [], loc, 0)
  {
    loc := seq(|owner|, i requires 0 <= i < |owner| => InHand(owner[i]));
    forall t | 0 <= t < |s.pc| ensures ThreadOk(s, 0, t) { }
  }

  // ---------------------------------------------------------------------
  // 2^16 updates in between: the tag wraps and a fiber is handed out twice
  // ---------------------------------------------------------------------

  /** Three fibers; thread 0 is in the middle of a pop, thread 1 works. */
  datatype Core = Core(next: seq<Ptr>, head: Word, pc0: Pc, pc1: Pc, hand0: set<Ptr>, hand1: set<Ptr>)

  ghost function Full(n: nat, c: Core): (s: State)
    ensures |s.pc| == |s.hand| == n
    ensures forall i :: 0 <= i < n ==> s.pc[i] == (if i == 0 then c.pc0 else if i == 1 then c.pc1 else Idle)
    ensures forall i :: 0 <= i < n ==> s.hand[i] == (if i == 0 then c.hand0 else if i == 1 then c.hand1 else {})
  {
    State(
      c.next, c.head,
      seq(n, i => if i == 0 then c.pc0 else if i == 1 then c.pc1 else Idle),
      seq(n, i => if i == 0 then c.hand0 else if i == 1 then c.hand1 else {}),
      {})
  }

  lemma {:induction false} ExecSnoc(s: State, acts: seq<Action>, a: Action, bound: nat)
    requires Exec(s, acts, bound).Reached? && Enabled(Exec(s, acts, bound).s, a) && Timely(Exec(s, acts, bound).s, a, bound)
    ensures Exec(s, acts + [a], bound) == Reached(Do(Exec(s, acts, bound).s, a))
    decreases |acts|
  {
    if acts == [] {
      assert Exec(Do(s, a), [], bound) == Reached(Do(s, a));
    } else {
      ExecSnoc(Do(s, acts[0]), acts[1..], a, bound);
      assert (acts + [a])[1..] == acts[1..] + [a];
    }
  }

  lemma Then(n: nat, s0: State, acts: seq<Action>, bound: nat, c: Core, a: Action, c': Core) returns (acts': seq<Action>)
    requires n >= 2 && Exec(s0, acts, bound) == Reached(Full(n, c)) && Enabled(Full(n, c), a) && Timely(Full(n, c), a, bound)
    requires var s := Do(Full(n, c), a);
             && |s.pc| == |s.hand| == n && s.next == c'.next && s.head == c'.head && s.dropped == {}
             && (forall i :: 0 <= i < n ==> s.pc[i] == (if i == 0 then c'.pc0 else if i == 1 then c'.pc1 else Idle))
             && (forall i :: 0 <= i < n ==> s.hand[i] == (if i == 0 then c'.hand0 else if i == 1 then c'.hand1 else {}))
    ensures Exec(s0, acts', bound) == Reached(Full(n, c'))
  {
    ExecSnoc(s0, acts, a, bound);
    acts' := acts + [a];
    var s, s' := Do(Full(n, c), a), Full(n, c');
    assert s.pc == s'.pc && s.hand == s'.hand;
  }

  ghost function AfterPush(c: Core, f: Ptr): Core
    requires 0 < f < |c.next|
  {
    c.(next := c.next[f := PtrOf(c.head)], head := Bump(f, c.head), pc0 := Aged(c.pc0), hand1 := c.hand1 - {f})
  }

  lemma Pushes(n: nat, s0: State, acts: seq<Action>, bound: nat, c: Core, f: Ptr) returns (acts': seq<Action>)
    requires n >= 2 && Exec(s0, acts, bound) == Reached(Full(n, c)) && c.pc1 == Idle && f in c.hand1 && 0 < f < 4 == |c.next|
    ensures Exec(s0, acts', bound) == Reached(Full(n, AfterPush(c, f)))
  {
    acts' := Then(n, s0, acts, bound, c, BeginPush(1, f), c.(pc1 := PushLink(f, c.head)));
    var c2 := c.(pc1 := PushSwap(f, c.head), next := c.next[f := PtrOf(c.head)]);
    acts' := Then(n, s0, acts', bound, c.(pc1 := PushLink(f, c.head)), Step(1), c2);
    acts' := Then(n, s0, acts', bound, c2, Step(1), AfterPush(c, f));
  }

  ghost function AfterPop(c: Core): Core
    requires PtrOf(c.head) < |c.next|
  {
    var f := PtrOf(c.head);
    c.(head := Bump(c.next[f], c.head), pc0 := Aged(c.pc0), hand1 := c.hand1 + {f})
  }

  lemma Pops(n: nat, s0: State, acts: seq<Action>, bound: nat, c: Core) returns (acts': seq<Action>)
    requires n >= 2 && Exec(s0, acts, bound) == Reached(Full(n, c)) && c.pc1 == Idle && 0 < PtrOf(c.head) < 4 == |c.next|
    ensures Exec(s0, acts', bound) == Reached(Full(n, AfterPop(c)))
  {
    var f := PtrOf(c.head);
    acts' := Then(n, s0, acts, bound, c, BeginPop(1), c.(pc1 := PopTest(c.head, 0)));
    var c2 := c.(pc1 := PopSwap(c.head, c.next[f], 0));
    acts' := Then(n, s0, acts', bound, c.(pc1 := PopTest(c.head, 0)), Step(1), c2);
    acts' := Then(n, s0, acts', bound, c2, Step(1), AfterPop(c));
  }

  /** The word with the given address and tag. */
  function Pack(p: Ptr, tag: nat): (w: Word)
    requires p < PTR_SPAN && tag < TAG_SPAN
    ensures PtrOf(w) == p && TagOf(w) == tag
  {
    p + tag * PTR_SPAN
  }

  /** Fiber 1 on top of fiber 3, fiber 2 out; thread 0 read 1 and its old link 2. */
  ghost function Churn(age: nat): Core {
    Core([0, 3, 0, 0], Pack(1, (age + 2) % TAG_SPAN), PopSwap(Pack(1, 2), 2, age), Idle, {}, {2})
  }

  /** A pop and a push of fiber 1: two updates, the same stack. */
  lemma Round(n: nat, s0: State, acts: seq<Action>, bound: nat, age: nat) returns (acts': seq<Action>)
    requires n >= 2 && Exec(s0, acts, bound) == Reached(Full(n, Churn(age)))
    ensures Exec(s0, acts', bound) == Reached(Full(n, Churn(age + 2)))
  {
    ChurnTurns(age);
    acts' := Pops(n, s0, acts, bound, Churn(age));
    acts' := Pushes(n, s0, acts', bound, AfterPop(Churn(age)), 1);
  }

  /** What the pop and the push make of the memory. */
  lemma ChurnTurns(age: nat)
    ensures var d := AfterPop(Churn(age));
      && PtrOf(d.head) == 3 && 1 in d.hand1 && d.pc1 == Idle && |d.next| == 4 && AfterPush(d, 1) == Churn(age + 2)
  {
    var c := Churn(age);
    var d := AfterPop(c);
    var e := AfterPush(d, 1);
    assert e.next == c.next && e.hand1 == c.hand1;
    NextTag((age + 2) % TAG_SPAN, age + 2);
    NextTag((age + 3) % TAG_SPAN, age + 3);
    WordFields(e.head, Churn(age + 2).head);
  }

  lemma {:induction false} Rounds(n: nat, s0: State, acts: seq<Action>, bound: nat, age: nat, k: nat)
    returns (acts': seq<Action>)
    requires n >= 2 && Exec(s0, acts, bound) == Reached(Full(n, Churn(age)))
    ensures Exec(s0, acts', bound) == Reached(Full(n, Churn(age + 2 * k)))
    decreases k
  {
    acts' := acts;
    if k > 0 {
      acts' := Round(n, s0, acts, bound, age);
      acts' := Rounds(n, s0, acts', bound, age + 2, k - 1);
      assert age + 2 + 2 * (k - 1) == age + 2 * k;
    }
  }

  const Start := Core([0, 0, 0, 0], 0, Idle, Idle, {}, {1, 2, 3})

  lemma Opening(n: nat, bound: nat) returns (acts: seq<Action>)
    requires n >= 2
    ensures Exec(Full(n, Start), acts, bound) == Reached(Full(n, Core([0, 2, 0, 0], Pack(1, 2), PopSwap(Pack(1, 2), 2, 0), Idle, {}, {3})))
  {
    var s0, c1 := Full(n, Start), AfterPush(Start, 2);
    var c2 := AfterPush(c1, 1);
    OpeningPushes();
    acts := Pushes(n, s0, [], bound, Start, 2);
    acts := Pushes(n, s0, acts, bound, c1, 1);
    acts := OpeningPop(n, s0, acts, bound, c2);
  }

  lemma OpeningPushes()
    ensures var c1 := AfterPush(Start, 2);
      && c1.hand1 == {1, 3} && c1.pc1 == Idle && |c1.next| == 4
      && AfterPush(c1, 1) == Core([0, 2, 0, 0], Pack(1, 2), Idle, Idle, {}, {3})
  {
    var c1 := AfterPush(Start, 2);
    var c2 := AfterPush(c1, 1);
    assert c1.next == Start.next && c1.hand1 == {1, 3};
    assert c2.next == [0, 2, 0, 0] && c2.hand1 == {3};
    assert TagOf(c2.head) == 2;
    WordFields(c2.head, Pack(1, 2));
  }

  lemma OpeningPop(n: nat, s0: State, acts: seq<Action>, bound: nat, c: Core) returns (acts': seq<Action>)
    requires n >= 2 && Exec(s0, acts, bound) == Reached(Full(n, c)) && c == Core([0, 2, 0, 0], Pack(1, 2), Idle, Idle, {}, {3})
    ensures Exec(s0, acts', bound) == Reached(Full(n, c.(pc0 := PopSwap(Pack(1, 2), 2, 0))))
  {
    acts' := Then(n, s0, acts, bound, c, BeginPop(0), c.(pc0 := PopTest(c.head, 0)));
    acts' := Then(n, s0, acts', bound, c.(pc0 := PopTest(c.head, 0)), Step(0), c.(pc0 := PopSwap(c.head, 2, 0)));
  }

  /** Thread 1 takes both fibers out ... */
  lemma TakesBoth(n: nat, s0: State, acts: seq<Action>, bound: nat, c: Core) returns (acts': seq<Action>)
    requires n >= 2 && Exec(s0, acts, bound) == Reached(Full(n, c))
    requires c == Core([0, 2, 0, 0], Pack(1, 2), PopSwap(Pack(1, 2), 2, 0), Idle, {}, {3})
    ensures Exec(s0, acts', bound) == Reached(Full(n, Core([0, 2, 0, 0], Pack(0, 4), PopSwap(Pack(1, 2), 2, 2), Idle, {}, {1, 2, 3})))
  {
    acts' := Pops(n, s0, acts, bound, c);
    var c1 := AfterPop(c);
    acts' := Pops(n, s0, acts', bound, c1);
    var c2 := AfterPop(c1);
    assert c2.hand1 == {1, 2, 3};
    WordFields(c2.head, Pack(0, 4));
  }

  /** ... and puts fiber 3 and then fiber 1 back. */
  lemma PutsOthers(n: nat, s0: State, acts: seq<Action>, bound: nat, c: Core) returns (acts': seq<Action>)
    requires n >= 2 && Exec(s0, acts, bound) == Reached(Full(n, c))
    requires c == Core([0, 2, 0, 0], Pack(0, 4), PopSwap(Pack(1, 2), 2, 2), Idle, {}, {1, 2, 3})
    ensures Exec(s0, acts', bound) == Reached(Full(n, Churn(4)))
  {
    PutsBoth();
    acts' := Pushes(n, s0, acts, bound, c, 3);
    acts' := Pushes(n, s0, acts', bound, AfterPush(c, 3), 1);
  }

  lemma PutsBoth()
    ensures var c1 := AfterPush(Core([0, 2, 0, 0], Pack(0, 4), PopSwap(Pack(1, 2), 2, 2), Idle, {}, {1, 2, 3}), 3);
      c1.pc1 == Idle && 1 in c1.hand1 && |c1.next| == 4 && AfterPush(c1, 1) == Churn(4)
  {
    var c1 := AfterPush(Core([0, 2, 0, 0], Pack(0, 4), PopSwap(Pack(1, 2), 2, 2), Idle, {}, {1, 2, 3}), 3);
    assert c1.next == [0, 2, 0, 0] && c1.hand1 == {1, 2};
    var c2 := AfterPush(c1, 1);
    assert c2.next == [0, 3, 0, 0] && c2.hand1 == {2};
    WordFields(c2.head, Pack(1, 6));
  }

  /** Fiber 2 is in thread 1's hand and on top of the pool. */
  ghost function Twice(): Core {
    Core([0, 3, 0, 0], Bump(2, Pack(1, 2)), Idle, Idle, {1}, {2})
  }

  lemma WrappingRun(n: nat, bound: nat) returns (acts: seq<Action>)
    requires n >= 2 && bound >= TAG_SPAN
    ensures Exec(Full(n, Start), acts, bound) == Reached(Full(n, Twice()))
  {
    var s0 := Full(n, Start);
    acts := Opening(n, bound);
    acts := TakesBoth(n, s0, acts, bound, Core([0, 2, 0, 0], Pack(1, 2), PopSwap(Pack(1, 2), 2, 0), Idle, {}, {3}));
    acts := PutsOthers(n, s0, acts, bound, Core([0, 2, 0, 0], Pack(0, 4), PopSwap(Pack(1, 2), 2, 2), Idle, {}, {1, 2, 3}));
    acts := Rounds(n, s0, acts, bound, 4, 32766);
    acts := Then(n, s0, acts, bound, Churn(TAG_SPAN), Step(0), Twice());
  }

  lemma TwiceIsNotConserved(n: nat)
    requires n >= 2
    ensures !Conserved(Full(n, Twice()))
  {
    var s := Full(n, Twice());
    forall q, loc ensures !Placed(s, q, loc) {
      assert 2 in s.hand[1];
      assert HandOk(loc, s.hand[1], 1) ==> |loc| > 2 && loc[2] == InHand(1);
    }
  }

  /** No run in which every pop swaps within `bound` updates of its load loses a
      fiber or hands one out twice, exactly when the bound is below 2^16 (or there
      is only one thread). */
  lemma PoolIsSafeExactlyWhen(n: nat, bound: nat)
    ensures (forall s0, owner, acts :: Init(s0, n, owner) && Exec(s0, acts, bound).Reached? ==> Conserved(Exec(s0, acts, bound).s))
            <==> (n <= 1 || bound < TAG_SPAN)
  {
    if n <= 1 || bound < TAG_SPAN {
      forall s0, owner, acts | Init(s0, n, owner) && Exec(s0, acts, bound).Reached?
        ensures Conserved(Exec(s0, acts, bound).s)
      {
        var loc := InitInv(s0, n, owner);
        KeepRun(s0, [], loc, 0, acts, bound);
      }
    } else {
      var s0 := Full(n, Start);
      var owner: seq<nat> := [0, 1, 1, 1];
      assert forall t :: 0 <= t < n ==> s0.hand[t] == set f: Ptr | 0 < f < |owner| && owner[f] == t;
      assert Init(s0, n, owner);
      var acts := WrappingRun(n, bound);
      TwiceIsNotConserved(n);
      assert !Conserved(Exec(s0, acts, bound).s);
    }
  }
}