/**
 Two workers run the same fiber (runtime/rt_sched.c, with three or more workers and
 no priority set).

 The run of QueueRaces in which a fiber is taken twice, with everything around it:
 the program starts with MAIN, MAIN spawns the fibers, whoever is picked runs and
 waits.  Together with Workers.SafeRuns it says exactly when the scheduler is safe.
 */
module WorkersRace {
  import opened Options
  import opened Links
  import S = Scheduler
  import R = RunQueue
  import Q = QueueRaces
  import opened Workers

  // ---------------------------------------------------------------------
  // What the run keeps track of
  // ---------------------------------------------------------------------

  /** A worker without the bags that no step reads. */
  function Bare(k: S.Worker): S.Worker {
    k.(local := multiset{}, ready := multiset{}, stolen := multiset{})
  }

  const FREE: S.Worker :=
    S.Worker(S.Loop, None, multiset{}, multiset{}, None, None, None, multiset{}, multiset{})

  ghost function NoHands(r: R.State): R.State { r.(hand := seq(|r.pc|, _ => {})) }

  /** The queues of workers 0, 1 and 2 and the links of the fibers 0 to 6. */
  function Core(next: seq<Ptr>, head: seq<Ptr>, pc: seq<R.Pc>): R.State {
    R.State(next, head, [0, 0, 0, 0, 0, 0, 0, 0], false, pc, [{}, {}, {}])
  }

  ghost predicate Three(x: R.State) {
    |x.next| == 8 && |x.head| == |x.pc| == 3 && x == Core(x.next, x.head, x.pc) && Q.VictimsThere(x)
  }

  /** The run has come to c: its first three workers have the queues x and the desks
      d; the others are idle. */
  ghost predicate Stands(c0: State, acts: seq<Action>, c: State, x: R.State, d: seq<S.Worker>) {
    && Exec(c0, acts) == Reached(c) && Sizes(c) && |c.s.wk| >= 3 == |d| && |c.s.fib| == 7
    && Three(x) && NoHands(c.r) == Q.Extend(x, |c.s.wk|)
    && (forall w :: 0 <= w < 3 ==> Bare(c.s.wk[w]) == d[w])
  }

  lemma {:induction false} ExecSnoc(c: State, acts: seq<Action>, a: Action)
    requires Exec(c, acts).Reached? && Enabled(Exec(c, acts).c, a)
    ensures Exec(c, acts + [a]) == Reached(Do(Exec(c, acts).c, a))
    decreases |acts|
  {
    if acts == [] {
      assert Exec(Do(c, a), []) == Reached(Do(c, a));
    } else {
      ExecSnoc(Do(c, acts[0]), acts[1..], a);
      assert (acts + [a])[1..] == acts[1..] + [a];
    }
  }

  // ---------------------------------------------------------------------
  // One access of a queue operation
  // ---------------------------------------------------------------------

  /** What the three workers' step does to their queues. */
  ghost function After(x: R.State, a: R.Action): R.State
    requires R.Enabled(x, a)
  {
    NoHands(R.Do(x, a))
  }

  /** Nobody's hand matters to a queue operation that has begun. */
  lemma HandBlind(r: R.State, a: R.Action)
    requires R.Enabled(NoHands(r), a) && |r.hand| == |r.pc| && (a.Step? || a.Scan?)
    ensures R.Enabled(r, a) && NoHands(R.Do(r, a)) == NoHands(R.Do(NoHands(r), a))
  {
    if a.Step? {
      if r.pc[a.w].PushCas? || r.pc[a.w].PopCas? { HandBlindSwap(r, a.w); } else { HandBlindStep(r, a.w); }
    }
  }

  lemma HandBlindSwap(r: R.State, w: nat)
    requires R.Enabled(NoHands(r), R.Step(w)) && |r.hand| == |r.pc| && (r.pc[w].PushCas? || r.pc[w].PopCas?)
    ensures R.Enabled(r, R.Step(w)) && NoHands(R.DoStep(r, w)) == NoHands(R.DoStep(NoHands(r), w))
  {
  }

  lemma HandBlindStep(r: R.State, w: nat)
    requires R.Enabled(NoHands(r), R.Step(w)) && |r.hand| == |r.pc| && !r.pc[w].PushCas? && !r.pc[w].PopCas?
    ensures R.Enabled(r, R.Step(w)) && NoHands(R.DoStep(r, w)) == NoHands(R.DoStep(NoHands(r), w))
  {
    var h := NoHands(r).hand;
    HandsStay(r, w, h);
    StepKeepsSizes(r, w);
  }

  /** Only the two swaps look at a hand. */
  lemma HandsStay(r: R.State, w: nat, h: seq<set<Ptr>>)
    requires R.Enabled(r, R.Step(w)) && |h| == |r.hand| && !r.pc[w].PushCas? && !r.pc[w].PopCas?
    ensures R.Enabled(r.(hand := h), R.Step(w)) && R.DoStep(r.(hand := h), w) == R.DoStep(r, w).(hand := h)
  {
    match r.pc[w]
    case ListLoad(_, _, _) => HandsStayList(r, w, h);
    case ListStore(_, _, _, _) => HandsStayList(r, w, h);
    case ListCas(_, _, _, _) => HandsStayList(r, w, h);
    case StealXchg(_) => HandsStayThief(r, w, h);
    case BackLoad(_, _, _, _, _) => HandsStayThief(r, w, h);
    case BackStore(_, _, _, _, _, _) => HandsStayThief(r, w, h);
    case BackCas(_, _, _, _, _, _) => HandsStayThief(r, w, h);
    case _ =>
  }

  lemma HandsStayList(r: R.State, w: nat, h: seq<set<Ptr>>)
    requires R.Enabled(r, R.Step(w)) && |h| == |r.hand| && (r.pc[w].ListLoad? || r.pc[w].ListStore? || r.pc[w].ListCas?)
    ensures R.Enabled(r.(hand := h), R.Step(w)) && R.DoStep(r.(hand := h), w) == R.DoStep(r, w).(hand := h)
  {
  }

  lemma HandsStayThief(r: R.State, w: nat, h: seq<set<Ptr>>)
    requires R.Enabled(r, R.Step(w)) && |h| == |r.hand|
    requires r.pc[w].StealXchg? || r.pc[w].BackLoad? || r.pc[w].BackStore? || r.pc[w].BackCas?
    ensures R.Enabled(r.(hand := h), R.Step(w)) && R.DoStep(r.(hand := h), w) == R.DoStep(r, w).(hand := h)
  {
  }

  lemma ExtendNoHands(y: R.State, n: nat)
    requires |y.head| == |y.pc| == |y.hand| <= n
    ensures NoHands(Q.Extend(y, n)) == Q.Extend(NoHands(y), n)
  {
  }

  function Lift(a: R.Action): Action
    requires a.Step? || a.Scan?
  {
    if a.Step? then Step(a.w) else Scan(a.w, a.l)
  }

  /** A step of one of the first three workers inside a queue operation. */
  lemma Access(c0: State, acts: seq<Action>, c: State, x: R.State, d: seq<S.Worker>, a: R.Action) returns (acts': seq<Action>, c': State)
    requires Stands(c0, acts, c, x, d) && (a.Step? || a.Scan?) && R.Enabled(x, a)
    ensures R.Enabled(c.r, a) && Enabled(c, Lift(a)) && c' == Do(c, Lift(a))
    ensures Exec(c0, acts') == Reached(c') && NoHands(c'.r) == Q.Extend(After(x, a), |c.s.wk|)
    ensures |After(x, a).pc| == 3 && Q.VictimsThere(After(x, a))
  {
    var n := |c.s.wk|;
    Q.ExtendStep(x, n, a);
    assert Q.Extends(x, n, a);
    HandBlind(c.r, a);
    ExtendNoHands(R.Do(x, a), n);
    ExecSnoc(c0, acts, Lift(a));
    acts', c' := acts + [Lift(a)], Do(c, Lift(a));
  }

  /** Nobody was born and no fiber's state changed, but f's. */
  ghost predicate World(s: S.State, s': S.State, f: nat) {
    && |s'.fib| == |s.fib| && s'.unborn == s.unborn
    && forall g :: 0 <= g < |s.fib| && g != f ==> s'.fib[g] == s.fib[g]
  }

  /** Worker w is about to make its swap good. */
  predicate Swapping(x: R.State, w: nat)
    requires w < |x.pc| == |x.head|
  {
    (x.pc[w].PushCas? || x.pc[w].PopCas?) && x.head[w] == x.pc[w].h
  }

  /** ... a step that leaves the desks alone. */
  lemma Then(c0: State, acts: seq<Action>, c: State, x: R.State, d: seq<S.Worker>, a: R.Action, x': R.State) returns (acts': seq<Action>, c': State)
    requires Stands(c0, acts, c, x, d) && (a.Step? || a.Scan?) && R.Enabled(x, a) && After(x, a) == x'
    requires a.w < 3 && !Swapping(x, a.w) && !x.pc[a.w].BestScan? && x'.priority == x.priority && !x'.prioUsed && |x'.next| == 8
    ensures Stands(c0, acts', c', x', d) && World(c.s, c'.s, 7) && c'.from == c.from
  {
    acts', c' := Access(c0, acts, c, x, d, a);
    ThenSame(c, x, a, c', d);
  }

  lemma ThenSame(c: State, x: R.State, a: R.Action, c': State, d: seq<S.Worker>)
    requires Sizes(c) && |c.s.wk| >= 3 == |d| && |x.pc| == |x.head| == |x.hand| == 3 && NoHands(c.r) == Q.Extend(x, |c.s.wk|)
    requires (a.Step? || a.Scan?) && a.w < 3 && !Swapping(x, a.w) && !x.pc[a.w].BestScan?
    requires R.Enabled(c.r, a) && c' == Do(c, Lift(a)) && forall w :: 0 <= w < 3 ==> Bare(c.s.wk[w]) == d[w]
    ensures Sizes(c') && |c'.s.wk| == |c.s.wk| && World(c.s, c'.s, |c.s.fib|) && c'.from == c.from
    ensures forall w :: 0 <= w < 3 ==> Bare(c'.s.wk[w]) == d[w]
  {
    assert c.r.pc[a.w] == x.pc[a.w] && c.r.head[a.w] == x.head[a.w];
    if a.Scan? { ScanSame(c, a.w, a.l); } else { StepSame(c, a.w); }
    assert Sizes(c') by { DoSizes(c, a); }
  }

  lemma DoSizes(c: State, a: R.Action)
    requires Sizes(c) && (a.Step? || a.Scan?) && R.Enabled(c.r, a)
    ensures SameSizes(c.r, R.Do(c.r, a))
  {
    if a.Step? { StepKeepsSizes(c.r, a.w); }
  }

  lemma StepKeepsSizes(r: R.State, w: nat)
    requires R.Enabled(r, R.Step(w))
    ensures SameSizes(r, R.DoStep(r, w))
  {
    match r.pc[w]
    case ListLoad(_, _, _) => ListKeepsSizes(r, w);
    case ListStore(_, _, _, _) => ListKeepsSizes(r, w);
    case ListCas(_, _, _, _) => ListKeepsSizes(r, w);
    case StealXchg(_) => ThiefKeepsSizes(r, w);
    case BackLoad(_, _, _, _, _) => ThiefKeepsSizes(r, w);
    case BackStore(_, _, _, _, _, _) => ThiefKeepsSizes(r, w);
    case BackCas(_, _, _, _, _, _) => ThiefKeepsSizes(r, w);
    case _ => OwnKeepsSizes(r, w);
  }

  predicate SameSizes(r: R.State, r': R.State) {
    |r'.pc| == |r.pc| && |r'.head| == |r.head| && |r'.hand| == |r.hand| && |r'.next| == |r.next|
  }

  lemma OwnKeepsSizes(r: R.State, w: nat)
    requires R.Enabled(r, R.Step(w)) && !r.pc[w].ListLoad? && !r.pc[w].ListStore? && !r.pc[w].ListCas?
    requires !r.pc[w].StealXchg? && !r.pc[w].BackLoad? && !r.pc[w].BackStore? && !r.pc[w].BackCas?
    ensures SameSizes(r, R.DoStep(r, w))
  {
  }

  lemma ListKeepsSizes(r: R.State, w: nat)
    requires R.Enabled(r, R.Step(w)) && (r.pc[w].ListLoad? || r.pc[w].ListStore? || r.pc[w].ListCas?)
    ensures SameSizes(r, R.DoStep(r, w))
  {
  }

  lemma ThiefKeepsSizes(r: R.State, w: nat)
    requires R.Enabled(r, R.Step(w))
    requires r.pc[w].StealXchg? || r.pc[w].BackLoad? || r.pc[w].BackStore? || r.pc[w].BackCas?
    ensures SameSizes(r, R.DoStep(r, w))
  {
  }

  lemma ScanSame(c: State, w: nat, l: seq<Ptr>)
    requires Sizes(c) && R.Enabled(c.r, R.Scan(w, l)) && c.r.pc[w].StealSplit?
    ensures var s' := ScanEffect(c, w, l);
      s'.fib == c.s.fib && s'.unborn == c.s.unborn && |s'.wk| == |c.s.wk|
      && forall u :: 0 <= u < |c.s.wk| ==> Bare(s'.wk[u]) == Bare(c.s.wk[u])
  {
    if c.r.pc[w].v < |c.s.wk| { BareStole(c.s, w, c.r.pc[w].v, multiset(Numbers(Kept(l)))); }
  }

  lemma StepSame(c: State, w: nat)
    requires Sizes(c) && R.Enabled(c.r, R.Step(w)) && !Swapping(c.r, w)
    ensures var s' := StepEffect(c, w);
      s'.fib == c.s.fib && s'.unborn == c.s.unborn && |s'.wk| == |c.s.wk|
      && forall u :: 0 <= u < |c.s.wk| ==> Bare(s'.wk[u]) == Bare(c.s.wk[u])
  {
    assert StepEffect(c, w) == c.s || StepEffect(c, w) == S.Unloaded(c.s, w);
    BareUnloaded(c.s, w);
  }

  lemma BareUnloaded(s: S.State, w: nat)
    requires w < |s.wk|
    ensures var s' := S.Unloaded(s, w); s'.fib == s.fib && s'.unborn == s.unborn && |s'.wk| == |s.wk|
    ensures forall u :: 0 <= u < |s.wk| ==> Bare(S.Unloaded(s, w).wk[u]) == Bare(s.wk[u])
  {
  }

  lemma BareStole(s: S.State, w: nat, v: nat, part: multiset<nat>)
    requires w < |s.wk| && v < |s.wk|
    ensures var s' := S.Stole(s, w, v, part); s'.fib == s.fib && s'.unborn == s.unborn && |s'.wk| == |s.wk|
    ensures forall u :: 0 <= u < |s.wk| ==> Bare(S.Stole(s, w, v, part).wk[u]) == Bare(s.wk[u])
  {
  }

  /** The step with which worker t takes its head h. */
  lemma ThenTook(c0: State, acts: seq<Action>, c: State, x: R.State, d: seq<S.Worker>, t: nat, h: Ptr, nx: Ptr, x': R.State) returns (acts': seq<Action>, c': State)
    requires Stands(c0, acts, c, x, d) && t < 3 && x.pc[t] == R.PopCas(h, nx) && x.head[t] == h && h > 0
    requires x' == x.(pc := x.pc[t := R.PopClear(h)], head := x.head[t := nx])
    ensures Stands(c0, acts', c', x', d[t := d[t].(pc := S.Picked(h - 1))]) && World(c.s, c'.s, 7) && c'.from == c.from
  {
    TookAfter(x, t, h, nx);
    acts', c' := Access(c0, acts, c, x, d, R.Step(t));
    TookDesk(c, x, t, h, nx, d);
  }

  lemma TookDesk(c: State, x: R.State, t: nat, h: Ptr, nx: Ptr, d: seq<S.Worker>)
    requires Sizes(c) && |c.s.wk| >= 3 == |d| && |x.pc| == |x.head| == |x.hand| == 3 && NoHands(c.r) == Q.Extend(x, |c.s.wk|)
    requires t < 3 && x.pc[t] == R.PopCas(h, nx) && x.head[t] == h && h > 0 && R.Enabled(c.r, R.Step(t))
    requires forall w :: 0 <= w < 3 ==> Bare(c.s.wk[w]) == d[w]
    ensures var c' := Do(c, Step(t)); Sizes(c') && |c'.s.wk| == |c.s.wk| && World(c.s, c'.s, |c.s.fib|) && c'.from == c.from
    ensures forall w :: 0 <= w < 3 ==> Bare(Do(c, Step(t)).s.wk[w]) == d[t := d[t].(pc := S.Picked(h - 1))][w]
  {
    assert c.r.pc[t] == x.pc[t] && c.r.head[t] == x.head[t];
    assert StepEffect(c, t) == S.Took(c.s, t, h - 1);
    DoSizes(c, R.Step(t));
    BareTook(c.s, t, h - 1, d);
  }

  lemma TookAfter(x: R.State, t: nat, h: Ptr, nx: Ptr)
    requires Three(x) && t < 3 && x.pc[t] == R.PopCas(h, nx) && x.head[t] == h
    ensures R.Enabled(x, R.Step(t)) && After(x, R.Step(t)) == x.(pc := x.pc[t := R.PopClear(h)], head := x.head[t := nx])
  {
    assert R.DoStep(x, t).pc == x.pc[t := R.PopClear(h)] && R.DoStep(x, t).head == x.head[t := nx];
  }

  lemma BareTook(s: S.State, t: nat, f: nat, d: seq<S.Worker>)
    requires |s.wk| >= 3 == |d| && t < 3 && forall w :: 0 <= w < 3 ==> Bare(s.wk[w]) == d[w]
    ensures var s' := S.Took(s, t, f); |s'.wk| == |s.wk| && s'.fib == s.fib && s'.unborn == s.unborn
    ensures forall w :: 0 <= w < 3 ==> Bare(S.Took(s, t, f).wk[w]) == d[t := d[t].(pc := S.Picked(f))][w]
  {
  }

  /** The step with which worker 0 publishes the displaced fiber. */
  lemma ThenPublished(c0: State, acts: seq<Action>, c: State, x: R.State, d: seq<S.Worker>, f: nat, h: Ptr, x': R.State) returns (acts': seq<Action>, c': State)
    requires Stands(c0, acts, c, x, d) && x.pc[0] == R.PushCas(f + 1, h) && x.head[0] == h && c.from[0] == Displaced
    requires x' == x.(pc := x.pc[0 := R.Idle], head := x.head[0 := f + 1])
    ensures Stands(c0, acts', c', x', d[0 := d[0].(displaced := None)]) && World(c.s, c'.s, 7)
  {
    assert After(x, R.Step(0)) == x' by { assert R.DoStep(x, 0).pc == x'.pc && R.DoStep(x, 0).head == x'.head; }
    acts', c' := Access(c0, acts, c, x, d, R.Step(0));
    assert c.r.pc[0] == x.pc[0] && c.r.head[0] == x.head[0];
    assert c'.s == S.FromDisplaced(c.s, 0, f);
  }

  // ---------------------------------------------------------------------
  // The queue operations
  // ---------------------------------------------------------------------

  ghost function Set(x: R.State, t: nat, pc: R.Pc): R.State
    requires t < |x.pc|
  {
    x.(pc := x.pc[t := pc])
  }

  /** Worker t begins a pop or a steal. */
  lemma Begins(c0: State, acts: seq<Action>, c: State, x: R.State, d: seq<S.Worker>, t: nat, steal: bool) returns (acts': seq<Action>, c': State)
    requires Stands(c0, acts, c, x, d) && t < 3 && x.pc[t] == R.Idle && d[t].pc == S.Loop && d[t].drained == multiset{} && (steal ==> t > 0)
    ensures Stands(c0, acts', c', Set(x, t, if steal then R.StealXchg(0) else R.PopStart), d) && World(c.s, c'.s, 7) && c'.from == c.from
  {
    var a := if steal then Steal(t, 0) else Pop(t);
    assert c.r.pc[t] == x.pc[t] && Bare(c.s.wk[t]) == d[t];
    ExecSnoc(c0, acts, a);
    acts', c' := acts + [a], Do(c, a);
    var pc := if steal then R.StealXchg(0) else R.PopStart;
    assert NoHands(c'.r) == NoHands(c.r).(pc := NoHands(c.r).pc[t := pc]);
    ExtendSet(x, |c.s.wk|, t, pc);
  }

  lemma ExtendSet(x: R.State, n: nat, t: nat, pc: R.Pc)
    requires |x.head| == |x.pc| == |x.hand| <= n && t < |x.pc|
    ensures Q.Extend(Set(x, t, pc), n) == Q.Extend(x, n).(pc := Q.Extend(x, n).pc[t := pc])
  {
    Q.UpdatePad(x.pc, seq(n - |x.pc|, _ => R.Idle), t, pc);
  }

  /** Worker 0 begins to push the displaced fiber. */
  lemma BeginsPush(c0: State, acts: seq<Action>, c: State, x: R.State, d: seq<S.Worker>, f: nat) returns (acts': seq<Action>, c': State)
    requires Stands(c0, acts, c, x, d) && x.pc[0] == R.Idle && d[0].pc == S.InFiber && d[0].displaced == Some(f) && f < 7
    ensures Stands(c0, acts', c', Set(x, 0, R.PushLoad(f + 1)), d) && World(c.s, c'.s, 7) && c'.from[0] == Displaced
  {
    var a := Push(0, f, Displaced);
    assert c.r.pc[0] == x.pc[0] && Bare(c.s.wk[0]) == d[0];
    ExecSnoc(c0, acts, a);
    acts', c' := acts + [a], Do(c, a);
    assert NoHands(c'.r) == NoHands(c.r).(pc := NoHands(c.r).pc[0 := R.PushLoad(f + 1)]);
    ExtendSet(x, |c.s.wk|, 0, R.PushLoad(f + 1));
  }

  /** Worker 0 pushes the displaced fiber. */
  lemma Pushes(c0: State, acts: seq<Action>, c: State, x: R.State, d: seq<S.Worker>, f: nat) returns (acts': seq<Action>, c': State)
    requires Stands(c0, acts, c, x, d) && x.pc[0] == R.Idle && d[0].pc == S.InFiber && d[0].displaced == Some(f) && f < 7
    ensures Stands(c0, acts', c', x.(next := x.next[f + 1 := x.head[0]], head := x.head[0 := f + 1]), d[0 := d[0].(displaced := None)])
    ensures World(c.s, c'.s, 7)
  {
    var q, h := f + 1, x.head[0];
    acts', c' := BeginsPush(c0, acts, c, x, d, f);
    acts', c' := Then(c0, acts', c', Set(x, 0, R.PushLoad(q)), d, R.Step(0), Set(x, 0, R.PushStore(q, h)));
    var y := x.(next := x.next[q := h]);
    acts', c' := Then(c0, acts', c', Set(x, 0, R.PushStore(q, h)), d, R.Step(0), Set(y, 0, R.PushCas(q, h)));
    acts', c' := ThenPublished(c0, acts', c', Set(y, 0, R.PushCas(q, h)), d, f, h, y.(head := y.head[0 := q]));
  }

  /** Worker t detaches the queue [a, b] of worker 0 and keeps a. */
  lemma Detaches(c0: State, acts: seq<Action>, c: State, x: R.State, d: seq<S.Worker>, t: nat, a: Ptr, b: Ptr) returns (acts': seq<Action>, c': State)
    requires Stands(c0, acts, c, x, d) && 0 < t < 3 && x.pc[t] == R.Idle && d[t].pc == S.Loop && d[t].drained == multiset{}
    requires x.head[0] == a && 0 < a < 8 && 0 < b < 8 && x.next[a] == b && x.next[b] == 0
    ensures Stands(c0, acts', c', Set(x.(next := x.next[a := 0], head := x.head[0 := 0]), t, R.BackLoad(0, a, a, b, b)), d)
    ensures World(c.s, c'.s, 7)
  {
    var y := x.(head := x.head[0 := 0]);
    acts', c' := Begins(c0, acts, c, x, d, t, true);
    acts', c' := Then(c0, acts', c', Set(x, t, R.StealXchg(0)), d, R.Step(t), Set(y, t, R.StealSplit(0, a)));
    var z := Set(y.(next := y.next[a := 0]), t, R.BackLoad(0, a, a, b, b));
    acts', c' := Then(c0, acts', c', Set(y, t, R.StealSplit(0, a)), d, R.Scan(t, [a, b]), z);
  }

  /** Worker t reads the head of worker 0 and links the fiber b to it. */
  lemma LinksBack(c0: State, acts: seq<Action>, c: State, x: R.State, d: seq<S.Worker>, t: nat, a: Ptr, b: Ptr) returns (acts': seq<Action>, c': State)
    requires Stands(c0, acts, c, x, d) && 0 < t < 3 && 0 < b < 8 && x.pc[t] == R.BackLoad(0, a, a, b, b)
    ensures Stands(c0, acts', c', Set(x.(next := x.next[b := x.head[0]]), t, R.BackCas(0, a, a, b, b, x.head[0])), d)
    ensures World(c.s, c'.s, 7)
  {
    var h := x.head[0];
    acts', c' := Then(c0, acts, c, x, d, R.Step(t), Set(x, t, R.BackStore(0, a, a, b, b, h)));
    acts', c' := Then(c0, acts', c', Set(x, t, R.BackStore(0, a, a, b, b, h)), d, R.Step(t),
                      Set(x.(next := x.next[b := h]), t, R.BackCas(0, a, a, b, b, h)));
  }

  /** Worker t puts the fiber b back in front of what worker 0 has queued. */
  lemma PutsBack(c0: State, acts: seq<Action>, c: State, x: R.State, d: seq<S.Worker>, t: nat, a: Ptr, b: Ptr) returns (acts': seq<Action>, c': State)
    requires Stands(c0, acts, c, x, d) && 0 < t < 3 && 0 < b < 8 && x.pc[t] == R.BackLoad(0, a, a, b, b)
    ensures Stands(c0, acts', c', Set(x.(next := x.next[b := x.head[0]], head := x.head[0 := b]), t, R.ListLoad(a, a, true)), d)
    ensures World(c.s, c'.s, 7)
  {
    acts', c' := LinksBack(c0, acts, c, x, d, t, a, b);
    var y := x.(next := x.next[b := x.head[0]]);
    acts', c' := Then(c0, acts', c', Set(y, t, R.BackCas(0, a, a, b, b, x.head[0])), d, R.Step(t),
                      Set(y.(head := y.head[0 := b]), t, R.ListLoad(a, a, true)));
  }

  /** Worker t begins to pop its fiber h and stops before it reads the link. */
  lemma ReadsHead(c0: State, acts: seq<Action>, c: State, x: R.State, d: seq<S.Worker>, t: nat, h: Ptr) returns (acts': seq<Action>, c': State)
    requires Stands(c0, acts, c, x, d) && t < 3 && x.pc[t] == R.Idle && d[t].pc == S.Loop && d[t].drained == multiset{} && x.head[t] == h && 0 < h < 8
    ensures Stands(c0, acts', c', Set(x, t, R.PopRead(h)), d) && World(c.s, c'.s, 7)
  {
    acts', c' := Begins(c0, acts, c, x, d, t, false);
    acts', c' := Heads(c0, acts', c', Set(x, t, R.PopStart), d, t, h);
    assert Set(Set(x, t, R.PopStart), t, R.PopRead(h)) == Set(x, t, R.PopRead(h));
  }

  lemma Heads(c0: State, acts: seq<Action>, c: State, x: R.State, d: seq<S.Worker>, t: nat, h: Ptr) returns (acts': seq<Action>, c': State)
    requires Stands(c0, acts, c, x, d) && t < 3 && x.pc[t] == R.PopStart && x.head[t] == h && 0 < h < 8
    ensures Stands(c0, acts', c', Set(x, t, R.PopRead(h)), d) && World(c.s, c'.s, 7)
  {
    acts', c' := Then(c0, acts, c, x, d, R.Step(t), Set(x, t, R.PopLoad));
    acts', c' := Then(c0, acts', c', Set(x, t, R.PopLoad), d, R.Step(t), Set(x, t, R.PopRead(h)));
  }

  /** Worker t, at its swap, takes the head a. */
  lemma Swaps(c0: State, acts: seq<Action>, c: State, x: R.State, d: seq<S.Worker>, t: nat, a: Ptr, nx: Ptr) returns (acts': seq<Action>, c': State)
    requires Stands(c0, acts, c, x, d) && t < 3 && 0 < a < 8 && x.pc[t] == R.PopCas(a, nx) && x.head[t] == a
    ensures Stands(c0, acts', c', Set(x.(next := x.next[a := 0], head := x.head[t := nx]), t, R.Idle), d[t := d[t].(pc := S.Picked(a - 1))])
    ensures World(c.s, c'.s, 7)
  {
    var y := Set(x.(head := x.head[t := nx]), t, R.PopClear(a));
    acts', c' := ThenTook(c0, acts, c, x, d, t, a, nx, y);
    acts', c' := Then(c0, acts', c', y, d[t := d[t].(pc := S.Picked(a - 1))], R.Step(t), Set(y.(next := y.next[a := 0]), t, R.Idle));
    assert Set(y.(next := y.next[a := 0]), t, R.Idle) == Set(x.(next := x.next[a := 0], head := x.head[t := nx]), t, R.Idle);
  }

  /** Worker t reads the link of its head a and takes it. */
  lemma TakesHead(c0: State, acts: seq<Action>, c: State, x: R.State, d: seq<S.Worker>, t: nat, a: Ptr) returns (acts': seq<Action>, c': State)
    requires Stands(c0, acts, c, x, d) && t < 3 && 0 < a < 8 && x.pc[t] == R.PopRead(a) && x.head[t] == a && x.next[a] == 0
    ensures Stands(c0, acts', c', Set(x.(head := x.head[t := 0]), t, R.Idle), d[t := d[t].(pc := S.Picked(a - 1))])
    ensures World(c.s, c'.s, 7)
  {
    var y := Set(x, t, R.PopCas(a, 0));
    acts', c' := Then(c0, acts, c, x, d, R.Step(t), y);
    acts', c' := Swaps(c0, acts', c', y, d, t, a, 0);
    assert y.next[a := 0] == x.next;
    assert Set(y.(next := y.next[a := 0], head := y.head[t := 0]), t, R.Idle) == Set(x.(head := x.head[t := 0]), t, R.Idle);
  }

  /** Worker t queues the stolen fiber a on its own empty queue ... */
  lemma QueuesStolen(c0: State, acts: seq<Action>, c: State, x: R.State, d: seq<S.Worker>, t: nat, a: Ptr) returns (acts': seq<Action>, c': State)
    requires Stands(c0, acts, c, x, d) && 0 < t < 3 && 0 < a < 8 && x.pc[t] == R.ListLoad(a, a, true) && x.head[t] == 0
    ensures Stands(c0, acts', c', Set(x.(next := x.next[a := 0], head := x.head[t := a]), t, R.PopStart), d)
    ensures World(c.s, c'.s, 7)
  {
    var y := x.(next := x.next[a := 0]);
    acts', c' := Then(c0, acts, c, x, d, R.Step(t), Set(x, t, R.ListStore(a, a, true, 0)));
    acts', c' := Then(c0, acts', c', Set(x, t, R.ListStore(a, a, true, 0)), d, R.Step(t), Set(y, t, R.ListCas(a, a, true, 0)));
    acts', c' := Then(c0, acts', c', Set(y, t, R.ListCas(a, a, true, 0)), d, R.Step(t), Set(y.(head := y.head[t := a]), t, R.PopStart));
  }

  /** ... and takes it. */
  lemma TakesStolen(c0: State, acts: seq<Action>, c: State, x: R.State, d: seq<S.Worker>, t: nat, a: Ptr) returns (acts': seq<Action>, c': State)
    requires Stands(c0, acts, c, x, d) && 0 < t < 3 && 0 < a < 8 && x.pc[t] == R.ListLoad(a, a, true) && x.head[t] == 0
    ensures Stands(c0, acts', c', Set(x.(next := x.next[a := 0]), t, R.Idle), d[t := d[t].(pc := S.Picked(a - 1))])
    ensures World(c.s, c'.s, 7)
  {
    var y := x.(next := x.next[a := 0], head := x.head[t := a]);
    acts', c' := QueuesStolen(c0, acts, c, x, d, t, a);
    acts', c' := Heads(c0, acts', c', Set(y, t, R.PopStart), d, t, a);
    assert Set(Set(y, t, R.PopStart), t, R.PopRead(a)) == Set(y, t, R.PopRead(a));
    acts', c' := TakesHead(c0, acts', c', Set(y, t, R.PopRead(a)), d, t, a);
    assert y.head[t := 0] == x.head;
    assert Set(Set(y, t, R.PopRead(a)).(head := y.head[t := 0]), t, R.Idle) == Set(x.(next := x.next[a := 0]), t, R.Idle);
  }

  /** Worker t steals the only fiber a that worker 0 has queued, and takes it. */
  lemma StealsOne(c0: State, acts: seq<Action>, c: State, x: R.State, d: seq<S.Worker>, t: nat, a: Ptr) returns (acts': seq<Action>, c': State)
    requires Stands(c0, acts, c, x, d) && 0 < t < 3 && 0 < a < 8 && x.pc[t] == R.Idle && d[t].pc == S.Loop && d[t].drained == multiset{}
    requires x.head[0] == a && x.next[a] == 0 && x.head[t] == 0
    ensures Stands(c0, acts', c', x.(head := x.head[0 := 0]), d[t := d[t].(pc := S.Picked(a - 1))]) && World(c.s, c'.s, 7)
  {
    var y := x.(head := x.head[0 := 0]);
    acts', c' := DetachesOne(c0, acts, c, x, d, t, a);
    acts', c' := TakesStolen(c0, acts', c', Set(y, t, R.ListLoad(a, a, true)), d, t, a);
    assert Set(Set(y, t, R.ListLoad(a, a, true)).(next := y.next[a := 0]), t, R.Idle) == y;
  }

  lemma DetachesOne(c0: State, acts: seq<Action>, c: State, x: R.State, d: seq<S.Worker>, t: nat, a: Ptr) returns (acts': seq<Action>, c': State)
    requires Stands(c0, acts, c, x, d) && 0 < t < 3 && 0 < a < 8 && x.pc[t] == R.Idle && d[t].pc == S.Loop && d[t].drained == multiset{}
    requires x.head[0] == a && x.next[a] == 0
    ensures Stands(c0, acts', c', Set(x.(head := x.head[0 := 0]), t, R.ListLoad(a, a, true)), d) && World(c.s, c'.s, 7)
  {
    var y := x.(head := x.head[0 := 0]);
    acts', c' := Begins(c0, acts, c, x, d, t, true);
    acts', c' := Then(c0, acts', c', Set(x, t, R.StealXchg(0)), d, R.Step(t), Set(y, t, R.StealSplit(0, a)));
    acts', c' := Then(c0, acts', c', Set(y, t, R.StealSplit(0, a)), d, R.Scan(t, [a]), Set(y, t, R.ListLoad(a, a, true)));
  }

  // ---------------------------------------------------------------------
  // Everything else a worker does
  // ---------------------------------------------------------------------

  lemma Aways(c0: State, acts: seq<Action>, c: State, x: R.State, d: seq<S.Worker>, a: S.Action) returns (acts': seq<Action>, c': State)
    requires Stands(c0, acts, c, x, d) && AwayEnabled(c, a)
    ensures Exec(c0, acts') == Reached(c') && c' == c.(s := S.Do(c.s, a))
  {
    ExecSnoc(c0, acts, Away(a));
    acts', c' := acts + [Away(a)], Do(c, Away(a));
  }

  /** Worker t switches to the fiber it has picked. */
  lemma Resumes(c0: State, acts: seq<Action>, c: State, x: R.State, d: seq<S.Worker>, t: nat, f: nat) returns (acts': seq<Action>, c': State)
    requires Stands(c0, acts, c, x, d) && t < 3 && x.pc[t] == R.Idle && d[t].pc == S.Picked(f) && f < 7
    ensures Stands(c0, acts', c', x, d[t := d[t].(pc := S.InFiber, cur := Some(f))]) && World(c.s, c'.s, f)
    ensures c'.s.fib[f].stage == S.Task
  {
    assert c.r.pc[t] == x.pc[t] && Bare(c.s.wk[t]) == d[t];
    acts', c' := Aways(c0, acts, c, x, d, S.Work(t, S.Resume));
  }

  lemma WaitsOnce(c0: State, acts: seq<Action>, c: State, x: R.State, d: seq<S.Worker>, t: nat, f: nat, a: S.WaitStep, before: S.Stage, after: S.Stage) returns (acts': seq<Action>, c': State)
    requires Stands(c0, acts, c, x, d) && t < 3 && x.pc[t] == R.Idle && d[t].pc == S.InFiber && d[t].cur == Some(f) && f < 7
    requires d[t].displaced == None && c.s.fib[f].stage == before
    requires (a == S.SetHome(false) && before == S.Task && after == S.HomeSet)
          || (a == S.Publish(false) && before == S.HomeSet && after == S.Published)
          || (a == S.Park && before == S.Published && after == S.Parking)
    ensures Stands(c0, acts', c', x, d) && World(c.s, c'.s, f) && c'.s.fib[f].stage == after
    ensures a == S.Park ==> c'.s.fib[f].state == S.WAITING
  {
    assert c.r.pc[t] == x.pc[t] && Bare(c.s.wk[t]) == d[t];
    acts', c' := Aways(c0, acts, c, x, d, S.Wait(t, a));
  }

  /** The fiber waits: worker t is back in its loop. */
  lemma Leaves(c0: State, acts: seq<Action>, c: State, x: R.State, d: seq<S.Worker>, t: nat, f: nat) returns (acts': seq<Action>, c': State)
    requires Stands(c0, acts, c, x, d) && t < 3 && x.pc[t] == R.Idle && d[t].pc == S.InFiber && d[t].cur == Some(f) && f < 7
    requires c.s.fib[f].stage == S.Parking && c.s.fib[f].state == S.WAITING
    ensures Stands(c0, acts', c', x, d[t := d[t].(pc := S.Loop, cur := None)]) && World(c.s, c'.s, f)
  {
    assert c.r.pc[t] == x.pc[t] && Bare(c.s.wk[t]) == d[t];
    acts', c' := Aways(c0, acts, c, x, d, S.Wait(t, S.SwitchOut));
    var e := d[t := d[t].(pc := S.Back(f), cur := None)];
    acts', c' := Checks(c0, acts', c', x, e, t, f);
    assert e[t := e[t].(pc := S.Loop)] == d[t := d[t].(pc := S.Loop, cur := None)];
  }

  lemma Checks(c0: State, acts: seq<Action>, c: State, x: R.State, d: seq<S.Worker>, t: nat, f: nat) returns (acts': seq<Action>, c': State)
    requires Stands(c0, acts, c, x, d) && t < 3 && x.pc[t] == R.Idle && d[t].pc == S.Back(f) && f < 7 && c.s.fib[f].state == S.WAITING
    ensures Stands(c0, acts', c', x, d[t := d[t].(pc := S.Loop)]) && World(c.s, c'.s, 7)
  {
    assert c.r.pc[t] == x.pc[t] && Bare(c.s.wk[t]) == d[t];
    acts', c' := Aways(c0, acts, c, x, d, S.Work(t, S.Check));
  }

  lemma Waits(c0: State, acts: seq<Action>, c: State, x: R.State, d: seq<S.Worker>, t: nat, f: nat) returns (acts': seq<Action>, c': State)
    requires Stands(c0, acts, c, x, d) && t < 3 && x.pc[t] == R.Idle && d[t].pc == S.InFiber && d[t].cur == Some(f) && f < 7
    requires d[t].displaced == None && c.s.fib[f].stage == S.Task
    ensures Stands(c0, acts', c', x, d[t := d[t].(pc := S.Loop, cur := None)]) && World(c.s, c'.s, f)
  {
    acts', c' := WaitsOnce(c0, acts, c, x, d, t, f, S.SetHome(false), S.Task, S.HomeSet);
    acts', c' := WaitsOnce(c0, acts', c', x, d, t, f, S.Publish(false), S.HomeSet, S.Published);
    acts', c' := WaitsOnce(c0, acts', c', x, d, t, f, S.Park, S.Published, S.Parking);
    acts', c' := Leaves(c0, acts', c', x, d, t, f);
  }

  /** Worker t runs the fiber it has picked, which waits. */
  lemma Runs(c0: State, acts: seq<Action>, c: State, x: R.State, d: seq<S.Worker>, t: nat, f: nat) returns (acts': seq<Action>, c': State)
    requires Stands(c0, acts, c, x, d) && t < 3 && x.pc[t] == R.Idle && d[t].pc == S.Picked(f) && d[t].cur == None && f < 7
    requires d[t].displaced == None
    ensures Stands(c0, acts', c', x, d[t := d[t].(pc := S.Loop)]) && World(c.s, c'.s, f)
  {
    var e := d[t := d[t].(pc := S.InFiber, cur := Some(f))];
    acts', c' := Resumes(c0, acts, c, x, d, t, f);
    acts', c' := Waits(c0, acts', c', x, e, t, f);
    assert e[t := e[t].(pc := S.Loop, cur := None)] == d[t := d[t].(pc := S.Loop)];
  }

  lemma PicksNext(c0: State, acts: seq<Action>, c: State, x: R.State, d: seq<S.Worker>, f: nat) returns (acts': seq<Action>, c': State)
    requires Stands(c0, acts, c, x, d) && x.pc[0] == R.Idle && d[0].pc == S.Loop && d[0].drained == multiset{} && d[0].runnext == Some(f)
    ensures Stands(c0, acts', c', x, d[0 := d[0].(pc := S.Picked(f), runnext := None)]) && World(c.s, c'.s, 7)
  {
    assert c.r.pc[0] == x.pc[0] && Bare(c.s.wk[0]) == d[0];
    acts', c' := Aways(c0, acts, c, x, d, S.Work(0, S.PickNext));
  }

  /** MAIN, on worker 0, has spawned the fibers up to f - 1. */
  ghost predicate Spawning(c: State, f: nat) {
    |c.s.fib| == 7 && c.s.fib[0].stage == S.Task && forall g :: f <= g < 7 ==> g in c.s.unborn
  }

  /** MAIN's worker: its runnext slot, and what it has displaced. */
  function Spawner(runnext: Option<nat>, displaced: Option<nat>): S.Worker {
    FREE.(pc := S.InFiber, cur := Some(0), runnext := runnext, displaced := displaced)
  }

  lemma Spawns(c0: State, acts: seq<Action>, c: State, x: R.State, d: seq<S.Worker>, f: nat, old_: Option<nat>) returns (acts': seq<Action>, c': State)
    requires Stands(c0, acts, c, x, d) && x.pc[0] == R.Idle && d[0] == Spawner(old_, None) && 0 < f < 7 && Spawning(c, f)
    ensures Stands(c0, acts', c', x, d[0 := Spawner(Some(f), old_)]) && Spawning(c', f + 1)
  {
    assert c.r.pc[0] == x.pc[0] && Bare(c.s.wk[0]) == d[0];
    acts', c' := Aways(c0, acts, c, x, d, S.Spawn(0, S.FromNew(f)));
    assert forall g :: f + 1 <= g < 7 ==> g in c.s.unborn;
  }

  /** MAIN spawns f; the fiber f - 1 makes room and is pushed. */
  lemma SpawnsNext(c0: State, acts: seq<Action>, c: State, x: R.State, d: seq<S.Worker>, f: nat) returns (acts': seq<Action>, c': State)
    requires Stands(c0, acts, c, x, d) && x.pc[0] == R.Idle && 1 < f < 7 && d[0] == Spawner(Some(f - 1), None) && Spawning(c, f)
    ensures Stands(c0, acts', c', x.(next := x.next[f := x.head[0]], head := x.head[0 := f]), d[0 := Spawner(Some(f), None)])
    ensures Spawning(c', f + 1)
  {
    var e := d[0 := Spawner(Some(f), Some(f - 1))];
    acts', c' := Spawns(c0, acts, c, x, d, f, Some(f - 1));
    acts', c' := Pushes(c0, acts', c', x, e, f - 1);
    assert e[0 := e[0].(displaced := None)] == d[0 := Spawner(Some(f), None)];
  }

  // ---------------------------------------------------------------------
  // The run
  // ---------------------------------------------------------------------

  const ZERO: seq<Ptr> := [0, 0, 0, 0, 0, 0, 0, 0]

  /** The program starts: seven fibers, of which MAIN is the first, and n workers. */
  ghost function Start(n: nat): State
    requires n >= 3
  {
    State(
      S.State(seq(7, _ => S.Fiber(None, true, S.RUNNABLE, S.Task, 0, 0)),
              seq(n, w => if w == 0 then FREE.(runnext := Some(0)) else FREE),
              multiset{1, 2, 3, 4, 5, 6}, multiset{}, multiset{}, multiset{}, multiset{}, multiset{}, multiset{}),
      R.State(ZERO, seq(n, _ => 0), ZERO, false, seq(n, _ => R.Idle), seq(n, w => if w == 0 then {1, 2, 3, 4, 5, 6, 7} else {})),
      seq(n, _ => Drained))
  }

  const EMPTY: R.State := Core(ZERO, [0, 0, 0], [R.Idle, R.Idle, R.Idle])

  lemma StartIsInit(n: nat)
    requires n >= 3
    ensures Init(Start(n), n, false)
    ensures Stands(Start(n), [], Start(n), EMPTY, [FREE.(runnext := Some(0)), FREE, FREE]) && Spawning(Start(n), 1)
  {
    var c := Start(n);
    assert R.Init(c.r, n, false) by { StartQueues(n); }
    assert NoHands(c.r) == Q.Extend(EMPTY, n);
  }

  lemma StartQueues(n: nat)
    requires n >= 3
    ensures R.Init(Start(n).r, n, false)
  {
    var r := Start(n).r;
    forall x | 0 < x < |r.next| ensures R.HeldBySomeone(r, x) { assert x in r.hand[0]; }
  }

  /** MAIN runs and has spawned fiber 1. */
  lemma First(c0: State, acts: seq<Action>, c: State) returns (acts': seq<Action>, c': State)
    requires Stands(c0, acts, c, EMPTY, [FREE.(runnext := Some(0)), FREE, FREE]) && Spawning(c, 1)
    ensures Stands(c0, acts', c', EMPTY, [Spawner(Some(1), None), FREE, FREE]) && Spawning(c', 2)
  {
    acts', c' := PicksNext(c0, acts, c, EMPTY, [FREE.(runnext := Some(0)), FREE, FREE], 0);
    assert [FREE.(runnext := Some(0)), FREE, FREE][0 := FREE.(pc := S.Picked(0))] == [FREE.(pc := S.Picked(0)), FREE, FREE];
    acts', c' := Resumes(c0, acts', c', EMPTY, [FREE.(pc := S.Picked(0)), FREE, FREE], 0, 0);
    assert [FREE.(pc := S.Picked(0)), FREE, FREE][0 := Spawner(None, None)] == [Spawner(None, None), FREE, FREE];
    acts', c' := Spawns(c0, acts', c', EMPTY, [Spawner(None, None), FREE, FREE], 1, None);
  }

  /** MAIN spawns f and f + 1, and worker t detaches the two fibers pushed. */
  lemma LosesPair(c0: State, acts: seq<Action>, c: State, x: R.State, f: nat, t: nat) returns (acts': seq<Action>, c': State)
    requires 1 < f < 6 && 0 < t < 3 && Stands(c0, acts, c, x, [Spawner(Some(f - 1), None), FREE, FREE]) && Spawning(c, f)
    requires x.next == ZERO && x.head == [0, 0, 0] && x.pc[0] == R.Idle && x.pc[t] == R.Idle
    ensures Stands(c0, acts', c', Set(x, t, R.BackLoad(0, f + 1, f + 1, f, f)), [Spawner(Some(f + 1), None), FREE, FREE])
    ensures Spawning(c', f + 2)
  {
    var d := [Spawner(Some(f - 1), None), FREE, FREE];
    var y := x.(head := x.head[0 := f]);
    acts', c' := SpawnsNext(c0, acts, c, x, d, f);
    assert x.next[f := 0] == x.next && d[0 := Spawner(Some(f), None)] == [Spawner(Some(f), None), FREE, FREE];
    d := [Spawner(Some(f), None), FREE, FREE];
    acts', c' := SpawnsNext(c0, acts', c', y, d, f + 1);
    assert d[0 := Spawner(Some(f + 1), None)] == [Spawner(Some(f + 1), None), FREE, FREE];
    var z := y.(next := y.next[f + 1 := f], head := y.head[0 := f + 1]);
    acts', c' := Detaches(c0, acts', c', z, [Spawner(Some(f + 1), None), FREE, FREE], t, f + 1, f);
    assert z.next[f + 1 := 0] == x.next && z.head[0 := 0] == x.head;
    assert Set(z.(next := x.next, head := x.head), t, R.BackLoad(0, f + 1, f + 1, f, f)) == Set(x, t, R.BackLoad(0, f + 1, f + 1, f, f));
  }

  /** Worker 0 has pushed and lost two pairs to the thieves, pushed fiber 5 and read
      it as its head. */
  ghost function Trap(pc0: R.Pc): R.State {
    Core(ZERO, [6, 0, 0], [pc0, R.BackLoad(0, 5, 5, 4, 4), R.BackLoad(0, 3, 3, 2, 2)])
  }

  const ALLFREE: seq<S.Worker> := [FREE, FREE, FREE]

  lemma TrapIsSet(c0: State, acts: seq<Action>, c: State) returns (acts': seq<Action>, c': State)
    requires Stands(c0, acts, c, EMPTY, [FREE.(runnext := Some(0)), FREE, FREE]) && Spawning(c, 1)
    ensures Stands(c0, acts', c', Trap(R.PopRead(6)), ALLFREE)
  {
    acts', c' := First(c0, acts, c);
    acts', c' := TrapOpens(c0, acts', c', EMPTY);
    acts', c' := TrapFills(c0, acts', c', Core(ZERO, [0, 0, 0], [R.Idle, R.Idle, R.BackLoad(0, 3, 3, 2, 2)]));
  }

  lemma TrapOpens(c0: State, acts: seq<Action>, c: State, x: R.State) returns (acts': seq<Action>, c': State)
    requires Stands(c0, acts, c, x, [Spawner(Some(1), None), FREE, FREE]) && Spawning(c, 2)
    requires x == Core(ZERO, [0, 0, 0], [R.Idle, R.Idle, R.Idle])
    ensures Stands(c0, acts', c', Core(ZERO, [0, 0, 0], [R.Idle, R.Idle, R.BackLoad(0, 3, 3, 2, 2)]), [Spawner(Some(3), None), FREE, FREE])
    ensures Spawning(c', 4)
  {
    acts', c' := LosesPair(c0, acts, c, x, 2, 2);
    assert x.pc[2 := R.BackLoad(0, 3, 3, 2, 2)] == [R.Idle, R.Idle, R.BackLoad(0, 3, 3, 2, 2)];
  }

  lemma TrapFills(c0: State, acts: seq<Action>, c: State, x: R.State) returns (acts': seq<Action>, c': State)
    requires Stands(c0, acts, c, x, [Spawner(Some(3), None), FREE, FREE]) && Spawning(c, 4)
    requires x == Core(ZERO, [0, 0, 0], [R.Idle, R.Idle, R.BackLoad(0, 3, 3, 2, 2)])
    ensures Stands(c0, acts', c', Trap(R.PopRead(6)), ALLFREE)
  {
    acts', c' := LosesPair(c0, acts, c, x, 4, 1);
    acts', c' := TrapCloses(c0, acts', c', Set(x, 1, R.BackLoad(0, 5, 5, 4, 4)));
  }

  lemma TrapCloses(c0: State, acts: seq<Action>, c: State, y: R.State) returns (acts': seq<Action>, c': State)
    requires Stands(c0, acts, c, y, [Spawner(Some(5), None), FREE, FREE]) && Spawning(c, 6)
    requires y == Core(ZERO, [0, 0, 0], [R.Idle, R.BackLoad(0, 5, 5, 4, 4), R.BackLoad(0, 3, 3, 2, 2)])
    ensures Stands(c0, acts', c', Trap(R.PopRead(6)), ALLFREE)
  {
    acts', c' := MainWaits(c0, acts, c, y);
    acts', c' := ReadsHead(c0, acts', c', y.(head := [6, 0, 0]), ALLFREE, 0, 6);
    assert Set(y.(head := [6, 0, 0]), 0, R.PopRead(6)) == Trap(R.PopRead(6));
  }

  /** MAIN spawns fiber 6 and waits, and so does fiber 6. */
  lemma MainWaits(c0: State, acts: seq<Action>, c: State, x: R.State) returns (acts': seq<Action>, c': State)
    requires Stands(c0, acts, c, x, [Spawner(Some(5), None), FREE, FREE]) && Spawning(c, 6)
    requires x.next == ZERO && x.head == [0, 0, 0] && x.pc[0] == R.Idle
    ensures Stands(c0, acts', c', x.(head := [6, 0, 0]), ALLFREE)
  {
    acts', c' := SpawnsNext(c0, acts, c, x, [Spawner(Some(5), None), FREE, FREE], 6);
    var y := x.(head := [6, 0, 0]);
    assert x.(next := x.next[6 := 0], head := x.head[0 := 6]) == y;
    var d := [Spawner(Some(6), None), FREE, FREE];
    acts', c' := Waits(c0, acts', c', y, d, 0, 0);
    assert d[0 := d[0].(pc := S.Loop, cur := None)] == [FREE.(runnext := Some(6)), FREE, FREE];
    acts', c' := SixRuns(c0, acts', c', y);
  }

  lemma SixRuns(c0: State, acts: seq<Action>, c: State, y: R.State) returns (acts': seq<Action>, c': State)
    requires Stands(c0, acts, c, y, [FREE.(runnext := Some(6)), FREE, FREE]) && y.pc[0] == R.Idle
    ensures Stands(c0, acts', c', y, ALLFREE)
  {
    var d := [FREE.(pc := S.Picked(6)), FREE, FREE];
    acts', c' := PicksNext(c0, acts, c, y, [FREE.(runnext := Some(6)), FREE, FREE], 6);
    acts', c' := Runs(c0, acts', c', y, d, 0, 6);
    assert d[0 := d[0].(pc := S.Loop)] == ALLFREE;
  }

  /** Worker t takes a stolen fiber and runs it. */
  lemma RunsStolen(c0: State, acts: seq<Action>, c: State, x: R.State, t: nat, a: Ptr) returns (acts': seq<Action>, c': State)
    requires Stands(c0, acts, c, x, ALLFREE) && 0 < t < 3 && 0 < a < 8 && x.pc[t] == R.ListLoad(a, a, true) && x.head[t] == 0
    ensures Stands(c0, acts', c', Set(x.(next := x.next[a := 0]), t, R.Idle), ALLFREE)
  {
    acts', c' := TakesStolen(c0, acts, c, x, ALLFREE, t, a);
    var d := ALLFREE[t := FREE.(pc := S.Picked(a - 1))];
    acts', c' := Runs(c0, acts', c', Set(x.(next := x.next[a := 0]), t, R.Idle), d, t, a - 1);
    assert d[t := d[t].(pc := S.Loop)] == ALLFREE;
  }

  /** Thief 1 puts 4 in front of 6, runs 5 and steals again; thief 2 puts 2 back. */
  ghost function Sprung(pc0: R.Pc): R.State {
    Core(ZERO, [2, 0, 0], [pc0, R.BackLoad(0, 4, 4, 6, 6), R.ListLoad(3, 3, true)])
  }

  lemma TrapSprings(c0: State, acts: seq<Action>, c: State, pc0: R.Pc) returns (acts': seq<Action>, c': State)
    requires Stands(c0, acts, c, Trap(pc0), ALLFREE)
    ensures Stands(c0, acts', c', Sprung(pc0), ALLFREE)
  {
    var x := Core([0, 0, 0, 0, 6, 0, 0, 0], [4, 0, 0], [pc0, R.ListLoad(5, 5, true), R.BackLoad(0, 3, 3, 2, 2)]);
    acts', c' := PutsBack(c0, acts, c, Trap(pc0), ALLFREE, 1, 5, 4);
    assert Set(Trap(pc0).(next := ZERO[4 := 6], head := [6, 0, 0][0 := 4]), 1, R.ListLoad(5, 5, true)) == x;
    acts', c' := RunsStolen(c0, acts', c', x, 1, 5);
    var y := Core([0, 0, 0, 0, 6, 0, 0, 0], [4, 0, 0], [pc0, R.Idle, R.BackLoad(0, 3, 3, 2, 2)]);
    assert Set(x.(next := x.next[5 := 0]), 1, R.Idle) == y;
    acts', c' := SecondSteal(c0, acts', c', y, pc0);
  }

  lemma SecondSteal(c0: State, acts: seq<Action>, c: State, y: R.State, pc0: R.Pc) returns (acts': seq<Action>, c': State)
    requires Stands(c0, acts, c, y, ALLFREE)
    requires y == Core([0, 0, 0, 0, 6, 0, 0, 0], [4, 0, 0], [pc0, R.Idle, R.BackLoad(0, 3, 3, 2, 2)])
    ensures Stands(c0, acts', c', Sprung(pc0), ALLFREE)
  {
    acts', c' := Detaches(c0, acts, c, y, ALLFREE, 1, 4, 6);
    var z := Core(ZERO, [0, 0, 0], [pc0, R.BackLoad(0, 4, 4, 6, 6), R.BackLoad(0, 3, 3, 2, 2)]);
    assert Set(y.(next := y.next[4 := 0], head := y.head[0 := 0]), 1, R.BackLoad(0, 4, 4, 6, 6)) == z;
    acts', c' := SecondBack(c0, acts', c', z, pc0);
  }

  lemma SecondBack(c0: State, acts: seq<Action>, c: State, z: R.State, pc0: R.Pc) returns (acts': seq<Action>, c': State)
    requires Stands(c0, acts, c, z, ALLFREE)
    requires z == Core(ZERO, [0, 0, 0], [pc0, R.BackLoad(0, 4, 4, 6, 6), R.BackLoad(0, 3, 3, 2, 2)])
    ensures Stands(c0, acts', c', Sprung(pc0), ALLFREE)
  {
    acts', c' := PutsBack(c0, acts, c, z, ALLFREE, 2, 3, 2);
    assert Set(z.(next := z.next[2 := 0], head := z.head[0 := 2]), 2, R.ListLoad(3, 3, true)) == Sprung(pc0);
  }

  /** Fiber 6's link points to 2, in vain, and the owner has read it. */
  ghost function Linked(): R.State {
    Core([0, 0, 0, 0, 0, 0, 2, 0], [2, 0, 0], [R.PopCas(6, 2), R.BackCas(0, 4, 4, 6, 6, 2), R.ListLoad(3, 3, true)])
  }

  lemma LinksInVain(c0: State, acts: seq<Action>, c: State) returns (acts': seq<Action>, c': State)
    requires Stands(c0, acts, c, Sprung(R.PopRead(6)), ALLFREE)
    ensures Stands(c0, acts', c', Linked(), ALLFREE)
  {
    acts', c' := LinksBack(c0, acts, c, Sprung(R.PopRead(6)), ALLFREE, 1, 4, 6);
    var x := Set(Linked(), 0, R.PopRead(6));
    assert Set(Sprung(R.PopRead(6)).(next := ZERO[6 := 2]), 1, R.BackCas(0, 4, 4, 6, 6, 2)) == x;
    acts', c' := Then(c0, acts', c', x, ALLFREE, R.Step(0), Set(x, 0, R.PopCas(6, 2)));
    assert Set(x, 0, R.PopCas(6, 2)) == Linked();
  }

  /** Worker 2 runs fiber 1. */
  const TWO: S.Worker := FREE.(pc := S.InFiber, cur := Some(1))

  /** Worker 2 runs fiber 2, steals 2 from the queue, and runs fiber 1. */
  lemma ThiefRuns(c0: State, acts: seq<Action>, c: State) returns (acts': seq<Action>, c': State)
    requires Stands(c0, acts, c, Linked(), ALLFREE)
    ensures Stands(c0, acts', c', Linked().(head := [0, 0, 0], pc := Linked().pc[2 := R.Idle]), [FREE, FREE, TWO])
  {
    acts', c' := RunsStolen(c0, acts, c, Linked(), 2, 3);
    var x := Set(Linked(), 2, R.Idle);
    assert Set(Linked().(next := Linked().next[3 := 0]), 2, R.Idle) == x;
    acts', c' := ThiefRunsOn(c0, acts', c', x);
  }

  lemma ThiefRunsOn(c0: State, acts: seq<Action>, c: State, x: R.State) returns (acts': seq<Action>, c': State)
    requires Stands(c0, acts, c, x, ALLFREE) && x == Set(Linked(), 2, R.Idle)
    ensures Stands(c0, acts', c', x.(head := [0, 0, 0]), [FREE, FREE, TWO])
  {
    acts', c' := StealsOne(c0, acts, c, x, ALLFREE, 2, 2);
    var d := [FREE, FREE, FREE.(pc := S.Picked(1))];
    assert ALLFREE[2 := ALLFREE[2].(pc := S.Picked(1))] == d && x.head[0 := 0] == [0, 0, 0];
    acts', c' := ThiefResumes(c0, acts', c', x.(head := [0, 0, 0]), d);
  }

  lemma ThiefResumes(c0: State, acts: seq<Action>, c: State, x: R.State, d: seq<S.Worker>) returns (acts': seq<Action>, c': State)
    requires Stands(c0, acts, c, x, d) && d == [FREE, FREE, FREE.(pc := S.Picked(1))] && x.pc[2] == R.Idle
    ensures Stands(c0, acts', c', x, [FREE, FREE, TWO])
  {
    acts', c' := Resumes(c0, acts, c, x, d, 2, 1);
    assert d[2 := d[2].(pc := S.InFiber, cur := Some(1))] == [FREE, FREE, TWO];
  }

  /** Worker 0 swaps its head 6 against the link it has read, and runs fiber 5. */
  lemma OwnerSwaps(c0: State, acts: seq<Action>, c: State, x: R.State) returns (acts': seq<Action>, c': State)
    requires Stands(c0, acts, c, x, [FREE, FREE, TWO]) && x == Linked().(head := [0, 0, 0], pc := Linked().pc[2 := R.Idle])
    ensures Stands(c0, acts', c', Core(ZERO, [2, 0, 0], [R.Idle, R.ListLoad(4, 4, true), R.Idle]), [FREE, FREE, TWO])
  {
    var d := [FREE, FREE, TWO];
    var y := Set(x, 1, R.BackLoad(0, 4, 4, 6, 6));
    acts', c' := Then(c0, acts, c, x, d, R.Step(1), y);
    acts', c' := PutsBack(c0, acts', c', y, d, 1, 4, 6);
    var z := Core(ZERO, [6, 0, 0], [R.PopCas(6, 2), R.ListLoad(4, 4, true), R.Idle]);
    assert Set(y.(next := y.next[6 := 0], head := y.head[0 := 6]), 1, R.ListLoad(4, 4, true)) == z;
    acts', c' := OwnerRuns(c0, acts', c', z);
  }

  lemma OwnerRuns(c0: State, acts: seq<Action>, c: State, z: R.State) returns (acts': seq<Action>, c': State)
    requires Stands(c0, acts, c, z, [FREE, FREE, TWO]) && z == Core(ZERO, [6, 0, 0], [R.PopCas(6, 2), R.ListLoad(4, 4, true), R.Idle])
    ensures Stands(c0, acts', c', Core(ZERO, [2, 0, 0], [R.Idle, R.ListLoad(4, 4, true), R.Idle]), [FREE, FREE, TWO])
  {
    var d := [FREE, FREE, TWO];
    acts', c' := Swaps(c0, acts, c, z, d, 0, 6, 2);
    var e := [FREE.(pc := S.Picked(5)), FREE, TWO];
    assert d[0 := d[0].(pc := S.Picked(5))] == e;
    SwappedQueues(z);
    acts', c' := OwnerWaits(c0, acts', c', Core(ZERO, [2, 0, 0], [R.Idle, R.ListLoad(4, 4, true), R.Idle]), e);
  }

  lemma SwappedQueues(z: R.State)
    requires z == Core(ZERO, [6, 0, 0], [R.PopCas(6, 2), R.ListLoad(4, 4, true), R.Idle])
    ensures Set(z.(next := z.next[6 := 0], head := z.head[0 := 2]), 0, R.Idle)
            == Core(ZERO, [2, 0, 0], [R.Idle, R.ListLoad(4, 4, true), R.Idle])
  {
  }

  lemma OwnerWaits(c0: State, acts: seq<Action>, c: State, y: R.State, e: seq<S.Worker>) returns (acts': seq<Action>, c': State)
    requires Stands(c0, acts, c, y, e) && e == [FREE.(pc := S.Picked(5)), FREE, TWO] && y.pc[0] == R.Idle
    ensures Stands(c0, acts', c', y, [FREE, FREE, TWO])
  {
    acts', c' := Runs(c0, acts, c, y, e, 0, 5);
    assert e[0 := e[0].(pc := S.Loop)] == [FREE, FREE, TWO];
  }

  /** Worker 0 runs fiber 1 too. */
  lemma OwnerTakes(c0: State, acts: seq<Action>, c: State) returns (acts': seq<Action>, c': State)
    requires Stands(c0, acts, c, Core(ZERO, [2, 0, 0], [R.Idle, R.ListLoad(4, 4, true), R.Idle]), [FREE, FREE, TWO])
    ensures Exec(c0, acts') == Reached(c') && |c'.s.wk| >= 3 && c'.s.wk[0].cur == c'.s.wk[2].cur == Some(1)
  {
    var x, d := Core(ZERO, [2, 0, 0], [R.Idle, R.ListLoad(4, 4, true), R.Idle]), [FREE, FREE, TWO];
    acts', c' := ReadsHead(c0, acts, c, x, d, 0, 2);
    var y := Set(x, 0, R.PopRead(2));
    acts', c' := OwnerResumes(c0, acts', c', y, d);
  }

  lemma OwnerResumes(c0: State, acts: seq<Action>, c: State, y: R.State, d: seq<S.Worker>) returns (acts': seq<Action>, c': State)
    requires Stands(c0, acts, c, y, d) && d == [FREE, FREE, TWO] && y == Core(ZERO, [2, 0, 0], [R.PopRead(2), R.ListLoad(4, 4, true), R.Idle])
    ensures Exec(c0, acts') == Reached(c') && |c'.s.wk| >= 3 && c'.s.wk[0].cur == c'.s.wk[2].cur == Some(1)
  {
    acts', c' := TakesHead(c0, acts, c, y, d, 0, 2);
    var e := [FREE.(pc := S.Picked(1)), FREE, TWO];
    var z := Core(ZERO, [0, 0, 0], [R.Idle, R.ListLoad(4, 4, true), R.Idle]);
    assert Set(y.(head := y.head[0 := 0]), 0, R.Idle) == z && d[0 := d[0].(pc := S.Picked(1))] == e;
    acts', c' := BothRun(c0, acts', c', z, e);
  }

  lemma BothRun(c0: State, acts: seq<Action>, c: State, z: R.State, e: seq<S.Worker>) returns (acts': seq<Action>, c': State)
    requires Stands(c0, acts, c, z, e) && e == [FREE.(pc := S.Picked(1)), FREE, TWO] && z.pc[0] == R.Idle
    ensures Exec(c0, acts') == Reached(c') && |c'.s.wk| >= 3 && c'.s.wk[0].cur == c'.s.wk[2].cur == Some(1)
  {
    acts', c' := Resumes(c0, acts, c, z, e, 0, 1);
    assert Bare(c'.s.wk[0]).cur == Some(1) && Bare(c'.s.wk[2]).cur == Some(1);
  }

  /** From the start of the program, n workers come to run one fiber on two of them. */
  lemma TwoRunOne(n: nat) returns (acts: seq<Action>, c: State)
    requires n >= 3
    ensures Exec(Start(n), acts) == Reached(c) && |c.s.wk| >= 3 && c.s.wk[0].cur == c.s.wk[2].cur == Some(1)
  {
    var c0 := Start(n);
    StartIsInit(n);
    acts, c := TrapIsSet(c0, [], c0);
    acts, c := TrapSprings(c0, acts, c, R.PopRead(6));
    acts, c := LinksInVain(c0, acts, c);
    acts, c := ThiefRuns(c0, acts, c);
    acts, c := OwnerSwaps(c0, acts, c, Linked().(head := [0, 0, 0], pc := Linked().pc[2 := R.Idle]));
    acts, c := OwnerTakes(c0, acts, c);
  }

  /** The scheduler of n workers is safe in every state of every run, with the priority
      flag as given at the start, exactly if there are at most two workers or the flag
      is set; and so it is with the promise that no fiber is current on two workers. */
  lemma SafeExactlyWhen(n: nat, prio: bool)
    ensures (forall c0, acts :: Init(c0, n, prio) && Exec(c0, acts).Reached? ==> S.Safe(Exec(c0, acts).c.s))
            <==> (n <= 2 || prio)
    ensures (forall c0, acts :: Init(c0, n, prio) && Exec(c0, acts).Reached? ==> S.OneWorkerEach(Exec(c0, acts).c.s))
            <==> (n <= 2 || prio)
  {
    if n <= 2 || prio {
      forall c0, acts | Init(c0, n, prio) && Exec(c0, acts).Reached? ensures S.Safe(Exec(c0, acts).c.s) {
        SafeRuns(c0, n, prio, acts);
      }
    } else {
      StartIsInit(n);
      var acts, c := TwoRunOne(n);
      assert !S.OneWorkerEach(Exec(Start(n), acts).c.s);
    }
  }
}
