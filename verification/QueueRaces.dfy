/**
 The two races of the lock-free run queues (runtime/rt_sched.c, rt_queue_pop
 against rt_queue_steal) with three or more workers and the plain pop.

 The owner of a queue reads its head and later the head's link, and swaps if the
 head has not changed.  But a thief puts the older half it has detached back in
 front of whatever was pushed meanwhile, so the same head can come back with
 another link, or be linked for a moment to a fiber that is not below it.  In one
 run a fiber is lost, in another two workers hold the same fiber.
 */
module QueueRaces {
  import opened Links
  import opened RunQueue

  /** The runs below are runs of three workers and five fibers; with more workers,
      the others stay idle. */
  ghost predicate Three(s: State) {
    |s.next| == 6 && |s.head| == |s.pc| == |s.hand| == 3 && s.priority == [0, 0, 0, 0, 0, 0] && !s.prioUsed
  }

  function Core(next: seq<Ptr>, head: seq<Ptr>, pc: seq<Pc>, hand: seq<set<Ptr>>): State {
    State(next, head, [0, 0, 0, 0, 0, 0], false, pc, hand)
  }

  lemma {:induction false} ExecSnoc(s: State, acts: seq<Action>, a: Action)
    requires Exec(s, acts).Reached? && Enabled(Exec(s, acts).s, a)
    ensures Exec(s, acts + [a]) == Reached(Do(Exec(s, acts).s, a))
    decreases |acts|
  {
    if acts == [] {
      assert Exec(Do(s, a), []) == Reached(Do(s, a));
    } else {
      ExecSnoc(Do(s, acts[0]), acts[1..], a);
      assert (acts + [a])[1..] == acts[1..] + [a];
    }
  }

  ghost function Set(c: State, t: nat, pc: Pc): State
    requires t < |c.pc|
  {
    c.(pc := c.pc[t := pc])
  }

  /** One step of a run. */
  lemma Then(s0: State, acts: seq<Action>, c: State, a: Action, c': State) returns (acts': seq<Action>)
    requires Exec(s0, acts) == Reached(c) && Enabled(c, a) && Do(c, a) == c'
    ensures Exec(s0, acts') == Reached(c')
  {
    ExecSnoc(s0, acts, a);
    acts' := acts + [a];
  }

  /** Worker 0 pushes the fiber f. */
  lemma Pushes(s0: State, acts: seq<Action>, c: State, f: Ptr) returns (acts': seq<Action>, c': State)
    requires Three(c) && Exec(s0, acts) == Reached(c) && c.pc[0] == Idle && f in c.hand[0] && 0 < f < 6
    ensures c' == c.(next := c.next[f := c.head[0]], head := c.head[0 := f], hand := c.hand[0 := c.hand[0] - {f}])
    ensures Exec(s0, acts') == Reached(c')
  {
    var h, d := c.head[0], c.(next := c.next[f := c.head[0]]);
    acts' := Then(s0, acts, c, BeginPush(0, f), Set(c, 0, PushLoad(f)));
    acts' := Then(s0, acts', Set(c, 0, PushLoad(f)), Step(0), Set(c, 0, PushStore(f, h)));
    acts' := Then(s0, acts', Set(c, 0, PushStore(f, h)), Step(0), Set(d, 0, PushCas(f, h)));
    c' := c.(next := c.next[f := c.head[0]], head := c.head[0 := f], hand := c.hand[0 := c.hand[0] - {f}]);
    acts' := Then(s0, acts', Set(d, 0, PushCas(f, h)), Step(0), c');
  }

  /** Worker t detaches the queue [a, b] of worker 0 and keeps a. */
  lemma Detaches(s0: State, acts: seq<Action>, c: State, t: nat, a: Ptr, b: Ptr) returns (acts': seq<Action>, c': State)
    requires Three(c) && Exec(s0, acts) == Reached(c) && 0 < t < 3 && c.pc[t] == Idle
    requires c.head[0] == a && 0 < a < 6 && 0 < b < 6 && c.next[a] == b && c.next[b] == 0
    ensures c' == Set(c.(next := c.next[a := 0], head := c.head[0 := 0]), t, BackLoad(0, a, a, b, b))
    ensures Exec(s0, acts') == Reached(c')
  {
    var d := c.(head := c.head[0 := 0]);
    acts' := Then(s0, acts, c, BeginSteal(t, 0), Set(c, t, StealXchg(0)));
    acts' := Then(s0, acts', Set(c, t, StealXchg(0)), Step(t), Set(d, t, StealSplit(0, a)));
    c' := Set(c.(next := c.next[a := 0], head := c.head[0 := 0]), t, BackLoad(0, a, a, b, b));
    acts' := Then(s0, acts', Set(d, t, StealSplit(0, a)), Scan(t, [a, b]), c');
  }

  /** Worker t reads the head of worker 0 and links the fiber b to it. */
  lemma LinksBack(s0: State, acts: seq<Action>, c: State, t: nat, a: Ptr, b: Ptr) returns (acts': seq<Action>, c': State)
    requires Three(c) && Exec(s0, acts) == Reached(c) && 0 < t < 3 && 0 < b < 6 && c.pc[t] == BackLoad(0, a, a, b, b)
    ensures c' == Set(c.(next := c.next[b := c.head[0]]), t, BackCas(0, a, a, b, b, c.head[0]))
    ensures Exec(s0, acts') == Reached(c')
  {
    var h := c.head[0];
    acts' := Then(s0, acts, c, Step(t), Set(c, t, BackStore(0, a, a, b, b, h)));
    c' := Set(c.(next := c.next[b := h]), t, BackCas(0, a, a, b, b, h));
    acts' := Then(s0, acts', Set(c, t, BackStore(0, a, a, b, b, h)), Step(t), c');
  }

  /** Worker t puts the fiber b back in front of what worker 0 has queued. */
  lemma PutsBack(s0: State, acts: seq<Action>, c: State, t: nat, a: Ptr, b: Ptr) returns (acts': seq<Action>, c': State)
    requires Three(c) && Exec(s0, acts) == Reached(c) && 0 < t < 3 && 0 < b < 6 && c.pc[t] == BackLoad(0, a, a, b, b)
    ensures c' == Set(c.(next := c.next[b := c.head[0]], head := c.head[0 := b]), t, ListLoad(a, a, true))
    ensures Exec(s0, acts') == Reached(c')
  {
    var d;
    acts', d := LinksBack(s0, acts, c, t, a, b);
    c' := Set(d.(head := c.head[0 := b]), t, ListLoad(a, a, true));
    acts' := Then(s0, acts', d, Step(t), c');
  }

  /** Worker 0 begins to pop its fiber h and stops before it reads the link. */
  lemma ReadsHead(s0: State, acts: seq<Action>, c: State, h: Ptr) returns (acts': seq<Action>, c': State)
    requires Three(c) && Exec(s0, acts) == Reached(c) && c.pc[0] == Idle && c.head[0] == h && 0 < h < 6
    ensures c' == Set(c, 0, PopRead(h)) && Exec(s0, acts') == Reached(c')
  {
    acts' := Then(s0, acts, c, BeginPop(0), Set(c, 0, PopStart));
    acts' := Then(s0, acts', Set(c, 0, PopStart), Step(0), Set(c, 0, PopLoad));
    c' := Set(c, 0, PopRead(h));
    acts' := Then(s0, acts', Set(c, 0, PopLoad), Step(0), c');
  }

  /** Worker t, at its swap, takes the head a. */
  lemma Swaps(s0: State, acts: seq<Action>, c: State, t: nat, a: Ptr, nx: Ptr) returns (acts': seq<Action>, c': State)
    requires Three(c) && Exec(s0, acts) == Reached(c) && t < 3 && 0 < a < 6
    requires c.pc[t] == PopCas(a, nx) && c.head[t] == a
    ensures c' == Set(c.(next := c.next[a := 0], head := c.head[t := nx], hand := c.hand[t := c.hand[t] + {a}]), t, Idle)
    ensures Exec(s0, acts') == Reached(c')
  {
    var d := c.(head := c.head[t := nx], hand := c.hand[t := c.hand[t] + {a}]);
    acts' := Then(s0, acts, c, Step(t), Set(d, t, PopClear(a)));
    c' := Set(d.(next := c.next[a := 0]), t, Idle);
    acts' := Then(s0, acts', Set(d, t, PopClear(a)), Step(t), c');
  }

  /** Worker t queues the stolen fiber a on its own empty queue and takes it. */
  lemma TakesStolen(s0: State, acts: seq<Action>, c: State, t: nat, a: Ptr) returns (acts': seq<Action>, c': State)
    requires Three(c) && Exec(s0, acts) == Reached(c) && 0 < t < 3 && 0 < a < 6
    requires c.pc[t] == ListLoad(a, a, true) && c.head[t] == 0
    ensures c' == Set(c.(next := c.next[a := 0], hand := c.hand[t := c.hand[t] + {a}]), t, Idle)
    ensures Exec(s0, acts') == Reached(c')
  {
    var d := c.(next := c.next[a := 0]);
    var e := d.(head := c.head[t := a]);
    acts' := Then(s0, acts, c, Step(t), Set(c, t, ListStore(a, a, true, 0)));
    acts' := Then(s0, acts', Set(c, t, ListStore(a, a, true, 0)), Step(t), Set(d, t, ListCas(a, a, true, 0)));
    acts' := Then(s0, acts', Set(d, t, ListCas(a, a, true, 0)), Step(t), Set(e, t, PopStart));
    acts', c' := PopsStolen(s0, acts', Set(e, t, PopStart), t, a);
    assert c'.head == c.head && c'.next == d.next && c'.pc == Set(c, t, Idle).pc;
  }

  lemma PopsStolen(s0: State, acts: seq<Action>, e: State, t: nat, a: Ptr) returns (acts': seq<Action>, c': State)
    requires Three(e) && Exec(s0, acts) == Reached(e) && 0 < t < 3 && 0 < a < 6
    requires e.pc[t] == PopStart && e.head[t] == a && e.next[a] == 0
    ensures c' == Set(e.(next := e.next[a := 0], head := e.head[t := 0], hand := e.hand[t := e.hand[t] + {a}]), t, Idle)
    ensures Exec(s0, acts') == Reached(c')
  {
    acts' := Then(s0, acts, e, Step(t), Set(e, t, PopLoad));
    acts' := Then(s0, acts', Set(e, t, PopLoad), Step(t), Set(e, t, PopRead(a)));
    acts' := Then(s0, acts', Set(e, t, PopRead(a)), Step(t), Set(e, t, PopCas(a, 0)));
    acts', c' := Swaps(s0, acts', Set(e, t, PopCas(a, 0)), t, a, 0);
    assert c'.pc == Set(e, t, Idle).pc;
  }

  ghost const Start := Core([0, 0, 0, 0, 0, 0], [0, 0, 0], [Idle, Idle, Idle], [{1, 2, 3, 4, 5}, {}, {}])

  /** Worker 0 has pushed and lost two pairs to the thieves, pushed fiber 5 and
      read it as its head. */
  ghost const Trap := Core([0, 0, 0, 0, 0, 0], [5, 0, 0],
                     [PopRead(5), BackLoad(0, 4, 4, 3, 3), BackLoad(0, 2, 2, 1, 1)], [{}, {}, {}])

  lemma TrapIsSet() returns (acts: seq<Action>)
    ensures Exec(Start, acts) == Reached(Trap)
  {
    var s0, c := Start, Start;
    acts, c := LosesPair(s0, [], Start, 2, 2, 1);
    acts, c := LosesPair(s0, acts, c, 1, 4, 3);
    acts, c := Pushes(s0, acts, c, 5);
    acts, c := ReadsHead(s0, acts, c, 5);
    assert c.hand[0] == {} && c.next == [0, 0, 0, 0, 0, 0];
    assert c == Trap;
  }

  /** Worker 0 pushes b and a, and worker t detaches both. */
  lemma LosesPair(s0: State, acts: seq<Action>, c: State, t: nat, a: Ptr, b: Ptr) returns (acts': seq<Action>, c': State)
    requires Three(c) && Exec(s0, acts) == Reached(c) && 0 < t < 3 && c.pc[t] == Idle && c.pc[0] == Idle
    requires c.head[0] == 0 && c.next == [0, 0, 0, 0, 0, 0] && a in c.hand[0] && b in c.hand[0] && 0 < a < 6 && 0 < b < 6 && a != b
    ensures c' == Set(c.(hand := c.hand[0 := c.hand[0] - {b} - {a}]), t, BackLoad(0, a, a, b, b))
    ensures Exec(s0, acts') == Reached(c')
  {
    acts', c' := Pushes(s0, acts, c, b);
    acts', c' := Pushes(s0, acts', c', a);
    acts', c' := Detaches(s0, acts', c', t, a, b);
    assert c'.next == c.next && c'.head == c.head;
  }

  /** The first thief puts 3 in front of 5, keeps and takes 4, steals again, and
      holds [3] and the older half [5]; the other thief has put 1 back. */
  ghost function Sprung(pc0: Pc): State {
    Core([0, 0, 0, 0, 0, 0], [1, 0, 0], [pc0, BackLoad(0, 3, 3, 5, 5), ListLoad(2, 2, true)], [{}, {4}, {}])
  }

  lemma TrapSprings(s0: State, acts: seq<Action>, pc0: Pc) returns (acts': seq<Action>, c': State)
    requires Exec(s0, acts) == Reached(Set(Trap, 0, pc0))
    ensures c' == Sprung(pc0) && Exec(s0, acts') == Reached(c')
  {
    acts', c' := PutsBack(s0, acts, Set(Trap, 0, pc0), 1, 4, 3);
    acts', c' := TakesStolen(s0, acts', c', 1, 4);
    assert c'.hand[1] == {4} && c'.next == [0, 0, 0, 5, 0, 0];
    acts', c' := SecondSteal(s0, acts', c');
  }

  lemma SecondSteal(s0: State, acts: seq<Action>, c: State) returns (acts': seq<Action>, c': State)
    requires Three(c) && Exec(s0, acts) == Reached(c)
    requires c.next == [0, 0, 0, 5, 0, 0] && c.head == [3, 0, 0] && c.pc == [c.pc[0], Idle, BackLoad(0, 2, 2, 1, 1)] && c.hand == [{}, {4}, {}]
    ensures c' == Sprung(c.pc[0]) && Exec(s0, acts') == Reached(c')
  {
    acts', c' := Detaches(s0, acts, c, 1, 3, 5);
    acts', c' := PutsBack(s0, acts', c', 2, 2, 1);
    assert c' == Sprung(c.pc[0]);
  }

  /** Fiber 1 is nowhere: on no queue, in no hand and in no detached list. */
  ghost const Lost := Core([0, 0, 0, 0, 0, 1], [0, 0, 0], [PopClear(5), ListLoad(3, 3, true), ListLoad(2, 2, true)], [{5}, {4}, {}])

  /** The owner has read the link 0 of its head 5 before the trap springs.  Fiber 5
      comes back linked to 1, and the owner's swap drops 1. */
  lemma LosingRun() returns (acts: seq<Action>)
    ensures Exec(Start, acts) == Reached(Lost)
  {
    var s0, c := Start, Trap;
    acts := TrapIsSet();
    acts := Then(s0, acts, Trap, Step(0), Set(Trap, 0, PopCas(5, 0)));
    acts, c := TrapSprings(s0, acts, PopCas(5, 0));
    acts := LosingEnd(s0, acts);
  }

  lemma LosingEnd(s0: State, acts: seq<Action>) returns (acts': seq<Action>)
    requires Exec(s0, acts) == Reached(Sprung(PopCas(5, 0)))
    ensures Exec(s0, acts') == Reached(Lost)
  {
    var c;
    acts', c := PutsBack(s0, acts, Sprung(PopCas(5, 0)), 1, 3, 5);
    assert c.next == [0, 0, 0, 0, 0, 1] && c.head == [5, 0, 0] && c.hand == [{}, {4}, {}];
    acts' := Drops(s0, acts', c);
  }

  lemma Drops(s0: State, acts: seq<Action>, c: State) returns (acts': seq<Action>)
    requires Exec(s0, acts) == Reached(c) && Three(c) && c.next == [0, 0, 0, 0, 0, 1] && c.head == [5, 0, 0]
    requires c.hand == [{}, {4}, {}] && c.pc == [PopCas(5, 0), ListLoad(3, 3, true), ListLoad(2, 2, true)]
    ensures Exec(s0, acts') == Reached(Lost)
  {
    assert {} + {5} == {5};
    acts' := Then(s0, acts, c, Step(0), Lost);
  }

  /** Workers 0 and 2 both hold fiber 1. */
  ghost const Doubled := Core([0, 0, 0, 0, 0, 0], [0, 0, 0], [Idle, ListLoad(3, 3, true), Idle], [{1, 5}, {4}, {1, 2}])

  /** The owner reads the link of its head 5 while 5 is linked to 1 for a moment; 1 is
      stolen; 5 comes back with its old link; the owner's swap makes 1 its head. */
  lemma DoublingRun() returns (acts: seq<Action>)
    ensures Exec(Start, acts) == Reached(Doubled)
  {
    var s0, c := Start, Trap;
    acts := TrapIsSet();
    acts, c := TrapSprings(s0, acts, PopRead(5));
    acts, c := LinksBack(s0, acts, c, 1, 3, 5);
    assert c == Linked;
    acts := DoublingMiddle(s0, acts);
  }

  /** Fiber 5 is linked to fiber 1, in vain: the thief's swap is still to come. */
  ghost const Linked := Core([0, 0, 0, 0, 0, 1], [1, 0, 0],
                             [PopRead(5), BackCas(0, 3, 3, 5, 5, 1), ListLoad(2, 2, true)], [{}, {4}, {}])

  lemma DoublingMiddle(s0: State, acts: seq<Action>) returns (acts': seq<Action>)
    requires Exec(s0, acts) == Reached(Linked)
    ensures Exec(s0, acts') == Reached(Doubled)
  {
    var c, d := Linked, Set(Linked, 0, PopCas(5, 1));
    acts' := Then(s0, acts, Linked, Step(0), d);
    acts', c := TakesStolen(s0, acts', d, 2, 2);
    acts', c := StealsOne(s0, acts', c, 1);
    assert c.hand[2] == {1, 2} && c.next == Linked.next && c.head == [0, 0, 0];
    acts' := DoublingEnd(s0, acts', c);
  }

  /** Worker 2 steals the only fiber a that worker 0 has queued. */
  lemma StealsOne(s0: State, acts: seq<Action>, c: State, a: Ptr) returns (acts': seq<Action>, c': State)
    requires Three(c) && Exec(s0, acts) == Reached(c) && 0 < a < 6
    requires c.pc[2] == Idle && c.head[2] == 0 && c.head[0] == a && c.next[a] == 0
    ensures c' == c.(head := c.head[0 := 0], hand := c.hand[2 := c.hand[2] + {a}]) && Exec(s0, acts') == Reached(c')
  {
    var d := c.(head := c.head[0 := 0]);
    acts' := Then(s0, acts, c, BeginSteal(2, 0), Set(c, 2, StealXchg(0)));
    acts' := Then(s0, acts', Set(c, 2, StealXchg(0)), Step(2), Set(d, 2, StealSplit(0, a)));
    acts' := Then(s0, acts', Set(d, 2, StealSplit(0, a)), Scan(2, [a]), Set(d, 2, ListLoad(a, a, true)));
    acts', c' := TakesStolen(s0, acts', Set(d, 2, ListLoad(a, a, true)), 2, a);
    assert c'.next == c.next && c'.pc == c.pc;
  }

  lemma DoublingEnd(s0: State, acts: seq<Action>, c: State) returns (acts': seq<Action>)
    requires Three(c) && Exec(s0, acts) == Reached(c)
    requires c.next == [0, 0, 0, 0, 0, 1] && c.head == [0, 0, 0] && c.pc == [PopCas(5, 1), BackCas(0, 3, 3, 5, 5, 1), Idle]
    requires c.hand[0] == {} && c.hand[1] == {4} && c.hand[2] == {1, 2}
    ensures Exec(s0, acts') == Reached(Doubled)
  {
    var d := Set(c, 1, BackLoad(0, 3, 3, 5, 5));
    acts' := Then(s0, acts, c, Step(1), d);
    assert d.pc == [PopCas(5, 1), BackLoad(0, 3, 3, 5, 5), Idle];
    acts' := PutsWrong(s0, acts', d);
    acts' := TakesWrong(s0, acts');
  }

  lemma PutsWrong(s0: State, acts: seq<Action>, d: State) returns (acts': seq<Action>)
    requires Three(d) && Exec(s0, acts) == Reached(d)
    requires d.next == [0, 0, 0, 0, 0, 1] && d.head == [0, 0, 0] && d.pc == [PopCas(5, 1), BackLoad(0, 3, 3, 5, 5), Idle]
    requires d.hand[0] == {} && d.hand[1] == {4} && d.hand[2] == {1, 2}
    ensures Exec(s0, acts') == Reached(Wrong)
  {
    var e;
    acts', e := PutsBack(s0, acts, d, 1, 3, 5);
    acts', e := Swaps(s0, acts', e, 0, 5, 1);
    assert e.hand[0] == {5};
    assert e == Wrong;
  }

  /** Worker 0 has fiber 5, and fiber 1 as its head; but worker 2 holds 1. */
  ghost const Wrong := Core([0, 0, 0, 0, 0, 0], [1, 0, 0], [Idle, ListLoad(3, 3, true), Idle], [{5}, {4}, {1, 2}])

  lemma TakesWrong(s0: State, acts: seq<Action>) returns (acts': seq<Action>)
    requires Exec(s0, acts) == Reached(Wrong)
    ensures Exec(s0, acts') == Reached(Doubled)
  {
    var c;
    acts', c := ReadsHead(s0, acts, Wrong, 1);
    acts', c := TakesHead(s0, acts', c, 1);
    assert c.hand[0] == {1, 5};
    assert c == Doubled;
  }

  /** Worker 0 reads the link 0 of its head a and takes it. */
  lemma TakesHead(s0: State, acts: seq<Action>, c: State, a: Ptr) returns (acts': seq<Action>, c': State)
    requires Three(c) && Exec(s0, acts) == Reached(c) && 0 < a < 6
    requires c.pc[0] == PopRead(a) && c.head[0] == a && c.next[a] == 0
    ensures c' == Set(c.(head := c.head[0 := 0], hand := c.hand[0 := c.hand[0] + {a}]), 0, Idle)
    ensures Exec(s0, acts') == Reached(c')
  {
    acts' := Then(s0, acts, c, Step(0), Set(c, 0, PopCas(a, 0)));
    acts', c' := Swaps(s0, acts', Set(c, 0, PopCas(a, 0)), 0, a, 0);
    assert c'.next == c.next && c'.pc == Set(c, 0, Idle).pc;
  }

  // ---------------------------------------------------------------------
  // More workers
  // ---------------------------------------------------------------------

  /** n workers, of which those beyond the ones of s are idle and hold nothing. */
  ghost function Extend(s: State, n: nat): (r: State)
    requires |s.head| == |s.pc| == |s.hand| <= n
    ensures |r.head| == |r.pc| == |r.hand| == n
  {
    var k := n - |s.pc|;
    s.(head := s.head + seq(k, _ => 0), pc := s.pc + seq(k, _ => Idle), hand := s.hand + seq(k, _ => {}))
  }

  /** Thieves steal from workers there are. */
  ghost predicate VictimsThere(s: State) {
    forall w :: 0 <= w < |s.pc| ==> VictimThere(s.pc[w], |s.pc|)
  }

  predicate VictimThere(pc: Pc, n: nat) {
    pc.StealXchg? || pc.StealSplit? || pc.BackLoad? || pc.BackStore? || pc.BackCas? ==> pc.v < n
  }

  lemma UpdatePad<T>(x: seq<T>, pad: seq<T>, t: nat, v: T)
    requires t < |x|
    ensures (x + pad)[t := v] == x[t := v] + pad
  {
  }

  /** A step changes the words of its worker and at most one queue's head. */
  ghost predicate Extends(s: State, n: nat, a: Action)
    requires |s.head| == |s.pc| == |s.hand| <= n && Enabled(s, a)
  {
    && Enabled(Extend(s, n), a) && VictimsThere(Do(s, a))
    && |Do(s, a).head| == |Do(s, a).pc| == |Do(s, a).hand| == |s.pc|
    && Do(Extend(s, n), a) == Extend(Do(s, a), n)
  }

  lemma ExtendOwn(s: State, n: nat, w: nat)
    requires |s.head| == |s.pc| == |s.hand| <= n && VictimsThere(s) && Enabled(s, Step(w))
    requires s.pc[w].PushLoad? || s.pc[w].PushStore? || s.pc[w].PushCas? || s.pc[w].PopStart? || s.pc[w].PopLoad? || s.pc[w].PopRead? || s.pc[w].PopCas? || s.pc[w].PopClear?
    ensures Extends(s, n, Step(w))
  {
    var t := Do(s, Step(w));
    UpdatePad(s.pc, seq(n - |s.pc|, _ => Idle), w, t.pc[w]);
    UpdatePad(s.head, seq(n - |s.pc|, _ => 0), w, t.head[w]);
    UpdatePad(s.hand, seq(n - |s.pc|, _ => {}), w, t.hand[w]);
  }

  lemma ExtendList(s: State, n: nat, w: nat)
    requires |s.head| == |s.pc| == |s.hand| <= n && VictimsThere(s) && Enabled(s, Step(w))
    requires s.pc[w].BestXchg? || s.pc[w].ListLoad? || s.pc[w].ListStore? || s.pc[w].ListCas?
    ensures Extends(s, n, Step(w))
  {
    var t := Do(s, Step(w));
    UpdatePad(s.pc, seq(n - |s.pc|, _ => Idle), w, t.pc[w]);
    UpdatePad(s.head, seq(n - |s.pc|, _ => 0), w, t.head[w]);
  }

  lemma ExtendThief(s: State, n: nat, w: nat)
    requires |s.head| == |s.pc| == |s.hand| <= n && VictimsThere(s) && Enabled(s, Step(w))
    requires s.pc[w].StealXchg? || s.pc[w].BackLoad? || s.pc[w].BackStore? || s.pc[w].BackCas?
    ensures Extends(s, n, Step(w))
  {
    var t, v := Do(s, Step(w)), s.pc[w].v;
    assert VictimThere(s.pc[w], |s.pc|);
    UpdatePad(s.pc, seq(n - |s.pc|, _ => Idle), w, t.pc[w]);
    UpdatePad(s.head, seq(n - |s.pc|, _ => 0), v, t.head[v]);
  }

  lemma ExtendScan(s: State, n: nat, w: nat, l: seq<Ptr>)
    requires |s.head| == |s.pc| == |s.hand| <= n && VictimsThere(s) && Enabled(s, Scan(w, l))
    ensures Extends(s, n, Scan(w, l))
  {
    var t := Do(s, Scan(w, l));
    assert VictimThere(s.pc[w], |s.pc|);
    UpdatePad(s.pc, seq(n - |s.pc|, _ => Idle), w, t.pc[w]);
    UpdatePad(s.hand, seq(n - |s.pc|, _ => {}), w, t.hand[w]);
  }

  lemma ExtendOther(s: State, n: nat, a: Action)
    requires |s.head| == |s.pc| == |s.hand| <= n && VictimsThere(s) && Enabled(s, a) && !a.Step? && !a.Scan? && !a.Give?
    ensures Extends(s, n, a)
  {
    var t := Do(s, a);
    if !a.SetPriority? && !a.Scribble? {
      assert VictimThere(s.pc[a.w], |s.pc|);
      UpdatePad(s.pc, seq(n - |s.pc|, _ => Idle), a.w, t.pc[a.w]);
    }
  }

  lemma ExtendGive(s: State, n: nat, w: nat, u: nat, f: Ptr)
    requires |s.head| == |s.pc| == |s.hand| <= n && VictimsThere(s) && Enabled(s, Give(w, u, f))
    ensures Extends(s, n, Give(w, u, f))
  {
    var pad := seq(n - |s.pc|, _ => {});
    var without := s.hand[w := s.hand[w] - {f}];
    UpdatePad(s.hand, pad, w, s.hand[w] - {f});
    UpdatePad(without, pad, u, without[u] + {f});
  }

  /** Idle workers more make no difference to a step of the others. */
  lemma ExtendStep(s: State, n: nat, a: Action)
    requires |s.head| == |s.pc| == |s.hand| <= n && VictimsThere(s) && Enabled(s, a)
    ensures Extends(s, n, a)
  {
    match a {
      case Give(w, u, f) => ExtendGive(s, n, w, u, f);
      case Scan(w, l) => ExtendScan(s, n, w, l);
      case Step(w) =>
        match s.pc[w] {
          case BestXchg => ExtendList(s, n, w);
          case ListLoad(_, _, _) => ExtendList(s, n, w);
          case ListStore(_, _, _, _) => ExtendList(s, n, w);
          case ListCas(_, _, _, _) => ExtendList(s, n, w);
          case StealXchg(_) => ExtendThief(s, n, w);
          case BackLoad(_, _, _, _, _) => ExtendThief(s, n, w);
          case BackStore(_, _, _, _, _, _) => ExtendThief(s, n, w);
          case BackCas(_, _, _, _, _, _) => ExtendThief(s, n, w);
          case _ => ExtendOwn(s, n, w);
        }
      case _ => ExtendOther(s, n, a);
    }
  }

  lemma {:induction false} ExtendRun(s: State, n: nat, acts: seq<Action>)
    requires |s.head| == |s.pc| == |s.hand| <= n && VictimsThere(s) && Exec(s, acts).Reached?
    ensures |Exec(s, acts).s.head| == |Exec(s, acts).s.pc| == |Exec(s, acts).s.hand| == |s.pc|
    ensures Exec(Extend(s, n), acts) == Reached(Extend(Exec(s, acts).s, n))
    decreases |acts|
  {
    if acts != [] {
      ExtendStep(s, n, acts[0]);
      assert Extends(s, n, acts[0]);
      ExtendRun(Do(s, acts[0]), n, acts[1..]);
    }
  }

  lemma LostIsLost(n: nat)
    requires n >= 3
    ensures !Conserved(Extend(Lost, n))
  {
    var s := Extend(Lost, n);
    forall p ensures !Placed(s, p) {
      if |p.loc| == 6 && p.loc[1].w < n && |p.q| == |p.list| == |p.rest| == n {
        LostAt(n, p, p.loc[1].w);
      }
    }
  }

  lemma LostAt(n: nat, p: Places, w: nat)
    requires n >= 3 && w < n && |p.q| == |p.list| == |p.rest| == n && |p.loc| == 6
    ensures PlacedAt(Extend(Lost, n), p, w) ==> p.loc[1] != InQueue(w) && p.loc[1] != InList(w) && p.loc[1] != InRest(w)
    ensures 1 !in Extend(Lost, n).hand[w]
  {
    if PlacedAt(Extend(Lost, n), p, w) && p.list[w] != [] {
      assert p.list[w][0] == p.list[w][|p.list[w]| - 1];
      assert |p.list[w]| == 1;
    }
  }

  lemma StartIsInit(n: nat)
    requires n >= 3
    ensures Init(Extend(Start, n), n, false)
  {
    var s := Extend(Start, n);
    forall x | 0 < x < |s.next| ensures HeldBySomeone(s, x) {
      assert x in s.hand[0];
    }
  }

  /** Every run of n workers that starts with the priority flag as given keeps
      every fiber, exactly when there are at most two workers or the flag is set. */
  lemma QueuesAreSafeExactlyWhen(n: nat, prio: bool)
    ensures (forall s0, acts :: Init(s0, n, prio) && Exec(s0, acts).Reached? ==> Conserved(Exec(s0, acts).s))
            <==> (n <= 2 || prio)
  {
    if n <= 2 || prio {
      forall s0, acts | Init(s0, n, prio) && Exec(s0, acts).Reached? ensures Conserved(Exec(s0, acts).s) {
        SafeRuns(s0, n, prio, acts);
      }
    } else {
      StartIsInit(n);
      var acts := LosingRun();
      ExtendRun(Start, n, acts);
      LostIsLost(n);
      assert !Conserved(Exec(Extend(Start, n), acts).s);
    }
  }

  /** No fiber is held by two workers. */
  ghost predicate HeldOnce(s: State) {
    forall x, w, u :: 0 <= w < |s.hand| && 0 <= u < |s.hand| && x in s.hand[w] && x in s.hand[u] ==> w == u
  }

  lemma ConservedHeldOnce(s: State)
    requires Conserved(s)
    ensures HeldOnce(s)
  {
    var p :| Placed(s, p);
    forall x, w, u | 0 <= w < |s.hand| && 0 <= u < |s.hand| && x in s.hand[w] && x in s.hand[u] ensures w == u {
      assert PlacedAt(s, p, w) && PlacedAt(s, p, u);
    }
  }

  /** Every run of n workers hands each fiber to at most one of them at a time,
      under exactly the same condition. */
  lemma HeldOnceExactlyWhen(n: nat, prio: bool)
    ensures (forall s0, acts :: Init(s0, n, prio) && Exec(s0, acts).Reached? ==> HeldOnce(Exec(s0, acts).s))
            <==> (n <= 2 || prio)
  {
    if n <= 2 || prio {
      forall s0, acts | Init(s0, n, prio) && Exec(s0, acts).Reached? ensures HeldOnce(Exec(s0, acts).s) {
        SafeRuns(s0, n, prio, acts);
        ConservedHeldOnce(Exec(s0, acts).s);
      }
    } else {
      StartIsInit(n);
      var acts := DoublingRun();
      ExtendRun(Start, n, acts);
      var t := Extend(Doubled, n);
      assert 1 in t.hand[0] && 1 in t.hand[2];
      assert !HeldOnce(Exec(Extend(Start, n), acts).s);
    }
  }
}
