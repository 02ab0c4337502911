/**
 The timers of parked fibers (runtime/rt_sched.c, rt_timer_push and
 rt_take_expired_timer): a binary heap in an array, ordered by deadline.

 No timer is lost, none is doubled and none goes off early, whatever the order.
 But when both children of a position are due before the timer that is sifted down,
 the right one goes up, also when the left one is due first.  So the root is the
 earliest timer in every run exactly if at most three timers are ever pending.
 */
module TimerHeap {

  datatype Timer = Timer(fiber: nat, deadline: int)

  // ---------------------------------------------------------------------
  // The heap as a sequence
  // ---------------------------------------------------------------------

  /** The timer t finds its place on the way from position i to the root. */
  function Up(h: seq<Timer>, i: nat, t: Timer): (r: seq<Timer>)
    requires i < |h|
    ensures |r| == |h|
    decreases i
  {
    if i == 0 || h[(i - 1) / 2].deadline <= t.deadline then h[i := t]
    else Up(h[i := h[(i - 1) / 2]], (i - 1) / 2, t)
  }

  /** The child that changes places with position i, or i itself. */
  function Child(h: seq<Timer>, i: nat, d: int): (c: nat)
    requires i < |h|
    ensures c == i || i < c < |h|
  {
    var l, r := 2 * i + 1, 2 * i + 2;
    if r < |h| && h[r].deadline < d then r else if l < |h| && h[l].deadline < d then l else i
  }

  /** ... and on the way down from position i. */
  function Down(h: seq<Timer>, i: nat, t: Timer): (r: seq<Timer>)
    requires i < |h|
    ensures |r| == |h|
    decreases |h| - i
  {
    var c := Child(h, i, t.deadline);
    if c == i then h[i := t] else Down(h[i := h[c]][c := h[i]], c, t)
  }

  function Pushed(h: seq<Timer>, t: Timer): seq<Timer> { Up(h + [t], |h|, t) }

  function Taken(h: seq<Timer>): seq<Timer>
    requires h != []
  {
    var last := |h| - 1;
    if last == 0 then [] else Down(h[..last], 0, h[last])
  }

  lemma Update(h: seq<Timer>, i: nat, t: Timer)
    requires i < |h|
    ensures multiset(h[i := t]) + multiset{h[i]} == multiset(h) + multiset{t}
  {
  }

  lemma {:induction false} UpConserves(h: seq<Timer>, i: nat, t: Timer)
    requires i < |h|
    ensures multiset(Up(h, i, t)) + multiset{h[i]} == multiset(h) + multiset{t}
    decreases i
  {
    if i == 0 || h[(i - 1) / 2].deadline <= t.deadline {
      Update(h, i, t);
    } else {
      var p := (i - 1) / 2;
      Update(h, i, h[p]);
      UpConserves(h[i := h[p]], p, t);
      Cancel(multiset(Up(h, i, t)), multiset{h[p]}, multiset{h[i]}, multiset(h[i := h[p]]), multiset{t}, multiset(h));
    }
  }

  lemma Cancel(u: multiset<Timer>, p: multiset<Timer>, x: multiset<Timer>, m: multiset<Timer>, t: multiset<Timer>, h: multiset<Timer>)
    requires u + p == m + t && m + x == h + p
    ensures u + x == h + t
  {
    assert (u + x) + p == (u + p) + x == (m + x) + t == (h + t) + p;
    assert ((u + x) + p) - p == u + x && ((h + t) + p) - p == h + t;
  }

  lemma Swap(h: seq<Timer>, i: nat, c: nat)
    requires i < |h| && c < |h|
    ensures multiset(h[i := h[c]][c := h[i]]) == multiset(h)
  {
  }

  lemma {:induction false} DownConserves(h: seq<Timer>, i: nat, t: Timer)
    requires i < |h|
    ensures multiset(Down(h, i, t)) + multiset{h[i]} == multiset(h) + multiset{t}
    decreases |h| - i
  {
    var c := Child(h, i, t.deadline);
    if c == i {
      Update(h, i, t);
    } else {
      Swap(h, i, c);
      DownConserves(h[i := h[c]][c := h[i]], c, t);
    }
  }

  /** A push adds the timer. */
  lemma PushConserves(h: seq<Timer>, t: Timer)
    ensures multiset(Pushed(h, t)) == multiset(h) + multiset{t}
  {
    UpConserves(h + [t], |h|, t);
    assert multiset(Pushed(h, t)) == (multiset(Pushed(h, t)) + multiset{t}) - multiset{t};
  }

  /** A take removes the root, and nothing else. */
  lemma TakeConserves(h: seq<Timer>)
    requires h != []
    ensures multiset(h) == multiset(Taken(h)) + multiset{h[0]}
  {
    var last := |h| - 1;
    assert h == h[..last] + [h[last]];
    if last > 0 { DownConserves(h[..last], 0, h[last]); }
  }

  // ---------------------------------------------------------------------
  // In place
  // ---------------------------------------------------------------------

  class Timers {
    var heap: seq<Timer>

    constructor ()
      ensures heap == []
    {
      heap := [];
    }

    /** rt_timer_push. */
    method Push(t: Timer)
      modifies this
      ensures heap == Pushed(old(heap), t)
      ensures multiset(heap) == multiset(old(heap)) + multiset{t}
    {
      PushConserves(heap, t);
      ghost var goal := Pushed(heap, t);
      var i := |heap|;
      heap := heap + [t];
      while i > 0 && heap[(i - 1) / 2].deadline > t.deadline
        invariant 0 <= i < |heap| && Up(heap, i, t) == goal
      {
        heap := heap[i := heap[(i - 1) / 2]];
        i := (i - 1) / 2;
      }
      heap := heap[i := t];
    }

    /** rt_take_expired_timer, as far as the heap is concerned: the root, if it is due. */
    method Take(now: int) returns (due: bool, t: Timer)
      modifies this
      ensures due == (old(heap) != [] && old(heap)[0].deadline <= now)
      ensures due ==> t == old(heap)[0] && t.deadline <= now && heap == Taken(old(heap))
      ensures due ==> multiset(old(heap)) == multiset(heap) + multiset{t}
      ensures !due ==> heap == old(heap)
    {
      due, t := false, Timer(0, 0);
      if |heap| > 0 && heap[0].deadline <= now {
        TakeConserves(heap);
        due, t := true, heap[0];
        SiftDown();
      }
    }

    method SiftDown()
      requires heap != []
      modifies this
      ensures heap == Taken(old(heap))
    {
      ghost var goal := Taken(heap);
      var last := |heap| - 1;
      var moved := heap[last];
      heap := heap[..last];
      if last > 0 {
        var i := 0;
        var best := Pick(0, moved.deadline);
        while best != i
          invariant 0 <= i < |heap| == last && best == Child(heap, i, moved.deadline) && Down(heap, i, moved) == goal
          decreases |heap| - i
        {
          heap := heap[i := heap[best]][best := heap[i]];
          i := best;
          best := Pick(i, moved.deadline);
        }
        heap := heap[i := moved];
      }
    }

    method Pick(i: nat, d: int) returns (best: nat)
      requires i < |heap|
      ensures best == Child(heap, i, d)
    {
      var l, r := 2 * i + 1, 2 * i + 2;
      best := i;
      if l < |heap| && heap[l].deadline < d { best := l; }
      if r < |heap| && heap[r].deadline < d { best := r; }
    }
  }

  // ---------------------------------------------------------------------
  // Which timer comes first
  // ---------------------------------------------------------------------

  datatype Op = Add(t: Timer) | Expire(now: int)

  datatype Outcome = TooMany | Pending(h: seq<Timer>)

  /** A run during which at most k timers are pending. */
  function Run(h: seq<Timer>, ops: seq<Op>, k: nat): Outcome
    decreases |ops|
  {
    if ops == [] then Pending(h)
    else
      match ops[0]
      case Add(t) => if |h| >= k then TooMany else Run(Pushed(h, t), ops[1..], k)
      case Expire(now) =>
        if h != [] && h[0].deadline <= now then Run(Taken(h), ops[1..], k) else Run(h, ops[1..], k)
  }

  /** The root is the earliest timer, so that a take never passes over a due one. */
  ghost predicate Earliest(h: seq<Timer>) {
    forall i :: 0 <= i < |h| ==> h[0].deadline <= h[i].deadline
  }

  lemma FewPushed(h: seq<Timer>, t: Timer)
    requires |h| <= 2 && Earliest(h)
    ensures |Pushed(h, t)| == |h| + 1 && Earliest(Pushed(h, t))
  {
    var g := h + [t];
    if |h| == 0 { assert Pushed(h, t) == [t]; }
    if |h| == 1 { assert Up(g, 1, t) == if h[0].deadline <= t.deadline then g[1 := t] else g[1 := h[0]][0 := t]; }
    if |h| == 2 { assert Up(g, 2, t) == if h[0].deadline <= t.deadline then g[2 := t] else g[2 := h[0]][0 := t]; }
  }

  lemma FewTaken(h: seq<Timer>)
    requires 0 < |h| <= 3 && Earliest(h)
    ensures |Taken(h)| == |h| - 1 && Earliest(Taken(h))
  {
    if |h| == 2 { assert Taken(h) == [h[1]]; }
    if |h| == 3 {
      var g := h[..2];
      assert Taken(h) == if h[1].deadline < h[2].deadline then Down(g[0 := g[1]][1 := g[0]], 1, h[2]) else g[0 := h[2]];
    }
  }

  lemma {:induction false} FewRun(h: seq<Timer>, ops: seq<Op>, k: nat)
    requires k <= 3 && |h| <= k && Earliest(h) && Run(h, ops, k).Pending?
    ensures Earliest(Run(h, ops, k).h)
    decreases |ops|
  {
    if ops != [] {
      match ops[0]
      case Add(t) => FewPushed(h, t); FewRun(Pushed(h, t), ops[1..], k);
      case Expire(now) =>
        if h != [] && h[0].deadline <= now {
          FewTaken(h);
          FewRun(Taken(h), ops[1..], k);
        } else {
          FewRun(h, ops[1..], k);
        }
    }
  }

  /** Four timers, due at 1, 2, 3 and 9; after the first has gone off, the one due at
      3 is ahead of the one due at 2. */
  lemma FourGoWrong(k: nat) returns (ops: seq<Op>)
    requires k >= 4
    ensures Run([], ops, k).Pending? && !Earliest(Run([], ops, k).h)
  {
    var a, b, c, d := Timer(1, 1), Timer(2, 2), Timer(3, 3), Timer(4, 9);
    ops := [Add(a), Add(b), Add(c), Add(d), Expire(1)];
    Pushes(a, b, c, d);
    assert Run([a, b, c, d], [Expire(1)], k) == Run(Taken([a, b, c, d]), [], k);
    assert Run([a, b, c], [Add(d), Expire(1)], k) == Run(Pushed([a, b, c], d), [Add(d), Expire(1)][1..], k);
    assert Run([a, b], [Add(c), Add(d), Expire(1)], k) == Run(Pushed([a, b], c), [Add(c), Add(d), Expire(1)][1..], k);
    assert Run([a], ops[1..], k) == Run(Pushed([a], b), ops[1..][1..], k);
    assert Run([], ops, k) == Run(Pushed([], a), ops[1..], k);
    assert ops[1..][1..] == [Add(c), Add(d), Expire(1)];
    assert !Earliest([c, b, d]) by { assert [c, b, d][1] == b; }
  }

  lemma Pushes(a: Timer, b: Timer, c: Timer, d: Timer)
    requires a.deadline <= b.deadline < c.deadline < d.deadline
    ensures Pushed([], a) == [a] && Pushed([a], b) == [a, b] && Pushed([a, b], c) == [a, b, c] && Pushed([a, b, c], d) == [a, b, c, d]
    ensures Taken([a, b, c, d]) == [c, b, d]
  {
    assert [] + [a] == [a] && [a] + [b] == [a, b] && [a, b] + [c] == [a, b, c] && [a, b, c] + [d] == [a, b, c, d];
    var h := [a, b, c, d];
    assert h[..3] == [a, b, c];
    assert Child([a, b, c], 0, d.deadline) == 2;
    assert [a, b, c][0 := c][2 := a] == [c, b, a];
    assert Child([c, b, a], 2, d.deadline) == 2;
    assert Down([c, b, a], 2, d) == [c, b, d];
    assert Down([a, b, c], 0, d) == Down([c, b, a], 2, d);
  }

  /** In every run in which at most k timers are pending the root is the earliest
      one: exactly if k is at most 3. */
  lemma EarliestFirstExactlyWhen(k: nat)
    ensures (forall ops :: Run([], ops, k).Pending? ==> Earliest(Run([], ops, k).h)) <==> k <= 3
  {
    if k <= 3 {
      forall ops | Run([], ops, k).Pending? ensures Earliest(Run([], ops, k).h) { FewRun([], ops, k); }
    } else {
      var ops := FourGoWrong(k);
      assert Run([], ops, k).Pending?;
    }
  }
}
