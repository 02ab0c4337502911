/**
 The keyed condition's wait queue (runtime/rt_sync.c).

 The queue is threaded through the waiters' own `wait_next` fields.  A keyed
 signal unparks the waiters that named the key or no key and relinks the others,
 in place, in the order they had.
 */
module CondQueue {
  import opened Links

  /** The waiter is woken by a signal for `key`; 0 stands for NULL. */
  predicate Matches(k: int, key: int) { k == 0 || k == key }

  /** The waiters that a signal for `key` leaves on the queue, in order. */
  function Left(l: seq<Ptr>, keys: seq<int>, key: int): (r: seq<Ptr>)
    requires forall i :: 0 <= i < |l| ==> l[i] < |keys|
    ensures forall i :: 0 <= i < |r| ==> r[i] in l && !Matches(keys[r[i]], key)
  {
    if l == [] then []
    else
      var n := |l| - 1;
      Left(l[..n], keys, key) + if Matches(keys[l[n]], key) then [] else [l[n]]
  }

  /** The waiters that it wakes, in order. */
  function Woken(l: seq<Ptr>, keys: seq<int>, key: int): (r: seq<Ptr>)
    requires forall i :: 0 <= i < |l| ==> l[i] < |keys|
    ensures forall i :: 0 <= i < |r| ==> r[i] in l && Matches(keys[r[i]], key)
  {
    if l == [] then []
    else
      var n := |l| - 1;
      Woken(l[..n], keys, key) + if Matches(keys[l[n]], key) then [l[n]] else []
  }

  ghost predicate Distinct(l: seq<Ptr>) {
    forall i, j :: 0 <= i < j < |l| ==> l[i] != l[j]
  }

  /** A signal splits the queue: nobody is lost, nobody is woken and kept. */
  lemma {:induction false} SplitsQueue(l: seq<Ptr>, keys: seq<int>, key: int)
    requires forall i :: 0 <= i < |l| ==> l[i] < |keys|
    ensures multiset(Left(l, keys, key)) + multiset(Woken(l, keys, key)) == multiset(l)
    decreases |l|
  {
    if l != [] {
      var n := |l| - 1;
      assert l == l[..n] + [l[n]];
      SplitsQueue(l[..n], keys, key);
    }
  }

  lemma {:induction false} LeftIsDistinct(l: seq<Ptr>, keys: seq<int>, key: int)
    requires Distinct(l) && forall i :: 0 <= i < |l| ==> l[i] < |keys|
    ensures Distinct(Left(l, keys, key))
    decreases |l|
  {
    if l != [] {
      var n := |l| - 1;
      LeftIsDistinct(l[..n], keys, key);
      assert forall i :: 0 <= i < n ==> l[..n][i] == l[i];
      assert l[n] !in l[..n];
    }
  }

  /** One more cell at the end of a NULL-terminated list. */
  lemma ChainSnoc(next: seq<Ptr>, p: Ptr, l: seq<Ptr>, x: Ptr)
    requires Chain(next, p, l) && Distinct(l) && 0 < x < |next| && next[x] == 0 && x !in l
    ensures var next' := if l == [] then next else next[l[|l| - 1] := x];
      Chain(next', if l == [] then x else p, l + [x])
  {
    var next' := if l == [] then next else next[l[|l| - 1] := x];
    var k := l + [x];
    assert forall i :: 0 <= i < |l| ==> k[i] == l[i] && l[i] in l;
    forall i, j | 0 <= i && j == i + 1 && j < |k| ensures next'[k[i]] == k[j] {
      if j < |l| {
        assert l[i] != l[|l| - 1];
      }
    }
  }

  lemma ChainFrame(next: seq<Ptr>, next': seq<Ptr>, p: Ptr, l: seq<Ptr>)
    requires Chain(next, p, l) && |next'| == |next|
    requires forall i :: 0 <= i < |l| ==> next'[l[i]] == next[l[i]]
    ensures Chain(next', p, l)
  {
    SegFrame(next, next', p, l);
  }

  /** rt_cond: the head of its queue. */
  class Cond {
    var waiters: Ptr

    /** The enlisting half of rt_cond_wait_key. */
    method Enlist(self: Ptr, key: int, waitNext: array<Ptr>, waitKey: array<int>, ghost l: seq<Ptr>)
      requires Chain(waitNext[..], waiters, l) && Distinct(l) && 0 < self < waitNext.Length == waitKey.Length && self !in l
      modifies this, waitNext, waitKey
      ensures Chain(waitNext[..], waiters, [self] + l) && Distinct([self] + l)
      ensures waitKey[..] == old(waitKey[..])[self := key]
      ensures forall x :: 0 <= x < waitNext.Length && x != self ==> waitNext[x] == old(waitNext[x])
    {
      waitKey[self] := key;
      waitNext[self] := waiters;
      ChainFrame(old(waitNext[..]), waitNext[..], waiters, l);
      waiters := self;
      var k := [self] + l;
      assert Seg(waitNext[..], self, [self]);
      if l != [] { ChainAppend(waitNext[..], self, [self], l[0], l); } else { ChainAppend(waitNext[..], self, [self], 0, l); }
    }

    /** rt_cond_signal_key; the unparks are reported in the order they are made. */
    method SignalKey(key: int, waitNext: array<Ptr>, waitKey: array<int>, ghost l: seq<Ptr>) returns (woken: seq<Ptr>)
      requires Chain(waitNext[..], waiters, l) && Distinct(l) && waitNext.Length == waitKey.Length
      modifies this, waitNext
      ensures woken == Woken(l, waitKey[..], key)
      ensures Chain(waitNext[..], waiters, Left(l, waitKey[..], key))
      ensures Outside(old(waitNext[..]), waitNext[..], l) && Cleared(waitNext[..], woken)
    {
      var keep;
      keep, woken := WalkAll(waiters, key, waitNext, waitKey, l);
      waiters := keep;
    }
  }

  method WalkAll(head: Ptr, key: int, waitNext: array<Ptr>, waitKey: array<int>, ghost l: seq<Ptr>)
    returns (keep: Ptr, woken: seq<Ptr>)
    requires Chain(waitNext[..], head, l) && Distinct(l) && waitNext.Length == waitKey.Length
    modifies waitNext
    ensures woken == Woken(l, waitKey[..], key) && Chain(waitNext[..], keep, Left(l, waitKey[..], key))
    ensures Outside(old(waitNext[..]), waitNext[..], l) && Cleared(waitNext[..], woken)
  {
    ghost var next0 := waitNext[..];
    var w, keepTail := head, 0;
    keep, woken := 0, [];
    ghost var past, rest := [], l;
    while w != 0
      invariant past + rest == l
      invariant Walk(waitNext[..], waitKey[..], key, past, rest, w, keep, keepTail)
      invariant Marks(next0, waitNext[..], waitKey[..], key, past, woken)
      decreases |rest|
    {
      var n, matches := Visit(waitNext, waitKey, key, w, keep, keepTail, next0, past, rest, woken);
      if matches {
        woken := woken + [w];
      } else {
        if keepTail == 0 { keep := w; }
        keepTail := w;
      }
      w := n;
      past, rest := past + [rest[0]], rest[1..];
    }
    assert past == l by { assert rest == []; }
  }

  /** One round of the walk. */
  method Visit(waitNext: array<Ptr>, waitKey: array<int>, key: int, w: Ptr, keep: Ptr, keepTail: Ptr,
               ghost next0: seq<Ptr>, ghost past: seq<Ptr>, ghost rest: seq<Ptr>, ghost woken: seq<Ptr>)
    returns (n: Ptr, matches: bool)
    requires Walk(waitNext[..], waitKey[..], key, past, rest, w, keep, keepTail) && w != 0
    requires Marks(next0, waitNext[..], waitKey[..], key, past, woken)
    modifies waitNext
    ensures rest != [] && w == rest[0] && (past + [rest[0]]) + rest[1..] == past + rest
    ensures Marks(next0, waitNext[..], waitKey[..], key, past + [rest[0]], if matches then woken + [w] else woken)
    ensures matches ==> Walk(waitNext[..], waitKey[..], key, past + [rest[0]], rest[1..], n, keep, keepTail)
    ensures !matches ==>
      Walk(waitNext[..], waitKey[..], key, past + [rest[0]], rest[1..], n, if keepTail == 0 then w else keep, w)
  {
    ghost var before: seq<Ptr>, keys: seq<int> := waitNext[..], waitKey[..];
    n := waitNext[w];
    waitNext[w] := 0;
    assert waitNext[..] == before[w := 0];
    matches := waitKey[w] == 0 || waitKey[w] == key;
    Step(past, rest);
    if matches {
      WalkWake(before, keys, key, past, rest, w, keep, keepTail);
      MarkWake(next0, before, keys, key, past, rest, w, woken);
    } else {
      WalkKeep(before, keys, key, past, rest, w, keep, keepTail);
      MarkKeep(next0, before, keys, key, past, rest, w, keepTail, woken);
      if keepTail != 0 {
        waitNext[keepTail] := w;
        assert waitNext[..] == before[w := 0][keepTail := w];
      }
    }
  }

  /** Nothing but the cells of l changed. */
  ghost predicate Outside(next0: seq<Ptr>, next: seq<Ptr>, l: seq<Ptr>) {
    |next| == |next0| && forall x {:trigger next[x]} :: 0 <= x < |next| && x !in l ==> next[x] == next0[x]
  }

  ghost predicate Cleared(next: seq<Ptr>, l: seq<Ptr>) {
    forall i :: 0 <= i < |l| ==> l[i] < |next| && next[l[i]] == 0
  }

  /** The walk has handled `past` and has `rest` before it. */
  ghost predicate Walk(next: seq<Ptr>, keys: seq<int>, key: int, past: seq<Ptr>, rest: seq<Ptr>, w: Ptr, keep: Ptr, keepTail: Ptr) {
    && |next| == |keys| && (forall k :: 0 <= k < |past| ==> past[k] < |keys|) && Distinct(past + rest)
    && Chain(next, w, rest)
    && (var kept := Left(past, keys, key);
        Chain(next, keep, kept) && keepTail == if kept == [] then 0 else kept[|kept| - 1])
  }

  /** What the walk has done to `past`. */
  ghost predicate Marks(next0: seq<Ptr>, next: seq<Ptr>, keys: seq<int>, key: int, past: seq<Ptr>, woken: seq<Ptr>) {
    && (forall k :: 0 <= k < |past| ==> past[k] < |keys|)
    && Outside(next0, next, past) && Cleared(next, woken) && woken == Woken(past, keys, key)
  }

  lemma MarkWake(next0: seq<Ptr>, next: seq<Ptr>, keys: seq<int>, key: int, past: seq<Ptr>, rest: seq<Ptr>, w: Ptr, woken: seq<Ptr>)
    requires Marks(next0, next, keys, key, past, woken) && rest != [] && w == rest[0] && w < |keys| == |next| && Matches(keys[w], key)
    ensures Marks(next0, next[w := 0], keys, key, past + [rest[0]], woken + [w])
  {
    Snoc(past, w, keys, key);
    assert forall x :: x !in past + [w] ==> x !in past && x != w;
  }

  lemma MarkKeep(next0: seq<Ptr>, next: seq<Ptr>, keys: seq<int>, key: int, past: seq<Ptr>, rest: seq<Ptr>, w: Ptr, keepTail: Ptr, woken: seq<Ptr>)
    requires Marks(next0, next, keys, key, past, woken) && rest != [] && w == rest[0] && w < |keys| == |next| && !Matches(keys[w], key)
    requires keepTail < |next| && (keepTail != 0 ==> keepTail in Left(past, keys, key))
    ensures var next1 := if keepTail == 0 then next[w := 0] else next[w := 0][keepTail := w];
      Marks(next0, next1, keys, key, past + [rest[0]], woken)
  {
    Snoc(past, w, keys, key);
    assert forall x :: x !in past + [w] ==> x !in past && x != w;
  }

  lemma Snoc(past: seq<Ptr>, w: Ptr, keys: seq<int>, key: int)
    requires w < |keys| && forall k :: 0 <= k < |past| ==> past[k] < |keys|
    ensures Left(past + [w], keys, key) == Left(past, keys, key) + if Matches(keys[w], key) then [] else [w]
    ensures Woken(past + [w], keys, key) == Woken(past, keys, key) + if Matches(keys[w], key) then [w] else []
  {
    assert (past + [w])[..|past|] == past;
  }

  lemma Step(past: seq<Ptr>, rest: seq<Ptr>)
    requires rest != [] && Distinct(past + rest)
    ensures (past + [rest[0]]) + rest[1..] == past + rest
    ensures rest[0] !in past && rest[0] !in rest[1..] && Distinct(past)
    ensures forall x :: x in past ==> x !in rest[1..]
  {
    var l := past + rest;
    assert l[|past|] == rest[0];
    assert forall i :: 0 <= i < |past| ==> l[i] == past[i];
    assert forall j :: 0 <= j < |rest[1..]| ==> l[|past| + 1 + j] == rest[1..][j];
  }

  lemma WalkWake(next: seq<Ptr>, keys: seq<int>, key: int, past: seq<Ptr>, rest: seq<Ptr>, w: Ptr, keep: Ptr, keepTail: Ptr)
    requires Walk(next, keys, key, past, rest, w, keep, keepTail) && w != 0 && w < |keys| && Matches(keys[w], key)
    ensures rest != [] && w == rest[0] && Walk(next[w := 0], keys, key, past + [rest[0]], rest[1..], next[w], keep, keepTail)
  {
    var kept := Left(past, keys, key);
    Step(past, rest);
    Snoc(past, w, keys, key);
    ChainTail(next, w, rest);
    ChainFrame(next, next[w := 0], keep, kept);
    ChainFrame(next, next[w := 0], next[w], rest[1..]);
  }

  lemma WalkKeep(next: seq<Ptr>, keys: seq<int>, key: int, past: seq<Ptr>, rest: seq<Ptr>, w: Ptr, keep: Ptr, keepTail: Ptr)
    requires Walk(next, keys, key, past, rest, w, keep, keepTail) && w != 0 && w < |keys| && !Matches(keys[w], key)
    ensures rest != [] && w == rest[0] && keepTail < |next| && (keepTail != 0 ==> keepTail in Left(past, keys, key))
    ensures var next1 := if keepTail == 0 then next[w := 0] else next[w := 0][keepTail := w];
      Walk(next1, keys, key, past + [rest[0]], rest[1..], next[w], if keepTail == 0 then w else keep, w)
  {
    var kept := Left(past, keys, key);
    Step(past, rest);
    Snoc(past, w, keys, key);
    LeftIsDistinct(past, keys, key);
    ChainTail(next, w, rest);
    var next' := next[w := 0];
    ChainFrame(next, next', keep, kept);
    ChainSnoc(next', keep, kept, w);
    var next1 := if keepTail == 0 then next' else next'[keepTail := w];
    assert kept != [] ==> keepTail in kept;
    ChainFrame(next, next1, next[w], rest[1..]);
  }
}
