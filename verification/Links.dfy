/** Singly linked lists of cells in a flat memory of `next` words. */
module Links {

  /** A fiber address; 0 is NULL. */
  type Ptr = nat

  /** l is the sequence of cells linked from p; the last cell's link is free. */
  ghost predicate Seg(next: seq<Ptr>, p: Ptr, l: seq<Ptr>) {
    && (l == [] ==> p == 0)
    && (l != [] ==> p == l[0])
    && (forall i :: 0 <= i < |l| ==> 0 < l[i] < |next|)
    && (forall i, j {:trigger l[i], l[j]} :: 0 <= i && j == i + 1 && j < |l| ==> next[l[i]] == l[j])
  }

  /** A NULL-terminated list. */
  ghost predicate Chain(next: seq<Ptr>, p: Ptr, l: seq<Ptr>) {
    Seg(next, p, l) && (l != [] ==> next[l[|l| - 1]] == 0)
  }

  lemma SegFrame(next: seq<Ptr>, next': seq<Ptr>, p: Ptr, l: seq<Ptr>)
    requires Seg(next, p, l) && |next'| == |next|
    requires forall i :: 0 <= i < |l| ==> next'[l[i]] == next[l[i]]
    ensures Seg(next', p, l)
  {
  }

  lemma ChainTail(next: seq<Ptr>, p: Ptr, l: seq<Ptr>)
    requires Chain(next, p, l) && l != []
    ensures Chain(next, next[p], l[1..])
  {
  }

  lemma ChainAppend(next: seq<Ptr>, p: Ptr, l: seq<Ptr>, h: Ptr, m: seq<Ptr>)
    requires Seg(next, p, l) && l != [] && next[l[|l| - 1]] == h && Chain(next, h, m)
    ensures Chain(next, p, l + m)
  {
    var k := l + m;
    forall i, j | 0 <= i && j == i + 1 && j < |k| ensures next[k[i]] == k[j] {
    }
  }

  /** A NULL-terminated list is determined by the memory. */
  lemma {:induction false} ChainUnique(next: seq<Ptr>, p: Ptr, l: seq<Ptr>, m: seq<Ptr>)
    requires Chain(next, p, l) && Chain(next, p, m)
    ensures l == m
    decreases |l|
  {
    if l != [] && m != [] {
      var p' := next[p];
      ChainTail(next, p, l);
      ChainTail(next, p, m);
      ChainUnique(next, p', l[1..], m[1..]);
      assert l == [p] + l[1..] && m == [p] + m[1..];
    }
  }
}
