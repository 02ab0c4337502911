/**
 AREA regions (runtime/rt_storage.c; rule (20) of TR 25.084).

 A region hands out blocks in any order and takes them back in any order.  Every
 block carries a 16-byte header with its payload size and the next live block.
 The region charges payload and header against its size.
 */
module Area {

  /** A block's address; 0 is NULL.  The payload lies 16 bytes further. */
  type Ptr = nat

  const HEADER: int := 16

  datatype Block = Block(at: Ptr, size: int)

  datatype Header = Header(size: int, next: Ptr)

  datatype Outcome = Ok(payload: Ptr) | AreaCondition

  /** What the live blocks cost. */
  function Charged(live: seq<Block>): int {
    if live == [] then 0 else live[0].size + HEADER + Charged(live[1..])
  }

  function Without(live: seq<Block>, i: nat): seq<Block>
    requires i < |live|
  {
    live[..i] + live[i + 1..]
  }

  lemma {:induction false} ChargedWithout(live: seq<Block>, i: nat)
    requires i < |live|
    ensures Charged(Without(live, i)) == Charged(live) - live[i].size - HEADER
    decreases i
  {
    if i > 0 {
      ChargedWithout(live[1..], i - 1);
      assert Without(live, i)[1..] == Without(live[1..], i - 1);
    } else {
      assert Without(live, 0) == live[1..];
    }
  }

  /** The address of block i, 0 past the end. */
  function AddrAt(live: seq<Block>, i: nat): Ptr { if i < |live| then live[i].at else 0 }

  /** The header of block i is right. */
  ghost predicate Cell(mem: map<Ptr, Header>, live: seq<Block>, i: nat)
    requires i < |live|
  {
    && live[i].at != 0 && live[i].at in mem
    && mem[live[i].at] == Header(live[i].size, AddrAt(live, i + 1)) && live[i].size >= 0
  }

  /** The headers in memory link the live blocks, newest first. */
  ghost predicate Linked(mem: map<Ptr, Header>, head: Ptr, live: seq<Block>) {
    head == AddrAt(live, 0) && forall i :: 0 <= i < |live| ==> Cell(mem, live, i)
  }

  ghost predicate Distinct(live: seq<Block>) {
    forall i, j {:trigger live[i].at, live[j].at} :: 0 <= i < j < |live| ==> live[i].at != live[j].at
  }

  lemma Pushed(mem: map<Ptr, Header>, head: Ptr, live: seq<Block>, b: Block)
    requires Linked(mem, head, live) && Distinct(live) && b.at != 0 && b.size >= 0 && b.at !in mem
    ensures Linked(mem[b.at := Header(b.size, head)], b.at, [b] + live) && Distinct([b] + live)
  {
    var l, m := [b] + live, mem[b.at := Header(b.size, head)];
    forall i | 0 <= i < |l| ensures Cell(m, l, i) {
      if i > 0 { assert Cell(mem, live, i - 1); }
    }
    forall i, j | 0 <= i < j < |l| ensures l[i].at != l[j].at {
      assert Cell(mem, live, j - 1);
    }
  }

  /** Where block j of the shortened list was. */
  function From(j: nat, i: nat): nat { if j < i then j else j + 1 }

  /** The memory after block i is unlinked and released. */
  ghost function Unlink(mem: map<Ptr, Header>, live: seq<Block>, i: nat): map<Ptr, Header>
    requires i < |live| && Cell(mem, live, i) && (i > 0 ==> Cell(mem, live, i - 1))
  {
    (if i == 0 then mem
     else mem[live[i - 1].at := mem[live[i - 1].at].(next := mem[live[i].at].next)]) - {live[i].at}
  }

  lemma WithoutAt(live: seq<Block>, i: nat, j: nat)
    requires i < |live| && j < |live| - 1
    ensures Without(live, i)[j] == live[From(j, i)]
  {
  }

  lemma UnlinkedCell(mem: map<Ptr, Header>, live: seq<Block>, i: nat, j: nat)
    requires Distinct(live) && i < |live| && j < |live| - 1
    requires Cell(mem, live, i) && Cell(mem, live, From(j, i)) && (i > 0 ==> Cell(mem, live, i - 1))
    ensures Cell(Unlink(mem, live, i), Without(live, i), j)
  {
    var x := From(j, i);
    WithoutAt(live, i, j);
    if j + 1 < |live| - 1 { WithoutAt(live, i, j + 1); }
    assert live[x].at != live[i].at;
    assert i > 0 && x != i - 1 ==> live[x].at != live[i - 1].at;
  }

  /** Taking block i out of the chain. */
  lemma Unlinked(mem: map<Ptr, Header>, head: Ptr, live: seq<Block>, i: nat)
    requires Linked(mem, head, live) && Distinct(live) && i < |live|
    ensures Cell(mem, live, i) && (i > 0 ==> Cell(mem, live, i - 1))
    ensures Linked(Unlink(mem, live, i), if i == 0 then mem[live[i].at].next else head, Without(live, i))
    ensures Distinct(Without(live, i))
  {
    var w := Without(live, i);
    assert Cell(mem, live, i) && (i > 0 ==> Cell(mem, live, i - 1));
    forall j | 0 <= j < |w| ensures Cell(Unlink(mem, live, i), w, j) {
      assert Cell(mem, live, From(j, i));
      UnlinkedCell(mem, live, i, j);
    }
    if |w| > 0 { WithoutAt(live, i, 0); }
    forall j, k | 0 <= j < k < |w| ensures w[j].at != w[k].at {
      WithoutAt(live, i, j);
      WithoutAt(live, i, k);
      assert live[From(j, i)].at != live[From(k, i)].at;
    }
  }

  /** The addresses of the live blocks. */
  ghost predicate Exactly(mem: map<Ptr, Header>, live: seq<Block>) {
    forall p :: p in mem ==> IsLive(live, p)
  }

  /** The pointer p is the payload of a live block. */
  ghost predicate OwnedBy(live: seq<Block>, p: int) {
    exists i :: 0 <= i < |live| && live[i].at == p - 16
  }

  ghost predicate IsLive(live: seq<Block>, p: int) {
    exists i :: 0 <= i < |live| && live[i].at == p
  }

  lemma PushedExactly(mem: map<Ptr, Header>, live: seq<Block>, b: Block, h: Header)
    requires Exactly(mem, live)
    ensures Exactly(mem[b.at := h], [b] + live)
  {
    var l := [b] + live;
    forall p | p in mem[b.at := h] ensures IsLive(l, p) {
      if p == b.at {
        assert l[0].at == p;
      } else {
        var i :| 0 <= i < |live| && live[i].at == p;
        assert l[i + 1].at == p;
      }
    }
  }

  lemma UnlinkedExactly(mem: map<Ptr, Header>, live: seq<Block>, i: nat)
    requires i < |live| && Cell(mem, live, i) && (i > 0 ==> Cell(mem, live, i - 1)) && Exactly(mem, live)
    ensures Exactly(Unlink(mem, live, i), Without(live, i))
  {
    forall p | p in Unlink(mem, live, i) ensures IsLive(Without(live, i), p) {
      assert IsLive(live, p);
      var x :| 0 <= x < |live| && live[x].at == p;
      assert Without(live, i)[if x < i then x else x - 1].at == p;
    }
  }

  class Region {
    const size: int
    var used: int
    var blocks: Ptr
    var mem: map<Ptr, Header>   // the headers of the blocks obtained and not released
    ghost var live: seq<Block>

    /** The accounting: what is used is what the live blocks cost, and it fits. */
    ghost predicate Valid()
      reads this
    {
      && Linked(mem, blocks, live) && Distinct(live) && Exactly(mem, live)
      && used == Charged(live) && used <= size
    }

    /** pli_area_create. */
    constructor (n: int)
      ensures Valid() && live == [] && size == if n > 0 then n else 0
    {
      size := if n > 0 then n else 0;
      used, blocks, mem, live := 0, 0, map[], [];
    }

    /** pli_area_alloc; `fresh_` is what malloc returns if it is asked. */
    method Alloc(n: int, fresh_: Ptr) returns (r: Outcome)
      requires Valid() && fresh_ != 0 && fresh_ !in mem
      modifies this
      ensures Valid()
      ensures var need := if n < 0 then 0 else n;
        && (r.Ok? <==> old(used) + need + HEADER <= size)
        && (r.Ok? ==> r.payload == fresh_ + 16 && live == [Block(fresh_, need)] + old(live))
      ensures r.AreaCondition? ==> live == old(live) && used == old(used) && blocks == old(blocks) && mem == old(mem)
    {
      var need := if n < 0 then 0 else n;
      if need > size - used - HEADER { return AreaCondition; }
      ghost var b, live0 := Block(fresh_, need), live;
      Pushed(mem, blocks, live, b);
      PushedExactly(mem, live, b, Header(need, blocks));
      mem := mem[fresh_ := Header(need, blocks)];
      live := [b] + live;
      assert live[1..] == live0;
      blocks := fresh_;
      used := used + need + HEADER;
      r := Ok(fresh_ + 16);
    }

    /** pli_area_free of the pointer p: the block it belongs to, if it is live, goes;
        any other pointer is refused and changes nothing. */
    method Free(p: Ptr) returns (r: Outcome)
      requires Valid()
      modifies this
      ensures Valid()
      ensures r.AreaCondition? <==> p != 0 && !OwnedBy(old(live), p)
      ensures r.Ok? && p != 0 ==> exists i :: 0 <= i < |old(live)| && old(live)[i].at == p - 16 && live == Without(old(live), i)
      ensures r.AreaCondition? || p == 0 ==> live == old(live) && used == old(used) && blocks == old(blocks) && mem == old(mem)
    {
      if p == 0 { return Ok(0); }
      var b: int := p - 16;
      var i, prev, cur := Search(b);
      if cur == 0 { return AreaCondition; }
      Release(b, prev, i);
      r := Ok(0);
    }

    method Release(b: Ptr, prev: Ptr, ghost i: nat)
      requires Valid() && i < |live| && live[i].at == b && prev == if i == 0 then 0 else live[i - 1].at
      modifies this
      ensures Valid() && live == Without(old(live), i)
    {
      Unlinked(mem, blocks, live, i);
      UnlinkedExactly(mem, live, i);
      ChargedWithout(live, i);
      used := used - (mem[b].size + HEADER);
      if prev == 0 { blocks := mem[b].next; } else { mem := mem[prev := mem[prev].(next := mem[b].next)]; }
      mem := mem - {b};
      live := Without(live, i);
    }

    /** The walk along the links to the block b. */
    method Search(b: int) returns (ghost i: nat, prev: Ptr, cur: Ptr)
      requires Valid()
      ensures i <= |live| && cur == AddrAt(live, i) && prev == if i == 0 then 0 else live[i - 1].at
      ensures cur == 0 ==> !IsLive(live, b)
      ensures cur != 0 ==> i < |live| && cur == b
    {
      i, prev, cur := 0, 0, blocks;
      while cur != 0 && cur != b
        invariant i <= |live| && cur == AddrAt(live, i) && prev == if i == 0 then 0 else live[i - 1].at
        invariant forall j :: 0 <= j < i ==> live[j].at != b
        decreases |live| - i
      {
        assert Cell(mem, live, i);
        prev := cur;
        cur := mem[cur].next;
        i := i + 1;
      }
      assert i < |live| ==> Cell(mem, live, i);
    }
  }
}
