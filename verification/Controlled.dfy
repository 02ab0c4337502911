/**
 CONTROLLED generation stacks of one task (runtime/rt_storage.c; rules (15) and
 (87)-(90) of TR 25.084).

 Each variable, named by its key, has a stack of generations.  The table of
 variables is searched linearly behind a one-entry lookup cache, the slots of a
 stack grow by doubling, and one freed buffer is kept for the next ALLOCATE of
 the same key and size.  To the program none of this shows: every key has an
 independent stack of (address, length, extents).
 */
module Controlled {
  import opened Options

  type Ptr = nat

  /** A generation: its buffer, its length in bytes, the extents of its axes. */
  datatype Gen = Gen(addr: Ptr, len: int, dims: seq<int>)

  /** `slots` has the stack's capacity; those at `depth` and above are free. */
  datatype Var = Var(key: int, slots: seq<Gen>, depth: nat)

  const NOGEN: Gen := Gen(0, 0, [])

  // ---------------------------------------------------------------------
  // The table
  // ---------------------------------------------------------------------

  function FindVar(vars: seq<Var>, key: int): (i: int)
    ensures -1 <= i < |vars| && (i >= 0 ==> vars[i].key == key)
    ensures i == -1 ==> forall j :: 0 <= j < |vars| ==> vars[j].key != key
  {
    if vars == [] then -1
    else
      var i := FindVar(vars[..|vars| - 1], key);
      if i >= 0 then i else if vars[|vars| - 1].key == key then |vars| - 1 else -1
  }

  ghost predicate Table(vars: seq<Var>) {
    && (forall i, j {:trigger vars[i].key, vars[j].key} :: 0 <= i < j < |vars| ==> vars[i].key != vars[j].key)
    && (forall i :: 0 <= i < |vars| ==> vars[i].depth <= |vars[i].slots|)
  }

  /** The generations of a key, oldest first. */
  function Stack(vars: seq<Var>, key: int): seq<Gen>
    requires Table(vars)
  {
    var i := FindVar(vars, key);
    if i < 0 then [] else vars[i].slots[..vars[i].depth]
  }

  ghost predicate OthersSame(vars: seq<Var>, vars': seq<Var>, key: int)
    requires Table(vars) && Table(vars')
  {
    forall k {:trigger Stack(vars', k)} :: k != key ==> Stack(vars', k) == Stack(vars, k)
  }

  lemma FindIs(vars: seq<Var>, i: nat)
    requires Table(vars) && i < |vars|
    ensures FindVar(vars, vars[i].key) == i
  {
    assert forall x :: 0 <= x < i ==> vars[x].key != vars[i].key;
    assert forall x :: i < x < |vars| ==> vars[x].key != vars[i].key;
  }

  /** A change to one variable shows in its own stack only. */
  lemma TableUpdate(vars: seq<Var>, i: nat, v: Var)
    requires Table(vars) && i < |vars| && v.key == vars[i].key && v.depth <= |v.slots|
    ensures Table(vars[i := v]) && Stack(vars[i := v], v.key) == v.slots[..v.depth]
    ensures OthersSame(vars, vars[i := v], v.key)
  {
    var vs := vars[i := v];
    FindIs(vs, i);
    forall k | k != v.key ensures Stack(vs, k) == Stack(vars, k) {
      var j := FindVar(vars, k);
      if j >= 0 { FindIs(vs, j); } else { assert FindVar(vs, k) == -1; }
    }
  }

  lemma FindSnoc(vars: seq<Var>, v: Var, k: int)
    ensures FindVar(vars + [v], k) == if FindVar(vars, k) >= 0 then FindVar(vars, k) else if k == v.key then |vars| else -1
  {
    assert (vars + [v])[..|vars|] == vars;
  }

  lemma TableSnoc(vars: seq<Var>, v: Var)
    requires Table(vars) && FindVar(vars, v.key) == -1 && v.depth == 0
    ensures Table(vars + [v])
  {
    assert forall j :: 0 <= j < |vars| ==> vars[j].key != v.key;
  }

  lemma TableAppend(vars: seq<Var>, v: Var)
    requires Table(vars) && FindVar(vars, v.key) == -1 && v.depth == 0
    ensures Table(vars + [v]) && forall k :: Stack(vars + [v], k) == Stack(vars, k)
  {
    TableSnoc(vars, v);
    forall k ensures Stack(vars + [v], k) == Stack(vars, k) { FindSnoc(vars, v, k); }
  }

  // ---------------------------------------------------------------------
  // Buffers
  // ---------------------------------------------------------------------

  /** A call of the allocator: pli_alloc gave out a buffer, pli_free got it back. */
  datatype Event = Got(p: Ptr) | Freed(p: Ptr)

  /** The buffers obtained and not given back. */
  function Held(log: seq<Event>): set<Ptr> {
    if log == [] then {}
    else
      var held := Held(log[..|log| - 1]);
      match log[|log| - 1]
      case Got(p) => held + {p}
      case Freed(p) => held - {p}
  }

  /** Only a buffer that is held is given back, and only one that is not, given out. */
  ghost predicate WellPaired(log: seq<Event>) {
    forall i :: 0 <= i < |log| ==> (log[i].p in Held(log[..i]) <==> log[i].Freed?)
  }

  lemma Logged(log: seq<Event>, e: Event)
    requires WellPaired(log) && (e.p in Held(log) <==> e.Freed?)
    ensures WellPaired(log + [e]) && Held(log + [e]) == if e.Got? then Held(log) + {e.p} else Held(log) - {e.p}
  {
    assert (log + [e])[..|log|] == log;
    forall i | 0 <= i < |log + [e]| ensures (log + [e])[i].p in Held((log + [e])[..i]) <==> (log + [e])[i].Freed? {
      assert (log + [e])[..i] == log[..i];
    }
  }

  lemma {:induction false} HeldSince(log: seq<Event>, i: nat, n: nat, p: Ptr)
    requires i < n <= |log|
    ensures log[i] == Got(p) ==> p in Held(log[..n]) || exists k :: i < k < n && log[k] == Freed(p)
    ensures log[i] == Freed(p) ==> p !in Held(log[..n]) || exists k :: i < k < n && log[k] == Got(p)
    decreases n
  {
    assert log[..n][..n - 1] == log[..n - 1];
    if i < n - 1 { HeldSince(log, i, n - 1, p); }
  }

  /** No buffer is given back twice without having been obtained in between. */
  lemma FreedOnce(log: seq<Event>, i: nat, j: nat, p: Ptr)
    requires WellPaired(log) && i < j < |log| && log[i] == log[j] == Freed(p)
    ensures exists k :: i < k < j && log[k] == Got(p)
  {
    HeldSince(log, i, j, p);
  }

  /** Where a buffer obtained from the system is. */
  datatype Place = Live(key: int, n: nat) | Cached

  /** Every generation's buffer is in its place, and every buffer that has not been
      released is in the place it says: so no two generations share one. */
  ghost predicate Placed(vars: seq<Var>, cache: Option<Ptr>, home: map<Ptr, Place>)
    requires Table(vars)
  {
    && (forall k: int, n: nat :: GenOk(vars, home, k, n))
    && (forall p :: p in home ==> BufOk(vars, cache, p, home[p]))
    && (cache.Some? ==> cache.value in home && home[cache.value] == Cached)
  }

  ghost predicate GenOk(vars: seq<Var>, home: map<Ptr, Place>, k: int, n: nat)
    requires Table(vars)
  {
    n < |Stack(vars, k)| ==> Stack(vars, k)[n].addr in home && home[Stack(vars, k)[n].addr] == Live(k, n)
  }

  ghost predicate BufOk(vars: seq<Var>, cache: Option<Ptr>, p: Ptr, pl: Place)
    requires Table(vars)
  {
    match pl
    case Live(k, n) => n < |Stack(vars, k)| && Stack(vars, k)[n].addr == p
    case Cached => cache == Some(p)
  }

  /** No two live generations share a buffer, and none shares the cached one. */
  lemma BuffersDistinct(vars: seq<Var>, cache: Option<Ptr>, home: map<Ptr, Place>, j: int, m: nat, k: int, n: nat)
    requires Table(vars) && Placed(vars, cache, home) && m < |Stack(vars, j)| && n < |Stack(vars, k)|
    ensures Stack(vars, j)[m].addr == Stack(vars, k)[n].addr ==> j == k && m == n
    ensures cache != Some(Stack(vars, j)[m].addr)
  {
    assert GenOk(vars, home, j, m) && GenOk(vars, home, k, n);
  }

  /** A buffer once obtained has been given back, is a live generation's, or is the
      one kept. */
  lemma NothingLeaks(vars: seq<Var>, cache: Option<Ptr>, home: map<Ptr, Place>, log: seq<Event>, i: nat, p: Ptr)
    requires Table(vars) && Placed(vars, cache, home) && Held(log) == home.Keys && i < |log| && log[i] == Got(p)
    ensures (exists k :: i < k < |log| && log[k] == Freed(p)) || cache == Some(p)
            || exists key: int, n: nat :: n < |Stack(vars, key)| && Stack(vars, key)[n].addr == p
  {
    HeldSince(log, i, |log|, p);
    assert log[..|log|] == log;
    if p in home { assert BufOk(vars, cache, p, home[p]); }
  }

  /** A push of a buffer that was not obtained before, or was the cached one. */
  lemma PushPlaced(vars: seq<Var>, vars': seq<Var>, cache: Option<Ptr>, cache': Option<Ptr>, home: map<Ptr, Place>, key: int, g: Gen)
    requires Table(vars) && Table(vars') && Placed(vars, cache, home)
    requires Stack(vars', key) == Stack(vars, key) + [g]
    requires OthersSame(vars, vars', key)
    requires (g.addr !in home && cache' == cache) || (cache == Some(g.addr) && cache' == None)
    ensures Placed(vars', cache', home[g.addr := Live(key, |Stack(vars, key)|)])
  {
    var home' := home[g.addr := Live(key, |Stack(vars, key)|)];
    forall k: int, n: nat ensures GenOk(vars', home', k, n) {
      assert GenOk(vars, home, k, n);
      if k != key { assert Stack(vars', k) == Stack(vars, k); }
    }
    forall p | p in home' ensures BufOk(vars', cache', p, home'[p]) {
      if p != g.addr {
        assert BufOk(vars, cache, p, home[p]);
        if home[p].Live? && home[p].key != key { assert Stack(vars', home[p].key) == Stack(vars, home[p].key); }
      }
    }
  }

  /** The top generation of key goes; its buffer is released. */
  lemma PopReleased(vars: seq<Var>, vars': seq<Var>, cache: Option<Ptr>, home: map<Ptr, Place>, key: int, g: Gen)
    requires Table(vars) && Table(vars') && Placed(vars, cache, home)
    requires Stack(vars, key) == Stack(vars', key) + [g]
    requires OthersSame(vars, vars', key)
    ensures g.addr in home && home[g.addr] == Live(key, |Stack(vars', key)|)
    ensures Placed(vars', cache, home - {g.addr})
  {
    var home', top := home - {g.addr}, |Stack(vars', key)|;
    assert GenOk(vars, home, key, top);
    forall k: int, n: nat ensures GenOk(vars', home', k, n) {
      assert GenOk(vars, home, k, n);
      if k != key { assert Stack(vars', k) == Stack(vars, k); }
    }
    forall p | p in home' ensures BufOk(vars', cache, p, home'[p]) {
      assert BufOk(vars, cache, p, home[p]);
      if home[p].Live? && home[p].key != key { assert Stack(vars', home[p].key) == Stack(vars, home[p].key); }
    }
  }

  /** ... or kept, after the buffer kept before has been released. */
  lemma PopCached(vars: seq<Var>, vars': seq<Var>, cache: Option<Ptr>, home: map<Ptr, Place>, key: int, g: Gen)
    requires Table(vars) && Table(vars') && Placed(vars, cache, home)
    requires Stack(vars, key) == Stack(vars', key) + [g]
    requires OthersSame(vars, vars', key)
    ensures var home1 := if cache.Some? then home - {cache.value} else home; g.addr in home1
    ensures var home1 := if cache.Some? then home - {cache.value} else home;
      Placed(vars', Some(g.addr), home1[g.addr := Cached])
  {
    PopReleased(vars, vars', cache, home, key, g);
    BuffersDistinct(vars, cache, home, key, |Stack(vars', key)|, key, |Stack(vars', key)|);
    var home1 := if cache.Some? then home - {cache.value} else home;
    Recache(vars', cache, home - {g.addr}, home1[g.addr := Cached], g.addr);
  }

  /** The buffer p is in no generation any more and may be given back or kept. */
  ghost predicate Removed(vars: seq<Var>, cache: Option<Ptr>, home: map<Ptr, Place>, p: Ptr)
    requires Table(vars)
  {
    && p in home && cache != Some(p) && (cache.Some? ==> cache.value in home)
    && Placed(vars, cache, home - {p})
    && Placed(vars, Some(p), (if cache.Some? then home - {cache.value} else home)[p := Cached])
  }

  lemma PopRemoved(vars: seq<Var>, vars': seq<Var>, cache: Option<Ptr>, home: map<Ptr, Place>, key: int, g: Gen)
    requires Table(vars) && Table(vars') && Placed(vars, cache, home)
    requires Stack(vars, key) == Stack(vars', key) + [g]
    requires OthersSame(vars, vars', key)
    ensures Removed(vars', cache, home, g.addr)
  {
    PopReleased(vars, vars', cache, home, key, g);
    PopCached(vars, vars', cache, home, key, g);
  }

  lemma HeldMoved(log: seq<Event>, home: map<Ptr, Place>, p: Ptr)
    requires Held(log) == home.Keys && p in home
    ensures Held(log) == home[p := Cached].Keys
  {
  }

  /** What a FREE of the generation g does to the buffers: it gives back at most one,
      g's or the one kept before, and then that one is held no more; g's own buffer is
      given back or is the one kept now. */
  ghost predicate Disposed(log: seq<Event>, log': seq<Event>, cache: Option<Ptr>, cache': Option<Ptr>, g: Gen) {
    && g.addr in Held(log) && cache != Some(g.addr)
    && ((log' == log + [Freed(g.addr)] && Held(log') == Held(log) - {g.addr} && cache' == cache)
        || (cache' == Some(g.addr) && g.addr in Held(log')
            && match cache
               case None => log' == log
               case Some(c) => log' == log + [Freed(c)] && c in Held(log) && Held(log') == Held(log) - {c}))
  }

  /** The kept buffer is exchanged for another one. */
  lemma Recache(vars: seq<Var>, cache: Option<Ptr>, home: map<Ptr, Place>, home': map<Ptr, Place>, b: Ptr)
    requires Table(vars) && Placed(vars, cache, home) && b !in home
    requires home' == (if cache.Some? then home - {cache.value} else home)[b := Cached]
    ensures Placed(vars, Some(b), home')
  {
    forall k: int, n: nat ensures GenOk(vars, home', k, n) {
      assert GenOk(vars, home, k, n);
    }
    forall p | p in home' ensures BufOk(vars, Some(b), p, home'[p]) {
      if p != b { assert BufOk(vars, cache, p, home[p]); }
    }
  }

  /** A change to the stack that leaves the buffers alone. */
  lemma SameBuffers(vars: seq<Var>, vars': seq<Var>, cache: Option<Ptr>, home: map<Ptr, Place>)
    requires Table(vars) && Table(vars') && Placed(vars, cache, home)
    requires forall k :: |Stack(vars', k)| == |Stack(vars, k)|
    requires forall k: int, n: nat :: n < |Stack(vars, k)| ==> Stack(vars', k)[n].addr == Stack(vars, k)[n].addr
    ensures Placed(vars', cache, home)
  {
    forall k: int, n: nat ensures GenOk(vars', home, k, n) {
      assert GenOk(vars, home, k, n);
    }
    forall p | p in home ensures BufOk(vars', cache, p, home[p]) {
      assert BufOk(vars, cache, p, home[p]);
    }
  }

  /** The extents after one axis is set; the rank grows to cover it. */
  function WithDim(dims: seq<int>, axis: nat, extent: int): (r: seq<int>)
    ensures |r| == if axis < |dims| then |dims| else axis + 1
    ensures r[axis] == extent
    ensures forall a :: 0 <= a < |r| && a != axis ==> r[a] == if a < |dims| then dims[a] else 0
  {
    (if axis < |dims| then dims else dims + seq(axis + 1 - |dims|, _ => 0))[axis := extent]
  }

  function WithTop(s: seq<Gen>, g: Gen): seq<Gen>
    requires s != []
  {
    s[|s| - 1 := g]
  }

  lemma FindPrefix(vars: seq<Var>, i: nat, key: int)
    requires i < |vars| && FindVar(vars[..i], key) == -1 && vars[i].key == key
    ensures FindVar(vars, key) == i
    decreases |vars|
  {
    if i < |vars| - 1 {
      var vs := vars[..|vars| - 1];
      assert vs[..i] == vars[..i];
      FindPrefix(vs, i, key);
    } else {
      assert vars[..|vars| - 1] == vars[..i];
    }
  }

  class Storage {
    var vars: seq<Var>
    var last: int                // the entry found last, -1 for none
    var cacheBuf: Option<Ptr>
    var cacheKey: int
    var cacheLen: int
    var log: seq<Event>               // the calls of the allocator so far
    ghost var home: map<Ptr, Place>   // where the buffers it still owes are

    ghost predicate Valid()
      reads this
    {
      Table(vars) && -1 <= last < |vars| && Placed(vars, cacheBuf, home) && Paired()
    }

    ghost predicate Paired()
      reads this`log, this`home
    {
      WellPaired(log) && Held(log) == home.Keys
    }

    /** The generations of a key, oldest first. */
    ghost function Gens(key: int): seq<Gen>
      requires Valid()
      reads this
    {
      Stack(vars, key)
    }

    constructor ()
      ensures Valid() && log == [] && forall k :: Gens(k) == []
    {
      vars, last, cacheBuf, cacheKey, cacheLen, log, home := [], -1, None, 0, 0, [], map[];
    }

    /** pli_alloc, which hands out p. */
    method Obtain(p: Ptr)
      requires Paired() && p !in home
      modifies this`log
      ensures log == old(log) + [Got(p)] && WellPaired(log) && Held(log) == home.Keys + {p}
    {
      Logged(log, Got(p));
      log := log + [Got(p)];
    }

    /** pli_free. */
    method Release(p: Ptr)
      requires Paired() && p in home
      modifies this`log, this`home
      ensures log == old(log) + [Freed(p)] && home == old(home) - {p} && Paired()
    {
      Logged(log, Freed(p));
      log, home := log + [Freed(p)], home - {p};
    }

    /** ctlFind: behind the lookup cache a linear search, and a new entry if asked for. */
    method Find(key: int, create: bool) returns (i: int)
      requires Valid()
      modifies this`vars, this`last
      ensures Valid() && -1 <= i < |vars| && (i >= 0 ==> vars[i].key == key)
      ensures i == -1 ==> !create && Gens(key) == []
      ensures forall k :: Gens(k) == old(Gens(k))
    {
      if last >= 0 && |vars| > 0 && vars[last].key == key { return last; }
      i := 0;
      while i < |vars|
        invariant 0 <= i <= |vars| && FindVar(vars[..i], key) == -1
      {
        assert vars[..i + 1][..i] == vars[..i];
        if vars[i].key == key {
          FindPrefix(vars, i, key);
          last := i;
          return;
        }
        i := i + 1;
      }
      assert vars[..i] == vars;
      if !create { return -1; }
      Append(key);
      i := |vars| - 1;
    }

    method Append(key: int)
      requires Valid() && FindVar(vars, key) == -1
      modifies this`vars, this`last
      ensures Valid() && |vars| > 0 && vars[|vars| - 1].key == key
      ensures forall k :: Gens(k) == old(Gens(k))
    {
      ghost var vars0 := vars;
      TableAppend(vars, Var(key, [], 0));
      vars := vars + [Var(key, [], 0)];
      SameBuffers(vars0, vars, cacheBuf, home);
      last := |vars| - 1;
    }

    /** ctlGrow: room for one generation more. */
    method Grow(i: nat)
      requires Valid() && i < |vars|
      modifies this`vars
      ensures Valid() && |vars| == old(|vars|) && vars[i].key == old(vars[i].key) && vars[i].depth < |vars[i].slots|
      ensures forall k :: Gens(k) == old(Gens(k))
    {
      var v := vars[i];
      if v.depth < |v.slots| { return; }
      var ncap := if |v.slots| > 0 then 2 * |v.slots| else 4;
      var slots := v.slots + seq(ncap - |v.slots|, _ => NOGEN);
      ghost var vars0 := vars;
      assert slots[..v.depth] == v.slots[..v.depth];
      TableUpdate(vars, i, v.(slots := slots));
      FindIs(vars, i);
      vars := vars[i := v.(slots := slots)];
      SameBuffers(vars0, vars, cacheBuf, home);
    }

    /** The new generation goes on top. */
    method Push(i: nat, g: Gen, ghost cache: Option<Ptr>)
      requires Table(vars) && Placed(vars, cache, home) && -1 <= last < |vars|
      requires WellPaired(log) && Held(log) == home.Keys + {g.addr}
      requires i < |vars| && vars[i].depth < |vars[i].slots|
      requires (g.addr !in home && cacheBuf == cache) || (cache == Some(g.addr) && cacheBuf == None)
      modifies this`vars, this`home
      ensures Valid() && Gens(old(vars[i].key)) == old(Stack(vars, vars[i].key)) + [g]
      ensures OthersSame(old(vars), vars, old(vars[i].key))
    {
      var v := vars[i];
      ghost var vars0 := vars;
      var v' := v.(slots := v.slots[v.depth := g], depth := v.depth + 1);
      FindIs(vars, i);
      TableUpdate(vars, i, v');
      vars := vars[i := v'];
      assert Stack(vars, v.key) == Stack(vars0, v.key) + [g];
      PushPlaced(vars0, vars, cache, cacheBuf, home, v.key, g);
      home := home[g.addr := Live(v.key, |Stack(vars0, v.key)|)];
    }

    /** pli_ctl_alloc: `fresh_` is what the system hands out if it is asked.  A buffer
        kept from an earlier FREE serves as well: it is no generation's. */
    method Alloc(key: int, n: int, fresh_: Ptr) returns (addr: Ptr)
      requires Valid() && fresh_ !in Held(log)
      modifies this
      ensures if old(cacheBuf.Some? && cacheKey == key && cacheLen == n)
        then old(cacheBuf) == Some(addr) && cacheBuf == None && log == old(log)
        else addr == fresh_ && cacheBuf == old(cacheBuf) && log == old(log) + [Got(addr)]
      ensures Valid() && Gens(key) == old(Gens(key)) + [Gen(addr, n, [])]
      ensures forall k :: k != key ==> Gens(k) == old(Gens(k))
    {
      var i := Find(key, true);
      Grow(i);
      ghost var cache := cacheBuf;
      addr := TakeBuffer(key, n, fresh_);
      Push(i, Gen(addr, n, []), cache);
    }

    /** The kept buffer, if it fits, or a new one. */
    method TakeBuffer(key: int, n: int, fresh_: Ptr) returns (addr: Ptr)
      requires Paired() && fresh_ !in home && (cacheBuf.Some? ==> cacheBuf.value in home)
      modifies this`cacheBuf, this`log
      ensures if old(cacheBuf.Some? && cacheKey == key && cacheLen == n)
        then old(cacheBuf) == Some(addr) && cacheBuf == None && log == old(log)
        else addr == fresh_ && cacheBuf == old(cacheBuf) && log == old(log) + [Got(addr)]
      ensures WellPaired(log) && Held(log) == home.Keys + {addr}
    {
      if cacheBuf.Some? && cacheKey == key && cacheLen == n {
        addr := cacheBuf.value;
        cacheBuf := None;
      } else {
        addr := fresh_;
        Obtain(addr);
      }
    }

    /** pli_ctl_alloc_dims. */
    method AllocDims(key: int, n: int, rank: int, fresh_: Ptr) returns (addr: Ptr)
      requires Valid() && fresh_ !in Held(log)
      modifies this
      ensures Valid() && addr == fresh_ && log == old(log) + [Got(addr)] && cacheBuf == old(cacheBuf)
      ensures Gens(key) == old(Gens(key)) + [Gen(addr, n, seq(if rank < 0 then 0 else rank, _ => 0))]
      ensures forall k :: k != key ==> Gens(k) == old(Gens(k))
    {
      var i := Find(key, true);
      Grow(i);
      addr := fresh_;
      Obtain(addr);
      Push(i, Gen(addr, n, seq(if rank < 0 then 0 else rank, _ => 0)), cacheBuf);
    }

    /** pli_ctl_set_dim. */
    method SetDim(key: int, axis: int, extent: int)
      requires Valid()
      modifies this
      ensures Valid() && log == old(log) && cacheBuf == old(cacheBuf)
      ensures Gens(key) == if old(Gens(key)) == [] || axis < 0 then old(Gens(key))
        else WithTop(old(Gens(key)), (old(Gens(key))[|old(Gens(key))| - 1]).(dims := WithDim(old(Gens(key))[|old(Gens(key))| - 1].dims, axis, extent)))
      ensures forall k :: k != key ==> Gens(k) == old(Gens(k))
    {
      var i := Find(key, false);
      if i < 0 { return; }
      FindIs(vars, i);
      if vars[i].depth <= 0 || axis < 0 { return; }
      var v, d := vars[i], vars[i].depth - 1;
      var g := v.slots[d].(dims := WithDim(v.slots[d].dims, axis, extent));
      ReplaceTop(i, g);
    }

    method ReplaceTop(i: nat, g: Gen)
      requires Valid() && i < |vars| && vars[i].depth > 0 && g.addr == vars[i].slots[vars[i].depth - 1].addr
      modifies this`vars
      ensures Valid() && Gens(old(vars[i].key)) == WithTop(old(Stack(vars, vars[i].key)), g)
      ensures OthersSame(old(vars), vars, old(vars[i].key))
    {
      var v := vars[i];
      ghost var vars0 := vars;
      FindIs(vars, i);
      var v' := v.(slots := v.slots[v.depth - 1 := g]);
      TableUpdate(vars, i, v');
      vars := vars[i := v'];
      assert Stack(vars, v.key) == WithTop(Stack(vars0, v.key), g);
      forall k ensures |Stack(vars, k)| == |Stack(vars0, k)| { if k != v.key { assert Stack(vars, k) == Stack(vars0, k); } }
      SameBuffers(vars0, vars, cacheBuf, home);
    }

    /** pli_ctl_free_addr: the top generation goes; at most one buffer is given back,
        and it is held nowhere afterwards.  The answer is the new top's address, 0 when
        there is none. */
    method FreeAddr(key: int) returns (ok: bool, top: Ptr)
      requires Valid()
      modifies this
      ensures Valid() && ok == (old(Gens(key)) != [])
      ensures ok ==> Gens(key) == old(Gens(key))[..|old(Gens(key))| - 1]
      ensures !ok ==> Gens(key) == [] && log == old(log) && cacheBuf == old(cacheBuf)
      ensures forall k :: k != key ==> Gens(k) == old(Gens(k))
      ensures top == if ok && Gens(key) != [] then Gens(key)[|Gens(key)| - 1].addr else 0
      ensures ok ==> Disposed(old(log), log, old(cacheBuf), cacheBuf, old(Gens(key))[|old(Gens(key))| - 1])
    {
      var i := Find(key, false);
      if i < 0 { return false, 0; }
      FindIs(vars, i);
      if vars[i].depth <= 0 { return false, 0; }
      ok := true;
      top := FreeTop(i);
    }

    method FreeTop(i: nat) returns (top: Ptr)
      requires Valid() && i < |vars| && vars[i].depth > 0 && Stack(vars, vars[i].key) == vars[i].slots[..vars[i].depth]
      modifies this
      ensures Valid()
      ensures var key, gens := old(vars[i].key), old(vars[i].slots[..vars[i].depth]);
        && Gens(key) == gens[..|gens| - 1] && OthersSame(old(vars), vars, key)
        && top == (if Gens(key) != [] then Gens(key)[|Gens(key)| - 1].addr else 0)
        && Disposed(old(log), log, old(cacheBuf), cacheBuf, gens[|gens| - 1])
    {
      ghost var gens := vars[i].slots[..vars[i].depth];
      Pop(i);
      FindIs(vars, i);
      top := if vars[i].depth > 0 then vars[i].slots[vars[i].depth - 1].addr else 0;
      assert Gens(vars[i].key) == gens[..|gens| - 1];
    }

    /** The top generation's buffer goes to the cache, after the one there has been
        given back, or is given back itself. */
    method Pop(i: nat)
      requires Valid() && i < |vars| && vars[i].depth > 0
      modifies this`vars, this`cacheBuf, this`cacheKey, this`cacheLen, this`log, this`home
      ensures Valid() && i < |vars| && vars[i].key == old(vars[i].key)
      ensures Gens(vars[i].key) == old(Stack(vars, vars[i].key))[..old(vars[i].depth) - 1]
      ensures OthersSame(old(vars), vars, vars[i].key)
      ensures Disposed(old(log), log, old(cacheBuf), cacheBuf, old(vars[i].slots[vars[i].depth - 1]))
    {
      var g := TakeTop(i);
      Dispose(vars[i].key, g);
    }

    method Dispose(key: int, g: Gen)
      requires Table(vars) && -1 <= last < |vars| && Paired() && Removed(vars, cacheBuf, home, g.addr)
      modifies this`cacheBuf, this`cacheKey, this`cacheLen, this`log, this`home
      ensures Valid() && Disposed(old(log), log, old(cacheBuf), cacheBuf, g)
    {
      if g.dims == [] {
        if cacheBuf.Some? {
          if cacheKey == key && cacheLen == g.len {
            Release(g.addr);
            return;
          }
          Release(cacheBuf.value);
        }
        HeldMoved(log, home, g.addr);
        home := home[g.addr := Cached];
        cacheKey, cacheBuf, cacheLen := key, Some(g.addr), g.len;
      } else {
        Release(g.addr);
      }
    }

    /** The top slot is emptied; its buffer is still to be disposed of. */
    method TakeTop(i: nat) returns (g: Gen)
      requires Valid() && i < |vars| && vars[i].depth > 0
      modifies this`vars
      ensures i < |vars| && vars[i].key == old(vars[i].key) && g == old(vars[i].slots[vars[i].depth - 1])
      ensures Table(vars) && last < |vars|
      ensures Stack(vars, vars[i].key) == old(Stack(vars, vars[i].key))[..old(vars[i].depth) - 1]
      ensures OthersSame(old(vars), vars, vars[i].key)
      ensures Removed(vars, cacheBuf, home, g.addr)
    {
      var v := vars[i];
      ghost var vars0 := vars;
      FindIs(vars, i);
      g := v.slots[v.depth - 1];
      var v' := v.(slots := v.slots[v.depth - 1 := NOGEN], depth := v.depth - 1);
      TableUpdate(vars, i, v');
      vars := vars[i := v'];
      assert Stack(vars0, v.key) == Stack(vars, v.key) + [g];
      PopRemoved(vars0, vars, cacheBuf, home, v.key, g);
    }

    /** pli_ctl_addr, pli_ctl_len, pli_ctl_rank and pli_ctl_depth in one answer. */
    method Query(key: int) returns (addr: Ptr, len: int, rank: nat, depth: nat)
      requires Valid()
      modifies this`vars, this`last
      ensures Valid() && forall k :: Gens(k) == old(Gens(k))
      ensures depth == |Gens(key)|
      ensures Gens(key) == [] ==> addr == 0 && len == 0 && rank == 0
      ensures Gens(key) != [] ==> var g := Gens(key)[depth - 1]; addr == g.addr && len == g.len && rank == |g.dims|
    {
      addr, len, rank, depth := 0, 0, 0, 0;
      var i := Find(key, false);
      if i >= 0 {
        FindIs(vars, i);
        if vars[i].depth > 0 {
          var g := vars[i].slots[vars[i].depth - 1];
          addr, len, rank, depth := g.addr, g.len, |g.dims|, vars[i].depth;
        }
      }
    }

    /** pli_ctl_extent. */
    method Extent(key: int, axis: int) returns (e: int)
      requires Valid()
      modifies this`vars, this`last
      ensures Valid() && forall k :: Gens(k) == old(Gens(k))
      ensures e == if Gens(key) == [] then 0
        else (var g := Gens(key)[|Gens(key)| - 1]; if 0 <= axis < |g.dims| then g.dims[axis] else 0)
    {
      e := 0;
      var i := Find(key, false);
      if i >= 0 {
        FindIs(vars, i);
        if vars[i].depth > 0 {
          var g := vars[i].slots[vars[i].depth - 1];
          if 0 <= axis < |g.dims| { e := g.dims[axis]; }
        }
      }
    }
  }
}
