/**
 The whole-program effect analysis (src/irgen_decisions.cpp, analyzeEffects).

 Given the facts found in each body and the calls each body makes, the analysis
 marks the cycles, closes the facts under calls in a bounded number of in-place
 rounds, and reports what may be promised about each procedure.
 */
module Effects {
  import opened CallGraph
  import Cycles

  datatype Bits = Bits(
    readsOther: bool, writesOther: bool, readsArg: bool, writesArg: bool,
    opaque_: bool, io: bool, hasOnUnit: bool, nameEscapes: bool,
    mayUnwind: bool, mayNotReturn: bool, raiseKeys: set<int>)

  datatype MemEffect = Unknown | Read | ArgRead | ArgReadWrite | NoAccess

  datatype ProcEffects = ProcEffects(effect: MemEffect, nounwind: bool, willReturn: bool)

  /** What a call to a procedure with the facts cb adds to b: the callee's argument
      accesses become accesses to what the call hands over. */
  function Absorb(b: Bits, cb: Bits, r: Reach): Bits {
    Bits(b.readsOther || cb.readsOther || (cb.readsArg && r == Other),
         b.writesOther || cb.writesOther || (cb.writesArg && r == Other),
         b.readsArg || (cb.readsArg && r == Arg),
         b.writesArg || (cb.writesArg && r == Arg),
         b.opaque_ || cb.opaque_, b.io, b.hasOnUnit, b.nameEscapes,
         b.mayUnwind || cb.mayUnwind, b.mayNotReturn || cb.mayNotReturn, b.raiseKeys + cb.raiseKeys)
  }

  /** A condition key that some handler of the unit covers; key 0 is ON ERROR. */
  predicate Covered(keys: set<int>, k: int) { k in keys || 0 in keys }

  predicate Handled(keys: set<int>, raised: set<int>) {
    exists k :: k in raised && Covered(keys, k)
  }

  /** The handler may write anything and may unwind. */
  function Dispatch(keys: set<int>, b: Bits): Bits {
    if Handled(keys, b.raiseKeys) then b.(writesOther := true, mayUnwind := true) else b
  }

  // ---------------------------------------------------------------------
  // A round as a function of the facts
  // ---------------------------------------------------------------------

  /** The facts of a procedure after its first i calls. */
  function AbsorbCalls(b: Bits, cs: seq<Call>, i: nat, bits: seq<Bits>): Bits
    requires i <= |cs| && forall j :: 0 <= j < |cs| ==> cs[j].callee < |bits|
  {
    if i == 0 then b else Absorb(AbsorbCalls(b, cs, i - 1, bits), bits[cs[i - 1].callee], cs[i - 1].reach)
  }

  /** After the first p procedures of a round. */
  function Pass(calls: Calls, bits: seq<Bits>, p: nat): (r: seq<Bits>)
    requires Closed(calls) && |bits| == |calls| && p <= |calls|
    ensures |r| == |bits|
  {
    if p == 0 then bits
    else
      var b := Pass(calls, bits, p - 1);
      b[p - 1 := AbsorbCalls(b[p - 1], calls[p - 1], |calls[p - 1]|, b)]
  }

  function Round(calls: Calls, keys: set<int>, bits: seq<Bits>): (r: seq<Bits>)
    requires Closed(calls) && |bits| == |calls|
    ensures |r| == |bits|
  {
    var b := Pass(calls, bits, |calls|);
    seq(|b|, p requires 0 <= p < |b| => Dispatch(keys, b[p]))
  }

  function Rounds(calls: Calls, keys: set<int>, bits: seq<Bits>, r: nat): (b: seq<Bits>)
    requires Closed(calls) && |bits| == |calls|
    ensures |b| == |bits|
  {
    if r == 0 then bits else Round(calls, keys, Rounds(calls, keys, bits, r - 1))
  }

  // ---------------------------------------------------------------------
  // The order of the facts
  // ---------------------------------------------------------------------

  predicate Leq(a: Bits, b: Bits) {
    && (a.readsOther ==> b.readsOther) && (a.writesOther ==> b.writesOther)
    && (a.readsArg ==> b.readsArg) && (a.writesArg ==> b.writesArg)
    && (a.opaque_ ==> b.opaque_) && a.io == b.io && a.hasOnUnit == b.hasOnUnit && a.nameEscapes == b.nameEscapes
    && (a.mayUnwind ==> b.mayUnwind) && (a.mayNotReturn ==> b.mayNotReturn) && a.raiseKeys <= b.raiseKeys
  }

  ghost predicate AllLeq(a: seq<Bits>, b: seq<Bits>) {
    |a| == |b| && forall p :: 0 <= p < |a| ==> Leq(a[p], b[p])
  }

  lemma LeqAntisym(a: Bits, b: Bits)
    requires Leq(a, b) && Leq(b, a)
    ensures a == b
  {
  }

  lemma AbsorbGrows(b: Bits, cb: Bits, r: Reach)
    ensures Leq(b, Absorb(b, cb, r))
  {
  }

  lemma LeqTrans(a: Bits, b: Bits, c: Bits)
    requires Leq(a, b) && Leq(b, c)
    ensures Leq(a, c)
  {
  }

  lemma {:induction false} AbsorbCallsGrows(b: Bits, cs: seq<Call>, i: nat, bits: seq<Bits>)
    requires i <= |cs| && forall j :: 0 <= j < |cs| ==> cs[j].callee < |bits|
    ensures Leq(b, AbsorbCalls(b, cs, i, bits))
  {
    if i > 0 {
      AbsorbCallsGrows(b, cs, i - 1, bits);
      var b1 := AbsorbCalls(b, cs, i - 1, bits);
      AbsorbGrows(b1, bits[cs[i - 1].callee], cs[i - 1].reach);
      LeqTrans(b, b1, AbsorbCalls(b, cs, i, bits));
    }
  }

  lemma {:induction false} PassGrows(calls: Calls, bits: seq<Bits>, p: nat)
    requires Closed(calls) && |bits| == |calls| && p <= |calls|
    ensures AllLeq(bits, Pass(calls, bits, p))
  {
    if p > 0 {
      PassGrows(calls, bits, p - 1);
      var b := Pass(calls, bits, p - 1);
      AbsorbCallsGrows(b[p - 1], calls[p - 1], |calls[p - 1]|, b);
    }
  }

  lemma RoundGrows(calls: Calls, keys: set<int>, bits: seq<Bits>)
    requires Closed(calls) && |bits| == |calls|
    ensures AllLeq(bits, Round(calls, keys, bits))
  {
    PassGrows(calls, bits, |calls|);
  }

  // ---------------------------------------------------------------------
  // The facts that calls carry unchanged
  // ---------------------------------------------------------------------

  datatype Fact = IsOpaque | NoReturn | Unwinds | Raises(k: int) | WritesOther | ReadsOther

  predicate Has(b: Bits, f: Fact) {
    match f
    case IsOpaque => b.opaque_
    case NoReturn => b.mayNotReturn
    case Unwinds => b.mayUnwind
    case Raises(k) => k in b.raiseKeys
    case WritesOther => b.writesOther
    case ReadsOther => b.readsOther
  }

  /** Facts with no source but the bodies. */
  predicate Carried(f: Fact) { f.IsOpaque? || f.NoReturn? || f.Raises? }

  lemma AbsorbCarries(b: Bits, cb: Bits, r: Reach, f: Fact)
    ensures Has(b, f) || Has(cb, f) ==> Has(Absorb(b, cb, r), f)
    ensures (Carried(f) || f.Unwinds?) && Has(Absorb(b, cb, r), f) ==> Has(b, f) || Has(cb, f)
  {
  }

  /** One of the first i callees has the fact. */
  ghost predicate CalleeHas(cs: seq<Call>, i: nat, bits: seq<Bits>, f: Fact)
    requires i <= |cs| && forall j :: 0 <= j < |cs| ==> cs[j].callee < |bits|
  {
    exists j :: 0 <= j < i && Has(bits[cs[j].callee], f)
  }

  lemma {:induction false} AbsorbCallsCarries(b: Bits, cs: seq<Call>, i: nat, bits: seq<Bits>, f: Fact)
    requires i <= |cs| && forall j :: 0 <= j < |cs| ==> cs[j].callee < |bits|
    ensures Has(b, f) || CalleeHas(cs, i, bits, f) ==> Has(AbsorbCalls(b, cs, i, bits), f)
    ensures (Carried(f) || f.Unwinds?) && Has(AbsorbCalls(b, cs, i, bits), f) ==> Has(b, f) || CalleeHas(cs, i, bits, f)
  {
    if i > 0 {
      AbsorbCallsCarries(b, cs, i - 1, bits, f);
      AbsorbCarries(AbsorbCalls(b, cs, i - 1, bits), bits[cs[i - 1].callee], cs[i - 1].reach, f);
      if Has(bits[cs[i - 1].callee], f) { assert CalleeHas(cs, i, bits, f); }
      if CalleeHas(cs, i - 1, bits, f) { assert CalleeHas(cs, i, bits, f); }
    }
  }

  /** A round carries every fact over every call. */
  lemma PassCarries(calls: Calls, bits: seq<Bits>, p: nat, q: nat, f: Fact, n: nat)
    requires Closed(calls) && |bits| == |calls| && Edge(calls, p, q) && q < |calls| && Has(bits[q], f) && p < n <= |calls|
    ensures Has(Pass(calls, bits, n)[p], f)
    decreases n
  {
    if p < n - 1 {
      PassCarries(calls, bits, p, q, f, n - 1);
    } else {
      var b := Pass(calls, bits, p);
      PassGrows(calls, bits, p);
      assert Leq(bits[q], b[q]) && Has(b[q], f);
      AbsorbCallsCarries(b[p], calls[p], |calls[p]|, b, f);
      var j :| 0 <= j < |calls[p]| && calls[p][j].callee == q;
      assert CalleeHas(calls[p], |calls[p]|, b, f);
    }
  }

  lemma RoundCarries(calls: Calls, keys: set<int>, bits: seq<Bits>, p: nat, q: nat, f: Fact)
    requires Closed(calls) && |bits| == |calls| && Edge(calls, p, q) && q < |calls| && Has(bits[q], f)
    ensures Has(Round(calls, keys, bits)[p], f)
  {
    PassCarries(calls, bits, p, q, f, |calls|);
  }

  ghost function Holders(bits: seq<Bits>, f: Fact): (r: set<nat>)
    ensures forall p: nat :: p in r <==> p < |bits| && Has(bits[p], f)
  {
    set p | p in Below(|bits|) && Has(bits[p], f)
  }

  /** After r rounds a fact has travelled at least r calls. */
  lemma {:induction false} RoundsCarry(calls: Calls, keys: set<int>, bits: seq<Bits>, f: Fact, r: nat)
    requires Closed(calls) && |bits| == |calls|
    ensures Within(calls, Holders(bits, f), r) <= Holders(Rounds(calls, keys, bits, r), f)
  {
    if r > 0 {
      RoundsCarry(calls, keys, bits, f, r - 1);
      var b := Rounds(calls, keys, bits, r - 1);
      RoundGrows(calls, keys, b);
      forall p | p in Within(calls, Holders(bits, f), r) ensures p in Holders(Rounds(calls, keys, bits, r), f) {
        if p in Within(calls, Holders(bits, f), r - 1) {
          assert Leq(b[p], Round(calls, keys, b)[p]);
        } else {
          var q :| q in Within(calls, Holders(bits, f), r - 1) && Edge(calls, p, q);
          RoundCarries(calls, keys, b, p, q, f);
        }
      }
    }
  }

  /** The facts are closed under calls. */
  ghost predicate ClosedUnderCalls(calls: Calls, bits: seq<Bits>, f: Fact)
    requires |bits| == |calls|
  {
    forall p: nat, q: nat :: Edge(calls, p, q) && q < |calls| && Has(bits[q], f) ==> Has(bits[p], f)
  }

  lemma {:induction false} ClosedReaches(calls: Calls, bits: seq<Bits>, f: Fact, p: nat, q: nat, k: nat)
    requires Closed(calls) && |bits| == |calls| && ClosedUnderCalls(calls, bits, f)
    requires p < |calls| && q < |calls| && Path(calls, p, q, k) && Has(bits[q], f)
    ensures Has(bits[p], f)
    decreases k
  {
    if k > 0 {
      var m: nat :| Edge(calls, p, m) && Path(calls, m, q, k - 1);
      ClosedReaches(calls, bits, f, m, q, k - 1);
    }
  }

  /** The rounds stopped because nothing changed, or because of the cap. */
  ghost predicate Finished(calls: Calls, keys: set<int>, bits0: seq<Bits>, bits: seq<Bits>, r: nat)
    requires Closed(calls) && |bits0| == |calls|
  {
    && bits == Rounds(calls, keys, bits0, r)
    && 1 <= r <= |calls| + 2 && (r == |calls| + 2 || Round(calls, keys, bits) == bits)
  }

  lemma {:induction false} RoundsGrow(calls: Calls, keys: set<int>, bits: seq<Bits>, r: nat)
    requires Closed(calls) && |bits| == |calls|
    ensures AllLeq(bits, Rounds(calls, keys, bits, r))
  {
    if r > 0 {
      RoundsGrow(calls, keys, bits, r - 1);
      RoundGrows(calls, keys, Rounds(calls, keys, bits, r - 1));
    }
  }

  /** Either way, every fact of a body has reached every procedure that can call
      its way to that body. */
  lemma FinishedCarries(calls: Calls, keys: set<int>, bits0: seq<Bits>, bits: seq<Bits>, r: nat, f: Fact, p: nat, q: nat)
    requires Closed(calls) && |bits0| == |calls| && Finished(calls, keys, bits0, bits, r)
    requires p < |calls| && q < |calls| && Reaches(calls, p, q) && Has(bits0[q], f)
    ensures Has(bits[p], f)
  {
    if r == |calls| + 2 {
      ReachesWithin(calls, Holders(bits0, f), p, q);
      Grows(calls, Holders(bits0, f), |calls|, r);
      RoundsCarry(calls, keys, bits0, f, r);
    } else {
      RoundsGrow(calls, keys, bits0, r);
      assert Leq(bits0[q], bits[q]);
      forall x: nat, y: nat | Edge(calls, x, y) && y < |calls| && Has(bits[y], f) ensures Has(bits[x], f) {
        RoundCarries(calls, keys, bits, x, y, f);
      }
      var k: nat :| Path(calls, p, q, k);
      ClosedReaches(calls, bits, f, p, q, k);
    }
  }

  // ---------------------------------------------------------------------
  // No fact comes from nowhere
  // ---------------------------------------------------------------------

  /** Procedure q has the fact by itself. */
  predicate Source(keys: set<int>, bits0: seq<Bits>, f: Fact, q: nat) {
    q < |bits0| && (Has(bits0[q], f) || (f.Unwinds? && Handled(keys, bits0[q].raiseKeys)))
  }

  ghost predicate Sourced(calls: Calls, keys: set<int>, bits0: seq<Bits>, f: Fact, p: nat) {
    exists q: nat :: Reaches(calls, p, q) && Source(keys, bits0, f, q)
  }

  ghost predicate AllSourced(calls: Calls, keys: set<int>, bits0: seq<Bits>, bits: seq<Bits>, f: Fact) {
    |bits| == |calls| && forall p :: 0 <= p < |bits| && Has(bits[p], f) ==> Sourced(calls, keys, bits0, f, p)
  }

  lemma SourcedByCall(calls: Calls, keys: set<int>, bits0: seq<Bits>, f: Fact, p: nat, m: nat)
    requires Edge(calls, p, m) && Sourced(calls, keys, bits0, f, m)
    ensures Sourced(calls, keys, bits0, f, p)
  {
    var q: nat :| Reaches(calls, m, q) && Source(keys, bits0, f, q);
    ReachesEdge(calls, p, m, q);
  }

  lemma {:induction false} PassSourced(calls: Calls, keys: set<int>, bits0: seq<Bits>, bits: seq<Bits>, f: Fact, n: nat)
    requires Closed(calls) && n <= |calls| && (Carried(f) || f.Unwinds?) && AllSourced(calls, keys, bits0, bits, f)
    ensures AllSourced(calls, keys, bits0, Pass(calls, bits, n), f)
  {
    if n > 0 {
      PassSourced(calls, keys, bits0, bits, f, n - 1);
      var b, cs := Pass(calls, bits, n - 1), calls[n - 1];
      AbsorbCallsCarries(b[n - 1], cs, |cs|, b, f);
      if CalleeHas(cs, |cs|, b, f) {
        var j :| 0 <= j < |cs| && Has(b[cs[j].callee], f);
        assert Edge(calls, n - 1, cs[j].callee);
        SourcedByCall(calls, keys, bits0, f, n - 1, cs[j].callee);
      }
    }
  }

  lemma RoundSourced(calls: Calls, keys: set<int>, bits0: seq<Bits>, bits: seq<Bits>, f: Fact)
    requires Closed(calls) && (Carried(f) || f.Unwinds?) && AllSourced(calls, keys, bits0, bits, f)
    requires forall k :: AllSourced(calls, keys, bits0, bits, Raises(k))
    ensures AllSourced(calls, keys, bits0, Round(calls, keys, bits), f)
  {
    PassSourced(calls, keys, bits0, bits, f, |calls|);
    var b := Pass(calls, bits, |calls|);
    forall p | 0 <= p < |calls| && Has(Dispatch(keys, b[p]), f) ensures Sourced(calls, keys, bits0, f, p) {
      if !Has(b[p], f) {
        var k :| k in b[p].raiseKeys && Covered(keys, k);
        PassSourced(calls, keys, bits0, bits, Raises(k), |calls|);
        assert Has(b[p], Raises(k));
        var q: nat :| Reaches(calls, p, q) && Source(keys, bits0, Raises(k), q);
        assert Source(keys, bits0, f, q);
      }
    }
  }

  lemma {:induction false} RoundsSourced(calls: Calls, keys: set<int>, bits0: seq<Bits>, f: Fact, r: nat)
    requires Closed(calls) && |bits0| == |calls| && (Carried(f) || f.Unwinds?)
    ensures AllSourced(calls, keys, bits0, Rounds(calls, keys, bits0, r), f)
    decreases r
  {
    if r == 0 {
      forall p | 0 <= p < |calls| && Has(bits0[p], f) ensures Sourced(calls, keys, bits0, f, p) {
        ReachesSelf(calls, p);
        assert Source(keys, bits0, f, p);
      }
    } else {
      RoundsSourced(calls, keys, bits0, f, r - 1);
      forall k ensures AllSourced(calls, keys, bits0, Rounds(calls, keys, bits0, r - 1), Raises(k)) {
        RoundsSourced(calls, keys, bits0, Raises(k), r - 1);
      }
      RoundSourced(calls, keys, bits0, Rounds(calls, keys, bits0, r - 1), f);
    }
  }

  /** After the last round a procedure has a fact exactly if it can call its way to
      a procedure that has it by itself. */
  lemma FinishedExactly(calls: Calls, keys: set<int>, bits0: seq<Bits>, bits: seq<Bits>, r: nat, f: Fact, p: nat)
    requires Closed(calls) && |bits0| == |calls| && Finished(calls, keys, bits0, bits, r)
    requires p < |calls| && (Carried(f) || f.Unwinds?)
    ensures Has(bits[p], f) <==> Sourced(calls, keys, bits0, f, p)
  {
    RoundsSourced(calls, keys, bits0, f, r);
    if Sourced(calls, keys, bits0, f, p) {
      var q: nat :| Reaches(calls, p, q) && Source(keys, bits0, f, q);
      if Has(bits0[q], f) {
        FinishedCarries(calls, keys, bits0, bits, r, f, p, q);
      } else {
        HandledUnwinds(calls, keys, bits0, bits, r, p, q);
      }
    }
  }

  /** A procedure that can call its way to a raiser of a handled condition may
      unwind and may write anything. */
  lemma HandledUnwinds(calls: Calls, keys: set<int>, bits0: seq<Bits>, bits: seq<Bits>, r: nat, p: nat, q: nat)
    requires Closed(calls) && |bits0| == |calls| && Finished(calls, keys, bits0, bits, r)
    requires p < |calls| && q < |calls| && Reaches(calls, p, q) && Handled(keys, bits0[q].raiseKeys)
    ensures bits[p].mayUnwind && bits[p].writesOther
  {
    var k :| k in bits0[q].raiseKeys && Covered(keys, k);
    FinishedCarries(calls, keys, bits0, bits, r, Raises(k), p, q);
    var b := Pass(calls, Rounds(calls, keys, bits0, r - 1), |calls|);
    assert bits[p] == Dispatch(keys, b[p]) && k in b[p].raiseKeys;
  }

  /** When a round changes nothing, every fact is closed under calls and handlers:
      the argument facts, translated by what each call hands over, included. */
  lemma StableIsClosed(calls: Calls, keys: set<int>, bits: seq<Bits>, p: nat, i: nat)
    requires Closed(calls) && |bits| == |calls| && Round(calls, keys, bits) == bits
    requires p < |calls| && i < |calls[p]|
    ensures Leq(Absorb(bits[p], bits[calls[p][i].callee], calls[p][i].reach), bits[p])
    ensures Handled(keys, bits[p].raiseKeys) ==> bits[p].writesOther && bits[p].mayUnwind
  {
    ClosedAfterRound(calls, keys, bits, p, i);
    RoundAt(calls, keys, bits, p);
    PassGrows(calls, bits, |calls|);
    assert bits[p] == Dispatch(keys, Pass(calls, bits, |calls|)[p]);
  }

  lemma RoundAt(calls: Calls, keys: set<int>, bits: seq<Bits>, q: nat)
    requires Closed(calls) && |bits| == |calls| && q < |calls|
    ensures Round(calls, keys, bits)[q] == Dispatch(keys, Pass(calls, bits, |calls|)[q])
    ensures Leq(Pass(calls, bits, |calls|)[q], Round(calls, keys, bits)[q])
  {
    DispatchGrows(keys, Pass(calls, bits, |calls|)[q]);
  }

  /** A round takes over what its start says about every callee. */
  lemma ClosedAfterRound(calls: Calls, keys: set<int>, bits: seq<Bits>, p: nat, i: nat)
    requires Closed(calls) && |bits| == |calls| && p < |calls| && i < |calls[p]|
    ensures Leq(Absorb(bits[p], bits[calls[p][i].callee], calls[p][i].reach), Round(calls, keys, bits)[p])
  {
    var b, c, r := Pass(calls, bits, p), calls[p][i].callee, calls[p][i].reach;
    var b1 := AbsorbCalls(b[p], calls[p], |calls[p]|, b);
    PassGrows(calls, bits, p);
    StepTakesOver(bits, b, calls[p], p, i);
    assert Pass(calls, bits, p + 1)[p] == b1;
    PassOnwards(calls, bits, p, p + 1, |calls|);
    RoundAt(calls, keys, bits, p);
    LeqTrans(Absorb(bits[p], bits[c], r), b1, Round(calls, keys, bits)[p]);
  }

  lemma StepTakesOver(a: seq<Bits>, b: seq<Bits>, cs: seq<Call>, p: nat, i: nat)
    requires AllLeq(a, b) && p < |a| && i < |cs| && forall j :: 0 <= j < |cs| ==> cs[j].callee < |a|
    ensures Leq(Absorb(a[p], a[cs[i].callee], cs[i].reach), AbsorbCalls(b[p], cs, |cs|, b))
  {
    var c, r := cs[i].callee, cs[i].reach;
    var x, y := Absorb(a[p], a[c], r), Absorb(b[p], b[c], r);
    AbsorbMono(a[p], b[p], a[c], b[c], r);
    AbsorbCallsAbove(b[p], cs, |cs|, i, b);
    LeqTrans(x, y, AbsorbCalls(b[p], cs, |cs|, b));
  }

  lemma {:induction false} PassOnwards(calls: Calls, bits: seq<Bits>, p: nat, m: nat, n: nat)
    requires Closed(calls) && |bits| == |calls| && p < m <= n <= |calls|
    ensures Pass(calls, bits, n)[p] == Pass(calls, bits, m)[p]
    decreases n
  {
    if m < n { PassOnwards(calls, bits, p, m, n - 1); }
  }

  lemma DispatchGrows(keys: set<int>, b: Bits)
    ensures Leq(b, Dispatch(keys, b))
  {
  }

  lemma AbsorbMono(b: Bits, b': Bits, cb: Bits, cb': Bits, r: Reach)
    requires Leq(b, b') && Leq(cb, cb')
    ensures Leq(Absorb(b, cb, r), Absorb(b', cb', r))
  {
  }

  lemma {:induction false} AbsorbCallsAbove(b: Bits, cs: seq<Call>, n: nat, i: nat, bits: seq<Bits>)
    requires i < n <= |cs| && forall j :: 0 <= j < |cs| ==> cs[j].callee < |bits|
    ensures Leq(Absorb(b, bits[cs[i].callee], cs[i].reach), AbsorbCalls(b, cs, n, bits))
    decreases n
  {
    var b1 := AbsorbCalls(b, cs, n - 1, bits);
    if i == n - 1 {
      AbsorbCallsGrows(b, cs, n - 1, bits);
      AbsorbMono(b, b1, bits[cs[i].callee], bits[cs[i].callee], cs[i].reach);
    } else {
      AbsorbCallsAbove(b, cs, n - 1, i, bits);
      AbsorbGrows(b1, bits[cs[n - 1].callee], cs[n - 1].reach);
      LeqTrans(Absorb(b, bits[cs[i].callee], cs[i].reach), b1, AbsorbCalls(b, cs, n, bits));
    }
  }

  // ---------------------------------------------------------------------
  // The analysis
  // ---------------------------------------------------------------------

  lemma PassAhead(calls: Calls, bits: seq<Bits>, n: nat, q: nat)
    requires Closed(calls) && |bits| == |calls| && n <= q < |calls|
    ensures Pass(calls, bits, n)[q] == bits[q]
    decreases n
  {
    if n > 0 { PassAhead(calls, bits, n - 1, q); }
  }

  /** The calls of one procedure. */
  method UpdateOne(cs: seq<Call>, self: nat, bits: array<Bits>) returns (next: Bits)
    requires self < bits.Length && forall j :: 0 <= j < |cs| ==> cs[j].callee < bits.Length
    ensures next == AbsorbCalls(bits[self], cs, |cs|, bits[..])
  {
    next := bits[self];
    for i := 0 to |cs|
      invariant next == AbsorbCalls(bits[self], cs, i, bits[..])
    {
      next := Absorb(next, bits[cs[i].callee], cs[i].reach);
    }
  }

  /** The first half of a round, in place. */
  method PassInPlace(calls: Calls, bits: array<Bits>) returns (changed: bool)
    requires Closed(calls) && bits.Length == |calls|
    modifies bits
    ensures bits[..] == Pass(calls, old(bits[..]), |calls|)
    ensures changed <==> bits[..] != old(bits[..])
  {
    changed := false;
    ghost var bits0 := bits[..];
    for p := 0 to |calls|
      invariant bits[..] == Pass(calls, bits0, p)
      invariant changed <==> bits[..] != bits0
    {
      var next := UpdateOne(calls[p], p, bits);
      PassAhead(calls, bits0, p, p);
      ghost var before := bits[..];
      if next != bits[p] {
        bits[p] := next;
        assert bits[..] == before[p := next];
        assert bits[..][p] != bits0[p];
        changed := true;
      } else {
        assert before == before[p := next];
      }
    }
  }

  /** The second half: what the handlers add. */
  method DispatchInPlace(keys: set<int>, bits: array<Bits>) returns (changed: bool)
    modifies bits
    ensures forall p :: 0 <= p < bits.Length ==> bits[p] == Dispatch(keys, old(bits[p]))
    ensures changed <==> bits[..] != old(bits[..])
  {
    changed := false;
    ghost var bits0 := bits[..];
    for p := 0 to bits.Length
      invariant forall q :: 0 <= q < p ==> bits[q] == Dispatch(keys, bits0[q])
      invariant forall q :: p <= q < bits.Length ==> bits[q] == bits0[q]
      invariant changed <==> bits[..] != bits0
    {
      ghost var before := bits[..];
      var next, new_ := DispatchOne(keys, bits[p]);
      bits[p] := next;
      assert bits[..] == before[p := next];
      if new_ {
        assert bits[..][p] != bits0[p];
        changed := true;
      } else {
        assert before == before[p := next];
      }
    }
  }

  method DispatchOne(keys: set<int>, b: Bits) returns (next: Bits, changed: bool)
    ensures next == Dispatch(keys, b) && (changed <==> next != b)
  {
    next, changed := b, false;
    if Handled(keys, b.raiseKeys) {
      if !next.writesOther {
        next, changed := next.(writesOther := true), true;
      }
      if !next.mayUnwind {
        next, changed := next.(mayUnwind := true), true;
      }
    }
  }

  method RoundInPlace(calls: Calls, keys: set<int>, bits: array<Bits>) returns (changed: bool)
    requires Closed(calls) && bits.Length == |calls|
    modifies bits
    ensures bits[..] == Round(calls, keys, old(bits[..]))
    ensures changed <==> bits[..] != old(bits[..])
  {
    ghost var bits0 := bits[..];
    var first := PassInPlace(calls, bits);
    ghost var bits1 := bits[..];
    var second := DispatchInPlace(keys, bits);
    changed := first || second;
    assert bits[..] == Round(calls, keys, bits0);
    GrowsTwice(bits0, bits1, bits[..]) by { PassGrows(calls, bits0, |calls|); Regrow(keys, bits1, bits[..]); }
  }

  lemma Regrow(keys: set<int>, a: seq<Bits>, b: seq<Bits>)
    requires |a| == |b| && forall p :: 0 <= p < |a| ==> b[p] == Dispatch(keys, a[p])
    ensures AllLeq(a, b)
  {
    forall p | 0 <= p < |a| ensures Leq(a[p], b[p]) { DispatchGrows(keys, a[p]); }
  }

  /** A change is not undone. */
  lemma GrowsTwice(a: seq<Bits>, b: seq<Bits>, c: seq<Bits>)
    requires AllLeq(a, b) && AllLeq(b, c)
    ensures a == c ==> a == b && b == c
  {
    if a == c {
      forall p | 0 <= p < |a| ensures a[p] == b[p] {
        LeqAntisym(a[p], b[p]);
      }
    }
  }

  /** The capped rounds. */
  method Fixpoint(calls: Calls, keys: set<int>, bits: array<Bits>) returns (ghost r: nat)
    requires Closed(calls) && bits.Length == |calls|
    modifies bits
    ensures Finished(calls, keys, old(bits[..]), bits[..], r)
  {
    ghost var bits0 := bits[..];
    r := 0;
    var round := 0;
    while round <= |calls| + 1
      invariant 0 <= round <= |calls| + 2 && r == round
      invariant bits[..] == Rounds(calls, keys, bits0, r)
    {
      ghost var before := bits[..];
      var changed := RoundInPlace(calls, keys, bits);
      r := r + 1;
      round := round + 1;
      if !changed { return; }
    }
  }

  // ---------------------------------------------------------------------
  // The verdict
  // ---------------------------------------------------------------------

  function Verdict(b: Bits): ProcEffects {
    ProcEffects(
      if b.opaque_ || b.writesOther then Unknown
      else if b.readsOther then Read
      else if b.writesArg then ArgReadWrite
      else if b.readsArg then ArgRead
      else NoAccess,
      !b.opaque_ && !b.mayUnwind,
      !b.opaque_ && !b.mayNotReturn && b.raiseKeys == {})
  }

  /** What the walk of the bodies found. */
  datatype Program = Program(calls: Calls, bits: seq<Bits>, escaped: set<nat>, handlers: set<int>)

  predicate Valid(prog: Program) { Closed(prog.calls) && |prog.bits| == |prog.calls| }

  /** Procedure q alone forbids `willreturn`. */
  ghost predicate StopsReturn(prog: Program, q: nat) {
    && q < |prog.bits|
    && (var b := prog.bits[q];
        b.opaque_ || q in prog.escaped || b.mayNotReturn || b.raiseKeys != {} || OnCycle(prog.calls, q))
  }

  /** Procedure q alone forbids `nounwind`. */
  ghost predicate StopsNounwind(prog: Program, q: nat) {
    && q < |prog.bits|
    && (var b := prog.bits[q];
        b.opaque_ || q in prog.escaped || b.mayUnwind || Handled(prog.handlers, b.raiseKeys))
  }

  /** Procedure q alone forbids any promise about memory. */
  ghost predicate StopsMemory(prog: Program, q: nat) {
    && q < |prog.bits|
    && (var b := prog.bits[q];
        b.opaque_ || q in prog.escaped || b.writesOther || Handled(prog.handlers, b.raiseKeys))
  }

  ghost predicate VerdictOk(prog: Program, p: nat, v: ProcEffects) {
    && (v.willReturn <==> forall q: nat :: Reaches(prog.calls, p, q) ==> !StopsReturn(prog, q))
    && (v.nounwind <==> forall q: nat :: Reaches(prog.calls, p, q) ==> !StopsNounwind(prog, q))
    && ((exists q: nat :: Reaches(prog.calls, p, q) && StopsMemory(prog, q)) ==> v.effect == Unknown)
  }

  /** The facts after the cycle marks and the escapes went in. */
  ghost predicate Seeded(prog: Program, mark: seq<bool>, bits: seq<Bits>) {
    && |mark| == |bits| == |prog.bits|
    && forall q :: 0 <= q < |bits| ==>
         bits[q] == SeedOf(prog.bits[q], mark[q], q in prog.escaped)
  }

  ghost predicate Marked(prog: Program, mark: seq<bool>) {
    && |mark| == |prog.bits| == |prog.calls|
    && Cycles.CoversCycles(prog.calls, mark)
    && forall q :: 0 <= q < |mark| ==>
         (prog.bits[q].mayNotReturn ==> mark[q]) && (mark[q] ==> prog.bits[q].mayNotReturn || OnCycle(prog.calls, q))
  }

  /** Every state of the facts from which a promise about p is read. */
  ghost predicate Final(prog: Program, mark: seq<bool>, bits1: seq<Bits>, bits: seq<Bits>, r: nat, p: nat) {
    && Valid(prog) && Marked(prog, mark) && Seeded(prog, mark, bits1) && |bits1| == |prog.calls|
    && Finished(prog.calls, prog.handlers, bits1, bits, r) && p < |prog.calls|
  }

  lemma OpaqueExactly(prog: Program, mark: seq<bool>, bits1: seq<Bits>, bits: seq<Bits>, r: nat, p: nat)
    requires Final(prog, mark, bits1, bits, r, p)
    ensures bits[p].opaque_ <==>
      exists q: nat :: q < |prog.bits| && Reaches(prog.calls, p, q) && (prog.bits[q].opaque_ || q in prog.escaped)
  {
    FinishedExactly(prog.calls, prog.handlers, bits1, bits, r, IsOpaque, p);
    if q: nat :| q < |prog.bits| && Reaches(prog.calls, p, q) && (prog.bits[q].opaque_ || q in prog.escaped) {
      assert Source(prog.handlers, bits1, IsOpaque, q);
    }
  }

  lemma NoReturnExactly(prog: Program, mark: seq<bool>, bits1: seq<Bits>, bits: seq<Bits>, r: nat, p: nat)
    requires Final(prog, mark, bits1, bits, r, p)
    ensures bits[p].mayNotReturn <==>
      exists q: nat :: q < |prog.bits| && Reaches(prog.calls, p, q) && (prog.bits[q].mayNotReturn || OnCycle(prog.calls, q))
  {
    FinishedExactly(prog.calls, prog.handlers, bits1, bits, r, NoReturn, p);
    if q: nat :| q < |prog.bits| && Reaches(prog.calls, p, q) && (prog.bits[q].mayNotReturn || OnCycle(prog.calls, q)) {
      if mark[q] {
        assert Source(prog.handlers, bits1, NoReturn, q);
      } else {
        var m: nat :| m < |prog.calls| && Reaches(prog.calls, q, m) && mark[m];
        ReachesJoin(prog.calls, p, q, m);
        assert Source(prog.handlers, bits1, NoReturn, m);
      }
    }
  }

  lemma Member(s: set<int>) returns (k: int)
    requires s != {}
    ensures k in s
  {
    if forall x :: x !in s {
      assert false;
    }
    k :| k in s;
  }

  lemma RaisesExactly(prog: Program, mark: seq<bool>, bits1: seq<Bits>, bits: seq<Bits>, r: nat, p: nat)
    requires Final(prog, mark, bits1, bits, r, p)
    ensures bits[p].raiseKeys != {} <==>
      exists q: nat :: q < |prog.bits| && Reaches(prog.calls, p, q) && prog.bits[q].raiseKeys != {}
  {
    if bits[p].raiseKeys != {} {
      var k := Member(bits[p].raiseKeys);
      FinishedExactly(prog.calls, prog.handlers, bits1, bits, r, Raises(k), p);
      assert Has(bits[p], Raises(k));
      var q: nat :| Reaches(prog.calls, p, q) && Source(prog.handlers, bits1, Raises(k), q);
      assert k in prog.bits[q].raiseKeys;
    }
    if q: nat :| q < |prog.bits| && Reaches(prog.calls, p, q) && prog.bits[q].raiseKeys != {} {
      var k := Member(prog.bits[q].raiseKeys);
      assert Has(bits1[q], Raises(k));
      FinishedCarries(prog.calls, prog.handlers, bits1, bits, r, Raises(k), p, q);
    }
  }

  lemma UnwindExactly(prog: Program, mark: seq<bool>, bits1: seq<Bits>, bits: seq<Bits>, r: nat, p: nat)
    requires Final(prog, mark, bits1, bits, r, p)
    ensures bits[p].mayUnwind <==>
      exists q: nat :: q < |prog.bits| && Reaches(prog.calls, p, q)
        && (prog.bits[q].mayUnwind || Handled(prog.handlers, prog.bits[q].raiseKeys))
  {
    FinishedExactly(prog.calls, prog.handlers, bits1, bits, r, Unwinds, p);
    if q: nat :| q < |prog.bits| && Reaches(prog.calls, p, q) && (prog.bits[q].mayUnwind || Handled(prog.handlers, prog.bits[q].raiseKeys)) {
      assert Source(prog.handlers, bits1, Unwinds, q);
    }
  }

  lemma MemoryStopped(prog: Program, mark: seq<bool>, bits1: seq<Bits>, bits: seq<Bits>, r: nat, p: nat, q: nat)
    requires Final(prog, mark, bits1, bits, r, p) && Reaches(prog.calls, p, q) && StopsMemory(prog, q)
    ensures bits[p].opaque_ || bits[p].writesOther
  {
    if bits1[q].opaque_ {
      FinishedCarries(prog.calls, prog.handlers, bits1, bits, r, IsOpaque, p, q);
    } else if bits1[q].writesOther {
      FinishedCarries(prog.calls, prog.handlers, bits1, bits, r, WritesOther, p, q);
    } else {
      HandledUnwinds(prog.calls, prog.handlers, bits1, bits, r, p, q);
    }
  }

  lemma ReturnPromise(prog: Program, mark: seq<bool>, bits1: seq<Bits>, bits: seq<Bits>, r: nat, p: nat)
    requires Final(prog, mark, bits1, bits, r, p)
    ensures Verdict(bits[p]).willReturn <==> forall q: nat :: Reaches(prog.calls, p, q) ==> !StopsReturn(prog, q)
  {
    OpaqueExactly(prog, mark, bits1, bits, r, p);
    NoReturnExactly(prog, mark, bits1, bits, r, p);
    RaisesExactly(prog, mark, bits1, bits, r, p);
    if !Verdict(bits[p]).willReturn {
      var q: nat :| q < |prog.bits| && Reaches(prog.calls, p, q)
        && (prog.bits[q].opaque_ || q in prog.escaped || prog.bits[q].mayNotReturn || OnCycle(prog.calls, q) || prog.bits[q].raiseKeys != {});
      assert StopsReturn(prog, q);
    }
  }

  lemma UnwindPromise(prog: Program, mark: seq<bool>, bits1: seq<Bits>, bits: seq<Bits>, r: nat, p: nat)
    requires Final(prog, mark, bits1, bits, r, p)
    ensures Verdict(bits[p]).nounwind <==> forall q: nat :: Reaches(prog.calls, p, q) ==> !StopsNounwind(prog, q)
  {
    OpaqueExactly(prog, mark, bits1, bits, r, p);
    UnwindExactly(prog, mark, bits1, bits, r, p);
    if !Verdict(bits[p]).nounwind {
      var q: nat :| q < |prog.bits| && Reaches(prog.calls, p, q)
        && (prog.bits[q].opaque_ || q in prog.escaped || prog.bits[q].mayUnwind || Handled(prog.handlers, prog.bits[q].raiseKeys));
      assert StopsNounwind(prog, q);
    }
  }

  lemma VerdictIsRight(prog: Program, mark: seq<bool>, bits1: seq<Bits>, bits: seq<Bits>, r: nat, p: nat)
    requires Final(prog, mark, bits1, bits, r, p)
    ensures VerdictOk(prog, p, Verdict(bits[p]))
  {
    ReturnPromise(prog, mark, bits1, bits, r, p);
    UnwindPromise(prog, mark, bits1, bits, r, p);
    if q: nat :| Reaches(prog.calls, p, q) && StopsMemory(prog, q) {
      MemoryStopped(prog, mark, bits1, bits, r, p, q);
    }
  }

  /** The whole analysis.  `willreturn` and `nounwind` are reported exactly for the
      procedures from which no procedure is reachable that forbids them: for
      `willreturn` an unknown one, one that may stop or raise, or one on a cycle.
      Where an unknown or writing procedure or a raiser of a handled condition is
      reachable, the memory effect is Unknown. */
  method AnalyzeEffects(prog: Program) returns (out: seq<ProcEffects>)
    requires Valid(prog)
    ensures |out| == |prog.calls|
    ensures forall p :: 0 <= p < |out| ==> VerdictOk(prog, p, out[p])
  {
    var bits, mark := Seed(prog);
    ghost var bits1 := bits[..];
    var r := Fixpoint(prog.calls, prog.handlers, bits);
    out := [];
    for p := 0 to |prog.calls|
      invariant |out| == p && forall x :: 0 <= x < p ==> out[x] == Verdict(bits[x])
    {
      out := out + [Verdict(bits[p])];
    }
    forall p | 0 <= p < |prog.calls| ensures VerdictOk(prog, p, out[p]) {
      VerdictIsRight(prog, mark, bits1, bits[..], r, p);
    }
  }

  function SeedOf(b: Bits, mark: bool, escaped: bool): Bits {
    b.(mayNotReturn := mark, opaque_ := b.opaque_ || escaped, nameEscapes := b.nameEscapes || escaped)
  }

  /** The cycle marks and the escapes go in. */
  method Seed(prog: Program) returns (bits: array<Bits>, ghost marks: seq<bool>)
    requires Valid(prog)
    ensures bits.Length == |prog.calls| && Marked(prog, marks) && Seeded(prog, marks, bits[..]) && fresh(bits)
  {
    var n := |prog.calls|;
    var mark := CycleMarks(prog);
    marks := mark[..];
    bits := new Bits[n](i requires 0 <= i < n => prog.bits[i]);
    for q := 0 to n
      invariant forall x :: 0 <= x < q ==> bits[x] == SeedOf(prog.bits[x], mark[x], x in prog.escaped)
      invariant forall x :: q <= x < n ==> bits[x] == prog.bits[x]
      invariant mark[..] == marks
    {
      var b := bits[q].(mayNotReturn := mark[q]);
      if q in prog.escaped {
        b := b.(opaque_ := true, nameEscapes := true);
      }
      bits[q] := b;
    }
  }

  method CycleMarks(prog: Program) returns (mark: array<bool>)
    requires Valid(prog)
    ensures mark.Length == |prog.calls| && Marked(prog, mark[..])
  {
    var n := |prog.calls|;
    mark := new bool[n](i requires 0 <= i < n => prog.bits[i].mayNotReturn);
    ghost var mark0 := mark[..];
    Cycles.MarkCycles(prog.calls, mark);
    assert Cycles.NewMarksOnCycles(prog.calls, mark0, mark[..]);
    assert forall q :: 0 <= q < n ==> mark0[q] == prog.bits[q].mayNotReturn;
  }

  // ---------------------------------------------------------------------
  // Where the cap cuts the rounds short
  // ---------------------------------------------------------------------

  /** A ring: each procedure hands its arguments on to the next, and the last one
      hands global storage to the first. */
  function RingCalls(n: nat): (r: Calls)
    ensures |r| == n
  {
    seq(n, i requires 0 <= i < n => [if i + 1 < n then Call(i + 1, Arg) else Call(0, Other)])
  }

  /** The facts after r rounds, when at first the last procedure writes its arguments. */
  function RingBits(n: nat, r: nat): (b: seq<Bits>)
    ensures |b| == n
  {
    seq(n, i => RingAt(n, r, i))
  }

  function RingAt(n: nat, r: nat, i: int): Bits {
    Bits(false, i >= 2 * (n - 1) - r, false, i >= n - 1 - r, false, false, false, false, false, false, {})
  }

  lemma {:induction false} RingPass(n: nat, r: nat, p: nat)
    requires n >= 2 && p <= n
    ensures Closed(RingCalls(n))
    ensures forall i :: 0 <= i < n ==> Pass(RingCalls(n), RingBits(n, r), p)[i] == RingAt(n, if i < p then r + 1 else r, i)
    decreases p
  {
    if p > 0 {
      RingPass(n, r, p - 1);
      var calls: Calls := RingCalls(n);
      var b := Pass(calls, RingBits(n, r), p - 1);
      var q := calls[p - 1][0].callee;
      assert AbsorbCalls(b[p - 1], calls[p - 1], 1, b) == Absorb(AbsorbCalls(b[p - 1], calls[p - 1], 0, b), b[q], calls[p - 1][0].reach);
      assert b[q] == RingAt(n, if q < p - 1 then r + 1 else r, q);
    }
  }

  lemma {:induction false} RingRounds(n: nat, r: nat)
    requires n >= 2
    ensures Closed(RingCalls(n)) && Rounds(RingCalls(n), {}, RingBits(n, 0), r) == RingBits(n, r)
    decreases r
  {
    RingPass(n, 0, 0);
    if r > 0 {
      RingRounds(n, r - 1);
      RingPass(n, r - 1, n);
      assert forall i :: 0 <= i < n ==> Dispatch({}, RingAt(n, r, i)) == RingAt(n, r, i);
    }
  }

  /** In a ring the capped rounds find every write exactly if there are at most
      four procedures; with more, the first procedure is promised to write its
      arguments only although it reaches one that writes anything. */
  lemma CapCutsRings(n: nat)
    requires n >= 2
    ensures Closed(RingCalls(n))
    ensures var bits := Rounds(RingCalls(n), {}, RingBits(n, 0), n + 2);
      && bits[n - 1].writesOther
      && (n <= 4 <==> ClosedUnderCalls(RingCalls(n), bits, WritesOther))
      && (n > 4 ==> Verdict(bits[0]).effect == ArgReadWrite)
  {
    RingRounds(n, n + 2);
    var calls: Calls := RingCalls(n);
    var bits := RingBits(n, n + 2);
    if n <= 4 {
      forall p: nat, q: nat | Edge(calls, p, q) && q < n && Has(bits[q], WritesOther) ensures Has(bits[p], WritesOther) {
        assert bits[p] == RingAt(n, n + 2, p);
      }
    } else {
      var p := n - 5;
      assert calls[p][0].callee == p + 1 && Edge(calls, p, p + 1);
      assert Has(bits[p + 1], WritesOther) && !Has(bits[p], WritesOther);
    }
  }
}
