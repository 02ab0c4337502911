/**
 When the cap on the effect rounds is enough (src/irgen_decisions.cpp:1216-1267).

 The rounds stop after |calls| + 2.  The facts that calls carry unchanged have
 arrived by then, whatever the calls (Effects.FinishedExactly).  The argument facts
 turn into others on the way and can need more: exactly from five procedures on.
 */
module EffectCap {
  import opened CallGraph
  import opened Effects
  import S = Sweeps

  /** Every call is taken account of, and so is every handler. */
  ghost predicate AllClosed(calls: Calls, keys: set<int>, bits: seq<Bits>)
    requires Closed(calls) && |bits| == |calls|
  {
    && (forall p, i :: 0 <= p < |calls| && 0 <= i < |calls[p]| ==> CallClosed(calls, bits, p, i))
    && (forall p :: 0 <= p < |calls| && Handled(keys, bits[p].raiseKeys) ==> bits[p].writesOther && bits[p].mayUnwind)
  }

  predicate CallClosed(calls: Calls, bits: seq<Bits>, p: nat, i: nat)
    requires Closed(calls) && |bits| == |calls| && p < |calls| && i < |calls[p]|
  {
    Leq(Absorb(bits[p], bits[calls[p][i].callee], calls[p][i].reach), bits[p])
  }

  // ---------------------------------------------------------------------
  // The reads, and the writes, as sweeps of two facts
  // ---------------------------------------------------------------------

  /** The argument fact and the other one, of the writes or of the reads. */
  function CellOf(b: Bits, write: bool): S.Cell {
    if write then S.Cell(b.writesArg, b.writesOther) else S.Cell(b.readsArg, b.readsOther)
  }

  /** The cells follow the facts, except that of what the procedures in h do to
      anything else, which handlers change too. */
  ghost predicate Follows(bits: seq<Bits>, cells: seq<S.Cell>, write: bool, h: set<nat>) {
    |cells| == |bits| && forall p: nat :: p < |bits| ==> FollowsAt(bits[p], cells[p], write, p in h)
  }

  predicate FollowsAt(b: Bits, c: S.Cell, write: bool, inH: bool) {
    c.arg == CellOf(b, write).arg && (!inH ==> c.oth == CellOf(b, write).oth)
  }

  /** Who can call into h is in h. */
  ghost predicate Upward(calls: Calls, h: set<nat>) {
    forall p: nat, q: nat :: Edge(calls, p, q) && q in h ==> p in h
  }

  lemma {:induction false} FollowCalls(b: Bits, c: S.Cell, cs: seq<Call>, i: nat, bits: seq<Bits>, cells: seq<S.Cell>, write: bool, h: set<nat>, inH: bool)
    requires i <= |cs| && (forall j :: 0 <= j < |cs| ==> cs[j].callee < |bits|) && Follows(bits, cells, write, h)
    requires FollowsAt(b, c, write, inH) && (!inH ==> forall j :: 0 <= j < |cs| ==> cs[j].callee !in h)
    ensures FollowsAt(AbsorbCalls(b, cs, i, bits), S.TouchCalls(c, cs, i, cells), write, inH)
  {
    if i > 0 {
      FollowCalls(b, c, cs, i - 1, bits, cells, write, h, inH);
      var q := cs[i - 1].callee;
      assert FollowsAt(bits[q], cells[q], write, q in h);
    }
  }

  lemma {:induction false} FollowPass(calls: Calls, bits: seq<Bits>, cells: seq<S.Cell>, m: nat, write: bool, h: set<nat>)
    requires Closed(calls) && |bits| == |calls| && m <= |calls| && Follows(bits, cells, write, h) && Upward(calls, h)
    ensures Follows(Pass(calls, bits, m), S.SweepTo(calls, cells, m), write, h)
  {
    if m > 0 {
      var p, cs := m - 1, calls[m - 1];
      FollowPass(calls, bits, cells, p, write, h);
      var b, c := Pass(calls, bits, p), S.SweepTo(calls, cells, p);
      assert FollowsAt(b[p], c[p], write, p in h);
      forall j | p !in h && 0 <= j < |cs| ensures cs[j].callee !in h { assert Edge(calls, p, cs[j].callee); }
      FollowCalls(b[p], c[p], cs, |cs|, b, c, write, h, p in h);
    }
  }

  /** The procedures from which a raiser of a handled condition can be reached, if
      the writes are looked at. */
  ghost function Handlers(calls: Calls, keys: set<int>, bits0: seq<Bits>, write: bool): (h: set<nat>)
    ensures forall p: nat :: p in h <==> p < |calls| && write && ReachesHandled(calls, keys, bits0, p)
  {
    set p | p in Below(|calls|) && write && ReachesHandled(calls, keys, bits0, p)
  }

  ghost predicate ReachesHandled(calls: Calls, keys: set<int>, bits0: seq<Bits>, p: nat) {
    exists q: nat :: q < |bits0| && Reaches(calls, p, q) && Handled(keys, bits0[q].raiseKeys)
  }

  lemma HandlersUpward(calls: Calls, keys: set<int>, bits0: seq<Bits>, write: bool)
    ensures Upward(calls, Handlers(calls, keys, bits0, write))
  {
    var h := Handlers(calls, keys, bits0, write);
    forall p: nat, q: nat | Edge(calls, p, q) && q in h ensures p in h {
      var r: nat :| r < |bits0| && Reaches(calls, q, r) && Handled(keys, bits0[r].raiseKeys);
      ReachesEdge(calls, p, q, r);
    }
  }

  /** Only those procedures ever have a handled condition raised. */
  lemma RaisedOnlyThere(calls: Calls, keys: set<int>, bits0: seq<Bits>, r: nat, p: nat)
    requires Closed(calls) && |bits0| == |calls| && p < |calls|
    requires Handled(keys, Rounds(calls, keys, bits0, r)[p].raiseKeys)
    ensures ReachesHandled(calls, keys, bits0, p)
  {
    var b := Rounds(calls, keys, bits0, r);
    var k :| k in b[p].raiseKeys && Covered(keys, k);
    RoundsSourced(calls, keys, bits0, Raises(k), r);
    assert Has(b[p], Raises(k));
    var q: nat :| Reaches(calls, p, q) && Source(keys, bits0, Raises(k), q);
  }

  lemma {:induction false} FollowRounds(calls: Calls, keys: set<int>, bits0: seq<Bits>, cells0: seq<S.Cell>, r: nat, write: bool)
    requires Closed(calls) && |bits0| == |calls|
    requires Follows(bits0, cells0, write, Handlers(calls, keys, bits0, write))
    ensures Follows(Rounds(calls, keys, bits0, r), S.Sweeps(calls, cells0, r), write, Handlers(calls, keys, bits0, write))
    decreases r
  {
    if r > 0 {
      var h := Handlers(calls, keys, bits0, write);
      FollowRounds(calls, keys, bits0, cells0, r - 1, write);
      HandlersUpward(calls, keys, bits0, write);
      var b, c := Rounds(calls, keys, bits0, r - 1), S.Sweeps(calls, cells0, r - 1);
      FollowPass(calls, b, c, |calls|, write, h);
      var b1, c1 := Pass(calls, b, |calls|), S.Sweep(calls, c);
      forall p: nat | p < |calls| ensures FollowsAt(Dispatch(keys, b1[p]), c1[p], write, p in h) {
        assert FollowsAt(b1[p], c1[p], write, p in h);
        if Handled(keys, b1[p].raiseKeys) { RaisedOnlyThere(calls, keys, bits0, r, p); }
      }
    }
  }

  function CellsOf(bits: seq<Bits>, write: bool): (c: seq<S.Cell>)
    ensures |c| == |bits| && forall p :: 0 <= p < |bits| ==> c[p] == CellOf(bits[p], write)
  {
    seq(|bits|, p requires 0 <= p < |bits| => CellOf(bits[p], write))
  }

  // ---------------------------------------------------------------------
  // Up to four procedures
  // ---------------------------------------------------------------------

  /** Cells that a sweep leaves alone are closed under calls. */
  lemma StableCell(calls: Calls, cells: seq<S.Cell>, p: nat, i: nat)
    requires Closed(calls) && |cells| == |calls| && p < |calls| && i < |calls[p]| && S.Sweep(calls, cells) == cells
    ensures S.Touch(cells[p], cells[calls[p][i].callee], calls[p][i].reach) == cells[p]
  {
    var c, d, r := cells[p], cells[calls[p][i].callee], calls[p][i].reach;
    S.SweepExactly(calls, cells, p, false);
    S.SweepExactly(calls, cells, p, true);
    if d.arg && r == Arg { assert S.FedBy(calls, cells, p, false, i, false); }
    if d.arg && r == Other { assert S.FedBy(calls, cells, p, true, i, false); }
    if d.oth { assert S.FedBy(calls, cells, p, true, i, true); }
  }

  lemma HandlerWrites(calls: Calls, keys: set<int>, bits0: seq<Bits>, p: nat)
    requires Closed(calls) && |bits0| == |calls| && p < |calls| && ReachesHandled(calls, keys, bits0, p)
    ensures var b := Rounds(calls, keys, bits0, |calls| + 2); b[p].writesOther && b[p].mayUnwind
  {
    var r := |calls| + 2;
    var x: nat :| x < |bits0| && Reaches(calls, p, x) && Handled(keys, bits0[x].raiseKeys);
    HandledUnwinds(calls, keys, bits0, Rounds(calls, keys, bits0, r), r, p, x);
  }

  /** The four facts that calls translate are closed after the capped rounds. */
  lemma FewClosed(calls: Calls, keys: set<int>, bits0: seq<Bits>, n: nat, p: nat, i: nat, write: bool)
    requires Closed(calls) && |bits0| == |calls| == n <= 4 && p < n && i < |calls[p]|
    ensures var b := Rounds(calls, keys, bits0, n + 2);
      S.Touch(CellOf(b[p], write), CellOf(b[calls[p][i].callee], write), calls[p][i].reach) == CellOf(b[p], write)
  {
    var h, b := Handlers(calls, keys, bits0, write), Rounds(calls, keys, bits0, n + 2);
    var cells := S.Sweeps(calls, CellsOf(bits0, write), n + 2);
    var q := calls[p][i].callee;
    FollowRounds(calls, keys, bits0, CellsOf(bits0, write), n + 2, write);
    S.SmallIsStable(calls, CellsOf(bits0, write), n);
    StableCell(calls, cells, p, i);
    assert FollowsAt(b[p], cells[p], write, p in h) && FollowsAt(b[q], cells[q], write, q in h);
    if p in h {
      HandlerWrites(calls, keys, bits0, p);
    } else {
      HandlersUpward(calls, keys, bits0, write);
      assert Edge(calls, p, q);
    }
  }

  /** The facts that calls carry unchanged are closed, whatever the calls. */
  lemma CarriedClosed(calls: Calls, keys: set<int>, bits0: seq<Bits>, bits: seq<Bits>, r: nat, f: Fact, p: nat, q: nat)
    requires Closed(calls) && |bits0| == |calls| && Finished(calls, keys, bits0, bits, r)
    requires (Carried(f) || f.Unwinds?) && Edge(calls, p, q) && q < |calls| && Has(bits[q], f)
    ensures Has(bits[p], f)
  {
    FinishedExactly(calls, keys, bits0, bits, r, f, p);
    FinishedExactly(calls, keys, bits0, bits, r, f, q);
    SourcedByCall(calls, keys, bits0, f, p, q);
  }

  lemma FewTouched(b: Bits, cb: Bits, r: Reach)
    requires S.Touch(CellOf(b, false), CellOf(cb, false), r) == CellOf(b, false)
    requires S.Touch(CellOf(b, true), CellOf(cb, true), r) == CellOf(b, true)
    ensures var a := Absorb(b, cb, r);
      a.readsOther == b.readsOther && a.writesOther == b.writesOther && a.readsArg == b.readsArg && a.writesArg == b.writesArg
  {
  }

  lemma FewCallClosed(calls: Calls, keys: set<int>, bits0: seq<Bits>, n: nat, p: nat, i: nat)
    requires Closed(calls) && |bits0| == |calls| == n <= 4 && p < n && i < |calls[p]|
    ensures CallClosed(calls, Rounds(calls, keys, bits0, n + 2), p, i)
  {
    var b, q := Rounds(calls, keys, bits0, n + 2), calls[p][i].callee;
    assert Finished(calls, keys, bits0, b, n + 2) && Edge(calls, p, q);
    FewClosed(calls, keys, bits0, n, p, i, false);
    FewClosed(calls, keys, bits0, n, p, i, true);
    forall f | (Carried(f) || f.Unwinds?) && Has(b[q], f) ensures Has(b[p], f) {
      CarriedClosed(calls, keys, bits0, b, n + 2, f, p, q);
    }
    assert Has(b[q], IsOpaque) ==> Has(b[p], IsOpaque);
    assert Has(b[q], NoReturn) ==> Has(b[p], NoReturn);
    assert Has(b[q], Unwinds) ==> Has(b[p], Unwinds);
    forall k | k in b[q].raiseKeys ensures k in b[p].raiseKeys { assert Has(b[q], Raises(k)) ==> Has(b[p], Raises(k)); }
    FewTouched(b[p], b[q], calls[p][i].reach);
  }

  lemma FewAllClosed(calls: Calls, keys: set<int>, bits0: seq<Bits>, n: nat)
    requires Closed(calls) && |bits0| == |calls| == n <= 4
    ensures AllClosed(calls, keys, Rounds(calls, keys, bits0, n + 2))
  {
    var b := Rounds(calls, keys, bits0, n + 2);
    forall p, i | 0 <= p < n && 0 <= i < |calls[p]| ensures CallClosed(calls, b, p, i) {
      FewCallClosed(calls, keys, bits0, n, p, i);
    }
    forall p | 0 <= p < n && Handled(keys, b[p].raiseKeys) ensures b[p].writesOther && b[p].mayUnwind {
      RaisedOnlyThere(calls, keys, bits0, n + 2, p);
      HandlerWrites(calls, keys, bits0, p);
    }
  }

  /** Whatever n procedures call and do by themselves, the capped rounds close all
      their facts under calls and handlers: exactly if n is at most 4. */
  lemma CapSufficesExactlyWhen(n: nat)
    ensures (forall calls: Calls, keys: set<int>, bits0: seq<Bits> :: |calls| == |bits0| == n ==> CapSuffices(calls, keys, bits0))
            <==> n <= 4
  {
    if n <= 4 {
      forall calls: Calls, keys: set<int>, bits0: seq<Bits> | |calls| == |bits0| == n ensures CapSuffices(calls, keys, bits0) {
        if Closed(calls) { FewAllClosed(calls, keys, bits0, n); }
      }
    } else {
      RingNotClosed(n);
    }
  }

  ghost predicate CapSuffices(calls: Calls, keys: set<int>, bits0: seq<Bits>)
    requires |bits0| == |calls|
  {
    Closed(calls) ==> AllClosed(calls, keys, Rounds(calls, keys, bits0, |calls| + 2))
  }

  lemma RingNotClosed(n: nat)
    requires n >= 5
    ensures !CapSuffices(RingCalls(n), {}, RingBits(n, 0))
  {
    CapCutsRings(n);
    var calls: Calls := RingCalls(n);
    var b := Rounds(calls, {}, RingBits(n, 0), n + 2);
    var p: nat, q: nat :| Edge(calls, p, q) && q < n && b[q].writesOther && !b[p].writesOther;
    var i: nat :| i < |calls[p]| && calls[p][i].callee == q;
    assert !CallClosed(calls, b, p, i);
  }
}
