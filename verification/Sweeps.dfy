/**
 Sweeping two coupled facts over a call graph, in place.

 A procedure may touch what it was handed (`arg`) and anything else (`oth`).  A
 call turns the callee's `arg` into the caller's `arg` or `oth`, by what the call
 hands over, and the callee's `oth` into `oth`.  One sweep goes over the procedures
 in order and lets each take over from its callees, those before it already updated
 (src/irgen_decisions.cpp, the rounds of analyzeEffects).  With n procedures there
 are 2n facts, so 2n - 1 sweeps always suffice; here it is shown that n + 2 do as
 long as n <= 4.
 */
module Sweeps {
  import opened CallGraph

  datatype Cell = Cell(arg: bool, oth: bool)

  function Touch(c: Cell, d: Cell, r: Reach): Cell {
    Cell(c.arg || (d.arg && r == Arg), c.oth || d.oth || (d.arg && r == Other))
  }

  /** A procedure's facts after its first i calls. */
  function TouchCalls(c: Cell, cs: seq<Call>, i: nat, cells: seq<Cell>): Cell
    requires i <= |cs| && forall j :: 0 <= j < |cs| ==> cs[j].callee < |cells|
  {
    if i == 0 then c else Touch(TouchCalls(c, cs, i - 1, cells), cells[cs[i - 1].callee], cs[i - 1].reach)
  }

  /** The facts after the first p procedures of a sweep. */
  function SweepTo(calls: Calls, cells: seq<Cell>, p: nat): (r: seq<Cell>)
    requires Closed(calls) && |cells| == |calls| && p <= |calls|
    ensures |r| == |cells|
  {
    if p == 0 then cells
    else
      var c := SweepTo(calls, cells, p - 1);
      c[p - 1 := TouchCalls(c[p - 1], calls[p - 1], |calls[p - 1]|, c)]
  }

  function Sweep(calls: Calls, cells: seq<Cell>): (r: seq<Cell>)
    requires Closed(calls) && |cells| == |calls|
    ensures |r| == |cells|
  {
    SweepTo(calls, cells, |calls|)
  }

  function Sweeps(calls: Calls, cells: seq<Cell>, r: nat): (c: seq<Cell>)
    requires Closed(calls) && |cells| == |calls|
    ensures |c| == |cells|
  {
    if r == 0 then cells else Sweep(calls, Sweeps(calls, cells, r - 1))
  }

  // ---------------------------------------------------------------------
  // What one sweep adds
  // ---------------------------------------------------------------------

  predicate HasKind(c: Cell, oth: bool) { if oth then c.oth else c.arg }

  /** A callee's fact of kind `from` becomes the caller's fact of kind `to`. */
  predicate Becomes(from: bool, r: Reach, to: bool) {
    if from then to else r == if to then Other else Arg
  }

  /** One of the first i callees hands a fact of this kind up. */
  ghost predicate Feeds(cs: seq<Call>, i: nat, cells: seq<Cell>, to: bool)
    requires i <= |cs| && forall j :: 0 <= j < |cs| ==> cs[j].callee < |cells|
  {
    exists j, from :: 0 <= j < i && Becomes(from, cs[j].reach, to) && HasKind(cells[cs[j].callee], from)
  }

  lemma TouchExactly(c: Cell, d: Cell, r: Reach, to: bool)
    ensures HasKind(Touch(c, d, r), to)
            <==> HasKind(c, to) || (Becomes(true, r, to) && HasKind(d, true)) || (Becomes(false, r, to) && HasKind(d, false))
  {
  }

  lemma {:induction false} TouchCallsExactly(c: Cell, cs: seq<Call>, i: nat, cells: seq<Cell>, to: bool)
    requires i <= |cs| && forall j :: 0 <= j < |cs| ==> cs[j].callee < |cells|
    ensures HasKind(TouchCalls(c, cs, i, cells), to) <==> HasKind(c, to) || Feeds(cs, i, cells, to)
  {
    if i > 0 {
      TouchCallsExactly(c, cs, i - 1, cells, to);
      TouchExactly(TouchCalls(c, cs, i - 1, cells), cells[cs[i - 1].callee], cs[i - 1].reach, to);
    }
  }

  lemma {:induction false} SweepToAt(calls: Calls, cells: seq<Cell>, p: nat, q: nat)
    requires Closed(calls) && |cells| == |calls| && p <= |calls| && q < |calls|
    ensures SweepTo(calls, cells, p)[q] == if q < p then TouchCalls(cells[q], calls[q], |calls[q]|, SweepTo(calls, cells, q)) else cells[q]
    decreases p
  {
    if p > 0 {
      SweepToAt(calls, cells, p - 1, q);
    }
  }

  /** The fact (p, to) holds after a sweep exactly if it held before, or a callee has
      one that becomes it: before the sweep, or after it if the callee comes first. */
  ghost predicate Fed(calls: Calls, cells: seq<Cell>, p: nat, to: bool)
    requires Closed(calls) && |cells| == |calls| && p < |calls|
  {
    exists j: nat, from: bool :: FedBy(calls, cells, p, to, j, from)
  }

  ghost predicate FedBy(calls: Calls, cells: seq<Cell>, p: nat, to: bool, j: nat, from: bool)
    requires Closed(calls) && |cells| == |calls| && p < |calls|
  {
    && j < |calls[p]| && Becomes(from, calls[p][j].reach, to)
    && HasKind(if calls[p][j].callee < p then Sweep(calls, cells)[calls[p][j].callee] else cells[calls[p][j].callee], from)
  }

  lemma SweepExactly(calls: Calls, cells: seq<Cell>, p: nat, to: bool)
    requires Closed(calls) && |cells| == |calls| && p < |calls|
    ensures HasKind(Sweep(calls, cells)[p], to) <==> HasKind(cells[p], to) || Fed(calls, cells, p, to)
  {
    var b := SweepTo(calls, cells, p);
    SweepToAt(calls, cells, |calls|, p);
    TouchCallsExactly(cells[p], calls[p], |calls[p]|, b, to);
    forall q: nat | q < |calls| ensures b[q] == if q < p then Sweep(calls, cells)[q] else cells[q] {
      SweepToAt(calls, cells, p, q);
      SweepToAt(calls, cells, |calls|, q);
    }
    if Feeds(calls[p], |calls[p]|, b, to) {
      var j, from :| 0 <= j < |calls[p]| && Becomes(from, calls[p][j].reach, to) && HasKind(b[calls[p][j].callee], from);
      assert FedBy(calls, cells, p, to, j, from);
    }
    if j: nat, from: bool :| FedBy(calls, cells, p, to, j, from) {
      assert HasKind(b[calls[p][j].callee], from);
    }
  }

  // ---------------------------------------------------------------------
  // Counting
  // ---------------------------------------------------------------------

  datatype Item = Item(p: nat, oth: bool)

  ghost function AllItems(n: nat): (r: set<Item>)
    ensures |r| == 2 * n && forall e: Item :: e in r <==> e.p < n
  {
    if n == 0 then {} else AllItems(n - 1) + {Item(n - 1, false)} + {Item(n - 1, true)}
  }

  predicate HasItem(cells: seq<Cell>, e: Item) { e.p < |cells| && HasKind(cells[e.p], e.oth) }

  ghost function Items(cells: seq<Cell>): (r: set<Item>)
    ensures forall e: Item :: e in r <==> HasItem(cells, e)
  {
    set e | e in AllItems(|cells|) && HasItem(cells, e)
  }

  lemma SameItems(a: seq<Cell>, b: seq<Cell>)
    requires |a| == |b| && Items(a) == Items(b)
    ensures a == b
  {
    forall p | 0 <= p < |a| ensures a[p] == b[p] {
      assert forall k :: Item(p, k) in Items(a) <==> Item(p, k) in Items(b);
      assert a[p].arg == HasItem(a, Item(p, false)) && b[p].arg == HasItem(b, Item(p, false));
      assert a[p].oth == HasItem(a, Item(p, true)) && b[p].oth == HasItem(b, Item(p, true));
    }
  }

  lemma Smaller(a: set<Item>, b: set<Item>)
    requires a <= b
    ensures |a| <= |b| && (a != b ==> |a| < |b|)
  {
    assert b == a + (b - a);
    if |b - a| == 0 { assert b == a; }
  }

  lemma AtMost(cells: seq<Cell>)
    ensures |Items(cells)| <= 2 * |cells|
  {
    Smaller(Items(cells), AllItems(|cells|));
  }

  lemma SweepGrows(calls: Calls, cells: seq<Cell>)
    requires Closed(calls) && |cells| == |calls|
    ensures Items(cells) <= Items(Sweep(calls, cells))
    ensures Sweep(calls, cells) != cells ==> |Items(cells)| < |Items(Sweep(calls, cells))|
  {
    forall e | e in Items(cells) ensures e in Items(Sweep(calls, cells)) {
      SweepExactly(calls, cells, e.p, e.oth);
    }
    Smaller(Items(cells), Items(Sweep(calls, cells)));
    if Items(cells) == Items(Sweep(calls, cells)) { SameItems(cells, Sweep(calls, cells)); }
  }

  /** A sweep that changed something was preceded only by such sweeps. */
  lemma {:induction false} ChangedBefore(calls: Calls, cells: seq<Cell>, j: nat, r: nat)
    requires Closed(calls) && |cells| == |calls| && j <= r
    requires Sweeps(calls, cells, r + 1) != Sweeps(calls, cells, r)
    ensures Sweeps(calls, cells, j + 1) != Sweeps(calls, cells, j)
    decreases r
  {
    if j < r { ChangedBefore(calls, cells, j, r - 1); }
  }

  lemma SomethingFirst(calls: Calls, cells: seq<Cell>)
    requires Closed(calls) && |cells| == |calls| && Items(cells) == {}
    ensures Sweep(calls, cells) == cells
  {
    forall p: nat, k: bool | p <= |calls| ensures p < |calls| ==> !HasItem(Sweep(calls, cells), Item(p, k)) {
      NothingYet(calls, cells, p);
    }
    assert Items(Sweep(calls, cells)) == {};
    SameItems(cells, Sweep(calls, cells));
  }

  lemma {:induction false} NothingYet(calls: Calls, cells: seq<Cell>, p: nat)
    requires Closed(calls) && |cells| == |calls| && Items(cells) == {} && p <= |calls|
    ensures forall q: nat, k: bool :: q <= p && q < |calls| ==> !HasItem(Sweep(calls, cells), Item(q, k))
  {
    if p > 0 { NothingYet(calls, cells, p - 1); }
    if p < |calls| {
      forall q: nat, k: bool | q < |calls| ensures !HasKind(cells[q], k) { assert Item(q, k) !in Items(cells); }
      forall q: nat, k: bool | q < p ensures !HasKind(Sweep(calls, cells)[q], k) {
        assert !HasItem(Sweep(calls, cells), Item(q, k));
      }
      forall k: bool ensures !HasItem(Sweep(calls, cells), Item(p, k)) {
        SweepExactly(calls, cells, p, k);
        assert forall j: nat, from: bool :: !FedBy(calls, cells, p, k, j, from);
      }
    }
  }

  /** While every sweep changes something, there is at least one fact for each. */
  lemma {:induction false} AtLeast(calls: Calls, cells: seq<Cell>, j: nat, r: nat)
    requires Closed(calls) && |cells| == |calls| && j <= r + 1
    requires Sweeps(calls, cells, r + 1) != Sweeps(calls, cells, r)
    ensures |Items(Sweeps(calls, cells, j))| >= j + 1
  {
    if j == 0 {
      ChangedBefore(calls, cells, 0, r);
      assert Sweeps(calls, cells, 1) == Sweep(calls, Sweeps(calls, cells, 0));
      if Items(cells) == {} { SomethingFirst(calls, cells); }
      assert Items(cells) != {} && |Items(cells)| != 0;
    } else {
      AtLeast(calls, cells, j - 1, r);
      ChangedBefore(calls, cells, j - 1, r);
      SweepGrows(calls, Sweeps(calls, cells, j - 1));
    }
  }

  /** ... and as many of them are still to come as sweeps are. */
  lemma {:induction false} AtMostNow(calls: Calls, cells: seq<Cell>, j: nat, r: nat)
    requires Closed(calls) && |cells| == |calls| && j <= r + 1
    requires Sweeps(calls, cells, r + 1) != Sweeps(calls, cells, r)
    ensures |Items(Sweeps(calls, cells, j))| + (r + 1 - j) <= 2 * |calls|
    decreases r + 1 - j
  {
    AtMost(Sweeps(calls, cells, j));
    if j <= r {
      AtMostNow(calls, cells, j + 1, r);
      ChangedBefore(calls, cells, j, r);
      SweepGrows(calls, Sweeps(calls, cells, j));
    }
  }

  // ---------------------------------------------------------------------
  // Four procedures
  // ---------------------------------------------------------------------

  /** The item e is the only one that the sweep number r added. */
  ghost predicate OnlyNew(calls: Calls, cells: seq<Cell>, r: nat, e: Item)
    requires Closed(calls) && |cells| == |calls| && r > 0
  {
    && HasItem(Sweeps(calls, cells, r), e) && !HasItem(Sweeps(calls, cells, r - 1), e)
    && forall d: Item :: HasItem(Sweeps(calls, cells, r), d) && d != e ==> HasItem(Sweeps(calls, cells, r - 1), d)
  }

  lemma OneMore(a: set<Item>, b: set<Item>) returns (e: Item)
    requires a <= b && |b| == |a| + 1
    ensures e in b && e !in a && b == a + {e}
  {
    assert b == a + (b - a);
    assert |b - a| == 1;
    if forall x :: x !in b - a { assert false; }
    e :| e in b - a;
    Smaller({e}, b - a);
  }

  /** With four procedures and seven sweeps that change something, each adds one. */
  lemma OneEach(calls: Calls, cells: seq<Cell>, r: nat, last: nat) returns (e: Item)
    requires Closed(calls) && |cells| == |calls| == 4 && 0 < r <= 7 && last == 6
    requires Sweeps(calls, cells, last + 1) != Sweeps(calls, cells, last)
    ensures OnlyNew(calls, cells, r, e)
  {
    AtLeast(calls, cells, r - 1, last);
    AtLeast(calls, cells, r, last);
    AtMostNow(calls, cells, r - 1, last);
    AtMostNow(calls, cells, r, last);
    var a, b := Sweeps(calls, cells, r - 1), Sweeps(calls, cells, r);
    assert b == Sweep(calls, a);
    SweepGrows(calls, a);
    e := OnlyOneMore(a, b);
  }

  lemma OnlyOneMore(a: seq<Cell>, b: seq<Cell>) returns (e: Item)
    requires Items(a) <= Items(b) && |Items(b)| == |Items(a)| + 1
    ensures HasItem(b, e) && !HasItem(a, e) && forall d: Item :: HasItem(b, d) && d != e ==> HasItem(a, d)
  {
    e := OneMore(Items(a), Items(b));
    forall d: Item | HasItem(b, d) && d != e ensures HasItem(a, d) { assert d in Items(b) && d in Items(a) + {e}; }
    assert e in Items(b) && e !in Items(a);
  }

  /** What the only new item of a sweep comes from is the only new item of the sweep
      before, which stands at no smaller a procedure. */
  lemma ComesFrom(calls: Calls, cells: seq<Cell>, r: nat, d: Item, e: Item)
    requires Closed(calls) && |cells| == |calls| && r > 0
    requires OnlyNew(calls, cells, r, d) && OnlyNew(calls, cells, r + 1, e)
    ensures e.p <= d.p && (d.oth ==> e.oth) && (e.p == d.p ==> e.oth && !d.oth)
  {
    var a, b, c := Sweeps(calls, cells, r - 1), Sweeps(calls, cells, r), Sweeps(calls, cells, r + 1);
    assert b == Sweep(calls, a) && c == Sweep(calls, b);
    SweepExactly(calls, b, e.p, e.oth);
    assert !HasItem(b, e);
    assert HasKind(c[e.p], e.oth) && !HasKind(b[e.p], e.oth);
    var j: nat, from: bool :| FedBy(calls, b, e.p, e.oth, j, from);
    var f := Item(calls[e.p][j].callee, from);
    assert (if f.p < e.p then HasItem(c, f) else HasItem(b, f)) && Sweeps(calls, cells, r + 1 - 1) == b;
    SweepGrows(calls, a);
    assert HasItem(a, f) ==> f in Items(a) && f in Items(b);
    NotSooner(calls, a, e, j, from);
    assert f == d;
  }

  lemma NotSooner(calls: Calls, a: seq<Cell>, e: Item, j: nat, from: bool)
    requires Closed(calls) && |a| == |calls| && e.p < |calls| && !HasItem(Sweep(calls, a), e)
    requires j < |calls[e.p]| && Becomes(from, calls[e.p][j].reach, e.oth)
    ensures calls[e.p][j].callee < e.p ==> !HasKind(Sweep(calls, a)[calls[e.p][j].callee], from)
    ensures calls[e.p][j].callee >= e.p ==> !HasKind(a[calls[e.p][j].callee], from)
  {
    SweepExactly(calls, a, e.p, e.oth);
    assert !FedBy(calls, a, e.p, e.oth, j, from);
  }

  /** Going down the procedures, and once from `arg` to `oth`. */
  function Height(e: Item): int { e.p - if e.oth then 1 else 0 }

  lemma {:induction false} Descends(calls: Calls, cells: seq<Cell>, r: nat, last: nat) returns (e: Item)
    requires Closed(calls) && |cells| == |calls| == 4 && 0 < r <= 7 && last == 6
    requires Sweeps(calls, cells, last + 1) != Sweeps(calls, cells, last)
    ensures OnlyNew(calls, cells, r, e) && Height(e) <= 4 - r
  {
    e := OneEach(calls, cells, r, last);
    if r > 1 {
      var d := Descends(calls, cells, r - 1, last);
      ComesFrom(calls, cells, r - 1, d, e);
    }
  }

  lemma FewChanges(calls: Calls, cells: seq<Cell>, last: nat)
    requires Closed(calls) && |cells| == |calls| <= 4 && last == |calls| + 2
    ensures Sweeps(calls, cells, last + 1) == Sweeps(calls, cells, last)
  {
    if Sweeps(calls, cells, last + 1) != Sweeps(calls, cells, last) {
      AtLeast(calls, cells, last + 1, last);
      AtMost(Sweeps(calls, cells, last + 1));
      var e := Descends(calls, cells, last, last);
    }
  }

  /** Up to four procedures, nothing is left to do after n + 2 sweeps. */
  lemma SmallIsStable(calls: Calls, cells: seq<Cell>, n: nat)
    requires Closed(calls) && |cells| == |calls| == n <= 4
    ensures Sweep(calls, Sweeps(calls, cells, n + 2)) == Sweeps(calls, cells, n + 2)
  {
    FewChanges(calls, cells, n + 2);
    assert Sweeps(calls, cells, n + 2 + 1) == Sweep(calls, Sweeps(calls, cells, n + 2));
  }
}
