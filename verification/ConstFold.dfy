/**
 Constant folding of FIXED DECIMAL expressions (src/constfold.cpp).

 The folder evaluates a tree of +, - and * over decimal literals in 128-bit
 integers, rescales the result to the wanted scale, rounding half away from zero,
 and rewrites the node as a literal if everything fits the type.  The meaning of
 a tree is a real number, independent of how it is computed.
 */
module ConstFold {
  import opened Options
  import opened Powers
  import opened Wide128

  datatype Op = Plus | Minus | Star | OtherOp

  /** A literal stands for value / 10^scale; an IntLit has scale 0. */
  datatype Expr =
    | IntLit(value: int)
    | DecLit(value: int, scale: int)
    | Unary(op: Op, a: Expr)
    | Binary(op: Op, a: Expr, b: Expr)
    | OtherExpr

  datatype Type = FixedDec(prec: int, bits: int) | OtherType

  datatype Num = Num(value: int, scale: int)

  function Max(a: int, b: int): int { if a < b then b else a }

  // ---------------------------------------------------------------------
  // The meaning of a tree
  // ---------------------------------------------------------------------

  /** x * 10^k, for any k. */
  function Shift(x: real, k: int): real
    decreases if k < 0 then -k else k
  {
    if k == 0 then x else if k > 0 then 10.0 * Shift(x, k - 1) else Shift(x, k + 1) / 10.0
  }

  lemma ShiftStep(x: real, k: int)
    ensures Shift(x, k + 1) == 10.0 * Shift(x, k)
  {
  }

  lemma {:induction false} ShiftUp(x: real, j: int, k: nat)
    ensures Shift(Shift(x, j), k) == Shift(x, j + k)
    decreases k
  {
    if k > 0 {
      ShiftUp(x, j, k - 1);
      ShiftStep(x, j + k - 1);
    }
  }

  lemma {:induction false} ShiftBack(x: real, k: int)
    requires k >= 0
    ensures Shift(Shift(x, -k), k) == x && Shift(Shift(x, k), -k) == x
    decreases k
  {
    ShiftUp(x, -k, k);
    if k > 0 {
      ShiftBack(x, k - 1);
      ShiftDown(Shift(x, k), k - 1);
    }
  }

  /** A shift down may begin with any of its steps. */
  lemma {:induction false} ShiftDown(x: real, k: int)
    requires k >= 0
    ensures Shift(x, -k - 1) == Shift(x / 10.0, -k)
    decreases k
  {
    if k > 0 { ShiftDown(x, k - 1); }
  }

  lemma {:induction false} ShiftSum(x: real, y: real, k: int)
    ensures Shift(x + y, k) == Shift(x, k) + Shift(y, k) && Shift(-x, k) == -Shift(x, k)
    decreases if k < 0 then -k else k
  {
    if k > 0 { ShiftSum(x, y, k - 1); }
    if k < 0 { ShiftSum(x, y, k + 1); }
  }

  lemma {:induction false} ShiftInt(v: int, k: nat)
    ensures Shift(v as real, k) == (v * Pow(10, k)) as real
    decreases k
  {
    if k > 0 {
      ShiftInt(v, k - 1);
      TenTimes(v, Pow(10, k - 1));
    }
  }

  lemma TenTimes(v: int, p: int)
    ensures v * (10 * p) == 10 * (v * p)
  {
  }

  function Times(x: real, y: real): real { x * y }

  /** A factor's shift is the product's. */
  lemma {:induction false} ShiftFactor(x: real, y: real, k: int)
    ensures Times(Shift(x, k), y) == Shift(Times(x, y), k)
    decreases if k < 0 then -k else k
  {
    if k > 0 {
      ShiftFactor(x, y, k - 1);
      Pull(Shift(x, k - 1), y);
    }
    if k < 0 {
      ShiftFactor(x, y, k + 1);
      Pull(Shift(x, k), y);
    }
  }

  lemma Pull(a: real, y: real)
    ensures Times(10.0 * a, y) == 10.0 * Times(a, y)
  {
  }

  /** Only +, - and * of literals fold. */
  predicate Foldable(e: Expr) {
    match e
    case IntLit(_) => true
    case DecLit(_, _) => true
    case Unary(op, a) => (op == Plus || op == Minus) && Foldable(a)
    case Binary(op, a, b) => op != OtherOp && Foldable(a) && Foldable(b)
    case OtherExpr => false
  }

  function Value(e: Expr): real
    requires Foldable(e)
  {
    match e
    case IntLit(v) => v as real
    case DecLit(v, s) => Shift(v as real, -s)
    case Unary(op, a) => if op == Minus then -Value(a) else Value(a)
    case Binary(op, a, b) =>
      if op == Plus then Value(a) + Value(b) else if op == Minus then Value(a) - Value(b) else Times(Value(a), Value(b))
  }

  // ---------------------------------------------------------------------
  // Evaluation in 128 bits, and without a limit
  // ---------------------------------------------------------------------

  /** v * 10^(to - from), each product in 128 bits. */
  function ScaleUp(v: int, from: int, to: int): int
    decreases to - from
  {
    if to <= from then v else Signed(10 * ScaleUp(v, from, to - 1))
  }

  function Eval(e: Expr): Option<Num> {
    match e
    case IntLit(v) => Some(Num(v, 0))
    case DecLit(v, s) => Some(Num(v, s))
    case Unary(op, a) =>
      var n := Eval(a);
      if n.None? || (op != Minus && op != Plus) then None
      else if op == Minus then Some(Num(Signed(-n.value.value), n.value.scale)) else n
    case Binary(op, a, b) =>
      var m, n := Eval(a), Eval(b);
      if m.None? || n.None? then None else Combine(op, m.value, n.value)
    case OtherExpr => None
  }

  function Combine(op: Op, x: Num, y: Num): Option<Num> {
    var s := Max(x.scale, y.scale);
    match op
    case Plus => Some(Num(Signed(ScaleUp(x.value, x.scale, s) + ScaleUp(y.value, y.scale, s)), s))
    case Minus => Some(Num(Signed(ScaleUp(x.value, x.scale, s) - ScaleUp(y.value, y.scale, s)), s))
    case Star => Some(Num(Signed(x.value * y.value), x.scale + y.scale))
    case OtherOp => None
  }

  function Scaled(v: int, from: int, to: int): int { if to <= from then v else v * Pow(10, to - from) }

  function Exact(e: Expr): Num
    requires Foldable(e)
  {
    match e
    case IntLit(v) => Num(v, 0)
    case DecLit(v, s) => Num(v, s)
    case Unary(op, a) => var n := Exact(a); if op == Minus then Num(-n.value, n.scale) else n
    case Binary(op, a, b) =>
      var x, y := Exact(a), Exact(b);
      var s := Max(x.scale, y.scale);
      if op == Star then Num(x.value * y.value, x.scale + y.scale)
      else if op == Plus then Num(Scaled(x.value, x.scale, s) + Scaled(y.value, y.scale, s), s)
      else Num(Scaled(x.value, x.scale, s) - Scaled(y.value, y.scale, s), s)
  }

  predicate Fits(v: int) { -B127 <= v < B127 }

  /** No value on the way exceeds 128 bits. */
  predicate NoOverflow(e: Expr)
    requires Foldable(e)
  {
    && Fits(Exact(e).value)
    && match e
       case Unary(_, a) => NoOverflow(a)
       case Binary(op, a, b) =>
         && NoOverflow(a) && NoOverflow(b)
         && (op != Star ==>
               var x, y := Exact(a), Exact(b); var s := Max(x.scale, y.scale);
               Fits(Scaled(x.value, x.scale, s)) && Fits(Scaled(y.value, y.scale, s)))
       case _ => true
  }

  lemma SignedFits(v: int)
    requires Fits(v)
    ensures Signed(v) == v
  {
    if v < 0 { Mod128(v, v + B128); } else { Mod128(v, v); }
  }

  lemma {:induction false} ScaleUpExact(v: int, from: int, to: int)
    requires Fits(Scaled(v, from, to))
    ensures ScaleUp(v, from, to) == Scaled(v, from, to)
    decreases if to > from then to - from else 0
  {
    if to > from {
      ScaledStep(v, from, to);
      assert Fits(Scaled(v, from, to - 1));
      ScaleUpExact(v, from, to - 1);
      SignedFits(Scaled(v, from, to));
    }
  }

  lemma ScaledStep(v: int, from: int, to: int)
    requires to > from
    ensures Scaled(v, from, to) == 10 * Scaled(v, from, to - 1)
  {
    var p := Pow(10, to - 1 - from);
    assert v * (10 * p) == 10 * (v * p);
  }

  lemma {:induction false} EvalExact(e: Expr)
    requires Foldable(e) && NoOverflow(e)
    ensures Eval(e) == Some(Exact(e))
  {
    SignedFits(Exact(e).value);
    if e.Unary? || e.Binary? { EvalExact(e.a); }
    if e.Binary? {
      EvalExact(e.b);
      if e.op != Star {
        var x, y := Exact(e.a), Exact(e.b);
        var s := Max(x.scale, y.scale);
        ScaleUpExact(x.value, x.scale, s);
        ScaleUpExact(y.value, y.scale, s);
      }
    }
  }

  lemma {:induction false} EvalNone(e: Expr)
    ensures Eval(e).Some? <==> Foldable(e)
  {
    if e.Unary? || e.Binary? { EvalNone(e.a); }
    if e.Binary? { EvalNone(e.b); }
  }

  /** A number at a scale stands for a real. */
  predicate Means(n: Num, x: real) { n.value as real == Shift(x, n.scale) }

  lemma ScaledMeans(n: Num, x: real, s: int)
    requires Means(n, x) && n.scale <= s
    ensures Means(Num(Scaled(n.value, n.scale, s), s), x)
  {
    if s > n.scale {
      ShiftUp(x, n.scale, s - n.scale);
      ShiftInt(n.value, s - n.scale);
    }
  }

  lemma ProductMeans(m: Num, x: real, n: Num, y: real)
    requires Means(m, x) && Means(n, y)
    ensures Means(Num(m.value * n.value, m.scale + n.scale), Times(x, y))
  {
    RealProduct(m.value, n.value);
    ShiftProduct(x, m.scale, y, n.scale);
  }

  lemma ShiftProduct(x: real, j: int, y: real, k: int)
    ensures Times(Shift(x, j), Shift(y, k)) == Shift(Times(x, y), j + k)
  {
    var q := Shift(y, k);
    ShiftFactor(x, q, j);
    Commute(x, q);
    ShiftFactor(y, x, k);
    Commute(y, x);
    ShiftTwice(Times(x, y), k, j);
  }

  lemma Commute(x: real, y: real)
    ensures Times(x, y) == Times(y, x)
  {
  }

  lemma RealProduct(a: int, b: int)
    ensures (a * b) as real == Times(a as real, b as real)
  {
  }

  lemma ShiftTwice(x: real, j: int, k: int)
    ensures Shift(Shift(x, j), k) == Shift(x, j + k)
  {
    if k >= 0 {
      ShiftUp(x, j, k);
    } else {
      ShiftUp(x, j + k, -k);
      ShiftBack(Shift(x, j + k), -k);
    }
  }

  lemma SumMeans(m: Num, x: real, n: Num, y: real, plus: bool)
    requires Means(m, x) && Means(n, y)
    ensures var s := Max(m.scale, n.scale);
      var v, w := Scaled(m.value, m.scale, s), Scaled(n.value, n.scale, s);
      Means(Num(if plus then v + w else v - w, s), if plus then x + y else x - y)
  {
    var s := Max(m.scale, n.scale);
    ScaledMeans(m, x, s);
    ScaledMeans(n, y, s);
    ShiftSum(x, y, s);
    ShiftSum(-y, x, s);
    ShiftSum(y, x, s);
    assert x - y == -y + x;
  }

  /** Exact evaluation gives the tree's meaning. */
  lemma {:induction false} ExactMeans(e: Expr)
    requires Foldable(e)
    ensures Means(Exact(e), Value(e))
  {
    match e
    case IntLit(_) => assert Shift(Value(e), 0) == Value(e);
    case DecLit(v, s) => ShiftTwice(v as real, -s, s); assert Shift(v as real, 0) == v as real;
    case Unary(op, a) =>
      ExactMeans(a);
      ShiftSum(Value(a), 0.0, Exact(a).scale);
      assert (-Exact(a).value) as real == -(Exact(a).value as real);
    case Binary(op, a, b) =>
      ExactMeans(a);
      ExactMeans(b);
      if op == Star { StarMeans(a, b); } else { PlusMinusMeans(op, a, b); }
  }

  lemma StarMeans(a: Expr, b: Expr)
    requires Foldable(a) && Foldable(b) && Means(Exact(a), Value(a)) && Means(Exact(b), Value(b))
    ensures Means(Exact(Binary(Star, a, b)), Value(Binary(Star, a, b)))
  {
    ProductMeans(Exact(a), Value(a), Exact(b), Value(b));
  }

  lemma PlusMinusMeans(op: Op, a: Expr, b: Expr)
    requires Foldable(a) && Foldable(b) && Means(Exact(a), Value(a)) && Means(Exact(b), Value(b))
    requires op == Plus || op == Minus
    ensures Means(Exact(Binary(op, a, b)), Value(Binary(op, a, b)))
  {
    SumMeans(Exact(a), Value(a), Exact(b), Value(b), op == Plus);
  }

  // ---------------------------------------------------------------------
  // The final rescale
  // ---------------------------------------------------------------------

  /** n is x rounded to an integer, halves away from zero. */
  predicate IsRounded(x: real, n: int) {
    if x >= 0.0 then n as real - 0.5 <= x < n as real + 0.5
    else n as real - 0.5 < x <= n as real + 0.5
  }

  function Pow10Wrap(k: int): int { ScaleUp(1, 0, k) }

  /** The value at the wanted scale, in 128 bits. */
  function Rescale(n: Num, scale: int): int {
    if scale > n.scale then ScaleUp(n.value, n.scale, scale)
    else if scale < n.scale then
      var k := n.scale - scale;
      var d := Pow10Wrap(k);
      var half := Signed(Pow10Wrap(k - 1) * 5);
      var sign := if n.value < 0 then -1 else 1;
      SDivWrap(Signed(n.value + Signed(half * sign)), d)
    else n.value
  }

  function SDivWrap(a: int, b: int): int { if b == 0 then 0 else Signed(TruncDiv(a, b)) }

  /** The rescale stays inside 128 bits. */
  predicate RescaleFits(n: Num, scale: int) {
    if scale > n.scale then Fits(Scaled(n.value, n.scale, scale))
    else if scale < n.scale then
      var k := n.scale - scale;
      k <= 38 && Fits(n.value + 5 * Pow(10, k - 1)) && Fits(n.value - 5 * Pow(10, k - 1))
    else true
  }

  lemma {:induction false} ShiftMono(x: real, y: real, k: int)
    ensures x < y <==> Shift(x, k) < Shift(y, k)
    decreases if k < 0 then -k else k
  {
    if k > 0 { ShiftMono(x, y, k - 1); }
    if k < 0 { ShiftMono(x, y, k + 1); }
  }

  lemma ShiftHalf(k: int)
    requires k > 0
    ensures Shift(0.5, k) == (5 * Pow(10, k - 1)) as real
    decreases k
  {
    if k > 1 {
      ShiftHalf(k - 1);
    } else {
      assert Shift(0.5, 0) == 0.5;
    }
  }

  /** Adding half and truncating rounds halves away from zero. */
  lemma RoundInt(v: int, half: int, n: int)
    requires half > 0 && n == TruncDiv(v + (if v < 0 then -half else half), 2 * half)
    ensures v >= 0 ==> n * (2 * half) - half <= v < n * (2 * half) + half
    ensures v < 0 ==> n * (2 * half) - half < v <= n * (2 * half) + half
  {
    var d := 2 * half;
    var m := Abs(v) + half;
    var q := m / d;
    assert q * d <= m < q * d + d;
    assert n == if v < 0 then -q else q;
    assert (-q) * d == -(q * d);
  }

  lemma RoundMeans(v: int, k: int, n: int)
    requires k > 0
    requires var half := 5 * Pow(10, k - 1); n == TruncDiv(v + (if v < 0 then -half else half), Pow(10, k))
    ensures IsRounded(Shift(v as real, -k), n)
  {
    var half := 5 * Pow(10, k - 1);
    assert Pow(10, k) == 2 * half;
    RoundInt(v, half, n);
    var x := Shift(v as real, -k);
    ShiftBack(v as real, k);
    ShiftInt(n, k);
    ShiftHalf(k);
    ShiftSum(n as real, 0.5, k);
    ShiftSum(0.5, 0.0, k);
    ShiftSum(n as real, -0.5, k);
    Bounds(x, n, k, v, half);
  }

  lemma Bounds(x: real, n: int, k: int, v: int, half: int)
    requires k > 0 && Shift(x, k) == v as real
    requires Shift(n as real + 0.5, k) == (n * (2 * half) + half) as real
    requires Shift(n as real + -0.5, k) == (n * (2 * half) - half) as real
    requires v >= 0 ==> n * (2 * half) - half <= v < n * (2 * half) + half
    requires v < 0 ==> n * (2 * half) - half < v <= n * (2 * half) + half
    ensures IsRounded(x, n)
  {
    ShiftZero(k);
    ShiftMono(x, 0.0, k);
    ShiftMono(x, n as real + 0.5, k);
    ShiftMono(n as real + 0.5, x, k);
    ShiftMono(x, n as real + -0.5, k);
    ShiftMono(n as real + -0.5, x, k);
  }

  lemma {:induction false} ShiftZero(k: nat)
    ensures Shift(0.0, k) == 0.0
  {
    if k > 0 { ShiftZero(k - 1); }
  }

  lemma Pow10Exact(k: int, top: nat)
    requires 0 <= k <= 38 && top == 38
    ensures Pow10Wrap(k) == Pow(10, k) && 0 < Pow(10, k) < B127 && (k > 0 ==> 5 * Pow(10, k - 1) < Pow(10, k))
  {
    PowTop(top);
    PowGrows(k, top);
    ScaleUpExact(1, 0, k);
    assert Scaled(1, 0, k) == Pow(10, k) by { assert Pow(10, 0) == 1; }
  }

  lemma PowTop(top: nat)
    requires top == 38
    ensures 3 * Pow(10, top) < 2 * B127
  {
    var a := Pow(10, 9);
    assert a == 1_000_000_000;
    PowAdd(10, 9, 9);
    PowAdd(10, 18, 18);
    PowAdd(10, 36, 2);
    Squared(a, Pow(10, 18));
    assert Pow(10, 2) == 100;
  }

  lemma Squared(a: int, b: int)
    requires a == 1_000_000_000 && b == a * a
    ensures 3 * ((b * b) * 100) < 2 * B127
  {
    assert b == 1_000_000_000_000_000_000;
  }

  lemma {:induction false} PowGrows(j: nat, k: nat)
    requires j <= k
    ensures Pow(10, j) <= Pow(10, k)
    decreases k
  {
    if j < k { PowGrows(j, k - 1); }
  }

  /** Inside 128 bits, the rescaled integer is the real value rounded. */
  lemma RescaleMeans(n: Num, x: real, scale: int)
    requires Means(n, x) && Fits(n.value) && RescaleFits(n, scale)
    ensures IsRounded(Shift(x, scale), Rescale(n, scale))
  {
    if scale > n.scale {
      ScaleUpExact(n.value, n.scale, scale);
      ScaledMeans(n, x, scale);
    } else if scale < n.scale {
      var k := n.scale - scale;
      RescaleDown(n, scale, 38);
      RoundMeans(n.value, k, Rescale(n, scale));
      ShiftTwice(x, n.scale, -k);
    }
  }

  lemma RescaleDown(n: Num, scale: int, top: nat)
    requires scale < n.scale && Fits(n.value) && RescaleFits(n, scale) && top == 38
    ensures var k := n.scale - scale; var half := 5 * Pow(10, k - 1);
      Rescale(n, scale) == TruncDiv(n.value + (if n.value < 0 then -half else half), Pow(10, k))
  {
    var k := n.scale - scale;
    Pow10Exact(k, top);
    Pow10Exact(k - 1, top);
    var half := 5 * Pow(10, k - 1);
    SignedFits(half);
    SignedFits(-half);
    var w := n.value + if n.value < 0 then -half else half;
    SignedFits(w);
    QuotientFits(w, Pow(10, k));
    SignedFits(TruncDiv(w, Pow(10, k)));
  }

  lemma QuotientFits(w: int, d: int)
    requires Fits(w) && d > 1
    ensures Fits(TruncDiv(w, d))
  {
    DivBounds(Abs(w), d);
  }

  // ---------------------------------------------------------------------
  // Digits
  // ---------------------------------------------------------------------

  function DigitCount(m: nat): (r: nat)
    ensures r >= 1
  {
    if m < 10 then 1 else 1 + DigitCount(m / 10)
  }

  /** k digits are enough exactly for the numbers below 10^k. */
  lemma {:induction false} DigitsMean(m: nat, k: nat)
    requires k >= 1
    ensures DigitCount(m) <= k <==> m < Pow(10, k)
    decreases k
  {
    assert Pow(10, 1) == 10;
    if k > 1 {
      if m >= 10 { DigitsMean(m / 10, k - 1); } else { PowGrows(1, k); }
    }
  }

  /** constDigits. */
  method ConstDigits(v: int) returns (digits: nat)
    requires Fits(v)
    ensures digits == DigitCount(Abs(v))
  {
    var u, d := FromParts(Abs(v)), 0;
    ghost var goal := DigitCount(Abs(v));
    u, d := DivMod10(u);
    digits := 1;
    ghost var m: nat := Abs(v);
    while !IsZero(u)
      invariant UVal(u) == m / 10 && digits - 1 + DigitCount(m) == goal
      decreases UVal(u)
    {
      m := m / 10;
      u, d := DivMod10(u);
      digits := digits + 1;
    }
  }

  /** The magnitude of a leaf as the operands' check sees it. */
  function LeafMag(v: int, ls: int, scale: int): int {
    var w := if ls < scale then ScaleUp(v, ls, scale) else v;
    if w < 0 then Signed(-w) else w
  }

  /** The largest leaf, from `out` on; None when a leaf is not a constant. */
  function MaxLeaf(e: Expr, scale: int, out: int): Option<int> {
    match e
    case IntLit(v) => Some(Max(out, LeafMag(v, 0, scale)))
    case DecLit(v, s) => Some(Max(out, LeafMag(v, s, scale)))
    case Unary(op, a) => if op == Minus || op == Plus then MaxLeaf(a, scale, out) else None
    case Binary(op, a, b) =>
      if op == OtherOp then None
      else
        var m := MaxLeaf(a, scale, out);
        if m.None? then None else MaxLeaf(b, scale, m.value)
    case OtherExpr => None
  }

  datatype Leaf = Leaf(value: int, scale: int)

  function Leaves(e: Expr): seq<Leaf> {
    match e
    case IntLit(v) => [Leaf(v, 0)]
    case DecLit(v, s) => [Leaf(v, s)]
    case Unary(_, a) => Leaves(a)
    case Binary(_, a, b) => Leaves(a) + Leaves(b)
    case OtherExpr => []
  }

  /** m is the larger of `out` and the leaves' magnitudes at the wanted scale. */
  ghost predicate Largest(e: Expr, scale: int, out: int, m: int) {
    && out <= m
    && (forall l :: l in Leaves(e) ==> LeafMag(l.value, l.scale, scale) <= m)
    && (m == out || exists l :: l in Leaves(e) && LeafMag(l.value, l.scale, scale) == m)
  }

  lemma {:induction false} LargestLeaf(e: Expr, scale: int, out: int)
    ensures MaxLeaf(e, scale, out).Some? <==> Foldable(e)
    ensures Foldable(e) ==> Largest(e, scale, out, MaxLeaf(e, scale, out).value)
  {
    match e
    case IntLit(v) => assert Leaf(v, 0) in Leaves(e);
    case DecLit(v, s) => assert Leaf(v, s) in Leaves(e);
    case Unary(_, a) => LargestLeaf(a, scale, out);
    case Binary(_, a, b) =>
      LargestLeaf(a, scale, out);
      if Foldable(a) {
        var m := MaxLeaf(a, scale, out).value;
        LargestLeaf(b, scale, m);
        if Foldable(b) { LargestOfTwo(e, a, b, scale, out, m, MaxLeaf(b, scale, m).value); }
      }
    case OtherExpr =>
  }

  lemma LargestOfTwo(e: Expr, a: Expr, b: Expr, scale: int, out: int, m: int, n: int)
    requires e.Binary? && e.a == a && e.b == b && Largest(a, scale, out, m) && Largest(b, scale, m, n)
    ensures Largest(e, scale, out, n)
  {
    if n != out {
      var l :| (l in Leaves(a) || l in Leaves(b)) && LeafMag(l.value, l.scale, scale) == n;
      assert l in Leaves(e);
    }
  }

  /** The leaf can be brought to the scale, and its sign dropped, in 128 bits. */
  predicate LeafFits(l: Leaf, scale: int) { Abs(Scaled(l.value, l.scale, scale)) < B127 }

  lemma LeafMagnitude(l: Leaf, scale: int)
    requires LeafFits(l, scale)
    ensures LeafMag(l.value, l.scale, scale) == Abs(Scaled(l.value, l.scale, scale))
  {
    ScaleUpExact(l.value, l.scale, scale);
    SignedFits(Abs(Scaled(l.value, l.scale, scale)));
  }

  /** Few enough digits in the largest leaf means few enough in each. */
  lemma LeavesFit(e: Expr, scale: int, prec: nat)
    requires Foldable(e) && prec >= 1 && MaxLeaf(e, scale, 0).Some? && DigitCount(Abs(MaxLeaf(e, scale, 0).value)) <= prec
    ensures forall l :: l in Leaves(e) && LeafFits(l, scale) ==> Abs(Scaled(l.value, l.scale, scale)) < Pow(10, prec)
  {
    LargestLeaf(e, scale, 0);
    DigitsMean(Abs(MaxLeaf(e, scale, 0).value), prec);
    forall l | l in Leaves(e) && LeafFits(l, scale) ensures Abs(Scaled(l.value, l.scale, scale)) < Pow(10, prec) {
      LeafMagnitude(l, scale);
    }
  }

  function StorageDigits(ty: Type): nat
    requires ty.FixedDec?
  {
    if ty.bits == 128 then 38 else if ty.bits == 64 then 18 else 9
  }

  /** What the folder makes of the tree: the literal, or None. */
  function Folded(e: Expr, ty: Type, scale: int): Option<Expr> {
    var n := Eval(e);
    if ty.OtherType? || n.None? then None
    else
      var v := Rescale(n.value, scale);
      var digits := DigitCount(Abs(v));
      if digits > ty.prec || digits > StorageDigits(ty) then None
      else
        var leaf := MaxLeaf(e, scale, 0);
        if leaf.None? || DigitCount(Abs(leaf.value)) > ty.prec then None else Some(DecLit(v, scale))
  }

  /** The leaves are 128-bit integers. */
  predicate ValidLeaves(e: Expr) {
    match e
    case IntLit(v) => Fits(v)
    case DecLit(v, _) => Fits(v)
    case Unary(_, a) => ValidLeaves(a)
    case Binary(_, a, b) => ValidLeaves(a) && ValidLeaves(b)
    case OtherExpr => true
  }

  /** When the fold succeeds and nothing exceeds 128 bits, the literal is the tree's
      real value rounded at the wanted scale, and it fits the type; and so does every
      operand, as the run-time conversion of each to that type demands. */
  lemma FoldIsExact(e: Expr, ty: Type, scale: int)
    requires Foldable(e) && NoOverflow(e) && RescaleFits(Exact(e), scale) && Folded(e, ty, scale).Some?
    ensures var lit := Folded(e, ty, scale).value;
      && lit.DecLit? && lit.scale == scale && IsRounded(Shift(Value(e), scale), lit.value)
      && Abs(lit.value) < Pow(10, ty.prec) && Abs(lit.value) < Pow(10, StorageDigits(ty))
    ensures forall l :: l in Leaves(e) && LeafFits(l, scale) ==> Abs(Scaled(l.value, l.scale, scale)) < Pow(10, ty.prec)
  {
    LeavesFit(e, scale, ty.prec);
    EvalExact(e);
    ExactMeans(e);
    RescaleMeans(Exact(e), Value(e), scale);
    var v := Rescale(Exact(e), scale);
    DigitsMean(Abs(v), ty.prec);
    DigitsMean(Abs(v), StorageDigits(ty));
  }

  // ---------------------------------------------------------------------
  // A bound on the digits keeps everything inside 128 bits
  // ---------------------------------------------------------------------

  /** How many digits the value of the tree can have. */
  function DigitBound(e: Expr): nat
    requires Foldable(e)
  {
    match e
    case IntLit(v) => DigitCount(Abs(v))
    case DecLit(v, _) => DigitCount(Abs(v))
    case Unary(_, a) => DigitBound(a)
    case Binary(op, a, b) =>
      if op == Star then DigitBound(a) + DigitBound(b)
      else
        var s := Max(Exact(a).scale, Exact(b).scale);
        Max(DigitBound(a) + (s - Exact(a).scale), DigitBound(b) + (s - Exact(b).scale)) + 1
  }

  lemma {:induction false} BoundPositive(e: Expr)
    requires Foldable(e)
    ensures DigitBound(e) >= 1
  {
    match e
    case Unary(_, a) => BoundPositive(a);
    case Binary(_, a, b) => BoundPositive(a); BoundPositive(b);
    case _ =>
  }

  lemma ScaledBound(v: int, d: nat, from: int, to: int)
    requires Abs(v) < Pow(10, d) && from <= to
    ensures Abs(Scaled(v, from, to)) < Pow(10, d + (to - from))
  {
    PowAdd(10, d, to - from);
    ProductBound(v, Pow(10, to - from), Pow(10, d));
  }

  lemma ProductBound(v: int, p: int, q: int)
    requires p > 0 && Abs(v) < q
    ensures Abs(v * p) == Abs(v) * p < q * p
  {
    MulMono(Abs(v), q - 1, p);
    if v < 0 { assert (-v) * p == -(v * p); }
  }

  lemma StarBound(v: int, w: int, p: nat, q: nat)
    requires Abs(v) < p && Abs(w) < q
    ensures Abs(v * w) < p * q
  {
    var a, b := Abs(v), Abs(w);
    assert Abs(v * w) == a * b by { Signs(v, w); }
    MulMono(a, p - 1, b);
    MulMono(b, q - 1, p);
    assert (p - 1) * b <= p * b;
    assert b * p == p * b && (q - 1) * p == p * q - p;
  }

  lemma Signs(v: int, w: int)
    ensures Abs(v * w) == Abs(v) * Abs(w)
  {
    assert (-v) * w == -(v * w) && v * (-w) == -(v * w) && (-v) * (-w) == v * w;
    if v < 0 && w > 0 { MulMono(1, -v, w); }
    if v > 0 && w < 0 { MulMono(1, v, -w); }
    if v < 0 && w < 0 { MulMono(1, -v, -w); }
    if v > 0 && w > 0 { MulMono(1, v, w); }
  }

  lemma {:induction false} BoundHolds(e: Expr)
    requires Foldable(e)
    ensures Abs(Exact(e).value) < Pow(10, DigitBound(e))
  {
    match e
    case IntLit(v) => DigitsMean(Abs(v), DigitCount(Abs(v)));
    case DecLit(v, _) => DigitsMean(Abs(v), DigitCount(Abs(v)));
    case Unary(_, a) => BoundHolds(a);
    case Binary(op, a, b) =>
      BoundHolds(a);
      BoundHolds(b);
      if op == Star { StarHolds(a, b); } else { SumHolds(op, a, b); }
  }

  lemma StarHolds(a: Expr, b: Expr)
    requires Foldable(a) && Abs(Exact(a).value) < Pow(10, DigitBound(a))
    requires Foldable(b) && Abs(Exact(b).value) < Pow(10, DigitBound(b))
    ensures Abs(Exact(Binary(Star, a, b)).value) < Pow(10, DigitBound(Binary(Star, a, b)))
  {
    ProductDigits(Exact(a).value, DigitBound(a), Exact(b).value, DigitBound(b));
  }

  lemma SumHolds(op: Op, a: Expr, b: Expr)
    requires op == Plus || op == Minus
    requires Foldable(a) && Abs(Exact(a).value) < Pow(10, DigitBound(a))
    requires Foldable(b) && Abs(Exact(b).value) < Pow(10, DigitBound(b))
    ensures Abs(Exact(Binary(op, a, b)).value) < Pow(10, DigitBound(Binary(op, a, b)))
  {
    SumBound(Exact(a), DigitBound(a), Exact(b), DigitBound(b));
  }

  lemma ProductDigits(v: int, j: nat, w: int, k: nat)
    requires Abs(v) < Pow(10, j) && Abs(w) < Pow(10, k)
    ensures Abs(v * w) < Pow(10, j + k)
  {
    StarBound(v, w, Pow(10, j), Pow(10, k));
    PowAdd(10, j, k);
  }

  lemma SumBound(x: Num, dx: nat, y: Num, dy: nat)
    requires Abs(x.value) < Pow(10, dx) && Abs(y.value) < Pow(10, dy)
    ensures var s := Max(x.scale, y.scale);
      var d: nat := Max(dx + (s - x.scale), dy + (s - y.scale));
      var v, w := Scaled(x.value, x.scale, s), Scaled(y.value, y.scale, s);
      && Abs(v) < Pow(10, d) && Abs(w) < Pow(10, d)
      && Abs(v + w) < Pow(10, d + 1) && Abs(v - w) < Pow(10, d + 1)
  {
    var s := Max(x.scale, y.scale);
    var d: nat := Max(dx + (s - x.scale), dy + (s - y.scale));
    ScaledBound(x.value, dx, x.scale, s);
    ScaledBound(y.value, dy, y.scale, s);
    PowGrows(dx + (s - x.scale), d);
    PowGrows(dy + (s - y.scale), d);
  }

  lemma BelowFits(v: int, d: nat, top: nat)
    requires Abs(v) < Pow(10, d) && d <= top == 38
    ensures Fits(v)
  {
    PowTop(top);
    PowGrows(d, top);
  }

  lemma {:induction false} SmallFits(e: Expr, top: nat)
    requires Foldable(e) && DigitBound(e) <= top == 38
    ensures NoOverflow(e)
  {
    BoundHolds(e);
    BelowFits(Exact(e).value, DigitBound(e), top);
    if e.Unary? { SmallFits(e.a, top); }
    if e.Binary? {
      BoundPositive(e.a);
      BoundPositive(e.b);
      SmallFits(e.a, top);
      SmallFits(e.b, top);
      if e.op != Star { OperandsFit(e.a, e.b, top); }
    }
  }

  lemma OperandsFit(a: Expr, b: Expr, top: nat)
    requires Foldable(a) && Foldable(b) && top == 38
    requires var s := Max(Exact(a).scale, Exact(b).scale);
      Max(DigitBound(a) + (s - Exact(a).scale), DigitBound(b) + (s - Exact(b).scale)) < top
    ensures var x, y := Exact(a), Exact(b); var s := Max(x.scale, y.scale);
      Fits(Scaled(x.value, x.scale, s)) && Fits(Scaled(y.value, y.scale, s))
  {
    var x, y := Exact(a), Exact(b);
    var s := Max(x.scale, y.scale);
    var d: nat := Max(DigitBound(a) + (s - x.scale), DigitBound(b) + (s - y.scale));
    BoundHolds(a);
    BoundHolds(b);
    SumBound(x, DigitBound(a), y, DigitBound(b));
    BelowFits(Scaled(x.value, x.scale, s), d, top);
    BelowFits(Scaled(y.value, y.scale, s), d, top);
  }

  /** The digits that the fold to the given scale needs. */
  function FoldDigits(e: Expr, scale: int): int
    requires Foldable(e)
  {
    DigitBound(e) + Max(0, scale - Exact(e).scale)
  }

  lemma SmallRescales(e: Expr, scale: int, top: nat)
    requires Foldable(e) && FoldDigits(e, scale) <= top == 38 && Exact(e).scale - scale <= top
    ensures RescaleFits(Exact(e), scale)
  {
    var n, d := Exact(e), DigitBound(e);
    BoundHolds(e);
    if scale > n.scale {
      ScaledBound(n.value, d, n.scale, scale);
      BelowFits(Scaled(n.value, n.scale, scale), d + (scale - n.scale), top);
    } else if scale < n.scale {
      PowGrows(d, top);
      PowGrows(n.scale - scale, top);
      HalfFits(n.value, n.scale - scale, top);
    }
  }

  lemma HalfFits(v: int, k: nat, top: nat)
    requires 0 < k <= top == 38 && Abs(v) < Pow(10, top) && Pow(10, k) <= Pow(10, top)
    ensures Fits(v + 5 * Pow(10, k - 1)) && Fits(v - 5 * Pow(10, k - 1))
  {
    assert Pow(10, k) == 10 * Pow(10, k - 1);
    PowTop(top);
  }

  /** A tree whose digits are at most 38 in all folds, if it folds, to its exact
      value rounded. */
  lemma SmallFoldsExactly(e: Expr, ty: Type, scale: int)
    requires Foldable(e) && FoldDigits(e, scale) <= 38 && Exact(e).scale - scale <= 38
    requires Folded(e, ty, scale).Some?
    ensures IsRounded(Shift(Value(e), scale), Folded(e, ty, scale).value.value)
  {
    SmallFits(e, 38);
    SmallRescales(e, scale, 38);
    FoldIsExact(e, ty, scale);
  }

  // ---------------------------------------------------------------------
  // The folder
  // ---------------------------------------------------------------------

  method ScaleUpLoop(v: int, from: int, to: int) returns (r: int)
    ensures r == ScaleUp(v, from, to)
  {
    r := v;
    var i := from;
    while i < to
      invariant from <= i && (i <= to || i == from) && r == ScaleUp(v, from, i)
    {
      r := Signed(r * 10);
      i := i + 1;
    }
  }

  /** constNumOf. */
  method ConstNumOf(e: Expr) returns (ok: bool, out: Num)
    ensures (ok <==> Foldable(e)) && (ok <==> Eval(e).Some?) && (ok ==> out == Eval(e).value)
    decreases e
  {
    EvalNone(e);
    ok, out := false, Num(0, 0);
    match e
    case IntLit(v) => ok, out := true, Num(v, 0);
    case DecLit(v, s) => ok, out := true, Num(v, s);
    case Unary(op, a) =>
      var known, n := ConstNumOf(a);
      if !known || (op != Minus && op != Plus) { return; }
      ok, out := true, if op == Minus then Num(Signed(-n.value), n.scale) else n;
    case Binary(op, a, b) =>
      var known, x := ConstNumOf(a);
      if !known { return; }
      var y;
      known, y := ConstNumOf(b);
      if !known { return; }
      if op == Plus || op == Minus {
        var s := Max(x.scale, y.scale);
        var av := ScaleUpLoop(x.value, x.scale, s);
        var bv := ScaleUpLoop(y.value, y.scale, s);
        ok, out := true, Num(Signed(if op == Plus then av + bv else av - bv), s);
      } else if op == Star {
        ok, out := true, Num(Signed(x.value * y.value), x.scale + y.scale);
      }
    case OtherExpr =>
  }

  /** maxLeafMag: `out` is read and updated. */
  method MaxLeafMag(e: Expr, scale: int, out: int) returns (ok: bool, out': int)
    ensures ok == Foldable(e) && (ok ==> Largest(e, scale, out, out'))
    ensures ok == MaxLeaf(e, scale, out).Some? && (ok ==> out' == MaxLeaf(e, scale, out).value)
    decreases e
  {
    LargestLeaf(e, scale, out);
    ok, out' := false, out;
    match e
    case IntLit(v) => ok, out' := true, Max(out, LeafMag(v, 0, scale));
    case DecLit(v, s) => ok, out' := true, Max(out, LeafMag(v, s, scale));
    case Unary(op, a) => if op == Minus || op == Plus { ok, out' := MaxLeafMag(a, scale, out); }
    case Binary(op, a, b) =>
      if op != OtherOp {
        ok, out' := MaxLeafMag(a, scale, out);
        if ok { ok, out' := MaxLeafMag(b, scale, out'); }
      }
    case OtherExpr =>
  }

  method RescaleTo(n: Num, scale: int) returns (v: int)
    ensures v == Rescale(n, scale)
  {
    v := n.value;
    if scale > n.scale {
      v := ScaleUpLoop(n.value, n.scale, scale);
    } else if scale < n.scale {
      var k := n.scale - scale;
      var d := ScaleUpLoop(1, 0, k);
      var p := ScaleUpLoop(1, 0, k - 1);
      var half, sign := Signed(p * 5), if v < 0 then -1 else 1;
      v := SDivWrap(Signed(v + Signed(half * sign)), d);
    }
  }

  lemma {:induction false} ScaleUpRange(v: int, from: int, to: int)
    requires Fits(v)
    ensures Fits(ScaleUp(v, from, to))
    decreases if to > from then to - from else 0
  {
    if to > from { ScaleUpRange(v, from, to - 1); }
  }

  lemma EvalRange(e: Expr)
    requires ValidLeaves(e) && Eval(e).Some?
    ensures Fits(Eval(e).value.value)
  {
    if e.Unary? { EvalRange(e.a); }
  }

  lemma {:induction false} MaxLeafRange(e: Expr, scale: int, out: int)
    requires ValidLeaves(e) && Fits(out) && MaxLeaf(e, scale, out).Some?
    ensures Fits(MaxLeaf(e, scale, out).value)
  {
    match e
    case IntLit(v) => ScaleUpRange(v, 0, scale);
    case DecLit(v, s) => ScaleUpRange(v, s, scale);
    case Unary(_, a) => MaxLeafRange(a, scale, out);
    case Binary(_, a, b) =>
      MaxLeafRange(a, scale, out);
      MaxLeafRange(b, scale, MaxLeaf(a, scale, out).value);
  }

  /** A node of the program's tree. */
  class Node {
    var e: Expr

    constructor (e: Expr)
      ensures this.e == e
    {
      this.e := e;
    }

    /** foldConstExpr: the node becomes the literal, or stays as it is. */
    method Fold(ty: Type, scale: int) returns (ok: bool)
      requires ValidLeaves(e)
      modifies this
      ensures ok == Folded(old(e), ty, scale).Some?
      ensures e == if ok then Folded(old(e), ty, scale).value else old(e)
    {
      if ty.OtherType? { return false; }
      var known, n := ConstNumOf(e);
      if !known { return false; }
      EvalRange(e);
      var v := RescaleTo(n, scale);
      RescaleRange(n, scale);
      var digits := ConstDigits(v);
      if digits > ty.prec || digits > StorageDigits(ty) { return false; }
      var leaves, leaf := MaxLeafMag(e, scale, 0);
      if !leaves { return false; }
      MaxLeafRange(e, scale, 0);
      var leafDigits := ConstDigits(leaf);
      if leafDigits > ty.prec { return false; }
      e := DecLit(v, scale);
      ok := true;
    }
  }

  lemma RescaleRange(n: Num, scale: int)
    requires Fits(n.value)
    ensures Fits(Rescale(n, scale))
  {
    if scale > n.scale { ScaleUpRange(n.value, n.scale, scale); }
  }
}
