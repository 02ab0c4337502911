/**
 Portable 128-bit integers (runtime/pli_wide128.h).

 A value is a pair of 64-bit words; every word operation wraps at 2^64, or is
 shown not to.  Each operation is proved equal to its mathematical meaning.
 A shift is a multiplication or division by a power of two, and an OR of words
 with no bit in common is a sum.
 */
module Wide128 {
  import opened Powers

  const B32: int := 0x1_0000_0000
  const B64: int := 0x1_0000_0000_0000_0000
  const B128: int := B64 * B64
  const B127: int := B128 / 2

  type U32 = x: int | 0 <= x < 0x1_0000_0000
  type U64 = x: int | 0 <= x < 0x1_0000_0000_0000_0000
  type I64 = x: int | -0x8000_0000_0000_0000 <= x < 0x8000_0000_0000_0000

  datatype U128 = U128(lo: U64, hi: U64)
  datatype I128 = I128(lo: U64, hi: I64)

  function Wrap(x: int): (r: U64)
    ensures 0 <= x < B64 ==> r == x
    ensures B64 <= x < 2 * B64 ==> r == x - B64
    ensures -B64 <= x < 0 ==> r == x + B64
    ensures -2 * B64 <= x < -B64 ==> r == x + 2 * B64
  {
    x % B64
  }

  /** The same modulo 2^128, for numbers off by at most one turn. */
  lemma Mod128(x: int, r: int)
    requires 0 <= r < B128 && (x == r || x == r + B128 || x == r - B128)
    ensures x % B128 == r
  {
  }

  function UVal(v: U128): (r: int)
    ensures 0 <= r < B128
  {
    v.hi * B64 + v.lo
  }

  function SVal(v: I128): (r: int)
    ensures -B127 <= r < B127
  {
    v.hi * B64 + v.lo
  }

  function ToU(v: I128): (r: U128)
    ensures UVal(r) == SVal(v) % B128
  {
    var r := U128(v.lo, v.hi % B64);
    Mod128(SVal(v), UVal(r));
    r
  }

  /** The value of x modulo 2^128 as a signed number. */
  function Signed(x: int): (r: int)
    ensures -B127 <= r < B127
  {
    var m := x % B128;
    if m < B127 then m else m - B128
  }

  function ToS(v: U128): (r: I128)
    ensures SVal(r) == Signed(UVal(v))
  {
    I128(v.lo, if v.hi < 0x8000_0000_0000_0000 then v.hi else v.hi - B64)
  }

  function FromParts(x: nat): (r: U128)
    requires x < B128
    ensures UVal(r) == x
  {
    U128(x % B64, x / B64)
  }

  predicate IsZero(v: U128) { v.lo == 0 && v.hi == 0 }

  predicate IsNeg(v: I128) { v.hi < 0 }

  // ---------------------------------------------------------------------
  // Sums
  // ---------------------------------------------------------------------

  function Add(a: U128, b: U128): (r: U128)
    ensures UVal(r) == (UVal(a) + UVal(b)) % B128
  {
    var lo := Wrap(a.lo + b.lo);
    var hi := Wrap(a.hi + b.hi + if lo < a.lo then 1 else 0);
    var r := U128(lo, hi);
    Mod128(UVal(a) + UVal(b), UVal(r));
    r
  }

  function Sub(a: U128, b: U128): (r: U128)
    ensures UVal(r) == (UVal(a) - UVal(b)) % B128
  {
    var lo := Wrap(a.lo - b.lo);
    var hi := Wrap(a.hi - b.hi - if a.lo < b.lo then 1 else 0);
    var r := U128(lo, hi);
    Mod128(UVal(a) - UVal(b), UVal(r));
    r
  }

  function Neg(v: U128): (r: U128)
    ensures UVal(r) == (-UVal(v)) % B128
  {
    var r := U128(Wrap(0 - v.lo), Wrap(0 - v.hi - if v.lo != 0 then 1 else 0));
    Mod128(-UVal(v), UVal(r));
    r
  }

  function Cmp(a: U128, b: U128): (r: int)
    ensures r == (if UVal(a) < UVal(b) then -1 else if UVal(a) > UVal(b) then 1 else 0)
  {
    if a.hi != b.hi then (if a.hi < b.hi then -1 else 1)
    else if a.lo != b.lo then (if a.lo < b.lo then -1 else 1)
    else 0
  }

  // ---------------------------------------------------------------------
  // The product: schoolbook, in 32-bit limbs
  // ---------------------------------------------------------------------

  predicate IsLimbs(s: seq<int>) {
    forall k :: 0 <= k < |s| ==> 0 <= s[k] < B32
  }

  /** The number with the limbs s, lowest first. */
  function Limbs(s: seq<int>): int {
    if s == [] then 0 else s[0] + B32 * Limbs(s[1..])
  }

  lemma {:induction false} LimbsUpdate(s: seq<int>, k: nat, v: int)
    requires k < |s|
    ensures Limbs(s[k := v]) == Limbs(s) + (v - s[k]) * Pow(B32, k)
    decreases k
  {
    var t := s[k := v];
    if k > 0 {
      assert t[1..] == s[1..][k - 1 := v];
      LimbsUpdate(s[1..], k - 1, v);
      var d, p := v - s[k], Pow(B32, k - 1);
      assert B32 * (d * p) == d * (B32 * p);
    } else {
      assert t[1..] == s[1..];
    }
  }

  /** The first j limbs. */
  lemma {:induction false} LimbsSplit(s: seq<int>, j: nat)
    requires j <= |s|
    ensures Limbs(s) == Limbs(s[..j]) + Pow(B32, j) * Limbs(s[j..])
    decreases j
  {
    if j > 0 {
      LimbsSplit(s[1..], j - 1);
      assert s[1..][..j - 1] == s[..j][1..] && s[1..][j - 1..] == s[j..];
      var p, x := Pow(B32, j - 1), Limbs(s[j..]);
      assert B32 * (p * x) == (B32 * p) * x;
    } else {
      assert s[..0] == [] && s[0..] == s;
    }
  }

  lemma LimbsSnoc(s: seq<int>, j: nat)
    requires j < |s|
    ensures Limbs(s[..j + 1]) == Limbs(s[..j]) + Pow(B32, j) * s[j]
  {
    LimbsSplit(s[..j + 1], j);
    assert s[..j + 1][..j] == s[..j];
    var t := s[..j + 1][j..];
    assert t == [s[j]] && Limbs(t[1..]) == 0;
  }

  /** One row: adds xi * y, shifted by i limbs, to r, without the limbs past the end.
      The word sums stay below 2^64. */
  method Row(r: array<int>, xi: U32, y: seq<int>, i: nat) returns (ghost carry: U64)
    requires r.Length == |y| == 4 && i < 4 && IsLimbs(r[..]) && IsLimbs(y)
    modifies r
    ensures IsLimbs(r[..])
    ensures Limbs(r[..]) + carry * Pow(B32, 4) == Limbs(old(r[..])) + xi * Pow(B32, i) * Limbs(y[..4 - i])
  {
    ghost var r0 := Limbs(r[..]);
    var c: U64 := 0;
    var j := 0;
    assert y[..0] == [];
    while j + i < 4
      invariant 0 <= j <= 4 - i && IsLimbs(r[..]) && 0 <= c <= B32
      invariant Limbs(r[..]) + c * Pow(B32, i + j) == r0 + xi * Pow(B32, i) * Limbs(y[..j])
    {
      var p: U64 := Product(xi, y[j]);
      var t: U64 := r[i + j] + p % B32 + c;
      var c': U64 := t / B32 + p / B32;
      ghost var s := r[..];
      RowStep(s, xi, y, i, j, c, p, t, r0);
      r[i + j] := t % B32;
      assert r[..] == s[i + j := t % B32];
      c := c';
      j := j + 1;
    }
    carry := c;
  }

  function Product(a: U32, b: int): (p: U64)
    requires 0 <= b < B32
    ensures p == a * b && p / B32 <= B32 - 2
  {
    MulMono(a, B32 - 1, b);
    MulMono(b, B32 - 1, B32 - 1);
    a * b
  }

  lemma RowStep(s: seq<int>, xi: U32, y: seq<int>, i: nat, j: nat, c: int, p: int, t: int, r0: int)
    requires |s| == |y| == 4 && i + j < 4 && p == xi * y[j] && t == s[i + j] + p % B32 + c
    requires Limbs(s) + c * Pow(B32, i + j) == r0 + xi * Pow(B32, i) * Limbs(y[..j])
    ensures Limbs(s[i + j := t % B32]) + (t / B32 + p / B32) * Pow(B32, i + j + 1) == r0 + xi * Pow(B32, i) * Limbs(y[..j + 1])
  {
    var k := i + j;
    var w, wi, wj := Pow(B32, k), Pow(B32, i), Pow(B32, j);
    LimbsUpdate(s, k, t % B32);
    LimbsSnoc(y, j);
    PowAdd(B32, i, j);
    CarrySplit(t, p, s[k], c, w);
    Cross(xi, wi, Limbs(y[..j]), wj, y[j]);
    assert Pow(B32, k + 1) == B32 * w;
    assert (p + c) * w == p * w + c * w;
  }

  lemma CarrySplit(t: int, p: int, sk: int, c: int, w: int)
    requires t == sk + p % B32 + c
    ensures (t % B32 - sk) * w + (t / B32 + p / B32) * (B32 * w) == (p + c) * w
  {
    var a, b := t / B32, p / B32;
    assert t % B32 - sk + (a + b) * B32 == p + c;
    assert (a + b) * (B32 * w) == ((a + b) * B32) * w;
  }

  lemma Cross(x: int, wi: int, l: int, wj: int, y: int)
    ensures x * wi * (l + wj * y) == x * wi * l + (x * y) * (wi * wj)
  {
    assert (x * wi) * (wj * y) == (x * y) * (wi * wj);
  }

  function Halves(w: U64): (r: seq<int>)
    ensures |r| == 2 && IsLimbs(r) && r[0] + B32 * r[1] == w
  {
    [w % B32, w / B32]
  }

  function LimbsOf(v: U128): (r: seq<int>)
    ensures |r| == 4 && IsLimbs(r) && Limbs(r) == UVal(v)
  {
    var r := Halves(v.lo) + Halves(v.hi);
    LimbsFour(r);
    r
  }

  lemma LimbsFour(s: seq<int>)
    requires |s| == 4
    ensures Limbs(s) == s[0] + B32 * s[1] + B64 * (s[2] + B32 * s[3])
  {
    assert Limbs(s[1..][1..][1..][1..]) == 0;
    assert Limbs(s[1..][1..][1..]) == s[3];
    assert Limbs(s[1..][1..]) == s[2] + B32 * s[3];
    assert Limbs(s[1..]) == s[1] + B32 * (s[2] + B32 * s[3]);
  }

  /** pli_mul_u. */
  method Mul(a: U128, b: U128) returns (q: U128)
    ensures UVal(q) == (UVal(a) * UVal(b)) % B128
  {
    var r, over := MulLimbs(LimbsOf(a), LimbsOf(b));
    q := Join(r);
    LowPart(Limbs(LimbsOf(a)) * Limbs(LimbsOf(b)), Limbs(r), over);
  }

  function Join(r: seq<int>): (q: U128)
    requires |r| == 4 && IsLimbs(r)
    ensures UVal(q) == Limbs(r)
  {
    LimbsFour(r);
    U128(r[1] * B32 + r[0], r[3] * B32 + r[2])
  }

  lemma LowPart(m: int, low: int, over: int)
    requires low + over * B128 == m && 0 <= low < B128
    ensures m % B128 == low
  {
    ModMultiple(m, low, over, B128);
  }

  method MulLimbs(x: seq<int>, y: seq<int>) returns (q: seq<int>, ghost over: int)
    requires |x| == |y| == 4 && IsLimbs(x) && IsLimbs(y)
    ensures |q| == 4 && IsLimbs(q) && Limbs(q) + over * B128 == Limbs(x) * Limbs(y)
  {
    var r := new int[4](_ => 0);
    LimbsFour(r[..]);
    over := 0;
    assert x[..0] == [];
    var i := 0;
    while i < 4
      invariant 0 <= i <= 4 && IsLimbs(r[..])
      invariant Limbs(r[..]) + over * B128 == Limbs(x[..i]) * Limbs(y)
    {
      ghost var s := Limbs(r[..]);
      var carry := Row(r, x[i], y, i);
      over := RowCarry(x, y, i, s, Limbs(r[..]), carry, over);
      i := i + 1;
    }
    assert x[..4] == x;
    q := r[..];
  }

  /** What the row dropped is a multiple of 2^128. */
  lemma RowCarry(x: seq<int>, y: seq<int>, i: nat, s: int, s': int, carry: int, over: int) returns (over': int)
    requires |x| == |y| == 4 && i < 4
    requires s + over * B128 == Limbs(x[..i]) * Limbs(y)
    requires s' + carry * Pow(B32, 4) == s + x[i] * Pow(B32, i) * Limbs(y[..4 - i])
    ensures s' + over' * B128 == Limbs(x[..i + 1]) * Limbs(y)
  {
    var low, high := Limbs(y[..4 - i]), Limbs(y[4 - i..]);
    LimbsSplit(y, 4 - i);
    LimbsSnoc(x, i);
    PowAdd(B32, i, 4 - i);
    Pow4();
    var wi, w := Pow(B32, i), Pow(B32, 4 - i);
    over' := over + carry + x[i] * high;
    calc {
      Limbs(x[..i + 1]) * Limbs(y);
      (Limbs(x[..i]) + wi * x[i]) * Limbs(y);
      Limbs(x[..i]) * Limbs(y) + wi * x[i] * Limbs(y);
      { assert wi * x[i] * (low + w * high) == x[i] * wi * low + (wi * w) * (x[i] * high); }
      Limbs(x[..i]) * Limbs(y) + x[i] * wi * low + (wi * w) * (x[i] * high);
    }
  }

  lemma Pow4()
    ensures Pow(B32, 4) == B128
  {
    assert Pow(B32, 1) == B32 && Pow(B32, 2) == B32 * B32 && Pow(B32, 3) == B32 * B32 * B32;
  }

  // ---------------------------------------------------------------------
  // The quotient: restoring shift and subtract
  // ---------------------------------------------------------------------

  /** Bit i of n, from the word that holds it. */
  function Bit(n: U128, i: nat): (r: U64)
    requires i < 128
    ensures r == (UVal(n) / Pow(2, i)) % 2
  {
    var r := if i >= 64 then (n.hi / Pow(2, i - 64)) % 2 else (n.lo / Pow(2, i)) % 2;
    BitOfWord(n, i);
    r
  }

  lemma Pow64(k: nat)
    requires k == 64
    ensures Pow(2, k) == B64
  {
    PowAdd(2, k / 2, k / 2);
    PowAdd(2, k / 4, k / 4);
    PowAdd(2, k / 8, k / 8);
    PowAdd(2, k / 16, k / 16);
    PowAdd(2, k / 32, k / 32);
    assert Pow(2, 1) == 2;
    assert Pow(2, 2) == 4;
    Squares(Pow(2, k / 16), Pow(2, k / 8), Pow(2, k / 4), Pow(2, k / 2));
  }

  lemma Squares(a: int, b: int, c: int, d: int)
    requires a == 16 && b == a * a && c == b * b && d == c * c
    ensures d * d == B64
  {
    assert b == 256 && c == 65536;
  }

  lemma BitOfWord(n: U128, i: nat)
    requires i < 128
    ensures (UVal(n) / Pow(2, i)) % 2 == if i >= 64 then (n.hi / Pow(2, i - 64)) % 2 else (n.lo / Pow(2, i)) % 2
  {
    if i >= 64 { BitOfHigh(n, i, 64); } else { BitOfLow(n, i, 64); }
  }

  lemma BitOfHigh(n: U128, i: nat, k: nat)
    requires k == 64 <= i < 128
    ensures UVal(n) / Pow(2, i) == n.hi / Pow(2, i - k)
  {
    Pow64(k);
    PowAdd(2, k, i - k);
    DivDiv(UVal(n), B64, Pow(2, i - k));
    DivModUnique(UVal(n), B64, n.hi, n.lo);
  }

  lemma BitOfLow(n: U128, i: nat, k: nat)
    requires i < k == 64
    ensures (UVal(n) / Pow(2, i)) % 2 == (n.lo / Pow(2, i)) % 2
  {
    Pow64(k);
    PowAdd(2, i, k - i);
    LowWord(n.hi, n.lo, Pow(2, i), Pow(2, k - i - 1));
  }

  lemma LowWord(hi: nat, lo: nat, w: nat, v: nat)
    requires w > 0 && w * (2 * v) == B64
    ensures ((hi * B64 + lo) / w) % 2 == (lo / w) % 2
  {
    var x, y := lo / w, lo % w;
    var m := hi * (2 * v);
    assert hi * (w * (2 * v)) == m * w;
    assert (m + x) * w == m * w + x * w;
    DivModUnique(hi * B64 + lo, w, m + x, y);
    assert m == (hi * v) * 2;
    ModMultiple(m + x, x, hi * v, 2);
  }

  lemma NextBit(n: nat, i: nat)
    ensures n / Pow(2, i) == 2 * (n / Pow(2, i + 1)) + (n / Pow(2, i)) % 2
  {
    DivDiv(n, Pow(2, i), 2);
  }

  /** The remainder shifted left with a bit brought in: 129 bits. */
  method Shift(rlo: U64, rhi: U64, bit: U64) returns (lo: U64, hi: U64, carry: U64)
    requires bit <= 1
    ensures carry <= 1 && carry * B128 + UVal(U128(lo, hi)) == 2 * UVal(U128(rlo, rhi)) + bit
  {
    carry := rhi / 0x8000_0000_0000_0000;
    hi := Wrap(rhi * 2) + rlo / 0x8000_0000_0000_0000;
    lo := Wrap(rlo * 2) + bit;
  }

  /** Word by word subtraction with its borrow out. */
  method Borrow(lo: U64, hi: U64, d: U128) returns (blo: U64, bhi: U64, b1: U64)
    ensures UVal(U128(blo, bhi)) == UVal(U128(lo, hi)) - UVal(d) + b1 * B128 && b1 <= 1
  {
    blo := Wrap(lo - d.lo);
    var b0 := if lo < d.lo then 1 else 0;
    bhi := Wrap(hi - d.hi - b0);
    b1 := if hi < d.hi || (b0 == 1 && hi == d.hi) then 1 else 0;
  }

  /** The shifted remainder, less d if that is possible. */
  method Restore(rlo: U64, rhi: U64, bit: U64, d: U128) returns (rlo': U64, rhi': U64, took: bool)
    requires bit <= 1 && UVal(U128(rlo, rhi)) < UVal(d)
    ensures var t := 2 * UVal(U128(rlo, rhi)) + bit;
      && took == (t >= UVal(d))
      && UVal(U128(rlo', rhi')) == (if took then t - UVal(d) else t) < UVal(d)
  {
    var carry;
    rlo', rhi', carry := Shift(rlo, rhi, bit);
    took := carry != 0 || Cmp(U128(rlo', rhi'), d) >= 0;
    if took {
      var blo, bhi, b1 := Borrow(rlo', rhi', d);
      rlo', rhi' := blo, bhi;
      assert carry == b1;
    }
  }

  /** The quotient so far, and the place of its next bit. */
  ghost predicate Quotient(q: U128, i: int, qv: nat) {
    && -1 <= i < 128 && UVal(q) == qv * Pow(2, i + 1)
    && (i >= 63 ==> q.lo == 0) && (i < 63 ==> q.lo % Pow(2, i + 1) == 0)
  }

  /** Sets bit i, which is clear. */
  function SetBit(q: U128, i: nat): U128
    requires i < 128
  {
    if i >= 64 then q.(hi := Wrap(q.hi + Pow(2, i - 64))) else q.(lo := Wrap(q.lo + Pow(2, i)))
  }

  lemma SetBitMeans(q: U128, i: nat, qv: nat)
    requires i < 128 && Quotient(q, i, qv) && (2 * qv + 1) * Pow(2, i) < B128
    ensures Quotient(SetBit(q, i), i - 1, 2 * qv + 1)
  {
    Spread(qv, Pow(2, i));
    if i >= 64 {
      SetHigh(q, i, 64);
    } else {
      assert i == 63 ==> q.lo == 0;
      SetLow(q, i, 64);
    }
  }

  lemma Spread(qv: nat, w: nat)
    ensures (2 * qv + 1) * w == qv * (2 * w) + w && (2 * qv) * w == qv * (2 * w)
  {
  }

  lemma SetHigh(q: U128, i: nat, k: nat)
    requires k == 64 <= i < 128 && q.lo == 0 && UVal(q) + Pow(2, i) < B128
    ensures SetBit(q, i).lo == 0 && UVal(SetBit(q, i)) == UVal(q) + Pow(2, i)
  {
    Pow64(k);
    PowAdd(2, k, i - k);
    SumBelow(q.hi, Pow(2, i - k));
  }

  lemma SumBelow(a: nat, b: nat)
    requires a * B64 + b * B64 < B128
    ensures a + b < B64 && (a + b) * B64 == a * B64 + b * B64
  {
  }

  lemma SetLow(q: U128, i: nat, k: nat)
    requires i < k == 64 && q.lo % Pow(2, i + 1) == 0
    ensures SetBit(q, i).lo % Pow(2, i) == 0 && UVal(SetBit(q, i)) == UVal(q) + Pow(2, i)
  {
    assert Pow(2, i + 1) * Pow(2, k - i - 1) == B64 by {
      Pow64(k);
      PowAdd(2, i + 1, k - i - 1);
    }
    BelowTop(q.lo, Pow(2, i), Pow(2, k - i - 1));
  }

  lemma ClearBitMeans(q: U128, i: nat, qv: nat)
    requires i < 128 && Quotient(q, i, qv)
    ensures Quotient(q, i - 1, 2 * qv)
  {
    var w := Pow(2, i);
    Spread(qv, w);
    if i < 63 {
      var m := q.lo / (2 * w);
      assert q.lo == (2 * m) * w;
      DivModUnique(q.lo, w, 2 * m, 0);
    }
  }

  /** A multiple of 2w below 2w * v leaves room for w, and w fits below it. */
  lemma BelowTop(x: nat, w: nat, v: nat)
    requires w > 0 && x % (2 * w) == 0 && (2 * w) * v == B64 && x < B64
    ensures x + w < B64 && (x + w) % w == 0
  {
    var m := x / (2 * w);
    assert x == m * (2 * w);
    if m >= v { MulMono(v, m, 2 * w); }
    MulMono(m + 1, v, 2 * w);
    DivModUnique(x + w, w, 2 * m + 1, 0);
  }

  /** pli_divmod_u: exact for every divisor but 0, one of 2^127 or more included. */
  method DivMod(n: U128, d: U128) returns (q: U128, r: U128)
    requires UVal(d) > 0
    ensures UVal(n) == UVal(q) * UVal(d) + UVal(r) && UVal(r) < UVal(d)
  {
    r := U128(0, 0);
    q := U128(0, 0);
    ghost var qv: nat := 0;
    var i := 127;
    StartOfDivision(UVal(n), 128);
    while i >= 0
      invariant -1 <= i <= 127 && Quotient(q, i, qv) && UVal(r) < UVal(d)
      invariant UVal(n) / Pow(2, i + 1) == qv * UVal(d) + UVal(r)
      decreases i
    {
      q, r, qv := DivStep(n, d, i, q, r, qv);
      i := i - 1;
    }
  }

  lemma StartOfDivision(n: nat, k: nat)
    requires k == 128 && n < B128
    ensures n / Pow(2, k) == 0
  {
    Pow64(k / 2);
    PowAdd(2, k / 2, k / 2);
  }

  method DivStep(n: U128, d: U128, i: nat, q: U128, r: U128, ghost qv: nat) returns (q': U128, r': U128, ghost qv': nat)
    requires i < 128 && Quotient(q, i, qv) && UVal(r) < UVal(d)
    requires UVal(n) / Pow(2, i + 1) == qv * UVal(d) + UVal(r)
    ensures Quotient(q', i - 1, qv') && UVal(r') < UVal(d)
    ensures UVal(n) / Pow(2, i) == qv' * UVal(d) + UVal(r')
  {
    var bit := Bit(n, i);
    var rlo, rhi, took := Restore(r.lo, r.hi, bit, d);
    r' := U128(rlo, rhi);
    qv' := if took then 2 * qv + 1 else 2 * qv;
    q' := if took then SetBit(q, i) else q;
    assert UVal(n) / Pow(2, i) == qv' * UVal(d) + UVal(r') by {
      NextBit(UVal(n), i);
      Advance(UVal(n) / Pow(2, i + 1), qv, UVal(d), UVal(r), bit, took);
    }
    assert Quotient(q', i - 1, qv') by {
      if took {
        QuotientFits(UVal(n), UVal(d), i, qv', UVal(r'));
        SetBitMeans(q, i, qv);
      } else {
        ClearBitMeans(q, i, qv);
      }
    }
  }

  lemma Advance(p: int, qv: int, d: int, r: int, bit: int, took: bool)
    requires p == qv * d + r
    ensures 2 * p + bit == if took then (2 * qv + 1) * d + (2 * r + bit - d) else (2 * qv) * d + (2 * r + bit)
  {
  }

  lemma QuotientFits(n: nat, d: nat, i: nat, qv: nat, r: nat)
    requires n < B128 && d > 0 && n / Pow(2, i) == qv * d + r
    ensures qv * Pow(2, i) < B128
  {
    var w := Pow(2, i);
    MulMono(1, d, qv);
    assert n >= (n / w) * w;
    MulMono(qv, n / w, w);
  }

  /** pli_divmod10. */
  method DivMod10(v: U128) returns (q: U128, digit: U64)
    ensures UVal(q) == UVal(v) / 10 && digit == UVal(v) % 10
  {
    var r;
    q, r := DivMod(v, U128(10, 0));
    DivModUnique(UVal(v), 10, UVal(q), UVal(r));
    digit := r.lo;
  }

  // ---------------------------------------------------------------------
  // Signed
  // ---------------------------------------------------------------------

  function Abs(x: int): nat { if x < 0 then -x else x }

  function NegS(v: I128): (r: I128)
    ensures SVal(r) == Signed(-SVal(v))
  {
    SignedNeg(SVal(v));
    ToS(Neg(ToU(v)))
  }

  lemma SignedNeg(x: int)
    requires -B127 <= x < B127
    ensures Signed((-(x % B128)) % B128) == Signed(-x)
  {
    if x < 0 { Mod128(x, x + B128); } else { Mod128(x, x); }
    if x > 0 { Mod128(-x, B128 - x); }
  }

  /** The magnitude, exact for the least number too. */
  function Mag(v: I128): (r: U128)
    ensures UVal(r) == Abs(SVal(v))
  {
    var x := SVal(v);
    if IsNeg(v) then
      Mod128(x, x + B128);
      Mod128(-(x + B128), -x);
      Neg(ToU(v))
    else
      Mod128(x, x);
      ToU(v)
  }

  /** Division that truncates toward zero, as C does. */
  function TruncDiv(a: int, b: int): int
    requires b != 0
  {
    if (a < 0) != (b < 0) then -(Abs(a) / Abs(b)) else Abs(a) / Abs(b)
  }

  /** The one quotient that does not fit. */
  predicate Overflows(a: int, b: int) { a == -B127 && b == -1 }

  /** pli_sdiv: the truncated quotient, 0 for a zero divisor, and the least number
      again when it is divided by -1. */
  method SDiv(a: I128, b: I128) returns (r: I128)
    ensures SVal(b) == 0 ==> SVal(r) == 0
    ensures SVal(b) != 0 && !Overflows(SVal(a), SVal(b)) ==> SVal(r) == TruncDiv(SVal(a), SVal(b))
    ensures Overflows(SVal(a), SVal(b)) ==> SVal(r) == -B127
  {
    ZeroMeans(b);
    if IsZero(ToU(b)) {
      r := ToS(U128(0, 0));
    } else {
      var q := DivMags(a, b);
      r := WithSign(IsNeg(a) != IsNeg(b), q);
      SignOfQuotient(SVal(a), SVal(b), UVal(q));
    }
  }

  method DivMags(a: I128, b: I128) returns (q: U128)
    requires SVal(b) != 0
    ensures UVal(q) == Abs(SVal(a)) / Abs(SVal(b))
  {
    var rem;
    q, rem := DivMod(Mag(a), Mag(b));
    DivModUnique(UVal(Mag(a)), UVal(Mag(b)), UVal(q), UVal(rem));
  }

  function WithSign(neg: bool, q: U128): (r: I128)
    ensures SVal(r) == if neg then Signed(-Signed(UVal(q))) else Signed(UVal(q))
  {
    if neg then NegS(ToS(q)) else ToS(q)
  }

  lemma SignOfQuotient(a: int, b: int, q: int)
    requires b != 0 && -B127 <= a < B127 && q == Abs(a) / Abs(b)
    ensures var r := if (a < 0) != (b < 0) then Signed(-Signed(q)) else Signed(q);
      r == if Overflows(a, b) then -B127 else TruncDiv(a, b)
  {
    DivBounds(Abs(a), Abs(b));
    Fits(q);
  }

  lemma ZeroMeans(v: I128)
    ensures IsZero(ToU(v)) <==> SVal(v) == 0
  {
    if SVal(v) < 0 { Mod128(SVal(v), SVal(v) + B128); } else { Mod128(SVal(v), SVal(v)); }
  }

  lemma DivBounds(x: nat, y: nat)
    requires y > 0
    ensures 0 <= x / y <= x && (y >= 2 ==> 2 * (x / y) <= x) && (y == 1 ==> x / y == x)
  {
    var q := x / y;
    assert x == q * y + x % y;
    MulMono(if y >= 2 then 2 else 1, y, q);
  }

  lemma Fits(q: int)
    requires 0 <= q <= B127
    ensures Signed(q) == (if q == B127 then -B127 else q) && Signed(-Signed(q)) == if q == B127 then -B127 else -q
  {
    Mod128(q, q);
    if q > 0 { Mod128(-q, B128 - q); }
    Mod128(B127, B127);
  }
}
