/**
 Printing and reading wide FIXED DECIMAL values (runtime/rt_stream.c, pli_fmt128
 and rt_format_decfixed128; runtime/rt_get.c, pli_get_list_decfixed_wide).

 A stored 128-bit integer v at scale q stands for v / 10^q.  Both sides work with
 the portable 128-bit operations only.  What is printed at any scale is read back
 as the same value at that scale, the least number included.
 */
module Decimal {
  import opened Powers
  import opened Wide128

  const MAXQ: nat := 38

  /** The scale both sides work with. */
  function Clamp(q: int): nat { if q < 0 then 0 else if q > MAXQ then MAXQ else q }

  predicate IsDigit(c: char) { '0' <= c <= '9' }

  function DigitChar(d: int): (c: char)
    requires 0 <= d < 10
    ensures IsDigit(c) && DigitOf(c) == d
  {
    (d + 48) as char
  }

  function DigitOf(c: char): (d: int)
    requires IsDigit(c)
    ensures 0 <= d < 10
  {
    c as int - 48
  }

  ghost predicate AllDigits(s: string) { forall i :: 0 <= i < |s| ==> IsDigit(s[i]) }

  /** The decimal digits of n, without leading zeros. */
  function Digits(n: nat): (s: string)
    ensures |s| > 0 && forall i :: 0 <= i < |s| ==> IsDigit(s[i])
  {
    if n < 10 then [DigitChar(n)] else Digits(n / 10) + [DigitChar(n % 10)]
  }

  /** The k last decimal digits of m. */
  function Fixed(m: nat, k: nat): (s: string)
    ensures |s| == k && forall i :: 0 <= i < |s| ==> IsDigit(s[i])
  {
    if k == 0 then [] else Fixed(m / 10, k - 1) + [DigitChar(m % 10)]
  }

  /** The number that a string of digits denotes. */
  function Num(s: string): nat
    requires AllDigits(s)
  {
    if s == [] then 0 else 10 * Num(s[..|s| - 1]) + DigitOf(s[|s| - 1])
  }

  lemma NumSnoc(s: string, c: char)
    requires AllDigits(s) && IsDigit(c)
    ensures AllDigits(s + [c]) && Num(s + [c]) == 10 * Num(s) + DigitOf(c)
  {
    assert (s + [c])[..|s|] == s;
  }

  lemma {:induction false} NumDigits(n: nat)
    ensures Num(Digits(n)) == n
  {
    if n < 10 {
      assert Digits(n)[..0] == [];
    } else {
      NumDigits(n / 10);
      NumSnoc(Digits(n / 10), DigitChar(n % 10));
    }
  }

  lemma {:induction false} NumFixed(m: nat, k: nat)
    requires m < Pow(10, k)
    ensures Num(Fixed(m, k)) == m
    decreases k
  {
    if k > 0 {
      NumFixed(m / 10, k - 1);
      NumSnoc(Fixed(m / 10, k - 1), DigitChar(m % 10));
    }
  }

  lemma {:induction false} DigitsLength(n: nat, k: nat)
    requires k >= 1 && n < Pow(10, k)
    ensures |Digits(n)| <= k
    decreases k
  {
    if n >= 10 {
      assert k > 1 by { assert Pow(10, 1) == 10; }
      DigitsLength(n / 10, k - 1);
    }
  }

  /** The text of v at scale q. */
  function DecText(v: int, q: int): string {
    TextAt(v < 0, Abs(v), Pow(10, Clamp(q)), Clamp(q))
  }

  function TextAt(neg: bool, m: nat, w: nat, k: nat): string
    requires w > 0
  {
    TextOf(neg, m / w, m % w, k)
  }

  /** 128-bit magnitudes have at most 39 digits. */
  lemma Pow39(k: nat)
    requires k == 39
    ensures B128 < Pow(10, k) && Pow(10, k - 1) < B128
  {
    var a := Pow(10, 13);
    assert a == 10_000_000_000_000;
    PowAdd(10, 13, 13);
    PowAdd(10, 13, 26);
    assert a * a == 100_000_000_000_000_000_000_000_000;
  }

  // ---------------------------------------------------------------------
  // Printing
  // ---------------------------------------------------------------------

  function Rev(s: string): (r: string)
    ensures |r| == |s|
  {
    if s == [] then [] else [s[|s| - 1]] + Rev(s[..|s| - 1])
  }

  lemma RevSnoc(s: string, c: char)
    ensures Rev(s + [c]) == [c] + Rev(s)
  {
    assert (s + [c])[..|s|] == s;
  }

  lemma {:induction false} RevAt(s: string, i: nat)
    requires i < |s|
    ensures Rev(s)[i] == s[|s| - 1 - i]
    decreases |s|
  {
    if i > 0 { RevAt(s[..|s| - 1], i - 1); }
  }

  /** The digits of n, none for 0. */
  function Leading(n: nat): string { if n == 0 then [] else Digits(n) }

  lemma MoveDigit(n: nat, tmp: string)
    requires n > 0
    ensures Leading(n) + Rev(tmp) == Leading(n / 10) + Rev(tmp + [DigitChar(n % 10)])
  {
    var c := DigitChar(n % 10);
    LeadingStep(n);
    RevSnoc(tmp, c);
    Assoc(Leading(n / 10), [c], Rev(tmp));
  }

  lemma LeadingStep(n: nat)
    requires n > 0
    ensures Leading(n) == Leading(n / 10) + [DigitChar(n % 10)]
  {
    if n < 10 { assert n / 10 == 0 && n % 10 == n; }
  }

  lemma Assoc(a: string, b: string, c: string)
    ensures a + (b + c) == (a + b) + c
  {
  }

  /** pli_fmt128: the digits are produced lowest first and then turned around. */
  method Fmt128(cap: nat, v: U128) returns (text: string)
    ensures text == Last(Digits(UVal(v)), cap)
  {
    var tmp := LowestFirst(v);
    var n := if |tmp| > cap then cap else |tmp|;
    text := "";
    for i := 0 to n
      invariant |text| == i && forall j :: 0 <= j < i ==> text[j] == Rev(tmp)[|tmp| - n + j]
    {
      RevAt(tmp, |tmp| - n + i);
      text := text + [tmp[n - 1 - i]];
    }
  }

  /** The last n characters, or all. */
  function Last(s: string, n: nat): string { if n < |s| then s[|s| - n..] else s }

  method LowestFirst(v: U128) returns (tmp: string)
    ensures Rev(tmp) == Digits(UVal(v))
  {
    if IsZero(v) {
      tmp := "" + "0";
      RevSnoc("", '0');
    } else {
      tmp := Peel(v, 39);
    }
  }

  method Peel(v: U128, ghost top: nat) returns (tmp: string)
    requires UVal(v) > 0 && top == 39
    ensures Rev(tmp) == Digits(UVal(v))
  {
    tmp := "";
    assert Leading(UVal(v)) + Rev(tmp) == Leading(UVal(v));
    ghost var k: nat, goal := top, Leading(UVal(v));
    Pow39(top);
    var w := v;
    while !IsZero(w) && |tmp| < 40
      invariant Leading(UVal(w)) + Rev(tmp) == goal
      invariant k + |tmp| == top && UVal(w) < Pow(10, k)
      decreases UVal(w)
    {
      var d;
      MoveDigit(UVal(w), tmp);
      DigitStep(UVal(w), k);
      w, d := DivMod10(w);
      tmp := tmp + [DigitChar(d)];
      k := k - 1;
    }
    assert Leading(0) + Rev(tmp) == Rev(tmp);
  }

  lemma DigitStep(n: nat, k: int)
    requires 0 < n && k >= 0 && n < Pow(10, k)
    ensures k > 0 && n / 10 < Pow(10, k - 1)
  {
  }

  /** 10^k, by repeated multiplication. */
  method TenTo(q: int) returns (f: U128)
    ensures UVal(f) == Pow(10, Clamp(q))
  {
    f := U128(1, 0);
    var i := 0;
    while i < q && i < 38
      invariant 0 <= i <= 38 && i <= Clamp(q) && UVal(f) == Pow(10, i)
    {
      f := Mul(f, U128(10, 0));
      TenStep(i, 39);
      i := i + 1;
    }
  }

  lemma TenStep(i: nat, top: nat)
    requires i < 38 && top == 39
    ensures (Pow(10, i) * 10) % B128 == Pow(10, i + 1)
  {
    Pow39(top);
    PowMono(i + 1, top - 1);
    Mod128(Pow(10, i + 1), Pow(10, i + 1));
  }

  lemma {:induction false} PowMono(j: nat, k: nat)
    requires j <= k
    ensures Pow(10, j) <= Pow(10, k)
    decreases k
  {
    if j < k { PowMono(j, k - 1); }
  }

  /** The fraction's digits, lowest first. */
  method FractionDigits(rem: U128, k: nat) returns (frac: string)
    ensures |frac| == k && Rev(frac) == Fixed(UVal(rem), k)
  {
    frac := "";
    var w := rem;
    for i := 0 to k
      invariant |frac| == i && Fixed(UVal(w), k - i) + Rev(frac) == Fixed(UVal(rem), k)
    {
      var d;
      ghost var before := UVal(w);
      w, d := DivMod10(w);
      RevSnoc(frac, DigitChar(d));
      assert Fixed(before, k - i) == Fixed(before / 10, k - i - 1) + [DigitChar(d)];
      assert Fixed(before / 10, k - i - 1) + ([DigitChar(d)] + Rev(frac)) == Fixed(before, k - i) + Rev(frac);
      frac := frac + [DigitChar(d)];
    }
    assert [] + Rev(frac) == Rev(frac);
  }

  /** The text in a buffer of cap characters: of an integer part that is too long its
      last digits, of the fraction as much as leaves room for the closing NUL. */
  function Cut(cap: nat, neg: bool, ip: nat, rem: nat, k: nat): (r: string)
    requires cap >= 1
    ensures |r| <= cap
  {
    var sign := if neg then "-" else "";
    WithFraction(cap, sign + Last(Digits(ip), cap - |sign|), rem, k)
  }

  function WithFraction(cap: nat, head: string, rem: nat, k: nat): (r: string)
    requires |head| <= cap
    ensures |r| <= cap
  {
    if k == 0 || |head| + 1 >= cap then head else First(head + "." + Fixed(rem, k), cap - 1)
  }

  lemma CutNothing(cap: nat, neg: bool, ip: nat, rem: nat, k: nat)
    requires |TextOf(neg, ip, rem, k)| < cap
    ensures Cut(cap, neg, ip, rem, k) == TextOf(neg, ip, rem, k)
  {
  }

  function CutAt(cap: nat, neg: bool, m: nat, w: nat, k: nat): (r: string)
    requires cap >= 1 && w > 0
    ensures |r| <= cap && (|TextAt(neg, m, w, k)| < cap ==> r == TextAt(neg, m, w, k))
  {
    if |TextAt(neg, m, w, k)| < cap then
      CutNothing(cap, neg, m / w, m % w, k); Cut(cap, neg, m / w, m % w, k)
    else Cut(cap, neg, m / w, m % w, k)
  }

  function First(s: string, n: nat): string { if n < |s| then s[..n] else s }

  /** rt_format_decfixed128, without the closing NUL. */
  method Format(cap: nat, v: I128, q: int) returns (text: string)
    requires cap >= 1
    ensures |text| <= cap && |DecText(SVal(v), q)| <= 41
    ensures |DecText(SVal(v), q)| < cap ==> text == DecText(SVal(v), q)
    ensures text == CutAt(cap, SVal(v) < 0, Abs(SVal(v)), Pow(10, Clamp(q)), Clamp(q))
  {
    var mag := Mag(v);
    var ip, rem := Parts(mag, q);
    IntegerPart(UVal(mag), Clamp(q), 39);
    text := Compose(cap, IsNeg(v), ip, rem, q);
  }

  method Compose(cap: nat, neg: bool, ip: U128, rem: U128, q: int) returns (text: string)
    requires cap >= 1
    ensures text == Cut(cap, neg, UVal(ip), UVal(rem), Clamp(q))
  {
    text := if neg then "-" else "";
    var whole := Fmt128(cap - |text|, ip);
    text := text + whole;
    if q > 0 {
      text := AppendFraction(cap, text, rem, q);
    }
  }

  /** Sign, integer part, point and k digits of fraction. */
  function TextOf(neg: bool, ip: nat, rem: nat, k: nat): string {
    (if neg then "-" else "") + Digits(ip) + (if k > 0 then "." + Fixed(rem, k) else "")
  }

  method Parts(mag: U128, q: int) returns (ip: U128, rem: U128)
    ensures UVal(ip) == UVal(mag) / Pow(10, Clamp(q)) && UVal(rem) == UVal(mag) % Pow(10, Clamp(q))
  {
    var factor := TenTo(q);
    ip, rem := DivMod(mag, factor);
    DivModUnique(UVal(mag), UVal(factor), UVal(ip), UVal(rem));
  }

  /** The point and the fraction, as far as there is room for them. */
  method AppendFraction(cap: nat, head: string, rem: U128, q: int) returns (text: string)
    requires q > 0 && |head| <= cap
    ensures text == WithFraction(cap, head, UVal(rem), Clamp(q))
  {
    text := head;
    var room := cap - |text|;
    if room > 1 {
      text := text + ".";
      room := room - 1;
      var ndig := if q < 38 then q else 38;
      var frac := FractionDigits(rem, ndig);
      var i := ndig - 1;
      while i >= 0 && room > 1
        invariant -1 <= i < ndig && room == cap - |text|
        invariant room >= 1 && text == head + "." + Rev(frac)[..ndig - 1 - i]
      {
        RevAt(frac, ndig - 1 - i);
        text := text + [frac[i]];
        room := room - 1;
        i := i - 1;
      }
      if i < 0 {
        assert Rev(frac)[..ndig] == Rev(frac);
      } else {
        assert (head + "." + Rev(frac))[..cap - 1] == head + "." + Rev(frac)[..ndig - 1 - i];
      }
    }
  }

  /** The digits before the point and after it are at most 39 together. */
  lemma IntegerPart(mag: nat, k: nat, top: nat)
    requires mag < B128 && k <= 38 && top == 39
    ensures |Digits(mag / Pow(10, k))| + k <= 39
  {
    Pow39(top);
    PowAdd(10, k, top - k);
    QuotientLength(mag, Pow(10, k), top - k);
  }

  lemma QuotientLength(m: nat, w: nat, t: nat)
    requires w > 0 && t >= 1 && m < w * Pow(10, t)
    ensures |Digits(m / w)| <= t
  {
    DivLess(m, w, Pow(10, t));
    DigitsLength(m / w, t);
  }

  lemma DivLess(m: nat, w: nat, u: nat)
    requires w > 0 && m < w * u
    ensures m / w < u
  {
    assert m == (m / w) * w + m % w;
    if m / w >= u { MulMono(u, m / w, w); }
  }

  // ---------------------------------------------------------------------
  // Reading
  // ---------------------------------------------------------------------

  /** Where the run of digits that begins at i ends. */
  function RunEnd(s: string, i: nat): (e: nat)
    requires i <= |s|
    ensures i <= e <= |s| && (forall j :: i <= j < e ==> IsDigit(s[j])) && (e < |s| ==> !IsDigit(s[e]))
    decreases |s| - i
  {
    if i < |s| && IsDigit(s[i]) then RunEnd(s, i + 1) else i
  }

  function SignLength(s: string): nat { if |s| > 0 && (s[0] == '+' || s[0] == '-') then 1 else 0 }

  /** Where the fraction's significant digits end: at most k of them count. */
  function FracEnd(s: string, e: nat, k: nat): (f: nat)
    requires e <= |s|
    ensures e < |s| && s[e] == '.' ==> e + 1 <= f <= RunEnd(s, e + 1) && f <= e + 1 + k
  {
    if e < |s| && s[e] == '.' then (if RunEnd(s, e + 1) <= e + 1 + k then RunEnd(s, e + 1) else e + 1 + k) else e
  }

  function FracDigits(s: string, e: nat, k: nat): (d: string)
    requires e <= |s|
    ensures |d| <= k && forall i :: 0 <= i < |d| ==> IsDigit(d[i])
  {
    if e < |s| && s[e] == '.' then s[e + 1..FracEnd(s, e, k)] else []
  }

  /** The magnitude that the token denotes at scale k. */
  function TokenMag(s: string, k: nat): int {
    Joined(WholeDigits(s), FracDigits(s, RunEnd(s, SignLength(s)), k), k)
  }

  function WholeDigits(s: string): (d: string)
    ensures forall i :: 0 <= i < |d| ==> IsDigit(d[i])
  {
    s[SignLength(s)..RunEnd(s, SignLength(s))]
  }

  function Joined(w: string, f: string, k: nat): int
    requires AllDigits(w) && AllDigits(f) && |f| <= k
  {
    Num(w) * Pow(10, k) + Num(f) * Pow(10, k - |f|)
  }

  /** What the reader makes of the token: the value modulo 2^128. */
  function TokenVal(s: string, q: int): int {
    var m := TokenMag(s, Clamp(q));
    if |s| > 0 && s[0] == '-' then Signed(-m) else Signed(m)
  }

  lemma MulMod(a: int, b: int)
    ensures ((a % B128) * b) % B128 == (a * b) % B128
  {
    var q := a / B128;
    assert a * b == (a % B128) * b + (q * b) * B128 by {
      assert a == q * B128 + a % B128;
      assert (q * B128) * b == (q * b) * B128;
    }
    ModMultiple(a * b, (a % B128) * b, q * b, B128);
  }

  lemma AddMod(a: int, b: int)
    ensures (a % B128 + b) % B128 == (a + b) % B128 && (a % B128 + b % B128) % B128 == (a + b) % B128
  {
    ModMultiple(a + b, a % B128 + b, a / B128, B128);
    ModMultiple(a % B128 + b, a % B128 + b % B128, b / B128, B128);
  }

  /** One digit more. */
  method Shift10(acc: U128, c: char, ghost n: int) returns (r: U128)
    requires IsDigit(c) && UVal(acc) == n % B128
    ensures UVal(r) == (10 * n + DigitOf(c)) % B128
  {
    var t := Mul(acc, U128(10, 0));
    MulMod(n, 10);
    r := Add(t, U128(DigitOf(c), 0));
    AddMod(n * 10, DigitOf(c));
  }

  method Scale10(acc: U128, times: nat, ghost n: int) returns (r: U128)
    requires UVal(acc) == n % B128
    ensures UVal(r) == (n * Pow(10, times)) % B128
  {
    r := acc;
    for i := 0 to times
      invariant UVal(r) == (n * Pow(10, i)) % B128
    {
      MulMod(n * Pow(10, i), 10);
      assert n * Pow(10, i) * 10 == n * Pow(10, i + 1);
      r := Mul(r, U128(10, 0));
    }
  }

  /** The digits from i on, as long as there are any and at most k. */
  method Accumulate(s: string, i: nat, k: nat) returns (acc: U128, p: nat)
    requires i <= |s|
    ensures p == (if RunEnd(s, i) <= i + k then RunEnd(s, i) else i + k)
    ensures UVal(acc) == Num(s[i..p]) % B128
  {
    acc, p := U128(0, 0), i;
    assert s[i..p] == [];
    while p < |s| && IsDigit(s[p]) && p - i < k
      invariant i <= p <= |s| && p <= i + k && RunEnd(s, p) == RunEnd(s, i)
      invariant AllDigits(s[i..p]) && UVal(acc) == Num(s[i..p]) % B128
    {
      NumNext(s, i, p);
      acc := Shift10(acc, s[p], Num(s[i..p]));
      p := p + 1;
    }
  }

  lemma NumNext(s: string, i: nat, p: nat)
    requires i <= p < |s| && AllDigits(s[i..p]) && IsDigit(s[p])
    ensures AllDigits(s[i..p + 1]) && Num(s[i..p + 1]) == 10 * Num(s[i..p]) + DigitOf(s[p])
  {
    NumSnoc(s[i..p], s[p]);
    assert s[i..p] + [s[p]] == s[i..p + 1];
  }

  /** pli_get_list_decfixed_wide on the token s. */
  method Read(s: string, q: int) returns (v: I128)
    ensures SVal(v) == TokenVal(s, q)
  {
    var sum := ReadMag(s, Clamp(q));
    ghost var m := TokenMag(s, Clamp(q));
    SignedMod(m);
    v := if |s| > 0 && s[0] == '-' then NegS(ToS(sum)) else ToS(sum);
  }

  method ReadMag(s: string, k: nat) returns (sum: U128)
    ensures UVal(sum) == TokenMag(s, k) % B128
  {
    var p := SignLength(s);
    var whole, e := Accumulate(s, p, |s|);
    var frac, qd := ReadFraction(s, e, k);
    ghost var f := FracDigits(s, e, k);
    sum := Combine(whole, frac, k, qd, Num(WholeDigits(s)), Num(f));
  }

  method ReadFraction(s: string, e: nat, k: nat) returns (frac: U128, qd: nat)
    requires e <= |s|
    ensures qd == |FracDigits(s, e, k)| && UVal(frac) == Num(FracDigits(s, e, k)) % B128
  {
    frac, qd := U128(0, 0), 0;
    if e < |s| && s[e] == '.' {
      var end;
      frac, end := Accumulate(s, e + 1, k);
      qd := end - (e + 1);
    }
  }

  method Combine(whole: U128, frac: U128, k: nat, qd: nat, ghost w: nat, ghost f: nat) returns (sum: U128)
    requires qd <= k && UVal(whole) == w % B128 && UVal(frac) == f % B128
    ensures UVal(sum) == (w * Pow(10, k) + f * Pow(10, k - qd)) % B128
  {
    var frac' := Scale10(frac, k - qd, f);
    var whole' := Scale10(whole, k, w);
    AddMod(w * Pow(10, k), f * Pow(10, k - qd));
    sum := Add(whole', frac');
  }

  lemma SignedMod(m: int)
    ensures Signed(m % B128) == Signed(m) && Signed(-Signed(m % B128)) == Signed(-m)
  {
    var r := m % B128;
    Mod128(r, r);
    var t := Signed(r);
    var turns := m / B128 + if r < B127 then 0 else 1;
    assert -t == -m + turns * B128;
    ModMultiple(-t, -m, turns, B128);
  }

  // ---------------------------------------------------------------------
  // Back and forth
  // ---------------------------------------------------------------------

  lemma {:induction false} RunIs(s: string, i: nat, e: nat)
    requires i <= e <= |s| && (forall j :: i <= j < e ==> IsDigit(s[j])) && (e < |s| ==> !IsDigit(s[e]))
    ensures RunEnd(s, i) == e
    decreases e - i
  {
    if i < e { RunIs(s, i + 1, e); }
  }

  /** The reader takes the text apart as it was put together. */
  lemma DissectWhole(neg: bool, ip: nat, rem: nat, k: nat)
    ensures var s := TextOf(neg, ip, rem, k);
      && SignLength(s) == (if neg then 1 else 0) && RunEnd(s, SignLength(s)) == SignLength(s) + |Digits(ip)|
      && WholeDigits(s) == Digits(ip)
  {
    var s := TextOf(neg, ip, rem, k);
    var d := Digits(ip);
    var p := if neg then 1 else 0;
    var e := p + |d|;
    assert forall j :: p <= j < e ==> s[j] == d[j - p];
    assert IsDigit(s[p]) && SignLength(s) == p;
    RunIs(s, p, e);
    assert s[p..e] == d;
  }

  lemma DissectFraction(neg: bool, ip: nat, rem: nat, k: nat)
    ensures var s, e := TextOf(neg, ip, rem, k), (if neg then 1 else 0) + |Digits(ip)|;
      e <= |s| && FracDigits(s, e, k) == Fixed(rem, k)
  {
    var s, e := TextOf(neg, ip, rem, k), (if neg then 1 else 0) + |Digits(ip)|;
    if k > 0 {
      var x := Fixed(rem, k);
      assert |s| == e + 1 + k && s[e] == '.';
      assert forall j :: e + 1 <= j < |s| ==> s[j] == x[j - e - 1];
      RunIs(s, e + 1, |s|);
      assert s[e + 1..|s|] == x;
    }
  }

  lemma Dissect(neg: bool, ip: nat, rem: nat, k: nat)
    requires rem < Pow(10, k)
    ensures TokenMag(TextOf(neg, ip, rem, k), k) == ip * Pow(10, k) + rem
    ensures var s := TextOf(neg, ip, rem, k); |s| > 0 && (s[0] == '-' <==> neg)
  {
    DissectBoth(neg, ip, rem, k);
    SignShows(neg, ip, rem, k);
    JoinedFull(ip, rem, k);
  }

  lemma DissectBoth(neg: bool, ip: nat, rem: nat, k: nat)
    ensures TokenMag(TextOf(neg, ip, rem, k), k) == Joined(Digits(ip), Fixed(rem, k), k)
  {
    DissectWhole(neg, ip, rem, k);
    DissectFraction(neg, ip, rem, k);
  }

  lemma JoinedFull(ip: nat, rem: nat, k: nat)
    requires rem < Pow(10, k)
    ensures Joined(Digits(ip), Fixed(rem, k), k) == ip * Pow(10, k) + rem
  {
    NumDigits(ip);
    NumFixed(rem, k);
    assert Pow(10, 0) == 1;
  }

  lemma SignShows(neg: bool, ip: nat, rem: nat, k: nat)
    ensures var s := TextOf(neg, ip, rem, k); |s| > 0 && (s[0] == '-' <==> neg)
  {
    if !neg { assert TextOf(neg, ip, rem, k)[0] == Digits(ip)[0]; }
  }

  /** What is printed at a scale reads back as the same value at that scale, for
      every 128-bit value and every scale whatever. */
  lemma RoundTrip(v: int, q: int)
    requires -B127 <= v < B127
    ensures TokenVal(DecText(v, q), q) == v
  {
    BackAt(v < 0, Abs(v), Pow(10, Clamp(q)), Clamp(q));
    SignedBack(v);
  }

  lemma BackAt(neg: bool, m: nat, w: nat, k: nat)
    requires w == Pow(10, k)
    ensures var s := TextAt(neg, m, w, k); TokenMag(s, k) == m && |s| > 0 && (s[0] == '-' <==> neg)
  {
    var ip, rem := m / w, m % w;
    assert ip * w + rem == m && rem < w;
    Dissect(neg, ip, rem, k);
  }

  lemma SignedBack(v: int)
    requires -B127 <= v < B127
    ensures v >= 0 ==> Signed(v) == v
    ensures v < 0 ==> Signed(-(Abs(v) as int)) == v
  {
    if v < 0 { Mod128(v, v + B128); } else { Mod128(v, v); }
  }
}
