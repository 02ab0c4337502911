/**
 What the edited text says about the value (runtime/rt_edit.c, pic_format128).

 Read back, the digits of an all-9 picture are the value's, as long as the value has
 a digit for every position right of the point, or is zero; a smaller value has its
 digits moved to the left.  A floating currency sign ends directly in front of the
 first digit written.
 */
module PictureValues {
  import opened Options
  import opened Powers
  import opened Decimal
  import opened Picture

  function Rep(c: char, n: nat): (s: string)
    ensures |s| == n && forall i :: 0 <= i < n ==> s[i] == c
  {
    seq(n, _ => c)
  }

  // ---------------------------------------------------------------------
  // Digits and leading zeros
  // ---------------------------------------------------------------------

  lemma {:induction false} FixedZero(n: nat)
    ensures Fixed(0, n) == Rep('0', n)
  {
    if n > 0 {
      FixedZero(n - 1);
      assert DigitOf('0') == DigitOf(DigitChar(0));
    }
  }

  lemma {:induction false} FixedPads(m: nat, n: nat)
    requires |Digits(m)| <= n
    ensures Fixed(m, n) == Rep('0', n - |Digits(m)|) + Digits(m)
    decreases n
  {
    if m < 10 { FixedZero(n - 1); } else { FixedPads(m / 10, n - 1); }
  }

  lemma {:induction false} FixedShift(m: nat, n: nat, t: nat)
    ensures Fixed(m * Pow(10, t), n + t) == Fixed(m, n) + Rep('0', t)
    decreases t
  {
    if t > 0 {
      FixedShift(m, n, t - 1);
      OneMoreZero(m, Pow(10, t - 1), n + t - 1);
      assert Pow(10, t) == 10 * Pow(10, t - 1);
      assert Fixed(m, n) + Rep('0', t) == Fixed(m, n) + Rep('0', t - 1) + ['0'];
    }
  }

  lemma OneMoreZero(m: nat, p: nat, n: nat)
    ensures m * (10 * p) >= 0 && Fixed(m * (10 * p), n + 1) == Fixed(m * p, n) + ['0']
  {
    var x := m * p;
    assert m * (10 * p) == x * 10;
    EndsInZero(x, n);
  }

  lemma EndsInZero(x: nat, n: nat)
    ensures Fixed(x * 10, n + 1) == Fixed(x, n) + ['0']
  {
    assert (x * 10) / 10 == x && (x * 10) % 10 == 0;
    assert DigitOf('0') == DigitOf(DigitChar(0));
  }

  lemma {:induction false} BelowPower(m: nat)
    ensures m < Pow(10, |Digits(m)|)
  {
    if m < 10 { assert Pow(10, 1) == 10; } else { BelowPower(m / 10); }
  }

  /** A number has no leading zero unless it is zero. */
  lemma {:induction false} LeadingDigit(m: nat)
    ensures m > 0 ==> Digits(m)[0] != '0'
    ensures m == 0 ==> Digits(m) == "0"
  {
    assert DigitOf('0') == 0;
    if m >= 10 { LeadingDigit(m / 10); }
  }

  // ---------------------------------------------------------------------
  // Pictures of 9s
  // ---------------------------------------------------------------------

  /** k 9s, a V and j 9s. */
  function Nines(k: nat, j: nat): string { Rep('9', k) + "V" + Rep('9', j) }

  /** The digits as the picture places them. */
  function Laid(d: string, k: nat, j: nat): (s: string)
    requires |d| <= k + j
    ensures |s| == k + j
  {
    if |d| >= j then Rep('0', k + j - |d|) + d else Rep('0', k) + d + Rep('0', j - |d|)
  }

  /** The number shown: with fewer digits than fraction positions, a multiple. */
  function Shown(m: nat, j: nat): nat {
    if |Digits(m)| >= j then m else m * Pow(10, j - |Digits(m)|)
  }

  lemma {:induction false} CountNines(k: nat, j: nat, lo: nat, hi: nat)
    requires lo <= hi <= k + 1 + j && (hi <= k || lo > k)
    ensures CountDigits(Nines(k, j), lo, hi) == hi - lo
    decreases hi
  {
    if lo < hi { CountNines(k, j, lo, hi - 1); }
  }

  lemma {:induction false} PointOfNines(k: nat, j: nat, i: nat)
    requires i <= k
    ensures PointFrom(Nines(k, j), i) == k
    decreases k - i
  {
    if i < k { PointOfNines(k, j, i + 1); }
  }

  lemma {:induction false} NoDollars(pic: string, i: nat)
    requires i <= |pic| && forall x :: 0 <= x < |pic| ==> pic[x] != '$'
    ensures DollarFrom(pic, i) == -1
    decreases |pic| - i
  {
    if i < |pic| { NoDollars(pic, i + 1); }
  }

  lemma {:induction false} NoExponents(pic: string)
    requires forall x :: 0 <= x < |pic| ==> pic[x] != 'E' && pic[x] != 'K'
    ensures ExponentSlots(pic) == 0
    decreases |pic|
  {
    if pic != "" { NoExponents(pic[..|pic| - 1]); }
  }

  lemma NinesFacts(k: nat, j: nat)
    ensures var pic := Nines(k, j);
      && Point(pic) == k && IntTotal(pic) == k && FracTotal(pic) == j && ExponentSlots(pic) == 0
      && !HasSign(pic) && !FixedCurrency(pic) && DollarFrom(pic, 0) == -1
  {
    PointOfNines(k, j, 0);
    CountNines(k, j, 0, k);
    CountNines(k, j, k + 1, k + 1 + j);
    NoDollars(Nines(k, j), 0);
    NoExponents(Nines(k, j));
  }

  predicate FitsNines(v: Val, k: nat, j: nat) {
    && 0 < |v.digits| <= k + j
    && v.ints == (if |v.digits| > j then |v.digits| - j else 0) && v.fracs == if j < |v.digits| then j else |v.digits|
  }

  /** The state of the walk at position pi. */
  predicate NinesAt(v: Val, k: nat, j: nat, pi: nat, w: Walk)
    requires FitsNines(v, k, j) && pi <= k + 1 + j
  {
    && w.out == Laid(v.digits, k, j)[..if pi <= k then pi else pi - 1]
    && w.ii == (if pi <= k then pi else k) && w.fi == (if pi <= k then 0 else pi - 1 - k) && w.exp == -1
  }

  /** The walk over the picture of 9s, from position pi on. */
  lemma {:induction false} NinesWalk(v: Val, k: nat, j: nat, ocap: nat, pi: nat, w: Walk)
    requires FitsNines(v, k, j) && ocap >= k + j + 1 && pi <= k + 1 + j && NinesAt(v, k, j, pi, w)
    ensures var r := WalkFrom(Nines(k, j), v, ocap, pi, w); r.out == Laid(v.digits, k, j) && r.exp == -1
    decreases k + 1 + j - pi
  {
    if pi < k + 1 + j {
      var w' := NinesStep(v, k, j, ocap, pi, w);
      NinesWalk(v, k, j, ocap, pi + 1, w');
    } else {
      assert Laid(v.digits, k, j)[..k + j] == Laid(v.digits, k, j);
    }
  }

  lemma NinesStep(v: Val, k: nat, j: nat, ocap: nat, pi: nat, w: Walk) returns (w': Walk)
    requires FitsNines(v, k, j) && pi < k + 1 + j && NinesAt(v, k, j, pi, w)
    ensures Step(Nines(k, j), v, ocap, pi, w) == (pi + 1, w') && NinesAt(v, k, j, pi + 1, w')
  {
    NinesFacts(k, j);
    var text := Laid(v.digits, k, j);
    if pi < k {
      w' := IntPos(v, k, '9', w);
      LaidAt(v.digits, k, j, pi);
      assert text[..pi + 1] == text[..pi] + [text[pi]];
    } else if pi == k {
      w' := w;
    } else {
      w' := FracPos(v, '9', w);
      FracNine(v, k, j, pi, w);
    }
  }

  lemma FracNine(v: Val, k: nat, j: nat, pi: nat, w: Walk)
    requires FitsNines(v, k, j) && k < pi < k + 1 + j && NinesAt(v, k, j, pi, w)
    ensures NinesAt(v, k, j, pi + 1, FracPos(v, '9', w))
  {
    var text := Laid(v.digits, k, j);
    LaidAt(v.digits, k, j, pi - 1);
    assert text[..pi] == text[..pi - 1] + [text[pi - 1]];
  }

  lemma LaidAt(d: string, k: nat, j: nat, i: nat)
    requires |d| <= k + j && i < k + j
    ensures Laid(d, k, j)[i] ==
      if |d| >= j then (if i < k + j - |d| then '0' else d[i - (k + j - |d|)])
      else if i >= k && i - k < |d| then d[i - k] else '0'
  {
  }

  /** The text of a value that fits k integer and j fraction positions. */
  lemma NinesText(m: nat, k: nat, j: nat, cap: nat)
    requires k + j > 0 && m < Pow(10, k + j) && cap >= k + 1 + j
    ensures FormatText(m, false, j, Nines(k, j), cap) == Fixed(Shown(m, j), k + j)
  {
    var v, pic := ValOf(m, false, j), Nines(k, j);
    DigitsLength(m, k + j);
    NinesFacts(k, j);
    NinesWalk(v, k, j, OutCap(pic, cap), 0, START);
    LaidIsFixed(m, k, j);
  }

  lemma LaidIsFixed(m: nat, k: nat, j: nat)
    requires |Digits(m)| <= k + j
    ensures Laid(Digits(m), k, j) == Fixed(Shown(m, j), k + j)
  {
    var d := Digits(m);
    if |d| >= j {
      FixedPads(m, k + j);
    } else {
      FixedPads(m, k + |d|);
      FixedShift(m, k + |d|, j - |d|);
    }
  }

  /** The digits of an all-9 picture, read back, are the value at the scale of the
      picture: exactly if it is zero or has a digit for every fraction position. */
  lemma NinesReadBackExactlyWhen(m: nat, k: nat, j: nat, cap: nat)
    requires k + j > 0 && m < Pow(10, k + j) && cap >= k + 1 + j
    ensures AllDigits(FormatText(m, false, j, Nines(k, j), cap))
    ensures Num(FormatText(m, false, j, Nines(k, j), cap)) == m <==> m == 0 || |Digits(m)| >= j
  {
    var d, t := |Digits(m)|, if |Digits(m)| >= j then 0 else j - |Digits(m)|;
    NinesText(m, k, j, cap);
    ShownFits(m, k, j);
    NumFixed(Shown(m, j), k + j);
    if d < j && m > 0 { TenFold(m, t); }
  }

  lemma TenFold(m: nat, t: nat)
    requires m > 0 && t > 0
    ensures m * Pow(10, t) > m
  {
    MulMono(2, Pow(10, t), m);
  }

  lemma ShownFits(m: nat, k: nat, j: nat)
    requires m < Pow(10, k + j)
    ensures Shown(m, j) < Pow(10, k + j)
  {
    var d := |Digits(m)|;
    if d < j {
      BelowPower(m);
      PowAdd(10, d, j - d);
      PowLess(m, Pow(10, d), Pow(10, j - d));
      PowAdd(10, k, j);
      MulMono(1, Pow(10, k), Pow(10, j));
    }
  }

  lemma PowLess(m: nat, p: nat, q: nat)
    requires m < p && q > 0
    ensures m * q < p * q
  {
  }

  // ---------------------------------------------------------------------
  // The floating currency sign
  // ---------------------------------------------------------------------

  lemma {:induction false} DollarRun(pic: string, i: nat)
    requires i <= |pic|
    ensures forall x :: i <= x < DollarsEnd(pic, i) ==> pic[x] == '$'
    ensures DollarsEnd(pic, i) < |pic| ==> pic[DollarsEnd(pic, i)] != '$'
    decreases |pic| - i
  {
    if i < |pic| && pic[i] == '$' { DollarRun(pic, i + 1); }
  }

  lemma {:induction false} BlanksBefore(out: string, i: nat)
    requires i <= |out|
    ensures forall x :: i <= x < NonBlankFrom(out, i) ==> out[x] == ' '
    ensures NonBlankFrom(out, i) < |out| ==> out[NonBlankFrom(out, i)] != ' '
    decreases |out| - i
  {
    if i < |out| && out[i] == ' ' { BlanksBefore(out, i + 1); }
  }

  /** The sign is at position i, where only blanks were up to i: directly before the
      first other character or the end of the text, or at the beginning of the run of
      '$' if the text is blank. */
  ghost predicate SignStands(pic: string, out: string, i: nat) {
    && i < |out| && i < |pic| && pic[i] == '$' && (forall x :: 0 <= x <= i ==> out[x] == ' ')
    && (|| i + 1 == |out| || out[i + 1] != ' '
        || ((forall x :: 0 <= x < |out| ==> out[x] == ' ') && forall x :: 0 <= x < i ==> pic[x] != '$'))
  }

  /** The currency pass puts one '$' where it stands as above, or changes nothing. */
  lemma CurrencyLands(pic: string, out: string)
    ensures Currency(pic, out) == out || exists i: nat :: SignStands(pic, out, i) && Currency(pic, out) == out[i := '$']
    ensures FixedCurrency(pic) ==> Currency(pic, out) == out
  {
    var start := DollarFrom(pic, 0);
    if !FixedCurrency(pic) && start >= 0 {
      var end, si := DollarsEnd(pic, start), NonBlankFrom(out, 0);
      DollarRun(pic, start);
      BlanksBefore(out, 0);
      FirstDollar(pic, 0);
      if end <= |out| {
        if si > 0 && start <= si - 1 < end {
          assert SignStands(pic, out, si - 1);
        } else if si == |out| && start < |out| {
          assert SignStands(pic, out, start);
        }
      }
    }
  }

  lemma {:induction false} FirstDollar(pic: string, i: nat)
    requires i <= |pic|
    ensures forall x :: i <= x < (if DollarFrom(pic, i) < 0 then |pic| else DollarFrom(pic, i)) ==> pic[x] != '$'
    decreases |pic| - i
  {
    if i < |pic| && pic[i] != '$' { FirstDollar(pic, i + 1); }
  }

  /** k '$' and j 9s. */
  function Dollars(k: nat, j: nat): string { Rep('$', k) + Rep('9', j) }

  lemma {:induction false} CountDollars(k: nat, j: nat, hi: nat)
    requires hi <= k + j
    ensures CountDigits(Dollars(k, j), 0, hi) == hi
  {
    if hi > 0 { CountDollars(k, j, hi - 1); }
  }

  lemma {:induction false} NoPoint(pic: string, i: nat)
    requires i <= |pic| && forall x :: 0 <= x < |pic| ==> pic[x] != 'V' && pic[x] != '.'
    ensures PointFrom(pic, i) == -1
    decreases |pic| - i
  {
    if i < |pic| { NoPoint(pic, i + 1); }
  }

  lemma {:induction false} RunOfDollars(k: nat, j: nat, i: nat)
    requires i <= k
    ensures DollarsEnd(Dollars(k, j), i) == k
    decreases k - i
  {
    if i < k { RunOfDollars(k, j, i + 1); }
  }

  lemma DollarFacts(k: nat, j: nat)
    requires k >= 1 && k != 2
    ensures var pic := Dollars(k, j);
      && Point(pic) == -1 && IntTotal(pic) == k + j && ExponentSlots(pic) == 0 && !HasSign(pic) && !FixedCurrency(pic)
      && DollarFrom(pic, 0) == 0 && DollarsEnd(pic, 0) == k
  {
    var pic := Dollars(k, j);
    NoPoint(pic, 0);
    CountDollars(k, j, k + j);
    NoExponents(pic);
    RunOfDollars(k, j, 0);
    assert pic[0] == '$' && (k == 1 && j > 0 ==> pic[1] == '9') && (k > 2 ==> pic[2] == '$');
  }

  /** How many digits are written: the value's, and one for every 9. */
  function Written(m: nat, j: nat): nat { if |Digits(m)| > j then |Digits(m)| else j }

  /** What the walk leaves for the currency pass. */
  function Blanked(m: nat, n: nat, j: nat): (s: string)
    requires Written(m, j) <= n
    ensures |s| == n
  {
    Rep(' ', n - Written(m, j)) + Fixed(m, Written(m, j))
  }

  lemma {:induction false} DollarWalk(m: nat, k: nat, j: nat, ocap: nat, pi: nat, w: Walk)
    requires k >= 1 && k != 2 && Written(m, j) <= k + j && (m > 0 || j > 0) && ocap >= k + j && pi <= k + j
    requires w.out == Blanked(m, k + j, j)[..pi] && w.ii == pi && w.exp == -1
    requires pi > k + j - |Digits(m)| ==> !w.led
    ensures var r := WalkFrom(Dollars(k, j), ValOf(m, false, 0), ocap, pi, w); r.out == Blanked(m, k + j, j) && r.exp == -1
    decreases k + j - pi
  {
    var v, pic, text := ValOf(m, false, 0), Dollars(k, j), Blanked(m, k + j, j);
    if pi < |pic| {
      DollarStep(m, k, j, ocap, pi, w);
      assert text[..pi + 1] == text[..pi] + [text[pi]];
      DollarWalk(m, k, j, ocap, pi + 1, Step(pic, v, ocap, pi, w).1);
    } else {
      assert text[..pi] == text;
    }
  }

  lemma DollarStep(m: nat, k: nat, j: nat, ocap: nat, pi: nat, w: Walk)
    requires k >= 1 && k != 2 && Written(m, j) <= k + j && (m > 0 || j > 0) && pi < k + j
    requires w.ii == pi && (pi > k + j - |Digits(m)| ==> !w.led)
    ensures var r := Step(Dollars(k, j), ValOf(m, false, 0), ocap, pi, w);
      && r.0 == pi + 1 && r.1.out == w.out + [Blanked(m, k + j, j)[pi]] && r.1.ii == pi + 1 && r.1.exp == w.exp
      && (pi + 1 > k + j - |Digits(m)| ==> !r.1.led)
  {
    DollarFacts(k, j);
    LeadingDigit(m);
    BlankedAt(m, k + j, j, pi);
  }

  lemma BlankedAt(m: nat, n: nat, j: nat, i: nat)
    requires Written(m, j) <= n && i < n
    ensures Blanked(m, n, j)[i] ==
      if i < n - Written(m, j) then ' ' else if i < n - |Digits(m)| then '0' else Digits(m)[i - (n - |Digits(m)|)]
  {
    FixedPads(m, Written(m, j));
  }

  /** A floating currency sign with room for it: blanks, the sign, and the value's
      digits, at least as many as there are 9s. */
  lemma FloatingSign(m: nat, k: nat, j: nat, cap: nat)
    requires k >= 1 && k != 2 && Written(m, j) < k + j && (m > 0 || j > 0) && cap >= k + j
    ensures FormatText(m, false, 0, Dollars(k, j), cap)
            == Rep(' ', k + j - 1 - Written(m, j)) + "$" + Fixed(m, Written(m, j))
  {
    var pic, n, wr := Dollars(k, j), k + j, Written(m, j);
    var out := Blanked(m, n, j);
    DollarFacts(k, j);
    DollarWalk(m, k, j, OutCap(pic, cap), 0, START);
    BlanksEnd(out, 0, n - wr);
    assert Currency(pic, out) == out[n - wr - 1 := '$'];
    assert out[n - wr - 1 := '$'] == Rep(' ', n - 1 - wr) + "$" + Fixed(m, wr);
  }

  lemma {:induction false} BlanksEnd(out: string, i: nat, e: nat)
    requires i <= e <= |out| && (forall x :: i <= x < e ==> out[x] == ' ') && (e < |out| ==> out[e] != ' ')
    ensures NonBlankFrom(out, i) == e
    decreases e - i
  {
    if i < e { BlanksEnd(out, i + 1, e); }
  }
}
