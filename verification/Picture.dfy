/**
 PICTURE editing at run time and its folding at compile time
 (runtime/rt_edit.c, pic_format128; src/irgen_decisions.cpp, foldPictureConversion;
 rules (53) and (146)-(148) of TR 25.084).

 Both walk the picture once and emit at most a few characters for each of its
 characters.  The walks are given here as functions of their state; the module
 PictureCode holds the loops.
 */
module Picture {
  import opened Options
  import opened Decimal

  const CAP: nat := 127

  /** The characters that stand for one value digit. */
  predicate DigitClass(c: char) {
    c == '9' || c == 'Z' || c == 'Y' || c == '*' || c == '$' || c == 'T' || c == 'I' || c == 'R'
  }

  predicate Suppressing(c: char) { c == 'Z' || c == 'Y' || c == '*' || c == '$' }

  predicate Forced(c: char) { c == '9' || c == 'T' || c == 'I' || c == 'R' }

  /** The first V or '.', or -1. */
  function PointFrom(pic: string, i: nat): (r: int)
    requires i <= |pic|
    ensures r == -1 || i <= r < |pic|
    ensures r >= 0 ==> pic[r] == 'V' || pic[r] == '.'
    ensures forall j :: i <= j < (if r >= 0 then r else |pic|) ==> pic[j] != 'V' && pic[j] != '.'
    decreases |pic| - i
  {
    if i == |pic| then -1 else if pic[i] == 'V' || pic[i] == '.' then i else PointFrom(pic, i + 1)
  }

  function Point(pic: string): int { PointFrom(pic, 0) }

  /** How many of the characters lo..hi stand for a digit. */
  function CountDigits(pic: string, lo: nat, hi: nat): nat
    requires hi <= |pic|
    decreases hi
  {
    if hi <= lo then 0 else CountDigits(pic, lo, hi - 1) + if DigitClass(pic[hi - 1]) then 1 else 0
  }

  /** A run of exactly two '$' at the start: the first is a literal. */
  predicate FixedCurrency(pic: string) {
    |pic| >= 2 && pic[0] == '$' && pic[1] == '$' && (|pic| == 2 || pic[2] != '$')
  }

  function IntTotal(pic: string): nat {
    var p := Point(pic);
    var n := CountDigits(pic, 0, if p >= 0 then p else |pic|);
    if FixedCurrency(pic) && n > 0 then n - 1 else n
  }

  function FracTotal(pic: string): nat {
    var p := Point(pic);
    if p >= 0 then CountDigits(pic, p + 1, |pic|) else 0
  }

  predicate SignAt(pic: string, j: nat)
    requires j < |pic|
  {
    var c := pic[j];
    || c == '+' || c == '-' || c == 'S'
    || (c == 'C' && j + 1 < |pic| && pic[j + 1] == 'R')
    || (c == 'D' && j + 1 < |pic| && pic[j + 1] == 'B')
  }

  predicate HasSign(pic: string) { exists j :: 0 <= j < |pic| && SignAt(pic, j) }

  // ---------------------------------------------------------------------
  // The formatter's walk
  // ---------------------------------------------------------------------

  /** A value: its sign, its decimal digits, and how many of them are before and
      after the decimal point. */
  datatype Val = Val(neg: bool, digits: string, ints: nat, fracs: nat)

  function ValOf(m: nat, neg: bool, scale: nat): (v: Val)
    ensures v.ints + v.fracs == |v.digits| || (v.ints == 0 && v.fracs == |v.digits|)
    ensures |v.digits| > 0 && (v.ints == 0 ==> v.fracs > 0)
  {
    var d := Digits(m);
    Val(neg, d, if |d| > scale then |d| - scale else 0, if scale < |d| then scale else |d|)
  }

  /** What the walk has written, whether it still suppresses zeros, how many
      integer and fraction positions it has passed, where the exponent goes. */
  datatype Walk = Walk(out: string, led: bool, ii: nat, fi: nat, exp: int)

  /** One fraction position. */
  function FracPos(v: Val, c: char, w: Walk): Walk {
    if w.fi < v.fracs && v.ints + w.fi < |v.digits| then
      var d := v.digits[v.ints + w.fi];
      if Suppressing(c) && d == '0' && w.led then w.(out := w.out + [if c == '*' then '*' else ' '], fi := w.fi + 1)
      else w.(out := w.out + [d], led := false, fi := w.fi + 1)
    else
      w.(out := w.out + [if Forced(c) then '0' else if w.led then (if c == '*' then '*' else ' ') else '0'], fi := w.fi + 1)
  }

  /** One integer position; the value's integer digits are right-aligned. */
  function IntPos(v: Val, total: nat, c: char, w: Walk): Walk {
    var src := w.ii - (total - v.ints);
    if src < 0 then
      w.(out := w.out + [if Forced(c) then '0' else if c == '*' then '*' else ' '], ii := w.ii + 1)
    else if src < v.ints && src < |v.digits| then
      var d := v.digits[src];
      if Suppressing(c) && d == '0' && w.led then w.(out := w.out + [if c == '*' then '*' else ' '], ii := w.ii + 1)
      else w.(out := w.out + [d], led := false, ii := w.ii + 1)
    else
      w.(out := w.out + [if Forced(c) then '0' else if w.led then (if c == '*' then '*' else ' ') else '0'], ii := w.ii + 1)
  }

  predicate PairAt(pic: string, pi: nat, a: char, b: char)
    requires pi < |pic|
  {
    pic[pi] == a && pi + 1 < |pic| && pic[pi + 1] == b
  }

  function SignChar(c: char, neg: bool): char { if neg then '-' else if c == '+' then '+' else ' ' }

  /** Any character that is not a digit position, a V, a pair or an exponent. */
  function Plain(c: char, neg: bool): char {
    if c == 'B' || c == 'X' || c == 'A' then ' '
    else if c == '+' || c == '-' || c == 'S' then SignChar(c, neg)
    else c
  }

  /** One round of the main walk: the next position and the new state. */
  function Step(pic: string, v: Val, ocap: nat, pi: nat, w: Walk): (r: (nat, Walk))
    requires pi < |pic|
    ensures pi < r.0
  {
    var c := pic[pi];
    var p := Point(pic);
    if c == 'V' then (pi + 1, w)
    else if FixedCurrency(pic) && pi == 0 && c == '$' then (pi + 1, w.(out := w.out + ['$']))
    else if DigitClass(c) then (pi + 1, if p >= 0 && pi > p then FracPos(v, c, w) else IntPos(v, IntTotal(pic), c, w))
    else if PairAt(pic, pi, 'C', 'R') || PairAt(pic, pi, 'D', 'B') then
      if |w.out| + 2 <= ocap then (pi + 2, w.(out := w.out + if v.neg then [c, pic[pi + 1]] else "  ")) else (pi + 1, w)
    else if c == 'E' || c == 'K' then
      if |w.out| + 4 <= ocap then (pi + 1, w.(out := w.out + "    ", exp := |w.out|)) else (pi + 1, w)
    else (pi + 1, w.(out := w.out + [Plain(c, v.neg)]))
  }

  function WalkFrom(pic: string, v: Val, ocap: nat, pi: nat, w: Walk): Walk
    decreases |pic| - pi
  {
    if pi >= |pic| || |w.out| >= ocap then w
    else var r := Step(pic, v, ocap, pi, w); if r.0 > |pic| then r.1 else WalkFrom(pic, v, ocap, r.0, r.1)
  }

  const START: Walk := Walk("", true, 0, 0, -1)

  function ExponentSlots(pic: string): nat {
    if pic == "" then 0
    else ExponentSlots(pic[..|pic| - 1]) + if pic[|pic| - 1] == 'E' || pic[|pic| - 1] == 'K' then 3 else 0
  }

  function OutCap(pic: string, cap: nat): nat {
    var m := |pic| + ExponentSlots(pic);
    if m < cap then m else cap
  }

  // ---------------------------------------------------------------------
  // The later passes
  // ---------------------------------------------------------------------

  /** The first '$' from i on, or -1; and the end of the run that begins there. */
  function DollarFrom(pic: string, i: nat): (r: int)
    requires i <= |pic|
    ensures r == -1 || (i <= r < |pic| && pic[r] == '$')
    ensures r == -1 ==> forall j :: i <= j < |pic| ==> pic[j] != '$'
    decreases |pic| - i
  {
    if i == |pic| then -1 else if pic[i] == '$' then i else DollarFrom(pic, i + 1)
  }

  function DollarsEnd(pic: string, i: nat): (r: nat)
    requires i <= |pic|
    ensures i <= r <= |pic|
    decreases |pic| - i
  {
    if i < |pic| && pic[i] == '$' then DollarsEnd(pic, i + 1) else i
  }

  function NonBlankFrom(out: string, i: nat): (r: nat)
    requires i <= |out|
    ensures i <= r <= |out|
    decreases |out| - i
  {
    if i < |out| && out[i] == ' ' then NonBlankFrom(out, i + 1) else i
  }

  /** The floating currency sign goes before the first significant character. */
  function Currency(pic: string, out: string): (r: string)
    ensures |r| == |out|
  {
    var start := DollarFrom(pic, 0);
    if FixedCurrency(pic) || start < 0 then out
    else
      var end := DollarsEnd(pic, start);
      var si := NonBlankFrom(out, 0);
      if end > |out| then out
      else if si > 0 && start <= si - 1 < end then out[si - 1 := '$']
      else if si == |out| && start < |out| then out[start := '$']
      else out
  }

  function Exponent(pic: string, scale: int, exp: int, out: string): (r: string)
    ensures |r| == |out|
  {
    if exp < 0 || exp + 4 > |out| then out
    else
      var e := scale - FracTotal(pic);
      var a := if e < 0 then -e else e;
      out[exp := 'E'][exp + 1 := if e >= 0 then '+' else '-'][exp + 2 := DigitChar((a / 10) % 10)][exp + 3 := DigitChar(a % 10)]
  }

  /** pic_format128: what it writes into a buffer of cap characters. */
  function FormatText(m: nat, neg: bool, scale: nat, pic: string, cap: nat): string {
    if pic == "" || cap == 0 then ""
    else
      var w := WalkFrom(pic, ValOf(m, neg, scale), OutCap(pic, cap), 0, START);
      var out := Exponent(pic, scale, w.exp, Currency(pic, w.out));
      if neg && !HasSign(pic) && |out| < cap then out + ['-'] else out
  }

  // ---------------------------------------------------------------------
  // The folder's walk
  // ---------------------------------------------------------------------

  datatype Spec = Spec(
    valid: bool, numeric: bool, foldable: bool, sterling: bool, binary: bool, hasRepeat: bool, hasScale: bool,
    width: int, intDigits: int, fracDigits: int, point: int, scale: int, badChar: char, expanded: string)

  datatype Fold = Fold(text: string, led: bool, fi: nat)

  predicate NineOrZ(c: char) { c == '9' || c == 'Z' }

  /** The digit positions before pi. */
  function CountNZ(pic: string, pi: nat): nat
    requires pi <= |pic|
  {
    if pi == 0 then 0 else CountNZ(pic, pi - 1) + if NineOrZ(pic[pi - 1]) then 1 else 0
  }

  function FoldDigit(spec: Spec, v: Val, pi: nat, f: Fold): Fold
    requires pi < |spec.expanded|
  {
    var c := spec.expanded[pi];
    if spec.point >= 0 && pi > spec.point then
      if f.fi < v.fracs && v.ints + f.fi < |v.digits| then
        f.(text := f.text + [v.digits[v.ints + f.fi]], led := false, fi := f.fi + 1)
      else f.(text := f.text + ['0'], fi := f.fi + 1)
    else
      var src := CountNZ(spec.expanded, pi) - (spec.intDigits - v.ints);
      if 0 <= src < v.ints && src < |v.digits| then
        var d := v.digits[src];
        if c == 'Z' && d == '0' && f.led then f.(text := f.text + [' '])
        else f.(text := f.text + [d], led := false)
      else f.(text := f.text + [if c == '9' then '0' else ' '])
  }

  function FoldStep(spec: Spec, v: Val, pi: nat, f: Fold): Fold
    requires pi < |spec.expanded|
  {
    var c := spec.expanded[pi];
    if c == 'V' then f
    else if NineOrZ(c) then FoldDigit(spec, v, pi, f)
    else if c == '.' then f.(text := f.text + ['.'])
    else if c == '+' then f.(text := f.text + [if v.neg then '-' else '+'])
    else if c == '-' || c == 'S' then f.(text := f.text + [if v.neg then '-' else ' '])
    else if c == 'X' || c == 'A' then f.(text := f.text + [' '])
    else f.(text := f.text + [c])
  }

  function FoldFrom(spec: Spec, v: Val, pi: nat, f: Fold): Fold
    decreases |spec.expanded| - pi
  {
    if pi >= |spec.expanded| then f else FoldFrom(spec, v, pi + 1, FoldStep(spec, v, pi, f))
  }

  const MINLL: int := -0x8000_0000_0000_0000

  /** foldPictureConversion: the text, or None. */
  function FoldText(value: int, scale: int, spec: Spec): Option<string> {
    if !spec.valid || !spec.foldable || scale < 0 || value == MINLL then None
    else
      var v := ValOf(if value < 0 then -value else value, value < 0, scale);
      var text := FoldFrom(spec, v, 0, Fold("", true, 0)).text;
      if |text| != spec.width then None else Some(text)
  }

  // ---------------------------------------------------------------------
  // Foldable pictures
  // ---------------------------------------------------------------------

  predicate FoldableChar(c: char) {
    c == '9' || c == 'Z' || c == 'V' || c == '.' || c == '+' || c == '-' || c == 'S' || c == 'X' || c == 'A'
  }

  ghost predicate AllFoldable(pic: string) { forall i :: 0 <= i < |pic| ==> FoldableChar(pic[i]) }

  /** The output positions of the first pi characters. */
  function Width(pic: string, pi: nat): nat
    requires pi <= |pic|
  {
    if pi == 0 then 0 else Width(pic, pi - 1) + if pic[pi - 1] == 'V' then 0 else 1
  }

  function IntEnd(pic: string): nat { if Point(pic) >= 0 then Point(pic) else |pic| }

  /** What the classifier says of a picture that it calls foldable. */
  ghost predicate FoldSpec(spec: Spec) {
    var pic := spec.expanded;
    && spec.valid && spec.foldable && AllFoldable(pic) && |pic| <= CAP
    && spec.point == Point(pic) && spec.width == Width(pic, |pic|) > 0
    && spec.intDigits == CountDigits(pic, 0, IntEnd(pic)) && spec.fracDigits == FracTotal(pic)
    && spec.intDigits + spec.fracDigits > 0
  }

  lemma {:induction false} CountsAgree(pic: string, pi: nat)
    requires AllFoldable(pic) && pi <= |pic|
    ensures CountNZ(pic, pi) == CountDigits(pic, 0, pi)
  {
    if pi > 0 { CountsAgree(pic, pi - 1); }
  }

  lemma {:induction false} CountGrows(pic: string, lo: nat, mid: nat, hi: nat)
    requires lo <= mid <= hi <= |pic|
    ensures CountDigits(pic, lo, mid) <= CountDigits(pic, lo, hi)
    decreases hi
  {
    if mid < hi { CountGrows(pic, lo, mid, hi - 1); }
  }

  lemma {:induction false} NoSlots(pic: string)
    requires AllFoldable(pic)
    ensures ExponentSlots(pic) == 0
    decreases |pic|
  {
    if pic != "" { NoSlots(pic[..|pic| - 1]); }
  }

  lemma {:induction false} WidthBelow(pic: string, pi: nat)
    requires pi <= |pic|
    ensures Width(pic, pi) <= pi
  {
    if pi > 0 { WidthBelow(pic, pi - 1); }
  }

  lemma NoDollar(pic: string)
    requires AllFoldable(pic)
    ensures !FixedCurrency(pic) && DollarFrom(pic, 0) == -1 && IntTotal(pic) == CountDigits(pic, 0, IntEnd(pic))
    ensures forall out :: Currency(pic, out) == out
  {
    forall i | 0 <= i < |pic| ensures pic[i] != '$' { assert FoldableChar(pic[i]); }
  }

  /** One step of the formatter on a foldable picture. */
  function FmtStep(pic: string, v: Val, pi: nat, w: Walk): Walk
    requires pi < |pic|
  {
    var c := pic[pi];
    if c == 'V' then w
    else if NineOrZ(c) then (if Point(pic) >= 0 && pi > Point(pic) then FracPos(v, c, w) else IntPos(v, CountDigits(pic, 0, IntEnd(pic)), c, w))
    else w.(out := w.out + [Plain(c, v.neg)])
  }

  function FmtFrom(pic: string, v: Val, pi: nat, w: Walk): Walk
    decreases |pic| - pi
  {
    if pi >= |pic| then w else FmtFrom(pic, v, pi + 1, FmtStep(pic, v, pi, w))
  }

  /** The buffer's end does not cut the walk of a foldable picture short. */
  lemma {:induction false} WalkIsFmt(pic: string, v: Val, ocap: nat, pi: nat, w: Walk)
    requires AllFoldable(pic) && pi <= |pic| <= ocap && |w.out| == Width(pic, pi)
    ensures WalkFrom(pic, v, ocap, pi, w) == FmtFrom(pic, v, pi, w)
    decreases |pic| - pi
  {
    WidthBelow(pic, pi);
    if pi < |pic| {
      NoDollar(pic);
      assert FoldableChar(pic[pi]);
      var w' := FmtStep(pic, v, pi, w);
      assert Step(pic, v, ocap, pi, w) == (pi + 1, w');
      WalkIsFmt(pic, v, ocap, pi + 1, w');
    }
  }

  /** What the walk writes grows at the end only. */
  lemma {:induction false} FmtExtends(pic: string, v: Val, pi: nat, w: Walk)
    requires AllFoldable(pic) && pi <= |pic| && |w.out| == Width(pic, pi)
    ensures var r := FmtFrom(pic, v, pi, w); w.out <= r.out && |r.out| == Width(pic, |pic|) && r.exp == w.exp
    decreases |pic| - pi
  {
    if pi < |pic| {
      assert FoldableChar(pic[pi]);
      FmtExtends(pic, v, pi + 1, FmtStep(pic, v, pi, w));
    }
  }

  lemma {:induction false} FoldExtends(spec: Spec, v: Val, pi: nat, f: Fold)
    requires AllFoldable(spec.expanded) && pi <= |spec.expanded| && |f.text| == Width(spec.expanded, pi)
    ensures var r := FoldFrom(spec, v, pi, f); f.text <= r.text && |r.text| == Width(spec.expanded, |spec.expanded|)
    decreases |spec.expanded| - pi
  {
    if pi < |spec.expanded| {
      assert FoldableChar(spec.expanded[pi]);
      FoldExtends(spec, v, pi + 1, FoldStep(spec, v, pi, f));
    }
  }

  /** The formatter on a foldable picture: the walk, and a trailing '-' for a
      negative value without a place for it. */
  lemma FormatFoldable(m: nat, neg: bool, scale: nat, pic: string)
    requires AllFoldable(pic) && 0 < |pic| <= CAP
    ensures var out := FmtFrom(pic, ValOf(m, neg, scale), 0, START).out;
      && |out| == Width(pic, |pic|)
      && FormatText(m, neg, scale, pic, CAP) == if neg && !HasSign(pic) && |out| < CAP then out + ['-'] else out
  {
    var v := ValOf(m, neg, scale);
    NoSlots(pic);
    WalkIsFmt(pic, v, OutCap(pic, CAP), 0, START);
    FmtExtends(pic, v, 0, START);
    NoDollar(pic);
  }

  // ---------------------------------------------------------------------
  // When the two walks write the same
  // ---------------------------------------------------------------------

  /** The next digit position at or after i; |pic| if there is none. */
  function NextDigit(pic: string, i: nat): (r: nat)
    requires i <= |pic|
    ensures i <= r <= |pic| && (r < |pic| ==> NineOrZ(pic[r]))
    ensures forall j :: i <= j < r ==> !NineOrZ(pic[j])
    decreases |pic| - i
  {
    if i == |pic| || NineOrZ(pic[i]) then i else NextDigit(pic, i + 1)
  }

  /** The last digit position before hi, or -1. */
  function LastDigit(pic: string, hi: nat): (r: int)
    requires hi <= |pic|
    ensures r == -1 || (0 <= r < hi && NineOrZ(pic[r]))
    ensures forall j :: r < j < hi && 0 <= j ==> !NineOrZ(pic[j])
  {
    if hi == 0 then -1 else if NineOrZ(pic[hi - 1]) then hi - 1 else LastDigit(pic, hi - 1)
  }

  ghost predicate NoZFrom(pic: string, i: int) { forall j :: i <= j < |pic| && 0 <= j ==> pic[j] != 'Z' }

  ghost predicate NoFracZ(pic: string) { Point(pic) < 0 || NoZFrom(pic, Point(pic) + 1) }

  /** A Z right of the point does no harm if the fraction begins with a 9 and the
      integer part ends with one. */
  ghost predicate FracSafe(pic: string) {
    || NoFracZ(pic)
    || (var i, j := LastDigit(pic, IntEnd(pic)), NextDigit(pic, Point(pic) + 1);
        i >= 0 && pic[i] == '9' && j < |pic| && pic[j] == '9')
  }

  /** The value's digits are where ValOf puts them. */
  predicate ValOk(v: Val) {
    && |v.digits| > 0 && v.ints <= |v.digits| && v.fracs <= |v.digits|
    && v.ints + v.fracs <= |v.digits| && (v.ints == 0 ==> v.fracs > 0)
  }

  /** The fraction's Zs ahead suppress nothing. */
  ghost predicate Ready(pic: string, v: Val, pi: nat, w: Walk)
    requires pi <= |pic|
  {
    || NoZFrom(pic, pi)
    || !w.led
    || (w.fi == 0 && v.ints == 0 && NextDigit(pic, pi) < |pic| && pic[NextDigit(pic, pi)] == '9')
  }

  lemma {:induction false} FracSame(spec: Spec, v: Val, pi: nat, w: Walk, f: Fold)
    requires FoldSpec(spec) && ValOk(v) && 0 <= spec.point < pi <= |spec.expanded|
    requires w.out == f.text && w.fi == f.fi && Ready(spec.expanded, v, pi, w)
    ensures FmtFrom(spec.expanded, v, pi, w).out == FoldFrom(spec, v, pi, f).text
    decreases |spec.expanded| - pi
  {
    var pic := spec.expanded;
    if pi < |pic| {
      assert FoldableChar(pic[pi]);
      FracSame(spec, v, pi + 1, FmtStep(pic, v, pi, w), FoldStep(spec, v, pi, f));
    }
  }

  /** The formatter has passed a 9 as the last integer position. */
  ghost predicate LedOk(pic: string, v: Val, pi: nat, w: Walk)
    requires pi <= IntEnd(pic)
  {
    v.ints > 0 && w.ii == CountDigits(pic, 0, IntEnd(pic)) && LastDigit(pic, pi) >= 0 && pic[LastDigit(pic, pi)] == '9' ==> !w.led
  }

  lemma {:induction false} IntSame(spec: Spec, v: Val, pi: nat, w: Walk, f: Fold)
    requires FoldSpec(spec) && ValOk(v) && pi <= IntEnd(spec.expanded) && FracSafe(spec.expanded)
    requires w.out == f.text && w.led == f.led && w.ii == CountDigits(spec.expanded, 0, pi) && w.fi == f.fi == 0
    requires LedOk(spec.expanded, v, pi, w)
    ensures FmtFrom(spec.expanded, v, pi, w).out == FoldFrom(spec, v, pi, f).text
    decreases |spec.expanded| - pi
  {
    var pic := spec.expanded;
    if pi < IntEnd(pic) {
      IntStep(spec, v, pi, w, f);
      IntSame(spec, v, pi + 1, FmtStep(pic, v, pi, w), FoldStep(spec, v, pi, f));
    } else if pi < |pic| {
      assert FoldableChar(pic[pi]) && !NineOrZ(pic[pi]);
      var w' := FmtStep(pic, v, pi, w);
      assert Ready(pic, v, pi + 1, w');
      FracSame(spec, v, pi + 1, w', FoldStep(spec, v, pi, f));
    }
  }

  lemma IntStep(spec: Spec, v: Val, pi: nat, w: Walk, f: Fold)
    requires FoldSpec(spec) && ValOk(v) && pi < IntEnd(spec.expanded)
    requires w.out == f.text && w.led == f.led && w.ii == CountDigits(spec.expanded, 0, pi) && w.fi == f.fi == 0
    requires LedOk(spec.expanded, v, pi, w)
    ensures var pic := spec.expanded; var w', f' := FmtStep(pic, v, pi, w), FoldStep(spec, v, pi, f);
      && w'.out == f'.text && w'.led == f'.led && w'.ii == CountDigits(pic, 0, pi + 1) && w'.fi == f'.fi == 0
      && LedOk(pic, v, pi + 1, w')
  {
    var pic := spec.expanded;
    assert FoldableChar(pic[pi]);
    CountsAgree(pic, pi);
    CountGrows(pic, 0, pi + 1, IntEnd(pic));
  }

  lemma ValOfOk(m: nat, neg: bool, scale: nat)
    ensures ValOk(ValOf(m, neg, scale))
  {
  }

  /** For every picture the classifier calls foldable whose fraction cannot suppress
      a zero, every scale, and every value that is not negative or has a place for
      its sign, the folder gives exactly the formatter's text. */
  lemma FoldIsFormat(spec: Spec, value: int, scale: int)
    requires FoldSpec(spec) && FracSafe(spec.expanded) && scale >= 0 && value != MINLL
    requires value >= 0 || HasSign(spec.expanded) || spec.width >= CAP
    ensures FoldText(value, scale, spec) == Some(FormatText(if value < 0 then -value else value, value < 0, scale, spec.expanded, CAP))
  {
    var pic, m := spec.expanded, if value < 0 then -value else value;
    var v := ValOf(m, value < 0, scale);
    ValOfOk(m, value < 0, scale);
    IntSame(spec, v, 0, START, Fold("", true, 0));
    FormatFoldable(m, value < 0, scale, pic);
    FoldExtends(spec, v, 0, Fold("", true, 0));
  }

  // ---------------------------------------------------------------------
  // ... and when they do not
  // ---------------------------------------------------------------------

  /** The first Z right of the point. */
  function FirstFracZ(pic: string, i: nat): (r: nat)
    requires i <= |pic|
    ensures i <= r <= |pic| && (r < |pic| ==> pic[r] == 'Z')
    ensures forall j :: i <= j < r ==> pic[j] != 'Z'
    decreases |pic| - i
  {
    if i == |pic| || pic[i] == 'Z' then i else FirstFracZ(pic, i + 1)
  }

  /** Zero, with its one digit before the point or after it. */
  function Zero(before: bool): Val { if before then Val(false, "0", 1, 0) else Val(false, "0", 0, 1) }

  /** Nothing on the way to the Z at position z ends the zero suppression. */
  ghost predicate StaysLed(pic: string, before: bool, z: nat) {
    && 0 <= Point(pic) < z < |pic| && pic[z] == 'Z' && (forall j :: Point(pic) < j < z ==> pic[j] != 'Z')
    && (if before then LastDigit(pic, IntEnd(pic)) >= 0 ==> pic[LastDigit(pic, IntEnd(pic))] == 'Z'
        else NextDigit(pic, Point(pic) + 1) == z)
  }

  ghost predicate Led(pic: string, before: bool, pi: nat, w: Walk, f: Fold)
    requires pi <= |pic|
  {
    && w.led && |w.out| == Width(pic, pi) == |f.text| && w.fi == f.fi
    && (pi <= Point(pic) ==> w.ii == CountDigits(pic, 0, pi) && w.fi == 0)
    && (pi <= Point(pic) + 1 ==> w.fi == 0)
    && (!before ==> w.fi == 0)
  }

  lemma LedStep(spec: Spec, before: bool, z: nat, pi: nat, w: Walk, f: Fold)
    requires FoldSpec(spec) && StaysLed(spec.expanded, before, z) && pi < z
    requires Led(spec.expanded, before, pi, w, f)
    ensures Led(spec.expanded, before, pi + 1, FmtStep(spec.expanded, Zero(before), pi, w), FoldStep(spec, Zero(before), pi, f))
  {
    var pic := spec.expanded;
    assert FoldableChar(pic[pi]);
    if pi < Point(pic) {
      CountGrows(pic, 0, pi + 1, IntEnd(pic));
      if NineOrZ(pic[pi]) { LastIsLast(pic, pi, IntEnd(pic)); }
    }
  }

  /** The digit position that completes the count is the last one. */
  lemma {:induction false} LastIsLast(pic: string, pi: nat, hi: nat)
    requires AllFoldable(pic) && pi < hi <= |pic| && NineOrZ(pic[pi])
    ensures CountDigits(pic, 0, pi) + 1 == CountDigits(pic, 0, hi) ==> LastDigit(pic, hi) == pi
    decreases hi
  {
    assert FoldableChar(pic[hi - 1]);
    if hi - 1 > pi {
      CountGrows(pic, 0, pi + 1, hi - 1);
      LastIsLast(pic, pi, hi - 1);
    }
  }

  lemma {:induction false} Differ(spec: Spec, before: bool, z: nat, pi: nat, w: Walk, f: Fold)
    requires FoldSpec(spec) && StaysLed(spec.expanded, before, z) && pi <= z
    requires Led(spec.expanded, before, pi, w, f)
    ensures FmtFrom(spec.expanded, Zero(before), pi, w).out != FoldFrom(spec, Zero(before), pi, f).text
    decreases z - pi
  {
    var pic, v := spec.expanded, Zero(before);
    var w', f' := FmtStep(pic, v, pi, w), FoldStep(spec, v, pi, f);
    if pi < z {
      LedStep(spec, before, z, pi, w, f);
      Differ(spec, before, z, pi + 1, w', f');
    } else {
      assert w'.out == w.out + [' '] && f'.text == f.text + ['0'];
      FmtExtends(pic, v, pi + 1, w');
      FoldExtends(spec, v, pi + 1, f');
      assert w'.out[|w.out|] == ' ' && f'.text[|f.text|] == '0';
    }
  }

  lemma ZeroIs(before: bool)
    ensures ValOf(0, false, if before then 0 else 1) == Zero(before)
  {
    assert Digits(0) == [DigitChar(0)];
    assert DigitOf('0') == 0;
  }

  /** With a fraction that is not safe, zero is folded wrongly at some scale. */
  lemma UnsafeFraction(spec: Spec) returns (scale: nat)
    requires FoldSpec(spec) && !FracSafe(spec.expanded)
    ensures FoldText(0, scale, spec) != Some(FormatText(0, false, scale, spec.expanded, CAP))
  {
    var pic := spec.expanded;
    var p := Point(pic);
    var z := FirstFracZ(pic, p + 1);
    UnsafeHasZ(pic);
    var before := pic[NextDigit(pic, p + 1)] == '9';
    scale := if before then 0 else 1;
    ZeroIs(before);
    Differ(spec, before, z, 0, START, Fold("", true, 0));
    FormatFoldable(0, false, scale, pic);
  }

  lemma UnsafeHasZ(pic: string)
    requires AllFoldable(pic) && !FracSafe(pic)
    ensures Point(pic) >= 0 && NextDigit(pic, Point(pic) + 1) < |pic|
    ensures StaysLed(pic, pic[NextDigit(pic, Point(pic) + 1)] == '9', FirstFracZ(pic, Point(pic) + 1))
  {
    var p := Point(pic);
    var z, n := FirstFracZ(pic, p + 1), NextDigit(pic, p + 1);
    assert exists j :: p + 1 <= j < |pic| && pic[j] == 'Z';
    assert z < |pic| && n <= z;
  }

  /** The folder can be trusted with every value at every scale exactly if the
      fraction is safe and a negative value has a place for its sign. */
  lemma FoldsAlwaysExactlyWhen(spec: Spec)
    requires FoldSpec(spec)
    ensures (forall value: int, scale: int :: MINLL < value < -MINLL && scale >= 0 ==>
               FoldText(value, scale, spec) ==
               Some(FormatText(if value < 0 then -value else value, value < 0, scale, spec.expanded, CAP)))
       <==> FracSafe(spec.expanded) && (HasSign(spec.expanded) || spec.width >= CAP)
  {
    var pic := spec.expanded;
    if FracSafe(pic) && (HasSign(pic) || spec.width >= CAP) {
      forall value: int, scale: int | MINLL < value < -MINLL && scale >= 0
        ensures FoldText(value, scale, spec) == Some(FormatText(if value < 0 then -value else value, value < 0, scale, pic, CAP))
      {
        FoldIsFormat(spec, value, scale);
      }
    } else if !FracSafe(pic) {
      var scale := UnsafeFraction(spec);
      assert FoldText(0, scale, spec) != Some(FormatText(0, false, scale, pic, CAP));
    } else {
      FormatFoldable(1, true, 0, pic);
      assert FoldText(-1, 0, spec) != Some(FormatText(1, true, 0, pic, CAP));
    }
  }
}
