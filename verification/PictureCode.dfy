/**
 The loops of PICTURE editing: pic_format128 (runtime/rt_edit.c), which fills a
 buffer in several passes, and classifyPicture and foldPictureConversion
 (src/irgen_decisions.cpp).  Each is proved against the functions of Picture.
 */
module PictureCode {
  import opened Options
  import opened Powers
  import opened Wide128
  import opened Decimal
  import opened Picture

  // ---------------------------------------------------------------------
  // Scans
  // ---------------------------------------------------------------------

  method FindPoint(pic: string) returns (vpos: int)
    ensures vpos == Point(pic)
  {
    var i := 0;
    while i < |pic|
      invariant 0 <= i <= |pic| && Point(pic) == PointFrom(pic, i)
    {
      if pic[i] == 'V' || pic[i] == '.' { return i; }
      i := i + 1;
    }
    vpos := -1;
  }

  method CountPositions(pic: string, lo: nat, hi: nat) returns (n: nat)
    requires lo <= hi <= |pic|
    ensures n == CountDigits(pic, lo, hi)
  {
    n := 0;
    for j := lo to hi
      invariant n == CountDigits(pic, lo, j)
    {
      if DigitClass(pic[j]) { n := n + 1; }
    }
  }

  /** Digit positions before the point; a fixed currency sign is none. */
  method CountInts(pic: string, vpos: int) returns (n: nat)
    requires vpos == Point(pic)
    ensures n == IntTotal(pic)
  {
    var end := if vpos >= 0 then vpos else |pic|;
    n := CountPositions(pic, 0, end);
    if FixedCurrency(pic) && n > 0 { n := n - 1; }
  }

  method HasExplicitSign(pic: string) returns (r: bool)
    ensures r == HasSign(pic)
  {
    r := false;
    for j := 0 to |pic|
      invariant r <==> exists i :: 0 <= i < j && SignAt(pic, i)
    {
      if SignAt(pic, j) { r := true; }
    }
  }

  method CountSlots(pic: string) returns (n: nat)
    ensures n == ExponentSlots(pic)
  {
    n := 0;
    assert pic[..0] == "";
    for j := 0 to |pic|
      invariant n == ExponentSlots(pic[..j])
    {
      assert pic[..j + 1][..j] == pic[..j];
      if pic[j] == 'E' || pic[j] == 'K' { n := n + 3; }
    }
    assert pic[..|pic|] == pic;
  }

  // ---------------------------------------------------------------------
  // Digits of the value, highest first
  // ---------------------------------------------------------------------

  method DigitsOf(m: nat, ghost top: nat) returns (digits: string)
    requires m < B128 && top == 39
    ensures digits == Digits(m)
  {
    var tmp := "";
    if m == 0 {
      tmp := tmp + "0";
      RevSnoc("", '0');
    } else {
      assert Leading(m) + Rev(tmp) == Leading(m);
      ghost var k: nat, goal := top, Leading(m);
      Pow39(top);
      var av := m;
      while av > 0 && |tmp| < 64
        invariant 0 <= av && Leading(av) + Rev(tmp) == goal
        invariant k + |tmp| == top && av < Pow(10, k)
        decreases av
      {
        MoveDigit(av, tmp);
        DigitStep(av, k);
        tmp := tmp + [DigitChar(av % 10)];
        av := av / 10;
        k := k - 1;
      }
      assert Leading(0) + Rev(tmp) == Rev(tmp);
    }
    digits := "";
    for i := 0 to |tmp|
      invariant |digits| == i && forall j :: 0 <= j < i ==> digits[j] == Rev(tmp)[j]
    {
      RevAt(tmp, i);
      digits := digits + [tmp[|tmp| - 1 - i]];
    }
  }

  method MakeVal(m: nat, neg: bool, scale: nat) returns (v: Val)
    requires m < B128
    ensures v == ValOf(m, neg, scale)
  {
    var d := DigitsOf(m, 39);
    v := Val(neg, d, if |d| > scale then |d| - scale else 0, if scale < |d| then scale else |d|);
  }

  // ---------------------------------------------------------------------
  // The formatter
  // ---------------------------------------------------------------------

  method DigitPosition(v: Val, c: char, frac: bool, total: nat, led: bool, ii: nat, fi: nat) returns (ch: char, led': bool)
    ensures forall w: Walk :: w.led == led && w.ii == ii && w.fi == fi ==>
      (if frac then FracPos(v, c, w) else IntPos(v, total, c, w)) ==
      w.(out := w.out + [ch], led := led', ii := if frac then ii else ii + 1, fi := if frac then fi + 1 else fi)
  {
    led' := led;
    var known, idx := false, 0;
    if frac {
      known, idx := fi < v.fracs && v.ints + fi < |v.digits|, v.ints + fi;
    } else {
      idx := ii - (total - v.ints);
      known := 0 <= idx < v.ints && idx < |v.digits|;
    }
    if known {
      var d := v.digits[idx];
      if Suppressing(c) && d == '0' && led {
        ch := if c == '*' then '*' else ' ';
      } else {
        led', ch := false, d;
      }
    } else if !frac && idx < 0 {
      ch := if Forced(c) then '0' else if c == '*' then '*' else ' ';
    } else {
      ch := if Forced(c) then '0' else if led then (if c == '*' then '*' else ' ') else '0';
    }
  }

  method Emit(out: array<char>, oi: nat, s: string) returns (oi': nat)
    requires oi + |s| <= out.Length
    modifies out
    ensures oi' == oi + |s| && out[..oi'] == old(out[..oi]) + s
  {
    ghost var before := out[..oi];
    for i := 0 to |s|
      invariant out[..oi + i] == before + s[..i]
    {
      out[oi + i] := s[i];
      assert s[..i + 1] == s[..i] + [s[i]];
      assert out[..oi + i + 1] == before + s[..i] + [s[i]];
    }
    assert s[..|s|] == s;
    oi' := oi + |s|;
  }

  /** One round of the main walk. */
  method WalkOnce(pic: string, v: Val, vpos: int, total: nat, ocap: nat, out: array<char>,
                  pi: nat, oi: nat, led: bool, ii: nat, fi: nat, exp: int)
    returns (pi': nat, oi': nat, led': bool, ii': nat, fi': nat, exp': int)
    requires vpos == Point(pic) && total == IntTotal(pic) && oi < ocap <= out.Length && pi < |pic|
    modifies out
    ensures pi < pi' <= |pic| && oi' <= ocap
    ensures (pi', Walk(out[..oi'], led', ii', fi', exp')) == Step(pic, v, ocap, pi, Walk(old(out[..oi]), led, ii, fi, exp))
  {
    var c := pic[pi];
    pi', oi', led', ii', fi', exp' := pi + 1, oi, led, ii, fi, exp;
    if c == 'V' {
    } else if FixedCurrency(pic) && pi == 0 && c == '$' {
      oi' := Emit(out, oi, "$");
    } else if DigitClass(c) {
      var ch;
      var frac := vpos >= 0 && pi > vpos;
      ch, led' := DigitPosition(v, c, frac, total, led, ii, fi);
      oi' := Emit(out, oi, [ch]);
      if frac { fi' := fi + 1; } else { ii' := ii + 1; }
    } else if PairAt(pic, pi, 'C', 'R') || PairAt(pic, pi, 'D', 'B') {
      if oi + 2 <= ocap {
        oi' := Emit(out, oi, if v.neg then [c, pic[pi + 1]] else "  ");
        pi' := pi + 2;
      }
    } else if c == 'E' || c == 'K' {
      if oi + 4 <= ocap {
        exp' := oi;
        oi' := Emit(out, oi, "    ");
      }
    } else {
      oi' := Emit(out, oi, [Plain(c, v.neg)]);
    }
  }

  /** The main walk. */
  method MainWalk(pic: string, v: Val, vpos: int, total: nat, ocap: nat, out: array<char>) returns (oi: nat, exp: int)
    requires vpos == Point(pic) && total == IntTotal(pic) && ocap <= out.Length
    modifies out
    ensures oi <= ocap
    ensures var w := WalkFrom(pic, v, ocap, 0, START); out[..oi] == w.out && exp == w.exp
  {
    var pi, led, ii, fi := 0, true, 0, 0;
    oi, exp := 0, -1;
    ghost var goal := WalkFrom(pic, v, ocap, 0, START);
    assert out[..0] == "";
    while pi < |pic| && oi < ocap
      invariant pi <= |pic| && oi <= ocap
      invariant WalkFrom(pic, v, ocap, pi, Walk(out[..oi], led, ii, fi, exp)) == goal
      decreases |pic| - pi
    {
      ghost var w, p := Walk(out[..oi], led, ii, fi, exp), pi;
      pi, oi, led, ii, fi, exp := WalkOnce(pic, v, vpos, total, ocap, out, pi, oi, led, ii, fi, exp);
      WalkUnfold(pic, v, ocap, p, w, pi, Walk(out[..oi], led, ii, fi, exp));
    }
  }

  lemma WalkUnfold(pic: string, v: Val, ocap: nat, pi: nat, w: Walk, pi': nat, w': Walk)
    requires pi < |pic| && |w.out| < ocap && Step(pic, v, ocap, pi, w) == (pi', w') && pi' <= |pic|
    ensures WalkFrom(pic, v, ocap, pi, w) == WalkFrom(pic, v, ocap, pi', w')
  {
  }

  /** The floating currency sign. */
  method CurrencyPass(pic: string, out: array<char>, oi: nat)
    requires oi <= out.Length
    modifies out
    ensures out[..oi] == Currency(pic, old(out[..oi]))
  {
    if FixedCurrency(pic) { return; }
    var start := 0;
    while start < |pic| && pic[start] != '$'
      invariant start <= |pic| && DollarFrom(pic, 0) == DollarFrom(pic, start)
    {
      start := start + 1;
    }
    if start == |pic| { return; }
    var end := start;
    while end < |pic| && pic[end] == '$'
      invariant start <= end <= |pic| && DollarsEnd(pic, start) == DollarsEnd(pic, end)
    {
      end := end + 1;
    }
    var si := 0;
    while si < oi && out[si] == ' '
      invariant si <= oi && NonBlankFrom(out[..oi], 0) == NonBlankFrom(out[..oi], si)
    {
      si := si + 1;
    }
    if end <= oi {
      if si > 0 && start <= si - 1 < end {
        out[si - 1] := '$';
      } else if si == oi && start < oi {
        out[start] := '$';
      }
    }
  }

  method ExponentPass(pic: string, vpos: int, scale: int, exp: int, out: array<char>, oi: nat)
    requires oi <= out.Length && vpos == Point(pic)
    modifies out
    ensures out[..oi] == Exponent(pic, scale, exp, old(out[..oi]))
  {
    var fracs := CountPositions(pic, if vpos >= 0 then vpos + 1 else |pic|, |pic|);
    if exp >= 0 && exp + 4 <= oi {
      ghost var before := out[..oi];
      var e := scale - fracs;
      var a := if e < 0 then -e else e;
      out[exp] := 'E';
      out[exp + 1] := if e >= 0 then '+' else '-';
      out[exp + 2] := DigitChar((a / 10) % 10);
      out[exp + 3] := DigitChar(a % 10);
      assert out[..oi] == Exponent(pic, scale, exp, before);
    }
  }

  /** The magnitude the formatter works with; `sign` is the caller's. */
  function Magnitude(val: I128, sign: int): U128 { if sign < 0 then Mag(val) else ToU(val) }

  /** pic_format128. */
  method PicFormat(val: I128, scale: nat, sign: int, pic: string, out: array<char>) returns (n: nat)
    modifies out
    ensures n <= out.Length
    ensures out[..n] == FormatText(UVal(Magnitude(val, sign)), sign < 0, scale, pic, out.Length)
  {
    if pic == "" || out.Length == 0 { return 0; }
    var v := MakeVal(UVal(Magnitude(val, sign)), sign < 0, scale);
    var vpos := FindPoint(pic);
    var total := CountInts(pic, vpos);
    var signed := HasExplicitSign(pic);
    var slots := CountSlots(pic);
    var ocap := if |pic| + slots < out.Length then |pic| + slots else out.Length;
    for i := 0 to ocap {
      out[i] := ' ';
    }
    var exp;
    n, exp := MainWalk(pic, v, vpos, total, ocap, out);
    CurrencyPass(pic, out, n);
    ExponentPass(pic, vpos, scale, exp, out, n);
    if sign < 0 && !signed && n < out.Length {
      n := Emit(out, n, "-");
    }
  }

  // ---------------------------------------------------------------------
  // The folder
  // ---------------------------------------------------------------------

  method FoldOnce(spec: Spec, v: Val, pi: nat, f: Fold) returns (f': Fold)
    requires pi < |spec.expanded|
    ensures f' == FoldStep(spec, v, pi, f)
  {
    var c := spec.expanded[pi];
    f' := f;
    if c == 'V' { return; }
    if NineOrZ(c) {
      if spec.point >= 0 && pi > spec.point {
        if f.fi < v.fracs && v.ints + f.fi < |v.digits| {
          f' := f'.(text := f.text + [v.digits[v.ints + f.fi]], led := false);
        } else {
          f' := f'.(text := f.text + ['0']);
        }
        f' := f'.(fi := f.fi + 1);
      } else {
        var idx := 0;
        for j := 0 to pi
          invariant idx == CountNZ(spec.expanded, j)
        {
          if NineOrZ(spec.expanded[j]) { idx := idx + 1; }
        }
        var src := idx - (spec.intDigits - v.ints);
        if 0 <= src < v.ints && src < |v.digits| {
          var d := v.digits[src];
          f' := if c == 'Z' && d == '0' && f.led then f.(text := f.text + [' ']) else f.(text := f.text + [d], led := false);
        } else {
          f' := f.(text := f.text + [if c == '9' then '0' else ' ']);
        }
      }
      return;
    }
    var ch := if c == '.' then '.' else if c == '+' then (if v.neg then '-' else '+')
      else if c == '-' || c == 'S' then (if v.neg then '-' else ' ')
      else if c == 'X' || c == 'A' then ' ' else c;
    f' := f.(text := f.text + [ch]);
  }

  /** foldPictureConversion. */
  method FoldPictureConversion(value: int, scale: int, spec: Spec) returns (ok: bool, text: string)
    requires MINLL <= value < -MINLL
    ensures ok == FoldText(value, scale, spec).Some?
    ensures ok ==> text == FoldText(value, scale, spec).value
  {
    ok, text := false, "";
    if !spec.valid || !spec.foldable || scale < 0 || value == MINLL { return; }
    var v := MakeVal(if value < 0 then -value else value, value < 0, scale);
    var f, pi := Fold("", true, 0), 0;
    while pi < |spec.expanded|
      invariant pi <= |spec.expanded| && FoldFrom(spec, v, pi, f) == FoldFrom(spec, v, 0, Fold("", true, 0))
    {
      f := FoldOnce(spec, v, pi, f);
      pi := pi + 1;
    }
    if |f.text| != spec.width { return; }
    ok, text := true, f.text;
  }

  // ---------------------------------------------------------------------
  // The classifier
  // ---------------------------------------------------------------------

  predicate PictureChar(c: char) { c in "ABCDEGHIKMPSTVYZ$.,*/1236789XFR+-" }

  predicate NumericChar(c: char) { c in "9ZV.,$+-SY*EKCRDTIB/GHMP678" }

  const LIMIT: int := 1000000

  const NOSPEC: Spec :=
    Spec(false, false, false, false, false, false, false, 0, 0, 0, -1, 0, '\0', "")

  /** The pictures whose folding the classifier allows. */
  ghost predicate IsFoldable(pic: string) {
    AllFoldable(pic) && |pic| <= CAP && SomeDigit(pic)
  }

  /** A number from position j on; `ok` is false without digits or past the limit. */
  method ParseNumber(pic: string, j: nat) returns (ok: bool, n: nat, end: nat)
    requires j <= |pic|
    ensures j <= end <= |pic|
  {
    n, end := 0, j;
    while end < |pic| && IsDigit(pic[end])
      invariant j <= end <= |pic|
    {
      n := n * 10 + DigitOf(pic[end]);
      if n > LIMIT { return false, n, end; }
      end := end + 1;
    }
    ok := end > j;
  }

  lemma WidthSnoc(pic: string, c: char)
    ensures Width(pic + [c], |pic| + 1) == Width(pic, |pic|) + if c == 'V' then 0 else 1
  {
    WidthPrefix(pic, pic + [c], |pic|);
  }

  lemma {:induction false} WidthPrefix(a: string, b: string, n: nat)
    requires n <= |a| <= |b| && a == b[..|a|]
    ensures Width(a, n) == Width(b, n)
  {
    if n > 0 { WidthPrefix(a, b, n - 1); }
  }

  /** While nothing was repeated or scaled, the expansion is the picture so far; and
      what was repeated or scaled is not foldable. */
  ghost predicate Expanding(pic: string, i: nat, s: Spec) {
    && i <= |pic| && !s.valid && !s.foldable && s.width == Width(s.expanded, |s.expanded|)
    && (!s.hasRepeat && !s.hasScale ==> s.expanded == pic[..i])
    && (s.hasRepeat || s.hasScale ==> !AllFoldable(pic))
  }

  /** The first loop: repetition factors are expanded and a final F(n) is taken off.
      `ok` is false when the picture is malformed. */
  method Expand(pic: string) returns (ok: bool, s: Spec)
    ensures !s.valid && !s.foldable
    ensures !ok ==> !AllFoldable(pic)
    ensures ok ==> Expanding(pic, |pic|, s)
  {
    s := NOSPEC;
    var i := 0;
    while i < |pic|
      invariant Expanding(pic, i, s)
      decreases |pic| - i
    {
      var good, repeat, repeated, at := Factor(pic, i);
      if repeated || pic[i] == 'F' { assert !FoldableChar(pic[i]); }
      if !good { return false, s; }
      var c := pic[at];
      if c == 'F' {
        assert !FoldableChar(pic[at]);
        if repeated || at + 1 >= |pic| || pic[at + 1] != '(' { return false, s; }
        var scale;
        good, scale := ParseScale(pic, at + 2);
        if !good { return false, s; }
        s := s.(hasScale := true, scale := scale);
        i := |pic|;
      } else if !PictureChar(c) {
        assert !FoldableChar(pic[at]);
        return false, s.(badChar := c);
      } else {
        s := TakeChar(pic, s, i, at, repeat, repeated);
        i := at + 1;
      }
    }
    ok := true;
  }

  /** A repetition factor at position i, if there is one. */
  method Factor(pic: string, i: nat) returns (ok: bool, repeat: nat, repeated: bool, at: nat)
    requires i < |pic|
    ensures repeated <==> pic[i] == '('
    ensures !ok ==> repeated
    ensures ok ==> i <= at < |pic|
    ensures !repeated ==> repeat == 1 && at == i
  {
    ok, repeat, repeated, at := true, 1, pic[i] == '(', i;
    if repeated {
      var good, n, j := ParseNumber(pic, i + 1);
      if !good || j >= |pic| || pic[j] != ')' || j + 1 >= |pic| { return false, 0, true, i; }
      repeat, at := n, j + 1;
    }
  }

  /** The character at position `at`, as often as the factor before it says. */
  method TakeChar(pic: string, s: Spec, i: nat, at: nat, repeat: nat, repeated: bool) returns (r: Spec)
    requires Expanding(pic, i, s) && i <= at < |pic|
    requires if repeated then !AllFoldable(pic) else at == i && repeat == 1
    ensures Expanding(pic, at + 1, r)
  {
    var c := pic[at];
    r := s;
    if c == '1' || c == '2' || c == '3' { r := r.(binary := true); }
    if repeated { r := r.(hasRepeat := true); }
    r := Repeat(r, c, repeat);
    assert pic[..i] + [pic[i]] == pic[..i + 1];
  }

  /** The number of a scaling factor, which ends the picture. */
  method ParseScale(pic: string, start: nat) returns (ok: bool, scale: int)
    requires start <= |pic|
  {
    var j: nat := start;
    var sign: int := 1;
    if j < |pic| && (pic[j] == '+' || pic[j] == '-') {
      if pic[j] == '-' { sign := -1; }
      j := j + 1;
    }
    var good, n, end := ParseNumber(pic, j);
    ok, scale := good && end < |pic| && pic[end] == ')' && end + 1 == |pic|, sign * n;
  }

  method Repeat(s: Spec, c: char, repeat: nat) returns (r: Spec)
    requires s.width == Width(s.expanded, |s.expanded|)
    ensures r == s.(expanded := r.expanded, width := r.width) && r.width == Width(r.expanded, |r.expanded|)
    ensures repeat == 1 ==> r.expanded == s.expanded + [c]
  {
    r := s;
    for k := 0 to repeat
      invariant r == s.(expanded := r.expanded, width := r.width) && r.width == Width(r.expanded, |r.expanded|)
      invariant k == 0 ==> r.expanded == s.expanded
      invariant k == 1 ==> r.expanded == s.expanded + [c]
    {
      WidthSnoc(r.expanded, c);
      r := r.(expanded := r.expanded + [c], width := if c != 'V' then r.width + 1 else r.width);
    }
  }

  /** A pounds, shillings and pence picture; it is never folded. */
  method Sterling(s0: Spec) returns (s: Spec)
    requires !s0.foldable && s0.expanded != ""
    ensures !s.foldable
  {
    var pic := s0.expanded;
    s := s0.(sterling := true, numeric := true, width := 0, intDigits := 0, fracDigits := 0);
    var i, field, digits := 1, 0, 0;
    if i >= |pic| || pic[i] != 'M' { return; }
    i := i + 1;
    while i < |pic|
      invariant !s.foldable
    {
      var c := pic[i];
      if c == 'M' {
        if digits == 0 || field >= 2 { return; }
        field, digits := field + 1, 0;
      } else if NineOrZ(c) {
        digits := digits + 1;
        s := s.(width := s.width + 1, intDigits := s.intDigits + 1);
      } else {
        if field == 0 || (c != '.' && c != 'B' && c != '/' && c != 'H' && c != 'P') { return; }
        s := s.(width := s.width + 1);
      }
      i := i + 1;
    }
    if field != 2 || digits == 0 || s.width <= 0 || s.width > 127 || s.intDigits > 38 { return; }
    s := s.(valid := true);
  }

  /** classifyPicture.  A picture is called foldable exactly if it consists of the
      foldable characters, has a digit position and at most 127 characters; and then
      all that the classifier says of it is right. */
  method ClassifyPicture(pic: string) returns (s: Spec)
    ensures s.foldable <==> IsFoldable(pic)
    ensures s.foldable ==> FoldSpec(s) && s.expanded == pic
  {
    var ok;
    ok, s := Expand(pic);
    if !ok || s.expanded == "" {
      if ok { EmptyExpansion(pic, s); }
      return;
    }
    if s.expanded[0] == 'G' {
      assert ok && !s.hasRepeat && !s.hasScale ==> !FoldableChar(pic[0]);
      s := Sterling(s);
      return;
    }
    s := Layout(pic, s);
  }

  /** The layout of an ordinary picture, and whether it may be folded. */
  method Layout(pic: string, s0: Spec) returns (s: Spec)
    requires Expanding(pic, |pic|, s0)
    ensures s.foldable <==> IsFoldable(pic)
    ensures s.foldable ==> FoldSpec(s) && s.expanded == pic
  {
    assert pic[..|pic|] == pic;
    var point, ints, fracs := Measure(s0.expanded);
    var numeric, only := Classes(s0.expanded);
    s := Laid(s0, point, ints, fracs, numeric, only);
    Classified(pic, s, ints, fracs);
  }

  method Measure(x: string) returns (point: int, ints: nat, fracs: nat)
    ensures point == Point(x) && ints == CountDigits(x, 0, IntEnd(x)) && fracs == FracTotal(x)
  {
    point := FindPoint(x);
    ints := CountPositions(x, 0, if point >= 0 then point else |x|);
    fracs := CountPositions(x, if point >= 0 then point + 1 else |x|, |x|);
  }

  method Classes(x: string) returns (numeric: bool, only: bool)
    ensures numeric == SomeNumeric(x) && only == OnlyFoldable(x)
  {
    numeric, only := SomeNumeric(x), OnlyFoldable(x);
  }

  function Laid(s: Spec, point: int, ints: nat, fracs: nat, numeric: bool, only: bool): Spec {
    s.(point := point, intDigits := ints, fracDigits := fracs, numeric := numeric, valid := true,
       foldable := only && numeric && !s.hasRepeat && !s.hasScale && s.width > 0 && |s.expanded| <= 127 && ints + fracs > 0)
  }

  lemma EmptyExpansion(pic: string, s: Spec)
    requires Expanding(pic, |pic|, s) && s.expanded == ""
    ensures !IsFoldable(pic)
  {
  }

  function SomeNumeric(x: string): bool { exists i :: 0 <= i < |x| && NumericChar(x[i]) }

  function OnlyFoldable(x: string): bool { forall i :: 0 <= i < |x| ==> FoldableChar(x[i]) }

  /** The counts are positive exactly if there is a digit position. */
  lemma {:induction false} CountPositive(x: string, lo: nat, hi: nat)
    requires lo <= hi <= |x| && AllFoldable(x)
    ensures CountDigits(x, lo, hi) > 0 <==> exists i :: lo <= i < hi && NineOrZ(x[i])
    decreases hi
  {
    if lo < hi {
      assert FoldableChar(x[hi - 1]);
      CountPositive(x, lo, hi - 1);
    }
  }

  lemma WidthPositive(x: string, i: nat, n: nat)
    requires i < n <= |x| && x[i] != 'V'
    ensures Width(x, n) > 0
    decreases n
  {
    if i < n - 1 { WidthPositive(x, i, n - 1); }
  }

  lemma Classified(pic: string, s: Spec, ints: nat, fracs: nat)
    requires var x := s.expanded;
      && (!s.hasRepeat && !s.hasScale ==> x == pic) && (s.hasRepeat || s.hasScale ==> !AllFoldable(pic))
      && s.valid && s.width == Width(x, |x|) && s.point == Point(x)
      && s.intDigits == ints == CountDigits(x, 0, IntEnd(x)) && s.fracDigits == fracs == FracTotal(x)
      && s.foldable == (OnlyFoldable(x) && SomeNumeric(x) && !s.hasRepeat && !s.hasScale && s.width > 0 && |x| <= 127 && ints + fracs > 0)
    ensures (s.foldable <==> IsFoldable(pic)) && (s.foldable ==> FoldSpec(s) && s.expanded == pic)
  {
    if !s.hasRepeat && !s.hasScale && AllFoldable(s.expanded) {
      DigitsCount(s.expanded);
      DigitsNumeric(s.expanded);
    }
  }

  ghost predicate SomeDigit(x: string) { exists i :: 0 <= i < |x| && NineOrZ(x[i]) }

  lemma DigitsCount(x: string)
    requires AllFoldable(x)
    ensures SomeDigit(x) <==> CountDigits(x, 0, IntEnd(x)) + FracTotal(x) > 0
  {
    CountPositive(x, 0, IntEnd(x));
    if Point(x) >= 0 { CountPositive(x, Point(x) + 1, |x|); }
    if i :| 0 <= i < |x| && NineOrZ(x[i]) {
      assert i != Point(x);
    }
  }

  lemma DigitsNumeric(x: string)
    ensures SomeDigit(x) ==> SomeNumeric(x) && Width(x, |x|) > 0
  {
    if i :| 0 <= i < |x| && NineOrZ(x[i]) {
      WidthPositive(x, i, |x|);
      assert NumericChar(x[i]);
    }
  }
}
