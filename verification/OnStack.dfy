/**
 The ON-unit stack of a task (runtime/rt_cond.c; rules (91)-(94) of TR 25.084).

 All units are kept in one flat stack.  A block activation saves the depth at its
 entry and passes it to ON and REVERT, and resets the stack to it at its exit.
 The flat stack stands for a stack of maps, one for each activation, from
 conditions to units.
 */
module OnStack {
  import opened Options

  /** A condition's unit; `id`, `fn` and `ctx` are what a lookup answers. */
  datatype Frame = Frame(key: int, id: int, fn: int, ctx: int)

  const INIT: nat := 16

  // ---------------------------------------------------------------------
  // The flat stack as a sequence
  // ---------------------------------------------------------------------

  /** The topmost entry for the key at or above base, or -1. */
  function TopIndex(s: seq<Frame>, key: int, base: nat): (i: int)
    ensures i == -1 || (base <= i < |s| && s[i].key == key)
    ensures i == -1 ==> forall j :: base <= j < |s| ==> s[j].key != key
    ensures forall j :: i < j < |s| && base <= j ==> s[j].key != key
    decreases |s|
  {
    if |s| <= base then -1
    else if s[|s| - 1].key == key then |s| - 1
    else TopIndex(s[..|s| - 1], key, base)
  }

  function Without(s: seq<Frame>, i: nat): seq<Frame>
    requires i < |s|
  {
    s[..i] + s[i + 1..]
  }

  function Dropped(s: seq<Frame>, key: int, base: nat): seq<Frame> {
    var i := TopIndex(s, key, base);
    if i >= 0 then Without(s, i) else s
  }

  function Established(s: seq<Frame>, f: Frame, base: int): seq<Frame> {
    Dropped(s, f.key, if base < 0 then 0 else base) + [f]
  }

  function Reverted(s: seq<Frame>, key: int, base: int): seq<Frame> {
    if base < 0 || base > |s| then s else Dropped(s, key, base)
  }

  function Reset(s: seq<Frame>, d: int): seq<Frame> {
    if 0 <= d <= |s| then s[..d] else s
  }

  /** The topmost unit for the key. */
  function Top(s: seq<Frame>, key: int): Option<Frame> {
    var i := TopIndex(s, key, 0);
    if i >= 0 then Some(s[i]) else None
  }

  // ---------------------------------------------------------------------
  // The stack of maps
  // ---------------------------------------------------------------------

  type Units = map<int, Frame>

  /** The saved depths of the activations, outermost first. */
  ghost predicate Bases(s: seq<Frame>, bases: seq<nat>) {
    && |bases| > 0 && bases[0] == 0
    && (forall i, j :: 0 <= i <= j < |bases| ==> bases[i] <= bases[j])
    && (forall i :: 0 <= i < |bases| ==> bases[i] <= |s|)
    && (forall a :: 0 <= a < |bases| ==> Segment(s, bases, a))
  }

  ghost predicate Segment(s: seq<Frame>, bases: seq<nat>, a: nat)
    requires a < |bases|
  {
    NoRepeat(s, bases[a], End(s, bases, a))
  }

  function End(s: seq<Frame>, bases: seq<nat>, a: nat): nat
    requires a < |bases|
  {
    if a + 1 < |bases| then bases[a + 1] else |s|
  }

  /** An activation holds at most one unit for each condition. */
  ghost predicate NoRepeat(s: seq<Frame>, lo: nat, hi: nat) {
    forall i, j :: lo <= i < j < hi <= |s| ==> s[i].key != s[j].key
  }

  /** The units in s[lo..hi]; a later one counts. */
  function UnitsIn(s: seq<Frame>, lo: nat, hi: nat): (m: Units)
    requires hi <= |s|
    decreases hi
  {
    if hi <= lo then map[] else UnitsIn(s, lo, hi - 1)[s[hi - 1].key := s[hi - 1]]
  }

  /** The stack of maps that the flat stack stands for. */
  function View(s: seq<Frame>, bases: seq<nat>): (v: seq<Units>)
    requires forall a :: 0 <= a < |bases| ==> bases[a] <= |s|
    ensures |v| == |bases|
  {
    seq(|bases|, a requires 0 <= a < |bases| => UnitsIn(s, bases[a], End(s, bases, a)))
  }

  /** The innermost activation's unit for the key. */
  function Innermost(v: seq<Units>, key: int): Option<Frame> {
    if v == [] then None
    else if key in v[|v| - 1] then Some(v[|v| - 1][key])
    else Innermost(v[..|v| - 1], key)
  }

  lemma {:induction false} UnitsAt(s: seq<Frame>, lo: nat, hi: nat, i: nat)
    requires lo <= i < hi <= |s| && forall j :: i < j < hi ==> s[j].key != s[i].key
    ensures s[i].key in UnitsIn(s, lo, hi) && UnitsIn(s, lo, hi)[s[i].key] == s[i]
    decreases hi
  {
    if i < hi - 1 { UnitsAt(s, lo, hi - 1, i); }
  }

  ghost predicate HasKey(s: seq<Frame>, lo: nat, hi: nat, k: int) {
    exists i :: lo <= i < hi <= |s| && s[i].key == k
  }

  lemma {:induction false} UnitsKeys(s: seq<Frame>, lo: nat, hi: nat, k: int)
    requires hi <= |s| && k in UnitsIn(s, lo, hi)
    ensures HasKey(s, lo, hi, k)
    decreases hi
  {
    if s[hi - 1].key != k { UnitsKeys(s, lo, hi - 1, k); }
  }

  lemma {:induction false} UnitsFrame(s: seq<Frame>, t: seq<Frame>, lo: nat, hi: nat)
    requires hi <= |s| && hi <= |t| && forall i :: lo <= i < hi ==> s[i] == t[i]
    ensures UnitsIn(s, lo, hi) == UnitsIn(t, lo, hi)
    decreases hi
  {
    if hi > lo { UnitsFrame(s, t, lo, hi - 1); }
  }

  /** A map is the map of a segment if it agrees with it everywhere. */
  lemma UnitsAre(s: seq<Frame>, lo: nat, hi: nat, m: Units)
    requires hi <= |s| && NoRepeat(s, lo, hi)
    requires forall i :: lo <= i < hi ==> s[i].key in m && m[s[i].key] == s[i]
    requires forall k :: k in m ==> HasKey(s, lo, hi, k)
    ensures UnitsIn(s, lo, hi) == m
  {
    var u := UnitsIn(s, lo, hi);
    forall k | k in m ensures k in u && u[k] == m[k] {
      var i :| lo <= i < hi && s[i].key == k;
      UnitsAt(s, lo, hi, i);
    }
    forall k | k in u ensures k in m {
      UnitsKeys(s, lo, hi, k);
    }
  }

  /** A lookup answers with the innermost activation's unit. */
  lemma {:induction false} TopIsInnermost(s: seq<Frame>, bases: seq<nat>, key: int)
    requires Bases(s, bases)
    ensures Top(s, key) == Innermost(View(s, bases), key)
    decreases |bases|
  {
    var n := |bases| - 1;
    var b := bases[n];
    var v := View(s, bases);
    TopSplit(s, key, b);
    if TopIndex(s, key, b) >= 0 {
      UnitsAt(s, b, |s|, TopIndex(s, key, b));
    } else {
      if key in v[n] { UnitsKeys(s, b, |s|, key); }
      if n > 0 {
        Shorter(s, bases);
        TopIsInnermost(s[..b], bases[..n], key);
      } else {
        assert v[..0] == [];
      }
    }
  }

  lemma {:induction false} TopSplit(s: seq<Frame>, key: int, b: nat)
    requires b <= |s|
    ensures TopIndex(s, key, 0) == if TopIndex(s, key, b) >= 0 then TopIndex(s, key, b) else TopIndex(s[..b], key, 0)
    decreases |s|
  {
    if |s| > b {
      if s[|s| - 1].key != key {
        var t := s[..|s| - 1];
        assert t[..b] == s[..b];
        TopSplit(t, key, b);
      }
    } else {
      assert s[..b] == s;
    }
  }

  /** Without its last activation the stack is the caller's. */
  lemma Shorter(s: seq<Frame>, bases: seq<nat>)
    requires Bases(s, bases) && |bases| > 1
    ensures var n := |bases| - 1; Bases(s[..bases[n]], bases[..n]) && View(s[..bases[n]], bases[..n]) == View(s, bases)[..n]
  {
    var n := |bases| - 1;
    var b, bs := bases[n], bases[..n];
    var t := s[..b];
    forall a | 0 <= a < n ensures Segment(t, bs, a) && View(t, bs)[a] == View(s, bases)[a] {
      assert End(t, bs, a) == End(s, bases, a);
      assert Segment(s, bases, a);
      UnitsFrame(s, t, bs[a], End(t, bs, a));
    }
  }

  // ---------------------------------------------------------------------
  // What the operations do to the stack of maps
  // ---------------------------------------------------------------------

  /** s and t agree below the last activation. */
  lemma SameBelow(s: seq<Frame>, t: seq<Frame>, bases: seq<nat>)
    requires Bases(s, bases)
    requires var b := bases[|bases| - 1]; b <= |t| && s[..b] == t[..b] && NoRepeat(t, b, |t|)
    ensures Bases(t, bases)
    ensures var n := |bases| - 1; View(t, bases) == View(s, bases)[n := UnitsIn(t, bases[n], |t|)]
  {
    var n := |bases| - 1;
    var b := bases[n];
    assert forall i :: 0 <= i < b ==> s[i] == s[..b][i] && t[i] == t[..b][i];
    forall a | 0 <= a < n ensures Segment(t, bases, a) && View(t, bases)[a] == View(s, bases)[a] {
      assert End(t, bases, a) == End(s, bases, a) <= b;
      assert Segment(s, bases, a);
      UnitsFrame(s, t, bases[a], End(t, bases, a));
    }
  }

  lemma DroppedSegment(s: seq<Frame>, key: int, b: nat)
    requires b <= |s| && NoRepeat(s, b, |s|)
    ensures var t := Dropped(s, key, b);
      && b <= |t| && t[..b] == s[..b] && NoRepeat(t, b, |t|)
      && (forall j :: b <= j < |t| ==> t[j].key != key)
      && UnitsIn(t, b, |t|) == UnitsIn(s, b, |s|) - {key}
  {
    var t, i := Dropped(s, key, b), TopIndex(s, key, b);
    if i >= 0 {
      assert forall j :: b <= j < |t| ==> t[j] == s[if j < i then j else j + 1];
      assert forall j :: b <= j < |s| && j != i ==> s[j].key != s[i].key;
    }
    var m := UnitsIn(s, b, |s|) - {key};
    forall j | b <= j < |t| ensures t[j].key in m && m[t[j].key] == t[j] {
      UnitsAt(s, b, |s|, if i >= 0 && j >= i then j + 1 else j);
    }
    forall k | k in m ensures HasKey(t, b, |t|, k) {
      UnitsKeys(s, b, |s|, k);
      var x :| b <= x < |s| && s[x].key == k;
      assert t[if i >= 0 && x > i then x - 1 else x].key == k;
    }
    UnitsAre(t, b, |t|, m);
  }

  lemma PushSegment(t: seq<Frame>, f: Frame, b: nat)
    requires b <= |t| && NoRepeat(t, b, |t|) && forall j :: b <= j < |t| ==> t[j].key != f.key
    ensures var u := t + [f]; NoRepeat(u, b, |u|) && UnitsIn(u, b, |u|) == UnitsIn(t, b, |t|)[f.key := f]
  {
    UnitsFrame(t, t + [f], b, |t|);
  }

  /** ON: the current activation's unit for the condition, and nothing else, is set. */
  lemma EstablishRefines(s: seq<Frame>, bases: seq<nat>, f: Frame)
    requires Bases(s, bases)
    ensures var n := |bases| - 1; var t := Established(s, f, bases[n]);
      Bases(t, bases) && View(t, bases) == View(s, bases)[n := View(s, bases)[n][f.key := f]]
  {
    var n := |bases| - 1;
    var b := bases[n];
    var t := Dropped(s, f.key, b);
    assert Segment(s, bases, n);
    DroppedSegment(s, f.key, b);
    PushSegment(t, f, b);
    assert (t + [f])[..b] == t[..b];
    SameBelow(s, t + [f], bases);
    var x := UnitsIn(s, b, |s|);
    assert (x - {f.key})[f.key := f] == x[f.key := f];
  }

  /** REVERT: the current activation's unit for the condition, and nothing else, goes. */
  lemma RevertRefines(s: seq<Frame>, bases: seq<nat>, key: int)
    requires Bases(s, bases)
    ensures var n := |bases| - 1; var t := Reverted(s, key, bases[n]);
      Bases(t, bases) && View(t, bases) == View(s, bases)[n := View(s, bases)[n] - {key}]
  {
    var n := |bases| - 1;
    assert Segment(s, bases, n);
    DroppedSegment(s, key, bases[n]);
    SameBelow(s, Dropped(s, key, bases[n]), bases);
  }

  lemma EnterRefines(s: seq<Frame>, bases: seq<nat>)
    requires Bases(s, bases)
    ensures Bases(s, bases + [|s|]) && View(s, bases + [|s|]) == View(s, bases) + [map[]]
  {
    var bs := bases + [|s|];
    forall a | 0 <= a < |bases| ensures Segment(s, bs, a) && View(s, bs)[a] == View(s, bases)[a] {
      assert End(s, bs, a) == End(s, bases, a) && Segment(s, bases, a);
    }
  }

  // ---------------------------------------------------------------------
  // Every run
  // ---------------------------------------------------------------------

  datatype Op = Enter | On(f: Frame) | Revert(key: int) | Exit

  datatype State = State(s: seq<Frame>, bases: seq<nat>)

  /** The outermost activation does not end. */
  predicate Enabled(depth: nat, op: Op) { depth > 0 && (op.Exit? ==> depth > 1) }

  /** What the generated code makes of each operation: the saved depth is the
      current activation's. */
  function Do(st: State, op: Op): State
    requires Enabled(|st.bases|, op)
  {
    var n := |st.bases| - 1;
    match op
    case Enter => st.(bases := st.bases + [|st.s|])
    case On(f) => st.(s := Established(st.s, f, st.bases[n]))
    case Revert(key) => st.(s := Reverted(st.s, key, st.bases[n]))
    case Exit => State(Reset(st.s, st.bases[n]), st.bases[..n])
  }

  function DoMaps(v: seq<Units>, op: Op): seq<Units>
    requires Enabled(|v|, op)
  {
    var n := |v| - 1;
    match op
    case Enter => v + [map[]]
    case On(f) => v[n := v[n][f.key := f]]
    case Revert(key) => v[n := v[n] - {key}]
    case Exit => v[..n]
  }

  ghost predicate Refines(st: State, op: Op)
    requires Bases(st.s, st.bases) && Enabled(|st.bases|, op)
  {
    var st' := Do(st, op);
    Bases(st'.s, st'.bases) && View(st'.s, st'.bases) == DoMaps(View(st.s, st.bases), op)
  }

  lemma OnStep(st: State, f: Frame)
    requires Bases(st.s, st.bases)
    ensures Refines(st, On(f))
  {
    EstablishRefines(st.s, st.bases, f);
  }

  lemma RevertStep(st: State, key: int)
    requires Bases(st.s, st.bases)
    ensures Refines(st, Revert(key))
  {
    RevertRefines(st.s, st.bases, key);
  }

  lemma ExitStep(st: State)
    requires Bases(st.s, st.bases) && |st.bases| > 1
    ensures Refines(st, Exit)
  {
    Shorter(st.s, st.bases);
  }

  lemma EnterStep(st: State)
    requires Bases(st.s, st.bases)
    ensures Refines(st, Enter)
  {
    EnterRefines(st.s, st.bases);
  }

  lemma StepRefines(st: State, op: Op)
    requires Bases(st.s, st.bases) && Enabled(|st.bases|, op)
    ensures Refines(st, op)
  {
    match op
    case Enter => EnterStep(st);
    case On(f) => OnStep(st, f);
    case Revert(key) => RevertStep(st, key);
    case Exit => ExitStep(st);
  }

  datatype Outcome = Blocked | Reached(st: State)

  function Exec(st: State, ops: seq<Op>): Outcome
    decreases |ops|
  {
    if ops == [] then Reached(st)
    else if !Enabled(|st.bases|, ops[0]) then Blocked
    else Exec(Do(st, ops[0]), ops[1..])
  }

  function ExecMaps(v: seq<Units>, ops: seq<Op>): seq<Units>
    decreases |ops|
  {
    if ops == [] || !Enabled(|v|, ops[0]) then v else ExecMaps(DoMaps(v, ops[0]), ops[1..])
  }

  /** Under any nesting of entries, ONs, REVERTs and exits the flat stack stands for
      the stack of maps, and a lookup answers with the innermost activation's unit. */
  lemma {:induction false} RunRefines(st: State, ops: seq<Op>, key: int)
    requires Bases(st.s, st.bases) && Exec(st, ops).Reached?
    ensures var st' := Exec(st, ops).st;
      && Bases(st'.s, st'.bases) && View(st'.s, st'.bases) == ExecMaps(View(st.s, st.bases), ops)
      && Top(st'.s, key) == Innermost(ExecMaps(View(st.s, st.bases), ops), key)
    decreases |ops|
  {
    if ops == [] {
      TopIsInnermost(st.s, st.bases, key);
    } else {
      StepRefines(st, ops[0]);
      RunRefines(Do(st, ops[0]), ops[1..], key);
    }
  }

  /** The depth that a run of operations adds; it never goes below the start. */
  predicate Inside(ops: seq<Op>, depth: nat)
    decreases |ops|
  {
    ops == [] || (!(ops[0].Exit? && depth == 0) &&
                  Inside(ops[1..], if ops[0].Enter? then depth + 1 else if ops[0].Exit? then depth - 1 else depth))
  }

  /** Whatever an activation and those it calls do, the caller's units stay. */
  lemma {:induction false} CallerKept(v: seq<Units>, ops: seq<Op>, depth: nat)
    requires Inside(ops, depth) && |v| > depth + 1
    ensures var w := ExecMaps(v, ops); |w| >= |v| - depth && w[..|v| - depth - 1] == v[..|v| - depth - 1]
    decreases |ops|
  {
    if ops != [] {
      var v', n := DoMaps(v, ops[0]), |v| - depth - 1;
      var d := if ops[0].Enter? then depth + 1 else if ops[0].Exit? then depth - 1 else depth;
      assert v'[..n] == v[..n];
      CallerKept(v', ops[1..], d);
    }
  }

  /** A whole activation, whatever it does inside, leaves the stack as it found it. */
  lemma ExitRestores(v: seq<Units>, ops: seq<Op>)
    requires |v| > 0 && Inside(ops, 0)
    requires var w := ExecMaps(v + [map[]], ops); |w| == |v| + 1
    ensures DoMaps(ExecMaps(DoMaps(v, Enter), ops), Exit) == v
  {
    var u := v + [map[]];
    CallerKept(u, ops, 0);
    assert u[..|v|] == v;
  }

  // ---------------------------------------------------------------------
  // The stack in the task's memory
  // ---------------------------------------------------------------------

  class OnState {
    var frames: array<Frame>
    var sp: nat

    ghost predicate Valid()
      reads this
    {
      sp <= frames.Length
    }

    ghost function Units(): seq<Frame>
      requires Valid()
      reads this, frames
    {
      frames[..sp]
    }

    constructor ()
      ensures Valid() && Units() == [] && fresh(frames)
    {
      frames := new Frame[0];
      sp := 0;
    }

    /** The capacity becomes cap. */
    method Resize(cap: nat)
      requires Valid() && sp <= cap
      modifies this`frames
      ensures Valid() && frames.Length == cap && Units() == old(Units()) && fresh(frames)
    {
      var old_ := frames;
      var ns := new Frame[cap](_ => Frame(0, 0, 0, 0));
      for i := 0 to sp
        invariant ns[..i] == old_[..i] && frames == old_
      {
        ns[i] := old_[i];
      }
      frames := ns;
    }

    /** rt_pli_on_push. */
    method Push(f: Frame)
      requires Valid()
      modifies this, frames
      ensures Valid() && Units() == old(Units()) + [f]
      ensures frames == old(frames) || fresh(frames)
      ensures frames.Length == if old(sp) < old(frames.Length) then old(frames.Length)
                               else if old(frames.Length) > 0 then 2 * old(frames.Length) else INIT
    {
      if sp == frames.Length {
        Resize(if frames.Length > 0 then 2 * frames.Length else INIT);
      }
      frames[sp] := f;
      sp := sp + 1;
    }

    /** on_shrink: half the capacity when a quarter or less is in use. */
    method Shrink()
      requires Valid()
      modifies this`frames
      ensures Valid() && Units() == old(Units()) && (frames == old(frames) || fresh(frames))
      ensures frames.Length == if old(frames.Length) > INIT && sp <= old(frames.Length) / 4
                               then old(frames.Length) / 2 else old(frames.Length)
    {
      if frames.Length > INIT && sp <= frames.Length / 4 {
        Resize(frames.Length / 2);
      }
    }

    /** Where the topmost entry for the key at or above base is. */
    method Find(key: int, base: nat) returns (i: int)
      requires Valid()
      ensures i == TopIndex(Units(), key, base)
    {
      i := sp - 1;
      while i >= base
        invariant -1 <= i < sp && TopIndex(Units(), key, base) == TopIndex(frames[..i + 1], key, base)
      {
        assert frames[..i + 1][..i] == frames[..i];
        if frames[i].key == key { return; }
        i := i - 1;
      }
      i := -1;
    }

    /** The entries above i move down by one. */
    method Remove(i: nat)
      requires Valid() && i < sp
      modifies this`sp, frames
      ensures Valid() && Units() == Without(old(Units()), i)
    {
      ghost var s := Units();
      var j := i;
      while j < sp - 1
        invariant sp == |s| && i <= j <= sp - 1
        invariant forall k :: 0 <= k < i ==> frames[k] == s[k]
        invariant forall k :: i <= k < j ==> frames[k] == Without(s, i)[k]
        invariant forall k :: j <= k < sp ==> frames[k] == s[k]
      {
        frames[j] := frames[j + 1];
        j := j + 1;
      }
      sp := sp - 1;
      assert Units() == Without(s, i);
    }

    /** pli_on_establish. */
    method Establish(f: Frame, base: int)
      requires Valid()
      modifies this, frames
      ensures Valid() && Units() == Established(old(Units()), f, base)
    {
      Drop(f.key, if base < 0 then 0 else base);
      Push(f);
    }

    method Drop(key: int, base: nat)
      requires Valid()
      modifies this`sp, frames
      ensures Valid() && Units() == Dropped(old(Units()), key, base)
    {
      var i := Find(key, base);
      if i >= 0 { Remove(i); }
    }

    /** pli_on_revert. */
    method Revert(key: int, base: int)
      requires Valid()
      modifies this, frames
      ensures Valid() && Units() == Reverted(old(Units()), key, base)
    {
      if base < 0 || base > sp { return; }
      var i := Find(key, base);
      if i >= 0 {
        Remove(i);
        Shrink();
      }
    }

    /** pli_on_reset_error. */
    method ResetTo(d: int)
      requires Valid()
      modifies this
      ensures Valid() && Units() == Reset(old(Units()), d)
    {
      if 0 <= d <= sp {
        ghost var s := Units();
        sp := d;
        assert Units() == s[..d];
        Shrink();
      }
    }

    /** pli_on_top_fn_pair: the handler and its context, 0 when there is none. */
    method TopPair(key: int) returns (fn: int, ctx: int)
      requires Valid()
      ensures var t := Top(Units(), key); if t.Some? then fn == t.value.fn && ctx == t.value.ctx else fn == 0 && ctx == 0
    {
      var i := Find(key, 0);
      if i >= 0 { fn, ctx := frames[i].fn, frames[i].ctx; } else { fn, ctx := 0, 0; }
    }
  }
}
