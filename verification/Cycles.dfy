/**
 Marking the cycles of the call graph (src/irgen_decisions.cpp, analyzeEffects).

 A depth-first walk marks a procedure when a call lands on it while it is still
 being visited.  One mark per back edge is enough: every cycle contains a marked
 procedure, and only procedures on a cycle are marked.
 */
module Cycles {
  import opened CallGraph

  datatype Colour = White | Grey | Black

  ghost function Whites(colour: seq<Colour>): (r: set<nat>)
    ensures forall p: nat :: p in r <==> p < |colour| && colour[p] == White
  {
    set p | p in Below(|colour|) && colour[p] == White
  }

  /** The callee is marked, or was finished before the time t. */
  predicate Settled(colour: seq<Colour>, mark: seq<bool>, fin: seq<nat>, c: nat, t: nat) {
    c < |mark| == |colour| == |fin| && (mark[c] || (colour[c] == Black && fin[c] < t))
  }

  /** Every call of p is settled before t. */
  ghost predicate CallsSettled(calls: Calls, colour: seq<Colour>, mark: seq<bool>, fin: seq<nat>, p: nat, t: nat)
    requires p < |calls|
  {
    SettledUpTo(calls[p], |calls[p]|, colour, mark, fin, t)
  }

  ghost predicate SettledUpTo(cs: seq<Call>, i: nat, colour: seq<Colour>, mark: seq<bool>, fin: seq<nat>, t: nat)
    requires i <= |cs|
  {
    forall j :: 0 <= j < i ==> Settled(colour, mark, fin, cs[j].callee, t)
  }

  /** A finished procedure calls only marked ones and ones finished earlier. */
  ghost predicate Ordered(calls: Calls, colour: seq<Colour>, mark: seq<bool>, fin: seq<nat>, clock: nat) {
    && |colour| == |mark| == |fin| == |calls|
    && forall p :: 0 <= p < |calls| && colour[p] == Black ==> fin[p] < clock && CallsSettled(calls, colour, mark, fin, p, fin[p])
  }

  /** Every procedure being visited reaches p. */
  ghost predicate Above(calls: Calls, colour: seq<Colour>, p: nat) {
    forall g: nat :: g < |colour| && colour[g] == Grey ==> Reaches(calls, g, p)
  }

  /** Marks are only added, to procedures on a cycle. */
  ghost predicate NewMarksOnCycles(calls: Calls, mark: seq<bool>, mark': seq<bool>) {
    && |mark'| == |mark|
    && forall p :: 0 <= p < |mark| ==> (mark[p] ==> mark'[p]) && (mark'[p] ==> mark[p] || OnCycle(calls, p))
  }

  /** Finished ones stay as they were, the others under way stay under way, and
      the untouched are untouched or finished by now. */
  ghost predicate Later(colour: seq<Colour>, fin: seq<nat>, colour': seq<Colour>, fin': seq<nat>) {
    && |colour'| == |colour| == |fin| == |fin'|
    && forall p :: 0 <= p < |colour| ==>
         && (colour[p] == Black ==> colour'[p] == Black && fin'[p] == fin[p])
         && (colour[p] == Grey <==> colour'[p] == Grey)
  }

  lemma MarkMore(calls: Calls, colour: seq<Colour>, mark: seq<bool>, fin: seq<nat>, clock: nat, c: nat)
    requires Ordered(calls, colour, mark, fin, clock) && c < |calls|
    ensures Ordered(calls, colour, mark[c := true], fin, clock)
  {
    forall p | 0 <= p < |calls| && colour[p] == Black ensures CallsSettled(calls, colour, mark[c := true], fin, p, fin[p]) {
      assert CallsSettled(calls, colour, mark, fin, p, fin[p]);
    }
  }

  lemma Begin(calls: Calls, colour: seq<Colour>, mark: seq<bool>, fin: seq<nat>, clock: nat, p: nat)
    requires Ordered(calls, colour, mark, fin, clock) && p < |calls| && colour[p] == White
    ensures Ordered(calls, colour[p := Grey], mark, fin, clock)
    ensures |Whites(colour[p := Grey])| < |Whites(colour)|
  {
    var colour' := colour[p := Grey];
    forall q | 0 <= q < |calls| && colour'[q] == Black ensures CallsSettled(calls, colour', mark, fin, q, fin[q]) {
      assert CallsSettled(calls, colour, mark, fin, q, fin[q]);
    }
    assert Whites(colour') == Whites(colour) - {p};
  }

  lemma Finish(calls: Calls, colour: seq<Colour>, mark: seq<bool>, fin: seq<nat>, clock: nat, p: nat)
    requires Ordered(calls, colour, mark, fin, clock) && p < |calls| && colour[p] == Grey
    requires CallsSettled(calls, colour, mark, fin, p, clock)
    ensures Ordered(calls, colour[p := Black], mark, fin[p := clock], clock + 1)
  {
    var colour', fin' := colour[p := Black], fin[p := clock];
    forall q | 0 <= q < |calls| && colour'[q] == Black ensures fin'[q] < clock + 1 && CallsSettled(calls, colour', mark, fin', q, fin'[q]) {
      assert q != p ==> CallsSettled(calls, colour, mark, fin, q, fin[q]);
    }
  }

  /** What is settled stays settled. */
  lemma StillSettled(colour: seq<Colour>, mark: seq<bool>, fin: seq<nat>, colour': seq<Colour>, mark': seq<bool>, fin': seq<nat>,
                     cs: seq<Call>, i: nat, t: nat, t': nat)
    requires i < |cs| && SettledUpTo(cs, i, colour, mark, fin, t) && Settled(colour', mark', fin', cs[i].callee, t')
    requires Later(colour, fin, colour', fin') && t <= t' && |mark| == |colour|
    requires |mark'| == |mark| && forall c :: 0 <= c < |mark| && mark[c] ==> mark'[c]
    ensures SettledUpTo(cs, i + 1, colour', mark', fin', t')
  {
  }

  lemma AboveNext(calls: Calls, colour: seq<Colour>, colour': seq<Colour>, fin: seq<nat>, fin': seq<nat>, p: nat, c: nat)
    requires Above(calls, colour, p) && Later(colour, fin, colour', fin') && Edge(calls, p, c)
    ensures Above(calls, colour', c)
  {
    forall g: nat | g < |colour'| && colour'[g] == Grey ensures Reaches(calls, g, c) {
      EdgeReaches(calls, p, c);
      ReachesJoin(calls, g, p, c);
    }
  }

  lemma WhitesShrink(colour: seq<Colour>, fin: seq<nat>, colour': seq<Colour>, fin': seq<nat>)
    requires Later(colour, fin, colour', fin')
    ensures |Whites(colour')| <= |Whites(colour)|
  {
    SubsetCard(Whites(colour'), Whites(colour));
  }

  lemma LaterTwice(a: seq<Colour>, fa: seq<nat>, b: seq<Colour>, fb: seq<nat>, c: seq<Colour>, fc: seq<nat>)
    requires Later(a, fa, b, fb) && Later(b, fb, c, fc)
    ensures Later(a, fa, c, fc)
  {
  }

  lemma MarksTwice(calls: Calls, a: seq<bool>, b: seq<bool>, c: seq<bool>)
    requires NewMarksOnCycles(calls, a, b) && NewMarksOnCycles(calls, b, c)
    ensures NewMarksOnCycles(calls, a, c)
  {
  }

  /** The recursive visit of a procedure not yet seen. */
  method Visit(calls: Calls, p: nat, colour: array<Colour>, mark: array<bool>, ghost fin: seq<nat>, ghost clock: nat)
    returns (ghost fin': seq<nat>, ghost clock': nat)
    requires Closed(calls) && p < |calls| == colour.Length == mark.Length
    requires Ordered(calls, colour[..], mark[..], fin, clock) && Above(calls, colour[..], p) && colour[p] == White
    modifies colour, mark
    ensures Ordered(calls, colour[..], mark[..], fin', clock') && clock <= clock'
    ensures Later(old(colour[..]), fin, colour[..], fin') && colour[p] == Black
    ensures NewMarksOnCycles(calls, old(mark[..]), mark[..])
    decreases |Whites(colour[..])|, 0
  {
    ghost var colour0, mark0 := colour[..], mark[..];
    Begin(calls, colour0, mark0, fin, clock, p);
    ReachesSelf(calls, p);
    colour[p] := Grey;
    assert colour[..] == colour0[p := Grey];
    fin', clock' := fin, clock;
    var i := 0;
    while i < |calls[p]|
      invariant i <= |calls[p]|
      invariant Ordered(calls, colour[..], mark[..], fin', clock') && clock <= clock'
      invariant Later(colour0[p := Grey], fin, colour[..], fin')
      invariant NewMarksOnCycles(calls, mark0, mark[..])
      invariant SettledUpTo(calls[p], i, colour[..], mark[..], fin', clock')
    {
      var c := calls[p][i].callee;
      assert Edge(calls, p, c);
      ghost var colour1, mark1, fin1, clock1 := colour[..], mark[..], fin', clock';
      WhitesShrink(colour0[p := Grey], fin, colour1, fin1);
      fin', clock' := Follow(calls, p, c, colour, mark, fin', clock', colour0[p := Grey], fin);
      LaterTwice(colour0[p := Grey], fin, colour1, fin1, colour[..], fin');
      MarksTwice(calls, mark0, mark1, mark[..]);
      StillSettled(colour1, mark1, fin1, colour[..], mark[..], fin', calls[p], i, clock1, clock');
      i := i + 1;
    }
    Finish(calls, colour[..], mark[..], fin', clock', p);
    ghost var colour2 := colour[..];
    colour[p] := Black;
    assert colour[..] == colour2[p := Black];
    fin', clock' := fin'[p := clock'], clock' + 1;
  }

  /** One call of p, which is being visited, to c; colour0 is how things stood
      when the visit of p began. */
  method Follow(calls: Calls, p: nat, c: nat, colour: array<Colour>, mark: array<bool>, ghost fin: seq<nat>, ghost clock: nat,
                ghost colour0: seq<Colour>, ghost fin0: seq<nat>)
    returns (ghost fin': seq<nat>, ghost clock': nat)
    requires Closed(calls) && c < |calls| == colour.Length == mark.Length && Edge(calls, p, c)
    requires Ordered(calls, colour[..], mark[..], fin, clock)
    requires Above(calls, colour0, p) && Later(colour0, fin0, colour[..], fin)
    modifies colour, mark
    ensures Ordered(calls, colour[..], mark[..], fin', clock') && clock <= clock'
    ensures Later(old(colour[..]), fin, colour[..], fin')
    ensures NewMarksOnCycles(calls, old(mark[..]), mark[..])
    ensures Settled(colour[..], mark[..], fin', c, clock')
    decreases |Whites(colour[..])|, 1
  {
    ghost var mark0 := mark[..];
    fin', clock' := fin, clock;
    AboveNext(calls, colour0, colour[..], fin0, fin, p, c);
    if colour[c] == Grey {
      MarkMore(calls, colour[..], mark0, fin, clock, c);
      mark[c] := true;
      assert mark[..] == mark0[c := true];
      OnCycleIfAbove(calls, colour0, p, c);
    } else if colour[c] == White {
      fin', clock' := Visit(calls, c, colour, mark, fin, clock);
    }
  }

  lemma OnCycleIfAbove(calls: Calls, colour: seq<Colour>, p: nat, c: nat)
    requires Above(calls, colour, p) && c < |colour| && colour[c] == Grey && Edge(calls, p, c)
    ensures OnCycle(calls, c)
  {
    var k: nat :| Path(calls, c, p, k);
    if k == 0 {
      ReachesSelf(calls, c);
      assert Edge(calls, c, c);
    } else {
      var m: nat :| Edge(calls, c, m) && Path(calls, m, p, k - 1);
      EdgeReaches(calls, p, c);
      ReachesJoin(calls, m, p, c);
    }
  }

  /** The marks cover the cycles: a procedure that calls no marked one, directly
      or not, is on none. */
  ghost predicate CoversCycles(calls: Calls, mark: seq<bool>) {
    |mark| == |calls| && forall p: nat :: p < |calls| && OnCycle(calls, p) ==> exists m: nat :: m < |calls| && Reaches(calls, p, m) && mark[m]
  }

  /** Along calls that meet no mark, the finishing times go down. */
  lemma {:induction false} TimesGoDown(calls: Calls, colour: seq<Colour>, mark: seq<bool>, fin: seq<nat>, clock: nat, p: nat, q: nat, k: nat)
    requires Closed(calls) && Ordered(calls, colour, mark, fin, clock) && (forall x :: 0 <= x < |calls| ==> colour[x] == Black)
    requires p < |calls| && Path(calls, p, q, k)
    requires forall m: nat :: m < |calls| && Reaches(calls, p, m) ==> !mark[m]
    ensures q < |calls| && (if k == 0 then q == p else fin[q] < fin[p])
    decreases k
  {
    if k > 0 {
      var m: nat :| Edge(calls, p, m) && Path(calls, m, q, k - 1);
      EdgeReaches(calls, p, m);
      assert CallsSettled(calls, colour, mark, fin, p, fin[p]);
      forall x: nat | x < |calls| && Reaches(calls, m, x) ensures !mark[x] {
        ReachesJoin(calls, p, m, x);
      }
      TimesGoDown(calls, colour, mark, fin, clock, m, q, k - 1);
    }
  }

  lemma OrderedCovers(calls: Calls, colour: seq<Colour>, mark: seq<bool>, fin: seq<nat>, clock: nat)
    requires Closed(calls) && Ordered(calls, colour, mark, fin, clock) && (forall x :: 0 <= x < |calls| ==> colour[x] == Black)
    ensures CoversCycles(calls, mark)
  {
    forall p: nat | p < |calls| && OnCycle(calls, p) ensures exists m: nat :: m < |calls| && Reaches(calls, p, m) && mark[m] {
      if forall m: nat :: m < |calls| && Reaches(calls, p, m) ==> !mark[m] {
        var x: nat :| Edge(calls, p, x) && Reaches(calls, x, p);
        var k: nat :| Path(calls, x, p, k);
        assert Path(calls, p, p, k + 1);
        TimesGoDown(calls, colour, mark, fin, clock, p, p, k + 1);
      }
    }
  }

  /** Marks, in place, at least one procedure of every cycle, and nothing else. */
  method MarkCycles(calls: Calls, mark: array<bool>)
    requires Closed(calls) && mark.Length == |calls|
    modifies mark
    ensures CoversCycles(calls, mark[..]) && NewMarksOnCycles(calls, old(mark[..]), mark[..])
  {
    var colour := new Colour[|calls|](_ => White);
    ghost var fin, clock := seq(|calls|, _ => 0), 0;
    ghost var mark0 := mark[..];
    var p := 0;
    while p < |calls|
      invariant p <= |calls|
      invariant fresh(colour) && colour.Length == |calls|
      invariant Ordered(calls, colour[..], mark[..], fin, clock)
      invariant NewMarksOnCycles(calls, mark0, mark[..])
      invariant forall q :: 0 <= q < |calls| ==> colour[q] != Grey && (q < p ==> colour[q] == Black)
    {
      ghost var colour1, mark1, fin1 := colour[..], mark[..], fin;
      if colour[p] == White {
        fin, clock := Visit(calls, p, colour, mark, fin, clock);
        MarksTwice(calls, mark0, mark1, mark[..]);
      }
      p := p + 1;
    }
    OrderedCovers(calls, colour[..], mark[..], fin, clock);
  }
}
