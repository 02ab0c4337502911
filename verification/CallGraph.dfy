/**
 Procedures, the calls they make, and which procedures reach which.

 `calls[p]` lists the calls in the body of procedure p, with the storage each
 call hands to the callee (src/irgen_decisions.cpp).
 */
module CallGraph {

  /** Where the storage handed over lives, seen from the caller. */
  datatype Reach = Frame | Arg | Other

  datatype Call = Call(callee: nat, reach: Reach)

  type Calls = seq<seq<Call>>

  predicate Closed(calls: Calls) {
    forall p, i :: 0 <= p < |calls| && 0 <= i < |calls[p]| ==> calls[p][i].callee < |calls|
  }

  ghost predicate Edge(calls: Calls, p: nat, q: nat) {
    p < |calls| && exists i :: 0 <= i < |calls[p]| && calls[p][i].callee == q
  }

  /** q is reached from p by exactly k calls. */
  ghost predicate Path(calls: Calls, p: nat, q: nat, k: nat)
    decreases k
  {
    if k == 0 then p == q else exists m: nat :: Edge(calls, p, m) && Path(calls, m, q, k - 1)
  }

  ghost predicate Reaches(calls: Calls, p: nat, q: nat) {
    exists k: nat :: Path(calls, p, q, k)
  }

  ghost predicate OnCycle(calls: Calls, p: nat) {
    exists m: nat :: Edge(calls, p, m) && Reaches(calls, m, p)
  }

  lemma {:induction false} PathJoin(calls: Calls, p: nat, m: nat, q: nat, j: nat, k: nat)
    requires Path(calls, p, m, j) && Path(calls, m, q, k)
    ensures Path(calls, p, q, j + k)
    decreases j
  {
    if j > 0 {
      var x: nat :| Edge(calls, p, x) && Path(calls, x, m, j - 1);
      PathJoin(calls, x, m, q, j - 1, k);
    }
  }

  lemma ReachesSelf(calls: Calls, p: nat)
    ensures Reaches(calls, p, p)
  {
    assert Path(calls, p, p, 0);
  }

  lemma ReachesJoin(calls: Calls, p: nat, m: nat, q: nat)
    requires Reaches(calls, p, m) && Reaches(calls, m, q)
    ensures Reaches(calls, p, q)
  {
    var j: nat :| Path(calls, p, m, j);
    var k: nat :| Path(calls, m, q, k);
    PathJoin(calls, p, m, q, j, k);
  }

  lemma ReachesEdge(calls: Calls, p: nat, m: nat, q: nat)
    requires Edge(calls, p, m) && Reaches(calls, m, q)
    ensures Reaches(calls, p, q)
  {
    var k: nat :| Path(calls, m, q, k);
    assert Path(calls, p, q, k + 1);
  }

  lemma EdgeReaches(calls: Calls, p: nat, q: nat)
    requires Edge(calls, p, q)
    ensures Reaches(calls, p, q)
  {
    ReachesSelf(calls, q);
    ReachesEdge(calls, p, q, q);
  }

  // ---------------------------------------------------------------------
  // Short paths are enough
  // ---------------------------------------------------------------------

  /** The procedures that reach a member of s with at most k calls. */
  ghost function Within(calls: Calls, s: set<nat>, k: nat): (r: set<nat>)
    ensures r <= Below(|calls|)
  {
    if k == 0 then set p | p in Below(|calls|) && p in s
    else set p | p in Below(|calls|) && (p in Within(calls, s, k - 1) || CallsInto(calls, p, Within(calls, s, k - 1)))
  }

  ghost predicate CallsInto(calls: Calls, p: nat, s: set<nat>) {
    exists q :: q in s && Edge(calls, p, q)
  }

  ghost function Below(n: nat): (r: set<nat>)
    ensures |r| == n && forall p: nat :: p in r <==> p < n
  {
    if n == 0 then {} else Below(n - 1) + {n - 1}
  }

  lemma SubsetCard(a: set<nat>, b: set<nat>)
    requires a <= b
    ensures |a| <= |b| && (|a| == |b| ==> a == b)
  {
    assert b == a + (b - a);
  }

  /** Before it stops growing, every step adds a procedure. */
  lemma {:induction false} GrowsOrStops(calls: Calls, s: set<nat>, k: nat)
    ensures |Within(calls, s, k)| >= k || Within(calls, s, k + 1) == Within(calls, s, k)
    decreases k
  {
    var a, b := Within(calls, s, k), Within(calls, s, k + 1);
    if k > 0 {
      GrowsOrStops(calls, s, k - 1);
      var z := Within(calls, s, k - 1);
      if a == z {
        assert b == a;
      } else {
        SubsetCard(z, a);
      }
    }
  }

  lemma {:induction false} Stopped(calls: Calls, s: set<nat>, k: nat, j: nat)
    requires Within(calls, s, k + 1) == Within(calls, s, k) && k <= j
    ensures Within(calls, s, j) == Within(calls, s, k)
    decreases j
  {
    if j > k { Stopped(calls, s, k, j - 1); }
  }

  /** As many calls as there are procedures reach everything that can be reached. */
  lemma Saturated(calls: Calls, s: set<nat>, k: nat)
    ensures Within(calls, s, k) <= Within(calls, s, |calls|)
  {
    var n := |calls|;
    GrowsOrStops(calls, s, n);
    if |Within(calls, s, n)| >= n {
      SubsetCard(Within(calls, s, n), Below(n));
    } else if k >= n {
      Stopped(calls, s, n, k);
    }
    if k < n { Grows(calls, s, k, n); }
  }

  lemma {:induction false} Grows(calls: Calls, s: set<nat>, j: nat, k: nat)
    requires j <= k
    ensures Within(calls, s, j) <= Within(calls, s, k)
    decreases k
  {
    if j < k { Grows(calls, s, j, k - 1); }
  }

  lemma {:induction false} PathWithin(calls: Calls, s: set<nat>, p: nat, q: nat, k: nat)
    requires Closed(calls) && p < |calls| && q in s && Path(calls, p, q, k)
    ensures p in Within(calls, s, k)
    decreases k
  {
    if k > 0 {
      var m: nat :| Edge(calls, p, m) && Path(calls, m, q, k - 1);
      PathWithin(calls, s, m, q, k - 1);
      assert CallsInto(calls, p, Within(calls, s, k - 1));
    }
  }

  lemma ReachesWithin(calls: Calls, s: set<nat>, p: nat, q: nat)
    requires Closed(calls) && p < |calls| && q in s && Reaches(calls, p, q)
    ensures p in Within(calls, s, |calls|)
  {
    var k: nat :| Path(calls, p, q, k);
    PathWithin(calls, s, p, q, k);
    Saturated(calls, s, k);
  }
}
