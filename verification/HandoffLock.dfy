/**
 The hand-off lock of the fiber runtime (runtime/rt_sync.c).

 The lock's owner, recursion depth and wait queue are guarded by a test-and-set
 spin lock, `meta`.  A fiber that finds the lock taken joins the wait queue and
 parks; a release that ends the outermost hold gives the lock straight to the
 first waiter and unparks it.  Any number of fibers call acquire and release in
 any order that pairs them, and every store is a step of its own, so the lock's
 fields are seen half updated by the other fibers' steps.
 */
module HandoffLock {

  import opened Options
  import opened LockSections

  /** Where a fiber stands in rt_lock_acquire or rt_lock_release. */
  datatype Pc =
    | Idle
    | AcqSpin                     // spinning for meta
    | AcqIn                       // meta taken, owner not yet read
    | AcqOut(parks: bool)         // about to give meta back
    | Parked
    | RelSpin
    | RelIn                       // meta taken, depth not yet read
    | RelHand                     // owner cleared, queue not yet looked at
    | RelOut(next: Option<nat>)   // about to give meta back
    | Unparking(target: nat)

  /** `wake[f]` counts the unparks of f that its park has not consumed, and
      `holds[f]` the acquires that returned to f and are not yet released. */
  datatype State = State(
    meta: bool,
    owner: Option<nat>,
    depth: nat,
    waiters: seq<nat>,
    pc: seq<Pc>,
    wake: seq<nat>,
    holds: seq<nat>)

  datatype Action = Acquire(f: nat) | Release(f: nat) | Step(f: nat)

  predicate Sized(s: State) { |s.wake| == |s.holds| == |s.pc| }

  /** Only a fiber that holds the lock releases it; a step that cannot proceed
      (a busy spin, a park without an unpark) is not taken. */
  predicate Enabled(s: State, a: Action) {
    && Sized(s) && a.f < |s.pc|
    && match a
       case Acquire(f) => s.pc[f] == Idle
       case Release(f) => s.pc[f] == Idle && s.holds[f] > 0
       case Step(f) =>
         match s.pc[f]
         case Idle => false
         case AcqSpin => !s.meta
         case RelSpin => !s.meta
         case Parked => s.wake[f] > 0
         case Unparking(w) => w < |s.pc|
         case RelIn => s.holds[f] > 0
         case _ => true
  }

  function At(s: State, f: nat, pc: Pc): State
    requires f < |s.pc|
  {
    s.(pc := s.pc[f := pc])
  }

  function Returned(s: State, f: nat): State
    requires Sized(s) && f < |s.pc|
  {
    At(s, f, Idle).(holds := s.holds[f := s.holds[f] + 1])
  }

  function DoAcquire(s: State, f: nat): (r: State)
    requires Enabled(s, Step(f)) && (s.pc[f].AcqSpin? || s.pc[f].AcqIn? || s.pc[f].AcqOut? || s.pc[f].Parked?)
    ensures Sized(r) && |r.pc| == |s.pc|
  {
    match s.pc[f]
    case AcqSpin => At(s, f, AcqIn).(meta := true)
    case AcqIn =>
      if s.owner == None then At(s, f, AcqOut(false)).(owner := Some(f), depth := 1)
      else if s.owner == Some(f) then At(s, f, AcqOut(false)).(depth := s.depth + 1)
      else At(s, f, AcqOut(true)).(waiters := [f] + s.waiters)
    case AcqOut(parks) => if parks then At(s, f, Parked).(meta := false) else Returned(s, f).(meta := false)
    case Parked => Returned(s, f).(wake := s.wake[f := s.wake[f] - 1])
  }

  function DoRelease(s: State, f: nat): (r: State)
    requires Enabled(s, Step(f)) && (s.pc[f].RelSpin? || s.pc[f].RelIn? || s.pc[f].RelHand? || s.pc[f].RelOut? || s.pc[f].Unparking?)
    ensures Sized(r) && |r.pc| == |s.pc|
  {
    match s.pc[f]
    case RelSpin => At(s, f, RelIn).(meta := true)
    case RelIn =>
      if s.depth > 1 then At(s, f, RelOut(None)).(depth := s.depth - 1, holds := s.holds[f := s.holds[f] - 1])
      else At(s, f, RelHand).(depth := 0, owner := None, holds := s.holds[f := s.holds[f] - 1])
    case RelHand =>
      if s.waiters == [] then At(s, f, RelOut(None))
      else At(s, f, RelOut(Some(s.waiters[0]))).(waiters := s.waiters[1..], owner := Some(s.waiters[0]), depth := 1)
    case RelOut(next) => At(s, f, if next.None? then Idle else Unparking(next.value)).(meta := false)
    case Unparking(w) => At(s, f, Idle).(wake := s.wake[w := s.wake[w] + 1])
  }

  predicate Acquiring(pc: Pc) { pc.AcqSpin? || pc.AcqIn? || pc.AcqOut? || pc.Parked? }

  function Do(s: State, a: Action): (r: State)
    requires Enabled(s, a)
    ensures Sized(r) && |r.pc| == |s.pc|
  {
    match a
    case Acquire(f) => At(s, f, AcqSpin)
    case Release(f) => At(s, f, RelSpin)
    case Step(f) => if Acquiring(s.pc[f]) then DoAcquire(s, f) else DoRelease(s, f)
  }

  /** A free lock, every fiber outside of it. */
  ghost predicate Init(s: State) {
    && Sized(s) && !s.meta && s.owner == None && s.depth == 0 && s.waiters == []
    && (forall f :: 0 <= f < |s.pc| ==> s.pc[f] == Idle && s.wake[f] == 0 && s.holds[f] == 0)
  }

  datatype Outcome = Blocked | Reached(s: State)

  function Exec(s: State, acts: seq<Action>): Outcome
    decreases |acts|
  {
    if acts == [] then Reached(s)
    else if !Enabled(s, acts[0]) then Blocked
    else Exec(Do(s, acts[0]), acts[1..])
  }

  // ---------------------------------------------------------------------
  // What must hold in every state
  // ---------------------------------------------------------------------

  /** At most one fiber holds the lock, and it is the owner. */
  ghost predicate OneHolder(s: State)
    requires Sized(s)
  {
    forall f :: 0 <= f < |s.pc| && s.holds[f] > 0 ==> s.owner == Some(f)
  }

  /** With meta free, the fields fit together: nobody waits for a lock without
      an owner, and the depth is the owner's number of unmatched acquires, the
      one it has been handed but not yet returned from included. */
  ghost predicate FieldsFit(s: State)
    requires Sized(s)
  {
    !s.meta ==>
      && (s.waiters != [] ==> s.owner.Some?)
      && (s.owner.Some? <==> s.depth > 0)
      && (s.owner.Some? ==>
            && s.owner.value < |s.pc|
            && s.depth == s.holds[s.owner.value] + (if s.pc[s.owner.value] == Parked then 1 else 0))
  }

  ghost predicate UnparkComing(s: State, f: nat)
    requires Sized(s) && f < |s.pc|
  {
    s.wake[f] == 1 || exists g :: 0 <= g < |s.pc| && Target(s.pc[g]) == Some(f)
  }

  /** No parked fiber is forgotten: it is queued once, or it owns the lock and
      its unpark has happened or is the current releaser's next step. */
  ghost predicate NoneForgotten(s: State)
    requires Sized(s)
  {
    forall f :: 0 <= f < |s.pc| && s.pc[f] == Parked ==>
      if s.owner == Some(f) then f !in s.waiters && UnparkComing(s, f)
      else multiset(s.waiters)[f] == 1
  }

  ghost predicate Safe(s: State) {
    && Sized(s) && OneHolder(s) && FieldsFit(s) && NoneForgotten(s)
  }

  // ---------------------------------------------------------------------
  // The invariant
  // ---------------------------------------------------------------------

  /** Between taking meta and giving it back. */
  predicate InSection(pc: Pc) {
    pc.AcqIn? || pc.AcqOut? || pc.RelIn? || pc.RelHand? || pc.RelOut?
  }

  /** The fiber that pc is going to unpark. */
  function Target(pc: Pc): Option<nat> {
    match pc
    case RelOut(n) => n
    case Unparking(n) => Some(n)
    case _ => None
  }

  /** The witnesses: the fiber inside the metadata section, and the one that has
      handed the lock over and not yet unparked the new owner. */
  datatype Who = Who(inside: Option<nat>, waker: Option<nat>)

  /** Queued for the lock. */
  predicate Queued(s: State, f: nat)
    requires f < |s.pc|
  {
    s.pc[f] == AcqOut(true) || (s.pc[f] == Parked && s.owner != Some(f))
  }

  ghost predicate FiberOk(s: State, who: Who, f: nat)
    requires Sized(s) && f < |s.pc|
  {
    var pc := s.pc[f];
    && (InSection(pc) <==> who.inside == Some(f))
    && (Target(pc).Some? <==> who.waker == Some(f))
    && (Target(pc).Some? ==>
          Target(pc).value < |s.pc| && Target(pc) == s.owner && s.pc[Target(pc).value] == Parked && s.wake[Target(pc).value] == 0)
    && (f in s.waiters <==> Queued(s, f))
    && s.wake[f] == (if pc == Parked && s.owner == Some(f) && who.waker == None then 1 else 0)
    && (if s.owner == Some(f)
        then s.depth == s.holds[f] + (if pc == AcqOut(false) || pc == Parked then 1 else 0) && pc != AcqOut(true) && pc != RelHand
        else s.holds[f] == 0 && pc != AcqOut(false) && pc != RelIn && pc != RelSpin)
    && (pc == RelIn || pc == RelSpin ==> s.holds[f] > 0)
    && (pc == RelHand || pc == AcqOut(true) ==> (s.owner == None <==> pc == RelHand))
  }

  ghost predicate Distinct(l: seq<nat>) {
    forall i, j :: 0 <= i < j < |l| ==> l[i] != l[j]
  }

  ghost predicate LockOk(s: State, who: Who)
    requires Sized(s)
  {
    && s.meta == who.inside.Some? && (who.inside.Some? ==> who.inside.value < |s.pc|)
    && (who.waker.Some? ==> who.waker.value < |s.pc|)
    && (s.owner == None ==> who.waker == None)
    && (s.owner.Some? ==> s.owner.value < |s.pc| && s.depth > 0)
    && (s.owner == None ==> s.depth == 0)
    && (s.waiters != [] ==> s.owner.Some? || (who.inside.Some? && s.pc[who.inside.value] == RelHand))
    && Distinct(s.waiters) && (forall i :: 0 <= i < |s.waiters| ==> s.waiters[i] < |s.pc|)
  }

  ghost predicate Inv(s: State, who: Who) {
    Sized(s) && LockOk(s, who) && forall f :: 0 <= f < |s.pc| ==> FiberOk(s, who, f)
  }

  lemma {:induction false} CountOne(l: seq<nat>, x: nat)
    requires Distinct(l)
    ensures multiset(l)[x] == if x in l then 1 else 0
    decreases |l|
  {
    if l != [] {
      assert l == l[..|l| - 1] + [l[|l| - 1]];
      CountOne(l[..|l| - 1], x);
    }
  }

  lemma InvSafe(s: State, who: Who)
    requires Inv(s, who)
    ensures Safe(s)
  {
    forall f | 0 <= f < |s.pc| && s.holds[f] > 0 ensures s.owner == Some(f) {
      assert FiberOk(s, who, f);
    }
    assert s.owner.Some? ==> FiberOk(s, who, s.owner.value);
    forall f | 0 <= f < |s.pc| && s.pc[f] == Parked
      ensures if s.owner == Some(f) then f !in s.waiters && UnparkComing(s, f) else multiset(s.waiters)[f] == 1
    {
      CountOne(s.waiters, f);
      assert FiberOk(s, who, f);
      if s.owner == Some(f) && who.waker.Some? {
        assert FiberOk(s, who, who.waker.value);
      }
    }
  }

  // ---------------------------------------------------------------------
  // Every step keeps the invariant
  // ---------------------------------------------------------------------

  /** Fiber g in a step of another fiber that leaves owner, queue and depth alone. */
  lemma Bystander(s: State, s': State, who: Who, who': Who, g: nat)
    requires Sized(s) && Sized(s') && |s'.pc| == |s.pc| && g < |s.pc| && FiberOk(s, who, g)
    requires s'.pc[g] == s.pc[g] && s'.holds[g] == s.holds[g] && s'.wake[g] == s.wake[g]
    requires s'.owner == s.owner && s'.waiters == s.waiters && (s.owner == Some(g) ==> s'.depth == s.depth)
    requires (who'.inside == Some(g)) == (who.inside == Some(g)) && who'.waker == who.waker
    requires Target(s.pc[g]).Some? ==> s'.pc[Target(s.pc[g]).value] == Parked && s'.wake[Target(s.pc[g]).value] == 0
    ensures FiberOk(s', who', g)
  {
  }

  /** The step of f touched nothing that another fiber looks at. */
  lemma Bystanders(s: State, s': State, who: Who, who': Who, f: nat)
    requires Inv(s, who) && Sized(s') && f < |s'.pc| == |s.pc|
    requires s'.pc == s.pc[f := s'.pc[f]] && s'.holds == s.holds[f := s'.holds[f]] && s'.wake == s.wake
    requires s'.owner == s.owner && s'.waiters == s.waiters && (s.owner == Some(f) || s'.depth == s.depth)
    requires who.inside == who'.inside || ((who.inside == None || who.inside == Some(f)) && (who'.inside == None || who'.inside == Some(f)))
    requires who'.waker == who.waker && (s.pc[f] != Parked || s'.pc[f] == Parked)
    requires FiberOk(s', who', f)
    ensures forall g :: 0 <= g < |s.pc| ==> FiberOk(s', who', g)
  {
    forall g | 0 <= g < |s.pc| ensures FiberOk(s', who', g) {
      assert FiberOk(s, who, g);
      if g != f { Bystander(s, s', who, who', g); }
    }
  }

  lemma KeepCall(s: State, who: Who, a: Action)
    requires Inv(s, who) && Enabled(s, a) && !a.Step?
    ensures Inv(Do(s, a), who)
  {
    assert FiberOk(s, who, a.f);
    assert s.holds == s.holds[a.f := s.holds[a.f]];
    Bystanders(s, Do(s, a), who, who, a.f);
  }

  lemma KeepSpin(s: State, who: Who, f: nat) returns (who': Who)
    requires Inv(s, who) && Enabled(s, Step(f)) && (s.pc[f] == AcqSpin || s.pc[f] == RelSpin)
    ensures Inv(Do(s, Step(f)), who')
  {
    who' := who.(inside := Some(f));
    assert FiberOk(s, who, f);
    assert s.holds == s.holds[f := s.holds[f]];
    Bystanders(s, Do(s, Step(f)), who, who', f);
  }

  lemma KeepOut(s: State, who: Who, f: nat) returns (who': Who)
    requires Inv(s, who) && Enabled(s, Step(f)) && (s.pc[f].AcqOut? || s.pc[f].RelOut?)
    ensures Inv(Do(s, Step(f)), who')
  {
    who' := who.(inside := None);
    assert FiberOk(s, who, f);
    assert s.holds == s.holds[f := s.holds[f]];
    Bystanders(s, Do(s, Step(f)), who, who', f);
  }

  lemma KeepAcqIn(s: State, who: Who, f: nat)
    requires Inv(s, who) && Enabled(s, Step(f)) && s.pc[f] == AcqIn
    ensures Inv(Do(s, Step(f)), who)
  {
    var s' := Do(s, Step(f));
    assert FiberOk(s, who, f);
    forall g | 0 <= g < |s.pc| ensures FiberOk(s', who, g) {
      assert FiberOk(s, who, g);
    }
    if s.owner.Some? && s.owner.value != f {
      assert forall i :: 0 <= i < |s.waiters| ==> s.waiters[i] in s.waiters;
      assert f !in s.waiters;
    }
  }

  lemma KeepRelIn(s: State, who: Who, f: nat)
    requires Inv(s, who) && Enabled(s, Step(f)) && s.pc[f] == RelIn
    ensures Inv(Do(s, Step(f)), who)
  {
    var s' := Do(s, Step(f));
    assert FiberOk(s, who, f);
    assert who.waker.Some? ==> FiberOk(s, who, who.waker.value);
    forall g | 0 <= g < |s.pc| ensures FiberOk(s', who, g) {
      assert FiberOk(s, who, g);
    }
  }

  lemma KeepRelHand(s: State, who: Who, f: nat) returns (who': Who)
    requires Inv(s, who) && Enabled(s, Step(f)) && s.pc[f] == RelHand
    ensures Inv(Do(s, Step(f)), who')
  {
    var s' := Do(s, Step(f));
    assert FiberOk(s, who, f);
    who' := if s.waiters == [] then who else who.(waker := Some(f));
    if s.waiters != [] {
      var w := s.waiters[0];
      assert w in s.waiters && FiberOk(s, who, w);
      assert w !in s.waiters[1..];
    }
    forall g | 0 <= g < |s.pc| ensures FiberOk(s', who', g) {
      assert FiberOk(s, who, g);
      assert s.waiters != [] ==> (g in s.waiters[1..] <==> g in s.waiters && g != s.waiters[0]);
    }
  }

  lemma KeepUnparking(s: State, who: Who, f: nat) returns (who': Who)
    requires Inv(s, who) && Enabled(s, Step(f)) && s.pc[f].Unparking?
    ensures Inv(Do(s, Step(f)), who')
  {
    var s' := Do(s, Step(f));
    assert FiberOk(s, who, f);
    who' := who.(waker := None);
    forall g | 0 <= g < |s.pc| ensures FiberOk(s', who', g) {
      assert FiberOk(s, who, g);
    }
  }

  lemma KeepParked(s: State, who: Who, f: nat)
    requires Inv(s, who) && Enabled(s, Step(f)) && s.pc[f] == Parked
    ensures Inv(Do(s, Step(f)), who)
  {
    var s' := Do(s, Step(f));
    assert FiberOk(s, who, f);
    forall g | 0 <= g < |s.pc| ensures FiberOk(s', who, g) {
      assert FiberOk(s, who, g);
    }
  }

  lemma Keep(s: State, who: Who, a: Action) returns (who': Who)
    requires Inv(s, who) && Enabled(s, a)
    ensures Inv(Do(s, a), who')
  {
    who' := who;
    if !a.Step? {
      KeepCall(s, who, a);
      return;
    }
    match s.pc[a.f]
    case AcqSpin => who' := KeepSpin(s, who, a.f);
    case RelSpin => who' := KeepSpin(s, who, a.f);
    case AcqIn => KeepAcqIn(s, who, a.f);
    case AcqOut(_) => who' := KeepOut(s, who, a.f);
    case Parked => KeepParked(s, who, a.f);
    case RelIn => KeepRelIn(s, who, a.f);
    case RelHand => who' := KeepRelHand(s, who, a.f);
    case RelOut(_) => who' := KeepOut(s, who, a.f);
    case Unparking(_) => who' := KeepUnparking(s, who, a.f);
  }

  lemma {:induction false} KeepRun(s: State, who: Who, acts: seq<Action>) returns (who': Who)
    requires Inv(s, who) && Exec(s, acts).Reached?
    ensures Inv(Exec(s, acts).s, who')
    decreases |acts|
  {
    if acts == [] {
      who' := who;
    } else {
      var who1 := Keep(s, who, acts[0]);
      who' := KeepRun(Do(s, acts[0]), who1, acts[1..]);
    }
  }

  lemma Reach(s: State, acts: seq<Action>) returns (who: Who)
    requires Init(s) && Exec(s, acts).Reached?
    ensures Inv(Exec(s, acts).s, who)
  {
    assert Inv(s, Who(None, None));
    who := KeepRun(s, Who(None, None), acts);
  }

  /** In every state of every run: at most one fiber holds the lock and it is the
      owner; while meta is free a queue implies an owner and the depth counts the
      owner's unmatched acquires; and no parked fiber is forgotten. */
  lemma EveryRunIsSafe(s: State, acts: seq<Action>)
    requires Init(s) && Exec(s, acts).Reached?
    ensures Safe(Exec(s, acts).s)
  {
    var who := Reach(s, acts);
    InvSafe(Exec(s, acts).s, who);
  }

  /** A fiber that returns from acquire is the owner, whether it took the lock,
      deepened its hold or was handed it, and no other fiber holds it. */
  lemma ReturnerOwns(s: State, acts: seq<Action>, f: nat)
    requires Init(s) && Exec(s, acts).Reached?
    requires var t := Exec(s, acts).s; Enabled(t, Step(f)) && Do(t, Step(f)).holds[f] > t.holds[f]
    ensures var t' := Do(Exec(s, acts).s, Step(f));
      && t'.owner == Some(f) && t'.depth == t'.holds[f]
      && (forall g :: 0 <= g < |t'.pc| && g != f ==> t'.holds[g] == 0)
  {
    var t := Exec(s, acts).s;
    var who := Reach(s, acts);
    var who' := Keep(t, who, Step(f));
    assert FiberOk(Do(t, Step(f)), who', f);
    forall g | 0 <= g < |t.pc| && g != f ensures Do(t, Step(f)).holds[g] == 0 {
      assert FiberOk(Do(t, Step(f)), who', g);
    }
  }

  // ---------------------------------------------------------------------
  // A metadata section as one step
  // ---------------------------------------------------------------------

  function LockOf(s: State): Lock { Lock(s.owner, s.depth, s.waiters) }

  /** While f is inside its section no other fiber's step touches the lock, and
      f's own steps between taking meta and giving it back add up to Enter, or
      to Leave with its hand-over. */
  lemma SectionsAreAtomic(s: State, acts: seq<Action>, f: nat)
    requires Init(s) && Exec(s, acts).Reached?
    requires var t := Exec(s, acts).s; Enabled(t, Step(f)) && InSection(t.pc[f])
    ensures var t := Exec(s, acts).s;
      && (forall a :: Enabled(t, a) && a.f != f ==> LockOf(Do(t, a)) == LockOf(t) && Do(t, a).pc[f] == t.pc[f])
      && (t.pc[f] == AcqIn ==> LockOf(Do(t, Step(f))) == Enter(LockOf(t), f))
      && (t.pc[f] == AcqIn ==> Do(t, Step(f)).pc[f] == AcqOut(Do(t, Step(f)).owner != Some(f)))
      && (t.pc[f] == RelIn ==> var t' := Outermost(Do(t, Step(f)), f);
            LockOf(t') == Leave(LockOf(t)) && t'.pc[f] == RelOut(Handed(LockOf(t))))
  {
    var t := Exec(s, acts).s;
    var who := Reach(s, acts);
    assert FiberOk(t, who, f);
    forall a | Enabled(t, a) && a.f != f ensures LockOf(Do(t, a)) == LockOf(t) && Do(t, a).pc[f] == t.pc[f] {
      assert FiberOk(t, who, a.f);
    }
  }

  /** f's next step, if it has cleared the owner and not yet looked at the queue. */
  function Outermost(s: State, f: nat): State
    requires Sized(s) && f < |s.pc|
  {
    if s.pc[f] == RelHand then Do(s, Step(f)) else s
  }
}
