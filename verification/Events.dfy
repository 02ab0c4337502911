/**
 EVENT variables and WAIT (runtime/rt_task.c on runtime/rt_sync.c; rules (79) and
 (82) of TR 25.084).

 All events share one hand-off lock and one keyed condition.  WAIT(ev) and
 WAIT(evs)(k) first read the events without the lock, then test them under it,
 enlist on the condition, release the lock and park; a completion stores the
 event word and walks the condition's queue.  Every load, store, metadata section
 and unpark is one step, and any number of fibers run any operations.  That a
 metadata section may be taken as one step is HandoffLock.SectionsAreAtomic.
 */
module Events {
  import opened Options
  import opened LockSections

  datatype Op =
    | Wait(ev: Option<nat>)
    | WaitN(evs: seq<Option<nat>>, need: int)
    | Complete(ev: Option<nat>)
    | Reset(ev: Option<nat>)

  predicate Waits(op: Op) { op.Wait? || op.WaitN? }

  /** The events a wait looks at; NULL entries never count. */
  function Watched(op: Op): seq<Option<nat>>
  {
    match op
    case WaitN(evs, _) => evs
    case _ => [op.ev]
  }

  function Need(op: Op): int {
    if op.WaitN? then (if op.need > |op.evs| then |op.evs| else op.need) else 1
  }

  /** What the waiter tells the condition: its event, or NULL for "anything". */
  function KeyOf(op: Op): Option<nat> {
    if op.WaitN? then None else op.ev
  }

  /** The call returns at once. */
  predicate Trivial(op: Op) {
    if op.WaitN? then |op.evs| == 0 || op.need <= 0 else op.ev == None
  }

  predicate Done(ev: seq<bool>, e: Option<nat>) {
    e.Some? && e.value < |ev| && ev[e.value]
  }

  /** How many of the events are complete. */
  function CountDone(ev: seq<bool>, es: seq<Option<nat>>): nat {
    if es == [] then 0 else CountDone(ev, es[..|es| - 1]) + if Done(ev, es[|es| - 1]) then 1 else 0
  }

  predicate Satisfied(ev: seq<bool>, op: Op) {
    CountDone(ev, Watched(op)) >= Need(op)
  }

  datatype Pc =
    | Idle
    | Fast(op: Op, i: nat, done: nat)                      // the pass without the lock
    | Locking(op: Op)
    | LockWait(op: Op)                                     // queued on the lock, or handed it
    | Test(op: Op, i: nat, done: nat)                      // the pass under the lock
    | Enlist(op: Op)
    | Unlock(op: Op, parks: bool)
    | HandOver(op: Op, parks: bool, w: nat)                // the lock is w's, w not yet unparked
    | CondWait(op: Op)
    | Store(op: Op)
    | Signal(op: Op, rest: seq<nat>, keep: seq<nat>)       // walking the condition's queue

  /** `seen[f]`: the positions that the current pass of f found complete.
      No step reads it. */
  datatype State = State(
    l: Lock,
    cond: seq<nat>,
    key: seq<Option<nat>>,
    ev: seq<bool>,
    pc: seq<Pc>,
    wake: seq<nat>,
    seen: seq<set<nat>>)

  datatype Action = Start(f: nat, op: Op) | Step(f: nat)

  predicate Sized(s: State) { |s.key| == |s.wake| == |s.seen| == |s.pc| }

  predicate Known(s: State, e: Option<nat>) { e.Some? ==> e.value < |s.ev| }

  /** The addresses in the call are those of events. */
  predicate ValidOp(s: State, op: Op) {
    if op.WaitN? then forall i :: 0 <= i < |op.evs| ==> Known(s, op.evs[i]) else Known(s, op.ev)
  }

  predicate Enabled(s: State, a: Action) {
    && Sized(s) && a.f < |s.pc|
    && match a
       case Start(f, op) => s.pc[f] == Idle && ValidOp(s, op)
       case Step(f) =>
         match s.pc[f]
         case Idle => false
         case LockWait(_) => s.wake[f] > 0
         case CondWait(_) => s.wake[f] > 0
         case HandOver(_, _, w) => w < |s.pc|
         case Store(op) => !Waits(op) && op.ev.Some? && op.ev.value < |s.ev|
         case Signal(op, rest, _) => !Waits(op) && (rest != [] ==> rest[0] < |s.pc|)
         case _ => true
  }

  function At(s: State, f: nat, pc: Pc): State
    requires f < |s.pc|
  {
    s.(pc := s.pc[f := pc])
  }

  /** A pass begins. */
  function Begin(s: State, f: nat, pc: Pc): State
    requires Sized(s) && f < |s.pc|
  {
    At(s, f, pc).(seen := s.seen[f := {}])
  }

  /** The lock is f's. */
  function Locked(s: State, f: nat, op: Op): State
    requires Sized(s) && f < |s.pc|
  {
    Begin(s, f, if Waits(op) then Test(op, 0, 0) else Store(op))
  }

  /** The lock is released, and any hand-over done. */
  function Unlocked(s: State, f: nat, op: Op, parks: bool): State
    requires f < |s.pc|
  {
    At(s, f, if parks then CondWait(op) else Idle)
  }

  predicate InPass(pc: Pc) { pc.Fast? || pc.Test? }

  /** One load of a pass; `hit`: the event is complete. */
  function DoPass(s: State, f: nat): (r: State)
    requires Enabled(s, Step(f)) && InPass(s.pc[f])
    ensures Sized(r) && |r.pc| == |s.pc|
  {
    var op, i, done, fast := s.pc[f].op, s.pc[f].i, s.pc[f].done, s.pc[f].Fast?;
    if i >= |Watched(op)| then At(s, f, if fast then Locking(op) else Enlist(op))
    else if Done(s.ev, Watched(op)[i]) then
      var s1 := s.(seen := s.seen[f := s.seen[f] + {i}]);
      if done + 1 >= Need(op) then At(s1, f, if fast then Idle else Unlock(op, false))
      else At(s1, f, if fast then Fast(op, i + 1, done + 1) else Test(op, i + 1, done + 1))
    else At(s, f, if fast then Fast(op, i + 1, done) else Test(op, i + 1, done))
  }

  predicate OnLock(pc: Pc) { pc.Locking? || pc.LockWait? || pc.Unlock? || pc.HandOver? }

  function DoLock(s: State, f: nat): (r: State)
    requires Enabled(s, Step(f)) && OnLock(s.pc[f])
    ensures Sized(r) && |r.pc| == |s.pc|
  {
    var op := s.pc[f].op;
    match s.pc[f]
    case Locking(_) =>
      var l' := Enter(s.l, f);
      if l'.owner == Some(f) then Locked(s, f, op).(l := l') else At(s, f, LockWait(op)).(l := l')
    case LockWait(_) => Locked(s, f, op).(wake := s.wake[f := s.wake[f] - 1])
    case Unlock(_, parks) =>
      var next := Handed(s.l);
      if next.Some? then At(s, f, HandOver(op, parks, next.value)).(l := Leave(s.l))
      else Unlocked(s, f, op, parks).(l := Leave(s.l))
    case HandOver(_, parks, w) => Unlocked(s, f, op, parks).(wake := s.wake[w := s.wake[w] + 1])
  }

  function DoCond(s: State, f: nat): (r: State)
    requires Enabled(s, Step(f)) && !InPass(s.pc[f]) && !OnLock(s.pc[f])
    ensures Sized(r) && |r.pc| == |s.pc|
  {
    var op := s.pc[f].op;
    match s.pc[f]
    case Enlist(_) => At(s, f, Unlock(op, true)).(cond := [f] + s.cond, key := s.key[f := KeyOf(op)])
    case CondWait(_) => At(s, f, Locking(op)).(wake := s.wake[f := s.wake[f] - 1])
    case Store(_) =>
      if op.Complete? then At(s, f, Signal(op, s.cond, [])).(ev := s.ev[op.ev.value := true])
      else At(s, f, Unlock(op, false)).(ev := s.ev[op.ev.value := false])
    case Signal(_, rest, keep) =>
      if rest == [] then At(s, f, Unlock(op, false)).(cond := keep)
      else if s.key[rest[0]] == None || s.key[rest[0]] == op.ev
      then At(s, f, Signal(op, rest[1..], keep)).(wake := s.wake[rest[0] := s.wake[rest[0]] + 1])
      else At(s, f, Signal(op, rest[1..], keep + [rest[0]]))
  }

  function Do(s: State, a: Action): (r: State)
    requires Enabled(s, a)
    ensures Sized(r) && |r.pc| == |s.pc|
  {
    match a
    case Start(f, op) =>
      if Trivial(op) then s else if Waits(op) then Begin(s, f, Fast(op, 0, 0)) else At(s, f, Locking(op))
    case Step(f) =>
      if InPass(s.pc[f]) then DoPass(s, f) else if OnLock(s.pc[f]) then DoLock(s, f) else DoCond(s, f)
  }

  ghost predicate Init(s: State) {
    && Sized(s) && s.l == Lock(None, 0, []) && s.cond == []
    && (forall f :: 0 <= f < |s.pc| ==> s.pc[f] == Idle && s.wake[f] == 0)
  }

  datatype Outcome = Blocked | Reached(s: State)

  function Exec(s: State, acts: seq<Action>): Outcome
    decreases |acts|
  {
    if acts == [] then Reached(s)
    else if !Enabled(s, acts[0]) then Blocked
    else Exec(Do(s, acts[0]), acts[1..])
  }

  // ---------------------------------------------------------------------
  // What must hold in every state
  // ---------------------------------------------------------------------

  /** Some completion has stored its event and not yet finished its walk. */
  predicate Completing(s: State) {
    s.l.owner.Some? && s.l.owner.value < |s.pc| && s.pc[s.l.owner.value].Signal?
  }

  /** On the condition's queue, or unparked from it and not yet resumed. */
  predicate Enlisted(pc: Pc) {
    pc.CondWait? || (pc.Unlock? && pc.parks) || (pc.HandOver? && pc.parks)
  }

  /** Nobody sits on the condition's queue whose wait is over. */
  ghost predicate QueueIsUnsatisfied(s: State) {
    forall i :: 0 <= i < |s.cond| ==>
      var f := s.cond[i];
      && f < |s.pc| && f < |s.key| && Enlisted(s.pc[f]) && !Satisfied(s.ev, s.pc[f].op)
      && s.key[f] == KeyOf(s.pc[f].op) && (s.key[f].Some? ==> !Done(s.ev, s.key[f]))
  }

  /** A fiber parked for a wait that is over has been unparked. */
  ghost predicate NoneStranded(s: State)
    requires Sized(s)
  {
    forall f :: 0 <= f < |s.pc| && s.pc[f].CondWait? && Satisfied(s.ev, s.pc[f].op) ==> s.wake[f] == 1
  }

  ghost predicate Safe(s: State) {
    Sized(s) && (!Completing(s) ==> QueueIsUnsatisfied(s) && NoneStranded(s))
  }

  // ---------------------------------------------------------------------
  // The invariant
  // ---------------------------------------------------------------------

  predicate Holds(pc: Pc) {
    pc.Test? || pc.Enlist? || pc.Unlock? || pc.Store? || pc.Signal?
  }

  function Queue(s: State): seq<nat> {
    if Completing(s) then s.pc[s.l.owner.value].keep + s.pc[s.l.owner.value].rest else s.cond
  }

  ghost predicate Distinct(q: seq<nat>, n: nat) {
    && (forall i :: 0 <= i < |q| ==> q[i] < n)
    && (forall i, j :: 0 <= i < j < |q| ==> q[i] != q[j])
  }

  /** The current completion may still have to wake f. */
  predicate StillToWalk(s: State, f: nat)
    requires f < |s.key|
  {
    && Completing(s)
    && var c := s.pc[s.l.owner.value]; !Waits(c.op) && f in c.rest && (s.key[f] == None || s.key[f] == c.op.ev)
  }

  /** The registers of a fiber in a call. */
  ghost predicate CallOk(s: State, f: nat)
    requires Sized(s) && f < |s.pc|
  {
    var pc := s.pc[f];
    && (!pc.Idle? ==> ValidOp(s, pc.op) && !Trivial(pc.op))
    && (pc.Fast? || pc.Test? || pc.Enlist? || Enlisted(pc) ==> Waits(pc.op))
    && (pc.Store? || pc.Signal? ==> !Waits(pc.op))
    && (pc.Signal? ==> pc.op.Complete? && Done(s.ev, pc.op.ev))
    && (InPass(pc) ==> pc.i <= |Watched(pc.op)| && |s.seen[f]| == pc.done < Need(pc.op) && forall j :: j in s.seen[f] ==> j < pc.i)
    && (pc.Test? ==> pc.done == CountDone(s.ev, Watched(pc.op)[..pc.i]))
    && (pc.Enlist? ==> !Satisfied(s.ev, pc.op))
    && ((pc.Unlock? || pc.HandOver?) && !pc.parks && Waits(pc.op) ==> |s.seen[f]| >= Need(pc.op))
  }

  ghost predicate LockPart(s: State, waker: Option<nat>, f: nat)
    requires Sized(s) && f < |s.pc|
  {
    var pc := s.pc[f];
    && (Holds(pc) ==> s.l.owner == Some(f))
    && (s.l.owner == Some(f) ==> Holds(pc) || pc.LockWait?)
    && (f in s.l.waiters <==> pc.LockWait? && s.l.owner != Some(f))
    && (pc.HandOver? <==> waker == Some(f))
    && (pc.HandOver? ==> pc.w < |s.pc| && s.l.owner == Some(pc.w) && s.pc[pc.w].LockWait? && s.wake[pc.w] == 0)
    && (pc.LockWait? && s.l.owner == Some(f) ==> s.wake[f] == if waker == None then 1 else 0)
    && (!Enlisted(pc) && !(pc.LockWait? && s.l.owner == Some(f)) ==> s.wake[f] == 0)
    && (Enlisted(pc) ==> s.wake[f] <= 1)
  }

  ghost predicate CondPart(s: State, f: nat)
    requires Sized(s) && f < |s.pc|
  {
    && (f in Queue(s) <==> Enlisted(s.pc[f]) && s.wake[f] == 0)
    && (Enlisted(s.pc[f]) ==> s.key[f] == KeyOf(s.pc[f].op))
    && (f in Queue(s) ==> !Satisfied(s.ev, s.pc[f].op) || StillToWalk(s, f))
  }

  ghost predicate LockOk(s: State, waker: Option<nat>) {
    && (if s.l.owner == None then s.l.depth == 0 && s.l.waiters == [] && waker == None
        else s.l.depth == 1 && s.l.owner.value < |s.pc|)
    && Distinct(s.l.waiters, |s.pc|) && Distinct(Queue(s), |s.pc|)
    && (waker.Some? ==> waker.value < |s.pc|)
    && (Completing(s) ==> var c := s.pc[s.l.owner.value];
          !Waits(c.op) && forall i :: 0 <= i < |c.keep| ==> c.keep[i] < |s.key| && s.key[c.keep[i]] != None && s.key[c.keep[i]] != c.op.ev)
  }

  ghost predicate CallsOk(s: State)
    requires Sized(s)
  {
    forall f :: 0 <= f < |s.pc| ==> CallOk(s, f)
  }

  ghost predicate LockParts(s: State, waker: Option<nat>)
    requires Sized(s)
  {
    forall f :: 0 <= f < |s.pc| ==> LockPart(s, waker, f)
  }

  ghost predicate CondParts(s: State)
    requires Sized(s)
  {
    forall f :: 0 <= f < |s.pc| ==> CondPart(s, f)
  }

  ghost predicate Inv(s: State, waker: Option<nat>) {
    Sized(s) && LockOk(s, waker) && CallsOk(s) && LockParts(s, waker) && CondParts(s)
  }

  /** A wait on one event is over when that event is complete. */
  lemma SatisfiedOne(ev: seq<bool>, e: Option<nat>)
    ensures Satisfied(ev, Wait(e)) <==> Done(ev, e)
  {
    assert Watched(Wait(e))[..0] == [];
    assert CountDone(ev, []) == 0;
  }

  lemma InvSafe(s: State, waker: Option<nat>)
    requires Inv(s, waker)
    ensures Safe(s)
  {
    if !Completing(s) {
      forall i | 0 <= i < |s.cond|
        ensures var f := s.cond[i];
          && f < |s.pc| && f < |s.key| && Enlisted(s.pc[f]) && !Satisfied(s.ev, s.pc[f].op)
          && s.key[f] == KeyOf(s.pc[f].op) && (s.key[f].Some? ==> !Done(s.ev, s.key[f]))
      {
        var f := s.cond[i];
        assert f in Queue(s);
        assert CondPart(s, f) && CallOk(s, f);
        SatisfiedOne(s.ev, s.key[f]);
      }
      forall f | 0 <= f < |s.pc| && s.pc[f].CondWait? && Satisfied(s.ev, s.pc[f].op) ensures s.wake[f] == 1 {
        assert CondPart(s, f) && LockPart(s, waker, f);
      }
    }
  }

  // ---------------------------------------------------------------------
  // Framing
  // ---------------------------------------------------------------------

  /** The step of f changed no other fiber's registers. */
  ghost predicate Only(s: State, s': State, f: nat) {
    && Sized(s) && Sized(s') && |s'.pc| == |s.pc| && f < |s.pc| && |s'.ev| == |s.ev|
    && s'.pc == s.pc[f := s'.pc[f]] && s'.seen == s.seen[f := s'.seen[f]] && s'.key == s.key[f := s'.key[f]]
  }

  lemma CallsKept(s: State, s': State, waker: Option<nat>, f: nat)
    requires Inv(s, waker) && Only(s, s', f) && CallOk(s', f)
    requires s'.ev == s.ev || Holds(s.pc[f])
    ensures CallsOk(s')
  {
    forall g | 0 <= g < |s.pc| ensures CallOk(s', g) {
      assert CallOk(s, g);
      if g != f {
        assert LockPart(s, waker, f) && LockPart(s, waker, g);
      }
    }
  }

  lemma LocksKept(s: State, s': State, waker: Option<nat>, f: nat)
    requires Inv(s, waker) && Only(s, s', f) && LockPart(s', waker, f)
    requires s'.l == s.l && s'.wake == s.wake && (s.pc[f].LockWait? <==> s'.pc[f].LockWait?)
    ensures LockParts(s', waker)
  {
    forall g | 0 <= g < |s.pc| ensures LockPart(s', waker, g) {
      assert LockPart(s, waker, g);
    }
  }

  lemma CondsKept(s: State, s': State, f: nat)
    requires Sized(s) && CondParts(s) && Only(s, s', f) && s'.ev == s.ev && s'.key == s.key
    requires forall g :: 0 <= g < |s.pc| && Enlisted(s.pc[g]) ==> s'.wake[g] == s.wake[g]
    requires Completing(s') == Completing(s) && (Completing(s) ==> s'.pc[s'.l.owner.value] == s.pc[s.l.owner.value])
    requires Queue(s') == Queue(s)
    requires Enlisted(s'.pc[f]) == Enlisted(s.pc[f]) && (Enlisted(s.pc[f]) ==> s'.pc[f].op == s.pc[f].op)
    ensures CondParts(s')
  {
    forall g | 0 <= g < |s.pc| ensures CondPart(s', g) {
      assert CondPart(s, g);
    }
  }

  // ---------------------------------------------------------------------
  // Calls and passes
  // ---------------------------------------------------------------------

  /** Only f's own registers change, and f neither waits nor walks. */
  lemma KeepOwn(s: State, s': State, waker: Option<nat>, f: nat)
    requires Inv(s, waker) && Only(s, s', f)
    requires s' == s.(pc := s'.pc, seen := s'.seen) && CallOk(s', f)
    requires Plain(s.pc[f]) && Plain(s'.pc[f]) && Holds(s.pc[f]) == Holds(s'.pc[f])
    ensures Inv(s', waker)
  {
    assert LockPart(s, waker, f) && CondPart(s, f);
    assert Completing(s') == Completing(s) && Queue(s') == Queue(s);
    CallsKept(s, s', waker, f);
    LocksKept(s, s', waker, f);
    CondsKept(s, s', f);
  }

  predicate Plain(pc: Pc) {
    pc.Idle? || pc.Fast? || pc.Locking? || pc.Test? || pc.Enlist? || (pc.Unlock? && !pc.parks)
  }

  lemma KeepStart(s: State, waker: Option<nat>, f: nat, op: Op)
    requires Inv(s, waker) && Enabled(s, Start(f, op))
    ensures Inv(Do(s, Start(f, op)), waker)
  {
    var s' := Do(s, Start(f, op));
    if !Trivial(op) {
      assert s.key == s.key[f := s.key[f]] && s.seen == s.seen[f := s.seen[f]];
      KeepOwn(s, s', waker, f);
    }
  }

  lemma CountStep(ev: seq<bool>, es: seq<Option<nat>>, i: nat)
    requires i < |es|
    ensures CountDone(ev, es[..i + 1]) == CountDone(ev, es[..i]) + if Done(ev, es[i]) then 1 else 0
  {
    assert es[..i + 1][..i] == es[..i];
  }

  lemma PassCall(s: State, f: nat)
    requires Enabled(s, Step(f)) && InPass(s.pc[f]) && CallOk(s, f)
    ensures CallOk(DoPass(s, f), f)
  {
    var pc := s.pc[f];
    var es := Watched(pc.op);
    if pc.i < |es| {
      CountStep(s.ev, es, pc.i);
    } else {
      assert es[..pc.i] == es;
    }
  }

  lemma KeepPass(s: State, waker: Option<nat>, f: nat)
    requires Inv(s, waker) && Enabled(s, Step(f)) && InPass(s.pc[f])
    ensures Inv(Do(s, Step(f)), waker)
  {
    assert CallOk(s, f);
    PassCall(s, f);
    assert s.key == s.key[f := s.key[f]] && s.seen == s.seen[f := s.seen[f]];
    KeepOwn(s, DoPass(s, f), waker, f);
  }

  // ---------------------------------------------------------------------
  // Taking and giving the lock
  // ---------------------------------------------------------------------

  lemma SameFields(s: State, f: nat)
    requires Sized(s) && f < |s.pc|
    ensures s.key == s.key[f := s.key[f]] && s.seen == s.seen[f := s.seen[f]]
  {
  }

  lemma KeepLocking(s: State, waker: Option<nat>, f: nat)
    requires Inv(s, waker) && Enabled(s, Step(f)) && s.pc[f].Locking?
    ensures Inv(Do(s, Step(f)), waker)
  {
    var s' := DoLock(s, f);
    SameFields(s, f);
    assert CallOk(s, f) && LockPart(s, waker, f) && CondPart(s, f);
    CallsKept(s, s', waker, f);
    forall g | 0 <= g < |s.pc| ensures LockPart(s', waker, g) {
      assert LockPart(s, waker, g);
    }
    if s.l.owner.Some? { assert LockPart(s, waker, s.l.owner.value); }
    CondsKept(s, s', f);
  }

  lemma KeepLockWait(s: State, waker: Option<nat>, f: nat)
    requires Inv(s, waker) && Enabled(s, Step(f)) && s.pc[f].LockWait?
    ensures Inv(Do(s, Step(f)), waker)
  {
    var s' := DoLock(s, f);
    SameFields(s, f);
    assert CallOk(s, f) && LockPart(s, waker, f) && CondPart(s, f);
    CallsKept(s, s', waker, f);
    forall g | 0 <= g < |s.pc| ensures LockPart(s', waker, g) {
      assert LockPart(s, waker, g);
    }
    CondsKept(s, s', f);
  }

  lemma KeepUnlock(s: State, waker: Option<nat>, f: nat) returns (waker': Option<nat>)
    requires Inv(s, waker) && Enabled(s, Step(f)) && s.pc[f].Unlock?
    ensures Inv(Do(s, Step(f)), waker')
  {
    var s' := DoLock(s, f);
    SameFields(s, f);
    assert CallOk(s, f) && LockPart(s, waker, f) && CondPart(s, f);
    NoWaker(s, waker, f);
    waker' := if s.l.waiters == [] then None else Some(f);
    CallsKept(s, s', waker, f);
    UnlockParts(s, waker, f, waker');
    CondsKept(s, s', f);
  }

  lemma NoWaker(s: State, waker: Option<nat>, f: nat)
    requires Inv(s, waker) && f < |s.pc| && s.l.owner == Some(f) && !s.pc[f].LockWait?
    ensures waker == None
  {
    assert forall g :: 0 <= g < |s.pc| && LockPart(s, waker, g) ==> waker != Some(g);
  }

  lemma UnlockParts(s: State, waker: Option<nat>, f: nat, waker': Option<nat>)
    requires Inv(s, waker) && Enabled(s, Step(f)) && s.pc[f].Unlock?
    requires waker == None && waker' == if s.l.waiters == [] then None else Some(f)
    requires s.l.owner == Some(f)
    ensures LockParts(DoLock(s, f), waker') && Distinct(DoLock(s, f).l.waiters, |s.pc|)
    ensures s.l.waiters != [] ==> s.l.waiters[0] < |s.pc| && s.pc[s.l.waiters[0]].LockWait?
  {
    var s' := DoLock(s, f);
    if s.l.waiters != [] {
      var w := s.l.waiters[0];
      assert w in s.l.waiters && LockPart(s, waker, w);
    }
    forall g | 0 <= g < |s.pc| ensures LockPart(s', waker', g) {
      assert LockPart(s, waker, g);
      assert s.l.waiters != [] ==> (g in s.l.waiters[1..] <==> g in s.l.waiters && g != s.l.waiters[0]);
    }
  }

  lemma KeepHandOver(s: State, waker: Option<nat>, f: nat) returns (waker': Option<nat>)
    requires Inv(s, waker) && Enabled(s, Step(f)) && s.pc[f].HandOver?
    ensures Inv(Do(s, Step(f)), waker')
  {
    var s' := DoLock(s, f);
    SameFields(s, f);
    assert CallOk(s, f) && LockPart(s, waker, f) && CondPart(s, f);
    waker' := None;
    CallsKept(s, s', waker, f);
    forall g | 0 <= g < |s.pc| ensures LockPart(s', waker', g) {
      assert LockPart(s, waker, g);
    }
    CondsKept(s, s', f);
  }

  // ---------------------------------------------------------------------
  // The condition
  // ---------------------------------------------------------------------

  lemma KeepEnlist(s: State, waker: Option<nat>, f: nat)
    requires Inv(s, waker) && Enabled(s, Step(f)) && s.pc[f].Enlist?
    ensures Inv(Do(s, Step(f)), waker)
  {
    var s' := DoCond(s, f);
    SameFields(s, f);
    assert CallOk(s, f) && LockPart(s, waker, f) && CondPart(s, f);
    CallsKept(s, s', waker, f);
    LocksKept(s, s', waker, f);
    forall g | 0 <= g < |s.pc| ensures CondPart(s', g) {
      assert CondPart(s, g);
    }
    assert forall i :: 0 <= i < |s.cond| ==> s.cond[i] in s.cond;
  }

  lemma KeepCondWait(s: State, waker: Option<nat>, f: nat)
    requires Inv(s, waker) && Enabled(s, Step(f)) && s.pc[f].CondWait?
    ensures Inv(Do(s, Step(f)), waker)
  {
    var s' := DoCond(s, f);
    SameFields(s, f);
    assert CallOk(s, f) && LockPart(s, waker, f) && CondPart(s, f);
    CallsKept(s, s', waker, f);
    forall g | 0 <= g < |s.pc| ensures LockPart(s', waker, g) {
      assert LockPart(s, waker, g);
    }
    forall g | 0 <= g < |s.pc| ensures CondPart(s', g) {
      assert CondPart(s, g);
    }
  }

  lemma {:induction false} CountLess(ev: seq<bool>, e: nat, es: seq<Option<nat>>)
    requires e < |ev|
    ensures CountDone(ev[e := false], es) <= CountDone(ev, es)
    decreases |es|
  {
    if es != [] { CountLess(ev, e, es[..|es| - 1]); }
  }

  lemma KeepReset(s: State, waker: Option<nat>, f: nat)
    requires Inv(s, waker) && Enabled(s, Step(f)) && s.pc[f].Store? && !s.pc[f].op.Complete?
    ensures Inv(Do(s, Step(f)), waker)
  {
    var s' := DoCond(s, f);
    SameFields(s, f);
    assert CallOk(s, f) && LockPart(s, waker, f) && CondPart(s, f);
    CallsKept(s, s', waker, f);
    LocksKept(s, s', waker, f);
    forall g | 0 <= g < |s.pc| ensures CondPart(s', g) {
      assert CondPart(s, g);
      if Enlisted(s.pc[g]) { CountLess(s.ev, s.pc[f].op.ev.value, Watched(s.pc[g].op)); }
    }
  }

  lemma KeepComplete(s: State, waker: Option<nat>, f: nat)
    requires Inv(s, waker) && Enabled(s, Step(f)) && s.pc[f].Store? && s.pc[f].op.Complete?
    ensures Inv(Do(s, Step(f)), waker)
  {
    var s' := DoCond(s, f);
    SameFields(s, f);
    assert CallOk(s, f) && LockPart(s, waker, f) && CondPart(s, f);
    CallsKept(s, s', waker, f);
    LocksKept(s, s', waker, f);
    assert [] + s.cond == s.cond;
    forall g | 0 <= g < |s.pc| ensures CondPart(s', g) {
      assert CondPart(s, g) && CallOk(s, g);
      SatisfiedOne(s.ev, s.key[g]);
      SatisfiedOne(s'.ev, s.key[g]);
    }
  }

  lemma KeepWalkEnd(s: State, waker: Option<nat>, f: nat)
    requires Inv(s, waker) && Enabled(s, Step(f)) && s.pc[f].Signal? && s.pc[f].rest == []
    ensures Inv(Do(s, Step(f)), waker)
  {
    var s' := DoCond(s, f);
    SameFields(s, f);
    assert CallOk(s, f) && LockPart(s, waker, f) && CondPart(s, f);
    CallsKept(s, s', waker, f);
    LocksKept(s, s', waker, f);
    assert s.pc[f].keep + [] == s.pc[f].keep;
    forall g | 0 <= g < |s.pc| ensures CondPart(s', g) {
      assert CondPart(s, g);
    }
  }

  lemma KeepWalkKeep(s: State, waker: Option<nat>, f: nat)
    requires Inv(s, waker) && Enabled(s, Step(f)) && s.pc[f].Signal? && s.pc[f].rest != []
    requires s.key[s.pc[f].rest[0]] != None && s.key[s.pc[f].rest[0]] != s.pc[f].op.ev
    ensures Inv(Do(s, Step(f)), waker)
  {
    var s' := DoCond(s, f);
    var rest, keep := s.pc[f].rest, s.pc[f].keep;
    SameFields(s, f);
    assert CallOk(s, f) && LockPart(s, waker, f) && CondPart(s, f);
    CallsKept(s, s', waker, f);
    LocksKept(s, s', waker, f);
    assert Queue(s') == Queue(s) by { assert keep + [rest[0]] + rest[1..] == keep + rest; }
    forall g | 0 <= g < |s.pc| ensures CondPart(s', g) {
      assert CondPart(s, g);
      assert g in rest ==> g == rest[0] || g in rest[1..];
    }
  }

  lemma KeepWalkWake(s: State, waker: Option<nat>, f: nat)
    requires Inv(s, waker) && Enabled(s, Step(f)) && s.pc[f].Signal? && s.pc[f].rest != []
    requires s.key[s.pc[f].rest[0]] == None || s.key[s.pc[f].rest[0]] == s.pc[f].op.ev
    ensures Inv(Do(s, Step(f)), waker)
  {
    var s' := DoCond(s, f);
    var rest, keep := s.pc[f].rest, s.pc[f].keep;
    var w := rest[0];
    SameFields(s, f);
    assert CallOk(s, f) && LockPart(s, waker, f) && CondPart(s, f);
    CallsKept(s, s', waker, f);
    assert w in Queue(s) && CondPart(s, w) && LockPart(s, waker, w);
    forall g | 0 <= g < |s.pc| ensures LockPart(s', waker, g) {
      assert LockPart(s, waker, g);
    }
    WalkQueue(keep, rest, |s.pc|);
    forall g | 0 <= g < |s.pc| ensures CondPart(s', g) {
      assert CondPart(s, g);
      assert g in Queue(s') <==> g in Queue(s) && g != w;
    }
  }

  lemma WalkQueue(keep: seq<nat>, rest: seq<nat>, n: nat)
    requires rest != [] && Distinct(keep + rest, n)
    ensures Distinct(keep + rest[1..], n)
    ensures forall g :: g in keep + rest[1..] <==> g in keep + rest && g != rest[0]
  {
    var q, r := keep + rest, keep + rest[1..];
    assert forall i :: 0 <= i < |r| ==> r[i] == if i < |keep| then q[i] else q[i + 1];
    assert q[|keep|] == rest[0];
    forall i | 0 <= i < |r| ensures r[i] < n {
      assert q[if i < |keep| then i else i + 1] < n;
    }
    forall i, j | 0 <= i < j < |r| ensures r[i] != r[j] {
      var a, b := if i < |keep| then i else i + 1, if j < |keep| then j else j + 1;
      assert a < b && q[a] != q[b];
    }
    forall g ensures g in r <==> g in q && g != rest[0] {
      if g in q && g != rest[0] {
        var i :| 0 <= i < |q| && q[i] == g;
        assert i != |keep|;
        assert r[if i < |keep| then i else i - 1] == g;
      }
      if g in r {
        var i :| 0 <= i < |r| && r[i] == g;
        assert q[if i < |keep| then i else i + 1] == g;
      }
    }
  }

  // ---------------------------------------------------------------------
  // Every run
  // ---------------------------------------------------------------------

  lemma Keep(s: State, waker: Option<nat>, a: Action) returns (waker': Option<nat>)
    requires Inv(s, waker) && Enabled(s, a)
    ensures Inv(Do(s, a), waker')
  {
    waker' := waker;
    if a.Start? {
      KeepStart(s, waker, a.f, a.op);
      return;
    }
    var f := a.f;
    match s.pc[f]
    case Fast(_, _, _) => KeepPass(s, waker, f);
    case Test(_, _, _) => KeepPass(s, waker, f);
    case Locking(_) => KeepLocking(s, waker, f);
    case LockWait(_) => KeepLockWait(s, waker, f);
    case Unlock(_, _) => waker' := KeepUnlock(s, waker, f);
    case HandOver(_, _, _) => waker' := KeepHandOver(s, waker, f);
    case Enlist(_) => KeepEnlist(s, waker, f);
    case CondWait(_) => KeepCondWait(s, waker, f);
    case Store(op) => if op.Complete? { KeepComplete(s, waker, f); } else { KeepReset(s, waker, f); }
    case Signal(op, rest, _) =>
      if rest == [] { KeepWalkEnd(s, waker, f); }
      else if s.key[rest[0]] == None || s.key[rest[0]] == op.ev { KeepWalkWake(s, waker, f); }
      else { KeepWalkKeep(s, waker, f); }
  }

  lemma {:induction false} KeepRun(s: State, waker: Option<nat>, acts: seq<Action>) returns (waker': Option<nat>)
    requires Inv(s, waker) && Exec(s, acts).Reached?
    ensures Inv(Exec(s, acts).s, waker')
    decreases |acts|
  {
    if acts == [] {
      waker' := waker;
    } else {
      var waker1 := Keep(s, waker, acts[0]);
      waker' := KeepRun(Do(s, acts[0]), waker1, acts[1..]);
    }
  }

  lemma Reach(s: State, acts: seq<Action>) returns (waker: Option<nat>)
    requires Init(s) && Exec(s, acts).Reached?
    ensures Inv(Exec(s, acts).s, waker)
  {
    assert Inv(s, None);
    waker := KeepRun(s, None, acts);
  }

  /** In every state of every run, unless a completion is between its store and
      the end of its walk: nobody on the condition's queue waits for something
      that has happened, and a parked fiber whose wait is over has been unparked. */
  lemma EveryRunIsSafe(s: State, acts: seq<Action>)
    requires Init(s) && Exec(s, acts).Reached?
    ensures Safe(Exec(s, acts).s)
  {
    var waker := Reach(s, acts);
    InvSafe(Exec(s, acts).s, waker);
  }

  /** A WAIT that is not trivially over returns only when its last pass has found
      enough events complete: the event itself for WAIT(ev), min(k, n) positions
      for WAIT(evs)(k). */
  lemma WaitReturnsSatisfied(s: State, acts: seq<Action>, f: nat)
    requires Init(s) && Exec(s, acts).Reached?
    requires var t := Exec(s, acts).s; Enabled(t, Step(f)) && Waits(t.pc[f].op) && Do(t, Step(f)).pc[f] == Idle
    ensures var t := Exec(s, acts).s; |Do(t, Step(f)).seen[f]| >= Need(t.pc[f].op)
  {
    var t := Exec(s, acts).s;
    var waker := Reach(s, acts);
    assert CallOk(t, f);
  }

  /** Every position in `seen` was found complete by a load of the call, and under
      the lock all of them are complete at the same time: when the pass succeeds
      the wait is over, and no other fiber can undo that before the release. */
  lemma LockedPassIsExact(s: State, acts: seq<Action>, f: nat)
    requires Init(s) && Exec(s, acts).Reached?
    requires var t := Exec(s, acts).s; Enabled(t, Step(f)) && t.pc[f].Test? && !Do(t, Step(f)).pc[f].Test?
    ensures var t := Exec(s, acts).s; Do(t, Step(f)).pc[f].Unlock? <==> Satisfied(t.ev, t.pc[f].op)
    ensures var t := Exec(s, acts).s; forall a :: Enabled(t, a) && a.f != f ==> Do(t, a).ev == t.ev
  {
    var t := Exec(s, acts).s;
    var waker := Reach(s, acts);
    var pc := t.pc[f];
    var es := Watched(pc.op);
    assert CallOk(t, f) && LockPart(t, waker, f);
    if pc.i < |es| {
      CountStep(t.ev, es, pc.i);
      CountPrefix(t.ev, es, pc.i + 1);
    } else {
      assert es[..pc.i] == es;
    }
    forall a | Enabled(t, a) && a.f != f ensures Do(t, a).ev == t.ev {
      assert LockPart(t, waker, a.f);
    }
  }

  lemma {:induction false} CountPrefix(ev: seq<bool>, es: seq<Option<nat>>, i: nat)
    requires i <= |es|
    ensures CountDone(ev, es[..i]) <= CountDone(ev, es)
    decreases |es| - i
  {
    if i < |es| {
      CountStep(ev, es, i);
      CountPrefix(ev, es, i + 1);
    } else {
      assert es[..i] == es;
    }
  }
}
