/**
 The file-read broker (runtime/rt_fbroker.c).

 A fiber that reads a file puts its request into the broker's one work slot and
 parks; the reader thread copies the request, readLog, stores the byte count,
 empties the slot and unparks the fiber.  A hand-off lock lets one caller at a
 time use the slot (HandoffLock: at most one holder, and a returner holds it).
 Every mutex section, condition wait, read, unpark and lock operation is a step,
 and any number of fibers call.
 */
module FileBroker {
  import opened Options

  /** FILE pointer, buffer address and byte count. */
  datatype Request = Request(file: nat, buf: nat, n: nat)

  datatype Reader =
    | Check
    | Asleep(signalled: bool)
    | Reading(r: Request)                  // its own copy of the request
    | Store(r: Request, got: nat)
    | Wake(w: Option<nat>)

  datatype Caller =
    | Out
    | Acquire(r: Request)                  // waiting for the slot's lock
    | Publish(r: Request)
    | Parked(r: Request)
    | Collect(r: Request)
    | Release

  /** A read that the reader made, or a count that a caller returned. */
  datatype Entry = Entry(f: nat, r: Request, got: nat)

  /** `req` is None when its file pointer is NULL; a negative `result` is "pending".
      No step looks at `readLog` and `returnLog`. */
  datatype State = State(
    slot: Option<nat>,
    req: Option<Request>,
    result: int,
    waiter: Option<nat>,
    reader: Reader,
    caller: seq<Caller>,
    wake: seq<nat>,
    readLog: seq<Entry>,
    returnLog: seq<Entry>)

  datatype Action =
    | Call(f: nat, r: Request)
    | CallerStep(f: nat)
    | ReaderStep
    | Read(got: nat)                       // fread returns
    | Spurious

  predicate Sized(s: State) { |s.wake| == |s.caller| }

  predicate Enabled(s: State, a: Action) {
    && Sized(s)
    && match a
       case Call(f, _) => f < |s.caller| && s.caller[f] == Out
       case CallerStep(f) =>
         && f < |s.caller| && s.caller[f] != Out
         && (s.caller[f].Acquire? ==> s.slot == None)
         && (s.caller[f].Parked? ==> s.wake[f] > 0)
       case ReaderStep =>
         && !s.reader.Reading? && s.reader != Asleep(false)
         && (s.reader.Wake? && s.reader.w.Some? ==> s.reader.w.value < |s.wake|)
       case Read(got) => s.reader.Reading? && got <= s.reader.r.n
       case Spurious => s.reader.Asleep?
  }

  function At(s: State, f: nat, c: Caller): State
    requires f < |s.caller|
  {
    s.(caller := s.caller[f := c])
  }

  function DoCaller(s: State, f: nat): (t: State)
    requires Enabled(s, CallerStep(f))
    ensures Sized(t) && |t.caller| == |s.caller|
  {
    match s.caller[f]
    case Acquire(r) => At(s, f, Publish(r)).(slot := Some(f))
    case Publish(r) =>
      At(s, f, Parked(r)).(req := Some(r), result := -1, waiter := Some(f),
                           reader := if s.reader.Asleep? then Asleep(true) else s.reader)
    case Parked(r) => At(s, f, Collect(r)).(wake := s.wake[f := s.wake[f] - 1])
    case Collect(r) => At(s, f, Release).(returnLog := s.returnLog + [Entry(f, r, if s.result < 0 then 0 else s.result)])
    case Release => At(s, f, Out).(slot := None)
    case Out => s
  }

  function DoReader(s: State): (t: State)
    requires Enabled(s, ReaderStep)
    ensures Sized(t) && |t.caller| == |s.caller|
  {
    match s.reader
    case Check => s.(reader := if s.req == None then Asleep(false) else Reading(s.req.value))
    case Asleep(_) => s.(reader := Check)
    case Store(_, got) => s.(result := got, req := None, waiter := None, reader := Wake(s.waiter))
    case Wake(w) =>
      if w.Some? then s.(wake := s.wake[w.value := s.wake[w.value] + 1], reader := Check) else s.(reader := Check)
    case Reading(_) => s
  }

  function Do(s: State, a: Action): (t: State)
    requires Enabled(s, a)
    ensures Sized(t) && |t.caller| == |s.caller|
  {
    match a
    case Call(f, r) => At(s, f, Acquire(r))
    case CallerStep(f) => DoCaller(s, f)
    case ReaderStep => DoReader(s)
    case Read(got) =>
      s.(reader := Store(s.reader.r, got),
         readLog := s.readLog + [Entry(if s.slot.Some? then s.slot.value else 0, s.reader.r, got)])
    case Spurious => s.(reader := Check)
  }

  ghost predicate Init(s: State) {
    && Sized(s) && s.slot == None && s.req == None && s.waiter == None && s.reader == Check
    && s.readLog == [] && s.returnLog == []
    && (forall f :: 0 <= f < |s.caller| ==> s.caller[f] == Out && s.wake[f] == 0)
  }

  datatype Outcome = Blocked | Reached(s: State)

  function Exec(s: State, acts: seq<Action>): Outcome
    decreases |acts|
  {
    if acts == [] then Reached(s)
    else if !Enabled(s, acts[0]) then Blocked
    else Exec(Do(s, acts[0]), acts[1..])
  }

  /** Every call returns the count of one read, made for that call with that
      call's file, buffer and size; the reads are used once each, in order. */
  ghost predicate ReturnsMatchReads(s: State) {
    |s.returnLog| <= |s.readLog| <= |s.returnLog| + 1 && s.returnLog == s.readLog[..|s.returnLog|]
  }

  /** A parked caller's request is in the slot and the reader is awake or will be
      woken, or its read is in flight, or its unpark is on the way. */
  ghost predicate NeverStuck(s: State)
    requires Sized(s)
  {
    forall f :: 0 <= f < |s.caller| && s.caller[f].Parked? ==>
      || s.wake[f] == 1
      || s.reader == Wake(Some(f))
      || (s.waiter == Some(f) && s.req == Some(s.caller[f].r) && s.reader != Asleep(false))
  }

  ghost predicate Safe(s: State) { Sized(s) && ReturnsMatchReads(s) && NeverStuck(s) }

  predicate InSlot(c: Caller) { c.Publish? || c.Parked? || c.Collect? || c.Release? }

  /** The holder's call: published, read, stored, unparked, collected. */
  ghost predicate HolderOk(s: State, f: nat)
    requires Sized(s) && f < |s.caller|
  {
    match s.caller[f]
    case Publish(_) => s.req == None && s.waiter == None && s.readLog == s.returnLog && s.wake[f] == 0 && NotBusy(s)
    case Parked(r) =>
      if s.wake[f] > 0 then s.wake[f] == 1 && s.req == None && s.waiter == None && NotBusy(s) && Fetched(s, f, r)
      else if s.reader == Wake(Some(f)) then s.req == None && s.waiter == None && Fetched(s, f, r)
      else
        && s.waiter == Some(f) && s.req == Some(r) && s.reader != Asleep(false)
        && (s.reader.Reading? ==> s.reader.r == r)
        && (if s.reader.Store? then s.reader.r == r && s.readLog == s.returnLog + [Entry(f, r, s.reader.got)] else s.readLog == s.returnLog)
        && !(s.reader.Wake? && s.reader.w.Some?)
    case Collect(r) => s.wake[f] == 0 && s.req == None && s.waiter == None && NotBusy(s) && Fetched(s, f, r)
    case Release => s.wake[f] == 0 && s.req == None && s.waiter == None && NotBusy(s) && s.readLog == s.returnLog
    case _ => false
  }

  ghost predicate Fetched(s: State, f: nat, r: Request) {
    s.result >= 0 && s.readLog == s.returnLog + [Entry(f, r, s.result)]
  }

  predicate NotBusy(s: State) {
    s.reader == Check || s.reader.Asleep? || s.reader == Wake(None)
  }

  ghost predicate Inv(s: State) {
    && Sized(s)
    && (forall f :: 0 <= f < |s.caller| ==> (InSlot(s.caller[f]) <==> s.slot == Some(f)))
    && (forall f :: 0 <= f < |s.caller| && s.slot != Some(f) ==> s.wake[f] == 0)
    && (if s.slot == None then s.req == None && s.waiter == None && NotBusy(s) && s.readLog == s.returnLog
        else s.slot.value < |s.caller| && HolderOk(s, s.slot.value))
  }

  lemma KeepCaller(s: State, f: nat)
    requires Inv(s) && Enabled(s, CallerStep(f))
    ensures Inv(DoCaller(s, f))
  {
    assert s.slot.Some? ==> HolderOk(s, s.slot.value);
  }

  lemma KeepReader(s: State)
    requires Inv(s) && Enabled(s, ReaderStep)
    ensures Inv(DoReader(s))
  {
    assert s.slot.Some? ==> HolderOk(s, s.slot.value);
  }

  lemma Keep(s: State, a: Action)
    requires Inv(s) && Enabled(s, a)
    ensures Inv(Do(s, a))
  {
    match a
    case CallerStep(f) => KeepCaller(s, f);
    case ReaderStep => KeepReader(s);
    case _ =>
  }

  lemma {:induction false} KeepRun(s: State, acts: seq<Action>)
    requires Inv(s) && Exec(s, acts).Reached?
    ensures Inv(Exec(s, acts).s)
    decreases |acts|
  {
    if acts != [] {
      Keep(s, acts[0]);
      KeepRun(Do(s, acts[0]), acts[1..]);
    }
  }

  /** In every state of every run each return carries the count of its own read,
      and no parked caller is forgotten. */
  lemma EveryRunIsSafe(s: State, acts: seq<Action>)
    requires Init(s) && Exec(s, acts).Reached?
    ensures Safe(Exec(s, acts).s)
  {
    KeepRun(s, acts);
    var t := Exec(s, acts).s;
    assert t.slot.Some? ==> HolderOk(t, t.slot.value);
    forall f | 0 <= f < |t.caller| && t.caller[f].Parked? ensures t.slot == Some(f) { }
  }
}
