/**
 The standard-input broker (runtime/rt_input.c).

 A dedicated thread does the blocking reads and appends chunks to a queue; a
 consumer that finds the queue empty publishes itself, requests more input and
 waits: a fiber parks, a plain thread sleeps on the condition `ready`.  Every
 mutex section, every read, every condition wait and every unpark is a step, the
 reads return as much or as little as they like, and condition waits may wake
 up spuriously.  The input lock keeps all but one consumer out.
 */
module InputBroker {
  import opened Options

  type Byte = b: int | 0 <= b < 256

  const CHUNK := 4096

  datatype Chunk = Chunk(data: seq<Byte>, pos: nat)

  datatype Reader =
    | Check                                // about to test the request flag
    | Asleep(signalled: bool)              // in pli_cond_wait on cv
    | Reading
    | Deliver                              // the read has returned
    | Wake(w: Option<nat>, done: bool)     // the consumer is taken, not yet unparked
    | Finished

  datatype Consumer =
    | Out
    | Look(f: Option<nat>)                 // in the loop of rt_input_getc; None: not a fiber
    | Parked(f: Option<nat>)
    | Sleeping(signalled: bool)            // in pli_cond_wait on ready

  /** `got`: the bytes returned so far; `ended`: some call has returned EOF;
      `failed`: a read has failed.  No step reads these three. */
  datatype State = State(
    unread: seq<Byte>,
    flight: seq<Byte>,       // the reader's buffer
    queue: seq<Chunk>,
    eof: bool,
    requested: bool,
    waiter: Option<nat>,
    wake: nat,               // unparks not yet consumed
    reader: Reader,
    consumer: Consumer,
    got: seq<Byte>,
    ended: bool,
    failed: bool)

  datatype Action =
    | Read(n: int)                         // pli_plat_stdin_read returns n
    | ReaderStep
    | Call(f: Option<nat>)                 // rt_input_getc, from a fiber or not
    | ConsumerStep
    | Spurious(reader: bool)               // a condition wait returns by itself

  predicate Enabled(s: State, a: Action) {
    match a
    case Read(n) => s.reader == Reading && n <= CHUNK && n <= |s.unread| && (s.unread == [] ==> n <= 0)
    case ReaderStep => s.reader != Reading && s.reader != Finished && s.reader != Asleep(false)
    case Call(_) => s.consumer == Out
    case ConsumerStep => s.consumer != Out && (s.consumer.Parked? ==> s.wake > 0) && s.consumer != Sleeping(false)
    case Spurious(r) => if r then s.reader.Asleep? else s.consumer.Sleeping?
  }

  function DoReader(s: State): State
  {
    match s.reader
    case Check => if !s.requested && !s.eof then s.(reader := Asleep(false)) else s.(requested := false, reader := Reading)
    case Asleep(_) => s.(reader := Check)
    case Deliver =>
      var s1 := if s.flight != [] then s.(queue := s.queue + [Chunk(s.flight, 0)], flight := []) else s.(eof := true);
      s1.(waiter := None, reader := Wake(s.waiter, s.flight == []),
          consumer := if s.waiter == None && s.consumer.Sleeping? then Sleeping(true) else s.consumer)
    case Wake(w, done) => s.(wake := if w.Some? then s.wake + 1 else s.wake, reader := if done then Finished else Check)
    case _ => s
  }

  /** The request goes out, and wakes the reader if it sleeps. */
  function Request(s: State): State {
    s.(requested := true, reader := if s.reader.Asleep? then Asleep(true) else s.reader)
  }

  function DoLook(s: State, f: Option<nat>): State {
    if s.queue != [] then
      var c := s.queue[0];
      if c.pos >= |c.data| then s.(consumer := Out)
      else
        s.(got := s.got + [c.data[c.pos]], consumer := Out,
           queue := if c.pos + 1 >= |c.data| then s.queue[1..] else [c.(pos := c.pos + 1)] + s.queue[1..])
    else if s.eof then s.(ended := true, consumer := Out)
    else if f.Some? then Request(s).(waiter := f, consumer := Parked(f))
    else Request(s).(consumer := Sleeping(false))
  }

  function DoConsumer(s: State): State
    requires s.consumer.Parked? ==> s.wake > 0
  {
    match s.consumer
    case Look(f) => DoLook(s, f)
    case Parked(f) => s.(wake := s.wake - 1, consumer := Look(f))
    case Sleeping(_) => s.(consumer := if s.queue == [] && !s.eof then Sleeping(false) else Look(None))
    case Out => s
  }

  function Do(s: State, a: Action): State
    requires Enabled(s, a)
  {
    match a
    case Read(n) =>
      if n > 0 then s.(flight := s.unread[..n], unread := s.unread[n..], reader := Deliver)
      else s.(flight := [], reader := Deliver, failed := s.failed || s.unread != [])
    case ReaderStep => DoReader(s)
    case Call(f) => s.(consumer := Look(f))
    case ConsumerStep => DoConsumer(s)
    case Spurious(r) => if r then DoReader(s.(reader := Asleep(true))) else DoConsumer(s)
  }

  predicate Init(s: State, input: seq<Byte>) {
    s == State(input, [], [], false, false, None, 0, Check, Out, [], false, false)
  }

  datatype Outcome = Blocked | Reached(s: State)

  function Exec(s: State, acts: seq<Action>): Outcome
    decreases |acts|
  {
    if acts == [] then Reached(s)
    else if !Enabled(s, acts[0]) then Blocked
    else Exec(Do(s, acts[0]), acts[1..])
  }

  // ---------------------------------------------------------------------
  // What must hold in every state
  // ---------------------------------------------------------------------

  function Left(c: Chunk): seq<Byte> {
    if c.pos <= |c.data| then c.data[c.pos..] else []
  }

  /** The bytes in the queue, front first. */
  function Queued(q: seq<Chunk>): seq<Byte>
  {
    if q == [] then [] else Left(q[0]) + Queued(q[1..])
  }

  /** Every byte of the input is in one place, in order. */
  ghost predicate InOrder(s: State, input: seq<Byte>) {
    s.got + Queued(s.queue) + s.flight + s.unread == input
  }

  /** EOF is returned only after all that was read; without a read error that is
      the whole input. */
  ghost predicate EofIsLast(s: State, input: seq<Byte>) {
    s.ended ==> s.got + s.unread == input && (!s.failed ==> s.got == input)
  }

  /** A waiting consumer has a request that the reader will see, a read in flight,
      or its wake-up on the way. */
  predicate HasSource(s: State) {
    || (s.requested && (s.reader == Check || s.reader == Asleep(true) || s.reader == Wake(None, false)))
    || s.reader == Reading || s.reader == Deliver
  }

  ghost predicate NeverStuck(s: State) {
    && (s.consumer.Parked? ==> s.wake > 0 || s.reader.Wake? || (s.waiter == s.consumer.f && HasSource(s)))
    && (s.consumer == Sleeping(false) ==> HasSource(s))
  }

  ghost predicate Safe(s: State, input: seq<Byte>) {
    InOrder(s, input) && EofIsLast(s, input) && NeverStuck(s)
  }

  // ---------------------------------------------------------------------
  // The invariant
  // ---------------------------------------------------------------------

  ghost predicate Chunks(q: seq<Chunk>) {
    forall i :: 0 <= i < |q| ==> q[i].pos < |q[i].data|
  }

  ghost predicate Inv(s: State, input: seq<Byte>) {
    && Chunks(s.queue) && InOrder(s, input)
    && (s.flight != [] ==> s.reader == Deliver)
    && (s.reader == Deliver && s.flight == [] && !s.failed ==> s.unread == [])
    && (s.eof <==> s.reader == Finished || (s.reader.Wake? && s.reader.done))
    && (s.eof && !s.failed ==> s.unread == [])
    && (s.ended ==> s.eof && s.queue == [])
    && (s.requested ==> s.reader == Check || s.reader == Asleep(true) || s.reader == Wake(None, false))
    && (s.requested || s.reader == Reading || s.reader == Deliver ==> s.waiter.Some? || s.consumer == Sleeping(false))
    && (s.consumer == Sleeping(true) ==> s.queue != [] || s.eof)
    && (s.consumer.Parked? ==> s.consumer.f.Some?)
    && (s.waiter.Some? ==> s.consumer == Parked(s.waiter) && HasSource(s) && s.wake == 0)
    && (s.reader.Wake? && s.reader.w.Some? ==> s.consumer == Parked(s.reader.w) && s.waiter == None && s.wake == 0)
    && (s.wake > 0 ==> s.consumer.Parked? && s.wake == 1)
    && (s.consumer.Parked? ==> s.waiter.Some? || s.wake == 1 || (s.reader.Wake? && s.reader.w.Some?))
    && (s.consumer == Sleeping(false) ==> HasSource(s) && s.queue == [] && !s.eof)
  }

  lemma InvSafe(s: State, input: seq<Byte>)
    requires Inv(s, input)
    ensures Safe(s, input)
  {
    if s.ended {
      assert Queued(s.queue) == [] && s.flight == [];
      assert s.got + [] + [] + s.unread == s.got + s.unread;
    }
  }

  lemma QueuedCons(c: Chunk, q: seq<Chunk>)
    ensures Queued([c] + q) == Left(c) + Queued(q)
  {
    assert ([c] + q)[1..] == q;
  }

  lemma {:induction false} QueuedAppend(q: seq<Chunk>, c: Chunk)
    ensures Queued(q + [c]) == Queued(q) + Left(c)
    decreases |q|
  {
    if q == [] {
      QueuedCons(c, []);
      assert [c] + [] == q + [c] && Left(c) + [] == [] + Left(c);
    } else {
      var d, r := q[0], q[1..];
      QueuedAppend(r, c);
      QueuedCons(d, r + [c]);
      assert [d] + (r + [c]) == q + [c] && [d] + r == q;
      assert Left(d) + (Queued(r) + Left(c)) == Left(d) + Queued(r) + Left(c);
    }
  }

  /** Taking the front byte. */
  lemma QueuedTake(q: seq<Chunk>)
    requires q != [] && q[0].pos < |q[0].data|
    ensures var c := q[0];
      Queued(q) == [c.data[c.pos]] + Queued(if c.pos + 1 >= |c.data| then q[1..] else [c.(pos := c.pos + 1)] + q[1..])
  {
    var c, r := q[0], q[1..];
    assert Left(c) == [c.data[c.pos]] + c.data[c.pos + 1..];
    if c.pos + 1 < |c.data| {
      QueuedCons(c.(pos := c.pos + 1), r);
      assert [c.data[c.pos]] + c.data[c.pos + 1..] + Queued(r) == [c.data[c.pos]] + (c.data[c.pos + 1..] + Queued(r));
    } else {
      assert c.data[c.pos + 1..] == [];
      assert Left(c) == [c.data[c.pos]];
    }
  }

  lemma KeepDeliver(s: State, input: seq<Byte>)
    requires Inv(s, input) && s.reader == Deliver
    ensures Inv(DoReader(s), input)
  {
    if s.flight != [] {
      QueuedAppend(s.queue, Chunk(s.flight, 0));
      assert Left(Chunk(s.flight, 0)) == s.flight;
      assert s.got + (Queued(s.queue) + s.flight) + [] + s.unread == s.got + Queued(s.queue) + s.flight + s.unread;
    }
  }

  lemma KeepRead(s: State, input: seq<Byte>, n: int)
    requires Inv(s, input) && Enabled(s, Read(n))
    ensures Inv(Do(s, Read(n)), input)
  {
    if n > 0 {
      assert s.unread == s.unread[..n] + s.unread[n..];
      assert s.got + Queued(s.queue) + [] + s.unread == s.got + Queued(s.queue) + s.unread[..n] + s.unread[n..];
    }
  }

  lemma TakeKeepsOrder(s: State, input: seq<Byte>, f: Option<nat>)
    requires Chunks(s.queue) && InOrder(s, input) && s.queue != []
    ensures InOrder(DoLook(s, f), input) && Chunks(DoLook(s, f).queue)
  {
    var s', c := DoLook(s, f), s.queue[0];
    QueuedTake(s.queue);
    assert s'.got + Queued(s'.queue) == s.got + ([c.data[c.pos]] + Queued(s'.queue));
    assert s'.got + Queued(s'.queue) == s.got + Queued(s.queue);
  }

  lemma KeepLook(s: State, input: seq<Byte>, f: Option<nat>)
    requires Inv(s, input) && s.consumer == Look(f)
    ensures Inv(DoLook(s, f), input)
  {
    if s.queue != [] { TakeKeepsOrder(s, input, f); }
  }

  lemma Keep(s: State, input: seq<Byte>, a: Action)
    requires Inv(s, input) && Enabled(s, a)
    ensures Inv(Do(s, a), input)
  {
    match a
    case Read(n) => KeepRead(s, input, n);
    case ReaderStep => if s.reader == Deliver { KeepDeliver(s, input); }
    case ConsumerStep => if s.consumer.Look? { KeepLook(s, input, s.consumer.f); }
    case _ =>
  }

  lemma {:induction false} KeepRun(s: State, input: seq<Byte>, acts: seq<Action>)
    requires Inv(s, input) && Exec(s, acts).Reached?
    ensures Inv(Exec(s, acts).s, input)
    decreases |acts|
  {
    if acts != [] {
      Keep(s, input, acts[0]);
      KeepRun(Do(s, acts[0]), input, acts[1..]);
    }
  }

  /** In every state of every run: the bytes returned, queued, in flight and unread
      make up the input in order; EOF has been returned only if all that was read
      has been returned before; and a consumer that waits always has a request
      that the reader will see, a read in flight, or its wake-up on the way. */
  lemma EveryRunIsSafe(s: State, input: seq<Byte>, acts: seq<Action>)
    requires Init(s, input) && Exec(s, acts).Reached?
    ensures Safe(Exec(s, acts).s, input)
  {
    assert Queued([]) == [];
    assert Inv(s, input);
    KeepRun(s, input, acts);
    InvSafe(Exec(s, acts).s, input);
  }

  /** Once EOF has been returned no step returns another byte. */
  lemma EofIsFinal(s: State, input: seq<Byte>, acts: seq<Action>, a: Action)
    requires Init(s, input) && Exec(s, acts).Reached?
    requires var t := Exec(s, acts).s; t.ended && Enabled(t, a)
    ensures var t := Exec(s, acts).s; Do(t, a).got == t.got && Do(t, a).ended
  {
    assert Queued([]) == [];
    assert Inv(s, input);
    KeepRun(s, input, acts);
  }
}
