/** The two coroutines that drive a write queue: `RunClientStreamingClient`, and
    `RunBidirectionalStreamingClient` with its separate `RunBidirectionalWrites`.

    Transport results and thrown errors are events; callers may push, close or fail the queue and
    pending tasks may run between any two steps. The point is that a runner that ends has failed the
    queue, so no caller waits for an outcome that will never come. The client-streaming runner prepares
    its RPC before its first `try`, and there alone a throw leaves the queue as it is. */
module StreamRunners {
  import opened Options
  import Q = WriteQueues

  /** The error with which a successful runner closes its queue. */
  const STREAM_CLOSED: nat := 0

  /** What callers and pending tasks do to the queue, whatever the runner is doing. */
  predicate Outside(e: Q.Event) {
    e.PushWrite? || e.CloseQueue? || e.FailQueue? || e.RunTask?
  }

  /** What the popping loop does to the queue. */
  predicate Transport(e: Q.Event) {
    e.PopLocked? || e.PopResumes? || e.PopCancelled? || e.WriteDone? || e.ResetActive?
  }

  // ---- Client streaming ----

  datatype ClientPc =
    | Preparing
    | Starting
    | Looping
    | Caught(error: nat)
    | Finishing(writeError: Option<nat>)
    | Succeeding
    | Answering
    | Raising(error: nat)
    | Ended
    | Abandoned

  datatype ClientEvent =
    | FromOutside(event: Q.Event)
    | FromLoop(event: Q.Event)
    | Prepared
    | SetupThrew
    | Started(ok: bool)
    | StartThrew(error: nat)
    | LoopEnded
    | LoopThrew(error: nat)
    | FailInCatch
    | FinishReturned(failure: Option<nat>)
    | FinishThrew(error: nat)
    | CloseOut
    | ResponseReturned(failure: Option<nat>)
    | FailAndRethrow

  datatype Client = Client(queue: Q.State, pc: ClientPc)

  const CLIENT := Client(Q.INITIAL, Preparing)

  function Moved(c: Client, e: Q.Event, pc: ClientPc): Option<Client> {
    match Q.Step(c.queue, e)
    case None => None
    case Some(q) => Some(Client(q, pc))
  }

  function ClientStep(c: Client, e: ClientEvent): Option<Client> {
    match e
    case FromOutside(q) => if Outside(q) then Moved(c, q, c.pc) else None
    case FromLoop(q) => if c.pc.Looping? && Transport(q) then Moved(c, q, Looping) else None
    case Prepared => if c.pc.Preparing? then Some(c.(pc := Starting)) else None
    case SetupThrew => if c.pc.Preparing? then Some(c.(pc := Abandoned)) else None
    case Started(ok) =>
      if c.pc.Starting? then Some(c.(pc := if ok then Looping else Finishing(None))) else None
    case StartThrew(error) => if c.pc.Starting? then Some(c.(pc := Caught(error))) else None
    case LoopEnded =>
      if c.pc.Looping? && c.queue.popper.Stopped? then Some(c.(pc := Finishing(None))) else None
    case LoopThrew(error) => if c.pc.Looping? then Moved(c, Q.PopperThrown, Caught(error)) else None
    case FailInCatch =>
      if c.pc.Caught? then Moved(c, Q.FailQueue(c.pc.error), Finishing(Some(c.pc.error))) else None
    case FinishReturned(failure) =>
      if !c.pc.Finishing? then None
      else if c.pc.writeError.Some? then Some(c.(pc := Raising(c.pc.writeError.value)))
      else if failure.Some? then Some(c.(pc := Raising(failure.value)))
      else Some(c.(pc := Succeeding))
    case FinishThrew(error) => if c.pc.Finishing? then Some(c.(pc := Raising(error))) else None
    case CloseOut => if c.pc.Succeeding? then Moved(c, Q.FailQueue(STREAM_CLOSED), Answering) else None
    case ResponseReturned(failure) =>
      if !c.pc.Answering? then None
      else Some(c.(pc := if failure.Some? then Raising(failure.value) else Ended))
    case FailAndRethrow => if c.pc.Raising? then Moved(c, Q.FailQueue(c.pc.error), Ended) else None
  }

  function ClientRun(es: seq<ClientEvent>): Option<Client> {
    if es == [] then Some(CLIENT)
    else match ClientRun(es[..|es| - 1]) case None => None case Some(c) => ClientStep(c, es[|es| - 1])
  }

  ghost predicate ClientInv(c: Client) {
    && Q.Inv(c.queue)
    && (c.pc.Answering? || c.pc.Ended? ==> c.queue.failure.Some?)
    && (c.pc.Preparing? || c.pc.Abandoned? ==> Unserved(c.queue))
  }

  /** Nobody has popped anything yet, so only a failure could have given an outcome. */
  ghost predicate Unserved(q: Q.State) { q.popper.Idle? && (q.failure.None? ==> q.outcomes == map[]) }

  lemma OutsideServesNobody(q: Q.State, e: Q.Event)
    requires Q.Inv(q) && Q.Step(q, e).Some? && Outside(e) && Unserved(q)
    ensures Unserved(Q.Step(q, e).value)
  {}

  lemma FailSticks(q: Q.State, e: Q.Event)
    requires Q.Inv(q) && Q.Step(q, e).Some?
    ensures Q.Inv(Q.Step(q, e).value)
    ensures q.failure.Some? || e.FailQueue? ==> Q.Step(q, e).value.failure.Some?
  {
    Q.StepKeeps(q, e);
  }

  lemma ClientKeeps(c: Client, e: ClientEvent)
    requires ClientInv(c) && ClientStep(c, e).Some?
    ensures ClientInv(ClientStep(c, e).value)
  {
    match e
    case FromOutside(q) =>
      FailSticks(c.queue, q);
      if Unserved(c.queue) {
        OutsideServesNobody(c.queue, q);
      }
    case FromLoop(q) => FailSticks(c.queue, q);
    case LoopThrew(error) => FailSticks(c.queue, Q.PopperThrown);
    case FailInCatch => FailSticks(c.queue, Q.FailQueue(c.pc.error));
    case CloseOut => FailSticks(c.queue, Q.FailQueue(STREAM_CLOSED));
    case FailAndRethrow => FailSticks(c.queue, Q.FailQueue(c.pc.error));
    case _ =>
  }

  lemma {:induction false} ClientReachable(es: seq<ClientEvent>)
    ensures ClientRun(es).Some? ==> ClientInv(ClientRun(es).value)
  {
    if es != [] {
      ClientReachable(es[..|es| - 1]);
      if ClientRun(es).Some? {
        ClientKeeps(ClientRun(es[..|es| - 1]).value, es[|es| - 1]);
      }
    }
  }

  // ---- Bidirectional streaming ----

  datatype MainPc =
    | Opening
    | Reading
    | ReadFailed(error: nat)
    | ClosingQueue(responseError: Option<nat>)
    | Joining(responseError: Option<nat>)
    | Closing
    | Throwing(error: nat)
    | Over

  datatype WriterPc = NotSpawned | Popping | Flushing | WriterCaught(error: nat) | WriterDone(result: Option<nat>)

  datatype BidiEvent =
    | BidiOutside(event: Q.Event)
    | BidiLoop(event: Q.Event)
    | Opened
    | OpenFailed(error: nat)
    | ReadEnded
    | ReadThrew(error: nat)
    | FailOnRead
    | CloseQueue
    | Joined(failure: Option<nat>)
    | JoinThrew(error: nat)
    | CloseStream
    | FailAndThrow
    | PopEnded
    | PopThrew(error: nat)
    | Flushed(failure: Option<nat>)
    | WriterFails

  datatype Bidi = Bidi(queue: Q.State, main: MainPc, writer: WriterPc)

  const BIDI := Bidi(Q.INITIAL, Opening, NotSpawned)

  function Went(b: Bidi, e: Q.Event, main: MainPc, writer: WriterPc): Option<Bidi> {
    match Q.Step(b.queue, e)
    case None => None
    case Some(q) => Some(Bidi(q, main, writer))
  }

  function BidiStep(b: Bidi, e: BidiEvent): Option<Bidi> {
    match e
    case BidiOutside(q) => if Outside(q) then Went(b, q, b.main, b.writer) else None
    case BidiLoop(q) => if b.writer.Popping? && Transport(q) then Went(b, q, b.main, Popping) else None
    case Opened => if b.main.Opening? then Some(b.(main := Reading, writer := Popping)) else None
    case OpenFailed(error) => if b.main.Opening? then Some(b.(main := Throwing(error))) else None
    case ReadEnded => if b.main.Reading? then Some(b.(main := ClosingQueue(None))) else None
    case ReadThrew(error) => if b.main.Reading? then Some(b.(main := ReadFailed(error))) else None
    case FailOnRead =>
      if b.main.ReadFailed? then Went(b, Q.FailQueue(b.main.error), ClosingQueue(Some(b.main.error)), b.writer)
      else None
    case CloseQueue =>
      if b.main.ClosingQueue? then Went(b, Q.CloseQueue, Joining(b.main.responseError), b.writer) else None
    case Joined(failure) =>
      // The writer is awaited, then finish() is; its error comes after the response's and the writer's.
      if !b.main.Joining? || !b.writer.WriterDone? then None
      else if b.main.responseError.Some? then Some(b.(main := Throwing(b.main.responseError.value)))
      else if b.writer.result.Some? then Some(b.(main := Throwing(b.writer.result.value)))
      else if failure.Some? then Some(b.(main := Throwing(failure.value)))
      else Some(b.(main := Closing))
    case JoinThrew(error) =>
      if b.main.Joining? && b.writer.WriterDone? then Some(b.(main := Throwing(error))) else None
    case CloseStream => if b.main.Closing? then Went(b, Q.FailQueue(STREAM_CLOSED), Over, b.writer) else None
    case FailAndThrow => if b.main.Throwing? then Went(b, Q.FailQueue(b.main.error), Over, b.writer) else None
    case PopEnded =>
      if b.writer.Popping? && b.queue.popper.Stopped? then Some(b.(writer := Flushing)) else None
    case PopThrew(error) =>
      if b.writer.Popping? then Went(b, Q.PopperThrown, b.main, WriterCaught(error)) else None
    case Flushed(failure) =>
      if !b.writer.Flushing? then None
      else Some(b.(writer := if failure.Some? then WriterCaught(failure.value) else WriterDone(None)))
    case WriterFails =>
      if b.writer.WriterCaught? then Went(b, Q.FailQueue(b.writer.error), b.main, WriterDone(Some(b.writer.error)))
      else None
  }

  function BidiRun(es: seq<BidiEvent>): Option<Bidi> {
    if es == [] then Some(BIDI)
    else match BidiRun(es[..|es| - 1]) case None => None case Some(b) => BidiStep(b, es[|es| - 1])
  }

  ghost predicate BidiInv(b: Bidi) {
    && Q.Inv(b.queue)
    && (b.main.Opening? ==> b.writer.NotSpawned?)
    && (b.main.Over? ==> b.queue.failure.Some?)
    && (b.main.Over? || b.main.Throwing? || b.main.Closing? ==> b.writer.NotSpawned? || b.writer.WriterDone?)
  }

  lemma BidiKeeps(b: Bidi, e: BidiEvent)
    requires BidiInv(b) && BidiStep(b, e).Some?
    ensures BidiInv(BidiStep(b, e).value)
  {
    match e
    case BidiOutside(q) => FailSticks(b.queue, q);
    case BidiLoop(q) => FailSticks(b.queue, q);
    case FailOnRead => FailSticks(b.queue, Q.FailQueue(b.main.error));
    case CloseQueue => FailSticks(b.queue, Q.CloseQueue);
    case CloseStream => FailSticks(b.queue, Q.FailQueue(STREAM_CLOSED));
    case FailAndThrow => FailSticks(b.queue, Q.FailQueue(b.main.error));
    case PopThrew(error) => FailSticks(b.queue, Q.PopperThrown);
    case WriterFails => FailSticks(b.queue, Q.FailQueue(b.writer.error));
    case _ =>
  }

  lemma {:induction false} BidiReachable(es: seq<BidiEvent>)
    ensures BidiRun(es).Some? ==> BidiInv(BidiRun(es).value)
  {
    if es != [] {
      BidiReachable(es[..|es| - 1]);
      if BidiRun(es).Some? {
        BidiKeeps(BidiRun(es[..|es| - 1]).value, es[|es| - 1]);
      }
    }
  }

  // ---- Main results ----

  /** Nobody can be left waiting on this queue: every accepted write has an outcome or its completion is a
      pending task that will give it one, and no push is accepted any more. */
  ghost predicate NobodyWaits(q: Q.State) {
    && (forall w :: w in q.accepted && w !in q.outcomes ==>
          exists task :: task in q.tasks && task.Finish? && task.write == w)
    && (q.tasks == {} ==> forall w :: w in q.accepted ==> w in q.outcomes)
    && (forall w :: Q.Push(q, w) == q)
  }

  lemma FailedQueueLeavesNobody(q: Q.State)
    requires Q.Inv(q) && q.failure.Some?
    ensures NobodyWaits(q)
  {
    forall w | w in q.accepted && w !in q.outcomes
      ensures exists task :: task in q.tasks && task.Finish? && task.write == w
    {
      assert Q.Accounted(q, w);
      assert Q.Finish(w, q.failure.value) in q.tasks;
    }
  }

  lemma UnservedQueueExactly(q: Q.State)
    requires Q.Inv(q) && Unserved(q)
    ensures NobodyWaits(q) <==> q.failure.Some? || (q.closed && q.accepted == [])
  {
    if q.failure.Some? {
      FailedQueueLeavesNobody(q);
    } else if !q.closed {
      assert Q.Push(q, 0).accepted == q.accepted + [0];
    } else if q.accepted != [] {
      assert q.accepted[0] in q.accepted;
    }
  }

  /** When `RunClientStreamingClient` has left its try blocks, by whatever path, no caller keeps waiting. When it
      threw before them, nobody waits exactly if somebody else failed the queue, or closed it before any push. */
  lemma {:induction false} ClientRunnerLeavesNobodyWaiting(es: seq<ClientEvent>)
    requires ClientRun(es).Some? && (ClientRun(es).value.pc.Ended? || ClientRun(es).value.pc.Abandoned?)
    ensures var c := ClientRun(es).value;
            && (NobodyWaits(c.queue) <==>
                  c.pc.Ended? || c.queue.failure.Some? || (c.queue.closed && c.queue.accepted == []))
            && (c.pc.Abandoned? && c.queue.failure.None? ==> c.queue.outcomes == map[])
  {
    ClientReachable(es);
    var c := ClientRun(es).value;
    if c.pc.Ended? {
      FailedQueueLeavesNobody(c.queue);
    } else {
      UnservedQueueExactly(c.queue);
    }
  }

  /** A push before a setup that throws: the write is accepted, and no outcome and no task is left for it. */
  const SETUP_THROWS := [FromOutside(Q.PushWrite(1)), SetupThrew]

  lemma SetupThrowStrandsCaller()
    ensures ClientRun(SETUP_THROWS).Some?
    ensures var c := ClientRun(SETUP_THROWS).value;
            && c.pc.Abandoned? && c.queue.accepted == [1] && 1 !in c.queue.outcomes && c.queue.tasks == {}
  {
    assert ClientRun([]) == Some(CLIENT);
    assert SETUP_THROWS[..1] == [FromOutside(Q.PushWrite(1))] && SETUP_THROWS[..1][..0] == [];
    assert ClientRun(SETUP_THROWS[..1]) == ClientStep(CLIENT, FromOutside(Q.PushWrite(1)));
  }

  /** The same for the bidirectional runner, which moreover never ends before its writer coroutine. */
  lemma {:induction false} BidiRunnerLeavesNobodyWaiting(es: seq<BidiEvent>)
    requires BidiRun(es).Some? && BidiRun(es).value.main.Over?
    ensures NobodyWaits(BidiRun(es).value.queue)
    ensures BidiRun(es).value.writer.NotSpawned? || BidiRun(es).value.writer.WriterDone?
  {
    BidiReachable(es);
    FailedQueueLeavesNobody(BidiRun(es).value.queue);
  }
}
