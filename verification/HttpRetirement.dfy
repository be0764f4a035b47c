/** Retirement of a request in the HTTP source: result callbacks admitted by the `readers` gate race with
    cancellation of the result wait, with completion (`done`) and with `endRequest`. */
module HttpRetirements {
  import opened Options
  import G = Gates
  import W = Words
  import P = PackedGates
  import opened Completions

  /** The `consumeResult` calls: `found` have looked the request up, `inside` have passed the gate, of those
      `tested` have looked again, and of those `calling` run their callback. */
  datatype Readers = Readers(gate: G.Gate, found: set<nat>, inside: set<nat>, tested: set<nat>, calling: set<nat>)

  datatype Failure = NoError | ConsumeFailed | WaitFailed

  /** The request's own thread. `Judging` lies between its two looks at the completion. */
  datatype Stage =
    | Consuming
    | Waiting
    | Retiring(failure: Failure)
    | Barrier(failure: Failure)
    | Settling(failure: Failure)
    | Judging(failure: Failure)
    | Ending(failure: Failure)
    | Over(failure: Failure)

  /** `mapped` says whether the stream id still leads to this request. */
  datatype State = State(readers: Readers, done: Completion, mapped: bool, cancelled: bool, stage: Stage)

  const INITIAL := State(Readers(G.OPEN, {}, {}, {}, {}), PENDING, true, false, Consuming)

  datatype ReaderEvent =
    | LookUp(reader: nat)
    | Enter(reader: nat)
    | Retest(reader: nat, registered: bool)
    | Return(reader: nat)
    | Leave(reader: nat)
    | Notify

  datatype OwnerEvent =
    | Consumed(throws: bool)
    | WaitEnds(throws: bool)
    | Retire
    | PassBarrier
    | Settle
    | Judge
    | EndReturns

  datatype Event =
    | Read(step: ReaderEvent)
    | Own(move: OwnerEvent)
    | Signal(who: Sender)
    | Send
    | Evict
    | CancelContext

  /** What a result thread does; `busy` is the one about to send the event. */
  function ReaderStep(q: Readers, mapped: bool, busy: Sender, e: ReaderEvent): Option<Readers> {
    match e
    case LookUp(r) =>
      if r in q.found || r in q.inside then None else Some(if mapped then q.(found := q.found + {r}) else q)
    case Enter(r) =>
      if r !in q.found || r in q.inside then None
      else if q.gate.closed then Some(q.(found := q.found - {r}))
      else Some(q.(found := q.found - {r}, gate := G.Admit(q.gate), inside := q.inside + {r}))
    case Retest(r, registered) =>
      if r !in q.inside || r in q.tested then None
      else Some(q.(tested := q.tested + {r}, calling := if mapped && registered then q.calling + {r} else q.calling))
    case Return(r) => if r !in q.calling || busy == ByReader(r) then None else Some(q.(calling := q.calling - {r}))
    case Leave(r) =>
      if r !in q.tested || r in q.calling || q.gate.count == 0 then None
      else Some(q.(gate := G.Leave(q.gate), inside := q.inside - {r}, tested := q.tested - {r}))
    case Notify => if q.gate.owed == 0 then None else Some(q.(gate := G.Signal(q.gate)))
  }

  /** May this thread call `done` now? */
  predicate MaySignal(s: State, who: Sender) {
    match who
    case NoSender => false
    case ByReader(r) => r in s.readers.calling
    case ByOwner => s.stage == Consuming
    case ByOutsider => true
  }

  /** The lock region of `retire`, which passes at once when nobody is inside. */
  function Retired(g: G.Gate): G.Gate {
    var shut := G.Shut(g);
    if g.count == 0 && shut.owed > 0 then G.Signal(shut) else shut
  }

  /** Where the request's thread goes next. */
  function OwnerStep(stage: Stage, d: Completion, cancelled: bool, drained: bool, e: OwnerEvent): Option<Stage> {
    match e
    case Consumed(throws) =>
      if stage != Consuming || d.sender == ByOwner then None
      else Some(if throws then Retiring(ConsumeFailed) else Waiting)
    case WaitEnds(throws) =>
      if stage != Waiting || (throws && !cancelled) || (!d.ready && !cancelled) then None
      else Some(Retiring(if throws || !d.ready then WaitFailed else NoError))
    case Retire => if stage.Retiring? then Some(Barrier(stage.failure)) else None
    case PassBarrier => if stage.Barrier? && drained then Some(Settling(stage.failure)) else None
    case Settle =>
      if !stage.Settling? then None
      else Some(Judging(if stage.failure == WaitFailed && d.winner != Nobody then NoError else stage.failure))
    case Judge =>
      if !stage.Judging? then None
      else Some(Ending(if stage.failure == NoError && !d.ready then WaitFailed else stage.failure))
    case EndReturns => if stage.Ending? then Some(Over(stage.failure)) else None
  }

  function Step(s: State, e: Event): Option<State> {
    match e
    case Read(step) =>
      (match ReaderStep(s.readers, s.mapped, s.done.sender, step)
       case None => None
       case Some(q) => Some(s.(readers := q)))
    case Own(move) =>
      (match OwnerStep(s.stage, s.done, s.cancelled, s.readers.gate.sent > 0, move)
       case None => None
       case Some(stage) =>
         Some(s.(stage := stage, mapped := s.mapped && !move.Settle?,
                 readers := if move.Retire? then s.readers.(gate := Retired(s.readers.gate)) else s.readers)))
    case Signal(who) =>
      if MaySignal(s, who) && s.done.sender != who then Some(s.(done := Exchange(s.done, who))) else None
    case Send => if s.done.sender == NoSender then None else Some(s.(done := Sent(s.done)))
    case Evict => Some(s.(mapped := false))
    case CancelContext => Some(s.(cancelled := true))
  }

  function Run(es: seq<Event>): Option<State> {
    if es == [] then Some(INITIAL)
    else match Run(es[..|es| - 1]) case None => None case Some(s) => Step(s, es[|es| - 1])
  }

  // ---- Invariant ----

  predicate BeforeRetire(stage: Stage) { stage.Consuming? || stage.Waiting? || stage.Retiring? }

  predicate AfterBarrier(stage: Stage) { stage.Settling? || stage.Judging? || stage.Ending? || stage.Over? }

  ghost predicate Gated(q: Readers) {
    && q.calling <= q.tested <= q.inside
    && q.gate.count == |q.inside|
    && G.Sound(q.gate)
  }

  predicate Placed(stage: Stage, g: G.Gate) {
    && (g.closed <==> !BeforeRetire(stage))
    && (AfterBarrier(stage) ==> g.sent > 0)
  }

  /** Whoever is about to send the event is still where it called `done`. */
  predicate Completes(s: State) {
    && Consistent(s.done)
    && (s.done.sender.ByReader? ==> s.done.sender.reader in s.readers.calling)
    && (s.done.sender == ByOwner ==> s.stage == Consuming)
  }

  /** What the failure recorded so far says. */
  predicate Recorded(stage: Stage, d: Completion) {
    match stage
    case Consuming => true
    case Waiting => true
    case Retiring(f) => f == NoError ==> d.ready
    case Barrier(f) => f == NoError ==> d.ready
    case Settling(f) => f == NoError ==> d.ready
    case Judging(f) => (f == NoError ==> d.winner != Nobody) && (f == WaitFailed ==> !d.called)
    case Ending(f) => (f == NoError ==> d.ready) && (f == WaitFailed ==> d.winner != Inside)
    case Over(f) => (f == NoError ==> d.ready) && (f == WaitFailed ==> d.winner != Inside)
  }

  ghost predicate Inv(s: State) {
    Gated(s.readers) && Placed(s.stage, s.readers.gate) && Completes(s) && Recorded(s.stage, s.done)
  }

  lemma ReaderKeeps(q: Readers, mapped: bool, busy: Sender, e: ReaderEvent)
    requires Gated(q) && ReaderStep(q, mapped, busy, e).Some?
    ensures var t := ReaderStep(q, mapped, busy, e).value;
            && Gated(t) && t.gate.closed == q.gate.closed && t.gate.sent >= q.gate.sent
            && (busy.ByReader? && busy.reader in q.calling ==> busy.reader in t.calling)
  {
    G.SoundSteps(q.gate);
  }

  lemma NobodyInside(s: State)
    requires Gated(s.readers) && s.readers.gate.sent > 0
    ensures s.readers.inside == {} && s.readers.calling == {}
  {}

  lemma OwnerKeeps(s: State, e: OwnerEvent)
    requires Inv(s) && Step(s, Own(e)).Some?
    ensures Inv(Step(s, Own(e)).value)
  {
    if s.readers.gate.sent > 0 {
      NobodyInside(s);
    }
    G.SoundSteps(s.readers.gate);
  }

  lemma StepKeeps(s: State, e: Event)
    requires Inv(s) && Step(s, e).Some?
    ensures Inv(Step(s, e).value)
  {
    match e
    case Read(step) => ReaderKeeps(s.readers, s.mapped, s.done.sender, step);
    case Own(move) => OwnerKeeps(s, move);
    case Signal(who) =>
      if s.readers.gate.sent > 0 {
        NobodyInside(s);
      }
    case Send =>
    case Evict =>
    case CancelContext =>
  }

  lemma {:induction false} Reachable(es: seq<Event>)
    ensures Run(es).Some? ==> Inv(Run(es).value)
  {
    if es != [] {
      Reachable(es[..|es| - 1]);
      if Run(es).Some? {
        StepKeeps(Run(es[..|es| - 1]).value, es[|es| - 1]);
      }
    }
  }

  // ---- Main results ----

  lemma StageMovesOn(s: State, e: Event)
    requires Step(s, e).Some? && AfterBarrier(s.stage)
    ensures AfterBarrier(Step(s, e).value.stage)
  {}

  /** Past the barrier no callback is running, and none starts in any continuation; so `endRequest` runs alone. */
  lemma {:induction false} NoCallbackAfterBarrier(es: seq<Event>, fs: seq<Event>)
    requires Run(es + fs).Some? && Run(es).Some? && AfterBarrier(Run(es).value.stage)
    ensures AfterBarrier(Run(es + fs).value.stage) && Run(es + fs).value.readers.inside == {}
  {
    if fs == [] {
      assert es + fs == es;
    } else {
      assert (es + fs)[..|es + fs| - 1] == es + fs[..|fs| - 1];
      NoCallbackAfterBarrier(es, fs[..|fs| - 1]);
      StageMovesOn(Run(es + fs[..|fs| - 1]).value, fs[|fs| - 1]);
    }
    Reachable(es + fs);
    NobodyInside(Run(es + fs).value);
  }

  lemma ParkedMeansPending(s: State)
    requires Inv(s) && s.stage.Barrier? && s.readers.gate.sent == 0
    ensures s.readers.inside != {} || s.readers.gate.owed == 1
  {}

  /** The barrier is not missed: a thread parked on it has readers inside, or a notification on its way. */
  lemma {:induction false} BarrierIsReached(es: seq<Event>)
    requires Run(es).Some? && Run(es).value.stage.Barrier? && Run(es).value.readers.gate.sent == 0
    ensures Run(es).value.readers.inside != {} || Run(es).value.readers.gate.owed == 1
  {
    Reachable(es);
    ParkedMeansPending(Run(es).value);
  }

  /** A completion signalled by a callback, or by the request's own handler, wins over cancellation: when it won
      the exchange, the request can only end without error or with the error of its own handler. Without any
      completion it never ends without error. */
  lemma {:induction false} CompletionWins(es: seq<Event>)
    requires Run(es).Some? && (Run(es).value.stage.Ending? || Run(es).value.stage.Over?)
    ensures var s := Run(es).value;
            && (s.done.winner == Inside ==> s.stage.failure != WaitFailed)
            && (s.stage.failure == NoError ==> s.done.winner != Nobody && s.done.ready)
  {
    Reachable(es);
  }

  lemma JudgedStep(s: State)
    requires Inv(s) && s.stage.Judging?
    ensures var t := Step(s, Own(Judge));
            && t.Some? && t.value.stage.Ending?
            && (t.value.stage.failure == NoError <==> s.stage.failure == NoError && s.done.sender != ByOutsider)
            && (s.done.called && s.stage.failure != ConsumeFailed ==>
                 t.value.stage.failure == if s.done.sender == ByOutsider then WaitFailed else NoError)
            && (s.stage.failure == ConsumeFailed ==> t.value.stage.failure == ConsumeFailed)
  {
    NobodyInside(s);
  }

  predicate Judged(stage: Stage) { stage.Ending? || stage.Over? }

  lemma VerdictStep(s: State, e: Event)
    requires Step(s, e).Some? && Judged(s.stage)
    ensures Judged(Step(s, e).value.stage) && Step(s, e).value.stage.failure == s.stage.failure
  {}

  lemma {:induction false} VerdictStays(es: seq<Event>, fs: seq<Event>)
    requires Run(es).Some? && Run(es + fs).Some? && Judged(Run(es).value.stage)
    ensures Judged(Run(es + fs).value.stage) && Run(es + fs).value.stage.failure == Run(es).value.stage.failure
  {
    if fs == [] {
      assert es + fs == es;
    } else {
      assert (es + fs)[..|es + fs| - 1] == es + fs[..|fs| - 1];
      VerdictStays(es, fs[..|fs| - 1]);
      VerdictStep(Run(es + fs[..|fs| - 1]).value, fs[|fs| - 1]);
    }
  }

  /** How a request ends for good, whatever follows its second look at the completion: without error exactly when
      none was left and no outsider stands between its exchange and its send; and when a callback or the
      request's own handler has signalled, it ends as cancelled exactly because of such an outsider. */
  lemma {:induction false} JudgedExactly(es: seq<Event>, fs: seq<Event>)
    requires Run(es).Some? && Run(es).value.stage.Judging? && Run(es + [Own(Judge)] + fs).Some?
    ensures var s, t := Run(es).value, Run(es + [Own(Judge)] + fs).value;
            && Judged(t.stage)
            && (t.stage.failure == NoError <==> s.stage.failure == NoError && s.done.sender != ByOutsider)
            && (s.done.called && s.stage.failure != ConsumeFailed ==>
                 t.stage.failure == if s.done.sender == ByOutsider then WaitFailed else NoError)
  {
    Reachable(es);
    RunOne(es, Own(Judge));
    JudgedStep(Run(es).value);
    VerdictStays(es + [Own(Judge)], fs);
  }

  lemma {:induction false} RunOne(es: seq<Event>, e: Event)
    requires Run(es).Some?
    ensures Run(es + [e]) == Step(Run(es).value, e)
  {
    assert (es + [e])[..|es + [e]| - 1] == es;
  }

  /** A run in which an outsider signals first, an admitted callback then finds the completion already signalled,
      and the request waits in vain because the outsider has not sent the event. */
  const CALLED := [Read(LookUp(0)), Read(Enter(0)), Read(Retest(0, true)), Signal(ByOutsider), Signal(ByReader(0))]
  const LEFT := [Read(Return(0)), Read(Leave(0)), Own(Consumed(false)), CancelContext, Own(WaitEnds(true))]
  const RETIRED := [Own(Retire), Own(PassBarrier), Own(Settle), Own(Judge)]

  /** An outsider spoils the law: here a callback signalled completion, and the request still ends as cancelled. */
  lemma OutsiderSpoilsCompletion()
    ensures Run(CALLED + LEFT + RETIRED).Some?
    ensures Run(CALLED + LEFT + RETIRED).value.stage == Ending(WaitFailed)
    ensures Run(CALLED).Some? && 0 in Run(CALLED).value.readers.calling && Run(CALLED).value.done.called
  {
    RunCalled();
    var a := CALLED + [Read(Return(0))];
    RunOne(CALLED, Read(Return(0)));
    var b := a + [Read(Leave(0))];
    RunOne(a, Read(Leave(0)));
    var c := b + [Own(Consumed(false))];
    RunOne(b, Own(Consumed(false)));
    var d := c + [CancelContext];
    RunOne(c, CancelContext);
    RunOne(d, Own(WaitEnds(true)));
    assert d + [Own(WaitEnds(true))] == CALLED + LEFT;
    RunRetired();
  }

  lemma RunCalled()
    ensures Run(CALLED).Some?
    ensures Run(CALLED).value == State(Readers(G.Gate(1, false, 0, 0), {}, {0}, {0}, {0}),
                                       Completion(Outside, ByOutsider, false, true), true, false, Consuming)
  {
    var n: seq<Event> := [];
    var a := n + [Read(LookUp(0))];
    RunOne(n, Read(LookUp(0)));
    var b := a + [Read(Enter(0))];
    RunOne(a, Read(Enter(0)));
    var c := b + [Read(Retest(0, true))];
    RunOne(b, Read(Retest(0, true)));
    var d := c + [Signal(ByOutsider)];
    RunOne(c, Signal(ByOutsider));
    RunOne(d, Signal(ByReader(0)));
    assert d + [Signal(ByReader(0))] == CALLED;
  }

  lemma RunRetired()
    requires Run(CALLED + LEFT).Some?
    requires var s := Run(CALLED + LEFT).value;
             s.stage == Retiring(WaitFailed) && s.done == Completion(Outside, ByOutsider, false, true)
             && s.readers.gate == G.OPEN
    ensures Run(CALLED + LEFT + RETIRED).Some?
    ensures Run(CALLED + LEFT + RETIRED).value.stage == Ending(WaitFailed)
  {
    var x := CALLED + LEFT;
    var a := x + [Own(Retire)];
    RunOne(x, Own(Retire));
    var b := a + [Own(PassBarrier)];
    RunOne(a, Own(PassBarrier));
    var c := b + [Own(Settle)];
    RunOne(b, Own(Settle));
    RunOne(c, Own(Judge));
    assert c + [Own(Judge)] == x + RETIRED;
  }

  /** The `readers` word of a pending result. */
  class ReaderGate {
    var readers: W.Word

    ghost function Count(): nat
      reads this
    {
      W.CountOf(readers)
    }

    constructor ()
      ensures readers == 0
    {
      readers := 0;
    }

    /** Admitted exactly while not retired. */
    method Enter() returns (ok: bool)
      requires Count() < W.BIT63 - 1
      modifies this
      ensures ok <==> !W.HasBit(old(readers))
      ensures W.HasBit(readers) == W.HasBit(old(readers)) && Count() == old(Count()) + if ok then 1 else 0
    {
      if W.HasBit(readers) {
        return false;
      }
      P.EnterRefinesIffRoom(readers, G.Gate(Count(), false, 0, 0));
      readers := W.Increment(readers);
      return true;
    }

    /** The last one to leave a retired result notifies, nobody else. */
    method Leave() returns (notify: bool)
      requires Count() > 0
      modifies this
      ensures W.HasBit(readers) == W.HasBit(old(readers)) && Count() == old(Count()) - 1
      ensures notify <==> W.HasBit(readers) && Count() == 0
    {
      P.LeaveRefines(readers, G.Gate(Count(), W.HasBit(readers), 0, 0));
      notify := readers == W.BIT63 + 1;
      readers := W.Decrement(readers);
    }

    /** Retirement waits exactly when somebody is inside. */
    method Retire() returns (wait: bool)
      requires !W.HasBit(readers)
      modifies this
      ensures W.HasBit(readers) && Count() == old(Count())
      ensures wait <==> Count() > 0
    {
      P.CloseRefines(readers, G.Gate(Count(), false, 0, 0));
      wait := readers != 0;
      readers := W.SetBit(readers);
    }
  }
}
