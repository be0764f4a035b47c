/** An asynchronous client-streaming session: messages are consumed under the shared side of the
    handler mutex, the single response is handled under its exclusive side, and the session ends
    through the common lifetime. The mutex is the machine of `SharedMutexes`, driven by the calls
    of the session; a thread goes on only once the mutex made it an owner and woke it. */
module ClientStreamingSessions {
  import opened Options
  import opened SessionLifetimes
  import F = MutexFairness
  import M = SharedMutexes

  /** A delivery: admitted, inside `lock_shared`, consuming, past its unlock. */
  datatype MessagePhase = Admitted | Queueing | Consuming | Consumed

  /** A response: posted, past the readiness test, inside `lock`, in the handler, returning at once because it is
      not the first, throwing out of the handler, about to leave. */
  datatype ResponsePhase = Posted | Ready | Locking | Handling | Passing | Throwing | Leaving

  /** Every delivery and every response has an identity of its own, collected in `seen`. */
  datatype Actors = Actors(seen: set<nat>, messages: map<nat, MessagePhase>, responses: map<nat, ResponsePhase>)

  /** `failing`: creation failed and its `finishAsync` has not been called yet. */
  datatype Flags = Flags(ready: bool, failed: bool, failing: bool, responded: bool, error: Option<nat>,
                         handled: seq<nat>)

  datatype State = State(life: Life, flags: Flags, mutex: M.State, actors: Actors)

  const INITIAL := State(Enter(BORN, Creation), Flags(false, false, false, false, None, []), M.INITIAL,
                         Actors({}, map[], map[]))

  datatype Event =
    | OpenMessage(id: nat)
    | LockShared(id: nat)
    | StartConsuming(id: nat)
    | FinishConsuming(id: nat)
    | CloseMessage(id: nat)
    | MarkReady(failed: bool)
    | FailCreation
    | CreationReturns
    | ArriveResponse(id: nat)
    | ResponseReady(id: nat)
    | LockExclusive(id: nat)
    | EnterHandler(id: nat)
    | LeaveHandler(id: nat, throws: bool)
    | FinishSession(id: nat)
    | CloseResponse(id: nat)
    | WakeOwner(id: nat)
    | TransportDone
    | SignalDrained
    | RunFinalize

  predicate MessageAt(a: Actors, m: nat, phase: MessagePhase) { m in a.messages && a.messages[m] == phase }

  predicate ResponseAt(a: Actors, r: nat, phase: ResponsePhase) { r in a.responses && a.responses[r] == phase }

  function ToMessage(a: Actors, m: nat, from: MessagePhase, to: MessagePhase): Option<Actors> {
    if MessageAt(a, m, from) then Some(a.(messages := a.messages[m := to])) else None
  }

  function ToResponse(a: Actors, r: nat, from: ResponsePhase, to: ResponsePhase): Option<Actors> {
    if ResponseAt(a, r, from) then Some(a.(responses := a.responses[r := to])) else None
  }

  /** What an event does to the deliveries and responses. */
  function Act(a: Actors, f: Flags, e: Event): Option<Actors> {
    match e
    case OpenMessage(m) =>
      if m in a.seen || !f.ready || f.failed then None
      else Some(a.(seen := a.seen + {m}, messages := a.messages[m := Admitted]))
    case LockShared(m) => ToMessage(a, m, Admitted, Queueing)
    case StartConsuming(m) => ToMessage(a, m, Queueing, Consuming)
    case FinishConsuming(m) => ToMessage(a, m, Consuming, Consumed)
    case CloseMessage(m) => if MessageAt(a, m, Consumed) then Some(a.(messages := a.messages - {m})) else None
    case ArriveResponse(r) =>
      if r in a.seen then None else Some(a.(seen := a.seen + {r}, responses := a.responses[r := Posted]))
    case ResponseReady(r) =>
      if !f.ready then None else ToResponse(a, r, Posted, if f.failed then Leaving else Ready)
    case LockExclusive(r) => ToResponse(a, r, Ready, Locking)
    case EnterHandler(r) => ToResponse(a, r, Locking, if f.responded then Passing else Handling)
    case LeaveHandler(r, throws) =>
      if throws then ToResponse(a, r, Handling, Throwing)
      else if ResponseAt(a, r, Passing) then ToResponse(a, r, Passing, Leaving)
      else ToResponse(a, r, Handling, Leaving)
    case FinishSession(r) => ToResponse(a, r, Throwing, Leaving)
    case CloseResponse(r) => if ResponseAt(a, r, Leaving) then Some(a.(responses := a.responses - {r})) else None
    case _ => Some(a)
  }

  function Flag(f: Flags, e: Event): Option<Flags> {
    match e
    case MarkReady(failed) => if f.ready then None else Some(f.(ready := true, failed := failed, failing := failed))
    case FailCreation => if f.failing then Some(f.(failing := false)) else None
    case CreationReturns => if !f.ready || f.failing then None else Some(f)
    case EnterHandler(r) => Some(if f.responded then f else f.(responded := true, handled := f.handled + [r]))
    case LeaveHandler(r, throws) => Some(if throws && f.error.None? then f.(error := Some(r)) else f)
    case _ => Some(f)
  }

  function Live(l: Life, e: Event): Option<Life> {
    match e
    case OpenMessage(m) =>
      if l.gate.closed || Message(m) in Tokens(l.refs) then None else Some(Enter(l, Message(m)))
    case CloseMessage(m) => Some(Drop(l, Ref(Message(m), Frame)))
    case ArriveResponse(r) =>
      if l.gate.closed || Response(r) in Tokens(l.refs) then None else Some(Enter(l, Response(r)))
    case CloseResponse(r) => Some(Drop(l, Ref(Response(r), Frame)))
    case CreationReturns =>
      if Ref(Creation, Frame) in l.refs then Some(Drop(l, Ref(Creation, Frame))) else None
    case FailCreation => Some(FinishAsync(l))
    case FinishSession(_) => Some(FinishAsync(l))
    case TransportDone => Some(FinishAsync(l))
    case SignalDrained => if l.gate.owed == 0 then None else Some(SendDrained(l))
    case RunFinalize => if !CanFinalize(l) then None else Some(Finalize(l))
    case _ => Some(l)
  }

  /** The call on the mutex that an event makes. */
  function Call(e: Event): Option<M.Event> {
    match e
    case LockShared(m) => Some(M.Lock(m, false))
    case FinishConsuming(m) => Some(M.Unlock(m))
    case LockExclusive(r) => Some(M.Lock(r, true))
    case LeaveHandler(r, _) => Some(M.Unlock(r))
    case WakeOwner(id) => Some(M.Wake(id))
    case _ => None
  }

  /** The mutex moves, or lets a call return that owns its side and was woken. */
  function OnMutex(x: M.State, e: Event): Option<M.State> {
    if Call(e).Some? then M.Step(x, Call(e).value)
    else if e.StartConsuming? && !M.HoldsShared(x, e.id) then None
    else if e.EnterHandler? && !M.HoldsExclusive(x, e.id) then None
    else Some(x)
  }

  function Step(s: State, e: Event): Option<State> {
    var a, f, l, x := Act(s.actors, s.flags, e), Flag(s.flags, e), Live(s.life, e), OnMutex(s.mutex, e);
    if a.None? || f.None? || l.None? || x.None? then None else Some(State(l.value, f.value, x.value, a.value))
  }

  function Run(es: seq<Event>): Option<State> {
    if es == [] then Some(INITIAL)
    else match Run(es[..|es| - 1]) case None => None case Some(s) => Step(s, es[|es| - 1])
  }

  // ---- Invariant ----

  ghost predicate Covered(a: Actors, l: Life) {
    && (forall m :: m in a.messages ==> Ref(Message(m), Frame) in l.refs)
    && (forall r :: r in a.responses ==> Ref(Response(r), Frame) in l.refs)
  }

  predicate WantsShared(a: Actors, m: nat) { MessageAt(a, m, Queueing) || MessageAt(a, m, Consuming) }

  predicate Inside(a: Actors, r: nat) { ResponseAt(a, r, Handling) || ResponseAt(a, r, Passing) }

  predicate WantsExclusive(a: Actors, r: nat) { ResponseAt(a, r, Locking) || Inside(a, r) }

  predicate Newcomer(a: Actors, x: nat) {
    MessageAt(a, x, Admitted) || ResponseAt(a, x, Posted) || ResponseAt(a, x, Ready)
  }

  /** The mutex knows exactly the calls that are inside it. */
  ghost predicate Asking(a: Actors, x: M.State) {
    && (forall i :: M.Asked(x, i, false) <==> WantsShared(a, i))
    && (forall i :: M.Asked(x, i, true) <==> WantsExclusive(a, i))
  }

  /** Whoever consumes or handles holds its side of the mutex. */
  ghost predicate Owning(a: Actors, x: M.State) {
    && (forall m :: MessageAt(a, m, Consuming) ==> M.HoldsShared(x, m))
    && (forall r :: Inside(a, r) ==> M.HoldsExclusive(x, r))
  }

  ghost predicate Separate(a: Actors) {
    a.messages.Keys + a.responses.Keys <= a.seen && a.messages.Keys !! a.responses.Keys
  }

  ghost predicate Known(a: Actors, x: M.State) {
    && (forall i :: i in x.arrivals ==> i in a.seen)
    && (forall i :: Newcomer(a, i) ==> i !in x.arrivals)
  }

  ghost predicate AtMostOne(a: Actors, f: Flags) {
    && |f.handled| == (if f.responded then 1 else 0)
    && (f.failed ==> f.handled == [])
    && (!f.ready ==> !f.failed && f.handled == [] && forall r :: r in a.responses ==> a.responses[r].Posted?)
    && (f.failed ==> forall r :: r in a.responses ==> a.responses[r].Posted? || a.responses[r].Leaving?)
  }

  ghost predicate Inv(s: State) {
    && Valid(s.life) && Covered(s.actors, s.life)
    && M.Inv(s.mutex) && Asking(s.actors, s.mutex) && Owning(s.actors, s.mutex)
    && Separate(s.actors) && Known(s.actors, s.mutex) && AtMostOne(s.actors, s.flags)
  }

  lemma LifeKeeps(l: Life, e: Event)
    requires Valid(l) && Live(l, e).Some?
    ensures Valid(Live(l, e).value)
  {
    FinishKeeps(l);
    match e
    case OpenMessage(m) => EnterKeeps(l, Message(m));
    case CloseMessage(m) => DropKeeps(l, Ref(Message(m), Frame));
    case CreationReturns => DropKeeps(l, Ref(Creation, Frame));
    case ArriveResponse(r) => EnterKeeps(l, Response(r));
    case CloseResponse(r) => DropKeeps(l, Ref(Response(r), Frame));
    case _ =>
  }

  lemma CoveredKeeps(a: Actors, f: Flags, l: Life, e: Event)
    requires Separate(a) && Covered(a, l) && Act(a, f, e).Some? && Live(l, e).Some?
    ensures Covered(Act(a, f, e).value, Live(l, e).value)
  {}

  lemma AtMostOneKeeps(a: Actors, f: Flags, e: Event)
    requires AtMostOne(a, f) && Act(a, f, e).Some? && Flag(f, e).Some?
    ensures AtMostOne(Act(a, f, e).value, Flag(f, e).value)
  {}

  lemma SeparateKeeps(a: Actors, f: Flags, e: Event)
    requires Separate(a) && Act(a, f, e).Some?
    ensures Separate(Act(a, f, e).value) && a.seen <= Act(a, f, e).value.seen
  {}

  /** The wishes of the actors change exactly with their calls on the mutex. */
  lemma WishesMove(a: Actors, f: Flags, e: Event, i: nat)
    requires Separate(a) && Act(a, f, e).Some?
    ensures WantsShared(Act(a, f, e).value, i) <==>
            (WantsShared(a, i) && Call(e) != Some(M.Unlock(i))) || Call(e) == Some(M.Lock(i, false))
    ensures WantsExclusive(Act(a, f, e).value, i) <==>
            (WantsExclusive(a, i) && Call(e) != Some(M.Unlock(i))) || Call(e) == Some(M.Lock(i, true))
  {}

  lemma AskingKeeps(a: Actors, f: Flags, x: M.State, e: Event)
    requires Separate(a) && M.Inv(x) && Asking(a, x) && Act(a, f, e).Some? && OnMutex(x, e).Some?
    ensures Asking(Act(a, f, e).value, OnMutex(x, e).value)
  {
    var b, y := Act(a, f, e).value, OnMutex(x, e).value;
    forall i ensures M.Asked(y, i, false) <==> WantsShared(b, i) {
      WishesMove(a, f, e, i);
      if Call(e).Some? {
        M.AskedExactly(x, Call(e).value, i, false);
      }
    }
    forall i ensures M.Asked(y, i, true) <==> WantsExclusive(b, i) {
      WishesMove(a, f, e, i);
      if Call(e).Some? {
        M.AskedExactly(x, Call(e).value, i, true);
      }
    }
  }

  /** Who uses its side afterwards used it before or is let in now, and is not the one that unlocks. */
  lemma UsersMove(a: Actors, f: Flags, e: Event, i: nat)
    requires Separate(a) && Act(a, f, e).Some?
    ensures MessageAt(Act(a, f, e).value, i, Consuming) ==>
              (MessageAt(a, i, Consuming) || e == StartConsuming(i)) && Call(e) != Some(M.Unlock(i))
    ensures Inside(Act(a, f, e).value, i) ==>
              (Inside(a, i) || e == EnterHandler(i)) && Call(e) != Some(M.Unlock(i))
  {}

  lemma OwningKeeps(a: Actors, f: Flags, x: M.State, e: Event)
    requires Separate(a) && M.Inv(x) && Owning(a, x) && Act(a, f, e).Some? && OnMutex(x, e).Some?
    ensures Owning(Act(a, f, e).value, OnMutex(x, e).value)
  {
    var b, y := Act(a, f, e).value, OnMutex(x, e).value;
    forall i | MessageAt(b, i, Consuming) || Inside(b, i)
      ensures (MessageAt(b, i, Consuming) ==> M.HoldsShared(y, i)) && (Inside(b, i) ==> M.HoldsExclusive(y, i))
    {
      UsersMove(a, f, e, i);
      if Call(e).Some? {
        M.HoldersStay(x, Call(e).value, i);
      }
    }
  }

  /** Who has not called the mutex yet does not call it now, and who calls it is known. */
  lemma NewcomersMove(a: Actors, f: Flags, e: Event, i: nat)
    requires Separate(a) && Act(a, f, e).Some?
    ensures Newcomer(Act(a, f, e).value, i) ==>
              (Newcomer(a, i) || i !in a.seen) && Call(e) != Some(M.Lock(i, false)) && Call(e) != Some(M.Lock(i, true))
    ensures Call(e) == Some(M.Lock(i, false)) || Call(e) == Some(M.Lock(i, true)) ==> i in a.seen
  {}

  lemma KnownKeeps(a: Actors, f: Flags, x: M.State, e: Event)
    requires Separate(a) && M.Inv(x) && Known(a, x) && Act(a, f, e).Some? && OnMutex(x, e).Some?
    ensures Known(Act(a, f, e).value, OnMutex(x, e).value)
  {
    var b, y := Act(a, f, e).value, OnMutex(x, e).value;
    SeparateKeeps(a, f, e);
    forall i ensures (i in y.arrivals ==> i in b.seen) && (Newcomer(b, i) ==> i !in y.arrivals) {
      NewcomersMove(a, f, e, i);
      if Call(e).Some? {
        M.ArrivalsExactly(x, Call(e).value, i);
      }
    }
  }

  lemma StepKeeps(s: State, e: Event)
    requires Inv(s) && Step(s, e).Some?
    ensures Inv(Step(s, e).value)
  {
    LifeKeeps(s.life, e);
    CoveredKeeps(s.actors, s.flags, s.life, e);
    AtMostOneKeeps(s.actors, s.flags, e);
    SeparateKeeps(s.actors, s.flags, e);
    AskingKeeps(s.actors, s.flags, s.mutex, e);
    OwningKeeps(s.actors, s.flags, s.mutex, e);
    KnownKeeps(s.actors, s.flags, s.mutex, e);
    if Call(e).Some? {
      M.StepKeeps(s.mutex, Call(e).value);
    }
  }

  lemma FreshActors(a: Actors, x: M.State, f: Flags)
    requires a == Actors({}, map[], map[]) && x == M.INITIAL && f == Flags(false, false, false, false, None, [])
    ensures M.Inv(x) && Asking(a, x) && Owning(a, x) && Separate(a) && Known(a, x) && AtMostOne(a, f)
  {
    M.FreshMutex(x);
  }

  lemma FreshLife(a: Actors, l: Life)
    requires a == Actors({}, map[], map[]) && l == Enter(BORN, Creation)
    ensures Valid(l) && Covered(a, l)
  {
    assert Tokens(l.refs) == {Creation};
  }

  lemma {:induction false} Reachable(es: seq<Event>)
    ensures Run(es).Some? ==> Inv(Run(es).value)
  {
    if es == [] {
      FreshActors(INITIAL.actors, INITIAL.mutex, INITIAL.flags);
      FreshLife(INITIAL.actors, INITIAL.life);
    } else {
      Reachable(es[..|es| - 1]);
      if Run(es).Some? {
        StepKeeps(Run(es[..|es| - 1]).value, es[|es| - 1]);
      }
    }
  }

  // ---- Main results ----

  /** `handleResponse` runs at most once, never for a session whose creation failed, and never while a
      message is being consumed: the mutex would have two owners. */
  lemma {:induction false} ResponseHandledOnceAndAlone(es: seq<Event>)
    requires Run(es).Some?
    ensures var s := Run(es).value;
            && |s.flags.handled| <= 1
            && (s.flags.failed ==> s.flags.handled == [])
            && forall r, m :: ResponseAt(s.actors, r, Handling) ==> !MessageAt(s.actors, m, Consuming)
  {
    Reachable(es);
    var s := Run(es).value;
    forall r, m | ResponseAt(s.actors, r, Handling) ensures !MessageAt(s.actors, m, Consuming) {
      M.HeldAlone(s.mutex, r, m);
    }
  }

  /** Can this owner of the mutex take its next step? */
  predicate GoesOn(s: State, id: nat) {
    || Step(s, WakeOwner(id)).Some? || Step(s, StartConsuming(id)).Some? || Step(s, FinishConsuming(id)).Some?
    || Step(s, EnterHandler(id)).Some? || Step(s, LeaveHandler(id, false)).Some?
  }

  lemma WokenReader(s: State, id: nat)
    requires M.HoldsShared(s.mutex, id) && WantsShared(s.actors, id)
    ensures Step(s, StartConsuming(id)).Some? || Step(s, FinishConsuming(id)).Some?
  {
    if MessageAt(s.actors, id, Queueing) {
      assert Step(s, StartConsuming(id)).Some?;
    } else {
      assert Step(s, FinishConsuming(id)).Some?;
    }
  }

  lemma WriterEnters(s: State, id: nat)
    requires M.HoldsExclusive(s.mutex, id) && ResponseAt(s.actors, id, Locking)
    ensures Step(s, EnterHandler(id)).Some?
  {}

  lemma WriterLeaves(s: State, id: nat)
    requires M.HoldsExclusive(s.mutex, id) && Inside(s.actors, id)
    ensures Step(s, LeaveHandler(id, false)).Some?
  {}

  lemma WokenWriter(s: State, id: nat)
    requires M.HoldsExclusive(s.mutex, id) && WantsExclusive(s.actors, id)
    ensures Step(s, EnterHandler(id)).Some? || Step(s, LeaveHandler(id, false)).Some?
  {
    if ResponseAt(s.actors, id, Locking) {
      WriterEnters(s, id);
    } else {
      WriterLeaves(s, id);
    }
  }

  lemma OwnerGoesOn(s: State, id: nat)
    requires Inv(s) && id in s.mutex.reading + s.mutex.writing
    ensures GoesOn(s, id)
  {
    if id in s.mutex.unsent {
      assert Step(s, WakeOwner(id)).Some?;
    } else if id in s.mutex.reading {
      assert M.Asked(s.mutex, id, false);
      WokenReader(s, id);
    } else {
      assert M.Asked(s.mutex, id, true);
      WokenWriter(s, id);
    }
  }

  /** Whoever waits for the mutex waits for an owner of it that can go on: itself, once it was made one, or an earlier
      delivery or response of this session. */
  lemma {:induction false} NobodyWaitsForTheMutexForever(es: seq<Event>, i: nat) returns (owner: nat)
    requires Run(es).Some?
    requires var a := Run(es).value.actors; MessageAt(a, i, Queueing) || ResponseAt(a, i, Locking)
    ensures var x := Run(es).value.mutex; owner in x.reading + x.writing && (owner == i || owner in F.Ahead(x, i))
    ensures GoesOn(Run(es).value, owner)
  {
    Reachable(es);
    var s := Run(es).value;
    assert M.Asked(s.mutex, i, ResponseAt(s.actors, i, Locking)) by {
      assert WantsShared(s.actors, i) || WantsExclusive(s.actors, i);
    }
    owner := F.OwnerInFront(s.mutex, i, ResponseAt(s.actors, i, Locking));
    OwnerGoesOn(s, owner);
  }

  /** `endRequest` runs at most once, and then no message and no response is inside the session, and none can
      enter any more. */
  lemma {:induction false} EndRequestComesLast(es: seq<Event>)
    requires Run(es).Some?
    ensures var s := Run(es).value;
            && s.life.ended <= 1
            && (s.life.ended == 1 ==> s.actors.messages == map[] && s.actors.responses == map[] && s.life.gate.closed)
  {
    Reachable(es);
    var s := Run(es).value;
    EndsOnceAndLast(s.life);
  }
}
