/** Retirement in the gRPC source: callbacks run under the shared side of a lifetime mutex, `finish` takes the
    exclusive side; `pendingInserted` is tested before and after the lock is taken. The mutex is the machine of
    `SharedMutexes`; a thread goes on only once the mutex made it an owner and woke it. */
module GrpcRetirements {
  import opened Options
  import opened Completions
  import F = MutexFairness
  import M = SharedMutexes

  /** A `consumeResult` call: found in the map, past the first test, inside `lock_shared`, holding its side, in its
      callback, about to unlock. */
  datatype Phase = Found | Tested | Queued | Locked | Calling | Leaving

  /** Every call has an identity of its own, collected in `seen`; 0 stands for the thread in `finish`. */
  datatype Calls = Calls(seen: set<nat>, phases: map<nat, Phase>)

  datatype Failure = NoError | OtherError | WaitFailed

  /** The thread in `finish`: on its way, inside `lock`, deciding, in `endRequest`, past it, through. */
  datatype Stage =
    | Serving
    | Finishing(failure: Failure)
    | Locking(failure: Failure)
    | Deciding(failure: Failure)
    | Ending(failure: Failure)
    | Closing(failure: Failure)
    | Over(failure: Failure)

  /** `inserted` is the flag `pendingInserted`, `mapped` the entry in the map. */
  datatype State = State(calls: Calls, done: Completion, inserted: bool, mapped: bool, cancelled: bool,
                         stage: Stage, mutex: M.State)

  const INITIAL := State(Calls({}, map[]), PENDING, true, true, false, Serving, M.INITIAL)

  datatype Event =
    | LookUp(call: nat)
    | Test(call: nat)
    | LockShared(call: nat)
    | Enter(call: nat)
    | Retest(call: nat, registered: bool)
    | Return(call: nat)
    | Unlock(call: nat)
    | Signal(who: Sender)
    | Send
    | Evict
    | CancelContext
    | Finish(failure: Failure)
    | LockExclusive
    | Begin
    | Decide
    | EndReturns
    | Unlocked
    | WakeOwner(id: nat)

  predicate At(c: Calls, r: nat, phase: Phase) { r in c.phases && c.phases[r] == phase }

  function To(c: Calls, r: nat, from: Phase, to: Phase): Option<Calls> {
    if At(c, r, from) then Some(c.(phases := c.phases[r := to])) else None
  }

  function Gone(c: Calls, r: nat, from: Phase): Option<Calls> {
    if At(c, r, from) then Some(c.(phases := c.phases - {r})) else None
  }

  /** What an event does to the calls; `busy` is the one about to send the event. */
  function Act(c: Calls, inserted: bool, mapped: bool, busy: Sender, e: Event): Option<Calls> {
    match e
    case LookUp(r) =>
      if r == 0 || r in c.seen then None
      else Some(Calls(c.seen + {r}, if mapped then c.phases[r := Found] else c.phases))
    case Test(r) => if inserted then To(c, r, Found, Tested) else Gone(c, r, Found)
    case LockShared(r) => To(c, r, Tested, Queued)
    case Enter(r) => To(c, r, Queued, Locked)
    case Retest(r, registered) => To(c, r, Locked, if inserted && mapped && registered then Calling else Leaving)
    case Return(r) => if busy == ByReader(r) then None else To(c, r, Calling, Leaving)
    case Unlock(r) => Gone(c, r, Leaving)
    case _ => Some(c)
  }

  function Own(stage: Stage, d: Completion, cancelled: bool, e: Event): Option<Stage> {
    match e
    case Finish(f) =>
      if stage != Serving || d.sender == ByOwner || (f == WaitFailed && !cancelled) || (f == NoError && !d.ready)
      then None
      else Some(Finishing(f))
    case LockExclusive => if stage.Finishing? then Some(Locking(stage.failure)) else None
    case Begin => if stage.Locking? then Some(Deciding(stage.failure)) else None
    case Decide =>
      if !stage.Deciding? then None
      else Some(Ending(if stage.failure == WaitFailed && d.ready then NoError else stage.failure))
    case EndReturns => if stage.Ending? then Some(Closing(stage.failure)) else None
    case Unlocked => if stage.Closing? then Some(Over(stage.failure)) else None
    case _ => Some(stage)
  }

  function Complete(d: Completion, c: Calls, stage: Stage, e: Event): Option<Completion> {
    match e
    case Signal(who) =>
      if d.sender == who || who == NoSender || (who == ByOwner && stage != Serving)
         || (who.ByReader? && !At(c, who.reader, Calling)) then None
      else Some(Exchange(d, who))
    case Send => if d.sender == NoSender then None else Some(Sent(d))
    case _ => Some(d)
  }

  function Call(e: Event): Option<M.Event> {
    match e
    case LockShared(r) => Some(M.Lock(r, false))
    case Unlock(r) => Some(M.Unlock(r))
    case LockExclusive => Some(M.Lock(0, true))
    case Unlocked => Some(M.Unlock(0))
    case WakeOwner(i) => Some(M.Wake(i))
    case _ => None
  }

  function OnMutex(x: M.State, e: Event): Option<M.State> {
    if Call(e).Some? then M.Step(x, Call(e).value)
    else if e.Enter? && !M.HoldsShared(x, e.call) then None
    else if e.Begin? && !M.HoldsExclusive(x, 0) then None
    else Some(x)
  }

  function Step(s: State, e: Event): Option<State> {
    var c, g := Act(s.calls, s.inserted, s.mapped, s.done.sender, e), Own(s.stage, s.done, s.cancelled, e);
    var d, x := Complete(s.done, s.calls, s.stage, e), OnMutex(s.mutex, e);
    if c.None? || g.None? || d.None? || x.None? then None
    else
      Some(State(c.value, d.value, s.inserted && !e.Decide?, s.mapped && !e.Evict? && !e.EndReturns?,
                 s.cancelled || e.CancelContext?, g.value, x.value))
  }

  function Run(es: seq<Event>): Option<State> {
    if es == [] then Some(INITIAL)
    else match Run(es[..|es| - 1]) case None => None case Some(s) => Step(s, es[|es| - 1])
  }

  // ---- Invariant ----

  predicate Uses(c: Calls, r: nat) { At(c, r, Locked) || At(c, r, Calling) || At(c, r, Leaving) }

  predicate Wants(c: Calls, r: nat) { At(c, r, Queued) || Uses(c, r) }

  predicate Exclusive(stage: Stage) { stage.Deciding? || stage.Ending? || stage.Closing? }

  predicate Retired(stage: Stage) { stage.Ending? || stage.Closing? || stage.Over? }

  /** The mutex knows exactly the calls that are inside it. */
  ghost predicate Asking(c: Calls, g: Stage, x: M.State) {
    && (forall i :: M.Asked(x, i, false) <==> Wants(c, i))
    && (forall i :: M.Asked(x, i, true) <==> i == 0 && (g.Locking? || Exclusive(g)))
  }

  ghost predicate Owning(c: Calls, g: Stage, x: M.State) {
    && (forall i :: Uses(c, i) ==> M.HoldsShared(x, i))
    && (Exclusive(g) ==> M.HoldsExclusive(x, 0))
  }

  predicate Separate(c: Calls) { c.phases.Keys <= c.seen && 0 !in c.seen }

  predicate Newcomer(c: Calls, g: Stage, i: nat) {
    At(c, i, Found) || At(c, i, Tested) || (i == 0 && (g.Serving? || g.Finishing?))
  }

  ghost predicate Known(c: Calls, g: Stage, x: M.State) {
    && (forall i :: i in x.arrivals ==> i == 0 || i in c.seen)
    && (forall i :: Newcomer(c, g, i) ==> i !in x.arrivals)
  }

  ghost predicate Admits(c: Calls, g: Stage, inserted: bool) {
    && (inserted <==> !Retired(g))
    && (!inserted ==> forall r :: !At(c, r, Calling))
  }

  predicate Completes(c: Calls, g: Stage, d: Completion) {
    && Consistent(d)
    && (d.sender.ByReader? ==> At(c, d.sender.reader, Calling))
    && (d.sender == ByOwner ==> g.Serving?)
  }

  predicate Recorded(g: Stage, d: Completion) {
    match g
    case Serving => true
    case Finishing(f) => f == NoError ==> d.ready
    case Locking(f) => f == NoError ==> d.ready
    case Deciding(f) => f == NoError ==> d.ready
    case Ending(f) => (f == NoError ==> d.ready) && (f == WaitFailed ==> d.winner != Inside)
    case Closing(f) => (f == NoError ==> d.ready) && (f == WaitFailed ==> d.winner != Inside)
    case Over(f) => (f == NoError ==> d.ready) && (f == WaitFailed ==> d.winner != Inside)
  }

  ghost predicate Inv(s: State) {
    && M.Inv(s.mutex) && Asking(s.calls, s.stage, s.mutex) && Owning(s.calls, s.stage, s.mutex)
    && Separate(s.calls) && Known(s.calls, s.stage, s.mutex) && Admits(s.calls, s.stage, s.inserted)
    && Completes(s.calls, s.stage, s.done) && Recorded(s.stage, s.done)
  }

  /** What the session's own part of a step does to the calls and to the thread in `finish`. */
  ghost predicate Moves(c: Calls, g: Stage, b: Calls, h: Stage, e: Event) {
    && Separate(c) && Separate(b) && c.seen <= b.seen
    && (forall i :: Wants(b, i) <==> (Wants(c, i) && e != Unlock(i)) || e == LockShared(i))
    && (forall i :: Uses(b, i) ==> (Uses(c, i) || e == Enter(i)) && e != Unlock(i))
    && (forall i :: Newcomer(b, h, i) ==>
          (Newcomer(c, g, i) || i !in c.seen + {0}) && e != LockShared(i) && (i == 0 ==> e != LockExclusive))
    && (forall i :: e == LockShared(i) || e == Unlock(i) ==> i in c.seen)
    && (h.Locking? || Exclusive(h) <==> ((g.Locking? || Exclusive(g)) && e != Unlocked) || e == LockExclusive)
    && (Exclusive(h) ==> (Exclusive(g) || e == Begin) && e != Unlocked)
  }

  lemma CallsMove(c: Calls, inserted: bool, mapped: bool, busy: Sender, e: Event, i: nat)
    requires Separate(c) && Act(c, inserted, mapped, busy, e).Some?
    ensures var b := Act(c, inserted, mapped, busy, e).value;
            && Separate(b) && c.seen <= b.seen
            && (Wants(b, i) <==> (Wants(c, i) && e != Unlock(i)) || e == LockShared(i))
            && (Uses(b, i) ==> (Uses(c, i) || e == Enter(i)) && e != Unlock(i))
            && (At(b, i, Found) || At(b, i, Tested) ==>
                 (At(c, i, Found) || At(c, i, Tested) || i !in c.seen + {0}) && e != LockShared(i) && i != 0)
            && (At(b, i, Calling) ==> At(c, i, Calling) || (inserted && e.Retest?))
            && (e == LockShared(i) || e == Unlock(i) ==> i in c.seen)
  {}

  lemma StepMoves(s: State, e: Event)
    requires Separate(s.calls) && Step(s, e).Some?
    ensures Moves(s.calls, s.stage, Step(s, e).value.calls, Step(s, e).value.stage, e)
  {
    var t := Step(s, e).value;
    CallsMove(s.calls, s.inserted, s.mapped, s.done.sender, e, 0);
    forall i
      ensures Wants(t.calls, i) <==> (Wants(s.calls, i) && e != Unlock(i)) || e == LockShared(i)
      ensures Uses(t.calls, i) ==> (Uses(s.calls, i) || e == Enter(i)) && e != Unlock(i)
      ensures Newcomer(t.calls, t.stage, i) ==>
                (Newcomer(s.calls, s.stage, i) || i !in s.calls.seen + {0}) && e != LockShared(i)
                && (i == 0 ==> e != LockExclusive)
      ensures e == LockShared(i) || e == Unlock(i) ==> i in s.calls.seen
    {
      CallsMove(s.calls, s.inserted, s.mapped, s.done.sender, e, i);
    }
  }

  lemma MutexAsked(x: M.State, e: Event, i: nat, writer: bool)
    requires M.Inv(x) && OnMutex(x, e).Some?
    ensures M.Asked(OnMutex(x, e).value, i, writer) <==>
            (M.Asked(x, i, writer) && Call(e) != Some(M.Unlock(i))) || Call(e) == Some(M.Lock(i, writer))
  {
    if Call(e).Some? {
      M.AskedExactly(x, Call(e).value, i, writer);
    }
  }

  /** The calls made on the mutex by result calls and by the finishing thread. */
  lemma WhoCalls(c: Calls, e: Event, i: nat)
    requires Separate(c)
    ensures Call(e) == Some(M.Lock(i, false)) <==> e == LockShared(i)
    ensures Call(e) == Some(M.Lock(i, true)) <==> e == LockExclusive && i == 0
    ensures Call(e) == Some(M.Unlock(i)) <==> e == Unlock(i) || (e == Unlocked && i == 0)
    ensures i == 0 ==> !Wants(c, i)
  {}

  lemma AskingKeeps(c: Calls, g: Stage, b: Calls, h: Stage, x: M.State, e: Event)
    requires Moves(c, g, b, h, e) && M.Inv(x) && Asking(c, g, x) && OnMutex(x, e).Some?
    ensures Asking(b, h, OnMutex(x, e).value)
  {
    forall i
      ensures M.Asked(OnMutex(x, e).value, i, false) <==> Wants(b, i)
      ensures M.Asked(OnMutex(x, e).value, i, true) <==> i == 0 && (h.Locking? || Exclusive(h))
    {
      MutexAsked(x, e, i, false);
      MutexAsked(x, e, i, true);
      WhoCalls(c, e, i);
    }
  }

  lemma OwningKeeps(c: Calls, g: Stage, b: Calls, h: Stage, x: M.State, e: Event)
    requires Moves(c, g, b, h, e) && M.Inv(x) && Owning(c, g, x) && OnMutex(x, e).Some?
    ensures Owning(b, h, OnMutex(x, e).value)
  {
    var y := OnMutex(x, e).value;
    forall i | Uses(b, i) ensures M.HoldsShared(y, i) {
      if Call(e).Some? {
        M.HoldersStay(x, Call(e).value, i);
      }
    }
    if Exclusive(h) && Call(e).Some? {
      M.HoldersStay(x, Call(e).value, 0);
    }
  }

  lemma KnownKeeps(c: Calls, g: Stage, b: Calls, h: Stage, x: M.State, e: Event)
    requires Moves(c, g, b, h, e) && M.Inv(x) && Known(c, g, x) && OnMutex(x, e).Some?
    ensures Known(b, h, OnMutex(x, e).value)
  {
    var y := OnMutex(x, e).value;
    forall i
      ensures i in y.arrivals ==> i == 0 || i in b.seen
      ensures Newcomer(b, h, i) ==> i !in y.arrivals
    {
      if Call(e).Some? {
        M.ArrivalsExactly(x, Call(e).value, i);
      }
    }
  }

  /** Whoever holds the exclusive side excludes every call. */
  lemma NobodyUses(s: State, r: nat)
    requires M.Inv(s.mutex) && Owning(s.calls, s.stage, s.mutex) && Exclusive(s.stage)
    ensures !Uses(s.calls, r)
  {
    if Uses(s.calls, r) {
      M.HeldAlone(s.mutex, 0, r);
    }
  }

  lemma AdmitsKeeps(s: State, e: Event)
    requires Inv(s) && Step(s, e).Some?
    ensures var t := Step(s, e).value; Admits(t.calls, t.stage, t.inserted)
  {
    var t := Step(s, e).value;
    forall r | !t.inserted ensures !At(t.calls, r, Calling) {
      CallsMove(s.calls, s.inserted, s.mapped, s.done.sender, e, r);
      if Exclusive(s.stage) {
        NobodyUses(s, r);
      }
    }
  }

  lemma CompletesKeeps(s: State, e: Event)
    requires Completes(s.calls, s.stage, s.done) && Separate(s.calls) && Step(s, e).Some?
    ensures var t := Step(s, e).value; Completes(t.calls, t.stage, t.done)
  {}

  lemma RecordedKeeps(s: State, e: Event)
    requires Inv(s) && Step(s, e).Some?
    ensures var t := Step(s, e).value; Recorded(t.stage, t.done)
  {
    if Exclusive(s.stage) && s.done.sender.ByReader? {
      NobodyUses(s, s.done.sender.reader);
    }
  }

  lemma StepKeeps(s: State, e: Event)
    requires Inv(s) && Step(s, e).Some?
    ensures Inv(Step(s, e).value)
  {
    var t := Step(s, e).value;
    StepMoves(s, e);
    AskingKeeps(s.calls, s.stage, t.calls, t.stage, s.mutex, e);
    OwningKeeps(s.calls, s.stage, t.calls, t.stage, s.mutex, e);
    KnownKeeps(s.calls, s.stage, t.calls, t.stage, s.mutex, e);
    AdmitsKeeps(s, e);
    CompletesKeeps(s, e);
    RecordedKeeps(s, e);
    if Call(e).Some? {
      M.StepKeeps(s.mutex, Call(e).value);
    }
  }

  lemma FreshInv(c: Calls, x: M.State)
    requires c == Calls({}, map[]) && x == M.INITIAL
    ensures M.Inv(x) && Asking(c, Serving, x) && Owning(c, Serving, x) && Separate(c) && Known(c, Serving, x)
    ensures Admits(c, Serving, true) && Completes(c, Serving, PENDING)
  {
    M.FreshMutex(x);
  }

  lemma {:induction false} Reachable(es: seq<Event>)
    ensures Run(es).Some? ==> Inv(Run(es).value)
  {
    if es == [] {
      FreshInv(INITIAL.calls, INITIAL.mutex);
    } else {
      Reachable(es[..|es| - 1]);
      if Run(es).Some? {
        StepKeeps(Run(es[..|es| - 1]).value, es[|es| - 1]);
      }
    }
  }

  // ---- Main results ----

  lemma StaysRetired(s: State, e: Event)
    requires Step(s, e).Some? && !s.inserted
    ensures !Step(s, e).value.inserted
  {}

  /** From the decision on no callback runs or starts, in any continuation; and while `endRequest` runs nobody
      holds the other side of the mutex. */
  lemma {:induction false} NoCallbackOnceEnding(es: seq<Event>, fs: seq<Event>, r: nat)
    requires Run(es + fs).Some? && Run(es).Some? && !Run(es).value.inserted
    ensures var t := Run(es + fs).value;
            !t.inserted && !At(t.calls, r, Calling) && (Exclusive(t.stage) ==> !Uses(t.calls, r))
  {
    if fs == [] {
      assert es + fs == es;
    } else {
      assert (es + fs)[..|es + fs| - 1] == es + fs[..|fs| - 1];
      NoCallbackOnceEnding(es, fs[..|fs| - 1], r);
      StaysRetired(Run(es + fs[..|fs| - 1]).value, fs[|fs| - 1]);
    }
    Reachable(es + fs);
    if Exclusive(Run(es + fs).value.stage) {
      NobodyUses(Run(es + fs).value, r);
    }
  }

  /** Can this owner of the mutex, a result call or the thread in `finish`, take its next step? */
  predicate GoesOn(s: State, id: nat) {
    || Step(s, WakeOwner(id)).Some?
    || Step(s, Enter(id)).Some? || Step(s, Retest(id, false)).Some? || Step(s, Return(id)).Some?
    || (s.done.sender == ByReader(id) && Step(s, Send).Some?) || Step(s, Unlock(id)).Some?
    || (id == 0 && (Step(s, Begin).Some? || Step(s, Decide).Some? || Step(s, EndReturns).Some?
                    || Step(s, Unlocked).Some?))
  }

  /** Its next step inside the calls, the mutex apart. */
  lemma CallGoesOn(s: State, id: nat)
    requires Inv(s) && HoldsOrWaits(s, id)
    ensures Step(s, Enter(id)).Some? || Step(s, Retest(id, false)).Some? || Step(s, Return(id)).Some?
            || (s.done.sender == ByReader(id) && Step(s, Send).Some?) || Step(s, Unlock(id)).Some?
  {
    if At(s.calls, id, Queued) {
      assert Step(s, Enter(id)).Some?;
    } else if At(s.calls, id, Locked) {
      assert Step(s, Retest(id, false)).Some?;
    } else if At(s.calls, id, Calling) {
      assert if s.done.sender == ByReader(id) then Step(s, Send).Some? else Step(s, Return(id)).Some?;
    } else {
      assert Step(s, Unlock(id)).Some?;
    }
  }

  predicate HoldsOrWaits(s: State, id: nat) { Wants(s.calls, id) && M.HoldsShared(s.mutex, id) }

  lemma FinishGoesOn(s: State)
    requires Inv(s) && M.HoldsExclusive(s.mutex, 0) && (s.stage.Locking? || Exclusive(s.stage))
    ensures Step(s, Begin).Some? || Step(s, Decide).Some? || Step(s, EndReturns).Some? || Step(s, Unlocked).Some?
  {}

  lemma OwnerGoesOn(s: State, id: nat)
    requires Inv(s) && id in s.mutex.reading + s.mutex.writing
    ensures GoesOn(s, id)
  {
    if id in s.mutex.unsent {
      assert Step(s, WakeOwner(id)).Some?;
    } else if id in s.mutex.reading {
      assert M.Asked(s.mutex, id, false);
      CallGoesOn(s, id);
    } else {
      assert M.Asked(s.mutex, id, true);
      FinishGoesOn(s);
    }
  }

  /** A thread inside the mutex, `finish` or a result call, waits for an owner of it that can go on: itself, once it
      was made one, or an earlier call. */
  lemma {:induction false} NobodyWaitsForTheMutexForever(es: seq<Event>, id: nat) returns (owner: nat)
    requires Run(es).Some? && ((id == 0 && Run(es).value.stage.Locking?) || At(Run(es).value.calls, id, Queued))
    ensures var x := Run(es).value.mutex;
            owner in x.reading + x.writing && (owner == id || owner in F.Ahead(x, id))
    ensures GoesOn(Run(es).value, owner)
  {
    Reachable(es);
    var s := Run(es).value;
    if At(s.calls, id, Queued) {
      assert Wants(s.calls, id);
      owner := F.OwnerInFront(s.mutex, id, false);
    } else {
      assert M.Asked(s.mutex, 0, true);
      owner := F.OwnerInFront(s.mutex, 0, true);
    }
    OwnerGoesOn(s, owner);
  }

  /** A result that arrives while `endRequest` runs, even from inside it, is refused by the first test: it never
      queues for the lock that `endRequest` holds. */
  lemma {:induction false} LateResultNeverWaits(es: seq<Event>, r: nat)
    requires Run(es).Some? && Run(es).value.stage.Ending? && At(Run(es).value.calls, r, Found)
    ensures var s := Run(es).value;
            Step(s, Test(r)).Some? && r !in Step(s, Test(r)).value.calls.phases
  {
    Reachable(es);
  }

  lemma StaysMapped(s: State, e: Event)
    requires Step(s, e).Some? && e != Evict && e != EndReturns
    ensures Step(s, e).value.mapped == s.mapped
  {}

  predicate Reserved(stage: Stage) { !stage.Closing? && !stage.Over? }

  lemma ReservedBackwards(s: State, e: Event)
    requires Step(s, e).Some? && Reserved(Step(s, e).value.stage)
    ensures Reserved(s.stage) && e != EndReturns
  {}

  /** The stream id stays reserved from activation until `endRequest` has returned, unless the map evicted it. */
  lemma {:induction false} IdStaysReserved(es: seq<Event>)
    requires Run(es).Some? && Evict !in es && Reserved(Run(es).value.stage)
    ensures Run(es).value.mapped
  {
    if es != [] {
      var s := Run(es[..|es| - 1]).value;
      assert Evict !in es[..|es| - 1];
      assert es[|es| - 1] in es;
      ReservedBackwards(s, es[|es| - 1]);
      IdStaysReserved(es[..|es| - 1]);
      StaysMapped(s, es[|es| - 1]);
    }
  }
}
