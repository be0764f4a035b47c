/** A client-streaming session that has begun to finish ends its request: once the gate is closed nothing new enters,
    what is inside can always go on, also through the handler mutex, and every step brings `endRequest` nearer. */
module ClientStreamingEnds {
  import opened Options
  import opened SessionLifetimes
  import opened ClientStreamingSessions
  import M = SharedMutexes
  import R = Runs
  import T = Totals

  // ---- Every reference belongs to somebody ----

  predicate Explained(a: Actors, ref: Ref) {
    || ref == Ref(Creation, Frame)
    || (ref.token.Message? && ref.holder.Frame? && ref.token.id in a.messages)
    || (ref.token.Response? && ref.holder.Frame? && ref.token.id in a.responses)
  }

  ghost predicate Tidy(a: Actors, l: Life) { forall ref :: ref in l.refs ==> Explained(a, ref) }

  lemma StepTidy(a: Actors, f: Flags, l: Life, e: Event)
    requires Tidy(a, l) && Act(a, f, e).Some? && Live(l, e).Some?
    ensures Tidy(Act(a, f, e).value, Live(l, e).value)
  {
    var b, k := Act(a, f, e).value, Live(l, e).value;
    forall ref | ref in k.refs ensures Explained(b, ref) {
      assert ref in l.refs || e == OpenMessage(ref.token.id) || e == ArriveResponse(ref.token.id);
    }
  }

  lemma BornTidy(a: Actors, l: Life)
    requires l == Enter(BORN, Creation)
    ensures Tidy(a, l)
  {}

  lemma {:induction false} AllTidy(es: seq<Event>)
    ensures Run(es).Some? ==> Tidy(Run(es).value.actors, Run(es).value.life)
  {
    if es == [] {
      BornTidy(INITIAL.actors, INITIAL.life);
    } else {
      AllTidy(es[..|es| - 1]);
      if Run(es).Some? {
        var s := Run(es[..|es| - 1]).value;
        StepTidy(s.actors, s.flags, s.life, es[|es| - 1]);
      }
    }
  }

  // ---- How far it is to the end ----

  /** A call on the mutex may have to wait there, which costs a wake-up more. */
  function MessageWeight(phase: MessagePhase): nat {
    match phase case Admitted => 5 case Queueing => 3 case Consuming => 2 case Consumed => 1
  }

  function ResponseWeight(phase: ResponsePhase): nat {
    match phase
    case Posted => 7
    case Ready => 6
    case Locking => 4
    case Handling => 3
    case Passing => 3
    case Throwing => 2
    case Leaving => 1
  }

  function MessageWeights(ms: map<nat, MessagePhase>): map<nat, nat> { map m | m in ms :: MessageWeight(ms[m]) }

  function ResponseWeights(rs: map<nat, ResponsePhase>): map<nat, nat> { map r | r in rs :: ResponseWeight(rs[r]) }

  ghost function ActorsLeft(a: Actors): nat {
    T.Total(MessageWeights(a.messages)) + T.Total(ResponseWeights(a.responses))
  }

  function FlagsLeft(f: Flags): nat { (if f.ready then 0 else 2) + if f.failing then 1 else 0 }

  function LifeLeft(l: Life): nat {
    (if Ref(Creation, Frame) in l.refs then 1 else 0) + (if l.gate.sent == 0 then 1 else 0) + l.posted
  }

  function MutexLeft(x: M.State): nat { |x.queue| + |x.unsent| }

  /** How many steps a session with a closed gate can still take. */
  ghost function Distance(s: State): nat {
    ActorsLeft(s.actors) + FlagsLeft(s.flags) + LifeLeft(s.life) + MutexLeft(s.mutex)
  }

  lemma MessageTo(ms: map<nat, MessagePhase>, m: nat, to: MessagePhase)
    requires m in ms
    ensures T.Total(MessageWeights(ms[m := to])) + MessageWeight(ms[m])
            == T.Total(MessageWeights(ms)) + MessageWeight(to)
    ensures T.Total(MessageWeights(ms - {m})) + MessageWeight(ms[m]) == T.Total(MessageWeights(ms))
  {
    var w := MessageWeights(ms);
    T.TotalSplit(w, m);
    T.TotalPut(w, m, MessageWeight(to));
    assert MessageWeights(ms[m := to]) == w[m := MessageWeight(to)];
    assert MessageWeights(ms - {m}) == w - {m};
  }

  lemma ResponseTo(rs: map<nat, ResponsePhase>, r: nat, to: ResponsePhase)
    requires r in rs
    ensures T.Total(ResponseWeights(rs[r := to])) + ResponseWeight(rs[r])
            == T.Total(ResponseWeights(rs)) + ResponseWeight(to)
    ensures T.Total(ResponseWeights(rs - {r})) + ResponseWeight(rs[r]) == T.Total(ResponseWeights(rs))
  {
    var w := ResponseWeights(rs);
    T.TotalSplit(w, r);
    T.TotalPut(w, r, ResponseWeight(to));
    assert ResponseWeights(rs[r := to]) == w[r := ResponseWeight(to)];
    assert ResponseWeights(rs - {r}) == w - {r};
  }

  /** What an event of an actor pays. */
  function Pays(e: Event): nat {
    match e
    case LockShared(_) => 2
    case LockExclusive(_) => 2
    case StartConsuming(_) => 1
    case FinishConsuming(_) => 1
    case CloseMessage(_) => 1
    case ResponseReady(_) => 1
    case EnterHandler(_) => 1
    case LeaveHandler(_, _) => 1
    case FinishSession(_) => 1
    case CloseResponse(_) => 1
    case _ => 0
  }

  lemma MessageMoves(a: Actors, m: nat, from: MessagePhase, to: MessagePhase)
    requires ToMessage(a, m, from, to).Some?
    ensures ActorsLeft(ToMessage(a, m, from, to).value) + MessageWeight(from) == ActorsLeft(a) + MessageWeight(to)
  {
    MessageTo(a.messages, m, to);
  }

  lemma MessagePays(a: Actors, f: Flags, e: Event)
    requires e.LockShared? || e.StartConsuming? || e.FinishConsuming? || e.CloseMessage?
    requires Act(a, f, e).Some?
    ensures ActorsLeft(Act(a, f, e).value) + Pays(e) <= ActorsLeft(a)
  {
    match e
    case LockShared(m) => MessageMoves(a, m, Admitted, Queueing);
    case StartConsuming(m) => MessageMoves(a, m, Queueing, Consuming);
    case FinishConsuming(m) => MessageMoves(a, m, Consuming, Consumed);
    case CloseMessage(m) => MessageTo(a.messages, m, Consumed);
  }

  lemma ResponseMoves(a: Actors, r: nat, from: ResponsePhase, to: ResponsePhase)
    requires ToResponse(a, r, from, to).Some?
    ensures ActorsLeft(ToResponse(a, r, from, to).value) + ResponseWeight(from) == ActorsLeft(a) + ResponseWeight(to)
  {
    ResponseTo(a.responses, r, to);
  }

  lemma LeaveHandlerPays(a: Actors, f: Flags, r: nat, throws: bool)
    requires Act(a, f, LeaveHandler(r, throws)).Some?
    ensures ActorsLeft(Act(a, f, LeaveHandler(r, throws)).value) + 1 <= ActorsLeft(a)
  {
    if throws {
      ResponseMoves(a, r, Handling, Throwing);
    } else if ResponseAt(a, r, Passing) {
      ResponseMoves(a, r, Passing, Leaving);
    } else {
      ResponseMoves(a, r, Handling, Leaving);
    }
  }

  lemma ResponsePays(a: Actors, f: Flags, e: Event)
    requires e.ResponseReady? || e.LockExclusive? || e.EnterHandler? || e.LeaveHandler? || e.FinishSession?
             || e.CloseResponse?
    requires Act(a, f, e).Some?
    ensures ActorsLeft(Act(a, f, e).value) + Pays(e) <= ActorsLeft(a)
  {
    match e
    case ResponseReady(r) => ResponseMoves(a, r, Posted, if f.failed then Leaving else Ready);
    case LockExclusive(r) => ResponseMoves(a, r, Ready, Locking);
    case EnterHandler(r) => ResponseMoves(a, r, Locking, if f.responded then Passing else Handling);
    case LeaveHandler(r, throws) => LeaveHandlerPays(a, f, r, throws);
    case FinishSession(r) => ResponseMoves(a, r, Throwing, Leaving);
    case CloseResponse(r) => ResponseTo(a.responses, r, Leaving);
  }

  lemma ActorsPay(a: Actors, f: Flags, e: Event)
    requires Act(a, f, e).Some? && !e.OpenMessage? && !e.ArriveResponse?
    ensures ActorsLeft(Act(a, f, e).value) + Pays(e) <= ActorsLeft(a)
  {
    if e.LockShared? || e.StartConsuming? || e.FinishConsuming? || e.CloseMessage? {
      MessagePays(a, f, e);
    } else if Pays(e) > 0 {
      ResponsePays(a, f, e);
    }
  }

  /** Ownership handed over is a wake-up instead of a place in the queue. */
  lemma HandOverLeft(x: M.State)
    ensures MutexLeft(M.HandOver(x)) <= MutexLeft(x)
  {
    if !x.writer && x.readers == 0 && x.queue != [] && !x.queue[0].writer {
      var batch := x.queue[..M.Leading(x.queue)];
      IdsAtMost(batch);
      UnionAtMost(x.unsent, M.IdSet(batch));
    }
  }

  lemma UnionAtMost(a: set<nat>, b: set<nat>)
    ensures |a + b| <= |a| + |b|
  {
    assert a + b == a + (b - a) && b - a <= b;
    SubsetAtMost(b - a, b);
  }

  lemma SubsetAtMost(a: set<nat>, b: set<nat>)
    requires a <= b
    ensures |a| <= |b|
  {
    assert b == a + (b - a);
  }

  lemma {:induction false} IdsAtMost(q: seq<M.Waiter>)
    ensures |M.IdSet(q)| <= |q|
  {
    if q != [] {
      var n := |q| - 1;
      IdsAtMost(q[..n]);
      assert M.IdSet(q) == M.IdSet(q[..n]) + {q[n].id};
    }
  }

  lemma MutexPays(x: M.State, e: M.Event)
    requires M.Step(x, e).Some?
    ensures MutexLeft(M.Step(x, e).value) <= MutexLeft(x) + if e.Lock? then 1 else if e.Wake? then -1 else 0
  {
    match e
    case Lock(_, _) =>
    case Unlock(id) =>
      HandOverLeft(x.(writer := false, writing := x.writing - {id}));
      if x.readers > 0 {
        HandOverLeft(x.(readers := x.readers - 1, reading := x.reading - {id}));
      }
    case Wake(_) =>
  }

  lemma LifePays(l: Life, e: Event)
    requires Valid(l) && l.gate.closed && Live(l, e).Some?
    ensures !e.OpenMessage? && !e.ArriveResponse? && Live(l, e).value.gate.closed
    ensures LifeLeft(Live(l, e).value) + (if e.CreationReturns? || e.SignalDrained? || e.RunFinalize? then 1 else 0)
            <= LifeLeft(l)
  {}

  /** Only the transport may repeat itself. */
  predicate Towards(e: Event) { !e.TransportDone? }

  lemma StepNearer(s: State, e: Event)
    requires Inv(s) && s.life.gate.closed && Step(s, e).Some?
    ensures Step(s, e).value.life.gate.closed && Distance(Step(s, e).value) <= Distance(s)
    ensures Towards(e) ==> Distance(Step(s, e).value) < Distance(s)
  {
    LifePays(s.life, e);
    ActorsPay(s.actors, s.flags, e);
    if Call(e).Some? {
      MutexPays(s.mutex, Call(e).value);
    }
  }

  // ---- A step is always left ----

  lemma OwnerMoves(s: State, id: nat) returns (e: Event)
    requires Inv(s) && id in s.mutex.reading + s.mutex.writing
    ensures Step(s, e).Some? && Towards(e)
  {
    OwnerGoesOn(s, id);
    e := if Step(s, WakeOwner(id)).Some? then WakeOwner(id)
         else if Step(s, StartConsuming(id)).Some? then StartConsuming(id)
         else if Step(s, FinishConsuming(id)).Some? then FinishConsuming(id)
         else if Step(s, EnterHandler(id)).Some? then EnterHandler(id)
         else LeaveHandler(id, false);
  }

  lemma WaiterGoesOn(s: State, id: nat, writer: bool) returns (e: Event)
    requires Inv(s) && M.Asked(s.mutex, id, writer)
    ensures Step(s, e).Some? && Towards(e)
  {
    var owner := M.SomebodyCanGoOn(s.mutex, id, writer);
    e := OwnerMoves(s, owner);
  }

  lemma MessageGoesOn(s: State, m: nat) returns (e: Event)
    requires Inv(s) && m in s.actors.messages
    ensures Step(s, e).Some? && Towards(e)
  {
    match s.actors.messages[m]
    case Admitted =>
      assert Newcomer(s.actors, m);
      e := LockShared(m);
    case Consumed => e := CloseMessage(m);
    case _ =>
      assert WantsShared(s.actors, m);
      e := WaiterGoesOn(s, m, false);
  }

  lemma ResponseGoesOn(s: State, r: nat) returns (e: Event)
    requires Inv(s) && s.flags.ready && r in s.actors.responses
    ensures Step(s, e).Some? && Towards(e)
  {
    match s.actors.responses[r]
    case Posted => e := ResponseReady(r);
    case Ready =>
      assert Newcomer(s.actors, r);
      e := LockExclusive(r);
    case Throwing => e := FinishSession(r);
    case Leaving => e := CloseResponse(r);
    case _ =>
      assert WantsExclusive(s.actors, r);
      e := WaiterGoesOn(s, r, true);
  }

  lemma QuietSession(s: State) returns (e: Event)
    requires Inv(s) && Tidy(s.actors, s.life) && s.life.gate.closed && s.life.ended == 0
    requires s.actors.messages == map[] && s.actors.responses == map[] && Ref(Creation, Frame) !in s.life.refs
    ensures Step(s, e).Some? && Towards(e)
  {
    assert s.life.refs == {} && Tokens(s.life.refs) == {};
    e := if s.life.gate.owed > 0 then SignalDrained else RunFinalize;
  }

  lemma NextStep(s: State) returns (e: Event)
    requires Inv(s) && Tidy(s.actors, s.life) && s.life.gate.closed && s.life.ended == 0
    ensures Step(s, e).Some? && Towards(e)
  {
    if !s.flags.ready {
      e := MarkReady(false);
    } else if s.flags.failing {
      e := FailCreation;
    } else if Ref(Creation, Frame) in s.life.refs {
      e := CreationReturns;
    } else if m :| m in s.actors.messages {
      e := MessageGoesOn(s, m);
    } else if r :| r in s.actors.responses {
      e := ResponseGoesOn(s, r);
    } else {
      e := QuietSession(s);
    }
  }

  // ---- Main results ----

  lemma {:induction false} EndFrom(s: State) returns (fs: seq<Event>)
    requires Inv(s) && Tidy(s.actors, s.life) && s.life.gate.closed
    ensures |fs| <= Distance(s) && R.Exec(Step, s, fs).Some? && R.Exec(Step, s, fs).value.life.ended == 1
    decreases Distance(s)
  {
    EndsOnceAndLast(s.life);
    if s.life.ended == 1 {
      fs := [];
    } else {
      var e := NextStep(s);
      StepNearer(s, e);
      StepKeeps(s, e);
      StepTidy(s.actors, s.flags, s.life, e);
      var gs := EndFrom(Step(s, e).value);
      fs := [e] + gs;
      R.ExecFirst(Step, s, e, gs);
    }
  }

  lemma {:induction false} RunIsExec(es: seq<Event>)
    ensures Run(es) == R.Exec(Step, INITIAL, es)
  {
    if es != [] {
      RunIsExec(es[..|es| - 1]);
      R.ExecLast(Step, INITIAL, es);
    }
  }

  /** From every reachable state in which the session has begun to finish, `endRequest` is reached: at most `Distance`
      steps of what is already inside lead to it. */
  lemma {:induction false} EndRequestIsReached(es: seq<Event>) returns (fs: seq<Event>)
    requires Run(es).Some? && Run(es).value.life.gate.closed
    ensures |fs| <= Distance(Run(es).value)
    ensures Run(es + fs).Some? && Run(es + fs).value.life.ended == 1
  {
    Reachable(es);
    AllTidy(es);
    fs := EndFrom(Run(es).value);
    RunIsExec(es);
    RunIsExec(es + fs);
    R.ExecConcat(Step, INITIAL, es, fs);
  }

  /** And nothing can delay it for ever: whatever happens meanwhile, every step except a repeated completion of the
      transport brings it nearer, and until it has run some such step is enabled. */
  lemma {:induction false} EveryStepBringsTheEndNearer(es: seq<Event>, e: Event) returns (next: Event)
    requires Run(es).Some? && Run(es).value.life.gate.closed
    ensures var s := Run(es).value;
            && (s.life.ended == 0 ==> Step(s, next).Some? && Towards(next))
            && (Step(s, e).Some? ==>
                  Step(s, e).value.life.gate.closed && Distance(Step(s, e).value) <= Distance(s))
            && (Step(s, e).Some? && Towards(e) ==> Distance(Step(s, e).value) < Distance(s))
  {
    Reachable(es);
    AllTidy(es);
    next := e;
    if Run(es).value.life.ended == 0 {
      next := NextStep(Run(es).value);
    }
    if Step(Run(es).value, e).Some? {
      StepNearer(Run(es).value, e);
    }
  }
}
