/** A bidirectional session that has begun to finish ends its request: once the gate is closed nothing new enters, what
    is inside can always go on, and every step brings `endRequest` nearer. */
module BidiEnds {
  import opened Options
  import opened SessionLifetimes
  import opened BidiSessions
  import opened BidiResponses
  import R = Runs

  // ---- Every reference belongs to somebody ----

  predicate Explained(s: State, ref: Ref) {
    ref == Ref(Creation, Frame) || (ref.token.Response? && ref.holder.Root?) || Needed(s, ref)
  }

  /** Every reference has an owner that will drop it, and what was received directly is not queued as well. */
  ghost predicate Tidy(s: State) {
    && (forall ref :: ref in s.life.refs ==> Explained(s, ref))
    && (forall r :: r in s.straight ==> r !in s.queue)
  }

  lemma MessageTidy(s: State, e: Event)
    requires Tidy(s) && (e.OpenMessage? || e.CloseMessage?) && SessionStep(s, e).Some?
    ensures Tidy(SessionStep(s, e).value)
  {
    var t := SessionStep(s, e).value;
    forall ref | ref in t.life.refs ensures Explained(t, ref) {
      assert ref in s.life.refs || ref == Ref(Message(e.id), Frame);
    }
  }

  lemma CallbackTidy(s: State, e: Event)
    requires Tidy(s) && (e.Arrive? || e.Return?) && SessionStep(s, e).Some?
    ensures Tidy(SessionStep(s, e).value)
  {
    var t := SessionStep(s, e).value;
    forall ref | ref in t.life.refs ensures Explained(t, ref) {
      assert ref in s.life.refs || ref == Ref(Response(e.id), Frame);
    }
  }

  lemma ReceiveTidy(s: State, r: nat)
    requires Tidy(s) && Inv(s) && r in s.callbacks && s.callbacks[r].Entered?
    ensures Tidy(ReceiveLocked(s, r))
  {
    var t := ReceiveLocked(s, r);
    forall ref | ref in t.life.refs ensures Explained(t, ref) {
      assert ref in s.life.refs || ref == Ref(Response(r), Item) || ref == Ref(Response(r), Root);
    }
  }

  lemma OtherTidy(s: State, e: Event)
    requires Tidy(s) && SessionStep(s, e).Some?
    requires !e.OpenMessage? && !e.CloseMessage? && !e.Arrive? && !e.Return? && !e.Receive?
    ensures Tidy(SessionStep(s, e).value)
  {
    var t := SessionStep(s, e).value;
    assert t.life.refs <= s.life.refs;
    assert forall ref :: Needed(t, ref) <==> Needed(s, ref);
  }

  lemma WorkTidy(s: State, work: Work)
    requires Tidy(s) && |s.processors| == 1 && InWork(work) == InWork(s.processors[0].work)
    ensures Tidy(WithWork(s, 0, work))
  {
    assert forall ref :: Needed(WithWork(s, 0, work), ref) <==> Needed(s, ref);
  }

  lemma TakeTidy(s: State)
    requires Tidy(s) && Inv(s) && |s.processors| == 1 && s.processors[0].work.AtQueue?
    ensures Tidy(TakeLocked(s, 0))
  {
    var t := TakeLocked(s, 0);
    if s.queue == [] {
      assert t.processors == [];
    } else {
      assert s.queue == [s.queue[0]] + s.queue[1..];
      assert !Own(s.processors[0], s.queue[0]);
    }
    forall ref | ref in t.life.refs ensures Explained(t, ref) {
      assert Explained(s, ref);
    }
  }

  lemma LeaveTidy(s: State)
    requires Tidy(s) && Inv(s) && |s.processors| == 1 && s.processors[0].work.Leaving?
    ensures Tidy(Leave(s, 0, s.processors[0].work.response))
  {
    var r := s.processors[0].work.response;
    var t := Leave(s, 0, r);
    forall ref | ref in t.life.refs ensures Explained(t, ref) {
      assert Explained(s, ref) && (Own(s.processors[0], r) || ref != Ref(Response(r), Item));
    }
  }

  lemma ProcessorTidy(s: State, e: Event)
    requires Tidy(s) && Inv(s) && OfProcessor(e) && ProcessorStep(s, e).Some?
    ensures Tidy(ProcessorStep(s, e).value)
  {
    assert |s.processors| == 1 && e.at == 0;
    match e
    case StartDrain(_) => WorkTidy(s, AtQueue);
    case TakeNext(_) => TakeTidy(s);
    case LeaveResponse(_) => LeaveTidy(s);
    case Check(_) => CheckTidy(s);
    case HandlerReturns(_, throws) => HandlerTidy(s, throws);
  }

  lemma CheckTidy(s: State)
    requires Tidy(s) && |s.processors| == 1 && s.processors[0].work.Checking?
    ensures Tidy(ProcessorStep(s, Check(0)).value)
  {
    var r := s.processors[0].work.response;
    var u := s.(handled := s.handled + [r]);
    assert forall ref :: Needed(u, ref) <==> Needed(s, ref);
    WorkTidy(s, Leaving(r));
    WorkTidy(u, Handling(r));
  }

  lemma HandlerTidy(s: State, throws: bool)
    requires Tidy(s) && |s.processors| == 1 && s.processors[0].work.Handling?
    ensures Tidy(ProcessorStep(s, HandlerReturns(0, throws)).value)
  {
    var u := WithWork(s, 0, Leaving(s.processors[0].work.response));
    WorkTidy(s, Leaving(s.processors[0].work.response));
    var t := ProcessorStep(s, HandlerReturns(0, throws)).value;
    assert t.life.refs == u.life.refs && t.queue == u.queue && t.straight == u.straight;
    assert forall ref :: Needed(t, ref) <==> Needed(u, ref);
  }

  lemma StepTidy(s: State, e: Event)
    requires Tidy(s) && Inv(s) && Step(s, e).Some?
    ensures Tidy(Step(s, e).value)
  {
    if OfProcessor(e) {
      ProcessorTidy(s, e);
    } else if e.OpenMessage? || e.CloseMessage? {
      MessageTidy(s, e);
    } else if e.Arrive? || e.Return? {
      CallbackTidy(s, e);
    } else if e.Receive? {
      ReceiveTidy(s, e.id);
    } else {
      OtherTidy(s, e);
    }
  }

  lemma BornTidy(s: State)
    requires s.life.refs == {Ref(Creation, Frame)} && s.straight == {}
    ensures Tidy(s)
  {}

  lemma StartTidy()
    ensures Tidy(INITIAL)
  {
    BornTidy(INITIAL);
  }

  lemma {:induction false} AllTidy(es: seq<Event>)
    ensures Run(es).Some? ==> Tidy(Run(es).value)
  {
    if es == [] {
      StartTidy();
    } else {
      AllTidy(es[..|es| - 1]);
      if Run(es).Some? {
        Reachable(es[..|es| - 1]);
        StepTidy(Run(es[..|es| - 1]).value, es[|es| - 1]);
      }
    }
  }

  // ---- The end comes nearer ----

  function EnteredOnes(s: State): set<nat> { set r | r in s.callbacks && s.callbacks[r].Entered? }

  function Roots(refs: set<Ref>): set<Ref> { set ref | ref in refs && ref.holder.Root? }

  /** What the creator still has to do. */
  function CreationLeft(s: State): nat {
    (if s.ready then 0 else 2) + (if s.failing then 1 else 0) + if Ref(Creation, Frame) in s.life.refs then 1 else 0
  }

  function GateLeft(l: Life): nat { (if l.gate.sent == 0 then 1 else 0) + l.posted }

  /** Everything but the processor. A callback that has not received its response yet may start a processor, or queue
      the response and launch a drain. */
  function Rest(s: State): nat {
    |s.callbacks| + 9 * |EnteredOnes(s)| + |s.messages| + |Roots(s.life.refs)| + CreationLeft(s) + GateLeft(s.life)
  }

  /** How many steps a session with a closed gate can still take. */
  function Distance(s: State): nat { Rank(s) + Rest(s) }

  predicate Closed(s: State) { s.life.gate.closed }

  /** What the processor leaves alone. */
  ghost predicate SameRest(s: State, t: State) {
    && t.callbacks.Keys == s.callbacks.Keys && EnteredOnes(t) == EnteredOnes(s) && t.messages == s.messages
    && Roots(t.life.refs) == Roots(s.life.refs) && CreationLeft(t) == CreationLeft(s)
    && GateLeft(t.life) == GateLeft(s.life) && Closed(t)
  }

  lemma SameRestSame(s: State, t: State)
    requires SameRest(s, t)
    ensures Rest(t) == Rest(s)
  {
    assert |t.callbacks| == |t.callbacks.Keys| && |s.callbacks| == |s.callbacks.Keys|;
  }

  lemma WorkRest(s: State, t: State, work: Work)
    requires |s.processors| == 1 && Closed(s)
    requires t == WithWork(s, 0, work).(handled := t.handled, responseError := t.responseError)
    ensures SameRest(s, t)
  {
    assert t.callbacks == s.callbacks && t.life == s.life;
  }

  lemma TakeRest(s: State)
    requires Inv(s) && |s.processors| == 1 && Closed(s)
    ensures SameRest(s, TakeLocked(s, 0))
  {
    var t := TakeLocked(s, 0);
    assert t.life == s.life && t.messages == s.messages && t.ready == s.ready && t.failing == s.failing;
    assert forall r :: r in t.callbacks <==> r in s.callbacks;
    assert forall r :: r in s.callbacks && t.callbacks[r] != s.callbacks[r] ==>
        !t.callbacks[r].Entered? && !s.callbacks[r].Entered?;
  }

  lemma LeaveRest(s: State, r: nat)
    requires |s.processors| == 1 && Closed(s)
    ensures SameRest(s, Leave(s, 0, r))
  {
    var t := Leave(s, 0, r);
    assert t.callbacks == s.callbacks && t.messages == s.messages && t.ready == s.ready && t.failing == s.failing;
    assert t.life == s.life || t.life == Drop(s.life, Ref(Response(r), Item));
  }

  lemma ProcessorNearer(s: State, e: Event)
    requires Inv(s) && Closed(s) && OfProcessor(e) && ProcessorStep(s, e).Some?
    ensures Distance(ProcessorStep(s, e).value) < Distance(s) && Closed(ProcessorStep(s, e).value)
  {
    assert |s.processors| == 1 && e.at == 0;
    var t := ProcessorStep(s, e).value;
    RankFalls(s, e);
    if e.TakeNext? {
      TakeRest(s);
    } else if e.LeaveResponse? {
      LeaveRest(s, s.processors[0].work.response);
    } else {
      WorkRest(s, t, t.processors[0].work);
    }
    SameRestSame(s, t);
  }

  lemma MessageNearer(s: State, m: nat)
    requires Closed(s) && SessionStep(s, CloseMessage(m)).Some?
    ensures Closed(SessionStep(s, CloseMessage(m)).value)
    ensures Distance(SessionStep(s, CloseMessage(m)).value) < Distance(s)
  {
    var t := SessionStep(s, CloseMessage(m)).value;
    assert Roots(t.life.refs) == Roots(s.life.refs) && GateLeft(t.life) == GateLeft(s.life);
    assert |t.messages| == |s.messages| - 1 && Rank(t) == Rank(s) && EnteredOnes(t) == EnteredOnes(s);
  }

  lemma ReceiveCallbacks(s: State, r: nat)
    requires r in s.callbacks && s.callbacks[r].Entered?
    ensures |ReceiveLocked(s, r).callbacks| == |s.callbacks|
    ensures |EnteredOnes(ReceiveLocked(s, r))| == |EnteredOnes(s)| - 1
  {
    var t := ReceiveLocked(s, r);
    assert EnteredOnes(t) == EnteredOnes(s) - {r} && r in EnteredOnes(s);
    assert t.callbacks.Keys == s.callbacks.Keys;
    assert |t.callbacks| == |t.callbacks.Keys| && |s.callbacks| == |s.callbacks.Keys|;
  }

  /** A received response costs at most a drain of its own. */
  lemma ReceiveRank(s: State, r: nat)
    requires Inv(s)
    ensures Rank(ReceiveLocked(s, r)) <= Rank(s) + 7
  {}

  lemma ReceiveRoots(s: State, r: nat)
    ensures |Roots(ReceiveLocked(s, r).life.refs)| <= |Roots(s.life.refs)| + 1
  {
    var now := Roots(ReceiveLocked(s, r).life.refs);
    assert now == Roots(s.life.refs) || now == Roots(s.life.refs) + {Ref(Response(r), Root)};
  }

  lemma ReceiveElse(s: State, r: nat)
    ensures var t := ReceiveLocked(s, r);
            && t.messages == s.messages && t.life.gate == s.life.gate && t.life.posted == s.life.posted
            && t.ready == s.ready && t.failing == s.failing
            && (Ref(Creation, Frame) in t.life.refs <==> Ref(Creation, Frame) in s.life.refs)
  {}

  lemma ReceiveNearer(s: State, r: nat)
    requires Inv(s) && Closed(s) && r in s.callbacks && s.callbacks[r].Entered?
    ensures Distance(ReceiveLocked(s, r)) < Distance(s) && Closed(ReceiveLocked(s, r))
  {
    ReceiveCallbacks(s, r);
    ReceiveRank(s, r);
    ReceiveRoots(s, r);
    ReceiveElse(s, r);
  }

  lemma ReturnNearer(s: State, r: nat)
    requires Closed(s) && SessionStep(s, Return(r)).Some?
    ensures Distance(SessionStep(s, Return(r)).value) < Distance(s) && Closed(SessionStep(s, Return(r)).value)
  {
    var t := SessionStep(s, Return(r)).value;
    assert t.callbacks.Keys == s.callbacks.Keys - {r};
    assert |t.callbacks| == |t.callbacks.Keys| && |s.callbacks| == |s.callbacks.Keys|;
    assert EnteredOnes(t) == EnteredOnes(s) && Roots(t.life.refs) == Roots(s.life.refs) && Rank(t) == Rank(s);
  }

  lemma CreationNearer(s: State, e: Event)
    requires Closed(s) && SessionStep(s, e).Some? && (e.MarkReady? || e.FailCreation? || e.CreationReturns?)
    ensures Distance(SessionStep(s, e).value) < Distance(s) && Closed(SessionStep(s, e).value)
  {
    var t := SessionStep(s, e).value;
    assert EnteredOnes(t) == EnteredOnes(s) && Roots(t.life.refs) == Roots(s.life.refs) && Rank(t) == Rank(s);
  }

  lemma RootNearer(s: State, r: nat)
    requires Closed(s) && SessionStep(s, DropRoot(r)).Some?
    ensures Distance(SessionStep(s, DropRoot(r)).value) < Distance(s) && Closed(SessionStep(s, DropRoot(r)).value)
  {
    var t := SessionStep(s, DropRoot(r)).value;
    var root := Ref(Response(r), Root);
    assert Roots(t.life.refs) == Roots(s.life.refs) - {root} && root in Roots(s.life.refs);
    assert EnteredOnes(t) == EnteredOnes(s) && Rank(t) == Rank(s);
  }

  lemma LifetimeNearer(s: State, e: Event)
    requires Inv(s) && Closed(s) && SessionStep(s, e).Some? && (e.SignalDrained? || e.RunFinalize?)
    ensures Distance(SessionStep(s, e).value) < Distance(s) && Closed(SessionStep(s, e).value)
  {
    var t := SessionStep(s, e).value;
    assert EnteredOnes(t) == EnteredOnes(s) && Rank(t) == Rank(s) && t.life.refs == s.life.refs;
  }

  /** Only the transport may repeat itself. */
  predicate Towards(e: Event) { !e.TransportDone? }

  lemma StepNearer(s: State, e: Event)
    requires Inv(s) && Closed(s) && Step(s, e).Some?
    ensures Closed(Step(s, e).value) && Distance(Step(s, e).value) <= Distance(s)
    ensures Towards(e) ==> Distance(Step(s, e).value) < Distance(s)
  {
    if OfProcessor(e) {
      ProcessorNearer(s, e);
    } else {
      match e
      case CloseMessage(m) => MessageNearer(s, m);
      case Receive(r) => ReceiveNearer(s, r);
      case Return(r) => ReturnNearer(s, r);
      case MarkReady(_) => CreationNearer(s, e);
      case FailCreation => CreationNearer(s, e);
      case CreationReturns => CreationNearer(s, e);
      case DropRoot(r) => RootNearer(s, r);
      case SignalDrained => LifetimeNearer(s, e);
      case RunFinalize => LifetimeNearer(s, e);
      case TransportDone => assert Step(s, e).value == s;
      case _ =>
    }
  }

  // ---- A step is always left ----

  lemma CreatorGoesOn(s: State) returns (e: Event)
    requires !s.ready || s.failing || Ref(Creation, Frame) in s.life.refs
    ensures SessionStep(s, e).Some? && (e.MarkReady? || e.FailCreation? || e.CreationReturns?)
  {
    e := if !s.ready then MarkReady(false) else if s.failing then FailCreation else CreationReturns;
  }

  lemma CallbackGoesOn(s: State, r: nat) returns (e: Event)
    requires Inv(s) && !s.running && r in s.callbacks
    ensures SessionStep(s, e).Some? && (e == Receive(r) || e == Return(r))
  {
    e := if s.callbacks[r].Entered? then Receive(r) else Return(r);
  }

  lemma QuietSession(s: State) returns (e: Event)
    requires Inv(s) && Tidy(s) && Closed(s) && s.life.ended == 0
    requires !s.running && s.messages == {} && s.callbacks == map[] && Ref(Creation, Frame) !in s.life.refs
    ensures SessionStep(s, e).Some? && (e.DropRoot? || e.SignalDrained? || e.RunFinalize?)
  {
    if ref :| ref in s.life.refs {
      assert Explained(s, ref) && s.processors == [];
      e := DropRoot(ref.token.id);
    } else {
      assert s.life.refs == {} && Tokens(s.life.refs) == {};
      e := if s.life.gate.owed > 0 then SignalDrained else RunFinalize;
    }
  }

  lemma NextStep(s: State) returns (e: Event)
    requires Inv(s) && Tidy(s) && Closed(s) && s.life.ended == 0
    ensures Step(s, e).Some? && Towards(e)
  {
    if !s.ready || s.failing || Ref(Creation, Frame) in s.life.refs {
      e := CreatorGoesOn(s);
    } else if s.running {
      ProcessorMoves(s);
      e := NextOf(s.processors[0].work);
    } else if m :| m in s.messages {
      e := CloseMessage(m);
    } else if r :| r in s.callbacks {
      e := CallbackGoesOn(s, r);
    } else {
      e := QuietSession(s);
    }
  }

  // ---- Main results ----

  lemma {:induction false} EndFrom(s: State) returns (fs: seq<Event>)
    requires Inv(s) && Tidy(s) && Closed(s)
    ensures |fs| <= Distance(s) && R.Exec(Step, s, fs).Some? && R.Exec(Step, s, fs).value.life.ended == 1
    decreases Distance(s)
  {
    EndsOnceAndLast(s.life);
    if s.life.ended == 1 {
      fs := [];
    } else {
      var e := NextStep(s);
      StepNearer(s, e);
      StepKeeps(s, e);
      StepTidy(s, e);
      var gs := EndFrom(Step(s, e).value);
      fs := [e] + gs;
      R.ExecFirst(Step, s, e, gs);
    }
  }

  /** From every reachable state in which the session has begun to finish, `endRequest` is reached: at most `Distance`
      steps of what is already inside lead to it. */
  lemma {:induction false} EndRequestIsReached(es: seq<Event>) returns (fs: seq<Event>)
    requires Run(es).Some? && Closed(Run(es).value)
    ensures |fs| <= Distance(Run(es).value)
    ensures Run(es + fs).Some? && Run(es + fs).value.life.ended == 1
  {
    Reachable(es);
    AllTidy(es);
    fs := EndFrom(Run(es).value);
    RunThenExec(es, fs);
  }

  /** And nothing can delay it for ever: whatever happens meanwhile, every step except a repeated completion of the
      transport brings it nearer, and until it has run some such step is enabled. */
  lemma {:induction false} EveryStepBringsTheEndNearer(es: seq<Event>, e: Event) returns (next: Event)
    requires Run(es).Some? && Closed(Run(es).value)
    ensures var s := Run(es).value;
            && (s.life.ended == 0 ==> Step(s, next).Some? && Towards(next))
            && (Step(s, e).Some? ==> Closed(Step(s, e).value) && Distance(Step(s, e).value) <= Distance(s))
            && (Step(s, e).Some? && Towards(e) ==> Distance(Step(s, e).value) < Distance(s))
  {
    Reachable(es);
    AllTidy(es);
    next := e;
    if Run(es).value.life.ended == 0 {
      next := NextStep(Run(es).value);
    }
    if Step(Run(es).value, e).Some? {
      StepNearer(Run(es).value, e);
    }
  }
}
