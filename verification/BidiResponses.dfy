/** What becomes of the responses of a bidirectional session: the processor always goes on until it is idle, and which
    responses reach the handler although creation failed. */
module BidiResponses {
  import opened Options
  import opened SessionLifetimes
  import opened BidiSessions
  import R = Runs

  // ---- Progress of the processor ----

  /** What the processor does next, the handler returning without error. */
  function NextOf(work: Work): Event {
    match work
    case Blocked => StartDrain(0)
    case AtQueue => TakeNext(0)
    case Checking(_) => Check(0)
    case Handling(_) => HandlerReturns(0, false)
    case Leaving(_) => LeaveResponse(0)
  }

  function WorkRank(work: Work): nat {
    match work case Blocked => 1 case AtQueue => 0 case Checking(_) => 3 case Handling(_) => 2 case Leaving(_) => 1
  }

  /** How many steps the processor can still take before the session is idle, without new arrivals. */
  function Rank(s: State): nat {
    if s.processors == [] then 0 else 1 + WorkRank(s.processors[0].work) + 5 * |s.queue|
  }

  lemma ProcessorMoves(s: State)
    requires Inv(s) && s.running && s.ready
    ensures |s.processors| == 1 && Step(s, NextOf(s.processors[0].work)).Some?
  {}

  lemma RankOfWork(s: State, work: Work)
    requires |s.processors| == 1
    ensures Rank(WithWork(s, 0, work)) == 1 + WorkRank(work) + 5 * |s.queue|
  {}

  lemma RankTake(s: State)
    requires |s.processors| == 1 && s.processors[0].work.AtQueue?
    ensures Rank(TakeLocked(s, 0)) < Rank(s)
  {
    if s.queue == [] {
      assert TakeLocked(s, 0).processors == [];
    } else {
      var work := if s.failed then Leaving(s.queue[0]) else Checking(s.queue[0]);
      RankOfWork(s.(queue := s.queue[1..]), work);
    }
  }

  lemma RankFalls(s: State, e: Event)
    requires |s.processors| == 1 && OfProcessor(e) && ProcessorStep(s, e).Some?
    ensures Rank(ProcessorStep(s, e).value) < Rank(s)
  {
    match e
    case StartDrain(_) => RankOfWork(s, AtQueue);
    case TakeNext(_) => RankTake(s);
    case Check(_) =>
      RankOfWork(s, Leaving(s.processors[0].work.response));
      RankOfWork(s.(handled := s.handled + [s.processors[0].work.response]), Handling(s.processors[0].work.response));
    case HandlerReturns(_, _) => RankOfWork(s, Leaving(s.processors[0].work.response));
    case LeaveResponse(_) => RankOfWork(s.(done := s.done + [s.processors[0].work.response]), AtQueue);
  }

  /** A processor of a ready session can always go on, and each of its steps, whether the handler throws or not,
      brings the session nearer to idle. */
  lemma {:induction false} ProcessorAlwaysMoves(es: seq<Event>, e: Event)
    requires Run(es).Some? && Run(es).value.ready
    ensures var s := Run(es).value;
            && (s.running ==> |s.processors| == 1 && Step(s, NextOf(s.processors[0].work)).Some?)
            && (OfProcessor(e) && Step(s, e).Some? ==> Rank(Step(s, e).value) < Rank(s))
  {
    Reachable(es);
    var s := Run(es).value;
    if s.running {
      ProcessorMoves(s);
    }
    if OfProcessor(e) && Step(s, e).Some? {
      RankFalls(s, e);
    }
  }

  predicate Awaits(s: State, r: nat) { r in s.callbacks && s.callbacks[r].Waiting? }

  lemma TakeCallbacks(s: State, r: nat)
    requires |s.processors| == 1 && r in s.callbacks && (s.processors[0].direct ==> s.processors[0].owner != r)
    ensures r in TakeLocked(s, 0).callbacks && TakeLocked(s, 0).callbacks[r] == s.callbacks[r]
  {}

  lemma WaitingStays(s: State, e: Event, r: nat)
    requires |s.processors| == 1 && OfProcessor(e) && ProcessorStep(s, e).Some?
    requires Awaits(s, r) && (s.processors[0].direct ==> s.processors[0].owner != r)
    ensures Awaits(ProcessorStep(s, e).value, r)
  {
    if e.TakeNext? {
      TakeCallbacks(s, r);
    } else {
      assert ProcessorStep(s, e).value.callbacks == s.callbacks;
    }
  }

  lemma IdleReleases(s: State, r: nat)
    requires Inv(s) && !s.running && r in s.callbacks && s.callbacks[r].Waiting?
    ensures Step(s, Return(r)).Some?
  {}

  lemma {:induction false} RunIsExec(es: seq<Event>)
    ensures Run(es) == R.Exec(Step, INITIAL, es)
  {
    if es != [] {
      RunIsExec(es[..|es| - 1]);
      R.ExecLast(Step, INITIAL, es);
    }
  }

  lemma RunThenExec(es: seq<Event>, fs: seq<Event>)
    requires Run(es).Some?
    ensures Run(es + fs) == R.Exec(Step, Run(es).value, fs)
  {
    RunIsExec(es);
    RunIsExec(es + fs);
    R.ExecConcat(Step, INITIAL, es, fs);
  }

  ghost predicate AllOfProcessor(fs: seq<Event>) { forall i :: 0 <= i < |fs| ==> OfProcessor(fs[i]) }

  lemma OneStepNearer(s: State, r: nat) returns (e: Event)
    requires Inv(s) && s.running && Awaits(s, r)
    ensures OfProcessor(e) && Step(s, e).Some? && Inv(Step(s, e).value) && Awaits(Step(s, e).value, r)
    ensures Rank(Step(s, e).value) < Rank(s)
  {
    ProcessorMoves(s);
    e := NextOf(s.processors[0].work);
    StepKeeps(s, e);
    RankFalls(s, e);
    WaitingStays(s, e, r);
  }

  lemma {:induction false} ReleasedBySteps(s: State, r: nat) returns (fs: seq<Event>)
    requires Inv(s) && Awaits(s, r)
    ensures |fs| <= Rank(s) && AllOfProcessor(fs)
    ensures R.Exec(Step, s, fs).Some? && !R.Exec(Step, s, fs).value.running && Awaits(R.Exec(Step, s, fs).value, r)
    decreases Rank(s)
  {
    if !s.running {
      fs := [];
    } else {
      var e := OneStepNearer(s, r);
      var rest := ReleasedBySteps(Step(s, e).value, r);
      fs := [e] + rest;
      R.ExecFirst(Step, s, e, rest);
    }
  }

  lemma WaitsForItsResponse(s: State, r: nat)
    requires Inv(s) && Awaits(s, r)
    ensures Step(s, Return(r)).Some? || (s.running && (r in s.queue || r in Current(s)))
  {}

  /** A callback that waits for its response waits for one that is finished, queued or being processed, and steps of
      the processor alone, at most `Rank` of them, let it return. */
  lemma {:induction false} NoCallbackWaitsForever(es: seq<Event>, r: nat) returns (fs: seq<Event>)
    requires Run(es).Some? && Awaits(Run(es).value, r)
    ensures var s := Run(es).value;
            Step(s, Return(r)).Some? || (s.running && (r in s.queue || r in Current(s)))
    ensures |fs| <= Rank(Run(es).value) && AllOfProcessor(fs)
    ensures Run(es + fs).Some? && Step(Run(es + fs).value, Return(r)).Some?
  {
    Reachable(es);
    WaitsForItsResponse(Run(es).value, r);
    fs := ReleasedBySteps(Run(es).value, r);
    RunThenExec(es, fs);
    Reachable(es + fs);
    IdleReleases(Run(es + fs).value, r);
  }

  /** When creation failed, only responses that found the session ready and idle reach the handler: the
      queued ones are skipped because the drain checks the error, the direct path does not. So once idle, a
      failed session has handled nothing if and only if no response took the direct path. */
  lemma {:induction false} FailedSessionHandlesOnlyStraight(es: seq<Event>)
    requires Run(es).Some? && Run(es).value.failed
    ensures var s := Run(es).value;
            && (forall r :: r in s.handled ==> r in s.straight)
            && (!s.running ==> (s.handled == [] <==> s.straight == {}))
  {
    Reachable(es);
    var s := Run(es).value;
    if s.handled != [] {
      assert s.handled[0] in s.handled;
    }
  }

  // ---- A response in a session whose creation failed ----

  /** The response is with its own callback, which has not looked at the response error yet. */
  predicate CheckingOwn(s: State, r: nat) { s.processors != [] && s.processors[0].work == Checking(r) }

  /** What session events leave alone. */
  ghost predicate SameHistory(s: State, t: State) {
    && t.handled == s.handled && t.responseError == s.responseError && (s.ready ==> t.failed == s.failed)
    && t.arrivals == s.arrivals && t.straight == s.straight
  }

  lemma CreationFrame(s: State, e: Event)
    requires (e.MarkReady? || e.FailCreation? || e.CreationReturns? || e.OpenMessage? || e.CloseMessage?)
    requires SessionStep(s, e).Some?
    ensures SameHistory(s, SessionStep(s, e).value)
  {}

  lemma CallbackFrame(s: State, e: Event)
    requires (e.Arrive? || e.Return? || e.DropRoot?) && SessionStep(s, e).Some?
    ensures SameHistory(s, SessionStep(s, e).value)
  {}

  lemma LifetimeFrame(s: State, e: Event)
    requires (e.TransportDone? || e.SignalDrained? || e.RunFinalize?) && SessionStep(s, e).Some?
    ensures SameHistory(s, SessionStep(s, e).value)
  {}

  lemma SessionFrame(s: State, e: Event)
    requires SessionStep(s, e).Some? && !e.Receive?
    ensures SameHistory(s, SessionStep(s, e).value)
  {
    if e.Arrive? || e.Return? || e.DropRoot? {
      CallbackFrame(s, e);
    } else if e.TransportDone? || e.SignalDrained? || e.RunFinalize? {
      LifetimeFrame(s, e);
    } else {
      CreationFrame(s, e);
    }
  }

  lemma ReceiveFrame(s: State, r: nat)
    ensures var t := ReceiveLocked(s, r);
            && t.arrivals == s.arrivals + [r] && t.straight <= s.straight + {r} && s.straight <= t.straight
            && t.handled == s.handled && t.responseError == s.responseError && t.failed == s.failed
  {}

  /** What a processor may do to the history. */
  ghost predicate HistoryAdvances(s: State, t: State) {
    && t.arrivals == s.arrivals && t.straight == s.straight && t.failed == s.failed
    && s.handled <= t.handled
    && (s.responseError.Some? ==> t.responseError == s.responseError && t.handled == s.handled)
  }

  lemma HandlerFrame(s: State, e: Event)
    requires (e.StartDrain? || e.Check? || e.HandlerReturns?) && ProcessorStep(s, e).Some?
    ensures HistoryAdvances(s, ProcessorStep(s, e).value)
  {}

  lemma QueueFrame(s: State, e: Event)
    requires (e.LeaveResponse? || e.TakeNext?) && ProcessorStep(s, e).Some?
    ensures HistoryAdvances(s, ProcessorStep(s, e).value)
  {}

  lemma HistoryMoves(s: State, e: Event, r: nat)
    requires Identities(s) && Step(s, e).Some?
    ensures var t := Step(s, e).value;
            && (r in s.handled ==> r in t.handled)
            && (r in s.arrivals ==> r in t.arrivals)
            && (s.ready ==> t.failed == s.failed)
            && (s.responseError.Some? ==> t.responseError == s.responseError && t.handled == s.handled)
            && (r in s.arrivals && r !in s.straight ==> r !in t.straight)
  {
    if e.Receive? {
      ReceiveFrame(s, e.id);
    } else if e.LeaveResponse? || e.TakeNext? {
      QueueFrame(s, e);
    } else if OfProcessor(e) {
      HandlerFrame(s, e);
    } else {
      SessionFrame(s, e);
    }
  }

  /** A response on the direct path is handed over by the check that follows, whatever happens in between. */
  lemma OwnCheckHandsOver(s: State, e: Event, r: nat)
    requires Inv(s) && Step(s, e).Some? && CheckingOwn(s, r) && s.responseError.None?
    ensures var t := Step(s, e).value; (CheckingOwn(t, r) && t.responseError.None?) || r in t.handled
  {}

  lemma HandledIsPast(s: State, r: nat)
    requires Inv(s)
    ensures CheckingOwn(s, r) ==> r !in s.handled
  {
    if CheckingOwn(s, r) {
      assert s.arrivals == s.done + [r] + s.queue;
      assert s.arrivals[|s.done|] == r;
      assert forall i :: 0 <= i < |s.done| ==> s.done[i] == s.arrivals[i];
      assert r !in s.done;
    }
  }

  /** What holds of `r` from its reception on: `direct` is the guard of the branch that took it. */
  ghost predicate Decided(s: State, r: nat, direct: bool) {
    && s.failed && r in s.arrivals
    && (direct ==> r in s.handled || (CheckingOwn(s, r) && s.responseError.None?))
    && (!direct ==> r !in s.handled && (r !in s.straight || s.responseError.Some?))
  }

  lemma DecidedStays(s: State, e: Event, r: nat, direct: bool)
    requires Inv(s) && Decided(s, r, direct) && Step(s, e).Some?
    ensures Decided(Step(s, e).value, r, direct)
  {
    HistoryMoves(s, e, r);
    if direct && r !in s.handled {
      OwnCheckHandsOver(s, e, r);
    }
    if !direct && s.responseError.None? {
      StepKeeps(s, e);
    }
  }

  lemma ReceiveDecides(s: State, r: nat)
    requires Inv(s) && s.failed && r in s.callbacks && s.callbacks[r].Entered?
    ensures Decided(ReceiveLocked(s, r), r, !s.running && s.responseError.None?)
  {
    assert r !in s.arrivals && r !in s.straight && r !in s.handled;
    assert ReceiveLocked(s, r).arrivals[|s.arrivals|] == r;
  }

  lemma {:induction false} DecidedAfter(s: State, r: nat, direct: bool, fs: seq<Event>)
    requires Inv(s) && Decided(s, r, direct) && R.Exec(Step, s, fs).Some?
    ensures Decided(R.Exec(Step, s, fs).value, r, direct)
    decreases |fs|
  {
    if fs != [] {
      DecidedStays(s, fs[0], r, direct);
      StepKeeps(s, fs[0]);
      DecidedAfter(Step(s, fs[0]).value, r, direct, fs[1..]);
    }
  }

  lemma {:induction false} DecidedAtReception(es: seq<Event>, r: nat)
    requires Run(es).Some? && Run(es).value.failed && Run(es + [Receive(r)]).Some?
    ensures Decided(Run(es + [Receive(r)]).value, r, !Run(es).value.running && Run(es).value.responseError.None?)
  {
    RunOne(es, Receive(r));
    Reachable(es);
    ReceiveDecides(Run(es).value, r);
  }

  /** In a session whose creation failed, a received response reaches the handler exactly when it found the session
      idle and without response error: then it is handed over by the check that follows, otherwise never, in any
      continuation. */
  lemma {:induction false} FailedSessionHandsOverExactly(es: seq<Event>, r: nat, fs: seq<Event>)
    requires Run(es).Some? && Run(es).value.failed
    requires Run(es + [Receive(r)]).Some? && Run(es + [Receive(r)] + fs).Some?
    ensures var s, t := Run(es).value, Run(es + [Receive(r)] + fs).value;
            r in t.handled <==> !s.running && s.responseError.None? && !CheckingOwn(t, r)
  {
    var direct := !Run(es).value.running && Run(es).value.responseError.None?;
    DecidedAtReception(es, r);
    Reachable(es + [Receive(r)]);
    RunThenExec(es + [Receive(r)], fs);
    DecidedAfter(Run(es + [Receive(r)]).value, r, direct, fs);
    Reachable(es + [Receive(r)] + fs);
    HandledIsPast(Run(es + [Receive(r)] + fs).value, r);
  }

  lemma FailedBeforeReceive()
    ensures var s := Run([Arrive(7), MarkReady(true)]);
            && s.Some? && s.value.ready && s.value.failed && !s.value.running && s.value.responseError.None?
            && s.value.callbacks == map[7 := Entered] && s.value.processors == [] && s.value.handled == []
  {
    RunOne([], Arrive(7));
    assert [] + [Arrive(7)] == [Arrive(7)];
    var s := Run([Arrive(7)]).value;
    assert !s.ready && s.callbacks == map[7 := Entered] && s.processors == [] && s.handled == [];
    RunOne([Arrive(7)], MarkReady(true));
    assert [Arrive(7)] + [MarkReady(true)] == [Arrive(7), MarkReady(true)];
  }

  /** And that does happen: a response admitted before the gate closed is handled although creation failed. */
  lemma FailedSessionStillHandles()
    ensures var s := Run([Arrive(7), MarkReady(true), Receive(7), Check(0)]);
            s.Some? && s.value.failed && s.value.handled == [7]
  {
    var two, three := [Arrive(7), MarkReady(true)], [Arrive(7), MarkReady(true), Receive(7)];
    FailedBeforeReceive();
    RunOne(two, Receive(7));
    assert two + [Receive(7)] == three;
    var s := Run(three).value;
    assert s.processors == [Processor(7, true, Checking(7))] && s.responseError.None? && s.handled == [];
    RunOne(three, Check(0));
    assert three + [Check(0)] == [Arrive(7), MarkReady(true), Receive(7), Check(0)];
  }

  lemma {:induction false} RunOne(es: seq<Event>, e: Event)
    ensures Run(es + [e]) == if Run(es).None? then None else Step(Run(es).value, e)
  {
    assert (es + [e])[..|es|] == es;
  }
}
