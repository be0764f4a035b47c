/** An asynchronous bidirectional session: message deliveries, response callbacks from the
    transport, the deferred-response queue with its drain, and finalisation.

    Events are the mutex regions and the starts and ends of handler calls. Handlers may throw,
    creation may fail, and the transport may complete at any moment. Nothing in the state stops
    two processors from existing; that there is never more than one is proved. */
module BidiSessions {
  import opened Options
  import opened Sequences
  import opened SessionLifetimes

  /** What a processor is doing. `Blocked` is a posted drain waiting for the session to be ready. */
  datatype Work =
    | Blocked
    | AtQueue
    | Checking(response: nat)
    | Handling(response: nat)
    | Leaving(response: nat)

  /** `direct`: the callback that found the session idle; otherwise the posted drain of `owner`. */
  datatype Processor = Processor(owner: nat, direct: bool, work: Work)

  datatype Callback = Entered | Running | Waiting | Returning

  /** `failing`: creation failed and its `finishAsync` has not been called yet. */
  datatype State = State(
    life: Life, ready: bool, failed: bool, failing: bool, running: bool, queue: seq<nat>, processors: seq<Processor>,
    callbacks: map<nat, Callback>, seen: set<nat>, finished: set<nat>, responseError: Option<nat>,
    messages: set<nat>, arrivals: seq<nat>, done: seq<nat>, handled: seq<nat>, straight: set<nat>)

  /** The creator holds its own token until the RPC is started. */
  const INITIAL := State(
    Enter(BORN, Creation), false, false, false, false, [], [], map[], {}, {}, None, {}, [], [], [], {})

  datatype Event =
    | OpenMessage(id: nat)
    | CloseMessage(id: nat)
    | MarkReady(failed: bool)
    | FailCreation
    | CreationReturns
    | Arrive(id: nat)
    | Receive(id: nat)
    | StartDrain(at: nat)
    | Check(at: nat)
    | HandlerReturns(at: nat, throws: bool)
    | LeaveResponse(at: nat)
    | TakeNext(at: nat)
    | Return(id: nat)
    | DropRoot(id: nat)
    | TransportDone
    | SignalDrained
    | RunFinalize

  /** `receiveResponse` under the queue mutex. */
  function ReceiveLocked(s: State, r: nat): State {
    var t := s.(arrivals := s.arrivals + [r], running := true);
    if s.ready && !s.running then
      t.(processors := s.processors + [Processor(r, true, Checking(r))],
         callbacks := s.callbacks[r := Running], straight := s.straight + {r})
    else
      var queued := Share(s.life, Ref(Response(r), Item));
      t.(queue := s.queue + [r],
         life := if s.running then queued else Share(queued, Ref(Response(r), Root)),
         processors := if s.running then s.processors else s.processors + [Processor(r, false, Blocked)],
         callbacks := s.callbacks[r := if s.ready then Waiting else Returning])
  }

  function WithWork(s: State, at: nat, work: Work): State
    requires at < |s.processors|
  {
    s.(processors := s.processors[at := s.processors[at].(work := work)])
  }

  /** Is the processor at its own response, or at one it took from the queue? */
  predicate Own(p: Processor, r: nat) { p.direct && p.owner == r }

  /** One round of `drainResponses`: stop on an empty queue, else take the front. */
  function TakeLocked(s: State, at: nat): State
    requires at < |s.processors|
  {
    var p := s.processors[at];
    if s.queue == [] then
      s.(running := false, processors := s.processors[..at] + s.processors[at + 1..],
         callbacks := if p.direct then s.callbacks[p.owner := Returning] else s.callbacks)
    else
      WithWork(s.(queue := s.queue[1..]), at,
               if s.failed then Leaving(s.queue[0]) else Checking(s.queue[0]))
  }

  /** The response is through: an item signals its waiter and releases its reference. */
  function Leave(s: State, at: nat, r: nat): State
    requires at < |s.processors|
  {
    var t := WithWork(s.(done := s.done + [r]), at, AtQueue);
    if Own(s.processors[at], r) then t
    else t.(finished := s.finished + {r}, life := Drop(s.life, Ref(Response(r), Item)))
  }

  predicate OfProcessor(e: Event) {
    e.StartDrain? || e.TakeNext? || e.Check? || e.HandlerReturns? || e.LeaveResponse?
  }

  /** What a processor does. */
  function ProcessorStep(s: State, e: Event): Option<State> {
    match e
    case StartDrain(at) =>
      if at >= |s.processors| || !s.processors[at].work.Blocked? || !s.ready then None
      else Some(WithWork(s, at, AtQueue))
    case Check(at) =>
      if at >= |s.processors| || !s.processors[at].work.Checking? then None
      else
        var r := s.processors[at].work.response;
        if s.responseError.Some? then Some(WithWork(s, at, Leaving(r)))
        else Some(WithWork(s.(handled := s.handled + [r]), at, Handling(r)))
    case HandlerReturns(at, throws) =>
      if at >= |s.processors| || !s.processors[at].work.Handling? then None
      else
        var r := s.processors[at].work.response;
        var t := WithWork(s, at, Leaving(r));
        if !throws then Some(t)
        else
          Some(t.(responseError := if s.responseError.Some? then s.responseError else Some(r),
                  life := FinishAsync(s.life)))
    case LeaveResponse(at) =>
      if at >= |s.processors| || !s.processors[at].work.Leaving? then None
      else Some(Leave(s, at, s.processors[at].work.response))
    case TakeNext(at) =>
      if at >= |s.processors| || !s.processors[at].work.AtQueue? then None else Some(TakeLocked(s, at))
    case _ => None
  }

  /** Everything else. */
  function SessionStep(s: State, e: Event): Option<State> {
    match e
    case OpenMessage(m) =>
      if !s.ready || s.failed || s.life.gate.closed || Message(m) in Tokens(s.life.refs) then None
      else Some(s.(life := Enter(s.life, Message(m)), messages := s.messages + {m}))
    case CloseMessage(m) =>
      if m !in s.messages then None
      else Some(s.(life := Drop(s.life, Ref(Message(m), Frame)), messages := s.messages - {m}))
    case MarkReady(failed) =>
      if s.ready then None else Some(s.(ready := true, failed := failed, failing := failed))
    case FailCreation => if !s.failing then None else Some(s.(failing := false, life := FinishAsync(s.life)))
    case CreationReturns =>
      if !s.ready || s.failing || Ref(Creation, Frame) !in s.life.refs then None
      else Some(s.(life := Drop(s.life, Ref(Creation, Frame))))
    case Arrive(r) =>
      if r in s.seen || s.life.gate.closed then None
      else Some(s.(life := Enter(s.life, Response(r)), seen := s.seen + {r}, callbacks := s.callbacks[r := Entered]))
    case Receive(r) =>
      if r !in s.callbacks || !s.callbacks[r].Entered? then None else Some(ReceiveLocked(s, r))
    case Return(r) =>
      if r !in s.callbacks || !(s.callbacks[r].Returning? || (s.callbacks[r].Waiting? && r in s.finished)) then None
      else Some(s.(callbacks := s.callbacks - {r}, life := Drop(s.life, Ref(Response(r), Frame))))
    case DropRoot(r) =>
      if Ref(Response(r), Root) !in s.life.refs then None
      else if exists i :: 0 <= i < |s.processors| && s.processors[i].owner == r then None
      else Some(s.(life := Drop(s.life, Ref(Response(r), Root))))
    case TransportDone => Some(s.(life := FinishAsync(s.life)))
    case SignalDrained => if s.life.gate.owed == 0 then None else Some(s.(life := SendDrained(s.life)))
    case RunFinalize => if !CanFinalize(s.life) then None else Some(s.(life := Finalize(s.life)))
    case _ => None
  }

  function Step(s: State, e: Event): Option<State> { if OfProcessor(e) then ProcessorStep(s, e) else SessionStep(s, e) }

  function Run(es: seq<Event>): Option<State> {
    if es == [] then Some(INITIAL)
    else match Run(es[..|es| - 1]) case None => None case Some(s) => Step(s, es[|es| - 1])
  }

  // ---- Invariant ----

  /** The responses inside a processor: none or one. */
  function InWork(w: Work): seq<nat> {
    match w
    case Blocked => []
    case AtQueue => []
    case Checking(r) => [r]
    case Handling(r) => [r]
    case Leaving(r) => [r]
  }

  function Current(s: State): seq<nat> {
    if s.processors == [] then [] else InWork(s.processors[0].work)
  }

  /** One processor exactly while `responseRunning`, and every arrival is done, current or queued. */
  ghost predicate Serial(s: State) {
    && |s.processors| == (if s.running then 1 else 0)
    && s.arrivals == s.done + Current(s) + s.queue
    && (!s.running ==> s.queue == [])
    && Distinct(s.arrivals)
  }

  /** Before the session is ready nothing is processed. */
  ghost predicate Young(s: State) {
    !s.ready ==>
      && !s.failed && s.done == [] && s.handled == [] && s.responseError.None? && s.straight == {}
      && (s.processors == [] || (s.processors[0].work.Blocked? && !s.processors[0].direct))
  }

  /** Which of the current responses was given to the handler. */
  function HandledNow(s: State): seq<nat> {
    if s.processors != [] && (s.processors[0].work.Handling? || s.processors[0].work.Leaving?)
    then [s.processors[0].work.response] else []
  }

  predicate EndsWith(rs: seq<nat>, r: nat) { rs != [] && rs[|rs| - 1] == r }

  /** In a session whose creation succeeded: all so far until a handler throws, then no more. */
  ghost predicate Handled(s: State) {
    && (s.processors != [] && s.processors[0].work.Handling? ==>
          s.responseError.None? && EndsWith(s.handled, s.processors[0].work.response))
    && (!s.failed && s.responseError.None? ==> s.handled == s.done + HandledNow(s))
    && (s.responseError.Some? ==> EndsWith(s.handled, s.responseError.value))
    && (!s.failed ==> s.handled <= s.arrivals)
    && (forall r :: r in s.handled ==> r in s.done || r in HandledNow(s))
  }

  /** In a session whose creation failed only responses received directly reach the handler. */
  ghost predicate OnlyStraight(s: State) {
    && (s.processors != [] && s.processors[0].direct ==> s.processors[0].owner in s.straight)
    && (forall r :: r in s.straight ==> r in s.arrivals)
    && (s.failed ==> forall r :: r in s.handled ==> r in s.straight)
    && (s.failed && s.processors != [] && s.processors[0].work.Checking? ==>
          Own(s.processors[0], s.processors[0].work.response))
    && (s.failed && s.straight != {} ==> s.handled != [] || (s.processors != [] && s.processors[0].work.Checking?))
  }

  /** The references that running and queued activity relies on. */
  predicate Needed(s: State, ref: Ref) {
    match ref.token
    case Creation => false
    case Message(m) => ref.holder.Frame? && m in s.messages
    case Response(r) =>
      match ref.holder
      case Frame => r in s.callbacks
      case Item => r in s.queue || (s.processors != [] && r in InWork(s.processors[0].work) && !Own(s.processors[0], r))
      case Root => s.processors != [] && !s.processors[0].direct && s.processors[0].owner == r
  }

  /** Everything that may touch the session holds a reference to a token. */
  ghost predicate Covered(s: State) {
    forall ref :: Needed(s, ref) ==> ref in s.life.refs
  }

  /** Identities: a callback not received yet has not arrived, and nothing is known of unseen ones. */
  ghost predicate Identities(s: State) {
    && (forall ref :: ref in s.life.refs && ref.token.Response? ==> ref.token.id in s.seen)
    && (forall r :: r in s.callbacks || r in s.arrivals ==> r in s.seen)
    && (forall r :: r in s.callbacks && s.callbacks[r].Entered? ==> r !in s.arrivals)
  }

  /** A callback waits only for a response that is finished or still on its way; a direct processor
      and its callback belong together. */
  ghost predicate Waits(s: State) {
    && (forall r :: r in s.callbacks && s.callbacks[r].Waiting? ==>
          s.ready && (r in s.finished || r in s.queue || r in Current(s)))
    && (forall r :: r in s.callbacks && s.callbacks[r].Running? ==>
          s.processors != [] && s.processors[0].direct && s.processors[0].owner == r)
    && (s.processors != [] && s.processors[0].direct ==>
          s.processors[0].owner in s.callbacks && s.callbacks[s.processors[0].owner].Running?)
  }

  ghost predicate Ordered(s: State) { Serial(s) && Young(s) && Handled(s) && OnlyStraight(s) }

  ghost predicate Safe(s: State) { Valid(s.life) && Covered(s) && Identities(s) && Waits(s) }

  ghost predicate Inv(s: State) { Ordered(s) && Safe(s) }

  // ---- Preservation: the life of the session ----

  /** Dropping a reference that nothing relies on. */
  lemma DropSafe(s: State, ref: Ref)
    requires Safe(s) && !Needed(s, ref)
    ensures Safe(s.(life := Drop(s.life, ref)))
  {
    var t := s.(life := Drop(s.life, ref));
    DropKeeps(s.life, ref);
    assert forall r :: Needed(t, r) <==> Needed(s, r);
  }

  /** A change of the gate or of the finaliser leaves the references alone. */
  lemma GateSafe(s: State, life: Life)
    requires Safe(s) && Valid(life) && life.refs == s.life.refs
    ensures Safe(s.(life := life)) && Safe(s.(life := life, failing := false))
  {
    var t := s.(life := life);
    assert forall r :: Needed(t, r) <==> Needed(s, r);
  }

  lemma ReceiveLife(s: State, r: nat)
    requires Valid(s.life) && Ref(Response(r), Frame) in s.life.refs
    ensures Valid(ReceiveLocked(s, r).life)
  {
    TokenHeld(s.life, Ref(Response(r), Frame));
    ShareKeeps(s.life, Ref(Response(r), Item));
    var l := Share(s.life, Ref(Response(r), Item));
    TokenHeld(l, Ref(Response(r), Frame));
    ShareKeeps(l, Ref(Response(r), Root));
  }

  lemma ReceiveSafe(s: State, r: nat)
    requires Inv(s) && r in s.callbacks && s.callbacks[r].Entered?
    ensures Safe(ReceiveLocked(s, r))
  {
    assert Needed(s, Ref(Response(r), Frame));
    ReceiveLife(s, r);
    var t := ReceiveLocked(s, r);
    forall ref | Needed(t, ref) ensures ref in t.life.refs {
      assert Needed(s, ref) || ref.token == Response(r);
    }
  }

  lemma OpenSafe(s: State, m: nat)
    requires Safe(s) && !s.life.gate.closed && Message(m) !in Tokens(s.life.refs)
    ensures Safe(s.(life := Enter(s.life, Message(m)), messages := s.messages + {m}))
  {
    EnterKeeps(s.life, Message(m));
    var t := s.(life := Enter(s.life, Message(m)), messages := s.messages + {m});
    forall ref | Needed(t, ref) ensures ref in t.life.refs {
      assert Needed(s, ref) || ref == Ref(Message(m), Frame);
    }
  }

  lemma ArriveSafe(s: State, r: nat)
    requires Inv(s) && r !in s.seen && !s.life.gate.closed
    ensures Safe(Step(s, Arrive(r)).value)
  {
    assert Response(r) !in Tokens(s.life.refs);
    EnterKeeps(s.life, Response(r));
    var t := Step(s, Arrive(r)).value;
    forall ref | Needed(t, ref) ensures ref in t.life.refs {
      assert Needed(s, ref) || ref == Ref(Response(r), Frame);
    }
  }

  lemma TakeFrontSafe(s: State)
    requires Inv(s) && |s.processors| == 1 && s.processors[0].work.AtQueue? && s.queue != []
    ensures Safe(TakeLocked(s, 0))
  {
    var t := TakeLocked(s, 0);
    assert s.queue == [s.queue[0]] + s.queue[1..];
    assert s.ready && Current(t) == [s.queue[0]];
    forall ref | Needed(t, ref) ensures ref in t.life.refs {
      assert Needed(s, ref);
    }
  }

  lemma TakeNothingSafe(s: State)
    requires Inv(s) && |s.processors| == 1 && s.processors[0].work.AtQueue? && s.queue == []
    ensures Safe(TakeLocked(s, 0))
  {
    var t := TakeLocked(s, 0);
    assert t.processors == [];
    forall ref | Needed(t, ref) ensures ref in t.life.refs {
      assert Needed(s, ref);
    }
  }

  lemma TakeSafe(s: State)
    requires Inv(s) && |s.processors| == 1 && s.processors[0].work.AtQueue?
    ensures Safe(TakeLocked(s, 0))
  {
    if s.queue == [] {
      TakeNothingSafe(s);
    } else {
      TakeFrontSafe(s);
    }
  }

  /** The current response is not queued as well. */
  lemma CurrentNotQueued(s: State, r: nat)
    requires Serial(s) && Current(s) == [r]
    ensures r !in s.queue
  {
    assert s.arrivals == s.done + [r] + s.queue;
    assert s.arrivals[|s.done|] == r;
    assert forall i :: 0 <= i < |s.queue| ==> s.queue[i] == s.arrivals[|s.done| + 1 + i];
  }

  /** The response is through, its reference not dropped yet. */
  lemma PassedNeeds(s: State, t: State, r: nat, ref: Ref)
    requires |s.processors| == 1 && t.processors == [s.processors[0].(work := AtQueue)]
    requires t.messages == s.messages && t.callbacks == s.callbacks && t.queue == s.queue
    ensures Needed(t, ref) ==> Needed(s, ref)
  {}

  lemma PassedSafe(s: State, t: State, r: nat)
    requires Safe(s) && |s.processors| == 1 && s.processors[0].work == Leaving(r) && r !in s.queue
    requires t == WithWork(s.(done := s.done + [r], finished := t.finished), 0, AtQueue)
    requires t.finished == s.finished + {r} || (t.finished == s.finished && Own(s.processors[0], r))
    ensures Safe(t)
  {
    assert t.processors == [s.processors[0].(work := AtQueue)];
    forall ref | Needed(t, ref) ensures ref in t.life.refs {
      PassedNeeds(s, t, r, ref);
    }
  }

  lemma LeaveSafe(s: State)
    requires Inv(s) && |s.processors| == 1 && s.processors[0].work.Leaving?
    ensures Safe(Leave(s, 0, s.processors[0].work.response))
  {
    var r := s.processors[0].work.response;
    CurrentNotQueued(s, r);
    if Own(s.processors[0], r) {
      PassedSafe(s, Leave(s, 0, r), r);
    } else {
      var t := WithWork(s.(done := s.done + [r], finished := s.finished + {r}), 0, AtQueue);
      PassedSafe(s, t, r);
      DropSafe(t, Ref(Response(r), Item));
    }
  }

  lemma WorkSafe(s: State, at: nat, work: Work)
    requires Safe(s) && |s.processors| == 1 && at == 0 && InWork(work) == InWork(s.processors[0].work)
    ensures Safe(WithWork(s, at, work))
  {
    var t := WithWork(s, at, work);
    assert forall ref :: Needed(t, ref) <==> Needed(s, ref);
  }

  // ---- Preservation: the order of responses ----

  lemma ReceiveSerial(s: State, r: nat)
    requires Serial(s) && r !in s.arrivals
    ensures Serial(ReceiveLocked(s, r))
  {
    DistinctAppend(s.arrivals, r);
    var t := ReceiveLocked(s, r);
    if s.ready && !s.running {
      assert s.arrivals == s.done;
      assert t.arrivals == t.done + [r] + [];
    } else {
      assert Current(t) == Current(s);
      assert t.arrivals == t.done + Current(t) + (s.queue + [r]);
    }
  }

  lemma ReceiveHandled(s: State, r: nat)
    requires Serial(s) && Young(s) && Handled(s) && OnlyStraight(s)
    ensures var t := ReceiveLocked(s, r); Young(t) && Handled(t) && OnlyStraight(t)
  {
    var t := ReceiveLocked(s, r);
    assert HandledNow(t) == HandledNow(s);
  }

  lemma TakeSerial(s: State)
    requires Serial(s) && |s.processors| == 1 && s.processors[0].work.AtQueue?
    ensures Serial(TakeLocked(s, 0))
  {
    var t := TakeLocked(s, 0);
    if s.queue == [] {
      assert t.processors == [];
    } else {
      assert s.queue == [s.queue[0]] + s.queue[1..];
      assert Current(t) == [s.queue[0]];
      assert s.done + [] + s.queue == s.done + [s.queue[0]] + s.queue[1..];
    }
  }

  lemma TakeHandled(s: State)
    requires Young(s) && Handled(s) && OnlyStraight(s)
    requires |s.processors| == 1 && s.processors[0].work.AtQueue? && s.ready
    ensures var t := TakeLocked(s, 0); Young(t) && Handled(t) && OnlyStraight(t)
  {
    var t := TakeLocked(s, 0);
    assert HandledNow(s) == [];
    if s.queue == [] {
      assert t.processors == [];
    }
  }

  lemma LeaveOrder(s: State)
    requires Serial(s) && Young(s) && Handled(s) && OnlyStraight(s)
    requires |s.processors| == 1 && s.processors[0].work.Leaving?
    ensures var t := Leave(s, 0, s.processors[0].work.response);
            Serial(t) && Young(t) && Handled(t) && OnlyStraight(t)
  {}

  /** Changing only what the processor does with the same responses. */
  lemma WorkSerial(s: State, at: nat, work: Work)
    requires Serial(s) && at < |s.processors| && InWork(work) == InWork(s.processors[at].work)
    ensures Serial(WithWork(s, at, work))
  {}

  lemma CheckHandled(s: State)
    requires Serial(s) && Young(s) && Handled(s) && OnlyStraight(s)
    requires |s.processors| == 1 && s.processors[0].work.Checking?
    ensures var t := Step(s, Check(0)).value; Young(t) && Handled(t) && OnlyStraight(t)
  {
    var r := s.processors[0].work.response;
    var t := Step(s, Check(0)).value;
    assert Current(s) == [r] && HandledNow(s) == [];
    assert s.arrivals == (s.done + [r]) + s.queue;
  }

  lemma ReturnHandled(s: State, throws: bool)
    requires Serial(s) && Young(s) && Handled(s) && OnlyStraight(s)
    requires |s.processors| == 1 && s.processors[0].work.Handling?
    ensures var t := Step(s, HandlerReturns(0, throws)).value; Young(t) && Handled(t) && OnlyStraight(t)
  {
    var t := Step(s, HandlerReturns(0, throws)).value;
    assert HandledNow(t) == HandledNow(s);
  }

  lemma QuietOrdered(s: State, t: State)
    requires Ordered(s)
    requires t == s.(life := t.life, failing := t.failing, messages := t.messages,
                     callbacks := t.callbacks, seen := t.seen)
    ensures Ordered(t)
  {}

  // ---- Preservation: every event ----

  lemma MessageKeeps(s: State, e: Event)
    requires Inv(s) && Step(s, e).Some? && (e.OpenMessage? || e.CloseMessage?)
    ensures Inv(Step(s, e).value)
  {
    QuietOrdered(s, Step(s, e).value);
    if e.OpenMessage? {
      OpenSafe(s, e.id);
    } else {
      var u := s.(messages := s.messages - {e.id});
      assert forall ref :: Needed(u, ref) ==> Needed(s, ref);
      DropSafe(u, Ref(Message(e.id), Frame));
    }
  }

  lemma FinishingKeeps(s: State, e: Event)
    requires Inv(s) && Step(s, e).Some?
    requires e.TransportDone? || e.SignalDrained? || e.RunFinalize? || e.FailCreation?
    ensures Inv(Step(s, e).value)
  {
    QuietOrdered(s, Step(s, e).value);
    FinishKeeps(s.life);
    GateSafe(s, Step(s, e).value.life);
  }

  lemma DropRefKeeps(s: State, ref: Ref)
    requires Inv(s) && !Needed(s, ref)
    ensures Inv(s.(life := Drop(s.life, ref)))
  {
    QuietOrdered(s, s.(life := Drop(s.life, ref)));
    DropSafe(s, ref);
  }

  lemma MarkReadyKeeps(s: State, failed: bool)
    requires Inv(s) && !s.ready
    ensures Inv(Step(s, MarkReady(failed)).value)
  {
    var t := Step(s, MarkReady(failed)).value;
    assert forall ref :: Needed(t, ref) <==> Needed(s, ref);
    assert Ordered(t);
  }

  lemma ReturnKeeps(s: State, r: nat)
    requires Inv(s) && Step(s, Return(r)).Some?
    ensures Inv(Step(s, Return(r)).value)
  {
    var u := s.(callbacks := s.callbacks - {r});
    assert forall ref :: Needed(u, ref) ==> Needed(s, ref);
    assert Safe(u);
    DropSafe(u, Ref(Response(r), Frame));
    QuietOrdered(s, Step(s, Return(r)).value);
  }

  lemma ProcessorKeeps(s: State, e: Event)
    requires Inv(s) && Step(s, e).Some?
    requires e.StartDrain? || e.Check? || e.HandlerReturns? || e.LeaveResponse? || e.TakeNext?
    ensures Inv(Step(s, e).value)
  {
    assert |s.processors| == 1 && e.at == 0;
    match e
    case StartDrain(at) => StartDrainKeeps(s);
    case Check(at) => CheckKeeps(s);
    case HandlerReturns(at, throws) => HandlerReturnsKeeps(s, throws);
    case LeaveResponse(at) =>
      LeaveOrder(s);
      LeaveSafe(s);
    case TakeNext(at) =>
      TakeSerial(s);
      TakeHandled(s);
      TakeSafe(s);
  }

  lemma StartDrainKeeps(s: State)
    requires Inv(s) && |s.processors| == 1 && s.processors[0].work.Blocked? && s.ready
    ensures Inv(WithWork(s, 0, AtQueue))
  {
    WorkSerial(s, 0, AtQueue);
    WorkSafe(s, 0, AtQueue);
  }

  lemma CheckKeeps(s: State)
    requires Inv(s) && |s.processors| == 1 && s.processors[0].work.Checking?
    ensures Inv(Step(s, Check(0)).value)
  {
    var r := s.processors[0].work.response;
    CheckHandled(s);
    if s.responseError.Some? {
      WorkSerial(s, 0, Leaving(r));
      WorkSafe(s, 0, Leaving(r));
    } else {
      var u := s.(handled := s.handled + [r]);
      assert forall ref :: Needed(u, ref) <==> Needed(s, ref);
      WorkSerial(u, 0, Handling(r));
      WorkSafe(u, 0, Handling(r));
    }
  }

  lemma HandlerReturnsKeeps(s: State, throws: bool)
    requires Inv(s) && |s.processors| == 1 && s.processors[0].work.Handling?
    ensures Inv(Step(s, HandlerReturns(0, throws)).value)
  {
    var r := s.processors[0].work.response;
    ReturnHandled(s, throws);
    WorkSerial(s, 0, Leaving(r));
    WorkSafe(s, 0, Leaving(r));
    if throws {
      FinishKeeps(s.life);
      var u := WithWork(s, 0, Leaving(r));
      GateSafe(u, FinishAsync(s.life));
      var v := u.(life := FinishAsync(s.life));
      var t := v.(responseError := if s.responseError.Some? then s.responseError else Some(r));
      assert forall ref :: Needed(t, ref) <==> Needed(v, ref);
    }
  }

  lemma ArriveKeeps(s: State, r: nat)
    requires Inv(s) && Step(s, Arrive(r)).Some?
    ensures Inv(Step(s, Arrive(r)).value)
  {
    ArriveSafe(s, r);
    QuietOrdered(s, Step(s, Arrive(r)).value);
  }

  lemma ReceiveKeeps(s: State, r: nat)
    requires Inv(s) && Step(s, Receive(r)).Some?
    ensures Inv(Step(s, Receive(r)).value)
  {
    ReceiveSerial(s, r);
    ReceiveHandled(s, r);
    ReceiveSafe(s, r);
  }

  lemma StepKeeps(s: State, e: Event)
    requires Inv(s) && Step(s, e).Some?
    ensures Inv(Step(s, e).value)
  {
    match e
    case MarkReady(failed) => MarkReadyKeeps(s, failed);
    case Arrive(r) => ArriveKeeps(s, r);
    case Receive(r) => ReceiveKeeps(s, r);
    case Return(r) => ReturnKeeps(s, r);
    case HandlerReturns(_, _) => ProcessorKeeps(s, e);
    case StartDrain(_) => ProcessorKeeps(s, e);
    case Check(_) => ProcessorKeeps(s, e);
    case LeaveResponse(_) => ProcessorKeeps(s, e);
    case TakeNext(_) => ProcessorKeeps(s, e);
    case OpenMessage(_) => MessageKeeps(s, e);
    case CloseMessage(_) => MessageKeeps(s, e);
    case CreationReturns => DropRefKeeps(s, Ref(Creation, Frame));
    case DropRoot(r) => DropRefKeeps(s, Ref(Response(r), Root));
    case _ => FinishingKeeps(s, e);
  }

  lemma UntouchedHolds(s: State)
    requires Valid(s.life) && forall ref :: ref in s.life.refs ==> ref.token == Creation
    requires s.queue == s.arrivals == s.done == s.handled == [] && s.processors == [] && s.callbacks == map[]
    requires s.messages == {} && s.responseError.None? && s.straight == {} && !s.ready && !s.failed && !s.running
    ensures Inv(s)
  {}

  lemma InitialHolds()
    ensures Inv(INITIAL)
  {
    var life := Enter(BORN, Creation);
    assert life.refs == {Ref(Creation, Frame)};
    assert Tokens(life.refs) == {Creation};
    UntouchedHolds(INITIAL);
  }

  lemma {:induction false} Reachable(es: seq<Event>)
    ensures Run(es).Some? ==> Inv(Run(es).value)
  {
    if es == [] {
      InitialHolds();
    } else {
      Reachable(es[..|es| - 1]);
      if Run(es).Some? {
        StepKeeps(Run(es[..|es| - 1]).value, es[|es| - 1]);
      }
    }
  }

  // ---- Main results ----

  /** Responses are processed by at most one processor at a time and in arrival order, each once; an idle
      session has an empty deferred queue and everything that arrived is done. */
  lemma {:induction false} OneAtATimeInOrder(es: seq<Event>)
    requires Run(es).Some?
    ensures var s := Run(es).value;
            && |s.processors| <= 1
            && s.arrivals == s.done + Current(s) + s.queue
            && Distinct(s.arrivals)
            && (!s.running ==> s.processors == [] && s.queue == [] && s.done == s.arrivals)
  {
    Reachable(es);
  }

  /** When creation succeeded, the responses given to the handler are a prefix of the arrivals; the prefix
      ends at the first response whose handler threw, and until then nothing is skipped. */
  lemma {:induction false} HandledIsAPrefix(es: seq<Event>)
    requires Run(es).Some? && !Run(es).value.failed
    ensures var s := Run(es).value;
            && s.handled <= s.arrivals
            && (s.responseError.None? ==> s.done <= s.handled)
            && (s.responseError.Some? ==> EndsWith(s.handled, s.responseError.value))
  {
    Reachable(es);
  }

  /** `endRequest` runs at most once, and then no message is being consumed, no response is queued or being
      handled, no callback is inside, and none can enter any more. */
  lemma {:induction false} EndRequestComesLast(es: seq<Event>)
    requires Run(es).Some?
    ensures var s := Run(es).value;
            && s.life.ended <= 1
            && (s.life.ended == 1 ==>
                  && s.messages == {} && s.callbacks == map[] && s.queue == [] && s.processors == []
                  && s.life.gate.closed)
  {
    Reachable(es);
    var s := Run(es).value;
    EndsOnceAndLast(s.life);
    ActivityHoldsAReference(s);
  }

  lemma ActivityHoldsAReference(s: State)
    requires Inv(s)
    ensures s.messages != {} || s.callbacks != map[] || s.queue != [] || s.processors != [] ==> s.life.refs != {}
  {
    if m :| m in s.messages {
      assert Needed(s, Ref(Message(m), Frame));
    } else if r :| r in s.callbacks {
      assert Needed(s, Ref(Response(r), Frame));
    } else if s.processors != [] {
      assert Needed(s, Ref(Response(s.processors[0].owner), if s.processors[0].direct then Frame else Root));
    }
  }

  // ---- The mutex regions and the drain loop ----

  /** What draining `queue` gives to the handler: everything up to and including the
      first response whose handler throws, and nothing once an error is recorded. */
  function HandledBy(queue: seq<nat>, error: bool, throwing: set<nat>): seq<nat> {
    if error || queue == [] then []
    else [queue[0]] + HandledBy(queue[1..], queue[0] in throwing, throwing)
  }

  lemma {:induction false} HandledBySnoc(done: seq<nat>, r: nat, throwing: set<nat>)
    ensures HandledBy(done + [r], false, throwing) ==
            HandledBy(done, false, throwing) + if exists x :: x in done && x in throwing then [] else [r]
  {
    if done != [] {
      assert (done + [r])[1..] == done[1..] + [r];
      if done[0] !in throwing {
        HandledBySnoc(done[1..], r, throwing);
        assert forall x :: x in done <==> x == done[0] || x in done[1..];
      }
    }
  }

  function Flat(batches: seq<seq<nat>>): seq<nat> {
    if batches == [] then [] else Flat(batches[..|batches| - 1]) + batches[|batches| - 1]
  }

  lemma FlatSnoc(batches: seq<seq<nat>>, i: nat)
    requires i < |batches|
    ensures Flat(batches[..i + 1]) == Flat(batches[..i]) + batches[i]
  {
    assert batches[..i + 1][..i] == batches[..i];
  }

  lemma BothGrow(a: seq<nat>, b: seq<nat>, c: seq<nat>, d: seq<nat>, more: seq<nat>)
    requires a + b == c + d
    ensures a + (b + more) == c + (d + more)
  {
    assert a + (b + more) == a + b + more && c + (d + more) == c + d + more;
  }

  /** The fields of a session behind `receiveResponse` and `drainResponses`: `failed` is a recorded response error,
      `creationFailed` the error of the cell. */
  class ResponseQueue {
    var running: bool
    var deferred: seq<nat>
    var failed: bool
    const creationFailed: bool

    constructor (creationFailed: bool)
      ensures !running && deferred == [] && !failed && this.creationFailed == creationFailed
    {
      running, deferred, failed, this.creationFailed := false, [], false, creationFailed;
    }

    /** `receiveResponse` under its mutex; `process` means the caller handles the response itself. */
    method Receive(r: nat, ready: bool, ghost s: State) returns (process: bool, launch: bool)
      requires running == s.running && deferred == s.queue && ready == s.ready
      modifies this
      ensures running == ReceiveLocked(s, r).running && deferred == ReceiveLocked(s, r).queue
      ensures !(process && launch)
      ensures ReceiveLocked(s, r).processors ==
                s.processors + (if process then [Processor(r, true, Checking(r))]
                                else if launch then [Processor(r, false, Blocked)] else [])
    {
      process, launch := true, false;
      if !ready || running {
        deferred := deferred + [r];
        process, launch := false, !running;
      }
      running := true;
    }

    /** One round of the drain under its mutex: nothing left and idle, or the oldest deferred response. */
    method Take(ghost s: State, ghost at: nat) returns (next: Option<nat>)
      requires at < |s.processors| && running == s.running && deferred == s.queue
      modifies `running, `deferred
      ensures running == TakeLocked(s, at).running && deferred == TakeLocked(s, at).queue
      ensures next.None? <==> s.queue == []
      ensures next.Some? ==> [next.value] + deferred == s.queue
    {
      if deferred == [] {
        running := false;
        return None;
      }
      next, deferred := Some(deferred[0]), deferred[1..];
    }

    /** `drainResponses`; `throwing` are the responses whose handler throws. Before round `i` the transport has deferred
        `arriving[i]`; the drain ends at the first round that finds nothing, having seen `rounds` such batches. */
    method Drain(throwing: set<nat>, arriving: seq<seq<nat>>) returns (handled: seq<nat>, rounds: nat)
      modifies this
      ensures rounds <= |arriving|
      ensures handled == HandledBy(old(deferred) + Flat(arriving[..rounds]), old(failed) || creationFailed, throwing)
      ensures deferred == [] && !running
      ensures var all := old(deferred) + Flat(arriving[..rounds]);
              failed <==> old(failed) || (!creationFailed && exists r :: r in all && r in throwing)
    {
      handled, rounds := [], 0;
      ghost var taken: seq<nat> := [];
      while true
        invariant rounds <= |arriving| && taken + deferred == old(deferred) + Flat(arriving[..rounds])
        invariant failed <==> old(failed) || (!creationFailed && exists r :: r in taken && r in throwing)
        invariant handled == if old(failed) || creationFailed then [] else HandledBy(taken, false, throwing)
        decreases |arriving| - rounds, |deferred|
      {
        if rounds < |arriving| {
          FlatSnoc(arriving, rounds);
          BothGrow(taken, deferred, old(deferred), Flat(arriving[..rounds]), arriving[rounds]);
          deferred, rounds := deferred + arriving[rounds], rounds + 1;
        }
        if deferred == [] {
          break;
        }
        var r := deferred[0];
        HandledBySnoc(taken, r, throwing);
        assert taken + deferred == taken + [r] + deferred[1..];
        taken, deferred := taken + [r], deferred[1..];
        if !creationFailed && !failed {
          handled := handled + [r];
          failed := r in throwing;
        }
      }
      assert taken == old(deferred) + Flat(arriving[..rounds]);
      running := false;
    }
  }
}
