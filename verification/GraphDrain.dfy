/** Graph drain of the execution environment: two counters, an input gate and one replaceable event. */
module GraphDrains {
  import opened Options
  import opened DrainWaits

  const MAX_INPUT: nat := 0x7FFF_FFFF_FFFF_FFFF

  datatype State = State(input: nat, parallel: nat, inputClosed: bool, accepting: bool, core: Core)

  const INITIAL := State(0, 0, false, true, EMPTY)

  datatype Event =
    | BeginInput
    | Parallel
    | FinishInput
    | FinishParallel
    | SendEvent(event: nat)
    | StartDrain(drainer: nat)
    | Woken(drainer: nat)
    | Cancelled(drainer: nat)
    | Expired(drainer: nat)
    | StopAccepting

  function Step(s: State, e: Event): Option<State> {
    match e
    case BeginInput =>
      if s.inputClosed || s.input == MAX_INPUT then Some(s)
      else Some(s.(input := s.input + 1, core := Enter(s.core)))
    case Parallel =>
      if !s.accepting then Some(s) else Some(s.(parallel := s.parallel + 1, core := Enter(s.core)))
    case FinishInput =>
      if s.input == 0 || s.core.work == 0 then None
      else Some(s.(input := s.input - 1, core := Leave(s.core)))
    case FinishParallel =>
      if s.parallel == 0 || s.core.work == 0 then None
      else Some(s.(parallel := s.parallel - 1, core := Leave(s.core)))
    case SendEvent(n) => if n !in s.core.sending then None else Some(s.(core := Signal(s.core, n)))
    case StartDrain(d) =>
      if Of(s.core, d).Waiting? then None else Some(s.(inputClosed := true, core := Check(s.core, d)))
    case Woken(d) =>
      if Of(s.core, d).Waiting? && Of(s.core, d).event in s.core.sent then Some(s.(core := Check(s.core, d)))
      else None
    case Cancelled(d) =>
      if Of(s.core, d).Waiting? then Some(s.(core := Cancel(s.core, d))) else None
    case Expired(d) =>
      if Of(s.core, d).Waiting? then Some(s.(core := GiveUp(s.core, d))) else None
    case StopAccepting => Some(s.(accepting := false))
  }

  function Run(es: seq<Event>): Option<State> {
    if es == [] then Some(INITIAL)
    else match Run(es[..|es| - 1]) case None => None case Some(s) => Step(s, es[|es| - 1])
  }

  ghost predicate Inv(s: State) {
    && s.core.work == s.input + s.parallel
    && s.input <= MAX_INPUT
    && Sound(s.core)
  }

  lemma StepKeeps(s: State, e: Event)
    requires Inv(s) && Step(s, e).Some?
    ensures Inv(Step(s, e).value)
    ensures NobodyStranded(s.core) && !Strands(s, e) ==> NobodyStranded(Step(s, e).value.core)
  {
    match e
    case BeginInput => EnterKeeps(s.core);
    case Parallel => EnterKeeps(s.core);
    case FinishInput => LeaveKeeps(s.core);
    case FinishParallel => LeaveKeeps(s.core);
    case SendEvent(n) => SignalKeeps(s.core, n);
    case StartDrain(d) => CheckKeeps(s.core, d);
    case Woken(d) => CheckKeeps(s.core, d);
    case Cancelled(d) => CancelKeeps(s.core, d);
    case Expired(d) => GiveUpStrandsExactly(s.core, d);
    case StopAccepting =>
  }

  lemma {:induction false} Reachable(es: seq<Event>)
    ensures Run(es).Some? ==> Inv(Run(es).value)
  {
    if es == [] {
      EmptyIsSound();
    } else {
      Reachable(es[..|es| - 1]);
      if Run(es).Some? {
        StepKeeps(Run(es[..|es| - 1]).value, es[|es| - 1]);
      }
    }
  }

  // ---- Who is woken ----

  /** The step that loses a wake-up: an expiring drainer discards an event that another one waits on. */
  ghost predicate Strands(s: State, e: Event) {
    e.Expired? && Of(s.core, e.drainer).Waiting? && Discards(s.core, e.drainer)
  }

  /** From a state where nobody is stranded, a step strands a drainer exactly when it is a discarding expiry. */
  lemma StrandsExactly(s: State, e: Event)
    requires Inv(s) && NobodyStranded(s.core) && Step(s, e).Some?
    ensures NobodyStranded(Step(s, e).value.core) <==> !Strands(s, e)
  {
    StepKeeps(s, e);
    if e.Expired? {
      GiveUpStrandsExactly(s.core, e.drainer);
    }
  }

  ghost predicate NeverStrands(es: seq<Event>)
    requires Run(es).Some?
  {
    es == [] || (NeverStrands(es[..|es| - 1]) && !Strands(Run(es[..|es| - 1]).value, es[|es| - 1]))
  }

  /** No wake-up is lost: a parked drainer's event is sent, or about to be, or registered with work left to finish. */
  lemma {:induction false} NoLostWakeup(es: seq<Event>)
    requires Run(es).Some? && NeverStrands(es)
    ensures NobodyStranded(Run(es).value.core)
    ensures var c := Run(es).value.core;
            c.work == 0 && c.sending == {} ==> forall d :: Of(c, d).Waiting? ==> Of(c, d).event in c.sent
  {
    if es == [] {
      EmptyIsSound();
    } else {
      NoLostWakeup(es[..|es| - 1]);
      Reachable(es[..|es| - 1]);
      StepKeeps(Run(es[..|es| - 1]).value, es[|es| - 1]);
    }
    Reachable(es);
    QuietMeansSent(Run(es).value.core);
  }

  lemma QuietMeansSent(c: Core)
    requires Sound(c) && NobodyStranded(c)
    ensures c.work == 0 && c.sending == {} ==> forall d :: Of(c, d).Waiting? ==> Of(c, d).event in c.sent
  {
    forall d | Of(c, d).Waiting? && c.work == 0 && c.sending == {} ensures Of(c, d).event in c.sent {
      assert !Stranded(c, d);
    }
  }

  /** Does every drain start with nobody else waiting? */
  ghost predicate OneAtATime(es: seq<Event>)
    requires Run(es).Some?
  {
    es == [] ||
    var s := Run(es[..|es| - 1]).value;
    && OneAtATime(es[..|es| - 1])
    && (es[|es| - 1].StartDrain? ==> forall d :: !Of(s.core, d).Waiting?)
  }

  ghost predicate OneWaits(c: Core) { forall d, x :: Of(c, d).Waiting? && Of(c, x).Waiting? ==> d == x }

  lemma OneWaitsKept(s: State, e: Event)
    requires OneWaits(s.core) && Step(s, e).Some?
    requires e.StartDrain? ==> forall d :: !Of(s.core, d).Waiting?
    ensures OneWaits(Step(s, e).value.core)
  {
    var c, t := s.core, Step(s, e).value.core;
    if e.StartDrain? || e.Woken? || e.Expired? {
      assert forall x :: x != e.drainer ==> Of(t, x) == Of(c, x);
    } else {
      assert forall x :: Of(t, x) == Of(c, x);
    }
  }

  /** With one drainer at a time no run strands anybody, whatever earlier drains discarded. */
  lemma {:induction false} OneDrainerNeverStrands(es: seq<Event>)
    requires Run(es).Some? && OneAtATime(es)
    ensures OneWaits(Run(es).value.core) && NeverStrands(es)
  {
    if es != [] {
      OneDrainerNeverStrands(es[..|es| - 1]);
      OneWaitsKept(Run(es[..|es| - 1]).value, es[|es| - 1]);
    }
  }

  lemma {:induction false} OneDrainerIsWoken(es: seq<Event>)
    requires Run(es).Some? && OneAtATime(es)
    ensures NobodyStranded(Run(es).value.core)
  {
    OneDrainerNeverStrands(es);
    NoLostWakeup(es);
  }

  /** Steps after which a drainer parked on `n` could still be woken. */
  predicate Rescues(s: State, e: Event, d: nat, n: nat) {
    || (e.Cancelled? && Of(s.core, e.drainer) == Waiting(n))
    || e == Expired(d)
  }

  ghost predicate NoRescue(es: seq<Event>, fs: seq<Event>, d: nat, n: nat)
    requires Run(es + fs).Some?
  {
    fs == [] ||
    var gs := fs[..|fs| - 1];
    assert (es + fs)[..|es + fs| - 1] == es + gs;
    NoRescue(es, gs, d, n) && !Rescues(Run(es + gs).value, fs[|fs| - 1], d, n)
  }

  /** A stranded drainer stays parked in every continuation in which its own context, and that of any other
      drainer on the same event, lives on; in particular after all work has finished. */
  lemma {:induction false} StrandedForGood(es: seq<Event>, fs: seq<Event>, d: nat)
    requires Run(es).Some? && Run(es + fs).Some? && Stranded(Run(es).value.core, d)
    requires NoRescue(es, fs, d, Of(Run(es).value.core, d).event)
    ensures Stranded(Run(es + fs).value.core, d) && Of(Run(es + fs).value.core, d) == Of(Run(es).value.core, d)
  {
    if fs == [] {
      assert es + fs == es;
    } else {
      var gs := fs[..|fs| - 1];
      assert (es + fs)[..|es + fs| - 1] == es + gs;
      StrandedForGood(es, gs, d);
      Reachable(es + gs);
      StrandedStep(Run(es + gs).value, fs[|fs| - 1], d);
    }
  }

  lemma StrandedStep(s: State, e: Event, d: nat)
    requires Inv(s) && Step(s, e).Some? && Stranded(s.core, d) && !Rescues(s, e, d, Of(s.core, d).event)
    ensures Stranded(Step(s, e).value.core, d) && Of(Step(s, e).value.core, d) == Of(s.core, d)
  {}

  lemma {:induction false} RunOne(es: seq<Event>, e: Event)
    requires Run(es).Some?
    ensures Run(es + [e]) == Step(Run(es).value, e)
  {
    assert (es + [e])[..|es + [e]| - 1] == es;
  }

  const STRANDING := [BeginInput, StartDrain(0), StartDrain(1), Expired(0), FinishInput]

  /** Two drainers: the first one expires and discards the shared event, the last finisher finds no event to
      send, and the second drainer is parked although nothing is left to do. */
  lemma TwoDrainersLoseAWakeup()
    ensures Run(STRANDING).Some?
    ensures var c := Run(STRANDING).value.core; c.work == 0 && c.sending == {} && Stranded(c, 1)
  {
    var a := [BeginInput];
    var b := a + [StartDrain(0)];
    var c := b + [StartDrain(1)];
    var d := c + [Expired(0)];
    assert Run([]) == Some(INITIAL);
    assert [] + [BeginInput] == a;
    RunOne([], BeginInput);
    RunOne(a, StartDrain(0));
    RunOne(b, StartDrain(1));
    RunOne(c, Expired(0));
    RunOne(d, FinishInput);
    assert d + [FinishInput] == STRANDING;
  }

  // ---- What the answer means ----

  lemma AnswerStep(s: State, e: Event, d: nat)
    requires Inv(s) && Step(s, e).Some? && Of(s.core, d) != Of(Step(s, e).value.core, d)
    requires Of(Step(s, e).value.core, d).Returned?
    ensures var t := Step(s, e).value;
            && (Of(t.core, d).drained <==> t.core.work == 0) && (!Of(t.core, d).drained ==> e == Expired(d))
  {}

  /** A drain answers true exactly when, at that step, both counters are zero and input is closed; it answers
      false only when its context expired with work left. */
  lemma {:induction false} AnswersTruthfully(es: seq<Event>, e: Event, d: nat)
    requires Run(es).Some? && Step(Run(es).value, e).Some?
    requires Of(Run(es).value.core, d) != Of(Step(Run(es).value, e).value.core, d)
    requires Of(Step(Run(es).value, e).value.core, d).Returned?
    ensures var t := Step(Run(es).value, e).value;
            && (Of(t.core, d).drained <==> t.input == 0 && t.parallel == 0)
            && (!Of(t.core, d).drained ==> e == Expired(d))
  {
    Reachable(es);
    AnswerStep(Run(es).value, e, d);
    StepKeeps(Run(es).value, e);
  }

  lemma ZeroStable(s: State, e: Event)
    requires Inv(s) && s.inputClosed && s.core.work == 0 && Step(s, e).Some?
    ensures Step(s, e).value.inputClosed
    ensures Step(s, e).value.core.work == 0 <==> !(e.Parallel? && s.accepting)
  {}

  /** Only active work calls `parallel`. */
  ghost predicate Disciplined(es: seq<Event>, fs: seq<Event>)
    requires Run(es + fs).Some?
  {
    fs == [] ||
    var gs := fs[..|fs| - 1];
    assert (es + fs)[..|es + fs| - 1] == es + gs;
    Disciplined(es, gs) && (fs[|fs| - 1].Parallel? ==> Run(es + gs).value.core.work > 0)
  }

  /** After a drain answered true, nothing becomes active again as long as only active work calls `parallel`. */
  lemma {:induction false} DrainedStaysDrained(es: seq<Event>, fs: seq<Event>)
    requires Run(es).Some? && Run(es + fs).Some? && Disciplined(es, fs)
    requires Run(es).value.inputClosed && Run(es).value.core.work == 0
    ensures var t := Run(es + fs).value; t.inputClosed && t.input == 0 && t.parallel == 0
  {
    if fs == [] {
      assert es + fs == es;
      Reachable(es);
    } else {
      var gs := fs[..|fs| - 1];
      assert (es + fs)[..|es + fs| - 1] == es + gs;
      DrainedStaysDrained(es, gs);
      Reachable(es + gs);
      ZeroStable(Run(es + gs).value, fs[|fs| - 1]);
      Reachable(es + fs);
    }
  }

  /** Nothing is active after any of the events `fs`. */
  ghost predicate Quiet(es: seq<Event>, fs: seq<Event>)
    requires Run(es + fs).Some?
    decreases |fs|
  {
    && Run(es + fs).value.core.work == 0
    && (fs == [] || (assert (es + fs)[..|es + fs| - 1] == es + fs[..|fs| - 1]; Quiet(es, fs[..|fs| - 1])))
  }

  /** Every call of `parallel` among `fs` comes after parallel execution was stopped. */
  ghost predicate ParallelRefused(es: seq<Event>, fs: seq<Event>)
    requires Run(es + fs).Some?
    decreases |fs|
  {
    fs == [] ||
    var gs := fs[..|fs| - 1];
    assert (es + fs)[..|es + fs| - 1] == es + gs;
    ParallelRefused(es, gs) && (fs[|fs| - 1].Parallel? ==> !Run(es + gs).value.accepting)
  }

  /** Without that discipline: once drained, nothing is active at any later moment exactly when every later call
      of `parallel` is refused. */
  lemma {:induction false} QuietExactly(es: seq<Event>, fs: seq<Event>)
    requires Run(es).Some? && Run(es + fs).Some?
    requires Run(es).value.inputClosed && Run(es).value.core.work == 0
    ensures Quiet(es, fs) <==> ParallelRefused(es, fs)
    ensures Quiet(es, fs) ==> Run(es + fs).value.inputClosed
    decreases |fs|
  {
    if fs == [] {
      assert es + fs == es;
    } else {
      var gs := fs[..|fs| - 1];
      assert (es + fs)[..|es + fs| - 1] == es + gs;
      QuietExactly(es, gs);
      if Quiet(es, gs) {
        Reachable(es + gs);
        assert Run(es + gs).value.core.work == 0;
        ZeroStable(Run(es + gs).value, fs[|fs| - 1]);
      }
    }
  }

  /** The environment's fields and the lock regions that change them. */
  class ExecutionEnvironment {
    var inputInvocations: nat
    var parallelActive: nat
    var inputClosed: bool
    var parallelAccepting: bool
    var parallelDrained: Option<nat>
    var nextEvent: nat
    ghost var waits: Core

    ghost function View(): State
      reads this
    {
      State(inputInvocations, parallelActive, inputClosed, parallelAccepting, waits)
    }

    ghost predicate Valid()
      reads this
    {
      Inv(View()) && waits.registered == parallelDrained && waits.next == nextEvent
    }

    constructor ()
      ensures Valid() && View().input == 0 && View().parallel == 0 && !View().inputClosed && View().accepting
      ensures waits == EMPTY
    {
      inputInvocations, parallelActive, inputClosed, parallelAccepting := 0, 0, false, true;
      parallelDrained, nextEvent, waits := None, 0, EMPTY;
      new;
      EmptyIsSound();
    }

    method BeginInputInvocation() returns (admitted: bool)
      requires Valid()
      modifies this
      ensures Valid() && Step(old(View()), BeginInput) == Some(View())
      ensures admitted <==> !old(inputClosed) && old(inputInvocations) < MAX_INPUT
      ensures inputInvocations == old(inputInvocations) + if admitted then 1 else 0
    {
      admitted := !inputClosed && inputInvocations != MAX_INPUT;
      if admitted {
        EnterKeeps(waits);
        inputInvocations, waits := inputInvocations + 1, Enter(waits);
      }
    }

    /** The last one out takes the registered event with it, to be sent outside the lock. */
    method FinishInputInvocation() returns (notification: Option<nat>)
      requires Valid() && inputInvocations > 0
      modifies this
      ensures Valid() && Step(old(View()), FinishInput) == Some(View())
      ensures notification == if inputInvocations == 0 && parallelActive == 0 then old(parallelDrained) else None
      ensures waits.sending == old(waits.sending) + if notification.Some? then {notification.value} else {}
    {
      LeaveKeeps(waits);
      inputInvocations, notification := inputInvocations - 1, None;
      if inputInvocations == 0 && parallelActive == 0 {
        notification, parallelDrained := parallelDrained, None;
      }
      waits := Leave(waits);
    }

    method FinishParallelInvocation() returns (notification: Option<nat>)
      requires Valid() && parallelActive > 0
      modifies this
      ensures Valid() && Step(old(View()), FinishParallel) == Some(View())
      ensures notification == if inputInvocations == 0 && parallelActive == 0 then old(parallelDrained) else None
      ensures waits.sending == old(waits.sending) + if notification.Some? then {notification.value} else {}
    {
      LeaveKeeps(waits);
      parallelActive, notification := parallelActive - 1, None;
      if inputInvocations == 0 && parallelActive == 0 {
        notification, parallelDrained := parallelDrained, None;
      }
      waits := Leave(waits);
    }

    /** The first pass of the drain loop: close input, then return or park on the registered event. */
    method EnterDrain(d: nat) returns (notification: Option<nat>)
      requires Valid() && !Of(waits, d).Waiting?
      modifies this
      ensures Valid() && Step(old(View()), StartDrain(d)) == Some(View())
      ensures notification.None? <==> inputInvocations == 0 && parallelActive == 0
      ensures notification.Some? ==> Of(waits, d) == Waiting(notification.value) && parallelDrained == notification
    {
      CheckKeeps(waits, d);
      inputClosed, notification := true, None;
      if inputInvocations != 0 || parallelActive != 0 {
        if parallelDrained.None? {
          parallelDrained, nextEvent := Some(nextEvent), nextEvent + 1;
        }
        notification := parallelDrained;
      }
      waits := Check(waits, d);
    }

    /** The exit of a drainer whose context expired. */
    method AbandonDrain(d: nat, notification: nat) returns (drained: bool)
      requires Valid() && Of(waits, d) == Waiting(notification)
      modifies this
      ensures Valid() && Step(old(View()), Expired(d)) == Some(View())
      ensures drained <==> inputInvocations == 0 && parallelActive == 0
    {
      GiveUpStrandsExactly(waits, d);
      if parallelDrained == Some(notification) {
        parallelDrained := None;
      }
      drained := inputInvocations == 0 && parallelActive == 0;
      waits := GiveUp(waits, d);
    }
  }
}
