/** `ClientWriteQueue`: callers push requests and wait for the transport's outcome, one transport
    coroutine pops them, and `fail` or `close` may come from anywhere at any moment.

    Each event is one mutex region. What a method does after releasing the mutex (completing
    writes, sending the wake-up) is a pending task that runs later, in any order. `PopperThrown` is
    an exception that leaves the popping loop, from `pop` itself or from the write. */
module WriteQueues {
  import opened Options
  import opened Sequences

  datatype Outcome = Written | Failed(error: nat)

  datatype Task = Finish(write: nat, error: nat) | Send(event: nat)

  /** The transport coroutine: at the top of `pop`, suspended on an event, writing, between
      `write->complete()` and `active_.reset()`, or out of its loop. */
  datatype Popper = Idle | Waiting(event: nat) | Writing(write: nat) | Resetting(write: nat) | Stopped

  datatype State = State(
    values: seq<nat>, active: Option<nat>, available: Option<nat>, failure: Option<nat>, closed: bool,
    outcomes: map<nat, Outcome>, sent: set<nat>, nextEvent: nat, tasks: set<Task>, popper: Popper,
    accepted: seq<nat>, popped: seq<nat>)

  const INITIAL := State([], None, None, None, false, map[], {}, 0, {}, Idle, [], [])

  /** Detaching the registered event leaves its send to be done. */
  function Notify(s: State): State {
    match s.available
    case None => s
    case Some(e) => s.(available := None, tasks := s.tasks + {Send(e)})
  }

  function Push(s: State, w: nat): State {
    if s.failure.Some? || s.closed then s
    else Notify(s.(values := s.values + [w], accepted := s.accepted + [w]))
  }

  function Close(s: State): State {
    if s.closed then s else Notify(s.(closed := true))
  }

  /** The writes that `fail` takes over: the one in flight and everything queued. */
  function Orphans(s: State): set<nat> {
    (set w | w in s.values) + (if s.active.Some? then {s.active.value} else {})
  }

  function Fail(s: State, error: nat): State {
    var first := if s.failure.Some? then s.failure.value else error;
    Notify(s.(failure := Some(first), closed := true, values := [], active := None,
              tasks := s.tasks + set w | w in Orphans(s) :: Finish(w, first)))
  }

  /** `pop` under the mutex: a value, the end, or an event to wait for. */
  function Pop(s: State): State
    requires s.popper.Idle?
  {
    if s.values != [] then
      s.(values := s.values[1..], active := Some(s.values[0]), popper := Writing(s.values[0]),
         popped := s.popped + [s.values[0]])
    else if s.closed then s.(popper := Stopped)
    else if s.available.Some? then s.(popper := Waiting(s.available.value))
    else s.(available := Some(s.nextEvent), nextEvent := s.nextEvent + 1, popper := Waiting(s.nextEvent))
  }

  /** `Write::complete`: only the first outcome counts. */
  function Settle(s: State, w: nat, outcome: Outcome): State {
    if w in s.outcomes then s else s.(outcomes := s.outcomes[w := outcome])
  }

  datatype Event =
    | PushWrite(write: nat)
    | CloseQueue
    | FailQueue(error: nat)
    | PopLocked
    | PopResumes(cancelled: bool)
    | PopCancelled(error: nat)
    | WriteDone
    | ResetActive
    | PopperThrown
    | RunTask(task: Task)

  function Step(s: State, e: Event): Option<State> {
    match e
    case PushWrite(w) => if w in s.accepted then None else Some(Push(s, w))
    case CloseQueue => Some(Close(s))
    case FailQueue(error) => Some(Fail(s, error))
    case PopLocked => if s.popper.Idle? then Some(Pop(s)) else None
    case PopResumes(cancelled) =>
      if s.popper.Waiting? && (cancelled || s.popper.event in s.sent) then Some(s.(popper := Idle)) else None
    case PopCancelled(error) =>
      if s.popper.Idle? then Some(Fail(s, error).(popper := Stopped)) else None
    case WriteDone =>
      if s.popper.Writing? then Some(Settle(s, s.popper.write, Written).(popper := Resetting(s.popper.write)))
      else None
    case ResetActive =>
      if s.popper.Resetting? then
        Some(s.(active := if s.active == Some(s.popper.write) then None else s.active, popper := Idle))
      else None
    case PopperThrown => if s.popper.Stopped? then None else Some(s.(popper := Stopped))
    case RunTask(task) =>
      if task !in s.tasks then None
      else
        var t := s.(tasks := s.tasks - {task});
        match task
        case Finish(w, error) => Some(Settle(t, w, Failed(error)))
        case Send(event) => Some(t.(sent := t.sent + {event}))
  }

  function Run(es: seq<Event>): Option<State> {
    if es == [] then Some(INITIAL)
    else match Run(es[..|es| - 1]) case None => None case Some(s) => Step(s, es[|es| - 1])
  }

  // ---- Invariant ----

  /** Popped writes are a prefix of the accepted ones, and while nothing failed the rest is queued. */
  ghost predicate Order(s: State) {
    && Distinct(s.accepted)
    && s.popped <= s.accepted
    && (if s.failure.Some? then s.values == [] && s.active.None? && s.closed
        else s.accepted == s.popped + s.values)
    && (s.active.Some? ==> s.active.value in s.accepted)
  }

  /** Only the transport coroutine has an active write. */
  ghost predicate Active(s: State) {
    match s.popper
    case Idle => s.active.None?
    case Waiting(_) => s.active.None?
    case Writing(w) => w in s.accepted && (s.active.Some? ==> s.active.value == w)
    case Resetting(w) => w in s.outcomes && (s.active.Some? ==> s.active.value == w)
    case Stopped => true
  }

  /** Some party still answers for every accepted write without an outcome. */
  predicate Accounted(s: State, w: nat) {
    || w in s.outcomes
    || w in s.values
    || s.active == Some(w)
    || (s.failure.Some? && Finish(w, s.failure.value) in s.tasks)
  }

  ghost predicate Outcomes(s: State) {
    && (forall w :: w in s.accepted ==> Accounted(s, w))
    && (forall w :: w in s.outcomes ==>
          w in s.accepted && (s.outcomes[w].Failed? ==> s.failure == Some(s.outcomes[w].error)))
    && (forall k :: k in s.tasks && k.Finish? ==> k.write in s.accepted && s.failure == Some(k.error))
  }

  /** A parked popper's event was sent, is about to be, or is registered with nothing to pop. */
  ghost predicate Wakeups(s: State) {
    && (s.available.Some? ==> s.available.value < s.nextEvent && s.values == [] && !s.closed)
    && (s.popper.Waiting? ==>
          s.popper.event in s.sent || Send(s.popper.event) in s.tasks || s.available == Some(s.popper.event))
  }

  ghost predicate Inv(s: State) { Order(s) && Active(s) && Outcomes(s) && Wakeups(s) }

  /** What never changes any more: outcomes, the first failure, the accepted order, closing. */
  ghost predicate Extends(s: State, t: State) {
    && (forall w :: w in s.outcomes ==> w in t.outcomes && t.outcomes[w] == s.outcomes[w])
    && (s.failure.Some? ==> t.failure == s.failure)
    && s.accepted <= t.accepted
    && s.popped <= t.popped
    && (s.closed ==> t.closed && t.accepted == s.accepted)
  }

  // ---- Preservation ----

  lemma NotifyKeeps(s: State)
    requires Order(s) && Active(s) && Outcomes(s)
    requires s.available.Some? ==> s.available.value < s.nextEvent
    requires s.popper.Waiting? ==>
               s.popper.event in s.sent || Send(s.popper.event) in s.tasks || s.available == Some(s.popper.event)
    ensures Inv(Notify(s))
  {
    var t := Notify(s);
    forall w | w in t.accepted ensures Accounted(t, w) { assert Accounted(s, w); }
  }

  lemma PushKeeps(s: State, w: nat)
    requires Inv(s) && w !in s.accepted
    ensures Inv(Push(s, w)) && Extends(s, Push(s, w))
  {
    if s.failure.None? && !s.closed {
      var t := s.(values := s.values + [w], accepted := s.accepted + [w]);
      assert t.accepted == t.popped + t.values;
      forall v | v in t.accepted ensures Accounted(t, v) {
        if v in s.accepted { assert Accounted(s, v); } else { assert v == w; }
      }
      NotifyKeeps(t);
    }
  }

  lemma CloseKeeps(s: State)
    requires Inv(s)
    ensures Inv(Close(s)) && Extends(s, Close(s))
  {
    if !s.closed {
      var t := s.(closed := true);
      forall v | v in t.accepted ensures Accounted(t, v) { assert Accounted(s, v); }
      NotifyKeeps(t);
    }
  }

  lemma FailKeeps(s: State, error: nat)
    requires Inv(s)
    ensures Inv(Fail(s, error)) && Extends(s, Fail(s, error))
    ensures Fail(s, error).active.None? && Fail(s, error).failure.Some?
  {
    var first := if s.failure.Some? then s.failure.value else error;
    var t := s.(failure := Some(first), closed := true, values := [], active := None,
                tasks := s.tasks + set w | w in Orphans(s) :: Finish(w, first));
    forall v | v in t.accepted ensures Accounted(t, v) {
      assert Accounted(s, v);
      if v in s.values || s.active == Some(v) {
        assert v in Orphans(s);
      }
    }
    forall k | k in t.tasks && k.Finish? ensures k.write in t.accepted && t.failure == Some(k.error) {
      if k !in s.tasks {
        assert k.write in Orphans(s);
      }
    }
    NotifyKeeps(t);
  }

  lemma PopKeeps(s: State)
    requires Inv(s) && s.popper.Idle?
    ensures Inv(Pop(s)) && Extends(s, Pop(s))
  {
    var t := Pop(s);
    if s.values != [] {
      assert s.values == [s.values[0]] + s.values[1..];
      assert t.accepted == t.popped + t.values;
      assert t.accepted[|s.popped|] == s.values[0];
    }
    forall v | v in t.accepted ensures Accounted(t, v) { assert Accounted(s, v); }
  }

  lemma SettleKeeps(s: State, w: nat, outcome: Outcome)
    requires Inv(s) && w in s.accepted
    requires outcome.Failed? ==> s.failure == Some(outcome.error)
    ensures Inv(Settle(s, w, outcome)) && Extends(s, Settle(s, w, outcome))
  {
    var t := Settle(s, w, outcome);
    forall v | v in t.accepted ensures Accounted(t, v) { assert Accounted(s, v); }
  }

  lemma FinishKeeps(s: State, task: Task)
    requires Inv(s) && task in s.tasks && task.Finish?
    ensures Inv(Step(s, RunTask(task)).value) && Extends(s, Step(s, RunTask(task)).value)
  {
    var t := Settle(s, task.write, Failed(task.error));
    SettleKeeps(s, task.write, Failed(task.error));
    var u := t.(tasks := t.tasks - {task});
    forall v | v in u.accepted ensures Accounted(u, v) { assert Accounted(t, v); }
    assert Step(s, RunTask(task)).value == u;
  }

  lemma TransportKeeps(s: State, e: Event)
    requires Inv(s) && Step(s, e).Some?
    requires e.PopResumes? || e.ResetActive? || e.PopperThrown? || (e.RunTask? && e.task.Send?)
    ensures Inv(Step(s, e).value) && Extends(s, Step(s, e).value)
  {
    var t := Step(s, e).value;
    forall v | v in t.accepted ensures Accounted(t, v) { assert Accounted(s, v); }
  }

  lemma StepKeeps(s: State, e: Event)
    requires Inv(s) && Step(s, e).Some?
    ensures Inv(Step(s, e).value) && Extends(s, Step(s, e).value)
  {
    match e
    case PushWrite(w) => PushKeeps(s, w);
    case CloseQueue => CloseKeeps(s);
    case FailQueue(error) => FailKeeps(s, error);
    case PopLocked => PopKeeps(s);
    case PopCancelled(error) => CancelKeeps(s, error);
    case WriteDone => WriteDoneKeeps(s);
    case RunTask(task) =>
      if task.Finish? {
        FinishKeeps(s, task);
      } else {
        TransportKeeps(s, e);
      }
    case _ => TransportKeeps(s, e);
  }

  lemma CancelKeeps(s: State, error: nat)
    requires Inv(s) && s.popper.Idle?
    ensures Inv(Fail(s, error).(popper := Stopped)) && Extends(s, Fail(s, error).(popper := Stopped))
  {
    FailKeeps(s, error);
    var t := Fail(s, error);
    forall v | v in t.accepted ensures Accounted(t.(popper := Stopped), v) { assert Accounted(t, v); }
  }

  lemma WriteDoneKeeps(s: State)
    requires Inv(s) && s.popper.Writing?
    ensures Inv(Step(s, WriteDone).value) && Extends(s, Step(s, WriteDone).value)
  {
    var w := s.popper.write;
    var t := Settle(s, w, Written);
    SettleKeeps(s, w, Written);
    var u := t.(popper := Resetting(w));
    forall v | v in u.accepted ensures Accounted(u, v) { assert Accounted(t, v); }
  }

  lemma {:induction false} Reachable(es: seq<Event>)
    ensures Run(es).Some? ==> Inv(Run(es).value)
  {
    if es != [] {
      Reachable(es[..|es| - 1]);
      if Run(es).Some? {
        StepKeeps(Run(es[..|es| - 1]).value, es[|es| - 1]);
      }
    }
  }

  lemma {:induction false} Later(es: seq<Event>, fs: seq<Event>)
    requires Run(es + fs).Some?
    ensures Run(es).Some? && Extends(Run(es).value, Run(es + fs).value)
  {
    if fs == [] {
      assert es + fs == es;
    } else {
      var gs := fs[..|fs| - 1];
      assert (es + fs)[..|es + fs| - 1] == es + gs;
      Later(es, gs);
      Reachable(es + gs);
      StepKeeps(Run(es + gs).value, fs[|fs| - 1]);
    }
  }

  // ---- Main results ----

  /** An outcome, once given, never changes; neither does the first failure, which is what every later
      push sees; nothing is accepted after the queue closed or failed. */
  lemma {:induction false} OutcomesAreImmutable(es: seq<Event>, fs: seq<Event>, w: nat)
    requires Run(es + fs).Some?
    ensures Run(es).Some?
    ensures var s, t := Run(es).value, Run(es + fs).value;
            && (w in s.outcomes ==> w in t.outcomes && t.outcomes[w] == s.outcomes[w])
            && (s.failure.Some? ==> t.failure == s.failure)
            && (s.closed || s.failure.Some? ==> t.accepted == s.accepted && Push(t, w) == t)
  {
    Later(es, fs);
    Reachable(es);
    Reachable(es + fs);
  }

  /** Popped writes are the accepted ones in order; until a failure everything accepted and not popped is
      still queued, also after `close`, and the next pop takes the oldest. */
  lemma {:induction false} CloseStillDrains(es: seq<Event>)
    requires Run(es).Some?
    ensures var s := Run(es).value;
            && s.popped <= s.accepted
            && (s.failure.None? ==> s.accepted[|s.popped|..] == s.values)
            && (s.failure.None? && s.popper.Idle? && |s.popped| < |s.accepted| ==>
                  Step(s, PopLocked).value.popper == Writing(s.accepted[|s.popped|]))
  {
    Reachable(es);
    var s := Run(es).value;
    if s.failure.None? {
      assert s.accepted[|s.popped|..] == s.values;
    }
  }

  /** After `fail`, once its pending completions ran, no accepted write is left without an outcome, and
      every failed one carries the first failure. */
  lemma {:induction false} FailCompletesEverything(es: seq<Event>)
    requires Run(es).Some? && Run(es).value.failure.Some?
    ensures var s := Run(es).value;
            && (forall w :: w in s.accepted && w !in s.outcomes ==> Finish(w, s.failure.value) in s.tasks)
            && (forall w :: w in s.outcomes && s.outcomes[w].Failed? ==> s.outcomes[w].error == s.failure.value)
  {
    Reachable(es);
    var s := Run(es).value;
    forall w | w in s.accepted && w !in s.outcomes ensures Finish(w, s.failure.value) in s.tasks {
      assert Accounted(s, w);
    }
  }

  /** No wake-up is lost: a parked popper's event was sent, its send is pending, or the event is still
      registered and then there is nothing to pop and the queue is open. */
  lemma {:induction false} NoLostWakeup(es: seq<Event>)
    requires Run(es).Some? && Run(es).value.popper.Waiting?
    ensures var s := Run(es).value;
            var e := s.popper.event;
            e in s.sent || Send(e) in s.tasks || (s.available == Some(e) && s.values == [] && !s.closed)
  {
    Reachable(es);
  }

  // ---- The mutex regions themselves ----

  /** The queue's own fields; each method is its mutex region and returns what is left to do. */
  class ClientWriteQueue {
    var values: seq<nat>
    var active: Option<nat>
    var available: Option<nat>
    var failure: Option<nat>
    var closed: bool
    var nextEvent: nat

    /** The fields of `s` that the mutex protects. */
    ghost predicate Shows(s: State)
      reads this
    {
      && s.values == values && s.active == active && s.available == available
      && s.failure == failure && s.closed == closed && s.nextEvent == nextEvent
    }

    constructor ()
      ensures Shows(INITIAL)
    {
      values, active, available, failure, closed, nextEvent := [], None, None, None, false, 0;
    }

    method PushLocked(w: nat, ghost s: State) returns (accepted: bool, wake: Option<nat>)
      requires Shows(s)
      modifies this
      ensures Shows(Push(s, w))
      ensures accepted <==> Push(s, w).accepted == s.accepted + [w]
      ensures wake.Some? ==> Push(s, w).tasks == s.tasks + {Send(wake.value)}
      ensures wake.None? ==> Push(s, w).tasks == s.tasks
    {
      if failure.Some? || closed {
        return false, None;
      }
      values := values + [w];
      wake, available := available, None;
      accepted := true;
    }

    /** `fail` up to the completions: the loop over `pending` produces one completion per write. */
    method FailLocked(error: nat, ghost s: State) returns (completions: set<Task>, wake: Option<nat>)
      requires Shows(s)
      modifies this
      ensures Shows(Fail(s, error))
      ensures Fail(s, error).tasks == s.tasks + completions + (if wake.Some? then {Send(wake.value)} else {})
    {
      var first := if failure.Some? then failure.value else error;
      failure, closed := Some(first), true;
      completions := if active.Some? then {Finish(active.value, first)} else {};
      var i := 0;
      while i < |values|
        invariant i <= |values|
        invariant completions ==
          (set j | 0 <= j < i :: Finish(values[j], first))
          + (if active.Some? then {Finish(active.value, first)} else {})
      {
        completions := completions + {Finish(values[i], first)};
        i := i + 1;
      }
      assert completions == set w | w in Orphans(s) :: Finish(w, first);
      wake, available := available, None;
      values, active := [], None;
    }

    method CloseLocked(ghost s: State) returns (wake: Option<nat>)
      requires Shows(s)
      modifies this
      ensures Shows(Close(s))
      ensures Close(s).tasks == s.tasks + (if wake.Some? then {Send(wake.value)} else {})
    {
      if closed {
        return None;
      }
      closed := true;
      wake, available := available, None;
    }

    method PopLocked(ghost s: State) returns (popper: Popper)
      requires Shows(s) && s.popper.Idle?
      modifies this
      ensures Shows(Pop(s)) && popper == Pop(s).popper
    {
      if values != [] {
        active := Some(values[0]);
        popper := Writing(values[0]);
        values := values[1..];
      } else if closed {
        popper := Stopped;
      } else {
        if available.None? {
          available, nextEvent := Some(nextEvent), nextEvent + 1;
        }
        popper := Waiting(available.value);
      }
    }
  }
}
