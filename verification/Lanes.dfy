/** Kafka partition lanes: one queue and one worker per partition, fed by the polling thread and stopped by it. */
module Lanes {
  import opened Options
  import R = Runs

  /** A worker waits on its queue, holds a message it took, runs the callback, or has left. */
  datatype Worker = Waiting | Holding(message: nat) | Calling | Exited

  /** `accepted` and `dispatched` record what was enqueued and what was handed to the callback. */
  datatype Lane = Lane(queue: seq<nat>, stopped: bool, worker: Worker, accepted: seq<nat>, dispatched: seq<nat>)

  const NEW := Lane([], false, Waiting, [], [])

  datatype Poller = Polling | Stopping | Joining | Done

  datatype State = State(lanes: map<nat, Lane>, running: bool, poller: Poller)

  const INITIAL := State(map[], true, Polling)

  datatype Event =
    | Enqueue(partition: nat, message: nat)
    | StopRequested
    | LeaveLoop
    | StopLane(partition: nat)
    | BeginJoin
    | Joined
    | Take(partition: nat)
    | Call(partition: nat)
    | Return(partition: nat, throws: bool)

  function Pushed(l: Lane, m: nat): Lane { l.(queue := l.queue + [m], accepted := l.accepted + [m]) }

  function StoppedLane(l: Lane): Lane { l.(stopped := true, queue := []) }

  /** The worker's locked region: a stop is seen before the queue. */
  function Taken(l: Lane): Option<Lane> {
    if l.worker != Waiting then None
    else if l.stopped then Some(l.(worker := Exited))
    else if l.queue == [] then None
    else Some(l.(worker := Holding(l.queue[0]), queue := l.queue[1..]))
  }

  function Called(l: Lane): Option<Lane> {
    if l.worker.Holding? then Some(l.(worker := Calling, dispatched := l.dispatched + [l.worker.message])) else None
  }

  function Returned(l: Lane, throws: bool, running: bool): Option<Lane> {
    if l.worker != Calling then None else Some(l.(worker := if throws || !running then Exited else Waiting))
  }

  function WithLane(s: State, p: nat, l: Option<Lane>): Option<State> {
    if l.None? then None else Some(s.(lanes := s.lanes[p := l.value]))
  }

  function Step(s: State, e: Event): Option<State> {
    match e
    case Enqueue(p, m) =>
      if s.poller != Polling then None
      else WithLane(s, p, Some(Pushed(if p in s.lanes then s.lanes[p] else NEW, m)))
    case StopRequested => Some(s.(running := false))
    case LeaveLoop => if s.poller != Polling then None else Some(s.(poller := Stopping))
    case StopLane(p) =>
      if s.poller != Stopping || p !in s.lanes then None else WithLane(s, p, Some(StoppedLane(s.lanes[p])))
    case BeginJoin =>
      if s.poller != Stopping || (exists p | p in s.lanes :: !s.lanes[p].stopped) then None
      else Some(s.(poller := Joining))
    case Joined =>
      if s.poller != Joining || (exists p | p in s.lanes :: s.lanes[p].worker != Exited) then None
      else Some(s.(poller := Done))
    case Take(p) => if p !in s.lanes then None else WithLane(s, p, Taken(s.lanes[p]))
    case Call(p) => if p !in s.lanes then None else WithLane(s, p, Called(s.lanes[p]))
    case Return(p, throws) =>
      if p !in s.lanes then None
      else
        match WithLane(s, p, Returned(s.lanes[p], throws, s.running))
        case None => None
        case Some(t) => Some(t.(running := t.running && !throws))
  }

  function Run(es: seq<Event>): Option<State> {
    if es == [] then Some(INITIAL)
    else match Run(es[..|es| - 1]) case None => None case Some(s) => Step(s, es[|es| - 1])
  }

  function Held(w: Worker): seq<nat> { if w.Holding? then [w.message] else [] }

  /** Until a lane is stopped nothing is lost; afterwards what was not taken is dropped from the end. */
  predicate InOrder(l: Lane) {
    && l.dispatched + Held(l.worker) + l.queue <= l.accepted
    && (!l.stopped ==> l.dispatched + Held(l.worker) + l.queue == l.accepted)
    && (l.stopped ==> l.queue == [])
  }

  ghost predicate Inv(s: State) {
    && (forall p | p in s.lanes :: InOrder(s.lanes[p]))
    && (s.poller == Polling ==> forall p | p in s.lanes :: !s.lanes[p].stopped)
    && (s.poller == Joining || s.poller == Done ==> forall p | p in s.lanes :: s.lanes[p].stopped)
    && (s.poller == Done ==> forall p | p in s.lanes :: s.lanes[p].worker == Exited)
  }

  lemma LaneSteps(l: Lane, m: nat, throws: bool, running: bool)
    requires InOrder(l)
    ensures !l.stopped ==> InOrder(Pushed(l, m))
    ensures InOrder(StoppedLane(l))
    ensures Taken(l).Some? ==> InOrder(Taken(l).value)
    ensures Called(l).Some? ==> InOrder(Called(l).value)
    ensures Returned(l, throws, running).Some? ==> InOrder(Returned(l, throws, running).value)
  {
    assert l.dispatched + Held(l.worker) <= l.accepted;
    if !l.stopped {
      PushOrder(l, m);
    }
    if l.worker == Waiting && l.queue != [] {
      assert l.queue == [l.queue[0]] + l.queue[1..];
      assert l.dispatched + [] + l.queue == l.dispatched + [l.queue[0]] + l.queue[1..];
    }
    if l.worker.Holding? {
      assert l.dispatched + [l.worker.message] + [] + l.queue == l.dispatched + Held(l.worker) + l.queue;
    }
    assert l.dispatched + Held(l.worker) + [] == l.dispatched + Held(l.worker);
  }

  lemma PushOrder(l: Lane, m: nat)
    requires InOrder(l) && !l.stopped
    ensures InOrder(Pushed(l, m))
  {
    assert l.dispatched + Held(l.worker) + (l.queue + [m]) == l.dispatched + Held(l.worker) + l.queue + [m];
  }

  lemma WithLaneKeeps(s: State, p: nat, l: Lane)
    requires Inv(s) && InOrder(l)
    requires s.poller == Polling ==> !l.stopped
    requires s.poller == Joining || s.poller == Done ==> l.stopped
    requires s.poller == Done ==> l.worker == Exited
    ensures Inv(s.(lanes := s.lanes[p := l]))
  {}

  lemma StepKeeps(s: State, e: Event)
    requires Inv(s) && Step(s, e).Some?
    ensures Inv(Step(s, e).value)
  {
    if e.StopRequested? || e.LeaveLoop? || e.BeginJoin? || e.Joined? {
      return;
    }
    var p := e.partition;
    var l := if p in s.lanes then s.lanes[p] else NEW;
    assert InOrder(NEW);
    match e
    case Enqueue(_, m) =>
      LaneSteps(l, m, false, false);
      WithLaneKeeps(s, p, Pushed(l, m));
    case StopLane(_) =>
      LaneSteps(l, 0, false, false);
      WithLaneKeeps(s, p, StoppedLane(l));
    case Take(_) =>
      LaneSteps(l, 0, false, false);
      WithLaneKeeps(s, p, Taken(l).value);
    case Call(_) =>
      LaneSteps(l, 0, false, false);
      WithLaneKeeps(s, p, Called(l).value);
    case Return(_, throws) =>
      LaneSteps(l, 0, throws, s.running);
      WithLaneKeeps(s, p, Returned(l, throws, s.running).value);
  }

  lemma {:induction false} Reachable(es: seq<Event>)
    ensures Run(es).Some? ==> Inv(Run(es).value)
  {
    if es != [] {
      Reachable(es[..|es| - 1]);
      if Run(es).Some? {
        StepKeeps(Run(es[..|es| - 1]).value, es[|es| - 1]);
      }
    }
  }

  /** For every partition the dispatched messages are a prefix of the enqueued ones, in order, and as long as the
      lane has not been stopped the rest is exactly what the worker holds and what is still queued. */
  lemma {:induction false} DispatchedIsAPrefix(es: seq<Event>, p: nat)
    requires Run(es).Some? && p in Run(es).value.lanes
    ensures var l := Run(es).value.lanes[p];
            && l.dispatched <= l.accepted
            && (!l.stopped ==> l.accepted == l.dispatched + Held(l.worker) + l.queue)
  {
    Reachable(es);
    assert InOrder(Run(es).value.lanes[p]);
  }

  /** Once `stopLanes` has returned, nothing is ever dispatched again. */
  lemma {:induction false} NothingAfterStop(es: seq<Event>, fs: seq<Event>)
    requires Run(es).Some? && Run(es + fs).Some? && Run(es).value.poller == Done
    ensures Run(es + fs).value.lanes == Run(es).value.lanes && Run(es + fs).value.poller == Done
  {
    if fs == [] {
      assert es + fs == es;
    } else {
      var gs := fs[..|fs| - 1];
      assert (es + fs)[..|es + fs| - 1] == es + gs;
      NothingAfterStop(es, gs);
      Reachable(es + gs);
      DoneIsFinal(Run(es + gs).value, fs[|fs| - 1]);
    }
  }

  lemma DoneIsFinal(s: State, e: Event)
    requires Inv(s) && s.poller == Done && Step(s, e).Some?
    ensures Step(s, e).value.lanes == s.lanes && Step(s, e).value.poller == Done
  {}

  // ---- The join comes to an end ----

  /** How many steps a worker of a stopped lane has left. */
  function StepsLeft(w: Worker): nat {
    match w
    case Holding(_) => 3
    case Calling => 2
    case Waiting => 1
    case Exited => 0
  }

  predicate OfWorker(e: Event, p: nat) { e == Take(p) || e == Call(p) || (e.Return? && e.partition == p) }

  function WorkerSteps(fs: seq<Event>, p: nat): nat {
    if fs == [] then 0 else WorkerSteps(fs[..|fs| - 1], p) + if OfWorker(fs[|fs| - 1], p) then 1 else 0
  }

  lemma StoppedStep(s: State, e: Event, p: nat)
    requires Inv(s) && Step(s, e).Some? && p in s.lanes && s.lanes[p].stopped
    ensures var t := Step(s, e).value;
            && p in t.lanes && t.lanes[p].stopped
            && StepsLeft(t.lanes[p].worker) + (if OfWorker(e, p) then 1 else 0) <= StepsLeft(s.lanes[p].worker)
  {}

  /** Whatever happens, the worker of a stopped lane takes at most its remaining steps, however long the run. */
  lemma {:induction false} StoppedWorkerIsBounded(es: seq<Event>, fs: seq<Event>, p: nat)
    requires Run(es).Some? && Run(es + fs).Some?
    requires p in Run(es).value.lanes && Run(es).value.lanes[p].stopped
    ensures var s, t := Run(es).value, Run(es + fs).value;
            && p in t.lanes && t.lanes[p].stopped
            && StepsLeft(t.lanes[p].worker) + WorkerSteps(fs, p) <= StepsLeft(s.lanes[p].worker)
  {
    if fs == [] {
      assert es + fs == es;
    } else {
      var gs := fs[..|fs| - 1];
      assert (es + fs)[..|es + fs| - 1] == es + gs;
      StoppedWorkerIsBounded(es, gs, p);
      Reachable(es + gs);
      StoppedStep(Run(es + gs).value, fs[|fs| - 1], p);
    }
  }

  /** What the worker of a stopped lane does next. */
  function NextOf(w: Worker, p: nat): Event {
    match w
    case Holding(_) => Call(p)
    case Calling => Return(p, false)
    case _ => Take(p)
  }

  lemma WorkerMoves(s: State, p: nat)
    requires p in s.lanes && s.lanes[p].stopped && s.lanes[p].worker != Exited
    ensures var e := NextOf(s.lanes[p].worker, p);
            && Step(s, e).Some?
            && var t := Step(s, e).value;
               && t.poller == s.poller && t.lanes.Keys == s.lanes.Keys
               && (forall q | q in s.lanes && q != p :: t.lanes[q] == s.lanes[q])
               && StepsLeft(t.lanes[p].worker) < StepsLeft(s.lanes[p].worker)
  {}

  /** The partitions whose workers have not left. */
  function Unfinished(s: State): set<nat> { set p | p in s.lanes && s.lanes[p].worker != Exited }

  lemma {:induction false} RunIsExec(es: seq<Event>)
    ensures Run(es) == R.Exec(Step, INITIAL, es)
  {
    if es != [] {
      RunIsExec(es[..|es| - 1]);
      R.ExecLast(Step, INITIAL, es);
    }
  }

  /** The worker of partition `p` alone goes on until it has left. */
  lemma {:induction false} WorkerLeaves(s: State, p: nat) returns (fs: seq<Event>)
    requires Inv(s) && s.poller == Joining && p in s.lanes
    ensures R.Exec(Step, s, fs).Some? && |fs| <= StepsLeft(s.lanes[p].worker)
    ensures var t := R.Exec(Step, s, fs).value; Inv(t) && t.poller == Joining && Unfinished(t) == Unfinished(s) - {p}
    decreases StepsLeft(s.lanes[p].worker)
  {
    if s.lanes[p].worker == Exited {
      return [];
    }
    WorkerMoves(s, p);
    var e := NextOf(s.lanes[p].worker, p);
    StepKeeps(s, e);
    var gs := WorkerLeaves(Step(s, e).value, p);
    fs := [e] + gs;
    R.ExecFirst(Step, s, e, gs);
  }

  lemma {:induction false} JoinFrom(s: State) returns (fs: seq<Event>)
    requires Inv(s) && s.poller == Joining
    ensures R.Exec(Step, s, fs).Some? && R.Exec(Step, s, fs).value.poller == Done && |fs| <= 3 * |Unfinished(s)| + 1
    decreases |Unfinished(s)|
  {
    if Unfinished(s) == {} {
      assert forall p | p in s.lanes :: p !in Unfinished(s);
      fs := [Joined];
      R.ExecOne(Step, s, Joined);
    } else {
      var p :| p in Unfinished(s);
      var gs := WorkerLeaves(s, p);
      var hs := JoinFrom(R.Exec(Step, s, gs).value);
      R.ExecConcat(Step, s, gs, hs);
      fs := gs + hs;
    }
  }

  /** `stopLanes` does not hang: from every state in which it joins, the workers can all leave, in at most three
      steps each, and then it returns. */
  lemma {:induction false} JoinTerminates(es: seq<Event>) returns (fs: seq<Event>)
    requires Run(es).Some? && Run(es).value.poller == Joining
    ensures Run(es + fs).Some? && Run(es + fs).value.poller == Done
    ensures |fs| <= 3 * |Unfinished(Run(es).value)| + 1
  {
    Reachable(es);
    fs := JoinFrom(Run(es).value);
    RunIsExec(es);
    RunIsExec(es + fs);
    R.ExecConcat(Step, INITIAL, es, fs);
  }

  /** A lane as the threads update it. */
  class PartitionLane {
    var messages: seq<nat>
    var stopped: bool
    ghost var worker: Worker
    ghost var accepted: seq<nat>
    ghost var dispatched: seq<nat>

    ghost function View(): Lane
      reads this
    {
      Lane(messages, stopped, worker, accepted, dispatched)
    }

    constructor ()
      ensures View() == NEW
    {
      messages, stopped, worker, accepted, dispatched := [], false, Waiting, [], [];
    }

    method Push(m: nat)
      requires InOrder(View()) && !stopped
      modifies this
      ensures View() == Pushed(old(View()), m) && InOrder(View())
    {
      LaneSteps(View(), m, false, false);
      messages, accepted := messages + [m], accepted + [m];
    }

    /** What the worker gets when its wait is over: nothing once the lane is stopped. */
    method TakeFront() returns (message: Option<nat>)
      requires InOrder(View()) && worker == Waiting && (stopped || messages != [])
      modifies this
      ensures Taken(old(View())) == Some(View()) && InOrder(View())
      ensures message == if stopped then None else Some(old(messages)[0])
    {
      LaneSteps(View(), 0, false, false);
      if stopped {
        worker := Exited;
        return None;
      }
      message := Some(messages[0]);
      worker, messages := Holding(messages[0]), messages[1..];
    }

    method Stop()
      requires InOrder(View())
      modifies this
      ensures View() == StoppedLane(old(View())) && InOrder(View())
    {
      LaneSteps(View(), 0, false, false);
      stopped, messages := true, [];
    }
  }
}
