/** The connection pool and its shutdown together: the closed bit is one bit, the stop broadcast is one task, and an
    operation ends only when its acquirers have left the pool. */
module PoolStops {
  import opened Options
  import C = ConnectionPool
  import S = PoolShutdown

  /** `owner` says which operation an acquirer belongs to. */
  datatype State = State(pool: C.State, stop: S.State, owner: map<nat, nat>)

  /** `CaughtByStop`: the stop sets the closed bit while an acquirer is between its two looks at it. */
  datatype Event =
    | InPool(op: nat, work: C.Event)
    | Shutdown(task: S.Event)
    | CaughtByStop(op: nat, host: string, port: string, woken: bool)

  function Fresh(limit: nat): State { State(C.Fresh(limit), S.INITIAL, map[]) }

  predicate Belongs(s: State, w: nat, op: nat) { w in C.Insiders(s.pool) && w in s.owner && s.owner[w] == op }

  /** Pool work of an operation. The stop itself and the broadcast come from the shutdown. */
  function PoolStep(s: State, op: nat, e: C.Event): Option<State> {
    if e.Stop? || e.Caught? || e.Broadcast? || (e.Acquire? && op !in s.stop.live) then None
    else
      match C.Step(s.pool, e)
      case None => None
      case Some(p) =>
        Some(s.(pool := p, owner := if e.Acquire? && !s.pool.closed then s.owner[s.pool.arrivals := op] else s.owner))
  }

  /** What a shutdown step does to the pool. */
  function OnPool(p: C.State, e: S.Event): Option<C.State> {
    match e
    case BeginStop => C.Step(p, C.Stop)
    case RunBroadcast(_) => C.Step(p, C.Broadcast)
    case _ => Some(p)
  }

  /** `Finish` reads the size of the connection vector; an operation ends after its acquirers. */
  predicate MayRun(s: State, e: S.Event) {
    match e
    case RunBroadcast(n) => n == |s.pool.conns|
    case RunFinish(n) => n == |s.pool.conns|
    case End(op) => !exists w | w in C.Insiders(s.pool) :: Belongs(s, w, op)
    case _ => true
  }

  function StopStep(s: State, e: S.Event): Option<State> {
    if !MayRun(s, e) then None
    else
      match S.Step(s.stop, e)
      case None => None
      case Some(t) => (match OnPool(s.pool, e) case None => None case Some(p) => Some(s.(pool := p, stop := t)))
  }

  function CaughtStep(s: State, op: nat, e: C.Event): Option<State>
    requires e.Caught?
  {
    var t, p := S.Step(s.stop, S.BeginStop), C.Step(s.pool, e);
    if op !in s.stop.live || t.None? || p.None? then None
    else Some(State(p.value, t.value, s.owner[s.pool.arrivals := op]))
  }

  function Step(s: State, e: Event): Option<State> {
    match e
    case InPool(op, work) => PoolStep(s, op, work)
    case Shutdown(task) => StopStep(s, task)
    case CaughtByStop(op, host, port, woken) => CaughtStep(s, op, C.Caught(host, port, woken))
  }

  function Run(limit: nat, es: seq<Event>): Option<State> {
    if es == [] then Some(Fresh(limit))
    else match Run(limit, es[..|es| - 1]) case None => None case Some(s) => Step(s, es[|es| - 1])
  }

  /** Every acquirer inside belongs to a live operation. */
  ghost predicate Owned(s: State) {
    forall w :: w in C.Insiders(s.pool) ==> w in s.owner && s.owner[w] in s.stop.live
  }

  /** Once the stopping thread is through and no broadcast is pending, nobody is suspended. */
  ghost predicate Told(s: State) { s.stop.stopper.Through? && s.stop.broadcasts == 0 ==> C.Awake(s.pool) }

  ghost predicate Inv(s: State) {
    && C.Inv(s.pool) && S.Inv(s.stop)
    && (s.pool.closed <==> S.Closed(s.stop))
    && Owned(s) && Told(s)
    && (forall w :: w in s.owner ==> w < s.pool.arrivals)
  }

  lemma PoolKeeps(s: State, op: nat, e: C.Event)
    requires Inv(s) && PoolStep(s, op, e).Some?
    ensures Inv(PoolStep(s, op, e).value)
  {
    var t := PoolStep(s, op, e).value;
    C.StepKeeps(s.pool, e);
    C.InsidersMove(s.pool, e);
    ClosedStays(s.pool, e);
    forall w | w in C.Insiders(t.pool) ensures w in t.owner && t.owner[w] in t.stop.live {
      assert w in C.Insiders(s.pool) || w == s.pool.arrivals;
    }
    if C.Awake(s.pool) {
      C.AwakeStays(s.pool, e);
    }
  }

  lemma ClosedStays(p: C.State, e: C.Event)
    requires C.Inv(p) && C.Step(p, e).Some? && !e.Stop? && !e.Caught?
    ensures C.Step(p, e).value.closed == p.closed && C.Step(p, e).value.arrivals >= p.arrivals
    ensures e.Acquire? && !p.closed ==> C.Step(p, e).value.arrivals == p.arrivals + 1
  {
    match e
    case Acquire(h, q, woken) => if !p.closed {
      C.ArriveClosed(p, h, q, woken);
      C.ArriveInsiders(p, h, q, woken);
    }
    case ReturnFromAcquire(w) =>
      C.PumpClosed(C.Leave(p, w));
      C.LeaveOrder(p, w);
      C.PumpInsiders(C.Leave(p, w));
    case RunRelease(l) =>
      C.PumpClosed(C.Idle(p, l));
      C.PumpInsiders(C.Idle(p, l));
    case Broadcast => C.PokeAllInsiders(p, p.queue);
    case _ =>
  }

  /** How the broadcast counter and the stopping thread move. */
  lemma StopperMoves(s: S.State, e: S.Event)
    requires S.Inv(s) && S.Step(s, e).Some?
    ensures var t := S.Step(s, e).value;
            && S.Inv(t)
            && (S.Closed(t) <==> S.Closed(s) || e.BeginStop?)
            && (t.stopper.Through? && t.broadcasts == 0 ==>
                 || (s.stopper.Through? && s.broadcasts == 0)
                 || e.RunBroadcast?
                 || (e.Decide? && s.live == {} && S.Closed(s)))
            && (!e.End? ==> s.live <= t.live)
            && (e.End? ==> t.live == s.live - {e.op})
  {
    S.StepKeeps(s, e);
    S.WordParts(s);
    if e.Begin? {
      S.BeginKeeps(s, e.op);
    }
    if e.End? {
      S.EndKeeps(s, e.op);
    }
  }

  lemma OnPoolKeeps(p: C.State, e: S.Event)
    requires C.Inv(p) && OnPool(p, e).Some?
    ensures var q := OnPool(p, e).value;
            && C.Inv(q) && C.Insiders(q) == C.Insiders(p) && q.arrivals == p.arrivals
            && (q.closed <==> p.closed || e.BeginStop?)
            && (e.RunBroadcast? || C.Awake(p) ==> C.Awake(q))
  {
    match e
    case BeginStop => C.StepKeeps(p, C.Stop);
    case RunBroadcast(_) =>
      C.StepKeeps(p, C.Broadcast);
      C.BroadcastWakes(p);
      C.PokeAllInsiders(p, p.queue);
    case _ =>
  }

  lemma StopKeeps(s: State, e: S.Event)
    requires Inv(s) && StopStep(s, e).Some?
    ensures Inv(StopStep(s, e).value)
  {
    var t := StopStep(s, e).value;
    StopperMoves(s.stop, e);
    OnPoolKeeps(s.pool, e);
    forall w | w in C.Insiders(t.pool) ensures w in t.owner && t.owner[w] in t.stop.live {
      assert e.End? ==> !Belongs(s, w, e.op);
    }
    if t.stop.stopper.Through? && t.stop.broadcasts == 0 && e.Decide? && s.stop.live == {} {
      NobodyInside(s);
    }
  }

  lemma NobodyInside(s: State)
    requires Inv(s) && s.stop.live == {} && S.Closed(s.stop)
    ensures C.Awake(s.pool)
  {
    assert C.Insiders(s.pool) == {};
    forall w | w in s.pool.waiters ensures !s.pool.waiters[w].receiver.Parked? {
      assert w !in C.Insiders(s.pool);
    }
  }

  lemma CaughtKeeps(s: State, op: nat, e: C.Event)
    requires Inv(s) && e.Caught? && CaughtStep(s, op, e).Some?
    ensures Inv(CaughtStep(s, op, e).value)
  {
    var t := CaughtStep(s, op, e).value;
    C.StepKeeps(s.pool, e);
    C.CaughtInsiders(s.pool, e.host, e.port, e.woken);
    StopperMoves(s.stop, S.BeginStop);
    forall w | w in C.Insiders(t.pool) ensures w in t.owner && t.owner[w] in t.stop.live {
      assert w in C.Insiders(s.pool) || w == s.pool.arrivals;
    }
  }

  lemma {:induction false} Reachable(limit: nat, es: seq<Event>)
    ensures Run(limit, es).Some? ==> Inv(Run(limit, es).value)
  {
    if es != [] {
      Reachable(limit, es[..|es| - 1]);
      if Run(limit, es).Some? {
        var s := Run(limit, es[..|es| - 1]).value;
        match es[|es| - 1]
        case InPool(op, work) => PoolKeeps(s, op, work);
        case Shutdown(task) => StopKeeps(s, task);
        case CaughtByStop(op, host, port, woken) => CaughtKeeps(s, op, C.Caught(host, port, woken));
      }
    }
  }

  // ---- A stop comes to its end ----

  /** The steps that bring a stop to its end: tasks of the shutdown, ends of operations, returns of acquirers. */
  predicate Towards(e: Event) {
    match e
    case InPool(_, work) => work.ReturnFromAcquire?
    case Shutdown(task) => !task.Begin? && !task.Rejected? && !task.BeginStop?
    case CaughtByStop(_, _, _, _) => false
  }

  function TaskDistance(limit: nat, t: S.State): nat {
    (if t.finishing then 0 else 2 * limit + 1) + (if t.stopper.Deciding? then 3 else 0)
    + 2 * t.broadcasts + t.finishes + 2 * t.closes + t.acknowledgements + 2 * |t.live|
  }

  /** How many steps a requested stop can still take. */
  function Distance(s: State): nat { TaskDistance(s.pool.limit, s.stop) + |C.Insiders(s.pool)| }

  lemma SubsetSize(a: set<nat>, b: set<nat>)
    requires a <= b
    ensures |a| <= |b|
    ensures a < b ==> |a| < |b|
  {
    assert b == a + (b - a);
  }

  lemma TaskFalls(limit: nat, t: S.State, e: S.Event)
    requires S.Inv(t) && S.Closed(t) && S.Step(t, e).Some?
    requires (e.RunBroadcast? || e.RunFinish?) ==> e.connections <= limit
    ensures TaskDistance(limit, S.Step(t, e).value) <= TaskDistance(limit, t)
    ensures !e.Rejected? && !e.BeginStop? ==> TaskDistance(limit, S.Step(t, e).value) < TaskDistance(limit, t)
  {
    S.WordParts(t);
    if e.End? {
      assert |t.live - {e.op}| == |t.live| - 1;
    }
    if e.Begin? {
      S.BeginKeeps(t, e.op);
      assert false;
    }
  }

  lemma LimitStays(p: C.State, e: C.Event)
    requires C.Inv(p) && C.Step(p, e).Some? && p.closed
    ensures C.Step(p, e).value.limit == p.limit
  {
    match e
    case ReturnFromAcquire(w) => C.PumpClosed(C.Leave(p, w));
    case RunRelease(l) => C.PumpClosed(C.Idle(p, l));
    case Broadcast => PokeAllLimit(p, p.queue);
    case _ =>
  }

  lemma {:induction false} PokeAllLimit(p: C.State, q: seq<nat>)
    ensures C.PokeAll(p, q).limit == p.limit
    decreases |q|
  {
    if q != [] {
      PokeAllLimit(if q[0] in p.waiters then C.Poke(p, q[0]) else p, q[1..]);
    }
  }

  lemma PoolFalls(s: State, op: nat, e: C.Event)
    requires Inv(s) && S.Closed(s.stop) && PoolStep(s, op, e).Some?
    ensures Distance(PoolStep(s, op, e).value) <= Distance(s)
    ensures e.ReturnFromAcquire? ==> Distance(PoolStep(s, op, e).value) < Distance(s)
  {
    var t := PoolStep(s, op, e).value;
    C.InsidersMove(s.pool, e);
    LimitStays(s.pool, e);
    SubsetSize(C.Insiders(t.pool), C.Insiders(s.pool));
    if e.ReturnFromAcquire? {
      C.ResumeInsiders(s.pool, e.waiter);
      assert e.waiter in C.Insiders(s.pool);
    }
  }

  lemma ShutdownFalls(s: State, e: S.Event)
    requires Inv(s) && S.Closed(s.stop) && StopStep(s, e).Some?
    ensures Distance(StopStep(s, e).value) <= Distance(s)
    ensures Towards(Shutdown(e)) ==> Distance(StopStep(s, e).value) < Distance(s)
  {
    TaskFalls(s.pool.limit, s.stop, e);
    OnPoolKeeps(s.pool, e);
    if e.RunBroadcast? {
      PokeAllLimit(s.pool, s.pool.queue);
    }
  }

  /** Once a stop was requested, no step whatever takes it farther from its end, and every step towards it brings it
      nearer; so it takes at most `Distance` of those. */
  lemma {:induction false} EveryStepBringsTheEndNearer(limit: nat, es: seq<Event>, e: Event)
    requires Run(limit, es).Some? && S.Closed(Run(limit, es).value.stop) && Step(Run(limit, es).value, e).Some?
    ensures Distance(Step(Run(limit, es).value, e).value) <= Distance(Run(limit, es).value)
    ensures Towards(e) ==> Distance(Step(Run(limit, es).value, e).value) < Distance(Run(limit, es).value)
  {
    Reachable(limit, es);
    match e
    case InPool(op, work) => PoolFalls(Run(limit, es).value, op, work);
    case Shutdown(task) => ShutdownFalls(Run(limit, es).value, task);
    case CaughtByStop(_, _, _, _) =>
  }

  /** A stop never hangs: from the moment it was requested until the promise is set, a step towards its end is
      enabled. */
  lemma {:induction false} StopNeverHangs(limit: nat, es: seq<Event>) returns (next: Event)
    requires Run(limit, es).Some?
    requires S.Closed(Run(limit, es).value.stop) && Run(limit, es).value.stop.promised == 0
    ensures Step(Run(limit, es).value, next).Some? && Towards(next)
  {
    Reachable(limit, es);
    next := NextTowardsEnd(Run(limit, es).value);
  }

  lemma NextTowardsEnd(s: State) returns (next: Event)
    requires Inv(s) && S.Closed(s.stop) && s.stop.promised == 0
    ensures Step(s, next).Some? && Towards(next)
  {
    var t := s.stop;
    if t.stopper.Deciding? {
      next := Shutdown(S.Decide);
    } else if t.broadcasts > 0 {
      next := Shutdown(S.RunBroadcast(|s.pool.conns|));
    } else if t.finishes > 0 {
      next := Shutdown(S.RunFinish(|s.pool.conns|));
    } else if t.closes > 0 {
      next := Shutdown(S.RunClose);
    } else if t.acknowledgements > 0 {
      next := Shutdown(S.RunAcknowledgement);
    } else {
      next := OperationEnds(s);
    }
  }

  lemma OperationEnds(s: State) returns (next: Event)
    requires Inv(s) && S.Closed(s.stop) && s.stop.promised == 0 && !s.stop.stopper.Deciding?
    requires s.stop.broadcasts == s.stop.finishes == s.stop.closes == s.stop.acknowledgements == 0
    ensures Step(s, next).Some? && Towards(next)
  {
    assert s.stop.live != {};
    var op :| op in s.stop.live;
    if exists w | w in C.Insiders(s.pool) :: Belongs(s, w, op) {
      var w :| w in C.Insiders(s.pool) && Belongs(s, w, op);
      C.InsidersCanReturn(s.pool);
      next := InPool(op, C.ReturnFromAcquire(w));
    } else {
      next := Shutdown(S.End(op));
    }
  }
}
