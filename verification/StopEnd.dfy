/** The stop phases come to their end: how many steps the stopping thread takes, and what can hold it up. */
module StopEnds {
  import opened Options
  import opened StopPhases
  import R = Runs

  /** The steps of the stopping thread. */
  predicate OfThread(e: Event) { e.Launch? || e.Await? || e.Drain? }

  predicate PhasesOver(s: State) { s.stage.Ended? || s.stage.Finished? }

  /** Is the thread waiting for a stop that has not returned, before its context expired? */
  predicate Held(s: State) {
    s.stage.Awaiting? && s.stage.next < |s.pending| && !s.pending[s.stage.next].returned && !s.expired
  }

  /** What the phases from `p` on still cost: a launch and a wait for every stop, the turn to waiting, the turn to
      what follows, and the graph drain before the last phase. */
  function Cost(plan: Plan, p: nat): nat
    decreases 3 - p
  {
    if p >= 3 then 0 else 2 * |plan[p]| + 2 + (if p == 2 then 1 else 0) + Cost(plan, p + 1)
  }

  /** How many steps of the stopping thread are left at most. */
  function ThreadSteps(s: State): int {
    match s.stage
    case Launching(p, i) =>
      if p < 3 then 2 * |s.plan[p]| - i + 2 + Cost(s.plan, p + 1) else 0
    case Awaiting(p, j) => |s.pending| - j + 1 + Cost(s.plan, p + 1)
    case Draining => Cost(s.plan, 2)
    case _ => 0
  }

  lemma StepsLeft(s: State)
    requires InPlace(s)
    ensures ThreadSteps(s) >= 0 && (!PhasesOver(s) ==> ThreadSteps(s) > 0)
  {}

  lemma LaunchCosts(s: State)
    requires InPlace(s) && Step(s, Launch).Some?
    ensures ThreadSteps(Step(s, Launch).value) == ThreadSteps(s) - 1
  {}

  lemma PhaseCosts(s: State, p: nat)
    requires p < 3 && s.stage == Awaiting(p, |s.pending|)
    ensures ThreadSteps(NextPhase(s, p)) == ThreadSteps(s) - 1
  {
    assert p == 0 ==> Cost(s.plan, 1) == 2 * |s.plan[1]| + 2 + Cost(s.plan, 2);
  }

  lemma AwaitCosts(s: State)
    requires InPlace(s) && Step(s, Await).Some?
    ensures ThreadSteps(Step(s, Await).value) == ThreadSteps(s) - 1
  {
    if s.stage.next >= |s.pending| {
      PhaseCosts(s, s.stage.phase);
    }
  }

  lemma {:induction false} StepCosts(s: State, e: Event)
    requires InPlace(s) && Step(s, e).Some?
    ensures ThreadSteps(Step(s, e).value) == ThreadSteps(s) - if OfThread(e) then 1 else 0
  {
    match e
    case Launch => LaunchCosts(s);
    case Await => AwaitCosts(s);
    case Drain(_) =>
    case Returns(_) =>
    case Expires =>
    case Finish =>
  }

  function CountThread(es: seq<Event>): nat {
    if es == [] then 0 else CountThread(es[..|es| - 1]) + if OfThread(es[|es| - 1]) then 1 else 0
  }

  /** Over every run the steps taken by the stopping thread and those left add up to the cost of the plan: however
      often stops return and whenever the context expires, there are never more, and the phases are over exactly when
      none is left. */
  lemma {:induction false} StepsAddUp(plan: Plan, es: seq<Event>)
    requires Run(plan, es).Some?
    ensures CountThread(es) + ThreadSteps(Run(plan, es).value) == 2 * (|plan[0]| + |plan[1]| + |plan[2]|) + 7
    ensures PhasesOver(Run(plan, es).value) <==> CountThread(es) == 2 * (|plan[0]| + |plan[1]| + |plan[2]|) + 7
  {
    Reachable(plan, es);
    if es != [] {
      StepsAddUp(plan, es[..|es| - 1]);
      Reachable(plan, es[..|es| - 1]);
      StepCosts(Run(plan, es[..|es| - 1]).value, es[|es| - 1]);
    } else {
      CostOfPlan(plan);
    }
    StepsLeft(Run(plan, es).value);
  }

  lemma CostOfPlan(plan: Plan)
    ensures ThreadSteps(Initial(plan)) == 2 * (|plan[0]| + |plan[1]| + |plan[2]|) + 7
  {
    assert Cost(plan, 2) == 2 * |plan[2]| + 3;
    assert Cost(plan, 1) == 2 * |plan[1]| + 2 + Cost(plan, 2);
  }

  /** The thread is stopped by nothing but a stop that has not returned. */
  lemma NextOfThread(s: State) returns (e: Event)
    requires InPlace(s) && !PhasesOver(s) && !Held(s)
    ensures OfThread(e) && Step(s, e).Some?
  {
    match s.stage
    case Launching(p, i) =>
      assert |Regs(s.pending)| == |Before(s.plan, p)| + i;
      e := Launch;
    case Awaiting(_, _) => e := Await;
    case Draining => e := Drain(!s.expired);
  }

  ghost predicate AllOfThread(fs: seq<Event>) { forall i :: 0 <= i < |fs| ==> OfThread(fs[i]) }

  lemma {:induction false} RunIsExec(plan: Plan, es: seq<Event>)
    ensures Run(plan, es) == R.Exec(Step, Initial(plan), es)
  {
    if es != [] {
      RunIsExec(plan, es[..|es| - 1]);
      R.ExecLast(Step, Initial(plan), es);
    }
  }

  lemma ExpiredStays(s: State, e: Event)
    requires Step(s, e).Some? && s.expired
    ensures Step(s, e).value.expired
  {}

  lemma OneMore(s: State) returns (e: Event)
    requires Inv(s) && s.expired && !PhasesOver(s)
    ensures OfThread(e) && Step(s, e).Some? && ThreadSteps(s) > 0
    ensures var t := Step(s, e).value; Inv(t) && t.expired && ThreadSteps(t) == ThreadSteps(s) - 1
  {
    e := NextOfThread(s);
    StepKeeps(s, e);
    StepCosts(s, e);
    StepsLeft(s);
    ExpiredStays(s, e);
  }

  lemma {:induction false} ThreadAlone(s: State) returns (fs: seq<Event>)
    requires Inv(s) && s.expired
    ensures AllOfThread(fs) && |fs| == ThreadSteps(s)
    ensures R.Exec(Step, s, fs).Some? && PhasesOver(R.Exec(Step, s, fs).value)
    decreases ThreadSteps(s)
  {
    if PhasesOver(s) {
      fs := [];
    } else {
      var e := OneMore(s);
      var gs := ThreadAlone(Step(s, e).value);
      fs := [e] + gs;
      R.ExecFirst(Step, s, e, gs);
    }
  }

  /** No stop hangs the shutdown past its context: from every state reached after it expired, the stopping thread alone
      brings the phases to their end, although no further stop returns. */
  lemma {:induction false} ShutdownNeverHangs(plan: Plan, es: seq<Event>) returns (fs: seq<Event>)
    requires Run(plan, es).Some? && Run(plan, es).value.expired
    ensures AllOfThread(fs) && |fs| == ThreadSteps(Run(plan, es).value)
    ensures Run(plan, es + fs).Some? && PhasesOver(Run(plan, es + fs).value)
  {
    Reachable(plan, es);
    fs := ThreadAlone(Run(plan, es).value);
    RunIsExec(plan, es);
    RunIsExec(plan, es + fs);
    R.ExecConcat(Step, Initial(plan), es, fs);
  }

  /** How many launched stops have not returned. */
  function Outstanding(pending: seq<Stop>): nat {
    if pending == [] then 0
    else Outstanding(pending[..|pending| - 1]) + if pending[|pending| - 1].returned then 0 else 1
  }

  lemma {:induction false} OneReturns(pending: seq<Stop>, j: nat)
    requires j < |pending| && !pending[j].returned
    ensures Outstanding(pending[j := pending[j].(returned := true)]) == Outstanding(pending) - 1
  {
    var last := |pending| - 1;
    var after := pending[j := pending[j].(returned := true)];
    if j < last {
      OneReturns(pending[..last], j);
      assert after[..last] == pending[..last][j := pending[j].(returned := true)];
    } else {
      assert after[..last] == pending[..last];
    }
  }

  lemma {:induction false} SameReturns(a: seq<Stop>, b: seq<Stop>)
    requires |a| == |b| && forall i :: 0 <= i < |a| ==> a[i].returned == b[i].returned
    ensures Outstanding(a) == Outstanding(b)
  {
    if a != [] {
      SameReturns(a[..|a| - 1], b[..|b| - 1]);
    }
  }

  lemma {:induction false} OneIsMissing(pending: seq<Stop>) returns (j: nat)
    requires exists i :: 0 <= i < |pending| && !pending[i].returned
    ensures j < |pending| && !pending[j].returned
  {
    j :| 0 <= j < |pending| && !pending[j].returned;
  }

  /** Two for every step of the thread, so that a launch also pays for the return it makes necessary. */
  function Remaining(s: State): int {
    2 * ThreadSteps(s) + Outstanding(s.pending) + if s.stage.Finished? then 0 else 1
  }

  lemma LaunchPending(s: State)
    requires Step(s, Launch).Some?
    ensures Outstanding(Step(s, Launch).value.pending) <= Outstanding(s.pending) + 1
  {
    var t := Step(s, Launch).value;
    assert t.pending == s.pending || t.pending[..|t.pending| - 1] == s.pending;
  }

  lemma SamePending(s: State, e: Event)
    requires Step(s, e).Some? && !e.Launch? && !e.Returns?
    ensures Outstanding(Step(s, e).value.pending) == Outstanding(s.pending)
  {
    SameReturns(s.pending, Step(s, e).value.pending);
  }

  lemma PendingMoves(s: State, e: Event)
    requires Step(s, e).Some?
    ensures Outstanding(Step(s, e).value.pending)
            <= Outstanding(s.pending) + if e.Returns? then -1 else if e.Launch? then 1 else 0
    ensures e.Expires? ==> Outstanding(Step(s, e).value.pending) == Outstanding(s.pending)
  {
    match e
    case Launch => LaunchPending(s);
    case Returns(j) => OneReturns(s.pending, j);
    case _ => SamePending(s, e);
  }

  /** Every step except an expiry brings a finished shutdown nearer. */
  lemma RemainingFalls(s: State, e: Event)
    requires InPlace(s) && Step(s, e).Some?
    ensures if e.Expires? then Remaining(Step(s, e).value) == Remaining(s)
            else Remaining(Step(s, e).value) < Remaining(s)
  {
    StepCosts(s, e);
    PendingMoves(s, e);
  }

  lemma NextStep(s: State) returns (e: Event)
    requires InPlace(s) && !s.stage.Finished?
    ensures Step(s, e).Some? && !e.Expires?
  {
    if Held(s) {
      e := Returns(s.stage.next);
    } else if !PhasesOver(s) {
      e := NextOfThread(s);
    } else if AllReturned(s) {
      e := Finish;
    } else {
      var j := OneIsMissing(s.pending);
      e := Returns(j);
    }
  }

  /** A shutdown that has not finished always has a next step, of its thread or the return of a stop, and every such
      step lowers the same number: so it finishes as soon as the stops return, expired or not. */
  lemma {:induction false} ShutdownFinishes(plan: Plan, es: seq<Event>, e: Event) returns (next: Event)
    requires Run(plan, es).Some?
    ensures var s := Run(plan, es).value;
            && Remaining(s) >= 0
            && (!s.stage.Finished? ==> Step(s, next).Some? && !next.Expires?)
            && (Step(s, e).Some? ==>
                  if e.Expires? then Remaining(Step(s, e).value) == Remaining(s)
                  else Remaining(Step(s, e).value) < Remaining(s))
  {
    Reachable(plan, es);
    var s := Run(plan, es).value;
    StepsLeft(s);
    if Step(s, e).Some? {
      RemainingFalls(s, e);
    }
    next := e;
    if !s.stage.Finished? {
      next := NextStep(s);
    }
  }

  /** Without expiry the thread is held up exactly by the stop it waits for. */
  lemma {:induction false} HeldExactly(plan: Plan, es: seq<Event>)
    requires Run(plan, es).Some? && !PhasesOver(Run(plan, es).value)
    ensures (forall e :: OfThread(e) ==> Step(Run(plan, es).value, e).None?) <==> Held(Run(plan, es).value)
  {
    Reachable(plan, es);
    var s := Run(plan, es).value;
    if !Held(s) {
      var e := NextOfThread(s);
    }
  }
}
