/** The stop phases as they run: each phase launches its stops together, then waits for them in turn; the graph
    drain lies between the second and the third phase. Stops return and the context expires at any time. */
module StopPhases {
  import opened Options
  import opened Sequences
  import opened Lifecycles

  datatype Stop = Stop(reg: Registration, returned: bool, reported: bool)

  datatype Stage = Launching(phase: nat, next: nat) | Awaiting(phase: nat, next: nat) | Draining | Ended | Finished

  /** `reports` lists the stops whose result was taken, by their place in `pending`; `drain` is what the graph
      drain answered. */
  datatype State = State(plan: Plan, stage: Stage, pending: seq<Stop>, expired: bool,
                         reports: seq<nat>, drain: Option<bool>)

  datatype Event = Launch | Await | Drain(answer: bool) | Returns(stop: nat) | Expires | Finish

  /** The lists of the three phases. */
  type Plan = p: seq<seq<Registration>> | |p| == 3 witness [[], [], []]

  function PlanOf(entries: Entries): Plan { [Admission(entries), Executors(entries), Sinks(entries)] }

  function Initial(plan: Plan): State { State(plan, Launching(0, 0), [], false, [], None) }

  function Before(plan: Plan, p: nat): seq<Registration>
    requires p <= |plan|
  {
    if p == 0 then [] else Before(plan, p - 1) + plan[p - 1]
  }

  function Unreported(pending: seq<Stop>, k: nat): (r: seq<nat>)
    requires k <= |pending|
    ensures forall i :: 0 <= i < |r| ==> r[i] < k && !pending[r[i]].reported
    ensures forall j :: 0 <= j < k && !pending[j].reported ==> j in r
    ensures Distinct(r)
  {
    if k == 0 then []
    else if pending[k - 1].reported then Unreported(pending, k - 1)
    else Unreported(pending, k - 1) + [k - 1]
  }

  function AllReported(pending: seq<Stop>): seq<Stop> {
    seq(|pending|, i requires 0 <= i < |pending| => pending[i].(reported := true))
  }

  /** `finishShutdown`: takes every result not taken before. */
  function Finished(s: State): State {
    s.(stage := Stage.Finished, pending := AllReported(s.pending),
       reports := s.reports + Unreported(s.pending, |s.pending|))
  }

  predicate AllReturned(s: State) { forall i :: 0 <= i < |s.pending| ==> s.pending[i].returned }

  /** After the last wait of phase `p`. */
  function NextPhase(s: State, p: nat): State {
    if p == 0 then s.(stage := Launching(1, 0))
    else if p == 1 then s.(stage := Draining)
    else if AllReturned(s) then Finished(s)
    else s.(stage := Ended)
  }

  function Step(s: State, e: Event): Option<State> {
    match e
    case Launch =>
      if !s.stage.Launching? || s.stage.phase >= |s.plan| then None
      else
        var p, i := s.stage.phase, s.stage.next;
        if i < |s.plan[p]| then
          Some(s.(pending := s.pending + [Stop(s.plan[p][i], false, false)], stage := Launching(p, i + 1)))
        else if i <= |s.pending| then Some(s.(stage := Awaiting(p, |s.pending| - i)))
        else None
    case Await =>
      if !s.stage.Awaiting? then None
      else
        var p, j := s.stage.phase, s.stage.next;
        if j >= |s.pending| then Some(NextPhase(s, p))
        else if s.pending[j].returned then
          if s.pending[j].reported then Some(s.(stage := Awaiting(p, j + 1)))
          else Some(s.(pending := s.pending[j := s.pending[j].(reported := true)], stage := Awaiting(p, j + 1),
                       reports := s.reports + [j]))
        else if s.expired then Some(s.(stage := Awaiting(p, j + 1)))
        else None
    case Drain(answer) =>
      if s.stage != Draining || (!answer && !s.expired) then None
      else Some(s.(stage := Launching(2, 0), drain := Some(answer)))
    case Returns(j) =>
      if j >= |s.pending| || s.pending[j].returned then None
      else Some(s.(pending := s.pending[j := s.pending[j].(returned := true)]))
    case Expires => Some(s.(expired := true))
    case Finish => if s.stage != Ended || !AllReturned(s) then None else Some(Finished(s))
  }

  function Run(plan: Plan, es: seq<Event>): Option<State> {
    if es == [] then Some(Initial(plan))
    else match Run(plan, es[..|es| - 1]) case None => None case Some(s) => Step(s, es[|es| - 1])
  }

  // ---- Invariant ----

  function Regs(pending: seq<Stop>): (r: seq<Registration>)
    ensures |r| == |pending|
  {
    seq(|pending|, i requires 0 <= i < |pending| => pending[i].reg)
  }

  /** How many stops have been waited for, to their end or to the expiry of the context. */
  function Passed(s: State): int {
    match s.stage
    case Launching(p, i) => |s.pending| - i
    case Awaiting(p, j) => j
    case _ => |s.pending|
  }

  /** What has been launched: all earlier phases and part of the current one. */
  ghost predicate InPlace(s: State) {
    && |s.plan| == 3
    && match s.stage
       case Launching(p, i) => p < 3 && i <= |s.plan[p]| && Regs(s.pending) == Before(s.plan, p) + s.plan[p][..i]
       case Awaiting(p, j) =>
         p < 3 && |Before(s.plan, p)| <= j <= |s.pending| && Regs(s.pending) == Before(s.plan, p + 1)
       case Draining => Regs(s.pending) == Before(s.plan, 2)
       case _ => Regs(s.pending) == Before(s.plan, 3)
  }

  ghost predicate Waited(s: State) {
    s.expired || forall i :: 0 <= i < Passed(s) && i < |s.pending| ==> s.pending[i].returned
  }

  ghost predicate ReportsFit(s: State) {
    && Distinct(s.reports)
    && (forall j :: 0 <= j < |s.pending| ==> (s.pending[j].reported <==> j in s.reports))
    && (forall k :: 0 <= k < |s.reports| ==> s.reports[k] < |s.pending| && s.pending[s.reports[k]].returned)
    && (s.stage == Stage.Finished ==> AllReturned(s) && forall j :: 0 <= j < |s.pending| ==> s.pending[j].reported)
  }

  /** The last phase comes after the graph drain, which gave up only when the context had expired. */
  predicate Drained(s: State) {
    s.stage.Draining? || ((s.stage.Launching? || s.stage.Awaiting?) && s.stage.phase < 2)
    || (s.drain.Some? && (s.drain.value || s.expired))
  }

  ghost predicate Inv(s: State) { InPlace(s) && Waited(s) && ReportsFit(s) && Drained(s) }

  lemma LaunchKeeps(s: State)
    requires Inv(s) && Step(s, Launch).Some?
    ensures Inv(Step(s, Launch).value)
  {
    var t := Step(s, Launch).value;
    var p, i := s.stage.phase, s.stage.next;
    if i < |s.plan[p]| {
      assert s.plan[p][..i + 1] == s.plan[p][..i] + [s.plan[p][i]];
      assert Regs(t.pending) == Regs(s.pending) + [s.plan[p][i]];
    } else {
      assert s.plan[p][..i] == s.plan[p];
    }
  }

  lemma FinishedKeeps(s: State)
    requires |s.plan| == 3 && Regs(s.pending) == Before(s.plan, 3) && AllReturned(s)
    requires ReportsFit(s) && s.drain.Some? && (s.drain.value || s.expired)
    ensures Inv(Finished(s))
  {
    assert Regs(Finished(s).pending) == Regs(s.pending);
    var more := Unreported(s.pending, |s.pending|);
    forall i | 0 <= i < |s.reports| ensures s.reports[i] !in more {
      assert s.reports[i] in s.reports;
    }
    DistinctConcat(s.reports, more);
    forall j | 0 <= j < |s.pending| ensures j in s.reports + more {
      assert j in s.reports || j in more;
    }
  }

  lemma DistinctConcat<T>(a: seq<T>, b: seq<T>)
    requires Distinct(a) && Distinct(b) && forall i :: 0 <= i < |a| ==> a[i] !in b
    ensures Distinct(a + b)
  {}

  lemma AwaitKeeps(s: State)
    requires Inv(s) && Step(s, Await).Some?
    ensures Inv(Step(s, Await).value)
  {
    var t := Step(s, Await).value;
    var p, j := s.stage.phase, s.stage.next;
    if j >= |s.pending| {
      assert Before(s.plan, p + 1) + s.plan[if p < 2 then p + 1 else 2][..0] == Before(s.plan, p + 1);
      if p == 2 && AllReturned(s) {
        FinishedKeeps(s);
      }
    } else {
      assert Regs(t.pending) == Regs(s.pending);
      if s.pending[j].returned && !s.pending[j].reported {
        ReportOne(s, t, j);
      }
    }
  }

  lemma ReportOne(s: State, t: State, j: nat)
    requires ReportsFit(s) && s.stage != Stage.Finished && t.stage != Stage.Finished
    requires j < |s.pending| && s.pending[j].returned && !s.pending[j].reported
    requires t.pending == s.pending[j := s.pending[j].(reported := true)] && t.reports == s.reports + [j]
    ensures ReportsFit(t)
  {
    assert j !in s.reports;
    assert forall i :: i in t.reports <==> i in s.reports || i == j;
  }

  lemma StepKeeps(s: State, e: Event)
    requires Inv(s) && Step(s, e).Some?
    ensures Inv(Step(s, e).value)
  {
    match e
    case Launch => LaunchKeeps(s);
    case Await => AwaitKeeps(s);
    case Drain(_) => assert Before(s.plan, 2) + s.plan[2][..0] == Before(s.plan, 2);
    case Returns(j) => assert Regs(Step(s, e).value.pending) == Regs(s.pending);
    case Expires =>
    case Finish => FinishedKeeps(s);
  }

  lemma InitialInv(plan: Plan)
    ensures Inv(Initial(plan))
  {
    var s := Initial(plan);
    assert Before(s.plan, 0) + s.plan[0][..0] == [];
    assert Regs(s.pending) == [];
  }

  lemma PlanKept(s: State, e: Event)
    requires Step(s, e).Some?
    ensures Step(s, e).value.plan == s.plan
  {}

  lemma {:induction false} Reachable(plan: Plan, es: seq<Event>)
    ensures Run(plan, es).Some? ==> Inv(Run(plan, es).value)
    ensures Run(plan, es).Some? ==> Run(plan, es).value.plan == plan
  {
    if es == [] {
      InitialInv(plan);
    } else {
      Reachable(plan, es[..|es| - 1]);
      if Run(plan, es).Some? {
        StepKeeps(Run(plan, es[..|es| - 1]).value, es[|es| - 1]);
        PlanKept(Run(plan, es[..|es| - 1]).value, es[|es| - 1]);
      }
    }
  }

  // ---- Main results ----

  lemma {:induction false} BeforePrefix(plan: Plan, p: nat, q: nat)
    requires p <= q <= |plan|
    ensures Before(plan, p) <= Before(plan, q)
  {
    if p < q {
      BeforePrefix(plan, p, q - 1);
    }
  }

  /** Whatever happens, the stops launched so far are the beginning of the stop lists, so each registered object
      is stopped at most once; when the phases are over, each was stopped exactly once. */
  lemma {:induction false} EachStopLaunchedOnce(entries: Entries, kinds: seq<Kind>, es: seq<Event>)
    requires Unique(entries) && Complete(kinds) && Run(PlanOf(entries), es).Some?
    ensures var s := Run(PlanOf(entries), es).value;
            var all := Admission(entries) + Executors(entries) + Sinks(entries);
            && Regs(s.pending) <= all
            && (forall r :: multiset(Regs(s.pending))[r] <= 1)
            && (s.stage.Ended? || s.stage.Finished? ==>
                 multiset(Regs(s.pending)) == multiset(Registered(entries, kinds)))
  {
    var plan := PlanOf(entries);
    Reachable(plan, es);
    var s := Run(plan, es).value;
    var all := Admission(entries) + Executors(entries) + Sinks(entries);
    StopsEverythingOnce(entries, kinds);
    BeforeAll(entries);
    LaunchedPrefix(s);
    PrefixCounts(Regs(s.pending), all);
  }

  lemma LaunchedPrefix(s: State)
    requires InPlace(s)
    ensures Regs(s.pending) <= Before(s.plan, 3)
  {
    match s.stage
    case Launching(p, i) =>
      BeforePrefix(s.plan, p + 1, 3);
      assert Before(s.plan, p) + s.plan[p][..i] <= Before(s.plan, p + 1);
    case Awaiting(p, j) => BeforePrefix(s.plan, p + 1, 3);
    case _ => BeforePrefix(s.plan, 2, 3);
  }

  lemma PrefixCounts<T>(a: seq<T>, b: seq<T>)
    requires a <= b
    ensures forall x :: multiset(a)[x] <= multiset(b)[x]
  {
    assert b == a + b[|a|..];
  }

  lemma BeforeAll(entries: Entries)
    ensures Before(PlanOf(entries), 3) == Admission(entries) + Executors(entries) + Sinks(entries)
  {
    var plan := PlanOf(entries);
    assert Before(plan, 1) == plan[0];
    assert Before(plan, 2) == plan[0] + plan[1];
    assert Before(plan, 3) == Before(plan, 2) + plan[2];
  }

  /** A stop of phase `p` is launched only when every stop of the earlier phases has been launched and has
      returned, or the context has expired. The sinks form the last phase: they are stopped after the graph drain
      answered, and it answered true or the context had expired. */
  lemma {:induction false} LaterPhasesWait(plan: Plan, es: seq<Event>)
    requires Run(plan, es).Some? && Run(plan, es).value.stage.Launching?
    ensures var s := Run(plan, es).value;
            && s.stage.phase < |s.plan|
            && var earlier := Before(s.plan, s.stage.phase);
            && earlier <= Regs(s.pending)
            && (s.expired || forall i :: 0 <= i < |earlier| ==> s.pending[i].returned)
            && (s.stage.phase == 2 ==> s.drain.Some? && (s.drain.value || s.expired))
  {
    Reachable(plan, es);
  }

  /** The results: each is taken at most once and only after the stop has returned, and once shutdown has
      finished every launched stop has returned and its result was taken. */
  lemma {:induction false} ResultsTakenOnce(plan: Plan, es: seq<Event>)
    requires Run(plan, es).Some?
    ensures var s := Run(plan, es).value;
            && Distinct(s.reports)
            && (forall k :: 0 <= k < |s.reports| ==> s.reports[k] < |s.pending| && s.pending[s.reports[k]].returned)
            && (s.stage.Finished? ==> forall j :: 0 <= j < |s.pending| ==> s.pending[j].returned && j in s.reports)
  {
    Reachable(plan, es);
  }
}
