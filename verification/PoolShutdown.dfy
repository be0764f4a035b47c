/** Shutdown of the HTTP client: the operation counter with its closed bit, the stop broadcast,
    `Finish`, the per-connection closes and the one drain promise.

    Setting a promise twice throws, so "at most once" is what keeps `Stop` alive; every task the
    code posts to an executor is counted until it runs. */
module PoolShutdown {
  import opened Options
  import opened Words

  /** The thread that set the closed bit, between its mutex region and its decision. */
  datatype Stopper = Absent | Deciding(before: Word) | Through

  datatype State = State(
    operations: Word, live: set<nat>, stopper: Stopper, finishing: bool,
    broadcasts: nat, finishes: nat, closes: nat, acknowledgements: nat,
    closing: nat, promised: nat)

  const INITIAL := State(0, {}, Absent, false, 0, 0, 0, 0, 0, 0)

  /** `connections` is the size of the connection vector when `Finish` reads it. */
  datatype Event =
    | Begin(op: nat)
    | Rejected
    | End(op: nat)
    | BeginStop
    | Decide
    | RunBroadcast(connections: nat)
    | RunFinish(connections: nat)
    | RunClose
    | RunAcknowledgement

  /** `Finish` on the strand: only for a closed, empty counter and only the first time. */
  function Finish(s: State, connections: nat): State {
    if s.operations != BIT63 || s.finishing then s
    else if connections == 0 then s.(finishing := true, closing := 0, promised := s.promised + 1)
    else s.(finishing := true, closing := connections, closes := s.closes + connections)
  }

  function Step(s: State, e: Event): Option<State> {
    match e
    case Begin(op) =>
      var (w, ok) := EnterWord(s.operations);
      if op in s.live || !ok || |s.live| >= BIT63 - 1 then None
      else Some(s.(operations := w, live := s.live + {op}))
    case Rejected => if EnterWord(s.operations).1 then None else Some(s)
    case End(op) =>
      var (w, drained) := LeaveWord(s.operations);
      if op !in s.live then None
      else Some(s.(operations := w, live := s.live - {op}, finishes := s.finishes + if drained then 1 else 0))
    case BeginStop =>
      var (w, before) := CloseWord(s.operations);
      Some(s.(operations := w, stopper := if HasBit(before) then s.stopper else Deciding(before)))
    case Decide =>
      if !s.stopper.Deciding? then None
      else if s.stopper.before == 0 && !s.finishing then
        Some(s.(stopper := Through, finishing := true, promised := s.promised + 1))
      else Some(s.(stopper := Through, broadcasts := s.broadcasts + 1))
    case RunBroadcast(n) =>
      if s.broadcasts == 0 then None else Some(Finish(s.(broadcasts := s.broadcasts - 1), n))
    case RunFinish(n) =>
      if s.finishes == 0 then None else Some(Finish(s.(finishes := s.finishes - 1), n))
    case RunClose =>
      if s.closes == 0 then None
      else Some(s.(closes := s.closes - 1, acknowledgements := s.acknowledgements + 1))
    case RunAcknowledgement =>
      if s.acknowledgements == 0 || s.closing == 0 then None
      else
        Some(s.(acknowledgements := s.acknowledgements - 1, closing := s.closing - 1,
                promised := s.promised + if s.closing == 1 then 1 else 0))
  }

  function Run(es: seq<Event>): Option<State> {
    if es == [] then Some(INITIAL)
    else match Run(es[..|es| - 1]) case None => None case Some(s) => Step(s, es[|es| - 1])
  }

  predicate Closed(s: State) { HasBit(s.operations) }

  ghost predicate Counted(s: State) {
    && CountOf(s.operations) == |s.live|
    && (s.stopper.Absent? <==> !Closed(s))
    && (s.stopper.Deciding? ==> !HasBit(s.stopper.before) && |s.live| <= s.stopper.before)
  }

  /** Before anyone finishes nothing is in flight; from then on either the closes are in flight,
      as many as `closing`, or the promise is set. */
  ghost predicate Completion(s: State) {
    if s.finishing then
      && Closed(s) && s.live == {}
      && s.closing == s.closes + s.acknowledgements
      && s.promised == (if s.closing == 0 then 1 else 0)
    else s.closing == s.closes == s.acknowledgements == s.promised == 0
  }

  /** A closed, empty, unfinished pool still has somebody responsible for finishing it. */
  ghost predicate Responsible(s: State) {
    && (Closed(s) && s.live == {} && !s.finishing ==> s.stopper.Deciding? || s.broadcasts > 0 || s.finishes > 0)
    && (s.stopper.Deciding? && s.stopper.before == 0 ==> !s.finishing && s.finishes == s.broadcasts == 0)
    && (!Closed(s) ==> s.finishes == s.broadcasts == 0)
  }

  ghost predicate Inv(s: State) { Counted(s) && Completion(s) && Responsible(s) }

  lemma WordParts(s: State)
    requires Counted(s)
    ensures s.operations == |s.live| + if Closed(s) then BIT63 else 0
  {}

  lemma BeginKeeps(s: State, op: nat)
    requires Inv(s) && Step(s, Begin(op)).Some?
    ensures Inv(Step(s, Begin(op)).value) && !Closed(s)
  {
    WordParts(s);
  }

  lemma EndKeeps(s: State, op: nat)
    requires Inv(s) && Step(s, End(op)).Some?
    ensures Inv(Step(s, End(op)).value) && Closed(Step(s, End(op)).value) == Closed(s)
  {
    WordParts(s);
    assert |s.live - {op}| == |s.live| - 1;
  }

  lemma BeginStopKeeps(s: State)
    requires Inv(s)
    ensures Inv(Step(s, BeginStop).value) && Closed(Step(s, BeginStop).value)
  {
    WordParts(s);
  }

  lemma StepKeeps(s: State, e: Event)
    requires Inv(s) && Step(s, e).Some?
    ensures Inv(Step(s, e).value)
    ensures Closed(s) ==> Closed(Step(s, e).value) && Step(s, e).value.live <= s.live
  {
    match e
    case Begin(op) => BeginKeeps(s, op);
    case End(op) => EndKeeps(s, op);
    case BeginStop => BeginStopKeeps(s);
    case _ => WordParts(s);
  }

  lemma {:induction false} Reachable(es: seq<Event>)
    ensures Run(es).Some? ==> Inv(Run(es).value)
  {
    if es != [] {
      Reachable(es[..|es| - 1]);
      if Run(es).Some? {
        StepKeeps(Run(es[..|es| - 1]).value, es[|es| - 1]);
      }
    }
  }

  /** The drain promise is set at most once, and only with the bit set, no operation live and every
      connection closed. */
  lemma {:induction false} PromiseSetAtMostOnce(es: seq<Event>)
    requires Run(es).Some?
    ensures var s := Run(es).value;
            && s.promised <= 1
            && (s.promised == 1 ==> Closed(s) && s.live == {} && s.closes == s.acknowledgements == 0)
  {
    Reachable(es);
  }

  /** `Stop` does not hang: when a stop was requested, no operation is live and no task is pending
      any more, the promise has been set. */
  lemma {:induction false} QuietMeansDrained(es: seq<Event>)
    requires Run(es).Some?
    ensures var s := Run(es).value;
            Closed(s) && s.live == {} && !s.stopper.Deciding?
            && s.broadcasts == s.finishes == s.closes == s.acknowledgements == 0
            ==> s.promised == 1
  {
    Reachable(es);
  }

  /** After the closed bit no operation is ever admitted again. */
  lemma {:induction false} NothingAdmittedAfterStop(es: seq<Event>, fs: seq<Event>)
    requires Run(es + fs).Some?
    ensures Run(es).Some?
    ensures Closed(Run(es).value) ==> Closed(Run(es + fs).value) && Run(es + fs).value.live <= Run(es).value.live
  {
    if fs == [] {
      assert es + fs == es;
    } else {
      var gs := fs[..|fs| - 1];
      assert (es + fs)[..|es + fs| - 1] == es + gs;
      NothingAdmittedAfterStop(es, gs);
      Reachable(es + gs);
      StepKeeps(Run(es + gs).value, fs[|fs| - 1]);
    }
  }
}
