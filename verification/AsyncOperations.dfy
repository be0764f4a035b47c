/** `AsyncOperations`: the waiting protocol of `DrainWaits` with one counter, a gate that can be reopened, any number of
    waiters, and no expiry. */
module AsyncOperations {
  import opened Options
  import opened DrainWaits

  datatype State = State(accepting: bool, core: Core)

  const INITIAL := State(true, EMPTY)

  datatype Event = Acquire | Release | Restart | Stop(waiter: nat) | Woken(waiter: nat) | SendEvent(event: nat)

  function Step(s: State, e: Event): Option<State> {
    match e
    case Acquire => if !s.accepting then Some(s) else Some(s.(core := Enter(s.core)))
    case Release => if s.core.work == 0 then None else Some(s.(core := Leave(s.core)))
    case Restart => Some(s.(accepting := true))
    case Stop(d) => if Of(s.core, d).Waiting? then None else Some(State(false, Check(s.core, d)))
    case Woken(d) =>
      if Of(s.core, d).Waiting? && Of(s.core, d).event in s.core.sent then Some(s.(core := Check(s.core, d)))
      else None
    case SendEvent(n) => if n !in s.core.sending then None else Some(s.(core := Signal(s.core, n)))
  }

  function Run(es: seq<Event>): Option<State> {
    if es == [] then Some(INITIAL)
    else match Run(es[..|es| - 1]) case None => None case Some(s) => Step(s, es[|es| - 1])
  }

  ghost predicate Inv(s: State) { Sound(s.core) && NobodyStranded(s.core) }

  lemma StepKeeps(s: State, e: Event)
    requires Inv(s) && Step(s, e).Some?
    ensures Inv(Step(s, e).value)
  {
    match e
    case Acquire => EnterKeeps(s.core);
    case Release => LeaveKeeps(s.core);
    case Restart =>
    case Stop(d) => CheckKeeps(s.core, d);
    case Woken(d) => CheckKeeps(s.core, d);
    case SendEvent(n) => SignalKeeps(s.core, n);
  }

  lemma {:induction false} Reachable(es: seq<Event>)
    ensures Run(es).Some? ==> Inv(Run(es).value)
  {
    if es == [] {
      EmptyIsSound();
    } else {
      Reachable(es[..|es| - 1]);
      if Run(es).Some? {
        StepKeeps(Run(es[..|es| - 1]).value, es[|es| - 1]);
      }
    }
  }

  /** However many callers wait and however often the gate is reopened, nobody is left behind: a parked caller's
      event is sent, or about to be sent, or registered while operations are still active. */
  lemma {:induction false} EveryWaiterIsWoken(es: seq<Event>, d: nat)
    requires Run(es).Some? && Of(Run(es).value.core, d).Waiting?
    ensures var c := Run(es).value.core;
            var n := Of(c, d).event;
            && (n in c.sent || n in c.sending || (c.registered == Some(n) && c.work > 0))
            && (c.work == 0 && c.sending == {} ==> n in c.sent)
  {
    Reachable(es);
    assert !Stranded(Run(es).value.core, d);
  }

  lemma RunOne(es: seq<Event>, e: Event)
    ensures Run(es + [e]) == if Run(es).None? then None else Step(Run(es).value, e)
  {
    assert (es + [e])[..|es + [e]| - 1] == es;
  }

  /** What one step does once `d` has called `stopAndWait`. */
  lemma ReturnStep(s: State, e: Event, d: nat)
    requires Step(s, e).Some?
    ensures var t := Step(s, e).value;
            && (Of(t.core, d).Returned? && !(Of(s.core, d).Returned? && e != Stop(d)) ==> t.core.work == 0)
            && (!s.accepting && e != Restart ==> !t.accepting && (s.core.work == 0 ==> t.core.work == 0))
  {}

  /** When `stopAndWait` has returned there was a moment since the call, here after the first `k` later events,
      without active operations; unless the gate was reopened since the call, nothing is active now either. */
  lemma {:induction false} ReturnsOnlyWhenIdle(es: seq<Event>, fs: seq<Event>, d: nat) returns (k: nat)
    requires Run(es + [Stop(d)] + fs).Some? && Stop(d) !in fs
    ensures k <= |fs|
    ensures var t := Run(es + [Stop(d)] + fs).value;
            && (Restart !in fs ==> !t.accepting)
            && (Of(t.core, d).Returned? ==>
                  && Run(es + [Stop(d)] + fs[..k]).Some? && Run(es + [Stop(d)] + fs[..k]).value.core.work == 0
                  && (Restart !in fs ==> t.core.work == 0))
  {
    var bs := es + [Stop(d)];
    if fs == [] {
      assert bs + fs == bs && fs[..0] == [];
      RunOne(es, Stop(d));
      ReturnStep(Run(es).value, Stop(d), d);
      return 0;
    }
    var gs, e := fs[..|fs| - 1], fs[|fs| - 1];
    assert fs == gs + [e] && bs + fs == bs + gs + [e];
    RunOne(bs + gs, e);
    k := ReturnsOnlyWhenIdle(es, gs, d);
    ReturnStep(Run(bs + gs).value, e, d);
    if Of(Run(bs + gs).value.core, d).Returned? {
      assert fs[..k] == gs[..k];
    } else {
      k := |fs|;
      assert fs[..k] == fs;
    }
  }
}
