/** `StreamingCell`: readiness and cancellation race, and whoever comes second cancels the RPC.
    Every load, store and exchange of `markReady`, `cancel` and `cancelIfReady` is its own step. */
module StreamingCells {
  import opened Options

  /** Where a thread is: before its own store, before each of the two loads, before the exchange,
      before the call of `rpc->cancel()`. */
  datatype Pc = Marking | Cancelling | LoadReady | LoadCancelled | Exchange | Calling

  /** `session`: creation published a session with an RPC. It does not change once ready. */
  datatype State = State(
    session: bool, ready: bool, cancelled: bool, cancelSent: bool, threads: map<nat, Pc>, cancels: nat)

  function Fresh(session: bool): State { State(session, false, false, false, map[], 0) }

  datatype Event = MarkReady(thread: nat) | Cancel(thread: nat) | Advance(thread: nat)

  function Step(s: State, e: Event): Option<State> {
    match e
    case MarkReady(t) => if t in s.threads then None else Some(s.(threads := s.threads[t := Marking]))
    case Cancel(t) => if t in s.threads then None else Some(s.(threads := s.threads[t := Cancelling]))
    case Advance(t) =>
      if t !in s.threads then None
      else
        var out := s.(threads := s.threads - {t});
        match s.threads[t]
        case Marking => Some(s.(ready := true, threads := s.threads[t := LoadReady]))
        case Cancelling => Some(s.(cancelled := true, threads := s.threads[t := LoadReady]))
        case LoadReady => Some(if s.ready then s.(threads := s.threads[t := LoadCancelled]) else out)
        case LoadCancelled => Some(if s.cancelled then s.(threads := s.threads[t := Exchange]) else out)
        case Exchange =>
          Some(if s.session && !s.cancelSent then s.(cancelSent := true, threads := s.threads[t := Calling]) else out)
        case Calling => Some(out.(cancels := s.cancels + 1))
  }

  function Run(session: bool, es: seq<Event>): Option<State> {
    if es == [] then Some(Fresh(session))
    else match Run(session, es[..|es| - 1]) case None => None case Some(s) => Step(s, es[|es| - 1])
  }

  predicate At(s: State, t: nat, pc: Pc) { t in s.threads && s.threads[t] == pc }

  predicate OnTheWay(s: State, t: nat) {
    t in s.threads && (s.threads[t].LoadReady? || s.threads[t].LoadCancelled? || s.threads[t].Exchange?)
  }

  /** The winner of the exchange is unique and calls once. */
  ghost predicate Once(s: State) {
    && (forall t, u :: At(s, t, Calling) && At(s, u, Calling) ==> t == u)
    && (forall t :: At(s, t, Calling) ==> s.cancelSent && s.cancels == 0)
    && s.cancels <= (if s.cancelSent then 1 else 0)
    && (s.cancelSent && s.cancels == 0 ==> exists t :: At(s, t, Calling))
  }

  ghost predicate Guarded(s: State) {
    && (forall t :: t in s.threads && s.threads[t].LoadCancelled? ==> s.ready)
    && (forall t :: t in s.threads && s.threads[t].Exchange? ==> s.ready && s.cancelled)
    && (s.cancelSent ==> s.ready && s.cancelled && s.session)
  }

  /** Once both flags are set, somebody who will see both is on the way or has already sent. */
  ghost predicate Responsible(s: State) {
    s.ready && s.cancelled && s.session && !s.cancelSent ==> exists t :: OnTheWay(s, t)
  }

  ghost predicate Inv(s: State) { Once(s) && Guarded(s) && Responsible(s) }

  lemma OnceKeeps(s: State, e: Event)
    requires Inv(s) && Step(s, e).Some?
    ensures Once(Step(s, e).value)
  {
    var t := Step(s, e).value;
    assert forall u :: u != e.thread ==>
             (u in s.threads <==> u in t.threads) && (u in s.threads ==> t.threads[u] == s.threads[u]);
    assert forall u :: u != e.thread ==> (At(t, u, Calling) <==> At(s, u, Calling));
    if At(s, e.thread, Calling) {
      assert forall u :: At(s, u, Calling) ==> u == e.thread;
    }
    if t.cancelSent && t.cancels == 0 {
      if s.cancelSent {
        var u :| At(s, u, Calling);
        assert At(t, u, Calling);
      } else {
        assert At(t, e.thread, Calling);
      }
    }
  }

  lemma ResponsibleKeeps(s: State, e: Event)
    requires Inv(s) && Step(s, e).Some?
    ensures Guarded(Step(s, e).value) && Responsible(Step(s, e).value)
  {
    var t := Step(s, e).value;
    assert forall u :: u != e.thread ==>
             (u in s.threads <==> u in t.threads) && (u in s.threads ==> t.threads[u] == s.threads[u]);
    if t.ready && t.cancelled && t.session && !t.cancelSent {
      if s.ready && s.cancelled {
        var u :| OnTheWay(s, u);
        assert OnTheWay(t, u);
      } else {
        assert OnTheWay(t, e.thread);
      }
    }
  }

  lemma {:induction false} Reachable(session: bool, es: seq<Event>)
    ensures Run(session, es).Some? ==> Inv(Run(session, es).value) && Run(session, es).value.session == session
  {
    if es != [] {
      Reachable(session, es[..|es| - 1]);
      if Run(session, es).Some? {
        OnceKeeps(Run(session, es[..|es| - 1]).value, es[|es| - 1]);
        ResponsibleKeeps(Run(session, es[..|es| - 1]).value, es[|es| - 1]);
      }
    }
  }

  /** The RPC is cancelled at most once and never before the cell is ready and cancelled; when no call is
      running any more, it was cancelled if and only if both happened and a session was present. */
  lemma {:induction false} CancelledExactlyWhenBoth(session: bool, es: seq<Event>)
    requires Run(session, es).Some?
    ensures var s := Run(session, es).value;
            && s.cancels <= 1
            && (s.cancels == 1 ==> s.ready && s.cancelled && session)
            && (s.threads == map[] ==> (s.cancels == 1 <==> s.ready && s.cancelled && session))
  {
    Reachable(session, es);
  }
}
