/** The count / closed / drained admission gate.

    `Gate` is the plain machine behind `StreamingActivity`; `PackedGate` shows that the
    two gates which keep the closed flag in bit 63 of the counter are the same machine. */
module Gates {
  import opened Options

  /** `owed` counts drained signals decided under the mutex but not sent yet. */
  datatype Gate = Gate(count: nat, closed: bool, owed: nat, sent: nat)

  const OPEN := Gate(0, false, 0, 0)

  function Admit(g: Gate): Gate
    requires !g.closed
  {
    g.(count := g.count + 1)
  }

  function Leave(g: Gate): Gate
    requires g.count > 0
  {
    g.(count := g.count - 1, owed := g.owed + if g.closed && g.count == 1 then 1 else 0)
  }

  function Shut(g: Gate): Gate {
    if g.closed then g
    else g.(closed := true, owed := g.owed + if g.count == 0 then 1 else 0)
  }

  function Signal(g: Gate): Gate
    requires g.owed > 0
  {
    g.(owed := g.owed - 1, sent := g.sent + 1)
  }

  /** The drained signal is decided exactly when the gate is closed and empty. */
  ghost predicate Sound(g: Gate) {
    g.owed + g.sent == if g.closed && g.count == 0 then 1 else 0
  }

  lemma SoundSteps(g: Gate)
    requires Sound(g)
    ensures !g.closed ==> Sound(Admit(g))
    ensures g.count > 0 ==> Sound(Leave(g))
    ensures Sound(Shut(g))
    ensures g.owed > 0 ==> Sound(Signal(g))
  {}

  // ---- The gate with the tokens its callers really hold ----

  datatype State = State(gate: Gate, live: set<nat>)

  datatype Event =
    | Acquire(token: nat)
    | Refused
    | Release(token: nat)
    | Close
    | Send

  const INITIAL := State(OPEN, {})

  function Step(s: State, e: Event): Option<State> {
    match e
    case Acquire(t) =>
      if t in s.live || s.gate.closed then None else Some(State(Admit(s.gate), s.live + {t}))
    case Refused => if s.gate.closed then Some(s) else None
    case Release(t) =>
      if t !in s.live || s.gate.count == 0 then None else Some(State(Leave(s.gate), s.live - {t}))
    case Close => Some(s.(gate := Shut(s.gate)))
    case Send => if s.gate.owed == 0 then None else Some(s.(gate := Signal(s.gate)))
  }

  function Run(es: seq<Event>): Option<State> {
    if es == [] then Some(INITIAL)
    else match Run(es[..|es| - 1]) case None => None case Some(s) => Step(s, es[|es| - 1])
  }

  ghost predicate Inv(s: State) {
    && s.gate.count == |s.live|
    && Sound(s.gate)
  }

  ghost predicate Shrinks(s: State, t: State) {
    && (s.gate.closed ==> t.gate.closed && t.live <= s.live)
    && s.gate.sent <= t.gate.sent
  }

  lemma StepKeeps(s: State, e: Event)
    requires Inv(s) && Step(s, e).Some?
    ensures Inv(Step(s, e).value) && Shrinks(s, Step(s, e).value)
  {}

  lemma {:induction false} Reachable(es: seq<Event>)
    ensures Run(es).Some? ==> Inv(Run(es).value)
  {
    if es != [] {
      Reachable(es[..|es| - 1]);
      if Run(es).Some? {
        StepKeeps(Run(es[..|es| - 1]).value, es[|es| - 1]);
      }
    }
  }

  lemma {:induction false} Later(es: seq<Event>, fs: seq<Event>)
    requires Run(es + fs).Some?
    ensures Run(es).Some? && Shrinks(Run(es).value, Run(es + fs).value)
  {
    if fs == [] {
      assert es + fs == es;
    } else {
      var gs := fs[..|fs| - 1];
      assert (es + fs)[..|es + fs| - 1] == es + gs;
      Later(es, gs);
      Reachable(es + gs);
      StepKeeps(Run(es + gs).value, fs[|fs| - 1]);
    }
  }

  /** The signal is sent at most once and only when closed with no live token; conversely
      a closed, empty gate has sent it or still owes it; every live token can be returned. */
  lemma {:induction false} DrainedAtMostOnce(es: seq<Event>)
    requires Run(es).Some?
    ensures var s := Run(es).value;
            && s.gate.count == |s.live|
            && s.gate.sent <= 1
            && (s.gate.sent == 1 ==> s.gate.closed && s.live == {})
            && (s.gate.closed && s.live == {} <==> s.gate.sent + s.gate.owed == 1)
            && forall t :: t in s.live ==> Step(s, Release(t)).Some?
  {
    Reachable(es);
  }

  /** Once closed, no token appears later: the live set only shrinks, so after the drained
      signal it stays empty for the rest of the run. */
  lemma {:induction false} ClosedStaysDrained(es: seq<Event>, fs: seq<Event>)
    requires Run(es + fs).Some?
    ensures Run(es).Some?
    ensures var s, t := Run(es).value, Run(es + fs).value;
            && (s.gate.closed ==> t.gate.closed && t.live <= s.live)
            && (s.gate.sent == 1 ==> t.live == {} && t.gate.sent == 1)
  {
    Later(es, fs);
    Reachable(es);
    Reachable(es + fs);
  }

  /** `StreamingActivity`: every method is one mutex region followed by its own signal. */
  class StreamingActivity {
    var count: nat
    var closed: bool
    ghost var owed: nat
    ghost var sent: nat

    ghost function View(): Gate
      reads this
    {
      Gate(count, closed, owed, sent)
    }

    constructor ()
      ensures View() == OPEN
    {
      count, closed, owed, sent := 0, false, 0, 0;
    }

    method TryAcquire() returns (ok: bool)
      modifies this
      ensures ok <==> !old(closed)
      ensures View() == if ok then Admit(old(View())) else old(View())
    {
      if closed {
        return false;
      }
      count := count + 1;
      return true;
    }

    method ReleaseToken()
      requires count > 0 && Sound(View())
      modifies this
      ensures View() == (var g := Leave(old(View())); if g.owed > old(owed) then Signal(g) else g)
      ensures Sound(View())
    {
      count := count - 1;
      var notify := closed && count == 0;
      if notify {
        owed := owed + 1;
        SendDrained();
      }
    }

    method CloseGate() returns (first: bool)
      requires Sound(View())
      modifies this
      ensures first <==> !old(closed)
      ensures View() == (var g := Shut(old(View())); if g.owed > old(owed) then Signal(g) else g)
      ensures Sound(View())
    {
      if closed {
        return false;
      }
      closed := true;
      var notify := count == 0;
      if notify {
        owed := owed + 1;
        SendDrained();
      }
      return true;
    }

    method SendDrained()
      requires owed > 0
      modifies this
      ensures View() == Signal(old(View()))
    {
      owed, sent := owed - 1, sent + 1;
    }
  }
}
