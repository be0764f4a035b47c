/** The gate on a packed 64-bit word is the plain gate. */
module PackedGates {
  import opened Options
  import opened Words
  import G = Gates

  /** What the word stands for. */
  predicate Represents(w: Word, g: G.Gate) {
    CountOf(w) == g.count && HasBit(w) == g.closed
  }

  /** One admission agrees with the plain gate exactly when the counter has room below the flag;
      at 2^63 - 1 the carry closes the gate by itself. */
  lemma EnterRefinesIffRoom(w: Word, g: G.Gate)
    requires Represents(w, g) && !g.closed
    ensures EnterWord(w).1
    ensures Represents(EnterWord(w).0, G.Admit(g)) <==> g.count < BIT63 - 1
    ensures g.count == BIT63 - 1 ==> HasBit(EnterWord(w).0) && CountOf(EnterWord(w).0) == 0
  {
    assert w == g.count;
  }

  /** Leaving notifies exactly when the plain gate decides the drained signal. */
  lemma LeaveRefines(w: Word, g: G.Gate)
    requires Represents(w, g) && g.count > 0
    ensures Represents(LeaveWord(w).0, G.Leave(g))
    ensures LeaveWord(w).1 <==> G.Leave(g).owed > g.owed
  {
    assert w == g.count + if g.closed then BIT63 else 0;
  }

  lemma CloseRefines(w: Word, g: G.Gate)
    requires Represents(w, g)
    ensures Represents(CloseWord(w).0, G.Shut(g))
    ensures CloseWord(w).1 == 0 <==> G.Shut(g).owed > g.owed
    ensures HasBit(CloseWord(w).1) <==> G.Shut(g) == g
  {
    assert w == g.count + if g.closed then BIT63 else 0;
  }

  // ---- Whole runs ----

  datatype State = State(word: Word, live: set<nat>, owed: nat, sent: nat)

  const INITIAL := State(0, {}, 0, 0)

  /** The packed gate driven by the same events. The environment never holds 2^63 - 1 tokens. */
  function Step(s: State, e: G.Event): Option<State> {
    match e
    case Acquire(t) =>
      var (w, ok) := EnterWord(s.word);
      if t in s.live || !ok || |s.live| >= BIT63 - 1 then None
      else Some(s.(word := w, live := s.live + {t}))
    case Refused => if EnterWord(s.word).1 then None else Some(s)
    case Release(t) =>
      var (w, notify) := LeaveWord(s.word);
      if t !in s.live then None
      else Some(s.(word := w, live := s.live - {t}, owed := s.owed + if notify then 1 else 0))
    case Close =>
      var (w, before) := CloseWord(s.word);
      Some(s.(word := w, owed := s.owed + if before == 0 then 1 else 0))
    case Send => if s.owed == 0 then None else Some(s.(owed := s.owed - 1, sent := s.sent + 1))
  }

  function Run(es: seq<G.Event>): Option<State> {
    if es == [] then Some(INITIAL)
    else match Run(es[..|es| - 1]) case None => None case Some(s) => Step(s, es[|es| - 1])
  }

  ghost predicate Refines(s: State, g: G.State) {
    && Represents(s.word, g.gate)
    && s.live == g.live
    && s.owed == g.gate.owed
    && s.sent == g.gate.sent
  }

  lemma StepRefines(s: State, g: G.State, e: G.Event)
    requires G.Inv(g) && Refines(s, g) && Step(s, e).Some?
    ensures G.Step(g, e).Some? && Refines(Step(s, e).value, G.Step(g, e).value)
    ensures G.Inv(G.Step(g, e).value)
  {
    match e
    case Acquire(t) => EnterRefinesIffRoom(s.word, g.gate);
    case Refused =>
    case Release(t) =>
      assert |g.live| > 0;
      LeaveRefines(s.word, g.gate);
    case Close => CloseRefines(s.word, g.gate);
    case Send =>
  }

  /** Every run of the packed gate is a run of the plain gate with the same tokens, the same
      refusals and the same signals; so it inherits `DrainedAtMostOnce` and `ClosedStaysDrained`. */
  lemma {:induction false} PackedRunsArePlainRuns(es: seq<G.Event>)
    requires Run(es).Some?
    ensures G.Run(es).Some?
    ensures Refines(Run(es).value, G.Run(es).value)
    ensures G.Inv(G.Run(es).value)
  {
    if es != [] {
      var last := |es| - 1;
      PackedRunsArePlainRuns(es[..last]);
      StepRefines(Run(es[..last]).value, G.Run(es[..last]).value, es[last]);
    }
  }
}
