/** `StreamingRegistry`: cells register under the mutex, `close` detaches all of them and cancels
    outside the mutex, late registrations are cancelled by `add`, and a destroyed cell erases
    its own entry. */
module StreamingRegistries {
  import opened Options

  /** `pending`: cancellations decided under the mutex and still to be called. */
  datatype State = State(
    closed: bool, cells: set<nat>, alive: set<nat>, added: set<nat>, pending: set<nat>, cancels: map<nat, nat>)

  const INITIAL := State(false, {}, {}, {}, {}, map[])

  datatype Event =
    | Create(cell: nat)
    | Add(cell: nat)
    | AddAgain(cell: nat)
    | Close
    | CallCancel(cell: nat)
    | Destroy(cell: nat)

  function CancelsOf(s: State, c: nat): nat { if c in s.cancels then s.cancels[c] else 0 }

  function Step(s: State, e: Event): Option<State> {
    match e
    case Create(c) => if c in s.alive + s.added then None else Some(s.(alive := s.alive + {c}))
    case Add(c) =>
      if c !in s.alive || c in s.added then None
      else if s.closed then Some(s.(added := s.added + {c}, pending := s.pending + {c}))
      else Some(s.(added := s.added + {c}, cells := s.cells + {c}))
    case AddAgain(c) =>
      // A second registration of the same cell throws and leaves the first entry.
      if c !in s.cells || s.closed then None else Some(s)
    case Close => Some(s.(closed := true, cells := {}, pending := s.pending + s.cells))
    case CallCancel(c) =>
      // The weak reference is locked first: a dead cell is skipped.
      if c !in s.pending then None
      else if c !in s.alive then Some(s.(pending := s.pending - {c}))
      else Some(s.(pending := s.pending - {c}, cancels := s.cancels[c := CancelsOf(s, c) + 1]))
    case Destroy(c) =>
      if c !in s.alive then None else Some(s.(alive := s.alive - {c}, cells := s.cells - {c}))
  }

  function Run(es: seq<Event>): Option<State> {
    if es == [] then Some(INITIAL)
    else match Run(es[..|es| - 1]) case None => None case Some(s) => Step(s, es[|es| - 1])
  }

  ghost predicate Inv(s: State) {
    && (s.closed ==> s.cells == {})
    && (!s.closed ==> s.pending == {} && s.cancels == map[])
    && s.cells + s.pending <= s.added && s.cells !! s.pending
    && (forall c :: c in s.cancels ==> s.cancels[c] == 1 && c in s.added && c !in s.cells + s.pending)
    && (forall c :: c in s.added && c in s.alive ==> c in s.cells || c in s.pending || c in s.cancels)
    && (forall c :: c in s.cells ==> c in s.alive)
  }

  lemma StepKeeps(s: State, e: Event)
    requires Inv(s) && Step(s, e).Some?
    ensures Inv(Step(s, e).value)
  {}

  lemma {:induction false} Reachable(es: seq<Event>)
    ensures Run(es).Some? ==> Inv(Run(es).value)
  {
    if es != [] {
      Reachable(es[..|es| - 1]);
      if Run(es).Some? {
        StepKeeps(Run(es[..|es| - 1]).value, es[|es| - 1]);
      }
    }
  }

  /** Nobody is cancelled before the close and nobody twice; once the registry is closed and the detached
      cancellations were called, every live registered cell was cancelled exactly once, whether it was added
      before or after the close. Destroyed cells leave no entry. */
  lemma {:induction false} EveryLiveCellCancelledOnce(es: seq<Event>)
    requires Run(es).Some?
    ensures var s := Run(es).value;
            && s.cells <= s.alive
            && (forall c :: CancelsOf(s, c) <= 1)
            && (!s.closed ==> forall c :: CancelsOf(s, c) == 0)
            && (s.closed && s.pending == {} ==> forall c :: c in s.added && c in s.alive ==> CancelsOf(s, c) == 1)
  {
    Reachable(es);
  }
}
