/** Waiting for a counter to reach zero through one replaceable wake-up event: shared by the graph drain of the
    execution environment and by `AsyncOperations`. The event is created by a waiter that finds work left, moved
    out by the finisher that reaches zero, and sent by it after it has left the lock. */
module DrainWaits {
  import opened Options

  /** A drainer outside the call, parked on an event, or back with its answer. */
  datatype Drainer = Idle | Waiting(event: nat) | Returned(drained: bool)

  /** `sending` holds events a finisher has moved out and not yet sent; `sent` is the one-way latch of each event. */
  datatype Core = Core(work: nat, registered: Option<nat>, next: nat,
                       sent: set<nat>, sending: set<nat>, drainers: map<nat, Drainer>)

  const EMPTY := Core(0, None, 0, {}, {}, map[])

  function Of(c: Core, d: nat): Drainer { if d in c.drainers then c.drainers[d] else Idle }

  function Enter(c: Core): Core { c.(work := c.work + 1) }

  /** One unit of work ends; at zero the registered event is moved out. */
  function Leave(c: Core): Core
    requires c.work > 0
  {
    if c.work > 1 || c.registered.None? then c.(work := c.work - 1)
    else c.(work := 0, registered := None, sending := c.sending + {c.registered.value})
  }

  function Signal(c: Core, e: nat): Core { c.(sending := c.sending - {e}, sent := c.sent + {e}) }

  /** The loop head, under the lock: return, or register an event and wait on it. */
  function Check(c: Core, d: nat): Core {
    if c.work == 0 then c.(drainers := c.drainers[d := Returned(true)])
    else if c.registered.Some? then c.(drainers := c.drainers[d := Waiting(c.registered.value)])
    else c.(registered := Some(c.next), next := c.next + 1, drainers := c.drainers[d := Waiting(c.next)])
  }

  /** Cancellation sends the event of the cancelled drainer. */
  function Cancel(c: Core, d: nat): Core
    requires Of(c, d).Waiting?
  {
    c.(sent := c.sent + {Of(c, d).event})
  }

  /** A drainer whose context expired discards its event and answers what it sees. */
  function GiveUp(c: Core, d: nat): Core
    requires Of(c, d).Waiting?
  {
    c.(registered := if c.registered == Some(Of(c, d).event) then None else c.registered,
       drainers := c.drainers[d := Returned(c.work == 0)])
  }

  ghost predicate Sound(c: Core) {
    && (c.registered.Some? ==> c.registered.value < c.next && c.work > 0)
    && (forall d :: Of(c, d).Waiting? ==> Of(c, d).event < c.next)
  }

  /** Nobody is going to send the event this drainer waits on. */
  predicate Stranded(c: Core, d: nat) {
    && Of(c, d).Waiting?
    && Of(c, d).event !in c.sent
    && Of(c, d).event !in c.sending
    && c.registered != Some(Of(c, d).event)
  }

  ghost predicate NobodyStranded(c: Core) { forall d :: !Stranded(c, d) }

  /** Does `d` giving up leave another drainer on the event it discards? */
  ghost predicate Discards(c: Core, d: nat)
    requires Of(c, d).Waiting?
  {
    && c.registered == Some(Of(c, d).event)
    && Of(c, d).event !in c.sent
    && Of(c, d).event !in c.sending
    && exists other :: other != d && Of(c, other) == Of(c, d)
  }

  lemma EmptyIsSound()
    ensures Sound(EMPTY) && NobodyStranded(EMPTY)
  {
    assert forall d :: Of(EMPTY, d) == Idle;
  }

  lemma CheckKeeps(c: Core, d: nat)
    requires Sound(c)
    ensures Sound(Check(c, d))
    ensures NobodyStranded(c) ==> NobodyStranded(Check(c, d))
  {
    var t := Check(c, d);
    assert forall x :: x != d ==> Of(t, x) == Of(c, x);
    assert forall x :: Stranded(t, x) ==> Stranded(c, x);
  }

  lemma LeaveKeeps(c: Core)
    requires Sound(c) && c.work > 0
    ensures Sound(Leave(c))
    ensures NobodyStranded(c) ==> NobodyStranded(Leave(c))
  {
    var t := Leave(c);
    assert forall x :: Of(t, x) == Of(c, x);
    assert forall x :: Stranded(t, x) ==> Stranded(c, x);
  }

  lemma SignalKeeps(c: Core, e: nat)
    requires Sound(c)
    ensures Sound(Signal(c, e))
    ensures NobodyStranded(c) ==> NobodyStranded(Signal(c, e))
  {
    var t := Signal(c, e);
    assert forall x :: Of(t, x) == Of(c, x);
    assert forall x :: Stranded(t, x) ==> Stranded(c, x);
  }

  lemma EnterKeeps(c: Core)
    requires Sound(c)
    ensures Sound(Enter(c))
    ensures NobodyStranded(c) ==> NobodyStranded(Enter(c))
  {
    assert forall x :: Of(Enter(c), x) == Of(c, x);
    assert forall x :: Stranded(Enter(c), x) ==> Stranded(c, x);
  }

  lemma CancelKeeps(c: Core, d: nat)
    requires Sound(c) && Of(c, d).Waiting?
    ensures Sound(Cancel(c, d))
    ensures NobodyStranded(c) ==> NobodyStranded(Cancel(c, d))
  {
    var t := Cancel(c, d);
    assert forall x :: Of(t, x) == Of(c, x);
    assert forall x :: Stranded(t, x) ==> Stranded(c, x);
  }

  /** Giving up strands somebody exactly when it discards an event another drainer still waits on. */
  lemma GiveUpStrandsExactly(c: Core, d: nat)
    requires Sound(c) && Of(c, d).Waiting?
    ensures Sound(GiveUp(c, d))
    ensures NobodyStranded(c) ==> (NobodyStranded(GiveUp(c, d)) <==> !Discards(c, d))
  {
    var t := GiveUp(c, d);
    assert forall x :: x != d ==> Of(t, x) == Of(c, x);
    if NobodyStranded(c) {
      if Discards(c, d) {
        var other :| other != d && Of(c, other) == Of(c, d);
        assert Stranded(t, other);
      }
      forall x | Stranded(t, x) ensures Discards(c, d) {
        assert !Stranded(c, x);
        assert Of(c, x) == Of(c, d);
      }
    }
  }
}
