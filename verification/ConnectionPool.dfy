/** The HTTP client's connection pool: bounded connections, FIFO waiters with a one-slot
    channel each, and leases that post their own release when the last reference drops.

    Strand-serialised regions are single events, the stop broadcast among them. Other wake-ups
    (stop tokens, deadline timers) may come from any thread at any moment. A lease can be lost in three
    places: a send into an occupied channel, a channel destroyed unread, or normal use. */
module ConnectionPool {
  import opened Options

  datatype Conn = Conn(busy: bool, host: string, port: string)

  datatype Message = Wake | Grant(lease: nat)

  /** The coroutine in `Acquire`: before `async_receive`, suspended in it, handed a message, or returned. */
  datatype Receiver = Starting | Parked | Resuming(message: Message) | Gone

  datatype Waiter = Waiter(host: string, port: string, receiver: Receiver, slot: Option<Message>)

  /** Where the single live reference of a lease is. */
  datatype Place = InSlot(waiter: nat) | InFlight(waiter: nat) | Held | Posted

  datatype Lease = Lease(conn: nat, place: Place)

  /** `arrivals` numbers the waiters in arrival order; `granted` lists whom `Pump` served. */
  datatype State = State(
    limit: nat, closed: bool, conns: seq<Conn>, queue: seq<nat>, waiters: map<nat, Waiter>,
    leases: map<nat, Lease>, nextLease: nat, arrivals: nat, granted: seq<nat>)

  function Fresh(limit: nat): State {
    State(limit, false, [], [], map[], map[], 0, 0, [])
  }

  // ---- Pump ----

  function FirstIdle(cs: seq<Conn>): (i: nat)
    ensures i <= |cs|
    ensures i < |cs| ==> !cs[i].busy
    ensures forall j :: 0 <= j < i ==> cs[j].busy
  {
    if cs == [] || !cs[0].busy then 0 else 1 + FirstIdle(cs[1..])
  }

  predicate Suits(c: Conn, host: string, port: string) {
    !c.busy && c.host == host && c.port == port
  }

  function FirstSuiting(cs: seq<Conn>, host: string, port: string): (i: nat)
    ensures i <= |cs|
    ensures i < |cs| ==> Suits(cs[i], host, port)
    ensures forall j :: 0 <= j < i ==> !Suits(cs[j], host, port)
  {
    if cs == [] || Suits(cs[0], host, port) then 0 else 1 + FirstSuiting(cs[1..], host, port)
  }

  /** An idle connection to the same peer, else any idle one, else a new one below the limit. */
  function Choose(cs: seq<Conn>, limit: nat, host: string, port: string): (r: Option<nat>)
    ensures r.Some? ==> r.value <= |cs| && (r.value < |cs| ==> !cs[r.value].busy)
    ensures forall j :: 0 <= j < |cs| && Suits(cs[j], host, port) ==>
              r.Some? && r.value <= j && Suits(cs[r.value], host, port)
    ensures r == Some(|cs|) ==> |cs| < limit && forall j :: 0 <= j < |cs| ==> cs[j].busy
    ensures r.None? <==> |cs| >= limit && forall j :: 0 <= j < |cs| ==> cs[j].busy
  {
    var m := FirstSuiting(cs, host, port);
    var i := FirstIdle(cs);
    if m < |cs| then Some(m)
    else if i < |cs| then Some(i)
    else if |cs| < limit then Some(|cs|)
    else None
  }

  /** `try_send` on the one-slot channel: to a suspended receiver, else into the slot, else it fails. */
  function Accepts(w: Waiter): bool { w.receiver.Parked? || w.slot.None? }

  function Deliver(w: Waiter, m: Message): Waiter
    requires Accepts(w)
  {
    if w.receiver.Parked? then w.(receiver := Resuming(m)) else w.(slot := Some(m))
  }

  ghost predicate Queued(s: State) {
    forall w :: w in s.queue ==> w in s.waiters
  }

  function GrantFront(s: State, c: nat): State
    requires s.queue != [] && s.queue[0] in s.waiters && c <= |s.conns|
  {
    var w, lease := s.queue[0], s.nextLease;
    var waiter := s.waiters[w];
    var place :=
      if waiter.receiver.Parked? then InFlight(w) else if waiter.slot.None? then InSlot(w) else Posted;
    s.(conns := if c < |s.conns| then s.conns[c := s.conns[c].(busy := true)] else s.conns + [Conn(true, "", "")],
       queue := s.queue[1..],
       waiters := if Accepts(waiter) then s.waiters[w := Deliver(waiter, Grant(lease))] else s.waiters,
       leases := s.leases[lease := Lease(c, place)],
       nextLease := lease + 1,
       granted := s.granted + [w])
  }

  function Pump(s: State): State
    decreases |s.queue|
  {
    if s.closed || s.queue == [] || s.queue[0] !in s.waiters then s
    else
      var waiter := s.waiters[s.queue[0]];
      match Choose(s.conns, s.limit, waiter.host, waiter.port)
      case None => s
      case Some(c) => Pump(GrantFront(s, c))
  }

  // ---- Strand steps ----

  function Without(q: seq<nat>, w: nat): (r: seq<nat>)
    ensures forall x :: x in r <==> x in q && x != w
  {
    if q == [] then [] else (if q[0] == w then [] else [q[0]]) + Without(q[1..], w)
  }

  function Enqueue(s: State, host: string, port: string, woken: bool): State {
    var w := s.arrivals;
    s.(waiters := s.waiters[w := Waiter(host, port, Starting, if woken then Some(Wake) else None)],
       queue := s.queue + [w], arrivals := w + 1)
  }

  /** `Acquire` up to its suspension. `woken`: a stop callback fired while it was registered. */
  function Arrive(s: State, host: string, port: string, woken: bool): State {
    Receive(Pump(Enqueue(s, host, port, woken)), s.arrivals)
  }

  /** `async_receive`: take a buffered message at once, else suspend. */
  function Receive(s: State, w: nat): State {
    if w !in s.waiters then s
    else
      match s.waiters[w].slot
      case None => s.(waiters := s.waiters[w := s.waiters[w].(receiver := Parked)])
      case Some(m) =>
        s.(waiters := s.waiters[w := s.waiters[w].(receiver := Resuming(m), slot := None)],
           leases := if m.Grant? then Move(s.leases, m.lease, InFlight(w)) else s.leases)
  }

  function Move(leases: map<nat, Lease>, l: nat, place: Place): map<nat, Lease> {
    if l in leases then leases[l := leases[l].(place := place)] else leases
  }

  function Leave(s: State, w: nat): State
    requires w in s.waiters && s.waiters[w].receiver.Resuming?
  {
    var m := s.waiters[w].receiver.message;
    s.(queue := Without(s.queue, w),
       waiters := s.waiters[w := s.waiters[w].(receiver := Gone)],
       leases := if m.Grant? then Move(s.leases, m.lease, Held) else s.leases)
  }

  /** The coroutine returns or throws: `RemoveWaiter` erases the waiter, then pumps. */
  function Resume(s: State, w: nat): State
    requires w in s.waiters && s.waiters[w].receiver.Resuming?
  {
    Pump(Leave(s, w))
  }

  /** The last reference to a finished waiter's channel drops, with whatever it buffers. */
  function Abandon(s: State, w: nat): State
    requires w in s.waiters
  {
    var slot := s.waiters[w].slot;
    s.(waiters := s.waiters - {w},
       leases := if slot.Some? && slot.value.Grant? then Move(s.leases, slot.value.lease, Posted) else s.leases)
  }

  function Idle(s: State, l: nat): State
    requires l in s.leases && s.leases[l].conn < |s.conns|
  {
    var c := s.leases[l].conn;
    s.(conns := s.conns[c := s.conns[c].(busy := false)], leases := s.leases - {l})
  }

  /** The posted release runs: the connection becomes idle, then the queue is pumped. */
  function Release(s: State, l: nat): State
    requires l in s.leases && s.leases[l].conn < |s.conns|
  {
    Pump(Idle(s, l))
  }

  /** A wake-up from any thread. */
  function Poke(s: State, w: nat): State
    requires w in s.waiters
  {
    if Accepts(s.waiters[w]) then s.(waiters := s.waiters[w := Deliver(s.waiters[w], Wake)]) else s
  }

  /** The stop broadcast: a wake-up to every queued waiter. */
  function PokeAll(s: State, q: seq<nat>): State
    decreases q
  {
    if q == [] then s else PokeAll(if q[0] in s.waiters then Poke(s, q[0]) else s, q[1..])
  }

  datatype Event =
    | Acquire(host: string, port: string, woken: bool)
    | Caught(host: string, port: string, woken: bool)
    | Signal(waiter: nat)
    | ReturnFromAcquire(waiter: nat)
    | DestroyChannel(waiter: nat)
    | DropLease(lease: nat)
    | RunRelease(lease: nat)
    | Rehome(lease: nat, host: string, port: string)
    | Stop
    | Broadcast

  function Step(s: State, e: Event): Option<State> {
    match e
    case Acquire(h, p, woken) => Some(if s.closed then s else Arrive(s, h, p, woken))
    case Caught(h, p, woken) =>
      // The stop sets the closed bit between the test in `Acquire` and the one in `Pump`.
      if s.closed then None else Some(Arrive(s.(closed := true), h, p, woken))
    case Signal(w) =>
      if w !in s.waiters then None else Some(Poke(s, w))
    case ReturnFromAcquire(w) =>
      if w !in s.waiters || !s.waiters[w].receiver.Resuming? then None else Some(Resume(s, w))
    case DestroyChannel(w) =>
      if w !in s.waiters || !s.waiters[w].receiver.Gone? then None else Some(Abandon(s, w))
    case DropLease(l) =>
      if l !in s.leases || !s.leases[l].place.Held? then None
      else Some(s.(leases := Move(s.leases, l, Posted)))
    case RunRelease(l) =>
      if l !in s.leases || !s.leases[l].place.Posted? || s.leases[l].conn >= |s.conns| then None
      else Some(Release(s, l))
    case Rehome(l, h, p) =>
      if l !in s.leases || !s.leases[l].place.Held? || s.leases[l].conn >= |s.conns| then None
      else
        var c := s.leases[l].conn;
        Some(s.(conns := s.conns[c := s.conns[c].(host := h, port := p)]))
    case Stop => Some(s.(closed := true))
    case Broadcast => if s.closed then Some(PokeAll(s, s.queue)) else None
  }

  // ---- Invariant ----

  ghost predicate Leased(s: State, c: nat) {
    exists l :: l in s.leases && s.leases[l].conn == c
  }

  /** Busy connections and outstanding leases are in one-to-one correspondence. */
  ghost predicate Ownership(s: State) {
    && |s.conns| <= s.limit
    && (forall l :: l in s.leases ==> l < s.nextLease && s.leases[l].conn < |s.conns| && s.conns[s.leases[l].conn].busy)
    && (forall l, k :: l in s.leases && k in s.leases && l != k ==> s.leases[l].conn != s.leases[k].conn)
    && (forall c :: 0 <= c < |s.conns| && s.conns[c].busy ==> Leased(s, c))
  }

  predicate LeasePlaced(s: State, l: nat)
    requires l in s.leases
  {
    match s.leases[l].place
    case InSlot(w) => w in s.waiters && s.waiters[w].slot == Some(Grant(l))
    case InFlight(w) => w in s.waiters && s.waiters[w].receiver == Resuming(Grant(l))
    case _ => true
  }

  predicate WaiterBacked(s: State, w: nat)
    requires w in s.waiters
  {
    var slot, receiver := s.waiters[w].slot, s.waiters[w].receiver;
    && (slot.Some? && slot.value.Grant? ==>
          slot.value.lease in s.leases && s.leases[slot.value.lease].place == InSlot(w))
    && (receiver.Resuming? && receiver.message.Grant? ==>
          receiver.message.lease in s.leases && s.leases[receiver.message.lease].place == InFlight(w))
  }

  /** A channel holds a lease exactly when the lease is recorded there. */
  ghost predicate Channels(s: State) {
    && (forall l :: l in s.leases ==> LeasePlaced(s, l))
    && (forall w :: w in s.waiters ==> WaiterBacked(s, w))
  }

  predicate HasLease(w: Waiter) {
    || (w.slot.Some? && w.slot.value.Grant?)
    || (w.receiver.Resuming? && w.receiver.message.Grant?)
  }

  ghost predicate Increasing(q: seq<nat>) {
    forall i, j :: 0 <= i < j < |q| ==> q[i] < q[j]
  }

  /** The queue and the grants are in arrival order, and every grant is before the whole queue. */
  ghost predicate Order(s: State) {
    && Queued(s)
    && (forall w :: w in s.waiters ==> w < s.arrivals)
    && (forall w :: w in s.queue ==> !HasLease(s.waiters[w]) && !s.waiters[w].receiver.Gone?)
    && Increasing(s.queue)
    && Increasing(s.granted)
    && (forall g :: g in s.granted ==> g < s.arrivals)
    && (forall g, w :: g in s.granted && w in s.queue ==> g < w)
  }

  ghost predicate Core(s: State) {
    Ownership(s) && Channels(s) && Order(s)
  }

  /** While running, somebody waits only if the limit is reached and every connection is busy. */
  ghost predicate WorkConserving(s: State) {
    !s.closed && s.queue != [] ==> |s.conns| == s.limit && forall c :: 0 <= c < |s.conns| ==> s.conns[c].busy
  }

  /** A suspended acquirer has an empty channel and is still queued, so a grant can reach it. */
  predicate SettledWaiter(s: State, w: nat)
    requires w in s.waiters
  {
    && !s.waiters[w].receiver.Starting?
    && (s.waiters[w].receiver.Parked? ==> s.waiters[w].slot.None? && w in s.queue)
  }

  ghost predicate Settled(s: State) {
    forall w :: w in s.waiters ==> SettledWaiter(s, w)
  }

  ghost predicate Inv(s: State) { Core(s) && WorkConserving(s) && Settled(s) }

  // ---- Pump keeps the invariant ----

  lemma GrantOwnership(s: State, c: nat)
    requires Ownership(s) && Queued(s) && s.queue != [] && c <= |s.conns| && c < s.limit
    requires c < |s.conns| ==> !s.conns[c].busy
    ensures Ownership(GrantFront(s, c))
  {
    var t := GrantFront(s, c);
    forall d | 0 <= d < |t.conns| && t.conns[d].busy ensures Leased(t, d) {
      if d == c {
        assert s.nextLease in t.leases;
      } else {
        assert Leased(s, d);
        var l :| l in s.leases && s.leases[l].conn == d;
        assert l in t.leases && t.leases[l].conn == d;
      }
    }
  }

  lemma GrantOrder(s: State, c: nat)
    requires Order(s) && s.queue != [] && c <= |s.conns|
    ensures Order(GrantFront(s, c))
  {
    var t := GrantFront(s, c);
    assert forall w :: w in t.queue ==> w in s.queue && w != s.queue[0];
    assert forall w :: w in t.queue ==> t.waiters[w] == s.waiters[w];
    assert s.queue[0] in s.queue;
    IncreasingAppend(s.granted, s.queue[0]);
  }

  lemma IncreasingAppend(q: seq<nat>, x: nat)
    requires Increasing(q) && forall y :: y in q ==> y < x
    ensures Increasing(q + [x])
  {
    assert forall i :: 0 <= i < |q| ==> q[i] in q;
  }

  lemma GrantChannels(s: State, c: nat)
    requires Channels(s) && Queued(s) && s.queue != [] && c <= |s.conns|
    requires !HasLease(s.waiters[s.queue[0]]) && s.nextLease !in s.leases
    ensures Channels(GrantFront(s, c))
  {
    var t := GrantFront(s, c);
    forall l | l in t.leases ensures LeasePlaced(t, l) { assert l in s.leases ==> LeasePlaced(s, l); }
    forall v | v in t.waiters ensures WaiterBacked(t, v) { assert WaiterBacked(s, v); }
  }

  lemma GrantCore(s: State, c: nat)
    requires Core(s) && s.queue != [] && c <= |s.conns| && c < s.limit
    requires c < |s.conns| ==> !s.conns[c].busy
    ensures Core(GrantFront(s, c))
  {
    GrantOwnership(s, c);
    GrantOrder(s, c);
    GrantChannels(s, c);
  }

  lemma {:induction false} PumpKeeps(s: State)
    requires Core(s)
    ensures Core(Pump(s)) && WorkConserving(Pump(s))
    ensures Pump(s).closed == s.closed && Pump(s).limit == s.limit && Pump(s).arrivals == s.arrivals
    ensures Pump(s).waiters.Keys == s.waiters.Keys
    decreases |s.queue|
  {
    if !s.closed && s.queue != [] {
      var waiter := s.waiters[s.queue[0]];
      var choice := Choose(s.conns, s.limit, waiter.host, waiter.port);
      if choice.Some? {
        GrantCore(s, choice.value);
        PumpKeeps(GrantFront(s, choice.value));
        assert GrantFront(s, choice.value).waiters.Keys == s.waiters.Keys;
      }
    }
  }

  lemma GrantQueued(s: State, c: nat)
    requires Queued(s) && s.queue != [] && c <= |s.conns|
    ensures Queued(GrantFront(s, c))
    ensures forall w :: w in s.queue <==> w == s.queue[0] || w in GrantFront(s, c).queue
  {
    assert forall w :: w in s.queue[1..] ==> w in s.queue;
    assert s.queue == [s.queue[0]] + s.queue[1..];
  }

  lemma {:induction false} PumpSettles(s: State, v: nat)
    requires Queued(s) && v in s.waiters
    ensures v in Pump(s).waiters
    ensures SettledWaiter(s, v) ==> SettledWaiter(Pump(s), v)
    ensures s.waiters[v].receiver.Starting? ==> Pump(s).waiters[v].receiver.Starting?
    ensures s.waiters[v].receiver.Starting? && v in s.queue ==>
              Pump(s).waiters[v].slot.Some? || v in Pump(s).queue
    decreases |s.queue|
  {
    if !s.closed && s.queue != [] {
      var waiter := s.waiters[s.queue[0]];
      var choice := Choose(s.conns, s.limit, waiter.host, waiter.port);
      if choice.Some? {
        GrantQueued(s, choice.value);
        var t := GrantFront(s, choice.value);
        PumpSettles(t, v);
        SlotStays(t, v);
      }
    }
  }

  lemma {:induction false} SlotStays(s: State, v: nat)
    requires Queued(s) && v in s.waiters
    ensures v in Pump(s).waiters
    ensures s.waiters[v].slot.Some? ==> Pump(s).waiters[v].slot.Some?
    decreases |s.queue|
  {
    if !s.closed && s.queue != [] {
      var waiter := s.waiters[s.queue[0]];
      var choice := Choose(s.conns, s.limit, waiter.host, waiter.port);
      if choice.Some? {
        GrantQueued(s, choice.value);
        SlotStays(GrantFront(s, choice.value), v);
      }
    }
  }

  // ---- Every event keeps the invariant ----

  lemma {:induction false} WithoutIncreasing(q: seq<nat>, w: nat)
    requires Increasing(q)
    ensures Increasing(Without(q, w))
  {
    if q != [] {
      WithoutIncreasing(q[1..], w);
      var r := Without(q[1..], w);
      assert forall x :: x in q[1..] ==> q[0] < x;
      assert forall j :: 0 <= j < |r| ==> r[j] in r;
    }
  }

  /** Ownership depends only on the busy flags and on which lease has which connection. */
  lemma OwnershipFrame(s: State, t: State)
    requires Ownership(s)
    requires t.limit == s.limit && t.nextLease == s.nextLease && |t.conns| == |s.conns|
    requires forall c :: 0 <= c < |s.conns| ==> t.conns[c].busy == s.conns[c].busy
    requires t.leases.Keys == s.leases.Keys && forall l :: l in s.leases ==> t.leases[l].conn == s.leases[l].conn
    ensures Ownership(t)
  {
    forall c | 0 <= c < |t.conns| && t.conns[c].busy ensures Leased(t, c) {
      assert Leased(s, c);
      var l :| l in s.leases && s.leases[l].conn == c;
      assert l in t.leases && t.leases[l].conn == c;
    }
  }

  lemma EnqueueOrder(s: State, host: string, port: string, woken: bool)
    requires Core(s)
    ensures Order(Enqueue(s, host, port, woken))
  {
    var t := Enqueue(s, host, port, woken);
    assert forall i :: 0 <= i < |s.queue| ==> s.queue[i] in s.queue;
    assert forall i :: 0 <= i < |s.queue| ==> s.queue[i] in s.waiters;
    assert forall w :: w in t.queue <==> w in s.queue || w == s.arrivals;
  }

  lemma EnqueueChannels(s: State, host: string, port: string, woken: bool)
    requires Channels(s) && Order(s)
    ensures Channels(Enqueue(s, host, port, woken))
  {}

  lemma ReceiveChannels(s: State, w: nat)
    requires Channels(s) && w in s.waiters && s.waiters[w].receiver.Starting?
    ensures Channels(Receive(s, w))
  {
    var t := Receive(s, w);
    forall l | l in t.leases ensures LeasePlaced(t, l) { assert LeasePlaced(s, l); }
    forall v | v in t.waiters ensures WaiterBacked(t, v) { assert WaiterBacked(s, v) && WaiterBacked(s, w); }
  }

  lemma ReceiveOrder(s: State, w: nat)
    requires Order(s) && w in s.waiters && s.waiters[w].receiver.Starting?
    ensures Order(Receive(s, w))
  {}

  lemma EnqueueKeeps(s: State, host: string, port: string, woken: bool)
    requires Core(s)
    ensures Core(Enqueue(s, host, port, woken))
  {
    OwnershipFrame(s, Enqueue(s, host, port, woken));
    EnqueueOrder(s, host, port, woken);
    EnqueueChannels(s, host, port, woken);
  }

  lemma ReceiveKeeps(s: State, w: nat)
    requires Core(s) && WorkConserving(s) && w in s.waiters && s.waiters[w].receiver.Starting?
    requires s.waiters[w].slot.Some? || w in s.queue
    requires forall v :: v in s.waiters && v != w ==> SettledWaiter(s, v)
    ensures Inv(Receive(s, w))
  {
    OwnershipFrame(s, Receive(s, w));
    ReceiveOrder(s, w);
    ReceiveChannels(s, w);
  }

  lemma ArriveKeeps(s: State, host: string, port: string, woken: bool)
    requires Inv(s)
    ensures Inv(Arrive(s, host, port, woken))
  {
    var t := Enqueue(s, host, port, woken);
    EnqueueKeeps(s, host, port, woken);
    PumpKeeps(t);
    forall v | v in t.waiters && v != s.arrivals ensures SettledWaiter(Pump(t), v) {
      assert SettledWaiter(s, v);
      PumpSettles(t, v);
    }
    PumpSettles(t, s.arrivals);
    ReceiveKeeps(Pump(t), s.arrivals);
  }

  lemma LeaveOrder(s: State, w: nat)
    requires Order(s) && w in s.waiters && s.waiters[w].receiver.Resuming?
    ensures Order(Leave(s, w))
  {
    WithoutIncreasing(s.queue, w);
  }

  lemma LeaveChannels(s: State, w: nat)
    requires Channels(s) && w in s.waiters && s.waiters[w].receiver.Resuming?
    ensures Channels(Leave(s, w))
  {
    var t := Leave(s, w);
    assert WaiterBacked(s, w);
    forall l | l in t.leases ensures LeasePlaced(t, l) { assert LeasePlaced(s, l); }
    forall v | v in t.waiters ensures WaiterBacked(t, v) { assert WaiterBacked(s, v); }
  }

  lemma ResumeKeeps(s: State, w: nat)
    requires Inv(s) && w in s.waiters && s.waiters[w].receiver.Resuming?
    ensures Inv(Resume(s, w))
  {
    OwnershipFrame(s, Leave(s, w));
    LeaveOrder(s, w);
    LeaveChannels(s, w);
    var t := Leave(s, w);
    PumpKeeps(t);
    forall v | v in t.waiters ensures SettledWaiter(Pump(t), v) {
      assert SettledWaiter(s, v);
      PumpSettles(t, v);
    }
  }

  lemma IdleOwnership(s: State, l: nat)
    requires Ownership(s) && l in s.leases
    ensures Ownership(Idle(s, l))
  {
    var t := Idle(s, l);
    forall d | 0 <= d < |t.conns| && t.conns[d].busy ensures Leased(t, d) {
      assert Leased(s, d);
      var k :| k in s.leases && s.leases[k].conn == d;
      assert k in t.leases;
    }
  }

  lemma IdleKeeps(s: State, l: nat)
    requires Core(s) && l in s.leases && s.leases[l].place.Posted?
    ensures Core(Idle(s, l))
  {
    var t := Idle(s, l);
    IdleOwnership(s, l);
    forall k | k in t.leases ensures LeasePlaced(t, k) { assert LeasePlaced(s, k); }
    forall v | v in t.waiters ensures WaiterBacked(t, v) { assert WaiterBacked(s, v); }
  }

  lemma ReleaseKeeps(s: State, l: nat)
    requires Inv(s) && l in s.leases && s.leases[l].place.Posted?
    ensures Inv(Release(s, l))
  {
    var t := Idle(s, l);
    IdleKeeps(s, l);
    PumpKeeps(t);
    forall v | v in t.waiters ensures SettledWaiter(Pump(t), v) {
      assert SettledWaiter(s, v);
      PumpSettles(t, v);
    }
  }

  lemma PokeChannels(s: State, w: nat)
    requires Channels(s) && w in s.waiters
    ensures Channels(Poke(s, w))
  {
    var t := Poke(s, w);
    forall l | l in t.leases ensures LeasePlaced(t, l) { assert LeasePlaced(s, l); }
    forall v | v in t.waiters ensures WaiterBacked(t, v) { assert WaiterBacked(s, v); }
  }

  lemma PokeOrder(s: State, w: nat)
    requires Order(s) && Settled(s) && w in s.waiters
    ensures Order(Poke(s, w)) && Settled(Poke(s, w))
  {
    var t := Poke(s, w);
    forall v | v in t.waiters ensures SettledWaiter(t, v) { assert SettledWaiter(s, v); }
  }

  lemma SignalKeeps(s: State, w: nat)
    requires Inv(s) && w in s.waiters
    ensures Inv(Poke(s, w))
  {
    OwnershipFrame(s, Poke(s, w));
    PokeChannels(s, w);
    PokeOrder(s, w);
  }

  lemma {:induction false} PokeAllKeeps(s: State, q: seq<nat>)
    requires Inv(s)
    ensures Inv(PokeAll(s, q))
    decreases |q|
  {
    if q != [] {
      if q[0] in s.waiters {
        SignalKeeps(s, q[0]);
      }
      PokeAllKeeps(if q[0] in s.waiters then Poke(s, q[0]) else s, q[1..]);
    }
  }

  lemma AbandonChannels(s: State, w: nat)
    requires Channels(s) && w in s.waiters && s.waiters[w].receiver.Gone?
    ensures Channels(Abandon(s, w))
  {
    var t := Abandon(s, w);
    assert WaiterBacked(s, w);
    forall l | l in t.leases ensures LeasePlaced(t, l) { assert LeasePlaced(s, l); }
    forall v | v in t.waiters ensures WaiterBacked(t, v) { assert WaiterBacked(s, v); }
  }

  lemma AbandonKeeps(s: State, w: nat)
    requires Inv(s) && w in s.waiters && s.waiters[w].receiver.Gone?
    ensures Inv(Abandon(s, w))
  {
    OwnershipFrame(s, Abandon(s, w));
    AbandonChannels(s, w);
  }

  lemma DropChannels(s: State, l: nat)
    requires Channels(s) && l in s.leases && s.leases[l].place.Held?
    ensures Channels(s.(leases := Move(s.leases, l, Posted)))
  {
    var t := s.(leases := Move(s.leases, l, Posted));
    forall k | k in t.leases ensures LeasePlaced(t, k) { assert LeasePlaced(s, k); }
    forall v | v in t.waiters ensures WaiterBacked(t, v) { assert WaiterBacked(s, v); }
  }

  lemma DropKeeps(s: State, l: nat)
    requires Inv(s) && l in s.leases && s.leases[l].place.Held?
    ensures Inv(s.(leases := Move(s.leases, l, Posted)))
  {
    var t := s.(leases := Move(s.leases, l, Posted));
    OwnershipFrame(s, t);
    DropChannels(s, l);
    forall v | v in t.waiters ensures SettledWaiter(t, v) { assert SettledWaiter(s, v); }
  }

  lemma SameChannelsKeep(s: State, t: State)
    requires Core(s) && t.waiters == s.waiters && t.leases == s.leases
    requires t.queue == s.queue && t.arrivals == s.arrivals && t.granted == s.granted
    requires Settled(s)
    ensures Channels(t) && Order(t) && Settled(t)
  {
    forall v | v in t.waiters ensures SettledWaiter(t, v) { assert SettledWaiter(s, v); }
    forall l | l in t.leases ensures LeasePlaced(t, l) { assert LeasePlaced(s, l); }
    forall v | v in t.waiters ensures WaiterBacked(t, v) { assert WaiterBacked(s, v); }
  }

  lemma HolderKeeps(s: State, e: Event)
    requires Inv(s) && Step(s, e).Some? && (e.Rehome? || e.Stop?)
    ensures Inv(Step(s, e).value)
  {
    OwnershipFrame(s, Step(s, e).value);
    SameChannelsKeep(s, Step(s, e).value);
  }

  lemma CaughtKeeps(s: State, host: string, port: string, woken: bool)
    requires Inv(s)
    ensures Inv(s.(closed := true)) && Inv(Arrive(s.(closed := true), host, port, woken))
  {
    HolderKeeps(s, Stop);
    ArriveKeeps(s.(closed := true), host, port, woken);
  }

  lemma StepKeeps(s: State, e: Event)
    requires Inv(s) && Step(s, e).Some?
    ensures Inv(Step(s, e).value)
  {
    match e
    case Acquire(h, p, woken) => if !s.closed { ArriveKeeps(s, h, p, woken); }
    case Caught(h, p, woken) => CaughtKeeps(s, h, p, woken);
    case ReturnFromAcquire(w) => ResumeKeeps(s, w);
    case RunRelease(l) => ReleaseKeeps(s, l);
    case Signal(w) => SignalKeeps(s, w);
    case DestroyChannel(w) => AbandonKeeps(s, w);
    case DropLease(l) => DropKeeps(s, l);
    case Broadcast => PokeAllKeeps(s, s.queue);
    case _ => HolderKeeps(s, e);
  }

  // ---- Runs ----

  function Run(limit: nat, es: seq<Event>): Option<State> {
    if es == [] then Some(Fresh(limit))
    else match Run(limit, es[..|es| - 1]) case None => None case Some(s) => Step(s, es[|es| - 1])
  }

  lemma {:induction false} Reachable(limit: nat, es: seq<Event>)
    ensures Run(limit, es).Some? ==> Inv(Run(limit, es).value)
  {
    if es != [] {
      Reachable(limit, es[..|es| - 1]);
      if Run(limit, es).Some? {
        StepKeeps(Run(limit, es[..|es| - 1]).value, es[|es| - 1]);
      }
    }
  }

  /** A connection is busy exactly when one, and only one, lease or posted release exists for it;
      so two requests never hold the same connection, and the limit is never exceeded. */
  lemma {:induction false} BusyExactlyWhenLeasedOnce(limit: nat, es: seq<Event>)
    requires Run(limit, es).Some?
    ensures var s := Run(limit, es).value;
            && |s.conns| <= s.limit
            && (forall c :: 0 <= c < |s.conns| ==> (s.conns[c].busy <==> Leased(s, c)))
            && (forall l, k :: l in s.leases && k in s.leases && s.leases[l].conn == s.leases[k].conn ==> l == k)
  {
    Reachable(limit, es);
  }

  // ---- Who has left ----

  /** The acquirers still inside `Acquire`. */
  function Insiders(s: State): set<nat> { set w | w in s.waiters && !s.waiters[w].receiver.Gone? }

  lemma {:induction false} PumpInsiders(s: State)
    requires Queued(s)
    ensures Insiders(Pump(s)) == Insiders(s) && Pump(s).arrivals == s.arrivals
    ensures forall w :: w in s.queue ==> w in Pump(s).queue || w in Pump(s).granted
    ensures forall w :: w in s.granted ==> w in Pump(s).granted
    decreases |s.queue|
  {
    if !s.closed && s.queue != [] {
      var waiter := s.waiters[s.queue[0]];
      var choice := Choose(s.conns, s.limit, waiter.host, waiter.port);
      if choice.Some? {
        var t := GrantFront(s, choice.value);
        GrantQueued(s, choice.value);
        PumpInsiders(t);
        assert Insiders(t) == Insiders(s);
        assert t.granted[|s.granted|] == s.queue[0];
        assert forall w :: w in s.granted ==> w in t.granted;
      }
    }
  }

  lemma {:induction false} PokeAllInsiders(s: State, q: seq<nat>)
    ensures var t := PokeAll(s, q);
            && Insiders(t) == Insiders(s) && t.waiters.Keys == s.waiters.Keys && t.closed == s.closed
            && t.queue == s.queue && t.granted == s.granted && t.arrivals == s.arrivals && t.conns == s.conns
    ensures forall w :: w in s.waiters && (w in q || !s.waiters[w].receiver.Parked?) ==>
              !PokeAll(s, q).waiters[w].receiver.Parked?
    decreases |q|
  {
    if q != [] {
      var t := if q[0] in s.waiters then Poke(s, q[0]) else s;
      assert t.waiters.Keys == s.waiters.Keys && Insiders(t) == Insiders(s);
      PokeAllInsiders(t, q[1..]);
    }
  }

  /** Every arrival was granted a lease, still waits in the queue, or is no longer inside. */
  ghost predicate Accounted(s: State) {
    forall w :: 0 <= w < s.arrivals && w !in s.granted && w !in s.queue ==> w !in Insiders(s)
  }

  lemma PumpAccounted(s: State)
    requires Queued(s) && Accounted(s)
    ensures Accounted(Pump(s))
  {
    PumpInsiders(s);
  }

  lemma EnqueueInsiders(s: State, host: string, port: string, woken: bool)
    requires Order(s)
    ensures var t := Enqueue(s, host, port, woken);
            && Insiders(t) == Insiders(s) + {s.arrivals} && Queued(t) && t.arrivals == s.arrivals + 1
            && (Accounted(s) ==> Accounted(t))
  {
    var t := Enqueue(s, host, port, woken);
    assert forall w :: w in t.queue <==> w in s.queue || w == s.arrivals;
  }

  lemma ReceiveInsiders(s: State, w: nat)
    requires w in Insiders(s)
    ensures var t := Receive(s, w);
            && Insiders(t) == Insiders(s) && t.arrivals == s.arrivals && t.queue == s.queue && t.granted == s.granted
            && (Accounted(s) ==> Accounted(t))
  {}

  lemma ArriveInsiders(s: State, host: string, port: string, woken: bool)
    requires Core(s)
    ensures var t := Arrive(s, host, port, woken);
            && Insiders(t) <= Insiders(s) + {s.arrivals} && t.arrivals == s.arrivals + 1
            && (Accounted(s) ==> Accounted(t))
  {
    var t := Enqueue(s, host, port, woken);
    EnqueueInsiders(s, host, port, woken);
    PumpInsiders(t);
    if Accounted(s) {
      PumpAccounted(t);
    }
    ReceiveInsiders(Pump(t), s.arrivals);
  }

  lemma ResumeInsiders(s: State, w: nat)
    requires Core(s) && w in s.waiters && s.waiters[w].receiver.Resuming?
    ensures Insiders(Resume(s, w)) == Insiders(s) - {w}
    ensures Accounted(s) ==> Accounted(Resume(s, w))
  {
    var t := Leave(s, w);
    LeaveOrder(s, w);
    assert Insiders(t) == Insiders(s) - {w};
    PumpInsiders(t);
    if Accounted(s) {
      assert Accounted(t);
      PumpAccounted(t);
    }
  }

  lemma CaughtInsiders(s: State, host: string, port: string, woken: bool)
    requires Inv(s)
    ensures var t := Arrive(s.(closed := true), host, port, woken);
            && Insiders(t) <= Insiders(s) + {s.arrivals} && t.arrivals == s.arrivals + 1 && t.closed
            && (Accounted(s) ==> Accounted(t))
  {
    var u := s.(closed := true);
    HolderKeeps(s, Stop);
    assert Insiders(u) == Insiders(s) && (Accounted(s) ==> Accounted(u));
    ArriveInsiders(u, host, port, woken);
    ArriveClosed(u, host, port, woken);
  }

  /** Acquirers leave and never come back; a new one arrives only while the pool is open. */
  lemma InsidersMove(s: State, e: Event)
    requires Inv(s) && Step(s, e).Some?
    ensures var t := Step(s, e).value;
            && Insiders(t) <= Insiders(s) + (if (e.Acquire? || e.Caught?) && !s.closed then {s.arrivals} else {})
            && (Accounted(s) ==> Accounted(t))
            && (s.closed ==> t.closed)
  {
    match e
    case Acquire(h, p, woken) => if !s.closed {
      ArriveInsiders(s, h, p, woken);
      ArriveClosed(s, h, p, woken);
    }
    case Caught(h, p, woken) => CaughtInsiders(s, h, p, woken);
    case ReturnFromAcquire(w) =>
      ResumeInsiders(s, w);
      LeaveOrder(s, w);
      PumpClosed(Leave(s, w));
    case RunRelease(l) =>
      PumpInsiders(Idle(s, l));
      PumpClosed(Idle(s, l));
      if Accounted(s) {
        assert Insiders(Idle(s, l)) == Insiders(s);
        PumpAccounted(Idle(s, l));
      }
    case Broadcast => PokeAllInsiders(s, s.queue);
    case Signal(w) => assert Insiders(Poke(s, w)) == Insiders(s);
    case _ =>
  }

  lemma {:induction false} PumpClosed(s: State)
    ensures Pump(s).closed == s.closed
    ensures s.closed ==> Pump(s) == s
    decreases |s.queue|
  {
    if !s.closed && s.queue != [] && s.queue[0] in s.waiters {
      var waiter := s.waiters[s.queue[0]];
      var choice := Choose(s.conns, s.limit, waiter.host, waiter.port);
      if choice.Some? {
        PumpClosed(GrantFront(s, choice.value));
      }
    }
  }

  lemma ArriveClosed(s: State, host: string, port: string, woken: bool)
    ensures Arrive(s, host, port, woken).closed == s.closed
  {
    PumpClosed(Enqueue(s, host, port, woken));
  }

  lemma {:induction false} AllAccounted(limit: nat, es: seq<Event>)
    ensures Run(limit, es).Some? ==> Accounted(Run(limit, es).value)
  {
    if es != [] {
      AllAccounted(limit, es[..|es| - 1]);
      Reachable(limit, es[..|es| - 1]);
      if Run(limit, es).Some? {
        InsidersMove(Run(limit, es[..|es| - 1]).value, es[|es| - 1]);
      }
    }
  }

  /** While the pool runs, a waiting request implies that the limit is reached and every connection is
      busy. Grants follow arrival order without repetition, and an arrival that was passed over has
      withdrawn: it is neither queued nor inside `Acquire` any more. */
  lemma {:induction false} WorkConservingAndFair(limit: nat, es: seq<Event>)
    requires Run(limit, es).Some?
    ensures var s := Run(limit, es).value;
            && WorkConserving(s)
            && Increasing(s.granted)
            && forall w, g :: w !in s.granted && g in s.granted && w < g ==> w !in s.queue && w !in Insiders(s)
  {
    Reachable(limit, es);
    AllAccounted(limit, es);
  }

  // ---- The stop broadcast ----

  /** The pool is stopped and nobody is suspended. */
  ghost predicate Awake(s: State) {
    s.closed && forall w :: w in s.waiters ==> !s.waiters[w].receiver.Parked?
  }

  lemma BroadcastWakes(s: State)
    requires Inv(s) && s.closed
    ensures Awake(PokeAll(s, s.queue)) && Insiders(PokeAll(s, s.queue)) == Insiders(s)
  {
    PokeAllInsiders(s, s.queue);
    forall w | w in s.waiters ensures !PokeAll(s, s.queue).waiters[w].receiver.Parked? {
      assert SettledWaiter(s, w);
    }
  }

  lemma AwakeStays(s: State, e: Event)
    requires Inv(s) && Awake(s) && Step(s, e).Some?
    ensures Awake(Step(s, e).value) && Insiders(Step(s, e).value) <= Insiders(s)
  {
    InsidersMove(s, e);
    match e
    case ReturnFromAcquire(w) => PumpClosed(Leave(s, w));
    case RunRelease(l) => PumpClosed(Idle(s, l));
    case Broadcast => PokeAllInsiders(s, s.queue);
    case _ =>
  }

  lemma {:induction false} AwakeAfter(limit: nat, es: seq<Event>, fs: seq<Event>)
    requires Run(limit, es).Some? && Run(limit, es + fs).Some? && Awake(Run(limit, es).value)
    ensures Awake(Run(limit, es + fs).value) && Insiders(Run(limit, es + fs).value) <= Insiders(Run(limit, es).value)
  {
    if fs == [] {
      assert es + fs == es;
    } else {
      var gs := fs[..|fs| - 1];
      assert (es + fs)[..|es + fs| - 1] == es + gs;
      AwakeAfter(limit, es, gs);
      Reachable(limit, es + gs);
      AwakeStays(Run(limit, es + gs).value, fs[|fs| - 1]);
    }
  }

  lemma {:induction false} AwakeAtBroadcast(limit: nat, es: seq<Event>)
    requires Run(limit, es + [Broadcast]).Some?
    ensures Awake(Run(limit, es + [Broadcast]).value)
  {
    var bs := es + [Broadcast];
    assert bs[..|bs| - 1] == es;
    Reachable(limit, es);
    BroadcastWakes(Run(limit, es).value);
  }

  /** After the stop broadcast no acquirer is suspended in any continuation; those still inside can return, and
      their number only falls. */
  lemma {:induction false} BroadcastReleasesEverybody(limit: nat, es: seq<Event>, fs: seq<Event>)
    requires Run(limit, es + [Broadcast]).Some? && Run(limit, es + [Broadcast] + fs).Some?
    ensures var s, t := Run(limit, es + [Broadcast]).value, Run(limit, es + [Broadcast] + fs).value;
            && Awake(t) && Insiders(t) <= Insiders(s)
            && forall w :: w in Insiders(t) ==> Step(t, ReturnFromAcquire(w)).Some?
  {
    AwakeAtBroadcast(limit, es);
    AwakeAfter(limit, es + [Broadcast], fs);
    Reachable(limit, es + [Broadcast] + fs);
    InsidersCanReturn(Run(limit, es + [Broadcast] + fs).value);
  }

  lemma InsidersCanReturn(s: State)
    requires Inv(s) && Awake(s)
    ensures forall w :: w in Insiders(s) ==> Step(s, ReturnFromAcquire(w)).Some?
  {
    forall w | w in Insiders(s) ensures s.waiters[w].receiver.Resuming? {
      assert SettledWaiter(s, w);
    }
  }

  /** No lease is stuck and no acquirer is forgotten: for every lease some event is enabled that moves
      it on, and every suspended acquirer is still in the queue with room in its channel. */
  lemma {:induction false} NothingIsStuck(limit: nat, es: seq<Event>, l: nat)
    requires Run(limit, es).Some? && l in Run(limit, es).value.leases
    ensures var s := Run(limit, es).value;
            match s.leases[l].place
            case InSlot(w) => Step(s, ReturnFromAcquire(w)).Some? || Step(s, DestroyChannel(w)).Some?
            case InFlight(w) => Step(s, ReturnFromAcquire(w)).Some?
            case Held => Step(s, DropLease(l)).Some?
            case Posted => Step(s, RunRelease(l)).Some?
    ensures forall w :: w in Run(limit, es).value.waiters && Run(limit, es).value.waiters[w].receiver.Parked? ==>
              w in Run(limit, es).value.queue && Accepts(Run(limit, es).value.waiters[w])
  {
    Reachable(limit, es);
    var s := Run(limit, es).value;
    assert LeasePlaced(s, l);
    if s.leases[l].place.InSlot? {
      assert SettledWaiter(s, s.leases[l].place.waiter);
    }
    forall w | w in s.waiters && s.waiters[w].receiver.Parked? ensures w in s.queue && Accepts(s.waiters[w]) {
      assert SettledWaiter(s, w);
    }
  }

  // ---- What one pump does, without its loop ----

  function IdleCount(cs: seq<Conn>): nat {
    if cs == [] then 0 else (if cs[0].busy then 0 else 1) + IdleCount(cs[1..])
  }

  lemma {:induction false} TakeIdle(cs: seq<Conn>, c: nat)
    requires c < |cs| && !cs[c].busy
    ensures IdleCount(cs[c := cs[c].(busy := true)]) == IdleCount(cs) - 1
  {
    var ds := cs[c := cs[c].(busy := true)];
    if c == 0 {
      assert ds[1..] == cs[1..];
    } else {
      assert ds[1..] == cs[1..][c - 1 := cs[c].(busy := true)];
      TakeIdle(cs[1..], c - 1);
    }
  }

  lemma {:induction false} AllBusyHasNoIdle(cs: seq<Conn>)
    ensures (forall c :: 0 <= c < |cs| ==> cs[c].busy) ==> IdleCount(cs) == 0
    ensures (forall c :: 0 <= c < |cs| ==> cs[c].busy) ==> IdleCount(cs + [Conn(true, "", "")]) == 0
  {
    if cs != [] {
      assert (cs + [Conn(true, "", "")])[1..] == cs[1..] + [Conn(true, "", "")];
      if forall c :: 0 <= c < |cs| ==> cs[c].busy {
        assert forall c :: 0 <= c < |cs[1..]| ==> cs[1..][c].busy;
        AllBusyHasNoIdle(cs[1..]);
      }
    }
  }

  function Min(a: nat, b: nat): nat { if a < b then a else b }

  /** One grant takes one unit of capacity: an idle connection if there is one, else room below the limit. */
  lemma GrantTakesCapacity(s: State, w: Waiter)
    requires Queued(s) && s.queue != [] && Choose(s.conns, s.limit, w.host, w.port).Some?
    ensures var t := GrantFront(s, Choose(s.conns, s.limit, w.host, w.port).value);
            if IdleCount(s.conns) > 0
            then IdleCount(t.conns) == IdleCount(s.conns) - 1 && |t.conns| == |s.conns|
            else IdleCount(t.conns) == 0 && |t.conns| == |s.conns| + 1 && |s.conns| < s.limit
  {
    var c := Choose(s.conns, s.limit, w.host, w.port).value;
    AllBusyHasNoIdle(s.conns);
    if c < |s.conns| {
      TakeIdle(s.conns, c);
    } else {
      assert FirstIdle(s.conns) == |s.conns|;
    }
  }

  function Served(s: State): nat
    requires |s.conns| <= s.limit
  {
    Min(|s.queue|, IdleCount(s.conns) + s.limit - |s.conns|)
  }

  /** How many connections the pump opens. */
  function Opened(s: State): nat
    requires |s.conns| <= s.limit
  {
    if Served(s) > IdleCount(s.conns) then Served(s) - IdleCount(s.conns) else 0
  }

  lemma GrantServed(s: State, w: Waiter)
    requires Queued(s) && s.queue != [] && |s.conns| <= s.limit
    requires Choose(s.conns, s.limit, w.host, w.port).Some?
    ensures var t := GrantFront(s, Choose(s.conns, s.limit, w.host, w.port).value);
            && |t.conns| <= t.limit
            && Served(s) == Served(t) + 1
            && |t.conns| + Opened(t) == |s.conns| + Opened(s)
  {
    GrantTakesCapacity(s, w);
  }

  /** From `s` to `t`, the first `k` waiters were served. */
  ghost predicate Serves(s: State, t: State, k: nat) {
    && k <= |s.queue|
    && t.granted == s.granted + s.queue[..k]
    && t.queue == s.queue[k..]
  }

  lemma FrontThenRest(granted: seq<nat>, queue: seq<nat>, k: nat)
    requires queue != [] && k <= |queue| - 1
    ensures granted + [queue[0]] + queue[1..][..k] == granted + queue[..k + 1]
    ensures queue[1..][k..] == queue[k + 1..]
  {
    assert queue[..k + 1] == [queue[0]] + queue[1..][..k];
  }

  lemma ServesOneMore(s: State, c: nat, t: State, k: nat)
    requires s.queue != [] && s.queue[0] in s.waiters && c <= |s.conns|
    requires Serves(GrantFront(s, c), t, k)
    ensures Serves(s, t, k + 1)
  {
    FrontThenRest(s.granted, s.queue, k);
  }

  /** A pump serves exactly as many waiters as there are idle connections plus room below the limit,
      from the front of the queue, and opens a connection only when no idle one is left. */
  lemma {:induction false} PumpServesExactly(s: State)
    requires Queued(s) && |s.conns| <= s.limit && !s.closed
    ensures Serves(s, Pump(s), Served(s))
    ensures |Pump(s).conns| == |s.conns| + Opened(s)
    decreases |s.queue|
  {
    if s.queue != [] {
      var waiter := s.waiters[s.queue[0]];
      var choice := Choose(s.conns, s.limit, waiter.host, waiter.port);
      if choice.Some? {
        var t := GrantFront(s, choice.value);
        GrantQueued(s, choice.value);
        GrantServed(s, waiter);
        PumpServesExactly(t);
        ServesOneMore(s, choice.value, Pump(t), Served(t));
      } else {
        AllBusyHasNoIdle(s.conns);
      }
    }
  }

  // ---- The strand's own code ----

  /** The mutable state behind the strand. `Pump` and `RemoveWaiter` are its loops. */
  class PoolState {
    const limit: nat
    var closed: bool
    var connections: seq<Conn>
    var waiters: seq<nat>
    var channels: map<nat, Waiter>
    var leases: map<nat, Lease>
    var nextLease: nat
    var arrivals: nat
    var granted: seq<nat>

    ghost function View(): State
      reads this
    {
      State(limit, closed, connections, waiters, channels, leases, nextLease, arrivals, granted)
    }

    constructor (limit: nat)
      ensures View() == Fresh(limit)
    {
      this.limit := limit;
      closed, connections, waiters, channels, leases, nextLease, arrivals, granted :=
        false, [], [], map[], map[], 0, 0, [];
    }

    method FindSuiting(host: string, port: string) returns (i: nat)
      ensures i == FirstSuiting(connections, host, port)
    {
      i := 0;
      while i < |connections|
        invariant i <= |connections|
        invariant forall j :: 0 <= j < i ==> !Suits(connections[j], host, port)
      {
        if Suits(connections[i], host, port) {
          return;
        }
        i := i + 1;
      }
    }

    method FindIdle() returns (i: nat)
      ensures i == FirstIdle(connections)
    {
      i := 0;
      while i < |connections|
        invariant i <= |connections|
        invariant forall j :: 0 <= j < i ==> connections[j].busy
      {
        if !connections[i].busy {
          return;
        }
        i := i + 1;
      }
    }

    method RunPump()
      requires Queued(View())
      modifies this
      ensures View() == Pump(old(View()))
    {
      if closed {
        return;
      }
      while waiters != []
        invariant !closed && Queued(View())
        invariant Pump(View()) == Pump(old(View()))
        decreases |waiters|
      {
        var w := waiters[0];
        var waiter := channels[w];
        var available := FindSuiting(waiter.host, waiter.port);
        if available == |connections| {
          available := FindIdle();
        }
        if available == |connections| && |connections| >= limit {
          return;
        }
        GrantQueued(View(), available);
        HandOut(available);
      }
    }

    /** The body of the pump: the front waiter gets a lease on `available`. */
    method HandOut(available: nat)
      requires waiters != [] && waiters[0] in channels && available <= |connections|
      modifies this
      ensures View() == GrantFront(old(View()), available)
    {
      var w, lease := waiters[0], nextLease;
      var waiter := channels[w];
      waiters := waiters[1..];
      if available == |connections| {
        connections := connections + [Conn(true, "", "")];
      } else {
        connections := connections[available := connections[available].(busy := true)];
      }
      nextLease, granted := lease + 1, granted + [w];
      if waiter.receiver.Parked? {
        channels := channels[w := waiter.(receiver := Resuming(Grant(lease)))];
        leases := leases[lease := Lease(available, InFlight(w))];
      } else if waiter.slot.None? {
        channels := channels[w := waiter.(slot := Some(Grant(lease)))];
        leases := leases[lease := Lease(available, InSlot(w))];
      } else {
        // The channel is occupied: the lease drops here and posts its release.
        leases := leases[lease := Lease(available, Posted)];
      }
    }

    /** The loop of the stop broadcast over the queued waiters. */
    method WakeAll()
      requires Queued(View())
      modifies `channels
      ensures View() == PokeAll(old(View()), old(waiters))
    {
      ghost var before := View();
      assert waiters[..0] == [];
      for i := 0 to |waiters|
        invariant View() == PokeAll(before, waiters[..i])
        invariant channels.Keys == before.waiters.Keys
      {
        var w := waiters[i];
        assert waiters[..i + 1] == waiters[..i] + [w];
        PokeAllSnoc(before, waiters[..i], w);
        assert w in waiters;
        if channels[w].receiver.Parked? {
          channels := channels[w := channels[w].(receiver := Resuming(Wake))];
        } else if channels[w].slot.None? {
          channels := channels[w := channels[w].(slot := Some(Wake))];
        }
      }
      assert waiters[..|waiters|] == waiters;
    }

    /** `~RemoveWaiter`: erase the waiter if it is still queued, then pump. */
    method RemoveWaiter(w: nat)
      requires Queued(View()) && Increasing(waiters)
      modifies this
      ensures View() == Pump(old(View()).(queue := Without(old(waiters), w)))
    {
      var i := 0;
      while i < |waiters| && waiters[i] != w
        invariant i <= |waiters|
        invariant w !in waiters[..i]
      {
        i := i + 1;
      }
      EraseFirst(waiters, i, w);
      if i < |waiters| {
        waiters := waiters[..i] + waiters[i + 1..];
      }
      RunPump();
    }
  }

  lemma {:induction false} PokeAllSnoc(s: State, q: seq<nat>, w: nat)
    ensures PokeAll(s, q + [w]) == (var t := PokeAll(s, q); if w in t.waiters then Poke(t, w) else t)
    decreases |q|
  {
    if q == [] {
      assert q + [w] == [w] && [w][1..] == [];
    } else {
      assert (q + [w])[1..] == q[1..] + [w];
      PokeAllSnoc(if q[0] in s.waiters then Poke(s, q[0]) else s, q[1..], w);
    }
  }

  lemma {:induction false} WithoutAbsent(q: seq<nat>, w: nat)
    requires w !in q
    ensures Without(q, w) == q
  {
    if q != [] {
      WithoutAbsent(q[1..], w);
    }
  }

  /** Erasing the first occurrence removes the waiter, because nobody is queued twice. */
  lemma {:induction false} EraseFirst(q: seq<nat>, i: nat, w: nat)
    requires i <= |q| && w !in q[..i] && (i < |q| ==> q[i] == w) && Increasing(q)
    ensures Without(q, w) == if i < |q| then q[..i] + q[i + 1..] else q
  {
    if i == |q| {
      assert q[..i] == q;
      WithoutAbsent(q, w);
    } else if i == 0 {
      assert forall x :: x in q[1..] ==> q[0] < x;
      WithoutAbsent(q[1..], w);
    } else {
      var tail := q[1..];
      assert q[0] in q[..i];
      assert tail[..i - 1] <= q[1..i];
      assert forall x :: x in tail[..i - 1] ==> x in q[..i];
      EraseFirst(tail, i - 1, w);
      EraseTail(q, i);
    }
  }

  lemma EraseTail(q: seq<nat>, i: nat)
    requires 0 < i < |q|
    ensures [q[0]] + (q[1..][..i - 1] + q[1..][i..]) == q[..i] + q[i + 1..]
  {}
}
