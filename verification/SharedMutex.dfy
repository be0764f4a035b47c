/** `CooperativeSharedMutex`: shared callback admission with exclusive retirement. A queued
    writer stops new readers, ownership is handed over under the internal mutex, and each
    new owner is woken by its own one-shot event afterwards. */
module SharedMutexes {
  import opened Options
  import opened Sequences

  datatype Waiter = Waiter(id: nat, writer: bool)

  /** `reading` and `writing` are the real owners, `unsent` the owners whose event was not sent yet;
      `arrivals` and `grants` record the order of `Acquire` calls and of ownership. */
  datatype State = State(
    queue: seq<Waiter>, readers: nat, writer: bool,
    reading: set<nat>, writing: set<nat>, unsent: set<nat>, arrivals: seq<nat>, grants: seq<nat>)

  const INITIAL := State([], 0, false, {}, {}, {}, [], [])

  function Ids(q: seq<Waiter>): seq<nat> { seq(|q|, i requires 0 <= i < |q| => q[i].id) }

  /** How many readers stand at the front: the batch that the hand-over admits together. */
  function Leading(q: seq<Waiter>): (n: nat)
    ensures n <= |q|
    ensures forall i :: 0 <= i < n ==> !q[i].writer
    ensures n < |q| ==> q[n].writer
  {
    if q == [] || q[0].writer then 0 else 1 + Leading(q[1..])
  }

  function IdSet(q: seq<Waiter>): set<nat> { set i | 0 <= i < |q| :: q[i].id }

  function HandOver(s: State): State {
    if s.writer || s.readers != 0 || s.queue == [] then s
    else if s.queue[0].writer then
      var id := s.queue[0].id;
      s.(writer := true, writing := {id}, unsent := s.unsent + {id},
         queue := s.queue[1..], grants := s.grants + [id])
    else
      var n := Leading(s.queue);
      var batch := s.queue[..n];
      s.(readers := n, reading := IdSet(batch), unsent := s.unsent + IdSet(batch),
         queue := s.queue[n..], grants := s.grants + Ids(batch))
  }

  function Acquired(s: State, id: nat, writer: bool): State {
    var t := s.(arrivals := s.arrivals + [id]);
    if s.writer || s.queue != [] || (writer && s.readers != 0) then t.(queue := s.queue + [Waiter(id, writer)])
    else if writer then t.(writer := true, writing := s.writing + {id}, grants := s.grants + [id])
    else t.(readers := s.readers + 1, reading := s.reading + {id}, grants := s.grants + [id])
  }

  function Released(s: State, id: nat): State {
    if id in s.writing then HandOver(s.(writer := false, writing := s.writing - {id}))
    else if s.readers > 0 then HandOver(s.(readers := s.readers - 1, reading := s.reading - {id}))
    else s
  }

  datatype Event = Lock(id: nat, writer: bool) | Unlock(id: nat) | Wake(id: nat)

  /** An owner may unlock only after its wake-up arrived; every call has its own identity. */
  function Step(s: State, e: Event): Option<State> {
    match e
    case Lock(id, writer) => if id in s.arrivals then None else Some(Acquired(s, id, writer))
    case Unlock(id) =>
      if id !in s.reading + s.writing || id in s.unsent then None else Some(Released(s, id))
    case Wake(id) => if id !in s.unsent then None else Some(s.(unsent := s.unsent - {id}))
  }

  function Run(es: seq<Event>): Option<State> {
    if es == [] then Some(INITIAL)
    else match Run(es[..|es| - 1]) case None => None case Some(s) => Step(s, es[|es| - 1])
  }

  /** The fields describe the owners, and a writer is alone. */
  ghost predicate Exclusion(s: State) {
    && s.readers == |s.reading|
    && (s.writer <==> s.writing != {})
    && |s.writing| <= 1
    && (s.writer ==> s.reading == {})
  }

  ghost predicate Fifo(s: State) {
    && s.arrivals == s.grants + Ids(s.queue)
    && Distinct(s.arrivals)
    && (forall id :: id in s.reading + s.writing ==> id in s.grants)
    && s.unsent <= s.reading + s.writing
  }

  /** Somebody who will hand over owns the lock whenever the queue is not empty. */
  ghost predicate NoIdleQueue(s: State) {
    s.queue != [] ==> s.writer || (s.readers > 0 && s.queue[0].writer)
  }

  ghost predicate Inv(s: State) { Exclusion(s) && Fifo(s) && NoIdleQueue(s) }

  lemma {:induction false} IdSetSize(q: seq<Waiter>)
    requires Distinct(Ids(q))
    ensures |IdSet(q)| == |q|
  {
    if q != [] {
      var m := |q| - 1;
      assert Ids(q[..m]) == Ids(q)[..m];
      IdSetSize(q[..m]);
      assert IdSet(q) == IdSet(q[..m]) + {q[m].id};
      forall i | 0 <= i < m ensures q[..m][i].id != q[m].id { assert Ids(q)[i] != Ids(q)[m]; }
    }
  }

  lemma IdsInSet(q: seq<Waiter>)
    ensures IdSet(q) == set x | x in Ids(q)
  {
    forall x | x in IdSet(q) ensures x in Ids(q) {
      var i :| 0 <= i < |q| && q[i].id == x;
      assert Ids(q)[i] == x;
    }
  }

  lemma IdsSplit(q: seq<Waiter>, n: nat)
    requires n <= |q|
    ensures Ids(q) == Ids(q[..n]) + Ids(q[n..])
  {}

  /** Moving the first `n` waiters from the queue to the owners keeps the order. */
  lemma AdvanceFifo(s: State, t: State, n: nat)
    requires Fifo(s) && n <= |s.queue|
    requires t.arrivals == s.arrivals && t.grants == s.grants + Ids(s.queue[..n]) && t.queue == s.queue[n..]
    requires t.unsent <= t.reading + t.writing <= IdSet(s.queue[..n])
    ensures Fifo(t)
  {
    IdsSplit(s.queue, n);
    IdsInSet(s.queue[..n]);
    Associate(s.grants, Ids(s.queue[..n]), Ids(s.queue[n..]));
  }

  lemma Associate(a: seq<nat>, b: seq<nat>, c: seq<nat>)
    ensures a + b + c == a + (b + c)
  {}

  lemma NoOwners(s: State)
    requires Exclusion(s) && !s.writer && s.readers == 0
    ensures s.reading == {} && s.writing == {}
  {}

  lemma HandOverToWriter(s: State)
    requires Exclusion(s) && Fifo(s) && !s.writer && s.readers == 0 && s.queue != [] && s.queue[0].writer
    ensures Inv(HandOver(s))
  {
    NoOwners(s);
    assert Ids(s.queue[..1]) == [s.queue[0].id];
    assert s.queue[..1][0].id in IdSet(s.queue[..1]);
    AdvanceFifo(s, HandOver(s), 1);
  }

  lemma HandOverToReaders(s: State)
    requires Exclusion(s) && Fifo(s) && !s.writer && s.readers == 0 && s.queue != [] && !s.queue[0].writer
    ensures Inv(HandOver(s))
  {
    NoOwners(s);
    var n, k := Leading(s.queue), |s.grants|;
    assert Ids(s.queue[..n]) == s.arrivals[k..k + n];
    IdSetSize(s.queue[..n]);
    AdvanceFifo(s, HandOver(s), n);
  }

  lemma HandOverKeeps(s: State)
    requires Exclusion(s) && Fifo(s)
    requires s.queue == [] || s.writer || s.readers == 0 || s.queue[0].writer
    ensures Inv(HandOver(s))
  {
    if !s.writer && s.readers == 0 && s.queue != [] {
      if s.queue[0].writer {
        HandOverToWriter(s);
      } else {
        HandOverToReaders(s);
      }
    }
  }

  lemma QueueKeeps(s: State, w: Waiter)
    requires Inv(s) && w.id !in s.arrivals && (s.writer || s.queue != [] || (w.writer && s.readers != 0))
    ensures Inv(s.(arrivals := s.arrivals + [w.id], queue := s.queue + [w]))
  {
    assert Ids(s.queue + [w]) == Ids(s.queue) + [w.id];
    DistinctAppend(s.arrivals, w.id);
  }

  lemma LockKeeps(s: State, id: nat, writer: bool)
    requires Inv(s) && id !in s.arrivals
    ensures Inv(Acquired(s, id, writer))
  {
    var t := Acquired(s, id, writer);
    if s.writer || s.queue != [] || (writer && s.readers != 0) {
      QueueKeeps(s, Waiter(id, writer));
    } else {
      DistinctAppend(s.arrivals, id);
      assert Ids(s.queue) == [];
      assert t.arrivals == t.grants;
      assert id !in s.reading + s.writing;
      assert forall x :: x in t.grants <==> x in s.grants || x == id;
    }
  }

  lemma UnlockKeeps(s: State, id: nat)
    requires Inv(s) && id in s.reading + s.writing && id !in s.unsent
    ensures Inv(Released(s, id))
  {
    if id in s.writing {
      SingletonIs(s.writing, id);
      HandOverKeeps(s.(writer := false, writing := s.writing - {id}));
    } else {
      assert |s.reading - {id}| == |s.reading| - 1;
      HandOverKeeps(s.(readers := s.readers - 1, reading := s.reading - {id}));
    }
  }

  lemma StepKeeps(s: State, e: Event)
    requires Inv(s) && Step(s, e).Some?
    ensures Inv(Step(s, e).value)
  {
    match e
    case Lock(id, writer) => LockKeeps(s, id, writer);
    case Unlock(id) => UnlockKeeps(s, id);
    case Wake(id) =>
  }

  lemma SingletonIs(x: set<nat>, id: nat)
    requires id in x && |x| <= 1
    ensures x == {id}
  {
    assert |x - {id}| == 0;
  }

  lemma {:induction false} Reachable(es: seq<Event>)
    ensures Run(es).Some? ==> Inv(Run(es).value)
  {
    if es != [] {
      Reachable(es[..|es| - 1]);
      if Run(es).Some? {
        StepKeeps(Run(es[..|es| - 1]).value, es[|es| - 1]);
      }
    }
  }

  /** A writer excludes every other owner, readers may share. */
  lemma {:induction false} MutualExclusion(es: seq<Event>, a: nat, b: nat)
    requires Run(es).Some?
    ensures var s := Run(es).value;
            a in s.writing && b in s.reading + s.writing ==> a == b && b !in s.reading
  {
    Reachable(es);
    var s := Run(es).value;
    if a in s.writing {
      SingletonIs(s.writing, a);
    }
  }

  /** Ownership follows call order exactly: nobody overtakes, so a queued writer is not starved by
      later readers, and readers never wait behind readers alone. Whoever waits has an owner before it whose
      unlock is possible once it is woken. */
  lemma {:induction false} StrictlyFifoWithoutLostWakeups(es: seq<Event>)
    requires Run(es).Some?
    ensures var s := Run(es).value;
            && s.grants <= s.arrivals
            && s.arrivals[|s.grants|..] == Ids(s.queue)
            && (s.queue != [] ==> s.reading + s.writing != {})
            && (s.queue != [] && s.writing == {} ==> s.queue[0].writer)
            && forall id :: id in s.reading + s.writing ==>
                 Step(s, Wake(id)).Some? || Step(s, Unlock(id)).Some?
  {
    Reachable(es);
    var s := Run(es).value;
    assert s.arrivals[|s.grants|..] == Ids(s.queue);
    if s.queue != [] && !s.writer {
      assert s.reading != {};
    }
  }

  // ---- What a user of the mutex can rely on ----

  /** The call has returned from the mutex: it owns its side and its wake-up arrived. */
  predicate HoldsShared(s: State, id: nat) { id in s.reading && id !in s.unsent }

  predicate HoldsExclusive(s: State, id: nat) { id in s.writing && id !in s.unsent }

  /** The call has asked for this side and not released it: it owns it or stands in the queue. */
  predicate Asked(s: State, id: nat, writer: bool) {
    Waiter(id, writer) in s.queue || id in if writer then s.writing else s.reading
  }

  lemma HeldAlone(s: State, id: nat, other: nat)
    requires Inv(s) && HoldsExclusive(s, id)
    ensures !HoldsShared(s, other) && (HoldsExclusive(s, other) ==> other == id)
  {
    SingletonIs(s.writing, id);
  }

  lemma QueuedIsNew(s: State, id: nat, writer: bool)
    requires Fifo(s) && Waiter(id, writer) in s.queue
    ensures id !in s.grants && id !in s.reading + s.writing
  {
    var i :| 0 <= i < |s.queue| && s.queue[i] == Waiter(id, writer);
    assert s.arrivals[|s.grants| + i] == id;
    forall j | 0 <= j < |s.grants| ensures s.grants[j] != id {
      assert s.arrivals[j] == s.grants[j];
    }
  }

  lemma HandOverAsked(s: State, id: nat, writer: bool)
    requires Exclusion(s)
    ensures Asked(HandOver(s), id, writer) <==> Asked(s, id, writer)
  {
    if !s.writer && s.readers == 0 && s.queue != [] {
      NoOwners(s);
      if s.queue[0].writer {
        assert s.queue == [s.queue[0]] + s.queue[1..];
      } else {
        var n := Leading(s.queue);
        assert s.queue == s.queue[..n] + s.queue[n..];
        forall w | w in s.queue[..n] ensures !w.writer && w.id in IdSet(s.queue[..n]) {
          var i :| 0 <= i < n && s.queue[..n][i] == w;
          assert s.queue[i] == w;
        }
        if id in IdSet(s.queue[..n]) {
          var i :| 0 <= i < n && s.queue[..n][i].id == id;
          assert s.queue[..n][i] == Waiter(id, false);
        }
      }
    }
  }

  /** Who has asked for what changes only by the caller's own lock and unlock. */
  lemma AskedExactly(s: State, e: Event, id: nat, writer: bool)
    requires Inv(s) && Step(s, e).Some?
    ensures Asked(Step(s, e).value, id, writer) <==>
            (Asked(s, id, writer) && e != Unlock(id)) || e == Lock(id, writer)
  {
    match e
    case Lock(x, w) => LockAsked(s, x, w, id, writer);
    case Unlock(x) => UnlockAsked(s, x, id, writer);
    case Wake(_) =>
  }

  lemma LockAsked(s: State, x: nat, w: bool, id: nat, writer: bool)
    requires Inv(s) && x !in s.arrivals
    ensures Asked(Acquired(s, x, w), id, writer) <==> Asked(s, id, writer) || (id == x && writer == w)
  {}

  lemma UnlockAsked(s: State, x: nat, id: nat, writer: bool)
    requires Inv(s) && x in s.reading + s.writing
    ensures Asked(Released(s, x), id, writer) <==> Asked(s, id, writer) && id != x
  {
    if Waiter(x, writer) in s.queue {
      QueuedIsNew(s, x, writer);
      assert false;
    }
    if x in s.writing {
      SingletonIs(s.writing, x);
      HandOverAsked(s.(writer := false, writing := s.writing - {x}), id, writer);
    } else {
      assert |s.reading - {x}| == |s.reading| - 1;
      HandOverAsked(s.(readers := s.readers - 1, reading := s.reading - {x}), id, writer);
    }
  }

  /** A holder keeps its side until it unlocks. */
  lemma HoldersStay(s: State, e: Event, id: nat)
    requires Inv(s) && Step(s, e).Some? && e != Unlock(id)
    ensures HoldsShared(s, id) ==> HoldsShared(Step(s, e).value, id)
    ensures HoldsExclusive(s, id) ==> HoldsExclusive(Step(s, e).value, id)
  {
    if e.Unlock? && id in s.reading + s.writing {
      UnlockLeavesHolders(s, e.id, id);
    }
  }

  lemma UnlockLeavesHolders(s: State, x: nat, id: nat)
    requires Inv(s) && x in s.reading + s.writing && id in s.reading + s.writing && x != id
    ensures id in s.reading && id in Released(s, x).reading && Released(s, x).unsent == s.unsent
  {
    if x in s.writing || id in s.writing {
      SingletonIs(s.writing, if x in s.writing then x else id);
    }
    assert id in s.reading - {x};
    assert |s.reading - {x}| == |s.reading| - 1 && |s.reading - {x}| > 0;
  }

  /** Whoever has asked and does not hold its side has an owner in front that can go on, or can be woken itself. */
  lemma SomebodyCanGoOn(s: State, id: nat, writer: bool) returns (owner: nat)
    requires Inv(s) && Asked(s, id, writer)
    ensures owner in s.reading + s.writing
  {
    assert s.reading + s.writing != {};
    owner :| owner in s.reading + s.writing;
  }

  /** The calls seen so far grow only by new calls. */
  lemma ArrivalsExactly(s: State, e: Event, x: nat)
    requires Step(s, e).Some?
    ensures x in Step(s, e).value.arrivals <==> x in s.arrivals || e == Lock(x, false) || e == Lock(x, true)
  {}

  lemma FreshMutex(s: State)
    requires s == INITIAL
    ensures Inv(s) && s.arrivals == [] && forall x, w :: !Asked(s, x, w)
  {}

  /** The mutex itself: each method is its mutex region; `ready` lists whom it wakes afterwards. */
  class CooperativeSharedMutex {
    var queue: seq<Waiter>
    var readers: nat
    var writer: bool
    ghost var reading: set<nat>
    ghost var writing: set<nat>
    ghost var unsent: set<nat>
    ghost var arrivals: seq<nat>
    ghost var grants: seq<nat>

    ghost function View(): State
      reads this
    {
      State(queue, readers, writer, reading, writing, unsent, arrivals, grants)
    }

    constructor ()
      ensures View() == INITIAL
    {
      queue, readers, writer := [], 0, false;
      reading, writing, unsent, arrivals, grants := {}, {}, {}, [], [];
    }

    method Acquire(id: nat, exclusive: bool) returns (owned: bool)
      modifies this
      ensures View() == Acquired(old(View()), id, exclusive)
      ensures owned <==> queue == old(queue)
    {
      arrivals := arrivals + [id];
      if !writer && queue == [] && (!exclusive || readers == 0) {
        if exclusive {
          writer := true;
          writing := writing + {id};
        } else {
          readers := readers + 1;
          reading := reading + {id};
        }
        grants := grants + [id];
        return true;
      }
      queue := queue + [Waiter(id, exclusive)];
      return false;
    }

    /** `ready` are the new owners, taken from the front of the queue; exactly they still have to be woken. */
    method Release(ghost id: nat, exclusive: bool) returns (ready: seq<nat>)
      requires id in writing <==> exclusive
      requires !exclusive ==> readers > 0
      modifies this
      ensures View() == Released(old(View()), id)
      ensures grants == old(grants) + ready && Ids(old(queue)) == ready + Ids(queue)
      ensures unsent == old(unsent) + set x | x in ready
    {
      if exclusive {
        writer := false;
        writing := writing - {id};
      } else {
        readers := readers - 1;
        reading := reading - {id};
      }
      ready := Next();
    }

    /** The hand-over at the end of `Release`. */
    method Next() returns (ready: seq<nat>)
      modifies this
      ensures View() == HandOver(old(View()))
      ensures grants == old(grants) + ready && Ids(old(queue)) == ready + Ids(queue)
      ensures unsent == old(unsent) + set x | x in ready
    {
      ready := [];
      if writer || readers != 0 || queue == [] {
        return;
      }
      if queue[0].writer {
        writer, ready, queue := true, [queue[0].id], queue[1..];
        writing := {ready[0]};
        IdsSplit(old(queue), 1);
        unsent := unsent + {ready[0]};
      } else {
        ready := TakeReaders();
        reading := IdSet(old(queue)[..readers]);
        unsent := unsent + reading;
        IdsInSet(old(queue)[..readers]);
        IdsSplit(old(queue), readers);
      }
      grants := grants + ready;
    }

    /** The loop that admits the leading readers together. */
    method TakeReaders() returns (ready: seq<nat>)
      requires readers == 0 && queue != [] && !queue[0].writer
      modifies `readers, `queue
      ensures readers == Leading(old(queue)) && queue == old(queue)[readers..]
      ensures ready == Ids(old(queue)[..readers])
    {
      ghost var waiting := queue;
      readers, ready, queue := 1, [queue[0].id], queue[1..];
      while queue != [] && !queue[0].writer
        invariant 1 <= readers <= |waiting| && queue == waiting[readers..]
        invariant forall i :: 0 <= i < readers ==> !waiting[i].writer
        invariant ready == Ids(waiting[..readers])
        decreases |queue|
      {
        assert waiting[..readers + 1] == waiting[..readers] + [queue[0]];
        readers, ready, queue := readers + 1, ready + [queue[0].id], queue[1..];
      }
      assert readers == Leading(waiting);
    }
  }
}
