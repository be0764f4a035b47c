/** Who waits for whom in the cooperative mutex: nobody overtakes. */
module MutexFairness {
  import opened Options
  import opened Sequences
  import opened SharedMutexes

  /** The calls made before that of `id`. */
  function Before(calls: seq<nat>, id: nat): seq<nat> {
    if calls == [] || calls[0] == id then [] else [calls[0]] + Before(calls[1..], id)
  }

  /** The call of `id` has not been undone by its unlock. */
  predicate Open(s: State, id: nat) { Asked(s, id, false) || Asked(s, id, true) }

  /** The earlier calls that have not unlocked yet. */
  function Ahead(s: State, id: nat): set<nat> { set j | j in Before(s.arrivals, id) && Open(s, j) }

  /** Those of them that `id` has to wait for: a reader does not wait for readers. */
  function Blockers(s: State, id: nat, writer: bool): set<nat> {
    set j | j in Ahead(s, id) && (writer || Asked(s, j, true))
  }

  lemma {:induction false} BeforeAppend(calls: seq<nat>, y: nat, id: nat)
    requires id in calls
    ensures Before(calls + [y], id) == Before(calls, id)
  {
    if calls[0] != id {
      assert (calls + [y])[1..] == calls[1..] + [y];
      assert id in calls[1..];
      BeforeAppend(calls[1..], y, id);
    }
  }

  /** What comes before an element of the second part contains the whole first part. */
  lemma {:induction false} BeforeSecond(a: seq<nat>, b: seq<nat>, id: nat)
    requires id !in a
    ensures Before(a + b, id) == a + Before(b, id)
  {
    if a == [] {
      assert a + b == b;
    } else {
      assert (a + b)[0] == a[0] && (a + b)[1..] == a[1..] + b;
      BeforeSecond(a[1..], b, id);
      assert a == [a[0]] + a[1..];
    }
  }

  lemma {:induction false} BeforeFirst(a: seq<nat>, b: seq<nat>, id: nat, j: nat)
    requires id in a && j in Before(a + b, id)
    ensures j in a
  {
    assert (a + b)[0] == a[0] && (a + b)[1..] == a[1..] + b;
    if j != a[0] {
      BeforeFirst(a[1..], b, id, j);
    }
  }

  lemma {:induction false} BeforeIn(calls: seq<nat>, id: nat, j: nat)
    requires j in Before(calls, id)
    ensures j in calls && j != id
  {
    if j != calls[0] {
      BeforeIn(calls[1..], id, j);
    }
  }

  // ---- One step ----

  lemma OpenStep(s: State, e: Event, j: nat)
    requires Inv(s) && Step(s, e).Some?
    ensures Open(Step(s, e).value, j) <==> (Open(s, j) && e != Unlock(j)) || (e.Lock? && e.id == j)
  {
    AskedExactly(s, e, j, false);
    AskedExactly(s, e, j, true);
  }

  lemma ArrivalsStep(s: State, e: Event)
    requires Step(s, e).Some?
    ensures Step(s, e).value.arrivals == s.arrivals + if e.Lock? then [e.id] else []
    ensures e.Lock? ==> e.id !in s.arrivals
  {}

  /** The calls ahead only go away, and only by their own unlock. */
  lemma AheadStep(s: State, e: Event, id: nat)
    requires Inv(s) && Step(s, e).Some? && id in s.arrivals
    ensures Ahead(Step(s, e).value, id) == Ahead(s, id) - if e.Unlock? then {e.id} else {}
  {
    var t := Step(s, e).value;
    ArrivalsStep(s, e);
    if e.Lock? {
      BeforeAppend(s.arrivals, e.id, id);
    }
    assert Before(t.arrivals, id) == Before(s.arrivals, id);
    forall j | j in Before(s.arrivals, id) ensures Open(t, j) <==> Open(s, j) && e != Unlock(j) {
      BeforeIn(s.arrivals, id, j);
      OpenStep(s, e, j);
    }
  }

  // ---- Who owns ----

  lemma OpenPlaces(s: State, id: nat)
    requires Inv(s)
    ensures id in Ids(s.queue) ==> id !in s.grants && id in s.arrivals
    ensures id in s.reading + s.writing ==> id in s.grants
    ensures id in s.grants ==> id in s.arrivals && id !in Ids(s.queue)
  {
    assert s.arrivals == s.grants + Ids(s.queue);
    if id in Ids(s.queue) {
      DistinctParts(s.grants, Ids(s.queue), id);
    }
  }

  lemma DistinctParts(a: seq<nat>, b: seq<nat>, x: nat)
    requires Distinct(a + b) && x in b
    ensures x !in a
  {
    var j :| 0 <= j < |b| && b[j] == x;
    assert (a + b)[|a| + j] == x;
    assert forall i :: 0 <= i < |a| ==> (a + b)[i] == a[i] && (a + b)[i] != (a + b)[|a| + j];
  }

  lemma WaiterIn(q: seq<Waiter>, id: nat, writer: bool)
    ensures Waiter(id, writer) in q ==> id in Ids(q)
  {
    forall i | 0 <= i < |q| && q[i] == Waiter(id, writer) ensures id in Ids(q) {
      assert Ids(q)[i] == id;
    }
  }

  lemma QueuedIn(s: State, id: nat, writer: bool)
    requires Asked(s, id, writer) && id !in (if writer then s.writing else s.reading)
    ensures id in Ids(s.queue)
  {
    WaiterIn(s.queue, id, writer);
  }

  /** Every owner is ahead of everybody in the queue. */
  lemma OwnersAreAhead(s: State, id: nat, owner: nat)
    requires Inv(s) && id in Ids(s.queue) && owner in s.reading + s.writing
    ensures owner in Ahead(s, id)
  {
    OpenPlaces(s, id);
    OpenPlaces(s, owner);
    BeforeSecond(s.grants, Ids(s.queue), id);
    assert Asked(s, owner, owner in s.writing);
  }

  /** Nobody in the queue is ahead of an owner. */
  lemma QueueIsBehind(s: State, id: nat, j: nat)
    requires Inv(s) && id in s.reading + s.writing && j in Ahead(s, id)
    ensures j in s.reading + s.writing && j != id
  {
    OpenPlaces(s, id);
    BeforeFirst(s.grants, Ids(s.queue), id, j);
    BeforeIn(s.arrivals, id, j);
    OpenPlaces(s, j);
    if j !in s.reading + s.writing {
      QueuedIn(s, j, Asked(s, j, true));
    }
  }

  lemma WriterOwns(s: State, id: nat)
    requires Inv(s) && Asked(s, id, true)
    ensures id in s.writing <==> Ahead(s, id) == {}
  {
    if id in s.writing {
      forall j | j in Ahead(s, id) ensures false {
        QueueIsBehind(s, id, j);
        SingletonIs(s.writing, id);
      }
    } else {
      QueuedIn(s, id, true);
      var owner := SomebodyCanGoOn(s, id, true);
      OwnersAreAhead(s, id, owner);
    }
  }

  lemma ReaderOwns(s: State, id: nat)
    requires Inv(s) && Asked(s, id, false)
    ensures id in s.reading <==> Blockers(s, id, false) == {}
  {
    if id in s.reading {
      forall j | j in Blockers(s, id, false) ensures false {
        QueueIsBehind(s, id, j);
        OpenPlaces(s, j);
        WaiterIn(s.queue, j, true);
      }
    } else {
      QueuedIn(s, id, false);
      var j := WriterAhead(s, id);
    }
  }

  /** A reader in the queue has a writer in front: the owner, or the head of the queue. */
  lemma WriterAhead(s: State, id: nat) returns (j: nat)
    requires Inv(s) && id in Ids(s.queue) && Waiter(id, false) in s.queue
    ensures j in Blockers(s, id, false)
  {
    if s.writer {
      j :| j in s.writing;
      OwnersAreAhead(s, id, j);
    } else {
      j := s.queue[0].id;
      HeadIsAhead(s, id);
    }
  }

  lemma HeadIsAhead(s: State, id: nat)
    requires Inv(s) && Waiter(id, false) in s.queue && s.queue[0].writer
    ensures s.queue[0].id in Ahead(s, id)
  {
    var ids := Ids(s.queue);
    var i :| 0 <= i < |s.queue| && s.queue[i] == Waiter(id, false);
    assert ids[i] == id;
    OpenPlaces(s, id);
    BeforeSecond(s.grants, ids, id);
    assert ids[0] != id by {
      assert s.arrivals[|s.grants|] == ids[0] && s.arrivals[|s.grants| + i] == ids[i];
    }
    assert ids[0] in Before(ids, id);
    assert Asked(s, s.queue[0].id, true);
  }

  /** Whoever has asked owns its side or waits for an owner ahead of it. */
  lemma OwnerInFront(s: State, id: nat, writer: bool) returns (owner: nat)
    requires Inv(s) && Asked(s, id, writer)
    ensures owner in s.reading + s.writing && (owner == id || owner in Ahead(s, id))
  {
    if id in s.reading + s.writing {
      owner := id;
    } else {
      QueuedIn(s, id, writer);
      owner := SomebodyCanGoOn(s, id, writer);
      OwnersAreAhead(s, id, owner);
    }
  }

  // ---- Main results ----

  /** Exactly when a call owns its side: a writer when no earlier call is left, a reader when no earlier writer is. */
  lemma {:induction false} OwnsExactly(es: seq<Event>, id: nat, writer: bool)
    requires Run(es).Some? && Asked(Run(es).value, id, writer)
    ensures var s := Run(es).value;
            id in (if writer then s.writing else s.reading) <==> Blockers(s, id, writer) == {}
  {
    Reachable(es);
    var s := Run(es).value;
    if writer {
      WriterOwns(s, id);
      assert Blockers(s, id, true) == Ahead(s, id);
    } else {
      ReaderOwns(s, id);
    }
  }

  function Unlocked(fs: seq<Event>): set<nat> { set e | e in fs && e.Unlock? :: e.id }

  /** Nobody overtakes: from the moment a call was made, the calls ahead of it are at every later moment exactly those
      that have not unlocked since. Later calls never join them, so it waits for at most that many unlocks. */
  lemma {:induction false} NobodyOvertakes(es: seq<Event>, fs: seq<Event>, id: nat)
    requires Run(es).Some? && id in Run(es).value.arrivals && Run(es + fs).Some?
    ensures id in Run(es + fs).value.arrivals
    ensures Ahead(Run(es + fs).value, id) == Ahead(Run(es).value, id) - Unlocked(fs)
  {
    if fs == [] {
      assert es + fs == es;
    } else {
      var gs, e := fs[..|fs| - 1], fs[|fs| - 1];
      assert (es + fs)[..|es + fs| - 1] == es + gs;
      NobodyOvertakes(es, gs, id);
      Reachable(es + gs);
      AheadStep(Run(es + gs).value, e, id);
      ArrivalsStep(Run(es + gs).value, e);
      UnlockedLast(fs);
    }
  }

  lemma UnlockedLast(fs: seq<Event>)
    requires fs != []
    ensures var e := fs[|fs| - 1];
            Unlocked(fs) == Unlocked(fs[..|fs| - 1]) + if e.Unlock? then {e.id} else {}
  {
    assert fs == fs[..|fs| - 1] + [fs[|fs| - 1]];
  }
}
