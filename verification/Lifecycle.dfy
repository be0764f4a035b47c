/** `ServiceLifecycle`: registration, ordered start with rollback, and the lists its stop phases work through. */
module Lifecycles {
  import opened Sequences

  datatype Kind = DataSource | DataSink | Storage | DelayPool | TaskPool | PriorityTaskPool | Component

  datatype Registration = Registration(kind: Kind, id: nat)

  datatype Status = Created | Starting | Running | Stopping | Stopped

  /** What the lifecycle did to a registered object. */
  datatype Action = Started(reg: Registration) | StartFailed(reg: Registration) | StopCalled(reg: Registration)

  datatype Outcome = Done | AlreadyRegistered | WrongState | StartError

  type Entries = map<Kind, seq<nat>>

  const START_ORDER: seq<Kind> :=
    [Storage, DelayPool, TaskPool, PriorityTaskPool, Component, DataSink, DataSource]

  /** The same order without the sinks. */
  const ALL_BUT_SINKS: seq<Kind> := [Storage, DelayPool, TaskPool, PriorityTaskPool, Component, DataSource]

  function Of(entries: Entries, kind: Kind): seq<nat> { if kind in entries then entries[kind] else [] }

  function Tagged(kind: Kind, ids: seq<nat>): (r: seq<Registration>)
    ensures |r| == |ids|
  {
    seq(|ids|, i requires 0 <= i < |ids| => Registration(kind, ids[i]))
  }

  /** All registrations of the listed kinds, kind by kind in registration order. */
  function Registered(entries: Entries, kinds: seq<Kind>): seq<Registration> {
    if kinds == [] then []
    else Registered(entries, kinds[..|kinds| - 1]) + Tagged(kinds[|kinds| - 1], Of(entries, kinds[|kinds| - 1]))
  }

  function Reverse<T>(s: seq<T>): (r: seq<T>)
    ensures |r| == |s|
  {
    seq(|s|, i requires 0 <= i < |s| => s[|s| - 1 - i])
  }

  /** Starting `order` from the front, the objects in `broken` throwing, gets through exactly `k` objects. */
  ghost predicate BreaksAt(order: seq<Registration>, broken: set<Registration>, k: nat) {
    && k <= |order|
    && (k < |order| ==> order[k] in broken)
    && (forall i :: 0 <= i < k ==> order[i] !in broken)
  }

  function Starts(regs: seq<Registration>): seq<Action> {
    if regs == [] then [] else Starts(regs[..|regs| - 1]) + [Started(regs[|regs| - 1])]
  }

  function Stops(regs: seq<Registration>): seq<Action> {
    if regs == [] then [] else Stops(regs[..|regs| - 1]) + [StopCalled(regs[|regs| - 1])]
  }

  /** What `start` does when it gets through `k` objects. */
  function StartTrace(order: seq<Registration>, k: nat): seq<Action>
    requires k <= |order|
  {
    if k == |order| then Starts(order)
    else Starts(order[..k]) + [StartFailed(order[k])] + Stops(Reverse(order[..k]))
  }

  /** No object is registered twice under one kind. */
  ghost predicate Unique(entries: Entries) {
    forall k, i, j :: 0 <= i < j < |Of(entries, k)| ==> Of(entries, k)[i] != Of(entries, k)[j]
  }

  // ---- Orders ----

  lemma ReverseStep<T>(s: seq<T>, i: nat)
    requires i < |s|
    ensures Reverse(s[i..]) == Reverse(s[i + 1..]) + [s[i]]
  {
    assert s[i..] == [s[i]] + s[i + 1..];
    ReverseConcat([s[i]], s[i + 1..]);
    assert Reverse([s[i]]) == [s[i]];
  }

  lemma ReverseConcat<T>(a: seq<T>, b: seq<T>)
    ensures Reverse(a + b) == Reverse(b) + Reverse(a)
  {}

  lemma {:induction false} ReverseKeepsAll<T>(s: seq<T>)
    ensures multiset(Reverse(s)) == multiset(s)
  {
    if s == [] {
      assert Reverse(s) == s;
    } else {
      ReverseKeepsAll(s[1..]);
      assert s == [s[0]] + s[1..];
      assert s[0..] == s;
      ReverseStep(s, 0);
    }
  }

  lemma {:induction false} KindsOf(entries: Entries, kinds: seq<Kind>, i: nat)
    requires i < |Registered(entries, kinds)|
    ensures Registered(entries, kinds)[i].kind in kinds
  {
    var init := kinds[..|kinds| - 1];
    if i < |Registered(entries, init)| {
      KindsOf(entries, init, i);
    }
  }

  lemma {:induction false} RegisteredDistinct(entries: Entries, kinds: seq<Kind>)
    requires Unique(entries) && Distinct(kinds)
    ensures Distinct(Registered(entries, kinds))
  {
    if kinds != [] {
      var init := kinds[..|kinds| - 1];
      RegisteredDistinct(entries, init);
      forall i | 0 <= i < |Registered(entries, init)| ensures Registered(entries, init)[i].kind in init {
        KindsOf(entries, init, i);
      }
    }
  }

  lemma {:induction false} RegisteredPrefix(entries: Entries, kinds: seq<Kind>, a: nat)
    requires a <= |kinds|
    ensures Registered(entries, kinds[..a]) <= Registered(entries, kinds)
    decreases |kinds|
  {
    if a == |kinds| {
      assert kinds[..a] == kinds;
    } else {
      var init := kinds[..|kinds| - 1];
      assert init[..a] == kinds[..a];
      RegisteredPrefix(entries, init, a);
    }
  }

  lemma {:induction false} StartsAt(regs: seq<Registration>)
    ensures |Starts(regs)| == |regs| && forall i :: 0 <= i < |regs| ==> Starts(regs)[i] == Started(regs[i])
  {
    if regs != [] {
      StartsAt(regs[..|regs| - 1]);
    }
  }

  lemma {:induction false} StopsAt(regs: seq<Registration>)
    ensures |Stops(regs)| == |regs| && forall i :: 0 <= i < |regs| ==> Stops(regs)[i] == StopCalled(regs[i])
  {
    if regs != [] {
      StopsAt(regs[..|regs| - 1]);
    }
  }

  lemma StartsSnoc(regs: seq<Registration>, reg: Registration)
    ensures Starts(regs + [reg]) == Starts(regs) + [Started(reg)]
  {
    assert (regs + [reg])[..|regs + [reg]| - 1] == regs;
  }

  lemma StopsSnoc(regs: seq<Registration>, reg: Registration)
    ensures Stops(regs + [reg]) == Stops(regs) + [StopCalled(reg)]
  {
    assert (regs + [reg])[..|regs + [reg]| - 1] == regs;
  }

  lemma RegisteredNext(entries: Entries, kinds: seq<Kind>, a: nat)
    requires a < |kinds|
    ensures var next := Registered(entries, kinds[..a]) + Tagged(kinds[a], Of(entries, kinds[a]));
            Registered(entries, kinds[..a + 1]) == next && next <= Registered(entries, kinds)
  {
    assert kinds[..a + 1][..a] == kinds[..a];
    RegisteredPrefix(entries, kinds, a + 1);
  }

  lemma NextInOrder<T>(order: seq<T>, before: seq<T>, regs: seq<T>, i: nat)
    requires before + regs <= order && i < |regs|
    ensures before + regs[..i] + [regs[i]] == before + regs[..i + 1] <= order
    ensures |before| + i < |order| && order[|before| + i] == regs[i]
  {
    assert before + regs[..i + 1] == (before + regs)[..|before| + i + 1];
    assert (before + regs)[|before| + i] == regs[i];
  }

  /** A failed start stops exactly what it started, in reverse order and once each; nothing else is stopped,
      and the object that failed is not stopped. */
  lemma RollbackIsExact(order: seq<Registration>, k: nat)
    requires Distinct(order) && k <= |order|
    ensures var trace := StartTrace(order, k);
            && Distinct(trace)
            && (k == |order| ==> |trace| == k && forall i :: 0 <= i < k ==> trace[i] == Started(order[i]))
            && (k < |order| ==>
                 && |trace| == 2 * k + 1
                 && trace[k] == StartFailed(order[k])
                 && forall i :: 0 <= i < k ==>
                      trace[i] == Started(order[i]) && trace[2 * k - i] == StopCalled(order[i]))
  {
    var done := order[..k];
    StartsAt(done);
    if k < |order| {
      StopsAt(Reverse(done));
      TraceDistinct(done, order[k], Reverse(done));
    } else {
      assert done == order;
    }
  }

  lemma TraceDistinct(started: seq<Registration>, failed: Registration, stopped: seq<Registration>)
    requires Distinct(started) && Distinct(stopped)
    ensures Distinct(Starts(started) + [StartFailed(failed)] + Stops(stopped))
  {
    StartsAt(started);
    StopsAt(stopped);
  }

  // ---- Stop lists ----

  function Backwards(entries: Entries, kind: Kind): seq<Registration> { Reverse(Tagged(kind, Of(entries, kind))) }

  function Admission(entries: Entries): seq<Registration> {
    Backwards(entries, DataSource) + Backwards(entries, Component)
  }

  function Executors(entries: Entries): seq<Registration> {
    Backwards(entries, PriorityTaskPool) + Backwards(entries, TaskPool)
    + Backwards(entries, DelayPool) + Backwards(entries, Storage)
  }

  function Sinks(entries: Entries): seq<Registration> { Backwards(entries, DataSink) }

  function OfKind(regs: seq<Registration>, kind: Kind): seq<Registration> {
    if regs == [] then []
    else (if regs[0].kind == kind then [regs[0]] else []) + OfKind(regs[1..], kind)
  }

  lemma {:induction false} OfKindConcat(a: seq<Registration>, b: seq<Registration>, kind: Kind)
    ensures OfKind(a + b, kind) == OfKind(a, kind) + OfKind(b, kind)
  {
    if a == [] {
      assert a + b == b;
    } else {
      var head := if a[0].kind == kind then [a[0]] else [];
      assert (a + b)[0] == a[0] && (a + b)[1..] == a[1..] + b;
      OfKindConcat(a[1..], b, kind);
      assert head + (OfKind(a[1..], kind) + OfKind(b, kind)) == head + OfKind(a[1..], kind) + OfKind(b, kind);
    }
  }

  lemma {:induction false} OfKindUniform(regs: seq<Registration>, own: Kind, kind: Kind)
    requires forall i :: 0 <= i < |regs| ==> regs[i].kind == own
    ensures OfKind(regs, kind) == if kind == own then regs else []
  {
    if regs != [] {
      OfKindUniform(regs[1..], own, kind);
      assert regs == [regs[0]] + regs[1..];
    }
  }

  lemma BackwardsOfKind(entries: Entries, own: Kind, kind: Kind)
    ensures OfKind(Backwards(entries, own), kind) == if kind == own then Backwards(entries, own) else []
  {
    OfKindUniform(Backwards(entries, own), own, kind);
  }

  /** A start order that names every kind once, as the fixed one does. */
  ghost predicate Complete(kinds: seq<Kind>) { Distinct(kinds) && forall k: Kind :: k in kinds }

  lemma StartOrderComplete()
    ensures Complete(START_ORDER)
  {
    var o := START_ORDER;
    assert o[0] == Storage && o[1] == DelayPool && o[2] == TaskPool && o[3] == PriorityTaskPool;
    assert o[4] == Component && o[5] == DataSink && o[6] == DataSource;
    forall k: Kind ensures k in o {
      assert o[match k { case Storage => 0 case DelayPool => 1 case TaskPool => 2 case PriorityTaskPool => 3
                         case Component => 4 case DataSink => 5 case DataSource => 6 }] == k;
    }
  }

  function FlatMap<K, V>(f: K -> seq<V>, keys: seq<K>): seq<V> {
    if keys == [] then [] else FlatMap(f, keys[..|keys| - 1]) + f(keys[|keys| - 1])
  }

  lemma FlatSnoc<K, V>(f: K -> seq<V>, keys: seq<K>, k: K)
    ensures FlatMap(f, keys + [k]) == FlatMap(f, keys) + f(k)
  {
    assert (keys + [k])[..|keys + [k]| - 1] == keys;
  }

  lemma {:induction false} FlatConcat<K, V>(f: K -> seq<V>, a: seq<K>, b: seq<K>)
    ensures FlatMap(f, a + b) == FlatMap(f, a) + FlatMap(f, b)
  {
    if b == [] {
      assert a + b == a;
    } else {
      var init, last := b[..|b| - 1], b[|b| - 1];
      FlatConcat(f, a, init);
      assert a + b == (a + init) + [last];
      FlatSnoc(f, a + init, last);
      Regroup(FlatMap(f, a), FlatMap(f, init), f(last));
    }
  }

  lemma FlatTwo<K, V>(f: K -> seq<V>, a: K, b: K)
    ensures FlatMap(f, [a]) == f(a) && FlatMap(f, [a, b]) == f(a) + f(b)
  {
    FlatSnoc(f, [], a);
    assert [] + [a] == [a];
    FlatSnoc(f, [a], b);
    assert [a] + [b] == [a, b];
  }

  lemma FlatFour<K, V>(f: K -> seq<V>, a: K, b: K, c: K, d: K)
    ensures FlatMap(f, [a, b, c, d]) == f(a) + f(b) + f(c) + f(d)
  {
    FlatTwo(f, a, b);
    FlatSnoc(f, [a, b], c);
    assert [a, b] + [c] == [a, b, c];
    FlatSnoc(f, [a, b, c], d);
    assert [a, b, c] + [d] == [a, b, c, d];
  }

  function BackwardsOf(entries: Entries): Kind -> seq<Registration> { k => Backwards(entries, k) }

  /** The objects of the listed kinds, each kind last registered first. */
  function BackwardsAll(entries: Entries, kinds: seq<Kind>): seq<Registration> { FlatMap(BackwardsOf(entries), kinds) }

  lemma PhaseBlocks(entries: Entries)
    ensures Admission(entries) == BackwardsAll(entries, [DataSource, Component])
    ensures Executors(entries) == BackwardsAll(entries, [PriorityTaskPool, TaskPool, DelayPool, Storage])
    ensures Sinks(entries) == BackwardsAll(entries, [DataSink])
  {
    FlatTwo(BackwardsOf(entries), DataSource, Component);
    FlatFour(BackwardsOf(entries), PriorityTaskPool, TaskPool, DelayPool, Storage);
    FlatTwo(BackwardsOf(entries), DataSink, DataSink);
  }

  lemma ExecutorKinds(entries: Entries) returns (kinds: seq<Kind>)
    ensures kinds == [DataSource, Component] + [PriorityTaskPool, TaskPool, DelayPool, Storage]
    ensures BackwardsAll(entries, kinds) == Admission(entries) + Executors(entries)
  {
    PhaseBlocks(entries);
    kinds := [DataSource, Component] + [PriorityTaskPool, TaskPool, DelayPool, Storage];
    FlatConcat(BackwardsOf(entries), [DataSource, Component], [PriorityTaskPool, TaskPool, DelayPool, Storage]);
  }

  /** The three phases together follow one order of the kinds. */
  lemma PhaseKinds(entries: Entries) returns (kinds: seq<Kind>)
    ensures Complete(kinds)
    ensures BackwardsAll(entries, kinds) == Admission(entries) + Executors(entries) + Sinks(entries)
  {
    var e := ExecutorKinds(entries);
    PhaseBlocks(entries);
    FlatConcat(BackwardsOf(entries), e, [DataSink]);
    kinds := e + [DataSink];
    KindsComplete(kinds);
  }

  lemma Regroup<T>(a: seq<T>, x: seq<T>, y: seq<T>)
    ensures a + x + y == a + (x + y)
  {}

  lemma KindsComplete(kinds: seq<Kind>)
    requires kinds == [DataSource, Component, PriorityTaskPool, TaskPool, DelayPool, Storage, DataSink]
    ensures Complete(kinds)
  {
    assert kinds[0] == DataSource && kinds[1] == Component && kinds[2] == PriorityTaskPool && kinds[3] == TaskPool;
    assert kinds[4] == DelayPool && kinds[5] == Storage && kinds[6] == DataSink;
    forall k: Kind ensures k in kinds {
      assert kinds[match k { case DataSource => 0 case Component => 1 case PriorityTaskPool => 2 case TaskPool => 3
                             case DelayPool => 4 case Storage => 5 case DataSink => 6 }] == k;
    }
  }

  lemma {:induction false} StopsByKind(entries: Entries, kinds: seq<Kind>, kind: Kind)
    requires Distinct(kinds)
    ensures OfKind(BackwardsAll(entries, kinds), kind) == if kind in kinds then Backwards(entries, kind) else []
  {
    if kinds != [] {
      var own := kinds[|kinds| - 1];
      StopsByKind(entries, kinds[..|kinds| - 1], kind);
      BackwardsOfKind(entries, own, kind);
      OfKindConcat(BackwardsAll(entries, kinds[..|kinds| - 1]), Backwards(entries, own), kind);
    }
  }

  /** Every kind is stopped in the reverse of its start order, and appears in one phase only. */
  lemma StopsReverseStarts(entries: Entries, kinds: seq<Kind>, kind: Kind)
    requires Complete(kinds)
    ensures OfKind(Admission(entries) + Executors(entries) + Sinks(entries), kind)
            == Reverse(OfKind(Registered(entries, kinds), kind))
  {
    var stops := PhaseKinds(entries);
    StopsByKind(entries, stops, kind);
    StartsByKind(entries, kinds, kind);
  }

  lemma {:induction false} StartsByKind(entries: Entries, kinds: seq<Kind>, kind: Kind)
    requires Distinct(kinds)
    ensures OfKind(Registered(entries, kinds), kind) == if kind in kinds then Tagged(kind, Of(entries, kind)) else []
  {
    if kinds != [] {
      var own := kinds[|kinds| - 1];
      StartsByKind(entries, kinds[..|kinds| - 1], kind);
      OfKindUniform(Tagged(own, Of(entries, own)), own, kind);
      OfKindConcat(Registered(entries, kinds[..|kinds| - 1]), Tagged(own, Of(entries, own)), kind);
    }
  }

  /** The stop lists name every registered object exactly once. */
  lemma StopsEverythingOnce(entries: Entries, kinds: seq<Kind>)
    requires Unique(entries) && Complete(kinds)
    ensures var all := Admission(entries) + Executors(entries) + Sinks(entries);
            multiset(all) == multiset(Registered(entries, kinds)) && forall r :: multiset(all)[r] <= 1
  {
    var all := Admission(entries) + Executors(entries) + Sinks(entries);
    RegisteredDistinct(entries, kinds);
    forall kind ensures OfKind(all, kind) == Reverse(OfKind(Registered(entries, kinds), kind)) {
      StopsReverseStarts(entries, kinds, kind);
    }
    SameOnce(all, Registered(entries, kinds));
  }

  lemma SameOnce(all: seq<Registration>, order: seq<Registration>)
    requires Distinct(order) && forall kind :: OfKind(all, kind) == Reverse(OfKind(order, kind))
    ensures multiset(all) == multiset(order) && forall r :: multiset(all)[r] <= 1
  {
    forall r: Registration ensures multiset(all)[r] == multiset(order)[r] && multiset(order)[r] <= 1 {
      CountOfKind(all, r);
      CountOfKind(order, r);
      ReverseKeepsAll(OfKind(order, r.kind));
      DistinctCount(order, r);
    }
  }

  /** Which phase stops what. */
  lemma PhasesByKind(entries: Entries, r: Registration)
    ensures r in Admission(entries) <==> r.id in Of(entries, r.kind) && (r.kind.DataSource? || r.kind.Component?)
    ensures r in Sinks(entries) <==> r.id in Of(entries, r.kind) && r.kind.DataSink?
    ensures r in Executors(entries) <==>
              r.id in Of(entries, r.kind) && !r.kind.DataSource? && !r.kind.Component? && !r.kind.DataSink?
  {
    InBackwards(entries, DataSource, r);
    InBackwards(entries, Component, r);
    InBackwards(entries, DataSink, r);
    InBackwards(entries, PriorityTaskPool, r);
    InBackwards(entries, TaskPool, r);
    InBackwards(entries, DelayPool, r);
    InBackwards(entries, Storage, r);
  }

  lemma InBackwards(entries: Entries, kind: Kind, r: Registration)
    ensures r in Backwards(entries, kind) <==> r.kind == kind && r.id in Of(entries, kind)
  {
    var regs := Tagged(kind, Of(entries, kind));
    ReverseKeepsAll(regs);
    assert r in Reverse(regs) <==> r in multiset(Reverse(regs));
    assert r in regs <==> r in multiset(regs);
    if r.kind == kind && r.id in Of(entries, kind) {
      var i :| 0 <= i < |regs| && Of(entries, kind)[i] == r.id;
      assert regs[i] == r;
    }
  }

  lemma {:induction false} ReverseRegistered(entries: Entries, kinds: seq<Kind>)
    ensures Reverse(Registered(entries, kinds)) == BackwardsAll(entries, Reverse(kinds))
  {
    if kinds != [] {
      var init, last := kinds[..|kinds| - 1], kinds[|kinds| - 1];
      ReverseRegistered(entries, init);
      ReverseConcat(Registered(entries, init), Tagged(last, Of(entries, last)));
      ReverseLast(kinds);
      FlatConcat(BackwardsOf(entries), [last], Reverse(init));
      FlatTwo(BackwardsOf(entries), last, last);
    }
  }

  lemma ReverseLast<T>(s: seq<T>)
    requires s != []
    ensures Reverse(s) == [s[|s| - 1]] + Reverse(s[..|s| - 1])
  {}

  /** Apart from the sinks, which come last, everything is stopped in exactly the reverse of the start order. */
  lemma StopIsReversedStart(entries: Entries)
    ensures Admission(entries) + Executors(entries) == Reverse(Registered(entries, ALL_BUT_SINKS))
  {
    ReverseRegistered(entries, ALL_BUT_SINKS);
    var stops := ExecutorKinds(entries);
    SixKinds(ALL_BUT_SINKS, stops);
  }

  lemma SixKinds(kinds: seq<Kind>, stops: seq<Kind>)
    requires kinds == ALL_BUT_SINKS
    requires stops == [DataSource, Component] + [PriorityTaskPool, TaskPool, DelayPool, Storage]
    ensures stops == Reverse(kinds)
  {}

  lemma {:induction false} CountOfKind(regs: seq<Registration>, r: Registration)
    ensures multiset(regs)[r] == multiset(OfKind(regs, r.kind))[r]
  {
    if regs != [] {
      CountOfKind(regs[1..], r);
      assert regs == [regs[0]] + regs[1..];
    }
  }

  lemma {:induction false} DistinctCount<T>(s: seq<T>, x: T)
    requires Distinct(s)
    ensures multiset(s)[x] <= 1
  {
    if s != [] {
      DistinctCount(s[1..], x);
      assert s == [s[0]] + s[1..];
      assert s[0] !in s[1..];
    }
  }

  /** The lifecycle object. `log` records the calls it made on the registered objects. */
  class ServiceLifecycle {
    const startOrder: seq<Kind>
    var state: Status
    var entries: Entries
    var started: seq<Registration>
    var log: seq<Action>

    ghost predicate Valid()
      reads this
    {
      Unique(entries) && Complete(startOrder) && (state == Created ==> started == [])
    }

    constructor ()
      ensures Valid() && startOrder == START_ORDER && state == Created && entries == map[] && log == []
    {
      startOrder := START_ORDER;
      state, entries, started, log := Created, map[], [], [];
      StartOrderComplete();
    }

    /** Registers an object, unless the lifecycle has started or its kind already holds it. */
    method Add(kind: Kind, id: nat) returns (outcome: Outcome)
      requires Valid()
      modifies `entries
      ensures Valid()
      ensures outcome == if state != Created then WrongState
                         else if id in Of(old(entries), kind) then AlreadyRegistered else Done
      ensures entries == if outcome == Done then old(entries)[kind := Of(old(entries), kind) + [id]] else old(entries)
    {
      if state != Created {
        return WrongState;
      }
      var ids := Of(entries, kind);
      for i := 0 to |ids|
        invariant id !in ids[..i]
      {
        if ids[i] == id {
          return AlreadyRegistered;
        }
      }
      assert ids[..|ids|] == ids;
      entries := entries[kind := ids + [id]];
      assert forall k :: Of(entries, k) == if k == kind then ids + [id] else Of(old(entries), k);
      return Done;
    }

    /** `stopStarted`: errors of the stops are swallowed. */
    method StopStarted()
      modifies this
      ensures log == old(log) + Stops(Reverse(old(started)))
      ensures started == [] && entries == map[] && state == old(state)
    {
      var i := |started|;
      assert started[|started|..] == [];
      while i > 0
        invariant 0 <= i <= |started| && started == old(started) && state == old(state)
        invariant log == old(log) + Stops(Reverse(started[i..]))
      {
        i := i - 1;
        ReverseStep(started, i);
        StopsSnoc(Reverse(started[i + 1..]), started[i]);
        log := log + [StopCalled(started[i])];
      }
      assert started[0..] == started;
      started, entries := [], map[];
    }

    /** Starts the objects of one kind, the inner loop of `start`, up to the first that throws. */
    method StartKind(kind: Kind, broken: set<Registration>, ghost order: seq<Registration>, ghost base: seq<Action>)
      returns (ok: bool)
      requires started + Tagged(kind, Of(entries, kind)) <= order
      requires log == base + Starts(started) && forall j :: 0 <= j < |started| ==> started[j] !in broken
      modifies `started, `log
      ensures started <= order && forall j :: 0 <= j < |started| ==> started[j] !in broken
      ensures ok ==> started == old(started) + Tagged(kind, Of(entries, kind)) && log == base + Starts(started)
      ensures !ok ==> |started| < |order| && order[|started|] in broken
      ensures !ok ==> log == base + Starts(started) + [StartFailed(order[|started|])]
    {
      var ids := Of(entries, kind);
      ghost var before, regs := started, Tagged(kind, ids);
      assert regs[..0] == [];
      for i := 0 to |ids|
        invariant started == before + regs[..i]
        invariant log == base + Starts(started)
        invariant forall j :: 0 <= j < |started| ==> started[j] !in broken
      {
        var reg := Registration(kind, ids[i]);
        NextInOrder(order, before, regs, i);
        assert started + [reg] == before + regs[..i + 1];
        if reg in broken {
          log := log + [StartFailed(reg)];
          return false;
        }
        StartsSnoc(started, reg);
        log, started := log + [Started(reg)], started + [reg];
      }
      assert regs[..|ids|] == regs;
      assert started == before + regs;
      return true;
    }

    /** The outer loop of `start`, over the fixed order of kinds. */
    method StartKinds(broken: set<Registration>) returns (ok: bool)
      requires started == []
      modifies `started, `log
      ensures var order := Registered(entries, startOrder);
              && started <= order
              && BreaksAt(order, broken, |started|)
              && (ok <==> |started| == |order|)
              && log == old(log) + Starts(started) + if ok then [] else [StartFailed(order[|started|])]
    {
      ghost var order := Registered(entries, startOrder);
      for a := 0 to |startOrder|
        invariant started == Registered(entries, startOrder[..a])
        invariant log == old(log) + Starts(started)
        invariant forall i :: 0 <= i < |started| ==> started[i] !in broken
      {
        RegisteredNext(entries, startOrder, a);
        ok := StartKind(startOrder[a], broken, order, old(log));
        if !ok {
          return;
        }
      }
      assert startOrder[..|startOrder|] == startOrder;
      return true;
    }

    /** Starts everything; the objects in `broken` are those whose start throws, and `k` is how many were started. */
    method Start(broken: set<Registration>) returns (outcome: Outcome, ghost k: nat)
      requires Valid()
      modifies this
      ensures Valid()
      ensures old(state) != Created ==> outcome == WrongState && unchanged(this)
      ensures old(state) == Created ==>
                var order := Registered(old(entries), startOrder);
                && BreaksAt(order, broken, k)
                && log == old(log) + StartTrace(order, k)
                && outcome == (if k == |order| then Done else StartError)
                && (outcome == Done ==> state == Running && entries == old(entries) && started == order)
                && (outcome == StartError ==> state == Stopped && entries == map[] && started == [])
    {
      k := 0;
      if state != Created {
        return WrongState, 0;
      }
      state := Starting;
      ghost var order := Registered(entries, startOrder);
      var ok := StartKinds(broken);
      k := |started|;
      assert started == order[..k];
      if !ok {
        StopStarted();
        state := Stopped;
        return StartError, k;
      }
      assert order[..k] == order;
      state := Running;
      return Done, k;
    }

    /** Appends the objects of one kind, last registered first. */
    method AppendReverse(target: seq<Registration>, kind: Kind) returns (r: seq<Registration>)
      ensures r == target + Backwards(entries, kind)
    {
      var regs := Tagged(kind, Of(entries, kind));
      r := target;
      var i := |regs|;
      assert regs[i..] == [];
      while i > 0
        invariant 0 <= i <= |regs|
        invariant r == target + Reverse(regs[i..])
      {
        i := i - 1;
        ReverseStep(regs, i);
        r := r + [regs[i]];
      }
      assert regs[0..] == regs;
    }

    /** The lists of the three stop phases. */
    method StopLists() returns (admission: seq<Registration>, executors: seq<Registration>, sinks: seq<Registration>)
      ensures admission == Admission(entries) && executors == Executors(entries) && sinks == Sinks(entries)
    {
      admission := AppendReverse([], DataSource);
      admission := AppendReverse(admission, Component);
      executors := AppendReverse([], PriorityTaskPool);
      executors := AppendReverse(executors, TaskPool);
      executors := AppendReverse(executors, DelayPool);
      executors := AppendReverse(executors, Storage);
      sinks := AppendReverse([], DataSink);
    }

    /** The state test of `stopBeforeGraphDrain`; `proceed` means the phases are to run. */
    method BeginStop() returns (outcome: Outcome, proceed: bool)
      requires Valid()
      modifies this
      ensures Valid() && log == old(log)
      ensures proceed <==> old(state) == Running
      ensures outcome == if old(state) in {Starting, Stopping} then WrongState else Done
      ensures state == if old(state) == Created then Stopped else if old(state) == Running then Stopping else old(state)
      ensures entries == if old(state) == Created then map[] else old(entries)
    {
      outcome, proceed := Done, false;
      if state == Created {
        state, entries, started := Stopped, map[], [];
      } else if state == Running {
        state, proceed := Stopping, true;
      } else if state != Stopped {
        outcome := WrongState;
      }
    }
  }
}
