/** Copy-on-write message contexts: handles share immutable-looking state; an update on an lvalue clones it, an
    update on an rvalue writes in place when nobody else owns the state. */
module MessageContexts {
  import opened Options

  /** Local values form an immutable chain; the innermost binding of a key shadows the others. */
  datatype Bindings = Unbound | Bound(key: nat, value: nat, parent: Bindings)

  function Shadowing(b: Bindings, key: nat): Option<nat> {
    match b
    case Unbound => None
    case Bound(k, v, parent) => if k == key then Some(v) else Shadowing(parent, key)
  }

  /** The walk along the chain. */
  method LocalValue(b: Bindings, key: nat) returns (r: Option<nat>)
    ensures r == Shadowing(b, key)
  {
    var binding := b;
    while binding.Bound?
      invariant Shadowing(binding, key) == Shadowing(b, key)
      decreases binding
    {
      if binding.key == key {
        return Some(binding.value);
      }
      binding := binding.parent;
    }
    return None;
  }

  /** `ContextState`; tokens, deadlines, traces and frames are opaque values. */
  datatype Data = Data(
    deadline: Option<int>, stopToken: nat, external: seq<nat>, sampling: bool,
    streamId: string, priority: int, hasPriority: bool, trace: nat, completion: Option<nat>, locals: Bindings)

  const FRESH := Data(None, 0, [], false, "", 0, false, 0, None, Unbound)

  datatype Update =
    | Deadline(at: Option<int>)
    | StopToken(token: nat)
    | ExternalCancellation(token: nat)
    | Sampling(enabled: bool)
    | StreamId(id: string)
    | Priority(p: int)
    | Trace(trace: nat)
    | Completion(frame: Option<nat>)
    | Local(key: nat, value: nat)

  function Applied(d: Data, u: Update): Data {
    match u
    case Deadline(at) => d.(deadline := at)
    case StopToken(token) => d.(stopToken := token)
    case ExternalCancellation(token) => d.(external := d.external + [token])
    case Sampling(enabled) => d.(sampling := enabled)
    case StreamId(id) => d.(streamId := id)
    case Priority(p) => d.(priority := p, hasPriority := true)
    case Trace(trace) => d.(trace := trace)
    case Completion(frame) => d.(completion := frame)
    case Local(key, value) => d.(locals := Bound(key, value, d.locals))
  }

  /** `handles` leads from a live context to its state; a context that was moved from leads nowhere. */
  datatype Store = Store(cells: map<nat, Data>, handles: map<nat, Option<nat>>, next: nat)

  const EMPTY := Store(map[], map[], 0)

  predicate Live(s: Store, h: nat) { h in s.handles && s.handles[h].Some? && s.handles[h].value in s.cells }

  function View(s: Store, h: nat): Option<Data> {
    if Live(s, h) then Some(s.cells[s.handles[h].value]) else None
  }

  /** `use_count() == 1`. */
  predicate UniqueOwner(s: Store, h: nat)
    requires Live(s, h)
  {
    forall g | g in s.handles :: s.handles[g] == s.handles[h] ==> g == h
  }

  datatype Event =
    | Make(to: nat)
    | Copy(from: nat, to: nat)
    | Move(from: nat, to: nat)
    | Destroy(from: nat)
    | With(from: nat, to: nat, update: Update)
    | WithMoved(from: nat, to: nat, update: Update)

  function Fresh(s: Store, to: nat, d: Data): Store {
    Store(s.cells[s.next := d], s.handles[to := Some(s.next)], s.next + 1)
  }

  /** The lvalue update: always a clone. */
  function Cloned(s: Store, from: nat, to: nat, u: Update): Store
    requires Live(s, from)
  {
    Fresh(s, to, Applied(View(s, from).value, u))
  }

  /** The rvalue update: steals the state of its only owner, clones otherwise. */
  function Stolen(s: Store, from: nat, to: nat, u: Update): Store
    requires Live(s, from)
  {
    if !UniqueOwner(s, from) then Cloned(s, from, to, u)
    else
      var c := s.handles[from].value;
      s.(cells := s.cells[c := Applied(s.cells[c], u)], handles := s.handles[from := None][to := Some(c)])
  }

  /** New contexts get handles of their own. With `steal` off, every rvalue update and move leaves its source as
      it was: the plain semantics of values. */
  function Step(s: Store, e: Event, steal: bool): Option<Store> {
    match e
    case Make(to) => if to in s.handles then None else Some(Fresh(s, to, FRESH))
    case Copy(from, to) =>
      if to in s.handles || !Live(s, from) then None else Some(s.(handles := s.handles[to := s.handles[from]]))
    case Move(from, to) =>
      if to in s.handles || !Live(s, from) then None
      else if steal then Some(s.(handles := s.handles[to := s.handles[from]][from := None]))
      else Some(s.(handles := s.handles[to := s.handles[from]]))
    case Destroy(from) => if from !in s.handles then None else Some(s.(handles := s.handles - {from}))
    case With(from, to, u) => if to in s.handles || !Live(s, from) then None else Some(Cloned(s, from, to, u))
    case WithMoved(from, to, u) =>
      if to in s.handles || !Live(s, from) then None
      else Some(if steal then Stolen(s, from, to, u) else Cloned(s, from, to, u))
  }

  function Run(es: seq<Event>, steal: bool): Option<Store> {
    if es == [] then Some(EMPTY)
    else match Run(es[..|es| - 1], steal) case None => None case Some(s) => Step(s, es[|es| - 1], steal)
  }

  ghost predicate Valid(s: Store) {
    && (forall c :: c in s.cells ==> c < s.next)
    && (forall h :: h in s.handles && s.handles[h].Some? ==> s.handles[h].value in s.cells)
  }

  /** Agreement on every context the stealing side has not moved from. */
  ghost predicate Agrees(s: Store, t: Store) {
    && s.handles.Keys == t.handles.Keys
    && forall h :: Live(s, h) ==> View(t, h) == View(s, h)
  }

  lemma FreshView(s: Store, to: nat, d: Data, h: nat)
    requires Valid(s) && to !in s.handles
    ensures Valid(Fresh(s, to, d))
    ensures View(Fresh(s, to, d), h) == if h == to then Some(d) else View(s, h)
  {}

  /** No other context sees an rvalue update, and the result is what the lvalue update would have given. */
  lemma StolenView(s: Store, from: nat, to: nat, u: Update, h: nat)
    requires Valid(s) && Live(s, from) && to !in s.handles
    ensures Valid(Stolen(s, from, to, u))
    ensures h != from ==> View(Stolen(s, from, to, u), h) == View(Cloned(s, from, to, u), h)
    ensures h != from && h != to ==> View(Stolen(s, from, to, u), h) == View(s, h)
    ensures View(Stolen(s, from, to, u), to) == Some(Applied(View(s, from).value, u))
    ensures View(Stolen(s, from, to, u), from) == if UniqueOwner(s, from) then None else View(s, from)
  {
    FreshView(s, to, Applied(View(s, from).value, u), h);
    FreshView(s, to, Applied(View(s, from).value, u), to);
    FreshView(s, to, Applied(View(s, from).value, u), from);
  }

  lemma StepKeepsValid(s: Store, e: Event, steal: bool)
    requires Valid(s) && Step(s, e, steal).Some?
    ensures Valid(Step(s, e, steal).value)
  {}

  lemma WithAgrees(s: Store, t: Store, e: Event)
    requires Valid(s) && Valid(t) && Agrees(s, t) && (e.With? || e.WithMoved?) && Step(s, e, true).Some?
    ensures Step(t, e, false).Some? && Agrees(Step(s, e, true).value, Step(t, e, false).value)
  {
    var s', t' := Step(s, e, true).value, Step(t, e, false).value;
    assert View(t, e.from) == View(s, e.from);
    var d := Applied(View(s, e.from).value, e.update);
    forall h | Live(s', h) ensures View(t', h) == View(s', h) {
      FreshView(s, e.to, d, h);
      FreshView(t, e.to, d, h);
      StolenView(s, e.from, e.to, e.update, h);
      assert Live(s, h) ==> View(t, h) == View(s, h);
    }
  }

  lemma StepAgrees(s: Store, t: Store, e: Event)
    requires Valid(s) && Valid(t) && Agrees(s, t) && Step(s, e, true).Some?
    ensures Step(t, e, false).Some? && Agrees(Step(s, e, true).value, Step(t, e, false).value)
  {
    match e
    case Make(to) =>
      forall h | Live(Step(s, e, true).value, h)
        ensures View(Step(t, e, false).value, h) == View(Step(s, e, true).value, h)
      {
        FreshView(s, to, FRESH, h);
        FreshView(t, to, FRESH, h);
        assert Live(s, h) ==> View(t, h) == View(s, h);
      }
    case With(from, to, u) => WithAgrees(s, t, e);
    case WithMoved(from, to, u) => WithAgrees(s, t, e);
    case _ => HandleAgrees(s, t, e);
  }

  lemma HandleAgrees(s: Store, t: Store, e: Event)
    requires Valid(s) && Valid(t) && Agrees(s, t) && (e.Copy? || e.Move? || e.Destroy?) && Step(s, e, true).Some?
    ensures Step(t, e, false).Some? && Agrees(Step(s, e, true).value, Step(t, e, false).value)
  {
    var s', t' := Step(s, e, true).value, Step(t, e, false).value;
    assert View(t, e.from) == View(s, e.from) || e.Destroy?;
    forall h | Live(s', h) ensures View(t', h) == View(s', h) {
      assert Live(s, h) ==> View(t, h) == View(s, h);
    }
  }

  /** Stealing is invisible: over every run, each context that has not been moved from holds exactly the value it
      would hold if every update had cloned and every context had its own value. */
  lemma {:induction false} StealingIsInvisible(es: seq<Event>)
    requires Run(es, true).Some?
    ensures Run(es, false).Some? && Valid(Run(es, true).value) && Valid(Run(es, false).value)
    ensures Agrees(Run(es, true).value, Run(es, false).value)
  {
    if es != [] {
      var last := |es| - 1;
      StealingIsInvisible(es[..last]);
      StepAgrees(Run(es[..last], true).value, Run(es[..last], false).value, es[last]);
      StepKeepsValid(Run(es[..last], true).value, es[last], true);
      StepKeepsValid(Run(es[..last], false).value, es[last], false);
    }
  }

  function AppliedAll(d: Data, us: seq<Update>): Data {
    if us == [] then d else Applied(AppliedAll(d, us[..|us| - 1]), us[|us| - 1])
  }

  /** The last value given to a key by a sequence of updates. */
  function LastLocal(us: seq<Update>, key: nat): Option<nat> {
    if us == [] then None
    else if us[|us| - 1].Local? && us[|us| - 1].key == key then Some(us[|us| - 1].value)
    else LastLocal(us[..|us| - 1], key)
  }

  /** After any sequence of updates a key has the last value given to it, else the one it had before; updates of other
      kinds do not matter, and local values alone touch nothing else. */
  lemma {:induction false} LocalValueShadows(d: Data, us: seq<Update>, key: nat)
    ensures Shadowing(AppliedAll(d, us).locals, key)
            == if LastLocal(us, key).Some? then LastLocal(us, key) else Shadowing(d.locals, key)
    ensures (forall i :: 0 <= i < |us| ==> us[i].Local?) ==> AppliedAll(d, us).(locals := d.locals) == d
  {
    if us != [] {
      LocalValueShadows(d, us[..|us| - 1], key);
    }
  }

  /** The contexts of a program, with their updates as operations on the shared store. */
  class Contexts {
    var cells: map<nat, Data>
    var handles: map<nat, Option<nat>>
    var next: nat

    ghost function AsStore(): Store
      reads this
    {
      Store(cells, handles, next)
    }

    constructor ()
      ensures cells == map[] && handles == map[] && next == 0
    {
      cells, handles, next := map[], map[], 0;
    }

    /** `cloneDerived` and one assignment. */
    method With(from: nat, to: nat, u: Update)
      requires Valid(AsStore()) && Live(AsStore(), from) && to !in handles
      modifies this
      ensures AsStore() == Cloned(old(AsStore()), from, to, u)
      ensures View(AsStore(), to) == Some(Applied(View(old(AsStore()), from).value, u))
      ensures forall h :: h != to ==> View(AsStore(), h) == View(old(AsStore()), h)
    {
      ghost var before := AsStore();
      var state := cells[handles[from].value];
      cells, handles, next := cells[next := Applied(state, u)], handles[to := Some(next)], next + 1;
      assert AsStore() == Cloned(before, from, to, u);
      forall h ensures View(AsStore(), h) == if h == to then Some(Applied(state, u)) else View(before, h) {
        FreshView(before, to, Applied(state, u), h);
      }
    }

    /** `takeOrCloneDerived` and one assignment. */
    method WithMoved(from: nat, to: nat, u: Update)
      requires Valid(AsStore()) && Live(AsStore(), from) && to !in handles
      modifies this
      ensures AsStore() == Stolen(old(AsStore()), from, to, u)
      ensures View(AsStore(), to) == Some(Applied(View(old(AsStore()), from).value, u))
      ensures forall h :: h != to && h != from ==> View(AsStore(), h) == View(old(AsStore()), h)
    {
      ghost var before := AsStore();
      var c := handles[from].value;
      if forall g | g in handles :: handles[g] == handles[from] ==> g == from {
        cells, handles := cells[c := Applied(cells[c], u)], handles[from := None][to := Some(c)];
      } else {
        With(from, to, u);
      }
      assert AsStore() == Stolen(before, from, to, u);
      StolenView(before, from, to, u, to);
      forall h | h != to && h != from ensures View(AsStore(), h) == View(before, h) {
        StolenView(before, from, to, u, h);
      }
    }
  }
}
