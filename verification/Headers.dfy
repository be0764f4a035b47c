/** Header fields as they arrived, and the map they stand for. */
module HeaderMaps {
  import opened Options
  import opened HeaderNames

  datatype Field = Field(name: string, value: string)

  /** A map under the case-insensitive order: names that are the same share one entry, which keeps its spelling. */
  type HeaderMap = map<string, Field>

  function Get(m: HeaderMap, name: string): Option<string> {
    if Folded(name) in m then Some(m[Folded(name)].value) else None
  }

  /** `map[name] = value`: an existing entry keeps its spelling. */
  function Put(m: HeaderMap, name: string, value: string): HeaderMap {
    var k := Folded(name);
    m[k := Field(if k in m then m[k].name else name, value)]
  }

  /** `map.insert({name, value})`: an existing entry stays as it is. */
  function InsertNew(m: HeaderMap, name: string, value: string): HeaderMap {
    if Folded(name) in m then m else m[Folded(name) := Field(name, value)]
  }

  function Remove(m: HeaderMap, name: string): HeaderMap { m - {Folded(name)} }

  /** `NativeHeaders::toMap`. */
  function Materialised(fields: seq<Field>): HeaderMap {
    if fields == [] then map[]
    else
      var last := fields[|fields| - 1];
      Put(Materialised(fields[..|fields| - 1]), last.name, last.value)
  }

  /** Every key is the lower-case form of its entry's spelling. */
  ghost predicate KeysFit(m: HeaderMap) { forall k :: k in m ==> Folded(m[k].name) == k }

  /** The value of the last field with this name. */
  function LastValue(fields: seq<Field>, name: string): Option<string> {
    if fields == [] then None
    else
      var last := fields[|fields| - 1];
      if Same(last.name, name) then Some(last.value) else LastValue(fields[..|fields| - 1], name)
  }

  /** The spelling of the first field with this name. */
  function FirstSpelling(fields: seq<Field>, name: string): Option<string> {
    if fields == [] then None
    else
      var first := FirstSpelling(fields[..|fields| - 1], name);
      if first.Some? then first
      else if Same(fields[|fields| - 1].name, name) then Some(fields[|fields| - 1].name)
      else None
  }

  /** The linear lookup in the native fields equals the lookup in the materialised map: for every name the map
      holds the first spelling and the last value, and nothing for a name that did not arrive. */
  lemma {:induction false} NativeLookupIsMapLookup(fields: seq<Field>, name: string)
    ensures Get(Materialised(fields), name) == LastValue(fields, name)
    ensures Folded(name) in Materialised(fields) <==> FirstSpelling(fields, name).Some?
    ensures Folded(name) in Materialised(fields) ==>
              Some(Materialised(fields)[Folded(name)].name) == FirstSpelling(fields, name)
    ensures KeysFit(Materialised(fields))
  {
    if fields != [] {
      var init, last := fields[..|fields| - 1], fields[|fields| - 1];
      NativeLookupIsMapLookup(init, name);
      SameIffFolded(last.name, name);
    }
  }

  lemma {:induction false} EmptyIffNoFields(fields: seq<Field>)
    ensures Materialised(fields) == map[] <==> fields == []
  {
    if fields != [] {
      var last := fields[|fields| - 1];
      assert Folded(last.name) in Materialised(fields);
    }
  }

  /** Lookup after each mutator, for every name: what changed is exactly the named entry. */
  lemma LookupAfterUpdate(m: HeaderMap, name: string, value: string, other: string)
    ensures Get(Put(m, name, value), other) == if Same(name, other) then Some(value) else Get(m, other)
    ensures Get(InsertNew(m, name, value), other)
            == if Same(name, other) && Get(m, name).None? then Some(value) else Get(m, other)
    ensures Get(Remove(m, name), other) == if Same(name, other) then None else Get(m, other)
    ensures KeysFit(m) ==>
              KeysFit(Put(m, name, value)) && KeysFit(InsertNew(m, name, value)) && KeysFit(Remove(m, name))
  {
    SameIffFolded(name, other);
  }

  // ---- The objects ----

  /** The shared native storage: its fields never change; the map made from them is cached once. */
  class NativeHeaders {
    const fields: seq<Field>
    var materialised: bool
    var values: HeaderMap

    ghost predicate Valid()
      reads this
    {
      materialised ==> values == Materialised(fields)
    }

    constructor (fields: seq<Field>)
      ensures Valid() && this.fields == fields
    {
      this.fields := fields;
      materialised, values := false, map[];
    }

    method ToMap() returns (m: HeaderMap)
      ensures m == Materialised(fields)
    {
      m := map[];
      for i := 0 to |fields|
        invariant m == Materialised(fields[..i])
      {
        assert fields[..i + 1][..i] == fields[..i];
        m := Put(m, fields[i].name, fields[i].value);
      }
      assert fields[..|fields|] == fields;
    }

    method Find(name: string) returns (r: Option<string>)
      ensures r == LastValue(fields, name)
      ensures r == Get(Materialised(fields), name)
    {
      r := None;
      for i := 0 to |fields|
        invariant r == LastValue(fields[..i], name)
      {
        assert fields[..i + 1][..i] == fields[..i];
        if !Less(fields[i].name, name) && !Less(name, fields[i].name) {
          r := Some(fields[i].value);
        }
      }
      assert fields[..|fields|] == fields;
      NativeLookupIsMapLookup(fields, name);
    }

    /** The cached map, made on first use. */
    method Cached() returns (m: HeaderMap)
      requires Valid()
      modifies this
      ensures Valid() && m == Materialised(fields)
    {
      if !materialised {
        values := ToMap();
        materialised := true;
      }
      m := values;
    }
  }

  /** `Headers`: either its own map, or shared native storage until the first write. */
  class Headers {
    var values: HeaderMap
    var native: NativeHeaders?
    var detached: bool

    /** The map these headers stand for; it does not depend on the cache. */
    ghost function View(): HeaderMap
      reads this
    {
      if native != null && !detached then Materialised(native.fields) else values
    }

    ghost predicate Valid()
      reads this, if native != null then {native} else {}
    {
      native != null ==> native.Valid()
    }

    constructor Empty()
      ensures Valid() && View() == map[]
    {
      values, native, detached := map[], null, false;
    }

    constructor FromNative(storage: NativeHeaders)
      requires storage.Valid()
      ensures Valid() && native == storage && View() == Materialised(storage.fields)
    {
      values, native, detached := map[], storage, false;
    }

    /** A copy shares the native storage. */
    constructor Copy(other: Headers)
      requires other.Valid()
      ensures Valid() && native == other.native && View() == other.View()
    {
      values, native, detached := other.values, other.native, other.detached;
    }

    method Lookup(name: string) returns (r: Option<string>)
      ensures r == Get(View(), name)
    {
      if native == null || detached {
        r := Get(values, name);
      } else {
        r := native.Find(name);
      }
    }

    method IsEmpty() returns (r: bool)
      ensures r <==> View() == map[]
    {
      if native != null && !detached {
        r := native.fields == [];
        EmptyIffNoFields(native.fields);
      } else {
        r := values == map[];
      }
    }

    /** Read access as a map: may fill the shared cache, changes no view. */
    method Map() returns (m: HeaderMap)
      requires Valid()
      modifies native
      ensures Valid() && m == View() && View() == old(View())
    {
      if native == null || detached {
        m := values;
      } else {
        m := native.Cached();
      }
    }

    /** Write access: detaches from the native storage, which is left untouched. */
    method Detach()
      requires Valid()
      modifies this
      ensures Valid() && native == old(native) && View() == old(View()) && (native == null || detached)
    {
      if native != null && !detached {
        values := native.ToMap();
        detached := true;
      }
    }

    method Assign(name: string, value: string)
      requires Valid()
      modifies this
      ensures Valid() && native == old(native) && View() == Put(old(View()), name, value)
    {
      Detach();
      values := Put(values, name, value);
    }

    method Insert(name: string, value: string) returns (inserted: bool)
      requires Valid()
      modifies this
      ensures Valid() && native == old(native) && View() == InsertNew(old(View()), name, value)
      ensures inserted <==> Get(old(View()), name).None?
    {
      Detach();
      inserted := Folded(name) !in values;
      values := InsertNew(values, name, value);
    }

    method Erase(name: string) returns (count: nat)
      requires Valid()
      modifies this
      ensures Valid() && native == old(native) && View() == Remove(old(View()), name)
      ensures count == if Get(old(View()), name).Some? then 1 else 0
    {
      Detach();
      if Folded(name) !in values {
        assert Remove(values, name) == values;
        return 0;
      }
      values := Remove(values, name);
      return 1;
    }

    method Clear()
      modifies this
      ensures Valid() && View() == map[] && native == null
    {
      native, detached, values := null, false, map[];
    }

    method Swap(other: Headers)
      requires Valid() && other.Valid()
      modifies this, other
      ensures Valid() && other.Valid() && View() == old(other.View()) && other.View() == old(View())
    {
      var v, n, d := values, native, detached;
      values, native, detached := other.values, other.native, other.detached;
      other.values, other.native, other.detached := v, n, d;
    }

    /** Comparison reads both maps, spelling included, and changes neither. */
    method Equals(other: Headers) returns (equal: bool)
      requires Valid() && other.Valid()
      modifies native, other.native
      ensures Valid() && other.Valid() && View() == old(View()) && other.View() == old(other.View())
      ensures equal <==> View() == other.View()
    {
      var mine := Map();
      var theirs := other.Map();
      equal := mine == theirs;
    }
  }

  // ---- Sharing ----

  /** One call that changes headers. */
  datatype Mutation =
    | Assigning(name: string, value: string)
    | Inserting(name: string, value: string)
    | Erasing(name: string)
    | Clearing

  function Mutated(m: HeaderMap, change: Mutation): HeaderMap {
    match change
    case Assigning(name, value) => Put(m, name, value)
    case Inserting(name, value) => InsertNew(m, name, value)
    case Erasing(name) => Remove(m, name)
    case Clearing => map[]
  }

  function MutatedAll(m: HeaderMap, changes: seq<Mutation>): HeaderMap {
    if changes == [] then m else Mutated(MutatedAll(m, changes[..|changes| - 1]), changes[|changes| - 1])
  }

  method Apply(h: Headers, change: Mutation)
    requires h.Valid()
    modifies h
    ensures h.Valid() && h.View() == Mutated(old(h.View()), change)
  {
    match change
    case Assigning(name, value) => h.Assign(name, value);
    case Inserting(name, value) => var _ := h.Insert(name, value);
    case Erasing(name) => var _ := h.Erase(name);
    case Clearing => h.Clear();
  }

  /** Copies are independent although they share storage: whatever sequence of calls changes the original, it ends
      with the map those calls would make of its own, and the copy keeps its view. */
  method CopiesAreIndependent(original: Headers, changes: seq<Mutation>) returns (copy: Headers)
    requires original.Valid()
    modifies original
    ensures fresh(copy) && copy.Valid() && original.Valid()
    ensures copy.View() == old(original.View())
    ensures original.View() == MutatedAll(old(original.View()), changes)
  {
    copy := new Headers.Copy(original);
    for i := 0 to |changes|
      invariant copy.Valid() && original.Valid() && copy.View() == old(original.View())
      invariant original.View() == MutatedAll(old(original.View()), changes[..i])
    {
      assert changes[..i + 1][..i] == changes[..i];
      Apply(original, changes[i]);
    }
    assert changes[..|changes|] == changes;
  }
}
