/** Merging a configuration tree into another. */
module DeepMerges {
  import opened Options

  /** A configuration node: a mapping, or anything else. `complex` stands for the entries of a mapping whose keys
      are not scalars, which are cloned but never merged. */
  datatype Tree = Leaf(content: nat) | Mapping(entries: map<string, Tree>, complex: seq<nat>)

  /** The merged tree, key by key. */
  function Merged(b: Tree, o: Tree): Tree
    decreases o
  {
    if b.Leaf? || o.Leaf? then o
    else Mapping(map k | k in b.entries.Keys + o.entries.Keys :: MergedAt(b, o, k), b.complex)
  }

  function MergedAt(b: Tree, o: Tree, k: string): Tree
    requires b.Mapping? && o.Mapping? && k in b.entries.Keys + o.entries.Keys
    decreases o, 0
  {
    if k !in o.entries then b.entries[k]
    else if k in b.entries then Merged(b.entries[k], o.entries[k])
    else o.entries[k]
  }

  /** The merge throws when it meets a key of the override that is not a scalar. */
  predicate Fails(b: Tree, o: Tree)
    decreases o
  {
    && b.Mapping? && o.Mapping?
    && (o.complex != [] || exists k | k in b.entries.Keys * o.entries.Keys :: Fails(b.entries[k], o.entries[k]))
  }

  function Merge(b: Tree, o: Tree): Option<Tree> { if Fails(b, o) then None else Some(Merged(b, o)) }

  /** All mappings inside have scalar keys only. */
  predicate ScalarKeyed(t: Tree)
    decreases t
  {
    t.Leaf? || (t.complex == [] && forall k | k in t.entries :: ScalarKeyed(t.entries[k]))
  }

  // ---- What the merged tree holds ----

  /** The node at the end of a path of keys. */
  function At(t: Tree, path: seq<string>): Option<Tree> {
    if path == [] then Some(t)
    else if t.Leaf? || path[0] !in t.entries then None
    else At(t.entries[path[0]], path[1..])
  }

  /** Does a non-mapping of `t` stand on the path? */
  predicate Blocks(t: Tree, path: seq<string>) {
    t.Leaf? || (path != [] && path[0] in t.entries && Blocks(t.entries[path[0]], path[1..]))
  }

  /** A value of the merged tree comes from the override, or from the base where the override has neither that
      path nor a value across it. */
  lemma {:induction false} LeavesExactly(b: Tree, o: Tree, path: seq<string>, content: nat)
    ensures At(Merged(b, o), path) == Some(Leaf(content)) <==>
            || At(o, path) == Some(Leaf(content))
            || (At(o, path).None? && !Blocks(o, path) && At(b, path) == Some(Leaf(content)))
    decreases path
  {
    if b.Mapping? && o.Mapping? && path != [] {
      var k := path[0];
      if k in b.entries && k in o.entries {
        assert Merged(b, o).entries[k] == MergedAt(b, o, k);
        LeavesExactly(b.entries[k], o.entries[k], path[1..], content);
      } else if k in b.entries || k in o.entries {
        assert Merged(b, o).entries[k] == MergedAt(b, o, k);
      }
    }
  }

  // ---- Idempotence ----

  lemma {:induction false} MergedSelf(x: Tree)
    ensures Merged(x, x) == x
    decreases x
  {
    if x.Mapping? {
      forall k | k in x.entries ensures MergedAt(x, x, k) == x.entries[k] {
        MergedSelf(x.entries[k]);
      }
      assert Merged(x, x).entries == x.entries;
    }
  }

  lemma {:induction false} MergedTwice(b: Tree, o: Tree)
    ensures Merged(Merged(b, o), o) == Merged(b, o)
    decreases o
  {
    if b.Leaf? || o.Leaf? {
      MergedSelf(o);
    } else {
      var r := Merged(b, o);
      forall k | k in r.entries ensures MergedAt(r, o, k) == r.entries[k] {
        assert r.entries[k] == MergedAt(b, o, k);
        if k in o.entries {
          if k in b.entries {
            MergedTwice(b.entries[k], o.entries[k]);
          } else {
            MergedSelf(o.entries[k]);
          }
        }
      }
      assert Merged(r, o).entries == r.entries;
    }
  }

  lemma {:induction false} FailsSelf(x: Tree)
    ensures Fails(x, x) <==> !ScalarKeyed(x)
    decreases x
  {
    if x.Mapping? {
      forall k | k in x.entries ensures Fails(x.entries[k], x.entries[k]) <==> !ScalarKeyed(x.entries[k]) {
        FailsSelf(x.entries[k]);
      }
      assert forall k :: k in x.entries.Keys * x.entries.Keys <==> k in x.entries;
    }
  }

  /** Where the first merge went through, the second fails exactly when the override has a key that is no scalar. */
  lemma {:induction false} FailsTwice(b: Tree, o: Tree)
    requires !Fails(b, o)
    ensures Fails(Merged(b, o), o) <==> !ScalarKeyed(o)
    decreases o
  {
    if b.Leaf? || o.Leaf? {
      FailsSelf(o);
    } else {
      var r := Merged(b, o);
      forall k | k in o.entries ensures Fails(r.entries[k], o.entries[k]) <==> !ScalarKeyed(o.entries[k]) {
        assert r.entries[k] == MergedAt(b, o, k);
        if k in b.entries {
          assert k in b.entries.Keys * o.entries.Keys;
          FailsTwice(b.entries[k], o.entries[k]);
        } else {
          FailsSelf(o.entries[k]);
        }
      }
      assert forall k :: k in r.entries.Keys * o.entries.Keys <==> k in o.entries;
    }
  }

  /** Merging a tree into itself gives it back exactly when all its keys are scalars; otherwise it throws. */
  lemma MergeSelfExactly(x: Tree)
    ensures Merge(x, x) == if ScalarKeyed(x) then Some(x) else None
  {
    MergedSelf(x);
    FailsSelf(x);
  }

  /** Applying the same override again changes nothing, again exactly when its keys are scalars. */
  lemma MergeTwiceExactly(b: Tree, o: Tree)
    requires Merge(b, o).Some?
    ensures Merge(Merge(b, o).value, o) == if ScalarKeyed(o) then Merge(b, o) else None
  {
    MergedTwice(b, o);
    FailsTwice(b, o);
  }

  /** A key that is no scalar can hide in a new branch of the override: cloned by the first merge, refused by the
      second. */
  lemma HiddenKeyRefused()
    ensures var o := Mapping(map["k" := Mapping(map[], [1])], []);
            var b := Mapping(map[], []);
            Merge(b, o).Some? && Merge(Merge(b, o).value, o).None?
  {
    var inner := Mapping(map[], [1]);
    var o := Mapping(map["k" := inner], []);
    var b := Mapping(map[], []);
    assert b.entries.Keys * o.entries.Keys == {};
    assert !ScalarKeyed(inner);
    assert "k" in o.entries && o.entries["k"] == inner;
    assert !ScalarKeyed(o);
    MergeTwiceExactly(b, o);
  }

  // ---- Associativity ----

  /** Everything `a` holds is overridden by `c`. */
  predicate Covered(a: Tree, c: Tree)
    decreases a
  {
    || a.Leaf? || c.Leaf?
    || (a.complex == c.complex && forall k | k in a.entries :: k in c.entries && Covered(a.entries[k], c.entries[k]))
  }

  lemma {:induction false} CoveredExactly(a: Tree, c: Tree)
    ensures Merged(a, c) == c <==> Covered(a, c)
    decreases a
  {
    if a.Mapping? && c.Mapping? {
      var r := Merged(a, c);
      forall k | k in a.entries && k in c.entries
        ensures r.entries[k] == c.entries[k] <==> Covered(a.entries[k], c.entries[k])
      {
        CoveredExactly(a.entries[k], c.entries[k]);
        assert r.entries[k] == MergedAt(a, c, k);
      }
      if Covered(a, c) {
        assert r.entries.Keys == c.entries.Keys;
        forall k | k in c.entries ensures r.entries[k] == c.entries[k] {
          assert r.entries[k] == MergedAt(a, c, k);
        }
        assert r.entries == c.entries;
      }
    }
  }

  /** Where a non-mapping in the middle stands between two mappings, the last must cover the first. */
  predicate Compatible(a: Tree, b: Tree, c: Tree)
    decreases a
  {
    if a.Leaf? || c.Leaf? then true
    else if b.Leaf? then Covered(a, c)
    else forall k | k in a.entries && k in b.entries && k in c.entries ::
           Compatible(a.entries[k], b.entries[k], c.entries[k])
  }

  lemma {:induction false} MergedKey(a: Tree, b: Tree, c: Tree, k: string)
    requires a.Mapping? && b.Mapping? && c.Mapping? && k in a.entries.Keys + b.entries.Keys + c.entries.Keys
    requires k in a.entries && k in b.entries && k in c.entries ==>
               (Merged(Merged(a.entries[k], b.entries[k]), c.entries[k])
                == Merged(a.entries[k], Merged(b.entries[k], c.entries[k]))
                <==> Compatible(a.entries[k], b.entries[k], c.entries[k]))
    ensures MergedAt(Merged(a, b), c, k) == MergedAt(a, Merged(b, c), k)
            <==> (k in a.entries && k in b.entries && k in c.entries ==>
                   Compatible(a.entries[k], b.entries[k], c.entries[k]))
  {}

  /** Merging is associative exactly on compatible trees. */
  lemma {:induction false} AssociativeExactly(a: Tree, b: Tree, c: Tree)
    ensures Merged(Merged(a, b), c) == Merged(a, Merged(b, c)) <==> Compatible(a, b, c)
    decreases a
  {
    if a.Mapping? && c.Mapping? {
      if b.Leaf? {
        CoveredExactly(a, c);
      } else {
        var l, r := Merged(Merged(a, b), c), Merged(a, Merged(b, c));
        var keys := a.entries.Keys + b.entries.Keys + c.entries.Keys;
        forall k | k in keys
          ensures l.entries[k] == r.entries[k]
                  <==> (k in a.entries && k in b.entries && k in c.entries ==>
                         Compatible(a.entries[k], b.entries[k], c.entries[k]))
        {
          if k in a.entries && k in b.entries && k in c.entries {
            AssociativeExactly(a.entries[k], b.entries[k], c.entries[k]);
          }
          MergedKey(a, b, c, k);
        }
        assert l.entries.Keys == keys && r.entries.Keys == keys;
        assert l == r <==> forall k | k in keys :: l.entries[k] == r.entries[k];
      }
    }
  }

  /** No path has a non-mapping in the middle tree between mappings in the outer two. */
  predicate NothingBetween(a: Tree, b: Tree, c: Tree)
    decreases a
  {
    if a.Leaf? || c.Leaf? then true
    else
      && b.Mapping?
      && forall k | k in a.entries && k in b.entries && k in c.entries ::
           NothingBetween(a.entries[k], b.entries[k], c.entries[k])
  }

  lemma {:induction false} NothingBetweenIsCompatible(a: Tree, b: Tree, c: Tree)
    requires NothingBetween(a, b, c)
    ensures Compatible(a, b, c)
    decreases a
  {
    if a.Mapping? && c.Mapping? {
      forall k | k in a.entries && k in b.entries && k in c.entries
        ensures Compatible(a.entries[k], b.entries[k], c.entries[k])
      {
        NothingBetweenIsCompatible(a.entries[k], b.entries[k], c.entries[k]);
      }
    }
  }

  // ---- Associativity with errors ----

  /** The two groupings of three merges, each of which may throw. */
  function LeftGrouping(a: Tree, b: Tree, c: Tree): Option<Tree> {
    match Merge(a, b) case None => None case Some(ab) => Merge(ab, c)
  }

  function RightGrouping(a: Tree, b: Tree, c: Tree): Option<Tree> {
    match Merge(b, c) case None => None case Some(bc) => Merge(a, bc)
  }

  function Keys3(a: Tree, b: Tree, c: Tree): set<string>
    requires a.Mapping? && b.Mapping? && c.Mapping?
  {
    a.entries.Keys + b.entries.Keys + c.entries.Keys
  }

  predicate InAll(a: Tree, b: Tree, c: Tree, k: string)
    requires a.Mapping? && b.Mapping? && c.Mapping?
  {
    k in a.entries && k in b.entries && k in c.entries
  }

  /** A key of exactly two of the trees whose merge throws. */
  predicate PairThrows(a: Tree, b: Tree, c: Tree, k: string)
    requires a.Mapping? && b.Mapping? && c.Mapping?
  {
    || (k in a.entries && k in b.entries && k !in c.entries && Fails(a.entries[k], b.entries[k]))
    || (k in a.entries && k !in b.entries && k in c.entries && Fails(a.entries[k], c.entries[k]))
    || (k !in a.entries && k in b.entries && k in c.entries && Fails(b.entries[k], c.entries[k]))
  }

  /** A key that is no scalar which both groupings meet. */
  predicate BothThrow(a: Tree, b: Tree, c: Tree)
    decreases a
  {
    if a.Leaf? then Fails(b, c)
    else if b.Leaf? || c.Leaf? then false
    else
      || b.complex != [] || c.complex != []
      || exists k | k in Keys3(a, b, c) ::
           PairThrows(a, b, c, k)
           || (InAll(a, b, c, k) && BothThrow(a.entries[k], b.entries[k], c.entries[k]))
  }

  /** One that only the left grouping meets: the last tree replaces the mappings merged before. */
  predicate LeftOnly(a: Tree, b: Tree, c: Tree)
    decreases a
  {
    && a.Mapping? && b.Mapping?
    && (if c.Leaf? then Fails(a, b)
        else exists k | k in a.entries :: InAll(a, b, c, k) && LeftOnly(a.entries[k], b.entries[k], c.entries[k]))
  }

  /** One that only the right grouping meets: the middle tree replaces the first mapping before the last comes. */
  predicate RightOnly(a: Tree, b: Tree, c: Tree)
    decreases a
  {
    && a.Mapping? && c.Mapping?
    && (if b.Leaf? then Fails(a, c)
        else exists k | k in a.entries :: InAll(a, b, c, k) && RightOnly(a.entries[k], b.entries[k], c.entries[k]))
  }

  /** What the left grouping meets at one key. */
  predicate LeftAt(a: Tree, b: Tree, c: Tree, k: string)
    requires a.Mapping? && b.Mapping? && c.Mapping?
  {
    || (k in a.entries && k in b.entries && Fails(a.entries[k], b.entries[k]))
    || (k in a.entries.Keys + b.entries.Keys && k in c.entries && Fails(MergedAt(a, b, k), c.entries[k]))
  }

  predicate RightAt(a: Tree, b: Tree, c: Tree, k: string)
    requires a.Mapping? && b.Mapping? && c.Mapping?
  {
    || (k in b.entries && k in c.entries && Fails(b.entries[k], c.entries[k]))
    || (k in a.entries && k in b.entries.Keys + c.entries.Keys && Fails(a.entries[k], MergedAt(b, c, k)))
  }

  lemma LeftKeys(a: Tree, b: Tree, c: Tree)
    requires a.Mapping? && b.Mapping? && c.Mapping?
    ensures Fails(a, b) || Fails(Merged(a, b), c) <==>
            b.complex != [] || c.complex != [] || exists k | k in Keys3(a, b, c) :: LeftAt(a, b, c, k)
  {
    var ab := Merged(a, b);
    assert forall k | k in ab.entries :: ab.entries[k] == MergedAt(a, b, k);
    if exists k | k in Keys3(a, b, c) :: LeftAt(a, b, c, k) {
      var k :| k in Keys3(a, b, c) && LeftAt(a, b, c, k);
      if k in a.entries && k in b.entries && Fails(a.entries[k], b.entries[k]) {
        assert k in a.entries.Keys * b.entries.Keys;
      } else {
        assert k in ab.entries.Keys * c.entries.Keys;
      }
    }
    if k :| k in a.entries.Keys * b.entries.Keys && Fails(a.entries[k], b.entries[k]) {
      assert k in Keys3(a, b, c) && LeftAt(a, b, c, k);
    }
    if k :| k in ab.entries.Keys * c.entries.Keys && Fails(ab.entries[k], c.entries[k]) {
      assert k in Keys3(a, b, c) && LeftAt(a, b, c, k);
    }
  }

  lemma RightKeys(a: Tree, b: Tree, c: Tree)
    requires a.Mapping? && b.Mapping? && c.Mapping?
    ensures Fails(b, c) || Fails(a, Merged(b, c)) <==>
            b.complex != [] || c.complex != [] || exists k | k in Keys3(a, b, c) :: RightAt(a, b, c, k)
  {
    var bc := Merged(b, c);
    assert forall k | k in bc.entries :: bc.entries[k] == MergedAt(b, c, k);
    if exists k | k in Keys3(a, b, c) :: RightAt(a, b, c, k) {
      var k :| k in Keys3(a, b, c) && RightAt(a, b, c, k);
      if k in b.entries && k in c.entries && Fails(b.entries[k], c.entries[k]) {
        assert k in b.entries.Keys * c.entries.Keys;
      } else {
        assert k in a.entries.Keys * bc.entries.Keys;
      }
    }
    if k :| k in b.entries.Keys * c.entries.Keys && Fails(b.entries[k], c.entries[k]) {
      assert k in Keys3(a, b, c) && RightAt(a, b, c, k);
    }
    if k :| k in a.entries.Keys * bc.entries.Keys && Fails(a.entries[k], bc.entries[k]) {
      assert k in Keys3(a, b, c) && RightAt(a, b, c, k);
    }
  }

  /** At a key of two trees both groupings meet the same merge. */
  lemma PairAt(a: Tree, b: Tree, c: Tree, k: string)
    requires a.Mapping? && b.Mapping? && c.Mapping? && k in Keys3(a, b, c) && !InAll(a, b, c, k)
    ensures LeftAt(a, b, c, k) <==> PairThrows(a, b, c, k)
    ensures RightAt(a, b, c, k) <==> PairThrows(a, b, c, k)
  {}

  /** The left grouping throws exactly for a key that both meet, or that only it meets. */
  lemma {:induction false} LeftThrowsExactly(a: Tree, b: Tree, c: Tree)
    ensures Fails(a, b) || Fails(Merged(a, b), c) <==> BothThrow(a, b, c) || LeftOnly(a, b, c)
    decreases a
  {
    if a.Mapping? && b.Mapping? && c.Mapping? {
      LeftKeys(a, b, c);
      forall k | k in Keys3(a, b, c)
        ensures LeftAt(a, b, c, k) <==>
                PairThrows(a, b, c, k)
                || (InAll(a, b, c, k) && (BothThrow(a.entries[k], b.entries[k], c.entries[k])
                                          || LeftOnly(a.entries[k], b.entries[k], c.entries[k])))
      {
        if InAll(a, b, c, k) {
          LeftThrowsExactly(a.entries[k], b.entries[k], c.entries[k]);
        } else {
          PairAt(a, b, c, k);
        }
      }
    }
  }

  lemma {:induction false} RightThrowsExactly(a: Tree, b: Tree, c: Tree)
    ensures Fails(b, c) || Fails(a, Merged(b, c)) <==> BothThrow(a, b, c) || RightOnly(a, b, c)
    decreases a
  {
    if a.Mapping? && b.Mapping? && c.Mapping? {
      RightKeys(a, b, c);
      forall k | k in Keys3(a, b, c)
        ensures RightAt(a, b, c, k) <==>
                PairThrows(a, b, c, k)
                || (InAll(a, b, c, k) && (BothThrow(a.entries[k], b.entries[k], c.entries[k])
                                          || RightOnly(a.entries[k], b.entries[k], c.entries[k])))
      {
        if InAll(a, b, c, k) {
          RightThrowsExactly(a.entries[k], b.entries[k], c.entries[k]);
        } else {
          PairAt(a, b, c, k);
        }
      }
    }
  }

  /** Exactly when the two groupings agree, errors included, for any three trees: both throw, or neither throws
      and the trees are compatible. */
  lemma MergeIsAssociative(a: Tree, b: Tree, c: Tree)
    ensures LeftGrouping(a, b, c).None? <==> BothThrow(a, b, c) || LeftOnly(a, b, c)
    ensures RightGrouping(a, b, c).None? <==> BothThrow(a, b, c) || RightOnly(a, b, c)
    ensures LeftGrouping(a, b, c) == RightGrouping(a, b, c) <==>
            || BothThrow(a, b, c)
            || (LeftOnly(a, b, c) && RightOnly(a, b, c))
            || (!LeftOnly(a, b, c) && !RightOnly(a, b, c) && Compatible(a, b, c))
  {
    LeftThrowsExactly(a, b, c);
    RightThrowsExactly(a, b, c);
    AssociativeExactly(a, b, c);
  }

  lemma {:induction false} ScalarKeysNeverFail(b: Tree, o: Tree)
    requires ScalarKeyed(o)
    ensures !Fails(b, o)
    ensures ScalarKeyed(b) ==> ScalarKeyed(Merged(b, o))
    decreases o
  {
    if b.Mapping? && o.Mapping? {
      forall k | k in b.entries && k in o.entries
        ensures !Fails(b.entries[k], o.entries[k])
        ensures ScalarKeyed(b.entries[k]) ==> ScalarKeyed(Merged(b.entries[k], o.entries[k]))
      {
        ScalarKeysNeverFail(b.entries[k], o.entries[k]);
      }
      forall k | k in Merged(b, o).entries ensures ScalarKeyed(b) ==> ScalarKeyed(Merged(b, o).entries[k]) {
        assert Merged(b, o).entries[k] == MergedAt(b, o, k);
      }
    }
  }

  /** With scalar keys in both overrides no merge throws and the groupings agree exactly on compatible trees, in
      particular when no non-mapping stands between mappings. */
  lemma ScalarMergesAssociate(a: Tree, b: Tree, c: Tree)
    requires ScalarKeyed(b) && ScalarKeyed(c)
    ensures LeftGrouping(a, b, c).Some? && RightGrouping(a, b, c).Some?
    ensures LeftGrouping(a, b, c) == RightGrouping(a, b, c) <==> Compatible(a, b, c)
    ensures NothingBetween(a, b, c) ==> LeftGrouping(a, b, c) == RightGrouping(a, b, c)
  {
    ScalarKeysNeverFail(a, b);
    ScalarKeysNeverFail(b, c);
    ScalarKeysNeverFail(Merged(a, b), c);
    ScalarKeysNeverFail(a, Merged(b, c));
    AssociativeExactly(a, b, c);
    if NothingBetween(a, b, c) {
      NothingBetweenIsCompatible(a, b, c);
    }
  }

  /** Without scalar keys they can differ although nothing stands between mappings: the left grouping meets a bad
      key of the middle tree that the last tree would have replaced. */
  lemma ReplacedKeySplitsGroupings()
    ensures var a := Mapping(map["x" := Mapping(map[], [])], []);
            var b := Mapping(map["x" := Mapping(map[], [1])], []);
            var c := Mapping(map["x" := Leaf(0)], []);
            NothingBetween(a, b, c) && LeftGrouping(a, b, c).None? && RightGrouping(a, b, c).Some?
  {
    var a := Mapping(map["x" := Mapping(map[], [])], []);
    var b := Mapping(map["x" := Mapping(map[], [1])], []);
    var c := Mapping(map["x" := Leaf(0)], []);
    assert "x" in a.entries && InAll(a, b, c, "x");
    assert Fails(a.entries["x"], b.entries["x"]);
    assert LeftOnly(a.entries["x"], b.entries["x"], c.entries["x"]);
    assert LeftOnly(a, b, c);
    assert forall k | k in Keys3(a, b, c) :: k == "x";
    assert !BothThrow(a, b, c) && !RightOnly(a, b, c);
    MergeIsAssociative(a, b, c);
  }

  // ---- The loop ----

  /** The result after the keys in `done` have been filled in. */
  ghost predicate Filled(b: Tree, o: Tree, done: set<string>, result: map<string, Tree>)
    requires b.Mapping? && o.Mapping? && done <= o.entries.Keys
  {
    && result.Keys == b.entries.Keys + done
    && (forall k | k in done :: result[k] == MergedAt(b, o, k))
    && (forall k | k in b.entries && k !in done :: result[k] == b.entries[k])
  }

  ghost predicate NoneFails(b: Tree, o: Tree, done: set<string>)
    requires b.Mapping? && o.Mapping? && done <= o.entries.Keys
  {
    forall k | k in done && k in b.entries :: !Fails(b.entries[k], o.entries[k])
  }

  lemma AllFilled(b: Tree, o: Tree, result: map<string, Tree>)
    requires b.Mapping? && o.Mapping? && o.complex == []
    requires Filled(b, o, o.entries.Keys, result) && NoneFails(b, o, o.entries.Keys)
    ensures Merge(b, o) == Some(Mapping(result, b.complex))
  {
    forall k | k in result ensures result[k] == Merged(b, o).entries[k] {
      assert Merged(b, o).entries[k] == MergedAt(b, o, k);
    }
    assert result == Merged(b, o).entries;
    assert forall k | k in b.entries.Keys * o.entries.Keys :: !Fails(b.entries[k], o.entries[k]);
  }

  lemma OneFails(b: Tree, o: Tree, k: string)
    requires b.Mapping? && o.Mapping? && k in b.entries && k in o.entries && Fails(b.entries[k], o.entries[k])
    ensures Merge(b, o).None?
  {
    assert k in b.entries.Keys * o.entries.Keys;
  }

  lemma OneFilled(b: Tree, o: Tree, done: set<string>, result: map<string, Tree>, k: string, value: Tree)
    requires b.Mapping? && o.Mapping? && done <= o.entries.Keys && k in o.entries && k !in done
    requires Filled(b, o, done, result) && NoneFails(b, o, done)
    requires k in b.entries ==> !Fails(b.entries[k], o.entries[k])
    requires value == MergedAt(b, o, k)
    ensures Filled(b, o, done + {k}, result[k := value]) && NoneFails(b, o, done + {k})
  {}

  /** One entry of the override: merged into the current node when there is one. */
  method MergeEntry(current: Option<Tree>, value: Tree) returns (r: Option<Tree>)
    ensures r == if current.None? then Some(value) else Merge(current.value, value)
    decreases value, 2
  {
    if current.None? {
      r := Some(value);
    } else {
      r := DeepMerge(current.value, value);
    }
  }

  /** `DeepMerge`: clone the base, then fill in the entries of the override one by one. */
  method DeepMerge(b: Tree, o: Tree) returns (r: Option<Tree>)
    ensures r == Merge(b, o)
    decreases o, 1
  {
    if b.Leaf? || o.Leaf? {
      return Some(o);
    }
    if o.complex != [] {
      return None;
    }
    var result := b.entries;
    var todo := o.entries.Keys;
    ghost var done: set<string> := {};
    while todo != {}
      invariant todo + done == o.entries.Keys && todo !! done
      invariant Filled(b, o, done, result) && NoneFails(b, o, done)
      decreases |todo|
    {
      var k :| k in todo;
      var merged := MergeEntry(if k in result then Some(result[k]) else None, o.entries[k]);
      if merged.None? {
        OneFails(b, o, k);
        return None;
      }
      OneFilled(b, o, done, result, k, merged.value);
      result := result[k := merged.value];
      todo, done := todo - {k}, done + {k};
    }
    assert done == o.entries.Keys;
    AllFilled(b, o, result);
    return Some(Mapping(result, b.complex));
  }
}
