/** The case-insensitive order of header names, as in section 5.1 of RFC 9110. */
module HeaderNames {
  function Lower(c: char): char { if 'A' <= c <= 'Z' then c + 32 as char else c }

  function Folded(s: string): (r: string)
    ensures |r| == |s|
  {
    seq(|s|, i requires 0 <= i < |s| => Lower(s[i]))
  }

  /** `CaseInsensitiveLess`: lexicographic comparison of the lower-case characters. */
  predicate Less(a: string, b: string) {
    if b == [] then false
    else if a == [] then true
    else if Lower(a[0]) < Lower(b[0]) then true
    else if Lower(b[0]) < Lower(a[0]) then false
    else Less(a[1..], b[1..])
  }

  /** What the map and the native lookup take for the same name. */
  predicate Same(a: string, b: string) { !Less(a, b) && !Less(b, a) }

  lemma {:induction false} FoldedTail(s: string)
    requires s != []
    ensures Folded(s) == [Lower(s[0])] + Folded(s[1..])
  {}

  /** Two names are the same exactly when they agree in lower case. */
  lemma {:induction false} SameIffFolded(a: string, b: string)
    ensures Same(a, b) <==> Folded(a) == Folded(b)
  {
    if a != [] && b != [] {
      FoldedTail(a);
      FoldedTail(b);
      SameIffFolded(a[1..], b[1..]);
      if Folded(a) == Folded(b) {
        assert Folded(a)[0] == Folded(b)[0] && Folded(a)[1..] == Folded(b)[1..];
      }
    }
  }

  lemma {:induction false} Irreflexive(a: string)
    ensures !Less(a, a)
  {
    if a != [] {
      Irreflexive(a[1..]);
    }
  }

  lemma {:induction false} Transitive(a: string, b: string, c: string)
    requires Less(a, b) && Less(b, c)
    ensures Less(a, c)
  {
    if a != [] && Lower(a[0]) == Lower(b[0]) == Lower(c[0]) {
      Transitive(a[1..], b[1..], c[1..]);
    }
  }

  /** A strict weak order: irreflexive, transitive, and incomparability is transitive. */
  lemma StrictWeakOrder(a: string, b: string, c: string)
    ensures !Less(a, a)
    ensures Less(a, b) && Less(b, c) ==> Less(a, c)
    ensures !(Less(a, b) && Less(b, a))
    ensures Same(a, b) && Same(b, c) ==> Same(a, c)
  {
    Irreflexive(a);
    if Less(a, b) && Less(b, c) {
      Transitive(a, b, c);
    }
    assert !(Less(a, b) && Less(b, a)) by {
      if Less(a, b) && Less(b, a) {
        Transitive(a, b, a);
      }
    }
    SameIffFolded(a, b);
    SameIffFolded(b, c);
    SameIffFolded(a, c);
  }
}
