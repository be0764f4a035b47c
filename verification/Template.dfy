/** The template scanner: `${NAME}` and `${NAME:-default}` references inside a configuration string. */
module Templates {
  import opened Options

  type Environment = string -> Option<string>

  datatype Scanned = Text(text: string, changed: bool) | Unterminated | Undefined(name: string)

  predicate PairAt(s: string, i: int, c: char, d: char) { 0 <= i < |s| - 1 && s[i] == c && s[i + 1] == d }

  /** `find` of a two-character pattern. */
  function FindPair(s: string, c: char, d: char): (r: Option<nat>)
    ensures r.Some? ==> PairAt(s, r.value, c, d) && forall j :: 0 <= j < r.value ==> !PairAt(s, j, c, d)
    ensures r.None? ==> forall j :: !PairAt(s, j, c, d)
  {
    if |s| < 2 then None
    else if s[0] == c && s[1] == d then Some(0)
    else
      match FindPair(s[1..], c, d)
      case None =>
        assert forall j :: PairAt(s, j, c, d) && j > 0 ==> PairAt(s[1..], j - 1, c, d);
        None
      case Some(i) =>
        assert forall j :: PairAt(s, j, c, d) && j > 0 ==> PairAt(s[1..], j - 1, c, d);
        Some(i + 1)
  }

  /** `find` of a character. */
  function FindChar(s: string, c: char): (r: Option<nat>)
    ensures r.Some? ==> r.value < |s| && s[r.value] == c && c !in s[..r.value]
    ensures r.None? ==> c !in s
  {
    if s == [] then None
    else if s[0] == c then Some(0)
    else
      match FindChar(s[1..], c)
      case None =>
        assert s == [s[0]] + s[1..];
        None
      case Some(i) =>
        assert s[..i + 1] == [s[0]] + s[1..][..i];
        Some(i + 1)
  }

  /** The name in front of `:-`, or the whole expression. */
  function NameOf(expression: string): string {
    match FindPair(expression, ':', '-') case None => expression case Some(i) => expression[..i]
  }

  function DefaultOf(expression: string): Option<string> {
    match FindPair(expression, ':', '-') case None => None case Some(i) => Some(expression[i + 2..])
  }

  /** The environment wins over the default. */
  function Resolve(expression: string, env: Environment): Option<string> {
    if env(NameOf(expression)).Some? then env(NameOf(expression)) else DefaultOf(expression)
  }

  /** No reference opens in this text. */
  ghost predicate Plain(text: string) { forall j :: !PairAt(text, j, '$', '{') }

  /** A string up to the end of its first reference. */
  datatype Piece =
    | NoRef
    | NeverClosed(before: string, text: string)
    | FirstRef(before: string, expression: string, rest: string)

  function Split(s: string): (p: Piece)
    ensures p.FirstRef? ==> |p.rest| < |s|
  {
    match FindPair(s, '$', '{')
    case None => NoRef
    case Some(b) => SplitAt(s, b)
  }

  function SplitAt(s: string, b: nat): (p: Piece)
    requires b + 2 <= |s|
    ensures p.FirstRef? ==> |p.rest| < |s|
  {
    match FindChar(s[b + 2..], '}')
    case None => NeverClosed(s[..b], s[b + 2..])
    case Some(n) => FirstRef(s[..b], s[b + 2..][..n], s[b + 3 + n..])
  }

  /** The pieces put together are the string. */
  ghost predicate Rejoins(s: string, p: Piece) {
    match p
    case NoRef => Plain(s)
    case NeverClosed(before, text) => s == before + ("${" + text) && Plain(before) && '}' !in text
    case FirstRef(before, expression, rest) =>
      s == before + ("${" + expression + "}" + rest) && Plain(before) && '}' !in expression
  }

  lemma SplitAtRejoins(s: string, b: nat)
    requires PairAt(s, b, '$', '{') && Plain(s[..b])
    ensures Rejoins(s, SplitAt(s, b))
  {
    var before, tail := s[..b], s[b + 2..];
    assert s == before + ("${" + tail);
    match FindChar(tail, '}')
    case None =>
    case Some(n) =>
      assert s[b + 3 + n..] == tail[n + 1..];
      ClosedAt(tail, n);
  }

  lemma ClosedAt(tail: string, n: nat)
    requires n < |tail| && tail[n] == '}'
    ensures "${" + tail == "${" + tail[..n] + "}" + tail[n + 1..]
  {
    assert tail == tail[..n] + "}" + tail[n + 1..];
  }

  lemma SplitRejoins(s: string)
    ensures Rejoins(s, Split(s))
  {
    var r := FindPair(s, '$', '{');
    if r.Some? {
      PlainFront(s, r.value);
      SplitAtRejoins(s, r.value);
    }
  }

  lemma PlainFront(s: string, b: nat)
    requires FindPair(s, '$', '{') == Some(b)
    ensures Plain(s[..b])
  {
    forall j | PairAt(s[..b], j, '$', '{') ensures PairAt(s, j, '$', '{') && j < b {}
  }

  /** Text already produced stands in front of what follows; an error stays an error. */
  function Prepend(text: string, changed: bool, rest: Scanned): Scanned {
    match rest case Text(t, c) => Text(text + t, changed || c) case _ => rest
  }

  /** The scan of a string, from the front. */
  function Scan(s: string, env: Environment): Scanned
    decreases |s|
  {
    match Split(s)
    case NoRef => Text(s, false)
    case NeverClosed(_, _) => Unterminated
    case FirstRef(before, expression, rest) =>
      match Resolve(expression, env)
      case None => Undefined(NameOf(expression))
      case Some(v) => Prepend(before + v, true, Scan(rest, env))
  }

  lemma PrependTwice(a: string, x: bool, b: string, y: bool, rest: Scanned)
    ensures Prepend(a, x, Prepend(b, y, rest)) == Prepend(a + b, x || y, rest)
    ensures Prepend("", false, rest) == rest
  {
    if rest.Text? {
      assert a + (b + rest.text) == a + b + rest.text;
      assert "" + rest.text == rest.text;
    }
  }

  /** One pass of the loop: what to append, and where the cursor goes. */
  lemma ScanOnce(result: string, changed: bool, left: string, env: Environment, before: string, expression: string,
                 rest: string)
    requires Split(left) == FirstRef(before, expression, rest)
    ensures Prepend(result, changed, Scan(left, env)) ==
            match Resolve(expression, env)
            case None => Undefined(NameOf(expression))
            case Some(v) => Prepend(result + before + v, true, Scan(rest, env))
  {
    var v := Resolve(expression, env);
    if v.Some? {
      PrependTwice(result, changed, before + v.value, true, Scan(rest, env));
      assert result + (before + v.value) == result + before + v.value;
    }
  }

  lemma ScanStops(result: string, changed: bool, left: string, env: Environment)
    requires !Split(left).FirstRef?
    ensures Prepend(result, changed, Scan(left, env)) ==
            if Split(left).NoRef? then Text(result + left, changed) else Unterminated
  {}

  /** The two searches of one pass. */
  method FindReference(left: string) returns (piece: Piece)
    ensures piece == Split(left)
  {
    var start := FindPair(left, '$', '{');
    if start.None? {
      return NoRef;
    }
    var b := start.value;
    var end := FindChar(left[b + 2..], '}');
    if end.None? {
      return NeverClosed(left[..b], left[b + 2..]);
    }
    return FirstRef(left[..b], left[b + 2..][..end.value], left[b + 3 + end.value..]);
  }

  /** The loop with its cursor. */
  method SubstituteScalar(source: string, env: Environment) returns (r: Scanned)
    ensures r == Scan(source, env)
  {
    var result, cursor, changed := "", 0, false;
    assert source[0..] == source;
    PrependTwice("", false, "", false, Scan(source, env));
    while cursor < |source|
      invariant cursor <= |source|
      invariant Scan(source, env) == Prepend(result, changed, Scan(source[cursor..], env))
      decreases |source| - cursor
    {
      var left := source[cursor..];
      var piece := FindReference(left);
      if !piece.FirstRef? {
        ScanStops(result, changed, left, env);
        return if piece.NoRef? then Text(result + left, changed) else Unterminated;
      }
      ScanOnce(result, changed, left, env, piece.before, piece.expression, piece.rest);
      var value := Resolve(piece.expression, env);
      if value.None? {
        return Undefined(NameOf(piece.expression));
      }
      result, changed := result + piece.before + value.value, true;
      cursor := |source| - |piece.rest|;
      RestIsSuffix(left);
      assert source[cursor..] == piece.rest;
    }
    assert source[cursor..] == "";
    SplitPlain("");
    assert result + "" == result;
    return Text(result, changed);
  }

  lemma RestIsSuffix(s: string)
    requires Split(s).FirstRef?
    ensures |Split(s).rest| < |s| && Split(s).rest == s[|s| - |Split(s).rest|..]
  {}

  // ---- Templates as sequences of tokens ----

  /** Literal text, a reference, or a reference that is never closed. */
  datatype Token = Literal(text: string) | Ref(name: string, fallback: Option<string>) | Open(text: string)

  function Expression(t: Token): string
    requires t.Ref?
  {
    t.name + if t.fallback.Some? then ":-" + t.fallback.value else ""
  }

  function Print(t: Token): string {
    match t
    case Literal(text) => text
    case Ref(_, _) => "${" + Expression(t) + "}"
    case Open(text) => "${" + text
  }

  function PrintAll(ts: seq<Token>): string { if ts == [] then "" else Print(ts[0]) + PrintAll(ts[1..]) }

  /** A token whose printed form reads back as itself. */
  ghost predicate Sound(t: Token) {
    match t
    case Literal(text) => Plain(text)
    case Ref(name, _) => FindPair(name, ':', '-').None? && '}' !in Expression(t)
    case Open(text) => '}' !in text
  }

  /** Literals do not touch, and only the last token may be open. */
  ghost predicate WellFormed(ts: seq<Token>) {
    && (forall i :: 0 <= i < |ts| ==> Sound(ts[i]))
    && (forall i :: 0 <= i < |ts| - 1 ==> !ts[i].Open? && (ts[i].Literal? ==> !ts[i + 1].Literal?))
  }

  /** What the tokens stand for: the concatenation of their values, or the first error. */
  function Eval(ts: seq<Token>, env: Environment): Scanned {
    if ts == [] then Text("", false)
    else
      match ts[0]
      case Literal(text) => Prepend(text, false, Eval(ts[1..], env))
      case Open(_) => Unterminated
      case Ref(name, fallback) =>
        var value := if env(name).Some? then env(name) else fallback;
        if value.None? then Undefined(name) else Prepend(value.value, true, Eval(ts[1..], env))
  }

  lemma PairAfter(text: string, rest: string)
    requires Plain(text) && |rest| >= 2 && rest[0] == '$' && rest[1] == '{'
    ensures FindPair(text + rest, '$', '{') == Some(|text|)
  {
    var s := text + rest;
    assert PairAt(s, |text|, '$', '{');
    forall j | 0 <= j < |text| ensures !PairAt(s, j, '$', '{') {
      assert !PairAt(text, j, '$', '{');
    }
  }

  lemma CharAfter(expression: string, rest: string)
    requires '}' !in expression
    ensures FindChar(expression + "}" + rest, '}') == Some(|expression|)
  {
    var s := expression + "}" + rest;
    var n := |expression|;
    assert s[n] == '}';
    assert forall j :: 0 <= j < n ==> s[j] == expression[j];
  }

  /** There is one way to split a string. */
  lemma SplitRef(before: string, expression: string, rest: string)
    requires Plain(before) && '}' !in expression
    ensures Split(before + ("${" + expression + "}" + rest)) == FirstRef(before, expression, rest)
  {
    var tail := "${" + expression + "}" + rest;
    var s, b, n := before + tail, |before|, |expression|;
    PairAfter(before, tail);
    assert s[..b] == before;
    assert s[b + 2..] == expression + "}" + rest;
    CharAfter(expression, rest);
    assert s[b + 2..][..n] == expression;
    assert s[b + 3 + n..] == rest;
  }

  lemma SplitOpen(before: string, text: string)
    requires Plain(before) && '}' !in text
    ensures Split(before + ("${" + text)) == NeverClosed(before, text)
  {
    var s, b := before + ("${" + text), |before|;
    PairAfter(before, "${" + text);
    assert s[..b] == before && s[b + 2..] == text;
  }

  lemma SplitPlain(s: string)
    requires Plain(s)
    ensures Split(s) == NoRef
  {
    assert !(FindPair(s, '$', '{').Some?);
  }

  lemma RefReads(t: Token)
    requires t.Ref? && Sound(t)
    ensures NameOf(Expression(t)) == t.name && DefaultOf(Expression(t)) == t.fallback
  {
    var e := Expression(t);
    if t.fallback.Some? {
      var n := |t.name|;
      assert e[n] == ':' && e[n + 1] == '-';
      assert PairAt(e, n, ':', '-');
      forall j | 0 <= j < n ensures !PairAt(e, j, ':', '-') {
        assert !PairAt(t.name, j, ':', '-');
      }
      assert e[..n] == t.name && e[n + 2..] == t.fallback.value;
    } else {
      assert e == t.name;
    }
  }

  /** The tokens of a string that starts with a literal, which may be empty. */
  lemma {:induction false} ScanLiteralFirst(text: string, ts: seq<Token>, env: Environment)
    requires Plain(text) && WellFormed(ts) && (ts != [] ==> !ts[0].Literal?)
    ensures Scan(text + PrintAll(ts), env) == Prepend(text, false, Eval(ts, env))
    decreases |ts|, 0
  {
    if ts == [] {
      SplitPlain(text);
      assert text + "" == text;
    } else if ts[0].Open? {
      assert |ts| == 1;
      assert PrintAll(ts) == "${" + ts[0].text;
      SplitOpen(text, ts[0].text);
    } else {
      ScanPrinted(ts[1..], env);
      RefReads(ts[0]);
      assert Sound(ts[0]);
      ScanRefFirst(text, Expression(ts[0]), PrintAll(ts[1..]), env);
      assert PrintAll(ts) == "${" + Expression(ts[0]) + "}" + PrintAll(ts[1..]);
    }
  }

  lemma ScanRefFirst(text: string, e: string, rest: string, env: Environment)
    requires Plain(text) && '}' !in e
    ensures Scan(text + ("${" + e + "}" + rest), env) ==
            match Resolve(e, env)
            case None => Undefined(NameOf(e))
            case Some(v) => Prepend(text, false, Prepend(v, true, Scan(rest, env)))
  {
    SplitRef(text, e, rest);
    var v := Resolve(e, env);
    if v.Some? {
      PrependTwice(text, false, v.value, true, Scan(rest, env));
    }
  }

  /** The scan of a printed template is the value of its tokens. */
  lemma {:induction false} ScanPrinted(ts: seq<Token>, env: Environment)
    requires WellFormed(ts)
    ensures Scan(PrintAll(ts), env) == Eval(ts, env)
    decreases |ts|, 1
  {
    if ts != [] && ts[0].Literal? {
      assert Sound(ts[0]);
      ScanLiteralFirst(ts[0].text, ts[1..], env);
    } else {
      ScanLiteralFirst("", ts, env);
      assert "" + PrintAll(ts) == PrintAll(ts);
      PrependTwice("", false, "", false, Eval(ts, env));
    }
  }

  // ---- Every string is a template ----

  function RefOf(expression: string): Token { Ref(NameOf(expression), DefaultOf(expression)) }

  function Tokens(s: string): seq<Token>
    decreases |s|
  {
    match Split(s)
    case NoRef => [Literal(s)]
    case NeverClosed(before, text) => [Literal(before), Open(text)]
    case FirstRef(before, expression, rest) => [Literal(before), RefOf(expression)] + Tokens(rest)
  }

  lemma RefPrints(expression: string)
    requires '}' !in expression
    ensures Expression(RefOf(expression)) == expression && Sound(RefOf(expression))
  {
    match FindPair(expression, ':', '-')
    case None => assert expression + "" == expression;
    case Some(i) =>
      assert expression == expression[..i] + (":-" + expression[i + 2..]);
      assert forall j :: 0 <= j < i ==> !PairAt(expression, j, ':', '-');
      forall j | PairAt(expression[..i], j, ':', '-') ensures PairAt(expression, j, ':', '-') && j < i {}
  }

  lemma FrontWellFormed(before: string, expression: string, ts: seq<Token>)
    requires Plain(before) && Sound(RefOf(expression)) && WellFormed(ts)
    ensures WellFormed([Literal(before), RefOf(expression)] + ts)
  {
    var all := [Literal(before), RefOf(expression)] + ts;
    forall i | 0 <= i < |all| ensures Sound(all[i]) {
      assert i >= 2 ==> all[i] == ts[i - 2];
    }
    forall i | 0 <= i < |all| - 1 ensures !all[i].Open? && (all[i].Literal? ==> !all[i + 1].Literal?) {
      assert i >= 2 ==> all[i] == ts[i - 2] && all[i + 1] == ts[i - 1];
    }
  }

  /** Every string is the printed form of well-formed tokens. */
  lemma {:induction false} TokensPrint(s: string)
    ensures WellFormed(Tokens(s)) && PrintAll(Tokens(s)) == s
    decreases |s|
  {
    SplitRejoins(s);
    match Split(s)
    case NoRef => assert PrintAll([Literal(s)]) == s + "" == s;
    case NeverClosed(before, text) =>
      PrintTwo(Literal(before), Open(text), []);
      assert [Literal(before), Open(text)] + [] == [Literal(before), Open(text)];
      assert Print(Open(text)) + "" == "${" + text;
    case FirstRef(before, expression, rest) =>
      TokensPrint(rest);
      RefPrints(expression);
      PrintTwo(Literal(before), RefOf(expression), Tokens(rest));
      assert Print(RefOf(expression)) + rest == "${" + expression + "}" + rest;
      FrontWellFormed(before, expression, Tokens(rest));
  }

  lemma PrintTwo(a: Token, b: Token, rest: seq<Token>)
    ensures PrintAll([a, b] + rest) == Print(a) + (Print(b) + PrintAll(rest))
  {
    assert ([a, b] + rest)[1..] == [b] + rest;
    assert ([b] + rest)[1..] == rest;
  }

  /** So the scan of any string is the value of its tokens: the concatenated values, or the first error met. */
  lemma ScanIsEval(s: string, env: Environment)
    ensures Scan(s, env) == Eval(Tokens(s), env)
  {
    TokensPrint(s);
    ScanPrinted(Tokens(s), env);
  }

  /** The token has a value. */
  predicate Resolves(t: Token, env: Environment) {
    match t
    case Literal(_) => true
    case Ref(name, fallback) => env(name).Some? || fallback.Some?
    case Open(_) => false
  }

  lemma {:induction false} EvalSucceeds(ts: seq<Token>, env: Environment)
    ensures Eval(ts, env).Text? <==> forall i :: 0 <= i < |ts| ==> Resolves(ts[i], env)
    ensures Eval(ts, env).Text? ==> (Eval(ts, env).changed <==> exists i :: 0 <= i < |ts| && ts[i].Ref?)
  {
    if ts != [] {
      EvalSucceeds(ts[1..], env);
      assert forall i :: 0 < i < |ts| ==> ts[i] == ts[1..][i - 1];
      assert forall i :: 0 <= i < |ts| - 1 ==> ts[1..][i] == ts[i + 1];
    }
  }

  /** The scan succeeds exactly when every reference is closed and has a value, in the environment or as its default.
      It leaves the text as it was exactly when no reference is opened. */
  lemma SucceedsExactly(s: string, env: Environment)
    ensures var ts := Tokens(s);
            && (Scan(s, env).Text? <==> forall i :: 0 <= i < |ts| ==> Resolves(ts[i], env))
            && (Scan(s, env).Text? ==> (Scan(s, env).changed <==> exists i :: 0 <= i < |ts| && ts[i].Ref?))
    ensures Scan(s, env) == Text(s, false) <==> Plain(s)
    ensures Scan(s, env).Text? && !Scan(s, env).changed ==> Scan(s, env).text == s
  {
    ScanIsEval(s, env);
    EvalSucceeds(Tokens(s), env);
    if Plain(s) {
      SplitPlain(s);
    }
  }
}
