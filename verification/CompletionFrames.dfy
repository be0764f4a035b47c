/** `AsyncCompletionState` and its tokens: nested logical call frames. A frame counts its live
    tokens plus its initial lease; at zero it runs its completion once and then releases the
    tokens it holds on its parents, which may complete those in turn.

    A token is one lease on a frame; `shared_ptr` copies of it are references. The zero test is
    made under the frame's mutex, the rest of `release` runs afterwards, step by step. */
module CompletionFrames {
  import opened Options

  /** A lease on `frame`. */
  datatype Token = Token(frame: nat, id: nat)

  /** Who keeps a reference to a token: the outside, or a child frame in `parent_` or `parentToken_`. */
  datatype Holder = External(id: nat) | SharedParent(child: nat) | OwnParent(child: nat)

  datatype Ref = Ref(token: Token, holder: Holder)

  /** How far `release` got: counting, reached zero, completion ran, `parent_` reset, all reset. */
  datatype Phase = Open | Zero | Ran | SharedDropped | Closed

  datatype Frame = Frame(pending: nat, lease: bool, phase: Phase, shared: Option<Token>, own: Option<Token>)

  /** Frames are numbered in creation order; `log` lists the completions that ran. */
  datatype State = State(frames: seq<Frame>, refs: set<Ref>, nextToken: nat, log: seq<nat>)

  const INITIAL := State([], {}, 0, [])

  function Tokens(refs: set<Ref>): set<Token> { set r | r in refs :: r.token }

  function LiveOn(refs: set<Ref>, f: nat): set<Token> { set t | t in Tokens(refs) && t.frame == f }

  function WithFrame(s: State, f: nat, frame: Frame): State
    requires f < |s.frames|
  {
    s.(frames := s.frames[f := frame])
  }

  /** The locked part of `release`. */
  function Decrement(s: State, f: nat): State {
    if f >= |s.frames| || s.frames[f].pending == 0 then s
    else
      var p := s.frames[f].pending - 1;
      WithFrame(s, f, s.frames[f].(pending := p, phase := if p == 0 then Zero else s.frames[f].phase))
  }

  /** A reference goes away; the token's last reference releases its frame. */
  function DropRef(s: State, ref: Ref): State {
    var t := s.(refs := s.refs - {ref});
    if ref in s.refs && ref.token !in Tokens(t.refs) then Decrement(t, ref.token.frame) else t
  }

  datatype Event =
    | Make(shared: Option<Ref>, own: Option<Ref>)
    | Retain(frame: nat, holder: nat)
    | CopyToken(token: Token, holder: nat)
    | DropToken(token: Token, holder: nat)
    | DropLease(frame: nat)
    | RunCompletion(frame: nat)
    | ResetShared(frame: nat)
    | ResetOwn(frame: nat)

  /** May an outside reference move into a new frame? */
  predicate Movable(s: State, ref: Option<Ref>) {
    ref.Some? ==> ref.value in s.refs && ref.value.holder.External?
  }

  function Moved(refs: set<Ref>, ref: Option<Ref>, holder: Holder): set<Ref> {
    if ref.None? then refs else refs - {ref.value} + {Ref(ref.value.token, holder)}
  }

  function TokenOf(ref: Option<Ref>): Option<Token> { if ref.None? then None else Some(ref.value.token) }

  function MakeFrame(s: State, shared: Option<Ref>, own: Option<Ref>): State {
    var f := |s.frames|;
    s.(frames := s.frames + [Frame(1, true, Open, TokenOf(shared), TokenOf(own))],
       refs := Moved(Moved(s.refs, shared, SharedParent(f)), own, OwnParent(f)))
  }

  predicate In(s: State, f: nat, phase: Phase) { f < |s.frames| && s.frames[f].phase == phase }

  function Step(s: State, e: Event): Option<State> {
    match e
    case Make(shared, own) =>
      if !Movable(s, shared) || !Movable(s, own) || (shared.Some? && shared == own) then None
      else Some(MakeFrame(s, shared, own))
    case Retain(f, k) =>
      if f >= |s.frames| then None
      else if s.frames[f].pending == 0 then Some(s)
      else
        Some(WithFrame(s, f, s.frames[f].(pending := s.frames[f].pending + 1))
             .(refs := s.refs + {Ref(Token(f, s.nextToken), External(k))}, nextToken := s.nextToken + 1))
    case CopyToken(t, k) =>
      if t !in Tokens(s.refs) then None else Some(s.(refs := s.refs + {Ref(t, External(k))}))
    case DropToken(t, k) =>
      if Ref(t, External(k)) !in s.refs then None else Some(DropRef(s, Ref(t, External(k))))
    case DropLease(f) =>
      if f >= |s.frames| || !s.frames[f].lease then None
      else Some(Decrement(WithFrame(s, f, s.frames[f].(lease := false)), f))
    case RunCompletion(f) =>
      if !In(s, f, Zero) then None
      else Some(WithFrame(s, f, s.frames[f].(phase := Ran)).(log := s.log + [f]))
    case ResetShared(f) =>
      if !In(s, f, Ran) then None else Some(AfterShared(s, f))
    case ResetOwn(f) =>
      if !In(s, f, SharedDropped) then None else Some(AfterOwn(s, f))
  }

  function AfterShared(s: State, f: nat): State
    requires f < |s.frames|
  {
    var t := WithFrame(s, f, s.frames[f].(phase := SharedDropped));
    if s.frames[f].shared.None? then t else DropRef(t, Ref(s.frames[f].shared.value, SharedParent(f)))
  }

  function AfterOwn(s: State, f: nat): State
    requires f < |s.frames|
  {
    var t := WithFrame(s, f, s.frames[f].(phase := Closed));
    if s.frames[f].own.None? then t else DropRef(t, Ref(s.frames[f].own.value, OwnParent(f)))
  }

  function Run(es: seq<Event>): Option<State> {
    if es == [] then Some(INITIAL)
    else match Run(es[..|es| - 1]) case None => None case Some(s) => Step(s, es[|es| - 1])
  }

  // ---- Invariant ----

  predicate Counted(s: State, f: nat)
    requires f < |s.frames|
  {
    && s.frames[f].pending == |LiveOn(s.refs, f)| + (if s.frames[f].lease then 1 else 0)
    && (s.frames[f].phase.Open? <==> s.frames[f].pending > 0)
  }

  predicate HoldsShared(frame: Frame) { frame.shared.Some? && !frame.phase.SharedDropped? && !frame.phase.Closed? }

  predicate HoldsOwn(frame: Frame) { frame.own.Some? && !frame.phase.Closed? }

  /** A frame's parents are older, and their tokens are kept exactly until `release` resets them. */
  predicate Parented(s: State, f: nat)
    requires f < |s.frames|
  {
    var frame := s.frames[f];
    && (frame.shared.Some? ==> frame.shared.value.frame < f)
    && (frame.own.Some? ==> frame.own.value.frame < f)
    && (HoldsShared(frame) ==> Ref(frame.shared.value, SharedParent(f)) in s.refs)
    && (HoldsOwn(frame) ==> Ref(frame.own.value, OwnParent(f)) in s.refs)
  }

  /** Every reference is on an existing frame, and a child's reference is its parent token. */
  predicate Rooted(s: State, r: Ref) {
    && r.token.frame < |s.frames|
    && r.token.id < s.nextToken
    && (r.holder.SharedParent? ==>
          r.holder.child < |s.frames| && HoldsShared(s.frames[r.holder.child])
          && s.frames[r.holder.child].shared == Some(r.token))
    && (r.holder.OwnParent? ==>
          r.holder.child < |s.frames| && HoldsOwn(s.frames[r.holder.child])
          && s.frames[r.holder.child].own == Some(r.token))
  }

  predicate Completed(frame: Frame) { frame.phase.Ran? || frame.phase.SharedDropped? || frame.phase.Closed? }

  ghost predicate Logged(s: State) {
    && (forall i :: 0 <= i < |s.log| ==> s.log[i] < |s.frames| && Completed(s.frames[s.log[i]]))
    && (forall f :: 0 <= f < |s.frames| && Completed(s.frames[f]) ==> f in s.log)
    && (forall i, j :: 0 <= i < j < |s.log| ==> s.log[i] != s.log[j])
  }

  predicate IsParent(s: State, p: nat, f: nat)
    requires f < |s.frames|
  {
    || (s.frames[f].shared.Some? && s.frames[f].shared.value.frame == p)
    || (s.frames[f].own.Some? && s.frames[f].own.value.frame == p)
  }

  /** In the log, children stand before their parents. */
  ghost predicate ChildrenFirst(s: State) {
    forall f, j :: 0 <= f < |s.frames| && 0 <= j < |s.log| && IsParent(s, s.log[j], f) ==> f in s.log[..j]
  }

  ghost predicate Structure(s: State) {
    && (forall f :: 0 <= f < |s.frames| ==> Counted(s, f))
    && (forall f :: 0 <= f < |s.frames| ==> Parented(s, f))
    && (forall r :: r in s.refs ==> Rooted(s, r))
  }

  ghost predicate Inv(s: State) { Structure(s) && Logged(s) && ChildrenFirst(s) }

  // ---- Preservation: counts and references ----

  lemma LiveTokenMeansOpen(s: State, r: Ref)
    requires Structure(s) && r in s.refs
    ensures s.frames[r.token.frame].phase.Open? && s.frames[r.token.frame].pending > 0
  {
    var f := r.token.frame;
    assert Rooted(s, r) && Counted(s, f);
    assert r.token in LiveOn(s.refs, f);
  }

  lemma DropLive(refs: set<Ref>, ref: Ref, f: nat)
    requires ref in refs
    ensures var rest := refs - {ref};
            if f == ref.token.frame && ref.token !in Tokens(rest)
            then |LiveOn(rest, f)| == |LiveOn(refs, f)| - 1
            else LiveOn(rest, f) == LiveOn(refs, f)
  {
    var rest := refs - {ref};
    assert forall t :: t in Tokens(refs) && t != ref.token ==> t in Tokens(rest);
    if f == ref.token.frame && ref.token !in Tokens(rest) {
      assert ref.token in LiveOn(refs, f);
      assert LiveOn(rest, f) == LiveOn(refs, f) - {ref.token};
    }
  }

  /** The locked part of `release` repairs a count that is one too high. */
  lemma DecrementKeeps(s: State, f: nat)
    requires f < |s.frames| && s.frames[f].phase.Open?
    requires s.frames[f].pending == |LiveOn(s.refs, f)| + (if s.frames[f].lease then 1 else 0) + 1
    requires forall g :: 0 <= g < |s.frames| && g != f ==> Counted(s, g)
    requires forall g :: 0 <= g < |s.frames| ==> Parented(s, g)
    requires forall r :: r in s.refs ==> Rooted(s, r)
    ensures Structure(Decrement(s, f))
  {
    var t := Decrement(s, f);
    forall g | 0 <= g < |t.frames| ensures Counted(t, g) { assert g != f ==> Counted(s, g); }
    forall g | 0 <= g < |t.frames| ensures Parented(t, g) { assert Parented(s, g); }
    forall r | r in t.refs ensures Rooted(t, r) { assert Rooted(s, r); }
  }

  /** Dropping a reference that no frame needs any more. */
  lemma DropRefKeeps(s: State, ref: Ref)
    requires ref in s.refs && ref.token.frame < |s.frames|
    requires forall g :: 0 <= g < |s.frames| ==> Counted(s, g)
    requires forall g :: 0 <= g < |s.frames| ==> Parented(s.(refs := s.refs - {ref}), g)
    requires forall r :: r in s.refs && r != ref ==> Rooted(s, r)
    ensures Structure(DropRef(s, ref))
  {
    var f, u := ref.token.frame, s.(refs := s.refs - {ref});
    DropLive(s.refs, ref, f);
    forall g | 0 <= g < |u.frames| && g != f ensures Counted(u, g) {
      DropLive(s.refs, ref, g);
      assert Counted(s, g);
    }
    assert Counted(s, f);
    assert ref.token in LiveOn(s.refs, f);
    forall r | r in u.refs ensures Rooted(u, r) { assert Rooted(s, r); }
    if ref.token !in Tokens(u.refs) {
      DecrementKeeps(u, f);
    }
  }

  lemma DropTokenKeeps(s: State, ref: Ref)
    requires Structure(s) && ref in s.refs && ref.holder.External?
    ensures Structure(DropRef(s, ref))
  {
    var u := s.(refs := s.refs - {ref});
    assert Rooted(s, ref);
    forall g | 0 <= g < |s.frames| ensures Parented(u, g) { assert Parented(s, g); }
    DropRefKeeps(s, ref);
  }

  lemma DropLeaseKeeps(s: State, f: nat)
    requires Structure(s) && f < |s.frames| && s.frames[f].lease
    ensures Structure(Decrement(WithFrame(s, f, s.frames[f].(lease := false)), f))
  {
    var u := WithFrame(s, f, s.frames[f].(lease := false));
    assert Counted(s, f);
    forall g | 0 <= g < |u.frames| && g != f ensures Counted(u, g) { assert Counted(s, g); }
    forall g | 0 <= g < |u.frames| ensures Parented(u, g) { assert Parented(s, g); }
    forall r | r in u.refs ensures Rooted(u, r) { assert Rooted(s, r); }
    DecrementKeeps(u, f);
  }

  lemma RetainLive(s: State, token: Token, k: nat, g: nat)
    requires Structure(s) && token.id == s.nextToken
    ensures token !in Tokens(s.refs)
    ensures LiveOn(s.refs + {Ref(token, External(k))}, g)
            == LiveOn(s.refs, g) + if g == token.frame then {token} else {}
  {
    assert forall r :: r in s.refs ==> Rooted(s, r);
    assert Tokens(s.refs + {Ref(token, External(k))}) == Tokens(s.refs) + {token};
  }

  lemma RetainKeeps(s: State, f: nat, k: nat)
    requires Structure(s) && f < |s.frames| && s.frames[f].pending > 0
    ensures Structure(Step(s, Retain(f, k)).value)
  {
    var t := Step(s, Retain(f, k)).value;
    forall g | 0 <= g < |t.frames| ensures Counted(t, g) {
      RetainLive(s, Token(f, s.nextToken), k, g);
      assert Counted(s, g);
    }
    forall g | 0 <= g < |t.frames| ensures Parented(t, g) { assert Parented(s, g); }
    forall r | r in t.refs ensures Rooted(t, r) { assert r in s.refs ==> Rooted(s, r); }
  }

  /** References may be copied or change hands as long as the live tokens stay the same. */
  lemma SameTokensCounted(s: State, t: State)
    requires Structure(s) && |s.frames| <= |t.frames| && t.frames[..|s.frames|] == s.frames
    requires Tokens(t.refs) == Tokens(s.refs)
    ensures forall g :: 0 <= g < |s.frames| ==> Counted(t, g)
  {
    forall g | 0 <= g < |s.frames| ensures Counted(t, g) {
      assert Counted(s, g);
      assert t.frames[g] == t.frames[..|s.frames|][g];
      assert LiveOn(t.refs, g) == LiveOn(s.refs, g);
    }
  }

  lemma CopyKeeps(s: State, token: Token, k: nat)
    requires Structure(s) && token in Tokens(s.refs)
    ensures Structure(s.(refs := s.refs + {Ref(token, External(k))}))
  {
    var t := s.(refs := s.refs + {Ref(token, External(k))});
    assert Tokens(t.refs) == Tokens(s.refs);
    SameTokensCounted(s, t);
    forall g | 0 <= g < |t.frames| ensures Parented(t, g) { assert Parented(s, g); }
    var r :| r in s.refs && r.token == token;
    assert Rooted(s, r);
    forall q | q in t.refs ensures Rooted(t, q) { assert q in s.refs ==> Rooted(s, q); }
  }

  lemma MovedTokens(refs: set<Ref>, ref: Option<Ref>, holder: Holder)
    requires ref.Some? ==> ref.value in refs
    ensures Tokens(Moved(refs, ref, holder)) == Tokens(refs)
  {
    if ref.Some? {
      var moved := Ref(ref.value.token, holder);
      assert moved in Moved(refs, ref, holder);
      forall t | t in Tokens(refs) ensures t in Tokens(Moved(refs, ref, holder)) {
        var r :| r in refs && r.token == t;
        assert r != ref.value ==> r in Moved(refs, ref, holder);
      }
    }
  }

  lemma MakeKeeps(s: State, shared: Option<Ref>, own: Option<Ref>)
    requires Structure(s) && Movable(s, shared) && Movable(s, own) && (shared.Some? ==> shared != own)
    ensures Structure(MakeFrame(s, shared, own))
  {
    var f, t := |s.frames|, MakeFrame(s, shared, own);
    MovedTokens(s.refs, shared, SharedParent(f));
    MovedTokens(Moved(s.refs, shared, SharedParent(f)), own, OwnParent(f));
    SameTokensCounted(s, t);
    forall r | r in s.refs ensures r.token.frame < f { assert Rooted(s, r); }
    assert LiveOn(t.refs, f) == {};
    forall g | 0 <= g < |t.frames| ensures Parented(t, g) { assert g < f ==> Parented(s, g); }
    forall r | r in t.refs ensures Rooted(t, r) { assert r in s.refs ==> Rooted(s, r); }
  }

  lemma ResetSharedKeeps(s: State, f: nat)
    requires Structure(s) && In(s, f, Ran)
    ensures Structure(AfterShared(s, f))
  {
    var t := WithFrame(s, f, s.frames[f].(phase := SharedDropped));
    var frame := s.frames[f];
    assert Parented(s, f);
    forall g | 0 <= g < |t.frames| ensures Counted(t, g) { assert Counted(s, g); }
    var refs := if frame.shared.None? then s.refs else s.refs - {Ref(frame.shared.value, SharedParent(f))};
    forall g | 0 <= g < |t.frames| ensures Parented(t.(refs := refs), g) { assert Parented(s, g); }
    forall r | r in refs ensures Rooted(t, r) { assert Rooted(s, r); }
    if frame.shared.Some? {
      assert Rooted(s, Ref(frame.shared.value, SharedParent(f)));
      DropRefKeeps(t, Ref(frame.shared.value, SharedParent(f)));
    }
  }

  lemma ResetOwnKeeps(s: State, f: nat)
    requires Structure(s) && In(s, f, SharedDropped)
    ensures Structure(AfterOwn(s, f))
  {
    var t := WithFrame(s, f, s.frames[f].(phase := Closed));
    var frame := s.frames[f];
    assert Parented(s, f);
    forall g | 0 <= g < |t.frames| ensures Counted(t, g) { assert Counted(s, g); }
    var refs := if frame.own.None? then s.refs else s.refs - {Ref(frame.own.value, OwnParent(f))};
    forall g | 0 <= g < |t.frames| ensures Parented(t.(refs := refs), g) { assert Parented(s, g); }
    forall r | r in refs ensures Rooted(t, r) { assert Rooted(s, r); }
    if frame.own.Some? {
      assert Rooted(s, Ref(frame.own.value, OwnParent(f)));
      DropRefKeeps(t, Ref(frame.own.value, OwnParent(f)));
    }
  }

  lemma RunKeeps(s: State, f: nat)
    requires Structure(s) && In(s, f, Zero)
    ensures Structure(Step(s, RunCompletion(f)).value)
  {
    var t := Step(s, RunCompletion(f)).value;
    forall g | 0 <= g < |t.frames| ensures Counted(t, g) { assert Counted(s, g); }
    forall g | 0 <= g < |t.frames| ensures Parented(t, g) { assert Parented(s, g); }
    forall r | r in t.refs ensures Rooted(t, r) { assert Rooted(s, r); }
  }

  // ---- Preservation: the log ----

  /** The log invariants read only who completed and who is whose parent. */
  lemma LogFrame(s: State, t: State)
    requires Logged(s) && ChildrenFirst(s) && t.log == s.log && |t.frames| == |s.frames|
    requires forall f :: 0 <= f < |s.frames| ==>
               && Completed(t.frames[f]) == Completed(s.frames[f])
               && t.frames[f].shared == s.frames[f].shared && t.frames[f].own == s.frames[f].own
    ensures Logged(t) && ChildrenFirst(t)
  {
    forall f, j | 0 <= f < |t.frames| && 0 <= j < |t.log| && IsParent(t, t.log[j], f) ensures f in t.log[..j] {
      assert IsParent(s, s.log[j], f);
    }
  }

  lemma RunLog(s: State, f: nat)
    requires Inv(s) && In(s, f, Zero)
    ensures Logged(Step(s, RunCompletion(f)).value) && ChildrenFirst(Step(s, RunCompletion(f)).value)
  {
    var t := Step(s, RunCompletion(f)).value;
    assert Counted(s, f);
    forall g, j | 0 <= g < |t.frames| && 0 <= j < |t.log| && IsParent(t, t.log[j], g) ensures g in t.log[..j] {
      ChildBefore(s, f, g, j);
    }
    RunLogged(s, f);
  }

  lemma RunLogged(s: State, f: nat)
    requires Logged(s) && In(s, f, Zero)
    ensures Logged(Step(s, RunCompletion(f)).value)
  {
    var t := Step(s, RunCompletion(f)).value;
    assert f !in s.log;
    assert f == t.log[|s.log|];
    assert forall g :: g in s.log ==> g in t.log;
  }

  lemma ChildBefore(s: State, f: nat, g: nat, j: nat)
    requires Structure(s) && Logged(s) && ChildrenFirst(s)
    requires f < |s.frames| && s.frames[f].pending == 0 && g < |s.frames| && j <= |s.log|
    requires IsParent(s, (s.log + [f])[j], g)
    ensures g in (s.log + [f])[..j]
  {
    assert (s.log + [f])[..j] == s.log[..j];
    if j == |s.log| {
      ChildrenOfZeroAreDone(s, f, g);
    }
  }

  /** A frame at zero has no live token, so every child has let go and has completed. */
  lemma ChildrenOfZeroAreDone(s: State, f: nat, g: nat)
    requires Structure(s) && Logged(s) && f < |s.frames| && s.frames[f].pending == 0
    requires g < |s.frames| && IsParent(s, f, g)
    ensures g in s.log
  {
    assert Parented(s, g);
    if HoldsShared(s.frames[g]) && s.frames[g].shared.value.frame == f {
      LiveTokenMeansOpen(s, Ref(s.frames[g].shared.value, SharedParent(g)));
    }
    if HoldsOwn(s.frames[g]) && s.frames[g].own.value.frame == f {
      LiveTokenMeansOpen(s, Ref(s.frames[g].own.value, OwnParent(g)));
    }
    assert Completed(s.frames[g]);
  }

  lemma MakeLog(s: State, shared: Option<Ref>, own: Option<Ref>)
    requires Inv(s) && Movable(s, shared) && Movable(s, own)
    ensures Logged(MakeFrame(s, shared, own)) && ChildrenFirst(MakeFrame(s, shared, own))
  {
    var n, t := |s.frames|, MakeFrame(s, shared, own);
    forall f | 0 <= f < |t.frames| && Completed(t.frames[f]) ensures f in t.log { assert f < n; }
    if shared.Some? { LiveTokenMeansOpen(s, shared.value); }
    if own.Some? { LiveTokenMeansOpen(s, own.value); }
    forall f, j | 0 <= f < |t.frames| && 0 <= j < |t.log| && IsParent(t, t.log[j], f) ensures f in t.log[..j] {
      assert f < n;
      assert IsParent(s, s.log[j], f);
    }
  }

  lemma StepKeeps(s: State, e: Event)
    requires Inv(s) && Step(s, e).Some?
    ensures Inv(Step(s, e).value)
  {
    var t := Step(s, e).value;
    match e
    case Make(shared, own) =>
      MakeKeeps(s, shared, own);
      MakeLog(s, shared, own);
    case Retain(f, k) =>
      if s.frames[f].pending > 0 {
        RetainKeeps(s, f, k);
        LogFrame(s, t);
      }
    case CopyToken(token, k) =>
      CopyKeeps(s, token, k);
      LogFrame(s, t);
    case DropToken(token, k) =>
      DropTokenKeeps(s, Ref(token, External(k)));
      DropLog(s, Ref(token, External(k)));
    case DropLease(f) =>
      DropLeaseKeeps(s, f);
      DropLeaseLog(s, f);
    case RunCompletion(f) =>
      RunKeeps(s, f);
      RunLog(s, f);
    case ResetShared(f) =>
      ResetSharedKeeps(s, f);
      ResetLog(s, f, SharedDropped, t);
    case ResetOwn(f) =>
      ResetOwnKeeps(s, f);
      ResetLog(s, f, Closed, t);
  }

  lemma DropLog(s: State, ref: Ref)
    requires Inv(s) && ref in s.refs && Structure(DropRef(s, ref))
    ensures Logged(DropRef(s, ref)) && ChildrenFirst(DropRef(s, ref))
  {
    LiveTokenMeansOpen(s, ref);
    LogFrame(s, DropRef(s, ref));
  }

  lemma DropLeaseLog(s: State, f: nat)
    requires Inv(s) && f < |s.frames| && s.frames[f].lease
    ensures var t := Decrement(WithFrame(s, f, s.frames[f].(lease := false)), f); Logged(t) && ChildrenFirst(t)
  {
    assert Counted(s, f);
    LogFrame(s, Decrement(WithFrame(s, f, s.frames[f].(lease := false)), f));
  }

  lemma ResetLog(s: State, f: nat, phase: Phase, t: State)
    requires Inv(s) && f < |s.frames| && Completed(s.frames[f]) && (phase == SharedDropped || phase == Closed)
    requires (t == AfterShared(s, f) && phase == SharedDropped && s.frames[f].phase.Ran?)
             || (t == AfterOwn(s, f) && phase == Closed && s.frames[f].phase.SharedDropped?)
    ensures Logged(t) && ChildrenFirst(t)
  {
    assert Parented(s, f);
    if phase == SharedDropped && s.frames[f].shared.Some? {
      LiveTokenMeansOpen(s, Ref(s.frames[f].shared.value, SharedParent(f)));
    }
    if phase == Closed && s.frames[f].own.Some? {
      LiveTokenMeansOpen(s, Ref(s.frames[f].own.value, OwnParent(f)));
    }
    LogFrame(s, t);
  }

  // ---- Main results ----

  lemma {:induction false} Reachable(es: seq<Event>)
    ensures Run(es).Some? ==> Inv(Run(es).value)
  {
    if es != [] {
      Reachable(es[..|es| - 1]);
      if Run(es).Some? {
        StepKeeps(Run(es[..|es| - 1]).value, es[|es| - 1]);
      }
    }
  }

  /** A frame's pending count is its live tokens plus its initial lease; its completion ran at most once, only
      at zero, and nobody stays uncounted: a positive count is exactly an open frame. */
  lemma {:induction false} PendingCountsLeases(es: seq<Event>, f: nat)
    requires Run(es).Some? && f < |Run(es).value.frames|
    ensures var s := Run(es).value;
            && s.frames[f].pending == |LiveOn(s.refs, f)| + (if s.frames[f].lease then 1 else 0)
            && (s.frames[f].pending > 0 <==> s.frames[f].phase.Open?)
            && (f in s.log <==> Completed(s.frames[f]))
            && forall i, j :: 0 <= i < j < |s.log| ==> s.log[i] != s.log[j]
  {
    Reachable(es);
    assert Counted(Run(es).value, f);
  }

  /** No frame completes before a child that holds its token: in the log the child comes first. */
  lemma {:induction false} ChildrenCompleteFirst(es: seq<Event>, f: nat, j: nat)
    requires Run(es).Some? && f < |Run(es).value.frames| && j < |Run(es).value.log|
    requires IsParent(Run(es).value, Run(es).value.log[j], f)
    ensures f in Run(es).value.log[..j]
  {
    Reachable(es);
  }

  ghost predicate Grows(s: State, t: State) {
    && |s.frames| <= |t.frames|
    && s.log <= t.log
    && (forall f :: 0 <= f < |s.frames| && s.frames[f].pending == 0 ==> t.frames[f].pending == 0)
  }

  lemma StepGrows(s: State, e: Event)
    requires Inv(s) && Step(s, e).Some?
    ensures Grows(s, Step(s, e).value)
  {}

  /** A frame that reached zero is never revived, and completions are never taken back. */
  lemma {:induction false} NeverRevived(es: seq<Event>, fs: seq<Event>)
    requires Run(es + fs).Some?
    ensures Run(es).Some? && Grows(Run(es).value, Run(es + fs).value)
  {
    if fs == [] {
      assert es + fs == es;
    } else {
      var gs := fs[..|fs| - 1];
      assert (es + fs)[..|es + fs| - 1] == es + gs;
      NeverRevived(es, gs);
      Reachable(es + gs);
      StepGrows(Run(es + gs).value, fs[|fs| - 1]);
    }
  }

  ghost predicate Quiet(s: State) {
    && (forall r :: r in s.refs ==> !r.holder.External?)
    && (forall f :: 0 <= f < |s.frames| ==>
          !s.frames[f].lease && (s.frames[f].phase.Open? || s.frames[f].phase.Closed?))
  }

  lemma HeldFromAbove(s: State, k: nat)
    requires Structure(s)
    ensures forall r :: r in s.refs && r.token.frame == k && !r.holder.External? ==>
              k < r.holder.child < |s.frames| && !s.frames[r.holder.child].phase.Closed?
  {
    forall r | r in s.refs && r.token.frame == k && !r.holder.External?
      ensures k < r.holder.child < |s.frames| && !s.frames[r.holder.child].phase.Closed?
    {
      assert Rooted(s, r) && Parented(s, r.holder.child);
    }
  }

  lemma {:induction false} ClosedFrom(s: State, k: nat)
    requires Inv(s) && Quiet(s) && k <= |s.frames|
    ensures forall f :: k <= f < |s.frames| ==> s.frames[f].phase.Closed?
    decreases |s.frames| - k
  {
    if k < |s.frames| {
      ClosedFrom(s, k + 1);
      HeldFromAbove(s, k);
      assert LiveOn(s.refs, k) == {};
      assert Counted(s, k);
    }
  }

  /** Nothing leaks: when every lease and every outside reference is gone and no release is in progress,
      every frame has completed, exactly once. */
  lemma {:induction false} EveryFrameCompletes(es: seq<Event>, f: nat)
    requires Run(es).Some? && Quiet(Run(es).value) && f < |Run(es).value.frames|
    ensures f in Run(es).value.log && Run(es).value.refs == {}
  {
    Reachable(es);
    var s := Run(es).value;
    ClosedFrom(s, 0);
    assert forall r :: r in s.refs ==> Rooted(s, r);
  }

  // ---- The cascade as one call ----

  /** `release` after its locked part, with the nested releases of the parents: it terminates because a
      parent is older than its child. */
  function Cascade(s: State, f: nat): (t: State)
    ensures |t.frames| == |s.frames|
    decreases f
  {
    if !In(s, f, Zero) then s
    else
      var ran := WithFrame(s, f, s.frames[f].(phase := Ran)).(log := s.log + [f]);
      var dropped := AfterShared(ran, f);
      var shared := s.frames[f].shared;
      var mid := if shared.Some? && shared.value.frame < f then Cascade(dropped, shared.value.frame) else dropped;
      var closed := AfterOwn(mid, f);
      var own := mid.frames[f].own;
      if own.Some? && own.value.frame < f then Cascade(closed, own.value.frame) else closed
  }

  predicate Settled(frame: Frame) { frame.phase.Open? || frame.phase.Closed? }

  /** Below `f` no release is in progress, except perhaps on `up`, which may have just reached zero. */
  ghost predicate SettledBelow(s: State, f: nat, up: Option<Token>) {
    && f <= |s.frames|
    && forall g :: 0 <= g < f ==>
         Settled(s.frames[g]) || (up.Some? && g == up.value.frame && s.frames[g].phase.Zero?)
  }

  ghost predicate SameFrom(s: State, t: State, k: nat) {
    |s.frames| == |t.frames| && forall g :: k <= g < |s.frames| ==> t.frames[g] == s.frames[g]
  }

  lemma ToShared(s: State, f: nat)
    requires Inv(s) && In(s, f, Zero) && SettledBelow(s, f, None)
    ensures var ran := WithFrame(s, f, s.frames[f].(phase := Ran)).(log := s.log + [f]);
            var t := AfterShared(ran, f);
            && Inv(t) && SettledBelow(t, f, s.frames[f].shared) && SameFrom(s, t, f + 1)
            && t.frames[f] == s.frames[f].(phase := SharedDropped)
  {
    StepKeeps(s, RunCompletion(f));
    StepKeeps(Step(s, RunCompletion(f)).value, ResetShared(f));
    assert Parented(s, f);
  }

  lemma ToOwn(s: State, f: nat)
    requires Inv(s) && In(s, f, SharedDropped) && SettledBelow(s, f, None)
    ensures var t := AfterOwn(s, f);
            Inv(t) && SettledBelow(t, f, s.frames[f].own) && SameFrom(s, t, f + 1) && In(t, f, Closed)
  {
    StepKeeps(s, ResetOwn(f));
    assert Parented(s, f);
  }

  /** One call settles the frame and all its ancestors, leaves younger frames alone and keeps the invariant,
      because it is nothing but a sequence of the steps above. */
  lemma {:induction false} CascadeSettles(s: State, f: nat)
    requires Inv(s) && f < |s.frames| && SettledBelow(s, f, None)
    requires Settled(s.frames[f]) || s.frames[f].phase.Zero?
    ensures Inv(Cascade(s, f)) && SettledBelow(Cascade(s, f), f + 1, None) && SameFrom(s, Cascade(s, f), f + 1)
    decreases f
  {
    if In(s, f, Zero) {
      assert Parented(s, f);
      ToShared(s, f);
      var ran := WithFrame(s, f, s.frames[f].(phase := Ran)).(log := s.log + [f]);
      var mid := AfterShared(ran, f);
      if s.frames[f].shared.Some? {
        CascadeUp(mid, f, s.frames[f].shared.value);
        mid := Cascade(mid, s.frames[f].shared.value.frame);
      }
      ToOwn(mid, f);
      if s.frames[f].own.Some? {
        CascadeUp(AfterOwn(mid, f), f, s.frames[f].own.value);
      }
    }
  }

  lemma {:induction false} CascadeUp(s: State, f: nat, up: Token)
    requires Inv(s) && up.frame < f < |s.frames| && SettledBelow(s, f, Some(up))
    ensures var t := Cascade(s, up.frame); Inv(t) && SettledBelow(t, f, None) && SameFrom(s, t, f)
    decreases f, 0
  {
    CascadeSettles(s, up.frame);
  }

  /** Dropping a token outside every release leaves every frame settled. */
  lemma DropSettles(s: State, token: Token, k: nat)
    requires Inv(s) && Ref(token, External(k)) in s.refs && SettledBelow(s, |s.frames|, None)
    ensures var t := Cascade(DropRef(s, Ref(token, External(k))), token.frame);
            Inv(t) && SettledBelow(t, |t.frames|, None)
  {
    assert Rooted(s, Ref(token, External(k)));
    StepKeeps(s, DropToken(token, k));
    CascadeSettles(DropRef(s, Ref(token, External(k))), token.frame);
  }

  /** The frames as the runtime updates them: `release` is a method that calls itself for the parents. */
  class CompletionTree {
    var frames: seq<Frame>
    var refs: set<Ref>
    var nextToken: nat
    var log: seq<nat>

    ghost function View(): State
      reads this
    {
      State(frames, refs, nextToken, log)
    }

    constructor ()
      ensures View() == INITIAL
    {
      frames, refs, nextToken, log := [], {}, 0, [];
    }

    /** A reference goes away, with the locked part of `release` when it was the last. */
    method Forget(ref: Ref)
      modifies this
      ensures View() == DropRef(old(View()), ref)
    {
      var held := ref in refs;
      refs := refs - {ref};
      var f := ref.token.frame;
      if held && ref.token !in Tokens(refs) && f < |frames| && frames[f].pending > 0 {
        var p := frames[f].pending - 1;
        frames := frames[f := frames[f].(pending := p, phase := if p == 0 then Zero else frames[f].phase)];
      }
    }

    /** `release` from the zero test on. */
    method Release(f: nat)
      modifies this
      ensures View() == Cascade(old(View()), f)
      decreases f
    {
      if f >= |frames| || frames[f].phase != Zero {
        return;
      }
      frames, log := frames[f := frames[f].(phase := Ran)], log + [f];
      var shared := frames[f].shared;
      frames := frames[f := frames[f].(phase := SharedDropped)];
      if shared.Some? {
        Forget(Ref(shared.value, SharedParent(f)));
        if shared.value.frame < f {
          Release(shared.value.frame);
        }
      }
      var own := frames[f].own;
      frames := frames[f := frames[f].(phase := Closed)];
      if own.Some? {
        Forget(Ref(own.value, OwnParent(f)));
        if own.value.frame < f {
          Release(own.value.frame);
        }
      }
    }
  }
}
