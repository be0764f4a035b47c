/** The lifetime of an asynchronous streaming session: reference-counted activity tokens on one
    gate, `finishAsync` which closes the gate and posts one finaliser, and `finalize` which
    waits for the drained signal before it ends the request. Both streaming sinks share it. */
module SessionLifetimes {
  import opened Options
  import opened Gates

  /** Whose activity a token stands for: the creator, a message delivery or a response callback. */
  datatype Token = Creation | Message(id: nat) | Response(id: nat)

  /** A shared reference to a token: a stack frame, a queued response, or the posted drain. */
  datatype Holder = Frame | Item | Root

  datatype Ref = Ref(token: Token, holder: Holder)

  /** `posted` finalisers are waiting to run; `ended` counts calls of `endRequest`. */
  datatype Life = Life(gate: Gate, refs: set<Ref>, posted: nat, ended: nat)

  const BORN := Life(OPEN, {}, 0, 0)

  function Tokens(refs: set<Ref>): set<Token> { set r | r in refs :: r.token }

  function Enter(l: Life, token: Token): Life
    requires !l.gate.closed
  {
    l.(gate := Admit(l.gate), refs := l.refs + {Ref(token, Frame)})
  }

  function Share(l: Life, ref: Ref): Life { l.(refs := l.refs + {ref}) }

  /** The token leaves the gate with its last reference. */
  function Drop(l: Life, ref: Ref): Life {
    var refs := l.refs - {ref};
    l.(refs := refs,
       gate := if ref in l.refs && ref.token !in Tokens(refs) && l.gate.count > 0 then Leave(l.gate) else l.gate)
  }

  /** Only the call that closes the gate posts the finaliser. */
  function FinishAsync(l: Life): Life {
    if l.gate.closed then l else l.(gate := Shut(l.gate), posted := l.posted + 1)
  }

  function SendDrained(l: Life): Life
    requires l.gate.owed > 0
  {
    l.(gate := Signal(l.gate))
  }

  predicate CanFinalize(l: Life) { l.posted > 0 && l.gate.sent > 0 }

  function Finalize(l: Life): Life
    requires CanFinalize(l)
  {
    l.(posted := l.posted - 1, ended := l.ended + 1)
  }

  ghost predicate Valid(l: Life) {
    && l.gate.count == |Tokens(l.refs)|
    && Sound(l.gate)
    && l.posted + l.ended == (if l.gate.closed then 1 else 0)
    && (l.ended > 0 ==> l.gate.sent > 0)
  }

  /** The request ends at most once, and then no reference is left and none can be made. */
  lemma EndsOnceAndLast(l: Life)
    requires Valid(l)
    ensures l.ended <= 1
    ensures l.ended > 0 ==> l.refs == {} && l.gate.closed
  {
    assert forall r :: r in l.refs ==> r.token in Tokens(l.refs);
  }

  lemma EnterKeeps(l: Life, token: Token)
    requires Valid(l) && !l.gate.closed && token !in Tokens(l.refs)
    ensures Valid(Enter(l, token))
  {
    assert Tokens(Enter(l, token).refs) == Tokens(l.refs) + {token};
  }

  lemma ShareKeeps(l: Life, ref: Ref)
    requires Valid(l) && ref.token in Tokens(l.refs)
    ensures Valid(Share(l, ref))
  {
    assert Tokens(Share(l, ref).refs) == Tokens(l.refs);
  }

  lemma DropKeeps(l: Life, ref: Ref)
    requires Valid(l)
    ensures Valid(Drop(l, ref))
  {
    var rest := Tokens(l.refs - {ref});
    if ref in l.refs {
      if ref.token in rest {
        assert rest == Tokens(l.refs);
      } else {
        assert rest == Tokens(l.refs) - {ref.token};
        assert ref.token in Tokens(l.refs);
      }
    } else {
      assert l.refs - {ref} == l.refs;
    }
  }

  lemma FinishKeeps(l: Life)
    requires Valid(l)
    ensures Valid(FinishAsync(l)) && FinishAsync(l).gate.closed
    ensures l.gate.owed > 0 ==> Valid(SendDrained(l))
    ensures CanFinalize(l) ==> Valid(Finalize(l))
  {}

  lemma TokenHeld(l: Life, ref: Ref)
    requires ref in l.refs
    ensures ref.token in Tokens(l.refs)
  {}
}
