/** Sequences of events from a given state on, for any machine. */
module Runs {
  import opened Options

  function Exec<S, E>(step: (S, E) -> Option<S>, s: S, fs: seq<E>): Option<S>
    decreases fs
  {
    if fs == [] then Some(s) else match step(s, fs[0]) case None => None case Some(t) => Exec(step, t, fs[1..])
  }

  /** One after the other. */
  lemma {:induction false} ExecConcat<S, E>(step: (S, E) -> Option<S>, s: S, fs: seq<E>, gs: seq<E>)
    ensures Exec(step, s, fs + gs)
            == if Exec(step, s, fs).None? then None else Exec(step, Exec(step, s, fs).value, gs)
    decreases |fs|
  {
    if fs == [] {
      assert fs + gs == gs;
    } else {
      assert (fs + gs)[0] == fs[0] && (fs + gs)[1..] == fs[1..] + gs;
      if step(s, fs[0]).Some? {
        ExecConcat(step, step(s, fs[0]).value, fs[1..], gs);
      }
    }
  }

  lemma ExecOne<S, E>(step: (S, E) -> Option<S>, s: S, e: E)
    ensures Exec(step, s, [e]) == step(s, e)
  {
    assert [e][1..] == [];
  }

  /** The last event comes last. */
  lemma ExecLast<S, E>(step: (S, E) -> Option<S>, s: S, fs: seq<E>)
    requires fs != []
    ensures var init := Exec(step, s, fs[..|fs| - 1]);
            Exec(step, s, fs) == if init.None? then None else step(init.value, fs[|fs| - 1])
  {
    var init, last := fs[..|fs| - 1], fs[|fs| - 1];
    assert fs == init + [last];
    ExecConcat(step, s, init, [last]);
    if Exec(step, s, init).Some? {
      ExecOne(step, Exec(step, s, init).value, last);
    }
  }

  lemma ExecFirst<S, E>(step: (S, E) -> Option<S>, s: S, e: E, fs: seq<E>)
    requires step(s, e).Some?
    ensures Exec(step, s, [e] + fs) == Exec(step, step(s, e).value, fs)
  {
    assert ([e] + fs)[0] == e && ([e] + fs)[1..] == fs;
  }

  lemma ExecTwo<S, E>(step: (S, E) -> Option<S>, s: S, d: E, t: S, e: E, u: S)
    requires step(s, d) == Some(t) && step(t, e) == Some(u)
    ensures Exec(step, s, [d, e]) == Some(u)
  {
    ExecFirst(step, s, d, [e]);
    assert [d, e] == [d] + [e];
    ExecOne(step, t, e);
  }

  lemma ExecThen<S, E>(step: (S, E) -> Option<S>, s: S, fs: seq<E>, t: S, gs: seq<E>, u: S)
    requires Exec(step, s, fs) == Some(t) && Exec(step, t, gs) == Some(u)
    ensures Exec(step, s, fs + gs) == Some(u)
  {
    ExecConcat(step, s, fs, gs);
  }

  /** The moment at which something becomes true for the first time. */
  lemma {:induction false} FirstTime<S, E>(step: (S, E) -> Option<S>, s: S, fs: seq<E>, p: S -> bool) returns (k: nat)
    requires !p(s) && Exec(step, s, fs).Some? && p(Exec(step, s, fs).value)
    ensures k < |fs| && Exec(step, s, fs[..k]).Some? && !p(Exec(step, s, fs[..k]).value)
    ensures var t := step(Exec(step, s, fs[..k]).value, fs[k]);
            t.Some? && p(t.value) && Exec(step, t.value, fs[k + 1..]) == Exec(step, s, fs)
    decreases |fs|
  {
    var t := step(s, fs[0]).value;
    if p(t) {
      k := 0;
      assert fs[..0] == [];
    } else {
      var j := FirstTime(step, t, fs[1..], p);
      k := j + 1;
      assert fs[..k] == [fs[0]] + fs[1..][..j] && fs[k + 1..] == fs[1..][j + 1..];
      ExecFirst(step, s, fs[0], fs[1..][..j]);
    }
  }

  /** What every step keeps is kept by every run. */
  lemma {:induction false} Always<S(!new), E(!new)>(step: (S, E) -> Option<S>, s: S, fs: seq<E>, p: S -> bool)
    requires p(s) && forall t, e :: p(t) && step(t, e).Some? ==> p(step(t, e).value)
    requires Exec(step, s, fs).Some?
    ensures p(Exec(step, s, fs).value)
    decreases |fs|
  {
    if fs != [] {
      Always(step, step(s, fs[0]).value, fs[1..], p);
    }
  }
}
