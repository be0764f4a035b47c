/** How a request of the HTTP source ends once its completion was called, in every continuation. */
module HttpVerdicts {
  import opened Options
  import opened Completions
  import opened HttpRetirements
  import R = Runs

  lemma {:induction false} RunIsExec(es: seq<Event>)
    ensures Run(es) == R.Exec(Step, INITIAL, es)
  {
    if es != [] {
      RunIsExec(es[..|es| - 1]);
      R.ExecLast(Step, INITIAL, es);
    }
  }

  lemma RunThenExec(es: seq<Event>, fs: seq<Event>)
    requires Run(es).Some?
    ensures Run(es + fs) == R.Exec(Step, Run(es).value, fs)
  {
    RunIsExec(es);
    RunIsExec(es + fs);
    R.ExecConcat(Step, INITIAL, es, fs);
  }

  lemma VerdictLasts(s: State, fs: seq<Event>)
    requires Judged(s.stage) && R.Exec(Step, s, fs).Some?
    ensures var t := R.Exec(Step, s, fs).value; Judged(t.stage) && t.stage.failure == s.stage.failure
  {
    var same := (t: State) => Judged(t.stage) && t.stage.failure == s.stage.failure;
    forall t, e | same(t) && Step(t, e).Some? ensures same(Step(t, e).value) {
      VerdictStep(t, e);
    }
    R.Always(Step, s, fs, same);
  }

  /** Once a callback or the request's own handler has called `done`, the exchange is decided: nobody becomes the
      sender any more. */
  lemma CalledStep(s: State, e: Event)
    requires Inv(s) && Step(s, e).Some? && s.done.called
    ensures Step(s, e).value.done.called
    ensures Step(s, e).value.done.sender == ByOutsider ==> s.done.sender == ByOutsider
  {}

  /** A request becomes judged by its second look at the completion and by nothing else. */
  lemma JudgedOnlyThere(s: State, e: Event)
    requires Step(s, e).Some? && !Judged(s.stage) && Judged(Step(s, e).value.stage)
    ensures e == Own(Judge) && s.stage.Judging?
  {}

  lemma CalledStays(s: State, fs: seq<Event>)
    requires Inv(s) && s.done.called && R.Exec(Step, s, fs).Some?
    ensures var t := R.Exec(Step, s, fs).value;
            Inv(t) && t.done.called && (t.done.sender == ByOutsider ==> s.done.sender == ByOutsider)
  {
    ghost var kept := (t: State) =>
      Inv(t) && t.done.called && (t.done.sender == ByOutsider ==> s.done.sender == ByOutsider);
    forall t, e | kept(t) && Step(t, e).Some? ensures kept(Step(t, e).value) {
      StepKeeps(t, e);
      CalledStep(t, e);
    }
    R.Always(Step, s, fs, kept);
  }

  lemma JudgedFrom(s: State, fs: seq<Event>) returns (k: nat)
    requires Inv(s) && s.done.called && !Judged(s.stage)
    requires R.Exec(Step, s, fs).Some? && Judged(R.Exec(Step, s, fs).value.stage)
    ensures k < |fs| && fs[k] == Own(Judge) && R.Exec(Step, s, fs[..k]).Some?
    ensures var t := R.Exec(Step, s, fs[..k]).value;
            && t.stage.Judging?
            && R.Exec(Step, s, fs).value.stage.failure ==
               (if t.stage.failure == ConsumeFailed then ConsumeFailed
                else if t.done.sender == ByOutsider then WaitFailed else NoError)
            && (t.done.sender == ByOutsider ==> s.done.sender == ByOutsider)
  {
    k := R.FirstTime(Step, s, fs, (t: State) => Judged(t.stage));
    var t := R.Exec(Step, s, fs[..k]).value;
    JudgedOnlyThere(t, fs[k]);
    CalledStays(s, fs[..k]);
    JudgedStep(t);
    VerdictLasts(Step(t, fs[k]).value, fs[k + 1..]);
  }

  /** The verdict on a request whose completion was called, in whatever continuation it is reached: there is one moment,
      before event `k`, at which the thread takes its second look. The error of its own handler stays. Otherwise the
      request ends as cancelled exactly if at that moment an outsider, who had won the exchange before the call, has
      still not sent the event; else it ends well. */
  lemma {:induction false} CalledVerdictExactly(es: seq<Event>, fs: seq<Event>) returns (k: nat)
    requires Run(es).Some? && Run(es).value.done.called && !Judged(Run(es).value.stage)
    requires Run(es + fs).Some? && Judged(Run(es + fs).value.stage)
    ensures k < |fs| && fs[k] == Own(Judge) && Run(es + fs[..k]).Some?
    ensures var s := Run(es + fs[..k]).value;
            && s.stage.Judging?
            && Run(es + fs).value.stage.failure ==
               (if s.stage.failure == ConsumeFailed then ConsumeFailed
                else if s.done.sender == ByOutsider then WaitFailed else NoError)
            && (s.done.sender == ByOutsider ==> Run(es).value.done.sender == ByOutsider)
  {
    Reachable(es);
    RunThenExec(es, fs);
    k := JudgedFrom(Run(es).value, fs);
    RunThenExec(es, fs[..k]);
  }
}
