/** How a request of the gRPC source ends: what the decision in `finish` makes of a completion, in every
    continuation. */
module GrpcVerdicts {
  import opened Options
  import opened Completions
  import opened GrpcRetirements
  import M = SharedMutexes
  import R = Runs

  predicate Judged(stage: Stage) { stage.Ending? || stage.Closing? || stage.Over? }

  /** The decision: a failed wait is forgiven exactly when somebody has won the exchange and is not an outsider that
      has still to send the event. */
  lemma DecidedStep(s: State)
    requires Inv(s) && s.stage.Deciding?
    ensures var t := Step(s, Decide);
            && t.Some? && t.value.stage.Ending?
            && (t.value.stage.failure == NoError <==>
                 s.stage.failure == NoError
                 || (s.stage.failure == WaitFailed && s.done.winner != Nobody && s.done.sender != ByOutsider))
            && (s.done.called ==>
                 t.value.stage.failure ==
                 (if s.stage.failure == OtherError then OtherError
                  else if s.done.sender == ByOutsider then WaitFailed else NoError))
  {
    if s.done.sender.ByReader? {
      NobodyUses(s, s.done.sender.reader);
    }
  }

  lemma VerdictStep(s: State, e: Event)
    requires Step(s, e).Some? && Judged(s.stage)
    ensures Judged(Step(s, e).value.stage) && Step(s, e).value.stage.failure == s.stage.failure
  {}

  lemma {:induction false} RunIsExec(es: seq<Event>)
    ensures Run(es) == R.Exec(Step, INITIAL, es)
  {
    if es != [] {
      RunIsExec(es[..|es| - 1]);
      R.ExecLast(Step, INITIAL, es);
    }
  }

  lemma RunThenExec(es: seq<Event>, fs: seq<Event>)
    requires Run(es).Some?
    ensures Run(es + fs) == R.Exec(Step, Run(es).value, fs)
  {
    RunIsExec(es);
    RunIsExec(es + fs);
    R.ExecConcat(Step, INITIAL, es, fs);
  }

  lemma VerdictStays(s: State, fs: seq<Event>)
    requires Judged(s.stage) && R.Exec(Step, s, fs).Some?
    ensures var t := R.Exec(Step, s, fs).value; Judged(t.stage) && t.stage.failure == s.stage.failure
  {
    var same := (t: State) => Judged(t.stage) && t.stage.failure == s.stage.failure;
    forall t, e | same(t) && Step(t, e).Some? ensures same(Step(t, e).value) {
      VerdictStep(t, e);
    }
    R.Always(Step, s, fs, same);
  }

  lemma {:induction false} RunOne(es: seq<Event>, e: Event)
    requires Run(es).Some?
    ensures Run(es + [e]) == Step(Run(es).value, e)
  {
    assert (es + [e])[..|es + [e]| - 1] == es;
  }

  /** How a request ends for good, whatever follows the decision: without error exactly when it had none, or its wait
      failed and the completion was sent by then; a completion that a callback signalled first is always in time. */
  lemma {:induction false} CompletionWins(es: seq<Event>, fs: seq<Event>)
    requires Run(es).Some? && Run(es).value.stage.Deciding? && Run(es + [Decide] + fs).Some?
    ensures var s, t := Run(es).value, Run(es + [Decide] + fs).value;
            && Judged(t.stage)
            && (t.stage.failure == NoError <==>
                 s.stage.failure == NoError
                 || (s.stage.failure == WaitFailed
                     && (s.done.winner == Inside || (s.done.winner == Outside && s.done.sender != ByOutsider))))
  {
    Reachable(es);
    RunOne(es, Decide);
    DecidedStep(Run(es).value);
    RunThenExec(es + [Decide], fs);
    VerdictStays(Run(es + [Decide]).value, fs);
  }

  lemma CalledStep(s: State, e: Event)
    requires Completes(s.calls, s.stage, s.done) && Step(s, e).Some? && s.done.called
    ensures Step(s, e).value.done.called
    ensures Step(s, e).value.done.sender == ByOutsider ==> s.done.sender == ByOutsider
  {}

  lemma JudgedOnlyThere(s: State, e: Event)
    requires Step(s, e).Some? && !Judged(s.stage) && Judged(Step(s, e).value.stage)
    ensures e == Decide && s.stage.Deciding?
  {}

  lemma CalledStays(s: State, fs: seq<Event>)
    requires Inv(s) && s.done.called && R.Exec(Step, s, fs).Some?
    ensures var t := R.Exec(Step, s, fs).value;
            Inv(t) && t.done.called && (t.done.sender == ByOutsider ==> s.done.sender == ByOutsider)
  {
    ghost var kept := (t: State) =>
      Inv(t) && t.done.called && (t.done.sender == ByOutsider ==> s.done.sender == ByOutsider);
    forall t, e | kept(t) && Step(t, e).Some? ensures kept(Step(t, e).value) {
      StepKeeps(t, e);
      CalledStep(t, e);
    }
    R.Always(Step, s, fs, kept);
  }

  lemma DecisionFrom(s: State, fs: seq<Event>) returns (k: nat)
    requires Inv(s) && s.done.called && !Judged(s.stage)
    requires R.Exec(Step, s, fs).Some? && Judged(R.Exec(Step, s, fs).value.stage)
    ensures k < |fs| && fs[k] == Decide && R.Exec(Step, s, fs[..k]).Some?
    ensures var t := R.Exec(Step, s, fs[..k]).value;
            && t.stage.Deciding?
            && R.Exec(Step, s, fs).value.stage.failure ==
               (if t.stage.failure == OtherError then OtherError
                else if t.done.sender == ByOutsider then WaitFailed else NoError)
            && (t.done.sender == ByOutsider ==> s.done.sender == ByOutsider)
  {
    k := R.FirstTime(Step, s, fs, (t: State) => Judged(t.stage));
    var t := R.Exec(Step, s, fs[..k]).value;
    JudgedOnlyThere(t, fs[k]);
    CalledStays(s, fs[..k]);
    DecidedStep(t);
    VerdictStays(Step(t, fs[k]).value, fs[k + 1..]);
  }

  /** The verdict on a request whose completion was called, in whatever continuation it is reached: there is one
      decision, event `k`. An error other than a failed wait stays. Otherwise the request ends as cancelled exactly if
      at that moment an outsider, who had won the exchange before the call, has still not sent the event. */
  lemma {:induction false} CalledVerdictExactly(es: seq<Event>, fs: seq<Event>) returns (k: nat)
    requires Run(es).Some? && Run(es).value.done.called && !Judged(Run(es).value.stage)
    requires Run(es + fs).Some? && Judged(Run(es + fs).value.stage)
    ensures k < |fs| && fs[k] == Decide && Run(es + fs[..k]).Some?
    ensures var s := Run(es + fs[..k]).value;
            && s.stage.Deciding?
            && Run(es + fs).value.stage.failure ==
               (if s.stage.failure == OtherError then OtherError
                else if s.done.sender == ByOutsider then WaitFailed else NoError)
            && (s.done.sender == ByOutsider ==> Run(es).value.done.sender == ByOutsider)
  {
    Reachable(es);
    RunThenExec(es, fs);
    k := DecisionFrom(Run(es).value, fs);
    RunThenExec(es, fs[..k]);
  }

  // ---- The run that spoils it ----

  /** One event, seen by each part of the state. */
  lemma Next(s: State, e: Event, t: State)
    requires Act(s.calls, s.inserted, s.mapped, s.done.sender, e) == Some(t.calls)
    requires Own(s.stage, s.done, s.cancelled, e) == Some(t.stage)
    requires Complete(s.done, s.calls, s.stage, e) == Some(t.done) && OnMutex(s.mutex, e) == Some(t.mutex)
    requires t.inserted == (s.inserted && !e.Decide?) && t.mapped == (s.mapped && !e.Evict? && !e.EndReturns?)
    requires t.cancelled == (s.cancelled || e.CancelContext?)
    ensures Step(s, e) == Some(t)
  {}

  /** The mutex with one reader, free again after it, and with the finishing thread as its owner. */
  function Shared(): M.State { M.State([], 1, false, {1}, {}, {}, [1], [1]) }

  function Freed(): M.State { M.State([], 0, false, {}, {}, {}, [1], [1]) }

  function Taken(): M.State { M.State([], 0, true, {}, {0}, {}, [1, 0], [1, 0]) }

  lemma MutexShared()
    ensures OnMutex(M.INITIAL, LockShared(1)) == Some(Shared()) && OnMutex(Shared(), Enter(1)) == Some(Shared())
  {
    assert M.INITIAL.arrivals + [1] == [1] && M.INITIAL.reading + {1} == {1};
  }

  lemma MutexFreed()
    ensures OnMutex(Shared(), Unlock(1)) == Some(Freed())
  {
    assert {1} - {1} == {};
  }

  lemma MutexTaken()
    ensures OnMutex(Freed(), LockExclusive) == Some(Taken()) && OnMutex(Taken(), Begin) == Some(Taken())
  {
    assert [1] + [0] == [1, 0] && Freed().writing + {0} == {0};
  }

  /** The only call is in this phase. */
  function Only(phase: Phase): Calls { Calls({1}, map[1 := phase]) }

  lemma OnlyMoves(from: Phase, to: Phase)
    ensures To(Only(from), 1, from, to) == Some(Only(to)) && At(Only(from), 1, from)
  {
    assert map[1 := from][1 := to] == map[1 := to];
  }

  lemma SpoilFound(s: State)
    requires s.calls == Calls({}, map[]) && s.inserted && s.mapped
    ensures R.Exec(Step, s, [LookUp(1), Test(1)]) == Some(s.(calls := Only(Tested)))
  {
    assert s.calls.seen + {1} == {1} && s.calls.phases[1 := Found] == map[1 := Found];
    var t := s.(calls := Only(Found));
    Next(s, LookUp(1), t);
    OnlyMoves(Found, Tested);
    Next(t, Test(1), s.(calls := Only(Tested)));
    R.ExecTwo(Step, s, LookUp(1), t, Test(1), s.(calls := Only(Tested)));
  }

  lemma SpoilLocked(s: State)
    requires s.calls == Only(Tested) && s.mutex == M.INITIAL
    ensures R.Exec(Step, s, [LockShared(1), Enter(1)]) == Some(s.(calls := Only(Locked), mutex := Shared()))
  {
    MutexShared();
    OnlyMoves(Tested, Queued);
    var t := s.(calls := Only(Queued), mutex := Shared());
    Next(s, LockShared(1), t);
    OnlyMoves(Queued, Locked);
    Next(t, Enter(1), t.(calls := Only(Locked)));
    R.ExecTwo(Step, s, LockShared(1), t, Enter(1), t.(calls := Only(Locked)));
  }

  lemma SpoilSignalled(s: State)
    requires s.calls == Only(Locked) && s.inserted && s.mapped && s.done == PENDING
    ensures R.Exec(Step, s, [Retest(1, true), Signal(ByOutsider)])
            == Some(s.(calls := Only(Calling), done := Completion(Outside, ByOutsider, false, false)))
  {
    OnlyMoves(Locked, Calling);
    var t := s.(calls := Only(Calling));
    Next(s, Retest(1, true), t);
    var u := t.(done := Completion(Outside, ByOutsider, false, false));
    Next(t, Signal(ByOutsider), u);
    R.ExecTwo(Step, s, Retest(1, true), t, Signal(ByOutsider), u);
  }

  lemma SpoilCalled(s: State)
    requires s.calls == Only(Calling) && s.done == Completion(Outside, ByOutsider, false, false)
    ensures R.Exec(Step, s, [Signal(ByReader(1))]) == Some(s.(done := s.done.(called := true)))
  {
    Next(s, Signal(ByReader(1)), s.(done := s.done.(called := true)));
    R.ExecOne(Step, s, Signal(ByReader(1)));
  }

  lemma SpoilUnlocked(s: State)
    requires s.calls == Only(Calling) && s.mutex == Shared() && s.done.sender == ByOutsider
    ensures R.Exec(Step, s, [Return(1), Unlock(1)]) == Some(s.(calls := Calls({1}, map[]), mutex := Freed()))
  {
    OnlyMoves(Calling, Leaving);
    var t := s.(calls := Only(Leaving));
    Next(s, Return(1), t);
    MutexFreed();
    assert map[1 := Leaving] - {1} == map[];
    var u := s.(calls := Calls({1}, map[]), mutex := Freed());
    Next(t, Unlock(1), u);
    R.ExecTwo(Step, s, Return(1), t, Unlock(1), u);
  }

  lemma SpoilCancelled(s: State)
    requires s.done.sender == ByOutsider && s.stage == Serving
    ensures R.Exec(Step, s, [CancelContext, Finish(WaitFailed)])
            == Some(s.(cancelled := true, stage := Finishing(WaitFailed)))
  {
    var t := s.(cancelled := true);
    Next(s, CancelContext, t);
    Next(t, Finish(WaitFailed), t.(stage := Finishing(WaitFailed)));
    R.ExecTwo(Step, s, CancelContext, t, Finish(WaitFailed), t.(stage := Finishing(WaitFailed)));
  }

  lemma SpoilEntered(s: State)
    requires s.mutex == Freed() && s.stage == Finishing(WaitFailed)
    ensures R.Exec(Step, s, [LockExclusive, Begin]) == Some(s.(stage := Deciding(WaitFailed), mutex := Taken()))
  {
    MutexTaken();
    var t := s.(stage := Locking(WaitFailed), mutex := Taken());
    Next(s, LockExclusive, t);
    Next(t, Begin, t.(stage := Deciding(WaitFailed)));
    R.ExecTwo(Step, s, LockExclusive, t, Begin, t.(stage := Deciding(WaitFailed)));
  }

  lemma SpoilDecided(s: State)
    requires s.stage == Deciding(WaitFailed) && !s.done.ready
    ensures R.Exec(Step, s, [Decide]) == Some(s.(stage := Ending(WaitFailed), inserted := false))
  {
    Next(s, Decide, s.(stage := Ending(WaitFailed), inserted := false));
    R.ExecOne(Step, s, Decide);
  }

  lemma SpoilFirst(s: State) returns (es: seq<Event>)
    requires s == INITIAL
    ensures R.Exec(Step, s, es) == Some(s.(calls := Only(Calling), mutex := Shared(),
                                           done := Completion(Outside, ByOutsider, false, true)))
  {
    var t := s.(calls := Only(Tested));
    SpoilFound(s);
    var u := s.(calls := Only(Locked), mutex := Shared());
    SpoilLocked(t);
    R.ExecThen(Step, s, [LookUp(1), Test(1)], t, [LockShared(1), Enter(1)], u);
    var v := u.(calls := Only(Calling), done := Completion(Outside, ByOutsider, false, false));
    SpoilSignalled(u);
    es := [LookUp(1), Test(1)] + [LockShared(1), Enter(1)];
    R.ExecThen(Step, s, es, u, [Retest(1, true), Signal(ByOutsider)], v);
    es := es + [Retest(1, true), Signal(ByOutsider)];
    SpoilCalled(v);
    R.ExecThen(Step, s, es, v, [Signal(ByReader(1))], v.(done := v.done.(called := true)));
    es := es + [Signal(ByReader(1))];
  }

  lemma SpoilSecond(s: State) returns (fs: seq<Event>)
    requires s.calls == Only(Calling) && s.mutex == Shared() && s.stage == Serving
    requires s.done.sender == ByOutsider && !s.done.ready
    ensures R.Exec(Step, s, fs).Some? && R.Exec(Step, s, fs).value.stage == Ending(WaitFailed)
  {
    var t := s.(calls := Calls({1}, map[]), mutex := Freed());
    SpoilUnlocked(s);
    var u := t.(cancelled := true, stage := Finishing(WaitFailed));
    SpoilCancelled(t);
    R.ExecThen(Step, s, [Return(1), Unlock(1)], t, [CancelContext, Finish(WaitFailed)], u);
    fs := [Return(1), Unlock(1)] + [CancelContext, Finish(WaitFailed)];
    var v := u.(stage := Deciding(WaitFailed), mutex := Taken());
    SpoilEntered(u);
    R.ExecThen(Step, s, fs, u, [LockExclusive, Begin], v);
    fs := fs + [LockExclusive, Begin];
    SpoilDecided(v);
    R.ExecThen(Step, s, fs, v, [Decide], v.(stage := Ending(WaitFailed), inserted := false));
    fs := fs + [Decide];
  }

  /** The outsider spoils the law here too: a run in which it signals first, an admitted callback then finds the
      completion already signalled, and the request ends as cancelled before the outsider has sent the event. */
  lemma OutsiderSpoilsCompletion() returns (es: seq<Event>, fs: seq<Event>)
    ensures Run(es).Some? && At(Run(es).value.calls, 1, Calling) && Run(es).value.done.called
    ensures Run(es + fs).Some? && Run(es + fs).value.stage == Ending(WaitFailed)
  {
    es := SpoilFirst(INITIAL);
    RunIsExec(es);
    fs := SpoilSecond(Run(es).value);
    RunThenExec(es, fs);
  }
}
