/** Shutting the run loop down by its contract: finish is called once, and after every enqueue that does not come from
    inside execute has returned. */
module RunLoopShutdown {
  import opened Links
  import opened Lists
  import opened Runs
  import opened RunLoop
  import opened RunLoopInv

  predicate OutsideIdle(s: State, y: Act) { At(s, y).Idle? || s.nested == Some(y) }

  /** What the callers of enqueue and finish owe the loop. */
  ghost predicate Allowed(s: State, st: Step) {
    match st
    case CallEnqueue(_, _, inner) => inner || s.finisher.None?
    case CallFinish(_, _) => s.finisher.None? && forall y :: OutsideIdle(s, y)
    case _ => true
  }

  ghost function NextAllowed(s: State, st: Step): Option<State> { if Allowed(s, st) then Next(s, st) else None }

  predicate InFinish(pc: Pc) { pc.FEnter? || pc.FFromStarting? || pc.FFromRunning? }
  predicate InEnqueue(pc: Pc) { pc.EEnter? || pc.ELoad? || pc.ETry? }
  predicate Closing(r: Runner) { r.LastPop? || r.LastTry? || r.Close? || r.Finish? || r.Returned? }

  ghost predicate CallOk(s: State, y: Act) {
    var pc := At(s, y);
    && (InFinish(pc) ==> s.finisher == Some(y) && (s.phase.Running? || (s.phase.Starting? && !pc.FFromRunning?)))
    && (s.finisher.Some? && !OutsideIdle(s, y) ==> s.finisher == Some(y) && !InEnqueue(pc))
    && (Closing(s.runner) ==> pc.Idle?)
  }

  ghost predicate CallsOk(s: State) { forall y :: CallOk(s, y) }

  ghost predicate InvByContract(s: State) {
    && Inv(s) && CallsOk(s)
    && (s.phase.Finishing? || s.phase.Finished? ==> s.finisher.Some?)
    && (s.runner.Close? ==> s.head.Nil?)
  }

  ghost predicate CallsKept(s: State, s': State, x: Act) {
    && (forall y :: y != x ==> At(s', y) == At(s, y) && (s'.nested == Some(y) <==> s.nested == Some(y)))
    && s'.finisher == s.finisher && s'.phase == s.phase && (Closing(s'.runner) ==> Closing(s.runner))
  }

  lemma CallsStay(s: State, s': State, x: Act)
    requires CallsOk(s) && CallsKept(s, s', x) && CallOk(s', x)
    ensures CallsOk(s')
  {
    forall y ensures CallOk(s', y) { assert CallOk(s, y); }
  }

  lemma EnqueueKeepsCalls(s: State, x: Act, op: Op, inner: bool)
    requires InvByContract(s) && NextAllowed(s, CallEnqueue(x, op, inner)).Some?
    ensures CallsOk(Next(s, CallEnqueue(x, op, inner)).value)
  {
    assert CallOk(s, x);
    CallsStay(s, Next(s, CallEnqueue(x, op, inner)).value, x);
  }

  lemma FinishKeepsCalls(s: State, x: Act, inner: bool)
    requires InvByContract(s) && NextAllowed(s, CallFinish(x, inner)).Some?
    ensures CallsOk(Next(s, CallFinish(x, inner)).value)
  {
    var s' := Next(s, CallFinish(x, inner)).value;
    forall y ensures CallOk(s', y) { assert CallOk(s, y) && OutsideIdle(s, y); }
  }

  /** `finish` is never refused: its exchange is the only one that leaves `starting` or `running` for good. */
  lemma FinishWins(s: State, x: Act)
    requires InvByContract(s) && (At(s, x).FFromStarting? || At(s, x).FFromRunning?)
    ensures var s' := Next(s, Act(x)).value;
            if s.phase.Starting? || At(s, x).FFromRunning? then s' == Go(s.(phase := Finishing), x, WLoad)
            else s' == Go(s, x, FFromRunning) && s.phase.Running?
  {
    assert CallOk(s, x);
  }

  lemma PublishKeepsCalls(s: State, x: Act)
    requires InvByContract(s) && (At(s, x).FFromStarting? || At(s, x).FFromRunning?)
    ensures InvByContract(Next(s, Act(x)).value)
  {
    var s' := Next(s, Act(x)).value;
    FinishWins(s, x);
    assert CallOk(s, x);
    Keeps(s, Act(x));
    forall y ensures CallOk(s', y) { assert CallOk(s, y); }
  }

  lemma ActKeepsCalls(s: State, x: Act)
    requires InvByContract(s) && Next(s, Act(x)).Some? && !At(s, x).FFromStarting? && !At(s, x).FFromRunning?
    ensures CallsOk(Next(s, Act(x)).value)
  {
    var s' := Next(s, Act(x)).value;
    assert CallOk(s, x);
    ActFrame(s, x, At(s, x));
    CallsStay(s, s', x);
  }

  lemma ActFrame(s: State, x: Act, pc: Pc)
    requires ActStep(s, x, pc).Some? && !pc.FFromStarting? && !pc.FFromRunning?
    ensures var s' := ActStep(s, x, pc).value;
            && s'.acts == s.acts[x := At(s', x)] && s'.finisher == s.finisher && s'.phase == s.phase
            && (s'.runner == s.runner || s'.runner == Woken)
            && s'.nested == (if pc.Leave? && s.nested == Some(x) then None else s.nested)
            && (InFinish(At(s', x)) ==> pc.FEnter? && At(s', x).FFromStarting?)
            && (InEnqueue(At(s', x)) ==> InEnqueue(pc))
            && (pc.Leave? ==> At(s', x).Idle?)
  {
  }

  /** Once the count is zero after a finish request, nobody is inside the loop or on the way in. */
  lemma NobodyInside(s: State, y: Act)
    requires InvByContract(s) && s.runner.AwaitProducers? && s.producers == 0
    ensures At(s, y).Idle?
  {
    assert PcOk(s, y) && CallOk(s, y);
    assert s.inside == {};
  }

  lemma RunKeepsCalls(s: State)
    requires InvByContract(s) && Next(s, RunStep).Some?
    ensures CallsOk(Next(s, RunStep).value)
  {
    var s' := Next(s, RunStep).value;
    if s.runner.AwaitProducers? && s.producers == 0 {
      forall y ensures CallOk(s', y) { NobodyInside(s, y); assert CallOk(s, y); }
    } else {
      RunFrame(s, s.runner);
      RunAdvances(s, s.runner);
      forall y ensures CallOk(s', y) { assert CallOk(s, y); }
    }
  }

  lemma RunFrame(s: State, r: Runner)
    requires RunnerStep(s, r).Some? && !(r.AwaitProducers? && s.producers == 0) && s.runner == r
    ensures var s' := RunnerStep(s, r).value;
            s'.acts == s.acts && s'.finisher == s.finisher && s'.nested == s.nested
  {
  }

  lemma RunAdvances(s: State, r: Runner)
    requires RunnerStep(s, r).Some? && !(r.AwaitProducers? && s.producers == 0) && s.runner == r
    requires r.NotRunning? ==> s.phase.Starting? || s.phase.Finishing?
    ensures var s' := RunnerStep(s, r).value;
            && (Closing(s'.runner) ==> Closing(r))
            && (s'.phase == s.phase || (s.phase.Starting? && s'.phase.Running?) || (s.phase.Finishing? && Closing(r)))
  {
  }

  /** While the loop closes, only the runner moves. */
  lemma OnlyTheRunner(s: State, st: Step)
    requires InvByContract(s) && Closing(s.runner) && !st.RunStep? && !st.PopFails?
    ensures NextAllowed(s, st) == None
  {
    forall y ensures At(s, y).Idle? { assert CallOk(s, y); }
  }

  lemma CloseFindsNothing(s: State, st: Step)
    requires InvByContract(s) && NextAllowed(s, st).Some? && Next(s, st).value.runner.Close?
    ensures Next(s, st).value.head.Nil?
  {
    assert Closing(s.runner) ==> st.RunStep? || st.PopFails? by {
      if Closing(s.runner) && !st.RunStep? && !st.PopFails? { OnlyTheRunner(s, st); }
    }
    match st
    case RunStep => RunToClose(s, s.runner);
    case PopFails =>
    case Act(x) => ActRunner(s, x, At(s, x));
    case _ =>
  }

  lemma RunToClose(s: State, r: Runner)
    requires RunnerStep(s, r).Some? && s.runner == r && !s.head.Sealed?
    requires RunnerStep(s, r).value.runner.Close?
    ensures RunnerStep(s, r).value.head.Nil?
  {
  }

  lemma ActRunner(s: State, x: Act, pc: Pc)
    requires ActStep(s, x, pc).Some?
    ensures ActStep(s, x, pc).value.runner == s.runner || ActStep(s, x, pc).value.runner == Woken
  {
  }

  lemma PhaseByContract(s: State, st: Step)
    requires InvByContract(s) && NextAllowed(s, st).Some?
    requires !(st.Act? && (At(s, st.x).FFromStarting? || At(s, st.x).FFromRunning?))
    ensures var s' := Next(s, st).value; s'.phase.Finishing? || s'.phase.Finished? ==> s'.finisher.Some?
  {
    match st
    case Act(x) => ActFrame(s, x, At(s, x));
    case RunStep => RunPhase(s, s.runner);
    case _ =>
  }

  lemma RunPhase(s: State, r: Runner)
    requires RunnerStep(s, r).Some?
    ensures var s' := RunnerStep(s, r).value;
            && s'.finisher == s.finisher
            && (s'.phase.Finishing? || s'.phase.Finished? ==> s.phase.Finishing? || s.phase.Finished?)
  {
  }

  lemma KeepsCalls(s: State, st: Step)
    requires InvByContract(s) && NextAllowed(s, st).Some?
    requires !(st.Act? && (At(s, st.x).FFromStarting? || At(s, st.x).FFromRunning?))
    ensures CallsOk(Next(s, st).value)
  {
    match st
    case CallEnqueue(x, op, inner) => EnqueueKeepsCalls(s, x, op, inner);
    case CallFinish(x, inner) => FinishKeepsCalls(s, x, inner);
    case Act(x) => ActKeepsCalls(s, x);
    case PushFails(x) => assert CallOk(s, x); CallsStay(s, Next(s, st).value, x);
    case RunStep => RunKeepsCalls(s);
    case PopFails => LookKeepsCalls(s, Next(s, st).value);
    case SpuriousWake => LookKeepsCalls(s, Next(s, st).value);
  }

  lemma LookKeepsCalls(s: State, s': State)
    requires CallsOk(s) && s' == Run(s, s'.runner) && (Closing(s'.runner) ==> Closing(s.runner))
    ensures CallsOk(s')
  {
    forall y ensures CallOk(s', y) { assert CallOk(s, y); }
  }

  lemma KeepsContract(s: State, st: Step)
    requires InvByContract(s) && NextAllowed(s, st).Some?
    ensures InvByContract(Next(s, st).value)
  {
    if st.Act? && (At(s, st.x).FFromStarting? || At(s, st.x).FFromRunning?) {
      PublishKeepsCalls(s, st.x);
    } else {
      Keeps(s, st);
      PhaseByContract(s, st);
      KeepsCalls(s, st);
      if Next(s, st).value.runner.Close? { CloseFindsNothing(s, st); }
    }
  }

  ghost predicate ReachableByContract(s: State) { exists steps :: Exec(NextAllowed, INIT, steps) == Some(s) }

  lemma ContractHolds(s: State)
    requires ReachableByContract(s)
    ensures InvByContract(s)
  {
    var steps :| Exec(NextAllowed, INIT, steps) == Some(s);
    forall y, st | InvByContract(y) && NextAllowed(y, st).Some? ensures InvByContract(NextAllowed(y, st).value) {
      KeepsContract(y, st);
    }
    Preserved(NextAllowed, InvByContract, INIT, steps);
  }

  // ---------- what the contract buys

  /** When run returns, nobody is inside the loop, the stack is closed, the state is finished and all work is done. */
  lemma SafeToDestroy(s: State, y: Act)
    requires ReachableByContract(s) && s.runner.Returned?
    ensures s.producers == 0 && At(s, y).Idle?
    ensures s.head.Sealed? && s.phase.Finished? && s.mutex.Free? && s.waiting == 0
    ensures s.executed == s.pushed
  {
    ContractHolds(s);
    forall x ensures At(s, x).Idle? && x !in s.inside && s.mutex != ByAct(x) { assert CallOk(s, x) && PcOk(s, x); }
    assert s.inside == {};
    assert s.executed + s.batch + Reversed(s.stack) == s.executed;
  }

  /** And nothing touches the loop ever after. */
  lemma NothingHappensAfter(s: State, st: Step)
    requires ReachableByContract(s) && s.runner.Returned?
    ensures NextAllowed(s, st) == None
  {
    ContractHolds(s);
    if !st.RunStep? && !st.PopFails? { OnlyTheRunner(s, st); }
  }

  /** No operation is refused, no finish request is refused, the close never fails: no assertion of the loop fails. */
  lemma NothingRefused(s: State, x: Act)
    requires ReachableByContract(s)
    ensures At(s, x).ETry? ==> !At(s, x).seen.Sealed?
    ensures At(s, x).FFromStarting? ==> s.phase.Starting? || s.phase.Running?
    ensures At(s, x).FFromRunning? ==> s.phase.Running?
    ensures s.runner.NotRunning? ==> s.phase.Starting? || s.phase.Finishing?
    ensures s.runner.Close? ==> s.head.Nil?
    ensures s.runner.Finish? ==> s.phase.Finishing?
  {
    ContractHolds(s);
    assert CallOk(s, x) && PcOk(s, x);
  }
}
