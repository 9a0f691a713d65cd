/** What enqueue and finish have done when they return, that every call of enqueue is executed, and that nobody is held
    up: a call that is left alone returns, and the runner left alone executes everything and returns or sleeps. */
module RunLoopCalls {
  import opened Links
  import opened Lists
  import opened Runs
  import opened RunLoop
  import opened RunLoopInv
  import opened RunLoopTheorems
  import opened RunLoopShutdown

  // ---------- an enqueue ends accepted

  /** A call of enqueue that has published, or been turned away, at the exchange. */
  lemma ExchangeEnds(s: State, x: Act, pc: Pc)
    requires OpOfPc(pc).Some? && ActStep(s, x, pc).Some? && (pc.ETry? && pc.seen.Sealed? ==> s.head.Sealed?)
    ensures var s', op := ActStep(s, x, pc).value, OpOfPc(pc).value;
            if OpOfPc(At(s', x)) == Some(op) then s'.pushed == s.pushed
            else s'.pushed == s.pushed + [op] || (s.head.Sealed? && s'.pushed == s.pushed)
  {
  }

  lemma RunKeepsActs(s: State, r: Runner)
    requires RunnerStep(s, r).Some?
    ensures RunnerStep(s, r).value.acts == s.acts
  {
  }

  lemma ActMovesAlone(s: State, x: Act, pc: Pc)
    requires ActStep(s, x, pc).Some?
    ensures forall y :: y != x ==> At(ActStep(s, x, pc).value, y) == At(s, y)
  {
  }

  /** An activation of enqueue goes on with its operation until that is accepted, or the stack is sealed. */
  lemma EnqueueEnds(s: State, st: Step, x: Act)
    requires Inv(s) && Next(s, st).Some? && OpOfPc(At(s, x)).Some?
    ensures var s', op := Next(s, st).value, OpOfPc(At(s, x)).value;
            OpOfPc(At(s', x)) == Some(op) || (st == Act(x) && (s'.pushed == s.pushed + [op] || s.head.Sealed?))
  {
    assert PcOk(s, x);
    match st
    case Act(y) => if y == x { ExchangeEnds(s, x, At(s, x)); } else { ActMovesAlone(s, y, At(s, y)); }
    case RunStep => RunKeepsActs(s, s.runner);
    case _ =>
  }

  // ---------- every call of enqueue counts

  /** An operation on its way is with the activation that pushes it. */
  ghost predicate PushingOk(s: State, op: Op) {
    OpOf(s, op).Pushing? ==> OpOfPc(At(s, OpOf(s, op).act)) == Some(op)
  }

  function Pending(s: State, op: Op): nat { if OpOf(s, op).Pushing? then 1 else 0 }

  /** How often a run calls enqueue with an operation. */
  function Enqueues(steps: seq<Step>, op: Op): nat {
    if steps == [] then 0
    else (if steps[0].CallEnqueue? && steps[0].op == op then 1 else 0) + Enqueues(steps[1..], op)
  }

  /** Accepted and pending together have grown by `n`. */
  ghost predicate Counted(s: State, s': State, op: Op, n: nat) {
    && PushingOk(s', op)
    && multiset(s'.pushed)[op] + Pending(s', op) == multiset(s.pushed)[op] + Pending(s, op) + n
  }

  lemma ActCounts(s: State, x: Act, pc: Pc, op: Op)
    requires pc == At(s, x) && PcOk(s, x) && PushingOk(s, op) && ActStep(s, x, pc).Some?
    requires !(pc.ETry? && pc.seen.Sealed?)
    ensures Counted(s, ActStep(s, x, pc).value, op, 0)
  {
    ActMovesAlone(s, x, pc);
    if pc.ETry? && s.head == pc.seen {
      PushCounts(s, x, pc, op);
    } else {
      ActKeepsOps(s, x, pc);
      OtherCounts(s, ActStep(s, x, pc).value, x, op);
    }
  }

  lemma ActKeepsOps(s: State, x: Act, pc: Pc)
    requires pc == At(s, x) && ActStep(s, x, pc).Some? && !(pc.ETry? && (pc.seen.Sealed? || s.head == pc.seen))
    ensures var s' := ActStep(s, x, pc).value;
            s'.ops == s.ops && s'.pushed == s.pushed && (OpOfPc(pc).Some? ==> OpOfPc(At(s', x)) == OpOfPc(pc))
  {
  }

  lemma PushCounts(s: State, x: Act, pc: Pc, op: Op)
    requires pc == At(s, x) && PcOk(s, x) && PushingOk(s, op) && pc.ETry? && s.head == pc.seen && !pc.seen.Sealed?
    ensures Counted(s, ActStep(s, x, pc).value, op, 0)
  {
  }

  lemma RunCounts(s: State, r: Runner, op: Op)
    requires RunnerStep(s, r).Some? && PushingOk(s, op)
    requires r.Execute? && s.batch != [] ==> OpOf(s, s.batch[0]).Queued?
    ensures Counted(s, RunnerStep(s, r).value, op, 0)
  {
    RunKeepsActs(s, r);
    RunKeepsOps(s, r, op);
  }

  lemma RunKeepsOps(s: State, r: Runner, op: Op)
    requires RunnerStep(s, r).Some?
    requires r.Execute? && s.batch != [] ==> OpOf(s, s.batch[0]).Queued?
    ensures var s' := RunnerStep(s, r).value;
            s'.pushed == s.pushed && (OpOf(s', op) == OpOf(s, op) || (OpOf(s, op).Queued? && OpOf(s', op).Unqueued?))
  {
  }

  lemma CallCounts(s: State, x: Act, o: Op, inner: bool, op: Op)
    requires PushingOk(s, op) && Next(s, CallEnqueue(x, o, inner)).Some?
    ensures Counted(s, Next(s, CallEnqueue(x, o, inner)).value, op, if o == op then 1 else 0)
  {
  }

  /** A step that leaves operations and acceptance alone, and moves only calls that push nothing. */
  lemma OtherCounts(s: State, s': State, x: Act, op: Op)
    requires PushingOk(s, op) && s'.ops == s.ops && s'.pushed == s.pushed
    requires forall y :: y != x ==> At(s', y) == At(s, y)
    requires OpOfPc(At(s, x)).Some? ==> OpOfPc(At(s', x)) == OpOfPc(At(s, x))
    ensures Counted(s, s', op, 0)
  {
  }

  /** Accepted and pending together grow by one with every call of enqueue. */
  lemma StepCounts(s: State, st: Step, op: Op)
    requires InvByContract(s) && NextAllowed(s, st).Some? && PushingOk(s, op)
    ensures Counted(s, Next(s, st).value, op, Enqueues([st], op))
  {
    match st
    case Act(x) => Refuses(s, x); assert PcOk(s, x); ActCounts(s, x, At(s, x), op);
    case RunStep => BatchIsQueued(s); RunCounts(s, s.runner, op);
    case CallEnqueue(x, o, inner) => CallCounts(s, x, o, inner, op);
    case _ => OtherSteps(s, st, op);
  }

  lemma OtherSteps(s: State, st: Step, op: Op)
    requires PushingOk(s, op) && Next(s, st).Some?
    requires st.CallFinish? || st.PushFails? || st.PopFails? || st.SpuriousWake?
    ensures Counted(s, Next(s, st).value, op, 0)
  {
    OtherCounts(s, Next(s, st).value, if st.CallFinish? || st.PushFails? then st.x else 0, op);
  }

  lemma CountsAdd(s: State, s1: State, s2: State, op: Op, n: nat, m: nat)
    requires Counted(s, s1, op, n) && Counted(s1, s2, op, m)
    ensures Counted(s, s2, op, n + m)
  {
  }

  lemma BatchIsQueued(s: State)
    requires Inv(s)
    ensures s.batch != [] ==> OpOf(s, s.batch[0]).Queued?
  {
    assert s.batch != [] ==> s.batch[0] in s.stack + s.batch;
  }

  lemma Refuses(s: State, x: Act)
    requires InvByContract(s)
    ensures !(At(s, x).ETry? && At(s, x).seen.Sealed?)
  {
    assert CallOk(s, x) && PcOk(s, x);
  }

  lemma StepKeepsCount(s: State, st: Step, op: Op)
    requires InvByContract(s) && PushingOk(s, op) && NextAllowed(s, st).Some?
    ensures InvByContract(NextAllowed(s, st).value)
    ensures Counted(s, NextAllowed(s, st).value, op, Enqueues([st], op))
  {
    KeepsContract(s, st);
    StepCounts(s, st, op);
  }

  lemma EnqueuesFrom(steps: seq<Step>, op: Op)
    requires steps != []
    ensures Enqueues(steps, op) == Enqueues([steps[0]], op) + Enqueues(steps[1..], op)
  {
  }

  lemma {:induction false} RunsCount(s: State, steps: seq<Step>, op: Op)
    requires InvByContract(s) && PushingOk(s, op) && Exec(NextAllowed, s, steps).Some?
    ensures InvByContract(Exec(NextAllowed, s, steps).value)
    ensures Counted(s, Exec(NextAllowed, s, steps).value, op, Enqueues(steps, op))
    decreases |steps|, 1
  {
    if steps == [] {
    } else {
      StepKeepsCount(s, steps[0], op);
      EnqueuesFrom(steps, op);
      RestCounts(s, NextAllowed(s, steps[0]).value, steps, op);
    }
  }

  lemma {:induction false} RestCounts(s: State, s1: State, steps: seq<Step>, op: Op)
    requires steps != [] && NextAllowed(s, steps[0]) == Some(s1) && Exec(NextAllowed, s, steps).Some?
    requires InvByContract(s1) && Counted(s, s1, op, Enqueues([steps[0]], op))
    ensures InvByContract(Exec(NextAllowed, s, steps).value)
    ensures Counted(s, Exec(NextAllowed, s, steps).value, op, Enqueues([steps[0]], op) + Enqueues(steps[1..], op))
    decreases |steps|, 0
  {
    RunsCount(s1, steps[1..], op);
    CountsAdd(s, s1, Exec(NextAllowed, s1, steps[1..]).value, op, Enqueues([steps[0]], op), Enqueues(steps[1..], op));
  }

  /** Once the calls have returned, an operation has been accepted as often as enqueue was called with it. */
  lemma EveryEnqueueIsAccepted(s: State, steps: seq<Step>, op: Op)
    requires Exec(NextAllowed, INIT, steps) == Some(s)
    ensures multiset(s.pushed)[op] <= Enqueues(steps, op) <= multiset(s.pushed)[op] + 1
    ensures (forall x :: OpOfPc(At(s, x)) != Some(op)) ==> multiset(s.pushed)[op] == Enqueues(steps, op)
  {
    assert InvByContract(INIT) by { Starts(); }
    RunsCount(INIT, steps, op);
  }

  /** When run has returned, every operation has been executed as often as enqueue was called with it. */
  lemma EveryEnqueueIsExecuted(s: State, steps: seq<Step>, op: Op)
    requires Exec(NextAllowed, INIT, steps) == Some(s) && s.runner.Returned?
    ensures multiset(s.executed)[op] == Enqueues(steps, op)
  {
    assert ReachableByContract(s);
    forall x ensures OpOfPc(At(s, x)) != Some(op) { SafeToDestroy(s, x); }
    SafeToDestroy(s, 0);
    EveryEnqueueIsAccepted(s, steps, op);
  }

  // ---------- a finish is heard

  predicate FinishHeard(p: Phase) { p.Finishing? || p.Finished? }

  /** A call of finish is under way, or has been heard. */
  ghost predicate Hears(s: State, x: Act) { InFinish(At(s, x)) || FinishHeard(s.phase) }

  lemma StaysHeard(s: State, st: Step, x: Act)
    requires InvByContract(s) && Hears(s, x) && NextAllowed(s, st).Some?
    ensures Hears(Next(s, st).value, x)
  {
    if FinishHeard(s.phase) {
      HeardForGood(s, st);
    } else {
      assert CallOk(s, x);
      match st
      case Act(y) => if y == x { ActHears(s, x, At(s, x)); } else { ActMovesAlone(s, y, At(s, y)); }
      case RunStep => RunKeepsActs(s, s.runner);
      case _ =>
    }
  }

  lemma HeardForGood(s: State, st: Step)
    requires FinishHeard(s.phase) && Next(s, st).Some?
    ensures FinishHeard(Next(s, st).value.phase)
  {
    match st
    case Act(x) => ActKeepsPhase(s, x, At(s, x));
    case RunStep => RunKeepsPhase(s, s.runner);
    case _ =>
  }

  lemma ActKeepsPhase(s: State, x: Act, pc: Pc)
    requires FinishHeard(s.phase) && ActStep(s, x, pc).Some?
    ensures FinishHeard(ActStep(s, x, pc).value.phase)
  {
  }

  lemma RunKeepsPhase(s: State, r: Runner)
    requires RunnerStep(s, r).Some? && FinishHeard(s.phase)
    ensures FinishHeard(RunnerStep(s, r).value.phase)
  {
  }

  lemma ActHears(s: State, x: Act, pc: Pc)
    requires ActStep(s, x, pc).Some? && InFinish(pc)
    requires s.phase.Running? || (s.phase.Starting? && !pc.FFromRunning?)
    ensures Hears(ActStep(s, x, pc).value, x)
  {
  }

  /** When finish has returned, the loop is finishing, or has finished. */
  lemma FinishIsHeard(s: State, x: Act, inner: bool, steps: seq<Step>)
    requires ReachableByContract(s) && NextAllowed(s, CallFinish(x, inner)).Some?
    requires Exec(NextAllowed, Next(s, CallFinish(x, inner)).value, steps).Some?
    requires At(Exec(NextAllowed, Next(s, CallFinish(x, inner)).value, steps).value, x).Idle?
    ensures FinishHeard(Exec(NextAllowed, Next(s, CallFinish(x, inner)).value, steps).value.phase)
  {
    ContractHolds(s);
    var s1 := Next(s, CallFinish(x, inner)).value;
    KeepsContract(s, CallFinish(x, inner));
    var hears := (y: State) => InvByContract(y) && Hears(y, x);
    forall y, st | hears(y) && NextAllowed(y, st).Some? ensures hears(NextAllowed(y, st).value) {
      KeepsContract(y, st);
      StaysHeard(y, st, x);
    }
    Preserved(NextAllowed, hears, s1, steps);
  }

  // ---------- a call that is left alone returns

  /** How many steps a call has left when nobody interferes. A head seen before it changed costs a reload. */
  function Left(s: State, pc: Pc): nat {
    match pc
    case Idle => 0
    case EEnter(_) => 9
    case ELoad(_) => 8
    case ETry(_, seen) => if seen == s.head then 6 else 7
    case FEnter => 8
    case FFromStarting => 7
    case FFromRunning => 6
    case WLoad => 5
    case WLock => 4
    case WNotify => 3
    case WUnlock => 2
    case Leave => 1
  }

  lemma SoloActs(s: State, x: Act, pc: Pc)
    requires pc == At(s, x) && !pc.Idle? && (pc.WLock? ==> s.mutex.Free?)
    ensures ActStep(s, x, pc).Some?
    ensures var s' := ActStep(s, x, pc).value;
            && Left(s', At(s', x)) < Left(s, pc)
            && (s'.mutex == s.mutex || s'.mutex == ByAct(x) || s'.mutex.Free?)
  {
    match pc
    case ETry(_, _) => SoloTries(s, x, pc);
    case _ =>
  }

  lemma SoloTries(s: State, x: Act, pc: Pc)
    requires pc == At(s, x) && pc.ETry?
    ensures ActStep(s, x, pc).Some?
    ensures var s' := ActStep(s, x, pc).value; Left(s', At(s', x)) < Left(s, pc) && s'.mutex == s.mutex
  {
    if !pc.seen.Sealed? && pc.seen != s.head {
      assert ActStep(s, x, pc) == Some(Go(s.(next := s.next[pc.op := pc.seen]), x, ETry(pc.op, s.head)));
    }
  }

  /** A call of enqueue or finish returns within nine steps of its own if nobody interferes: it waits for nothing but
      the mutex. */
  lemma {:induction false} AloneReturns(s: State, x: Act) returns (steps: seq<Step>)
    requires Inv(s) && (s.mutex.Free? || s.mutex == ByAct(x))
    ensures |steps| <= Left(s, At(s, x)) && forall st :: st in steps ==> st == Act(x)
    ensures Exec(Next, s, steps).Some? && At(Exec(Next, s, steps).value, x).Idle?
    decreases Left(s, At(s, x))
  {
    if At(s, x).Idle? {
      steps := [];
    } else {
      assert PcOk(s, x);
      SoloActs(s, x, At(s, x));
      Keeps(s, Act(x));
      var rest := AloneReturns(Next(s, Act(x)).value, x);
      steps := [Act(x)] + rest;
      assert steps[1..] == rest;
    }
  }

  /** Whoever holds the mutex can go on. */
  lemma HolderMoves(s: State)
    requires Reachable(s) && !s.mutex.Free?
    ensures Next(s, if s.mutex.ByAct? then Act(s.mutex.x) else RunStep).Some?
  {
    InvHolds(s);
    if s.mutex.ByAct? { CallerMoves(s, s.mutex.x); } else { RunnerMovesOn(s, s.runner); }
  }

  lemma CallerMoves(s: State, x: Act)
    requires ActsOk(s) && s.mutex == ByAct(x)
    ensures Next(s, Act(x)).Some?
  {
    assert PcOk(s, x);
  }

  lemma RunnerMovesOn(s: State, r: Runner)
    requires RunnerHoldsMutex(r)
    ensures RunnerStep(s, r).Some?
  {
  }

  // ---------- the runner left alone settles

  /** How many steps the runner has left when nobody else is under way: to the end of run after a finish request, to
      sleep otherwise. */
  function ToSettle(s: State): nat {
    12 * |s.stack| + 2 * |s.batch|
    + (if s.stack != [] then ToPop(s.runner, s.head)
       else if s.phase.Finishing? then ToReturn(s.runner)
       else ToSleep(s.runner))
  }

  /** With operations on the stack: to the exchange that takes them. */
  function ToPop(r: Runner, head: Ptr): nat {
    match r
    case NotRunning => 4
    case Pop => 3
    case PopTry(seen) => if seen == head then 1 else 2
    case Unlock => 4
    case Unregister => 5
    case HasWork => 6
    case IsFinishing => 6
    case Register => 7
    case Woken => 7
    case Lock => 8
    case CheckFinishing => 9
    case Execute => 4
    case Executing => 5
    case LastTry(seen) => if seen == head then 1 else 2
    case LastPop => 3
    case AwaitProducers => 4
    case Close => 9
    case _ => 0
  }

  function ToReturn(r: Runner): nat {
    match r
    case Finish => 1
    case Close => 2
    case LastTry(_) => 3
    case LastPop => 4
    case AwaitProducers => 5
    case CheckFinishing => 6
    case PopTry(_) => 7
    case Pop => 8
    case NotRunning => 9
    case Unlock => 9
    case Execute => 9
    case Executing => 10
    case Unregister => 10
    case IsFinishing => 11
    case HasWork => 12
    case Register => 13
    case Woken => 13
    case Lock => 14
    case _ => 0
  }

  function ToSleep(r: Runner): nat {
    match r
    case Park => 1
    case IsFinishing => 2
    case HasWork => 3
    case Register => 4
    case Woken => 4
    case Lock => 5
    case CheckFinishing => 6
    case PopTry(_) => 7
    case Pop => 8
    case NotRunning => 9
    case Unlock => 9
    case Execute => 9
    case Executing => 10
    case Unregister => 10
    case _ => 0
  }

  /** Nobody but the runner is under way. */
  ghost predicate Quiet(s: State) { Inv(s) && s.nested.None? && forall x :: At(s, x).Idle? }

  predicate Settled(r: Runner) { r.Returned? || r.Asleep? }

  /** What the runner finds when nobody else is under way. */
  ghost predicate Free(s: State) {
    && RunnerOk(s) && s.nested.None? && s.producers == 0 && !s.mutex.ByAct?
    && (if s.head.Sealed? then s.stack == [] else s.head == PtrOf(s.stack))
    && (s.runner.IsFinishing? ==> s.stack == [])
    && (s.runner.Park? || s.runner.Asleep? ==> s.stack == [] && !s.phase.Finishing?)
  }

  lemma QuietIsFree(s: State)
    requires Quiet(s)
    ensures Free(s)
  {
    forall x ensures x !in s.inside && s.mutex != ByAct(x) && !Signals(At(s, x)) { assert PcOk(s, x); }
    assert s.inside == {};
  }

  /** A step of the runner alone leaves everybody else idle. */
  lemma StaysQuiet(s: State)
    requires Quiet(s) && Next(s, RunStep).Some?
    ensures Quiet(Next(s, RunStep).value)
  {
    var s' := Next(s, RunStep).value;
    Keeps(s, RunStep);
    RunKeepsActs(s, s.runner);
    RunKeepsNested(s, s.runner);
    forall x ensures At(s', x).Idle? { assert At(s, x).Idle?; }
  }

  lemma RunKeepsNested(s: State, r: Runner)
    requires RunnerStep(s, r).Some?
    ensures RunnerStep(s, r).value.nested == s.nested
  {
  }

  /** The runner takes what is on the stack. */
  lemma SoloTakes(s: State)
    requires Free(s) && (s.runner.PopTry? || s.runner.LastTry?) && s.head.Node?
    ensures ToSettle(RunnerStep(s, s.runner).value) < ToSettle(s)
  {
    ReversedIs(s.stack);
  }

  lemma SoloExecutes(s: State)
    requires Free(s) && (s.runner.Execute? || s.runner.Executing?)
    ensures RunnerStep(s, s.runner).Some? && ToSettle(RunnerStep(s, s.runner).value) < ToSettle(s)
  {
  }

  lemma SoloLooks(s: State)
    requires Free(s)
    requires s.runner.Pop? || s.runner.LastPop? || ((s.runner.PopTry? || s.runner.LastTry?) && !s.head.Node?)
    ensures RunnerStep(s, s.runner).Some? && ToSettle(RunnerStep(s, s.runner).value) < ToSettle(s)
  {
  }

  lemma SoloParks(s: State)
    requires Free(s)
    requires s.runner.HasWork? || s.runner.IsFinishing? || s.runner.Park? || s.runner.Lock? || s.runner.Register?
    ensures RunnerStep(s, s.runner).Some? && ToSettle(RunnerStep(s, s.runner).value) < ToSettle(s)
  {
  }

  lemma SoloElse(s: State)
    requires Free(s) && !Settled(s.runner)
    requires s.runner.NotRunning? || s.runner.CheckFinishing? || s.runner.AwaitProducers? || s.runner.Close?
          || s.runner.Finish?
    ensures RunnerStep(s, s.runner).Some? && ToSettle(RunnerStep(s, s.runner).value) < ToSettle(s)
  {
  }

  lemma SoloUnlocks(s: State)
    requires Free(s) && (s.runner.Woken? || s.runner.Unregister? || s.runner.Unlock?)
    ensures RunnerStep(s, s.runner).Some? && ToSettle(RunnerStep(s, s.runner).value) < ToSettle(s)
  {
  }

  lemma SoloRuns(s: State)
    requires Quiet(s) && !Settled(s.runner)
    ensures Next(s, RunStep).Some? && Quiet(Next(s, RunStep).value)
    ensures ToSettle(Next(s, RunStep).value) < ToSettle(s)
  {
    QuietIsFree(s);
    match s.runner {
      case PopTry(_) => if s.head.Node? { SoloTakes(s); } else { SoloLooks(s); }
      case LastTry(_) => if s.head.Node? { SoloTakes(s); } else { SoloLooks(s); }
      case Pop => SoloLooks(s);
      case LastPop => SoloLooks(s);
      case Execute => SoloExecutes(s);
      case Executing => SoloExecutes(s);
      case HasWork => SoloParks(s);
      case IsFinishing => SoloParks(s);
      case Park => SoloParks(s);
      case Lock => SoloParks(s);
      case Register => SoloParks(s);
      case Woken => SoloUnlocks(s);
      case Unregister => SoloUnlocks(s);
      case Unlock => SoloUnlocks(s);
      case _ => SoloElse(s);
    }
    StaysQuiet(s);
  }

  function Times(n: nat): seq<Step> { seq(n, _ => RunStep) }

  /** With nobody else under way, the runner executes everything that was accepted, and then it returns if finish was
      called, and sleeps if not. */
  lemma {:induction false} RunSettles(s: State) returns (n: nat)
    requires Quiet(s)
    ensures n <= ToSettle(s) && Exec(Next, s, Times(n)).Some?
    ensures var s' := Exec(Next, s, Times(n)).value;
            && s'.executed == s'.pushed
            && (if s'.runner.Returned? then s'.phase.Finished? else s'.runner.Asleep? && s'.phase.Running?)
            && (FinishHeard(s.phase) ==> s'.runner.Returned?)
    decreases ToSettle(s)
  {
    if Settled(s.runner) {
      n := 0;
      QuietIsFree(s);
      assert s.executed + s.batch + Reversed(s.stack) == s.executed;
    } else {
      SoloRuns(s);
      if FinishHeard(s.phase) { RunKeepsPhase(s, s.runner); }
      n := RunSettles(Next(s, RunStep).value);
      n := n + 1;
      assert Times(n)[1..] == Times(n - 1);
    }
  }
}
