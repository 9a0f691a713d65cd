/** What run_loop promises: no lost wake-up, every accepted operation executed once and in order, a safe shutdown. */
module RunLoopTheorems {
  import opened Links
  import opened Lists
  import opened Runs
  import opened RunLoop
  import opened RunLoopInv

  // ---------- sleeping and waking

  /** While the runner sleeps, or is about to, work or a finish request always has a notification on its way. */
  lemma NoLostWakeup(s: State)
    requires Reachable(s) && (s.runner.Park? || s.runner.Asleep?)
    ensures s.waiting == 1
    ensures (s.head == Nil && !s.phase.Finishing?) || exists x :: Signals(At(s, x))
  {
    InvHolds(s);
  }

  /** A notification on its way is not dropped: it takes the mutex, and then the runner is awake. */
  lemma NotificationArrives(s: State, x: Act)
    requires Reachable(s) && s.runner.Asleep? && Signals(At(s, x))
    ensures At(s, x).WLoad? ==> Next(s, Act(x)) == Some(Go(s, x, WLock))
    ensures At(s, x).WNotify? ==> Next(s, Act(x)).Some? && Next(s, Act(x)).value.runner == Woken
    ensures At(s, x).WLock? ==> if s.mutex.Free? then Next(s, Act(x)) == Some(Go(s.(mutex := ByAct(x)), x, WNotify))
                                else s.mutex.ByAct? && s.mutex.x != x && HoldsMutex(At(s, s.mutex.x))
  {
    InvHolds(s);
    assert PcOk(s, x);
    if s.mutex.ByAct? { assert PcOk(s, s.mutex.x); }
  }

  lemma NobodySleepsOnWork(s: State)
    requires Reachable(s) && s.runner.Asleep? && forall x :: At(s, x).Idle?
    ensures s.head == Nil && s.stack == [] && s.phase.Running? && s.executed == s.pushed
  {
    InvHolds(s);
    assert s.executed + s.batch == s.executed && s.executed + Reversed(s.stack) == s.executed;
  }

  /** Where the runner is between a failed close and its next look at the queue, and how many steps it has left. */
  function StepsToPop(r: Runner): nat {
    match r
    case Lock => 6
    case Register => 5
    case HasWork => 4
    case IsFinishing => 3
    case Unregister => 2
    case Unlock => 1
    case _ => 0
  }

  /** After a finish request, whatever the others do, the runner does not park on its way back to the queue. */
  lemma RetriesAwake(s: State, st: Step)
    requires Inv(s) && s.phase.Finishing? && StepsToPop(s.runner) > 0 && Next(s, st).Some?
    ensures var s' := Next(s, st).value;
            && s'.phase.Finishing?
            && (if st.RunStep?
                then StepsToPop(s'.runner) < StepsToPop(s.runner) && (StepsToPop(s'.runner) == 0 ==> s'.runner.Pop?)
                else s'.runner == s.runner)
  {
    if st.RunStep? { RetriesInPhase(s, s.runner); RetriesCloser(s, s.runner); } else { RetriesOtherStep(s, st); }
  }

  lemma RetriesInPhase(s: State, r: Runner)
    requires s.phase.Finishing? && StepsToPop(r) > 0 && RunnerStep(s, r).Some?
    ensures RunnerStep(s, r).value.phase.Finishing?
  {
  }

  lemma RetriesCloser(s: State, r: Runner)
    requires s.phase.Finishing? && StepsToPop(r) > 0 && RunnerStep(s, r).Some?
    ensures var r' := RunnerStep(s, r).value.runner;
            StepsToPop(r') < StepsToPop(r) && (StepsToPop(r') == 0 ==> r'.Pop?)
  {
  }

  lemma RetriesOtherStep(s: State, st: Step)
    requires Inv(s) && s.phase.Finishing? && StepsToPop(s.runner) > 0 && Next(s, st).Some? && !st.RunStep?
    ensures Next(s, st).value.phase.Finishing? && Next(s, st).value.runner == s.runner
  {
    if st.Act? { RetriesAct(s, st.x, At(s, st.x)); }
  }

  lemma RetriesAct(s: State, x: Act, pc: Pc)
    requires s.phase.Finishing? && !s.runner.Asleep? && ActStep(s, x, pc).Some?
    ensures ActStep(s, x, pc).value.phase.Finishing? && ActStep(s, x, pc).value.runner == s.runner
  {
  }

  function RunSteps(steps: seq<Step>): nat {
    if steps == [] then 0 else RunSteps(steps[1..]) + (if steps[0].RunStep? then 1 else 0)
  }

  ghost predicate PopsWithin(s: State, steps: seq<Step>) {
    exists k :: 0 <= k <= |steps| && Exec(Next, s, steps[..k]).Some? && Exec(Next, s, steps[..k]).value.runner.Pop?
  }

  lemma PopsLater(s: State, steps: seq<Step>)
    requires steps != [] && Next(s, steps[0]).Some? && PopsWithin(Next(s, steps[0]).value, steps[1..])
    ensures PopsWithin(s, steps)
  {
    var s1 := Next(s, steps[0]).value;
    var k :| 0 <= k <= |steps[1..]| && Exec(Next, s1, steps[1..][..k]).Some? &&
      Exec(Next, s1, steps[1..][..k]).value.runner.Pop?;
    assert steps[..k + 1][1..] == steps[1..][..k];
    assert Exec(Next, s, steps[..k + 1]) == Exec(Next, s1, steps[1..][..k]);
  }

  lemma {:induction false} RetryReachesPop(s: State, steps: seq<Step>)
    requires Inv(s) && s.phase.Finishing? && StepsToPop(s.runner) > 0
    requires Exec(Next, s, steps).Some? && RunSteps(steps) >= StepsToPop(s.runner)
    ensures PopsWithin(s, steps)
    decreases |steps|
  {
    var s1 := Next(s, steps[0]).value;
    RetriesAwake(s, steps[0]);
    Keeps(s, steps[0]);
    if StepsToPop(s1.runner) == 0 {
      assert Exec(Next, s1, steps[1..][..0]) == Some(s1);
      assert PopsWithin(s1, steps[1..]);
    } else {
      RetryReachesPop(s1, steps[1..]);
    }
    PopsLater(s, steps);
  }

  /** A close that fails, because work came in, is not the beginning of a permanent sleep. */
  lemma FailedCloseRetries(s: State, steps: seq<Step>)
    requires Reachable(s) && s.runner.Close? && !s.head.Nil?
    requires Exec(Next, s, [RunStep] + steps).Some? && RunSteps(steps) >= 6
    ensures PopsWithin(Next(s, RunStep).value, steps)
  {
    InvHolds(s);
    Keeps(s, RunStep);
    assert ([RunStep] + steps)[1..] == steps;
    RetryReachesPop(Next(s, RunStep).value, steps);
  }

  // ---------- order

  /** At every moment, what was accepted is what was executed, then what is about to be, then the stack upside down. */
  lemma FirstInFirstOut(s: State)
    requires Reachable(s)
    ensures s.pushed == s.executed + s.batch + Reversed(s.stack)
    ensures s.executed <= s.pushed && NoDup(s.stack + s.batch)
  {
    InvHolds(s);
    assert s.pushed == s.executed + (s.batch + Reversed(s.stack));
  }

  /** The list hanging off `head_` is the stack, whatever was popped and pushed again since a producer read `head_`. */
  lemma StackIsLinked(s: State, i: nat)
    requires Reachable(s) && i < |s.stack|
    ensures s.head == Node(s.stack[0])
    ensures NextOf(s, s.stack[i]) == (if i + 1 < |s.stack| then Node(s.stack[i + 1]) else Nil)
  {
    InvHolds(s);
  }

  /** Only a winning exchange of enqueue accepts an operation, and only the head of the batch is executed. */
  lemma AcceptsAndExecutes(s: State, st: Step)
    requires Next(s, st).Some?
    ensures var s' := Next(s, st).value;
            && (s'.pushed != s.pushed ==> st.Act? && At(s, st.x).ETry? && s'.pushed == s.pushed + [At(s, st.x).op])
            && (s'.executed != s.executed ==> st.RunStep? && s.batch != [] && s'.executed == s.executed + [s.batch[0]])
  {
    match st
    case Act(x) => ActAccepts(s, x, At(s, x));
    case RunStep => RunnerExecutes(s, s.runner);
    case _ =>
  }

  lemma ActAccepts(s: State, x: Act, pc: Pc)
    requires ActStep(s, x, pc).Some?
    ensures var s' := ActStep(s, x, pc).value;
            s'.executed == s.executed && (s'.pushed == s.pushed || (pc.ETry? && s'.pushed == s.pushed + [pc.op]))
  {
  }

  lemma RunnerExecutes(s: State, r: Runner)
    requires RunnerStep(s, r).Some?
    ensures var s' := RunnerStep(s, r).value;
            && s'.pushed == s.pushed
            && (s'.executed == s.executed || (s.batch != [] && s'.executed == s.executed + [s.batch[0]]))
  {
  }

  /** When run returns, it has executed everything that was ever accepted, and nothing will be accepted again. */
  lemma NothingLeftBehind(s: State, steps: seq<Step>)
    requires Reachable(s) && s.runner.Returned? && Exec(Next, s, steps).Some?
    ensures s.executed == s.pushed && Exec(Next, s, steps).value.pushed == s.pushed
  {
    InvHolds(s);
    assert s.executed + s.batch + Reversed(s.stack) == s.executed;
    var over := (y: State) => Inv(y) && y.runner.Returned? && y.pushed == s.pushed;
    forall y, st | over(y) && Next(y, st).Some? ensures over(Next(y, st).value) {
      Keeps(y, st);
      AcceptsNothing(y, st);
    }
    Preserved(Next, over, s, steps);
  }

  lemma AcceptsNothing(s: State, st: Step)
    requires Inv(s) && s.runner.Returned? && Next(s, st).Some?
    ensures Next(s, st).value.runner.Returned? && Next(s, st).value.pushed == s.pushed
  {
  }
}
