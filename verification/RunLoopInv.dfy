/** Every step of the run loop keeps its invariant. */
module RunLoopInv {
  import opened Links
  import opened Lists
  import opened Runs
  import opened RunLoop

  /** What the activations other than `x` rely on. */
  ghost predicate ActsKept(s: State, s': State, x: Act) {
    && (forall y :: y != x ==> At(s', y) == At(s, y) && (y in s'.inside <==> y in s.inside))
    && (forall y :: y != x ==> (s'.mutex == ByAct(y) <==> s.mutex == ByAct(y)))
    && (forall op, y :: y != x && OpOf(s, op) == Pushing(y) ==> OpOf(s', op) == Pushing(y))
    && (s.head.Sealed? ==> s'.head.Sealed?)
  }

  lemma ActsStep(s: State, s': State, x: Act)
    requires ActsOk(s) && ActsKept(s, s', x) && PcOk(s', x) && s'.producers == |s'.inside|
    ensures ActsOk(s')
  {
    forall y ensures PcOk(s', y) { assert PcOk(s, y); }
  }

  lemma SignalStays(s: State, s': State, x: Act)
    requires SomeSignal(s) && (forall y :: y != x ==> At(s', y) == At(s, y))
    requires Signals(At(s, x)) ==> Signals(At(s', x))
    ensures SomeSignal(s')
  {
    var y :| Signals(At(s, y));
    assert Signals(At(s', y));
  }

  lemma StackStays(s: State, s': State)
    requires QueueOk(s) && forall op :: OpOf(s, op).Queued? ==> NextOf(s', op) == NextOf(s, op)
    ensures Linked(s'.next, s.stack)
  {
    forall op | op in s.stack ensures NextIn(s'.next, op) == NextIn(s.next, op) {
      assert op in s.stack + s.batch && NextOf(s', op) == NextOf(s, op);
    }
    LinkedStays(s.next, s'.next, s.stack);
  }

  /** A step of `x` that leaves queue and runner alone. */
  lemma PcOnly(s: State, s': State, x: Act)
    requires Inv(s)
    requires s' == s.(acts := s'.acts, producers := s'.producers, inside := s'.inside, mutex := s'.mutex,
                      ops := s'.ops, next := s'.next, finisher := s'.finisher)
    requires ActsKept(s, s', x) && PcOk(s', x) && s'.producers == |s'.inside|
    requires !At(s', x).Idle?
    requires Signals(At(s, x)) ==> Signals(At(s', x)) || !(s.runner.IsFinishing? || s.runner.Park? || s.runner.Asleep?)
    requires s'.mutex.ByRunner? == s.mutex.ByRunner?
    requires forall op :: OpOf(s, op).Queued? ==> OpOf(s', op).Queued? && NextOf(s', op) == NextOf(s, op)
    ensures Inv(s')
  {
    ActsStep(s, s', x);
    if SomeSignal(s) && (s.runner.IsFinishing? || s.runner.Park? || s.runner.Asleep?) { SignalStays(s, s', x); }
    StackStays(s, s');
  }

  lemma KeepsEnter(s: State, x: Act, pc: Pc)
    requires Inv(s) && (if At(s, x).EEnter? then pc == ELoad(At(s, x).op) else At(s, x).FEnter? && pc.FFromStarting?)
    ensures Inv(Go(Enter(s, x), x, pc))
  {
    assert PcOk(s, x);
    PcOnly(s, Go(Enter(s, x), x, pc), x);
  }

  lemma KeepsLoad(s: State, x: Act)
    requires Inv(s) && At(s, x).ELoad?
    ensures Inv(ActStep(s, x, At(s, x)).value)
  {
    assert PcOk(s, x);
    PcOnly(s, ActStep(s, x, At(s, x)).value, x);
  }

  lemma KeepsRejected(s: State, x: Act)
    requires Inv(s) && At(s, x).ETry? && At(s, x).seen.Sealed?
    ensures Inv(ActStep(s, x, At(s, x)).value)
  {
    assert PcOk(s, x);
    PcOnly(s, ActStep(s, x, At(s, x)).value, x);
  }

  lemma KeepsReload(s: State, x: Act)
    requires Inv(s) && At(s, x).ETry? && !At(s, x).seen.Sealed?
    ensures Inv(Go(s.(next := s.next[At(s, x).op := At(s, x).seen]), x, ETry(At(s, x).op, s.head)))
  {
    assert PcOk(s, x);
    PcOnly(s, Go(s.(next := s.next[At(s, x).op := At(s, x).seen]), x, ETry(At(s, x).op, s.head)), x);
  }

  lemma PushedQueue(s: State, op: Op, s': State)
    requires QueueOk(s) && InOrder(s) && OpOf(s, op) != Queued && !s.head.Sealed?
    requires s'.head == Node(op) && s'.stack == [op] + s.stack && s'.batch == s.batch && s'.executed == s.executed
    requires s'.next == s.next[op := s.head] && s'.ops == s.ops[op := Queued] && s'.pushed == s.pushed + [op]
    ensures QueueOk(s') && InOrder(s')
  {
    assert op !in s.stack + s.batch;
    LinkedPushed(s.next, s.stack, op);
    assert s'.stack + s'.batch == [op] + (s.stack + s.batch);
    assert s'.pushed == s'.executed + s'.batch + Reversed(s'.stack);
  }

  lemma KeepsPush(s: State, x: Act)
    requires Inv(s) && At(s, x).ETry? && !At(s, x).seen.Sealed? && s.head == At(s, x).seen
    ensures Inv(ActStep(s, x, At(s, x)).value)
  {
    var s' := ActStep(s, x, At(s, x)).value;
    assert PcOk(s, x);
    PushedQueue(s, At(s, x).op, s');
    ActsStep(s, s', x);
    assert Signals(At(s', x));
  }

  lemma Publishes(s: State, x: Act)
    requires Inv(s) && (At(s, x).FFromStarting? || At(s, x).FFromRunning?) && (s.phase.Starting? || s.phase.Running?)
    ensures Inv(Go(s.(phase := Finishing), x, WLoad))
  {
    var s' := Go(s.(phase := Finishing), x, WLoad);
    assert PcOk(s, x);
    ActsStep(s, s', x);
    LinkedStays(s.next, s'.next, s.stack);
    assert Signals(At(s', x));
  }

  lemma Proceeds(s: State, x: Act, pc: Pc)
    requires Inv(s) && (At(s, x).FFromStarting? || At(s, x).FFromRunning?) && (pc.FFromRunning? || pc.Leave?)
    ensures Inv(Go(s, x, pc))
  {
    assert PcOk(s, x);
    PcOnly(s, Go(s, x, pc), x);
  }

  lemma KeepsFinish(s: State, x: Act)
    requires Inv(s) && (At(s, x).FFromStarting? || At(s, x).FFromRunning?)
    ensures Inv(ActStep(s, x, At(s, x)).value)
  {
    if ActStep(s, x, At(s, x)).value.phase != s.phase { Publishes(s, x); }
    else { Proceeds(s, x, At(ActStep(s, x, At(s, x)).value, x)); }
  }

  lemma KeepsWakeLoad(s: State, x: Act)
    requires Inv(s) && At(s, x).WLoad?
    ensures Inv(ActStep(s, x, At(s, x)).value)
  {
    assert PcOk(s, x);
    PcOnly(s, ActStep(s, x, At(s, x)).value, x);
  }

  lemma KeepsWakeLock(s: State, x: Act)
    requires Inv(s) && At(s, x).WLock? && s.mutex.Free?
    ensures Inv(ActStep(s, x, At(s, x)).value)
  {
    assert PcOk(s, x);
    PcOnly(s, ActStep(s, x, At(s, x)).value, x);
  }

  lemma KeepsNotify(s: State, x: Act)
    requires Inv(s) && At(s, x).WNotify?
    ensures Inv(ActStep(s, x, At(s, x)).value)
  {
    var woken := if s.runner.Asleep? then Run(s, Woken) else s;
    if s.runner.Asleep? { KeepsWoken(s); }
    KeepsNotified(woken, x);
  }

  lemma KeepsWoken(s: State)
    requires Inv(s) && s.runner.Asleep?
    ensures Inv(Run(s, Woken))
  {
    RunnerMoves(s, Run(s, Woken));
  }

  lemma KeepsNotified(s: State, x: Act)
    requires Inv(s) && At(s, x).WNotify? && !s.runner.Asleep?
    ensures Inv(Go(s, x, WUnlock))
  {
    assert PcOk(s, x);
    PcOnly(s, Go(s, x, WUnlock), x);
  }

  lemma KeepsWakeUnlock(s: State, x: Act)
    requires Inv(s) && At(s, x).WUnlock?
    ensures Inv(ActStep(s, x, At(s, x)).value)
  {
    assert PcOk(s, x);
    PcOnly(s, ActStep(s, x, At(s, x)).value, x);
  }

  /** A step of `x`, or the start of one, that leaves the queue alone and the runner where it is. */
  lemma Elsewhere(s: State, s': State, x: Act)
    requires Inv(s)
    requires s' == s.(acts := s'.acts, producers := s'.producers, inside := s'.inside,
                      ops := s'.ops, nested := s'.nested, finisher := s'.finisher)
    requires ActsKept(s, s', x) && PcOk(s', x) && s'.producers == |s'.inside| && !Signals(At(s, x))
    requires s'.nested.Some? ==> s.runner.Executing? && !At(s', s'.nested.value).Idle?
    requires forall op :: OpOf(s, op).Queued? ==> OpOf(s', op).Queued?
    ensures Inv(s')
  {
    ActsStep(s, s', x);
    LinkedStays(s.next, s'.next, s.stack);
    if SomeSignal(s) { SignalStays(s, s', x); }
  }

  lemma KeepsLeave(s: State, x: Act)
    requires Inv(s) && At(s, x).Leave?
    ensures Inv(ActStep(s, x, At(s, x)).value)
  {
    assert PcOk(s, x);
    Elsewhere(s, ActStep(s, x, At(s, x)).value, x);
  }

  lemma KeepsAct(s: State, x: Act)
    requires Inv(s) && ActStep(s, x, At(s, x)).Some?
    ensures Inv(ActStep(s, x, At(s, x)).value)
  {
    match At(s, x)
    case EEnter(op) => KeepsEnter(s, x, ELoad(op));
    case FEnter => KeepsEnter(s, x, FFromStarting);
    case ELoad(_) => KeepsLoad(s, x);
    case ETry(_, seen) =>
      if seen.Sealed? { KeepsRejected(s, x); }
      else if s.head == seen { KeepsPush(s, x); }
      else { KeepsReload(s, x); }
    case FFromStarting => KeepsFinish(s, x);
    case FFromRunning => KeepsFinish(s, x);
    case WLoad => KeepsWakeLoad(s, x);
    case WLock => KeepsWakeLock(s, x);
    case WNotify => KeepsNotify(s, x);
    case WUnlock => KeepsWakeUnlock(s, x);
    case Leave => KeepsLeave(s, x);
  }

  lemma KeepsCallEnqueue(s: State, x: Act, op: Op, inner: bool)
    requires Inv(s) && Next(s, CallEnqueue(x, op, inner)).Some?
    ensures Inv(Next(s, CallEnqueue(x, op, inner)).value)
  {
    assert PcOk(s, x);
    Elsewhere(s, Next(s, CallEnqueue(x, op, inner)).value, x);
  }

  lemma KeepsCallFinish(s: State, x: Act, inner: bool)
    requires Inv(s) && Next(s, CallFinish(x, inner)).Some?
    ensures Inv(Next(s, CallFinish(x, inner)).value)
  {
    assert PcOk(s, x);
    Elsewhere(s, Next(s, CallFinish(x, inner)).value, x);
  }

  // ---------- the runner

  lemma ActsUnmoved(s: State, s': State)
    requires ActsOk(s) && s'.acts == s.acts && s'.inside == s.inside && s'.producers == s.producers
    requires forall y :: s'.mutex == ByAct(y) <==> s.mutex == ByAct(y)
    requires forall op, y :: OpOf(s, op) == Pushing(y) ==> OpOf(s', op) == Pushing(y)
    requires s.head.Sealed? ==> s'.head.Sealed?
    ensures ActsOk(s') && (SomeSignal(s) ==> SomeSignal(s'))
  {
    forall y ensures PcOk(s', y) { assert PcOk(s, y); }
    if SomeSignal(s) {
      var y :| Signals(At(s, y));
      assert Signals(At(s', y));
    }
  }

  /** A step of the runner that leaves the queue alone. */
  lemma RunnerMoves(s: State, s': State)
    requires Inv(s) && s' == s.(runner := s'.runner, phase := s'.phase, mutex := s'.mutex, waiting := s'.waiting)
    requires forall y :: s'.mutex == ByAct(y) <==> s.mutex == ByAct(y)
    requires RunnerOk(s')
    requires s'.runner.IsFinishing? ==> s.stack == []
    requires s'.runner.Park? || s'.runner.Asleep? ==> (s'.stack == [] && !s'.phase.Finishing?) || SomeSignal(s)
    ensures Inv(s')
  {
    ActsUnmoved(s, s');
    LinkedStays(s.next, s'.next, s.stack);
  }

  lemma KeepsTakeAll(s: State)
    requires Inv(s) && (s.runner.PopTry? || s.runner.LastTry?) && s.head.Node?
    ensures Inv(TakeAll(s))
  {
    var s' := TakeAll(s);
    ActsUnmoved(s, s');
    ReversedIs(s.stack);
    assert s.stack + s.batch == s.stack && s'.stack + s'.batch == s'.batch;
    assert s.executed + s.batch == s.executed && s'.batch + Reversed(s'.stack) == s'.batch;
  }

  lemma KeepsExecute(s: State)
    requires Inv(s) && s.runner.Execute? && s.batch != []
    ensures Inv(RunnerStep(s, s.runner).value)
  {
    var s' := RunnerStep(s, s.runner).value;
    var op := s.batch[0];
    assert (s.stack + s.batch)[|s.stack|] == op;
    assert OpOf(s, op).Queued?;
    ActsUnmoved(s, s');
    LinkedStays(s.next, s'.next, s.stack);
    assert s.executed + s.batch == s'.executed + s'.batch;
    assert NoDup(s'.stack + s'.batch) && op !in s'.stack + s'.batch by {
      assert forall i :: 0 <= i < |s'.stack + s'.batch| ==>
        (s'.stack + s'.batch)[i] == (s.stack + s.batch)[if i < |s.stack| then i else i + 1];
    }
    assert AllQueued(s', s'.stack + s'.batch) by {
      forall o | o in s'.stack + s'.batch ensures OpOf(s', o).Queued? { assert o in s.stack + s.batch; }
    }
  }

  lemma KeepsClose(s: State)
    requires Inv(s) && s.runner.Close? && s.head.Nil?
    ensures Inv(RunnerStep(s, s.runner).value)
  {
    ActsUnmoved(s, RunnerStep(s, s.runner).value);
  }

  /** What the runner does after a look at `head_`, in either of the two loops of `try_pop_all`. */
  function LooksAgain(s: State): Runner {
    if s.runner.Pop? || s.runner.PopTry? then AfterPopLoad(s.head, CheckFinishing, false)
    else AfterPopLoad(s.head, Close, true)
  }

  lemma KeepsPop(s: State)
    requires Inv(s) && (s.runner.Pop? || s.runner.PopTry? || s.runner.LastPop? || s.runner.LastTry?)
    ensures Inv(Run(s, LooksAgain(s)))
  {
    RunnerMoves(s, Run(s, LooksAgain(s)));
  }

  lemma KeepsSleeping(s: State)
    requires Inv(s) && (s.runner.HasWork? || s.runner.IsFinishing? || s.runner.Park?)
    ensures Inv(RunnerStep(s, s.runner).value)
  {
    RunnerMoves(s, RunnerStep(s, s.runner).value);
  }

  lemma KeepsLocking(s: State)
    requires Inv(s) && RunnerStep(s, s.runner).Some?
    requires s.runner.Lock? || s.runner.Register? || s.runner.Woken? || s.runner.Unregister? || s.runner.Unlock?
    ensures Inv(RunnerStep(s, s.runner).value)
  {
    RunnerMoves(s, RunnerStep(s, s.runner).value);
  }

  lemma KeepsOther(s: State)
    requires Inv(s) && RunnerStep(s, s.runner).Some?
    requires s.runner.NotRunning? || s.runner.CheckFinishing? || s.runner.AwaitProducers? || s.runner.Finish?
    ensures Inv(RunnerStep(s, s.runner).value)
  {
    RunnerMoves(s, RunnerStep(s, s.runner).value);
  }

  lemma KeepsNext(s: State)
    requires Inv(s) && RunnerStep(s, s.runner).Some?
    requires s.runner.Executing? || (s.runner.Execute? && s.batch == []) || (s.runner.Close? && !s.head.Nil?)
    ensures Inv(RunnerStep(s, s.runner).value)
  {
    RunnerMoves(s, RunnerStep(s, s.runner).value);
  }

  lemma KeepsRun(s: State)
    requires Inv(s) && RunnerStep(s, s.runner).Some?
    ensures Inv(RunnerStep(s, s.runner).value)
  {
    match s.runner
    case Pop => KeepsPop(s);
    case LastPop => KeepsPop(s);
    case PopTry(seen) => if s.head == seen && seen.Node? { KeepsTakeAll(s); } else { KeepsPop(s); }
    case LastTry(seen) => if s.head == seen && seen.Node? { KeepsTakeAll(s); } else { KeepsPop(s); }
    case Executing => KeepsNext(s);
    case Execute => if s.batch == [] { KeepsNext(s); } else { KeepsExecute(s); }
    case Close => if s.head.Nil? { KeepsClose(s); } else { KeepsNext(s); }
    case HasWork => KeepsSleeping(s);
    case IsFinishing => KeepsSleeping(s);
    case Park => KeepsSleeping(s);
    case Lock => KeepsLocking(s);
    case Register => KeepsLocking(s);
    case Woken => KeepsLocking(s);
    case Unregister => KeepsLocking(s);
    case Unlock => KeepsLocking(s);
    case _ => KeepsOther(s);
  }

  lemma Keeps(s: State, st: Step)
    requires Inv(s) && Next(s, st).Some?
    ensures Inv(Next(s, st).value)
  {
    match st
    case CallEnqueue(x, op, inner) => KeepsCallEnqueue(s, x, op, inner);
    case CallFinish(x, inner) => KeepsCallFinish(s, x, inner);
    case Act(x) => KeepsAct(s, x);
    case PushFails(x) => KeepsReload(s, x);
    case RunStep => KeepsRun(s);
    case PopFails => KeepsPop(s);
    case SpuriousWake => KeepsWoken(s);
  }

  ghost predicate Reachable(s: State) { exists steps :: Exec(Next, INIT, steps) == Some(s) }

  lemma Starts()
    ensures Inv(INIT)
  {
  }

  lemma InvHolds(s: State)
    requires Reachable(s)
    ensures Inv(s)
  {
    var steps :| Exec(Next, INIT, steps) == Some(s);
    forall y, st | Inv(y) && Next(y, st).Some? ensures Inv(Next(y, st).value) { Keeps(y, st); }
    Starts();
    Preserved(Next, Inv, INIT, steps);
  }
}
