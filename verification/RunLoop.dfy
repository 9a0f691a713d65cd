/** run_loop as a transition system: any number of threads inside enqueue and finish, one thread inside run, one
    atomic access or mutex operation at a time.  The mutex is a lock word; waiting on the condition variable releases
    it and falls asleep in one step, and may wake up for no reason. */
module RunLoop {
  import opened Links
  import opened Lists
  import opened Runs

  /** An activation of enqueue or finish, and an operation. */
  type Act = nat
  type Op = Id

  datatype Phase = Starting | Running | Finishing | Finished
  datatype Mutex = Free | ByRunner | ByAct(x: Act)

  datatype Pc =
    | Idle
    // enqueue
    | EEnter(op: Op)
    | ELoad(op: Op)
    | ETry(op: Op, seen: Ptr)
    // finish
    | FEnter
    | FFromStarting
    | FFromRunning
    // wake_one_waiter, wake_all_waiters
    | WLoad
    | WLock
    | WNotify
    | WUnlock
    // the last decrement of producers_
    | Leave

  datatype Runner =
    | NotRunning
    | Pop
    | PopTry(seen: Ptr)
    | Execute
    | Executing
    | CheckFinishing
    | AwaitProducers
    | LastPop
    | LastTry(seen: Ptr)
    | Close
    | Finish
    | Lock
    | Register
    | HasWork
    | IsFinishing
    | Park
    | Asleep
    | Woken
    | Unregister
    | Unlock
    | Returned

  datatype OpState = Unqueued | Pushing(act: Act) | Queued

  datatype State = State(
    phase: Phase, head: Ptr, next: map<Op, Ptr>, producers: int, waiting: int, mutex: Mutex,
    acts: map<Act, Pc>, runner: Runner, batch: seq<Op>,
    // auxiliary: the activation called from inside execute, the linked operations, the activations that producers_
    // counts, who owns an operation, the accepted and the executed operations in order, the activation of finish
    nested: Option<Act>, stack: seq<Op>, inside: set<Act>, ops: map<Op, OpState>,
    pushed: seq<Op>, executed: seq<Op>, finisher: Option<Act>)

  const INIT := State(Starting, Nil, map[], 0, 0, Free, map[], NotRunning, [], None, [], {}, map[], [], [], None)

  function At(s: State, x: Act): Pc { if x in s.acts then s.acts[x] else Idle }
  function OpOf(s: State, op: Op): OpState { if op in s.ops then s.ops[op] else Unqueued }
  function NextOf(s: State, op: Op): Ptr { NextIn(s.next, op) }
  function Go(s: State, x: Act, pc: Pc): State { s.(acts := s.acts[x := pc]) }
  function Run(s: State, r: Runner): State { s.(runner := r) }

  datatype Step =
    | CallEnqueue(x: Act, op: Op, inner: bool)
    | CallFinish(x: Act, inner: bool)
    | Act(x: Act)
    | PushFails(x: Act)
    | RunStep
    | PopFails
    | SpuriousWake

  /** A call made from inside `execute` holds the runner up until it returns. */
  predicate MayCall(s: State, x: Act, inner: bool) {
    At(s, x).Idle? && (inner ==> s.runner.Executing? && s.nested.None?)
  }

  function Calls(s: State, x: Act, inner: bool): State { if inner then s.(nested := Some(x)) else s }

  function Next(s: State, st: Step): Option<State> {
    match st
    case CallEnqueue(x, op, inner) =>
      if MayCall(s, x, inner) && OpOf(s, op).Unqueued? then
        Some(Go(Calls(s, x, inner), x, EEnter(op)).(ops := s.ops[op := Pushing(x)]))
      else None
    case CallFinish(x, inner) =>
      if MayCall(s, x, inner) then
        Some(Go(Calls(s, x, inner), x, FEnter).(finisher := Some(x)))
      else None
    case Act(x) => ActStep(s, x, At(s, x))
    case PushFails(x) =>
      (match At(s, x)
       case ETry(op, seen) =>
         if seen.Sealed? then None else Some(Go(s.(next := s.next[op := seen]), x, ETry(op, s.head)))
       case _ => None)
    case RunStep => RunnerStep(s, s.runner)
    case PopFails =>
      (match s.runner
       case PopTry(seen) => Some(Run(s, AfterPopLoad(s.head, CheckFinishing, false)))
       case LastTry(seen) => Some(Run(s, AfterPopLoad(s.head, Close, true)))
       case _ => None)
    case SpuriousWake => if s.runner.Asleep? then Some(Run(s, Woken)) else None
  }

  function Enter(s: State, x: Act): State { s.(producers := s.producers + 1, inside := s.inside + {x}) }

  function ActStep(s: State, x: Act, pc: Pc): Option<State> {
    match pc
    case Idle => None
    case EEnter(op) => Some(Go(Enter(s, x), x, ELoad(op)))
    case ELoad(op) => Some(Go(s, x, ETry(op, s.head)))
    case ETry(op, seen) =>
      Some(if seen.Sealed? then Go(s, x, Leave).(ops := s.ops[op := Unqueued])
           else if s.head == seen then
             Go(s, x, WLoad).(next := s.next[op := seen], head := Node(op), stack := [op] + s.stack,
                              ops := s.ops[op := Queued], pushed := s.pushed + [op])
           else Go(s.(next := s.next[op := seen]), x, ETry(op, s.head)))
    case FEnter => Some(Go(Enter(s, x), x, FFromStarting))
    case FFromStarting =>
      Some(if s.phase.Starting? then Go(s.(phase := Finishing), x, WLoad)
           else Go(s, x, if s.phase.Running? then FFromRunning else Leave))
    case FFromRunning =>
      Some(if s.phase.Running? then Go(s.(phase := Finishing), x, WLoad) else Go(s, x, Leave))
    case WLoad => Some(Go(s, x, if s.waiting == 0 then Leave else WLock))
    case WLock => if s.mutex.Free? then Some(Go(s.(mutex := ByAct(x)), x, WNotify)) else None
    case WNotify => Some(Go(if s.runner.Asleep? then Run(s, Woken) else s, x, WUnlock))
    case WUnlock => Some(Go(s.(mutex := Free), x, Leave))
    case Leave =>
      Some(Go(s, x, Idle).(producers := s.producers - 1, inside := s.inside - {x},
                           nested := if s.nested == Some(x) then None else s.nested))
  }

  /** Where `try_pop_all` goes with the value of `head_` it has just seen. */
  function AfterPopLoad(head: Ptr, ifEmpty: Runner, last: bool): Runner {
    if !head.Node? then ifEmpty else if last then LastTry(head) else PopTry(head)
  }

  /** The winning exchange of `try_pop_all`, and `reverse`, whose loop works on operations nobody else can reach. */
  function TakeAll(s: State): State {
    Run(s, Execute).(head := Nil, stack := [], batch := Reversed(s.stack))
  }

  function RunnerStep(s: State, r: Runner): Option<State> {
    match r
    case NotRunning =>
      Some(if s.phase.Starting? then Run(s, Pop).(phase := Running)
           else Run(s, if s.phase.Finishing? then Pop else Returned))
    case Pop => Some(Run(s, AfterPopLoad(s.head, CheckFinishing, false)))
    case PopTry(seen) =>
      Some(if s.head == seen then TakeAll(s) else Run(s, AfterPopLoad(s.head, CheckFinishing, false)))
    case Execute =>
      if s.batch == [] then Some(Run(s, Pop))
      else
        var op := s.batch[0];
        Some(Run(s, Executing).(batch := s.batch[1..], executed := s.executed + [op], ops := s.ops[op := Unqueued]))
    case Executing => if s.nested.None? then Some(Run(s, Execute)) else None
    case CheckFinishing => Some(Run(s, if s.phase.Finishing? then AwaitProducers else Lock))
    case AwaitProducers => if s.producers == 0 then Some(Run(s, LastPop)) else Some(s)
    case LastPop => Some(Run(s, AfterPopLoad(s.head, Close, true)))
    case LastTry(seen) => Some(if s.head == seen then TakeAll(s) else Run(s, AfterPopLoad(s.head, Close, true)))
    case Close => Some(if s.head.Nil? then Run(s, Finish).(head := Sealed) else Run(s, Lock))
    case Finish => Some(Run(s, Returned).(phase := if s.phase.Finishing? then Finished else s.phase))
    case Lock => if s.mutex.Free? then Some(Run(s, Register).(mutex := ByRunner)) else None
    case Register => Some(Run(s, HasWork).(waiting := s.waiting + 1))
    case HasWork => Some(Run(s, if s.head.Node? then Unregister else IsFinishing))
    case IsFinishing => Some(Run(s, if s.phase.Finishing? then Unregister else Park))
    case Park => Some(Run(s, Asleep).(mutex := Free))
    case Asleep => None
    case Woken => if s.mutex.Free? then Some(Run(s, HasWork).(mutex := ByRunner)) else None
    case Unregister => Some(Run(s, Unlock).(waiting := s.waiting - 1))
    case Unlock => Some(Run(s, Pop).(mutex := Free))
    case Returned => None
  }

  // ---------- the invariant

  predicate Inside(pc: Pc) { !pc.Idle? && !pc.EEnter? && !pc.FEnter? }
  predicate HoldsMutex(pc: Pc) { pc.WNotify? || pc.WUnlock? }

  predicate RunnerHoldsMutex(r: Runner) {
    r.Register? || r.HasWork? || r.IsFinishing? || r.Park? || r.Unregister? || r.Unlock?
  }

  predicate Registered(r: Runner) {
    r.HasWork? || r.IsFinishing? || r.Park? || r.Asleep? || r.Woken? || r.Unregister?
  }

  function OpOfPc(pc: Pc): Option<Op> {
    match pc
    case EEnter(op) => Some(op)
    case ELoad(op) => Some(op)
    case ETry(op, _) => Some(op)
    case _ => None
  }

  ghost predicate PcOk(s: State, x: Act) {
    var pc := At(s, x);
    && (x in s.inside <==> Inside(pc))
    && (s.mutex == ByAct(x) <==> HoldsMutex(pc))
    && (OpOfPc(pc).Some? ==> OpOf(s, OpOfPc(pc).value) == Pushing(x))
    && (pc.ETry? && pc.seen.Sealed? ==> s.head.Sealed?)
  }

  ghost predicate ActsOk(s: State) { s.producers == |s.inside| && forall x :: PcOk(s, x) }

  ghost predicate AllQueued(s: State, l: seq<Op>) { forall op :: op in l ==> OpOf(s, op).Queued? }

  ghost predicate QueueOk(s: State) {
    && (if s.head.Sealed? then s.stack == [] else s.head == PtrOf(s.stack))
    && Linked(s.next, s.stack)
    && NoDup(s.stack + s.batch) && AllQueued(s, s.stack + s.batch)
  }

  ghost predicate InOrder(s: State) { s.pushed == s.executed + s.batch + Reversed(s.stack) }

  ghost predicate RunnerOk(s: State) {
    && (s.mutex.ByRunner? <==> RunnerHoldsMutex(s.runner))
    && s.waiting == (if Registered(s.runner) then 1 else 0)
    && (s.batch != [] ==> s.runner.Execute? || s.runner.Executing?)
    && (s.head.Sealed? <==> s.runner.Finish? || s.runner.Returned?)
    && (s.nested.Some? ==> s.runner.Executing? && !At(s, s.nested.value).Idle?)
    && match s.runner
       case NotRunning => s.phase.Starting? || s.phase.Finishing?
       case Returned => s.phase.Finished?
       case AwaitProducers => s.phase.Finishing?
       case LastPop => s.phase.Finishing?
       case LastTry(seen) => s.phase.Finishing? && seen.Node?
       case PopTry(seen) => (s.phase.Running? || s.phase.Finishing?) && seen.Node?
       case Close => s.phase.Finishing?
       case Finish => s.phase.Finishing?
       case _ => s.phase.Running? || s.phase.Finishing?
  }

  /** Somebody has published and has yet to notify. */
  predicate Signals(pc: Pc) { pc.WLoad? || pc.WLock? || pc.WNotify? }
  ghost predicate SomeSignal(s: State) { exists x :: Signals(At(s, x)) }

  ghost predicate WakeOk(s: State) {
    && (s.runner.IsFinishing? ==> s.stack == [] || SomeSignal(s))
    && (s.runner.Park? || s.runner.Asleep? ==> (s.stack == [] && !s.phase.Finishing?) || SomeSignal(s))
  }

  ghost predicate Inv(s: State) { ActsOk(s) && QueueOk(s) && InOrder(s) && RunnerOk(s) && WakeOk(s) }
}
