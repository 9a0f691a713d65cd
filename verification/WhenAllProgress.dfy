/** The stop callback of when_all, and that nobody waits for ever: a stop request from downstream is heard from the
    registration of the callback until the last child resets it, and every child that has completed gets to its end. */
module WhenAllProgress {
  import opened Runs
  import opened WhenAll
  import opened WhenAllInv
  import opened WhenAllTheorems

  // ---------- the stop callback

  /** The callback is registered by start, and reset by the child that finishes. */
  predicate Listening(s: State) {
    && !s.starter.Register? && !s.refused
    && (s.finisher.Some? ==> IsChild(s, s.finisher.value) && s.children[s.finisher.value].ResetOnStop?)
  }

  ghost predicate OnStopOk(s: State) { s.onStop == Listening(s) }

  lemma StartListens(s: State, throws: bool)
    requires Inv(s) && OnStopOk(s) && StartStep(s, throws).Some?
    ensures OnStopOk(StartStep(s, throws).value)
  {
    if s.starter.Register? { NobodyStarted(s); }
    if s.finisher.Some? { assert ChildOk(s, s.finisher.value); }
  }

  /** A child that has not arrived changes neither the callback nor who finishes, except by its decrement. */
  lemma EarlyListens(s: State, i: Child, pc: Pc, throws: bool)
    requires IsChild(s, i) && !HasArrived(pc) && !pc.Decrement? && ActStep(s, i, pc, throws).Some?
    ensures var s' := ActStep(s, i, pc, throws).value;
            && s'.onStop == s.onStop && s'.finisher == s.finisher && s'.refused == s.refused && s'.starter == s.starter
            && |s'.children| == |s.children| && |s'.sent| == |s.sent| && |s'.values| == |s.values|
            && (forall j: Child :: j < |s.children| && j != i ==> s'.children[j] == s.children[j])
  {
    match pc
    case ErrorExchange(_) =>
    case StoreError(_) =>
    case StoppedExchange =>
    case RequestStop =>
    case InRequest =>
  }

  lemma DecrementListens(s: State, i: Child)
    requires IsChild(s, i) && s.finisher.None? && s.onStop == Listening(s)
    ensures OnStopOk(ActStep(s, i, Decrement, false).value)
  {
  }

  lemma FinisherListens(s: State, i: Child, pc: Pc, throws: bool)
    requires IsChild(s, i) && Finishing(pc) && s.finisher == Some(i) && s.children[i] == pc && OnStopOk(s)
    requires ActStep(s, i, pc, throws).Some?
    ensures OnStopOk(ActStep(s, i, pc, throws).value)
  {
  }

  lemma ActListens(s: State, i: Child, throws: bool)
    requires Inv(s) && OnStopOk(s) && IsChild(s, i) && ActStep(s, i, s.children[i], throws).Some?
    ensures OnStopOk(ActStep(s, i, s.children[i], throws).value)
  {
    assert ChildOk(s, i);
    Unrefused(s, i);
    if Finishing(s.children[i]) {
      FinisherListens(s, i, s.children[i], throws);
    } else {
      SomebodyLeft(s, i);
      if s.children[i].Decrement? { DecrementListens(s, i); } else { EarlyListens(s, i, s.children[i], throws); }
    }
  }

  lemma SendListens(s: State, i: Child, sent: Sent)
    requires Inv(s) && OnStopOk(s) && IsChild(s, i) && s.children[i].Running? && SendStep(s, i, sent).Some?
    ensures OnStopOk(SendStep(s, i, sent).value)
  {
    Unrefused(s, i);
    SomebodyLeft(s, i);
    SendWrites(s, i, sent);
    SendKeepsStop(s, i, sent);
  }

  lemma SendKeepsStop(s: State, i: Child, sent: Sent)
    requires IsChild(s, i) && SendStep(s, i, sent).Some?
    ensures var s' := SendStep(s, i, sent).value;
            && s'.onStop == s.onStop && s'.finisher == s.finisher && s'.refused == s.refused && s'.starter == s.starter
            && s'.stopRequested == s.stopRequested
  {
    match sent
    case SentValue(_) =>
    case _ =>
  }

  lemma KeepsListening(s: State, st: Step)
    requires Inv(s) && OnStopOk(s) && Next(s, st).Some?
    ensures OnStopOk(Next(s, st).value)
  {
    match st
    case Starts(throws) => StartListens(s, throws);
    case Sends(i, sent) => SendListens(s, i, sent);
    case Act(i, throws) => ActListens(s, i, throws);
    case DownstreamStop =>
  }

  /** From the registration by start until the last child resets it, and at no other time, the callback is there. */
  lemma ListensThroughout(s: State)
    requires Reachable(s)
    ensures s.onStop == Listening(s)
    ensures s.delivered != [] || s.terminated ==> !s.onStop
  {
    var config, steps :| Count(config) > 0 && Exec(Next, Connected(config), steps) == Some(s);
    StartsOut(config);
    forall y, st | Inv(y) && OnStopOk(y) && Next(y, st).Some?
      ensures Inv(Next(y, st).value) && OnStopOk(Next(y, st).value)
    {
      KeepsStep(y, st);
      KeepsListening(y, st);
    }
    Preserved(Next, y => Inv(y) && OnStopOk(y), Connected(config), steps);
  }

  lemma StartsOut(config: Config)
    requires Count(config) > 0
    ensures Inv(Connected(config)) && OnStopOk(Connected(config))
  {
    assert Exec(Next, Connected(config), []) == Some(Connected(config));
    InvHolds(Connected(config));
  }

  /** A downstream stop request is heard as long as any child has not arrived, and asks the children to stop. */
  lemma DownstreamIsHeard(s: State, i: Child)
    requires Reachable(s) && !s.terminated && !s.refused && !s.starter.Register?
    requires IsChild(s, i) && !HasArrived(s.children[i])
    ensures Next(s, DownstreamStop).Some? && Next(s, DownstreamStop).value == s.(stopRequested := true)
  {
    InvHolds(s);
    ListensThroughout(s);
    SomebodyLeft(s, i);
  }

  /** Stop is requested of the children by a child that has won without a value, or from downstream, and never taken
      back. */
  lemma WhoRequestsStop(s: State, st: Step)
    requires Inv(s) && Next(s, st).Some?
    ensures s.stopRequested ==> Next(s, st).value.stopRequested
    ensures Next(s, st).value.stopRequested && !s.stopRequested ==>
              st.DownstreamStop? || (st.Act? && s.winner == Some(st.i) && s.children[st.i].RequestStop?)
  {
    match st
    case Starts(throws) => StartKeepsStop(s, throws);
    case Sends(i, sent) => SendKeepsStop(s, i, sent);
    case Act(i, throws) => assert ChildOk(s, i); ActKeepsStop(s, i, s.children[i], throws);
    case DownstreamStop =>
  }

  lemma StartKeepsStop(s: State, throws: bool)
    requires StartStep(s, throws).Some?
    ensures StartStep(s, throws).value.stopRequested == s.stopRequested
  {
  }

  lemma ActKeepsStop(s: State, i: Child, pc: Pc, throws: bool)
    requires IsChild(s, i) && ActStep(s, i, pc, throws).Some?
    ensures ActStep(s, i, pc, throws).value.stopRequested == (s.stopRequested || pc.RequestStop?)
  {
  }

  // ---------- nobody waits for ever

  /** How many steps a child has left, once it has completed. */
  function Left(pc: Pc): nat {
    match pc
    case ErrorExchange(_) => 9
    case StoppedExchange => 9
    case StoreError(_) => 8
    case RequestStop => 7
    case InRequest => 6
    case Decrement => 5
    case ResetOnStop => 4
    case LoadTerminal => 3
    case Deliver(_) => 2
    case Join => 1
    case _ => 0
  }

  /** Where a child goes when nothing throws. */
  function After(s: State, pc: Pc): Pc {
    match pc
    case ErrorExchange(e) => if s.terminal.NoTerminal? then StoreError(e) else Decrement
    case StoppedExchange => if s.terminal.NoTerminal? then RequestStop else Decrement
    case StoreError(_) => RequestStop
    case RequestStop => InRequest
    case InRequest => Decrement
    case Decrement => if s.remaining == 1 then ResetOnStop else Gone
    case ResetOnStop => LoadTerminal
    case LoadTerminal => Deliver(s.terminal)
    case Deliver(kind) => if kind.NoTerminal? && SendsValue(s.config) then Join else Gone
    case _ => Gone
  }

  lemma EarlyMoves(s: State, i: Child, pc: Pc)
    requires IsChild(s, i) && !pc.Deliver? && !pc.Join? && Left(pc) > 0
    ensures ActStep(s, i, pc, false).Some?
    ensures var s' := ActStep(s, i, pc, false).value;
            s'.children == s.children[i := After(s, pc)] && s'.sent == s.sent && s'.values == s.values
            && s'.terminated == s.terminated
  {
    match pc
    case ErrorExchange(_) =>
    case StoppedExchange =>
    case Decrement =>
    case _ =>
  }

  lemma DeliveryMoves(s: State, i: Child, pc: Pc)
    requires IsChild(s, i) && (pc.Deliver? || pc.Join?) && ActStep(s, i, pc, false).Some?
    ensures var s' := ActStep(s, i, pc, false).value;
            s'.children == s.children[i := After(s, pc)] && s'.sent == s.sent && s'.values == s.values
            && s'.terminated == s.terminated
  {
    if pc.Deliver? { assert ActStep(s, i, pc, false) == DeliverStep(s, i, pc.kind, false); }
  }

  lemma Moves(s: State, i: Child)
    requires Reachable(s) && !s.terminated && IsChild(s, i) && Left(s.children[i]) > 0
    ensures Next(s, Act(i, false)).Some?
    ensures var s' := Next(s, Act(i, false)).value;
            && IsChild(s', i) && !s'.terminated && Left(s'.children[i]) < Left(s.children[i])
            && !s'.children[i].NotStarted? && !s'.children[i].Running?
  {
    if s.children[i].Deliver? || s.children[i].Join? {
      DeliveryIsReady(s, i);
      DeliveryMoves(s, i, s.children[i]);
    } else {
      EarlyMoves(s, i, s.children[i]);
    }
  }

  lemma ReachesNext(s: State, st: Step)
    requires Reachable(s) && Next(s, st).Some?
    ensures Reachable(Next(s, st).value)
  {
    var config, steps :| Count(config) > 0 && Exec(Next, Connected(config), steps) == Some(s);
    OneMoreStep(Next, Connected(config), steps, st);
    assert Exec(Next, Connected(config), steps + [st]) == Next(s, st);
  }

  /** A child that has completed is done within nine steps of its own, whatever the others do not do: nothing in
      child_value, child_error, child_stopped and finish_one waits. */
  lemma {:induction false} ChildEnds(s: State, i: Child) returns (steps: seq<Step>)
    requires Reachable(s) && IsChild(s, i) && !s.terminated
    requires !s.children[i].NotStarted? && !s.children[i].Running?
    ensures |steps| <= Left(s.children[i]) && forall st :: st in steps ==> st == Act(i, false)
    ensures Exec(Next, s, steps).Some?
    ensures var s' := Exec(Next, s, steps).value; IsChild(s', i) && s'.children[i].Gone?
    decreases Left(s.children[i])
  {
    if s.children[i].Gone? {
      steps := [];
    } else {
      Moves(s, i);
      ReachesNext(s, Act(i, false));
      var rest := ChildEnds(Next(s, Act(i, false)).value, i);
      steps := [Act(i, false)] + rest;
      assert steps[1..] == rest;
    }
  }

  /** Until the operation has completed, start can go on, or a child is running or can go on. */
  lemma NeverStuck(s: State)
    requires Reachable(s) && s.delivered == [] && !s.terminated
    ensures || Next(s, Starts(false)).Some?
            || exists i: Child :: IsChild(s, i) && (s.children[i].Running? || Next(s, Act(i, false)).Some?)
  {
    InvHolds(s);
    if i: Child :| IsChild(s, i) && Left(s.children[i]) > 0 {
      Moves(s, i);
    } else if i: Child :| IsChild(s, i) && s.children[i].Running? {
    } else {
      if s.starter.Failing? { assert IsChild(s, s.starter.i); }
      if s.starter.AllStarted? { NothingForgotten(s); }
    }
  }
}
