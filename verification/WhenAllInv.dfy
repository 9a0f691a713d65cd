/** Every step of when_all keeps its invariant. */
module WhenAllInv {
  import opened Runs
  import opened WhenAll

  /** What a child relies on when it is not the one that moves. */
  ghost predicate OthersKept(s: State, s': State, i: Child) {
    && |s'.children| == |s.children| && |s'.sent| == |s.sent| && |s'.values| == |s.values| && s'.config == s.config
    && (forall j: Child :: IsChild(s, j) && j != i ==>
          s'.children[j] == s.children[j] && s'.sent[j] == s.sent[j] && s'.values[j] == s.values[j])
    && (forall j :: j != i ==> (j in s'.arrived <==> j in s.arrived))
    && (s.winner.Some? ==> s'.winner == s.winner && s'.terminal == s.terminal)
    && (s.finisher.Some? ==> s'.finisher == s.finisher && s'.terminal == s.terminal)
  }

  lemma ChildrenStep(s: State, s': State, i: Child)
    requires ChildrenOk(s) && OthersKept(s, s', i) && (IsChild(s, i) ==> ChildOk(s', i))
    ensures ChildrenOk(s')
  {
    forall j: Child | IsChild(s', j) ensures ChildOk(s', j) { assert ChildOk(s, j); }
  }

  /** All have arrived exactly when the counter is zero. */
  lemma {:induction false} FullSet(a: set<nat>, n: nat)
    requires forall i :: i in a ==> i < n
    ensures |a| <= n && (|a| == n ==> forall i :: 0 <= i < n ==> i in a)
  {
    if n == 0 {
      assert a == {};
    } else {
      FullSet(a - {n - 1}, n - 1);
      assert n - 1 !in a ==> a - {n - 1} == a;
      if |a| == n {
        forall i | 0 <= i < n ensures i in a { assert i < n - 1 ==> i in a - {n - 1}; }
      }
    }
  }

  lemma AllArrived(s: State)
    requires Inv(s) && s.finisher.Some?
    ensures forall i: Child :: IsChild(s, i) ==> HasArrived(s.children[i]) && s.sent[i].Some?
  {
    FullSet(s.arrived, |s.children|);
    forall i: Child | IsChild(s, i) ensures HasArrived(s.children[i]) && s.sent[i].Some? { assert ChildOk(s, i); }
  }

  lemma SomebodyLeft(s: State, i: Child)
    requires Inv(s) && IsChild(s, i) && !HasArrived(s.children[i]) && !s.refused
    ensures s.remaining >= 1 && s.finisher.None? && s.delivered == []
  {
    FullSet(s.arrived, |s.children|);
    assert ChildOk(s, i);
  }

  /** A step of a child that has not arrived, and does not now. */
  lemma EarlyStep(s: State, s': State, i: Child)
    requires Inv(s) && IsChild(s, i) && !HasArrived(s.children[i]) && !s.refused
    requires s' == s.(children := s'.children, sent := s'.sent, values := s'.values,
                      terminal := s'.terminal, error := s'.error, winner := s'.winner,
                      stopRequested := s'.stopRequested)
    requires OthersKept(s, s', i) && !HasArrived(s'.children[i])
    requires s'.children[i].NotStarted? <==> s.children[i].NotStarted?
    requires ChildOk(s', i) && WinnerOk(s')
    ensures Inv(s')
  {
    SomebodyLeft(s, i);
    ChildrenStep(s, s', i);
  }

  lemma Unrefused(s: State, i: Child)
    requires Inv(s) && IsChild(s, i) && !s.children[i].NotStarted?
    ensures !s.refused && ChildOk(s, i)
  {
  }

  lemma WinnerStays(s: State, s': State, i: Child)
    requires WinnerOk(s) && OthersKept(s, s', i) && s.winner != Some(i)
    requires s'.winner == s.winner && s'.terminal == s.terminal && s'.error == s.error && s'.refused == s.refused
    requires s.stopRequested ==> s'.stopRequested
    ensures WinnerOk(s')
  {
  }

  lemma WinnerMovesOn(s: State, s': State, i: Child)
    requires WinnerOk(s) && OthersKept(s, s', i) && IsChild(s, i) && s'.sent == s.sent
    requires s'.winner == s.winner && s'.terminal == s.terminal && s'.error == s.error && s'.refused == s.refused
    requires s.stopRequested ==> s'.stopRequested
    requires !s.children[i].StoreError? && !s'.children[i].StoreError? && !s.children[i].RequestStop?
    ensures WinnerOk(s')
  {
  }

  lemma KeepsSentValue(s: State, i: Child, v: seq<Payload>)
    requires Inv(s) && IsChild(s, i) && s.children[i].Running? && MaySend(s.config, i, SentValue(v))
    ensures Inv(Go(Sending(s, i, SentValue(v)), i, Decrement).(values := s.values[i := Some(v)]))
  {
    var s' := Go(Sending(s, i, SentValue(v)), i, Decrement).(values := s.values[i := Some(v)]);
    Unrefused(s, i);
    assert s.winner != Some(i);
    WinnerStays(s, s', i);
    EarlyStep(s, s', i);
  }

  lemma KeepsSentOther(s: State, i: Child, sent: Sent, pc: Pc)
    requires Inv(s) && IsChild(s, i) && s.children[i].Running? && !sent.SentValue? && MaySend(s.config, i, sent)
    requires if pc.ErrorExchange? then Carries(Some(sent), pc.e) else pc.StoppedExchange? && sent.SentStopped?
    ensures Inv(Go(Sending(s, i, sent), i, pc))
  {
    var s' := Go(Sending(s, i, sent), i, pc);
    Unrefused(s, i);
    assert s.winner != Some(i);
    WinnerStays(s, s', i);
    EarlyStep(s, s', i);
  }

  lemma KeepsSends(s: State, i: Child, sent: Sent)
    requires Inv(s) && IsChild(s, i) && s.children[i].Running? && SendStep(s, i, sent).Some?
    ensures Inv(SendStep(s, i, sent).value)
  {
    match sent
    case SentValue(v) => KeepsSentValue(s, i, v);
    case SentError(e) => KeepsSentOther(s, i, sent, ErrorExchange(Raised(e)));
    case SentStopped => KeepsSentOther(s, i, sent, StoppedExchange);
    case SentThrow => KeepsSentOther(s, i, sent, ErrorExchange(Exception));
  }

  /** A child without a value comes second to the exchange. */
  lemma LosesExchange(s: State, i: Child)
    requires Inv(s) && IsChild(s, i) && (s.children[i].ErrorExchange? || s.children[i].StoppedExchange?)
    requires !s.terminal.NoTerminal?
    ensures Inv(Go(s, i, Decrement))
  {
    Unrefused(s, i);
    assert s.winner.Some?;
    LoserWinner(s, i);
    EarlyStep(s, Go(s, i, Decrement), i);
  }

  lemma LoserWinner(s: State, i: Child)
    requires WinnerOk(s) && IsChild(s, i) && !s.children[i].StoreError? && !s.children[i].RequestStop?
    ensures WinnerOk(Go(s, i, Decrement))
  {
  }

  /** A child without a value comes first to the exchange. */
  function Won(s: State, i: Child, pc: Pc, kind: Kind): State
    requires IsChild(s, i)
  {
    Go(s, i, pc).(terminal := kind, winner := Some(i))
  }

  lemma WinsExchange(s: State, i: Child, pc: Pc, kind: Kind)
    requires Inv(s) && IsChild(s, i) && s.terminal.NoTerminal?
    requires if s.children[i].ErrorExchange? then pc == StoreError(s.children[i].e) && kind.ErrorTerminal?
             else s.children[i].StoppedExchange? && pc.RequestStop? && kind.StoppedTerminal?
    ensures Inv(Won(s, i, pc, kind))
  {
    Unrefused(s, i);
    SomebodyLeft(s, i);
    WinnerIsNew(s, i, pc, kind);
    EarlyStep(s, Won(s, i, pc, kind), i);
  }

  lemma WinnerIsNew(s: State, i: Child, pc: Pc, kind: Kind)
    requires WinnerOk(s) && IsChild(s, i) && ChildOk(s, i) && s.terminal.NoTerminal? && !s.refused
    requires if s.children[i].ErrorExchange? then pc == StoreError(s.children[i].e) && kind.ErrorTerminal?
             else s.children[i].StoppedExchange? && pc.RequestStop? && kind.StoppedTerminal?
    ensures WinnerOk(Won(s, i, pc, kind)) && s.winner.None?
  {
  }

  lemma KeepsExchange(s: State, i: Child)
    requires Inv(s) && IsChild(s, i) && (s.children[i].ErrorExchange? || s.children[i].StoppedExchange?)
    ensures Inv(ActStep(s, i, s.children[i], false).value)
  {
    if !s.terminal.NoTerminal? { LosesExchange(s, i); }
    else if s.children[i].ErrorExchange? { WinsExchange(s, i, StoreError(s.children[i].e), ErrorTerminal); }
    else { WinsExchange(s, i, RequestStop, StoppedTerminal); }
  }

  lemma KeepsStoreError(s: State, i: Child, throws: bool)
    requires Inv(s) && IsChild(s, i) && s.children[i].StoreError? && ActStep(s, i, s.children[i], throws).Some?
    ensures Inv(ActStep(s, i, s.children[i], throws).value)
  {
    Unrefused(s, i);
    EarlyStep(s, ActStep(s, i, s.children[i], throws).value, i);
  }

  lemma KeepsRequest(s: State, i: Child)
    requires Inv(s) && IsChild(s, i) && (s.children[i].RequestStop? || s.children[i].InRequest?)
    ensures Inv(ActStep(s, i, s.children[i], false).value)
  {
    Unrefused(s, i);
    EarlyStep(s, ActStep(s, i, s.children[i], false).value, i);
  }

  /** The state after the decrement of child `i`, which goes on at `pc`. */
  function Decremented(s: State, i: Child, pc: Pc, finisher: Option<Child>): State
    requires IsChild(s, i)
  {
    Go(s.(remaining := s.remaining - 1, arrived := s.arrived + {i}, finisher := finisher), i, pc)
  }

  lemma DecrementedChildren(s: State, i: Child, pc: Pc, finisher: Option<Child>)
    requires Inv(s) && IsChild(s, i) && s.children[i].Decrement? && s.finisher.None?
    requires if s.remaining == 1 then pc.ResetOnStop? && finisher == Some(i) else pc.Gone? && finisher == None
    ensures ChildrenOk(Decremented(s, i, pc, finisher)) && WinnerOk(Decremented(s, i, pc, finisher))
  {
    var s' := Decremented(s, i, pc, finisher);
    assert ChildOk(s, i);
    ChildrenStep(s, s', i);
    WinnerMovesOn(s, s', i);
  }

  lemma DecrementedCounts(s: State, i: Child, pc: Pc, finisher: Option<Child>)
    requires Inv(s) && IsChild(s, i) && s.children[i].Decrement? && s.finisher.None? && !s.refused && s.delivered == []
    requires if s.remaining == 1 then pc.ResetOnStop? && finisher == Some(i) else pc.Gone? && finisher == None
    ensures var s' := Decremented(s, i, pc, finisher); CountOk(s') && StarterOk(s') && DeliveredOk(s')
  {
    assert ChildOk(s, i);
    assert |s.arrived + {i}| == |s.arrived| + 1;
  }

  lemma KeepsDecrement(s: State, i: Child)
    requires Inv(s) && IsChild(s, i) && s.children[i].Decrement?
    ensures Inv(ActStep(s, i, s.children[i], false).value)
  {
    var pc := if s.remaining == 1 then ResetOnStop else Gone;
    var finisher := if s.remaining == 1 then Some(i) else None;
    Unrefused(s, i);
    SomebodyLeft(s, i);
    DecrementedChildren(s, i, pc, finisher);
    DecrementedCounts(s, i, pc, finisher);
    DecrementIs(s, i);
  }

  lemma DecrementIs(s: State, i: Child)
    requires IsChild(s, i) && s.finisher.None?
    ensures ActStep(s, i, Decrement, false).value
         == (if s.remaining == 1 then Decremented(s, i, ResetOnStop, Some(i)) else Decremented(s, i, Gone, None))
  {
  }

  /** The finishing child goes on finishing. */
  lemma FinisherMoves(s: State, i: Child, pc: Pc, onStop: bool)
    requires Inv(s) && IsChild(s, i) && Finishing(s.children[i]) && Finishing(pc)
    requires (pc.Deliver? ==> pc.kind == s.terminal) && (pc.Join? ==> s.terminal.NoTerminal? && SendsValue(s.config))
    ensures Inv(Go(s.(onStop := onStop), i, pc))
  {
    var s' := Go(s.(onStop := onStop), i, pc);
    assert ChildOk(s, i);
    ChildrenStep(s, s', i);
    WinnerMovesOn(s, s', i);
  }

  lemma ValuesAgree(s: State)
    requires ChildrenOk(s)
    ensures s.values == ValuesOf(s.sent)
  {
    forall i | 0 <= i < |s.values| ensures s.values[i] == ValuesOf(s.sent)[i] { assert ChildOk(s, i); }
  }

  /** With no winner, every child has sent a value. */
  lemma AllValues(s: State)
    requires Inv(s) && s.finisher.Some? && s.winner.None?
    ensures AllPresent(s.values) && SendsValue(s.config)
  {
    AllArrived(s);
    forall i | 0 <= i < |s.values| ensures s.values[i].Some? && s.config.senders[i].value { assert ChildOk(s, i); }
  }

  /** The completion that `finish_one` delivers is the one that the first unsuccessful child, or all children, ask
      for; it ends the program only if moving what it would deliver may throw. */
  lemma DeliversAllowed(s: State, i: Child, throws: bool)
    requires Inv(s) && IsChild(s, i) && (s.children[i].Deliver? || s.children[i].Join?)
    requires ActStep(s, i, s.children[i], throws).Some?
    ensures s.finisher == Some(i) && !s.terminated && s.delivered == []
    ensures var s' := ActStep(s, i, s.children[i], throws).value;
            if s'.children[i].Join? then s' == Go(s, i, Join) && s.winner.None? && AllPresent(s.values)
            else if s'.terminated
            then s' == Go(s, i, Gone).(terminated := true) && MayTerminate(s.config, s.sent, s.winner)
            else |s'.delivered| == 1 && s' == Go(s, i, Gone).(delivered := [s'.delivered[0]])
                 && Allowed(s.config, s.sent, s.winner, s'.delivered[0])
  {
    assert ChildOk(s, i);
    ValuesAgree(s);
    AllArrived(s);
    if s.winner.None? { AllValues(s); }
    if s.children[i].Deliver? { DeliverCases(s, i, s.children[i].kind, throws); }
  }

  lemma DeliverCases(s: State, i: Child, kind: Kind, throws: bool)
    requires IsChild(s, i) && DeliverStep(s, i, kind, throws).Some? && s.delivered == [] && !s.terminated
    ensures var s' := DeliverStep(s, i, kind, throws).value;
            if s'.children[i].Join? then s' == Go(s, i, Join) && kind.NoTerminal? && SendsValue(s.config)
            else if s'.terminated then s' == Go(s, i, Gone).(terminated := true) && throws
            else |s'.delivered| == 1 && s' == Go(s, i, Gone).(delivered := [s'.delivered[0]])
  {
  }

  lemma FinishedKeeps(s: State, i: Child, s': State)
    requires Inv(s) && IsChild(s, i) && (s.children[i].Deliver? || s.children[i].Join?)
    requires s.finisher == Some(i) && !s.terminated
    requires s' == Go(s, i, Gone).(delivered := s'.delivered, terminated := s'.terminated)
    requires if s'.terminated then s'.delivered == [] && MayTerminate(s.config, s.sent, s.winner)
             else |s'.delivered| == 1 && Allowed(s.config, s.sent, s.winner, s'.delivered[0])
    ensures Inv(s')
  {
    assert ChildOk(s, i);
    ChildrenStep(s, s', i);
    WinnerMovesOn(s, s', i);
  }

  lemma KeepsDeliver(s: State, i: Child, throws: bool)
    requires Inv(s) && IsChild(s, i) && s.children[i].Deliver? && ActStep(s, i, s.children[i], throws).Some?
    ensures Inv(ActStep(s, i, s.children[i], throws).value)
  {
    var s' := ActStep(s, i, s.children[i], throws).value;
    DeliversAllowed(s, i, throws);
    assert ChildOk(s, i);
    DeliverCases(s, i, s.children[i].kind, throws);
    if s'.children[i].Join? { FinisherMoves(s, i, Join, s.onStop); } else { FinishedKeeps(s, i, s'); }
  }

  lemma KeepsJoin(s: State, i: Child, throws: bool)
    requires Inv(s) && IsChild(s, i) && s.children[i].Join? && ActStep(s, i, s.children[i], throws).Some?
    ensures Inv(ActStep(s, i, s.children[i], throws).value)
  {
    DeliversAllowed(s, i, throws);
    FinishedKeeps(s, i, ActStep(s, i, s.children[i], throws).value);
  }

  lemma KeepsAct(s: State, i: Child, throws: bool)
    requires Inv(s) && IsChild(s, i) && ActStep(s, i, s.children[i], throws).Some?
    ensures Inv(ActStep(s, i, s.children[i], throws).value)
  {
    match s.children[i]
    case ErrorExchange(_) => KeepsExchange(s, i);
    case StoreError(_) => KeepsStoreError(s, i, throws);
    case StoppedExchange => KeepsExchange(s, i);
    case RequestStop => KeepsRequest(s, i);
    case InRequest => KeepsRequest(s, i);
    case Decrement => KeepsDecrement(s, i);
    case ResetOnStop => FinisherMoves(s, i, LoadTerminal, false);
    case LoadTerminal => FinisherMoves(s, i, Deliver(s.terminal), s.onStop);
    case Deliver(_) => KeepsDeliver(s, i, throws);
    case Join => KeepsJoin(s, i, throws);
  }

  lemma NobodyStarted(s: State)
    requires Inv(s) && s.starter.Register?
    ensures s.winner.None? && s.finisher.None? && s.arrived == {} && s.delivered == [] && s.error.None?
  {
    forall i ensures i !in s.arrived { if IsChild(s, i) { assert ChildOk(s, i); } }
    assert s.arrived == {};
  }

  lemma KeepsRegister(s: State, throws: bool)
    requires Inv(s) && s.starter.Register? && StartStep(s, throws).Some?
    ensures Inv(StartStep(s, throws).value)
  {
    NobodyStarted(s);
    ChildrenStep(s, StartStep(s, throws).value, |s.children|);
  }

  lemma KeepsStartOne(s: State, i: Child)
    requires Inv(s) && s.starter == StartOne(i) && i < |s.children|
    ensures Inv(StartStep(s, false).value)
  {
    var s' := StartStep(s, false).value;
    assert ChildOk(s, i);
    SomebodyLeft(s, i);
    WinnerStays(s, s', i);
    ChildrenStep(s, s', i);
  }

  lemma KeepsConnectThrows(s: State, i: Child)
    requires Inv(s) && s.starter == StartOne(i) && i < |s.children| && !s.config.connectNothrow
    ensures Inv(Go(Sending(s, i, SentThrow), i, ErrorExchange(Exception)).(starter := Failing(i)))
  {
    var s' := Go(Sending(s, i, SentThrow), i, ErrorExchange(Exception)).(starter := Failing(i));
    assert ChildOk(s, i);
    SomebodyLeft(s, i);
    WinnerStays(s, s', i);
    ChildrenStep(s, s', i);
  }

  lemma KeepsStarterOnly(s: State, throws: bool)
    requires Inv(s) && (s.starter.Failing? || (s.starter.StartOne? && s.starter.i >= |s.children|))
    requires StartStep(s, throws).Some?
    ensures Inv(StartStep(s, throws).value)
  {
    ChildrenStep(s, StartStep(s, throws).value, |s.children|);
  }

  lemma KeepsStop(s: State)
    requires Inv(s)
    ensures Inv(s.(stopRequested := true))
  {
    ChildrenStep(s, s.(stopRequested := true), |s.children|);
  }

  lemma KeepsStep(s: State, st: Step)
    requires Inv(s) && Next(s, st).Some?
    ensures Inv(Next(s, st).value)
  {
    match st
    case Starts(throws) =>
      if s.starter.Register? { KeepsRegister(s, throws); }
      else if s.starter.Failing? || s.starter.i >= |s.children| { KeepsStarterOnly(s, throws); }
      else if throws { KeepsConnectThrows(s, s.starter.i); }
      else { KeepsStartOne(s, s.starter.i); }
    case Sends(i, sent) => KeepsSends(s, i, sent);
    case Act(i, throws) => KeepsAct(s, i, throws);
    case DownstreamStop => KeepsStop(s);
  }

  ghost predicate Reachable(s: State) {
    exists config, steps :: Count(config) > 0 && Exec(Next, Connected(config), steps) == Some(s)
  }

  lemma InvHolds(s: State)
    requires Reachable(s)
    ensures Inv(s)
  {
    var config, steps :| Count(config) > 0 && Exec(Next, Connected(config), steps) == Some(s);
    forall y, st | Inv(y) && Next(y, st).Some? ensures Inv(Next(y, st).value) { KeepsStep(y, st); }
    Preserved(Next, Inv, Connected(config), steps);
  }
}
