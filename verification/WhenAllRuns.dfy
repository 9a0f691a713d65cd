/** Runs of when_all made to order: the children complete as a script says, one of them first at the exchange and last
    at the counter. */
module WhenAllRuns {
  import opened Runs
  import opened WhenAll
  import opened WhenAllInv
  import opened WhenAllTheorems

  /** What each child sends. */
  datatype Script = Script(config: Config, plan: seq<Sent>)

  predicate HasRole(sc: Script, i: Child) { i < Count(sc.config) && |sc.plan| == Count(sc.config) }

  /** Child `i` can send what the script says. Its own value may throw when it is stored, but it was connected. */
  predicate CanPlay(sc: Script, i: Child) {
    && HasRole(sc, i) && MaySend(sc.config, i, sc.plan[i])
    && (sc.plan[i].SentThrow? ==> sc.config.senders[i].value && !sc.config.valuesNothrow)
  }

  lemma Reaches(s: State, st: Step)
    requires Reachable(s) && Next(s, st).Some?
    ensures Reachable(Next(s, st).value) && Inv(Next(s, st).value)
  {
    var config, steps :| Count(config) > 0 && Exec(Next, Connected(config), steps) == Some(s);
    OneMoreStep(Next, Connected(config), steps, st);
    assert Exec(Next, Connected(config), steps + [st]) == Next(s, st);
    InvHolds(Next(s, st).value);
  }

  ghost predicate Follows(s: State, sc: Script) {
    && s.config == sc.config && |sc.plan| == |s.children|
    && forall i: Child :: IsChild(s, i) && s.sent[i].Some? ==> s.sent[i].value == sc.plan[i]
  }

  /** A run by the script has come to a state in which child `i` is at `pc`. */
  ghost predicate Has(s: State, sc: Script, i: Child, pc: Pc) {
    Reachable(s) && Inv(s) && Follows(s, sc) && IsChild(s, i) && !s.terminated && s.children[i] == pc
  }

  lemma Acts(s: State, sc: Script, i: Child, pc: Pc, throws: bool)
    requires Has(s, sc, i, pc) && ActStep(s, i, pc, throws).Some?
    ensures Reachable(ActStep(s, i, pc, throws).value) && Inv(ActStep(s, i, pc, throws).value)
  {
    Reaches(s, Act(i, throws));
  }

  predicate SameOutcome(s: State, s': State) {
    s'.winner == s.winner && s'.error == s.error && s'.terminal == s.terminal && s'.refused == s.refused
  }

  // ---------- starting

  /** The first `k` children have been started, and nothing else has happened. */
  ghost predicate StartedTo(s: State, sc: Script, k: nat) {
    && Reachable(s) && Inv(s) && Follows(s, sc) && s.starter == StartOne(k) && s.winner.None? && !s.terminated
    && forall i: Child :: IsChild(s, i) ==> s.children[i] == (if i < k then Running else NotStarted)
  }

  lemma {:induction false} StartsTo(sc: Script, k: nat) returns (s: State)
    requires 0 < Count(sc.config) == |sc.plan| && k <= Count(sc.config)
    ensures StartedTo(s, sc, k)
  {
    if k == 0 {
      s := Begins(sc);
    } else {
      var s0 := StartsTo(sc, k - 1);
      assert IsChild(s0, k - 1);
      Reaches(s0, Starts(false));
      s := Next(s0, Starts(false)).value;
    }
  }

  lemma Begins(sc: Script) returns (s: State)
    requires 0 < Count(sc.config) == |sc.plan|
    ensures StartedTo(s, sc, 0)
  {
    var s0 := Connected(sc.config);
    assert Exec(Next, s0, []) == Some(s0);
    assert Reachable(s0);
    Reaches(s0, Starts(false));
    s := Next(s0, Starts(false)).value;
  }

  /** Connecting the last child throws. */
  lemma LastFailsToConnect(s: State, sc: Script, i: Child) returns (s': State)
    requires StartedTo(s, sc, i) && i + 1 == Count(sc.config) && !sc.config.connectNothrow && sc.plan[i] == SentThrow
    ensures Has(s', sc, i, ErrorExchange(Exception)) && s'.winner == s.winner
    ensures s'.children == s.children[i := ErrorExchange(Exception)]
  {
    assert IsChild(s, i);
    Reaches(s, Starts(true));
    s' := Next(s, Starts(true)).value;
  }

  // ---------- sending

  /** Where a child goes with what it has sent. */
  function After(sent: Sent): Pc {
    match sent
    case SentValue(_) => Decrement
    case SentError(e) => ErrorExchange(Raised(e))
    case SentStopped => StoppedExchange
    case SentThrow => ErrorExchange(Exception)
  }

  /** The state after child `i` has sent `sent`. */
  function Played(s: State, i: Child, sent: Sent): State
    requires IsChild(s, i)
  {
    var s1 := Go(Sending(s, i, sent), i, After(sent));
    if sent.SentValue? then s1.(values := s.values[i := Some(sent.v)]) else s1
  }

  lemma SendStepIs(s: State, sc: Script, i: Child)
    requires IsChild(s, i) && s.config == sc.config && CanPlay(sc, i)
    ensures SendStep(s, i, sc.plan[i]) == Some(Played(s, i, sc.plan[i]))
  {
    match sc.plan[i]
    case SentValue(_) =>
    case SentError(_) =>
    case SentStopped =>
    case SentThrow =>
  }

  lemma PlayedFollows(s: State, sc: Script, i: Child)
    requires Follows(s, sc) && IsChild(s, i) && HasRole(sc, i)
    ensures Follows(Played(s, i, sc.plan[i]), sc)
  {
    var s' := Played(s, i, sc.plan[i]);
    forall j: Child | IsChild(s', j) && s'.sent[j].Some?
      ensures s'.sent[j].value == sc.plan[j]
    {
      assert IsChild(s, j);
    }
  }

  lemma Sent(s: State, i: Child, sent: Sent, s': State)
    requires Reachable(s) && IsChild(s, i) && s.children[i].Running? && !s.terminated
    requires SendStep(s, i, sent) == Some(s')
    ensures Reachable(s') && Inv(s')
  {
    Reaches(s, Sends(i, sent));
  }

  lemma Plays(s: State, sc: Script, i: Child) returns (s': State)
    requires Has(s, sc, i, Running) && CanPlay(sc, i)
    ensures Has(s', sc, i, After(sc.plan[i])) && SameOutcome(s, s')
    ensures s'.children == s.children[i := After(sc.plan[i])]
  {
    s' := Played(s, i, sc.plan[i]);
    SendStepIs(s, sc, i);
    Sent(s, i, sc.plan[i], s');
    PlayedFollows(s, sc, i);
  }

  lemma LosesTheExchange(s: State, sc: Script, i: Child, pc: Pc) returns (s': State)
    requires Has(s, sc, i, pc) && (pc.StoppedExchange? || pc.ErrorExchange?) && s.winner.Some?
    ensures Has(s', sc, i, Decrement) && SameOutcome(s, s')
    ensures s'.children == s.children[i := Decrement]
  {
    WinnerIsTerminal(s);
    Acts(s, sc, i, pc, false);
    s' := Go(s, i, Decrement);
  }

  /** A running child comes to its decrement, as a loser if it does not send a value. */
  lemma Arrives(s: State, sc: Script, i: Child) returns (s': State)
    requires Has(s, sc, i, Running) && CanPlay(sc, i) && (s.winner.Some? || sc.plan[i].SentValue?)
    ensures Has(s', sc, i, Decrement) && SameOutcome(s, s')
    ensures s'.children == s.children[i := Decrement]
  {
    s' := Plays(s, sc, i);
    if !sc.plan[i].SentValue? {
      s' := LosesTheExchange(s', sc, i, After(sc.plan[i]));
      assert s.children[i := After(sc.plan[i])][i := Decrement] == s.children[i := Decrement];
    }
  }

  // ---------- the first without a value

  /** The error slot of a winner that sent `sent`, if storing the error throws or not. */
  function SlotAfter(sent: Sent, throws: bool): Option<Err> {
    match sent
    case SentError(e) => Some(if throws then Exception else Raised(e))
    case SentThrow => Some(Exception)
    case _ => None
  }

  lemma Wins(s: State, sc: Script, i: Child, throws: bool) returns (s': State)
    requires HasRole(sc, i) && !sc.plan[i].SentValue? && Has(s, sc, i, After(sc.plan[i])) && s.winner.None?
    requires throws ==> sc.plan[i].SentError? && !sc.config.errorsNothrow
    ensures Has(s', sc, i, Decrement) && s'.winner == Some(i) && s'.error == SlotAfter(sc.plan[i], throws)
    ensures s'.children == s.children[i := Decrement]
  {
    Unrefused(s, i);
    NoWinnerYet(s);
    var s1 := WinsTheExchange(s, sc, i);
    if !sc.plan[i].SentStopped? { s1 := Stores(s1, sc, i, s1.children[i].e, throws); }
    s' := Stops(s1, sc, i);
    assert s'.children == s.children[i := Decrement];
  }

  /** Where the winner goes. */
  function Winning(sent: Sent): Pc
    requires !sent.SentValue?
  {
    if sent.SentStopped? then RequestStop else StoreError(After(sent).e)
  }

  lemma WinsTheExchange(s: State, sc: Script, i: Child) returns (s': State)
    requires HasRole(sc, i) && !sc.plan[i].SentValue? && Has(s, sc, i, After(sc.plan[i]))
    requires s.terminal.NoTerminal? && s.error.None?
    ensures Has(s', sc, i, Winning(sc.plan[i])) && s'.winner == Some(i) && s'.error.None?
    ensures s'.children == s.children[i := Winning(sc.plan[i])]
  {
    Acts(s, sc, i, After(sc.plan[i]), false);
    s' := Won(s, i, Winning(sc.plan[i]), if sc.plan[i].SentStopped? then StoppedTerminal else ErrorTerminal);
  }

  lemma NoWinnerYet(s: State)
    requires Inv(s) && s.winner.None? && !s.refused
    ensures s.terminal.NoTerminal? && s.error.None?
  {
  }

  lemma Stores(s: State, sc: Script, i: Child, e: Err, throws: bool) returns (s': State)
    requires Has(s, sc, i, StoreError(e)) && (throws ==> e.Raised? && !sc.config.errorsNothrow)
    ensures Has(s', sc, i, RequestStop) && s'.winner == s.winner && s'.error == Some(if throws then Exception else e)
    ensures s'.children == s.children[i := RequestStop]
  {
    Acts(s, sc, i, StoreError(e), throws);
    s' := Go(s, i, RequestStop).(error := Some(if throws then Exception else e));
  }

  lemma Stops(s: State, sc: Script, i: Child) returns (s': State)
    requires Has(s, sc, i, RequestStop)
    ensures Has(s', sc, i, Decrement) && s'.winner == s.winner && s'.error == s.error
    ensures s'.children == s.children[i := Decrement]
  {
    Acts(s, sc, i, RequestStop, false);
    var s1 := Go(s, i, InRequest).(stopRequested := true);
    Acts(s1, sc, i, InRequest, false);
    s' := Go(s1, i, Decrement);
    assert s.children[i := InRequest][i := Decrement] == s.children[i := Decrement];
  }

  // ---------- the others leave

  /** Child `last` is about to decrement the counter; of the others, `running` still run and the rest are done. */
  ghost predicate Waiting(s: State, sc: Script, last: Child, winner: Option<Child>, error: Option<Err>,
                          running: set<Child>) {
    && Has(s, sc, last, Decrement) && s.winner == winner && s.error == error && last !in running
    && forall i: Child :: IsChild(s, i) && i != last ==> s.children[i] == (if i in running then Running else Gone)
  }

  lemma Leaves(s: State, sc: Script, last: Child, winner: Option<Child>, error: Option<Err>,
               running: set<Child>, i: Child)
    returns (s': State)
    requires Waiting(s, sc, last, winner, error, running) && i in running && IsChild(s, i)
    requires CanPlay(sc, i) && (winner.Some? || sc.plan[i].SentValue?)
    ensures Waiting(s', sc, last, winner, error, running - {i})
  {
    var s1 := Arrives(s, sc, i);
    Unrefused(s1, i);
    NotTheLast(s1, last, i);
    SomebodyLeft(s1, i);
    s' := Departs(s1, sc, i, last);
    assert s.children[i := Decrement][i := Gone] == s.children[i := Gone];
    LeftWaiting(s, s', sc, last, winner, error, running, i);
  }

  lemma LeftWaiting(s: State, s': State, sc: Script, last: Child, winner: Option<Child>, error: Option<Err>,
                    running: set<Child>, i: Child)
    requires Waiting(s, sc, last, winner, error, running) && Has(s', sc, last, Decrement)
    requires s'.winner == s.winner && s'.error == s.error
    requires i != last && IsChild(s, i) && s'.children == s.children[i := Gone]
    ensures Waiting(s', sc, last, winner, error, running - {i})
  {
    forall j: Child | IsChild(s', j) && j != last
      ensures s'.children[j] == (if j in running - {i} then Running else Gone)
    {
      assert IsChild(s, j);
    }
  }

  lemma Departs(s: State, sc: Script, i: Child, last: Child) returns (s': State)
    requires Has(s, sc, i, Decrement) && s.remaining >= 2 && s.finisher.None? && Has(s, sc, last, Decrement)
    requires last != i
    ensures Has(s', sc, last, Decrement) && s'.winner == s.winner && s'.error == s.error
    ensures s'.children == s.children[i := Gone]
  {
    Acts(s, sc, i, Decrement, false);
    DecrementIs(s, i);
    s' := Decremented(s, i, Gone, None);
  }

  /** As long as two children have not decremented, the counter is at least two. */
  lemma NotTheLast(s: State, i: Child, j: Child)
    requires Inv(s) && IsChild(s, i) && IsChild(s, j) && i != j && !s.refused
    requires !HasArrived(s.children[i]) && !HasArrived(s.children[j])
    ensures s.remaining >= 2
  {
    assert ChildOk(s, i) && ChildOk(s, j);
    FullSet(s.arrived + {i}, |s.children|);
    assert |s.arrived + {i}| == |s.arrived| + 1;
    assert j !in s.arrived + {i};
  }

  lemma {:induction false} OthersLeave(s: State, sc: Script, last: Child, winner: Option<Child>, error: Option<Err>,
                                       running: set<Child>) returns (s': State)
    requires Waiting(s, sc, last, winner, error, running)
    requires forall i :: i in running ==> IsChild(s, i) && CanPlay(sc, i) && (winner.Some? || sc.plan[i].SentValue?)
    ensures Waiting(s', sc, last, winner, error, {})
    decreases |running|
  {
    if running == {} {
      s' := s;
    } else {
      var i :| i in running;
      var s1 := Leaves(s, sc, last, winner, error, running, i);
      s' := OthersLeave(s1, sc, last, winner, error, running - {i});
    }
  }

  // ---------- finish_one

  /** Child `last` is in `finish_one` and has read the terminal kind; everybody has sent what the script says. */
  ghost predicate AtDelivery(s: State, sc: Script, last: Child, winner: Option<Child>, error: Option<Err>) {
    && Has(s, sc, last, Deliver(s.terminal)) && s.winner == winner && s.error == error && !s.refused
    && (winner.None? ==> s.terminal.NoTerminal?) && (error.Some? ==> s.terminal.ErrorTerminal?)
    && (winner.Some? && error.None? ==> s.terminal.StoppedTerminal?)
  }

  lemma LastDecrements(s: State, sc: Script, last: Child) returns (s': State)
    requires Has(s, sc, last, Decrement) && s.remaining == 1 && s.finisher.None?
    ensures Has(s', sc, last, ResetOnStop) && SameOutcome(s, s')
  {
    Acts(s, sc, last, Decrement, false);
    DecrementIs(s, last);
    s' := Decremented(s, last, ResetOnStop, Some(last));
  }

  lemma Resets(s: State, sc: Script, last: Child) returns (s': State)
    requires Has(s, sc, last, ResetOnStop)
    ensures Has(s', sc, last, LoadTerminal) && SameOutcome(s, s')
  {
    Acts(s, sc, last, ResetOnStop, false);
    s' := Go(s, last, LoadTerminal).(onStop := false);
  }

  lemma ReadsTerminal(s: State, sc: Script, last: Child) returns (s': State)
    requires Has(s, sc, last, LoadTerminal)
    ensures Has(s', sc, last, Deliver(s'.terminal)) && SameOutcome(s, s')
  {
    Acts(s, sc, last, LoadTerminal, false);
    s' := Go(s, last, Deliver(s.terminal));
  }

  lemma OnlyOneLeft(s: State, last: Child)
    requires Inv(s) && !s.refused && IsChild(s, last) && !HasArrived(s.children[last])
    requires forall i: Child :: IsChild(s, i) && i != last ==> s.children[i].Gone?
    ensures s.remaining == 1
  {
    SomebodyLeft(s, last);
    forall i: nat | i < |s.children| ensures i in s.arrived + {last} { assert ChildOk(s, i); }
    CoversAll(s.arrived + {last}, |s.children|);
    assert ChildOk(s, last) && |s.arrived + {last}| == |s.arrived| + 1;
  }

  lemma TerminalIs(s: State, i: Child)
    requires Inv(s) && !s.refused && IsChild(s, i) && s.children[i].Deliver?
    ensures s.error.Some? ==> s.terminal.ErrorTerminal?
    ensures s.winner.None? ==> s.terminal.NoTerminal?
    ensures s.winner.Some? && s.error.None? ==> s.terminal.StoppedTerminal?
  {
    if s.winner.Some? { AllArrived(s); assert ChildOk(s, s.winner.value) && ChildOk(s, i); }
  }

  /** The last child decrements and gets as far as delivering. */
  lemma Finishes(s: State, sc: Script, last: Child, winner: Option<Child>, error: Option<Err>) returns (s': State)
    requires Waiting(s, sc, last, winner, error, {})
    ensures AtDelivery(s', sc, last, winner, error)
  {
    Unrefused(s, last);
    OnlyOneLeft(s, last);
    SomebodyLeft(s, last);
    var s1 := LastDecrements(s, sc, last);
    var s2 := Resets(s1, sc, last);
    s' := ReadsTerminal(s2, sc, last);
    TerminalIs(s', last);
  }

  // ---------- whole runs up to there

  predicate IsOther(n: nat, i: Child, last: Child) { i < n && i != last }
  function Others(n: nat, last: Child): set<Child> { set i: Child | i < n && IsOther(n, i, last) }

  /** Child `last` has come to its decrement before any other child completed. */
  lemma OthersFollow(s: State, sc: Script, last: Child) returns (s': State)
    requires Has(s, sc, last, Decrement)
    requires forall i: Child :: IsChild(s, i) && i != last ==> s.children[i].Running?
    requires forall i: Child :: i < Count(sc.config) && i != last ==>
              CanPlay(sc, i) && (s.winner.Some? || sc.plan[i].SentValue?)
    ensures AtDelivery(s', sc, last, s.winner, s.error)
  {
    var others := Others(Count(sc.config), last);
    assert Waiting(s, sc, last, s.winner, s.error, others);
    var s1 := OthersLeave(s, sc, last, s.winner, s.error, others);
    s' := Finishes(s1, sc, last, s.winner, s.error);
  }

  /** All children send values. */
  lemma ValuesOnly(sc: Script) returns (s: State)
    requires 0 < Count(sc.config)
    requires forall i: Child :: i < Count(sc.config) ==> CanPlay(sc, i) && sc.plan[i].SentValue?
    ensures AtDelivery(s, sc, 0, None, None)
  {
    assert CanPlay(sc, 0);
    s := StartsTo(sc, Count(sc.config));
    s := Arrives(s, sc, 0);
    Unrefused(s, 0);
    NoWinnerYet(s);
    s := OthersFollow(s, sc, 0);
  }

  /** Child `i` is the first to complete, without a value. */
  lemma FailsFirst(sc: Script, i: Child, throws: bool) returns (s: State)
    requires forall j: Child :: j < Count(sc.config) ==> CanPlay(sc, j)
    requires i < Count(sc.config) && HasRole(sc, i) && !sc.plan[i].SentValue?
    requires throws ==> sc.plan[i].SentError? && !sc.config.errorsNothrow
    ensures AtDelivery(s, sc, i, Some(i), SlotAfter(sc.plan[i], throws))
  {
    var s0 := StartsTo(sc, Count(sc.config));
    assert CanPlay(sc, i);
    var s1 := Plays(s0, sc, i);
    var s2 := Wins(s1, sc, i, throws);
    assert s0.children[i := After(sc.plan[i])][i := Decrement] == s0.children[i := Decrement];
    s := OthersFollow(s2, sc, i);
  }

  /** Connecting the last child throws, before any other child completes. */
  lemma ConnectFailsFirst(sc: Script, i: Child) returns (s: State)
    requires i + 1 == Count(sc.config) && HasRole(sc, i) && sc.plan[i] == SentThrow && !sc.config.connectNothrow
    requires forall j: Child :: j < i ==> CanPlay(sc, j)
    ensures AtDelivery(s, sc, i, Some(i), Some(Exception))
  {
    var s0 := StartsTo(sc, i);
    var s1 := LastFailsToConnect(s0, sc, i);
    var s2 := Wins(s1, sc, i, false);
    assert s0.children[i := ErrorExchange(Exception)][i := Decrement] == s0.children[i := Decrement];
    s := OthersFollow(s2, sc, i);
  }

  // ---------- what they end in

  /** A run by the script has delivered `o`, and every child has sent its part. */
  ghost predicate Ended(s: State, sc: Script, o: Outcome) {
    && Reachable(s) && s.config == sc.config && s.delivered == [o] && |s.sent| == |sc.plan|
    && forall i :: 0 <= i < |s.sent| ==> s.sent[i] == Some(sc.plan[i])
  }

  lemma EverybodySent(s: State, sc: Script, last: Child, pc: Pc)
    requires Has(s, sc, last, pc) && (pc.Deliver? || pc.Join?)
    ensures s.delivered == [] && forall i :: 0 <= i < |s.sent| ==> s.sent[i] == Some(sc.plan[i])
  {
    assert ChildOk(s, last);
    AllArrived(s);
    forall i: Child | i < |s.sent| ensures s.sent[i] == Some(sc.plan[i]) { assert IsChild(s, i) && ChildOk(s, i); }
  }

  /** A winner's error, or its being stopped, is delivered. */
  lemma DeliversFailure(s: State, sc: Script, last: Child, winner: Child, error: Option<Err>) returns (s': State)
    requires AtDelivery(s, sc, last, Some(winner), error)
    ensures Ended(s', sc, if error.Some? then Failed(error.value) else Stopped)
  {
    EverybodySent(s, sc, last, Deliver(s.terminal));
    Acts(s, sc, last, Deliver(s.terminal), false);
    s' := ActStep(s, last, Deliver(s.terminal), false).value;
  }

  lemma ToJoin(s: State, sc: Script, last: Child) returns (s': State)
    requires AtDelivery(s, sc, last, None, None) && SendsValue(sc.config)
    ensures Has(s', sc, last, Join)
  {
    Acts(s, sc, last, Deliver(s.terminal), false);
    s' := Go(s, last, Join);
  }

  /** What all children have sent. */
  function Everything(sc: Script): seq<Option<Sent>> {
    seq(|sc.plan|, i requires 0 <= i < |sc.plan| => Some(sc.plan[i]))
  }

  /** The values of all children are delivered, unless joining them throws. */
  lemma DeliversValues(s: State, sc: Script, last: Child, throws: bool) returns (s': State)
    requires AtDelivery(s, sc, last, None, None) && SendsValue(sc.config) && (throws ==> !sc.config.moveNothrow)
    requires forall i :: 0 <= i < |sc.plan| ==> sc.plan[i].SentValue?
    ensures Ended(s', sc, if throws then Failed(Exception) else Values(Joined(ValuesOf(Everything(sc)))))
  {
    var s1 := ToJoin(s, sc, last);
    EverybodySent(s1, sc, last, Join);
    assert s1.sent == Everything(sc);
    ValuesAgree(s1);
    Acts(s1, sc, last, Join, throws);
    s' := JoinStep(s1, last, throws).value;
  }

  /** All children send values. */
  lemma EndsInValues(sc: Script, throws: bool) returns (s: State)
    requires 0 < Count(sc.config) == |sc.plan| && SendsValue(sc.config) && (throws ==> !sc.config.moveNothrow)
    requires forall i: Child :: i < Count(sc.config) ==> CanPlay(sc, i) && sc.plan[i].SentValue?
    ensures Ended(s, sc, if throws then Failed(Exception) else Values(Joined(ValuesOf(Everything(sc)))))
  {
    s := ValuesOnly(sc);
    s := DeliversValues(s, sc, 0, throws);
  }

  /** What is delivered if the first to complete without a value has sent `sent`. */
  function OutcomeOf(sent: Sent, throws: bool): Outcome {
    if SlotAfter(sent, throws).Some? then Failed(SlotAfter(sent, throws).value) else Stopped
  }

  /** Child `i` is the first to complete without a value. */
  lemma EndsInFailure(sc: Script, i: Child, throws: bool) returns (s: State)
    requires forall j: Child :: j < Count(sc.config) ==> CanPlay(sc, j)
    requires i < Count(sc.config) && HasRole(sc, i) && !sc.plan[i].SentValue?
    requires throws ==> sc.plan[i].SentError? && !sc.config.errorsNothrow
    ensures Ended(s, sc, OutcomeOf(sc.plan[i], throws))
  {
    s := FailsFirst(sc, i, throws);
    s := DeliversFailure(s, sc, i, i, SlotAfter(sc.plan[i], throws));
  }

  /** Connecting the last child throws. */
  lemma EndsInConnect(sc: Script, i: Child) returns (s: State)
    requires i + 1 == Count(sc.config) && HasRole(sc, i) && sc.plan[i] == SentThrow && !sc.config.connectNothrow
    requires forall j: Child :: j < i ==> CanPlay(sc, j)
    ensures Ended(s, sc, Failed(Exception))
  {
    s := ConnectFailsFirst(sc, i);
    s := DeliversFailure(s, sc, i, i, Some(Exception));
  }

  /** The program ends where what is delivered is moved outside a `try`. */
  lemma Breaks(s: State, sc: Script, last: Child, winner: Option<Child>, error: Option<Err>) returns (s': State)
    requires AtDelivery(s, sc, last, winner, error)
    requires if winner.None? then !sc.config.moveNothrow && SendsValue(sc.config)
             else !sc.config.errorMoveNothrow && error.Some? && error.value.Raised?
    ensures Reachable(s') && s'.config == sc.config && s'.terminated
  {
    Acts(s, sc, last, Deliver(s.terminal), true);
    s' := Go(s, last, Gone).(terminated := true);
  }
}
