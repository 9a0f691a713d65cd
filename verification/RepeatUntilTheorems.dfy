/** Every step of repeat_until keeps its invariant, and what follows: it refines the sequential loop. */
module RepeatUntilTheorems {
  import opened Runs
  import opened RepeatUntil

  /** One more round, after rounds that all asked for more. */
  lemma {:induction false} LoopGoesOn(config: Config, rounds: seq<Round>, round: Round)
    requires Loop(config, rounds).Continues?
    ensures Loop(config, rounds + [round]) == Loop(config, [round])
  {
    if rounds == [] {
      assert rounds + [round] == [round];
    } else {
      assert (rounds + [round])[1..] == rounds[1..] + [round];
      LoopGoesOn(config, rounds[1..], round);
    }
  }

  lemma SentGrows(rounds: seq<Round>, round: Round)
    ensures Sent(rounds + [round]) == Sent(rounds) + (if round.Ran? then [round.c] else [])
  {
    assert (rounds + [round])[..|rounds|] == rounds;
  }

  /** The step that decides a round: `round` is over, with completion `c` or with another round to follow. */
  lemma RoundEnds(s: State, round: Round)
    requires Inv(s) && !s.holder.Nobody?
    ensures Loop(s.config, s.rounds + [round]) == Loop(s.config, [round])
    ensures Sent(s.rounds + [round]) == Sent(s.rounds) + (if round.Ran? then [round.c] else [])
  {
    LoopGoesOn(s.config, s.rounds, round);
    SentGrows(s.rounds, round);
  }

  lemma OnlyOwner(s: State, x: Act)
    requires Inv(s) && Owns(At(s, x))
    ensures s.holder == Owner(x) && OwnerOk(s, x)
  {
  }

  lemma OnlyRacers(s: State, x: Act)
    requires Inv(s) && !s.terminated && (At(s, x).DrainExchange? || At(s, x).ChildExchange? || At(s, x).Running?)
    ensures s.holder.Race? && RaceOk(s, s.holder.drain, s.holder.child)
    ensures x == if At(s, x).DrainExchange? then s.holder.drain else s.holder.child
  {
  }

  lemma OthersStay(s: State, s': State, x: Act)
    requires x in s'.acts && s'.acts == s.acts[x := s'.acts[x]]
    ensures forall z :: z != x ==> At(s', z) == At(s, z)
  {
  }

  /** The owner of the operation ends the loop: with completion `c`, or with the program. */
  lemma LoopEnds(s: State, x: Act, round: Round, c: Completion)
    requires Inv(s) && Owns(At(s, x)) && Loop(s.config, [round]) == Delivers(c)
    requires if round.Ran? then At(s, x).Process? && s.stored == Some(round.c) else !At(s, x).Process?
    ensures Inv(Deliver(s, x, round, c))
  {
    OnlyOwner(s, x);
    OthersStay(s, Deliver(s, x, round, c), x);
    RoundEnds(s, round);
  }

  lemma ProgramEnds(s: State, x: Act)
    requires Inv(s) && Owns(At(s, x)) && !At(s, x).Process? && !NeedExceptionPtr(s.config)
    ensures Inv(Terminate(s, x, ConnectThrew))
  {
    OnlyOwner(s, x);
    OthersStay(s, Terminate(s, x, ConnectThrew), x);
    RoundEnds(s, ConnectThrew);
  }

  /** Storing the completion of a child ends the program. */
  lemma ChildEnds(s: State, x: Act)
    requires Inv(s) && !s.terminated && At(s, x).Running?
    ensures Inv(Terminate(s, x, StoreThrew))
  {
    OnlyRacers(s, x);
    OthersStay(s, Terminate(s, x, StoreThrew), x);
    RoundEnds(s, StoreThrew);
  }

  /** The owner goes on to the next round. */
  lemma LoopGoesRound(s: State, x: Act)
    requires Inv(s) && At(s, x).Process? && s.stored.Some? && s.stored.value.Value?
    ensures Inv(Go(s, x, Reset).(stored := None, rounds := s.rounds + [Ran(s.stored.value, Again)]))
  {
    OnlyOwner(s, x);
    OthersStay(s, Go(s, x, Reset).(stored := None, rounds := s.rounds + [Ran(s.stored.value, Again)]), x);
    RoundEnds(s, Ran(s.stored.value, Again));
  }

  lemma KeepsStop(s: State, x: Act, requested: bool)
    requires Inv(s) && At(s, x).CheckStop?
    ensures Inv(if requested then Deliver(s, x, StopSeen, Stopped) else Go(s, x, LoadEpoch))
  {
    OnlyOwner(s, x);
    OthersStay(s, Go(s, x, LoadEpoch), x);
    if requested { LoopEnds(s, x, StopSeen, Stopped); }
  }

  lemma KeepsConnect(s: State, x: Act)
    requires Inv(s) && At(s, x).Connect?
    ensures Inv(Go(s, x, Start(At(s, x).epoch)).(current := true))
  {
    OnlyOwner(s, x);
    OthersStay(s, Go(s, x, Start(At(s, x).epoch)).(current := true), x);
  }

  lemma KeepsConnects(s: State, x: Act, throws: bool)
    requires Inv(s) && Next(s, Connects(x, throws)).Some?
    ensures Inv(Next(s, Connects(x, throws)).value)
  {
    if !throws { KeepsConnect(s, x); }
    else if NeedExceptionPtr(s.config) { LoopEnds(s, x, ConnectThrew, Exception); }
    else { ProgramEnds(s, x); }
  }

  lemma KeepsStored(s: State, x: Act, kept: Completion)
    requires Inv(s) && !s.terminated && At(s, x).Running?
    ensures Inv(Go(s, x, ChildExchange(At(s, x).epoch)).(stored := Some(kept), sent := s.sent + [kept]))
  {
    OnlyRacers(s, x);
    OthersStay(s, Go(s, x, ChildExchange(At(s, x).epoch)).(stored := Some(kept), sent := s.sent + [kept]), x);
  }

  lemma KeepsCompletes(s: State, x: Act, c: Completion, storing: Storing)
    requires Inv(s) && Next(s, Completes(x, c, storing)).Some?
    ensures Inv(Next(s, Completes(x, c, storing)).value)
  {
    if storing.Escaped? { ChildEnds(s, x); } else { KeepsStored(s, x, if storing.Kept? then c else Exception); }
  }

  lemma KeepsPredicate(s: State, x: Act, verdict: Verdict)
    requires Inv(s) && Next(s, Predicate(x, verdict)).Some?
    ensures Inv(Next(s, Predicate(x, verdict)).value)
  {
    var c := s.stored.value;
    if !c.Value? || verdict.Done? { LoopEnds(s, x, Ran(c, verdict), c); }
    else if verdict.Threw? { LoopEnds(s, x, Ran(c, Threw), Exception); }
    else { LoopGoesRound(s, x); }
  }

  lemma KeepsExchange(s: State, x: Act)
    requires Inv(s) && !s.terminated && (At(s, x).DrainExchange? || At(s, x).ChildExchange?)
    ensures Inv(Exchange(s, x, At(s, x).epoch))
  {
    OnlyRacers(s, x);
    OthersStay(s, Exchange(s, x, At(s, x).epoch), x);
  }

  lemma KeepsOwned(s: State, x: Act)
    requires Inv(s) && !s.terminated && (At(s, x).Reset? || At(s, x).LoadEpoch?)
    ensures Inv(Next(s, Advance(x)).value)
  {
    OnlyOwner(s, x);
    OthersStay(s, Next(s, Advance(x)).value, x);
  }

  lemma KeepsStart(s: State, x: Act)
    requires Inv(s) && !s.terminated && At(s, x).Start?
    ensures Inv(Next(s, Advance(x)).value)
  {
    OnlyOwner(s, x);
    var s' := Next(s, Advance(x)).value;
    var s1 := Go(s, x, DrainExchange(At(s, x).epoch));
    OthersStay(s, s1, x);
    OthersStay(s1, s', |s.rounds| + 1);
  }

  lemma Keeps(s: State, st: Step)
    requires Inv(s) && Next(s, st).Some?
    ensures Inv(Next(s, st).value)
  {
    match st
    case Stop(x, requested) => KeepsStop(s, x, requested);
    case Connects(x, throws) => KeepsConnects(s, x, throws);
    case Completes(x, c, storing) => KeepsCompletes(s, x, c, storing);
    case Predicate(x, verdict) => KeepsPredicate(s, x, verdict);
    case Advance(x) => if At(s, x).DrainExchange? || At(s, x).ChildExchange? { KeepsExchange(s, x); }
                       else if At(s, x).Start? { KeepsStart(s, x); } else { KeepsOwned(s, x); }
  }

  ghost predicate Reachable(s: State) { exists config, steps :: Exec(Next, Started(config), steps) == Some(s) }

  lemma InvHolds(s: State)
    requires Reachable(s)
    ensures Inv(s)
  {
    var config, steps :| Exec(Next, Started(config), steps) == Some(s);
    forall y, st | Inv(y) && Next(y, st).Some? ensures Inv(Next(y, st).value) { Keeps(y, st); }
    Preserved(Next, Inv, Started(config), steps);
  }

  // ---------- theorems

  /** The operation completes exactly as the sequential loop does on the same stop checks, children and verdicts, and
      round by round it was the children's own completions that were judged, in order. */
  lemma RefinesLoop(s: State)
    requires Reachable(s)
    ensures Loop(s.config, s.rounds).Continues? <==> s.delivered == [] && !s.terminated
    ensures forall c :: Loop(s.config, s.rounds) == Delivers(c) <==> s.delivered == [c]
    ensures Loop(s.config, s.rounds).Terminates? <==> s.terminated
    ensures Sent(s.rounds) <= s.sent && |s.sent| <= |Sent(s.rounds)| + 1
  {
    InvHolds(s);
    assert forall c :: Loop(s.config, s.rounds) == Delivers(c) ==> [c][0] == c;
  }

  /** No round is played after the one that ended the loop. */
  lemma NoRoundAfterTheLast(s: State, st: Step)
    requires Reachable(s) && !Loop(s.config, s.rounds).Continues?
    ensures Next(s, st) == None
  {
    InvHolds(s);
    assert s.terminated || Away(At(s, st.x));
  }

  /** At most one completion; and once it is sent, no activation is left that could touch the operation. */
  lemma CompletesOnce(s: State, x: Act)
    requires Reachable(s)
    ensures |s.delivered| <= 1
    ensures s.delivered != [] ==> Away(At(s, x))
  {
    InvHolds(s);
  }

  /** Whoever uses the fields of the operation is alone with it. */
  lemma OneOwner(s: State, x: Act, y: Act)
    requires Reachable(s) && Owns(At(s, x)) && y != x
    ensures Away(At(s, y))
  {
    InvHolds(s);
    OnlyOwner(s, x);
  }

  /** Only the child writes `stored_` while the race is on, and only once; the child's operation state outlives both. */
  lemma ChildStoresAlone(s: State, x: Act, y: Act)
    requires Reachable(s) && At(s, x).Running? && y != x
    ensures s.stored.None? && s.current && (Away(At(s, y)) || At(s, y).DrainExchange?)
  {
    InvHolds(s);
    OnlyRacers(s, x);
  }

  /** In each round exactly one of drain and child loses the exchange, the one that comes second, and owns
      everything. */
  lemma OneLoserPerRound(s: State, x: Act)
    requires Reachable(s) && !s.terminated && (At(s, x).DrainExchange? || At(s, x).ChildExchange?)
    ensures s.holder.Race?
    ensures var other := if x == s.holder.drain then s.holder.child else s.holder.drain;
            var s' := Next(s, Advance(x)).value;
            if At(s, other).Gone?
            then At(s', x).Process? && s'.holder == Owner(x) && s'.epoch == s.epoch && s'.stored.Some?
            else At(s', x).Gone? && s'.epoch == Succ(s.epoch) && !At(s', other).Gone?
  {
    InvHolds(s);
    OnlyRacers(s, x);
  }

  /** A completion whose exchange comes before the drain's, as a synchronous one does, never processes and never
      drains. */
  lemma EarlyCompletionLeaves(s: State, x: Act, steps: seq<Step>)
    requires Reachable(s) && !s.terminated && At(s, x).ChildExchange? && s.holder.Race?
    requires At(s, s.holder.drain).DrainExchange?
    requires Exec(Next, s, [Advance(x)] + steps).Some?
    ensures At(Exec(Next, s, [Advance(x)] + steps).value, x).Gone?
  {
    InvHolds(s);
    OnlyRacers(s, x);
    Keeps(s, Advance(x));
    assert ([Advance(x)] + steps)[1..] == steps;
    var left := (y: State) => HasLeft(y, x);
    forall y, st | left(y) && Next(y, st).Some? ensures left(Next(y, st).value) {
      Keeps(y, st);
      GoneStays(y, st, x);
    }
    Preserved(Next, left, Next(s, Advance(x)).value, steps);
  }

  /** The activation has left, and its name will not be used for another child. */
  ghost predicate HasLeft(s: State, x: Act) {
    && Inv(s) && At(s, x).Gone? && x <= |s.rounds| + 1
    && (x == |s.rounds| + 1 ==> !s.holder.Owner? || At(s, s.holder.x).Process?)
  }

  lemma GoneStays(s: State, st: Step, x: Act)
    requires HasLeft(s, x) && Next(s, st).Some? && Inv(Next(s, st).value)
    ensures HasLeft(Next(s, st).value, x)
  {
    match st
    case Advance(y) => GoneAdvances(s, y, x);
    case Predicate(y, verdict) => GoneJudged(s, y, verdict, x);
    case _ =>
  }

  lemma GoneAdvances(s: State, y: Act, x: Act)
    requires HasLeft(s, x) && Next(s, Advance(y)).Some? && Inv(Next(s, Advance(y)).value)
    ensures HasLeft(Next(s, Advance(y)).value, x)
  {
    match At(s, y)
    case Reset => OnlyOwner(s, y);
    case LoadEpoch => OnlyOwner(s, y);
    case Start(_) => OnlyOwner(s, y);
    case DrainExchange(_) => OnlyRacers(s, y);
    case ChildExchange(_) => OnlyRacers(s, y);
  }

  lemma GoneJudged(s: State, y: Act, verdict: Verdict, x: Act)
    requires HasLeft(s, x) && Next(s, Predicate(y, verdict)).Some? && Inv(Next(s, Predicate(y, verdict)).value)
    ensures HasLeft(Next(s, Predicate(y, verdict)).value, x)
  {
    OnlyOwner(s, y);
    OthersStay(s, Next(s, Predicate(y, verdict)).value, y);
  }

  /** A step that the activation can always take. */
  function Move(x: Act, pc: Pc): Step {
    match pc
    case CheckStop => Stop(x, false)
    case Connect(_) => Connects(x, false)
    case Running(_) => Completes(x, Stopped, Kept)
    case Process => Predicate(x, Done)
    case _ => Advance(x)
  }

  /** Until the loop has ended, somebody can go on. */
  lemma NeverStuck(s: State)
    requires Reachable(s) && Loop(s.config, s.rounds).Continues?
    ensures exists st :: Next(s, st).Some?
  {
    InvHolds(s);
    var x := if s.holder.Owner? then s.holder.x
             else if At(s, s.holder.drain).Gone? then s.holder.child
             else s.holder.drain;
    assert Next(s, Move(x, At(s, x))).Some?;
  }

  // ---------- when the program ends

  lemma Reaches(s: State, st: Step)
    requires Reachable(s) && Next(s, st).Some?
    ensures Reachable(Next(s, st).value)
  {
    var config, steps :| Exec(Next, Started(config), steps) == Some(s);
    OneMoreStep(Next, Started(config), steps, st);
    assert Exec(Next, Started(config), steps + [st]) == Next(s, st);
  }

  lemma ReachesCheckStop(config: Config) returns (s: State)
    ensures Reachable(s) && s.config == config && At(s, 0).CheckStop? && !s.terminated && s.rounds == []
  {
    var s0 := Started(config);
    assert Exec(Next, s0, []) == Some(s0);
    Reaches(s0, Advance(0));
    s := Next(s0, Advance(0)).value;
  }

  /** The first round, up to the point where the child is connected. */
  lemma ReachesConnect(config: Config) returns (s: State)
    ensures Reachable(s) && s.config == config && At(s, 0).Connect? && !s.terminated && s.rounds == []
  {
    var s0 := ReachesCheckStop(config);
    Reaches(s0, Stop(0, false));
    var s1 := Next(s0, Stop(0, false)).value;
    Reaches(s1, Advance(0));
    s := Next(s1, Advance(0)).value;
  }

  lemma ReachesRunning(config: Config) returns (s: State)
    ensures Reachable(s) && s.config == config && At(s, 1).Running? && !s.terminated
  {
    var s0 := ReachesConnect(config);
    Reaches(s0, Connects(0, false));
    var s1 := Next(s0, Connects(0, false)).value;
    Reaches(s1, Advance(0));
    s := Next(s1, Advance(0)).value;
  }

  ghost predicate MayTerminate(config: Config) {
    (!NeedExceptionPtr(config) && !config.connectNothrow) || !config.movesNothrow
  }

  ghost function SomePayload(): Payload {
    var e: Payload :| true; e
  }

  lemma TerminatesIf(config: Config) returns (s: State)
    requires MayTerminate(config)
    ensures Reachable(s) && s.config == config && s.terminated
  {
    if !config.movesNothrow {
      var s0 := ReachesRunning(config);
      Reaches(s0, Completes(1, Value(SomePayload()), Escaped));
      s := Next(s0, Completes(1, Value(SomePayload()), Escaped)).value;
    } else {
      var s0 := ReachesConnect(config);
      Reaches(s0, Connects(0, true));
      s := Next(s0, Connects(0, true)).value;
    }
  }

  lemma TerminatesOnlyIf(s: State)
    requires Reachable(s) && s.terminated
    ensures MayTerminate(s.config)
  {
    var config, steps :| Exec(Next, Started(config), steps) == Some(s);
    var fine := (y: State) => y.terminated ==> MayTerminate(y.config);
    forall y, st | fine(y) && Next(y, st).Some? ensures fine(Next(y, st).value) {}
    Preserved(Next, fine, Started(config), steps);
  }

  /** The program can end in two ways: connecting throws where nothing else may, so that there is no completion for
      it; and a copy made outside any `try`, because making it cannot throw, throws when it is moved into place. */
  lemma TerminatesExactlyWhen(config: Config)
    ensures (exists s :: Reachable(s) && s.config == config && s.terminated) <==> MayTerminate(config)
  {
    if MayTerminate(config) {
      var s := TerminatesIf(config);
      assert Reachable(s) && s.config == config && s.terminated;
    }
    forall s | Reachable(s) && s.config == config && s.terminated ensures MayTerminate(config) { TerminatesOnlyIf(s); }
  }
}
