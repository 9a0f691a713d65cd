/** Round by round: every round of repeat_until asks for a stop request, connects a fresh child, lets it complete and
    asks the predicate, in this order and each once, and takes whatever the answers may be. */
module RepeatUntilRounds {
  import opened Runs
  import opened RepeatUntil
  import opened RepeatUntilTheorems

  /** What is asked next. */
  datatype Question = AskStop | AskConnect | AskChild | AskPredicate | Over

  /** The sequential loop between two answers: what it asks, the rounds so far, what the child has stored. */
  datatype Judgement = Judgement(question: Question, rounds: seq<Round>, kept: Option<Completion>)

  const BEGINNING := Judgement(AskStop, [], None)

  function RoundOver(j: Judgement, round: Round): Judgement {
    Judgement(if round.Ran? && round.c.Value? && round.verdict.Again? then AskStop else Over, j.rounds + [round], None)
  }

  /** What an answer makes of it, or `None` if this is not what is asked, or cannot be the answer. */
  function Judge(config: Config, j: Judgement, answer: Step): Option<Judgement> {
    match (j.question, answer)
    case (AskStop, Stop(_, requested)) =>
      Some(if requested then RoundOver(j, StopSeen) else j.(question := AskConnect))
    case (AskConnect, Connects(_, throws)) =>
      if !throws then Some(j.(question := AskChild))
      else if config.factoryNothrow && config.connectNothrow then None
      else Some(RoundOver(j, ConnectThrew))
    case (AskChild, Completes(_, c, storing)) =>
      if !MayStore(config, c, storing) then None
      else if storing.Escaped? then Some(RoundOver(j, StoreThrew))
      else Some(Judgement(AskPredicate, j.rounds, Some(if storing.Kept? then c else Exception)))
    case (AskPredicate, Predicate(_, verdict)) =>
      if j.kept.None? || (j.kept.value.Value? && verdict.Threw? && config.predicateNothrow) then None
      else Some(RoundOver(j, Ran(j.kept.value, verdict)))
    case _ => None
  }

  function Asked(s: State): Question {
    match s.holder
    case Nobody => Over
    case Owner(x) =>
      (match At(s, x)
       case Reset => AskStop
       case CheckStop => AskStop
       case LoadEpoch => AskConnect
       case Connect(_) => AskConnect
       case Start(_) => AskChild
       case _ => AskPredicate)
    case Race(_, child) => if At(s, child).Running? then AskChild else AskPredicate
  }

  /** Where a state of the protocol stands in the sequential loop. */
  function Standing(s: State): Judgement {
    Judgement(Asked(s), s.rounds, if Asked(s).AskPredicate? then s.stored else None)
  }

  /** A step that answers nothing leaves the standing alone; the others are the answers that are asked for. */
  ghost predicate Simulates(s: State, st: Step) {
    Next(s, st).Some? ==>
      if st.Advance? then Standing(Next(s, st).value) == Standing(s)
      else Judge(s.config, Standing(s), st) == Some(Standing(Next(s, st).value))
  }

  lemma StopSimulates(s: State, x: Act, requested: bool)
    requires Inv(s)
    ensures Simulates(s, Stop(x, requested))
  {
    if Next(s, Stop(x, requested)).Some? { OnlyOwner(s, x); }
  }

  lemma ConnectsSimulates(s: State, x: Act, throws: bool)
    requires Inv(s)
    ensures Simulates(s, Connects(x, throws))
  {
    if Next(s, Connects(x, throws)).Some? { OnlyOwner(s, x); }
  }

  lemma CompletesSimulates(s: State, x: Act, c: Completion, storing: Storing)
    requires Inv(s)
    ensures Simulates(s, Completes(x, c, storing))
  {
    if Next(s, Completes(x, c, storing)).Some? { OnlyRacers(s, x); }
  }

  lemma PredicateSimulates(s: State, x: Act, verdict: Verdict)
    requires Inv(s)
    ensures Simulates(s, Predicate(x, verdict))
  {
    if Next(s, Predicate(x, verdict)).Some? { OnlyOwner(s, x); }
  }

  lemma OwnerSimulates(s: State, x: Act)
    requires Inv(s) && Owns(At(s, x)) && !At(s, x).Start?
    ensures Simulates(s, Advance(x))
  {
    OnlyOwner(s, x);
  }

  lemma StartSimulates(s: State, x: Act)
    requires Inv(s) && At(s, x).Start? && !s.terminated
    ensures Simulates(s, Advance(x))
  {
    OnlyOwner(s, x);
    var s1 := Go(s, x, DrainExchange(At(s, x).epoch));
    OthersStay(s1, Next(s, Advance(x)).value, |s.rounds| + 1);
  }

  lemma RaceSimulates(s: State, x: Act)
    requires Inv(s) && !s.terminated && (At(s, x).DrainExchange? || At(s, x).ChildExchange?)
    ensures Simulates(s, Advance(x))
  {
    OnlyRacers(s, x);
  }

  lemma StepSimulates(s: State, st: Step)
    requires Inv(s)
    ensures Simulates(s, st)
  {
    match st
    case Stop(x, requested) => StopSimulates(s, x, requested);
    case Connects(x, throws) => ConnectsSimulates(s, x, throws);
    case Completes(x, c, storing) => CompletesSimulates(s, x, c, storing);
    case Predicate(x, verdict) => PredicateSimulates(s, x, verdict);
    case Advance(x) =>
      if Next(s, st).Some? {
        if At(s, x).Start? { StartSimulates(s, x); }
        else if Owns(At(s, x)) { OwnerSimulates(s, x); }
        else { RaceSimulates(s, x); }
      }
  }

  /** The answers given in the course of a run. */
  function Answers(steps: seq<Step>): seq<Step> {
    if steps == [] then [] else (if steps[0].Advance? then [] else [steps[0]]) + Answers(steps[1..])
  }

  /** What a sequence of answers comes to. */
  function Judged(config: Config, j: Judgement, answers: seq<Step>): Option<Judgement>
    decreases |answers|
  {
    if answers == [] then Some(j)
    else match Judge(config, j, answers[0])
      case None => None
      case Some(j1) => Judged(config, j1, answers[1..])
  }

  lemma {:induction false} RunIsJudged(s: State, steps: seq<Step>)
    requires Inv(s) && Exec(Next, s, steps).Some?
    ensures Judged(s.config, Standing(s), Answers(steps)) == Some(Standing(Exec(Next, s, steps).value))
    decreases |steps|
  {
    if steps == [] {
    } else {
      var s1 := Next(s, steps[0]).value;
      StepSimulates(s, steps[0]);
      Keeps(s, steps[0]);
      ConfigStays(s, steps[0]);
      RunIsJudged(s1, steps[1..]);
      assert steps[0].Advance? ==> [] + Answers(steps[1..]) == Answers(steps[1..]);
      assert !steps[0].Advance? ==> ([steps[0]] + Answers(steps[1..]))[1..] == Answers(steps[1..]);
    }
  }

  lemma ConfigStays(s: State, st: Step)
    requires Next(s, st).Some?
    ensures Next(s, st).value.config == s.config
  {
  }

  /** In every run the answers are those the sequential loop asks for, in its order: a child is connected only after the
      stop check of its own round, started and completed only after that, and judged once. The rounds are what they
      spell. */
  lemma EveryRoundIsAsked(config: Config, steps: seq<Step>, s: State)
    requires Exec(Next, Started(config), steps) == Some(s)
    ensures Judged(config, BEGINNING, Answers(steps)).Some?
    ensures Judged(config, BEGINNING, Answers(steps)).value.rounds == s.rounds
  {
    assert Inv(Started(config)) by {
      assert Exec(Next, Started(config), []) == Some(Started(config));
      InvHolds(Started(config));
    }
    RunIsJudged(Started(config), steps);
  }

  // ---------- every answer can be given

  /** The answer, given to activation `x`. */
  function To(answer: Step, x: Act): Step {
    match answer
    case Stop(_, requested) => Stop(x, requested)
    case Connects(_, throws) => Connects(x, throws)
    case Completes(_, c, storing) => Completes(x, c, storing)
    case Predicate(_, verdict) => Predicate(x, verdict)
    case Advance(_) => Advance(x)
  }

  predicate AllAdvance(steps: seq<Step>) { forall st :: st in steps ==> st.Advance? }

  /** The operation takes the answer after steps that answer nothing. */
  ghost predicate Takes(s: State, answer: Step) {
    exists steps, x :: AllAdvance(steps) && |steps| <= 2 && Exec(Next, s, steps).Some?
                       && Next(Exec(Next, s, steps).value, To(answer, x)).Some?
  }

  lemma TakesNow(s: State, answer: Step, x: Act)
    requires Next(s, To(answer, x)).Some?
    ensures Takes(s, answer)
  {
    assert Exec(Next, s, []) == Some(s) && AllAdvance([]);
  }

  lemma TakesAfterOne(s: State, answer: Step, y: Act, x: Act)
    requires Next(s, Advance(y)).Some? && Next(Next(s, Advance(y)).value, To(answer, x)).Some?
    ensures Takes(s, answer)
  {
    var s1 := Next(s, Advance(y)).value;
    assert Exec(Next, s1, []) == Some(s1);
    assert Exec(Next, s, [Advance(y)]) == Some(s1) && AllAdvance([Advance(y)]);
  }

  lemma TakesAfterTwo(s: State, answer: Step, y: Act, z: Act, x: Act)
    requires Next(s, Advance(y)).Some? && Next(Next(s, Advance(y)).value, Advance(z)).Some?
    requires Next(Next(Next(s, Advance(y)).value, Advance(z)).value, To(answer, x)).Some?
    ensures Takes(s, answer)
  {
    var steps := [Advance(y), Advance(z)];
    var s1 := Next(s, Advance(y)).value;
    var s2 := Next(s1, Advance(z)).value;
    assert Exec(Next, s2, []) == Some(s2);
    assert steps[1..] == [Advance(z)] && Exec(Next, s1, [Advance(z)]) == Some(s2);
    assert Exec(Next, s, steps) == Some(s2) && AllAdvance(steps);
  }

  lemma OwnerTakes(s: State, answer: Step)
    requires Inv(s) && s.holder.Owner? && !s.terminated
    requires !answer.Advance? && Judge(s.config, Standing(s), answer).Some?
    ensures Takes(s, answer)
  {
    var x := s.holder.x;
    match At(s, x)
    case Reset => TakesAfterOne(s, answer, x, x);
    case LoadEpoch => TakesAfterOne(s, answer, x, x);
    case Start(_) => TakesAfterOne(s, answer, x, |s.rounds| + 1);
    case _ => TakesNow(s, answer, x);
  }

  lemma RaceTakes(s: State, answer: Step)
    requires Inv(s) && s.holder.Race? && !s.terminated
    requires !answer.Advance? && Judge(s.config, Standing(s), answer).Some?
    ensures Takes(s, answer)
  {
    var d, c := s.holder.drain, s.holder.child;
    if At(s, c).Running? { TakesNow(s, answer, c); }
    else if At(s, d).Gone? { TakesAfterOne(s, answer, c, c); }
    else if At(s, c).Gone? { TakesAfterOne(s, answer, d, d); }
    else { TakesAfterTwo(s, answer, c, d, d); }
  }

  /** Whatever the loop asks, it takes every answer that may be given, after at most two steps that answer nothing: stop
      may be requested in every round, connecting and the predicate may throw if they may at all. */
  lemma EveryAnswerIsTaken(s: State, answer: Step)
    requires Reachable(s) && !answer.Advance? && Judge(s.config, Standing(s), answer).Some?
    ensures Takes(s, answer)
  {
    InvHolds(s);
    match s.holder
    case Owner(_) => OwnerTakes(s, answer);
    case Race(_, _) => RaceTakes(s, answer);
    case Nobody =>
  }

  // ---------- the epoch

  /** The epoch counts the rounds that have been raced for, as an unsigned 64-bit counter does: a round adds one with
      its first exchange. */
  ghost predicate EpochOk(s: State) {
    match s.holder
    case Owner(x) => s.epoch == (|s.rounds| + (if At(s, x).Process? then 1 else 0)) % EPOCHS
    case Race(d, c) => s.epoch == (|s.rounds| + (if At(s, d).Gone? || At(s, c).Gone? then 1 else 0)) % EPOCHS
    case Nobody => true
  }

  lemma SuccCounts(n: nat)
    ensures Succ(n % EPOCHS) == (n + 1) % EPOCHS
  {
  }

  lemma RaceCounts(s: State, x: Act)
    requires Inv(s) && EpochOk(s) && !s.terminated && (At(s, x).DrainExchange? || At(s, x).ChildExchange?)
    ensures EpochOk(Next(s, Advance(x)).value)
  {
    OnlyRacers(s, x);
    SuccCounts(|s.rounds|);
  }

  lemma OwnerCounts(s: State, st: Step)
    requires Inv(s) && EpochOk(s) && Next(s, st).Some? && Owns(At(s, st.x))
    ensures EpochOk(Next(s, st).value)
  {
    OnlyOwner(s, st.x);
  }

  lemma ChildCounts(s: State, x: Act, c: Completion, storing: Storing)
    requires Inv(s) && EpochOk(s) && Next(s, Completes(x, c, storing)).Some?
    ensures EpochOk(Next(s, Completes(x, c, storing)).value)
  {
    OnlyRacers(s, x);
  }

  lemma StepCounts(s: State, st: Step)
    requires Inv(s) && EpochOk(s) && Next(s, st).Some?
    ensures EpochOk(Next(s, st).value)
  {
    match st
    case Completes(x, c, storing) => ChildCounts(s, x, c, storing);
    case Advance(x) => if Owns(At(s, x)) { OwnerCounts(s, st); } else { RaceCounts(s, x); }
    case _ => OwnerCounts(s, st);
  }

  lemma StartCounts(config: Config)
    ensures Inv(Started(config)) && EpochOk(Started(config))
  {
    assert Exec(Next, Started(config), []) == Some(Started(config));
    InvHolds(Started(config));
  }

  lemma EpochCountsRounds(s: State)
    requires Reachable(s)
    ensures EpochOk(s)
  {
    var config, steps :| Exec(Next, Started(config), steps) == Some(s);
    StartCounts(config);
    var counts := (y: State) => Inv(y) && EpochOk(y);
    forall y, st | counts(y) && Next(y, st).Some? ensures counts(Next(y, st).value) {
      Keeps(y, st);
      StepCounts(y, st);
    }
    Preserved(Next, counts, Started(config), steps);
  }
}
