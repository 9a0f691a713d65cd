/** repeat_until as a transition system: the drain loop and the completion of each child race on the epoch counter, on
    any threads, one atomic access or one use of a shared field at a time.  A child that completes inside its own start
    is the interleaving in which all its steps come before the drain goes on. */
module RepeatUntil {
  import opened Runs

  /** 0 is the activation of start; r + 1 is the completion of the child of round r. */
  type Act = nat
  type Payload(==,!new,0)

  /** What cannot throw. `exception_ptr` is a completion of this operation only if one of the first four may throw.
      The last says of the arguments whose copies into the stored completion cannot throw, and are therefore made
      outside a `try`, that moving those copies into place cannot throw either. */
  datatype Config = Config(
    valuesNothrow: bool, errorsNothrow: bool, predicateNothrow: bool, factoryNothrow: bool, connectNothrow: bool,
    movesNothrow: bool)

  predicate NeedExceptionPtr(c: Config) {
    !(c.errorsNothrow && c.valuesNothrow && c.predicateNothrow && c.factoryNothrow)
  }

  datatype Completion = Value(v: Payload) | Error(e: Payload) | Exception | Stopped
  datatype Verdict = Done | Again | Threw

  /** `std::uint64_t`, and its increment. */
  const EPOCHS: nat := 0x1_0000_0000_0000_0000
  function Succ(e: nat): nat { if e + 1 == EPOCHS then 0 else e + 1 }

  datatype Pc =
    | Absent
    // drain
    | Reset
    | CheckStop
    | LoadEpoch
    | Connect(epoch: nat)
    | Start(epoch: nat)
    | DrainExchange(epoch: nat)
    // the child, and finish_child
    | Running(epoch: nat)
    | ChildExchange(epoch: nat)
    // process_stored_completion
    | Process
    | Gone

  // ---------- the sequential loop

  /** What one round comes to: a stop request seen, a throw while connecting, one outside any `try` while storing, or a
      child that ran. */
  datatype Round = StopSeen | ConnectThrew | StoreThrew | Ran(c: Completion, verdict: Verdict)
  datatype Result = Continues | Delivers(c: Completion) | Terminates

  /** Check stop; run a fresh child; on a value ask the predicate once; else forward. */
  function Loop(config: Config, rounds: seq<Round>): Result {
    if rounds == [] then Continues
    else match rounds[0]
      case StopSeen => Delivers(Stopped)
      case ConnectThrew => if NeedExceptionPtr(config) then Delivers(Exception) else Terminates
      case StoreThrew => Terminates
      case Ran(c, verdict) =>
        if !c.Value? then Delivers(c)
        else match verdict
          case Done => Delivers(c)
          case Threw => Delivers(Exception)
          case Again => Loop(config, rounds[1..])
  }

  /** What has been delivered, and whether the program has ended, is what the loop comes to. */
  ghost predicate Owes(config: Config, rounds: seq<Round>, delivered: seq<Completion>, terminated: bool) {
    match Loop(config, rounds)
    case Continues => delivered == [] && !terminated
    case Delivers(c) => delivered == [c] && !terminated
    case Terminates => delivered == [] && terminated
  }

  // ---------- the operation

  datatype Holder = Owner(x: Act) | Race(drain: Act, child: Act) | Nobody

  datatype State = State(
    config: Config, epoch: nat, current: bool, stored: Option<Completion>, acts: map<Act, Pc>,
    delivered: seq<Completion>, terminated: bool,
    // auxiliary: the rounds so far, what each child completed with, and who may use the operation
    rounds: seq<Round>, sent: seq<Completion>, holder: Holder)

  function Started(config: Config): State {
    State(config, 0, false, None, map[0 := Reset], [], false, [], [], Owner(0))
  }

  function At(s: State, x: Act): Pc { if x in s.acts then s.acts[x] else Absent }
  function Go(s: State, x: Act, pc: Pc): State { s.(acts := s.acts[x := pc]) }

  /** How storing a completion goes: it is kept, it throws inside the `try`, or it throws outside. */
  datatype Storing = Kept | Caught | Escaped

  datatype Step =
    | Stop(x: Act, requested: bool)
    | Connects(x: Act, throws: bool)
    | Completes(x: Act, c: Completion, storing: Storing)
    | Predicate(x: Act, verdict: Verdict)
    | Advance(x: Act)

  function Deliver(s: State, x: Act, round: Round, c: Completion): State {
    Go(s, x, Gone).(delivered := s.delivered + [c], rounds := s.rounds + [round], holder := Nobody)
  }

  predicate MayStore(config: Config, c: Completion, storing: Storing) {
    match storing
    case Kept => true
    case Caught => (c.Value? && !config.valuesNothrow) || (c.Error? && !config.errorsNothrow)
    case Escaped => (c.Value? || c.Error?) && !config.movesNothrow
  }

  /** The program ends: an exception leaves a function that must not throw. */
  function Terminate(s: State, x: Act, round: Round): State {
    Go(s, x, Gone).(terminated := true, rounds := s.rounds + [round], holder := Nobody)
  }

  function Next(s: State, st: Step): Option<State> {
    if s.terminated then None
    else match st
    case Stop(x, requested) =>
      if !At(s, x).CheckStop? then None
      else if requested then Some(Deliver(s, x, StopSeen, Stopped))
      else Some(Go(s, x, LoadEpoch))
    case Connects(x, throws) =>
      (match At(s, x)
       case Connect(e) =>
         if !throws then Some(Go(s, x, Start(e)).(current := true))
         else if s.config.factoryNothrow && s.config.connectNothrow then None
         else if NeedExceptionPtr(s.config) then Some(Deliver(s, x, ConnectThrew, Exception))
         else Some(Terminate(s, x, ConnectThrew))
       case _ => None)
    case Completes(x, c, storing) =>
      (match At(s, x)
       case Running(e) =>
         if !MayStore(s.config, c, storing) then None
         else if storing.Escaped? then Some(Terminate(s, x, StoreThrew))
         else
           var kept := if storing.Kept? then c else Exception;
           Some(Go(s, x, ChildExchange(e)).(stored := Some(kept), sent := s.sent + [kept]))
       case _ => None)
    case Predicate(x, verdict) =>
      if !At(s, x).Process? || s.stored.None? then None
      else if !s.stored.value.Value? then Some(Deliver(s, x, Ran(s.stored.value, verdict), s.stored.value))
      else
        (match verdict
         case Done => Some(Deliver(s, x, Ran(s.stored.value, Done), s.stored.value))
         case Threw =>
           if s.config.predicateNothrow then None else Some(Deliver(s, x, Ran(s.stored.value, Threw), Exception))
         case Again => Some(Go(s, x, Reset).(stored := None, rounds := s.rounds + [Ran(s.stored.value, Again)])))
    case Advance(x) =>
      (match At(s, x)
       case Reset => Some(Go(s, x, CheckStop).(current := false))
       case LoadEpoch => Some(Go(s, x, Connect(s.epoch)))
       case Start(e) =>
         var child := |s.rounds| + 1;
         Some(Go(Go(s, x, DrainExchange(e)), child, Running(e)).(holder := Race(x, child)))
       case DrainExchange(e) => Some(Exchange(s, x, e))
       case ChildExchange(e) => Some(Exchange(s, x, e))
       case _ => None)
  }

  /** The winner leaves; the loser, who comes second, owns the operation. */
  function Exchange(s: State, x: Act, e: nat): State {
    if s.epoch == e then Go(s, x, Gone).(epoch := Succ(e)) else Go(s, x, Process).(holder := Owner(x))
  }

  // ---------- the invariant

  predicate Owns(pc: Pc) { pc.Reset? || pc.CheckStop? || pc.LoadEpoch? || pc.Connect? || pc.Start? || pc.Process? }
  predicate Away(pc: Pc) { pc.Absent? || pc.Gone? }

  ghost predicate OthersAway(s: State, x: Act, y: Act) {
    forall z :: z != x && z != y ==> Away(At(s, z))
  }

  ghost predicate OwnerOk(s: State, x: Act) {
    var pc := At(s, x);
    && OthersAway(s, x, x)
    && (if pc.Process?
        then x <= |s.rounds| + 1 && s.current && s.stored.Some? && s.sent == Sent(s.rounds) + [s.stored.value]
        else x <= |s.rounds| && s.stored.None? && s.sent == Sent(s.rounds))
    && Owns(pc)
    && (pc.Connect? || pc.Start? ==> pc.epoch == s.epoch)
    && (pc.Start? ==> s.current)
    && (pc.CheckStop? || pc.LoadEpoch? || pc.Connect? ==> !s.current)
  }

  ghost predicate RaceOk(s: State, d: Act, c: Act) {
    && d <= |s.rounds| && c == |s.rounds| + 1 && OthersAway(s, d, c)
    && s.current
    && (At(s, d).DrainExchange? || At(s, d).Gone?)
    && (if At(s, c).Running? then s.stored.None? && s.sent == Sent(s.rounds)
        else s.stored.Some? && s.sent == Sent(s.rounds) + [s.stored.value])
    && (At(s, c).Running? || At(s, c).ChildExchange? || At(s, c).Gone?)
    && (if At(s, d).DrainExchange? && !At(s, c).Gone? then s.epoch == At(s, d).epoch == At(s, c).epoch
        else if At(s, d).DrainExchange? then s.epoch == Succ(At(s, d).epoch) && At(s, d).epoch < EPOCHS
        else !At(s, c).Gone? && s.epoch == Succ(At(s, c).epoch) && At(s, c).epoch < EPOCHS)
  }

  /** What the children of the rounds so far completed with. */
  function Sent(rounds: seq<Round>): seq<Completion> {
    if rounds == [] then []
    else Sent(rounds[..|rounds| - 1]) + (if rounds[|rounds| - 1].Ran? then [rounds[|rounds| - 1].c] else [])
  }

  ghost predicate ResultOk(s: State) {
    Owes(s.config, s.rounds, s.delivered, s.terminated) && (Loop(s.config, s.rounds).Continues? <==> !s.holder.Nobody?)
  }

  ghost predicate HolderOk(s: State) {
    match s.holder
    case Owner(x) => OwnerOk(s, x)
    case Race(d, c) => RaceOk(s, d, c)
    case Nobody => (forall z :: Away(At(s, z)) || (s.terminated && At(s, z).DrainExchange?)) && s.sent == Sent(s.rounds)
  }

  ghost predicate Inv(s: State) { s.epoch < EPOCHS && HolderOk(s) && ResultOk(s) }
}
