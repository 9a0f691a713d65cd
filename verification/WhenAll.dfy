/** when_all as a transition system: n children completing in any order on any threads, their starter, and the stop
    requests they issue, one atomic access or one use of a shared field at a time.  Whatever a stop request makes the
    other children do, on the same thread or not, happens between the two steps of the request. */
module WhenAll {
  import opened Runs

  type Payload(==,!new,0)
  type Child = nat

  datatype Err = Raised(e: Payload) | Exception
  datatype Kind = NoTerminal | ErrorTerminal | StoppedTerminal
  datatype Outcome = Values(vs: seq<Payload>) | Failed(error: Err) | Stopped

  /** What a child has sent. `SentThrow`: storing its value, or connecting it, threw. */
  datatype Sent = SentValue(v: seq<Payload>) | SentError(e: Payload) | SentStopped | SentThrow

  /** How a sender can complete. */
  datatype Sender = Sender(value: bool, error: bool, stopped: bool)

  /** How the children can complete, and what cannot throw: storing a value or an error, moving the tuple of value slots
      or the error slot, connecting a child, registering the stop callback. */
  datatype Config = Config(
    senders: seq<Sender>, valuesNothrow: bool, errorsNothrow: bool, moveNothrow: bool, errorMoveNothrow: bool,
    connectNothrow: bool, registerNothrow: bool)

  function Count(config: Config): nat { |config.senders| }
  predicate SendsValue(config: Config) { forall i :: 0 <= i < |config.senders| ==> config.senders[i].value }

  /** What child `i` may send. Connecting it or storing its value may throw instead. */
  predicate MaySend(config: Config, i: Child, sent: Sent) {
    && i < |config.senders|
    && match sent
       case SentValue(_) => config.senders[i].value
       case SentError(_) => config.senders[i].error
       case SentStopped => config.senders[i].stopped
       case SentThrow => (config.senders[i].value && !config.valuesNothrow) || !config.connectNothrow
  }

  datatype Pc =
    | NotStarted
    | Running
    | ErrorExchange(e: Err)
    | StoreError(e: Err)
    | StoppedExchange
    | RequestStop
    | InRequest
    | Decrement
    // finish_one
    | ResetOnStop
    | LoadTerminal
    | Deliver(kind: Kind)
    | Join
    | Gone

  datatype Starter = Register | StartOne(i: nat) | Failing(i: nat) | AllStarted

  datatype State = State(
    config: Config, remaining: int, terminal: Kind, error: Option<Err>, values: seq<Option<seq<Payload>>>,
    stopRequested: bool, onStop: bool, starter: Starter, children: seq<Pc>, delivered: seq<Outcome>, terminated: bool,
    // auxiliary: what each child has sent, who has decremented, whose exchange won, who finishes, whether start failed
    sent: seq<Option<Sent>>, arrived: set<Child>, winner: Option<Child>, finisher: Option<Child>, refused: bool)

  function Connected(config: Config): State {
    var n := Count(config);
    State(config, n, NoTerminal, None, seq(n, _ => None), false, false, Register, seq(n, _ => NotStarted), [],
          false, seq(n, _ => None), {}, None, None, false)
  }

  datatype Step =
    | Starts(throws: bool)
    | Sends(i: Child, sent: Sent)
    | Act(i: Child, throws: bool)
    | DownstreamStop

  predicate IsChild(s: State, i: Child) { i < |s.children| && |s.sent| == |s.children| && |s.values| == |s.children| }

  function Go(s: State, i: Child, pc: Pc): State
    requires IsChild(s, i)
  {
    s.(children := s.children[i := pc])
  }

  function Sending(s: State, i: Child, sent: Sent): State
    requires IsChild(s, i)
  {
    s.(sent := s.sent[i := Some(sent)])
  }

  function Next(s: State, st: Step): Option<State> {
    if s.terminated then None
    else match st
    case Starts(throws) => StartStep(s, throws)
    case Sends(i, sent) => if IsChild(s, i) && s.children[i].Running? then SendStep(s, i, sent) else None
    case Act(i, throws) => if IsChild(s, i) then ActStep(s, i, s.children[i], throws) else None
    case DownstreamStop => if s.onStop then Some(s.(stopRequested := true)) else None
  }

  /** `register_stop_callback`, then `start_one` for each child in turn. */
  function StartStep(s: State, throws: bool): Option<State> {
    match s.starter
    case Register =>
      if !throws then Some(s.(onStop := true, starter := StartOne(0)))
      else if s.config.registerNothrow then None
      else Some(s.(terminal := ErrorTerminal, remaining := 0, starter := AllStarted, refused := true,
                   delivered := s.delivered + [Failed(Exception)]))
    case StartOne(i) =>
      if i >= |s.children| then Some(s.(starter := AllStarted))
      else if !IsChild(s, i) then None
      else if !throws then Some(Go(s, i, Running).(starter := StartOne(i + 1)))
      else if s.config.connectNothrow then None
      else Some(Go(Sending(s, i, SentThrow), i, ErrorExchange(Exception)).(starter := Failing(i)))
    case Failing(i) => if IsChild(s, i) && s.children[i].Gone? then Some(s.(starter := StartOne(i + 1))) else None
    case AllStarted => None
  }

  function SendStep(s: State, i: Child, sent: Sent): Option<State>
    requires IsChild(s, i)
  {
    match sent
    case SentValue(v) =>
      if MaySend(s.config, i, sent) then
        Some(Go(Sending(s, i, sent), i, Decrement).(values := s.values[i := Some(v)]))
      else None
    case SentError(e) =>
      if MaySend(s.config, i, sent) then Some(Go(Sending(s, i, sent), i, ErrorExchange(Raised(e)))) else None
    case SentStopped => if MaySend(s.config, i, sent) then Some(Go(Sending(s, i, sent), i, StoppedExchange)) else None
    case SentThrow =>
      if i < |s.config.senders| && s.config.senders[i].value && !s.config.valuesNothrow then
        Some(Go(Sending(s, i, sent), i, ErrorExchange(Exception)))
      else None
  }

  function ActStep(s: State, i: Child, pc: Pc, throws: bool): Option<State>
    requires IsChild(s, i)
  {
    match pc
    case ErrorExchange(e) =>
      Some(if s.terminal.NoTerminal? then Go(s, i, StoreError(e)).(terminal := ErrorTerminal, winner := Some(i))
           else Go(s, i, Decrement))
    case StoreError(e) =>
      if throws && (s.config.errorsNothrow || e.Exception?) then None
      else Some(Go(s, i, RequestStop).(error := Some(if throws then Exception else e)))
    case StoppedExchange =>
      Some(if s.terminal.NoTerminal? then Go(s, i, RequestStop).(terminal := StoppedTerminal, winner := Some(i))
           else Go(s, i, Decrement))
    case RequestStop => Some(Go(s, i, InRequest).(stopRequested := true))
    case InRequest => Some(Go(s, i, Decrement))
    case Decrement =>
      var s1 := s.(remaining := s.remaining - 1, arrived := s.arrived + {i});
      Some(if s.remaining == 1 then Go(s1, i, ResetOnStop).(finisher := Some(i)) else Go(s1, i, Gone))
    case ResetOnStop => Some(Go(s, i, LoadTerminal).(onStop := false))
    case LoadTerminal => Some(Go(s, i, Deliver(s.terminal)))
    case Deliver(kind) => DeliverStep(s, i, kind, throws)
    case Join => JoinStep(s, i, throws)
    case _ => None
  }

  /** The values of all children, in argument order: the `tuple_cat` of the slots. */
  function Joined(values: seq<Option<seq<Payload>>>): seq<Payload> {
    if values == [] then [] else (if values[0].Some? then values[0].value else []) + Joined(values[1..])
  }

  predicate AllPresent(values: seq<Option<seq<Payload>>>) { forall i :: 0 <= i < |values| ==> values[i].Some? }

  /** `finish_one` does not throw: where a move outside the `try` of `deliver_success` does, the program ends. The error
      slot is moved out of the state, and an exception pointer moves without throwing; the tuple of value slots is moved
      into the parameter of `deliver_success`. An empty slot must never be read: that step is not enabled. */
  function DeliverStep(s: State, i: Child, kind: Kind, throws: bool): Option<State>
    requires IsChild(s, i)
  {
    var s1 := Go(s, i, Gone);
    match kind
    case ErrorTerminal =>
      if s.error.None? || (throws && (s.config.errorMoveNothrow || s.error.value.Exception?)) then None
      else Some(if throws then s1.(terminated := true) else s1.(delivered := s.delivered + [Failed(s.error.value)]))
    case StoppedTerminal => if throws then None else Some(s1.(delivered := s.delivered + [Stopped]))
    case NoTerminal =>
      if throws && (s.config.moveNothrow || !SendsValue(s.config)) then None
      else Some(if throws then s1.(terminated := true)
                else if SendsValue(s.config) then Go(s, i, Join)
                else s1.(delivered := s.delivered + [Values([])]))
  }

  /** `tuple_cat`, inside the `try`. */
  function JoinStep(s: State, i: Child, throws: bool): Option<State>
    requires IsChild(s, i)
  {
    var s1 := Go(s, i, Gone);
    if throws then if s.config.moveNothrow then None else Some(s1.(delivered := s.delivered + [Failed(Exception)]))
    else if AllPresent(s.values) then Some(s1.(delivered := s.delivered + [Values(Joined(s.values))]))
    else None
  }

  // ---------- the invariant

  predicate Finishing(pc: Pc) { pc.ResetOnStop? || pc.LoadTerminal? || pc.Deliver? || pc.Join? }
  predicate HasArrived(pc: Pc) { Finishing(pc) || pc.Gone? }

  function ValueOf(sent: Option<Sent>): Option<seq<Payload>> {
    if sent.Some? && sent.value.SentValue? then Some(sent.value.v) else None
  }

  /** A child that did not send a value. */
  predicate Unsuccessful(sent: Option<Sent>) { sent.Some? && !sent.value.SentValue? }

  predicate Carries(sent: Option<Sent>, e: Err) {
    sent.Some? && (if e.Raised? then sent.value == SentError(e.e) else sent.value.SentThrow?)
  }

  function KindOf(sent: Sent): Kind { if sent.SentStopped? then StoppedTerminal else ErrorTerminal }

  ghost predicate ChildOk(s: State, i: Child)
    requires IsChild(s, i)
  {
    var pc := s.children[i];
    && (i in s.arrived <==> HasArrived(pc))
    && (Finishing(pc) ==> s.finisher == Some(i))
    && s.values[i] == ValueOf(s.sent[i])
    && (s.sent[i].Some? ==> MaySend(s.config, i, s.sent[i].value))
    && (pc.StoreError? || pc.RequestStop? || pc.InRequest? ==> s.winner == Some(i))
    && match pc
       case NotStarted => s.sent[i].None?
       case Running => s.sent[i].None?
       case ErrorExchange(e) => Carries(s.sent[i], e)
       case StoreError(e) => Carries(s.sent[i], e)
       case StoppedExchange => s.sent[i] == Some(SentStopped)
       case RequestStop => Unsuccessful(s.sent[i])
       case InRequest => Unsuccessful(s.sent[i])
       case Deliver(kind) => kind == s.terminal && s.sent[i].Some? && (Unsuccessful(s.sent[i]) ==> s.winner.Some?)
       case Join =>
         && s.terminal.NoTerminal? && SendsValue(s.config) && s.sent[i].Some?
         && (Unsuccessful(s.sent[i]) ==> s.winner.Some?)
       case _ => s.sent[i].Some? && (Unsuccessful(s.sent[i]) ==> s.winner.Some?)
  }

  ghost predicate ChildrenOk(s: State) {
    && |s.sent| == |s.values| == |s.children| == Count(s.config) > 0
    && forall i: Child :: IsChild(s, i) ==> ChildOk(s, i)
  }

  /** What may end up in the error slot for what the winner sent. */
  predicate Keeps(config: Config, sent: Sent, e: Err) {
    match sent
    case SentError(p) => e == Raised(p) || (e == Exception && !config.errorsNothrow)
    case SentThrow => e == Exception
    case _ => false
  }

  ghost predicate WinnerOk(s: State) {
    match s.winner
    case None => s.error.None? && (s.terminal.NoTerminal? <==> !s.refused)
    case Some(w) =>
      && IsChild(s, w) && Unsuccessful(s.sent[w]) && !s.refused
      && s.terminal == KindOf(s.sent[w].value)
      && (s.children[w].StoreError? || s.children[w].RequestStop? || s.stopRequested)
      && (if s.sent[w].value.SentStopped? || s.children[w].StoreError? then s.error.None?
          else s.error.Some? && Keeps(s.config, s.sent[w].value, s.error.value))
  }

  function FirstUnstarted(s: State): nat {
    match s.starter
    case Register => 0
    case StartOne(i) => i
    case Failing(i) => i + 1
    case AllStarted => if s.refused then 0 else |s.children|
  }

  ghost predicate StarterOk(s: State) {
    && (forall i: Child :: IsChild(s, i) ==> (s.children[i].NotStarted? <==> i >= FirstUnstarted(s)))
    && (s.starter.Register? ==> !s.refused)
    && (s.refused ==> s.starter.AllStarted?)
    && (s.starter.Failing? ==> s.starter.i < |s.children|)
  }

  ghost predicate CountOk(s: State) {
    && (forall i :: i in s.arrived ==> i < |s.children|)
    && (if s.refused then s.remaining == 0 && s.arrived == {} && s.finisher.None?
        else s.remaining == |s.children| - |s.arrived| && (s.finisher.Some? <==> s.remaining == 0))
    && (s.finisher.Some? ==> s.finisher.value in s.arrived)
  }

  /** The completion that what the children sent allows. */
  predicate Allowed(config: Config, sent: seq<Option<Sent>>, winner: Option<Child>, o: Outcome) {
    match winner
    case None =>
      && (o == Values(Joined(ValuesOf(sent))) || (o == Failed(Exception) && !config.moveNothrow))
      && AllPresent(ValuesOf(sent))
    case Some(w) =>
      && w < |sent| && sent[w].Some?
      && match sent[w].value
         case SentValue(_) => false
         case SentStopped => o == Stopped
         case x => o.Failed? && Keeps(config, x, o.error)
  }

  function ValuesOf(sent: seq<Option<Sent>>): seq<Option<seq<Payload>>> {
    seq(|sent|, i requires 0 <= i < |sent| => ValueOf(sent[i]))
  }

  /** The program may end instead of completing: an error of the winner, or the values of all children, cannot be
      moved. */
  predicate MayTerminate(config: Config, sent: seq<Option<Sent>>, winner: Option<Child>) {
    match winner
    case None => !config.moveNothrow && SendsValue(config) && AllPresent(ValuesOf(sent))
    case Some(w) => !config.errorMoveNothrow && w < |sent| && sent[w].Some? && sent[w].value.SentError?
  }

  predicate Finished(s: State) {
    s.finisher.Some? && IsChild(s, s.finisher.value) && s.children[s.finisher.value].Gone?
  }

  ghost predicate DeliveredOk(s: State) {
    if s.refused then s.delivered == [Failed(Exception)] && !s.terminated && !s.config.registerNothrow
    else if !Finished(s) then s.delivered == [] && !s.terminated
    else if s.terminated then s.delivered == [] && MayTerminate(s.config, s.sent, s.winner)
    else |s.delivered| == 1 && Allowed(s.config, s.sent, s.winner, s.delivered[0])
  }

  ghost predicate Inv(s: State) { ChildrenOk(s) && WinnerOk(s) && StarterOk(s) && CountOk(s) && DeliveredOk(s) }
}
