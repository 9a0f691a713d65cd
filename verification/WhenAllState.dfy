/** The shared state of when_all in its own form: the members that child receivers call, one call at a time, and the
    slots they fill in place. */
module WhenAllStates {
  import opened Lists
  import opened Runs
  import opened WhenAll

  /** A child arrives with what it sent; `throws`: copying its error into the slot throws. */
  datatype Arrival = Arrival(i: Child, sent: Sent, throws: bool)

  /** The first arrival without a value. */
  function FirstBad(log: seq<Arrival>): Option<Arrival> {
    if log == [] then None else if !log[0].sent.SentValue? then Some(log[0]) else FirstBad(log[1..])
  }

  /** The value that child `i` has brought. */
  function SlotIn(log: seq<Arrival>, i: Child): Option<seq<Payload>> {
    if log == [] then None else if log[0].i == i then ValueOf(Some(log[0].sent)) else SlotIn(log[1..], i)
  }

  function SlotsIn(log: seq<Arrival>, n: nat): seq<Option<seq<Payload>>> {
    seq(n, i requires 0 <= i < n => SlotIn(log, i))
  }

  function KeptError(a: Arrival): Option<Err> {
    match a.sent
    case SentError(e) => Some(if a.throws then Exception else Raised(e))
    case SentThrow => Some(Exception)
    case _ => None
  }

  /** Whether moving the error slot or the tuple of values throws when the operation finishes, and whether joining the
      values does. An exception pointer moves without throwing. */
  datatype Moves = Moves(slot: bool, join: bool)
  datatype Ending = Completed(o: Outcome) | Terminated

  /** What the operation comes to once all its children have arrived, in the order of `log`. */
  function Completion(log: seq<Arrival>, n: nat, moves: Moves): Ending {
    match FirstBad(log)
    case None =>
      if moves.slot then Terminated
      else Completed(if moves.join then Failed(Exception) else Values(Joined(SlotsIn(log, n))))
    case Some(a) =>
      match KeptError(a)
      case None => Completed(Stopped)
      case Some(e) => if moves.slot && e.Raised? then Terminated else Completed(Failed(e))
  }

  predicate Ended(delivered: seq<Outcome>, terminated: bool, ending: Ending) {
    match ending
    case Completed(o) => delivered == [o] && !terminated
    case Terminated => delivered == [] && terminated
  }

  predicate Arrived(log: seq<Arrival>, i: Child) { exists k :: 0 <= k < |log| && log[k].i == i }

  lemma {:induction false} LogGrows(log: seq<Arrival>, a: Arrival, i: Child)
    ensures FirstBad(log + [a]) == (if FirstBad(log).Some? || a.sent.SentValue? then FirstBad(log) else Some(a))
    ensures !Arrived(log, a.i) ==> SlotIn(log + [a], i) == (if i == a.i then ValueOf(Some(a.sent)) else SlotIn(log, i))
    ensures !Arrived(log, i) ==> SlotIn(log, i) == None
  {
    if log == [] {
      assert log + [a] == [a];
    } else {
      assert (log + [a])[1..] == log[1..] + [a];
      LogGrows(log[1..], a, i);
      assert forall j :: Arrived(log, j) <==> log[0].i == j || Arrived(log[1..], j) by {
        forall j ensures Arrived(log, j) <==> log[0].i == j || Arrived(log[1..], j) {
          if k :| 0 <= k < |log[1..]| && log[1..][k].i == j { assert log[k + 1].i == j; }
          if k :| 0 <= k < |log| && log[k].i == j { assert k > 0 ==> log[1..][k - 1].i == j; }
        }
      }
    }
  }

  class WhenAllState {
    const count: nat
    const moves: Moves
    var remaining: int
    var terminal: Kind
    var error: Option<Err>
    var values: array<Option<seq<Payload>>>
    var stopRequested: bool
    var delivered: seq<Outcome>
    var terminated: bool
    /** The children that have arrived, in order. */
    ghost var log: seq<Arrival>

    /** Kind, error, stop request and slots are those of the children that have arrived. */
    ghost predicate Consistent()
      reads this, values
    {
      && values.Length == count
      && terminal == (if FirstBad(log).None? then NoTerminal else KindOf(FirstBad(log).value.sent))
      && error == (if FirstBad(log).None? then None else KeptError(FirstBad(log).value))
      && stopRequested == FirstBad(log).Some?
      && forall i: nat :: i < count ==> values[i] == SlotIn(log, i)
    }

    /** Nothing is delivered before the last arrival, and then what the arrivals ask for. */
    ghost predicate Valid()
      reads this, values
    {
      && Consistent() && remaining == count - |log| && |log| <= count
      && (if |log| < count then delivered == [] && !terminated
          else Ended(delivered, terminated, Completion(log, count, moves)))
    }

    constructor (count: nat, moves: Moves)
      requires count > 0
      ensures Valid() && log == [] && this.count == count && this.moves == moves && fresh(values)
    {
      this.count, this.moves, remaining, terminal, error, stopRequested := count, moves, count, NoTerminal, None, false;
      delivered, terminated, log := [], false, [];
      values := new Option<seq<Payload>>[count](_ => None);
    }

    /** `child_value`. */
    method ChildValue(i: Child, v: seq<Payload>)
      requires Valid() && i < count && !Arrived(log, i) && |log| < count
      modifies this`remaining, this`delivered, this`terminated, this`log, values
      ensures Valid() && log == old(log) + [Arrival(i, SentValue(v), false)]
    {
      ghost var a := Arrival(i, SentValue(v), false);
      LogGrows(log, a, i);
      forall j ensures SlotIn(log + [a], j) == (if j == i then Some(v) else SlotIn(log, j)) { LogGrows(log, a, j); }
      values[i] := Some(v);
      log := log + [a];
      Arrive();
    }

    /** `child_error`, also for a value whose storing threw; `throws`: storing the error throws. */
    method ChildError(i: Child, e: Err, throws: bool)
      requires Valid() && i < count && !Arrived(log, i) && |log| < count && (e.Exception? ==> !throws)
      modifies this`remaining, this`terminal, this`error, this`stopRequested, this`delivered, this`terminated, this`log
      ensures Valid()
      ensures log == old(log) + [Arrival(i, if e.Raised? then SentError(e.e) else SentThrow, throws)]
    {
      ghost var a := Arrival(i, if e.Raised? then SentError(e.e) else SentThrow, throws);
      BadArrival(a);
      if terminal.NoTerminal? {
        terminal := ErrorTerminal;
        error := Some(if throws then Exception else e);
        stopRequested := true;
      }
      log := log + [a];
      Arrive();
    }

    /** `child_stopped`. */
    method ChildStopped(i: Child)
      requires Valid() && i < count && !Arrived(log, i) && |log| < count
      modifies this`remaining, this`terminal, this`stopRequested, this`delivered, this`terminated, this`log
      ensures Valid() && log == old(log) + [Arrival(i, SentStopped, false)]
    {
      ghost var a := Arrival(i, SentStopped, false);
      BadArrival(a);
      if terminal.NoTerminal? {
        terminal := StoppedTerminal;
        stopRequested := true;
      }
      log := log + [a];
      Arrive();
    }

    lemma BadArrival(a: Arrival)
      requires !a.sent.SentValue? && !Arrived(log, a.i)
      ensures FirstBad(log + [a]) == (if FirstBad(log).Some? then FirstBad(log) else Some(a))
      ensures forall j :: SlotIn(log + [a], j) == SlotIn(log, j)
    {
      LogGrows(log, a, a.i);
      forall j ensures SlotIn(log + [a], j) == SlotIn(log, j) { LogGrows(log, a, j); }
    }

    /** The decrement, and `finish_one` for the last child. */
    method Arrive()
      requires Consistent() && 0 < |log| <= count && remaining == count - |log| + 1 && delivered == [] && !terminated
      modifies this`remaining, this`delivered, this`terminated
      ensures Valid()
    {
      remaining := remaining - 1;
      if remaining == 0 {
        FinishOne();
      }
    }

    /** `finish_one`, and `deliver_success` for the values. */
    method FinishOne()
      requires Consistent() && |log| == count && delivered == [] && !terminated
      modifies this`delivered, this`terminated
      ensures Ended(delivered, terminated, Completion(log, count, moves))
    {
      FirstBadIsBad(log);
      match terminal
      case ErrorTerminal =>
        if moves.slot && error.value.Raised? {
          terminated := true;
        } else {
          delivered := [Failed(error.value)];
        }
      case StoppedTerminal => delivered := [Stopped];
      case NoTerminal =>
        if moves.slot {
          terminated := true;
        } else if moves.join {
          delivered := [Failed(Exception)];
        } else {
          var joined := JoinValues();
          assert values[..] == SlotsIn(log, count);
          delivered := [Values(joined)];
        }
    }

    /** `tuple_cat_values`. */
    method JoinValues() returns (joined: seq<Payload>)
      ensures joined == Joined(values[..])
    {
      joined := [];
      var k := values.Length;
      while k > 0
        invariant 0 <= k <= values.Length && joined == Joined(values[k..])
      {
        k := k - 1;
        joined := (if values[k].Some? then values[k].value else []) + joined;
        assert values[k..][1..] == values[k + 1..];
      }
      assert values[0..] == values[..];
    }
  }

  lemma {:induction false} FirstBadIsBad(log: seq<Arrival>)
    ensures FirstBad(log).Some? ==> FirstBad(log).value in log && !FirstBad(log).value.sent.SentValue?
  {
    if log != [] && log[0].sent.SentValue? { FirstBadIsBad(log[1..]); }
  }
}
