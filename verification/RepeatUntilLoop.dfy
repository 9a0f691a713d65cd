/** The drain loop of repeat_until in its own form, on one thread: children complete inside their start or later, in any
    mixture, and the operation delivers what the sequential loop delivers. */
module RepeatUntilLoops {
  import opened Runs
  import opened RepeatUntil

  class RepeatUntilOperation {
    const config: Config
    var current: bool
    var stored: Option<Completion>
    var epoch: nat
    var delivered: seq<Completion>
    var terminated: bool
    /** Whether the drain, and whether the child, has made its exchange in this round. */
    ghost var drainArrived: bool
    ghost var childArrived: bool

    constructor (config: Config)
      ensures this.config == config && Fresh()
    {
      this.config := config;
      current, stored, epoch, delivered, terminated := false, None, 0, [], false;
      drainArrived, childArrived := false, false;
    }

    /** Nothing delivered, no child completion stored. */
    ghost predicate Fresh()
      reads this
    {
      epoch < EPOCHS && stored.None? && delivered == [] && !terminated
    }

    /** The round that began at `childEpoch` is being raced for: the epoch tells whether somebody has made the
        exchange. */
    ghost predicate Racing(childEpoch: nat)
      reads this
    {
      childEpoch < EPOCHS && epoch == (if drainArrived || childArrived then Succ(childEpoch) else childEpoch)
    }

    /** The child is running, and the drain has left it the operation. */
    ghost predicate Suspended(childEpoch: nat)
      reads this
    {
      Fresh() && current && Racing(childEpoch) && drainArrived && !childArrived
    }

    /** `process_stored_completion`: true if the loop goes on. */
    method ProcessStored(verdict: Verdict) returns (again: bool)
      requires stored.Some? && delivered == [] && !terminated && epoch < EPOCHS
      modifies this`stored, this`delivered
      ensures again == Loop(config, [Ran(old(stored).value, verdict)]).Continues?
      ensures again ==> Fresh()
      ensures !again ==> Owes(config, [Ran(old(stored).value, verdict)], delivered, terminated)
    {
      match stored.value
      case Value(v) =>
        if verdict.Again? {
          stored := None;
          return true;
        }
        delivered := [if verdict.Done? then stored.value else Exception];
        return false;
      case c =>
        delivered := [c];
        return false;
    }

    /** The exchange of `finish_child`. The child has lost exactly if the drain has already made its exchange of this
        round; otherwise the drain, which comes second, will lose. */
    method FinishChild(childEpoch: nat) returns (lost: bool)
      requires Racing(childEpoch) && !childArrived
      modifies this`epoch, this`childArrived
      ensures Racing(childEpoch) && childArrived
      ensures lost <==> drainArrived
    {
      lost := epoch != childEpoch;
      if !lost {
        epoch := Succ(childEpoch);
      }
      childArrived := true;
    }

    /** The exchange at the end of a round of `drain`, likewise. */
    method FinishRound(childEpoch: nat) returns (lost: bool)
      requires Racing(childEpoch) && !drainArrived
      modifies this`epoch, this`drainArrived
      ensures Racing(childEpoch) && drainArrived
      ensures lost <==> childArrived
    {
      lost := epoch != childEpoch;
      if !lost {
        epoch := Succ(childEpoch);
      }
      drainArrived := true;
    }

    /** `drain`. `rounds` says what the stop checks, the connects, the children and the predicate will do, and `inside`
        which children complete inside their own start. Returns the rounds from the child it left running, if it did. */
    method Drain(rounds: seq<Round>, inside: seq<bool>)
      returns (left: seq<Round>, insideLeft: seq<bool>, childEpoch: nat)
      requires Fresh() && |inside| == |rounds|
      modifies this
      ensures |insideLeft| == |left| <= |rounds|
      ensures left != [] ==> Suspended(childEpoch) && StartsChild(left[0]) && Loop(config, left) == Loop(config, rounds)
      ensures left == [] ==> Owes(config, rounds, delivered, terminated)
    {
      left, insideLeft, childEpoch := rounds, inside, epoch;
      while left != []
        invariant Fresh() && |insideLeft| == |left| <= |rounds| && Loop(config, left) == Loop(config, rounds)
        decreases |left|
      {
        current := false;
        drainArrived, childArrived := false, false;
        if left[0].StopSeen? {
          delivered := [Stopped];
          return [], [], epoch;
        }
        childEpoch := epoch;
        if left[0].ConnectThrew? {
          if NeedExceptionPtr(config) {
            delivered := [Exception];
          } else {
            terminated := true;
          }
          return [], [], epoch;
        }
        current := true;
        if insideLeft[0] {
          if left[0].StoreThrew? {
            terminated := true;
            return [], [], epoch;
          }
          stored := Some(left[0].c);
          var childLost := FinishChild(childEpoch);
        }
        var lost := FinishRound(childEpoch);
        if !lost {
          return;
        }
        var again := ProcessStored(left[0].verdict);
        if !again {
          return [], [], epoch;
        }
        left, insideLeft := left[1..], insideLeft[1..];
      }
    }

    /** A child completes after the drain left it running: it processes its own completion and drains on. */
    method ChildCompletes(childEpoch: nat, rounds: seq<Round>, inside: seq<bool>)
      returns (left: seq<Round>, insideLeft: seq<bool>, nextEpoch: nat)
      requires Suspended(childEpoch) && |inside| == |rounds| && rounds != [] && StartsChild(rounds[0])
      modifies this
      ensures |insideLeft| == |left| < |rounds|
      ensures left != [] ==> Suspended(nextEpoch) && StartsChild(left[0]) && Loop(config, left) == Loop(config, rounds)
      ensures left == [] ==> Owes(config, rounds, delivered, terminated)
    {
      left, insideLeft, nextEpoch := [], [], childEpoch;
      if rounds[0].StoreThrew? {
        terminated := true;
        return;
      }
      stored := Some(rounds[0].c);
      var lost := FinishChild(childEpoch);
      assert lost;
      var again := ProcessStored(rounds[0].verdict);
      if again {
        left, insideLeft, nextEpoch := Drain(rounds[1..], inside[1..]);
      }
    }
  }

  /** A round in which the child is started, and completes. */
  predicate StartsChild(round: Round) { round.Ran? || round.StoreThrew? }

  /** Start the operation and let every child that is left running complete, one after the other. */
  method RunToEnd(config: Config, rounds: seq<Round>, inside: seq<bool>) returns (operation: RepeatUntilOperation)
    requires |inside| == |rounds|
    ensures Owes(config, rounds, operation.delivered, operation.terminated)
  {
    operation := new RepeatUntilOperation(config);
    var left, insideLeft, childEpoch := operation.Drain(rounds, inside);
    while left != []
      invariant operation.config == config && |insideLeft| == |left|
      invariant left != [] ==>
                  operation.Suspended(childEpoch) && StartsChild(left[0]) && Loop(config, left) == Loop(config, rounds)
      invariant left == [] ==> Owes(config, rounds, operation.delivered, operation.terminated)
      decreases |left|
    {
      left, insideLeft, childEpoch := operation.ChildCompletes(childEpoch, left, insideLeft);
    }
  }
}
