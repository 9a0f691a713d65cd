/** What when_all promises, for any number of children and any order of their completions. */
module WhenAllTheorems {
  import opened Runs
  import opened WhenAll
  import opened WhenAllInv

  /** One completion at most, and only after every child has arrived and has nothing left to do here; likewise for the
      end of the program, which takes the place of the completion. */
  lemma CompletesOnceAfterAll(s: State, i: Child)
    requires Reachable(s) && IsChild(s, i)
    ensures |s.delivered| + (if s.terminated then 1 else 0) <= 1
    ensures s.delivered != [] || s.terminated ==>
              s.remaining == 0 && (if s.refused then s.children[i].NotStarted? else s.children[i].Gone?)
  {
    InvHolds(s);
    assert ChildOk(s, i);
    if s.finisher.Some? {
      AllArrived(s);
      assert ChildOk(s, s.finisher.value);
    }
  }

  lemma {:induction false} CoversAll(a: set<nat>, n: nat)
    requires forall i: nat :: i < n ==> i in a
    ensures |a| >= n
  {
    if n == 0 {
    } else {
      CoversAll(a - {n - 1}, n - 1);
    }
  }

  /** When all children are done there has been one completion, or the program has ended in its place. */
  lemma NothingForgotten(s: State)
    requires Reachable(s) && s.starter.AllStarted?
    requires s.refused || forall i: Child :: IsChild(s, i) ==> s.children[i].Gone?
    ensures |s.delivered| + (if s.terminated then 1 else 0) == 1
  {
    InvHolds(s);
    if !s.refused {
      forall i: nat | i < |s.children| ensures i in s.arrived { assert ChildOk(s, i); }
      CoversAll(s.arrived, |s.children|);
      FullSet(s.arrived, |s.children|);
    }
  }

  /** The completion is that of the first child to win the exchange on `terminal`; with no winner it is all the
      values. The program ends instead only if that child's error, or those values, cannot be moved. */
  lemma FirstOutcomeWins(s: State)
    requires Reachable(s) && (s.delivered != [] || s.terminated) && !s.refused
    ensures if s.terminated then s.delivered == [] && MayTerminate(s.config, s.sent, s.winner)
            else Allowed(s.config, s.sent, s.winner, s.delivered[0])
    ensures (forall i :: 0 <= i < |s.sent| ==> s.sent[i].Some?) && (s.winner.None? <==> AllPresent(ValuesOf(s.sent)))
  {
    InvHolds(s);
    AllArrived(s);
    ValuesAgree(s);
    if s.winner.None? { AllValues(s); }
    else { assert ValuesOf(s.sent)[s.winner.value].None?; }
  }

  lemma ActWrites(s: State, i: Child, pc: Pc, throws: bool)
    requires IsChild(s, i) && ActStep(s, i, pc, throws).Some?
    ensures var s' := ActStep(s, i, pc, throws).value;
            && ((s'.winner == s.winner && s'.terminal == s.terminal)
                || (s.terminal.NoTerminal? && s'.winner == Some(i) && (pc.ErrorExchange? || pc.StoppedExchange?)))
            && (s'.error == s.error || pc.StoreError?)
  {
    match pc
    case Deliver(kind) => DeliverWrites(s, i, kind, throws);
    case Join => JoinWrites(s, i, throws);
    case _ =>
  }

  lemma DeliverWrites(s: State, i: Child, kind: Kind, throws: bool)
    requires IsChild(s, i) && DeliverStep(s, i, kind, throws).Some?
    ensures var s' := DeliverStep(s, i, kind, throws).value;
            s'.winner == s.winner && s'.terminal == s.terminal && s'.error == s.error
  {
  }

  lemma JoinWrites(s: State, i: Child, throws: bool)
    requires IsChild(s, i) && JoinStep(s, i, throws).Some?
    ensures var s' := JoinStep(s, i, throws).value;
            s'.winner == s.winner && s'.terminal == s.terminal && s'.error == s.error
  {
  }

  lemma StartWrites(s: State, throws: bool)
    requires StartStep(s, throws).Some?
    ensures var s' := StartStep(s, throws).value;
            s'.winner == s.winner && s'.error == s.error && (s'.terminal == s.terminal || s.starter.Register?)
  {
  }

  /** The winner is whoever comes first to the exchange without a value, and nobody replaces it. */
  lemma WinnerIsFirst(s: State, st: Step)
    requires Reachable(s) && Next(s, st).Some?
    ensures var s' := Next(s, st).value;
            if s.winner.Some? then s'.winner == s.winner && s'.terminal == s.terminal
            else s'.winner.Some? ==>
              && st.Act? && s'.winner == Some(st.i)
              && (s.children[st.i].ErrorExchange? || s.children[st.i].StoppedExchange?)
  {
    InvHolds(s);
    match st
    case Starts(throws) => StartKeepsWinner(s, throws);
    case Act(i, throws) => ActWrites(s, i, s.children[i], throws); if s.winner.Some? { WinnerIsTerminal(s); }
    case Sends(i, sent) => SendWrites(s, i, sent);
    case DownstreamStop =>
  }

  lemma WinnerIsTerminal(s: State)
    requires Inv(s) && s.winner.Some?
    ensures !s.terminal.NoTerminal?
  {
  }

  lemma SendWrites(s: State, i: Child, sent: Sent)
    requires IsChild(s, i) && SendStep(s, i, sent).Some?
    ensures var s' := SendStep(s, i, sent).value;
            s'.winner == s.winner && s'.terminal == s.terminal && s'.error == s.error
  {
    match sent
    case SentValue(v) =>
    case _ =>
  }

  lemma StartKeepsWinner(s: State, throws: bool)
    requires Inv(s) && StartStep(s, throws).Some?
    ensures var s' := StartStep(s, throws).value;
            s'.winner == s.winner && (s.winner.Some? ==> s'.terminal == s.terminal)
  {
    StartWrites(s, throws);
    if s.starter.Register? { NobodyStarted(s); }
  }

  /** In whichever order the children arrive: the same values sent, the same values delivered, in argument order, but
      for an exception thrown while joining them. */
  lemma OrderDoesNotMatter(s: State, t: State)
    requires Reachable(s) && Reachable(t) && s.sent == t.sent && s.config == t.config
    requires s.delivered != [] && t.delivered != [] && !s.refused && !t.refused
    requires forall i :: 0 <= i < |s.sent| ==> s.sent[i].Some? && s.sent[i].value.SentValue?
    ensures s.delivered[0].Values? && t.delivered[0].Values? ==>
              s.delivered == t.delivered == [Values(Joined(ValuesOf(s.sent)))]
    ensures s.config.moveNothrow ==> s.delivered[0].Values? && t.delivered[0].Values?
    ensures !s.delivered[0].Values? ==> s.delivered == [Failed(Exception)]
  {
    NoWinner(s);
    NoWinner(t);
    CompletesOnceAfterAll(s, 0);
    CompletesOnceAfterAll(t, 0);
    FirstOutcomeWins(s);
    FirstOutcomeWins(t);
  }

  lemma NoWinner(s: State)
    requires Reachable(s) && forall i :: 0 <= i < |s.sent| ==> s.sent[i].Some? && s.sent[i].value.SentValue?
    ensures s.winner.None? && Inv(s) && IsChild(s, 0)
  {
    InvHolds(s);
  }

  /** The values of child `i` stand in the result after those of the children before it. */
  lemma {:induction false} JoinedSplits(values: seq<Option<seq<Payload>>>, i: nat)
    requires i < |values| && values[i].Some?
    ensures Joined(values) == Joined(values[..i]) + values[i].value + Joined(values[i + 1..])
  {
    if i == 0 {
      assert Joined(values[..0]) == [];
    } else {
      JoinedSplits(values[1..], i - 1);
      assert values[..i][1..] == values[1..][..i - 1] && values[..i][0] == values[0];
      assert values[1..][i..] == values[i + 1..];
    }
  }

  /** The error slot is written once, by the winner. */
  lemma ErrorSlotWritten(s: State, st: Step)
    requires Reachable(s) && Next(s, st).Some? && Next(s, st).value.error != s.error
    ensures st.Act? && s.winner == Some(st.i) && s.children[st.i].StoreError? && s.error.None?
  {
    InvHolds(s);
    match st
    case Starts(throws) => StartWrites(s, throws);
    case Act(i, throws) =>
      assert ChildOk(s, i);
      ActWrites(s, i, s.children[i], throws);
    case Sends(i, sent) => SendWrites(s, i, sent);
    case DownstreamStop =>
  }

  /** When the error slot is read it is full, and nobody is writing it. */
  lemma ErrorSlotRead(s: State, i: Child, j: Child)
    requires Reachable(s) && IsChild(s, i) && s.children[i] == Deliver(ErrorTerminal) && IsChild(s, j)
    ensures s.error.Some? && !s.children[j].StoreError?
  {
    DeliveryIsReady(s, i);
    InvHolds(s);
    assert ChildOk(s, i);
    AllArrived(s);
  }

  /** `finish_one` always finds what it delivers: the error slot, or every value slot, full. */
  lemma DeliveryIsReady(s: State, i: Child)
    requires Reachable(s) && IsChild(s, i) && (s.children[i].Deliver? || s.children[i].Join?)
    ensures Next(s, Act(i, false)).Some?
    ensures s.children[i] == Deliver(ErrorTerminal) ==> s.error.Some?
    ensures s.children[i] == Deliver(NoTerminal) || s.children[i].Join? ==> SendsValue(s.config) && AllPresent(s.values)
  {
    InvHolds(s);
    assert ChildOk(s, i);
    AllArrived(s);
    if s.winner.None? { AllValues(s); }
  }

  /** A child inside its stop request, whatever that makes its siblings do, has not arrived: nothing finishes beneath
      it. */
  lemma NoFinishBeneathRequest(s: State, i: Child, j: Child)
    requires Reachable(s) && IsChild(s, i) && IsChild(s, j) && (s.children[i].RequestStop? || s.children[i].InRequest?)
    ensures s.remaining >= 1 && s.delivered == [] && !Finishing(s.children[j])
  {
    InvHolds(s);
    Unrefused(s, i);
    SomebodyLeft(s, i);
    assert ChildOk(s, j);
  }

  /** Nothing finishes before the start of the last child has been issued. */
  lemma NoFinishBeforeLastStart(s: State, i: Child, j: Child)
    requires Reachable(s) && IsChild(s, i) && IsChild(s, j) && s.children[i].NotStarted? && !s.refused
    ensures s.remaining >= 1 && s.delivered == [] && !Finishing(s.children[j])
  {
    InvHolds(s);
    SomebodyLeft(s, i);
    assert ChildOk(s, j);
  }

  /** When the winner arrives, the other children have been asked to stop. */
  lemma LosersAreStopped(s: State)
    requires Reachable(s) && s.winner.Some? && IsChild(s, s.winner.value) && HasArrived(s.children[s.winner.value])
    ensures s.stopRequested
  {
    InvHolds(s);
  }

  /** The counter is the number of children that have not arrived. */
  lemma RemainingCounts(s: State, i: Child)
    requires Reachable(s) && !s.refused && IsChild(s, i)
    ensures s.remaining == |s.children| - |s.arrived| && (i in s.arrived <==> HasArrived(s.children[i]))
  {
    InvHolds(s);
    assert ChildOk(s, i);
  }
}
