/** Exactly when finish_one of when_all can end the program: it does not throw, but it moves the error slot and the
    tuple of value slots outside any `try`. */
module WhenAllTermination {
  import opened Runs
  import opened WhenAll
  import opened WhenAllInv
  import opened WhenAllTheorems
  import opened WhenAllRuns

  /** An error that some child can send, or the values that all children can send, cannot be moved without risk. */
  ghost predicate MovesThrow(config: Config) {
    || (!config.errorMoveNothrow && exists i: Child :: i < |config.senders| && config.senders[i].error)
    || (!config.moveNothrow && SendsValue(config))
  }

  /** Every child operation completes in some way. */
  predicate Completes(sender: Sender) { sender.value || sender.error || sender.stopped }
  predicate AllComplete(config: Config) { forall i :: 0 <= i < |config.senders| ==> Completes(config.senders[i]) }

  lemma TerminatesOnlyIf(s: State)
    requires Reachable(s) && s.terminated
    ensures MovesThrow(s.config)
  {
    InvHolds(s);
    if s.winner.Some? { assert ChildOk(s, s.winner.value); }
  }

  ghost function SomePayload(): Payload {
    var e: Payload :| true; e
  }

  /** Something that a child with this sender can send. */
  ghost function SomethingSent(sender: Sender): Sent
    requires Completes(sender)
  {
    if sender.value then SentValue([]) else if sender.stopped then SentStopped else SentError(SomePayload())
  }

  /** Every child sends something, a value if it can. */
  ghost function AnyScript(config: Config): (sc: Script)
    requires AllComplete(config)
    ensures sc.config == config && forall i: Child :: i < Count(config) ==> CanPlay(sc, i)
    ensures |sc.plan| == Count(config)
    ensures forall i :: 0 <= i < |sc.plan| && config.senders[i].value ==> sc.plan[i].SentValue?
  {
    Script(config, seq(|config.senders|, i requires 0 <= i < |config.senders| => SomethingSent(config.senders[i])))
  }

  lemma ValuesEndIt(config: Config) returns (s: State)
    requires 0 < Count(config) && !config.moveNothrow && SendsValue(config)
    ensures Reachable(s) && s.config == config && s.terminated
  {
    var sc := AnyScript(config);
    s := ValuesOnly(sc);
    s := Breaks(s, sc, 0, None, None);
  }

  lemma ErrorEndsIt(config: Config, i: Child) returns (s: State)
    requires i < Count(config) && config.senders[i].error && !config.errorMoveNothrow && AllComplete(config)
    ensures Reachable(s) && s.config == config && s.terminated
  {
    var any, e := AnyScript(config), SomePayload();
    var sc := any.(plan := any.plan[i := SentError(e)]);
    forall j: Child | j < Count(config) ensures CanPlay(sc, j) { assert CanPlay(any, j); }
    s := FailsFirst(sc, i, false);
    s := Breaks(s, sc, i, Some(i), Some(Raised(e)));
  }

  /** The program can end in place of the completion if and only if an error some child can send, or the values all of
      them can send, may throw when moved. A declared `exception_ptr` does not prevent it. */
  lemma TerminatesExactlyWhen(config: Config)
    requires 0 < Count(config) && AllComplete(config)
    ensures (exists s :: Reachable(s) && s.config == config && s.terminated) <==> MovesThrow(config)
  {
    if MovesThrow(config) {
      var s: State;
      if !config.moveNothrow && SendsValue(config) {
        s := ValuesEndIt(config);
      } else {
        var i: Child :| i < |config.senders| && config.senders[i].error;
        s := ErrorEndsIt(config, i);
      }
      assert Reachable(s) && s.config == config && s.terminated;
    }
    forall s | Reachable(s) && s.config == config && s.terminated ensures MovesThrow(config) { TerminatesOnlyIf(s); }
  }

  /** A child that sends an error, or a value, whose copy into the slot cannot throw but whose move can, beside one that
      sends a value and throws nothing. */
  const LVALUE_ERROR :=
    Config([Sender(false, true, false), Sender(true, false, false)], true, true, true, false, true, true)
  const LVALUE_VALUE :=
    Config([Sender(true, false, false), Sender(true, false, false)], true, true, false, true, true, true)

  lemma LvalueSendersEndIt()
    ensures exists s :: Reachable(s) && s.config == LVALUE_ERROR && s.terminated
    ensures exists s :: Reachable(s) && s.config == LVALUE_VALUE && s.terminated
  {
    assert LVALUE_ERROR.senders[0].error;
    TerminatesExactlyWhen(LVALUE_ERROR);
    TerminatesExactlyWhen(LVALUE_VALUE);
  }
}
