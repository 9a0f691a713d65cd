/** What the calculus says a repeat_until can send, against the runs of the protocol: with payloads read as values of
    types, the two are the same. */
module RepeatUntilSends {
  import opened Runs
  import opened Signatures
  import R = RepeatUntil

  /** The types of a payload that a child sends with set_value, and with set_error. */
  datatype Typing = Typing(tuple: R.Payload -> seq<Ty>, error: R.Payload -> Ty)

  function SigOf(ty: Typing, c: R.Completion): Sig {
    match c
    case Value(v) => Value(ty.tuple(v))
    case Error(e) => Error(ty.error(e))
    case Exception => THROWN
    case Stopped => Stopped
  }

  /** The child completes as it can, and storing throws only where the types let it. */
  ghost predicate Allows(child: Sender, ty: Typing, st: R.Step) {
    st.Completes? ==> CanSend(child, SigOf(ty, st.c)) && (st.storing.Caught? ==> StoreThrows(SigOf(ty, st.c)))
  }

  ghost function TypedNext(child: Sender, ty: Typing): (R.State, R.Step) -> Option<R.State> {
    (s: R.State, st: R.Step) => if Allows(child, ty, st) then R.Next(s, st) else None
  }

  /** The configuration of the operation of a repeat_until. */
  function ConfigOf(x: Sender): R.Config
    requires x.RepeatUntil?
  {
    RepeatUntilConfig(Declared(x.child), x.predicateNothrow, x.factoryNothrow, !ConnectThrows(x.child))
  }

  /** A state that a run with such a child comes to. */
  ghost predicate Comes(x: Sender, ty: Typing, s: R.State)
    requires x.RepeatUntil?
  {
    exists steps :: Exec(TypedNext(x.child, ty), R.Started(ConfigOf(x)), steps) == Some(s)
  }

  /** What may be in the stored completion. */
  ghost predicate Storable(child: Sender, ty: Typing, c: R.Completion) {
    CanSend(child, SigOf(ty, c)) || (c.Exception? && exists u :: CanSend(child, u) && StoreThrows(u))
  }

  /** What a step delivers: that it was stopped, what was stored, or what connecting or the predicate throws. */
  predicate MayDeliver(s: R.State, c: R.Completion) {
    || c.Stopped?
    || s.stored == Some(c)
    || (c.Exception? && !(s.config.factoryNothrow && s.config.connectNothrow) && R.NeedExceptionPtr(s.config))
    || (c.Exception? && s.stored.Some? && s.stored.value.Value? && !s.config.predicateNothrow)
  }

  predicate Kept(c: R.Completion, storing: R.Storing, stored: R.Completion) {
    if storing.Kept? then stored == c else storing.Caught? && stored.Exception?
  }

  lemma StepWrites(s: R.State, st: R.Step)
    requires R.Next(s, st).Some?
    ensures var s' := R.Next(s, st).value;
            && s'.config == s.config
            && (s'.delivered == s.delivered || exists c :: MayDeliver(s, c) && s'.delivered == s.delivered + [c])
            && (s'.stored.None? || s'.stored == s.stored || (st.Completes? && Kept(st.c, st.storing, s'.stored.value)))
  {
    match st
    case Stop(x, requested) =>
    case Connects(x, throws) =>
    case Completes(x, c, storing) =>
    case Predicate(x, verdict) =>
    case Advance(x) =>
  }

  ghost predicate TypedOk(x: Sender, ty: Typing, s: R.State)
    requires x.RepeatUntil?
  {
    && s.config == ConfigOf(x)
    && (s.stored.Some? ==> Storable(x.child, ty, s.stored.value))
    && forall c :: c in s.delivered ==> CanSend(x, SigOf(ty, c))
  }

  /** What a step delivers, the calculus lets it. */
  lemma DeliveryIsSent(x: Sender, ty: Typing, s: R.State, c: R.Completion)
    requires x.RepeatUntil? && TypedOk(x, ty, s) && MayDeliver(s, c)
    ensures CanSend(x, SigOf(ty, c))
  {
    if s.stored.Some? && !c.Stopped? {
      StoredIsSent(x, ty, s.stored.value);
    }
  }

  lemma StoredIsSent(x: Sender, ty: Typing, c: R.Completion)
    requires x.RepeatUntil? && Storable(x.child, ty, c)
    ensures CanSend(x, SigOf(ty, c))
    ensures c.Value? && !x.predicateNothrow ==> CanSend(x, THROWN)
  {
    if CanSend(x.child, SigOf(ty, c)) {
      assert RepeatUntilDelivers(x.predicateNothrow, SigOf(ty, c), SigOf(ty, c));
      if c.Value? && !x.predicateNothrow { assert RepeatUntilDelivers(x.predicateNothrow, SigOf(ty, c), THROWN); }
    } else {
      var u :| CanSend(x.child, u) && StoreThrows(u);
      assert RepeatUntilDelivers(x.predicateNothrow, u, THROWN);
    }
  }

  lemma KeepsTypedOk(x: Sender, ty: Typing, s: R.State, st: R.Step)
    requires x.RepeatUntil? && TypedOk(x, ty, s) && Allows(x.child, ty, st) && R.Next(s, st).Some?
    ensures TypedOk(x, ty, R.Next(s, st).value)
  {
    var s' := R.Next(s, st).value;
    StepWrites(s, st);
    if s'.delivered != s.delivered {
      var c :| MayDeliver(s, c) && s'.delivered == s.delivered + [c];
      DeliveryIsSent(x, ty, s, c);
    }
  }

  /** Everything a run delivers is among what the calculus says the sender can send. */
  lemma RunsSend(x: Sender, ty: Typing, s: R.State, c: R.Completion)
    requires x.RepeatUntil? && Comes(x, ty, s) && c in s.delivered
    ensures CanSend(x, SigOf(ty, c))
  {
    var next, s0 := TypedNext(x.child, ty), R.Started(ConfigOf(x));
    var steps :| Exec(next, s0, steps) == Some(s);
    var inv := (y: R.State) => TypedOk(x, ty, y);
    forall y, st | inv(y) && next(y, st).Some? ensures inv(next(y, st).value) {
      KeepsTypedOk(x, ty, y, st);
    }
    assert TypedOk(x, ty, s0);
    Preserved(next, inv, s0, steps);
  }

  // the other direction: one round is enough

  /** A run has come here, and nothing has been stored or delivered. */
  ghost predicate Blank(x: Sender, ty: Typing, s: R.State)
    requires x.RepeatUntil?
  {
    && Comes(x, ty, s) && s.config == ConfigOf(x)
    && !s.terminated && s.delivered == [] && s.rounds == [] && s.stored.None?
  }

  lemma Goes(x: Sender, ty: Typing, s: R.State, st: R.Step)
    requires x.RepeatUntil? && Comes(x, ty, s) && Allows(x.child, ty, st) && R.Next(s, st).Some?
    ensures Comes(x, ty, R.Next(s, st).value)
  {
    var next, s0 := TypedNext(x.child, ty), R.Started(ConfigOf(x));
    var steps :| Exec(next, s0, steps) == Some(s);
    OneMoreStep(next, s0, steps, st);
    assert Exec(next, s0, steps + [st]) == R.Next(s, st);
  }

  lemma ToCheckStop(x: Sender, ty: Typing) returns (s: R.State)
    requires x.RepeatUntil?
    ensures Blank(x, ty, s) && R.At(s, 0).CheckStop?
  {
    var s0 := R.Started(ConfigOf(x));
    assert Exec(TypedNext(x.child, ty), s0, []) == Some(s0);
    Goes(x, ty, s0, R.Advance(0));
    s := R.Next(s0, R.Advance(0)).value;
  }

  lemma ToConnect(x: Sender, ty: Typing) returns (s: R.State)
    requires x.RepeatUntil?
    ensures Blank(x, ty, s) && R.At(s, 0) == R.Connect(s.epoch)
  {
    var s0 := ToCheckStop(x, ty);
    Goes(x, ty, s0, R.Stop(0, false));
    var s1 := R.Next(s0, R.Stop(0, false)).value;
    Goes(x, ty, s1, R.Advance(0));
    s := R.Next(s1, R.Advance(0)).value;
  }

  lemma ToStart(x: Sender, ty: Typing) returns (s: R.State)
    requires x.RepeatUntil?
    ensures Blank(x, ty, s) && R.At(s, 0) == R.Start(s.epoch)
  {
    var s0 := ToConnect(x, ty);
    Goes(x, ty, s0, R.Connects(0, false));
    s := R.Next(s0, R.Connects(0, false)).value;
  }

  lemma ToRunning(x: Sender, ty: Typing) returns (s: R.State)
    requires x.RepeatUntil?
    ensures Blank(x, ty, s) && R.At(s, 0) == R.DrainExchange(s.epoch) && R.At(s, 1) == R.Running(s.epoch)
  {
    var s0 := ToStart(x, ty);
    Goes(x, ty, s0, R.Advance(0));
    s := R.Next(s0, R.Advance(0)).value;
  }

  /** The drain has left; the child has stored `kept` and owns the operation. */
  ghost predicate ToJudge(x: Sender, ty: Typing, s: R.State, kept: R.Completion)
    requires x.RepeatUntil?
  {
    && Comes(x, ty, s) && s.config == ConfigOf(x) && !s.terminated && s.delivered == []
    && R.At(s, 1).Process? && s.stored == Some(kept)
  }

  lemma Suspends(x: Sender, ty: Typing) returns (s: R.State)
    requires x.RepeatUntil?
    ensures Blank(x, ty, s) && R.At(s, 1).Running? && R.At(s, 1).epoch != s.epoch
  {
    var s0 := ToRunning(x, ty);
    Goes(x, ty, s0, R.Advance(0));
    s := R.Next(s0, R.Advance(0)).value;
  }

  /** The child has stored `kept` and comes second to the exchange. */
  ghost predicate ToExchange(x: Sender, ty: Typing, s: R.State, kept: R.Completion)
    requires x.RepeatUntil?
  {
    && Comes(x, ty, s) && s.config == ConfigOf(x) && !s.terminated && s.delivered == [] && s.stored == Some(kept)
    && R.At(s, 1).ChildExchange? && R.At(s, 1).epoch != s.epoch
  }

  lemma Stores(x: Sender, ty: Typing, c: R.Completion, storing: R.Storing) returns (s: R.State)
    requires x.RepeatUntil? && Allows(x.child, ty, R.Completes(1, c, storing))
    requires R.MayStore(ConfigOf(x), c, storing) && !storing.Escaped?
    ensures ToExchange(x, ty, s, if storing.Kept? then c else R.Exception)
  {
    var s0 := Suspends(x, ty);
    var kept := if storing.Kept? then c else R.Exception;
    CompletesIs(s0, c, storing, kept);
    Goes(x, ty, s0, R.Completes(1, c, storing));
    s := Completed(s0, kept);
  }

  function Completed(s: R.State, kept: R.Completion): R.State
    requires R.At(s, 1).Running?
  {
    R.Go(s, 1, R.ChildExchange(R.At(s, 1).epoch)).(stored := Some(kept), sent := s.sent + [kept])
  }

  lemma CompletesIs(s: R.State, c: R.Completion, storing: R.Storing, kept: R.Completion)
    requires R.At(s, 1).Running? && !s.terminated && R.MayStore(s.config, c, storing)
    requires Kept(c, storing, kept)
    ensures R.Next(s, R.Completes(1, c, storing)) == Some(Completed(s, kept))
  {
  }

  lemma Loses(x: Sender, ty: Typing, kept: R.Completion, s: R.State) returns (s': R.State)
    requires x.RepeatUntil? && ToExchange(x, ty, s, kept)
    ensures ToJudge(x, ty, s', kept)
  {
    Goes(x, ty, s, R.Advance(1));
    s' := R.Next(s, R.Advance(1)).value;
  }

  lemma Judges(x: Sender, ty: Typing, kept: R.Completion, verdict: R.Verdict, s: R.State) returns (s': R.State)
    requires x.RepeatUntil? && ToJudge(x, ty, s, kept)
    requires kept.Value? ==> verdict.Done? || (verdict.Threw? && !x.predicateNothrow)
    ensures Comes(x, ty, s') && s'.delivered == [if kept.Value? && verdict.Threw? then R.Exception else kept]
  {
    Goes(x, ty, s, R.Predicate(1, verdict));
    s' := R.Next(s, R.Predicate(1, verdict)).value;
  }

  /** Some run delivers `c`. */
  ghost predicate SomeRunDelivers(x: Sender, ty: Typing, c: Sig)
    requires x.RepeatUntil?
  {
    exists s, o :: Comes(x, ty, s) && o in s.delivered && SigOf(ty, o) == c
  }

  /** The child sends `u` by completing with `c`. */
  predicate Represents(ty: Typing, c: R.Completion, u: Sig) {
    SigOf(ty, c) == u && (u.Value? ==> c.Value?) && (u.Error? ==> c.Error?)
  }

  /** There are payloads for everything that the child can send. */
  ghost predicate Inhabited(child: Sender, ty: Typing) {
    forall u :: CanSend(child, u) ==> exists c :: Represents(ty, c, u)
  }

  lemma ChildDelivers(x: Sender, ty: Typing, u: Sig, c: Sig)
    requires x.RepeatUntil? && Sound(x.child) && Inhabited(x.child, ty)
    requires CanSend(x.child, u) && RepeatUntilDelivers(x.predicateNothrow, u, c)
    ensures SomeRunDelivers(x, ty, c)
  {
    var sent :| Represents(ty, sent, u);
    assert u in Declared(x.child);
    var caught := c != u && StoreThrows(u);
    var storing := if caught then R.Caught else R.Kept;
    var kept := if caught then R.Exception else sent;
    var s := Stores(x, ty, sent, storing);
    s := Loses(x, ty, kept, s);
    s := Judges(x, ty, kept, if c == u || caught then R.Done else R.Threw, s);
    assert SigOf(ty, s.delivered[0]) == c;
  }

  lemma StopDelivers(x: Sender, ty: Typing)
    requires x.RepeatUntil?
    ensures SomeRunDelivers(x, ty, Stopped)
  {
    var s := ToCheckStop(x, ty);
    Goes(x, ty, s, R.Stop(0, true));
    var s' := R.Next(s, R.Stop(0, true)).value;
    assert SigOf(ty, s'.delivered[0]) == Stopped;
  }

  lemma ConnectDelivers(x: Sender, ty: Typing)
    requires x.RepeatUntil? && !(x.factoryNothrow && !ConnectThrows(x.child))
    requires DeclaresThrown(Declared(x.child), x.predicateNothrow, x.factoryNothrow)
    ensures SomeRunDelivers(x, ty, THROWN)
  {
    var s := ToConnect(x, ty);
    Goes(x, ty, s, R.Connects(0, true));
    var s' := R.Next(s, R.Connects(0, true)).value;
    assert SigOf(ty, s'.delivered[0]) == THROWN;
  }

  /** The calculus is right about repeat_until: it can send exactly what its runs deliver. */
  lemma RepeatUntilRuns(x: Sender, ty: Typing, c: Sig)
    requires x.RepeatUntil? && Sound(x.child) && Inhabited(x.child, ty)
    ensures CanSend(x, c) <==> SomeRunDelivers(x, ty, c)
  {
    if SomeRunDelivers(x, ty, c) {
      var s, o :| Comes(x, ty, s) && o in s.delivered && SigOf(ty, o) == c;
      RunsSend(x, ty, s, o);
    }
    if CanSend(x, c) {
      if c == Stopped { StopDelivers(x, ty); }
      else if u :| CanSend(x.child, u) && RepeatUntilDelivers(x.predicateNothrow, u, c) { ChildDelivers(x, ty, u, c); }
      else { ConnectDelivers(x, ty); }
    }
  }
}
