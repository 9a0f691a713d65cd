/** What the calculus says a when_all can send, against the runs of the protocol: with payloads read as values of types,
    the two are the same. */
module WhenAllSends {
  import opened Runs
  import opened Signatures
  import opened SignatureLists
  import opened SignatureTheorems
  import W = WhenAll
  import WI = WhenAllInv
  import WR = WhenAllRuns

  /** The type of a payload. */
  type Typing = W.Payload -> Ty

  function Types(ty: Typing, v: seq<W.Payload>): seq<Ty> { seq(|v|, i requires 0 <= i < |v| => ty(v[i])) }

  function ErrOf(ty: Typing, e: W.Err): Sig { if e.Raised? then Error(ty(e.e)) else THROWN }

  function SigOf(ty: Typing, o: W.Outcome): Sig {
    match o
    case Values(v) => Value(Types(ty, v))
    case Failed(e) => ErrOf(ty, e)
    case Stopped => Stopped
  }

  /** A child sends `u` by sending `sent`. */
  predicate Represents(ty: Typing, sent: W.Sent, u: Sig) {
    match sent
    case SentValue(v) => u == Value(Types(ty, v))
    case SentError(e) => u == Error(ty(e))
    case SentStopped => u == Stopped
    case SentThrow => false
  }

  ghost predicate SendsValue(x: Sender) { exists us :: CanSend(x, Value(us)) }
  ghost predicate SendsError(x: Sender) { exists e :: CanSend(x, Error(e)) }
  ghost predicate SendsUnsafe(x: Sender, u: Sig) { StoreThrows(u) && CanSend(x, u) }

  ghost predicate ValuesSafe(children: seq<Sender>) {
    forall i, u :: 0 <= i < |children| && SendsUnsafe(children[i], u) ==> !u.Value?
  }

  ghost predicate ErrorsSafe(children: seq<Sender>) {
    forall i, u :: 0 <= i < |children| && SendsUnsafe(children[i], u) ==> !u.Error?
  }

  /** How the children of a when_all complete, and what cannot throw. */
  ghost function ConfigOf(children: seq<Sender>, callbackNothrow: bool): W.Config {
    W.Config(
      seq(|children|, i requires 0 <= i < |children| =>
        W.Sender(SendsValue(children[i]), SendsError(children[i]), CanSend(children[i], Stopped))),
      ValuesSafe(children), ErrorsSafe(children), ValuesSafe(children), ErrorsSafe(children),
      !ConnectsThrow(children), callbackNothrow)
  }

  /** What the children have sent they can send. */
  ghost predicate Typed(children: seq<Sender>, ty: Typing, sent: seq<Option<W.Sent>>) {
    && |sent| == |children|
    && forall i :: 0 <= i < |sent| && sent[i].Some? && !sent[i].value.SentThrow? ==>
         exists u :: CanSend(children[i], u) && Represents(ty, sent[i].value, u)
  }

  /** A run whose children complete as they can delivers `c`. */
  ghost predicate Delivers(children: seq<Sender>, callbackNothrow: bool, ty: Typing, s: W.State, o: W.Outcome) {
    && WI.Reachable(s) && s.config == ConfigOf(children, callbackNothrow) && Typed(children, ty, s.sent)
    && o in s.delivered
  }

  // ---------- what runs deliver can be sent

  lemma {:induction false} JoinedTypes(ty: Typing, values: seq<Option<seq<W.Payload>>>)
    requires W.AllPresent(values)
    ensures Types(ty, W.Joined(values))
         == Flat(seq(|values|, i requires 0 <= i < |values| => Types(ty, values[i].value)))
  {
    if values == [] {
    } else {
      JoinedTypes(ty, values[1..]);
      var lists := seq(|values|, i requires 0 <= i < |values| => Types(ty, values[i].value));
      assert lists[1..] == seq(|values[1..]|, i requires 0 <= i < |values[1..]| => Types(ty, values[1..][i].value));
      assert Types(ty, W.Joined(values)) == lists[0] + Types(ty, W.Joined(values[1..]));
    }
  }

  /** With no winner, the values of the children. */
  lemma ValuesAreSent(children: seq<Sender>, callbackNothrow: bool, ty: Typing, sent: seq<Option<W.Sent>>)
    requires Typed(children, ty, sent) && W.AllPresent(W.ValuesOf(sent))
    ensures CanSend(WhenAll(children, callbackNothrow), Value(Types(ty, W.Joined(W.ValuesOf(sent)))))
  {
    var values := W.ValuesOf(sent);
    var us := seq(|values|, i requires 0 <= i < |values| => Types(ty, values[i].value));
    JoinedTypes(ty, values);
    forall i | 0 <= i < |children| ensures CanSend(children[i], Value(us[i])) { assert values[i].Some?; }
    assert AllSend(children, us);
    assert Completed(children, Value(Flat(us)));
    WhenAllSends(children, callbackNothrow, Value(Flat(us)));
  }

  lemma UnsafeForwards(children: seq<Sender>, callbackNothrow: bool, i: nat, u: Sig)
    requires i < |children| && SendsUnsafe(children[i], u)
    ensures CanSend(WhenAll(children, callbackNothrow), THROWN)
  {
    assert StoreThrows(u) && CanSend(children[i], u);
    assert WhenAllForwards(u, THROWN);
    assert Forwarded(children, THROWN);
    WhenAllSends(children, callbackNothrow, THROWN);
  }

  /** Where storing or moving may throw, some child can send what does. */
  lemma UnsafeIsSent(children: seq<Sender>, callbackNothrow: bool)
    requires !ValuesSafe(children) || !ErrorsSafe(children)
    ensures CanSend(WhenAll(children, callbackNothrow), THROWN)
  {
    var i, u :| 0 <= i < |children| && SendsUnsafe(children[i], u);
    UnsafeForwards(children, callbackNothrow, i, u);
  }

  lemma WinnerIsSent(children: seq<Sender>, callbackNothrow: bool, ty: Typing, w: W.Child, sent: W.Sent, u: Sig)
    requires w < |children| && CanSend(children[w], u) && Represents(ty, sent, u) && !sent.SentValue?
    ensures CanSend(WhenAll(children, callbackNothrow), u)
  {
    assert WhenAllForwards(u, u);
    WhenAllSends(children, callbackNothrow, u);
  }

  /** Everything a run delivers is among what the calculus says the sender can send. */
  lemma RunsSend(children: seq<Sender>, callbackNothrow: bool, ty: Typing, s: W.State, o: W.Outcome)
    requires Delivers(children, callbackNothrow, ty, s, o)
    ensures CanSend(WhenAll(children, callbackNothrow), SigOf(ty, o))
  {
    WI.InvHolds(s);
    if o == W.Failed(W.Exception) {
      ThrownIsSent(children, callbackNothrow, s);
    } else if s.winner.None? {
      ValuesDeliver(s, o);
      ValuesAreSent(children, callbackNothrow, ty, s.sent);
    } else {
      WinnerDelivers(s, o);
      var w := s.winner.value;
      var u :| CanSend(children[w], u) && Represents(ty, s.sent[w].value, u);
      WinnerIsSent(children, callbackNothrow, ty, w, s.sent[w].value, u);
    }
  }

  lemma ValuesDeliver(s: W.State, o: W.Outcome)
    requires W.Inv(s) && o in s.delivered && s.winner.None? && o != W.Failed(W.Exception)
    ensures o == W.Values(W.Joined(W.ValuesOf(s.sent))) && W.AllPresent(W.ValuesOf(s.sent))
  {
  }

  /** A winner, and nothing thrown: it is what the winner sent. */
  lemma WinnerDelivers(s: W.State, o: W.Outcome)
    requires W.Inv(s) && o in s.delivered && s.winner.Some? && o != W.Failed(W.Exception)
    ensures s.winner.value < |s.sent| && s.sent[s.winner.value].Some?
    ensures match s.sent[s.winner.value].value
            case SentError(e) => o == W.Failed(W.Raised(e))
            case SentStopped => o == W.Stopped
            case _ => false
  {
  }

  lemma ThrownIsSent(children: seq<Sender>, callbackNothrow: bool, s: W.State)
    requires W.Inv(s) && s.config == ConfigOf(children, callbackNothrow) && W.Failed(W.Exception) in s.delivered
    ensures CanSend(WhenAll(children, callbackNothrow), THROWN)
  {
    if !ValuesSafe(children) || !ErrorsSafe(children) {
      UnsafeIsSent(children, callbackNothrow);
    } else {
      if s.winner.Some? { assert W.ChildOk(s, s.winner.value); }
      WhenAllSends(children, callbackNothrow, THROWN);
    }
  }

  // ---------- what can be sent some run delivers

  /** Every child can send something, and there are payloads for everything that it can send. */
  ghost predicate Playable(children: seq<Sender>, ty: Typing) {
    forall i :: 0 <= i < |children| ==> Plays(children[i], ty)
  }

  ghost predicate Plays(x: Sender, ty: Typing) {
    && (exists u :: CanSend(x, u))
    && forall u :: CanSend(x, u) ==> exists sent :: Represents(ty, sent, u)
  }

  /** What a child sends to send `u`. */
  ghost function Part(x: Sender, ty: Typing, u: Sig): (sent: W.Sent)
    requires Plays(x, ty) && CanSend(x, u)
    ensures Represents(ty, sent, u)
  {
    var sent :| Represents(ty, sent, u); sent
  }

  /** `us` is a completion of each child. */
  ghost predicate Completions(children: seq<Sender>, us: seq<Sig>) {
    |us| == |children| && forall i :: 0 <= i < |children| ==> CanSend(children[i], us[i])
  }

  ghost function AnySig(x: Sender): (u: Sig)
    requires exists u :: CanSend(x, u)
    ensures CanSend(x, u)
  {
    var u :| CanSend(x, u); u
  }

  ghost function AnyCompletions(children: seq<Sender>, ty: Typing): (us: seq<Sig>)
    requires Playable(children, ty)
    ensures Completions(children, us)
  {
    seq(|children|, i requires 0 <= i < |children| => AnySig(children[i]))
  }

  /** The script by which the children complete with `us`. */
  ghost function ScriptOf(children: seq<Sender>, callbackNothrow: bool, ty: Typing, us: seq<Sig>): (sc: WR.Script)
    requires Playable(children, ty) && Completions(children, us)
    ensures sc.config == ConfigOf(children, callbackNothrow) && |sc.plan| == |children|
    ensures forall i :: 0 <= i < |children| ==> Represents(ty, sc.plan[i], us[i])
  {
    WR.Script(ConfigOf(children, callbackNothrow),
              seq(|children|, i requires 0 <= i < |children| => Part(children[i], ty, us[i])))
  }

  lemma PartPlays(children: seq<Sender>, callbackNothrow: bool, ty: Typing, sc: WR.Script, i: W.Child, u: Sig)
    requires sc.config == ConfigOf(children, callbackNothrow) && |sc.plan| == |children| && i < |children|
    requires CanSend(children[i], u) && Represents(ty, sc.plan[i], u)
    ensures WR.CanPlay(sc, i)
  {
  }

  /** Some run delivers `c`. */
  ghost predicate SomeRunDelivers(children: seq<Sender>, callbackNothrow: bool, ty: Typing, c: Sig) {
    exists s, o :: Delivers(children, callbackNothrow, ty, s, o) && SigOf(ty, o) == c
  }

  lemma ScriptPlays(children: seq<Sender>, callbackNothrow: bool, ty: Typing, us: seq<Sig>)
    requires Playable(children, ty) && Completions(children, us)
    ensures forall j: W.Child :: j < |children| ==> WR.CanPlay(ScriptOf(children, callbackNothrow, ty, us), j)
  {
    var sc := ScriptOf(children, callbackNothrow, ty, us);
    forall j: W.Child | j < |children|
      ensures WR.CanPlay(sc, j)
    {
      PartPlays(children, callbackNothrow, ty, sc, j, us[j]);
    }
  }

  /** The script by which something throws for child `i`, and the others complete. */
  ghost function ThrowScript(children: seq<Sender>, callbackNothrow: bool, ty: Typing, i: nat): (sc: WR.Script)
    requires Playable(children, ty) && i < |children|
    ensures sc.config == ConfigOf(children, callbackNothrow) && |sc.plan| == |children| && sc.plan[i] == W.SentThrow
  {
    var sc := ScriptOf(children, callbackNothrow, ty, AnyCompletions(children, ty));
    sc.(plan := sc.plan[i := W.SentThrow])
  }

  lemma OthersPlay(children: seq<Sender>, callbackNothrow: bool, ty: Typing, i: nat)
    requires Playable(children, ty) && i < |children|
    ensures var sc := ThrowScript(children, callbackNothrow, ty, i);
            && (forall j: W.Child :: j < |children| && j != i ==> WR.CanPlay(sc, j))
            && forall j :: 0 <= j < |children| && j != i ==> Represents(ty, sc.plan[j], AnyCompletions(children, ty)[j])
  {
    ScriptPlays(children, callbackNothrow, ty, AnyCompletions(children, ty));
    var any := ScriptOf(children, callbackNothrow, ty, AnyCompletions(children, ty));
    var sc := ThrowScript(children, callbackNothrow, ty, i);
    forall j: W.Child | j < |children| && j != i ensures WR.CanPlay(sc, j) { assert WR.CanPlay(any, j); }
  }

  /** A run that ends by a script of parts that the children can send. */
  lemma EndedDelivers(children: seq<Sender>, callbackNothrow: bool, ty: Typing, sc: WR.Script, us: seq<Sig>,
                      s: W.State, o: W.Outcome)
    requires WR.Ended(s, sc, o) && sc.config == ConfigOf(children, callbackNothrow) && |sc.plan| == |children|
    requires Completions(children, us)
    requires forall i :: 0 <= i < |children| ==> sc.plan[i].SentThrow? || Represents(ty, sc.plan[i], us[i])
    ensures SomeRunDelivers(children, callbackNothrow, ty, SigOf(ty, o))
  {
    forall i | 0 <= i < |s.sent| && s.sent[i].Some? && !s.sent[i].value.SentThrow?
      ensures exists u :: CanSend(children[i], u) && Represents(ty, s.sent[i].value, u)
    {
      assert CanSend(children[i], us[i]) && Represents(ty, s.sent[i].value, us[i]);
    }
    assert Delivers(children, callbackNothrow, ty, s, o);
  }

  ghost function ValueSigsOf(us: seq<seq<Ty>>): seq<Sig> { seq(|us|, i requires 0 <= i < |us| => Value(us[i])) }

  lemma PlannedValues(children: seq<Sender>, callbackNothrow: bool, ty: Typing, us: seq<seq<Ty>>)
    requires children != [] && Playable(children, ty) && AllSend(children, us)
    ensures var sc := ScriptOf(children, callbackNothrow, ty, ValueSigsOf(us));
            && W.SendsValue(sc.config)
            && (forall i: W.Child :: i < |children| ==> WR.CanPlay(sc, i) && sc.plan[i].SentValue?)
            && Types(ty, W.Joined(W.ValuesOf(WR.Everything(sc)))) == Flat(us)
  {
    var sc := ScriptOf(children, callbackNothrow, ty, ValueSigsOf(us));
    forall i: W.Child | i < |children|
      ensures WR.CanPlay(sc, i) && sc.plan[i].SentValue? && sc.config.senders[i].value
    {
      PartPlays(children, callbackNothrow, ty, sc, i, Value(us[i]));
    }
    var values := W.ValuesOf(WR.Everything(sc));
    JoinedTypes(ty, values);
    assert us == seq(|values|, i requires 0 <= i < |values| => Types(ty, values[i].value));
  }

  lemma ValuesRun(children: seq<Sender>, callbackNothrow: bool, ty: Typing, us: seq<seq<Ty>>, throws: bool)
    requires children != [] && Playable(children, ty) && AllSend(children, us) && (throws ==> !ValuesSafe(children))
    ensures SomeRunDelivers(children, callbackNothrow, ty, if throws then THROWN else Value(Flat(us)))
  {
    var sc := ScriptOf(children, callbackNothrow, ty, ValueSigsOf(us));
    PlannedValues(children, callbackNothrow, ty, us);
    var s := WR.EndsInValues(sc, throws);
    var o := if throws then W.Failed(W.Exception) else W.Values(W.Joined(W.ValuesOf(WR.Everything(sc))));
    EndedDelivers(children, callbackNothrow, ty, sc, ValueSigsOf(us), s, o);
  }

  /** Child `i` completes first, without a value; storing its error may throw. */
  lemma FailureRun(children: seq<Sender>, callbackNothrow: bool, ty: Typing, i: nat, u: Sig, throws: bool)
    requires Playable(children, ty) && i < |children| && CanSend(children[i], u) && !u.Value?
    requires throws ==> u.Error? && StoreThrows(u)
    ensures SomeRunDelivers(children, callbackNothrow, ty, if throws then THROWN else u)
  {
    var us := AnyCompletions(children, ty)[i := u];
    var sc := ScriptOf(children, callbackNothrow, ty, us);
    ScriptPlays(children, callbackNothrow, ty, us);
    assert throws ==> SendsUnsafe(children[i], u);
    var s := WR.EndsInFailure(sc, i, throws);
    EndedDelivers(children, callbackNothrow, ty, sc, us, s, WR.OutcomeOf(sc.plan[i], throws));
  }

  lemma ThrowPlays(children: seq<Sender>, callbackNothrow: bool, sc: WR.Script, i: nat, u: Sig)
    requires sc.config == ConfigOf(children, callbackNothrow) && |sc.plan| == |children|
    requires i < |children| && sc.plan[i] == W.SentThrow && CanSend(children[i], u) && u.Value? && StoreThrows(u)
    ensures WR.CanPlay(sc, i)
  {
    assert SendsUnsafe(children[i], u) && CanSend(children[i], Value(u.args));
  }

  /** Child `i` completes first, and storing its value throws. */
  lemma ThrowRun(children: seq<Sender>, callbackNothrow: bool, ty: Typing, i: nat, u: Sig)
    requires Playable(children, ty) && i < |children| && CanSend(children[i], u) && u.Value? && StoreThrows(u)
    ensures SomeRunDelivers(children, callbackNothrow, ty, THROWN)
  {
    var sc := ThrowScript(children, callbackNothrow, ty, i);
    OthersPlay(children, callbackNothrow, ty, i);
    ThrowPlays(children, callbackNothrow, sc, i, u);
    var s := WR.EndsInFailure(sc, i, false);
    EndedDelivers(children, callbackNothrow, ty, sc, AnyCompletions(children, ty), s, W.Failed(W.Exception));
  }

  /** Connecting a child throws. */
  lemma ConnectRun(children: seq<Sender>, callbackNothrow: bool, ty: Typing)
    requires children != [] && Playable(children, ty) && ConnectsThrow(children)
    ensures SomeRunDelivers(children, callbackNothrow, ty, THROWN)
  {
    var i := |children| - 1;
    var sc := ThrowScript(children, callbackNothrow, ty, i);
    OthersPlay(children, callbackNothrow, ty, i);
    var s := WR.EndsInConnect(sc, i);
    EndedDelivers(children, callbackNothrow, ty, sc, AnyCompletions(children, ty), s, W.Failed(W.Exception));
  }

  /** Registering the stop callback throws. */
  lemma RegisterRun(children: seq<Sender>, ty: Typing)
    requires children != []
    ensures SomeRunDelivers(children, false, ty, THROWN)
  {
    var s0 := W.Connected(ConfigOf(children, false));
    assert Exec(W.Next, s0, []) == Some(s0);
    assert WI.Reachable(s0);
    WR.Reaches(s0, W.Starts(true));
    var s := W.Next(s0, W.Starts(true)).value;
    assert Delivers(children, false, ty, s, W.Failed(W.Exception));
  }

  /** The calculus is right about when_all: it can send exactly what its runs deliver. */
  lemma WhenAllRunsExactly(children: seq<Sender>, callbackNothrow: bool, ty: Typing, c: Sig)
    requires children != [] && Playable(children, ty)
    ensures CanSend(WhenAll(children, callbackNothrow), c) <==> SomeRunDelivers(children, callbackNothrow, ty, c)
  {
    if SomeRunDelivers(children, callbackNothrow, ty, c) {
      var s, o :| Delivers(children, callbackNothrow, ty, s, o) && SigOf(ty, o) == c;
      RunsSend(children, callbackNothrow, ty, s, o);
    }
    if CanSend(WhenAll(children, callbackNothrow), c) {
      WhenAllCases(children, callbackNothrow, c);
      if Completed(children, c) { CompletedRun(children, callbackNothrow, ty, c); }
      else if Forwarded(children, c) { ForwardedRun(children, callbackNothrow, ty, c); }
      else if ConnectsThrow(children) { ConnectRun(children, callbackNothrow, ty); }
      else { RegisterRun(children, ty); }
    }
  }

  lemma CompletedRun(children: seq<Sender>, callbackNothrow: bool, ty: Typing, c: Sig)
    requires children != [] && Playable(children, ty) && Completed(children, c)
    ensures SomeRunDelivers(children, callbackNothrow, ty, c)
  {
    var us :| AllSend(children, us) && (c == Value(Flat(us)) || (c == THROWN && !AllMoveNothrow(Flat(us))));
    if c == THROWN {
      FlatMoves(us);
      var i :| 0 <= i < |us| && !AllMoveNothrow(us[i]);
      assert SendsUnsafe(children[i], Value(us[i]));
    }
    ValuesRun(children, callbackNothrow, ty, us, c == THROWN);
  }

  lemma ForwardedRun(children: seq<Sender>, callbackNothrow: bool, ty: Typing, c: Sig)
    requires Playable(children, ty) && Forwarded(children, c)
    ensures SomeRunDelivers(children, callbackNothrow, ty, c)
  {
    var i, u :| 0 <= i < |children| && CanSend(children[i], u) && WhenAllForwards(u, c);
    if u.Value? { ThrowRun(children, callbackNothrow, ty, i, u); }
    else { FailureRun(children, callbackNothrow, ty, i, u, c != u); }
  }
}
