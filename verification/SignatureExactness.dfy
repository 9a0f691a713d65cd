/** When the declared completions are exactly those that can be delivered, and exactly when let_* falls short. */
module SignatureExactness {
  import opened Lists
  import opened Signatures
  import opened SignatureLists
  import opened SignatureTheorems

  // ---------- each adaptor on exact children

  lemma ThenExact(tag: Tag, child: Sender, cases: seq<Case>, move: bool, c: Sig)
    requires Exact(child) && c in Declared(Then(tag, child, cases, move))
    ensures CanSend(Then(tag, child, cases, move), c)
  {
    ThenDeclares(tag, child, cases, move, c);
    if u :| u in Declared(child) && c == Through(tag, cases, u) {
      assert CanSend(child, u) && ThenDelivers(tag, cases, u, c);
    } else {
      var u :| u in Declared(child) && Selected(tag, u) && !CaseOr(cases, u).nothrow;
      assert CanSend(child, u) && ThenDelivers(tag, cases, u, c);
    }
  }

  lemma LetPasses(tag: Tag, child: Sender, branches: seq<Branch>, move: bool, u: Sig, c: Sig)
    requires WellFormed(Let(tag, child, branches, move))
    requires forall i :: 0 <= i < |branches| ==> Exact(branches[i].sender)
    requires CanSend(child, u) && u in Declared(child) && FromLet(tag, branches, DeclaredBranches(branches), u, c)
    ensures CanSend(Let(tag, child, branches, move), c)
  {
    if Selected(tag, u) {
      assert HasBranch(branches, u) && CanSend(branches[BranchOf(branches, u)].sender, c);
    }
  }

  lemma LetExact(tag: Tag, child: Sender, branches: seq<Branch>, move: bool, c: Sig)
    requires WellFormed(Let(tag, child, branches, move)) && Exact(child)
    requires forall i :: 0 <= i < |branches| ==> Exact(branches[i].sender)
    requires c in Declared(Let(tag, child, branches, move))
    ensures CanSend(Let(tag, child, branches, move), c)
  {
    var lists := DeclaredBranches(branches);
    LetDeclares(tag, child, branches, move, c);
    if u :| u in Declared(child) && FromLet(tag, branches, lists, u, c) {
      LetPasses(tag, child, branches, move, u, c);
    } else {
      var u :| u in Declared(child) && Selected(tag, u) && HasBranch(branches, u) &&
        !branches[BranchOf(branches, u)].fnNothrow;
      assert CanSend(child, u) && BranchThrows(branches[BranchOf(branches, u)]);
    }
  }

  lemma IntoVariantExact(child: Sender, c: Sig)
    requires WellFormed(IntoVariant(child)) && Exact(child) && c in Declared(IntoVariant(child))
    ensures CanSend(IntoVariant(child), c)
  {
    var sigs := Declared(child);
    var variant := Variant(sigs);
    IntoVariantDeclares(sigs, c);
    UniqueKeepsFirsts(ValueTuples(sigs));
    if c.Value? {
      var args := ValueTuples(sigs)[0];
      ValueTuplesHas(sigs, args);
      assert CanSend(child, Value(args)) && IntoVariantDelivers(variant, Value(args), c);
    } else if c in sigs {
      assert CanSend(child, c) && IntoVariantDelivers(variant, c, c);
    } else {
      if ValuesNothrow(sigs) { VariantMoves(sigs); }
      var u :| u in sigs && u.Value? && !AllMoveNothrow(u.args);
      assert CanSend(child, u) && IntoVariantDelivers(variant, u, c);
    }
  }

  /** Values that can be stored can be wrapped. */
  lemma VariantMoves(sigs: seq<Sig>)
    requires ValuesNothrow(sigs)
    ensures Variant(sigs).move
  {
    UniqueKeepsFirsts(ValueTuples(sigs));
    forall args | args in Unique(ValueTuples(sigs)) ensures AllMoveNothrow(args) { ValueTuplesHas(sigs, args); }
  }

  /** Something other than the predicate can throw, or there is a value to ask the predicate about. */
  ghost predicate RepeatUntilTight(child: Sender, predicateNothrow: bool, factoryNothrow: bool, move: bool) {
    var sigs := Declared(child);
    || predicateNothrow || !factoryNothrow || ConnectThrows(child) || !ErrorsNothrow(sigs) || THROWN in sigs
    || exists u :: u in sigs && u.Value?
  }

  /** repeat_until declares exactly what it can send, if and only if it does not count a predicate it never asks. */
  lemma RepeatUntilExactIff(child: Sender, predicateNothrow: bool, factoryNothrow: bool, move: bool)
    requires Sound(child) && Exact(child)
    ensures Exact(RepeatUntil(child, predicateNothrow, factoryNothrow, move))
       <==> RepeatUntilTight(child, predicateNothrow, factoryNothrow, move)
  {
    var s := RepeatUntil(child, predicateNothrow, factoryNothrow, move);
    if RepeatUntilTight(child, predicateNothrow, factoryNothrow, move) {
      forall c | c in Declared(s) ensures CanSend(s, c) {
        RepeatUntilExact(child, predicateNothrow, factoryNothrow, move, c);
      }
    } else {
      RepeatUntilDeclares(Declared(child), predicateNothrow, factoryNothrow, THROWN);
      assert !CanSend(s, THROWN) by {
        forall u | CanSend(child, u)
          ensures !RepeatUntilDelivers(predicateNothrow, u, THROWN)
        {
          assert u in Declared(child);
        }
      }
    }
  }

  lemma RepeatUntilExact(child: Sender, predicateNothrow: bool, factoryNothrow: bool, move: bool, c: Sig)
    requires Exact(child) && RepeatUntilTight(child, predicateNothrow, factoryNothrow, move)
    requires c in Declared(RepeatUntil(child, predicateNothrow, factoryNothrow, move))
    ensures CanSend(RepeatUntil(child, predicateNothrow, factoryNothrow, move), c)
  {
    var sigs := Declared(child);
    RepeatUntilDeclares(sigs, predicateNothrow, factoryNothrow, c);
    if c in sigs {
      assert CanSend(child, c) && RepeatUntilDelivers(predicateNothrow, c, c);
    } else if c != Stopped && factoryNothrow && !ConnectThrows(child) {
      if !ErrorsNothrow(sigs) {
        var u :| u in sigs && u.Error? && !MoveNothrow(u.e);
        assert CanSend(child, u) && RepeatUntilDelivers(predicateNothrow, u, c);
      } else if !ValuesNothrow(sigs) {
        var u :| u in sigs && u.Value? && !AllMoveNothrow(u.args);
        assert CanSend(child, u) && RepeatUntilDelivers(predicateNothrow, u, c);
      } else {
        var u :| u in sigs && u.Value?;
        assert CanSend(child, u) && RepeatUntilDelivers(predicateNothrow, u, c);
      }
    }
  }

  lemma WhenAllForwardsAll(children: seq<Sender>, l: seq<Sig>, u: Sig, c: Sig)
    requires (forall i :: 0 <= i < |children| ==> Exact(children[i])) && l in DeclaredAll(children) && u in l
    requires WhenAllForwards(u, c)
    ensures Forwarded(children, c)
  {
    var i :| 0 <= i < |children| && DeclaredAll(children)[i] == l;
    assert CanSend(children[i], u);
  }

  lemma WhenAllValueExact(children: seq<Sender>)
    requires (forall i :: 0 <= i < |children| ==> Exact(children[i])) && AllSingle(DeclaredAll(children))
    ensures Completed(children, Value(Flat(Slots(DeclaredAll(children)))))
  {
    var lists := DeclaredAll(children);
    var us := Slots(lists);
    assert lists == [] ==> us == [];
    forall i | 0 <= i < |children| ensures |us| == |children| && CanSend(children[i], Value(us[i])) {
      SlotsAt(lists, i);
      ValueTuplesHas(lists[i], us[i]);
      assert SingleValue(lists[i]);
    }
    assert AllSend(children, us);
  }

  /** A value that cannot be moved cannot be stored: whoever is to deliver it may throw before that. */
  lemma WhenAllThrownExact(children: seq<Sender>, callbackNothrow: bool)
    requires forall i :: 0 <= i < |children| ==> Exact(children[i])
    requires !WhenAllNothrow(DeclaredAll(children), callbackNothrow)
    ensures Forwarded(children, THROWN) || !callbackNothrow
  {
    var lists := DeclaredAll(children);
    if l :| l in lists && !ErrorsNothrow(l) {
      var u :| u in l && u.Error? && !MoveNothrow(u.e);
      WhenAllForwardsAll(children, l, u, THROWN);
    } else if callbackNothrow {
      var l :| l in lists && (!ValuesNothrow(l) || !AllMoveNothrow(SlotOf(l)));
      if ValuesNothrow(l) { ValueTuplesHas(l, SlotOf(l)); }
      var u :| u in l && u.Value? && !AllMoveNothrow(u.args);
      WhenAllForwardsAll(children, l, u, THROWN);
    }
  }

  /** when_all declares exactly what it can send, whatever its children. */
  lemma WhenAllExact(children: seq<Sender>, callbackNothrow: bool, c: Sig)
    requires forall i :: 0 <= i < |children| ==> Exact(children[i])
    requires c in WhenAllList(DeclaredAll(children), callbackNothrow)
    ensures CanSend(WhenAll(children, callbackNothrow), c)
  {
    var lists := DeclaredAll(children);
    WhenAllDeclares(lists, callbackNothrow, c);
    if c.Value? {
      WhenAllValueExact(children);
    } else if l :| l in lists && c in l {
      WhenAllForwardsAll(children, l, c, c);
    } else {
      WhenAllThrownExact(children, callbackNothrow);
    }
    WhenAllSends(children, callbackNothrow, c);
  }

  // ---------- whole trees

  /** No repeat_until in the tree counts a predicate that it never asks. */
  ghost predicate Tight(s: Sender) {
    match s
    case Then(_, child, _, _) => Tight(child)
    case Let(_, child, branches, _) => Tight(child) && forall i :: 0 <= i < |branches| ==> Tight(branches[i].sender)
    case IntoVariant(child) => Tight(child)
    case WhenAll(children, _) => forall i :: 0 <= i < |children| ==> Tight(children[i])
    case RepeatUntil(child, predicateNothrow, factoryNothrow, move) =>
      Tight(child) && RepeatUntilTight(child, predicateNothrow, factoryNothrow, move)
    case _ => true
  }

  /** Completeness: a tight sender can send everything it declares. In particular it declares `exception_ptr` only if
      some path produces it. */
  lemma {:induction false} SignaturesAreExact(s: Sender, c: Sig)
    requires WellFormed(s) && Tight(s) && c in Declared(s)
    ensures CanSend(s, c)
    decreases s
  {
    match s
    case Then(tag, child, cases, move) =>
      forall u | u in Declared(child) ensures CanSend(child, u) { SignaturesAreExact(child, u); }
      ThenExact(tag, child, cases, move, c);
    case Let(tag, child, branches, move) =>
      forall u | u in Declared(child) ensures CanSend(child, u) { SignaturesAreExact(child, u); }
      forall i, u | 0 <= i < |branches| && u in Declared(branches[i].sender) ensures CanSend(branches[i].sender, u) {
        SignaturesAreExact(branches[i].sender, u);
      }
      LetExact(tag, child, branches, move, c);
    case IntoVariant(child) =>
      forall u | u in Declared(child) ensures CanSend(child, u) { SignaturesAreExact(child, u); }
      IntoVariantExact(child, c);
    case WhenAll(children, callbackNothrow) =>
      forall i, u | 0 <= i < |children| && u in Declared(children[i])
        ensures CanSend(children[i], u)
      {
        SignaturesAreExact(children[i], u);
      }
      WhenAllExact(children, callbackNothrow, c);
    case RepeatUntil(child, predicateNothrow, factoryNothrow, move) =>
      forall u | u in Declared(child) ensures CanSend(child, u) { SignaturesAreExact(child, u); }
      RepeatUntilExact(child, predicateNothrow, factoryNothrow, move, c);
    case _ =>
  }

  // ---------- let_*, exactly

  /** On a child that declares just what it sends, let_* is sound if and only if the exception is declared or no connect
      of a branch it can take may throw. */
  lemma LetSoundIff(tag: Tag, child: Sender, branches: seq<Branch>, move: bool)
    requires Sound(child) && Exact(child) && forall i :: 0 <= i < |branches| ==> Sound(branches[i].sender)
    ensures Sound(Let(tag, child, branches, move)) <==> LetCovers(tag, child, branches, move)
  {
    var s := Let(tag, child, branches, move);
    if LetCovers(tag, child, branches, move) {
      forall c | CanSend(s, c) ensures c in Declared(s) { LetSound(tag, child, branches, move, c); }
    } else {
      var u :| u in Declared(child) && Selected(tag, u) && HasBranch(branches, u) &&
        ConnectThrows(branches[BranchOf(branches, u)].sender);
      assert CanSend(child, u) && BranchThrows(branches[BranchOf(branches, u)]);
      assert CanSend(s, THROWN);
    }
  }

  /** A sender and everything below it is sound. */
  ghost predicate SoundThroughout(s: Sender) {
    && Sound(s)
    && match s
       case Then(_, child, _, _) => SoundThroughout(child)
       case Let(_, child, branches, _) =>
         SoundThroughout(child) && forall i :: 0 <= i < |branches| ==> SoundThroughout(branches[i].sender)
       case IntoVariant(child) => SoundThroughout(child)
       case WhenAll(children, _) => forall i :: 0 <= i < |children| ==> SoundThroughout(children[i])
       case RepeatUntil(child, _, _, _) => SoundThroughout(child)
       case _ => true
  }

  lemma {:induction false} CoveredIfSound(s: Sender)
    requires WellFormed(s) && Tight(s) && SoundThroughout(s)
    ensures Covered(s)
    decreases s
  {
    match s
    case Then(_, child, _, _) => CoveredIfSound(child);
    case Let(tag, child, branches, move) =>
      CoveredIfSound(child);
      forall i | 0 <= i < |branches| ensures Covered(branches[i].sender) { CoveredIfSound(branches[i].sender); }
      forall u | u in Declared(child) ensures CanSend(child, u) { SignaturesAreExact(child, u); }
      LetSoundIff(tag, child, branches, move);
    case IntoVariant(child) => CoveredIfSound(child);
    case WhenAll(children, _) =>
      forall i | 0 <= i < |children| ensures Covered(children[i]) { CoveredIfSound(children[i]); }
    case RepeatUntil(child, _, _, _) => CoveredIfSound(child);
    case _ =>
  }

  lemma {:induction false} SoundIfCovered(s: Sender)
    requires WellFormed(s) && Covered(s)
    ensures SoundThroughout(s)
    decreases s
  {
    forall c | CanSend(s, c) ensures c in Declared(s) { SignaturesAreSound(s, c); }
    match s
    case Then(_, child, _, _) => SoundIfCovered(child);
    case Let(_, child, branches, _) =>
      SoundIfCovered(child);
      forall i | 0 <= i < |branches| ensures SoundThroughout(branches[i].sender) { SoundIfCovered(branches[i].sender); }
    case IntoVariant(child) => SoundIfCovered(child);
    case WhenAll(children, _) =>
      forall i | 0 <= i < |children| ensures SoundThroughout(children[i]) { SoundIfCovered(children[i]); }
    case RepeatUntil(child, _, _, _) => SoundIfCovered(child);
    case _ =>
  }

  /** Throwing connects under let_* are the only thing the calculus can miss. */
  lemma SoundExactlyWhenCovered(s: Sender)
    requires WellFormed(s) && Tight(s)
    ensures SoundThroughout(s) <==> Covered(s)
  {
    if Covered(s) { SoundIfCovered(s); }
    if SoundThroughout(s) { CoveredIfSound(s); }
  }

  /** let_value of a callable that cannot throw, and that returns just(x) for an x whose move can: connecting it can
      throw, and the `exception_ptr` that is delivered then is not declared. */
  lemma LetMissesConnect()
    ensures var s := Let(SetValue, Just([]), [Branch(Value([]), Just([Atom(0, false)]), true)], true);
            WellFormed(s) && CanSend(s, THROWN) && THROWN !in Declared(s)
  {
    var x := Atom(0, false);
    var branches := [Branch(Value([]), Just([x]), true)];
    assert !MoveNothrow([x][0]);
    assert CanSend(Just([]), Value([])) && Selected(SetValue, Value([])) && branches[0].sig == Value([]);
    assert HasBranch(branches, Value([])) && ConnectThrows(branches[BranchOf(branches, Value([]))].sender);
    LetDeclares(SetValue, Just([]), branches, true, THROWN);
    assert DeclaredBranches(branches) == [[Value([x])]];
  }

  /** repeat_until of a sender that only stops, with a predicate that may throw: `exception_ptr` declared, never
      sent. */
  lemma RepeatUntilCountsIdlePredicate()
    ensures var s := RepeatUntil(JustStopped, false, true, true);
            WellFormed(s) && THROWN in Declared(s) && !CanSend(s, THROWN)
  {
    RepeatUntilDeclares([Stopped], false, true, THROWN);
    assert forall u :: CanSend(JustStopped, u) <==> u == Stopped;
  }
}
