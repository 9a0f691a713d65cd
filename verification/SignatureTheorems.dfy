/** Type soundness of the completion signatures: what a sender can deliver, it declares; and when it declares no
    more. */
module SignatureTheorems {
  import opened Lists
  import opened Signatures
  import opened SignatureLists

  // ---------- what each adaptor declares

  function Through(tag: Tag, cases: seq<Case>, u: Sig): Sig {
    if Selected(tag, u) then Value(CaseOr(cases, u).result) else u
  }

  lemma ThenDeclares(tag: Tag, child: Sender, cases: seq<Case>, move: bool, c: Sig)
    ensures c in Declared(Then(tag, child, cases, move)) <==>
              (exists u :: u in Declared(child) && c == Through(tag, cases, u))
              || (c == THROWN && !CasesNothrow(tag, cases, Declared(child)))
  {
    ThenListHas(tag, cases, Declared(child), c);
    var thrown := Maybe(!CasesNothrow(tag, cases, Declared(child)), THROWN);
    UniqueKeepsFirsts(ThenList(tag, cases, Declared(child)) + thrown);
    assert (exists u :: u in Declared(child) && c == Through(tag, cases, u)) <==>
      c in ThenList(tag, cases, Declared(child));
  }

  lemma LetDeclares(tag: Tag, child: Sender, branches: seq<Branch>, move: bool, c: Sig)
    ensures c in Declared(Let(tag, child, branches, move)) <==>
              (exists u :: u in Declared(child) && FromLet(tag, branches, DeclaredBranches(branches), u, c))
              || (c == THROWN && !BranchesNothrow(tag, branches, Declared(child)))
  {
    var lists := DeclaredBranches(branches);
    assert lists == seq(|branches|, i requires 0 <= i < |branches| => Declared(branches[i].sender));
    LetListHas(tag, branches, lists, Declared(child), c);
    var thrown := Maybe(!BranchesNothrow(tag, branches, Declared(child)), THROWN);
    UniqueKeepsFirsts(LetList(tag, branches, lists, Declared(child)) + thrown);
  }

  lemma ErrorsDeclared(sigs: seq<Sig>, thrown: bool, c: Sig)
    ensures c in ErrorSigs(Unique(ErrorTypes(sigs) + Maybe(thrown, ExceptionPtr))) <==>
              c.Error? && (c in sigs || (thrown && c == THROWN))
  {
    var errors := ErrorTypes(sigs) + Maybe(thrown, ExceptionPtr);
    UniqueKeepsFirsts(errors);
    ErrorSigsHas(Unique(errors), c);
    if c.Error? { ErrorTypesHas(sigs, c.e); }
  }

  lemma IntoVariantDeclares(sigs: seq<Sig>, c: Sig)
    ensures c in IntoVariantList(sigs) <==>
              c == Value([Variant(sigs)])
              || (c.Error? && (c in sigs || (c == THROWN && !(ValuesNothrow(sigs) && Variant(sigs).move))))
              || (c.Stopped? && c in sigs)
  {
    var thrown := !(ValuesNothrow(sigs) && Variant(sigs).move);
    var errors := ErrorSigs(Unique(ErrorTypes(sigs) + Maybe(thrown, ExceptionPtr)));
    UniqueKeepsFirsts([Value([Variant(sigs)])] + errors + Maybe(Stopped in sigs, Stopped));
    ErrorsDeclared(sigs, thrown, c);
  }

  lemma WhenAllErrorsDeclared(lists: seq<seq<Sig>>, callbackNothrow: bool, c: Sig)
    ensures c in ErrorSigs(WhenAllErrors(lists, callbackNothrow)) <==>
              && c.Error?
              && ((exists l :: l in lists && c in l) || (c == THROWN && !WhenAllNothrow(lists, callbackNothrow)))
  {
    UniqueKeepsFirsts(AllErrorTypes(lists) + Maybe(!WhenAllNothrow(lists, callbackNothrow), ExceptionPtr));
    ErrorSigsHas(WhenAllErrors(lists, callbackNothrow), c);
    if c.Error? { AllErrorTypesHas(lists, c.e); }
  }

  lemma WhenAllDeclares(lists: seq<seq<Sig>>, callbackNothrow: bool, c: Sig)
    ensures c in WhenAllList(lists, callbackNothrow) <==>
              (AllSingle(lists) && c == Value(Flat(Slots(lists))))
              || (c.Error? && exists l :: l in lists && c in l)
              || (c == THROWN && !WhenAllNothrow(lists, callbackNothrow))
              || (c.Stopped? && exists l :: l in lists && c in l)
  {
    var values := Maybe(AllSingle(lists), Value(Flat(Slots(lists))));
    var errors := ErrorSigs(WhenAllErrors(lists, callbackNothrow));
    var stopped := Maybe(exists l :: l in lists && Stopped in l, Stopped);
    UniqueKeepsFirsts(values + errors + stopped);
    WhenAllErrorsDeclared(lists, callbackNothrow, c);
  }

  lemma RepeatUntilDeclares(sigs: seq<Sig>, predicateNothrow: bool, factoryNothrow: bool, c: Sig)
    ensures c in RepeatUntilList(sigs, predicateNothrow, factoryNothrow) <==>
              (c.Value? && c in sigs) || c == Stopped
              || (c.Error? && (c in sigs || (c == THROWN && DeclaresThrown(sigs, predicateNothrow, factoryNothrow))))
  {
    var need := DeclaresThrown(sigs, predicateNothrow, factoryNothrow);
    var errors := ErrorSigs(Unique(ErrorTypes(sigs) + Maybe(need, ExceptionPtr)));
    UniqueKeepsFirsts(ValueTuples(sigs));
    UniqueKeepsFirsts(ValueSigs(Unique(ValueTuples(sigs))) + [Stopped] + errors);
    ErrorsDeclared(sigs, need, c);
    ValueSigsHas(Unique(ValueTuples(sigs)), c);
    if c.Value? { ValueTuplesHas(sigs, c.args); }
  }

  // ---------- soundness

  lemma ThenSound(tag: Tag, child: Sender, cases: seq<Case>, move: bool, c: Sig)
    requires Sound(child) && CanSend(Then(tag, child, cases, move), c)
    ensures c in Declared(Then(tag, child, cases, move))
  {
    var u :| CanSend(child, u) && ThenDelivers(tag, cases, u, c);
    ThenDeclares(tag, child, cases, move, c);
    assert u in Declared(child);
    assert c == Through(tag, cases, u) || !CasesNothrow(tag, cases, Declared(child));
  }

  /** The upstream sender declares a signature that leads to a branch whose connect may throw. */
  ghost predicate Unguarded(tag: Tag, child: Sender, branches: seq<Branch>) {
    exists u :: u in Declared(child) && Selected(tag, u) && HasBranch(branches, u) &&
                ConnectThrows(branches[BranchOf(branches, u)].sender)
  }

  /** The exception of a failed connect is declared for some other reason, or no connect can fail. */
  ghost predicate LetCovers(tag: Tag, child: Sender, branches: seq<Branch>, move: bool) {
    THROWN in Declared(Let(tag, child, branches, move)) || !Unguarded(tag, child, branches)
  }

  lemma LetSound(tag: Tag, child: Sender, branches: seq<Branch>, move: bool, c: Sig)
    requires Sound(child) && (forall i :: 0 <= i < |branches| ==> Sound(branches[i].sender))
    requires LetCovers(tag, child, branches, move) && CanSend(Let(tag, child, branches, move), c)
    ensures c in Declared(Let(tag, child, branches, move))
  {
    LetDeclares(tag, child, branches, move, c);
    var lists := DeclaredBranches(branches);
    if !Selected(tag, c) && CanSend(child, c) {
      assert FromLet(tag, branches, lists, c, c);
    } else {
      var u :| CanSend(child, u) && Selected(tag, u) && HasBranch(branches, u)
            && (CanSend(branches[BranchOf(branches, u)].sender, c)
                || (BranchThrows(branches[BranchOf(branches, u)]) && c == THROWN));
      assert u in Declared(child);
      if CanSend(branches[BranchOf(branches, u)].sender, c) { assert FromLet(tag, branches, lists, u, c); }
    }
  }

  lemma IntoVariantSound(child: Sender, c: Sig)
    requires Sound(child) && CanSend(IntoVariant(child), c)
    ensures c in Declared(IntoVariant(child))
  {
    var sigs := Declared(child);
    var u :| CanSend(child, u) && IntoVariantDelivers(Variant(sigs), u, c);
    IntoVariantDeclares(sigs, c);
    assert u in sigs;
    if u.Value? {
      ValueTuplesHas(sigs, u.args);
      UniqueKeepsFirsts(ValueTuples(sigs));
    }
  }

  /** Values that all children send together are the ones in the declared slots. */
  lemma SlotsAreSent(children: seq<Sender>, us: seq<seq<Ty>>)
    requires |us| == |children|
    requires forall i :: 0 <= i < |children| ==> Sound(children[i]) && |ValueTuples(Declared(children[i]))| <= 1
    requires forall i :: 0 <= i < |children| ==> CanSend(children[i], Value(us[i]))
    ensures AllSingle(DeclaredAll(children)) && Slots(DeclaredAll(children)) == us
  {
    var lists := DeclaredAll(children);
    forall i | 0 <= i < |children|
      ensures SingleValue(lists[i]) && |Slots(lists)| == |lists| && Slots(lists)[i] == us[i]
    {
      assert Value(us[i]) in lists[i];
      SlotIs(lists[i], us[i]);
      SlotsAt(lists, i);
    }
    assert lists == [] ==> Slots(lists) == [];
  }

  /** A list of children that all send a value. */
  ghost predicate AllSend(children: seq<Sender>, us: seq<seq<Ty>>) {
    |us| == |children| && forall i :: 0 <= i < |children| ==> CanSend(children[i], Value(us[i]))
  }

  lemma WhenAllCompletesSound(children: seq<Sender>, callbackNothrow: bool, us: seq<seq<Ty>>, c: Sig)
    requires forall i :: 0 <= i < |children| ==> Sound(children[i]) && |ValueTuples(Declared(children[i]))| <= 1
    requires AllSend(children, us) && (c == Value(Flat(us)) || (c == THROWN && !AllMoveNothrow(Flat(us))))
    ensures c in WhenAllList(DeclaredAll(children), callbackNothrow)
  {
    WhenAllDeclares(DeclaredAll(children), callbackNothrow, c);
    SlotsAreSent(children, us);
    SlotsMove(DeclaredAll(children));
  }

  lemma WhenAllForwardsSound(children: seq<Sender>, callbackNothrow: bool, i: nat, u: Sig, c: Sig)
    requires i < |children| && Sound(children[i]) && CanSend(children[i], u) && WhenAllForwards(u, c)
    ensures c in WhenAllList(DeclaredAll(children), callbackNothrow)
  {
    WhenAllDeclares(DeclaredAll(children), callbackNothrow, c);
    assert u in DeclaredAll(children)[i] && DeclaredAll(children)[i] in DeclaredAll(children);
  }

  /** `noexcept` on connect is true: nothing that it moves can throw. */
  lemma {:induction false} NoexceptIsTrue(s: Sender)
    requires ConnectNoexcept(s)
    ensures !ConnectThrows(s)
  {
    match s
    case Then(_, child, _, _) => NoexceptIsTrue(child);
    case IntoVariant(child) => NoexceptIsTrue(child);
    case _ =>
  }

  lemma WhenAllStartSound(children: seq<Sender>, callbackNothrow: bool)
    requires WellFormed(WhenAll(children, callbackNothrow)) && (!callbackNothrow || ConnectsThrow(children))
    ensures THROWN in WhenAllList(DeclaredAll(children), callbackNothrow)
  {
    var lists := DeclaredAll(children);
    WhenAllDeclares(lists, callbackNothrow, THROWN);
    UniqueKeepsFirsts(AllErrorTypes(lists) + Maybe(!WhenAllNothrow(lists, callbackNothrow), ExceptionPtr));
    AllErrorTypesHas(lists, ExceptionPtr);
    forall i | 0 <= i < |children| && ConnectNoexcept(children[i])
      ensures !ConnectThrows(children[i])
    {
      NoexceptIsTrue(children[i]);
    }
  }

  lemma WhenAllSound(children: seq<Sender>, callbackNothrow: bool, c: Sig)
    requires WellFormed(WhenAll(children, callbackNothrow))
    requires (forall i :: 0 <= i < |children| ==> Sound(children[i])) && CanSend(WhenAll(children, callbackNothrow), c)
    ensures c in Declared(WhenAll(children, callbackNothrow))
  {
    WhenAllCases(children, callbackNothrow, c);
    if us :| AllSend(children, us) && (c == Value(Flat(us)) || (c == THROWN && !AllMoveNothrow(Flat(us)))) {
      WhenAllCompletesSound(children, callbackNothrow, us, c);
    } else if i, u :| 0 <= i < |children| && CanSend(children[i], u) && WhenAllForwards(u, c) {
      WhenAllForwardsSound(children, callbackNothrow, i, u, c);
    } else {
      WhenAllStartSound(children, callbackNothrow);
    }
  }

  /** Some child sends what makes the operation deliver `c`. */
  ghost predicate Forwarded(children: seq<Sender>, c: Sig) {
    exists i, u :: 0 <= i < |children| && CanSend(children[i], u) && WhenAllForwards(u, c)
  }

  /** All children send values, and delivering them comes to `c`. */
  ghost predicate Completed(children: seq<Sender>, c: Sig) {
    exists us :: AllSend(children, us) && (c == Value(Flat(us)) || (c == THROWN && !AllMoveNothrow(Flat(us))))
  }

  lemma WhenAllCases(children: seq<Sender>, callbackNothrow: bool, c: Sig)
    requires CanSend(WhenAll(children, callbackNothrow), c)
    ensures Completed(children, c) || Forwarded(children, c) ||
              (c == THROWN && (!callbackNothrow || ConnectsThrow(children)))
  {
    if !Forwarded(children, c) && !(c == THROWN && (!callbackNothrow || ConnectsThrow(children))) {
      var us: seq<seq<Ty>> :| |us| == |children|
                              && (forall i :: 0 <= i < |children| ==> CanSend(children[i], Value(us[i])))
                              && (c == Value(Flat(us)) || (c == THROWN && !AllMoveNothrow(Flat(us))));
      assert AllSend(children, us);
    }
  }

  lemma WhenAllSends(children: seq<Sender>, callbackNothrow: bool, c: Sig)
    requires Completed(children, c) || Forwarded(children, c) ||
              (c == THROWN && (!callbackNothrow || ConnectsThrow(children)))
    ensures CanSend(WhenAll(children, callbackNothrow), c)
  {
  }

  lemma SlotsMove(lists: seq<seq<Sig>>)
    ensures AllMoveNothrow(Flat(Slots(lists))) <==> forall l :: l in lists ==> AllMoveNothrow(SlotOf(l))
  {
    FlatMoves(Slots(lists));
    forall i | 0 <= i < |lists|
      ensures |Slots(lists)| == |lists| && Slots(lists)[i] == SlotOf(lists[i])
    {
      SlotsAt(lists, i);
    }
    assert lists == [] ==> Slots(lists) == [];
  }

  lemma RepeatUntilSound(child: Sender, predicateNothrow: bool, factoryNothrow: bool, move: bool, c: Sig)
    requires Sound(child) && CanSend(RepeatUntil(child, predicateNothrow, factoryNothrow, move), c)
    ensures c in Declared(RepeatUntil(child, predicateNothrow, factoryNothrow, move))
  {
    RepeatUntilDeclares(Declared(child), predicateNothrow, factoryNothrow, c);
    if u :| CanSend(child, u) && RepeatUntilDelivers(predicateNothrow, u, c) { assert u in Declared(child); }
  }

  /** Every let in the tree covers what its connects can throw. */
  ghost predicate Covered(s: Sender) {
    match s
    case Then(_, child, _, _) => Covered(child)
    case Let(tag, child, branches, move) =>
      && Covered(child) && (forall i :: 0 <= i < |branches| ==> Covered(branches[i].sender))
      && LetCovers(tag, child, branches, move)
    case IntoVariant(child) => Covered(child)
    case WhenAll(children, _) => forall i :: 0 <= i < |children| ==> Covered(children[i])
    case RepeatUntil(child, _, _, _) => Covered(child)
    case _ => true
  }

  /** Type soundness: every completion that the receivers can deliver is in the declared list. */
  lemma {:induction false} SignaturesAreSound(s: Sender, c: Sig)
    requires WellFormed(s) && Covered(s) && CanSend(s, c)
    ensures c in Declared(s)
    decreases s
  {
    match s
    case Then(tag, child, cases, move) =>
      forall u | CanSend(child, u) ensures u in Declared(child) { SignaturesAreSound(child, u); }
      ThenSound(tag, child, cases, move, c);
    case Let(tag, child, branches, move) =>
      forall u | CanSend(child, u) ensures u in Declared(child) { SignaturesAreSound(child, u); }
      forall i, u | 0 <= i < |branches| && CanSend(branches[i].sender, u) ensures u in Declared(branches[i].sender) {
        SignaturesAreSound(branches[i].sender, u);
      }
      LetSound(tag, child, branches, move, c);
    case IntoVariant(child) =>
      forall u | CanSend(child, u) ensures u in Declared(child) { SignaturesAreSound(child, u); }
      IntoVariantSound(child, c);
    case WhenAll(children, callbackNothrow) =>
      forall i, u | 0 <= i < |children| && CanSend(children[i], u)
        ensures u in Declared(children[i])
      {
        SignaturesAreSound(children[i], u);
      }
      WhenAllSound(children, callbackNothrow, c);
    case RepeatUntil(child, predicateNothrow, factoryNothrow, move) =>
      forall u | CanSend(child, u) ensures u in Declared(child) { SignaturesAreSound(child, u); }
      RepeatUntilSound(child, predicateNothrow, factoryNothrow, move, c);
    case _ =>
  }

  ghost predicate SendsSomething(s: Sender) { exists c :: CanSend(s, c) }

  lemma ThenSendsSomething(tag: Tag, child: Sender, cases: seq<Case>, move: bool)
    requires SendsSomething(child)
    ensures SendsSomething(Then(tag, child, cases, move))
  {
    var u :| CanSend(child, u);
    var c := if Selected(tag, u) then Value(CaseOr(cases, u).result) else u;
    assert ThenDelivers(tag, cases, u, c);
    assert CanSend(Then(tag, child, cases, move), c);
  }

  lemma LetSendsSomething(tag: Tag, child: Sender, branches: seq<Branch>, move: bool)
    requires WellFormed(Let(tag, child, branches, move)) && Sound(child) && SendsSomething(child)
    requires forall i :: 0 <= i < |branches| ==> SendsSomething(branches[i].sender)
    ensures SendsSomething(Let(tag, child, branches, move))
  {
    var u :| CanSend(child, u);
    if Selected(tag, u) {
      assert u in Declared(child) && HasBranch(branches, u);
      var c :| CanSend(branches[BranchOf(branches, u)].sender, c);
      assert CanSend(Let(tag, child, branches, move), c);
    } else {
      assert CanSend(Let(tag, child, branches, move), u);
    }
  }

  lemma IntoVariantSendsSomething(child: Sender)
    requires SendsSomething(child)
    ensures SendsSomething(IntoVariant(child))
  {
    var u :| CanSend(child, u);
    var c := if u.Value? then Value([Variant(Declared(child))]) else u;
    assert IntoVariantDelivers(Variant(Declared(child)), u, c);
    assert CanSend(IntoVariant(child), c);
  }

  ghost function AnyValue(x: Sender): (args: seq<Ty>)
    requires exists args :: CanSend(x, Value(args))
    ensures CanSend(x, Value(args))
  {
    var args :| CanSend(x, Value(args)); args
  }

  lemma WhenAllSendsSomething(children: seq<Sender>, callbackNothrow: bool)
    requires forall i :: 0 <= i < |children| ==> SendsSomething(children[i])
    ensures SendsSomething(WhenAll(children, callbackNothrow))
  {
    if i, u :| 0 <= i < |children| && CanSend(children[i], u) && !u.Value? {
      assert WhenAllForwards(u, u);
      assert Forwarded(children, u);
      WhenAllSends(children, callbackNothrow, u);
    } else {
      forall i | 0 <= i < |children| ensures exists args :: CanSend(children[i], Value(args)) {
        var u :| CanSend(children[i], u);
        assert CanSend(children[i], Value(u.args));
      }
      var us := seq(|children|, i requires 0 <= i < |children| => AnyValue(children[i]));
      assert AllSend(children, us);
      assert Completed(children, Value(Flat(us)));
      WhenAllSends(children, callbackNothrow, Value(Flat(us)));
    }
  }

  /** Every sender that compiles can complete. */
  lemma {:induction false} EverySenderCompletes(s: Sender)
    requires WellFormed(s) && Covered(s)
    ensures exists c :: CanSend(s, c)
  {
    match s
    case Just(args) => assert CanSend(s, Value(args));
    case JustError(e) => assert CanSend(s, Error(e));
    case JustStopped => assert CanSend(s, Stopped);
    case Then(tag, child, cases, move) =>
      EverySenderCompletes(child);
      ThenSendsSomething(tag, child, cases, move);
    case Let(tag, child, branches, move) =>
      EverySenderCompletes(child);
      forall i | 0 <= i < |branches|
        ensures SendsSomething(branches[i].sender)
      {
        EverySenderCompletes(branches[i].sender);
      }
      forall u | CanSend(child, u) ensures u in Declared(child) { SignaturesAreSound(child, u); }
      LetSendsSomething(tag, child, branches, move);
    case IntoVariant(child) =>
      EverySenderCompletes(child);
      IntoVariantSendsSomething(child);
    case WhenAll(children, callbackNothrow) =>
      forall i | 0 <= i < |children| ensures SendsSomething(children[i]) { EverySenderCompletes(children[i]); }
      WhenAllSendsSomething(children, callbackNothrow);
    case RepeatUntil(_, _, _, _) => assert CanSend(s, Stopped);
  }

  /** No list declares anything twice. */
  lemma NothingDeclaredTwice(s: Sender)
    ensures NoDup(Declared(s))
  {
    match s
    case Then(tag, child, cases, _) => ThenOnce(tag, cases, Declared(child));
    case Let(tag, child, branches, _) => LetOnce(tag, branches, DeclaredBranches(branches), Declared(child));
    case IntoVariant(child) => IntoVariantOnce(Declared(child));
    case WhenAll(children, callbackNothrow) => WhenAllOnce(DeclaredAll(children), callbackNothrow);
    case RepeatUntil(child, predicateNothrow, factoryNothrow, _) =>
      RepeatUntilOnce(Declared(child), predicateNothrow, factoryNothrow);
    case _ =>
  }

  lemma ThenOnce(tag: Tag, cases: seq<Case>, sigs: seq<Sig>)
    ensures NoDup(Unique(ThenList(tag, cases, sigs) + Maybe(!CasesNothrow(tag, cases, sigs), THROWN)))
  {
    UniqueKeepsFirsts(ThenList(tag, cases, sigs) + Maybe(!CasesNothrow(tag, cases, sigs), THROWN));
  }

  lemma LetOnce(tag: Tag, branches: seq<Branch>, lists: seq<seq<Sig>>, sigs: seq<Sig>)
    ensures NoDup(Unique(LetList(tag, branches, lists, sigs) + Maybe(!BranchesNothrow(tag, branches, sigs), THROWN)))
  {
    UniqueKeepsFirsts(LetList(tag, branches, lists, sigs) + Maybe(!BranchesNothrow(tag, branches, sigs), THROWN));
  }

  lemma IntoVariantOnce(sigs: seq<Sig>)
    ensures NoDup(IntoVariantList(sigs))
  {
    var nothrow := ValuesNothrow(sigs) && Variant(sigs).move;
    var errors := ErrorSigs(Unique(ErrorTypes(sigs) + Maybe(!nothrow, ExceptionPtr)));
    UniqueKeepsFirsts([Value([Variant(sigs)])] + errors + Maybe(Stopped in sigs, Stopped));
  }

  lemma WhenAllOnce(lists: seq<seq<Sig>>, callbackNothrow: bool)
    ensures NoDup(WhenAllList(lists, callbackNothrow))
  {
    var errors := ErrorSigs(WhenAllErrors(lists, callbackNothrow));
    UniqueKeepsFirsts(Maybe(AllSingle(lists), Value(Flat(Slots(lists)))) + errors
                      + Maybe(exists l :: l in lists && Stopped in l, Stopped));
  }

  lemma RepeatUntilOnce(sigs: seq<Sig>, predicateNothrow: bool, factoryNothrow: bool)
    ensures NoDup(RepeatUntilList(sigs, predicateNothrow, factoryNothrow))
  {
    var need := DeclaresThrown(sigs, predicateNothrow, factoryNothrow);
    var errors := ErrorSigs(Unique(ErrorTypes(sigs) + Maybe(need, ExceptionPtr)));
    UniqueKeepsFirsts(ValueSigs(Unique(ValueTuples(sigs))) + [Stopped] + errors);
  }
}
