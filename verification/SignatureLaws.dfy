/** Laws of the signature calculus that do not mention how it computes: which completions an adaptor touches, what its
    callables make of them, what a variant holds, and what connecting a sender moves. */
module SignatureLaws {
  import opened Lists
  import opened Signatures
  import opened SignatureLists
  import opened SignatureTheorems

  // ---------- into_variant

  /** `v` is the variant of everything that `sigs` send as values: one alternative for each list of arguments, in the
      order in which they are first declared; it moves without throwing exactly when every alternative does. */
  ghost predicate IsVariantOf(v: Ty, sigs: seq<Sig>) {
    && v.VariantOf? && NoDup(v.tuples)
    && (forall args :: args in v.tuples <==> Value(args) in sigs)
    && (forall a, b :: a in v.tuples && b in v.tuples ==>
          (FirstAt(v.tuples, a) < FirstAt(v.tuples, b) <==> FirstAt(sigs, Value(a)) < FirstAt(sigs, Value(b))))
    && (v.move <==> forall args, i :: args in v.tuples && 0 <= i < |args| ==> MoveNothrow(args[i]))
  }

  lemma {:induction false} ValuesInOrder(sigs: seq<Sig>, a: seq<Ty>, b: seq<Ty>)
    requires a in ValueTuples(sigs) && b in ValueTuples(sigs)
    ensures FirstAt(ValueTuples(sigs), a) < FirstAt(ValueTuples(sigs), b)
            <==> FirstAt(sigs, Value(a)) < FirstAt(sigs, Value(b))
  {
    if sigs[0] != Value(a) && sigs[0] != Value(b) {
      var rest := ValueTuples(sigs[1..]);
      if sigs[0].Value? {
        assert ValueTuples(sigs)[1..] == rest;
      } else {
        assert ValueTuples(sigs) == rest;
      }
      ValuesInOrder(sigs[1..], a, b);
    }
  }

  lemma VariantLaw(sigs: seq<Sig>)
    ensures IsVariantOf(Variant(sigs), sigs)
  {
    var tuples := ValueTuples(sigs);
    UniqueKeepsFirsts(tuples);
    forall args ensures args in Unique(tuples) <==> Value(args) in sigs { ValueTuplesHas(sigs, args); }
    forall a, b | a in Unique(tuples) && b in Unique(tuples)
      ensures FirstAt(Unique(tuples), a) < FirstAt(Unique(tuples), b)
              <==> FirstAt(sigs, Value(a)) < FirstAt(sigs, Value(b))
    {
      UniqueKeepsOrder(tuples, a, b);
      ValuesInOrder(sigs, a, b);
    }
  }

  /** into_variant declares one value signature, and that is the variant of what the child declares. */
  lemma DeclaresTheVariant(child: Sender, c: Sig)
    requires c.Value? && c in Declared(IntoVariant(child))
    ensures |c.args| == 1 && IsVariantOf(c.args[0], Declared(child))
    ensures forall d: Sig :: d.Value? && d in Declared(IntoVariant(child)) ==> d == c
  {
    VariantLaw(Declared(child));
    forall d: Sig | d.Value? && d in Declared(IntoVariant(child)) ensures d == Value([Variant(Declared(child))]) {
      IntoVariantDeclares(Declared(child), d);
    }
  }

  /** Each value that a sound child sends is sent on in a declared variant that has an alternative for it. */
  lemma VariantHoldsTheValue(child: Sender, args: seq<Ty>)
    requires Sound(child) && CanSend(child, Value(args))
    ensures exists v :: Value([v]) in Declared(IntoVariant(child)) && CanSend(IntoVariant(child), Value([v]))
                        && v.VariantOf? && args in v.tuples
  {
    var v := Variant(Declared(child));
    VariantLaw(Declared(child));
    IntoVariantDeclares(Declared(child), Value([v]));
    assert IntoVariantDelivers(v, Value(args), Value([v]));
    assert Value(args) in Declared(child);
    assert Value([v]) in Declared(IntoVariant(child)) && CanSend(IntoVariant(child), Value([v]));
  }

  lemma VariantHas(sigs: seq<Sig>, args: seq<Ty>)
    requires Value(args) in sigs
    ensures Variant(sigs).VariantOf? && args in Variant(sigs).tuples
  {
    VariantLaw(sigs);
  }

  /** And whatever into_variant sends as a value holds the value of some completion of the child. */
  lemma VariantComesFromAValue(child: Sender, c: Sig)
    requires Sound(child) && c.Value? && CanSend(IntoVariant(child), c)
    ensures |c.args| == 1 && c.args[0].VariantOf?
    ensures exists args :: CanSend(child, Value(args)) && args in c.args[0].tuples
  {
    var u :| CanSend(child, u) && IntoVariantDelivers(Variant(Declared(child)), u, c);
    assert u == Value(u.args) && u in Declared(child);
    VariantHas(Declared(child), u.args);
  }

  // ---------- then and let

  /** Case `k` is the first that the callable has for a signature; likewise branch `k`. */
  predicate IsCaseOf(cases: seq<Case>, sig: Sig, k: nat) {
    k < |cases| && cases[k].sig == sig && forall j :: 0 <= j < k ==> cases[j].sig != sig
  }

  predicate IsBranchOf(branches: seq<Branch>, sig: Sig, k: nat) {
    k < |branches| && branches[k].sig == sig && forall j :: 0 <= j < k ==> branches[j].sig != sig
  }

  lemma {:induction false} CaseLaw(cases: seq<Case>, sig: Sig, k: nat)
    requires IsCaseOf(cases, sig, k)
    ensures HasCase(cases, sig) && CaseOr(cases, sig) == cases[k]
  {
    if k == 0 {
    } else {
      assert cases[1..][k - 1] == cases[k];
      CaseLaw(cases[1..], sig, k - 1);
      assert HasCase(cases[1..], sig);
    }
  }

  lemma {:induction false} CaseExists(cases: seq<Case>, sig: Sig) returns (k: nat)
    requires HasCase(cases, sig)
    ensures IsCaseOf(cases, sig, k)
  {
    if cases[0].sig == sig {
      k := 0;
    } else {
      var i :| 0 <= i < |cases| && cases[i].sig == sig;
      assert cases[1..][i - 1].sig == sig;
      k := CaseExists(cases[1..], sig);
      assert forall j :: 0 < j <= k ==> cases[1..][j - 1] == cases[j];
      k := k + 1;
    }
  }

  lemma {:induction false} BranchLaw(branches: seq<Branch>, sig: Sig, k: nat)
    requires IsBranchOf(branches, sig, k)
    ensures HasBranch(branches, sig) && BranchOf(branches, sig) == k
  {
    if k == 0 {
    } else {
      assert branches[1..][k - 1] == branches[k];
      BranchLaw(branches[1..], sig, k - 1);
    }
  }

  /** The completion that a tag speaks of. */
  predicate Speaks(tag: Tag, u: Sig) {
    match u
    case Value(_) => tag.SetValue?
    case Error(_) => tag.SetError?
    case Stopped => tag.SetStopped?
  }

  lemma SelectedLaw(tag: Tag, u: Sig)
    ensures Selected(tag, u) <==> Speaks(tag, u)
  {
  }

  /** then and upon_*: what their tag does not speak of passes, what it speaks of becomes the result of the callable's
      own case. */
  lemma ThenMaps(tag: Tag, child: Sender, cases: seq<Case>, move: bool, u: Sig, k: nat)
    requires u in Declared(child)
    ensures !Speaks(tag, u) ==> u in Declared(Then(tag, child, cases, move))
    ensures Speaks(tag, u) && IsCaseOf(cases, u, k) ==>
              && Value(cases[k].result) in Declared(Then(tag, child, cases, move))
              && (!cases[k].nothrow ==> THROWN in Declared(Then(tag, child, cases, move)))
  {
    SelectedLaw(tag, u);
    ThenDeclares(tag, child, cases, move, Through(tag, cases, u));
    ThenDeclares(tag, child, cases, move, THROWN);
    if IsCaseOf(cases, u, k) { CaseLaw(cases, u, k); }
  }

  /** A value declared by then and upon_* is the result of a case, or passed; of what else the tag speaks of nothing
      passes. */
  lemma ThenHandles(tag: Tag, child: Sender, cases: seq<Case>, move: bool, c: Sig)
    requires WellFormed(Then(tag, child, cases, move)) && c in Declared(Then(tag, child, cases, move))
    ensures || (c in Declared(child) && !Speaks(tag, c))
            || c == THROWN
            || exists u, k: nat :: u in Declared(child) && Speaks(tag, u) && IsCaseOf(cases, u, k)
                              && c == Value(cases[k].result)
  {
    ThenDeclares(tag, child, cases, move, c);
    if u :| u in Declared(child) && c == Through(tag, cases, u) {
      SelectedLaw(tag, u);
      if Speaks(tag, u) {
        var k := CaseExists(cases, u);
        CaseLaw(cases, u, k);
      }
    }
  }

  /** let_*: what its tag does not speak of passes, and what it speaks of becomes all that the sender of its own branch
      declares. */
  lemma LetMaps(tag: Tag, child: Sender, branches: seq<Branch>, move: bool, u: Sig, k: nat, c: Sig)
    requires u in Declared(child)
    ensures !Speaks(tag, u) ==> u in Declared(Let(tag, child, branches, move))
    ensures Speaks(tag, u) && IsBranchOf(branches, u, k) && c in Declared(branches[k].sender) ==>
              c in Declared(Let(tag, child, branches, move))
  {
    SelectedLaw(tag, u);
    var lists := DeclaredBranches(branches);
    LetDeclares(tag, child, branches, move, u);
    LetDeclares(tag, child, branches, move, c);
    if !Speaks(tag, u) { assert FromLet(tag, branches, lists, u, u); }
    if Speaks(tag, u) && IsBranchOf(branches, u, k) && c in Declared(branches[k].sender) {
      BranchLaw(branches, u, k);
      assert FromLet(tag, branches, lists, u, c);
    }
  }

  /** And nothing else: what let_* declares passed, or comes from a branch, or is the exception. */
  lemma LetHandles(tag: Tag, child: Sender, branches: seq<Branch>, move: bool, c: Sig)
    requires WellFormed(Let(tag, child, branches, move)) && c in Declared(Let(tag, child, branches, move))
    ensures || (c in Declared(child) && !Speaks(tag, c))
            || c == THROWN
            || exists u, k :: u in Declared(child) && Speaks(tag, u) && 0 <= k < |branches| && branches[k].sig == u
                              && c in Declared(branches[k].sender)
  {
    var lists := DeclaredBranches(branches);
    LetDeclares(tag, child, branches, move, c);
    if u :| u in Declared(child) && FromLet(tag, branches, lists, u, c) {
      SelectedLaw(tag, u);
      if Speaks(tag, u) { assert branches[BranchOf(branches, u)].sig == u; }
    }
  }

  // ---------- when_all

  /** `sigs` send values in one way only, and those are `args`. */
  ghost predicate OneValue(sigs: seq<Sig>, args: seq<Ty>) {
    exists j :: 0 <= j < |sigs| && sigs[j] == Value(args) && OthersSendNone(sigs, j)
  }

  ghost predicate OthersSendNone(sigs: seq<Sig>, j: int) {
    forall k :: 0 <= k < |sigs| && k != j ==> !sigs[k].Value?
  }

  lemma {:induction false} NoValue(sigs: seq<Sig>)
    ensures ValueTuples(sigs) == [] <==> forall k :: 0 <= k < |sigs| ==> !sigs[k].Value?
  {
    if sigs == [] {
    } else {
      NoValue(sigs[1..]);
      assert forall k :: 0 < k < |sigs| ==> sigs[k] == sigs[1..][k - 1];
    }
  }

  lemma {:induction false} OneValueLaw(sigs: seq<Sig>, args: seq<Ty>)
    ensures OneValue(sigs, args) <==> ValueTuples(sigs) == [args]
  {
    if sigs == [] {
    } else {
      var rest := sigs[1..];
      assert forall k :: 0 < k < |sigs| ==> sigs[k] == rest[k - 1];
      NoValue(rest);
      OneValueLaw(rest, args);
      if sigs[0].Value? {
        assert ValueTuples(sigs) == [sigs[0].args] + ValueTuples(rest);
        if OneValue(sigs, args) {
          var j :| 0 <= j < |sigs| && sigs[j] == Value(args) && OthersSendNone(sigs, j);
          assert j == 0;
        }
        if ValueTuples(sigs) == [args] {
          assert ValueTuples(sigs)[0] == sigs[0].args && |ValueTuples(rest)| == 0;
          assert sigs[0] == Value(args) && OthersSendNone(sigs, 0);
        }
      } else {
        assert ValueTuples(sigs) == [] + ValueTuples(rest) == ValueTuples(rest);
        OneValueShifts(sigs, args);
      }
    }
  }

  lemma OneValueShifts(sigs: seq<Sig>, args: seq<Ty>)
    requires sigs != [] && !sigs[0].Value?
    ensures OneValue(sigs, args) <==> OneValue(sigs[1..], args)
  {
    if j :| 0 <= j < |sigs| && sigs[j] == Value(args) && OthersSendNone(sigs, j) {
      assert sigs[1..][j - 1] == Value(args) && OthersSendNone(sigs[1..], j - 1);
    }
    if j :| 0 <= j < |sigs[1..]| && sigs[1..][j] == Value(args) && OthersSendNone(sigs[1..], j) {
      assert sigs[j + 1] == Value(args);
      assert OthersSendNone(sigs, j + 1) by {
        forall k | 0 <= k < |sigs| && k != j + 1
          ensures !sigs[k].Value?
        {
          assert k > 0 ==> sigs[k] == sigs[1..][k - 1];
        }
      }
    }
  }

  /** In the concatenation the arguments of a child stand between those of its neighbours. */
  lemma {:induction false} FlatSplits<T>(before: seq<seq<T>>, own: seq<T>, behind: seq<seq<T>>)
    ensures Flat(before + [own] + behind) == Flat(before) + own + Flat(behind)
  {
    if before == [] {
      assert before + [own] + behind == [own] + behind;
      assert ([own] + behind)[1..] == behind;
    } else {
      assert (before + [own] + behind)[1..] == before[1..] + [own] + behind;
      FlatSplits(before[1..], own, behind);
    }
  }

  /** One list of arguments for each child, and each child sends values in that way only. */
  ghost predicate EachOneValue(lists: seq<seq<Sig>>, us: seq<seq<Ty>>) {
    |us| == |lists| && forall i :: 0 <= i < |lists| ==> OneValue(lists[i], us[i])
  }

  lemma SlotsLaw(lists: seq<seq<Sig>>, us: seq<seq<Ty>>)
    ensures EachOneValue(lists, us) <==> AllSingle(lists) && us == Slots(lists)
  {
    forall i | 0 <= i < |lists|
      ensures |Slots(lists)| == |lists| && Slots(lists)[i] == SlotOf(lists[i])
    {
      SlotsAt(lists, i);
    }
    assert lists == [] ==> Slots(lists) == [];
    forall i, args | 0 <= i < |lists|
      ensures OneValue(lists[i], args) <==> SingleValue(lists[i]) && SlotOf(lists[i]) == args
    {
      OneValueLaw(lists[i], args);
    }
  }

  /** when_all declares values exactly if every child declares them in one way, and then those of all children in
      order. */
  lemma WhenAllValues(lists: seq<seq<Sig>>, callbackNothrow: bool, c: Sig)
    requires c.Value?
    ensures c in WhenAllList(lists, callbackNothrow) <==> exists us :: EachOneValue(lists, us) && c.args == Flat(us)
  {
    WhenAllDeclares(lists, callbackNothrow, c);
    SlotsLaw(lists, Slots(lists));
    if us :| EachOneValue(lists, us) && c.args == Flat(us) { SlotsLaw(lists, us); }
  }

  // ---------- connecting

  function Flags(args: seq<Ty>): seq<bool> { seq(|args|, i requires 0 <= i < |args| => MoveNothrow(args[i])) }

  /** What a sender holds, part by part: whether moving it cannot throw. */
  function Held(s: Sender): seq<bool> {
    match s
    case Just(args) => Flags(args)
    case JustError(e) => [MoveNothrow(e)]
    case JustStopped => []
    case Then(_, child, _, fnMove) => Held(child) + [fnMove]
    case Let(_, child, _, fnMove) => Held(child) + [fnMove]
    case IntoVariant(child) => Held(child)
    case WhenAll(children, _) => Flat(seq(|children|, i requires 0 <= i < |children| => Held(children[i])))
    case RepeatUntil(_, _, _, callablesMove) => [callablesMove]
  }

  function HeldAll(children: seq<Sender>): seq<seq<bool>> {
    seq(|children|, i requires 0 <= i < |children| => Held(children[i]))
  }

  /** What connecting a sender moves. */
  function Moved(s: Sender): seq<bool> {
    match s
    case Then(_, child, _, fnMove) => Held(child) + [fnMove] + Moved(child)
    case Let(_, child, _, fnMove) => [fnMove] + Moved(child)
    case IntoVariant(child) => Held(child) + Moved(child)
    case _ => Held(s)
  }

  lemma {:induction false} FlatHas<T>(lists: seq<seq<T>>, x: T)
    ensures x in Flat(lists) <==> exists i :: 0 <= i < |lists| && x in lists[i]
  {
    if lists == [] {
    } else {
      FlatHas(lists[1..], x);
      assert lists == [lists[0]] + lists[1..];
      assert x in Flat(lists) <==> x in lists[0] || x in Flat(lists[1..]);
    }
  }

  lemma FlagsHave(args: seq<Ty>)
    ensures AllMoveNothrow(args) <==> false !in Flags(args)
  {
    if !AllMoveNothrow(args) {
      var i :| 0 <= i < |args| && !MoveNothrow(args[i]);
      assert Flags(args)[i] == false;
    }
  }

  lemma HeldAllLaw(children: seq<Sender>)
    requires forall i :: 0 <= i < |children| ==> (SenderMoves(children[i]) <==> false !in Held(children[i]))
    ensures (forall i :: 0 <= i < |children| ==> SenderMoves(children[i])) <==> false !in Flat(HeldAll(children))
  {
    FlatHas(HeldAll(children), false);
    if i :| 0 <= i < |children| && false in Held(children[i]) { assert false in HeldAll(children)[i]; }
  }

  /** Moving a sender may throw exactly when moving one of its parts may. */
  lemma {:induction false} HeldLaw(s: Sender)
    ensures SenderMoves(s) <==> false !in Held(s)
  {
    match s
    case Just(args) => FlagsHave(args);
    case JustError(_) =>
    case JustStopped =>
    case Then(_, child, _, _) => HeldLaw(child);
    case Let(_, child, _, _) => HeldLaw(child);
    case IntoVariant(child) => HeldLaw(child);
    case WhenAll(children, _) =>
      forall i | 0 <= i < |children| ensures SenderMoves(children[i]) <==> false !in Held(children[i]) {
        HeldLaw(children[i]);
      }
      HeldAllLaw(children);
      assert HeldAll(children) == seq(|children|, i requires 0 <= i < |children| => Held(children[i]));
    case RepeatUntil(_, _, _, _) =>
  }

  /** Connecting a sender may throw exactly when moving one of the parts that it moves may. */
  lemma {:induction false} MovedLaw(s: Sender)
    ensures ConnectThrows(s) <==> false in Moved(s)
  {
    HeldLaw(s);
    match s
    case Then(_, child, _, _) => HeldLaw(child); MovedLaw(child);
    case Let(_, child, _, _) => MovedLaw(child);
    case IntoVariant(child) => HeldLaw(child); MovedLaw(child);
    case _ =>
  }

  /** Senders whose `connect` carries a `noexcept` condition. */
  predicate Conditional(s: Sender) {
    match s
    case Just(_) => true
    case JustError(_) => true
    case JustStopped => true
    case Then(_, child, _, _) => Conditional(child)
    case IntoVariant(child) => Conditional(child)
    case _ => false
  }

  /** Connect is declared `noexcept` exactly where it carries a condition and nothing that it moves may throw. */
  lemma {:induction false} NoexceptLaw(s: Sender)
    ensures ConnectNoexcept(s) <==> Conditional(s) && false !in Moved(s)
  {
    HeldLaw(s);
    match s
    case Then(_, child, _, _) => HeldLaw(child); NoexceptLaw(child);
    case IntoVariant(child) => HeldLaw(child); NoexceptLaw(child);
    case _ =>
  }
}
