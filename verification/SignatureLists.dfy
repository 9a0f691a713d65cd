/** The type-list algebra: `unique` keeps the first occurrence of everything, in order, and nothing else. */
module SignatureLists {
  import opened Lists
  import opened Signatures

  /** An independent account of the same list: drop whatever occurs earlier. */
  function Firsts<T(==)>(l: seq<T>): seq<T> {
    if l == [] then []
    else
      var front, last := l[..|l| - 1], l[|l| - 1];
      Firsts(front) + (if last in front then [] else [last])
  }

  lemma {:induction false} FirstsIs<T>(l: seq<T>)
    ensures NoDup(Firsts(l)) && forall x :: x in Firsts(l) <==> x in l
  {
    if l == [] {
    } else {
      var front, last := l[..|l| - 1], l[|l| - 1];
      FirstsIs(front);
      assert l == front + [last];
    }
  }

  lemma {:induction false} UniqueFromIs<T>(seen: seq<T>, before: seq<T>, input: seq<T>)
    requires seen == Firsts(before)
    ensures UniqueFrom(seen, input) == Firsts(before + input)
    decreases |input|
  {
    if input == [] {
      assert before + input == before;
    } else {
      FirstsIs(before);
      var next := before + [input[0]];
      assert next[..|next| - 1] == before;
      assert before + input == next + input[1..];
      UniqueFromIs(if input[0] in seen then seen else seen + [input[0]], next, input[1..]);
    }
  }

  /** `unique_type_list_t`: no repetition, the same members, each at the place of its first occurrence. */
  lemma UniqueKeepsFirsts<T>(l: seq<T>)
    ensures Unique(l) == Firsts(l) && NoDup(Unique(l))
    ensures forall x :: x in Unique(l) <==> x in l
  {
    assert [] + l == l;
    UniqueFromIs([], [], l);
    FirstsIs(l);
  }

  /** Where an element first occurs. */
  function FirstAt<T(==)>(l: seq<T>, x: T): nat { if l == [] || l[0] == x then 0 else 1 + FirstAt(l[1..], x) }

  lemma {:induction false} FirstAtAppend<T>(l: seq<T>, y: T, x: T)
    ensures x in l ==> FirstAt(l, x) < |l| && FirstAt(l + [y], x) == FirstAt(l, x)
    ensures x !in l ==> FirstAt(l, x) == |l| && (x == y ==> FirstAt(l + [y], x) == |l|)
  {
    if l == [] {
    } else {
      assert (l + [y])[1..] == l[1..] + [y];
      FirstAtAppend(l[1..], y, x);
    }
  }

  /** Two members of the list stand in `Unique` as their first occurrences stand in the list. */
  lemma {:induction false} UniqueKeepsOrder<T>(l: seq<T>, x: T, y: T)
    requires x in l && y in l
    ensures FirstAt(l, x) < FirstAt(l, y) <==> FirstAt(Firsts(l), x) < FirstAt(Firsts(l), y)
  {
    var front, last := l[..|l| - 1], l[|l| - 1];
    assert l == front + [last];
    FirstsIs(front);
    FirstAtAppend(front, last, x);
    FirstAtAppend(front, last, y);
    FirstAtAppend(Firsts(front), last, x);
    FirstAtAppend(Firsts(front), last, y);
    assert Firsts(front) + [] == Firsts(front);
    if x in front && y in front { UniqueKeepsOrder(front, x, y); }
  }

  // ---------- membership in the lists the headers build

  lemma {:induction false} ValueTuplesHas(sigs: seq<Sig>, args: seq<Ty>)
    ensures args in ValueTuples(sigs) <==> Value(args) in sigs
  {
    if sigs == [] {
    } else {
      assert sigs == [sigs[0]] + sigs[1..];
      ValueTuplesHas(sigs[1..], args);
    }
  }

  lemma {:induction false} ErrorTypesHas(sigs: seq<Sig>, e: Ty)
    ensures e in ErrorTypes(sigs) <==> Error(e) in sigs
  {
    if sigs == [] {
    } else {
      assert sigs == [sigs[0]] + sigs[1..];
      ErrorTypesHas(sigs[1..], e);
    }
  }

  lemma {:induction false} ValueSigsHas(tuples: seq<seq<Ty>>, c: Sig)
    ensures c in ValueSigs(tuples) <==> c.Value? && c.args in tuples
  {
    if tuples == [] {
    } else {
      assert tuples == [tuples[0]] + tuples[1..];
      ValueSigsHas(tuples[1..], c);
    }
  }

  lemma {:induction false} ErrorSigsHas(errors: seq<Ty>, c: Sig)
    ensures c in ErrorSigs(errors) <==> c.Error? && c.e in errors
  {
    if errors == [] {
    } else {
      assert errors == [errors[0]] + errors[1..];
      ErrorSigsHas(errors[1..], c);
    }
  }

  lemma {:induction false} AllErrorTypesHas(lists: seq<seq<Sig>>, e: Ty)
    ensures e in AllErrorTypes(lists) <==> exists l :: l in lists && Error(e) in l
  {
    if lists == [] {
    } else {
      assert lists == [lists[0]] + lists[1..];
      ErrorTypesHas(lists[0], e);
      AllErrorTypesHas(lists[1..], e);
    }
  }

  lemma {:induction false} ThenListHas(tag: Tag, cases: seq<Case>, sigs: seq<Sig>, c: Sig)
    ensures c in ThenList(tag, cases, sigs) <==>
      exists u :: u in sigs && c == (if Selected(tag, u) then Value(CaseOr(cases, u).result) else u)
  {
    if sigs == [] {
    } else {
      assert sigs == [sigs[0]] + sigs[1..];
      ThenListHas(tag, cases, sigs[1..], c);
    }
  }

  ghost predicate FromLet(tag: Tag, branches: seq<Branch>, lists: seq<seq<Sig>>, u: Sig, c: Sig) {
    if !Selected(tag, u) then c == u else BranchOf(branches, u) < |lists| && c in lists[BranchOf(branches, u)]
  }

  lemma {:induction false} LetListHas(tag: Tag, branches: seq<Branch>, lists: seq<seq<Sig>>, sigs: seq<Sig>, c: Sig)
    ensures c in LetList(tag, branches, lists, sigs) <==> exists u :: u in sigs && FromLet(tag, branches, lists, u, c)
  {
    if sigs == [] {
    } else {
      assert sigs == [sigs[0]] + sigs[1..];
      LetListHas(tag, branches, lists, sigs[1..], c);
      assert c in LetList(tag, branches, lists, sigs) <==>
        FromLet(tag, branches, lists, sigs[0], c) || c in LetList(tag, branches, lists, sigs[1..]);
    }
  }

  lemma {:induction false} SlotsAt(lists: seq<seq<Sig>>, i: nat)
    requires i < |lists|
    ensures |Slots(lists)| == |lists| && Slots(lists)[i] == SlotOf(lists[i])
  {
    if i == 0 {
      if |lists| > 1 { SlotsAt(lists[1..], 0); } else { assert Slots(lists[1..]) == []; }
    } else {
      SlotsAt(lists[1..], i - 1);
    }
  }

  /** A child with one value signature can only fill its slot with the arguments of that signature. */
  lemma SlotIs(sigs: seq<Sig>, args: seq<Ty>)
    requires Value(args) in sigs && |ValueTuples(sigs)| <= 1
    ensures SingleValue(sigs) && SlotOf(sigs) == args
  {
    ValueTuplesHas(sigs, args);
  }

  lemma {:induction false} FlatMoves(us: seq<seq<Ty>>)
    ensures AllMoveNothrow(Flat(us)) <==> forall i :: 0 <= i < |us| ==> AllMoveNothrow(us[i])
  {
    if us == [] {
    } else {
      FlatMoves(us[1..]);
      var flat, rest := Flat(us), Flat(us[1..]);
      assert forall i :: 0 <= i < |us[0]| ==> flat[i] == us[0][i];
      assert forall i :: 0 <= i < |rest| ==> rest[i] == flat[|us[0]| + i];
      assert forall i :: 1 <= i < |us| ==> us[i] == us[1..][i - 1];
      if AllMoveNothrow(flat) {
        assert AllMoveNothrow(us[0]) && AllMoveNothrow(rest);
      }
    }
  }
}
