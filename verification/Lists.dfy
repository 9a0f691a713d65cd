/** Sequences without repetition, and the removal of one element. */
module Lists {

  ghost predicate NoDup<T>(l: seq<T>) {
    forall i, j :: 0 <= i < j < |l| ==> l[i] != l[j]
  }

  /** `l` without the first occurrence of `r`. */
  function Without<T(==)>(l: seq<T>, r: T): seq<T> {
    if l == [] then [] else if l[0] == r then l[1..] else [l[0]] + Without(l[1..], r)
  }

  lemma {:induction false} WithoutIs<T>(l: seq<T>, r: T)
    requires NoDup(l)
    ensures NoDup(Without(l, r)) && |Without(l, r)| == (if r in l then |l| - 1 else |l|)
    ensures forall x :: x in Without(l, r) <==> x in l && x != r
  {
    if l == [] {
    } else {
      assert l == [l[0]] + l[1..];
      assert l[0] !in l[1..];
      if l[0] != r {
        WithoutIs(l[1..], r);
        assert l[0] !in Without(l[1..], r);
      }
    }
  }

  lemma {:induction false} WithoutAbsent<T>(l: seq<T>, r: T)
    requires r !in l
    ensures Without(l, r) == l
  {
    if l == [] {
    } else {
      WithoutAbsent(l[1..], r);
    }
  }

  lemma {:induction false} WithoutAddsNothing<T>(l: seq<T>, r: T, x: T)
    requires x !in l
    ensures x !in Without(l, r)
  {
    if l == [] {
    } else {
      WithoutAddsNothing(l[1..], r, x);
    }
  }

  lemma {:induction false} WithoutAt<T>(l: seq<T>, k: nat)
    requires NoDup(l) && k < |l|
    ensures Without(l, l[k]) == l[..k] + l[k + 1..]
  {
    if k == 0 {
    } else {
      WithoutAt(l[1..], k - 1);
      assert l[0] != l[k] && l[1..][k - 1] == l[k];
      assert [l[0]] + (l[1..][..k - 1] + l[1..][k..]) == l[..k] + l[k + 1..];
    }
  }

  function Reversed<T>(l: seq<T>): seq<T> {
    if l == [] then [] else Reversed(l[1..]) + [l[0]]
  }

  lemma {:induction false} ReversedAt<T>(l: seq<T>, k: nat)
    requires k < |l|
    ensures |Reversed(l)| == |l| && Reversed(l)[k] == l[|l| - 1 - k]
  {
    if |l| == 1 {
      assert Reversed(l[1..]) == [];
    } else {
      ReversedAt(l[1..], if k < |l| - 1 then k else 0);
    }
  }

  lemma ReversedIs<T>(l: seq<T>)
    ensures |Reversed(l)| == |l| && (forall x :: x in Reversed(l) <==> x in l)
    ensures NoDup(l) ==> NoDup(Reversed(l))
  {
    if l != [] { ReversedAt(l, 0); }
    forall k | 0 <= k < |l| ensures Reversed(l)[k] == l[|l| - 1 - k] { ReversedAt(l, k); }
    forall x | x in l ensures x in Reversed(l) {
      var i :| 0 <= i < |l| && l[i] == x;
      ReversedAt(l, |l| - 1 - i);
    }
  }

  lemma {:induction false} ReversedSnoc<T>(l: seq<T>, x: T)
    ensures Reversed(l + [x]) == [x] + Reversed(l)
  {
    if l == [] {
      assert (l + [x])[1..] == [];
    } else {
      assert (l + [x])[1..] == l[1..] + [x];
      ReversedSnoc(l[1..], x);
    }
  }

  lemma {:induction false} ReversedAppend<T>(a: seq<T>, b: seq<T>)
    ensures Reversed(a + b) == Reversed(b) + Reversed(a)
  {
    if a == [] {
      assert a + b == b;
    } else {
      assert (a + b)[1..] == a[1..] + b;
      ReversedAppend(a[1..], b);
    }
  }

  lemma {:induction false} ReversedTwice<T>(l: seq<T>)
    ensures Reversed(Reversed(l)) == l
  {
    if l == [] {
    } else {
      ReversedTwice(l[1..]);
      ReversedSnoc(Reversed(l[1..]), l[0]);
    }
  }
}
