/** Intrusive singly linked lists whose head is one atomic word, as the run loop and the counting scope push on them. */
module Links {
  type Id = nat

  /** A link: the end of the list, an element, or the mark that takes the place of a list nobody may push on any
      more. */
  datatype Ptr = Nil | Node(id: Id) | Sealed

  /** The `next` field of an element. */
  function NextIn(next: map<Id, Ptr>, id: Id): Ptr { if id in next then next[id] else Nil }

  function PtrOf(l: seq<Id>): Ptr { if l == [] then Nil else Node(l[0]) }

  /** Following `next` from each element of `l` gives the rest of `l`. */
  ghost predicate Linked(next: map<Id, Ptr>, l: seq<Id>) {
    forall i {:trigger l[i]} :: 0 <= i < |l| ==> NextIn(next, l[i]) == PtrOf(l[i + 1..])
  }

  /** Writing links outside a list leaves it linked. */
  lemma LinkedStays(next: map<Id, Ptr>, next': map<Id, Ptr>, l: seq<Id>)
    requires Linked(next, l) && forall id :: id in l ==> NextIn(next', id) == NextIn(next, id)
    ensures Linked(next', l)
  {
    assert forall i :: 0 <= i < |l| ==> l[i] in l;
  }

  /** A push: the new element points at the old list. */
  lemma LinkedPushed(next: map<Id, Ptr>, l: seq<Id>, id: Id)
    requires Linked(next, l) && id !in l
    ensures Linked(next[id := PtrOf(l)], [id] + l)
  {
    var next' := next[id := PtrOf(l)];
    forall i | 0 <= i < |[id] + l| ensures NextIn(next', ([id] + l)[i]) == PtrOf(([id] + l)[i + 1..]) {
      assert ([id] + l)[i + 1..] == l[i..];
      assert i > 0 ==> ([id] + l)[i] == l[i - 1];
    }
  }

  /** A pop: the rest of a linked list is linked. */
  lemma LinkedTail(next: map<Id, Ptr>, l: seq<Id>)
    requires Linked(next, l) && l != []
    ensures Linked(next, l[1..])
  {
    forall i | 0 <= i < |l[1..]| ensures NextIn(next, l[1..][i]) == PtrOf(l[1..][i + 1..]) {
      assert l[1..][i + 1..] == l[i + 2..] && l[1..][i] == l[i + 1];
    }
  }
}
