/** Association handles: moving, assigning, resetting and failing to associate keep the count of a scope equal to
    the number of handles engaged with it.  One thread at a time; the interleavings are the business of Scope. */
module Associations {
  import opened ScopeWord

  class CountingScope {
    var word: nat
    /** The handles that hold one count of this scope each. */
    ghost var engaged: set<Association>

    ghost predicate Valid()
      reads this, engaged
    {
      && WordOk(word)
      && |engaged| == CountOf(word)
      && (forall a :: a in engaged ==> a.scope == this)
    }

    constructor ()
      ensures Valid() && engaged == {} && word == 0
    {
      word, engaged := 0, {};
    }

    /** Takes one count, unless the scope is closed or full. */
    method TryAssociate() returns (ok: bool)
      requires WordOk(word)
      modifies this`word
      ensures ok == !RefusesAssociation(old(word)) && WordOk(word)
      ensures CountOf(word) == CountOf(old(word)) + (if ok then 1 else 0) && (!ok ==> word == old(word))
    {
      if RefusesAssociation(word) { return false; }
      WordOkAfterAssociate(word);
      word := Associated(word);
      return true;
    }

    /** Gives one count back. */
    method Disassociate()
      requires WordOk(word) && CountOf(word) > 0
      modifies this`word
      ensures WordOk(word) && CountOf(word) == CountOf(old(word)) - 1
      ensures IsJoined(word) <==> CountOf(old(word)) == 1 && IsJoining(old(word))
    {
      WordOkAfterDisassociate(word);
      word := Disassociated(word);
    }
  }

  class Association {
    var scope: CountingScope?

    /** An engaged handle is one of those its scope counts. */
    ghost predicate Valid()
      reads this, scope, if scope != null then scope.engaged else {}
    {
      scope != null ==> scope.Valid() && this in scope.engaged
    }

    constructor ()
      ensures scope == null
    {
      scope := null;
    }

    /** The move constructor: the count passes from one handle to the other. */
    constructor Move(other: Association)
      requires other.Valid()
      modifies other`scope, if other.scope != null then {other.scope} else {}
      ensures Valid() && other.Valid()
      ensures scope == old(other.scope) && other.scope == null
      ensures scope != null ==>
                && scope.engaged == old(other.scope.engaged) - {other} + {this}
                && scope.word == old(other.scope.word)
    {
      scope := null;
      new;
      TakeOver(other);
    }

    /** `std::exchange(other.scope_, nullptr)` stored into this handle: no count is taken or given back. */
    method TakeOver(other: Association)
      requires scope == null && this != other && other.Valid()
      modifies this`scope, other`scope
      modifies if other.scope != null then {other.scope} else {}
      ensures Valid() && other.Valid()
      ensures scope == old(other.scope) && other.scope == null
      ensures scope != null ==>
                && scope.engaged == old(other.scope.engaged) - {other} + {this}
                && scope.word == old(other.scope.word)
    {
      scope := other.scope;
      other.scope := null;
      if scope != null {
        scope.engaged := scope.engaged - {other} + {this};
      }
    }

    /** Gives the count up, once. */
    method Reset()
      requires Valid()
      modifies this`scope, if scope != null then {scope} else {}
      ensures scope == null
      ensures old(scope) != null ==> old(scope).Valid() && old(scope).engaged == old(scope.engaged) - {this}
    {
      if scope == null { return; }
      var s := scope;
      scope := null;
      s.Disassociate();
      s.engaged := s.engaged - {this};
    }

    /** Move assignment: gives up the count it had, then takes the other's; nothing happens to a self-assignment. */
    method MoveAssign(other: Association)
      requires Valid() && other.Valid()
      modifies this`scope, other`scope
      modifies if scope != null then {scope} else {}, if other.scope != null then {other.scope} else {}
      ensures Valid() && other.Valid()
      ensures this == other ==> scope == old(scope) && (scope != null ==> scope.engaged == old(scope.engaged))
      ensures this != other ==> scope == old(other.scope) && other.scope == null
      ensures this != other && old(scope) != null && old(scope) != old(other.scope) ==>
                old(scope).Valid() && old(scope).engaged == old(scope.engaged) - {this}
      ensures this != other && scope != null ==> scope.engaged == old(other.scope.engaged) - {other} + {this}
    {
      if this != other {
        Reset();
        TakeOver(other);
      }
    }

    /** Another association with the same scope, or a disengaged handle. */
    method TryAssociate() returns (a: Association)
      requires Valid()
      modifies if scope != null then {scope} else {}
      ensures Valid() && a.Valid() && fresh(a)
      ensures a.scope != null <==> scope != null && !RefusesAssociation(old(scope.word))
      ensures a.scope != null ==> a.scope == scope
      ensures scope != null ==> scope.engaged == old(scope.engaged) + (if a.scope != null then {a} else {})
    {
      a := new Association();
      if scope != null {
        var ok := scope.TryAssociate();
        if ok {
          a.scope := scope;
          scope.engaged := scope.engaged + {a};
        }
      }
    }
  }
}
