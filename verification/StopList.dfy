/** The intrusive callback list of a stop source, at the level of its pointers: `head`, the `next` field of
    each record, and the back link of each record, which is the address of the slot that points at it. */
module StopList {
  import opened Lists

  /** The address of a pointer variable: the list head or the `next` field of a record. */
  datatype Slot = NoSlot | HeadSlot | NextSlot(of: CallbackRecord)

  class CallbackRecord {
    var next: CallbackRecord?
    var prevPtr: Slot
    /** `removed_during_callback` points at the flag of the notifying thread. */
    var armed: bool
    var completed: bool

    constructor ()
      ensures next == null && prevPtr == NoSlot && !armed && !completed
    {
      next, prevPtr, armed, completed := null, NoSlot, false, false;
    }

    /** The callback has run: those who wait to destroy it may go on. */
    method Complete()
      modifies this`armed, this`completed
      ensures completed && !armed
    {
      armed := false;
      completed := true;
    }
  }

  /** The head pointer and the records reachable from it; `contents` is the list they form. */
  class CallbackList {
    var head: CallbackRecord?
    ghost var contents: seq<CallbackRecord>

    /** The two directions of the linkage agree with each other and with the ghost sequence. */
    ghost predicate Valid()
      reads this, contents`next, contents`prevPtr
    {
      && NoDup(contents)
      && (if contents == [] then head == null
          else head == contents[0] && contents[0].prevPtr == HeadSlot && contents[|contents| - 1].next == null)
      && (forall i {:trigger contents[i].next} :: 0 <= i < |contents| - 1 ==> contents[i].next == contents[i + 1])
      && (forall i {:trigger contents[i].prevPtr} :: 1 <= i < |contents| ==>
            contents[i].prevPtr == NextSlot(contents[i - 1]))
    }

    constructor ()
      ensures Valid() && contents == []
    {
      head, contents := null, [];
    }

    /** The pointer stored in a slot. */
    ghost function Load(slot: Slot): CallbackRecord?
      requires slot != NoSlot
      reads this, if slot.NextSlot? then {slot.of} else {}
    {
      if slot.HeadSlot? then head else slot.of.next
    }

    /** Each linked record sits in exactly the slot its back link names, and in no other record's. */
    lemma SlotNamesRecord(r: CallbackRecord, q: CallbackRecord)
      requires Valid() && r in contents && q in contents
      ensures r.prevPtr != NoSlot && Load(r.prevPtr) == r
      ensures r.prevPtr == q.prevPtr ==> r == q
    {
      var k :| 0 <= k < |contents| && contents[k] == r;
    }

    /** Links a record in front, as `try_add_callback` does. */
    method Push(record: CallbackRecord)
      requires Valid() && record !in contents
      modifies this`head, this`contents, record`next, record`prevPtr, contents`prevPtr
      ensures Valid() && contents == [record] + old(contents)
    {
      record.next := head;
      record.prevPtr := HeadSlot;
      if record.next != null {
        record.next.prevPtr := NextSlot(record);
      }
      head := record;
      contents := [record] + contents;
    }

    /** Takes a record out wherever it stands, through the slot its back link names. */
    method Unlink(record: CallbackRecord, ghost k: nat)
      requires Valid() && k < |contents| && contents[k] == record
      modifies this`head, this`contents
      modifies (if k > 0 then {contents[k - 1]} else {})`next
      modifies (if k + 1 < |contents| then {contents[k + 1]} else {})`prevPtr
      ensures Valid()
      ensures contents == old(contents)[..k] + old(contents)[k + 1..]
    {
      if record.prevPtr.HeadSlot? {
        head := record.next;
      } else {
        record.prevPtr.of.next := record.next;
      }
      if record.next != null {
        record.next.prevPtr := record.prevPtr;
      }
      contents := contents[..k] + contents[k + 1..];
    }

    /** Takes the first record off and marks it popped. */
    method Pop() returns (record: CallbackRecord)
      requires Valid() && contents != []
      modifies this`head, this`contents, contents`prevPtr
      ensures Valid() && [record] + contents == old(contents) && record.prevPtr == NoSlot
    {
      record := head;
      record.prevPtr := NoSlot;
      head := record.next;
      if head != null {
        head.prevPtr := HeadSlot;
      }
      contents := contents[1..];
    }
  }

  function WithoutAll<T(==)>(l: seq<T>, gone: seq<T>): seq<T>
    decreases |gone|
  {
    if gone == [] then l else WithoutAll(Without(l, gone[0]), gone[1..])
  }

  /** `prevPtr` tells whether a record is linked, but only until its destructor has unlinked it: `live` are the
      registered callbacks whose destructor has not run. */
  ghost predicate BackLinksTell(list: CallbackList, live: set<CallbackRecord>)
    reads list, live`prevPtr
  {
    && (forall r :: r in list.contents ==> r in live)
    && (forall r :: r in live && r !in list.contents ==> r.prevPtr == NoSlot)
  }

  /** Unregistration by the thread that runs request_stop, or by any thread while the record is linked. */
  method RemoveCallback(list: CallbackList, record: CallbackRecord, ghost live: set<CallbackRecord>)
    returns (removedDuringCallback: bool)
    requires list.Valid() && BackLinksTell(list, live) && record in live
    modifies list, live`next, live`prevPtr
    ensures list.Valid() && BackLinksTell(list, live - {record})
    ensures list.contents == Without(old(list.contents), record)
    ensures removedDuringCallback == (record !in old(list.contents) && record.armed)
  {
    ghost var before := list.contents;
    if record in before { list.SlotNamesRecord(record, record); }
    if record.prevPtr != NoSlot {
      ghost var k :| 0 <= k < |before| && before[k] == record;
      list.Unlink(record, k);
      assert forall r :: r in list.contents <==> r in before && r != record;
      WithoutAt(before, k);
      return false;
    }
    WithoutAbsent(before, record);
    return record.armed;
  }

  ghost function Elements<T>(l: seq<T>): set<T> { set x | x in l }

  /** What happens while the lock is open to run a callback: the callbacks in `gone` are destroyed one by one. */
  method WhileOpen(list: CallbackList, gone: seq<CallbackRecord>, current: CallbackRecord,
                   ghost live: set<CallbackRecord>)
    returns (removedDuringCallback: bool)
    requires list.Valid() && BackLinksTell(list, live) && current !in list.contents
    requires NoDup(gone) && Elements(gone) <= live
    requires forall r :: r in live ==> (r.armed <==> r == current)
    modifies list, live`next, live`prevPtr
    ensures list.Valid() && BackLinksTell(list, live - Elements(gone))
    ensures list.contents == WithoutAll(old(list.contents), gone)
    ensures removedDuringCallback == (current in gone)
    decreases |gone|
  {
    if gone == [] { return false; }
    assert gone[0] in Elements(gone) && gone == [gone[0]] + gone[1..];
    assert Elements(gone) == {gone[0]} + Elements(gone[1..]) && gone[0] !in gone[1..];
    WithoutAddsNothing(list.contents, gone[0], current);
    var removed := RemoveCallback(list, gone[0], live);
    var more := WhileOpen(list, gone[1..], current, live - {gone[0]});
    return removed || more;
  }

  /** The callbacks destroyed while notification `n` has the lock open. */
  function Body<T>(bodies: seq<seq<T>>, n: nat): seq<T> { if n < |bodies| then bodies[n] else [] }

  lemma {:induction false} WithoutAllIs<T>(l: seq<T>, gone: seq<T>)
    requires NoDup(l)
    ensures NoDup(WithoutAll(l, gone)) && |WithoutAll(l, gone)| <= |l|
    ensures forall x :: x in WithoutAll(l, gone) <==> x in l && x !in gone
    decreases |gone|
  {
    if gone == [] {
    } else {
      assert gone == [gone[0]] + gone[1..];
      WithoutIs(l, gone[0]);
      WithoutAllIs(Without(l, gone[0]), gone[1..]);
    }
  }

  /** The records a drain of `l` notifies, in order: always the head, then the rest less what was destroyed
      meanwhile. */
  ghost function Drain<T>(l: seq<T>, bodies: seq<seq<T>>, n: nat): seq<T>
    requires NoDup(l)
    decreases |l|
  {
    if l == [] then []
    else
      WithoutAllIs(l[1..], Body(bodies, n));
      [l[0]] + Drain(WithoutAll(l[1..], Body(bodies, n)), bodies, n + 1)
  }

  /** The notifications made so far, followed by those still due from list `l`. */
  ghost predicate DrainsTo<T>(notified: seq<T>, l: seq<T>, bodies: seq<seq<T>>, all: seq<T>)
    requires NoDup(l)
  {
    notified + Drain(l, bodies, |notified|) == all
  }

  lemma {:induction false} DrainStep<T>(l: seq<T>, bodies: seq<seq<T>>, notified: seq<T>, all: seq<T>)
    requires NoDup(l) && l != [] && DrainsTo(notified, l, bodies, all)
    ensures var rest := WithoutAll(l[1..], Body(bodies, |notified|));
            NoDup(rest) && |rest| < |l| && DrainsTo(notified + [l[0]], rest, bodies, all)
  {
    WithoutAllIs(l[1..], Body(bodies, |notified|));
    var tail := Drain(WithoutAll(l[1..], Body(bodies, |notified|)), bodies, |notified| + 1);
    assert notified + [l[0]] + tail == notified + ([l[0]] + tail);
  }

  lemma {:induction false} DrainIsFromList<T>(l: seq<T>, bodies: seq<seq<T>>, n: nat)
    requires NoDup(l)
    ensures NoDup(Drain(l, bodies, n))
    ensures forall x :: x in Drain(l, bodies, n) ==> x in l
    decreases |l|
  {
    if l == [] {
    } else {
      assert l == [l[0]] + l[1..];
      WithoutAllIs(l[1..], Body(bodies, n));
      DrainIsFromList(WithoutAll(l[1..], Body(bodies, n)), bodies, n + 1);
      var tail := Drain(WithoutAll(l[1..], Body(bodies, n)), bodies, n + 1);
      assert Drain(l, bodies, n) == [l[0]] + tail && l[0] !in l[1..];
      assert forall x :: x in tail ==> x in l[1..];
    }
  }

  /** What is notified in round `i` was destroyed in no earlier round. */
  lemma {:induction false} DrainSkipsDestroyed<T>(l: seq<T>, bodies: seq<seq<T>>, n: nat, i: nat, k: nat)
    requires NoDup(l) && i < |Drain(l, bodies, n)| && n <= k < n + i
    ensures Drain(l, bodies, n)[i] !in Body(bodies, k)
    decreases |l|
  {
    var rest := WithoutAll(l[1..], Body(bodies, n));
    WithoutAllIs(l[1..], Body(bodies, n));
    DrainIsFromList(rest, bodies, n + 1);
    assert Drain(l, bodies, n)[i] == Drain(rest, bodies, n + 1)[i - 1];
    if k > n {
      DrainSkipsDestroyed(rest, bodies, n + 1, i - 1, k);
    }
  }

  /** A listed record that is never notified was destroyed in one of the rounds. */
  lemma {:induction false} NotDrainedWasDestroyed<T>(l: seq<T>, bodies: seq<seq<T>>, n: nat, x: T) returns (k: nat)
    requires NoDup(l) && x in l && x !in Drain(l, bodies, n)
    ensures n <= k < n + |Drain(l, bodies, n)| && x in Body(bodies, k)
    decreases |l|
  {
    assert l == [l[0]] + l[1..];
    WithoutAllIs(l[1..], Body(bodies, n));
    if x in Body(bodies, n) {
      k := n;
    } else {
      k := NotDrainedWasDestroyed(WithoutAll(l[1..], Body(bodies, n)), bodies, n + 1, x);
    }
  }

  class StopState {
    var state: nat
    const list: CallbackList

    constructor ()
      ensures list.Valid() && list.contents == [] && state == 0
    {
      state := 0;
      list := new CallbackList();
    }

    /** Registration without contention: pushes unless stop was requested. */
    method TryAddCallback(record: CallbackRecord) returns (added: bool)
      requires list.Valid() && (state == 0 || state == 1) && record !in list.contents
      modifies this`state, list, record`next, record`prevPtr, list.contents`prevPtr
      ensures list.Valid() && state == old(state)
      ensures added == (state == 0)
      ensures list.contents == (if added then [record] + old(list.contents) else old(list.contents))
    {
      if state == 1 { return false; }
      state := 2;
      list.Push(record);
      state := 0;
      return true;
    }

    /** Takes the head off the list and leaves in it the address of the notifier's flag. */
    method PopArmed(ghost live: set<CallbackRecord>) returns (record: CallbackRecord)
      requires list.Valid() && BackLinksTell(list, live) && list.contents != []
      requires forall r :: r in live ==> !r.armed
      modifies list, live
      ensures list.Valid() && BackLinksTell(list, live)
      ensures [record] + list.contents == old(list.contents) && record in live && record !in list.contents
      ensures forall r :: r in live ==> (r.armed <==> r == record)
    {
      record := list.Pop();
      record.armed := true;
    }

    /** Opens the lock, runs the callback of a popped record while the callbacks in `gone` are destroyed, and
        finalizes the record if it still exists. */
    method Invoke(record: CallbackRecord, gone: seq<CallbackRecord>, ghost live: set<CallbackRecord>)
      requires list.Valid() && BackLinksTell(list, live) && record in live && record !in list.contents
      requires NoDup(gone) && Elements(gone) <= live
      requires forall r :: r in live ==> (r.armed <==> r == record)
      modifies this`state, list, live`next, live`prevPtr, record`armed, record`completed
      ensures list.Valid() && BackLinksTell(list, live - Elements(gone))
      ensures list.contents == WithoutAll(old(list.contents), gone)
      ensures record in gone || (record.completed && !record.armed)
    {
      state := 1;
      var removed := WhileOpen(list, gone, record, live);
      if !removed {
        record.Complete();
      }
    }

    /** One round of the drain: pops the head, notifies it, and takes the lock again. */
    method NotifyOne(gone: seq<CallbackRecord>, ghost live: set<CallbackRecord>) returns (record: CallbackRecord)
      requires list.Valid() && BackLinksTell(list, live) && state == 3 && list.contents != []
      requires NoDup(gone) && Elements(gone) <= live
      requires forall r :: r in live ==> !r.armed
      modifies this`state, list, live
      ensures list.Valid() && BackLinksTell(list, live - Elements(gone)) && state == 3
      ensures record == old(list.contents)[0] && list.contents == WithoutAll(old(list.contents)[1..], gone)
      ensures record in gone || (record.completed && !record.armed)
      ensures forall r :: r in live && r !in gone ==> !r.armed
    {
      record := PopArmed(live);
      assert list.contents == old(list.contents)[1..];
      Invoke(record, gone, live);
      state := 3;
    }

    /** The destructions of each round are distinct and of live callbacks. */
    ghost predicate Destroys(bodies: seq<seq<CallbackRecord>>, n: nat, live: set<CallbackRecord>) {
      && (forall k :: n <= k < |bodies| ==> NoDup(bodies[k]) && Elements(bodies[k]) <= live)
      && (forall j, k :: n <= j < k < |bodies| ==> Elements(bodies[j]) !! Elements(bodies[k]))
    }

    lemma DestroysStep(bodies: seq<seq<CallbackRecord>>, n: nat, live: set<CallbackRecord>)
      requires Destroys(bodies, n, live)
      ensures NoDup(Body(bodies, n)) && Elements(Body(bodies, n)) <= live
      ensures Destroys(bodies, n + 1, live - Elements(Body(bodies, n)))
    {
    }

    /** The drain loop.  While round `n` has the lock open, the callbacks in `bodies[n]` are destroyed. */
    method DrainLoop(bodies: seq<seq<CallbackRecord>>, ghost live: set<CallbackRecord>)
      returns (notified: seq<CallbackRecord>)
      requires list.Valid() && BackLinksTell(list, live) && state == 3
      requires Destroys(bodies, 0, live) && forall r :: r in live ==> !r.armed
      modifies this`state, list, live
      ensures list.Valid() && state == 3 && list.contents == []
      ensures notified == Drain(old(list.contents), bodies, 0)
    {
      notified := [];
      ghost var alive, all := live, Drain(list.contents, bodies, 0);
      while list.head != null
        invariant list.Valid() && BackLinksTell(list, alive) && alive <= live && state == 3
        invariant Destroys(bodies, |notified|, alive) && forall r :: r in alive ==> !r.armed
        invariant DrainsTo(notified, list.contents, bodies, all)
        decreases |list.contents|
      {
        var gone := Body(bodies, |notified|);
        DestroysStep(bodies, |notified|, alive);
        DrainStep(list.contents, bodies, notified, all);
        var record := NotifyOne(gone, alive);
        alive := alive - Elements(gone);
        notified := notified + [record];
      }
    }

    /** `request_stop`: the claim, the drain, and the store that opens the lock for good. */
    method RequestStop(bodies: seq<seq<CallbackRecord>>, ghost live: set<CallbackRecord>)
      returns (won: bool, notified: seq<CallbackRecord>)
      requires list.Valid() && BackLinksTell(list, live) && (state == 0 || state == 1)
      requires Destroys(bodies, 0, live) && forall r :: r in live ==> !r.armed
      modifies this`state, list, live
      ensures list.Valid() && won == (old(state) == 0) && state == 1
      ensures !won ==> notified == [] && list.contents == old(list.contents)
      ensures won ==> list.contents == [] && notified == Drain(old(list.contents), bodies, 0)
    {
      if state == 1 { return false, []; }
      state := 3;
      notified := DrainLoop(bodies, live);
      state := 1;
      won := true;
    }
  }
}
