/** The queue of run_loop on the heap: the push stack, its reversal in place, and the loop that executes a batch while
    operations arrive, the ones just executed among them.  One thread; the interleavings are the business of RunLoop. */
module RunLoopQueues {
  import opened Lists

  class Operation {
    var next: Operation?

    constructor ()
      ensures next == null
    {
      next := null;
    }
  }

  /** Following `next` from `first` visits exactly `l` and ends. */
  ghost predicate Chain(first: Operation?, l: seq<Operation>)
    reads l
  {
    && first == (if l == [] then null else l[0])
    && NoDup(l)
    && forall i {:trigger l[i]} :: 0 <= i < |l| ==> l[i].next == (if i + 1 < |l| then l[i + 1] else null)
  }

  /** What arrives during the next execution, and during the ones after it. */
  function Now<T>(arrivals: seq<seq<T>>): seq<T> { if arrivals == [] then [] else arrivals[0] }
  function Later<T>(arrivals: seq<seq<T>>): seq<seq<T>> { if arrivals == [] then [] else arrivals[1..] }

  /** A plain queue: execute the operation in front; what arrives meanwhile goes to the back. After the last of the
      `arrivals` nothing arrives any more. */
  function Fifo<T>(queue: seq<T>, arrivals: seq<seq<T>>): seq<T>
    decreases |arrivals|, |queue|
  {
    if queue == [] then []
    else if arrivals == [] then queue
    else [queue[0]] + Fifo(queue[1..] + arrivals[0], arrivals[1..])
  }

  /** Nothing is queued twice at a time: an operation may arrive again once it has left the queue. */
  ghost predicate Fits<T>(queue: seq<T>, arrivals: seq<seq<T>>)
    decreases |arrivals|
  {
    NoDup(queue) && (queue != [] && arrivals != [] ==> Fits(queue[1..] + arrivals[0], arrivals[1..]))
  }

  /** What executing the operation in front does to the queue. */
  lemma FifoStep<T>(first: T, batch: seq<T>, waiting: seq<T>, arrivals: seq<seq<T>>)
    ensures Fifo([first] + batch + waiting, arrivals)
         == [first] + Fifo(batch + waiting + Now(arrivals), Later(arrivals))
    ensures Fits([first] + batch + waiting, arrivals) ==> Fits(batch + waiting + Now(arrivals), Later(arrivals))
  {
    var queue := [first] + batch + waiting;
    assert queue[1..] == batch + waiting;
    assert batch + waiting + [] == batch + waiting;
    assert queue == [first] + (batch + waiting);
    assert arrivals == [] ==> Fifo(batch + waiting, []) == batch + waiting;
    assert NoDup(queue) ==> NoDup(queue[1..]);
  }

  /** What arrives before the queue has run dry. */
  function Accepted<T>(queue: seq<T>, arrivals: seq<seq<T>>): seq<T>
    decreases |arrivals|
  {
    if queue == [] || arrivals == [] then [] else arrivals[0] + Accepted(queue[1..] + arrivals[0], arrivals[1..])
  }

  /** The plain queue executes what is in it and then what arrives, in the order of acceptance, and leaves nothing
      out. */
  lemma {:induction false} FifoExecutesAll<T>(queue: seq<T>, arrivals: seq<seq<T>>)
    ensures Fifo(queue, arrivals) == queue + Accepted(queue, arrivals)
    decreases |arrivals|
  {
    if queue == [] || arrivals == [] {
    } else {
      FifoExecutesAll(queue[1..] + arrivals[0], arrivals[1..]);
      var more := Accepted(queue[1..] + arrivals[0], arrivals[1..]);
      assert [queue[0]] + (queue[1..] + arrivals[0] + more) == queue + (arrivals[0] + more);
    }
  }

  ghost function Objects(l: seq<Operation>): set<Operation> { set o | o in l }
  ghost predicate Within<T>(a: seq<T>, b: set<T>) { forall x :: x in a ==> x in b }
  ghost predicate AllWithin<T>(a: seq<seq<T>>, b: set<T>) { forall i :: 0 <= i < |a| ==> Within(a[i], b) }
  ghost predicate Apart<T>(a: seq<T>, b: seq<T>) { forall x :: x in a ==> x !in b }

  lemma PartsApart<T>(todo: seq<T>, waiting: seq<T>, more: seq<T>)
    requires NoDup(todo + waiting + more)
    ensures NoDup(more) && Apart(more, todo) && Apart(more, waiting)
  {
    var all := todo + waiting + more;
    assert forall i :: 0 <= i < |more| ==> all[|todo| + |waiting| + i] == more[i];
    assert forall i :: 0 <= i < |waiting| ==> all[|todo| + i] == waiting[i];
    assert forall i :: 0 <= i < |todo| ==> all[i] == todo[i];
  }

  lemma ChainCons(first: Operation, l: seq<Operation>)
    requires first !in l && Chain(first.next, l)
    ensures Chain(first, [first] + l)
  {
    assert forall i :: 0 < i < |[first] + l| ==> ([first] + l)[i] == l[i - 1];
  }

  lemma ChainTail(first: Operation, l: seq<Operation>)
    requires Chain(first, l)
    ensures l != [] && first == l[0] && first !in l[1..] && Chain(first.next, l[1..])
  {
    assert forall i :: 0 <= i < |l[1..]| ==> l[1..][i] == l[i + 1];
  }

  lemma TurnOne<T>(todo: seq<T>, done: seq<T>)
    requires todo != []
    ensures Reversed(todo) + done == Reversed(todo[1..]) + ([todo[0]] + done)
  {
  }

  /** `reverse`: turns the links of a list around, in place. */
  method Reverse(operations: Operation?, ghost l: seq<Operation>) returns (reversed: Operation?)
    requires Chain(operations, l)
    modifies l
    ensures Chain(reversed, Reversed(l))
  {
    reversed := null;
    var rest := operations;
    ghost var todo, done: seq<Operation> := l, [];
    while rest != null
      invariant Chain(rest, todo) && Chain(reversed, done) && Apart(todo, done)
      invariant Reversed(todo) + done == Reversed(l)
      invariant forall o :: o in todo ==> o in l
      decreases |todo|
    {
      ChainTail(rest, todo);
      assert rest in todo;
      var next := rest.next;
      rest.next := reversed;
      ChainCons(rest, done);
      TurnOne(todo, done);
      todo, done := todo[1..], [rest] + done;
      reversed := rest;
      rest := next;
    }
    assert Reversed(todo) + done == done;
  }

  lemma Associative<T>(a: seq<T>, b: seq<T>, c: seq<T>)
    ensures a + b + c == a + (b + c)
  {
  }

  /** FifoStep, with what has been executed in front and what arrives at the far end. */
  lemma PlanStep<T>(done: seq<T>, first: T, todo: seq<T>, waiting: seq<T>, arrivals: seq<seq<T>>)
    ensures done + [first] + Fifo(todo + (waiting + Now(arrivals)), Later(arrivals))
         == done + Fifo([first] + todo + waiting, arrivals)
    ensures Fits([first] + todo + waiting, arrivals) ==> Fits(todo + (waiting + Now(arrivals)), Later(arrivals))
  {
    Associative(todo, waiting, Now(arrivals));
    FifoStep(first, todo, waiting, arrivals);
    Associative(done, [first], Fifo(todo + waiting + Now(arrivals), Later(arrivals)));
  }

  lemma OrderStep<T>(done: seq<T>, first: T, todo: seq<T>, waiting: seq<T>, more: seq<T>)
    ensures (done + [first]) + todo + (waiting + more) == done + ([first] + todo) + waiting + more
  {
  }

  /** One push after the first `i` of several. */
  lemma PushOne<T>(l: seq<T>, i: nat, stack: seq<T>, pushed: seq<T>)
    requires i < |l| && NoDup(l) && Apart(l, stack)
    ensures l[i] !in Reversed(l[..i]) + stack
    ensures [l[i]] + (Reversed(l[..i]) + stack) == Reversed(l[..i + 1]) + stack
    ensures pushed + l[..i] + [l[i]] == pushed + l[..i + 1]
  {
    ReversedIs(l[..i]);
    assert l[..i + 1] == l[..i] + [l[i]];
    ReversedSnoc(l[..i], l[i]);
  }

  class RunLoopQueue {
    var head: Operation?
    ghost var stack: seq<Operation>
    ghost var pushed: seq<Operation>
    ghost var executed: seq<Operation>

    ghost predicate Valid()
      reads this, stack
    {
      Chain(head, stack)
    }

    constructor ()
      ensures Valid() && stack == [] && pushed == [] && executed == []
    {
      head, stack, pushed, executed := null, [], [], [];
    }

    /** `enqueue`: links the operation in front of the stack. */
    method Enqueue(operation: Operation)
      requires Valid() && operation !in stack
      modifies this`head, this`stack, this`pushed, operation
      ensures Valid() && stack == [operation] + old(stack) && pushed == old(pushed) + [operation]
    {
      operation.next := head;
      head := operation;
      ChainCons(operation, stack);
      stack := [operation] + stack;
      pushed := pushed + [operation];
    }

    /** `try_pop_all`, then `reverse`. */
    method PopAll() returns (operations: Operation?)
      requires Valid()
      modifies this`head, this`stack, stack
      ensures Valid() && stack == [] && Chain(operations, Reversed(old(stack)))
    {
      operations := head;
      ghost var l := stack;
      head, stack := null, [];
      operations := Reverse(operations, l);
    }

    /** What has been executed, and what a plain queue would still execute: the batch, then the stack upside down. */
    ghost function Plan(batch: seq<Operation>, arrivals: seq<seq<Operation>>): seq<Operation>
      reads this
    {
      executed + Fifo(batch + Reversed(stack), arrivals)
    }

    /** Every accepted operation has been executed or is still to come, in the order of acceptance. */
    ghost predicate InOrder(batch: seq<Operation>)
      reads this
    {
      pushed == executed + batch + Reversed(stack)
    }

    /** Batch and stack take what arrives without anything being queued twice. */
    ghost predicate Takes(batch: seq<Operation>, arrivals: seq<seq<Operation>>)
      reads this
    {
      Fits(batch + Reversed(stack), arrivals)
    }

    /** Several calls of `enqueue`, from inside an operation or from elsewhere. */
    method Arrive(operations: seq<Operation>)
      requires Valid() && NoDup(operations) && Apart(operations, stack)
      modifies this`head, this`stack, this`pushed, Objects(operations)
      ensures Valid() && pushed == old(pushed) + operations
      ensures stack == Reversed(operations) + old(stack)
    {
      var i := 0;
      while i < |operations|
        invariant 0 <= i <= |operations|
        invariant Valid() && pushed == old(pushed) + operations[..i]
        invariant stack == Reversed(operations[..i]) + old(stack)
      {
        PushOne(operations, i, old(stack), old(pushed));
        Enqueue(operations[i]);
        i := i + 1;
      }
      assert operations[..i] == operations;
    }

    /** One `execute`, during which operations arrive that are not in the rest of the batch. */
    method Execute(operation: Operation, arrivals: seq<seq<Operation>>,
        ghost rest: Operation?, ghost tail: seq<Operation>)
      returns (left: seq<seq<Operation>>)
      requires Valid() && NoDup(Now(arrivals)) && Apart(Now(arrivals), stack)
      requires Chain(rest, tail) && Apart(Now(arrivals), tail)
      modifies this`head, this`stack, this`pushed, this`executed, Objects(Now(arrivals))
      ensures Valid() && left == Later(arrivals)
      ensures HasExecuted(old(stack), old(executed), old(pushed), operation, arrivals)
      ensures Chain(rest, tail)
    {
      executed := executed + [operation];
      Arrive(Now(arrivals));
      left := Later(arrivals);
    }

    /** The state has become what executing `operation` makes of the old one. */
    ghost predicate HasExecuted(was: seq<Operation>, done: seq<Operation>, accepted: seq<Operation>,
                                operation: Operation, arrivals: seq<seq<Operation>>)
      reads this
    {
      && executed == done + [operation]
      && stack == Reversed(Now(arrivals)) + was
      && pushed == accepted + Now(arrivals)
    }

    lemma StackReversed(was: seq<Operation>, done: seq<Operation>, accepted: seq<Operation>,
                        operation: Operation, arrivals: seq<seq<Operation>>)
      requires HasExecuted(was, done, accepted, operation, arrivals)
      ensures Reversed(stack) == Reversed(was) + Now(arrivals)
    {
      ReversedAppend(Reversed(Now(arrivals)), was);
      ReversedTwice(Now(arrivals));
    }

    /** Executing the front carries out the plan of the plain queue. */
    lemma PlanAfter(was: seq<Operation>, done: seq<Operation>, accepted: seq<Operation>,
                    operation: Operation, todo: seq<Operation>, arrivals: seq<seq<Operation>>)
      requires HasExecuted(was, done, accepted, operation, arrivals)
      ensures Plan(todo, Later(arrivals)) == done + Fifo([operation] + todo + Reversed(was), arrivals)
      ensures Fits([operation] + todo + Reversed(was), arrivals) ==> Takes(todo, Later(arrivals))
    {
      StackReversed(was, done, accepted, operation, arrivals);
      PlanStep(done, operation, todo, Reversed(was), arrivals);
    }

    /** Executing the front keeps the order of acceptance. */
    lemma OrderAfter(was: seq<Operation>, done: seq<Operation>, accepted: seq<Operation>,
                     operation: Operation, todo: seq<Operation>, arrivals: seq<seq<Operation>>)
      requires HasExecuted(was, done, accepted, operation, arrivals)
      requires accepted == done + ([operation] + todo) + Reversed(was)
      ensures InOrder(todo)
    {
      StackReversed(was, done, accepted, operation, arrivals);
      OrderStep(done, operation, todo, Reversed(was), Now(arrivals));
    }

    /** What arrives during the first execution is neither in the rest of the batch nor in the stack. */
    lemma ArrivalsAreNew(todo: seq<Operation>, arrivals: seq<seq<Operation>>)
      requires todo != [] && Takes(todo, arrivals)
      ensures NoDup(Now(arrivals)) && Apart(Now(arrivals), stack) && Apart(Now(arrivals), todo[1..])
    {
      if arrivals != [] {
        var queue := todo + Reversed(stack);
        assert Fits(queue[1..] + arrivals[0], arrivals[1..]);
        assert queue[1..] == todo[1..] + Reversed(stack);
        ReversedIs(stack);
        PartsApart(todo[1..], Reversed(stack), arrivals[0]);
      }
    }

    /** The body of `execute_all`: `next` is read before the operation runs, since running it may link it into the
        stack. */
    method ExecuteFirst(operation: Operation, ghost todo: seq<Operation>, arrivals: seq<seq<Operation>>)
      returns (rest: Operation?, left: seq<seq<Operation>>)
      requires Valid() && Chain(operation, todo) && Apart(todo, stack) && InOrder(todo) && Takes(todo, arrivals)
      modifies this`head, this`stack, this`pushed, this`executed, operation, Objects(Now(arrivals))
      ensures todo != [] && Valid() && Chain(rest, todo[1..]) && Apart(todo[1..], stack) && InOrder(todo[1..])
      ensures Plan(todo[1..], left) == old(Plan(todo, arrivals)) && Takes(todo[1..], left)
      ensures left == Later(arrivals) && (arrivals == [] ==> stack == old(stack))
      ensures forall o :: o in stack ==> o in Now(arrivals) || o in old(stack)
    {
      ghost var was, done, accepted := stack, executed, pushed;
      ChainTail(operation, todo);
      ArrivalsAreNew(todo, arrivals);
      assert operation in todo;
      rest := operation.next;
      operation.next := null;
      left := Execute(operation, arrivals, rest, todo[1..]);
      assert todo == [operation] + todo[1..];
      PlanAfter(was, done, accepted, operation, todo[1..], arrivals);
      OrderAfter(was, done, accepted, operation, todo[1..], arrivals);
      ReversedIs(Now(arrivals));
    }

    /** `execute_all`: executes a batch in order, as a plain queue would. */
    method ExecuteAll(operations: Operation?, ghost batch: seq<Operation>, arrivals: seq<seq<Operation>>,
                      ghost known: set<Operation>)
      returns (left: seq<seq<Operation>>)
      requires Valid() && Chain(operations, batch) && Apart(batch, stack) && InOrder(batch) && Takes(batch, arrivals)
      requires Within(batch, known) && Within(stack, known) && AllWithin(arrivals, known)
      modifies this`head, this`stack, this`pushed, this`executed, known
      ensures Valid() && InOrder([]) && Takes([], left) && Within(stack, known) && AllWithin(left, known)
      ensures Plan([], left) == old(Plan(batch, arrivals))
      ensures if arrivals == [] || batch == [] then left == arrivals && stack == old(stack) else |left| < |arrivals|
    {
      left := arrivals;
      var rest := operations;
      ghost var todo := batch;
      while rest != null
        invariant Valid() && Chain(rest, todo) && Apart(todo, stack) && InOrder(todo) && Takes(todo, left)
        invariant Within(todo, known) && Within(stack, known) && AllWithin(left, known)
        invariant Plan(todo, left) == old(Plan(batch, arrivals))
        invariant if arrivals == [] || todo == batch then left == arrivals && stack == old(stack)
                  else |left| < |arrivals|
        decreases |todo|
      {
        assert rest in todo && Within(Now(left), known);
        rest, left := ExecuteFirst(rest, todo, left);
        todo := todo[1..];
      }
    }

    /** `run`, once finish has been called: batch after batch, until the stack is empty. */
    method Run(arrivals: seq<seq<Operation>>, ghost known: set<Operation>)
      requires Valid() && InOrder([]) && Takes([], arrivals) && Within(stack, known) && AllWithin(arrivals, known)
      modifies this`head, this`stack, this`pushed, this`executed, known
      ensures Valid() && head == null && executed == pushed
      ensures executed == old(executed) + Fifo(old(Reversed(stack)), arrivals)
    {
      var left := arrivals;
      assert [] + Reversed(stack) == Reversed(stack);
      while head != null
        invariant Valid() && InOrder([]) && Takes([], left) && Within(stack, known) && AllWithin(left, known)
        invariant Plan([], left) == old(Plan([], arrivals))
        decreases |left|, |stack|
      {
        left := RunBatch(left, known);
      }
      assert executed + [] + Reversed(stack) == executed;
    }

    /** One round of `run`: the plain queue would go on from the same point. */
    method RunBatch(arrivals: seq<seq<Operation>>, ghost known: set<Operation>) returns (left: seq<seq<Operation>>)
      requires Valid() && InOrder([]) && Takes([], arrivals) && Within(stack, known) && AllWithin(arrivals, known)
      requires head != null
      modifies this`head, this`stack, this`pushed, this`executed, known
      ensures Valid() && InOrder([]) && Takes([], left) && Within(stack, known) && AllWithin(left, known)
      ensures Plan([], left) == old(Plan([], arrivals))
      ensures if arrivals == [] then left == [] && stack == [] else |left| < |arrivals|
    {
      ghost var batch := Reversed(stack);
      ReversedIs(stack);
      assert Within(batch, known);
      assert [] + Reversed(stack) == batch + Reversed([]);
      assert executed + [] + batch == executed + batch + Reversed([]);
      var popped := PopAll();
      assert stack == [];
      left := ExecuteAll(popped, batch, arrivals, known);
    }
  }
}
