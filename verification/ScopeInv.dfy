/** Every step of every activation keeps the invariant of the counting scope. */
module ScopeInv {
  import opened Links
  import opened Lists
  import opened Runs
  import opened ScopeWord
  import opened Scope

  predicate Drains(pc: Pc) { pc.Exchange? || pc.Walk? || pc.Fire? }

  ghost predicate SameSpawn(s: State, s': State, c: Assoc) {
    (IsSpawn(s', c) <==> IsSpawn(s, c)) && (IsSpawn(s, c) ==> s'.spawns[c] == s.spawns[c])
  }

  /** A step of `x` that concerns association `a` only. */
  ghost predicate AssocLocal(s: State, s': State, x: Act, a: Assoc) {
    && (forall y :: y != x ==> At(s', y) == At(s, y))
    && (forall c :: c != a ==> LifeOf(s', c) == LifeOf(s, c) && SameSpawn(s, s', c))
    && s'.joins == s.joins && s'.next == s.next && s'.head == s.head && s'.chain == s.chain && s'.drainer == s.drainer
    && s'.first == s.first && s'.completions == s.completions
    && (forall c :: c != a ==> (c in s'.held <==> c in s.held))
    && !Drains(At(s, x)) && JoinerOf(At(s, x)) == None && JoinerOf(At(s', x)) == None
    && (AssocOf(At(s, x)) == None || AssocOf(At(s, x)) == Some(a))
  }

  /** The other activations working on `a` can go on. */
  ghost predicate Foreign(s: State, s': State, a: Assoc, y: Act) {
    AssocOf(At(s, y)) == Some(a) ==> PcOk(s', y)
  }

  lemma AssocForeign(s: State, s': State, x: Act, a: Assoc, y: Act)
    requires PcOk(s, y) && y != x && AssocLocal(s, s', x, a) && AssocOf(At(s, y)) != Some(a)
    ensures PcOk(s', y)
  {
  }

  lemma AssocStep(s: State, s': State, x: Act, a: Assoc)
    requires Inv(s) && AssocLocal(s, s', x, a)
    requires PcOk(s', x) && AssocOk(s', a) && WordCounts(s')
    requires IsJoining(s'.word) == IsJoining(s.word) && (IsJoined(s.word) ==> IsJoined(s'.word))
    requires forall y :: y != x ==> Foreign(s, s', a, y)
    ensures Inv(s')
  {
    forall y ensures PcOk(s', y) {
      assert PcOk(s, y) && (y != x ==> Foreign(s, s', a, y));
      if y != x && AssocOf(At(s, y)) != Some(a) { AssocForeign(s, s', x, a, y); }
    }
    forall c ensures AssocOk(s', c) { assert AssocOk(s, c); }
    forall w ensures JoinOk(s', w) { assert JoinOk(s, w); }
    assert Linked(s.next, s.chain) ==> Linked(s'.next, s'.chain);
  }

  /** A step of `x` that concerns waiter `w` only, and leaves the drained list alone. */
  ghost predicate JoinLocal(s: State, s': State, x: Act, w: Waiter) {
    && (forall y :: y != x ==> At(s', y) == At(s, y))
    && (forall v :: v != w ==>
          JoinOf(s', v) == JoinOf(s, v) && Completions(s', v) == Completions(s, v) && (v in s'.chain <==> v in s.chain))
    && s'.assocs == s.assocs && s'.spawns == s.spawns && s'.held == s.held && s'.drainer == s.drainer
    && (s'.chain == s.chain || !s.drainer.Walking?)
    && (s.head.Sealed? ==> s'.head.Sealed?)
    && !Drains(At(s, x)) && AssocOf(At(s, x)) == None && AssocOf(At(s', x)) == None
    && (JoinerOf(At(s, x)) == None || JoinerOf(At(s, x)) == Some(w))
  }

  lemma JoinForeign(s: State, s': State, x: Act, w: Waiter, y: Act)
    requires PcOk(s, y) && y != x && JoinLocal(s, s', x, w) && JoinerOf(At(s, y)) != Some(w)
    ensures PcOk(s', y)
  {
  }

  lemma JoinStep(s: State, s': State, x: Act, w: Waiter)
    requires Inv(s) && JoinLocal(s, s', x, w)
    requires PcOk(s', x) && JoinOk(s', w) && WordCounts(s') && ListOk(s')
    requires (IsJoining(s.word) ==> IsJoining(s'.word)) && (IsJoined(s.word) ==> IsJoined(s'.word))
    requires forall y :: y != x ==> JoinerOf(At(s, y)) != Some(w)
    ensures Inv(s')
  {
    forall y ensures PcOk(s', y) {
      assert PcOk(s, y);
      if y != x { JoinForeign(s, s', x, w, y); }
    }
    forall c ensures AssocOk(s', c) { assert AssocOk(s, c); }
    forall v ensures JoinOk(s', v) { assert JoinOk(s, v); }
  }

  /** An activation outside the drain that works on neither `a` nor `w`. */
  lemma Bystander(s: State, s': State, a: Option<Assoc>, w: Option<Waiter>, y: Act)
    requires PcOk(s, y) && At(s', y) == At(s, y) && !Drains(At(s, y))
    requires forall c: Assoc :: Some(c) != a ==> LifeOf(s', c) == LifeOf(s, c)
    requires forall v: Waiter :: Some(v) != w ==> JoinOf(s', v) == JoinOf(s, v)
    requires s'.spawns == s.spawns && (s.head.Sealed? ==> s'.head.Sealed?)
    requires (a.None? || AssocOf(At(s, y)) != a) && (w.None? || JoinerOf(At(s, y)) != w)
    ensures PcOk(s', y)
  {
  }

  /** What an activation relies on says nothing about the program counters of the others. */
  lemma ActKept(s: State, s': State, y: Act, pc: Pc)
    requires s' == s.(acts := s'.acts) && ActOk(s, y, pc)
    ensures ActOk(s', y, pc)
  {
  }

  lemma JoinKept(s: State, x: Act, pc: Pc, v: Waiter)
    requires JoinOk(s, v) && JoinerOf(pc) == JoinerOf(At(s, x))
    ensures JoinOk(Go(s, x, pc), v)
  {
  }

  lemma AssocKept(s: State, x: Act, pc: Pc, c: Assoc)
    requires AssocOk(s, c) && AssocOf(pc) == AssocOf(At(s, x))
    ensures AssocOk(Go(s, x, pc), c)
  {
  }

  /** A step that only moves the program counter of `x`. */
  lemma PcOnly(s: State, x: Act, pc: Pc)
    requires Inv(s) && ActOk(s, x, pc)
    requires AssocOf(pc) == AssocOf(At(s, x)) && JoinerOf(pc) == JoinerOf(At(s, x))
    requires if Drains(At(s, x)) then s.drainer.Walking? && (pc.Walk? || pc.Fire?) else !Drains(pc)
    ensures Inv(Go(s, x, pc))
  {
    var s' := Go(s, x, pc);
    forall y ensures PcOk(s', y) { assert PcOk(s, y); ActKept(s, s', y, At(s', y)); }
    forall c ensures AssocOk(s', c) { AssocKept(s, x, pc, c); }
    forall v ensures JoinOk(s', v) { JoinKept(s, x, pc, v); }
    assert PcOk(s, x);
    assert Linked(s'.next, s'.chain);
  }

  /** Nobody else works on an association that `x` holds, or that nobody has. */
  lemma AloneOnAssoc(s: State, x: Act, a: Assoc, y: Act)
    requires ActsOk(s) && y != x
    requires LifeOf(s, a) == Trying(x) || LifeOf(s, a) == Releasing(x) || LifeOf(s, a).Unknown?
    ensures AssocOf(At(s, y)) != Some(a)
  {
    assert PcOk(s, y);
  }

  lemma AloneOnJoin(s: State, x: Act, w: Waiter, y: Act)
    requires ActsOk(s) && y != x
    requires JoinOf(s, w) == Starting(x) || JoinOf(s, w) == Registering(x) || JoinOf(s, w).NotStarted?
    ensures JoinerOf(At(s, y)) != Some(w)
  {
    assert PcOk(s, y);
  }

  // Each step keeps the invariant.

  lemma KeepsCallAssociate(s: State, x: Act, a: Assoc)
    requires Inv(s) && Next(s, CallAssociate(x, a)).Some?
    ensures Inv(Next(s, CallAssociate(x, a)).value)
  {
    var s' := Next(s, CallAssociate(x, a)).value;
    assert PcOk(s, x) && AssocOk(s, a);
    forall y | y != x ensures Foreign(s, s', a, y) { AloneOnAssoc(s, x, a, y); }
    AssocStep(s, s', x, a);
  }

  lemma KeepsCallSpawn(s: State, x: Act, a: Assoc)
    requires Inv(s) && Next(s, CallSpawn(x, a)).Some?
    ensures Inv(Next(s, CallSpawn(x, a)).value)
  {
    var s' := Next(s, CallSpawn(x, a)).value;
    assert PcOk(s, x) && AssocOk(s, a);
    forall y | y != x ensures Foreign(s, s', a, y) { AloneOnAssoc(s, x, a, y); }
    AssocStep(s, s', x, a);
  }

  lemma KeepsCallReset(s: State, x: Act, a: Assoc)
    requires Inv(s) && Next(s, CallReset(x, a)).Some?
    ensures Inv(Next(s, CallReset(x, a)).value)
  {
    var s' := Next(s, CallReset(x, a)).value;
    assert PcOk(s, x) && AssocOk(s, a);
    forall y | y != x ensures Foreign(s, s', a, y) { assert PcOk(s, y); }
    AssocStep(s, s', x, a);
  }

  lemma KeepsChildCompletes(s: State, x: Act, a: Assoc)
    requires Inv(s) && Next(s, ChildCompletes(x, a)).Some?
    ensures Inv(Next(s, ChildCompletes(x, a)).value)
  {
    var s' := Next(s, ChildCompletes(x, a)).value;
    assert PcOk(s, x) && AssocOk(s, a);
    forall y | y != x ensures Foreign(s, s', a, y) { assert PcOk(s, y); }
    AssocStep(s, s', x, a);
  }

  /** `close` concerns no association and no waiter. */
  lemma KeepsClose(s: State)
    requires Inv(s)
    ensures Inv(s.(word := OrClosed(s.word)))
  {
    var s' := s.(word := OrClosed(s.word));
    WordOkAfterClose(s.word);
    forall y ensures PcOk(s', y) { assert PcOk(s, y); ClosedKeeps(s, y, At(s, y)); }
    forall c ensures AssocOk(s', c) { assert AssocOk(s, c); }
    forall w ensures JoinOk(s', w) { assert JoinOk(s, w); }
    assert Linked(s'.next, s'.chain);
  }

  lemma ClosedKeeps(s: State, y: Act, pc: Pc)
    requires ActOk(s, y, pc)
    ensures ActOk(s.(word := OrClosed(s.word)), y, pc)
  {
  }

  lemma KeepsLoad(s: State, x: Act)
    requires Inv(s) && LoadStep(s, x, At(s, x)).Some?
    ensures Inv(LoadStep(s, x, At(s, x)).value)
  {
    assert PcOk(s, x);
    match At(s, x)
    case ALoad(a) => PcOnly(s, x, ATry(a, s.word));
    case DLoad(a) => PcOnly(s, x, DTry(a, s.word));
    case JLoad(w) => PcOnly(s, x, JTry(w, s.word));
    case RLoad(w) => PcOnly(s, x, RTry(w, s.head));
    case _ =>
  }

  lemma KeepsFail(s: State, x: Act)
    requires Inv(s) && FailStep(s, x, At(s, x)).Some? && !At(s, x).RTry?
    ensures Inv(FailStep(s, x, At(s, x)).value)
  {
    assert PcOk(s, x);
    match At(s, x)
    case ATry(a, _) => PcOnly(s, x, ATry(a, s.word));
    case DTry(a, _) => PcOnly(s, x, DTry(a, s.word));
    case JTry(w, _) => PcOnly(s, x, JTry(w, s.word));
    case _ =>
  }

  lemma KeepsFailPush(s: State, x: Act, w: Waiter, seen: Ptr)
    requires Inv(s) && At(s, x) == RTry(w, seen) && !seen.Sealed?
    ensures Inv(Go(s.(next := s.next[w := seen]), x, RTry(w, s.head)))
  {
    var s' := Go(s.(next := s.next[w := seen]), x, RTry(w, s.head));
    assert PcOk(s, x) && JoinOk(s, w);
    assert Linked(s'.next, s'.chain);
    forall y | y != x ensures JoinerOf(At(s, y)) != Some(w) { AloneOnJoin(s, x, w, y); }
    JoinStep(s, s', x, w);
  }

  lemma KeepsAssociate(s: State, x: Act)
    requires Inv(s) && WinStep(s, x, At(s, x)).Some? && At(s, x).ATry?
    ensures Inv(WinStep(s, x, At(s, x)).value)
  {
    var s' := WinStep(s, x, At(s, x)).value;
    var a := At(s, x).a;
    assert PcOk(s, x) && AssocOk(s, a);
    WordOkAfterAssociate(s.word);
    forall y | y != x ensures Foreign(s, s', a, y) { AloneOnAssoc(s, x, a, y); }
    AssocStep(s, s', x, a);
  }

  lemma KeepsDisassociate(s: State, x: Act)
    requires Inv(s) && WinStep(s, x, At(s, x)).Some? && At(s, x).DTry? && !IsJoined(Disassociated(s.word))
    ensures Inv(WinStep(s, x, At(s, x)).value)
  {
    var s' := WinStep(s, x, At(s, x)).value;
    var a := At(s, x).a;
    assert PcOk(s, x) && AssocOk(s, a);
    WordOkAfterDisassociate(s.word);
    forall y | y != x ensures Foreign(s, s', a, y) { AloneOnAssoc(s, x, a, y); }
    AssocStep(s, s', x, a);
  }

  lemma KeepsCallJoin(s: State, x: Act, w: Waiter)
    requires Inv(s) && At(s, x).Idle? && JoinOf(s, w).NotStarted?
    ensures Inv(Go(SetJoin(s, w, Starting(x)), x, JLoad(w)))
  {
    var s' := Go(SetJoin(s, w, Starting(x)), x, JLoad(w));
    assert PcOk(s, x) && JoinOk(s, w);
    assert Linked(s'.next, s'.chain);
    forall y | y != x ensures JoinerOf(At(s, y)) != Some(w) { AloneOnJoin(s, x, w, y); }
    JoinStep(s, s', x, w);
  }

  lemma KeepsJoinInline(s: State, x: Act)
    requires Inv(s) && WinStep(s, x, At(s, x)).Some? && At(s, x).JTry? && CountOf(s.word) == 0
    ensures Inv(WinStep(s, x, At(s, x)).value)
  {
    var s' := WinStep(s, x, At(s, x)).value;
    var w := At(s, x).w;
    assert PcOk(s, x) && JoinOk(s, w);
    WordOkAfterJoin(s.word);
    assert Linked(s'.next, s'.chain);
    forall y | y != x ensures JoinerOf(At(s, y)) != Some(w) { AloneOnJoin(s, x, w, y); }
    JoinStep(s, s', x, w);
  }

  lemma KeepsJoinRunning(s: State, x: Act)
    requires Inv(s) && WinStep(s, x, At(s, x)).Some? && At(s, x).JTry? && CountOf(s.word) > 0
    ensures Inv(WinStep(s, x, At(s, x)).value)
  {
    var s' := WinStep(s, x, At(s, x)).value;
    var w := At(s, x).w;
    assert PcOk(s, x) && JoinOk(s, w);
    WordOkAfterJoin(s.word);
    assert s.drainer.NoDrainer?;
    assert s.first.Some? ==> s.first.value != w;
    assert FirstWaits(s');
    assert Linked(s'.next, s'.chain);
    forall y | y != x ensures JoinerOf(At(s, y)) != Some(w) { AloneOnJoin(s, x, w, y); }
    JoinStep(s, s', x, w);
  }

  lemma KeepsPush(s: State, x: Act)
    requires Inv(s) && WinStep(s, x, At(s, x)).Some? && At(s, x).RTry?
    ensures Inv(WinStep(s, x, At(s, x)).value)
  {
    var s' := WinStep(s, x, At(s, x)).value;
    var w := At(s, x).w;
    assert PcOk(s, x) && JoinOk(s, w);
    PushLinks(s, s', w);
    forall y | y != x ensures JoinerOf(At(s, y)) != Some(w) { AloneOnJoin(s, x, w, y); }
    JoinStep(s, s', x, w);
  }

  lemma KeepsRefuse(s: State, x: Act)
    requires Inv(s) && GiveUpStep(s, x, At(s, x)).Some? && At(s, x).ATry?
    ensures Inv(GiveUpStep(s, x, At(s, x)).value)
  {
    var s' := GiveUpStep(s, x, At(s, x)).value;
    var a := At(s, x).a;
    assert PcOk(s, x) && AssocOk(s, a);
    forall y | y != x ensures Foreign(s, s', a, y) { AloneOnAssoc(s, x, a, y); }
    AssocStep(s, s', x, a);
  }

  lemma KeepsSentinel(s: State, x: Act)
    requires Inv(s) && GiveUpStep(s, x, At(s, x)).Some? && At(s, x).RTry?
    ensures Inv(GiveUpStep(s, x, At(s, x)).value)
  {
    var s' := GiveUpStep(s, x, At(s, x)).value;
    var w := At(s, x).w;
    assert PcOk(s, x) && JoinOk(s, w);
    assert Linked(s'.next, s'.chain);
    forall y | y != x ensures JoinerOf(At(s, y)) != Some(w) { AloneOnJoin(s, x, w, y); }
    JoinStep(s, s', x, w);
  }

  lemma KeepsFinishRejected(s: State, x: Act)
    requires Inv(s) && AdvanceStep(s, x, At(s, x)).Some? && At(s, x).SFinish? && !LifeOf(s, At(s, x).a).Engaged?
    ensures Inv(AdvanceStep(s, x, At(s, x)).value)
  {
    var s' := AdvanceStep(s, x, At(s, x)).value;
    var a := At(s, x).a;
    assert PcOk(s, x) && AssocOk(s, a);
    forall y | y != x ensures Foreign(s, s', a, y) { assert PcOk(s, y); }
    AssocStep(s, s', x, a);
  }

  lemma KeepsFinish(s: State, x: Act)
    requires Inv(s) && AdvanceStep(s, x, At(s, x)).Some? && At(s, x).SFinish? && LifeOf(s, At(s, x).a).Engaged?
    ensures Inv(AdvanceStep(s, x, At(s, x)).value)
  {
    var s' := AdvanceStep(s, x, At(s, x)).value;
    var a := At(s, x).a;
    assert PcOk(s, x) && AssocOk(s, a);
    forall y | y != x ensures Foreign(s, s', a, y) { assert PcOk(s, y); }
    AssocStep(s, s', x, a);
  }

  lemma KeepsSStart(s: State, x: Act)
    requires Inv(s) && AdvanceStep(s, x, At(s, x)).Some? && At(s, x).SStart?
    ensures Inv(AdvanceStep(s, x, At(s, x)).value)
  {
    var s' := AdvanceStep(s, x, At(s, x)).value;
    var a := At(s, x).a;
    assert PcOk(s, x) && AssocOk(s, a);
    forall y | y != x ensures Foreign(s, s', a, y) { assert PcOk(s, y); }
    AssocStep(s, s', x, a);
  }

  lemma KeepsSReturn(s: State, x: Act)
    requires Inv(s) && AdvanceStep(s, x, At(s, x)).Some? && At(s, x).SReturn?
    ensures Inv(AdvanceStep(s, x, At(s, x)).value)
  {
    var s' := AdvanceStep(s, x, At(s, x)).value;
    var a := At(s, x).a;
    assert PcOk(s, x) && AssocOk(s, a);
    forall y | y != x ensures Foreign(s, s', a, y) { assert PcOk(s, y); }
    AssocStep(s, s', x, a);
  }

  lemma KeepsSComplete(s: State, x: Act)
    requires Inv(s) && AdvanceStep(s, x, At(s, x)).Some? && At(s, x).SComplete?
    ensures Inv(AdvanceStep(s, x, At(s, x)).value)
  {
    var s' := AdvanceStep(s, x, At(s, x)).value;
    var a := At(s, x).a;
    assert PcOk(s, x) && AssocOk(s, a);
    forall y | y != x ensures Foreign(s, s', a, y) { assert PcOk(s, y); }
    AssocStep(s, s', x, a);
  }

  /** Pushing links the new waiter to the old list. */
  lemma PushLinks(s: State, s': State, w: Waiter)
    requires NoDup(s.chain) && Linked(s.next, s.chain) && w !in s.chain
    requires s'.chain == [w] + s.chain && s'.next == s.next[w := PtrOf(s.chain)]
    ensures NoDup(s'.chain) && Linked(s'.next, s'.chain)
  {
    LinkedPushed(s.next, s.chain, w);
  }

  lemma LastDisassociateKeepsActs(s: State, s': State, x: Act, a: Assoc)
    requires Inv(s) && LifeOf(s, a) == Releasing(x) && s.drainer.NoDrainer?
    requires s' == Go(SetLife(s, a, Released), x, Exchange).(word := s'.word, held := s'.held, drainer := AtExchange(x))
    ensures ActsOk(s')
  {
    forall y ensures PcOk(s', y) {
      assert PcOk(s, y);
      if y != x { AloneOnAssoc(s, x, a, y); Bystander(s, s', Some(a), None, y); }
    }
  }

  /** The disassociation that ends the join. */
  lemma KeepsLastDisassociate(s: State, x: Act)
    requires Inv(s) && WinStep(s, x, At(s, x)).Some? && At(s, x).DTry? && IsJoined(Disassociated(s.word))
    ensures Inv(WinStep(s, x, At(s, x)).value)
  {
    var s' := WinStep(s, x, At(s, x)).value;
    var a := At(s, x).a;
    assert PcOk(s, x) && AssocOk(s, a);
    WordOkAfterDisassociate(s.word);
    LastDisassociateKeepsActs(s, s', x, a);
    assert Linked(s'.next, s'.chain);
    forall c ensures AssocOk(s', c) { assert AssocOk(s, c); }
    forall w ensures JoinOk(s', w) { assert JoinOk(s, w); }
  }

  lemma KeepsExchange(s: State, x: Act)
    requires Inv(s) && AdvanceStep(s, x, At(s, x)).Some? && At(s, x).Exchange?
    ensures Inv(AdvanceStep(s, x, At(s, x)).value)
  {
    var s' := AdvanceStep(s, x, At(s, x)).value;
    assert PcOk(s, x);
    assert Linked(s'.next, s'.chain);
    forall y ensures PcOk(s', y) { assert PcOk(s, y); }
    forall c ensures AssocOk(s', c) { assert AssocOk(s, c); }
    forall w ensures JoinOk(s', w) { assert JoinOk(s, w); }
  }

  lemma KeepsWalk(s: State, x: Act)
    requires Inv(s) && AdvanceStep(s, x, At(s, x)).Some? && At(s, x).Walk?
    ensures Inv(AdvanceStep(s, x, At(s, x)).value)
  {
    assert PcOk(s, x);
    if s.chain != [] { PcOnly(s, x, Fire(s.chain[0], NextOf(s, s.chain[0]))); }
    else { KeepsWalkEnd(s, x); }
  }

  lemma KeepsWalkEnd(s: State, x: Act)
    requires Inv(s) && At(s, x) == Walk(Nil) && s.chain == []
    ensures Inv(Go(s.(drainer := Drained), x, Idle))
  {
    var s' := Go(s.(drainer := Drained), x, Idle);
    assert PcOk(s, x);
    forall y ensures PcOk(s', y) { assert PcOk(s, y); }
    forall c ensures AssocOk(s', c) { assert AssocOk(s, c); }
    forall w ensures JoinOk(s', w) { assert JoinOk(s, w); }
  }

  lemma FireKeepsActs(s: State, s': State, x: Act, w: Waiter, list: Ptr)
    requires Inv(s) && At(s, x) == Fire(w, list) && s.chain != []
    requires s' == Go(CompleteJoin(s, w), x, Walk(list)).(chain := s.chain[1..])
    ensures ActsOk(s')
  {
    assert PcOk(s, x) && JoinOk(s, w);
    forall y ensures PcOk(s', y) {
      assert PcOk(s, y);
      if y != x { Bystander(s, s', None, Some(w), y); }
    }
  }

  lemma FireKeepsJoins(s: State, s': State, x: Act, w: Waiter, list: Ptr)
    requires Inv(s) && At(s, x) == Fire(w, list) && s.chain != [] && s.chain[0] == w
    requires s' == Go(CompleteJoin(s, w), x, Walk(list)).(chain := s.chain[1..])
    ensures JoinsOk(s')
  {
    assert PcOk(s, x);
    assert s.chain == [w] + s'.chain;
    forall v ensures JoinOk(s', v) { assert JoinOk(s, v); }
  }

  lemma KeepsFire(s: State, x: Act)
    requires Inv(s) && AdvanceStep(s, x, At(s, x)).Some? && At(s, x).Fire?
    ensures Inv(AdvanceStep(s, x, At(s, x)).value)
  {
    var s' := AdvanceStep(s, x, At(s, x)).value;
    var w, list := At(s, x).w, At(s, x).list;
    assert PcOk(s, x);
    FireKeepsActs(s, s', x, w, list);
    FireKeepsJoins(s, s', x, w, list);
    LinkedTail(s.next, s.chain);
    forall c ensures AssocOk(s', c) { assert AssocOk(s, c); }
  }

  lemma KeepsCas(s: State, x: Act)
    requires Inv(s) && WinStep(s, x, At(s, x)).Some?
    ensures Inv(WinStep(s, x, At(s, x)).value)
  {
    match At(s, x)
    case ATry(_, _) => KeepsAssociate(s, x);
    case DTry(_, _) =>
      if IsJoined(Disassociated(s.word)) { KeepsLastDisassociate(s, x); } else { KeepsDisassociate(s, x); }
    case JTry(_, _) => if CountOf(s.word) == 0 { KeepsJoinInline(s, x); } else { KeepsJoinRunning(s, x); }
    case _ => KeepsPush(s, x);
  }

  lemma KeepsAdvance(s: State, x: Act)
    requires Inv(s) && AdvanceStep(s, x, At(s, x)).Some?
    ensures Inv(AdvanceStep(s, x, At(s, x)).value)
  {
    match At(s, x)
    case Exchange => KeepsExchange(s, x);
    case Walk(_) => KeepsWalk(s, x);
    case Fire(_, _) => KeepsFire(s, x);
    case SStart(_) => KeepsSStart(s, x);
    case SReturn(_) => KeepsSReturn(s, x);
    case SComplete(_) => KeepsSComplete(s, x);
    case SFinish(a) => if LifeOf(s, a).Engaged? { KeepsFinish(s, x); } else { KeepsFinishRejected(s, x); }
    case _ =>
  }

  lemma Keeps(s: State, st: Step)
    requires Inv(s) && Next(s, st).Some?
    ensures Inv(Next(s, st).value)
  {
    match st
    case CallAssociate(x, a) => KeepsCallAssociate(s, x, a);
    case CallSpawn(x, a) => KeepsCallSpawn(s, x, a);
    case CallReset(x, a) => KeepsCallReset(s, x, a);
    case CallJoin(x, w) => KeepsCallJoin(s, x, w);
    case CallClose(x) => KeepsClose(s);
    case ChildCompletes(x, a) => KeepsChildCompletes(s, x, a);
    case Load(x) => KeepsLoad(s, x);
    case CasFail(x) => if At(s, x).RTry? { KeepsFailPush(s, x, At(s, x).w, At(s, x).seen); } else { KeepsFail(s, x); }
    case CasWin(x) => KeepsCas(s, x);
    case GiveUp(x) => if At(s, x).ATry? { KeepsRefuse(s, x); } else { KeepsSentinel(s, x); }
    case Advance(x) => KeepsAdvance(s, x);
  }

  /** The states some run of some activations reaches. */
  ghost predicate Reachable(s: State) {
    exists steps: seq<Step> :: Exec(Next, INIT, steps) == Some(s)
  }

  lemma InvHolds(s: State)
    requires Reachable(s)
    ensures Inv(s)
  {
    var steps: seq<Step> :| Exec(Next, INIT, steps) == Some(s);
    assert WordOk(0);
    assert Inv(INIT);
    forall x, st | Inv(x) && Next(x, st).Some? ensures Inv(Next(x, st).value) { Keeps(x, st); }
    Preserved(Next, x => Inv(x), INIT, steps);
  }
}
