/** What each call on a scope has done when its activation is idle again: close closes, nothing is refused on an open
    scope, and every activation gets to its end. */
module ScopeCalls {
  import opened Links
  import opened Lists
  import opened Runs
  import opened ScopeWord
  import opened Scope
  import opened ScopeInv
  import opened ScopeTheorems

  // ---------- close

  lemma ClosedByCas(s: State, x: Act)
    requires Inv(s) && Next(s, CasWin(x)).Some? && IsClosed(s.word)
    ensures IsClosed(Next(s, CasWin(x)).value.word)
    ensures !At(s, x).ATry?
  {
    match At(s, x)
    case DTry(a, _) => DisassociatedClosed(s.word);
    case _ =>
  }

  lemma DisassociatedClosed(w: nat)
    requires WordOk(w) && CountOf(w) > 0 && IsClosed(w)
    ensures IsClosed(Disassociated(w))
  {
    DisassociatedRefines(w);
  }

  /** Once closed, always closed. */
  lemma ClosedStays(s: State, st: Step)
    requires Inv(s) && Next(s, st).Some? && IsClosed(s.word)
    ensures IsClosed(Next(s, st).value.word)
  {
    if st.CasWin? { ClosedByCas(s, st.x); }
    else if !st.CallClose? { WordElsewhere(s, st); }
  }

  // ---------- how an association, a spawn and a join move

  /** What one step may do to the life of an association. */
  predicate LifeMoves(l: Life, l': Life, open: bool) {
    || l' == l
    || (l.Unknown? && l'.Trying?)
    || (l.Trying? && (l'.Refused? || (l'.Engaged? && open)))
    || (l.Engaged? && l'.Releasing?)
    || (l.Releasing? && l'.Released?)
  }

  lemma LifeByWin(s: State, x: Act, pc: Pc, a: Assoc)
    requires ActOk(s, x, pc) && WinStep(s, x, pc).Some?
    ensures LifeMoves(LifeOf(s, a), LifeOf(WinStep(s, x, pc).value, a), !IsClosed(s.word))
    ensures LifeOf(WinStep(s, x, pc).value, a).Refused? ==> LifeOf(s, a).Refused?
  {
    match pc
    case ATry(_, _) =>
    case DTry(_, _) =>
    case JTry(_, _) =>
    case RTry(_, _) =>
  }

  lemma LifeByGiveUp(s: State, x: Act, pc: Pc, a: Assoc)
    requires ActOk(s, x, pc) && GiveUpStep(s, x, pc).Some?
    ensures LifeMoves(LifeOf(s, a), LifeOf(GiveUpStep(s, x, pc).value, a), false)
    ensures LifeOf(GiveUpStep(s, x, pc).value, a).Refused? && !LifeOf(s, a).Refused? ==>
              pc.ATry? && pc.a == a && (IsClosed(pc.bits) || CountOf(pc.bits) == MAX_ASSOCIATIONS)
  {
    match pc
    case ATry(_, _) =>
    case RTry(_, _) =>
  }

  lemma LifeByAdvance(s: State, x: Act, pc: Pc, a: Assoc)
    requires ActOk(s, x, pc) && AdvanceStep(s, x, pc).Some?
    ensures LifeMoves(LifeOf(s, a), LifeOf(AdvanceStep(s, x, pc).value, a), false)
    ensures LifeOf(AdvanceStep(s, x, pc).value, a).Refused? ==> LifeOf(s, a).Refused?
  {
    match pc
    case SFinish(_) =>
    case _ => LifeKeptByAdvance(s, x, pc, a);
  }

  lemma LifeKeptByAdvance(s: State, x: Act, pc: Pc, a: Assoc)
    requires AdvanceStep(s, x, pc).Some? && !pc.SFinish?
    ensures LifeOf(AdvanceStep(s, x, pc).value, a) == LifeOf(s, a)
  {
  }

  lemma LifeElsewhere(s: State, st: Step, a: Assoc)
    requires (st.Load? || st.CasFail? || st.CallJoin? || st.CallClose? || st.ChildCompletes?) && Next(s, st).Some?
    ensures LifeOf(Next(s, st).value, a) == LifeOf(s, a)
  {
    match st
    case Load(x) => LifeByLoad(s, x, At(s, x), a);
    case CasFail(x) => LifeByFail(s, x, At(s, x), a);
    case _ =>
  }

  lemma LifeByLoad(s: State, x: Act, pc: Pc, a: Assoc)
    requires LoadStep(s, x, pc).Some?
    ensures LifeOf(LoadStep(s, x, pc).value, a) == LifeOf(s, a)
  {
  }

  lemma LifeByFail(s: State, x: Act, pc: Pc, a: Assoc)
    requires FailStep(s, x, pc).Some?
    ensures LifeOf(FailStep(s, x, pc).value, a) == LifeOf(s, a)
  {
  }

  /** An association is engaged only while the scope is open, and then never again. */
  lemma LifeStep(s: State, st: Step, a: Assoc)
    requires Inv(s) && Next(s, st).Some?
    ensures LifeMoves(LifeOf(s, a), LifeOf(Next(s, st).value, a), !IsClosed(s.word))
  {
    match st
    case CallAssociate(_, _) =>
    case CallSpawn(_, _) =>
    case CallReset(_, _) =>
    case CasWin(x) => assert PcOk(s, x); LifeByWin(s, x, At(s, x), a);
    case GiveUp(x) => assert PcOk(s, x); LifeByGiveUp(s, x, At(s, x), a);
    case Advance(x) => assert PcOk(s, x); LifeByAdvance(s, x, At(s, x), a);
    case _ => LifeElsewhere(s, st, a);
  }

  predicate NeverEngaged(l: Life) { l.Unknown? || l.Trying? || l.Refused? }

  /** What a run from a closed scope makes of an association that was at `l`. */
  predicate ShutOut(l: Life, l': Life) { NeverEngaged(l) ==> NeverEngaged(l') && (l'.Unknown? ==> l.Unknown?) }

  /** After close, in every run, the scope is closed; no association is engaged that was not when close was called; an
      attempt under way ends refused, and a spawn that was not accepted never starts its child. */
  lemma CloseCloses(s: State, x: Act, steps: seq<Step>, a: Assoc)
    requires Reachable(s) && Next(s, CallClose(x)).Some? && Exec(Next, Next(s, CallClose(x)).value, steps).Some?
    ensures var s' := Exec(Next, Next(s, CallClose(x)).value, steps).value;
            && IsClosed(s'.word)
            && (LifeOf(s', a).Engaged? ==> LifeOf(s, a).Engaged?)
            && (LifeOf(s, a).Trying? && (forall y :: At(s', y).Idle?) ==> LifeOf(s', a).Refused?)
            && (NeverEngaged(LifeOf(s, a)) && IsSpawn(s', a) ==> !s'.spawns[a].childStarted)
  {
    InvHolds(s);
    var s1 := Next(s, CallClose(x)).value;
    Keeps(s, CallClose(x));
    OrClosedIsLocal(s.word);
    StaysShut(s1, steps, a);
    var s' := Exec(Next, s1, steps).value;
    assert AssocOk(s', a);
  }

  lemma StaysShut(s: State, steps: seq<Step>, a: Assoc)
    requires Inv(s) && IsClosed(s.word) && Exec(Next, s, steps).Some?
    ensures var s' := Exec(Next, s, steps).value;
            && Inv(s') && IsClosed(s'.word) && ShutOut(LifeOf(s, a), LifeOf(s', a))
            && (LifeOf(s', a).Engaged? ==> LifeOf(s, a).Engaged?)
  {
    var l := LifeOf(s, a);
    var shut := (y: State) =>
      Inv(y) && IsClosed(y.word) && ShutOut(l, LifeOf(y, a)) && (LifeOf(y, a).Engaged? ==> l.Engaged?);
    forall y, st | shut(y) && Next(y, st).Some? ensures shut(Next(y, st).value) {
      Keeps(y, st);
      ClosedStays(y, st);
      LifeStep(y, st, a);
    }
    Preserved(Next, shut, s, steps);
  }

  // ---------- an open scope refuses nobody

  /** The steps of a run during which the scope is neither closed nor full. */
  function OpenNext(s: State, st: Step): Option<State> {
    if IsClosed(s.word) || CountOf(s.word) == MAX_ASSOCIATIONS then None else Next(s, st)
  }

  /** Nobody trying to engage `a` has seen the scope closed or full. */
  ghost predicate Welcome(s: State, a: Assoc) {
    && !LifeOf(s, a).Refused?
    && forall x :: At(s, x).ATry? && At(s, x).a == a ==>
         !IsClosed(At(s, x).bits) && CountOf(At(s, x).bits) != MAX_ASSOCIATIONS
  }

  lemma StaysWelcome(s: State, st: Step, a: Assoc)
    requires Inv(s) && Welcome(s, a) && OpenNext(s, st).Some?
    ensures Welcome(Next(s, st).value, a)
  {
    var s' := Next(s, st).value;
    forall y | At(s', y).ATry? && At(s', y).a == a
      ensures !IsClosed(At(s', y).bits) && CountOf(At(s', y).bits) != MAX_ASSOCIATIONS
    {
      BitsAreSeen(s, st, y);
    }
    if LifeOf(s', a).Refused? { WhoIsRefused(s, st, a); }
  }

  /** A step moves the program counter of its own activation, and only a load or a failed exchange leads to an
      attempt. */
  ghost predicate MovesAlone(s: State, s': State, x: Act) {
    (forall y :: y != x ==> At(s', y) == At(s, y)) && !At(s', x).ATry?
  }

  lemma WinMoves(s: State, x: Act, pc: Pc)
    requires WinStep(s, x, pc).Some?
    ensures MovesAlone(s, WinStep(s, x, pc).value, x)
  {
  }

  lemma GiveUpMoves(s: State, x: Act, pc: Pc)
    requires GiveUpStep(s, x, pc).Some?
    ensures MovesAlone(s, GiveUpStep(s, x, pc).value, x)
  {
  }

  lemma AdvanceMoves(s: State, x: Act, pc: Pc)
    requires AdvanceStep(s, x, pc).Some?
    ensures MovesAlone(s, AdvanceStep(s, x, pc).value, x)
  {
  }

  /** What an attempt compares with is what it saw before, or the word as it is now. */
  lemma BitsAreSeen(s: State, st: Step, y: Act)
    requires Next(s, st).Some? && At(Next(s, st).value, y).ATry?
    ensures At(Next(s, st).value, y) == At(s, y) ||
            ((At(s, y).ALoad? || At(s, y).ATry?) && At(Next(s, st).value, y) == ATry(At(s, y).a, s.word))
  {
    match st
    case CasWin(x) => WinMoves(s, x, At(s, x));
    case GiveUp(x) => GiveUpMoves(s, x, At(s, x));
    case Advance(x) => AdvanceMoves(s, x, At(s, x));
    case Load(x) => BitsAreLoaded(s, x, At(s, x), y);
    case CasFail(x) => BitsAreReloaded(s, x, At(s, x), y);
    case _ =>
  }

  lemma BitsAreLoaded(s: State, x: Act, pc: Pc, y: Act)
    requires LoadStep(s, x, pc).Some? && pc == At(s, x)
    ensures var pc' := At(LoadStep(s, x, pc).value, y);
            pc'.ATry? ==> pc' == At(s, y) || (At(s, y).ALoad? && pc' == ATry(At(s, y).a, s.word))
  {
  }

  lemma BitsAreReloaded(s: State, x: Act, pc: Pc, y: Act)
    requires FailStep(s, x, pc).Some? && pc == At(s, x)
    ensures var pc' := At(FailStep(s, x, pc).value, y);
            pc'.ATry? ==> pc' == At(s, y) || (At(s, y).ATry? && pc' == ATry(At(s, y).a, s.word))
  {
  }

  /** Only an attempt that has seen the scope closed or full ends refused. */
  lemma WhoIsRefused(s: State, st: Step, a: Assoc)
    requires Inv(s) && Next(s, st).Some? && LifeOf(Next(s, st).value, a).Refused? && !LifeOf(s, a).Refused?
    ensures st.GiveUp? && At(s, st.x).ATry? && At(s, st.x).a == a
    ensures IsClosed(At(s, st.x).bits) || CountOf(At(s, st.x).bits) == MAX_ASSOCIATIONS
  {
    match st
    case CasWin(x) => assert PcOk(s, x); LifeByWin(s, x, At(s, x), a);
    case GiveUp(x) => assert PcOk(s, x); LifeByGiveUp(s, x, At(s, x), a);
    case Advance(x) => assert PcOk(s, x); LifeByAdvance(s, x, At(s, x), a);
    case CallAssociate(_, _) => CallRefusesNobody(s, st, a);
    case CallSpawn(_, _) => CallRefusesNobody(s, st, a);
    case CallReset(_, _) => CallRefusesNobody(s, st, a);
    case _ => LifeElsewhere(s, st, a);
  }

  lemma CallRefusesNobody(s: State, st: Step, a: Assoc)
    requires Next(s, st).Some? && (st.CallAssociate? || st.CallSpawn? || st.CallReset?)
    ensures LifeOf(Next(s, st).value, a).Refused? ==> LifeOf(s, a).Refused?
  {
  }

  /** In a run during which the scope is neither closed nor full, no association is refused, however often its
      compare-exchange fails. */
  lemma OpenRefusesNobody(s: State, steps: seq<Step>, a: Assoc)
    requires Reachable(s) && LifeOf(s, a).Unknown? && Exec(OpenNext, s, steps).Some?
    ensures !LifeOf(Exec(OpenNext, s, steps).value, a).Refused?
  {
    InvHolds(s);
    forall x ensures !(At(s, x).ATry? && At(s, x).a == a) { assert PcOk(s, x); }
    var welcome := (y: State) => Inv(y) && Welcome(y, a);
    forall y, st | welcome(y) && OpenNext(y, st).Some? ensures welcome(OpenNext(y, st).value) {
      Keeps(y, st);
      StaysWelcome(y, st, a);
    }
    Preserved(OpenNext, welcome, s, steps);
  }

  // ---------- what a call has done when its activation is idle again

  predicate JoinMoves(j: Join, j': Join) {
    || j' == j
    || (j.NotStarted? && j'.Starting?)
    || (j.Starting? && (j'.Done? || j' == Registering(j.act)))
    || (j.Registering? && (j'.Done? || j'.Pending?))
    || (j.Pending? && j'.Done?)
  }

  lemma JoinByWin(s: State, x: Act, pc: Pc, w: Waiter)
    requires ActOk(s, x, pc) && WinStep(s, x, pc).Some?
    ensures JoinMoves(JoinOf(s, w), JoinOf(WinStep(s, x, pc).value, w))
  {
    if pc.ATry? || pc.DTry? { JoinKeptByWin(s, x, pc, w); }
  }

  lemma JoinKeptByWin(s: State, x: Act, pc: Pc, w: Waiter)
    requires WinStep(s, x, pc).Some? && (pc.ATry? || pc.DTry?)
    ensures JoinOf(WinStep(s, x, pc).value, w) == JoinOf(s, w)
  {
  }

  lemma JoinByGiveUp(s: State, x: Act, pc: Pc, w: Waiter)
    requires ActOk(s, x, pc) && GiveUpStep(s, x, pc).Some?
    ensures JoinMoves(JoinOf(s, w), JoinOf(GiveUpStep(s, x, pc).value, w))
  {
  }

  lemma JoinByAdvance(s: State, x: Act, pc: Pc, w: Waiter)
    requires Inv(s) && ActOk(s, x, pc) && AdvanceStep(s, x, pc).Some?
    ensures JoinMoves(JoinOf(s, w), JoinOf(AdvanceStep(s, x, pc).value, w))
  {
    match pc
    case Fire(v, _) => assert JoinOk(s, v);
    case _ => JoinKeptByAdvance(s, x, pc, w);
  }

  lemma JoinKeptByAdvance(s: State, x: Act, pc: Pc, w: Waiter)
    requires AdvanceStep(s, x, pc).Some? && !pc.Fire?
    ensures JoinOf(AdvanceStep(s, x, pc).value, w) == JoinOf(s, w)
  {
  }

  lemma JoinElsewhere(s: State, st: Step, w: Waiter)
    requires !st.CasWin? && !st.GiveUp? && !st.Advance? && !st.CallJoin? && Next(s, st).Some?
    ensures JoinOf(Next(s, st).value, w) == JoinOf(s, w)
  {
    match st
    case Load(x) => JoinByLoad(s, x, At(s, x), w);
    case CasFail(x) => JoinByFail(s, x, At(s, x), w);
    case _ =>
  }

  lemma JoinByLoad(s: State, x: Act, pc: Pc, w: Waiter)
    requires LoadStep(s, x, pc).Some?
    ensures JoinOf(LoadStep(s, x, pc).value, w) == JoinOf(s, w)
  {
  }

  lemma JoinByFail(s: State, x: Act, pc: Pc, w: Waiter)
    requires FailStep(s, x, pc).Some?
    ensures JoinOf(FailStep(s, x, pc).value, w) == JoinOf(s, w)
  {
  }

  lemma JoinStepMoves(s: State, st: Step, w: Waiter)
    requires Inv(s) && Next(s, st).Some?
    ensures JoinMoves(JoinOf(s, w), JoinOf(Next(s, st).value, w))
  {
    match st
    case CallJoin(_, _) =>
    case CasWin(x) => assert PcOk(s, x); JoinByWin(s, x, At(s, x), w);
    case GiveUp(x) => assert PcOk(s, x); JoinByGiveUp(s, x, At(s, x), w);
    case Advance(x) => assert PcOk(s, x); JoinByAdvance(s, x, At(s, x), w);
    case _ => JoinElsewhere(s, st, w);
  }

  /** What a call of activation `x` has done, or is still doing. */
  ghost predicate Under(s: State, call: Step) {
    match call
    case CallAssociate(x, a) => LifeOf(s, a) == Trying(x) || !NeverEngaged(LifeOf(s, a)) || LifeOf(s, a).Refused?
    case CallReset(x, a) => LifeOf(s, a) == Releasing(x) || LifeOf(s, a).Released?
    case CallJoin(x, w) =>
      var j := JoinOf(s, w); j == Starting(x) || j == Registering(x) || j.Pending? || j.Done?
    case CallClose(_) => IsClosed(s.word)
    case _ => true
  }

  /** What it has done when the activation is idle. */
  ghost predicate Done(s: State, call: Step) {
    match call
    case CallAssociate(x, a) => LifeOf(s, a).Refused? || !NeverEngaged(LifeOf(s, a))
    case CallReset(x, a) => LifeOf(s, a).Released? && a !in s.held
    case CallJoin(x, w) => JoinOf(s, w).Pending? || JoinOf(s, w).Done?
    case CallClose(_) => IsClosed(s.word)
    case _ => true
  }

  lemma StaysUnder(s: State, call: Step, st: Step)
    requires Inv(s) && Under(s, call) && Next(s, st).Some?
    ensures Under(Next(s, st).value, call)
  {
    match call
    case CallAssociate(_, a) => LifeStep(s, st, a);
    case CallReset(_, a) => LifeStep(s, st, a);
    case CallJoin(_, w) => JoinStepMoves(s, st, w);
    case CallClose(_) => ClosedStays(s, st);
    case _ =>
  }

  lemma Begins(s: State, call: Step)
    requires Inv(s) && Next(s, call).Some?
    ensures Under(Next(s, call).value, call)
  {
    if call.CallClose? { OrClosedIsLocal(s.word); }
  }

  lemma IdleIsDone(s: State, call: Step)
    requires Inv(s) && Under(s, call) && At(s, call.x).Idle?
    ensures Done(s, call)
  {
    match call
    case CallAssociate(_, a) => assert AssocOk(s, a);
    case CallReset(_, a) => assert AssocOk(s, a);
    case CallJoin(_, w) => assert JoinOk(s, w);
    case _ =>
  }

  /** When the activation of a call is idle again, the association has been engaged or refused, the count given back,
      the join completed or its waiter registered, the scope closed. */
  lemma CallEnds(s: State, call: Step, steps: seq<Step>)
    requires Reachable(s) && Next(s, call).Some? && Exec(Next, Next(s, call).value, steps).Some?
    requires At(Exec(Next, Next(s, call).value, steps).value, call.x).Idle?
    ensures Done(Exec(Next, Next(s, call).value, steps).value, call)
  {
    InvHolds(s);
    var s1 := Next(s, call).value;
    Keeps(s, call);
    Begins(s, call);
    var under := (y: State) => Inv(y) && Under(y, call);
    forall y, st | under(y) && Next(y, st).Some? ensures under(Next(y, st).value) {
      Keeps(y, st);
      StaysUnder(y, call, st);
    }
    Preserved(Next, under, s1, steps);
    IdleIsDone(Exec(Next, s1, steps).value, call);
  }

  // ---------- spawn

  /** What start of a spawn operation has done, or is still doing: the child is started, or the storage freed. */
  ghost predicate Launching(s: State, x: Act, a: Assoc) {
    && IsSpawn(s, a)
    && match LifeOf(s, a)
       case Unknown => false
       case Trying(y) => y == x
       case Refused => At(s, x) == SFinish(a) || s.spawns[a].freed
       case Engaged => At(s, x) == SStart(a) || At(s, x) == SReturn(a) || s.spawns[a].returned
       case _ => s.spawns[a].returned
  }

  lemma LaunchingByWin(s: State, y: Act, pc: Pc, x: Act, a: Assoc)
    requires Inv(s) && Launching(s, x, a) && pc == At(s, y) && WinStep(s, y, pc).Some?
    ensures Launching(WinStep(s, y, pc).value, x, a)
  {
    if pc.JTry? || pc.RTry? { JoiningOnlyMoves(s, y, pc); LaunchingKept(s, WinStep(s, y, pc).value, y, x, a); }
    else {
      assert PcOk(s, y);
      if pc.DTry? { LaunchingByRelease(s, y, pc, x, a); } else { LaunchingByEngaging(s, y, pc, x, a); }
    }
  }

  lemma LaunchingByEngaging(s: State, y: Act, pc: Pc, x: Act, a: Assoc)
    requires Launching(s, x, a) && ActOk(s, y, pc) && pc == At(s, y) && WinStep(s, y, pc).Some? && pc.ATry?
    ensures Launching(WinStep(s, y, pc).value, x, a)
  {
  }

  lemma LaunchingByRelease(s: State, y: Act, pc: Pc, x: Act, a: Assoc)
    requires Launching(s, x, a) && ActOk(s, y, pc) && pc == At(s, y) && WinStep(s, y, pc).Some? && pc.DTry?
    ensures Launching(WinStep(s, y, pc).value, x, a)
  {
  }

  lemma JoiningOnlyMoves(s: State, y: Act, pc: Pc)
    requires WinStep(s, y, pc).Some? && (pc.JTry? || pc.RTry?)
    ensures OnlyMoves(s, WinStep(s, y, pc).value, y, pc)
  {
    match pc
    case JTry(_, _) =>
    case RTry(_, _) =>
  }

  lemma LaunchingByGiveUp(s: State, y: Act, pc: Pc, x: Act, a: Assoc)
    requires Inv(s) && Launching(s, x, a) && pc == At(s, y) && GiveUpStep(s, y, pc).Some?
    ensures Launching(GiveUpStep(s, y, pc).value, x, a)
  {
    assert PcOk(s, y);
  }

  lemma LaunchingByAdvance(s: State, y: Act, pc: Pc, x: Act, a: Assoc)
    requires Inv(s) && Launching(s, x, a) && pc == At(s, y) && AdvanceStep(s, y, pc).Some?
    ensures Launching(AdvanceStep(s, y, pc).value, x, a)
  {
    assert PcOk(s, y) && AssocOk(s, a);
    if pc.Exchange? || pc.Walk? || pc.Fire? {
      DrainOnlyMoves(s, y, pc);
      LaunchingKept(s, AdvanceStep(s, y, pc).value, y, x, a);
    }
  }

  lemma DrainOnlyMoves(s: State, y: Act, pc: Pc)
    requires AdvanceStep(s, y, pc).Some? && (pc.Exchange? || pc.Walk? || pc.Fire?)
    ensures OnlyMoves(s, AdvanceStep(s, y, pc).value, y, pc)
  {
  }

  lemma StaysLaunching(s: State, st: Step, x: Act, a: Assoc)
    requires Inv(s) && Launching(s, x, a) && Next(s, st).Some?
    ensures Launching(Next(s, st).value, x, a)
  {
    match st
    case CasWin(y) => LaunchingByWin(s, y, At(s, y), x, a);
    case GiveUp(y) => LaunchingByGiveUp(s, y, At(s, y), x, a);
    case Advance(y) => LaunchingByAdvance(s, y, At(s, y), x, a);
    case _ => LaunchingElsewhere(s, st, x, a);
  }

  /** A load or a failed exchange moves nothing but its own program counter. */
  ghost predicate OnlyMoves(s: State, s': State, y: Act, pc: Pc) {
    && s'.assocs == s.assocs && s'.spawns == s.spawns && (forall z :: z != y ==> At(s', z) == At(s, z))
    && !pc.SStart? && !pc.SReturn? && !pc.SFinish? && !pc.SComplete?
  }

  lemma LoadOnlyMoves(s: State, y: Act, pc: Pc)
    requires LoadStep(s, y, pc).Some?
    ensures OnlyMoves(s, LoadStep(s, y, pc).value, y, pc)
  {
  }

  lemma FailOnlyMoves(s: State, y: Act, pc: Pc)
    requires FailStep(s, y, pc).Some?
    ensures OnlyMoves(s, FailStep(s, y, pc).value, y, pc)
  {
  }

  lemma LaunchingKept(s: State, s': State, y: Act, x: Act, a: Assoc)
    requires Launching(s, x, a) && OnlyMoves(s, s', y, At(s, y))
    ensures Launching(s', x, a)
  {
  }

  lemma LaunchingElsewhere(s: State, st: Step, x: Act, a: Assoc)
    requires Inv(s) && Launching(s, x, a) && Next(s, st).Some? && !st.CasWin? && !st.GiveUp? && !st.Advance?
    ensures Launching(Next(s, st).value, x, a)
  {
    match st
    case Load(y) => LoadOnlyMoves(s, y, At(s, y)); LaunchingKept(s, Next(s, st).value, y, x, a);
    case CasFail(y) => FailOnlyMoves(s, y, At(s, y)); LaunchingKept(s, Next(s, st).value, y, x, a);
    case CallReset(_, _) => assert AssocOk(s, a);
    case ChildCompletes(_, _) =>
    case CallAssociate(_, _) =>
    case CallSpawn(_, _) =>
    case _ =>
  }

  /** When start of a spawn operation has returned, it has started the child and recorded that, or it was refused and
      has freed the storage without. */
  lemma SpawnEnds(s: State, x: Act, a: Assoc, steps: seq<Step>)
    requires Reachable(s) && Next(s, CallSpawn(x, a)).Some?
    requires Exec(Next, Next(s, CallSpawn(x, a)).value, steps).Some?
    requires At(Exec(Next, Next(s, CallSpawn(x, a)).value, steps).value, x).Idle?
    ensures var s' := Exec(Next, Next(s, CallSpawn(x, a)).value, steps).value;
            && IsSpawn(s', a)
            && (if LifeOf(s', a).Refused? then s'.spawns[a].freed && !s'.spawns[a].childStarted
                else s'.spawns[a].childStarted && s'.spawns[a].returned)
  {
    InvHolds(s);
    var s1 := Next(s, CallSpawn(x, a)).value;
    Keeps(s, CallSpawn(x, a));
    var starting := (y: State) => Inv(y) && Launching(y, x, a);
    forall y, st | starting(y) && Next(y, st).Some? ensures starting(Next(y, st).value) {
      Keeps(y, st);
      StaysLaunching(y, st, x, a);
    }
    Preserved(Next, starting, s1, steps);
    assert AssocOk(Exec(Next, s1, steps).value, a);
  }

  /** The completion of a spawned child is under way, or recorded. */
  ghost predicate Completing(s: State, x: Act, a: Assoc) {
    && IsSpawn(s, a) && !LifeOf(s, a).Unknown? && s.spawns[a].completing
    && (At(s, x) == SComplete(a) || s.spawns[a].completed)
  }

  lemma CompletingKept(s: State, s': State, y: Act, x: Act, a: Assoc)
    requires Completing(s, x, a) && OnlyMoves(s, s', y, At(s, y))
    ensures Completing(s', x, a)
  {
  }

  lemma CompletingByWin(s: State, y: Act, pc: Pc, x: Act, a: Assoc)
    requires Inv(s) && Completing(s, x, a) && pc == At(s, y) && WinStep(s, y, pc).Some?
    ensures Completing(WinStep(s, y, pc).value, x, a)
  {
    if pc.JTry? || pc.RTry? { JoiningOnlyMoves(s, y, pc); CompletingKept(s, WinStep(s, y, pc).value, y, x, a); }
  }

  lemma CompletingByAdvance(s: State, y: Act, pc: Pc, x: Act, a: Assoc)
    requires Inv(s) && Completing(s, x, a) && pc == At(s, y) && AdvanceStep(s, y, pc).Some?
    ensures Completing(AdvanceStep(s, y, pc).value, x, a)
  {
    if pc.Exchange? || pc.Walk? || pc.Fire? {
      DrainOnlyMoves(s, y, pc);
      CompletingKept(s, AdvanceStep(s, y, pc).value, y, x, a);
    }
  }

  lemma StaysCompleting(s: State, st: Step, x: Act, a: Assoc)
    requires Inv(s) && Completing(s, x, a) && Next(s, st).Some?
    ensures Completing(Next(s, st).value, x, a)
  {
    match st
    case Load(y) => LoadOnlyMoves(s, y, At(s, y)); CompletingKept(s, Next(s, st).value, y, x, a);
    case CasFail(y) => FailOnlyMoves(s, y, At(s, y)); CompletingKept(s, Next(s, st).value, y, x, a);
    case CasWin(y) => CompletingByWin(s, y, At(s, y), x, a);
    case Advance(y) => CompletingByAdvance(s, y, At(s, y), x, a);
    case _ => CompletingElsewhere(s, st, x, a);
  }

  lemma CompletingElsewhere(s: State, st: Step, x: Act, a: Assoc)
    requires Inv(s) && Completing(s, x, a) && Next(s, st).Some?
    requires !st.Load? && !st.CasFail? && !st.CasWin? && !st.Advance?
    ensures Completing(Next(s, st).value, x, a)
  {
    assert AssocOk(s, a);
    match st
    case GiveUp(y) => CompletingByGiveUp(s, y, At(s, y), x, a);
    case _ =>
  }

  lemma CompletingByGiveUp(s: State, y: Act, pc: Pc, x: Act, a: Assoc)
    requires Completing(s, x, a) && pc == At(s, y) && GiveUpStep(s, y, pc).Some?
    ensures Completing(GiveUpStep(s, y, pc).value, x, a)
  {
  }

  /** When the completion of a spawned child has returned, the spawn is completed. */
  lemma ChildEnds(s: State, x: Act, a: Assoc, steps: seq<Step>)
    requires Reachable(s) && Next(s, ChildCompletes(x, a)).Some?
    requires Exec(Next, Next(s, ChildCompletes(x, a)).value, steps).Some?
    requires At(Exec(Next, Next(s, ChildCompletes(x, a)).value, steps).value, x).Idle?
    ensures var s' := Exec(Next, Next(s, ChildCompletes(x, a)).value, steps).value;
            IsSpawn(s', a) && s'.spawns[a].completed
  {
    InvHolds(s);
    var s1 := Next(s, ChildCompletes(x, a)).value;
    Keeps(s, ChildCompletes(x, a));
    assert AssocOk(s1, a);
    CompletingInRun(s1, x, a, steps);
  }

  lemma CompletingInRun(s: State, x: Act, a: Assoc, steps: seq<Step>)
    requires Inv(s) && Completing(s, x, a) && Exec(Next, s, steps).Some?
    ensures Completing(Exec(Next, s, steps).value, x, a)
  {
    var completing := (y: State) => Inv(y) && Completing(y, x, a);
    forall y, st | completing(y) && Next(y, st).Some? ensures completing(Next(y, st).value) {
      Keeps(y, st);
      StaysCompleting(y, st, x, a);
    }
    Preserved(Next, completing, s, steps);
  }

  /** After the second of the two arrivals somebody is at finish. */
  ghost predicate Owned(s: State, a: Assoc) {
    IsSpawn(s, a) && LifeOf(s, a).Engaged? && s.spawns[a].returned && s.spawns[a].completed ==>
      s.spawns[a].finisher.Some? && At(s, s.spawns[a].finisher.value) == SFinish(a)
  }

  lemma OwnedKept(s: State, s': State, y: Act, a: Assoc)
    requires Owned(s, a) && OnlyMoves(s, s', y, At(s, y))
    ensures Owned(s', a)
  {
  }

  lemma OwnedByWin(s: State, y: Act, pc: Pc, a: Assoc)
    requires Inv(s) && Owned(s, a) && pc == At(s, y) && WinStep(s, y, pc).Some?
    ensures Owned(WinStep(s, y, pc).value, a)
  {
    if pc.JTry? || pc.RTry? { JoiningOnlyMoves(s, y, pc); OwnedKept(s, WinStep(s, y, pc).value, y, a); }
    else if pc.ATry? { OwnedByEngaging(s, y, pc, a); }
    else { OwnedByRelease(s, y, pc, a); }
  }

  lemma OwnedByEngaging(s: State, y: Act, pc: Pc, a: Assoc)
    requires Inv(s) && Owned(s, a) && pc == At(s, y) && WinStep(s, y, pc).Some? && pc.ATry?
    ensures Owned(WinStep(s, y, pc).value, a)
  {
    assert AssocOk(s, a) && PcOk(s, y);
  }

  lemma OwnedByRelease(s: State, y: Act, pc: Pc, a: Assoc)
    requires Owned(s, a) && pc == At(s, y) && WinStep(s, y, pc).Some? && pc.DTry?
    ensures Owned(WinStep(s, y, pc).value, a)
  {
  }

  lemma OwnedByAdvance(s: State, y: Act, pc: Pc, a: Assoc)
    requires Inv(s) && Owned(s, a) && pc == At(s, y) && AdvanceStep(s, y, pc).Some?
    ensures Owned(AdvanceStep(s, y, pc).value, a)
  {
    if pc.Exchange? || pc.Walk? || pc.Fire? {
      DrainOnlyMoves(s, y, pc);
      OwnedKept(s, AdvanceStep(s, y, pc).value, y, a);
    } else {
      assert PcOk(s, y) && AssocOk(s, a);
      OwnedByArrival(s, y, pc, a);
    }
  }

  lemma OwnedByArrival(s: State, y: Act, pc: Pc, a: Assoc)
    requires ActOk(s, y, pc) && AssocOk(s, a) && Owned(s, a) && pc == At(s, y) && AdvanceStep(s, y, pc).Some?
    requires pc.SStart? || pc.SReturn? || pc.SComplete? || pc.SFinish?
    ensures Owned(AdvanceStep(s, y, pc).value, a)
  {
  }

  lemma OwnedByGiveUp(s: State, y: Act, pc: Pc, a: Assoc)
    requires Owned(s, a) && pc == At(s, y) && GiveUpStep(s, y, pc).Some?
    ensures Owned(GiveUpStep(s, y, pc).value, a)
  {
  }

  lemma OwnedElsewhere(s: State, st: Step, a: Assoc)
    requires Owned(s, a) && Next(s, st).Some?
    requires !st.Load? && !st.CasFail? && !st.CasWin? && !st.Advance? && !st.GiveUp?
    ensures Owned(Next(s, st).value, a)
  {
  }

  lemma StaysOwned(s: State, st: Step, a: Assoc)
    requires Inv(s) && Owned(s, a) && Next(s, st).Some?
    ensures Owned(Next(s, st).value, a)
  {
    match st
    case Load(y) => LoadOnlyMoves(s, y, At(s, y)); OwnedKept(s, Next(s, st).value, y, a);
    case CasFail(y) => FailOnlyMoves(s, y, At(s, y)); OwnedKept(s, Next(s, st).value, y, a);
    case CasWin(y) => OwnedByWin(s, y, At(s, y), a);
    case GiveUp(y) => OwnedByGiveUp(s, y, At(s, y), a);
    case Advance(y) => OwnedByAdvance(s, y, At(s, y), a);
    case _ => OwnedElsewhere(s, st, a);
  }

  /** With nobody under way, a spawn whose start has returned and whose child has completed has freed its storage and
      given its count back. */
  lemma SpawnIsReleased(s: State, a: Assoc)
    requires Reachable(s) && IsSpawn(s, a) && s.spawns[a].returned && s.spawns[a].completed
    requires forall x :: At(s, x).Idle?
    ensures LifeOf(s, a).Released? && s.spawns[a].freed && a !in s.held
  {
    AlwaysOwned(s, a);
    assert AssocOk(s, a);
  }

  lemma AlwaysOwned(s: State, a: Assoc)
    requires Reachable(s)
    ensures Inv(s) && Owned(s, a)
  {
    InvHolds(s);
    var steps: seq<Step> :| Exec(Next, INIT, steps) == Some(s);
    var owned := (y: State) => Inv(y) && Owned(y, a);
    forall y, st | owned(y) && Next(y, st).Some? ensures owned(Next(y, st).value) {
      Keeps(y, st);
      StaysOwned(y, st, a);
    }
    assert Reachable(INIT) by { assert Exec(Next, INIT, []) == Some(INIT); }
    InvHolds(INIT);
    Preserved(Next, owned, INIT, steps);
  }

  // ---------- left alone, every activation gets to its end

  /** How many steps an activation has left when nobody interferes. A value seen before it changed costs a reload. */
  function Left(s: State, pc: Pc): nat {
    match pc
    case Idle => 0
    case ALoad(_) => 2 * |s.chain| + 9
    case ATry(_, bits) => 2 * |s.chain| + (if bits == s.word then 8 else 10)
    case SStart(_) => 2 * |s.chain| + 7
    case SReturn(_) => 2 * |s.chain| + 6
    case SComplete(_) => 2 * |s.chain| + 6
    case SFinish(_) => 2 * |s.chain| + 5
    case DLoad(_) => 2 * |s.chain| + 4
    case DTry(_, bits) => 2 * |s.chain| + (if bits == s.word then 3 else 5)
    case Exchange => 2 * |s.chain| + 2
    case Walk(_) => 2 * |s.chain| + 1
    case Fire(_, _) => 2 * |s.chain|
    case JLoad(_) => 5
    case JTry(_, bits) => if bits == s.word then 4 else 6
    case RLoad(_) => 2
    case RTry(_, seen) => if seen == s.head then 1 else 3
  }

  /** A step by which activation `x` goes on. */
  predicate IsOwn(st: Step, x: Act) {
    st.x == x && (st.Load? || st.CasFail? || st.CasWin? || st.GiveUp? || st.Advance?)
  }

  /** What activation `x` does when it is alone. */
  function SoloMove(s: State, x: Act): Step {
    match At(s, x)
    case ATry(_, bits) =>
      if IsClosed(bits) || CountOf(bits) == MAX_ASSOCIATIONS then GiveUp(x)
      else if bits == s.word then CasWin(x)
      else CasFail(x)
    case DTry(_, bits) => if bits == s.word then CasWin(x) else CasFail(x)
    case JTry(_, bits) => if bits == s.word then CasWin(x) else CasFail(x)
    case RTry(_, seen) => if seen.Sealed? then GiveUp(x) else if seen == s.head then CasWin(x) else CasFail(x)
    case ALoad(_) => Load(x)
    case DLoad(_) => Load(x)
    case JLoad(_) => Load(x)
    case RLoad(_) => Load(x)
    case _ => Advance(x)
  }

  lemma SoloAssociates(s: State, x: Act)
    requires At(s, x).ATry?
    ensures Next(s, SoloMove(s, x)).Some?
    ensures var s' := Next(s, SoloMove(s, x)).value; Left(s', At(s', x)) < Left(s, At(s, x))
  {
  }

  lemma HasCount(s: State, x: Act)
    requires Inv(s) && At(s, x).DTry?
    ensures CountOf(s.word) > 0
  {
    assert PcOk(s, x) && AssocOk(s, At(s, x).a);
    assert At(s, x).a in s.held;
  }

  lemma SoloReleases(s: State, x: Act)
    requires Inv(s) && At(s, x).DTry?
    ensures Next(s, SoloMove(s, x)).Some?
    ensures var s' := Next(s, SoloMove(s, x)).value; Left(s', At(s', x)) < Left(s, At(s, x))
  {
    HasCount(s, x);
    if At(s, x).bits == s.word { assert Next(s, SoloMove(s, x)) == WinStep(s, x, At(s, x)); }
    else { assert Next(s, SoloMove(s, x)) == Some(Go(s, x, DTry(At(s, x).a, s.word))); }
  }

  lemma SoloStartsJoin(s: State, x: Act)
    requires At(s, x).JTry?
    ensures Next(s, SoloMove(s, x)).Some?
    ensures var s' := Next(s, SoloMove(s, x)).value; Left(s', At(s', x)) < Left(s, At(s, x))
  {
    if At(s, x).bits != s.word { assert Next(s, SoloMove(s, x)) == Some(Go(s, x, JTry(At(s, x).w, s.word))); }
  }

  lemma SoloRegisters(s: State, x: Act)
    requires At(s, x).RTry?
    ensures Next(s, SoloMove(s, x)).Some?
    ensures var s' := Next(s, SoloMove(s, x)).value; Left(s', At(s', x)) < Left(s, At(s, x))
  {
    if !At(s, x).seen.Sealed? && At(s, x).seen != s.head {
      assert Next(s, SoloMove(s, x))
          == Some(Go(s.(next := s.next[At(s, x).w := At(s, x).seen]), x, RTry(At(s, x).w, s.head)));
    }
  }

  lemma SoloLoads(s: State, x: Act)
    requires At(s, x).ALoad? || At(s, x).DLoad? || At(s, x).JLoad? || At(s, x).RLoad?
    ensures Next(s, SoloMove(s, x)).Some?
    ensures var s' := Next(s, SoloMove(s, x)).value; Left(s', At(s', x)) < Left(s, At(s, x))
  {
  }

  lemma SoloDrains(s: State, x: Act)
    requires Inv(s) && (At(s, x).Exchange? || At(s, x).Walk? || At(s, x).Fire?)
    ensures Next(s, Advance(x)).Some?
    ensures var s' := Next(s, Advance(x)).value; Left(s', At(s', x)) < Left(s, At(s, x))
  {
    assert PcOk(s, x);
  }

  lemma SoloSpawns(s: State, x: Act)
    requires Inv(s) && (At(s, x).SStart? || At(s, x).SReturn? || At(s, x).SComplete? || At(s, x).SFinish?)
    ensures Next(s, Advance(x)).Some?
    ensures var s' := Next(s, Advance(x)).value; Left(s', At(s', x)) < Left(s, At(s, x))
  {
    assert PcOk(s, x);
  }

  lemma SoloStep(s: State, x: Act)
    requires Inv(s) && !At(s, x).Idle?
    ensures IsOwn(SoloMove(s, x), x) && Next(s, SoloMove(s, x)).Some?
    ensures var s' := Next(s, SoloMove(s, x)).value; Inv(s') && Left(s', At(s', x)) < Left(s, At(s, x))
  {
    match At(s, x) {
      case ATry(_, _) => SoloAssociates(s, x);
      case DTry(_, _) => SoloReleases(s, x);
      case JTry(_, _) => SoloStartsJoin(s, x);
      case RTry(_, _) => SoloRegisters(s, x);
      case ALoad(_) => SoloLoads(s, x);
      case DLoad(_) => SoloLoads(s, x);
      case JLoad(_) => SoloLoads(s, x);
      case RLoad(_) => SoloLoads(s, x);
      case Exchange => SoloDrains(s, x);
      case Walk(_) => SoloDrains(s, x);
      case Fire(_, _) => SoloDrains(s, x);
      case _ => SoloSpawns(s, x);
    }
    Keeps(s, SoloMove(s, x));
  }

  /** Nobody waits for anybody: an activation that is left alone is idle within the number of steps given by where it
      stands and how many waiters are linked. */
  lemma {:induction false} AloneEnds(s: State, x: Act) returns (steps: seq<Step>)
    requires Inv(s)
    ensures |steps| <= Left(s, At(s, x)) && forall st :: st in steps ==> IsOwn(st, x)
    ensures Exec(Next, s, steps).Some? && At(Exec(Next, s, steps).value, x).Idle?
    decreases Left(s, At(s, x))
  {
    if At(s, x).Idle? {
      steps := [];
    } else {
      SoloStep(s, x);
      var rest := AloneEnds(Next(s, SoloMove(s, x)).value, x);
      steps := [SoloMove(s, x)] + rest;
      assert steps[1..] == rest;
    }
  }
}
