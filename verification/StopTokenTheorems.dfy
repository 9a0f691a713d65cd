/** What inplace_stop_source promises, for any number of threads and callbacks and in every interleaving. */
module StopTokenTheorems {
  import opened Lists
  import opened Runs
  import opened StopToken
  import opened StopTokenInv

  /** At most one call holds the lock, the lock bit is set meanwhile, and no other call is above it. */
  lemma MutualExclusion(s: State, p: Pos, q: Pos)
    requires Reachable(s)
    requires Holds(At(s, p)) && Holds(At(s, q))
    ensures p == q && Locked(s.word) && p.i + 1 == Depth(s, p.t)
  {
    InvHolds(s);
    assert PosOk(s, p) && PosOk(s, q) && StackOk(s, p);
  }

  /** The lock bit is never set without a holder. */
  lemma LockedByOne(s: State)
    requires Reachable(s) && Locked(s.word)
    ensures exists p :: Holds(At(s, p))
  {
    InvHolds(s);
    assert Holds(At(s, s.owner.value));
  }

  /** A thread that runs a callback or waits for one to complete holds the lock nowhere on its stack. */
  lemma NoLockWhileRunningOrWaiting(s: State, t: Tid, p: Pos)
    requires Reachable(s) && Has(s, t)
    requires IsBody(Top(s, t)) || Top(s, t).Wait?
    ensures p.t == t ==> !Holds(At(s, p))
  {
    InvHolds(s);
    assert PosOk(s, p) && StackOk(s, p);
  }

  /** No unlock and no store of 1 loses the requested bit. */
  lemma RequestIsSticky(s: State, st: Step)
    requires Inv(s) && Next(s, st).Some?
    requires Requested(s.word)
    ensures Requested(Next(s, st).value.word)
  {
    Keeps(s, st);
    if st.Store? { DrainOnlyAdvances(s, st.t); }
  }

  lemma DrainOnlyAdvances(s: State, t: Tid)
    requires Inv(s) && Has(s, t) && Top(s, t).Release?
    ensures s.drain != Unclaimed ==> Unlock(s, t, Top(s, t).w, Top(s, t).k).drain != Unclaimed
  {
    assert PosOk(s, TopPos(s, t));
  }

  /** At most one `request_stop` ever returns true, and exactly one once all calls have returned. */
  lemma OneWinner(s: State)
    requires Reachable(s)
    ensures s.wins <= 1
    ensures Requested(s.word) && (forall t :: Depth(s, t) == 0) ==> s.wins == 1
  {
    InvHolds(s);
    if s.drain.Active? { assert StackOk(s, s.drain.at); }
  }

  /** Every callback runs at most once. A constructed one is waiting in the list, was destroyed before its turn, is
      the requester's to run and, when the winning request has returned, has been run and completed, or was run inline
      by the thread that constructed it. */
  lemma Dichotomy(s: State, r: Rec)
    requires Reachable(s)
    ensures |Get(s, r).runs| <= 1
    ensures var x := Get(s, r);
            x.own.Live? || x.own.Dtor? || x.own.Gone? ==>
              || (x.fate == InList && x.runs == [] && r in s.list)
              || (x.fate == Removed && x.runs == [] && r !in s.list && (x.own.Dtor? || x.own.Gone?))
              || (x.fate == Popped && Requested(s.word) && s.requester.Some?
                  && (x.runs == [s.requester.value]
                      || (x.runs == [] && s.drain.Active? && At(s, s.drain.at) == Release(1, Notify(r)))))
              || (x.fate == Inline && Requested(s.word) && x.runs == [x.maker])
    ensures s.wins == 1 ==>
              s.list == [] && s.requester.Some? && (Get(s, r).fate == Popped ==> Get(s, r).runs == [s.requester.value])
    ensures s.wins == 1 && Get(s, r).fate == Popped ==> Get(s, r).completed || Get(s, r).own.Gone?
  {
    InvHolds(s);
    assert RecOk(s, r);
    if s.drain.Active? { assert PosOk(s, s.drain.at); }
  }

  predicate IsPop(s: State, st: Step) { st.Work? && Has(s, st.t) && Top(s, st.t).Loop? && s.list != [] }

  lemma ListShrinksByWork(s: State, t: Tid)
    requires Inv(s) && Has(s, t) && Critical(s, t, Top(s, t)).Some? && Requested(s.word)
    ensures |Critical(s, t, Top(s, t)).value.list| + (if IsPop(s, Work(t)) then 1 else 0) <= |s.list|
  {
    assert PosOk(s, TopPos(s, t));
    if Top(s, t).Hold? && Top(s, t).g.Unregister? && Get(s, Top(s, t).g.r).linked {
      assert RecOk(s, Top(s, t).g.r);
      WithoutIs(s.list, Top(s, t).g.r);
    }
  }

  /** After the claim no push succeeds: the list only shrinks, and each pop shrinks it. */
  lemma ListShrinks(s: State, st: Step)
    requires Inv(s) && Next(s, st).Some? && Requested(s.word)
    ensures |Next(s, st).value.list| + (if IsPop(s, st) then 1 else 0) <= |s.list|
  {
    if st.Work? { ListShrinksByWork(s, st.t); }
  }

  /** How often the drain loop pops in the course of a run. */
  function Pops(s: State, steps: seq<Step>): nat
    decreases |steps|
  {
    if steps == [] || Next(s, steps[0]).None? then 0
    else
      (if IsPop(s, steps[0]) then 1 else 0) + Pops(Next(s, steps[0]).value, steps[1..])
  }

  /** The drain loop goes round at most as often as the list was long when stop was claimed, whatever the other
      threads do while the lock is open. */
  lemma {:induction false} DrainIsBounded(s: State, steps: seq<Step>)
    requires Inv(s) && Requested(s.word) && Exec(Next, s, steps).Some?
    ensures Pops(s, steps) + |Exec(Next, s, steps).value.list| <= |s.list|
    decreases |steps|
  {
    if steps == [] {
    } else {
      Keeps(s, steps[0]);
      ListShrinks(s, steps[0]);
      RequestIsSticky(s, steps[0]);
      DrainIsBounded(Next(s, steps[0]).value, steps[1..]);
    }
  }

  lemma GoneKeptByRefuse(s: State, t: Tid, r: Rec)
    requires Inv(s) && Next(s, Refuse(t)).Some? && Get(s, r).own.Gone?
    ensures Get(Next(s, Refuse(t)).value, r) == Get(s, r)
  {
    assert PosOk(s, TopPos(s, t));
  }

  lemma GoneKeptByWork(s: State, t: Tid, r: Rec)
    requires Inv(s) && Has(s, t) && Critical(s, t, Top(s, t)).Some? && Get(s, r).own.Gone?
    ensures Get(Critical(s, t, Top(s, t)).value, r) == Get(s, r)
  {
    assert RecOk(s, r) && PosOk(s, TopPos(s, t));
  }

  lemma GoneKeptByStore(s: State, t: Tid, r: Rec)
    requires Inv(s) && Has(s, t) && Top(s, t).Release? && Get(s, r).own.Gone?
    ensures Get(Unlock(s, t, Top(s, t).w, Top(s, t).k), r) == Get(s, r)
  {
    assert PosOk(s, TopPos(s, t));
  }

  lemma GoneKeptByFinish(s: State, t: Tid, r: Rec)
    requires Inv(s) && Has(s, t) && Outside(s, t, Top(s, t)).Some? && Get(s, r).own.Gone?
    ensures Get(Outside(s, t, Top(s, t)).value, r) == Get(s, r)
  {
    assert PosOk(s, TopPos(s, t));
  }

  /** No step changes a record whose destructor has returned. */
  lemma GoneIsUntouched(s: State, st: Step, r: Rec)
    requires Inv(s) && Next(s, st).Some? && Get(s, r).own.Gone?
    ensures Get(Next(s, st).value, r) == Get(s, r)
  {
    match st
    case Refuse(t) => GoneKeptByRefuse(s, t, r);
    case Work(t) => GoneKeptByWork(s, t, r);
    case Store(t) => GoneKeptByStore(s, t, r);
    case Finish(t) => GoneKeptByFinish(s, t, r);
    case _ =>
  }

  /** No frame is about a destroyed record, but for the notification whose body destroyed it. */
  lemma GoneIsNotRunning(s: State, r: Rec, p: Pos)
    requires Inv(s) && Get(s, r).own.Gone? && Subject(At(s, p)) == Some(r)
    ensures s.requester == Some(Get(s, r).own.on) && p.t == Get(s, r).own.on && s.flag
    ensures At(s, p) == NotifyBody(r) || At(s, p) == After(r)
  {
    assert PosOk(s, p) && RecOk(s, r);
  }

  /** Once the destructor of `r` has returned, `r` is out of the list for good and its callback has run for the last
      time; on a thread other than the requester it is not even running, and never will be. */
  lemma Quiescence(s: State, r: Rec, steps: seq<Step>, p: Pos)
    requires Reachable(s) && Get(s, r).own.Gone? && Exec(Next, s, steps).Some?
    ensures var s' := Exec(Next, s, steps).value;
            && Get(s', r) == Get(s, r) && r !in s'.list
            && (s'.requester != Some(Get(s, r).own.on) ==> Subject(At(s', p)) != Some(r))
  {
    InvHolds(s);
    var x := Get(s, r);
    forall y, st | Inv(y) && Get(y, r) == x && Next(y, st).Some?
      ensures Inv(Next(y, st).value) && Get(Next(y, st).value, r) == x
    {
      Keeps(y, st);
      GoneIsUntouched(y, st, r);
    }
    Preserved(Next, y => Inv(y) && Get(y, r) == x, s, steps);
    var s' := Exec(Next, s, steps).value;
    assert RecOk(s', r);
    if Subject(At(s', p)) == Some(r) { GoneIsNotRunning(s', r, p); }
  }

  /** The records next to `r` in the list: those an unlink of `r` writes. */
  function Neighbours(l: seq<Rec>, r: Rec): (n: set<Rec>)
    ensures forall q :: q in n ==> q in l
  {
    if |l| < 2 then {}
    else (if l[0] == r then {l[1]} else if l[1] == r then {l[0]} else {}) + Neighbours(l[1..], r)
  }

  /** The records whose memory a step reads or writes. */
  function Touched(s: State, st: Step): set<Rec> {
    match st
    case CallRegister(_, r) => {}
    case Refuse(t) => if Has(s, t) && Top(s, t).Try? && Top(s, t).g.Register? then {Top(s, t).g.r} else {}
    case Work(t) => if !Has(s, t) then {} else (
      match Top(s, t)
      case Hold(Register(r), _) => {r} + (if s.list == [] then {} else {s.list[0]})
      case Hold(Unregister(r), _) => {r} + Neighbours(s.list, r)
      case Loop => (if s.list == [] then {} else {s.list[0]}) + (if |s.list| < 2 then {} else {s.list[1]})
      case _ => {})
    case Store(t) => if Has(s, t) && Top(s, t).Release? && Top(s, t).k.Notify? then {Top(s, t).k.r} else {}
    case Finish(t) => if !Has(s, t) then {} else (
      match Top(s, t)
      case Reentrant(r) => {r}
      case Wait(r) => {r}
      case After(r) => if s.flag then {} else {r}
      case Complete(r) => {r}
      case _ => {})
    case _ => {}
  }

  /** Nobody reads or writes a record outside its lifetime, not even the notifier of a callback that destroys itself. */
  lemma NoUseAfterDestroy(s: State, st: Step, r: Rec)
    requires Reachable(s) && Next(s, st).Some? && r in Touched(s, st)
    ensures !Get(s, r).own.Gone? && !Get(s, r).own.Unborn?
  {
    InvHolds(s);
    assert RecOk(s, r);
    if Has(s, st.t) { assert PosOk(s, TopPos(s, st.t)); }
  }

  // ---------- what is in a destroyed record does not matter

  /** The state after a step, with `x` in the place of record `r`. */
  function Overwritten(after: Option<State>, r: Rec, x: Record): Option<State> {
    match after
    case None => None
    case Some(s') => Some(Put(s', r, x))
  }

  /** Step `st` is enabled, and does to everything else what it does, whatever record `r` contains. */
  ghost predicate Unread(s: State, st: Step, r: Rec, x: Record) {
    Next(Put(s, r, x), st) == Overwritten(Next(s, st), r, x)
  }

  lemma PutsCommute(recs: map<Rec, Record>, q: Rec, y: Record, r: Rec, x: Record)
    requires q != r
    ensures recs[q := y][r := x] == recs[r := x][q := y]
  {
  }

  lemma HoldIgnores(s: State, t: Tid, r: Rec, x: Record)
    requires Inv(s) && Has(s, t) && Top(s, t).Hold? && Get(s, r).own.Gone?
    ensures Critical(Put(s, r, x), t, Top(s, t)) == Overwritten(Critical(s, t, Top(s, t)), r, x)
  {
    assert PosOk(s, TopPos(s, t));
    match Top(s, t).g
    case Register(q) => PutsCommute(s.recs, q, Get(s, q).(fate := InList, linked := true), r, x);
    case Unregister(q) => PutsCommute(s.recs, q, Get(s, q).(fate := Removed), r, x);
    case _ =>
  }

  lemma LoopIgnores(s: State, t: Tid, r: Rec, x: Record)
    requires Inv(s) && Has(s, t) && Top(s, t).Loop? && Get(s, r).own.Gone?
    ensures Critical(Put(s, r, x), t, Top(s, t)) == Overwritten(Critical(s, t, Top(s, t)), r, x)
  {
    if s.list != [] {
      var q := s.list[0];
      assert RecOk(s, q);
      PutsCommute(s.recs, q, Get(s, q).(fate := Popped, linked := false, armed := true), r, x);
    }
  }

  lemma UnlockIgnores(s: State, t: Tid, r: Rec, x: Record)
    requires Inv(s) && Has(s, t) && Top(s, t).Release? && Get(s, r).own.Gone?
    ensures Unlock(Put(s, r, x), t, Top(s, t).w, Top(s, t).k) == Put(Unlock(s, t, Top(s, t).w, Top(s, t).k), r, x)
  {
    assert PosOk(s, TopPos(s, t));
    match Top(s, t).k
    case Registered(q) => PutsCommute(s.recs, q, Get(s, q).(own := Live), r, x);
    case Unlinked(q) => PutsCommute(s.recs, q, Get(s, q).(own := Gone(t)), r, x);
    case Notify(q) => PutsCommute(s.recs, q, Get(s, q).(runs := Get(s, q).runs + [t]), r, x);
    case _ =>
  }

  lemma EndIgnores(s: State, t: Tid, r: Rec, x: Record)
    requires Inv(s) && Has(s, t) && (Top(s, t).InlineBody? || Top(s, t).Reentrant? || Top(s, t).Wait?)
    requires Get(s, r).own.Gone?
    ensures Outside(Put(s, r, x), t, Top(s, t)) == Overwritten(Outside(s, t, Top(s, t)), r, x)
  {
    assert PosOk(s, TopPos(s, t));
    var q := Top(s, t).r;
    PutsCommute(s.recs, q, Get(s, q).(own := if Top(s, t).InlineBody? then Live else Gone(t)), r, x);
  }

  lemma NotifyIgnores(s: State, t: Tid, r: Rec, x: Record)
    requires Inv(s) && Has(s, t) && (Top(s, t).After? || Top(s, t).Complete?) && Get(s, r).own.Gone?
    ensures Outside(Put(s, r, x), t, Top(s, t)) == Overwritten(Outside(s, t, Top(s, t)), r, x)
  {
    assert PosOk(s, TopPos(s, t));
    var q := Top(s, t).r;
    if Top(s, t).Complete? { PutsCommute(s.recs, q, Get(s, q).(completed := true), r, x); }
    else if !s.flag { PutsCommute(s.recs, q, Get(s, q).(armed := false), r, x); }
  }

  lemma OutsideIgnores(s: State, t: Tid, r: Rec, x: Record)
    requires Inv(s) && Has(s, t) && Get(s, r).own.Gone?
    ensures Outside(Put(s, r, x), t, Top(s, t)) == Overwritten(Outside(s, t, Top(s, t)), r, x)
  {
    match Top(s, t)
    case InlineBody(_) => EndIgnores(s, t, r, x);
    case Reentrant(_) => EndIgnores(s, t, r, x);
    case Wait(_) => EndIgnores(s, t, r, x);
    case After(_) => NotifyIgnores(s, t, r, x);
    case Complete(_) => NotifyIgnores(s, t, r, x);
    case _ =>
  }

  lemma RefuseIgnores(s: State, t: Tid, r: Rec, x: Record)
    requires Inv(s) && Get(s, r).own.Gone?
    ensures Unread(s, Refuse(t), r, x)
  {
    if Next(s, Refuse(t)).Some? && Top(s, t).g.Register? {
      var q := Top(s, t).g.r;
      assert PosOk(s, TopPos(s, t));
      PutsCommute(s.recs, q, Get(s, q).(fate := Inline, runs := Get(s, q).runs + [t]), r, x);
    }
  }

  lemma RegisterIgnores(s: State, t: Tid, q: Rec, r: Rec, x: Record)
    requires Get(s, r).own.Gone? && x.own.Gone?
    ensures Unread(s, CallRegister(t, q), r, x)
  {
    if q != r { PutsCommute(s.recs, q, Record(Ctor(NewPos(s, t)), Fresh, false, false, false, [], t), r, x); }
  }

  lemma UnregisterIgnores(s: State, t: Tid, q: Rec, r: Rec, x: Record)
    requires Get(s, r).own.Gone? && x.own.Gone?
    ensures Unread(s, CallUnregister(t, q), r, x)
  {
    if q != r { PutsCommute(s.recs, q, Get(s, q).(own := Dtor(NewPos(s, t))), r, x); }
  }

  lemma DestroyIgnores(s: State, t: Tid, q: Rec, r: Rec, x: Record)
    requires Get(s, r).own.Gone? && x.own.Gone?
    ensures Unread(s, DestroyInline(t, q), r, x)
  {
    if q != r { PutsCommute(s.recs, q, Get(s, q).(own := Gone(t)), r, x); }
  }

  /** Steps that look at no record at all. */
  lemma LockingIgnores(s: State, st: Step, r: Rec, x: Record)
    requires st.CallRequest? || st.LoadWord? || st.Spin? || st.CasFail? || st.CasWin?
    ensures Unread(s, st, r, x)
  {
  }

  lemma StoreIgnores(s: State, t: Tid, r: Rec, x: Record)
    requires Inv(s) && Get(s, r).own.Gone?
    ensures Unread(s, Store(t), r, x)
  {
    if Has(s, t) && Top(s, t).Release? { UnlockIgnores(s, t, r, x); }
  }

  lemma FinishIgnores(s: State, t: Tid, r: Rec, x: Record)
    requires Inv(s) && Get(s, r).own.Gone?
    ensures Unread(s, Finish(t), r, x)
  {
    if Has(s, t) { OutsideIgnores(s, t, r, x); }
  }

  lemma WorkIgnores(s: State, t: Tid, r: Rec, x: Record)
    requires Inv(s) && Get(s, r).own.Gone?
    ensures Unread(s, Work(t), r, x)
  {
    if Has(s, t) {
      if Top(s, t).Hold? { HoldIgnores(s, t, r, x); }
      if Top(s, t).Loop? { LoopIgnores(s, t, r, x); }
    }
  }

  /** Whatever is written over a record whose destructor has returned, every step is enabled as before and does the same
      to everything else: no step reads it. */
  lemma GoneIsNotRead(s: State, st: Step, r: Rec, x: Record)
    requires Reachable(s) && Get(s, r).own.Gone? && x.own.Gone?
    ensures Unread(s, st, r, x)
  {
    InvHolds(s);
    match st
    case Refuse(t) => RefuseIgnores(s, t, r, x);
    case Work(t) => WorkIgnores(s, t, r, x);
    case Store(t) => StoreIgnores(s, t, r, x);
    case Finish(t) => FinishIgnores(s, t, r, x);
    case CallRegister(t, q) => RegisterIgnores(s, t, q, r, x);
    case CallUnregister(t, q) => UnregisterIgnores(s, t, q, r, x);
    case DestroyInline(t, q) => DestroyIgnores(s, t, q, r, x);
    case _ => LockingIgnores(s, st, r, x);
  }

  /** The record went through the list, as against having been fired inside its constructor. */
  predicate Listed(f: Fate) { f.InList? || f.Removed? || f.Popped? }

  lemma FateByWork(s: State, t: Tid, r: Rec)
    requires Inv(s) && Has(s, t) && Critical(s, t, Top(s, t)).Some?
    ensures Listed(Get(s, r).fate) ==> Listed(Get(Critical(s, t, Top(s, t)).value, r).fate)
    ensures Requested(s.word) && !Listed(Get(s, r).fate) ==> !Listed(Get(Critical(s, t, Top(s, t)).value, r).fate)
  {
    if Top(s, t).Hold? { FateByHold(s, t, r); } else { FateByPop(s, t, r); }
  }

  lemma FateByHold(s: State, t: Tid, r: Rec)
    requires Inv(s) && Has(s, t) && Top(s, t).Hold?
    ensures var x, x' := Get(s, r), Get(Critical(s, t, Top(s, t)).value, r);
            (Listed(x.fate) ==> Listed(x'.fate)) && (Requested(s.word) && !Listed(x.fate) ==> !Listed(x'.fate))
  {
    assert PosOk(s, TopPos(s, t));
    if Top(s, t).g.Unregister? { assert RecOk(s, Top(s, t).g.r); }
  }

  lemma FateByPop(s: State, t: Tid, r: Rec)
    requires Inv(s) && Has(s, t) && Top(s, t).Loop?
    ensures Listed(Get(Critical(s, t, Top(s, t)).value, r).fate) == Listed(Get(s, r).fate)
  {
    if s.list != [] { assert RecOk(s, s.list[0]); }
  }

  lemma FateByRefuse(s: State, t: Tid, r: Rec)
    requires Inv(s) && Next(s, Refuse(t)).Some?
    ensures Listed(Get(Next(s, Refuse(t)).value, r).fate) == Listed(Get(s, r).fate)
  {
    assert PosOk(s, TopPos(s, t));
  }

  lemma FateByStore(s: State, t: Tid, r: Rec)
    requires Has(s, t) && Top(s, t).Release?
    ensures Get(Unlock(s, t, Top(s, t).w, Top(s, t).k), r).fate == Get(s, r).fate
  {
  }

  lemma FateByFinish(s: State, t: Tid, r: Rec)
    requires Has(s, t) && Outside(s, t, Top(s, t)).Some?
    ensures Get(Outside(s, t, Top(s, t)).value, r).fate == Get(s, r).fate
  {
  }

  lemma FateByCall(s: State, st: Step, r: Rec)
    requires RecOk(s, r) && Next(s, st).Some?
    requires st.CallRegister? || st.CallUnregister? || st.CallRequest? || st.DestroyInline?
    ensures Get(Next(s, st).value, r).fate == Get(s, r).fate
  {
  }

  lemma FateByStep(s: State, st: Step, r: Rec)
    requires Inv(s) && Next(s, st).Some?
    ensures Listed(Get(s, r).fate) ==> Listed(Get(Next(s, st).value, r).fate)
    ensures Requested(s.word) && !Listed(Get(s, r).fate) ==> !Listed(Get(Next(s, st).value, r).fate)
  {
    assert RecOk(s, r);
    if st.Work? { FateByWork(s, st.t, r); }
    else if st.Refuse? { FateByRefuse(s, st.t, r); }
    else if st.Store? { FateByStore(s, st.t, r); }
    else if st.Finish? { FateByFinish(s, st.t, r); }
    else if st.CallRegister? || st.CallUnregister? || st.CallRequest? || st.DestroyInline? { FateByCall(s, st, r); }
  }

  /** Registration falls on one side of the claim: what was pushed before it is never fired inline,
      what was not pushed when it was won never enters the list. */
  lemma RegisteredBeforeOrAfterClaim(s: State, r: Rec, steps: seq<Step>)
    requires Reachable(s) && Exec(Next, s, steps).Some?
    ensures Listed(Get(s, r).fate) ==> Listed(Get(Exec(Next, s, steps).value, r).fate)
    ensures Requested(s.word) && !Listed(Get(s, r).fate) ==> !Listed(Get(Exec(Next, s, steps).value, r).fate)
  {
    InvHolds(s);
    var listed := Listed(Get(s, r).fate);
    if listed || Requested(s.word) {
      var side := (y: State) => Inv(y) && (listed || Requested(y.word)) && Listed(Get(y, r).fate) == listed;
      forall y, st | side(y) && Next(y, st).Some? ensures side(Next(y, st).value) {
        Keeps(y, st);
        if Requested(y.word) { RequestIsSticky(y, st); }
        FateByStep(y, st, r);
      }
      Preserved(Next, side, s, steps);
    }
  }
}
