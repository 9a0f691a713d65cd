/** What each call of the stop token has done when it returns, that a request is always heard, and that nobody waits for
    ever. */
module StopTokenCalls {
  import opened Lists
  import opened Runs
  import opened StopToken
  import opened StopTokenInv
  import opened StopTokenTheorems

  /** The construction of a callback, its destruction, `request_stop`. */
  datatype Call = Registering(r: Rec) | Unregistering(r: Rec) | Requesting

  function CallOfGoal(g: Goal): Call {
    match g
    case Register(r) => Registering(r)
    case Unregister(r) => Unregistering(r)
    case _ => Requesting
  }

  /** The call that a frame belongs to. */
  function CallOf(f: Frame): (call: Option<Call>)
    ensures call.Some? <==> f != NoFrame
  {
    match f
    case NoFrame => None
    case Load(g) => Some(CallOfGoal(g))
    case Try(g, _) => Some(CallOfGoal(g))
    case Hold(g, _) => Some(CallOfGoal(g))
    case Release(_, Registered(r)) => Some(Registering(r))
    case Release(_, Unlinked(r)) => Some(Unregistering(r))
    case Release(_, WasPopped(r, _)) => Some(Unregistering(r))
    case InlineBody(r) => Some(Registering(r))
    case Reentrant(r) => Some(Unregistering(r))
    case Wait(r) => Some(Unregistering(r))
    case _ => Some(Requesting)
  }

  /** The call that a step begins. */
  function Begun(st: Step): Option<Call> {
    match st
    case CallRegister(_, r) => Some(Registering(r))
    case CallUnregister(_, r) => Some(Unregistering(r))
    case CallRequest(_) => Some(Requesting)
    case _ => None
  }

  // ---------- a call is the same call until it returns

  lemma WorkStays(s: State, t: Tid, p: Pos)
    requires Has(s, t) && Critical(s, t, Top(s, t)).Some?
    ensures CallOf(At(Critical(s, t, Top(s, t)).value, p)) == CallOf(At(s, p))
  {
    if Top(s, t).Hold? { HoldStays(s, t, p); }
  }

  lemma HoldStays(s: State, t: Tid, p: Pos)
    requires Has(s, t) && Top(s, t).Hold?
    ensures CallOf(At(Critical(s, t, Top(s, t)).value, p)) == CallOf(At(s, p))
  {
  }

  lemma OutsideStays(s: State, t: Tid, p: Pos)
    requires Has(s, t) && Outside(s, t, Top(s, t)).Some?
    ensures var f' := At(Outside(s, t, Top(s, t)).value, p); CallOf(f') == CallOf(At(s, p)) || f' == NoFrame
  {
    if p != TopPos(s, t) { OutsideElsewhere(s, t, p); }
  }

  lemma OutsideElsewhere(s: State, t: Tid, p: Pos)
    requires Has(s, t) && Outside(s, t, Top(s, t)).Some? && p != TopPos(s, t)
    ensures At(Outside(s, t, Top(s, t)).value, p) == At(s, p)
  {
    var f' := OutsideFrames(s, t, Top(s, t));
  }

  lemma OutsideFrames(s: State, t: Tid, f: Frame) returns (f': Frame)
    requires Has(s, t) && f == Top(s, t) && Outside(s, t, f).Some?
    ensures Outside(s, t, f).value.frames == s.frames[TopPos(s, t) := f']
  {
    match f
    case NotifyBody(r) => f' := After(r);
    case After(r) => f' := if s.flag then Load(Relock) else Complete(r);
    case Complete(_) => f' := Load(Relock);
    case _ => f' := NoFrame;
  }

  lemma UnlockStays(s: State, t: Tid, p: Pos)
    requires Has(s, t) && Top(s, t).Release?
    ensures var f' := At(Unlock(s, t, Top(s, t).w, Top(s, t).k), p); CallOf(f') == CallOf(At(s, p)) || f' == NoFrame
  {
    UnlockFrames(s, t, Top(s, t).w, Top(s, t).k);
  }

  /** Where the store that opens the lock leads. */
  function AfterUnlock(k: Then, t: Tid): Frame {
    match k
    case WasPopped(r, n) => if n == Some(t) then Reentrant(r) else Wait(r)
    case Notify(r) => NotifyBody(r)
    case _ => NoFrame
  }

  lemma UnlockFrames(s: State, t: Tid, w: nat, k: Then)
    requires Has(s, t)
    ensures Unlock(s, t, w, k).frames == s.frames[TopPos(s, t) := AfterUnlock(k, t)]
  {
  }

  lemma LockStays(s: State, st: Step, p: Pos)
    requires (st.LoadWord? || st.Spin? || st.CasFail? || st.CasWin?) && Next(s, st).Some?
    ensures CallOf(At(Next(s, st).value, p)) == CallOf(At(s, p))
  {
  }

  lemma RefuseStays(s: State, t: Tid, p: Pos)
    requires Next(s, Refuse(t)).Some?
    ensures var f' := At(Next(s, Refuse(t)).value, p); CallOf(f') == CallOf(At(s, p)) || f' == NoFrame
  {
  }

  lemma CallBegins(s: State, st: Step, p: Pos)
    requires Inv(s) && Next(s, st).Some? && Begun(st).Some?
    ensures At(s, NewPos(s, st.t)) == NoFrame
    ensures CallOf(At(Next(s, st).value, p)) == (if p == NewPos(s, st.t) then Begun(st) else CallOf(At(s, p)))
  {
    assert StackOk(s, NewPos(s, st.t));
  }

  /** Only a call begins one, and it is that call until it returns. */
  lemma CallsStay(s: State, st: Step, p: Pos)
    requires Inv(s) && Next(s, st).Some?
    ensures var f, f' := At(s, p), At(Next(s, st).value, p);
            if f == NoFrame
            then CallOf(f') == (if Begun(st).Some? && p == NewPos(s, st.t) then Begun(st) else None)
            else CallOf(f') == CallOf(f) || f' == NoFrame
  {
    match st
    case DestroyInline(_, _) =>
    case Refuse(t) => RefuseStays(s, t, p);
    case Work(t) => WorkStays(s, t, p);
    case Store(t) => UnlockStays(s, t, p);
    case Finish(t) => OutsideStays(s, t, p);
    case LoadWord(_) => LockStays(s, st, p);
    case Spin(_) => LockStays(s, st, p);
    case CasFail(_) => LockStays(s, st, p);
    case CasWin(_) => LockStays(s, st, p);
    case _ => CallBegins(s, st, p);
  }

  // ---------- what a call has done when it returns

  /** What a call of thread `t` leaves behind. */
  ghost predicate Done(s: State, call: Call, t: Tid) {
    match call
    case Registering(r) =>
      var x := Get(s, r);
      && x.own.Live?
      && ((x.fate.InList? && r in s.list && x.runs == []) || (x.fate.Inline? && x.runs == [t] && Requested(s.word)))
    case Unregistering(r) =>
      var x := Get(s, r);
      && x.own == Gone(t) && r !in s.list
      && ((x.fate.Removed? && x.runs == []) || (x.fate.Popped? && (x.completed || s.requester == Some(t))))
    case Requesting => Requested(s.word)
  }

  lemma ReturnsByFinish(s: State, t: Tid)
    requires Inv(s) && Has(s, t) && Outside(s, t, Top(s, t)).Some?
    requires At(Outside(s, t, Top(s, t)).value, TopPos(s, t)) == NoFrame
    ensures Done(Outside(s, t, Top(s, t)).value, CallOf(Top(s, t)).value, t)
  {
    assert PosOk(s, TopPos(s, t)) && RecOk(s, Top(s, t).r);
  }

  lemma ReturnsByStore(s: State, t: Tid)
    requires Inv(s) && Has(s, t) && Top(s, t).Release?
    requires At(Unlock(s, t, Top(s, t).w, Top(s, t).k), TopPos(s, t)) == NoFrame
    ensures Done(Unlock(s, t, Top(s, t).w, Top(s, t).k), CallOf(Top(s, t)).value, t)
  {
    assert PosOk(s, TopPos(s, t));
    if !Top(s, t).k.Drained? { assert RecOk(s, Top(s, t).k.r); }
  }

  lemma ReturnsByRefuse(s: State, t: Tid)
    requires Inv(s) && Next(s, Refuse(t)).Some? && At(Next(s, Refuse(t)).value, TopPos(s, t)) == NoFrame
    ensures Done(Next(s, Refuse(t)).value, CallOf(Top(s, t)).value, t)
  {
    assert PosOk(s, TopPos(s, t));
  }

  /** A call returns by a step of its own thread, from the top of the stack. */
  lemma WhoReturns(s: State, st: Step, p: Pos)
    requires Inv(s) && Next(s, st).Some? && At(s, p) != NoFrame && At(Next(s, st).value, p) == NoFrame
    ensures (st.Refuse? || st.Store? || st.Finish?) && Has(s, st.t) && p == TopPos(s, st.t)
  {
    match st
    case Refuse(t) =>
    case Store(t) => StoreReturns(s, t, p);
    case Finish(t) => FinishReturns(s, t, p);
    case Work(t) => WorkStays(s, t, p);
    case LoadWord(_) => LockStays(s, st, p);
    case Spin(_) => LockStays(s, st, p);
    case CasFail(_) => LockStays(s, st, p);
    case CasWin(_) => LockStays(s, st, p);
    case DestroyInline(_, _) =>
    case _ => CallBegins(s, st, p);
  }

  lemma StoreReturns(s: State, t: Tid, p: Pos)
    requires Next(s, Store(t)).Some? && At(s, p) != NoFrame && At(Next(s, Store(t)).value, p) == NoFrame
    ensures p == TopPos(s, t)
  {
    UnlockFrames(s, t, Top(s, t).w, Top(s, t).k);
  }

  lemma FinishReturns(s: State, t: Tid, p: Pos)
    requires Next(s, Finish(t)).Some? && At(s, p) != NoFrame && At(Next(s, Finish(t)).value, p) == NoFrame
    ensures p == TopPos(s, t)
  {
  }

  /** When a call returns, it has done what it is for: the callback is registered or has run inline, or is out of the
      list and quiescent, or stop is requested, whoever won. */
  lemma CallReturns(s: State, st: Step, p: Pos)
    requires Inv(s) && Next(s, st).Some? && At(s, p) != NoFrame && At(Next(s, st).value, p) == NoFrame
    ensures Done(Next(s, st).value, CallOf(At(s, p)).value, p.t)
  {
    WhoReturns(s, st, p);
    match st
    case Refuse(t) => ReturnsByRefuse(s, t);
    case Store(t) => ReturnsByStore(s, t);
    case Finish(t) => ReturnsByFinish(s, t);
  }

  /** The destructor of a callback that has run inline has nothing to do but end its life. */
  lemma InlineIsDestroyed(s: State, t: Tid, r: Rec)
    requires Next(s, DestroyInline(t, r)).Some?
    ensures var s' := Next(s, DestroyInline(t, r)).value;
            && Get(s', r).own == Gone(t) && s'.list == s.list && s'.word == s.word
            && forall q :: q != r ==> Get(s', q) == Get(s, q)
  {
  }

  // ---------- a request is heard

  /** Stop is requested, or somebody is on the way to request it. */
  ghost predicate Asked(s: State) { Requested(s.word) || exists p :: CallOf(At(s, p)) == Some(Requesting) }

  lemma StaysAsked(s: State, st: Step)
    requires Inv(s) && Asked(s) && Next(s, st).Some?
    ensures Asked(Next(s, st).value)
  {
    if Requested(s.word) {
      RequestIsSticky(s, st);
    } else {
      var p :| CallOf(At(s, p)) == Some(Requesting);
      CallsStay(s, st, p);
      if At(Next(s, st).value, p) == NoFrame { CallReturns(s, st, p); }
      else { assert CallOf(At(Next(s, st).value, p)) == Some(Requesting); }
    }
  }

  /** Whenever somebody calls request_stop, then once all calls have returned stop is requested, and exactly one of the
      calls has returned true. */
  lemma EveryRequestIsHeard(s: State, t: Tid, steps: seq<Step>)
    requires Reachable(s) && Next(s, CallRequest(t)).Some? && Exec(Next, Next(s, CallRequest(t)).value, steps).Some?
    requires forall u :: Depth(Exec(Next, Next(s, CallRequest(t)).value, steps).value, u) == 0
    ensures var s' := Exec(Next, Next(s, CallRequest(t)).value, steps).value; Requested(s'.word) && s'.wins == 1
  {
    InvHolds(s);
    var s1 := Next(s, CallRequest(t)).value;
    Keeps(s, CallRequest(t));
    CallBegins(s, CallRequest(t), NewPos(s, t));
    assert CallOf(At(s1, NewPos(s, t))) == Some(Requesting);
    var asked := (y: State) => Inv(y) && Asked(y);
    forall y, st | asked(y) && Next(y, st).Some? ensures asked(Next(y, st).value) {
      Keeps(y, st);
      StaysAsked(y, st);
    }
    Preserved(Next, asked, s1, steps);
    AllReturned(Exec(Next, s1, steps).value);
  }

  lemma AllReturned(s: State)
    requires Inv(s) && Asked(s) && forall u :: Depth(s, u) == 0
    ensures Requested(s.word) && s.wins == 1
  {
    forall p ensures At(s, p) == NoFrame { assert StackOk(s, p); }
    assert s.drain.Active? ==> DrainFrame(At(s, s.drain.at));
  }

  lemma UnlockWins(s: State, t: Tid, w: nat, k: Then)
    requires Has(s, t)
    ensures Unlock(s, t, w, k).wins == s.wins + (if k.Drained? then 1 else 0)
  {
  }

  /** A call returns true only when it was the requester's, and then every callback in the list has been dealt with. */
  lemma TrueOnlyWhenDrained(s: State, st: Step)
    requires Inv(s) && Next(s, st).Some? && Next(s, st).value.wins != s.wins
    ensures st.Store? && CallOf(Top(s, st.t)) == Some(Requesting) && At(Next(s, st).value, TopPos(s, st.t)) == NoFrame
    ensures s.requester == Some(st.t) && Next(s, st).value.list == [] && Next(s, st).value.wins == s.wins + 1
  {
    if st.Store? {
      UnlockWins(s, st.t, Top(s, st.t).w, Top(s, st.t).k);
      assert PosOk(s, TopPos(s, st.t));
    } else {
      NoWin(s, st);
    }
  }

  lemma NoWin(s: State, st: Step)
    requires Next(s, st).Some? && !st.Store?
    ensures Next(s, st).value.wins == s.wins
  {
  }

  // ---------- what becomes of the list

  /** How a step of thread `t` may change the list: its own registration in front, its own destruction out of it, and
      for the requester the newest callback off it. */
  ghost predicate ListChange(s: State, s': State, t: Tid)
    requires Has(s, t)
  {
    || s'.list == s.list
    || (CallOf(Top(s, t)) == Some(Requesting) && s.requester == Some(t) && s.list != [] && s'.list == s.list[1..]
        && Current(s') == Some(s.list[0]))
    || (CallOf(Top(s, t)).Some? && CallOf(Top(s, t)).value.Registering? && !Requested(s.word)
        && s'.list == [CallOf(Top(s, t)).value.r] + s.list)
    || (CallOf(Top(s, t)).Some? && CallOf(Top(s, t)).value.Unregistering?
        && CallOf(Top(s, t)).value.r in s.list && s'.list == Without(s.list, CallOf(Top(s, t)).value.r))
  }

  lemma ListMovesByHold(s: State, t: Tid)
    requires Inv(s) && Has(s, t) && Top(s, t).Hold?
    ensures ListChange(s, Critical(s, t, Top(s, t)).value, t)
  {
    assert PosOk(s, TopPos(s, t));
    if Top(s, t).g.Unregister? { assert RecOk(s, Top(s, t).g.r); }
  }

  lemma ListMovesByPop(s: State, t: Tid)
    requires Inv(s) && Has(s, t) && Top(s, t).Loop?
    ensures ListChange(s, Critical(s, t, Top(s, t)).value, t)
  {
    assert PosOk(s, TopPos(s, t));
  }

  lemma ListOnlyByWork(s: State, st: Step)
    requires Next(s, st).Some? && !st.Work?
    ensures Next(s, st).value.list == s.list
  {
    match st
    case Store(t) => ListKeptByStore(s, t);
    case Finish(t) => ListKeptByFinish(s, t);
    case _ =>
  }

  lemma ListKeptByStore(s: State, t: Tid)
    requires Has(s, t) && Top(s, t).Release?
    ensures Unlock(s, t, Top(s, t).w, Top(s, t).k).list == s.list
  {
  }

  lemma ListKeptByFinish(s: State, t: Tid)
    requires Has(s, t) && Outside(s, t, Top(s, t)).Some?
    ensures Outside(s, t, Top(s, t)).value.list == s.list
  {
  }

  /** Only a thread that holds the lock changes the list, and only as its call asks. */
  lemma ListMoves(s: State, st: Step)
    requires Inv(s) && Next(s, st).Some? && Next(s, st).value.list != s.list
    ensures Has(s, st.t) && s.owner == Some(TopPos(s, st.t)) && ListChange(s, Next(s, st).value, st.t)
  {
    if !st.Work? {
      ListOnlyByWork(s, st);
    } else {
      assert PosOk(s, TopPos(s, st.t));
      if Top(s, st.t).Hold? { ListMovesByHold(s, st.t); } else { ListMovesByPop(s, st.t); }
    }
  }

  // ---------- nobody waits for ever

  /** A step by which thread `t` goes on with the call on top of its stack. */
  predicate IsOwn(st: Step, t: Tid) { Begun(st).None? && !st.DestroyInline? && st.t == t }

  ghost predicate CanGoOn(s: State, t: Tid) { exists st :: IsOwn(st, t) && Next(s, st).Some? }

  /** A step that thread `t` can take. */
  function Move(f: Frame, t: Tid): Step {
    match f
    case Load(_) => LoadWord(t)
    case Try(g, prev) =>
      if Guarded(g) && Requested(prev) then Refuse(t)
      else if if Guarded(g) then prev == 0 else !Locked(prev) then CasFail(t)
      else Spin(t)
    case Hold(_, _) => Work(t)
    case Loop => Work(t)
    case Release(_, _) => Store(t)
    case _ => Finish(t)
  }

  lemma Moves(s: State, t: Tid)
    requires Inv(s) && Has(s, t) && !Top(s, t).Wait?
    ensures CanGoOn(s, t)
  {
    assert StackOk(s, TopPos(s, t));
    var st := Move(Top(s, t), t);
    MoveIsEnabled(s, t);
    assert IsOwn(st, t);
  }

  lemma MoveIsEnabled(s: State, t: Tid)
    requires Has(s, t) && !Top(s, t).Wait? && !Top(s, t).NoFrame?
    ensures Next(s, Move(Top(s, t), t)).Some?
  {
  }

  /** Every thread inside a call can go on, unless it waits for a notification that is under way; then the requester,
      which is another thread, can. */
  lemma NeverStuck(s: State, t: Tid)
    requires Reachable(s) && Has(s, t)
    ensures CanGoOn(s, t) || Top(s, t).Wait?
    ensures !CanGoOn(s, t) ==> exists u :: s.requester == Some(u) && u != t && Has(s, u) && CanGoOn(s, u)
  {
    InvHolds(s);
    if !Top(s, t).Wait? {
      Moves(s, t);
    } else if Get(s, Top(s, t).r).completed {
      assert IsOwn(Finish(t), t) && Next(s, Finish(t)).Some?;
    } else {
      var r := Top(s, t).r;
      assert PosOk(s, TopPos(s, t)) && RecOk(s, r);
      RequesterMoves(s, t, r);
    }
  }

  lemma RequesterMoves(s: State, t: Tid, r: Rec)
    requires Inv(s) && s.requester.Some? && s.requester != Some(t) && Current(s) == Some(r)
    ensures exists u :: s.requester == Some(u) && u != t && Has(s, u) && CanGoOn(s, u)
  {
    var u := s.requester.value;
    assert StackOk(s, s.drain.at);
    assert PosOk(s, TopPos(s, u));
    Moves(s, u);
  }

  /** A thread spins only when it has seen the lock taken. */
  lemma SpinsOnLocked(s: State, t: Tid)
    requires Inv(s) && Next(s, Spin(t)).Some?
    ensures Top(s, t).Try? && Locked(Top(s, t).prev)
  {
    assert PosOk(s, TopPos(s, t));
  }

  // ---------- left alone, a call returns

  /** How many steps a call at this frame has left when nobody interferes: with `n` callbacks in the list and `word` in
      the lock word. A value seen before the word changed costs a reload. */
  function Left(f: Frame, n: nat, word: nat): nat {
    match f
    case NoFrame => 0
    case Load(g) => LeftIn(g, n) + 2
    case Try(g, prev) => LeftIn(g, n) + (if prev == word then 1 else 3)
    case Hold(g, _) => LeftIn(g, n)
    case Loop => 8 * n + 2
    case Release(_, Notify(_)) => 8 * n + 9
    case Release(_, WasPopped(_, _)) => 2
    case NotifyBody(_) => 8 * n + 8
    case After(_) => 8 * n + 7
    case Complete(_) => 8 * n + 6
    case _ => 1
  }

  function LeftIn(g: Goal, n: nat): nat {
    match g
    case Register(_) => 2
    case Unregister(_) => 3
    case _ => 8 * n + 3
  }

  /** Nobody else is inside a critical section, and the call of `t` does not wait for another thread. */
  ghost predicate Alone(s: State, t: Tid) {
    Inv(s) && Has(s, t) && !Top(s, t).Wait? && (s.owner.None? || s.owner == Some(TopPos(s, t)))
  }

  function LeftOf(s: State, p: Pos): nat { Left(At(s, p), |s.list|, s.word) }

  /** What thread `t` does when it is alone. */
  function SoloMove(s: State, t: Tid): Step
    requires Has(s, t)
  {
    match Top(s, t)
    case Try(g, prev) =>
      if Guarded(g) && Requested(prev) then Refuse(t)
      else if prev == s.word then CasWin(t)
      else if Locked(prev) then Spin(t)
      else CasFail(t)
    case f => Move(f, t)
  }

  lemma SoloLocks(s: State, t: Tid)
    requires Alone(s, t) && (Top(s, t).Try? || Top(s, t).Load?)
    ensures Next(s, SoloMove(s, t)).Some?
    ensures var s' := Next(s, SoloMove(s, t)).value;
            && LeftOf(s', TopPos(s, t)) < LeftOf(s, TopPos(s, t))
            && (s'.owner == s.owner || s'.owner == Some(TopPos(s, t)))
  {
    assert PosOk(s, TopPos(s, t));
    if Top(s, t).Try? { SoloTries(s, t); }
  }

  lemma SoloTries(s: State, t: Tid)
    requires Alone(s, t) && Top(s, t).Try?
    ensures Next(s, SoloMove(s, t)).Some?
    ensures var s' := Next(s, SoloMove(s, t)).value;
            && LeftOf(s', TopPos(s, t)) < LeftOf(s, TopPos(s, t))
            && (s'.owner == s.owner || s'.owner == Some(TopPos(s, t)))
  {
    assert PosOk(s, TopPos(s, t));
  }

  lemma SoloHolds(s: State, t: Tid)
    requires Alone(s, t) && (Top(s, t).Hold? || Top(s, t).Loop?)
    ensures Next(s, Work(t)).Some?
    ensures var s' := Next(s, Work(t)).value;
            LeftOf(s', TopPos(s, t)) < LeftOf(s, TopPos(s, t)) && s'.owner == s.owner
  {
    if Top(s, t).Loop? { SoloLoops(s, t); }
  }

  lemma SoloLoops(s: State, t: Tid)
    requires Alone(s, t) && Top(s, t).Loop?
    ensures var s' := Next(s, Work(t)).value;
            LeftOf(s', TopPos(s, t)) < LeftOf(s, TopPos(s, t)) && s'.owner == s.owner
  {
  }

  lemma SoloStores(s: State, t: Tid)
    requires Alone(s, t) && Top(s, t).Release?
    ensures var s' := Next(s, Store(t)).value;
            LeftOf(s', TopPos(s, t)) < LeftOf(s, TopPos(s, t)) && s'.owner == None
  {
    assert PosOk(s, TopPos(s, t));
  }

  lemma SoloFinishes(s: State, t: Tid)
    requires Alone(s, t) && !Top(s, t).Try? && !Top(s, t).Load? && !Top(s, t).Hold? && !Top(s, t).Loop?
    requires !Top(s, t).Release?
    ensures Next(s, Finish(t)).Some?
    ensures var s' := Next(s, Finish(t)).value;
            LeftOf(s', TopPos(s, t)) < LeftOf(s, TopPos(s, t)) && s'.owner == s.owner
  {
    assert StackOk(s, TopPos(s, t)) && PosOk(s, TopPos(s, t));
  }

  /** Left alone, the thread comes closer to returning with every step. */
  lemma SoloStep(s: State, t: Tid)
    requires Alone(s, t)
    ensures IsOwn(SoloMove(s, t), t) && Next(s, SoloMove(s, t)).Some?
    ensures var s', p := Next(s, SoloMove(s, t)).value, TopPos(s, t);
            && LeftOf(s', p) < LeftOf(s, p)
            && Inv(s') && (s'.owner.None? || s'.owner == Some(p))
            && (At(s', p) != NoFrame ==> Has(s', t) && TopPos(s', t) == p)
  {
    SoloMoves(s, t);
    Keeps(s, SoloMove(s, t));
    SameTop(s, SoloMove(s, t));
  }

  lemma SoloMoves(s: State, t: Tid)
    requires Alone(s, t)
    ensures IsOwn(SoloMove(s, t), t) && Next(s, SoloMove(s, t)).Some?
    ensures var s', p := Next(s, SoloMove(s, t)).value, TopPos(s, t);
            LeftOf(s', p) < LeftOf(s, p) && (s'.owner.None? || s'.owner == Some(p))
  {
    match Top(s, t)
    case Load(_) => SoloLocks(s, t);
    case Try(_, _) => SoloLocks(s, t);
    case Hold(_, _) => SoloHolds(s, t);
    case Loop => SoloHolds(s, t);
    case Release(_, _) => SoloStores(s, t);
    case _ => SoloFinishes(s, t);
  }

  lemma SameTop(s: State, st: Step)
    requires Inv(s) && Next(s, st).Some? && Inv(Next(s, st).value) && Has(s, st.t) && IsOwn(st, st.t)
    ensures var s' := Next(s, st).value;
            At(s', TopPos(s, st.t)) != NoFrame ==> Has(s', st.t) && TopPos(s', st.t) == TopPos(s, st.t)
  {
    var s' := Next(s, st).value;
    DepthShrinks(s, st);
    assert StackOk(s', TopPos(s, st.t));
  }

  lemma DepthShrinks(s: State, st: Step)
    requires Next(s, st).Some? && Has(s, st.t) && IsOwn(st, st.t)
    ensures Depth(Next(s, st).value, st.t) <= Depth(s, st.t)
  {
  }

  /** A call that is left alone returns, within the number of steps given by its frame and the length of the list, or
      comes to wait for a notification of another thread. */
  lemma {:induction false} AloneReturns(s: State, t: Tid) returns (steps: seq<Step>)
    requires Alone(s, t)
    ensures |steps| <= LeftOf(s, TopPos(s, t)) && forall st :: st in steps ==> IsOwn(st, t)
    ensures Exec(Next, s, steps).Some?
    ensures var f := At(Exec(Next, s, steps).value, TopPos(s, t)); f == NoFrame || f.Wait?
    decreases LeftOf(s, TopPos(s, t))
  {
    var p, st := TopPos(s, t), SoloMove(s, t);
    SoloStep(s, t);
    var s' := Next(s, st).value;
    if At(s', p) == NoFrame || At(s', p).Wait? {
      steps := [st];
      assert Exec(Next, s', []) == Some(s');
    } else {
      var rest := AloneReturns(s', t);
      steps := [st] + rest;
      assert steps[1..] == rest;
    }
  }
}
