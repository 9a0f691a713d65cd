/** Every step of every thread keeps the invariant of the stop token. */
module StopTokenInv {
  import opened Lists
  import opened Runs
  import opened StopToken

  ghost predicate SameFate(x: Record, x': Record) {
    x'.own == x.own && x'.fate == x.fate && (x.fate == Inline ==> x' == x)
  }

  /** `s'` differs from `s` in the frame at `p` and in record `r`, and in no flag the other threads rely on. */
  ghost predicate Local(s: State, s': State, p: Pos, r: Rec) {
    && (forall q :: q != p ==> At(s', q) == At(s, q))
    && (forall q :: q != r ==> Get(s', q) == Get(s, q))
    && s'.drain == s.drain && s'.requester == s.requester && Requested(s'.word) == Requested(s.word)
    && (s'.owner == s.owner || (s.owner == None && s'.owner == Some(p)) || (s.owner == Some(p) && s'.owner == None))
    && (Subject(At(s, p)) == None || Subject(At(s, p)) == Some(r))
    && (Claimed(s, r, p) || SameFate(Get(s, r), Get(s', r)))
  }

  /** No thread but the one at `p` is registering or unregistering `r`. */
  ghost predicate Claimed(s: State, r: Rec, p: Pos) {
    var o := Get(s, r).own;
    o.Ctor? || o.Dtor? ==> o.at == p
  }

  ghost predicate MayEnd(x: Record, x': Record) {
    (x'.own.Gone? ==> x.own.Gone? || x.completed) && (x.own.Gone? ==> x' == x)
  }

  /** What another thread may do to the record being notified: start or end its destructor, the latter only once
      completed. */
  ghost predicate DrainSafe(s: State, s': State, p: Pos, r: Rec) {
    var x, x' := Get(s, r), Get(s', r);
    s.drain.Active? && s.drain.at != p ==>
      || PosOk(s', s.drain.at)
      || (s'.flag == s.flag && (x.fate != Popped || (x' == x.(own := x'.own) && MayEnd(x, x'))))
  }

  /** A frame about another record only relies on what a local step keeps. */
  lemma ForeignRecord(s: State, s': State, p: Pos, r: Rec, q: Pos)
    requires PosOk(s, q) && Local(s, s', p, r) && q != p && Subject(At(s, q)) != Some(r)
    requires Holds(At(s, q)) ==> s'.owner == s.owner && s'.list == s.list
    requires s.drain == Active(q) ==> s'.flag == s.flag
    ensures PosOk(s', q)
  {
  }

  /** A frame about `r` itself that is not the draining one. */
  lemma SameRecord(s: State, s': State, p: Pos, r: Rec, q: Pos)
    requires PosOk(s, q) && Local(s, s', p, r) && q != p && Subject(At(s, q)) == Some(r)
    requires Holds(At(s, q)) ==> s'.owner == s.owner
    requires s.drain != Active(q)
    ensures PosOk(s', q)
  {
  }

  lemma DrainingFrame(s: State, s': State, p: Pos, r: Rec)
    requires s.drain.Active? && s.drain.at != p && PosOk(s, s.drain.at) && DrainFrame(At(s, s.drain.at))
    requires Subject(At(s, s.drain.at)) == Some(r)
    requires Local(s, s', p, r) && DrainSafe(s, s', p, r)
    requires Holds(At(s, s.drain.at)) ==> s'.owner == s.owner
    ensures PosOk(s', s.drain.at)
  {
  }

  lemma LocalFrames(s: State, s': State, p: Pos, r: Rec)
    requires FramesOk(s) && GlobalOk(s) && Local(s, s', p, r) && DrainSafe(s, s', p, r)
    requires PosOk(s', p) && (s'.list == s.list || s.owner == Some(p))
    ensures FramesOk(s')
  {
    forall q ensures PosOk(s', q) {
      assert PosOk(s, q) && PosOk(s, p);
      if q != p {
        if Subject(At(s, q)) != Some(r) {
          if s.drain != Active(q) || s'.flag == s.flag { ForeignRecord(s, s', p, r, q); }
        } else if s.drain == Active(q) {
          DrainingFrame(s, s', p, r);
        } else {
          SameRecord(s, s', p, r, q);
        }
      }
    }
  }

  lemma LocalRecs(s: State, s': State, p: Pos, r: Rec)
    requires RecsOk(s) && Local(s, s', p, r) && RecOk(s', r)
    requires Current(s') == Current(s) || (s.drain == Active(p) && Current(s') == None && Current(s) == Some(r))
    requires forall q :: q != r ==> (q in s'.list <==> q in s.list)
    ensures RecsOk(s')
  {
    forall q ensures RecOk(s', q) {
      assert RecOk(s, q);
    }
  }

  lemma StacksReplaced(s: State, s': State, t: Tid, f: Frame)
    requires StacksOk(s) && Has(s, t) && f != NoFrame
    requires s'.frames == s.frames[TopPos(s, t) := f] && s'.depth == s.depth
    ensures StacksOk(s')
  {
    forall q ensures StackOk(s', q) { assert StackOk(s, q); }
  }

  lemma StacksReturned(s: State, s': State, t: Tid)
    requires StacksOk(s) && Has(s, t)
    requires s'.frames == Return(s, t).frames && s'.depth == Return(s, t).depth
    ensures StacksOk(s')
  {
    forall q ensures StackOk(s', q) { assert StackOk(s, q); }
  }

  lemma StacksCalled(s: State, s': State, t: Tid, f: Frame)
    requires StacksOk(s) && CanCall(s, t) && f != NoFrame
    requires s'.frames == Call(s, t, f).frames && s'.depth == Call(s, t, f).depth
    ensures StacksOk(s') && At(s, NewPos(s, t)) == NoFrame
  {
    assert StackOk(s, NewPos(s, t));
    forall q ensures StackOk(s', q) { assert StackOk(s, q); }
  }

  /** `s'` is `s` but for the frame at `p`, the lock, and the depth of a stack. */
  ghost predicate Moved(s: State, s': State, p: Pos) {
    && s'.recs == s.recs && s'.list == s.list && s'.flag == s.flag && s'.drain == s.drain && s'.requester == s.requester
    && Requested(s'.word) == Requested(s.word) && s'.frames == s.frames[p := At(s', p)]
    && (s'.owner == s.owner
        || (s.owner == None && s'.owner == Some(p))
        || (s.owner == Some(p) && s'.owner == None && At(s, p).Release?))
    && Subject(At(s', p)) == Subject(At(s, p)) && DrainFrame(At(s', p)) == DrainFrame(At(s, p))
    && (At(s, p).Release? ==> !At(s, p).k.Registered?)
  }

  lemma MovedRecord(s: State, s': State, p: Pos, r: Rec)
    requires Moved(s, s', p) && RecOk(s, r) && PosOk(s, p)
    ensures RecOk(s', r)
  {
    assert Current(s') == Current(s);
  }

  /** A step that changes no record and no list: it moves the frame at `p` and possibly takes or drops the lock. */
  lemma FrameStep(s: State, s': State, p: Pos)
    requires Inv(s) && StacksOk(s') && GlobalOk(s') && PosOk(s', p) && Moved(s, s', p)
    ensures Inv(s')
  {
    var r := match Subject(At(s, p)) case Some(r) => r case None => 0;
    assert PosOk(s, p);
    assert forall q :: Get(s', q) == Get(s, q);
    assert forall q :: q != p ==> At(s', q) == At(s, q);
    LocalFrames(s, s', p, r);
    forall q ensures RecOk(s', q) { assert RecOk(s, q); MovedRecord(s, s', p, q); }
  }

  lemma KeepsCallRegister(s: State, t: Tid, r: Rec)
    requires Inv(s) && CanCall(s, t) && Get(s, r).own == Unborn
    ensures Inv(Call(Put(s, r, Record(Ctor(NewPos(s, t)), Fresh, false, false, false, [], t)), t, Load(Register(r))))
  {
    var s' := Call(Put(s, r, Record(Ctor(NewPos(s, t)), Fresh, false, false, false, [], t)), t, Load(Register(r)));
    var p := NewPos(s, t);
    assert PosOk(s, p) && RecOk(s, r);
    StacksCalled(s, s', t, At(s', p));
    LocalFrames(s, s', p, r);
    LocalRecs(s, s', p, r);
  }

  lemma KeepsCallUnregister(s: State, t: Tid, r: Rec)
    requires Inv(s) && CanCall(s, t) && Get(s, r).own == Live && Get(s, r).fate != Inline
    ensures Inv(Call(Put(s, r, Get(s, r).(own := Dtor(NewPos(s, t)))), t, Load(Unregister(r))))
  {
    var s' := Call(Put(s, r, Get(s, r).(own := Dtor(NewPos(s, t)))), t, Load(Unregister(r)));
    var p := NewPos(s, t);
    assert PosOk(s, p) && RecOk(s, r);
    StacksCalled(s, s', t, At(s', p));
    LocalFrames(s, s', p, r);
    LocalRecs(s, s', p, r);
  }

  lemma KeepsCallRequest(s: State, t: Tid)
    requires Inv(s) && CanCall(s, t)
    ensures Inv(Call(s, t, Load(Request)))
  {
    var s' := Call(s, t, Load(Request));
    var p := NewPos(s, t);
    assert PosOk(s, p);
    StacksCalled(s, s', t, At(s', p));
    FrameStep(s, s', p);
  }

  lemma KeepsDestroyInline(s: State, t: Tid, r: Rec)
    requires Inv(s) && CanCall(s, t) && Get(s, r).own == Live && Get(s, r).fate == Inline
    ensures Inv(Put(s, r, Get(s, r).(own := Gone(t))))
  {
    var s' := Put(s, r, Get(s, r).(own := Gone(t)));
    var p := NewPos(s, t);
    assert PosOk(s, p) && RecOk(s, r);
    assert StackOk(s, p);
    assert forall q :: StackOk(s', q) == StackOk(s, q);
    LocalFrames(s, s', p, r);
    LocalRecs(s, s', p, r);
  }

  lemma KeepsLoadWord(s: State, t: Tid)
    requires Inv(s) && Has(s, t) && Top(s, t).Load?
    ensures Inv(Replace(s, t, Try(Top(s, t).g, s.word)))
  {
    var s' := Replace(s, t, Try(Top(s, t).g, s.word));
    var p := TopPos(s, t);
    assert PosOk(s, p);
    StacksReplaced(s, s', t, At(s', p));
    FrameStep(s, s', p);
  }

  lemma KeepsSpin(s: State, t: Tid)
    requires Inv(s) && Has(s, t) && Top(s, t).Try? && MustSpin(Top(s, t))
    ensures Inv(Replace(s, t, Load(Top(s, t).g)))
  {
    var s' := Replace(s, t, Load(Top(s, t).g));
    var p := TopPos(s, t);
    assert PosOk(s, p);
    StacksReplaced(s, s', t, At(s', p));
    FrameStep(s, s', p);
  }

  lemma KeepsCasFail(s: State, t: Tid)
    requires Inv(s) && Has(s, t) && Top(s, t).Try? && MayCas(Top(s, t))
    ensures Inv(Replace(s, t, Try(Top(s, t).g, s.word)))
  {
    var s' := Replace(s, t, Try(Top(s, t).g, s.word));
    var p := TopPos(s, t);
    assert PosOk(s, p);
    StacksReplaced(s, s', t, At(s', p));
    FrameStep(s, s', p);
  }

  lemma KeepsCasWin(s: State, t: Tid)
    requires Inv(s) && Next(s, CasWin(t)).Some? && !Top(s, t).g.Request?
    ensures Inv(Next(s, CasWin(t)).value)
  {
    var s' := Next(s, CasWin(t)).value;
    var p := TopPos(s, t);
    assert PosOk(s, p);
    StacksReplaced(s, s', t, At(s', p));
    FrameStep(s, s', p);
  }

  lemma KeepsRefuseRegister(s: State, t: Tid)
    requires Inv(s) && Next(s, Refuse(t)).Some? && Top(s, t).g.Register?
    ensures Inv(Next(s, Refuse(t)).value)
  {
    var s' := Next(s, Refuse(t)).value;
    var p := TopPos(s, t);
    var r := Subject(Top(s, t)).value;
    assert PosOk(s, p) && RecOk(s, r);
    StacksReplaced(s, s', t, At(s', p));
    LocalFrames(s, s', p, r);
    LocalRecs(s, s', p, r);
  }

  lemma KeepsRefuseRequest(s: State, t: Tid)
    requires Inv(s) && Next(s, Refuse(t)).Some? && Top(s, t).g.Request?
    ensures Inv(Next(s, Refuse(t)).value)
  {
    var s' := Next(s, Refuse(t)).value;
    var p := TopPos(s, t);
    assert PosOk(s, p);
    StacksReturned(s, s', t);
    FrameStep(s, s', p);
  }

  lemma KeepsPush(s: State, t: Tid)
    requires Inv(s) && Has(s, t) && Critical(s, t, Top(s, t)).Some? && Top(s, t).Hold? && Top(s, t).g.Register?
    ensures Inv(Critical(s, t, Top(s, t)).value)
  {
    var s' := Critical(s, t, Top(s, t)).value;
    var p := TopPos(s, t);
    var r := Subject(Top(s, t)).value;
    assert PosOk(s, p) && RecOk(s, r);
    StacksReplaced(s, s', t, At(s', p));
    LocalFrames(s, s', p, r);
    LocalRecs(s, s', p, r);
  }

  lemma KeepsUnlink(s: State, t: Tid)
    requires Inv(s) && Has(s, t) && Critical(s, t, Top(s, t)).Some?
    requires Top(s, t).Hold? && Top(s, t).g.Unregister? && Get(s, Top(s, t).g.r).linked
    ensures Inv(Critical(s, t, Top(s, t)).value)
  {
    var s' := Critical(s, t, Top(s, t)).value;
    var p := TopPos(s, t);
    var r := Subject(Top(s, t)).value;
    assert PosOk(s, p) && RecOk(s, r);
    WithoutIs(s.list, r);
    StacksReplaced(s, s', t, At(s', p));
    LocalFrames(s, s', p, r);
    LocalRecs(s, s', p, r);
  }

  lemma KeepsReadNotifier(s: State, t: Tid)
    requires Inv(s) && Has(s, t) && Critical(s, t, Top(s, t)).Some?
    requires Top(s, t).Hold? && Top(s, t).g.Unregister? && !Get(s, Top(s, t).g.r).linked
    ensures Inv(Critical(s, t, Top(s, t)).value)
  {
    var s' := Critical(s, t, Top(s, t)).value;
    var p := TopPos(s, t);
    assert PosOk(s, p);
    assert RecOk(s, Top(s, t).g.r);
    StacksReplaced(s, s', t, At(s', p));
    FrameStep(s, s', p);
  }

  lemma KeepsRelock(s: State, t: Tid)
    requires Inv(s) && Has(s, t) && Critical(s, t, Top(s, t)).Some? && Top(s, t).Hold? && Top(s, t).g.Relock?
    ensures Inv(Critical(s, t, Top(s, t)).value)
  {
    var s' := Critical(s, t, Top(s, t)).value;
    var p := TopPos(s, t);
    assert PosOk(s, p);
    StacksReplaced(s, s', t, At(s', p));
    FrameStep(s, s', p);
  }

  lemma KeepsDrained(s: State, t: Tid)
    requires Inv(s) && Has(s, t) && Critical(s, t, Top(s, t)).Some? && Top(s, t).Loop? && s.list == []
    ensures Inv(Critical(s, t, Top(s, t)).value)
  {
    var s' := Critical(s, t, Top(s, t)).value;
    var p := TopPos(s, t);
    assert PosOk(s, p);
    StacksReplaced(s, s', t, At(s', p));
    FrameStep(s, s', p);
  }

  lemma KeepsStoreWasPopped(s: State, t: Tid)
    requires Inv(s) && Has(s, t) && Top(s, t).Release? && Top(s, t).k.WasPopped?
    ensures Inv(Unlock(s, t, Top(s, t).w, Top(s, t).k))
  {
    var s' := Unlock(s, t, Top(s, t).w, Top(s, t).k);
    var p := TopPos(s, t);
    assert PosOk(s, p);
    StacksReplaced(s, s', t, At(s', p));
    FrameStep(s, s', p);
  }

  lemma KeepsStoreRegistered(s: State, t: Tid)
    requires Inv(s) && Has(s, t) && Top(s, t).Release? && Top(s, t).k.Registered?
    ensures Inv(Unlock(s, t, Top(s, t).w, Top(s, t).k))
  {
    var s' := Unlock(s, t, Top(s, t).w, Top(s, t).k);
    var p := TopPos(s, t);
    var r := Subject(Top(s, t)).value;
    assert PosOk(s, p) && RecOk(s, r);
    StacksReturned(s, s', t);
    LocalFrames(s, s', p, r);
    LocalRecs(s, s', p, r);
  }

  lemma KeepsStoreUnlinked(s: State, t: Tid)
    requires Inv(s) && Has(s, t) && Top(s, t).Release? && Top(s, t).k.Unlinked?
    ensures Inv(Unlock(s, t, Top(s, t).w, Top(s, t).k))
  {
    var s' := Unlock(s, t, Top(s, t).w, Top(s, t).k);
    var p := TopPos(s, t);
    var r := Subject(Top(s, t)).value;
    assert PosOk(s, p) && RecOk(s, r);
    StacksReturned(s, s', t);
    LocalFrames(s, s', p, r);
    LocalRecs(s, s', p, r);
  }

  lemma KeepsStoreNotify(s: State, t: Tid)
    requires Inv(s) && Has(s, t) && Top(s, t).Release? && Top(s, t).k.Notify?
    ensures Inv(Unlock(s, t, Top(s, t).w, Top(s, t).k))
  {
    var s' := Unlock(s, t, Top(s, t).w, Top(s, t).k);
    var p := TopPos(s, t);
    var r := Subject(Top(s, t)).value;
    assert PosOk(s, p) && RecOk(s, r);
    StacksReplaced(s, s', t, At(s', p));
    LocalFrames(s, s', p, r);
    LocalRecs(s, s', p, r);
  }

  lemma KeepsInlineEnd(s: State, t: Tid)
    requires Inv(s) && Has(s, t) && Outside(s, t, Top(s, t)).Some? && Top(s, t).InlineBody?
    ensures Inv(Outside(s, t, Top(s, t)).value)
  {
    var s' := Outside(s, t, Top(s, t)).value;
    var p := TopPos(s, t);
    var r := Subject(Top(s, t)).value;
    assert PosOk(s, p) && RecOk(s, r);
    StacksReturned(s, s', t);
    LocalFrames(s, s', p, r);
    LocalRecs(s, s', p, r);
  }

  lemma KeepsReentrant(s: State, t: Tid)
    requires Inv(s) && Has(s, t) && Outside(s, t, Top(s, t)).Some? && Top(s, t).Reentrant?
    ensures Inv(Outside(s, t, Top(s, t)).value)
  {
    var s' := Outside(s, t, Top(s, t)).value;
    var p := TopPos(s, t);
    var r := Subject(Top(s, t)).value;
    assert PosOk(s, p) && RecOk(s, r);
    if s.drain.Active? { assert StackOk(s, s.drain.at) && PosOk(s, s.drain.at); }
    StacksReturned(s, s', t);
    LocalFrames(s, s', p, r);
    LocalRecs(s, s', p, r);
  }

  lemma KeepsWait(s: State, t: Tid)
    requires Inv(s) && Has(s, t) && Outside(s, t, Top(s, t)).Some? && Top(s, t).Wait?
    ensures Inv(Outside(s, t, Top(s, t)).value)
  {
    var s' := Outside(s, t, Top(s, t)).value;
    var p := TopPos(s, t);
    var r := Subject(Top(s, t)).value;
    assert PosOk(s, p) && RecOk(s, r);
    StacksReturned(s, s', t);
    LocalFrames(s, s', p, r);
    LocalRecs(s, s', p, r);
  }

  lemma KeepsBodyEnd(s: State, t: Tid)
    requires Inv(s) && Has(s, t) && Outside(s, t, Top(s, t)).Some? && Top(s, t).NotifyBody?
    ensures Inv(Outside(s, t, Top(s, t)).value)
  {
    var s' := Outside(s, t, Top(s, t)).value;
    var p := TopPos(s, t);
    assert PosOk(s, p);
    StacksReplaced(s, s', t, At(s', p));
    FrameStep(s, s', p);
  }

  lemma KeepsAfter(s: State, t: Tid)
    requires Inv(s) && Has(s, t) && Outside(s, t, Top(s, t)).Some? && Top(s, t).After?
    ensures Inv(Outside(s, t, Top(s, t)).value)
  {
    var s' := Outside(s, t, Top(s, t)).value;
    var p := TopPos(s, t);
    var r := Subject(Top(s, t)).value;
    assert PosOk(s, p) && RecOk(s, r);
    StacksReplaced(s, s', t, At(s', p));
    LocalFrames(s, s', p, r);
    LocalRecs(s, s', p, r);
  }

  lemma KeepsComplete(s: State, t: Tid)
    requires Inv(s) && Has(s, t) && Outside(s, t, Top(s, t)).Some? && Top(s, t).Complete?
    ensures Inv(Outside(s, t, Top(s, t)).value)
  {
    var s' := Outside(s, t, Top(s, t)).value;
    var p := TopPos(s, t);
    var r := Subject(Top(s, t)).value;
    assert PosOk(s, p) && RecOk(s, r);
    StacksReplaced(s, s', t, At(s', p));
    LocalFrames(s, s', p, r);
    LocalRecs(s, s', p, r);
  }

  /** Winning the claim: nobody has popped a record yet, and nobody holds the lock. */
  lemma ClaimFrame(s: State, s': State, p: Pos, q: Pos)
    requires PosOk(s, q) && q != p && At(s', q) == At(s, q)
    requires s' == s.(frames := s'.frames, word := 3, owner := Some(p), drain := Active(p))
    requires s.word == 0 && s.owner == None && s.drain == Unclaimed
    ensures PosOk(s', q)
  {
  }

  lemma KeepsCasClaim(s: State, t: Tid)
    requires Inv(s) && Next(s, CasWin(t)).Some? && Top(s, t).g.Request?
    ensures Inv(Next(s, CasWin(t)).value)
  {
    var s' := Next(s, CasWin(t)).value;
    var p := TopPos(s, t);
    assert PosOk(s, p);
    StacksReplaced(s, s', t, At(s', p));
    forall q ensures PosOk(s', q) {
      assert PosOk(s, q);
      if q != p { ClaimFrame(s, s', p, q); }
    }
    assert forall r :: Get(s', r) == Get(s, r);
    forall r ensures RecOk(s', r) { assert RecOk(s, r); }
  }

  lemma KeepsClaim(s: State, t: Tid)
    requires Inv(s) && Has(s, t) && Critical(s, t, Top(s, t)).Some? && Top(s, t).Hold? && Top(s, t).g.Request?
    ensures Inv(Critical(s, t, Top(s, t)).value)
  {
    var s' := Critical(s, t, Top(s, t)).value;
    var p := TopPos(s, t);
    assert PosOk(s, p);
    StacksReplaced(s, s', t, At(s', p));
    assert forall q :: q != p ==> At(s', q) == At(s, q);
    assert forall r :: Get(s', r) == Get(s, r);
    forall q ensures PosOk(s', q) { assert PosOk(s, q); }
    forall r ensures RecOk(s', r) { assert RecOk(s, r); }
  }

  lemma KeepsPop(s: State, t: Tid)
    requires Inv(s) && Has(s, t) && Critical(s, t, Top(s, t)).Some? && Top(s, t).Loop? && s.list != []
    ensures Inv(Critical(s, t, Top(s, t)).value)
  {
    var s' := Critical(s, t, Top(s, t)).value;
    var p := TopPos(s, t);
    var r := s.list[0];
    assert s.list == [r] + s.list[1..];
    assert PosOk(s, p) && RecOk(s, r);
    StacksReplaced(s, s', t, At(s', p));
    assert forall q :: q != p ==> At(s', q) == At(s, q);
    assert forall q :: q != r ==> Get(s', q) == Get(s, q);
    forall q ensures PosOk(s', q) { assert PosOk(s, q); }
    forall q ensures RecOk(s', q) { assert RecOk(s, q); }
  }

  lemma KeepsStoreDrained(s: State, t: Tid)
    requires Inv(s) && Has(s, t) && Top(s, t).Release? && Top(s, t).k.Drained?
    ensures Inv(Unlock(s, t, Top(s, t).w, Top(s, t).k))
  {
    var s' := Unlock(s, t, Top(s, t).w, Top(s, t).k);
    var p := TopPos(s, t);
    assert PosOk(s, p);
    StacksReturned(s, s', t);
    assert forall q :: q != p ==> At(s', q) == At(s, q);
    assert forall r :: Get(s', r) == Get(s, r);
    forall q ensures PosOk(s', q) { assert PosOk(s, q); }
    forall r ensures RecOk(s', r) { assert RecOk(s, r); }
  }

  lemma KeepsWork(s: State, t: Tid)
    requires Inv(s) && Has(s, t) && Critical(s, t, Top(s, t)).Some?
    ensures Inv(Critical(s, t, Top(s, t)).value)
  {
    match Top(s, t)
    case Hold(Register(_), _) => KeepsPush(s, t);
    case Hold(Unregister(r), _) => if Get(s, r).linked { KeepsUnlink(s, t); } else { KeepsReadNotifier(s, t); }
    case Hold(Request, _) => KeepsClaim(s, t);
    case Hold(Relock, _) => KeepsRelock(s, t);
    case _ => if s.list == [] { KeepsDrained(s, t); } else { KeepsPop(s, t); }
  }

  lemma KeepsStore(s: State, t: Tid)
    requires Inv(s) && Has(s, t) && Top(s, t).Release?
    ensures Inv(Unlock(s, t, Top(s, t).w, Top(s, t).k))
  {
    match Top(s, t).k
    case Registered(_) => KeepsStoreRegistered(s, t);
    case Unlinked(_) => KeepsStoreUnlinked(s, t);
    case WasPopped(_, _) => KeepsStoreWasPopped(s, t);
    case Notify(_) => KeepsStoreNotify(s, t);
    case Drained => KeepsStoreDrained(s, t);
  }

  lemma KeepsFinish(s: State, t: Tid)
    requires Inv(s) && Has(s, t) && Outside(s, t, Top(s, t)).Some?
    ensures Inv(Outside(s, t, Top(s, t)).value)
  {
    match Top(s, t)
    case InlineBody(_) => KeepsInlineEnd(s, t);
    case Reentrant(_) => KeepsReentrant(s, t);
    case Wait(_) => KeepsWait(s, t);
    case NotifyBody(_) => KeepsBodyEnd(s, t);
    case After(_) => KeepsAfter(s, t);
    case _ => KeepsComplete(s, t);
  }

  lemma Keeps(s: State, st: Step)
    requires Inv(s) && Next(s, st).Some?
    ensures Inv(Next(s, st).value)
  {
    match st
    case CallRegister(t, r) => KeepsCallRegister(s, t, r);
    case CallUnregister(t, r) => KeepsCallUnregister(s, t, r);
    case CallRequest(t) => KeepsCallRequest(s, t);
    case DestroyInline(t, r) => KeepsDestroyInline(s, t, r);
    case LoadWord(t) => KeepsLoadWord(s, t);
    case Spin(t) => KeepsSpin(s, t);
    case CasFail(t) => KeepsCasFail(s, t);
    case CasWin(t) => if Top(s, t).g.Request? { KeepsCasClaim(s, t); } else { KeepsCasWin(s, t); }
    case Refuse(t) => if Top(s, t).g.Register? { KeepsRefuseRegister(s, t); } else { KeepsRefuseRequest(s, t); }
    case Work(t) => KeepsWork(s, t);
    case Store(t) => KeepsStore(s, t);
    case Finish(t) => KeepsFinish(s, t);
  }

  /** The states some run of some threads reaches. */
  ghost predicate Reachable(s: State) {
    exists steps: seq<Step> :: Exec(Next, INIT, steps) == Some(s)
  }

  lemma InvHolds(s: State)
    requires Reachable(s)
    ensures Inv(s)
  {
    var steps: seq<Step> :| Exec(Next, INIT, steps) == Some(s);
    forall x, st | Inv(x) && Next(x, st).Some? ensures Inv(Next(x, st).value) { Keeps(x, st); }
    Preserved(Next, x => Inv(x), INIT, steps);
  }
}
