/** inplace_stop_source, its callbacks and their destructors as a transition system: any number of threads, each with a
    stack of calls since a callback body may register, unregister and request stop, one atomic access or one critical
    section at a time. */
module StopToken {
  import opened Lists
  import opened Runs

  /** A thread, a callback record, and a call on the stack of a thread. */
  type Tid = nat
  type Rec = nat
  datatype Pos = Pos(t: Tid, i: nat)

  /** What a thread wants the lock for: `try_add_callback`, `remove_callback`, the claim of `request_stop`, or the
      re-lock between two callbacks. */
  datatype Goal = Register(r: Rec) | Unregister(r: Rec) | Request | Relock

  /** What comes after the lock is released. */
  datatype Then =
    | Registered(r: Rec)
    | Unlinked(r: Rec)
    | WasPopped(r: Rec, notifier: Option<Tid>)
    | Notify(r: Rec)
    | Drained

  /** How far a call has come. */
  datatype Frame =
    | NoFrame
    // taking the lock: the first load, the value last seen, the critical section
    | Load(g: Goal)
    | Try(g: Goal, prev: nat)
    | Hold(g: Goal, prev: nat)
    // request_stop at the head of its loop
    | Loop
    // the store of `w` that opens the lock
    | Release(w: nat, k: Then)
    // a callback run by the constructor
    | InlineBody(r: Rec)
    // remove_callback of a popped record
    | Reentrant(r: Rec)
    | Wait(r: Rec)
    // a callback run by request_stop, the test of its flag, the store to `completed`
    | NotifyBody(r: Rec)
    | After(r: Rec)
    | Complete(r: Rec)

  /** Who constructs or destroys a record, and which thread has destroyed it. */
  datatype Own = Unborn | Ctor(at: Pos) | Live | Dtor(at: Pos) | Gone(on: Tid)
  /** Where a record has been, the threads that ran its callback, and the one that constructed it. `linked`:
      `prev_ptr` is not null; `armed`: `removed_during_callback` is not null. Those two and `completed` are the fields
      of the code. */
  datatype Fate = Fresh | InList | Removed | Popped | Inline
  datatype Record = Record(own: Own, fate: Fate, linked: bool, armed: bool, completed: bool, runs: seq<Tid>, maker: Tid)

  datatype Drain = Unclaimed | Active(at: Pos) | Finished

  /** `flag` is the `removed_during_callback` of the notification under way. `owner`, `drain` and `wins` are auxiliary:
      who holds the lock, who claimed the request, and how many calls of `request_stop` have returned true. */
  datatype State = State(
    word: nat, list: seq<Rec>, requester: Option<Tid>, flag: bool,
    depth: map<Tid, nat>, frames: map<Pos, Frame>, recs: map<Rec, Record>,
    owner: Option<Pos>, drain: Drain, wins: nat)

  predicate Requested(w: nat) { w % 2 == 1 }
  predicate Locked(w: nat) { w / 2 % 2 == 1 }

  function Get(s: State, r: Rec): Record {
    if r in s.recs then s.recs[r] else Record(Unborn, Fresh, false, false, false, [], 0)
  }

  function Depth(s: State, t: Tid): nat { if t in s.depth then s.depth[t] else 0 }
  function At(s: State, p: Pos): Frame { if p in s.frames then s.frames[p] else NoFrame }
  predicate Has(s: State, t: Tid) { Depth(s, t) > 0 }
  function TopPos(s: State, t: Tid): Pos requires Has(s, t) { Pos(t, Depth(s, t) - 1) }
  function Top(s: State, t: Tid): Frame requires Has(s, t) { At(s, TopPos(s, t)) }
  function NewPos(s: State, t: Tid): Pos { Pos(t, Depth(s, t)) }
  predicate IsBody(f: Frame) { f.InlineBody? || f.NotifyBody? }

  function Replace(s: State, t: Tid, f: Frame): State
    requires Has(s, t)
  { s.(frames := s.frames[TopPos(s, t) := f]) }
  function Return(s: State, t: Tid): State
    requires Has(s, t)
  { s.(frames := s.frames[TopPos(s, t) := NoFrame], depth := s.depth[t := Depth(s, t) - 1]) }
  function Call(s: State, t: Tid, f: Frame): State
  { s.(frames := s.frames[NewPos(s, t) := f], depth := s.depth[t := Depth(s, t) + 1]) }
  function Put(s: State, r: Rec, x: Record): State { s.(recs := s.recs[r := x]) }

  /** A thread may make a call when it is idle, or from inside a callback body. */
  predicate CanCall(s: State, t: Tid) { Has(s, t) ==> IsBody(Top(s, t)) }

  datatype Step =
    | CallRegister(t: Tid, r: Rec)
    | CallUnregister(t: Tid, r: Rec)
    | CallRequest(t: Tid)
    | DestroyInline(t: Tid, r: Rec)
    | LoadWord(t: Tid)
    | Spin(t: Tid)
    | CasFail(t: Tid)
    | CasWin(t: Tid)
    | Refuse(t: Tid)
    | Work(t: Tid)
    | Store(t: Tid)
    | Finish(t: Tid)

  function Next(s: State, st: Step): Option<State> {
    match st
    case CallRegister(t, r) =>
      if CanCall(s, t) && Get(s, r).own == Unborn then
        Some(Call(Put(s, r, Record(Ctor(NewPos(s, t)), Fresh, false, false, false, [], t)), t, Load(Register(r))))
      else None
    case CallUnregister(t, r) =>
      if CanCall(s, t) && Get(s, r).own == Live && Get(s, r).fate != Inline then
        Some(Call(Put(s, r, Get(s, r).(own := Dtor(NewPos(s, t)))), t, Load(Unregister(r))))
      else None
    case CallRequest(t) =>
      if CanCall(s, t) then Some(Call(s, t, Load(Request))) else None
    case DestroyInline(t, r) =>
      if CanCall(s, t) && Get(s, r).own == Live && Get(s, r).fate == Inline then
        Some(Put(s, r, Get(s, r).(own := Gone(t))))
      else None
    case LoadWord(t) =>
      if Has(s, t) && Top(s, t).Load? then Some(Replace(s, t, Try(Top(s, t).g, s.word))) else None
    case Spin(t) =>
      if Has(s, t) && Top(s, t).Try? && MustSpin(Top(s, t)) then Some(Replace(s, t, Load(Top(s, t).g))) else None
    case CasFail(t) =>
      if Has(s, t) && Top(s, t).Try? && MayCas(Top(s, t)) then Some(Replace(s, t, Try(Top(s, t).g, s.word))) else None
    case CasWin(t) =>
      if Has(s, t) && Top(s, t).Try? && MayCas(Top(s, t)) && s.word == Top(s, t).prev then
        var f := Top(s, t);
        var s1 := Replace(s, t, Hold(f.g, f.prev)).(word := Acquired(f), owner := Some(TopPos(s, t)));
        Some(if f.g.Request? then s1.(drain := Active(TopPos(s, t))) else s1)
      else None
    case Refuse(t) =>
      if Has(s, t) && Top(s, t).Try? && Refused(Top(s, t)) then
        match Top(s, t).g
        case Register(r) =>
          Some(Replace(Put(s, r, Get(s, r).(fate := Inline, runs := Get(s, r).runs + [t])), t, InlineBody(r)))
        case _ => Some(Return(s, t))
      else None
    case Work(t) => if Has(s, t) then Critical(s, t, Top(s, t)) else None
    case Store(t) => if Has(s, t) && Top(s, t).Release? then Some(Unlock(s, t, Top(s, t).w, Top(s, t).k)) else None
    case Finish(t) => if Has(s, t) then Outside(s, t, Top(s, t)) else None
  }

  // `try_lock_unless_stop_requested` (guarded) and `lock`: when they give up, spin, or try the exchange.

  predicate Guarded(g: Goal) { g.Register? || g.Request? }
  predicate Refused(f: Frame) requires f.Try? { Guarded(f.g) && Requested(f.prev) }
  predicate MustSpin(f: Frame)
    requires f.Try?
  {
    if Guarded(f.g) then !Requested(f.prev) && f.prev != 0 else Locked(f.prev)
  }

  predicate MayCas(f: Frame) requires f.Try? { if Guarded(f.g) then f.prev == 0 else !Locked(f.prev) }
  function Acquired(f: Frame): nat requires f.Try? { if f.g.Request? then f.prev + 3 else f.prev + 2 }

  /** What is done under the lock. */
  function Critical(s: State, t: Tid, f: Frame): Option<State>
    requires Has(s, t) && f == Top(s, t)
  {
    match f
    case Hold(Register(r), _) =>
      var s1 := Put(s, r, Get(s, r).(fate := InList, linked := true));
      Some(Replace(s1, t, Release(0, Registered(r))).(list := [r] + s.list))
    case Hold(Unregister(r), prev) =>
      if Get(s, r).linked then
        var s1 := Put(s, r, Get(s, r).(fate := Removed));
        Some(Replace(s1, t, Release(prev, Unlinked(r))).(list := Without(s.list, r)))
      else
        Some(Replace(s, t, Release(prev, WasPopped(r, s.requester))))
    case Hold(Request, _) => Some(Replace(s, t, Loop).(requester := Some(t)))
    case Hold(Relock, _) => Some(Replace(s, t, Loop))
    case Loop =>
      if s.list == [] then Some(Replace(s, t, Release(1, Drained)))
      else
        var r := s.list[0];
        var s1 := Put(s, r, Get(s, r).(fate := Popped, linked := false, armed := true));
        Some(Replace(s1, t, Release(1, Notify(r))).(list := s.list[1..], flag := false))
    case _ => None
  }

  /** The store that opens the lock, and what the thread does next. */
  function Unlock(s: State, t: Tid, w: nat, k: Then): State
    requires Has(s, t)
  {
    var s1 := s.(word := w, owner := None);
    match k
    case Registered(r) => Return(Put(s1, r, Get(s, r).(own := Live)), t)
    case Unlinked(r) => Return(Put(s1, r, Get(s, r).(own := Gone(t))), t)
    case WasPopped(r, n) => Replace(s1, t, if n == Some(t) then Reentrant(r) else Wait(r))
    case Notify(r) => Replace(Put(s1, r, Get(s, r).(runs := Get(s, r).runs + [t])), t, NotifyBody(r))
    case Drained => Return(s1.(drain := Finished, wins := s.wins + 1), t)
  }

  /** What is done outside the lock. */
  function Outside(s: State, t: Tid, f: Frame): Option<State>
    requires Has(s, t) && f == Top(s, t)
  {
    match f
    case InlineBody(r) => Some(Return(Put(s, r, Get(s, r).(own := Live)), t))
    case Reentrant(r) =>
      Some(Return(Put(s, r, Get(s, r).(own := Gone(t))), t).(flag := if Get(s, r).armed then true else s.flag))
    case Wait(r) => if Get(s, r).completed then Some(Return(Put(s, r, Get(s, r).(own := Gone(t))), t)) else None
    case NotifyBody(r) => Some(Replace(s, t, After(r)))
    case After(r) =>
      if s.flag then Some(Replace(s, t, Load(Relock)))
      else Some(Replace(Put(s, r, Get(s, r).(armed := false)), t, Complete(r)))
    case Complete(r) => Some(Replace(Put(s, r, Get(s, r).(completed := true)), t, Load(Relock)))
    case _ => None
  }

  const INIT := State(0, [], None, false, map[], map[], map[], None, Unclaimed, 0)

  // ---------- the invariant

  predicate Holds(f: Frame) { f.Hold? || f.Loop? || f.Release? }

  ghost predicate GoalOk(s: State, p: Pos, g: Goal) {
    match g
    case Register(r) => Get(s, r).own == Ctor(p) && Get(s, r).fate == Fresh
    case Unregister(r) => Get(s, r).own == Dtor(p) && (Get(s, r).fate == InList || Get(s, r).fate == Popped)
    case Request => true
    case Relock => s.drain == Active(p)
  }

  ghost predicate ThenOk(s: State, p: Pos, k: Then) {
    match k
    case Registered(r) => Get(s, r).own == Ctor(p) && Get(s, r).fate == InList
    case Unlinked(r) => Get(s, r).own == Dtor(p) && Get(s, r).fate == Removed
    case WasPopped(r, n) => Get(s, r).own == Dtor(p) && Get(s, r).fate == Popped && n == s.requester && n.Some?
    case Notify(r) =>
      s.drain == Active(p) && !s.flag && Get(s, r).fate == Popped && Get(s, r).armed && !Get(s, r).completed
                    && Get(s, r).runs == [] && !Get(s, r).own.Gone?
    case Drained => s.drain == Active(p) && s.list == []
  }

  /** The notification of `r` is under way; `flag` tells whether its body has destroyed it. */
  ghost predicate Notifying(s: State, p: Pos, r: Rec) {
    && s.drain == Active(p) && Get(s, r).fate == Popped && Get(s, r).runs == [p.t]
    && (if s.flag then Get(s, r).own == Gone(p.t) else Get(s, r).armed && !Get(s, r).own.Gone? && !Get(s, r).completed)
  }

  ghost predicate FrameOk(s: State, p: Pos, f: Frame) {
    && (Holds(f) ==> s.owner == Some(p))
    && match f
      case NoFrame => true
      case Load(g) => GoalOk(s, p, g)
      case Try(g, prev) => GoalOk(s, p, g) && prev <= 3 && (Requested(prev) ==> Requested(s.word))
      case Hold(g, prev) =>
        && GoalOk(s, p, g)
        && prev <= 1
        && (if g.Request? then s.drain == Active(p) && prev == 0 else Requested(prev) == Requested(s.word))
        && (g.Register? ==> !Requested(s.word))
      case Loop => s.drain == Active(p) && s.requester == Some(p.t)
      case Release(w, k) => ThenOk(s, p, k) && w <= 1 && Requested(w) == Requested(s.word)
      case InlineBody(r) => Get(s, r).own == Ctor(p) && Get(s, r).fate == Inline && Get(s, r).runs == [p.t]
      case Reentrant(r) => Get(s, r).own == Dtor(p) && Get(s, r).fate == Popped && s.requester == Some(p.t)
      case Wait(r) =>
        Get(s, r).own == Dtor(p) && Get(s, r).fate == Popped && s.requester.Some? && s.requester != Some(p.t)
      case NotifyBody(r) => Notifying(s, p, r)
      case After(r) => Notifying(s, p, r)
      case Complete(r) =>
        && s.drain == Active(p)
        && Get(s, r).fate == Popped
        && Get(s, r).runs == [p.t]
        && !Get(s, r).own.Gone?
        && !Get(s, r).completed
        && !Get(s, r).armed
  }

  ghost predicate PosOk(s: State, p: Pos) { FrameOk(s, p, At(s, p)) }

  ghost predicate FramesOk(s: State) {
    forall p :: PosOk(s, p)
  }

  /** Only a callback body can have frames above it. */
  ghost predicate StackOk(s: State, p: Pos) {
    if p.i < Depth(s, p.t) then At(s, p) != NoFrame && (p.i < Depth(s, p.t) - 1 ==> IsBody(At(s, p)))
    else At(s, p) == NoFrame
  }

  ghost predicate StacksOk(s: State) {
    forall p :: StackOk(s, p)
  }

  predicate DrainFrame(f: Frame) {
    match f
    case Load(g) => g.Relock?
    case Try(g, _) => g.Relock?
    case Hold(g, _) => g.Relock? || g.Request?
    case Loop => true
    case Release(_, k) => k.Notify? || k.Drained?
    case NotifyBody(_) => true
    case After(_) => true
    case Complete(_) => true
    case _ => false
  }

  /** The record a frame is about. */
  function Subject(f: Frame): Option<Rec> {
    match f
    case Load(g) => GoalSubject(g)
    case Try(g, _) => GoalSubject(g)
    case Hold(g, _) => GoalSubject(g)
    case Release(_, k) => if k.Drained? then None else Some(k.r)
    case NoFrame => None
    case Loop => None
    case _ => Some(f.r)
  }

  function GoalSubject(g: Goal): Option<Rec> { if g.Register? || g.Unregister? then Some(g.r) else None }

  /** The record the winning request_stop is working on. */
  function Current(s: State): Option<Rec> {
    match s.drain
    case Active(p) => Subject(At(s, p))
    case _ => None
  }

  ghost predicate GlobalOk(s: State) {
    && s.word <= 3
    && (Locked(s.word) <==> s.owner.Some?)
    && (s.owner.Some? ==> Holds(At(s, s.owner.value)))
    && (Requested(s.word) <==> s.drain != Unclaimed)
    && s.wins == (if s.drain.Finished? then 1 else 0)
    && match s.drain
       case Unclaimed => s.requester == None
       case Active(p) =>
         DrainFrame(At(s, p)) && s.requester == (if At(s, p) == Hold(Request, 0) then None else Some(p.t))
       case Finished => s.requester.Some? && s.list == []
  }

  ghost predicate RecOk(s: State, r: Rec) {
    var x := Get(s, r);
    && (x.fate == InList <==> r in s.list)
    && (x.own.Unborn? || x.own.Ctor? ==> x.fate != Popped && x.fate != Removed)
    && (x.own.Unborn? ==> x.fate == Fresh)
    && (x.own.Ctor? ==> x.maker == x.own.at.t)
    && (x.own.Ctor? || x.own.Dtor? ==> Subject(At(s, x.own.at)) == Some(r) && !DrainFrame(At(s, x.own.at)))
    && match x.fate
       case Fresh => (x.own.Unborn? || x.own.Ctor?) && !x.linked && !x.armed && !x.completed && x.runs == []
       case InList => x.linked && !x.armed && !x.completed && x.runs == [] && !x.own.Gone?
          && (x.own.Ctor? ==> s.owner == Some(x.own.at) && !Requested(s.word))
       case Removed => !x.own.Live? && !x.armed && !x.completed && x.runs == []
       case Popped => !x.linked && s.requester.Some? && s.drain != Unclaimed
          && (Current(s) != Some(r) ==>
                x.runs == [s.requester.value] && ((!x.armed && x.completed) || x.own == Gone(s.requester.value)))
       case Inline => !x.armed && x.runs == [x.maker] && s.drain != Unclaimed && !x.own.Dtor?
  }

  ghost predicate RecsOk(s: State) { forall r :: RecOk(s, r) }
  ghost predicate Inv(s: State) { GlobalOk(s) && StacksOk(s) && FramesOk(s) && RecsOk(s) && NoDup(s.list) }
}
