/** simple_counting_scope and spawn as a transition system: any number of activations of its functions, on any
    threads, one atomic access at a time. */
module Scope {
  import opened Links
  import opened Lists
  import opened Runs
  import opened ScopeWord

  /** An activation of one function, an association, a join waiter. Spawn operations are named by their association. */
  type Act = nat
  type Assoc = nat
  type Waiter = Id

  datatype Pc =
    | Idle
    // try_associate
    | ALoad(a: Assoc)
    | ATry(a: Assoc, bits: nat)
    // disassociate
    | DLoad(a: Assoc)
    | DTry(a: Assoc, bits: nat)
    // complete_registered_joins
    | Exchange
    | Walk(list: Ptr)
    | Fire(w: Waiter, list: Ptr)
    // start_join
    | JLoad(w: Waiter)
    | JTry(w: Waiter, bits: nat)
    // register_joiner
    | RLoad(w: Waiter)
    | RTry(w: Waiter, seen: Ptr)
    // spawn_operation: start, the return of the child's start, complete, finish
    | SStart(a: Assoc)
    | SReturn(a: Assoc)
    | SComplete(a: Assoc)
    | SFinish(a: Assoc)

  datatype Life = Unknown | Trying(act: Act) | Refused | Engaged | Releasing(act: Act) | Released
  datatype Join = NotStarted | Starting(act: Act) | Registering(act: Act) | Pending | Done
  datatype Drainer = NoDrainer | AtExchange(x: Act) | Walking(x: Act) | Drained

  /** A spawn operation: the one-bit rendezvous, and what has happened to it. */
  datatype Spawn = Spawn(
    arrived: bool, childStarted: bool, returned: bool, completing: bool, completed: bool, freed: bool,
    starter: Act, completer: Act, finisher: Option<Act>)

  datatype State = State(
    word: nat, head: Ptr, next: map<Waiter, Ptr>,
    acts: map<Act, Pc>, assocs: map<Assoc, Life>, spawns: map<Assoc, Spawn>, joins: map<Waiter, Join>,
    completions: map<Waiter, nat>,
    // auxiliary: the counts not yet given back, the linked waiters, who drains them, and the first to register
    held: set<Assoc>, chain: seq<Waiter>, drainer: Drainer, first: Option<Waiter>)

  const INIT := State(0, Nil, map[], map[], map[], map[], map[], map[], {}, [], NoDrainer, None)

  function At(s: State, x: Act): Pc { if x in s.acts then s.acts[x] else Idle }
  function LifeOf(s: State, a: Assoc): Life { if a in s.assocs then s.assocs[a] else Unknown }
  function JoinOf(s: State, w: Waiter): Join { if w in s.joins then s.joins[w] else NotStarted }
  function NextOf(s: State, w: Waiter): Ptr { NextIn(s.next, w) }
  function Completions(s: State, w: Waiter): nat { if w in s.completions then s.completions[w] else 0 }
  predicate IsSpawn(s: State, a: Assoc) { a in s.spawns }

  function Go(s: State, x: Act, pc: Pc): State { s.(acts := s.acts[x := pc]) }
  function SetLife(s: State, a: Assoc, l: Life): State { s.(assocs := s.assocs[a := l]) }
  function SetJoin(s: State, w: Waiter, j: Join): State { s.(joins := s.joins[w := j]) }
  function SetSpawn(s: State, a: Assoc, p: Spawn): State { s.(spawns := s.spawns[a := p]) }

  function CompleteJoin(s: State, w: Waiter): State {
    SetJoin(s, w, Done).(completions := s.completions[w := Completions(s, w) + 1])
  }

  datatype Step =
    | CallAssociate(x: Act, a: Assoc)
    | CallSpawn(x: Act, a: Assoc)
    | CallReset(x: Act, a: Assoc)
    | CallJoin(x: Act, w: Waiter)
    | CallClose(x: Act)
    | ChildCompletes(x: Act, a: Assoc)
    | Load(x: Act)
    | CasFail(x: Act)
    | CasWin(x: Act)
    | GiveUp(x: Act)
    | Advance(x: Act)

  function Next(s: State, st: Step): Option<State> {
    match st
    case CallAssociate(x, a) =>
      if At(s, x).Idle? && LifeOf(s, a).Unknown? then Some(Go(SetLife(s, a, Trying(x)), x, ALoad(a))) else None
    case CallSpawn(x, a) =>
      if At(s, x).Idle? && LifeOf(s, a).Unknown? then
        var spawn := Spawn(false, false, false, false, false, false, x, x, None);
        Some(Go(SetSpawn(SetLife(s, a, Trying(x)), a, spawn), x, ALoad(a)))
      else None
    case CallReset(x, a) =>
      if At(s, x).Idle? && LifeOf(s, a).Engaged? && !IsSpawn(s, a) then
        Some(Go(SetLife(s, a, Releasing(x)), x, DLoad(a)))
      else None
    case CallJoin(x, w) =>
      if At(s, x).Idle? && JoinOf(s, w).NotStarted? then Some(Go(SetJoin(s, w, Starting(x)), x, JLoad(w))) else None
    case CallClose(x) =>
      if At(s, x).Idle? then Some(s.(word := OrClosed(s.word))) else None
    case ChildCompletes(x, a) =>
      if At(s, x).Idle? && IsSpawn(s, a) && s.spawns[a].childStarted && !s.spawns[a].completing then
        Some(Go(SetSpawn(s, a, s.spawns[a].(completing := true, completer := x)), x, SComplete(a)))
      else None
    case Load(x) => LoadStep(s, x, At(s, x))
    case CasFail(x) => FailStep(s, x, At(s, x))
    case CasWin(x) => WinStep(s, x, At(s, x))
    case GiveUp(x) => GiveUpStep(s, x, At(s, x))
    case Advance(x) => AdvanceStep(s, x, At(s, x))
  }

  function LoadStep(s: State, x: Act, pc: Pc): Option<State> {
    match pc
    case ALoad(a) => Some(Go(s, x, ATry(a, s.word)))
    case DLoad(a) => Some(Go(s, x, DTry(a, s.word)))
    case JLoad(w) => Some(Go(s, x, JTry(w, s.word)))
    case RLoad(w) => Some(Go(s, x, RTry(w, s.head)))
    case _ => None
  }

  /** A compare-exchange that fails, spuriously or not, reloads. A failed push has already written `waiter.next`. */
  function FailStep(s: State, x: Act, pc: Pc): Option<State> {
    match pc
    case ATry(a, bits) => if RefusesAssociation(bits) then None else Some(Go(s, x, ATry(a, s.word)))
    case DTry(a, bits) => Some(Go(s, x, DTry(a, s.word)))
    case JTry(w, bits) => Some(Go(s, x, JTry(w, s.word)))
    case RTry(w, seen) => if seen.Sealed? then None else Some(Go(s.(next := s.next[w := seen]), x, RTry(w, s.head)))
    case _ => None
  }

  function WinStep(s: State, x: Act, pc: Pc): Option<State> {
    match pc
    case ATry(a, bits) =>
      if !RefusesAssociation(bits) && s.word == bits then
        var s1 := Go(SetLife(s, a, Engaged), x, if IsSpawn(s, a) then SStart(a) else Idle);
        Some(s1.(word := Associated(bits), held := s.held + {a}))
      else None
    case DTry(a, bits) =>
      if s.word == bits && CountOf(bits) > 0 then
        var s1 := SetLife(s, a, Released).(word := Disassociated(bits), held := s.held - {a});
        Some(if IsJoined(Disassociated(bits)) then Go(s1, x, Exchange).(drainer := AtExchange(x)) else Go(s1, x, Idle))
      else None
    case JTry(w, bits) =>
      if s.word == bits then
        Some(if CountOf(bits) == 0 then Go(CompleteJoin(s, w), x, Idle).(word := 1)
             else Go(SetJoin(s, w, Registering(x)), x, RLoad(w)).(
                    word := OrJoining(bits), first := if s.first.None? then Some(w) else s.first))
      else None
    case RTry(w, seen) =>
      if !seen.Sealed? && s.head == seen then
        Some(Go(SetJoin(s, w, Pending), x, Idle).(next := s.next[w := seen], head := Node(w), chain := [w] + s.chain))
      else None
    case _ => None
  }

  function GiveUpStep(s: State, x: Act, pc: Pc): Option<State> {
    match pc
    case ATry(a, bits) =>
      if RefusesAssociation(bits) then Some(Go(SetLife(s, a, Refused), x, if IsSpawn(s, a) then SFinish(a) else Idle))
      else None
    case RTry(w, seen) => if seen.Sealed? then Some(Go(CompleteJoin(s, w), x, Idle)) else None
    case _ => None
  }

  /** `release_arrived_.test_and_set`; the second arrival owns `finish`. */
  function Arrive(p: Spawn, x: Act): Spawn { if p.arrived then p.(finisher := Some(x)) else p.(arrived := true) }

  function AdvanceStep(s: State, x: Act, pc: Pc): Option<State> {
    match pc
    case Exchange => Some(Go(s.(head := Sealed, drainer := Walking(x)), x, Walk(s.head)))
    case Walk(list) =>
      (match list
       case Node(w) => Some(Go(s, x, Fire(w, NextOf(s, w))))
       case _ => Some(Go(s.(drainer := Drained), x, Idle)))
    case Fire(w, list) =>
      Some(Go(CompleteJoin(s, w), x, Walk(list)).(chain := if s.chain == [] then [] else s.chain[1..]))
    case SStart(a) =>
      if !IsSpawn(s, a) then None else Some(Go(SetSpawn(s, a, s.spawns[a].(childStarted := true)), x, SReturn(a)))
    case SReturn(a) =>
      if !IsSpawn(s, a) then None else
      var s1 := SetSpawn(s, a, Arrive(s.spawns[a], x).(returned := true));
      Some(Go(s1, x, if s.spawns[a].arrived then SFinish(a) else Idle))
    case SComplete(a) =>
      if !IsSpawn(s, a) then None else
      var s1 := SetSpawn(s, a, Arrive(s.spawns[a], x).(completed := true));
      Some(Go(s1, x, if s.spawns[a].arrived then SFinish(a) else Idle))
    case SFinish(a) =>
      if !IsSpawn(s, a) then None else
      var s1 := SetSpawn(s, a, s.spawns[a].(freed := true));
      Some(if LifeOf(s, a).Engaged? then Go(SetLife(s1, a, Releasing(x)), x, DLoad(a)) else Go(s1, x, Idle))
    case _ => None
  }

  // ---------- the invariant

  /** The association and the waiter an activation is working for. */
  function AssocOf(pc: Pc): Option<Assoc> {
    match pc
    case ALoad(a) => Some(a)
    case ATry(a, _) => Some(a)
    case DLoad(a) => Some(a)
    case DTry(a, _) => Some(a)
    case SStart(a) => Some(a)
    case SReturn(a) => Some(a)
    case SComplete(a) => Some(a)
    case SFinish(a) => Some(a)
    case _ => None
  }

  function JoinerOf(pc: Pc): Option<Waiter> {
    match pc
    case JLoad(w) => Some(w)
    case JTry(w, _) => Some(w)
    case RLoad(w) => Some(w)
    case RTry(w, _) => Some(w)
    case _ => None
  }

  ghost predicate ActOk(s: State, x: Act, pc: Pc) {
    match pc
    case Idle => true
    case ALoad(a) => LifeOf(s, a) == Trying(x) && (IsSpawn(s, a) ==> s.spawns[a].starter == x)
    case ATry(a, _) => LifeOf(s, a) == Trying(x) && (IsSpawn(s, a) ==> s.spawns[a].starter == x)
    case DLoad(a) => LifeOf(s, a) == Releasing(x)
    case DTry(a, _) => LifeOf(s, a) == Releasing(x)
    case Exchange => s.drainer == AtExchange(x)
    case Walk(list) => s.drainer == Walking(x) && list == PtrOf(s.chain)
    case Fire(w, list) => s.drainer == Walking(x) && s.chain != [] && s.chain[0] == w && list == PtrOf(s.chain[1..])
    case JLoad(w) => JoinOf(s, w) == Starting(x)
    case JTry(w, _) => JoinOf(s, w) == Starting(x)
    case RLoad(w) => JoinOf(s, w) == Registering(x)
    case RTry(w, seen) => JoinOf(s, w) == Registering(x) && (seen.Sealed? ==> s.head.Sealed?)
    case SStart(a) => IsSpawn(s, a) && LifeOf(s, a).Engaged? && s.spawns[a].starter == x && !s.spawns[a].childStarted
    case SReturn(a) =>
      && IsSpawn(s, a) && LifeOf(s, a).Engaged?
      && s.spawns[a].starter == x && s.spawns[a].childStarted && !s.spawns[a].returned
    case SComplete(a) =>
      && IsSpawn(s, a) && LifeOf(s, a).Engaged?
      && s.spawns[a].completer == x && s.spawns[a].completing && !s.spawns[a].completed
    case SFinish(a) => IsSpawn(s, a) && !s.spawns[a].freed && FinishOk(s.spawns[a], LifeOf(s, a), x)
  }

  /** `finish` runs either for a rejected spawn, or as the second of the two arrivals. */
  ghost predicate FinishOk(p: Spawn, l: Life, x: Act) {
    if l.Engaged? then p.finisher == Some(x) && p.returned && p.completed else l.Refused? && p.starter == x
  }

  ghost predicate PcOk(s: State, x: Act) { ActOk(s, x, At(s, x)) }
  ghost predicate ActsOk(s: State) { forall x :: PcOk(s, x) }

  ghost predicate AssocOk(s: State, a: Assoc) {
    && (LifeOf(s, a).Trying? || LifeOf(s, a).Releasing? ==> AssocOf(At(s, LifeOf(s, a).act)) == Some(a))
    && (a in s.held <==> LifeOf(s, a).Engaged? || LifeOf(s, a).Releasing?)
    && (IsSpawn(s, a) ==> SpawnOk(s.spawns[a], LifeOf(s, a)))
  }

  ghost predicate SpawnOk(p: Spawn, l: Life) {
    match l
    case Unknown => false
    case Trying(_) => !p.childStarted && !p.arrived && !p.returned && !p.completing && !p.completed && !p.freed
    case Refused => !p.childStarted && !p.returned && !p.completing && !p.completed
    case Engaged =>
      && !p.freed
      && (p.arrived <==> p.returned || p.completed)
      && (p.returned || p.completing ==> p.childStarted)
      && (p.completed ==> p.completing)
    case _ => p.childStarted && p.returned && p.completing && p.completed && p.freed
  }

  ghost predicate AssocsOk(s: State) { forall a :: AssocOk(s, a) }

  ghost predicate JoinOk(s: State, w: Waiter) {
    var j := JoinOf(s, w);
    && Completions(s, w) == (if j.Done? then 1 else 0)
    && (j.Starting? || j.Registering? ==> JoinerOf(At(s, j.act)) == Some(w))
    && (j.Pending? <==> w in s.chain)
    && (j.Registering? || j.Pending? ==> IsJoining(s.word) || s.drainer != NoDrainer)
    && (j.Done? ==> IsJoined(s.word))
  }

  ghost predicate JoinsOk(s: State) { forall w :: JoinOk(s, w) }

  /** Some started join cannot have completed yet. */
  ghost predicate FirstWaits(s: State) {
    s.first.Some? && (JoinOf(s, s.first.value).Registering? || JoinOf(s, s.first.value).Pending?)
  }

  ghost predicate ListOk(s: State) {
    && NoDup(s.chain)
    && Linked(s.next, s.chain)
    && match s.drainer
       case NoDrainer =>
         s.head == PtrOf(s.chain) && (IsJoining(s.word) <==> s.first.Some?) && (s.first.Some? ==> FirstWaits(s))
       case AtExchange(x) => s.head == PtrOf(s.chain) && IsJoined(s.word) && At(s, x) == Exchange && FirstWaits(s)
       case Walking(x) => s.head == Sealed && IsJoined(s.word) && (At(s, x).Walk? || At(s, x).Fire?)
       case Drained => s.head == Sealed && IsJoined(s.word) && s.chain == []
  }

  ghost predicate WordCounts(s: State) { WordOk(s.word) && |s.held| == CountOf(s.word) }

  ghost predicate Inv(s: State) { WordCounts(s) && ListOk(s) && ActsOk(s) && AssocsOk(s) && JoinsOk(s) }
}
