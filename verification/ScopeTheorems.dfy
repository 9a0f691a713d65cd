/** What simple_counting_scope and spawn promise, for any number of associations, joins and spawns in any
    interleaving. */
module ScopeTheorems {
  import opened Links
  import opened Lists
  import opened Runs
  import opened ScopeWord
  import opened Scope
  import opened ScopeInv

  /** A join completes at most once, and when it has, nothing is associated and the scope may be destroyed. */
  lemma JoinCompletesOnce(s: State, w: Waiter)
    requires Reachable(s)
    ensures Completions(s, w) <= 1
    ensures Completions(s, w) == 1 ==> IsJoined(s.word) && CountOf(s.word) == 0 && s.held == {} && Destructible(s.word)
  {
    InvHolds(s);
    assert JoinOk(s, w);
  }

  lemma JoinedStaysByCas(s: State, x: Act)
    requires Inv(s) && Next(s, CasWin(x)).Some? && IsJoined(s.word)
    ensures IsJoined(Next(s, CasWin(x)).value.word)
  {
    JoinedIsTerminal(s.word);
  }

  /** Only a successful compare-exchange and `close` write the word. */
  lemma WordElsewhere(s: State, st: Step)
    requires Next(s, st).Some? && !st.CasWin? && !st.CallClose?
    ensures Next(s, st).value.word == s.word
  {
    match st
    case CallAssociate(x, a) =>
    case CallSpawn(x, a) =>
    case Advance(x) => WordAdvances(s, x, At(s, x));
    case CasFail(x) => WordFails(s, x, At(s, x));
    case Load(x) => WordLoads(s, x, At(s, x));
    case GiveUp(x) => WordGivesUp(s, x, At(s, x));
    case _ =>
  }

  lemma WordAdvances(s: State, x: Act, pc: Pc)
    requires AdvanceStep(s, x, pc).Some?
    ensures AdvanceStep(s, x, pc).value.word == s.word
  {
  }

  lemma WordFails(s: State, x: Act, pc: Pc)
    requires FailStep(s, x, pc).Some?
    ensures FailStep(s, x, pc).value.word == s.word
  {
  }

  lemma WordLoads(s: State, x: Act, pc: Pc)
    requires LoadStep(s, x, pc).Some?
    ensures LoadStep(s, x, pc).value.word == s.word
  {
  }

  lemma WordGivesUp(s: State, x: Act, pc: Pc)
    requires GiveUpStep(s, x, pc).Some?
    ensures GiveUpStep(s, x, pc).value.word == s.word
  {
  }

  lemma JoinedStays(s: State, st: Step)
    requires Inv(s) && Next(s, st).Some? && IsJoined(s.word)
    ensures IsJoined(Next(s, st).value.word)
  {
    if st.CasWin? { JoinedStaysByCas(s, st.x); }
    else if !st.CallClose? { WordElsewhere(s, st); }
  }

  /** Joined, the scope never has an association again. */
  lemma JoinedForGood(s: State, steps: seq<Step>)
    requires Reachable(s) && IsJoined(s.word) && Exec(Next, s, steps).Some?
    ensures var s' := Exec(Next, s, steps).value; IsJoined(s'.word) && s'.held == {}
  {
    InvHolds(s);
    var joined := (y: State) => Inv(y) && IsJoined(y.word);
    forall y, st | joined(y) && Next(y, st).Some? ensures joined(Next(y, st).value) {
      Keeps(y, st);
      JoinedStays(y, st);
    }
    Preserved(Next, joined, s, steps);
  }

  /** With nobody under way and no association left, every join that was started has completed, once. */
  lemma NoJoinStranded(s: State, w: Waiter)
    requires Reachable(s) && CountOf(s.word) == 0 && (forall x :: At(s, x).Idle?)
    ensures JoinOf(s, w).NotStarted? || (JoinOf(s, w).Done? && Completions(s, w) == 1)
  {
    InvHolds(s);
    assert JoinOk(s, w);
  }

  /** The count in the word is the number of engaged associations, and of those on their way to give it back. */
  lemma CountIsLiveAssociations(s: State, a: Assoc)
    requires Reachable(s)
    ensures CountOf(s.word) == |s.held| && WordOk(s.word)
    ensures a in s.held <==> LifeOf(s, a).Engaged? || LifeOf(s, a).Releasing?
    ensures (forall x :: At(s, x).Idle?) ==> (a in s.held <==> LifeOf(s, a).Engaged?)
  {
    InvHolds(s);
    assert AssocOk(s, a);
  }

  /** A join completes only after every accepted spawn has returned from start, completed and freed its storage; a spawn
      that is not accepted never starts its child. */
  lemma JoinWaitsForSpawns(s: State, w: Waiter, a: Assoc)
    requires Reachable(s) && Completions(s, w) > 0 && IsSpawn(s, a)
    ensures var p := s.spawns[a];
            if LifeOf(s, a).Trying? || LifeOf(s, a).Refused? then !p.childStarted && !p.completing
            else p.childStarted && p.returned && p.completed && p.freed
  {
    InvHolds(s);
    assert JoinOk(s, w) && AssocOk(s, a);
  }

  /** A rejected spawn never starts its child; an accepted one gives its count back after both arrivals, and only
      then. */
  lemma SpawnRendezvous(s: State, a: Assoc)
    requires Reachable(s) && IsSpawn(s, a)
    ensures LifeOf(s, a).Refused? ==> !s.spawns[a].childStarted && !s.spawns[a].completing
    ensures LifeOf(s, a).Releasing? || LifeOf(s, a).Released? ==>
              s.spawns[a].returned && s.spawns[a].completed && s.spawns[a].freed
    ensures s.spawns[a].freed && !LifeOf(s, a).Refused? ==> a !in s.held || LifeOf(s, a).Releasing?
  {
    InvHolds(s);
    assert AssocOk(s, a);
  }

  /** The storage of a spawn is not freed while any activation has still to use it. */
  lemma SpawnStorage(s: State, x: Act, a: Assoc)
    requires Reachable(s)
    requires At(s, x) == SStart(a) || At(s, x) == SReturn(a) || At(s, x) == SComplete(a) || At(s, x) == SFinish(a)
    ensures IsSpawn(s, a) && !s.spawns[a].freed
  {
    InvHolds(s);
    assert PcOk(s, x) && AssocOk(s, a);
  }

  /** The drain reads the link of a waiter before it completes it, and nobody else pops waiters meanwhile. */
  lemma LinkReadBeforeCompletion(s: State, x: Act, w: Waiter)
    requires Reachable(s) && (At(s, x) == Walk(Node(w)) || (At(s, x).Fire? && At(s, x).w == w))
    ensures JoinOf(s, w).Pending? && Completions(s, w) == 0 && s.head.Sealed?
    ensures At(s, x).Fire? ==> At(s, x).list == NextOf(s, w)
  {
    InvHolds(s);
    assert PcOk(s, x) && JoinOk(s, w);
    assert s.chain != [] ==> NextOf(s, s.chain[0]) == PtrOf(s.chain[1..]);
  }

  /** When all started joins have completed, no activation will touch the joiner list or a waiter again: none is between
      its winning exchange and the exchange of the list, none has a waiter left to complete. */
  lemma TeardownIsSafe(s: State, w: Waiter, x: Act)
    requires Reachable(s) && JoinOf(s, w).Done?
    requires forall v :: JoinOf(s, v).NotStarted? || JoinOf(s, v).Done?
    ensures var pc := At(s, x);
            pc.Idle? || pc.ALoad? || pc.ATry? || pc == Walk(Nil) || (pc.SFinish? && LifeOf(s, pc.a).Refused?)
  {
    InvHolds(s);
    assert PcOk(s, x) && JoinOk(s, w);
    assert AssocOf(At(s, x)).Some? ==> AssocOk(s, AssocOf(At(s, x)).value);
    assert s.chain != [] ==> JoinOk(s, s.chain[0]);
  }

  /** How far the drain has come. */
  function Rank(d: Drainer): nat {
    match d case NoDrainer => 0 case AtExchange(_) => 1 case Walking(_) => 2 case Drained => 3
  }

  predicate IsExchange(s: State, st: Step) { st.Advance? && At(s, st.x).Exchange? }

  /** How often the waiter list is exchanged in the course of a run. */
  function Exchanges(s: State, steps: seq<Step>): nat
    decreases |steps|
  {
    if steps == [] || Next(s, steps[0]).None? then 0
    else
      (if IsExchange(s, steps[0]) then 1 else 0) + Exchanges(Next(s, steps[0]).value, steps[1..])
  }

  lemma RankGrowsByCas(s: State, x: Act)
    requires Inv(s) && Next(s, CasWin(x)).Some?
    ensures Rank(Next(s, CasWin(x)).value.drainer) >= Rank(s.drainer)
  {
    assert PcOk(s, x);
    if At(s, x).DTry? { assert AssocOk(s, At(s, x).a); WordOkAfterDisassociate(s.word); }
  }

  lemma RankGrowsByAdvance(s: State, x: Act)
    requires Inv(s) && Next(s, Advance(x)).Some?
    ensures Rank(Next(s, Advance(x)).value.drainer) >= Rank(s.drainer)
    ensures At(s, x).Exchange? ==> Rank(s.drainer) == 1 && Rank(Next(s, Advance(x)).value.drainer) == 2
  {
    assert PcOk(s, x);
  }

  lemma RankGrows(s: State, st: Step)
    requires Inv(s) && Next(s, st).Some?
    ensures Rank(Next(s, st).value.drainer) >= Rank(s.drainer)
    ensures IsExchange(s, st) ==> Rank(s.drainer) == 1 && Rank(Next(s, st).value.drainer) == 2
  {
    if st.CasWin? { RankGrowsByCas(s, st.x); }
    else if st.Advance? { RankGrowsByAdvance(s, st.x); }
  }

  /** The waiter list is drained at most once. */
  lemma {:induction false} DrainedOnce(s: State, steps: seq<Step>)
    requires Inv(s) && Exec(Next, s, steps).Some?
    ensures Exchanges(s, steps) <= (if Rank(s.drainer) <= 1 then 1 else 0)
    decreases |steps|
  {
    if steps == [] {
    } else {
      Keeps(s, steps[0]);
      RankGrows(s, steps[0]);
      DrainedOnce(Next(s, steps[0]).value, steps[1..]);
    }
  }
}
