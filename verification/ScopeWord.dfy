/** The packed word of a counting scope: `(count << 3) | state`, with the state bits closed = 1,
    join needed = 2 and join running = 4, in an unsigned 64-bit integer. */
module ScopeWord {
  import opened Runs

  const WORD_SIZE := 0x1_0000_0000_0000_0000
  /** `numeric_limits<size_t>::max() >> 3` */
  const MAX_ASSOCIATIONS := (WORD_SIZE - 1) / 8

  function CountOf(w: nat): nat { w / 8 }
  function StateOf(w: nat): nat { w % 8 }
  /** `(count << 3) | state`: the shift drops what does not fit, the three low bits are free for the state. */
  function MakeWord(count: nat, state: nat): nat { (count * 8) % WORD_SIZE + state }

  predicate IsClosed(w: nat) { w % 2 == 1 }
  predicate IsNeeded(w: nat) { w % 4 >= 2 }
  predicate IsJoining(w: nat) { w % 8 >= 4 }
  predicate IsJoined(w: nat) { w == 1 }

  function OrClosed(w: nat): nat { if IsClosed(w) then w else w + 1 }
  function OrNeeded(w: nat): nat { if IsNeeded(w) then w else w + 2 }
  function OrJoining(w: nat): nat { if IsJoining(w) then w else w + 4 }

  // The word each operation tries to install.

  predicate RefusesAssociation(w: nat) { IsClosed(w) || CountOf(w) == MAX_ASSOCIATIONS }
  function Associated(w: nat): nat { MakeWord(CountOf(w) + 1, OrNeeded(StateOf(w))) }
  function Disassociated(w: nat): nat
    requires CountOf(w) > 0
  {
    if CountOf(w) - 1 == 0 && IsJoining(w) then 1 else MakeWord(CountOf(w) - 1, StateOf(w))
  }

  function JoinStarted(w: nat): nat { if CountOf(w) == 0 then 1 else OrJoining(w) }
  /** `ensure_destructible` does not terminate the program. */
  predicate Destructible(w: nat) { !IsJoining(w) && CountOf(w) == 0 }

  /** What the word stands for. */
  datatype Scope = Scope(count: nat, closed: bool, needed: bool, running: bool)

  function Bit(b: bool, weight: nat): nat { if b then weight else 0 }
  function Pack(s: Scope): nat { MakeWord(s.count, Bit(s.closed, 1) + Bit(s.needed, 2) + Bit(s.running, 4)) }
  function Unpack(w: nat): Scope { Scope(CountOf(w), IsClosed(w), IsNeeded(w), IsJoining(w)) }

  lemma Mod4(a: nat, b: nat)
    requires b < 4
    ensures (4 * a + b) % 4 == b
  {
  }

  lemma Mod2(a: nat, b: nat)
    requires b < 2
    ensures (2 * a + b) % 2 == b
  {
  }

  lemma CountFits(w: nat)
    requires w < WORD_SIZE
    ensures CountOf(w) <= MAX_ASSOCIATIONS
  {
  }

  /** The bits of a state. */
  lemma StateBitsOf(s: nat)
    requires s < 8
    ensures s == Bit(s % 2 == 1, 1) + Bit(s % 4 >= 2, 2) + Bit(s >= 4, 4)
  {
  }

  /** A word splits into its count and its three bits, and is determined by them. */
  lemma Split(w: nat)
    ensures w == 8 * CountOf(w) + StateOf(w)
    ensures StateOf(w) == Bit(IsClosed(w), 1) + Bit(IsNeeded(w), 2) + Bit(IsJoining(w), 4)
    ensures w < WORD_SIZE ==> CountOf(w) <= MAX_ASSOCIATIONS
  {
    var q, s := CountOf(w), StateOf(w);
    Mod4(2 * q + s / 4, s % 4);
    Mod2(4 * q + s / 2, s % 2);
    assert w == 4 * (2 * q + s / 4) + s % 4 == 2 * (4 * q + s / 2) + s % 2;
    StateBitsOf(s);
    if w < WORD_SIZE { CountFits(w); }
  }

  lemma Made(count: nat, state: nat)
    requires count <= MAX_ASSOCIATIONS && state < 8
    ensures MakeWord(count, state) == 8 * count + state < WORD_SIZE
    ensures CountOf(MakeWord(count, state)) == count && StateOf(MakeWord(count, state)) == state
  {
  }

  /** Two words with the same count and bits are the same. */
  lemma SameBits(w: nat, state: nat)
    requires StateOf(w) == state
    ensures IsClosed(w) == IsClosed(state) && IsNeeded(w) == IsNeeded(state) && IsJoining(w) == IsJoining(state)
  {
    Split(w);
    Split(state);
  }

  lemma UnpackPack(s: Scope)
    requires s.count <= MAX_ASSOCIATIONS
    ensures Pack(s) < WORD_SIZE && Unpack(Pack(s)) == s
  {
    var state := Bit(s.closed, 1) + Bit(s.needed, 2) + Bit(s.running, 4);
    Made(s.count, state);
    SameBits(Pack(s), state);
  }

  lemma PackUnpack(w: nat)
    requires w < WORD_SIZE
    ensures Unpack(w).count <= MAX_ASSOCIATIONS && Pack(Unpack(w)) == w
  {
    Split(w);
    Made(CountOf(w), StateOf(w));
  }

  // The operations on what the word stands for.

  const JOINED := Scope(0, true, false, false)

  function Associate(s: Scope): Option<Scope> {
    if s.closed || s.count == MAX_ASSOCIATIONS then None else Some(s.(count := s.count + 1, needed := true))
  }

  function Disassociate(s: Scope): Scope
    requires s.count > 0
  {
    if s.count == 1 && s.running then JOINED else s.(count := s.count - 1)
  }

  function StartJoin(s: Scope): Scope { if s.count == 0 then JOINED else s.(running := true) }
  function Close(s: Scope): Scope { s.(closed := true) }

  /** Setting a bit changes that bit alone. */
  lemma OrClosedIsLocal(w: nat)
    requires w < WORD_SIZE
    ensures OrClosed(w) < WORD_SIZE && Unpack(OrClosed(w)) == Unpack(w).(closed := true)
  {
    Split(w);
    Split(OrClosed(w));
  }

  lemma OrNeededIsLocal(w: nat)
    requires w < WORD_SIZE
    ensures OrNeeded(w) < WORD_SIZE && Unpack(OrNeeded(w)) == Unpack(w).(needed := true)
  {
    Split(w);
    Split(OrNeeded(w));
  }

  lemma OrJoiningIsLocal(w: nat)
    requires w < WORD_SIZE
    ensures OrJoining(w) < WORD_SIZE && Unpack(OrJoining(w)) == Unpack(w).(running := true)
  {
    Split(w);
    Split(OrJoining(w));
  }

  /** No operation overflows into or out of the state bits: each does to the word what it does to the scope. */
  lemma AssociatedRefines(w: nat)
    requires w < WORD_SIZE
    ensures RefusesAssociation(w) == Associate(Unpack(w)).None?
    ensures !RefusesAssociation(w) ==> Associated(w) < WORD_SIZE && Some(Unpack(Associated(w))) == Associate(Unpack(w))
  {
    Split(w);
    if !RefusesAssociation(w) {
      var state := OrNeeded(StateOf(w));
      SameBits(w, StateOf(w));
      OrNeededIsLocal(StateOf(w));
      Made(CountOf(w) + 1, state);
      SameBits(Associated(w), state);
    }
  }

  lemma DisassociatedRefines(w: nat)
    requires w < WORD_SIZE && CountOf(w) > 0
    ensures Disassociated(w) < WORD_SIZE && Unpack(Disassociated(w)) == Disassociate(Unpack(w))
  {
    Split(w);
    Made(CountOf(w) - 1, StateOf(w));
    SameBits(w, StateOf(w));
    SameBits(MakeWord(CountOf(w) - 1, StateOf(w)), StateOf(w));
  }

  lemma JoinStartedRefines(w: nat)
    requires w < WORD_SIZE
    ensures JoinStarted(w) < WORD_SIZE && Unpack(JoinStarted(w)) == StartJoin(Unpack(w))
  {
    OrJoiningIsLocal(w);
  }

  lemma OrClosedRefines(w: nat)
    requires w < WORD_SIZE
    ensures OrClosed(w) < WORD_SIZE && Unpack(OrClosed(w)) == Close(Unpack(w))
  {
    OrClosedIsLocal(w);
  }

  /** The words a scope can hold. */
  predicate WordOk(w: nat) {
    && w < WORD_SIZE
    && (IsJoining(w) ==> CountOf(w) > 0)
    && (CountOf(w) > 0 ==> IsNeeded(w))
    && (IsJoining(w) ==> IsNeeded(w))
  }

  /** Of the eight combinations of state bits, those with a join running and none needed cannot occur. */
  lemma StateBits(w: nat)
    requires WordOk(w)
    ensures StateOf(w) in {0, 1, 2, 3, 6, 7}
  {
    Split(w);
  }

  lemma WordOkAfterAssociate(w: nat)
    requires WordOk(w) && !RefusesAssociation(w)
    ensures WordOk(Associated(w)) && CountOf(Associated(w)) == CountOf(w) + 1
    ensures IsJoining(Associated(w)) == IsJoining(w)
    ensures !IsJoined(Associated(w))
  {
    AssociatedRefines(w);
  }

  /** Only the disassociation that ends a running join produces the joined word. */
  lemma WordOkAfterDisassociate(w: nat)
    requires WordOk(w) && CountOf(w) > 0
    ensures WordOk(Disassociated(w)) && CountOf(Disassociated(w)) == CountOf(w) - 1
    ensures IsJoined(Disassociated(w)) <==> CountOf(w) == 1 && IsJoining(w)
    ensures !IsJoined(Disassociated(w)) ==> IsJoining(Disassociated(w)) == IsJoining(w)
  {
    DisassociatedRefines(w);
    assert IsNeeded(w) && !Unpack(1).needed;
  }

  lemma WordOkAfterJoin(w: nat)
    requires WordOk(w)
    ensures WordOk(JoinStarted(w)) && CountOf(JoinStarted(w)) == CountOf(w)
    ensures if CountOf(w) == 0 then IsJoined(JoinStarted(w)) else IsJoining(JoinStarted(w))
  {
    JoinStartedRefines(w);
  }

  lemma WordOkAfterClose(w: nat)
    requires WordOk(w)
    ensures WordOk(OrClosed(w)) && CountOf(OrClosed(w)) == CountOf(w) && IsJoining(OrClosed(w)) == IsJoining(w)
    ensures IsJoined(w) ==> IsJoined(OrClosed(w))
  {
    OrClosedRefines(w);
  }

  /** Once joined, always joined, and destructible. */
  lemma JoinedIsTerminal(w: nat)
    requires IsJoined(w)
    ensures RefusesAssociation(w) && CountOf(w) == 0 && JoinStarted(w) == w && OrClosed(w) == w && Destructible(w)
  {
  }
}
