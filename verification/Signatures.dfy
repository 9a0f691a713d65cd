/** The completion-signature calculus: what each sender declares, computed as the type lists of the headers compute it,
    and what its receivers can deliver, read off their bodies.  Argument types are decayed and arguments are passed as
    rvalues, so that storing an argument is moving it. */
module Signatures {
  import R = RepeatUntil

  /** A type, with what the headers ask about it: whether moving it, and so storing it, cannot throw. */
  datatype Ty = Atom(id: nat, move: bool) | ExceptionPtr | VariantOf(tuples: seq<seq<Ty>>, move: bool)

  predicate MoveNothrow(t: Ty) { t.ExceptionPtr? || t.move }
  predicate AllMoveNothrow(args: seq<Ty>) { forall i :: 0 <= i < |args| ==> MoveNothrow(args[i]) }

  datatype Sig = Value(args: seq<Ty>) | Error(e: Ty) | Stopped
  datatype Tag = SetValue | SetError | SetStopped

  predicate Selected(tag: Tag, sig: Sig) {
    match tag
    case SetValue => sig.Value?
    case SetError => sig.Error?
    case SetStopped => sig.Stopped?
  }

  const THROWN: Sig := Error(ExceptionPtr)

  /** What a callable does with the arguments of one signature: its result, if not void, and whether it cannot throw. */
  datatype Case = Case(sig: Sig, result: seq<Ty>, nothrow: bool)
  datatype Branch = Branch(sig: Sig, sender: Sender, fnNothrow: bool)

  /** Sender trees. The last field of an adaptor with callables says whether moving them cannot throw. */
  datatype Sender =
    | Just(args: seq<Ty>)
    | JustError(e: Ty)
    | JustStopped
    // then, upon_error, upon_stopped
    | Then(tag: Tag, child: Sender, cases: seq<Case>, fnMove: bool)
    // let_value, let_error, let_stopped
    | Let(tag: Tag, child: Sender, branches: seq<Branch>, fnMove: bool)
    | IntoVariant(child: Sender)
    | WhenAll(children: seq<Sender>, callbackNothrow: bool)
    | RepeatUntil(child: Sender, predicateNothrow: bool, factoryNothrow: bool, callablesMove: bool)

  // ---------- type lists

  /** `unique_type_list_impl`. */
  function UniqueFrom<T(==)>(seen: seq<T>, input: seq<T>): seq<T>
    decreases |input|
  {
    if input == [] then seen
    else UniqueFrom(if input[0] in seen then seen else seen + [input[0]], input[1..])
  }

  function Unique<T(==)>(l: seq<T>): seq<T> { UniqueFrom([], l) }

  function Flat<T>(lists: seq<seq<T>>): seq<T> { if lists == [] then [] else lists[0] + Flat(lists[1..]) }
  function Maybe<T>(keep: bool, x: T): seq<T> { if keep then [x] else [] }

  function ValueTuples(sigs: seq<Sig>): seq<seq<Ty>> {
    if sigs == [] then []
    else Maybe(sigs[0].Value?, if sigs[0].Value? then sigs[0].args else []) + ValueTuples(sigs[1..])
  }

  function ErrorTypes(sigs: seq<Sig>): seq<Ty> {
    if sigs == [] then []
    else Maybe(sigs[0].Error?, if sigs[0].Error? then sigs[0].e else ExceptionPtr) + ErrorTypes(sigs[1..])
  }

  function ValueSigs(tuples: seq<seq<Ty>>): seq<Sig> {
    if tuples == [] then [] else [Value(tuples[0])] + ValueSigs(tuples[1..])
  }

  function ErrorSigs(errors: seq<Ty>): seq<Sig> {
    if errors == [] then [] else [Error(errors[0])] + ErrorSigs(errors[1..])
  }

  predicate ValuesNothrow(sigs: seq<Sig>) { forall u :: u in sigs && u.Value? ==> AllMoveNothrow(u.args) }
  predicate ErrorsNothrow(sigs: seq<Sig>) { forall u :: u in sigs && u.Error? ==> MoveNothrow(u.e) }

  // ---------- what is declared

  predicate HasCase(cases: seq<Case>, sig: Sig) { exists i :: 0 <= i < |cases| && cases[i].sig == sig }
  function CaseOf(cases: seq<Case>, sig: Sig): Case
    requires HasCase(cases, sig)
  {
    if cases[0].sig == sig then cases[0] else CaseOf(cases[1..], sig)
  }

  function CaseOr(cases: seq<Case>, sig: Sig): Case {
    if HasCase(cases, sig) then CaseOf(cases, sig) else Case(sig, [], true)
  }

  /** `completion_adaptor_signature` on each signature. */
  function ThenList(tag: Tag, cases: seq<Case>, sigs: seq<Sig>): seq<Sig> {
    if sigs == [] then []
    else
      [if Selected(tag, sigs[0]) then Value(CaseOr(cases, sigs[0]).result) else sigs[0]]
      + ThenList(tag, cases, sigs[1..])
  }

  predicate CasesNothrow(tag: Tag, cases: seq<Case>, sigs: seq<Sig>) {
    forall u :: u in sigs && Selected(tag, u) ==> CaseOr(cases, u).nothrow
  }

  predicate HasBranch(branches: seq<Branch>, sig: Sig) { exists i :: 0 <= i < |branches| && branches[i].sig == sig }
  function BranchOf(branches: seq<Branch>, sig: Sig): (k: nat)
    ensures HasBranch(branches, sig) ==> k < |branches| && branches[k].sig == sig
    ensures k <= |branches|
  {
    if branches == [] || branches[0].sig == sig then 0 else 1 + BranchOf(branches[1..], sig)
  }

  /** `let_signature` on each signature; `lists` are the declarations of the senders of the branches. */
  function LetList(tag: Tag, branches: seq<Branch>, lists: seq<seq<Sig>>, sigs: seq<Sig>): seq<Sig> {
    if sigs == [] then []
    else
      (if !Selected(tag, sigs[0]) then [sigs[0]]
       else if BranchOf(branches, sigs[0]) < |lists| then lists[BranchOf(branches, sigs[0])] else [])
      + LetList(tag, branches, lists, sigs[1..])
  }

  predicate BranchesNothrow(tag: Tag, branches: seq<Branch>, sigs: seq<Sig>) {
    forall u :: u in sigs && Selected(tag, u) && HasBranch(branches, u) ==> branches[BranchOf(branches, u)].fnNothrow
  }

  /** `into_variant_value_variant_t`. */
  function Variant(sigs: seq<Sig>): Ty {
    VariantOf(Unique(ValueTuples(sigs)), forall t :: t in Unique(ValueTuples(sigs)) ==> AllMoveNothrow(t))
  }

  function IntoVariantList(sigs: seq<Sig>): seq<Sig> {
    var nothrow := ValuesNothrow(sigs) && Variant(sigs).move;
    Unique([Value([Variant(sigs)])]
           + ErrorSigs(Unique(ErrorTypes(sigs) + Maybe(!nothrow, ExceptionPtr)))
           + Maybe(Stopped in sigs, Stopped))
  }

  predicate SingleValue(sigs: seq<Sig>) { |ValueTuples(sigs)| == 1 }
  predicate AllSingle(lists: seq<seq<Sig>>) { forall i :: 0 <= i < |lists| ==> SingleValue(lists[i]) }
  function SlotOf(sigs: seq<Sig>): seq<Ty> { if SingleValue(sigs) then ValueTuples(sigs)[0] else [] }

  function Slots(lists: seq<seq<Sig>>): seq<seq<Ty>> {
    if lists == [] then [] else [SlotOf(lists[0])] + Slots(lists[1..])
  }

  function AllErrorTypes(lists: seq<seq<Sig>>): seq<Ty> {
    if lists == [] then [] else ErrorTypes(lists[0]) + AllErrorTypes(lists[1..])
  }

  predicate WhenAllNothrow(lists: seq<seq<Sig>>, callbackNothrow: bool) {
    && (forall l :: l in lists ==> ValuesNothrow(l) && ErrorsNothrow(l) && AllMoveNothrow(SlotOf(l)))
    && callbackNothrow
  }

  function WhenAllErrors(lists: seq<seq<Sig>>, callbackNothrow: bool): seq<Ty> {
    Unique(AllErrorTypes(lists) + Maybe(!WhenAllNothrow(lists, callbackNothrow), ExceptionPtr))
  }

  function WhenAllList(lists: seq<seq<Sig>>, callbackNothrow: bool): seq<Sig> {
    Unique(Maybe(AllSingle(lists), Value(Flat(Slots(lists))))
           + ErrorSigs(WhenAllErrors(lists, callbackNothrow))
           + Maybe(exists l :: l in lists && Stopped in l, Stopped))
  }

  /** What the operation of repeat_until asks about a child with these signatures. */
  function RepeatUntilConfig(sigs: seq<Sig>, predicateNothrow: bool, factoryNothrow: bool,
                             connectNothrow: bool): R.Config {
    R.Config(ValuesNothrow(sigs), ErrorsNothrow(sigs), predicateNothrow, factoryNothrow, connectNothrow, true)
  }

  predicate DeclaresThrown(sigs: seq<Sig>, predicateNothrow: bool, factoryNothrow: bool) {
    R.NeedExceptionPtr(RepeatUntilConfig(sigs, predicateNothrow, factoryNothrow, true))
  }

  function RepeatUntilList(sigs: seq<Sig>, predicateNothrow: bool, factoryNothrow: bool): seq<Sig> {
    var thrown := Maybe(DeclaresThrown(sigs, predicateNothrow, factoryNothrow), ExceptionPtr);
    Unique(ValueSigs(Unique(ValueTuples(sigs))) + [Stopped] + ErrorSigs(Unique(ErrorTypes(sigs) + thrown)))
  }

  /** `completion_signatures` of a sender. */
  function Declared(s: Sender): seq<Sig> {
    match s
    case Just(args) => [Value(args)]
    case JustError(e) => [Error(e)]
    case JustStopped => [Stopped]
    case Then(tag, child, cases, move) =>
      Unique(ThenList(tag, cases, Declared(child)) + Maybe(!CasesNothrow(tag, cases, Declared(child)), THROWN))
    case Let(tag, child, branches, move) =>
      var lists := seq(|branches|, i requires 0 <= i < |branches| => Declared(branches[i].sender));
      var thrown := Maybe(!BranchesNothrow(tag, branches, Declared(child)), THROWN);
      Unique(LetList(tag, branches, lists, Declared(child)) + thrown)
    case IntoVariant(child) => IntoVariantList(Declared(child))
    case WhenAll(children, callbackNothrow) =>
      WhenAllList(seq(|children|, i requires 0 <= i < |children| => Declared(children[i])), callbackNothrow)
    case RepeatUntil(child, predicateNothrow, factoryNothrow, _) =>
      RepeatUntilList(Declared(child), predicateNothrow, factoryNothrow)
  }

  function DeclaredAll(children: seq<Sender>): seq<seq<Sig>> {
    seq(|children|, i requires 0 <= i < |children| => Declared(children[i]))
  }

  function DeclaredBranches(branches: seq<Branch>): seq<seq<Sig>> {
    seq(|branches|, i requires 0 <= i < |branches| => Declared(branches[i].sender))
  }

  // ---------- connecting

  /** Moving a sender cannot throw. */
  predicate SenderMoves(s: Sender) {
    match s
    case Just(args) => AllMoveNothrow(args)
    case JustError(e) => MoveNothrow(e)
    case JustStopped => true
    case Then(_, child, _, fnMove) => SenderMoves(child) && fnMove
    case Let(_, child, _, fnMove) => SenderMoves(child) && fnMove
    case IntoVariant(child) => SenderMoves(child)
    case WhenAll(children, _) => forall i :: 0 <= i < |children| ==> SenderMoves(children[i])
    case RepeatUntil(_, _, _, callablesMove) => callablesMove
  }

  /** Connecting a sender may throw: something it moves into the operation state may. */
  predicate ConnectThrows(s: Sender) {
    match s
    case Just(args) => !AllMoveNothrow(args)
    case JustError(e) => !MoveNothrow(e)
    case JustStopped => false
    case Then(_, child, _, fnMove) => !SenderMoves(child) || !fnMove || ConnectThrows(child)
    case Let(_, child, _, fnMove) => !fnMove || ConnectThrows(child)
    case IntoVariant(child) => !SenderMoves(child) || ConnectThrows(child)
    case WhenAll(children, _) => exists i :: 0 <= i < |children| && !SenderMoves(children[i])
    case RepeatUntil(_, _, _, callablesMove) => !callablesMove
  }

  predicate ConnectsThrow(children: seq<Sender>) { exists i :: 0 <= i < |children| && ConnectThrows(children[i]) }

  /** The `connect` of a sender is declared `noexcept`. That of let_*, when_all and repeat_until never is. */
  predicate ConnectNoexcept(s: Sender) {
    match s
    case Just(args) => AllMoveNothrow(args)
    case JustError(e) => MoveNothrow(e)
    case JustStopped => true
    case Then(_, child, _, fnMove) => SenderMoves(child) && fnMove && ConnectNoexcept(child)
    case IntoVariant(child) => SenderMoves(child) && ConnectNoexcept(child)
    case _ => false
  }

  // ---------- what can be delivered

  /** `completion_adaptor_receiver`: a selected completion invokes the callable, the others pass. */
  predicate ThenDelivers(tag: Tag, cases: seq<Case>, u: Sig, c: Sig) {
    if !Selected(tag, u) then c == u
    else c == Value(CaseOr(cases, u).result) || (!CaseOr(cases, u).nothrow && c == THROWN)
  }

  /** `into_variant_receiver`; `variant` is the type it wraps values in. */
  predicate IntoVariantDelivers(variant: Ty, u: Sig, c: Sig) {
    if !u.Value? then c == u
    else c == Value([variant]) || (!AllMoveNothrow(u.args) && c == THROWN)
  }

  /** Storing the arguments of a completion may throw. */
  predicate StoreThrows(u: Sig) {
    match u
    case Value(args) => !AllMoveNothrow(args)
    case Error(e) => !MoveNothrow(e)
    case Stopped => false
  }

  /** What a `when_all` child that does not send a value makes the operation deliver, should it be the first. */
  predicate WhenAllForwards(u: Sig, c: Sig) {
    match u
    case Value(_) => StoreThrows(u) && c == THROWN
    case Error(_) => c == u || (StoreThrows(u) && c == THROWN)
    case Stopped => c == Stopped
  }

  /** `process_one` on what `child_value`, `child_error` and `child_stopped` have stored. */
  predicate RepeatUntilDelivers(predicateNothrow: bool, u: Sig, c: Sig) {
    match u
    case Value(_) => c == u || ((StoreThrows(u) || !predicateNothrow) && c == THROWN)
    case Error(_) => c == u || (StoreThrows(u) && c == THROWN)
    case Stopped => c == Stopped
  }

  /** `start_child` catches what the callable throws, and what connecting its sender throws. */
  predicate BranchThrows(b: Branch) { !b.fnNothrow || ConnectThrows(b.sender) }

  /** Some run of the receivers of `s` delivers `c`. A callable or constructor that is not noexcept may throw. */
  ghost predicate CanSend(s: Sender, c: Sig) {
    match s
    case Just(args) => c == Value(args)
    case JustError(e) => c == Error(e)
    case JustStopped => c == Stopped
    case Then(tag, child, cases, move) => exists u :: CanSend(child, u) && ThenDelivers(tag, cases, u, c)
    case Let(tag, child, branches, move) =>
      || (!Selected(tag, c) && CanSend(child, c))
      || (exists u :: CanSend(child, u) && Selected(tag, u) && HasBranch(branches, u)
                      && (CanSend(branches[BranchOf(branches, u)].sender, c)
                          || (BranchThrows(branches[BranchOf(branches, u)]) && c == THROWN)))
    case IntoVariant(child) => exists u :: CanSend(child, u) && IntoVariantDelivers(Variant(Declared(child)), u, c)
    case WhenAll(children, callbackNothrow) =>
      || (exists us: seq<seq<Ty>> ::
            && |us| == |children| && (forall i :: 0 <= i < |children| ==> CanSend(children[i], Value(us[i])))
            && (c == Value(Flat(us)) || (c == THROWN && !AllMoveNothrow(Flat(us)))))
      || (exists i, u :: 0 <= i < |children| && CanSend(children[i], u) && WhenAllForwards(u, c))
      || (c == THROWN && (!callbackNothrow || ConnectsThrow(children)))
    case RepeatUntil(child, predicateNothrow, factoryNothrow, move) =>
      || c == Stopped
      || (exists u :: CanSend(child, u) && RepeatUntilDelivers(predicateNothrow, u, c))
      || (c == THROWN && !(factoryNothrow && !ConnectThrows(child))
          && DeclaresThrown(Declared(child), predicateNothrow, factoryNothrow))
  }

  // ---------- senders that compile

  ghost predicate WellFormed(s: Sender) {
    match s
    case Then(tag, child, cases, move) =>
      WellFormed(child) && forall u :: u in Declared(child) && Selected(tag, u) ==> HasCase(cases, u)
    case Let(tag, child, branches, move) =>
      && WellFormed(child) && (forall i :: 0 <= i < |branches| ==> WellFormed(branches[i].sender))
      && forall u :: u in Declared(child) && Selected(tag, u) ==> HasBranch(branches, u)
    case IntoVariant(child) => WellFormed(child) && ValueTuples(Declared(child)) != []
    case WhenAll(children, callbackNothrow) =>
      && children != []
      && (forall i :: 0 <= i < |children| ==> WellFormed(children[i]) && |ValueTuples(Declared(children[i]))| <= 1)
      && ((forall i :: 0 <= i < |children| ==> ConnectNoexcept(children[i]))
          || ExceptionPtr in WhenAllErrors(DeclaredAll(children), callbackNothrow))
    case RepeatUntil(child, _, _, _) => WellFormed(child)
    case _ => true
  }

  ghost predicate Sound(s: Sender) { forall c :: CanSend(s, c) ==> c in Declared(s) }
  ghost predicate Exact(s: Sender) { forall c :: c in Declared(s) ==> CanSend(s, c) }
}
