/**
 The rule engine: what one entry does to the state a chain implies, and when it
 is refused.  One set of rules serves writing, catching up, replaying, opening
 from a checkpoint and auditing.
 */
module Engine {
  import opened Vocabulary
  import opened Dicts
  import Merkle

  /** The money: per scope what is available, ever spent and ever refunded, and the sums
      of what crossed the ledger's edge. */
  datatype Purse = Purse(balances: map<Scope, int>, spent: map<Scope, int>, refunded: map<Scope, int>,
                         totals: Totals)

  /** Open holds, insertion-ordered; their number per scope; and the keys where unnamed
      releases left only that number certain. */
  datatype Holds = Holds(open: Dict<Id, Entry>, counts: map<Scope, int>, ambiguous: set<HoldKey>)

  /** Scopes with their parents and children, and which are tripped. */
  datatype Tree = Tree(nodes: Dict<Scope, Node>, roots: seq<Scope>, tripped: map<Scope, Trip>)

  /** The end of the chain: its head, length and Merkle frontier, and what the
      entries so far allow next. */
  datatype Tip = Tip(head: Hash, length: nat, frontier: seq<Merkle.Bytes>, lastTime: Option<int>,
                     lastCheckpoint: Option<(int, Hash)>, sawV1: bool, sawV2: bool, sawV3: bool,
                     seal: Option<Entry>, legacyApplied: bool)

  /** A chain's whole state, in parts.  `spendRefunds` stays empty where a store that
      keeps history is asked instead. */
  datatype Chain = Chain(purse: Purse, holds: Holds, tree: Tree, tip: Tip, spendRefunds: map<Id, int>, unit: Unit)

  function EmptyChain(unit: Unit): Chain {
    Chain(Purse(map[], map[], map[], Totals(0, 0, 0, 0)), Holds(Empty(), map[], {}), Tree(Empty(), [], map[]),
          Tip(unit.genesis, 0, [], None, None, false, false, false, None, false), map[], unit)
  }

  /** What the engine is given from outside the state: the hash of an entry's
      text, how hashes are combined in the Merkle tree, how a checkpoint's or the
      migration seal's memo reads, the entries a refund can name, and, for a
      store that keeps history, the refunds already naming a spend. */
  datatype Env = Env(
    digest: Entry -> Hash, sha: Merkle.HashFunction, leaf: Hash -> Merkle.Bytes,
    readCheckpoint: string -> Option<(int, Hash)>, sealsNothing: string -> bool,
    resolve: Id -> Option<Entry>, refunds: Option<(Id, nat) -> int>)

  /** What a caller asks of a step: to recompute hashes, to hold it to a write's rules. */
  datatype Mode = Mode(checkHash: bool, writing: bool)

  const REPLAYING := Mode(true, false)
  const WRITING := Mode(false, true)

  /** The open transaction: which holds it released, and its transfers' running net. */
  datatype Txn = Txn(id: Option<Id>, settleable: set<Id>, net: int)

  const NO_TXN := Txn(None, {}, 0)

  /** A state with a transaction open over it.  `recent` holds the refunds of
      spends counted since the view was taken, at `start` entries. */
  datatype View = View(c: Chain, txn: Txn, recent: map<Id, int>, start: nat)

  function Over(c: Chain): View {
    View(c, NO_TXN, map[], c.tip.length)
  }

  // -- the entry itself ----------------------------------------------------

  /** The position, link, version and hash an entry must carry. */
  function LinkRule(env: Env, mode: Mode, tip: Tip, e: Entry): Result<Tip> {
    if e.sequence != tip.length + 1 then Err(SequenceGap)
    else if e.prevHash != tip.head then Err(BrokenLink)
    else if e.version.Unknown? then Err(UnknownVersion)
    else if mode.checkHash && env.digest(e) != e.hash then Err(HashMismatch)
    else Ok(tip)
  }

  function VersionRule(tip: Tip, e: Entry): Result<Tip> {
    if e.version.V1? then
      if tip.sawV2 then Err(OldEntryAfterNew)
      else if e.ref.Some? then Err(RefOnFirstVersion)
      else if ZeroValue(e.kind) then Err(KindNotInFirstVersion)
      else Ok(tip.(sawV1 := true))
    else if tip.sawV1 && !tip.sawV2 && !e.kind.Seal? then Err(NotSealed)
    else if e.version.V3? then Ok(tip.(sawV2 := true, sawV3 := true))
    else if tip.sawV3 then Err(FormatWentBack)
    else Ok(tip.(sawV2 := true))
  }

  function TextRule(tip: Tip, e: Entry): Result<Tip> {
    if !TextAllowed(e.scope, MAX_ID_BYTES, true) then Err(BadText)
    else if e.counterparty.Some? && !TextAllowed(e.counterparty.value, MAX_ID_BYTES, true) then Err(BadText)
    else if !TextAllowed(e.memo, MAX_MEMO_BYTES, false) then Err(BadText)
    else if tip.lastTime.Some? && e.time < tip.lastTime.value then Err(TimeRanBack)
    else Ok(tip)
  }

  function CheckpointRule(env: Env, tip: Tip, e: Entry): Result<Tip> {
    match env.readCheckpoint(e.memo)
    case None => Err(MalformedCheckpoint)
    case Some((sequence, digest)) =>
      if sequence >= e.sequence then Err(CheckpointNotBefore)
      else if tip.lastCheckpoint.Some? && sequence <= tip.lastCheckpoint.value.0 then Err(CheckpointNotAfter)
      else Ok(tip.(lastCheckpoint := Some((sequence, digest))))
  }

  function AmountRule(env: Env, unit: Unit, tip: Tip, e: Entry): Result<Tip> {
    if !ZeroValue(e.kind) then
      if e.amount <= 0 then Err(AmountNotPositive)
      else if unit.quantum > 1 && e.amount % unit.quantum != 0 then Err(AmountTooFine)
      else Ok(tip)
    else if e.amount != 0 then Err(AmountNotZero)
    else if !Scopeless(e.kind) then if e.scope == "" then Err(ScopeMissing) else Ok(tip)
    else if e.scope != "" then Err(ScopeNotAllowed)
    else if e.kind.Checkpoint? then CheckpointRule(env, tip, e)
    else if tip.seal.Some? then Err(SecondSeal)
    else if !tip.sawV1 then Err(NothingToSeal)
    else Ok(tip)
  }

  function ShapeRule(env: Env, unit: Unit, tip: Tip, e: Entry): Result<Tip> {
    if !LegalDirection(e.kind, e.direction) then Err(WrongDirection)
    else if !e.version.V3? && e.kind.Checkpoint? then Err(CheckpointVersion)
    else
      var _ :- if e.version.V3? then TextRule(tip, e) else Ok(tip);
      AmountRule(env, unit, tip, e)
  }

  /** The first entry of a newer version than the first folds in what came before it. */
  function SealRule(env: Env, tip: Tip, e: Entry): Result<Tip> {
    if e.version.V1? || tip.legacyApplied then Ok(tip)
    else if e.kind.Seal? && !env.sealsNothing(e.memo) then Err(BadSeal)
    else Ok(tip.(legacyApplied := true))
  }

  /** The entry becomes the head of the chain. */
  function Advance(env: Env, tip: Tip, e: Entry): Tip {
    tip.(
      seal := if e.kind.Seal? then Some(e) else tip.seal,
      frontier := Merkle.Extend(env.sha, tip.frontier, tip.length, env.leaf(e.hash)),
      head := e.hash, length := tip.length + 1, lastTime := Some(e.time))
  }

  // -- transactions ----------------------------------------------------------

  function End(txn: Txn): Result<Txn> {
    if txn.net != 0 then Err(Unbalanced) else Ok(txn.(id := None, settleable := {}))
  }

  function Begin(txn: Txn, e: Entry): Result<Txn> {
    if txn.id == Some(e.txn) then Ok(txn)
    else if txn.id.None? then Ok(txn.(id := Some(e.txn)))
    else
      var ended :- End(txn);
      Ok(ended.(id := Some(e.txn)))
  }

  function Netted(txn: Txn, e: Entry): Txn {
    if Balanced(e.kind) then txn.(net := txn.net + Signed(e.direction, e.amount)) else txn
  }

  // -- money -------------------------------------------------------------------

  function BalanceRule(p: Purse, e: Entry): Result<Purse> {
    var expected := Get(p.balances, e.scope) + Signed(e.direction, e.amount);
    if e.balanceAfter != expected then Err(WrongBalance)
    else if ZeroValue(e.kind) then Ok(p)
    else Ok(p.(balances := p.balances[e.scope := expected]))
  }

  function FlowRule(mode: Mode, p: Purse, e: Entry): Result<Purse> {
    if e.kind.Spend? then
      Ok(p.(spent := p.spent[e.scope := Get(p.spent, e.scope) + e.amount]))
    else if e.kind.Reversal? then
      var refunded := Get(p.refunded, e.scope) + e.amount;
      if (mode.writing || e.version.V3?) && refunded > Get(p.spent, e.scope) then Err(ScopeOverRefunded)
      else Ok(p.(refunded := p.refunded[e.scope := refunded]))
    else Ok(p)
  }

  function AddTotals(t: Totals, e: Entry): Totals {
    match e.kind
    case Funding => t.(funded := t.funded + e.amount)
    case Spend => t.(spent := t.spent + e.amount)
    case Reversal => t.(reversed := t.reversed + e.amount)
    case Hold => t.(holdsOpen := t.holdsOpen + e.amount)
    case HoldVoid => t.(holdsOpen := t.holdsOpen - e.amount)
    case _ => t
  }

  // -- holds -------------------------------------------------------------------

  /** A count that reaches zero is forgotten. */
  function Counted(counts: map<Scope, int>, scope: Scope, delta: int): map<Scope, int> {
    var n := Get(counts, scope) + delta;
    if n == 0 then counts - {scope} else counts[scope := n]
  }

  function Place(h: Holds, e: Entry): Holds {
    h.(open := h.open.Put(e.id, e), counts := Counted(h.counts, e.scope, 1))
  }

  function Close(h: Holds, id: Id, hold: Entry): Holds {
    h.(open := h.open.Pop(id), counts := Counted(h.counts, hold.scope, -1))
  }

  function ReleaseNamed(h: Holds, txn: Txn, e: Entry): Result<(Holds, Txn)> {
    if e.ref.None? then Err(ReleaseNamesNoHold)
    else if e.ref.value !in h.open.at then Err(HoldNotOpen)
    else
      var hold := h.open.at[e.ref.value];
      if hold.scope != e.scope then Err(HoldOfAnotherScope)
      else if hold.amount != e.amount then Err(HoldOfAnotherAmount)
      else Ok((Close(h, e.ref.value, hold), txn.(settleable := txn.settleable + {e.ref.value})))
  }

  /** The first open hold of a scope and amount, in the order holds were placed. */
  function FirstOf(order: seq<Id>, at: map<Id, Entry>, key: HoldKey): (r: Option<Id>)
    ensures r.Some? ==> r.value in order && r.value in at && Key(at[r.value]) == key
    ensures r.None? ==> forall id :: id in order && id in at ==> Key(at[id]) != key
  {
    if |order| == 0 then None
    else if order[0] in at && Key(at[order[0]]) == key then Some(order[0])
    else FirstOf(order[1..], at, key)
  }

  function ReleaseUnnamed(h: Holds, e: Entry): Result<Holds> {
    match FirstOf(h.open.order, h.open.at, Key(e))
    case None => Err(NoSuchHoldOpen)
    case Some(id) =>
      Ok(Close(h, id, h.open.at[id]).(ambiguous := h.ambiguous + {Key(e)}))
  }

  function HoldRule(h: Holds, txn: Txn, e: Entry): Result<(Holds, Txn)> {
    if e.ref.Some? && !Referencing(e.kind, e.version) then Err(RefNotAllowed)
    else match e.kind
      case Hold => Ok((Place(h, e), txn))
      case HoldVoid =>
        if e.version.V1? then
          var closed :- ReleaseUnnamed(h, e);
          Ok((closed, txn))
        else ReleaseNamed(h, txn, e)
      case Spend =>
        if e.ref.Some? && e.ref.value !in txn.settleable then Err(NotReleasedHere) else Ok((h, txn))
      case _ => Ok((h, txn))
  }

  function RefundedOfSpend(env: Env, kept: map<Id, int>, recent: map<Id, int>, start: nat, id: Id): int {
    if id in recent then recent[id]
    else match env.refunds
      case None => Get(kept, id)
      case Some(lookup) => if start > 0 then lookup(id, start) else 0
  }

  /** A named refund needs a spend of its own scope with enough of it not yet refunded. */
  function RefundRule(env: Env, kept: map<Id, int>, recent: map<Id, int>, start: nat, e: Entry): Result<map<Id, int>> {
    if !e.kind.Reversal? || e.ref.None? then Ok(recent)
    else match env.resolve(e.ref.value)
      case None => Err(NotASpend)
      case Some(s) =>
        if !s.kind.Spend? then Err(NotASpend)
        else if s.scope != e.scope then Err(SpendOfAnotherScope)
        else
          var refunded := RefundedOfSpend(env, kept, recent, start, e.ref.value) + e.amount;
          if refunded > s.amount then Err(SpendOverRefunded) else Ok(recent[e.ref.value := refunded])
  }

  // -- governance --------------------------------------------------------------

  function Fund(t: Tree, e: Entry): Result<Tree> {
    if e.scope !in t.nodes.at then
      Ok(t.(nodes := t.nodes.Put(e.scope, Node(e.scope, None, 0, e.amount, [], e.time)), roots := t.roots + [e.scope]))
    else
      var node := t.nodes.at[e.scope];
      if node.parent.Some? then Err(NotARoot)
      else Ok(t.(nodes := t.nodes.Put(e.scope, node.(allotted := node.allotted + e.amount))))
  }

  function Other(e: Entry): Scope {
    if e.counterparty.Some? then e.counterparty.value else ""
  }

  function Allocate(t: Tree, e: Entry): Result<Tree> {
    if e.direction.Debit? then
      if e.scope in t.nodes.at then Ok(t) else Err(UnknownScope)
    else if e.scope in t.nodes.at then Err(ScopeExists)
    else if Other(e) !in t.nodes.at then Err(UnknownParent)
    else
      var parent := t.nodes.at[Other(e)];
      var child := Node(e.scope, Some(Other(e)), parent.depth + 1, e.amount, [], e.time);
      Ok(t.(nodes := t.nodes.Put(e.scope, child).Put(Other(e), parent.(children := parent.children + [e.scope]))))
  }

  function ReleaseBetween(t: Tree, e: Entry): Result<Tree> {
    if e.scope !in t.nodes.at then Err(UnknownScope)
    else
      var child := if e.direction.Debit? then e.scope else Other(e);
      var parent := if e.direction.Debit? then Other(e) else e.scope;
      if child in t.nodes.at && t.nodes.at[child].parent == Some(parent) then Ok(t) else Err(NotChildAndParent)
  }

  function Control(t: Tree, e: Entry): Result<Tree> {
    if e.scope !in t.nodes.at then Err(UnknownScope)
    else if e.kind.CircuitTripped? then Ok(t.(tripped := t.tripped[e.scope := Trip(e.time, e.memo)]))
    else Ok(t.(tripped := t.tripped - {e.scope}))
  }

  function Govern(t: Tree, e: Entry): Result<Tree> {
    match e.kind
    case Funding => Fund(t, e)
    case Allocation => Allocate(t, e)
    case Release => ReleaseBetween(t, e)
    case CircuitTripped | CircuitReset => Control(t, e)
    case Seal | Checkpoint => Ok(t)
    case _ => if e.scope in t.nodes.at then Ok(t) else Err(UnknownScope)
  }

  // -- one entry, many entries, one batch ------------------------------------

  function AdmitRule(env: Env, mode: Mode, unit: Unit, tip: Tip, e: Entry): Result<Tip> {
    var linked :- LinkRule(env, mode, tip, e);
    var versioned :- VersionRule(linked, e);
    ShapeRule(env, unit, versioned, e)
  }

  /** The entry's place, form and transaction. */
  function Opening(env: Env, mode: Mode, unit: Unit, tip: Tip, txn: Txn, e: Entry): Result<(Tip, Txn)> {
    var admitted :- AdmitRule(env, mode, unit, tip, e);
    var begun :- Begin(txn, e);
    Ok((admitted, begun))
  }

  /** The entry's money: balance, holds, the spend a refund names, lifetime flows. */
  function Booking(env: Env, mode: Mode, purse: Purse, holds: Holds, kept: map<Id, int>, txn: Txn,
                   recent: map<Id, int>, start: nat, e: Entry): Result<(Purse, Holds, Txn, map<Id, int>)>
  {
    var moved :- BalanceRule(purse, e);
    var (holds', txn') :- HoldRule(holds, Netted(txn, e), e);
    var recent' :- RefundRule(env, kept, recent, start, e);
    var flowed :- FlowRule(mode, moved, e);
    Ok((flowed, holds', txn', recent'))
  }

  /** What the entry does to the delegation tree. */
  function Governing(env: Env, tip: Tip, tree: Tree, e: Entry): Result<(Tip, Tree)> {
    var sealed :- SealRule(env, tip, e);
    var tree' :- Govern(tree, e);
    Ok((sealed, tree'))
  }

  /** The rules in their order, and the view an accepted entry leaves. */
  function Step(env: Env, mode: Mode, v: View, e: Entry): Result<View> {
    var (tip, begun) :- Opening(env, mode, v.c.unit, v.c.tip, v.txn, e);
    var (flowed, holds, txn, recent) :- 
      Booking(env, mode, v.c.purse, v.c.holds, v.c.spendRefunds, begun, v.recent, v.start, e);
    var (tip', tree) :- Governing(env, tip, v.c.tree, e);
    var purse := flowed.(totals := AddTotals(flowed.totals, e));
    Ok(View(Chain(purse, holds, tree, Advance(env, tip', e), v.c.spendRefunds, v.c.unit), txn, recent, v.start))
  }

  function Steps(env: Env, mode: Mode, v: View, entries: seq<Entry>): Result<View> {
    if |entries| == 0 then Ok(v)
    else
      var w :- Steps(env, mode, v, entries[..|entries| - 1]);
      Step(env, mode, w, entries[|entries| - 1])
  }

  /** What a view leaves in the state below: the refunds it counted only where no
      store answers for them. */
  function Merged(env: Env, v: View): Chain {
    if env.refunds.None? then v.c.(spendRefunds := v.c.spendRefunds + v.recent) else v.c
  }

  /** One view taken over a state, every entry applied, its transaction closed. */
  function Batch(env: Env, mode: Mode, c: Chain, entries: seq<Entry>): Result<Chain> {
    var v :- Steps(env, mode, Over(c), entries);
    var _ :- End(v.txn);
    Ok(Merged(env, v))
  }

  function Replay(env: Env, unit: Unit, entries: seq<Entry>): Result<Chain> {
    Batch(env, REPLAYING, EmptyChain(unit), entries)
  }
}
