/**
 The copy-on-write view the ledger checks entries in.  Every change is staged
 beside the state and reaches it only in Merge, so a view that fails or is
 dropped leaves the state as it was.  Each method is proved against the pure
 rules of Engine.
 */
module Overlays {
  import opened Vocabulary
  import opened Dicts
  import opened Engine
  import opened Layers
  import Merkle

  datatype Outcome = Pass | Fail(fault: Fault)

  /** A topology row of the store's cache. */
  datatype NodeRow = NodeRow(parent: Option<Scope>, depth: nat, allotted: int)

  function RowOf(n: Node): NodeRow {
    NodeRow(n.parent, n.depth, n.allotted)
  }

  function RowsOf(nodes: map<Scope, Node>): map<Scope, NodeRow> {
    map s | s in nodes :: RowOf(nodes[s])
  }

  class ChainState {
    var balances: map<Scope, int>
    var totals: Totals
    var head: Hash
    var length: nat
    var holds: Dict<Id, Entry>
    var ambiguous: set<HoldKey>
    var sawV1: bool
    var sawV2: bool
    var sawV3: bool
    var seal: Option<Entry>
    var legacyApplied: bool
    var nodes: Dict<Scope, Node>
    var roots: seq<Scope>
    var tripped: map<Scope, Trip>
    var spent: map<Scope, int>
    var refunded: map<Scope, int>
    var holdCounts: map<Scope, int>
    var spendRefunds: map<Id, int>
    var lastTime: Option<int>
    var lastCheckpoint: Option<(int, Hash)>
    var frontier: seq<Merkle.Bytes>
    const unit: Unit

    function PurseValue(): Purse
      reads this`balances, this`spent, this`refunded, this`totals
    {
      Purse(balances, spent, refunded, totals)
    }

    function HoldsValue(): Holds
      reads this`holds, this`holdCounts, this`ambiguous
    {
      Holds(holds, holdCounts, ambiguous)
    }

    function TreeValue(): Tree
      reads this`nodes, this`roots, this`tripped
    {
      Tree(nodes, roots, tripped)
    }

    function TipValue(): Tip
      reads this`head, this`length, this`frontier, this`lastTime, this`lastCheckpoint
      reads this`sawV1, this`sawV2, this`sawV3, this`seal, this`legacyApplied
    {
      Tip(head, length, frontier, lastTime, lastCheckpoint, sawV1, sawV2, sawV3, seal, legacyApplied)
    }

    function Value(): Chain
      reads this
    {
      Chain(PurseValue(), HoldsValue(), TreeValue(), TipValue(), spendRefunds, unit)
    }

    ghost predicate Valid()
      reads this
    {
      holds.Valid() && nodes.Valid() && |frontier| == Merkle.Ones(length)
    }

    /** The state of a ledger with no entries. */
    constructor (u: Unit)
      ensures Value() == EmptyChain(u) && Valid()
    {
      unit := u;
      balances, totals, head, length := map[], Totals(0, 0, 0, 0), u.genesis, 0;
      holds, ambiguous := Empty(), {};
      sawV1, sawV2, sawV3, seal, legacyApplied := false, false, false, None, false;
      nodes, roots, tripped := Empty(), [], map[];
      spent, refunded, holdCounts, spendRefunds := map[], map[], map[], map[];
      lastTime, lastCheckpoint, frontier := None, None, [];
    }
  }

  /** Staged counts over kept ones: a staged zero removes its key. */
  function Tally(kept: map<Scope, int>, staged: map<Scope, int>): map<Scope, int> {
    map s | s in kept.Keys + staged.Keys && !(s in staged && staged[s] == 0) ::
      if s in staged then staged[s] else kept[s]
  }

  /** Staged trips and resets over the trips in force. */
  function Latched(kept: map<Scope, Trip>, staged: map<Scope, Option<Trip>>): map<Scope, Trip> {
    map s | s in kept.Keys + staged.Keys && (s in staged ==> staged[s].Some?) ::
      if s in staged then staged[s].value else kept[s]
  }

  function Extra(children: map<Scope, seq<Scope>>, s: Scope): seq<Scope> {
    if s in children then children[s] else []
  }

  /** Staged scopes over registered ones; children added here follow those
      already listed. */
  function Grown(kept: Dict<Scope, Node>, staged: Dict<Scope, Node>, children: map<Scope, seq<Scope>>):
    Dict<Scope, Node>
  {
    Dict(kept.order + Drop(staged.order, kept.at.Keys),
         map s | s in kept.at.Keys + staged.at.Keys :: GrownAt(kept.at, staged.at, children, s))
  }

  function GrownAt(kept: map<Scope, Node>, staged: map<Scope, Node>, children: map<Scope, seq<Scope>>, s: Scope): Node
    requires s in kept || s in staged
  {
    var n := if s in staged then staged[s] else kept[s];
    n.(children := n.children + Extra(children, s))
  }

  /** Scopes staged over kept ones: what is staged of a kept scope differs only in what it
      was allotted, and every one that differs has a row to write. */
  ghost predicate StagedOver(kept: Dict<Scope, Node>, staged: Dict<Scope, Node>, children: map<Scope, seq<Scope>>,
                             rows: set<Scope>) {
    && kept.Valid() && staged.Valid()
    && (forall s :: s in staged.at && s in kept.at ==>
          staged.at[s] == kept.at[s].(allotted := staged.at[s].allotted))
    && (forall s :: s in staged.at && s !in kept.at ==> staged.at[s].children == [])
    && (forall s :: s in children ==> s in staged.at || s in kept.at)
    && rows <= staged.at.Keys
    && (forall s :: s in staged.at && s !in rows ==> s in kept.at && staged.at[s] == kept.at[s])
  }

  lemma AllotStaged(kept: Dict<Scope, Node>, staged: Dict<Scope, Node>, children: map<Scope, seq<Scope>>,
                    rows: set<Scope>,
                    s: Scope, node: Node, total: int)
    requires StagedOver(kept, staged, children, rows)
    requires if s in staged.at then node == staged.at[s] else s in kept.at && node == kept.at[s]
    ensures StagedOver(kept, staged.Put(s, node.(allotted := total)), children, rows + {s})
  {
    PutValid(staged, s, node.(allotted := total));
  }

  class Overlay {
    const base: ChainState
    const env: Env
    const start: nat
    var balances: map<Scope, int>
    var totals: Totals
    var head: Hash
    var length: nat
    var sawV1: bool
    var sawV2: bool
    var sawV3: bool
    var seal: Option<Entry>
    var legacyApplied: bool
    var lastTime: Option<int>
    var lastCheckpoint: Option<(int, Hash)>
    var frontier: seq<Merkle.Bytes>
    var spendRefunds: map<Id, int>
    var ambiguous: set<HoldKey>
    var placed: Dict<Id, Entry>
    var closed: set<Id>
    var nodes: Dict<Scope, Node>
    var children: map<Scope, seq<Scope>>
    var rowScopes: set<Scope>
    var roots: seq<Scope>
    var tripped: map<Scope, Option<Trip>>
    var events: seq<Entry>
    var spent: map<Scope, int>
    var refunded: map<Scope, int>
    var counts: map<Scope, int>
    var txn: Option<Id>
    var settleable: set<Id>
    var net: int

    // -- the chain as of the entries applied so far --------------------------

    ghost function PurseSeen(): Purse
      reads this`balances, this`spent, this`refunded, this`totals
      reads base`balances, base`spent, base`refunded
    {
      Purse(base.balances + balances, base.spent + spent, base.refunded + refunded, totals)
    }

    ghost function HoldsSeen(): Holds
      reads this`placed, this`closed, this`counts, this`ambiguous
      reads base`holds, base`holdCounts, base`ambiguous
    {
      Holds(Layer(base.holds, closed, placed), Tally(base.holdCounts, counts), base.ambiguous + ambiguous)
    }

    ghost function TreeSeen(): Tree
      reads this`nodes, this`children, this`roots, this`tripped
      reads base`nodes, base`roots, base`tripped
    {
      Tree(Grown(base.nodes, nodes, children), base.roots + roots, Latched(base.tripped, tripped))
    }

    ghost function TipSeen(): Tip
      reads this`head, this`length, this`frontier, this`lastTime, this`lastCheckpoint
      reads this`sawV1, this`sawV2, this`sawV3, this`seal, this`legacyApplied
    {
      Tip(head, length, frontier, lastTime, lastCheckpoint, sawV1, sawV2, sawV3, seal, legacyApplied)
    }

    ghost function TxnSeen(): Txn
      reads this`txn, this`settleable, this`net
    {
      Txn(txn, settleable, net)
    }

    ghost function Value(): View
      reads this, base
    {
      View(Chain(PurseSeen(), HoldsSeen(), TreeSeen(), TipSeen(), base.spendRefunds, base.unit),
           TxnSeen(), spendRefunds, start)
    }

    /** The holds as they are staged. */
    ghost function Held(): Staged
      reads this`placed, this`closed, base`holds
    {
      Staged(base.holds, closed, placed)
    }

    ghost predicate HoldsStaged()
      reads this`placed, this`closed, base`holds
    {
      Held().Valid()
    }

    /** No hold placed here reuses the id of one kept below. */
    ghost predicate Apart()
      reads this`placed, base`holds
    {
      placed.at.Keys !! base.holds.at.Keys
    }

    lemma SeenTogether()
      requires HoldsStaged() && Apart()
      ensures Together(Value(), Held())
    {
      hide Layer;
    }

    ghost predicate NodesStaged()
      reads this`nodes, this`children, this`rowScopes, base`nodes
    {
      StagedOver(base.nodes, nodes, children, rowScopes)
    }

    ghost predicate Aligned()
      reads this`frontier, this`length, base`length
    {
      start == base.length && |frontier| == Merkle.Ones(length)
    }

    ghost predicate Valid()
      reads this, base
    {
      HoldsStaged() && NodesStaged() && Aligned()
    }

    constructor (b: ChainState, e: Env)
      requires b.Valid()
      ensures base == b && env == e && Valid() && Value() == Over(b.Value())
      ensures events == [] && rowScopes == {} && Held() == Unstaged(b.Value()) && Apart()
    {
      base, env, start := b, e, b.length;
      balances, totals, head, length := map[], b.totals, b.head, b.length;
      sawV1, sawV2, sawV3, seal, legacyApplied := b.sawV1, b.sawV2, b.sawV3, b.seal, b.legacyApplied;
      lastTime, lastCheckpoint, frontier := b.lastTime, b.lastCheckpoint, b.frontier;
      spendRefunds, ambiguous, placed, closed := map[], {}, Empty(), {};
      nodes, children, rowScopes, roots := Empty(), map[], {}, [];
      tripped, events, spent, refunded, counts := map[], [], map[], map[], map[];
      txn, settleable, net := None, {}, 0;
      new;
      hide HoldsStaged, NodesStaged, Aligned, PurseSeen, HoldsSeen, TreeSeen, TipSeen, TxnSeen, Over, ChainState.Value;
      Started();
    }

    /** Nothing is staged yet. */
    ghost predicate Blank()
      reads this, base
    {
      && balances == map[] && spent == map[] && refunded == map[] && totals == base.totals
      && placed == Empty() && closed == {} && counts == map[] && ambiguous == {}
      && nodes == Empty() && children == map[] && roots == [] && tripped == map[] && rowScopes == {}
      && TipSeen() == base.Value().tip && TxnSeen() == NO_TXN && spendRefunds == map[] && start == base.length
    }

    lemma Started()
      requires base.Valid() && Blank()
      ensures Valid() && Value() == Over(base.Value())
    {
      hide Layer, Grown, Tally, Latched, Merkle.Ones;
      LayerNothing(base.holds);
      GrownNothing(base.nodes);
      NothingStaged(base.holdCounts, base.tripped);
      assert base.balances + balances == base.balances;
      assert base.spent + spent == base.spent;
      assert base.refunded + refunded == base.refunded;
      assert base.roots + roots == base.roots;
    }

    // -- what the view answers -----------------------------------------------

    function Balance(s: Scope): (r: int)
      reads this, base
      ensures r == Get(PurseSeen().balances, s)
    {
      if s in balances then balances[s] else Get(base.balances, s)
    }

    function OpenHold(id: Id): (r: Option<Entry>)
      reads this, base
      ensures r == Held().Open(id)
    {
      if id in closed then None
      else if id in placed.at then Some(placed.at[id])
      else if id in base.holds.at then Some(base.holds.at[id])
      else None
    }

    /** A scope's record, but for children added by this view. */
    function NodeOf(s: Scope): (r: Option<Node>)
      requires NodesStaged()
      reads this, base
      ensures r.Some? <==> s in TreeSeen().nodes.at
      ensures r.Some? ==> r.value == TreeSeen().nodes.at[s].(children := r.value.children)
    {
      if s in nodes.at then Some(nodes.at[s])
      else if s in base.nodes.at then Some(base.nodes.at[s])
      else None
    }

    function HoldsOpenIn(s: Scope): (r: int)
      reads this, base
      ensures r == Get(HoldsSeen().counts, s)
    {
      if s in counts then counts[s] else Get(base.holdCounts, s)
    }

    function SpentBy(s: Scope): (r: int)
      reads this, base
      ensures r == Get(PurseSeen().spent, s)
    {
      if s in spent then spent[s] else Get(base.spent, s)
    }

    function RefundedTo(s: Scope): (r: int)
      reads this, base
      ensures r == Get(PurseSeen().refunded, s)
    {
      if s in refunded then refunded[s] else Get(base.refunded, s)
    }

    function RefundedOf(id: Id): int
      reads this, base
    {
      if id in spendRefunds then spendRefunds[id]
      else match env.refunds
        case None => Get(base.spendRefunds, id)
        case Some(lookup) => if base.length > 0 then lookup(id, base.length) else 0
    }

    function TripOf(s: Scope): (r: Option<Trip>)
      reads this, base
      ensures var t := TreeSeen().tripped; r == if s in t then Some(t[s]) else None
    {
      if s in tripped then tripped[s]
      else if s in base.tripped then Some(base.tripped[s])
      else None
    }

    // -- the rules ---------------------------------------------------------

    method CheckVersion(e: Entry) returns (r: Outcome)
      modifies this`sawV1, this`sawV2, this`sawV3
      ensures Follows(VersionRule(old(TipSeen()), e), TipSeen(), r)
    {
      if e.version.V1? {
        if sawV2 { return Fail(OldEntryAfterNew); }
        if e.ref.Some? { return Fail(RefOnFirstVersion); }
        if ZeroValue(e.kind) { return Fail(KindNotInFirstVersion); }
        sawV1 := true;
        return Pass;
      }
      if sawV1 && !sawV2 && !e.kind.Seal? { return Fail(NotSealed); }
      if e.version.V3? {
        sawV3 := true;
      } else if sawV3 {
        return Fail(FormatWentBack);
      }
      sawV2 := true;
      return Pass;
    }

    method CheckShape(e: Entry) returns (r: Outcome)
      modifies this`lastCheckpoint
      ensures Follows(ShapeRule(env, base.unit, old(TipSeen()), e), TipSeen(), r)
    {
      if !LegalDirection(e.kind, e.direction) { return Fail(WrongDirection); }
      if e.version.V3? {
        if !TextAllowed(e.scope, MAX_ID_BYTES, true) { return Fail(BadText); }
        if e.counterparty.Some? && !TextAllowed(e.counterparty.value, MAX_ID_BYTES, true) { return Fail(BadText); }
        if !TextAllowed(e.memo, MAX_MEMO_BYTES, false) { return Fail(BadText); }
        if lastTime.Some? && e.time < lastTime.value { return Fail(TimeRanBack); }
      } else if e.kind.Checkpoint? {
        return Fail(CheckpointVersion);
      }
      if !ZeroValue(e.kind) {
        if e.amount <= 0 { return Fail(AmountNotPositive); }
        if base.unit.quantum > 1 && e.amount % base.unit.quantum != 0 { return Fail(AmountTooFine); }
        return Pass;
      }
      if e.amount != 0 { return Fail(AmountNotZero); }
      if !Scopeless(e.kind) {
        if e.scope == "" { return Fail(ScopeMissing); }
        return Pass;
      }
      if e.scope != "" { return Fail(ScopeNotAllowed); }
      if e.kind.Checkpoint? {
        match env.readCheckpoint(e.memo)
        case None => return Fail(MalformedCheckpoint);
        case Some((sequence, digest)) =>
          if sequence >= e.sequence { return Fail(CheckpointNotBefore); }
          if lastCheckpoint.Some? && sequence <= lastCheckpoint.value.0 { return Fail(CheckpointNotAfter); }
          lastCheckpoint := Some((sequence, digest));
          return Pass;
      }
      if seal.Some? { return Fail(SecondSeal); }
      if !sawV1 { return Fail(NothingToSeal); }
      return Pass;
    }

    method EndTransaction() returns (r: Outcome)
      modifies this`txn, this`settleable
      ensures Follows(End(old(TxnSeen())), TxnSeen(), r)
    {
      if net != 0 { return Fail(Unbalanced); }
      txn, settleable := None, {};
      return Pass;
    }

    method BeginTransaction(e: Entry) returns (r: Outcome)
      modifies this`txn, this`settleable
      ensures Follows(Begin(old(TxnSeen()), e), TxnSeen(), r)
    {
      if txn != Some(e.txn) {
        if txn.Some? {
          r := EndTransaction();
          if r.Fail? { return; }
        }
        txn := Some(e.txn);
      }
      return Pass;
    }

    method CheckBalance(e: Entry) returns (r: Outcome)
      modifies this`balances, this`net
      ensures Follows(BalanceRule(old(PurseSeen()), e), PurseSeen(), r)
      ensures r.Pass? ==> TxnSeen() == Netted(old(TxnSeen()), e)
    {
      var expected := Balance(e.scope) + Signed(e.direction, e.amount);
      if e.balanceAfter != expected { return Fail(WrongBalance); }
      if !ZeroValue(e.kind) {
        StageOver(base.balances, balances, e.scope, expected);
        balances := balances[e.scope := expected];
      }
      if Balanced(e.kind) { net := net + Signed(e.direction, e.amount); }
      return Pass;
    }

    method CheckFlows(e: Entry, writing: bool) returns (r: Outcome)
      modifies this`spent, this`refunded
      ensures forall checkHash :: Follows(FlowRule(Mode(checkHash, writing), old(PurseSeen()), e), PurseSeen(), r)
    {
      if e.kind.Spend? {
        var total := SpentBy(e.scope) + e.amount;
        StageOver(base.spent, spent, e.scope, total);
        spent := spent[e.scope := total];
      } else if e.kind.Reversal? {
        var total := RefundedTo(e.scope) + e.amount;
        if (writing || e.version.V3?) && total > SpentBy(e.scope) { return Fail(ScopeOverRefunded); }
        StageOver(base.refunded, refunded, e.scope, total);
        refunded := refunded[e.scope := total];
      }
      return Pass;
    }

    method Place(e: Entry)
      requires HoldsStaged()
      modifies this`placed, this`counts
      ensures HoldsStaged() && Held() == old(Held()).Place(e)
      ensures HoldsSeen() == Engine.Place(old(HoldsSeen()), e)
    {
      hide Layer, Tally;
      ShownPlace(Held(), e);
      Recount(base.holdCounts, counts, e.scope, HoldsOpenIn(e.scope) + 1);
      counts := counts[e.scope := HoldsOpenIn(e.scope) + 1];
      placed := placed.Put(e.id, e);
    }

    method Close(id: Id, hold: Entry)
      requires HoldsStaged() && (id in placed.at || id in base.holds.at)
      modifies this`placed, this`closed, this`counts
      ensures HoldsStaged() && Held() == old(Held()).Close(id)
      ensures HoldsSeen() == Seen(Held(), Counted(old(HoldsSeen()).counts, hold.scope, -1), old(HoldsSeen()).ambiguous)
    {
      hide Layer, Tally;
      CloseValid(Held(), id);
      Recount(base.holdCounts, counts, hold.scope, HoldsOpenIn(hold.scope) - 1);
      counts := counts[hold.scope := HoldsOpenIn(hold.scope) - 1];
      if id in placed.at {
        placed := placed.Pop(id);
      } else {
        closed := closed + {id};
      }
    }

    method ReleaseNamed(e: Entry) returns (r: Outcome)
      requires HoldsStaged()
      modifies this`placed, this`closed, this`counts, this`settleable
      ensures HoldsStaged()
      ensures Follows(NamedUnder(old(HoldsSeen()), old(Held()), old(TxnSeen()), e), (HoldsSeen(), Held(), TxnSeen()), r)
      ensures old(Apart()) ==>
                Follows(Engine.ReleaseNamed(old(HoldsSeen()), old(TxnSeen()), e), (HoldsSeen(), TxnSeen()), r)
    {
      hide HoldsStaged, HoldsSeen, Counted, Layer, Apart, Engine.ReleaseNamed;
      NamedAgrees(e);
      if e.ref.None? { return Fail(ReleaseNamesNoHold); }
      var id := e.ref.value;
      var found := OpenHold(id);
      if found.None? { return Fail(HoldNotOpen); }
      var hold := found.value;
      if hold.scope != e.scope { return Fail(HoldOfAnotherScope); }
      if hold.amount != e.amount { return Fail(HoldOfAnotherAmount); }
      Close(id, hold);
      settleable := settleable + {id};
      return Pass;
    }

    /** The first open hold of a scope and amount: among those kept and not closed, then
        among those placed. */
    method FindHold(key: HoldKey) returns (found: Option<Id>)
      requires HoldsStaged()
      ensures found == Held().First(key)
      ensures Apart() ==> found == FirstOf(HoldsSeen().open.order, HoldsSeen().open.at, key)
    {
      hide Key, FirstOf, Drop, Layer, Tally, Apart;
      FirstAgrees(key);
      var kept := base.holds;
      LooksNone(kept.at, closed, key);
      for i := 0 to |kept.order|
        invariant FirstOf(Drop(kept.order[..i], closed), kept.at, key).None?
      {
        var id := kept.order[i];
        LooksNext(kept.order, i, closed, kept.at, key);
        if id !in closed && Key(kept.at[id]) == key { return Some(id); }
      }
      assert kept.order[..|kept.order|] == kept.order;
      LooksNone(placed.at, {}, key);
      for i := 0 to |placed.order|
        invariant FirstOf(Drop(placed.order[..i], {}), placed.at, key).None?
      {
        var id := placed.order[i];
        LooksNext(placed.order, i, {}, placed.at, key);
        if Key(placed.at[id]) == key {
          DropNone(placed.order, {});
          return Some(id);
        }
      }
      assert placed.order[..|placed.order|] == placed.order;
      DropNone(placed.order, {});
      return None;
    }

    /** A first-version release is paired by scope and amount, all it carries. */
    method ReleaseUnnamed(e: Entry) returns (r: Outcome)
      requires HoldsStaged()
      modifies this`placed, this`closed, this`counts, this`ambiguous
      ensures HoldsStaged()
      ensures Follows(UnnamedUnder(old(HoldsSeen()), old(Held()), e), (HoldsSeen(), Held()), r)
      ensures old(Apart()) ==> Follows(Engine.ReleaseUnnamed(old(HoldsSeen()), e), HoldsSeen(), r)
    {
      hide HoldsStaged, FirstOf, Layer, Tally, Counted, Drop, Apart, Engine.ReleaseUnnamed;
      UnnamedAgrees(e);
      var found := FindHold(Key(e));
      if found.None? { return Fail(NoSuchHoldOpen); }
      var id := found.value;
      FirstHas(Held(), Key(e));
      Close(id, e);
      ghost var before := HoldsSeen();
      ambiguous := ambiguous + {Key(e)};
      assert base.ambiguous + ambiguous == before.ambiguous + {Key(e)};
      return Pass;
    }

    method CheckHolds(e: Entry) returns (r: Outcome)
      requires HoldsStaged()
      modifies this`placed, this`closed, this`counts, this`ambiguous, this`settleable
      ensures HoldsStaged()
      ensures Follows(HoldRuleUnder(old(HoldsSeen()), old(Held()), old(TxnSeen()), e), (HoldsSeen(), Held(), TxnSeen()),
                      r)
      ensures old(Apart()) ==> Follows(HoldRule(old(HoldsSeen()), old(TxnSeen()), e), (HoldsSeen(), TxnSeen()), r)
    {
      hide HoldsStaged, NamedUnder, UnnamedUnder, Layer, Counted, Apart, HoldRule;
      HoldsAgree(e);
      if e.ref.Some? && !Referencing(e.kind, e.version) { return Fail(RefNotAllowed); }
      if e.kind.Hold? {
        Place(e);
      } else if e.kind.HoldVoid? {
        if e.version.V1? {
          r := ReleaseUnnamed(e);
        } else {
          r := ReleaseNamed(e);
        }
        return;
      } else if e.kind.Spend? && e.ref.Some? {
        if e.ref.value !in settleable { return Fail(NotReleasedHere); }
      }
      return Pass;
    }

    method CheckRefund(e: Entry) returns (r: Outcome)
      requires Aligned()
      modifies this`spendRefunds
      ensures Follows(RefundRule(env, base.spendRefunds, old(spendRefunds), start, e), spendRefunds, r)
    {
      if e.kind.Reversal? && e.ref.Some? {
        var spend := env.resolve(e.ref.value);
        if spend.None? || !spend.value.kind.Spend? { return Fail(NotASpend); }
        if spend.value.scope != e.scope { return Fail(SpendOfAnotherScope); }
        var total := RefundedOf(e.ref.value) + e.amount;
        if total > spend.value.amount { return Fail(SpendOverRefunded); }
        spendRefunds := spendRefunds[e.ref.value := total];
      }
      return Pass;
    }

    // -- governance rules ----------------------------------------------------

    method Fund(e: Entry) returns (r: Outcome)
      requires NodesStaged()
      modifies this`nodes, this`roots, this`rowScopes
      ensures r.Pass? ==> NodesStaged()
      ensures Follows(Engine.Fund(old(TreeSeen()), e), TreeSeen(), r)
    {
      hide Grown, Latched, NodesStaged;
      var found := NodeOf(e.scope);
      if found.None? {
        var node := Node(e.scope, None, 0, e.amount, [], e.time);
        StageNode(node);
        ghost var before := TreeSeen();
        roots := roots + [e.scope];
        assert base.roots + roots == before.roots + [e.scope];
      } else if found.value.parent.Some? {
        return Fail(NotARoot);
      } else {
        StageAllotment(e.scope, found.value.allotted + e.amount);
      }
      return Pass;
    }

    /** Stage a record that differs from the one seen only in its allotment. */
    method StageAllotment(s: Scope, total: int)
      requires NodesStaged() && NodeOf(s).Some?
      modifies this`nodes, this`rowScopes
      ensures NodesStaged()
      ensures TreeSeen() == old(TreeSeen()).(nodes := old(TreeSeen()).nodes.Put(s,
                old(TreeSeen()).nodes.at[s].(allotted := total)))
    {
      hide Grown, Latched, StagedOver;
      var node := NodeOf(s).value;
      GrownAllot(base.nodes, nodes, children, s, node, total);
      AllotStaged(base.nodes, nodes, children, rowScopes, s, node, total);
      nodes := nodes.Put(s, node.(allotted := total));
      rowScopes := rowScopes + {s};
    }

    /** A scope this view creates. */
    method StageNode(node: Node)
      requires NodesStaged() && NodeOf(node.scope).None? && node.children == []
      modifies this`nodes, this`rowScopes
      ensures NodesStaged() && nodes == old(nodes).Put(node.scope, node)
      ensures TreeSeen() == old(TreeSeen()).(nodes := old(TreeSeen()).nodes.Put(node.scope, node))
    {
      hide Grown, Latched;
      GrownNew(base.nodes, nodes, children, node.scope, node);
      PutValid(nodes, node.scope, node);
      nodes := nodes.Put(node.scope, node);
      rowScopes := rowScopes + {node.scope};
    }

    method Allocate(e: Entry) returns (r: Outcome)
      requires NodesStaged()
      modifies this`nodes, this`children, this`rowScopes
      ensures r.Pass? ==> NodesStaged()
      ensures Follows(Engine.Allocate(old(TreeSeen()), e), TreeSeen(), r)
    {
      hide Grown, Latched, NodesStaged;
      if e.direction.Debit? {
        if NodeOf(e.scope).None? { return Fail(UnknownScope); }
        return Pass;
      }
      if NodeOf(e.scope).Some? { return Fail(ScopeExists); }
      var parentId := Other(e);
      var parent := NodeOf(parentId);
      if parent.None? { return Fail(UnknownParent); }
      StageNode(Node(e.scope, Some(parentId), parent.value.depth + 1, e.amount, [], e.time));
      StageChild(parentId, e.scope);
      return Pass;
    }

    /** A scope delegated to, appended to its parent's children on merging. */
    method StageChild(parentId: Scope, child: Scope)
      requires NodesStaged() && NodeOf(parentId).Some?
      modifies this`children
      ensures NodesStaged()
      ensures var t := old(TreeSeen());
              var p := t.nodes.at[parentId];
              TreeSeen() == t.(nodes := t.nodes.Put(parentId, p.(children := p.children + [child])))
    {
      hide Grown, Latched;
      GrownChild(base.nodes, nodes, children, parentId, child);
      children := children[parentId := Extra(children, parentId) + [child]];
    }

    method ReleaseBetween(e: Entry) returns (r: Outcome)
      requires NodesStaged()
      ensures Follows(Engine.ReleaseBetween(TreeSeen(), e), TreeSeen(), r)
    {
      if NodeOf(e.scope).None? { return Fail(UnknownScope); }
      var child := if e.direction.Debit? then NodeOf(e.scope) else NodeOf(Other(e));
      var parentId := if e.direction.Debit? then Other(e) else e.scope;
      if child.None? || child.value.parent != Some(parentId) { return Fail(NotChildAndParent); }
      return Pass;
    }

    method Control(e: Entry) returns (r: Outcome)
      requires NodesStaged()
      modifies this`tripped
      ensures Follows(Engine.Control(old(TreeSeen()), e), TreeSeen(), r)
    {
      if NodeOf(e.scope).None? { return Fail(UnknownScope); }
      hide Grown;
      var latch := if e.kind.CircuitTripped? then Some(Trip(e.time, e.memo)) else None;
      Relatch(base.tripped, tripped, e.scope, latch);
      tripped := tripped[e.scope := latch];
      return Pass;
    }

    method CheckTree(e: Entry) returns (r: Outcome)
      requires NodesStaged()
      modifies this`nodes, this`children, this`rowScopes, this`roots, this`tripped, this`events
      ensures r.Pass? ==> NodesStaged()
      ensures Follows(Govern(old(TreeSeen()), e), TreeSeen(), r)
      ensures r.Pass? ==> events == old(events) + (if e.kind.CircuitTripped? || e.kind.CircuitReset? then [e] else [])
    {
      hide NodesStaged, TreeSeen, Engine.Fund, Engine.Allocate, Engine.ReleaseBetween, Engine.Control;
      match e.kind
      case Funding => r := Fund(e);
      case Allocation => r := Allocate(e);
      case Release => r := ReleaseBetween(e);
      case CircuitTripped | CircuitReset =>
        r := Control(e);
        if r.Pass? { events := events + [e]; }
      case Seal | Checkpoint => r := Pass;
      case _ => r := if NodeOf(e.scope).None? then Fail(UnknownScope) else Pass;
    }

    method CheckSeal(e: Entry) returns (r: Outcome)
      modifies this`legacyApplied
      ensures Follows(SealRule(env, old(TipSeen()), e), TipSeen(), r)
    {
      if !e.version.V1? && !legacyApplied {
        if e.kind.Seal? && !env.sealsNothing(e.memo) { return Fail(BadSeal); }
        legacyApplied := true;
      }
      return Pass;
    }

    method MakeHead(e: Entry)
      requires Aligned()
      modifies this`seal, this`frontier, this`head, this`length, this`lastTime
      ensures Aligned() && TipSeen() == Advance(env, old(TipSeen()), e)
    {
      hide Merkle.Extend, Merkle.Ones;
      if e.kind.Seal? { seal := Some(e); }
      frontier := Merkle.FrontierAppend(env.sha, frontier, length, env.leaf(e.hash));
      head, length, lastTime := e.hash, length + 1, Some(e.time);
    }

    method AddToTotals(e: Entry)
      modifies this`totals
      ensures PurseSeen() == old(PurseSeen()).(totals := AddTotals(old(PurseSeen()).totals, e))
    {
      totals := AddTotals(totals, e);
    }

    method Admit(e: Entry, mode: Mode) returns (r: Outcome)
      modifies this`sawV1, this`sawV2, this`sawV3, this`lastCheckpoint
      ensures Follows(AdmitRule(env, mode, base.unit, old(TipSeen()), e), TipSeen(), r)
    {
      hide VersionRule, ShapeRule;
      if e.sequence != length + 1 { return Fail(SequenceGap); }
      if e.prevHash != head { return Fail(BrokenLink); }
      if e.version.Unknown? { return Fail(UnknownVersion); }
      if mode.checkHash && env.digest(e) != e.hash { return Fail(HashMismatch); }
      r := CheckVersion(e);
      if r.Fail? { return; }
      r := CheckShape(e);
    }

    method ApplyOpening(e: Entry, mode: Mode) returns (r: Outcome)
      modifies this`sawV1, this`sawV2, this`sawV3, this`lastCheckpoint, this`txn, this`settleable
      ensures Follows(Opening(env, mode, base.unit, old(TipSeen()), old(TxnSeen()), e), (TipSeen(), TxnSeen()), r)
    {
      hide TipSeen, TxnSeen, AdmitRule, Begin;
      r := Admit(e, mode);
      if r.Fail? { return; }
      r := BeginTransaction(e);
    }

    method ApplyBooking(e: Entry, mode: Mode) returns (r: Outcome)
      requires HoldsStaged() && Aligned()
      modifies this`balances, this`net, this`placed, this`closed, this`counts, this`ambiguous, this`settleable
      modifies this`spendRefunds, this`spent, this`refunded
      ensures HoldsStaged()
      ensures Follows(BookingUnder(env, mode, old(PurseSeen()), old(HoldsSeen()), old(Held()), base.spendRefunds,
                old(TxnSeen()), old(spendRefunds), start, e),
                      (PurseSeen(), HoldsSeen(), Held(), TxnSeen(), spendRefunds), r)
    {
      hide HoldsStaged, Aligned, PurseSeen, HoldsSeen, TxnSeen, TreeSeen, TipSeen;
      hide BalanceRule, HoldRuleUnder, RefundRule, FlowRule, Netted;
      r := CheckBalance(e);
      if r.Fail? { return; }
      r := CheckHolds(e);
      if r.Fail? { return; }
      r := CheckRefund(e);
      if r.Fail? { return; }
      r := CheckFlows(e, mode.writing);
      assert mode == Mode(mode.checkHash, mode.writing);
    }

    method ApplyGoverning(e: Entry) returns (r: Outcome)
      requires NodesStaged()
      modifies this`legacyApplied, this`nodes, this`children, this`rowScopes, this`roots, this`tripped, this`events
      ensures r.Pass? ==> NodesStaged()
      ensures Follows(Governing(env, old(TipSeen()), old(TreeSeen()), e), (TipSeen(), TreeSeen()), r)
      ensures r.Pass? ==> events == old(events) + (if e.kind.CircuitTripped? || e.kind.CircuitReset? then [e] else [])
    {
      hide NodesStaged, TreeSeen, TipSeen, SealRule, Govern;
      r := CheckSeal(e);
      if r.Fail? { return; }
      r := CheckTree(e);
    }

    /** One step of the view, whatever its staged holds. */
    method ApplyUnder(e: Entry, mode: Mode) returns (r: Outcome)
      requires Valid()
      modifies this
      ensures r.Pass? ==> Valid() && StepUnder(env, mode, old(Value()), old(Held()), e) == Ok((Value(), Held()))
      ensures r.Fail? ==> StepUnder(env, mode, old(Value()), old(Held()), e) == Err(r.fault)
      ensures r.Pass? ==> events == old(events) + (if e.kind.CircuitTripped? || e.kind.CircuitReset? then [e] else [])
    {
      hide HoldsStaged, NodesStaged, Aligned, PurseSeen, HoldsSeen, TreeSeen, TipSeen, TxnSeen, Held;
      hide Opening, BookingUnder, Governing, Advance, AddTotals, StepUnder;
      ghost var v, s := Value(), Held();
      StepFails(env, mode, v, s, e);
      r := ApplyOpening(e, mode);
      if r.Fail? { return; }
      ghost var o := (TipSeen(), TxnSeen());
      assert PurseSeen() == v.c.purse && HoldsSeen() == v.c.holds && TreeSeen() == v.c.tree && Held() == s;
      r := ApplyBooking(e, mode);
      if r.Fail? { return; }
      ghost var k := (PurseSeen(), HoldsSeen(), Held(), TxnSeen(), spendRefunds);
      assert TipSeen() == o.0 && TreeSeen() == v.c.tree;
      r := ApplyGoverning(e);
      if r.Fail? { return; }
      ghost var g := (TipSeen(), TreeSeen());
      assert PurseSeen() == k.0 && HoldsSeen() == k.1 && Held() == k.2 && TxnSeen() == k.3 && spendRefunds == k.4;
      FileEntry(e);
      StepPasses(env, mode, v, s, e, o, k, g);
    }

    /** One step of the view, whatever its staged holds; and one step of the rules on what
        it shows, as long as it reuses no id of a kept hold.  Whatever the answer, the base
        is not in the frame and does not change. */
    method Apply(e: Entry, mode: Mode) returns (r: Outcome)
      requires Valid()
      modifies this
      ensures r.Pass? ==> Valid() && StepUnder(env, mode, old(Value()), old(Held()), e) == Ok((Value(), Held()))
      ensures r.Fail? ==> StepUnder(env, mode, old(Value()), old(Held()), e) == Err(r.fault)
      ensures old(Apart()) ==> Follows(Step(env, mode, old(Value()), e), Value(), r)
      ensures old(Apart()) && r.Pass? && (e.kind.Hold? ==> e.id !in base.holds.at) ==> Apart()
      ensures r.Pass? ==> events == old(events) + (if e.kind.CircuitTripped? || e.kind.CircuitReset? then [e] else [])
    {
      hide Value, Held, Apart, StepUnder, Step, NodesStaged, Aligned;
      Agrees(mode, e);
      r := ApplyUnder(e, mode);
      HeldApart();
    }

    /** While no id is reused, what the layers answer is what the rules do. */
    lemma NamedAgrees(e: Entry)
      requires HoldsStaged()
      ensures Apart() ==>
                match NamedUnder(HoldsSeen(), Held(), TxnSeen(), e)
                case Ok((h, _, txn)) => Engine.ReleaseNamed(HoldsSeen(), TxnSeen(), e) == Ok((h, txn))
                case Err(fault) => Engine.ReleaseNamed(HoldsSeen(), TxnSeen(), e) == Err(fault)
    {
      hide NamedUnder, Engine.ReleaseNamed, Layer, Tally;
      if Apart() { NamedSame(Held(), HoldsSeen(), TxnSeen(), e); }
    }

    lemma FirstAgrees(key: HoldKey)
      requires HoldsStaged()
      ensures Apart() ==> Held().First(key) == FirstOf(HoldsSeen().open.order, HoldsSeen().open.at, key)
    {
      hide Layer, Tally, FirstOf, Drop;
      if Apart() { ShownFirst(Held(), key); }
    }

    lemma UnnamedAgrees(e: Entry)
      requires HoldsStaged()
      ensures Apart() ==>
                match UnnamedUnder(HoldsSeen(), Held(), e)
                case Ok((h, _)) => Engine.ReleaseUnnamed(HoldsSeen(), e) == Ok(h)
                case Err(fault) => Engine.ReleaseUnnamed(HoldsSeen(), e) == Err(fault)
    {
      hide UnnamedUnder, Engine.ReleaseUnnamed, Layer, Tally;
      if Apart() { UnnamedSame(Held(), HoldsSeen(), e); }
    }

    lemma HoldsAgree(e: Entry)
      requires HoldsStaged()
      ensures Apart() ==>
                match HoldRuleUnder(HoldsSeen(), Held(), TxnSeen(), e)
                case Ok((h, _, txn)) => HoldRule(HoldsSeen(), TxnSeen(), e) == Ok((h, txn))
                case Err(fault) => HoldRule(HoldsSeen(), TxnSeen(), e) == Err(fault)
    {
      hide HoldRuleUnder, HoldRule, Layer, Tally;
      if Apart() { ApartAgrees(Held(), HoldsSeen(), TxnSeen(), e); }
    }

    /** While no id is reused, the view's next step is the rules'. */
    lemma Agrees(mode: Mode, e: Entry)
      requires HoldsStaged()
      ensures Apart() ==> match StepUnder(env, mode, Value(), Held(), e)
                case Ok((w, s)) =>
                  Step(env, mode, Value(), e) == Ok(w) && ((e.kind.Hold? ==> e.id !in base.holds.at) ==> s.Apart())
                case Err(fault) => Step(env, mode, Value(), e) == Err(fault)
    {
      hide Step, StepUnder, Layer;
      if Apart() {
        SeenTogether();
        StepAgrees(env, mode, Value(), Held(), e);
      }
    }

    lemma HeldApart()
      ensures Apart() <==> Held().Apart()
    {
    }

    /** The last entry's totals, and its place as head. */
    method FileEntry(e: Entry)
      requires Aligned()
      modifies this`totals, this`seal, this`frontier, this`head, this`length, this`lastTime
      ensures Aligned() && TipSeen() == Advance(env, old(TipSeen()), e)
      ensures PurseSeen() == old(PurseSeen()).(totals := AddTotals(old(PurseSeen()).totals, e))
    {
      hide Aligned, PurseSeen, TipSeen, Advance, AddTotals;
      AddToTotals(e);
      MakeHead(e);
    }

    // -- what the view leaves behind -----------------------------------------

    method MergeMoney()
      modifies base`balances, base`spent, base`refunded, base`totals, base`spendRefunds
      ensures base.PurseValue() == old(PurseSeen())
      ensures base.spendRefunds == if env.refunds.None? then old(base.spendRefunds) + spendRefunds
                else old(base.spendRefunds)
    {
      base.balances := base.balances + balances;
      base.spent := base.spent + spent;
      base.refunded := base.refunded + refunded;
      base.totals := totals;
      if env.refunds.None? {
        base.spendRefunds := base.spendRefunds + spendRefunds;
      }
    }

    /** Each closed hold is taken out, then each placed one put in. */
    method MergeOpen()
      requires HoldsStaged()
      modifies base`holds
      ensures base.holds == old(HoldsSeen()).open && base.holds.Valid()
    {
      hide Layer, Tally;
      ghost var kept := base.holds;
      var left := closed;
      LayerNothing(kept);
      assert closed - left == {};
      while left != {}
        invariant left <= closed && base.holds == Layer(kept, closed - left, Empty())
      {
        var id :| id in left;
        PopNext(kept, closed - left, id);
        assert closed - left + {id} == closed - (left - {id});
        base.holds := base.holds.Pop(id);
        left := left - {id};
      }
      assert closed - {} == closed;
      FirstAll(placed);
      for i := 0 to |placed.order|
        invariant base.holds == Layer(kept, closed, FirstFew(placed, i))
      {
        PutNext(kept, closed, placed, i);
        base.holds := base.holds.Put(placed.order[i], placed.at[placed.order[i]]);
      }
      LayerValid(kept, closed, placed);
    }

    /** Each count staged is set, or forgotten when it is zero. */
    method MergeCounts()
      modifies base`holdCounts
      ensures base.holdCounts == old(HoldsSeen()).counts
    {
      hide Layer;
      ghost var kept := base.holdCounts;
      var left := counts.Keys;
      NothingStaged(kept, map[]);
      assert Without(counts, left) == map[];
      while left != {}
        invariant left <= counts.Keys && base.holdCounts == Tally(kept, Without(counts, left))
      {
        var s :| s in left;
        Recount(kept, Without(counts, left), s, counts[s]);
        assert Without(counts, left)[s := counts[s]] == Without(counts, left - {s});
        if counts[s] != 0 {
          base.holdCounts := base.holdCounts[s := counts[s]];
        } else {
          base.holdCounts := base.holdCounts - {s};
        }
        left := left - {s};
      }
      assert Without(counts, {}) == counts;
    }

    method MergeHolds()
      requires HoldsStaged()
      modifies base`holds, base`holdCounts, base`ambiguous
      ensures base.HoldsValue() == old(HoldsSeen()) && base.holds.Valid()
    {
      hide Layer, Tally;
      MergeOpen();
      MergeCounts();
      base.ambiguous := base.ambiguous + ambiguous;
    }

    /** A staged scope the base does not have is added; of one it has only the allotment is
        overwritten. */
    method MergeNodes()
      requires NodesStaged()
      modifies base`nodes
      ensures base.nodes == Grown(old(base.nodes), nodes, map[])
    {
      hide Grown;
      ghost var kept := base.nodes;
      GrownNothing(kept);
      FirstAll(nodes);
      for i := 0 to |nodes.order|
        invariant base.nodes == Grown(kept, FirstFew(nodes, i), map[])
      {
        var s := nodes.order[i];
        GrownNext(kept, nodes, i);
        if s in base.nodes.at {
          base.nodes := base.nodes.Put(s, base.nodes.at[s].(allotted := nodes.at[s].allotted));
        } else {
          base.nodes := base.nodes.Put(s, nodes.at[s]);
        }
      }
    }

    /** Then each scope's new children follow those it has. */
    method MergeChildren(ghost kept: Dict<Scope, Node>)
      requires StagedOver(kept, nodes, children, rowScopes) && base.nodes == Grown(kept, nodes, map[])
      modifies base`nodes
      ensures base.nodes == Grown(kept, nodes, children)
    {
      hide Grown;
      var left := children.Keys;
      assert Without(children, left) == map[];
      while left != {}
        invariant left <= children.Keys && base.nodes == Grown(kept, nodes, Without(children, left))
      {
        var p :| p in left;
        ChildrenNext(kept, nodes, children, left, p);
        base.nodes := base.nodes.Put(p, base.nodes.at[p].(children := base.nodes.at[p].children + children[p]));
        left := left - {p};
      }
      assert Without(children, {}) == children;
    }

    /** Each staged trip is set and each reset forgotten. */
    method MergeTrips()
      modifies base`tripped
      ensures base.tripped == Latched(old(base.tripped), tripped)
    {
      ghost var kept := base.tripped;
      var left := tripped.Keys;
      NothingStaged(map[], kept);
      assert Without(tripped, left) == map[];
      while left != {}
        invariant left <= tripped.Keys && base.tripped == Latched(kept, Without(tripped, left))
      {
        var s :| s in left;
        Relatch(kept, Without(tripped, left), s, tripped[s]);
        assert Without(tripped, left)[s := tripped[s]] == Without(tripped, left - {s});
        if tripped[s].None? {
          base.tripped := base.tripped - {s};
        } else {
          base.tripped := base.tripped[s := tripped[s].value];
        }
        left := left - {s};
      }
      assert Without(tripped, {}) == tripped;
    }

    method MergeTree()
      requires NodesStaged()
      modifies base`nodes, base`roots, base`tripped
      ensures base.TreeValue() == old(TreeSeen()) && base.nodes.Valid()
    {
      hide Grown, Latched, StagedOver;
      ghost var kept := base.nodes;
      StagedValid(kept, nodes, children, rowScopes);
      MergeNodes();
      MergeChildren(kept);
      base.roots := base.roots + roots;
      MergeTrips();
      GrownValid(kept, nodes, children);
    }

    method MergeTip()
      modifies base`head, base`length, base`frontier, base`lastTime, base`lastCheckpoint
      modifies base`sawV1, base`sawV2, base`sawV3, base`seal, base`legacyApplied
      ensures base.TipValue() == TipSeen() && base.length == length && base.frontier == frontier
    {
      base.head, base.length, base.frontier := head, length, frontier;
      base.lastTime, base.lastCheckpoint := lastTime, lastCheckpoint;
      base.sawV1, base.sawV2, base.sawV3 := sawV1, sawV2, sawV3;
      base.seal, base.legacyApplied := seal, legacyApplied;
    }

    /** The base becomes what the view showed. */
    method Merge()
      requires Valid()
      modifies base
      ensures base.Value() == Merged(env, old(Value())) && base.Valid()
    {
      hide HoldsSeen, TreeSeen, PurseSeen, TipSeen, TxnSeen, HoldsStaged, NodesStaged, Merkle.Ones;
      hide ChainState.PurseValue, ChainState.HoldsValue, ChainState.TreeValue, ChainState.TipValue;
      MergeMoney();
      MergeHolds();
      MergeTree();
      MergeTip();
    }

    /** The cache rows this view's entries imply: written over the rows of the
        state below they are the rows of the state it leaves behind. */
    method CacheRows() returns (rows: map<Scope, NodeRow>, controls: seq<Entry>, opens: Dict<Id, Entry>,
                     closes: set<Id>)
      requires Valid()
      ensures RowsOf(base.nodes.at) + rows == RowsOf(TreeSeen().nodes.at)
      ensures controls == events
      ensures HoldsSeen().open == Layer(base.holds, closes, opens)
    {
      rows := map s | s in rowScopes && s in nodes.at :: RowOf(nodes.at[s]);
      controls, opens, closes := events, placed, closed;
      hide Layer, Latched, Grown, HoldsStaged, Aligned;
      RowsStaged(base.nodes, nodes, children, rowScopes);
    }
  }

  /** What a check did to a part of the view: it passed and the part now is what
      the rule says, or it failed with the fault the rule says. */
  ghost predicate Follows<T>(rule: Result<T>, now: T, r: Outcome) {
    match r
    case Pass => rule == Ok(now)
    case Fail(fault) => rule == Err(fault)
  }

  /** A map but for some of its keys. */
  ghost function Without<K(!new), V>(m: map<K, V>, gone: set<K>): map<K, V> { m - gone }

  lemma StagedValid(kept: Dict<Scope, Node>, staged: Dict<Scope, Node>, children: map<Scope, seq<Scope>>,
                    rows: set<Scope>)
    requires StagedOver(kept, staged, children, rows)
    ensures kept.Valid() && staged.Valid()
  {
  }

  /** Merging one more staged scope: a new one goes last, a kept one keeps all but its
      allotment. */
  lemma GrownNext(kept: Dict<Scope, Node>, staged: Dict<Scope, Node>, i: nat)
    requires staged.Valid() && i < |staged.order|
    requires var s := staged.order[i];
             if s in kept.at then staged.at[s] == kept.at[s].(allotted := staged.at[s].allotted)
             else staged.at[s].children == []
    ensures var g, s := Grown(kept, FirstFew(staged, i), map[]), staged.order[i];
            Grown(kept, FirstFew(staged, i + 1), map[])
              == g.Put(s, if s in g.at then g.at[s].(allotted := staged.at[s].allotted) else staged.at[s])
  {
    var s, few := staged.order[i], FirstFew(staged, i);
    assert s !in few.at by { assert s in staged.order && s !in staged.order[..i]; }
    FirstNext(staged, i);
    hide FirstFew, Grown, Dict.Valid;
    GrownKeys(kept, few, s);
    if s in kept.at {
      GrownAllot(kept, few, map[], s, kept.at[s], staged.at[s].allotted);
    } else {
      GrownNew(kept, few, map[], s, staged.at[s]);
    }
  }

  lemma GrownKeys(kept: Dict<Scope, Node>, staged: Dict<Scope, Node>, s: Scope)
    ensures s in Grown(kept, staged, map[]).at <==> s in kept.at || s in staged.at
  {
  }

  /** Merging one more scope's new children. */
  lemma ChildrenNext(kept: Dict<Scope, Node>, staged: Dict<Scope, Node>, children: map<Scope, seq<Scope>>,
                     left: set<Scope>, p: Scope)
    requires p in left && left <= children.Keys && (p in staged.at || p in kept.at)
    ensures var g := Grown(kept, staged, Without(children, left));
            p in g.at && Grown(kept, staged, Without(children, left - {p}))
                         == g.Put(p, g.at[p].(children := g.at[p].children + children[p]))
  {
    hide Drop;
    var g, h := Grown(kept, staged, Without(children, left)), Grown(kept, staged, Without(children, left - {p}));
    assert g.order == h.order;
    var n := if p in staged.at then staged.at[p] else kept.at[p];
    assert n.children + [] == n.children;
    SameAt(h.at, g.at[p := g.at[p].(children := g.at[p].children + children[p])]);
  }

  lemma {:induction false} LooksNone(at: map<Id, Entry>, closed: set<Id>, key: HoldKey)
    ensures FirstOf(Drop([], closed), at, key).None?
  {
  }

  /** Looking at one more id in order. */
  lemma LooksNext(order: seq<Id>, i: nat, closed: set<Id>, at: map<Id, Entry>, key: HoldKey)
    requires i < |order| && order[i] in at && FirstOf(Drop(order[..i], closed), at, key).None?
    ensures var found := order[i] !in closed && Key(at[order[i]]) == key;
            && FirstOf(Drop(order[..i + 1], closed), at, key) == (if found then Some(order[i]) else None)
            && (found ==> FirstOf(Drop(order, closed), at, key) == Some(order[i]))
  {
    var id := order[i];
    assert order[..i + 1] == order[..i] + [id] && order == order[..i + 1] + order[i + 1..];
    DropLast(order[..i], id, closed);
    DropAppend(order[..i + 1], order[i + 1..], closed);
    var some := Drop(order[..i], closed);
    hide Drop;
    assert FirstOf([], at, key) == None && [id][1..] == [];
    FirstAppend(some, [id], at, key);
    FirstAppend(Drop(order[..i + 1], closed), Drop(order[i + 1..], closed), at, key);
    assert some + [] == some;
  }

  lemma FirstHas(s: Staged, key: HoldKey)
    ensures s.First(key).Some? ==> s.First(key).value in s.placed.at || s.First(key).value in s.kept.at
  {
  }

  lemma GrownValid(kept: Dict<Scope, Node>, staged: Dict<Scope, Node>, children: map<Scope, seq<Scope>>)
    requires kept.Valid() && staged.Valid()
    ensures Grown(kept, staged, children).Valid()
  {
    hide Drop;
    DropDistinct(staged.order, kept.at.Keys);
    assert forall s :: s in kept.order ==> s !in Drop(staged.order, kept.at.Keys);
    DistinctAppend(kept.order, Drop(staged.order, kept.at.Keys));
  }

  lemma RowsStaged(kept: Dict<Scope, Node>, staged: Dict<Scope, Node>, children: map<Scope, seq<Scope>>,
                   rows: set<Scope>)
    requires rows <= staged.at.Keys
    requires forall s :: s in staged.at && s !in rows ==> s in kept.at && staged.at[s] == kept.at[s]
    ensures RowsOf(kept.at) + (map s | s in rows && s in staged.at :: RowOf(staged.at[s]))
              == RowsOf(Grown(kept, staged, children).at)
  {
  }

  /** One unit of verification: a view over the state, every entry applied, the
      transaction closed, and only then the state changed.  A batch that fails leaves the
      state exactly as it was; one whose holds are new does what the rules say. */
  method RunBatch(state: ChainState, env: Env, mode: Mode, entries: seq<Entry>) returns (r: Outcome)
    requires state.Valid()
    modifies state
    ensures state.Valid()
    ensures r.Pass? ==> BatchUnder(env, mode, old(state.Value()), entries) == Ok(state.Value())
    ensures r.Fail? ==>
              BatchUnder(env, mode, old(state.Value()), entries) == Err(r.fault)
              && state.Value() == old(state.Value())
    ensures NewHolds(old(state.Value()), entries) ==>
              Follows(Batch(env, mode, old(state.Value()), entries), state.Value(), r)
  {
    hide ChainState.Valid, Overlay.Valid, Overlay.Value, StepUnder, Over, NewHolds, Steps;
    ghost var c := state.Value();
    NewAgree(env, mode, state, entries);
    hide Batch;
    var view := new Overlay(state, env);
    assert entries[..0] == [];
    for i := 0 to |entries|
      invariant fresh(view) && view.base == state && view.env == env && view.Valid()
      invariant state.Valid() && state.Value() == c
      invariant StepsUnder(env, mode, Over(c), Unstaged(c), entries[..i]) == Ok((view.Value(), view.Held()))
    {
      assert entries[..i + 1][..i] == entries[..i];
      var applied := view.Apply(entries[i], mode);
      if applied.Fail? {
        StagedStop(env, mode, Over(c), Unstaged(c), entries, i + 1);
        return applied;
      }
    }
    assert entries[..|entries|] == entries;
    r := CloseView(view);
    if r.Pass? {
      view.Merge();
    }
  }

  lemma NewAgree(env: Env, mode: Mode, state: ChainState, entries: seq<Entry>)
    requires state.Valid()
    ensures NewHolds(state.Value(), entries) ==>
              BatchUnder(env, mode, state.Value(), entries) == Batch(env, mode, state.Value(), entries)
  {
    hide Batch, BatchUnder;
    if NewHolds(state.Value(), entries) { BatchAgrees(env, mode, state.Value(), entries); }
  }

  method CloseView(view: Overlay) returns (r: Outcome)
    requires view.Valid()
    modifies view`txn, view`settleable
    ensures view.Valid() && view.Held() == old(view.Held()) && (view.Apart() <==> old(view.Apart()))
    ensures r.Fail? ==> End(old(view.Value()).txn) == Err(r.fault)
    ensures r.Pass? ==> End(old(view.Value()).txn) == Ok(view.Value().txn)
    ensures view.Value().start == old(view.Value()).start
    ensures view.Value().c == old(view.Value()).c && view.Value().recent == old(view.Value()).recent
  {
    hide Overlay.HoldsStaged, Overlay.NodesStaged, Overlay.Aligned, Overlay.PurseSeen, Overlay.HoldsSeen,
          Overlay.TreeSeen;
    r := view.EndTransaction();
  }

  /** A refused entry refuses every longer run of entries the same way. */
  lemma {:induction false} StagedStop(env: Env, mode: Mode, v: View, s: Staged, entries: seq<Entry>, n: nat)
    requires n <= |entries| && StepsUnder(env, mode, v, s, entries[..n]).Err?
    ensures StepsUnder(env, mode, v, s, entries) == StepsUnder(env, mode, v, s, entries[..n])
    decreases |entries| - n
  {
    hide StepUnder;
    if n == |entries| {
      assert entries[..n] == entries;
    } else {
      assert entries[..n + 1][..n] == entries[..n];
      StagedStop(env, mode, v, s, entries, n + 1);
    }
  }

  lemma StepFails(env: Env, mode: Mode, v: View, s: Staged, e: Entry)
    ensures var o := Opening(env, mode, v.c.unit, v.c.tip, v.txn, e);
            && (o.Err? ==> StepUnder(env, mode, v, s, e) == Err(o.fault))
            && (o.Ok? ==>
                  var k := BookingUnder(env, mode, v.c.purse, v.c.holds, s, v.c.spendRefunds, o.value.1, v.recent,
                        v.start, e);
                  && (k.Err? ==> StepUnder(env, mode, v, s, e) == Err(k.fault))
                  && (k.Ok? ==>
                        var g := Governing(env, o.value.0, v.c.tree, e);
                        g.Err? ==> StepUnder(env, mode, v, s, e) == Err(g.fault)))
  {
  }

  lemma StepPasses(env: Env, mode: Mode, v: View, s: Staged, e: Entry, o: (Tip, Txn),
                   k: (Purse, Holds, Staged, Txn, map<Id, int>), g: (Tip, Tree))
    requires Opening(env, mode, v.c.unit, v.c.tip, v.txn, e) == Ok(o)
    requires BookingUnder(env, mode, v.c.purse, v.c.holds, s, v.c.spendRefunds, o.1, v.recent, v.start, e) == Ok(k)
    requires Governing(env, o.0, v.c.tree, e) == Ok(g)
    ensures StepUnder(env, mode, v, s, e)
         == Ok((View(Chain(k.0.(totals := AddTotals(k.0.totals, e)), k.1, g.1, Advance(env, g.0, e), v.c.spendRefunds,
                v.c.unit),
                     k.3, k.4, v.start), k.2))
  {
  }

  lemma StageOver<K, V>(kept: map<K, V>, staged: map<K, V>, k: K, v: V)
    ensures kept + staged[k := v] == (kept + staged)[k := v]
  {
  }

  /** Staging a count, zero or not, over the kept ones. */
  lemma Recount(kept: map<Scope, int>, staged: map<Scope, int>, s: Scope, n: int)
    ensures Tally(kept, staged[s := n]) == if n == 0 then Tally(kept, staged) - {s} else Tally(kept, staged)[s := n]
  {
  }

  lemma Relatch(kept: map<Scope, Trip>, staged: map<Scope, Option<Trip>>, s: Scope, latch: Option<Trip>)
    ensures Latched(kept, staged[s := latch])
         == if latch.None? then Latched(kept, staged) - {s} else Latched(kept, staged)[s := latch.value]
  {
  }

  /** A scope in neither layer is added at the end. */
  lemma GrownNew(kept: Dict<Scope, Node>, staged: Dict<Scope, Node>, children: map<Scope, seq<Scope>>, s: Scope,
                 n: Node)
    requires s !in kept.at && s !in staged.at && s !in children && n.children == []
    ensures Grown(kept, staged.Put(s, n), children) == Grown(kept, staged, children).Put(s, n)
  {
    hide Drop;
    var g, h := Grown(kept, staged, children), Grown(kept, staged.Put(s, n), children);
    DropAppend(staged.order, [s], kept.at.Keys);
    DropNone([s], kept.at.Keys);
    assert h.order == g.order + [s];
    GrownNewAt(kept, staged, children, s, n);
  }

  lemma GrownNewAt(kept: Dict<Scope, Node>, staged: Dict<Scope, Node>, children: map<Scope, seq<Scope>>, s: Scope,
                   n: Node)
    requires s !in kept.at && s !in staged.at && s !in children && n.children == []
    ensures Grown(kept, staged.Put(s, n), children).at == Grown(kept, staged, children).at[s := n]
  {
    hide Drop;
    var g, h := Grown(kept, staged, children).at, Grown(kept, staged.Put(s, n), children).at;
    assert h.Keys == g.Keys + {s};
    assert h[s].children == [] + [];
    forall x | x in h ensures h[x] == g[s := n][x] {
    }
    SameAt(h, g[s := n]);
  }

  lemma SameAt(a: map<Scope, Node>, b: map<Scope, Node>)
    requires a.Keys == b.Keys && forall s :: s in a ==> a[s] == b[s]
    ensures a == b
  {
  }

  /** Changing what a scope was allotted keeps its place. */
  lemma GrownAllot(kept: Dict<Scope, Node>, staged: Dict<Scope, Node>, children: map<Scope, seq<Scope>>,
                   s: Scope, n: Node, allotted': int)
    requires if s in staged.at then n == staged.at[s] else s in kept.at && n == kept.at[s]
    ensures var g := Grown(kept, staged, children);
            Grown(kept, staged.Put(s, n.(allotted := allotted')), children) == g.Put(s, g.at[s].(allotted := allotted'))
  {
    hide Drop;
    var m := n.(allotted := allotted');
    var g, h := Grown(kept, staged, children), Grown(kept, staged.Put(s, m), children);
    if s !in staged.at {
      DropAppend(staged.order, [s], kept.at.Keys);
      DropOnly(s, kept.at.Keys);
    }
    assert h.order == g.order;
    assert GrownAt(kept.at, staged.at[s := m], children, s) == g.at[s].(allotted := allotted');
    assert forall x :: x in g.at && x != s ==>
      GrownAt(kept.at, staged.at[s := m], children, x) == GrownAt(kept.at, staged.at, children, x);
    SameAt(h.at, g.at[s := g.at[s].(allotted := allotted')]);
  }

  lemma DropOnly(s: Scope, gone: set<Scope>)
    requires s in gone
    ensures Drop([s], gone) == []
  {
  }

  /** A child added to a scope follows those it already has. */
  lemma GrownChild(kept: Dict<Scope, Node>, staged: Dict<Scope, Node>, children: map<Scope, seq<Scope>>,
                   p: Scope, c: Scope)
    requires p in kept.at || p in staged.at
    ensures var g := Grown(kept, staged, children);
            Grown(kept, staged, children[p := Extra(children, p) + [c]])
                  == g.Put(p, g.at[p].(children := g.at[p].children + [c]))
  {
    var g := Grown(kept, staged, children);
    var n := if p in staged.at then staged.at[p] else kept.at[p];
    assert n.children + (Extra(children, p) + [c]) == n.children + Extra(children, p) + [c];
    var h := Grown(kept, staged, children[p := Extra(children, p) + [c]]);
    assert h.order == g.order;
    assert h.at == g.at[p := g.at[p].(children := g.at[p].children + [c])];
  }

  lemma NothingStaged(counts: map<Scope, int>, tripped: map<Scope, Trip>)
    ensures Tally(counts, map[]) == counts && Latched(tripped, map[]) == tripped
  {
  }

  lemma GrownNothing(kept: Dict<Scope, Node>)
    ensures Grown(kept, Empty(), map[]) == kept
  {
    var g := Grown(kept, Empty(), map[]);
    assert g.order == kept.order;
    forall s | s in kept.at ensures g.at[s] == kept.at[s] {
      assert kept.at[s].children + [] == kept.at[s].children;
    }
    assert g.at == kept.at;
  }
}
