/**
 The governor's operations: what each demands of the state, which lines it posts, and
 when it trips the breaker on the way.  A run of operations is what turns a valid
 chain into a governed tree.
 */
module Managers {
  import opened Vocabulary
  import opened Dicts
  import opened Engine
  import opened Replays
  import opened Trees
  import opened Posts

  datatype Policy = Policy(maxDepth: nat, tripOnOverdraft: bool, tripOnExhaustion: bool)

  datatype Op =
    | OpenRoot(scope: Scope, amount: int, memo: string)
    | Fund(scope: Scope, amount: int, memo: string)
    | Delegate(parent: Scope, child: Scope, amount: int, memo: string)
    | GiveBack(scope: Scope, wanted: Option<int>, memo: string)
    | Authorize(scope: Scope, amount: int, memo: string, trip: bool, runaway: bool)
    | Capture(hold: Id, cost: int, memo: string)
    | VoidHold(hold: Id, memo: string)
    | Refund(scope: Scope, amount: int, memo: string, reverses: Option<Id>)
    | Redeem(scope: Scope, claimed: Option<Id>, amount: int, memo: string)
    | AnchorIn(scope: Scope, memo: string)
    | TripScope(scope: Scope, reason: string)
    | ResetScope(scope: Scope, memo: string)

  datatype Why =
    | BadAmount | EmptyId | NoSuchScope | Duplicate | NotRoot | IsRoot | CircuitOpen | TooDeep | NotEnough
    | AlreadySettled | NotThatSpend | EmptyMemo | Overdraft | RunawayLoop

  /** What an operation decides before it writes: refuse, do nothing, post lines, or
      post a trip and refuse. */
  datatype Plan = Refuse(why: Why) | Nothing | Lines(lines: seq<Line>) | Deny(trip: seq<Line>, why: Why)

  function Quantum(unit: Unit): (q: nat)
    ensures q > 0
  {
    if unit.quantum > 1 then unit.quantum else 1
  }

  /** What is granted rounds down; what is charged rounds up. */
  function Credited(unit: Unit, amount: int): (r: int)
    ensures r <= amount < r + Quantum(unit) && r % Quantum(unit) == 0
  {
    WholeDown(amount, Quantum(unit));
    amount - amount % Quantum(unit)
  }

  function Charged(unit: Unit, amount: int): (r: int)
    ensures r - Quantum(unit) < amount <= r && r % Quantum(unit) == 0
  {
    WholeUp(amount, Quantum(unit));
    amount + (-amount) % Quantum(unit)
  }

  lemma WholeDown(a: int, q: nat)
    requires q > 0
    ensures (a - a % q) % q == 0
  {
    assert a - a % q == (a / q) * q;
    Multiple(a / q, q);
  }

  lemma WholeUp(a: int, q: nat)
    requires q > 0
    ensures (a + (-a) % q) % q == 0
  {
    assert a + (-a) % q == -((-a) / q) * q;
    Multiple(-((-a) / q), q);
  }

  lemma Multiple(k: int, q: nat)
    requires q > 0
    ensures k * q % q == 0
  {
    var n := k - k * q / q;
    assert n * q == k * q % q;
    NoneBetween(n, q);
  }

  /** No multiple of a number lies strictly between nothing and it. */
  lemma NoneBetween(n: int, q: nat)
    requires 0 <= n * q < q
    ensures n * q == 0
  {
    if n >= 1 {
      assert n * q == (n - 1) * q + q;
    }
  }

  function Or(memo: string, otherwise: string): string { if memo == "" then otherwise else memo }

  function Trips(scope: Scope, reason: string): Line { Line(CircuitTripped, Neutral, scope, None, 0, reason, None) }

  /** The scope is under a tripped scope, or is one. */
  ghost predicate Halted(t: Tree, s: Scope) {
    TreeKept(t) && s in t.nodes.at && exists a :: a in t.tripped && Under(t, s, a)
  }

  function Balance(c: Chain, s: Scope): int { Get(c.purse.balances, s) }

  function PlanRoot(c: Chain, scope: Scope, amount: int, memo: string): Plan {
    var envelope := Credited(c.unit, amount);
    if envelope <= 0 then Refuse(BadAmount)
    else if scope == "" then Refuse(EmptyId)
    else if scope in c.tree.nodes.at then Refuse(Duplicate)
    else Lines([Line(Funding, Credit, scope, None, envelope, Or(memo, "root envelope issued"), None)])
  }

  function PlanFund(c: Chain, scope: Scope, amount: int, memo: string): Plan {
    var credited := Credited(c.unit, amount);
    if credited <= 0 then Refuse(BadAmount)
    else if scope !in c.tree.nodes.at then Refuse(NoSuchScope)
    else if c.tree.nodes.at[scope].parent.Some? then Refuse(NotRoot)
    else Lines([Line(Funding, Credit, scope, None, credited, Or(memo, "envelope topped up"), None)])
  }

  ghost function PlanDelegate(policy: Policy, c: Chain, parent: Scope, child: Scope, amount: int, memo: string): Plan {
    var granted := Credited(c.unit, amount);
    if granted <= 0 then Refuse(BadAmount)
    else if child == "" then Refuse(EmptyId)
    else if parent !in c.tree.nodes.at then Refuse(NoSuchScope)
    else if child in c.tree.nodes.at then Refuse(Duplicate)
    else if Halted(c.tree, parent) then Refuse(CircuitOpen)
    else if c.tree.nodes.at[parent].depth + 1 > policy.maxDepth then Refuse(TooDeep)
    else if granted > Balance(c, parent) then Refuse(NotEnough)
    else
      var note := Or(memo, "sub-budget delegated to " + child);
      Lines([Line(Allocation, Debit, parent, Some(child), granted, note, None),
             Line(Allocation, Credit, child, Some(parent), granted, note, None)])
  }

  function PlanGiveBack(c: Chain, scope: Scope, wanted: Option<int>, memo: string): Plan {
    if scope !in c.tree.nodes.at then Refuse(NoSuchScope)
    else match c.tree.nodes.at[scope].parent
      case None => Refuse(IsRoot)
      case Some(parent) =>
        var returned := if wanted.None? then Balance(c, scope) else Credited(c.unit, wanted.value);
        if returned <= 0 then Nothing
        else if returned > Balance(c, scope) then Refuse(NotEnough)
        else
          var note := Or(memo, "unused budget returned to " + parent);
          Lines([Line(Release, Debit, scope, Some(parent), returned, note, None),
                 Line(Release, Credit, parent, Some(scope), returned, note, None)])
  }

  ghost function PlanAuthorize(policy: Policy, c: Chain, scope: Scope, amount: int, memo: string, trip: bool,
                               runaway: bool): Plan {
    var held := Charged(c.unit, amount);
    if held <= 0 then Refuse(BadAmount)
    else if scope !in c.tree.nodes.at then Refuse(NoSuchScope)
    else if Halted(c.tree, scope) then Refuse(CircuitOpen)
    else if runaway then Deny([Trips(scope, "runaway loop")], RunawayLoop)
    else if held > Balance(c, scope) then
      if !trip || !policy.tripOnOverdraft then Refuse(NotEnough)
      else Deny([Trips(scope, "overdraft attempt")], Overdraft)
    else Lines([Line(Hold, Debit, scope, None, held, Or(memo, "authorization hold"), None)])
  }

  function VoidLine(hold: Entry, id: Id, scope: Scope, memo: string): Line {
    Line(HoldVoid, Credit, scope, None, hold.amount, memo, Some(id))
  }

  function PlanCapture(c: Chain, id: Id, cost: int, memo: string): Plan {
    var settled := Charged(c.unit, cost);
    if settled < 0 then Refuse(BadAmount)
    else if id !in c.holds.open.at then Refuse(AlreadySettled)
    else
      var hold := c.holds.open.at[id];
      if settled == 0 then Lines([VoidLine(hold, id, hold.scope, Or(memo, "captured at zero cost"))])
      else Lines([VoidLine(hold, id, hold.scope, "authorization captured"),
                  Line(Kind.Spend, Debit, hold.scope, None, settled, Or(memo, "settled call cost"), Some(id))])
  }

  function PlanVoid(c: Chain, id: Id, memo: string): Plan {
    if id !in c.holds.open.at then Refuse(AlreadySettled)
    else Lines([VoidLine(c.holds.open.at[id], id, c.holds.open.at[id].scope, Or(memo, "authorization voided"))])
  }

  function PlanRefund(env: Env, c: Chain, scope: Scope, amount: int, memo: string, reverses: Option<Id>): Plan {
    var credited := Credited(c.unit, amount);
    if credited <= 0 then Refuse(BadAmount)
    else if scope !in c.tree.nodes.at then Refuse(NoSuchScope)
    else if reverses.Some? && !SpendLeft(env, c, scope, reverses.value, credited) then Refuse(NotThatSpend)
    else if credited > Get(c.purse.spent, scope) - Get(c.purse.refunded, scope) then Refuse(NotEnough)
    else Lines([Line(Reversal, Credit, scope, None, credited, Or(memo, "vendor refund"), reverses)])
  }

  predicate SpendLeft(env: Env, c: Chain, scope: Scope, id: Id, amount: int) {
    match env.resolve(id)
    case None => false
    case Some(s) =>
      s.kind.Spend? && s.scope == scope
            && amount <= s.amount - RefundedOfSpend(env, c.spendRefunds, map[], c.tip.length, id)
  }

  /** A claim that names a hold still open releases it; one that names none, or one
      already gone, is booked all the same. */
  function PlanRedeem(c: Chain, scope: Scope, claimed: Option<Id>, amount: int, memo: string): Plan {
    if scope !in c.tree.nodes.at then Refuse(NoSuchScope)
    else if claimed.None? || claimed.value !in c.holds.open.at then
      if amount == 0 then Lines([Line(Anchor, Neutral, scope, None, 0, memo, None)])
      else Lines(if amount > 0 then [Line(Kind.Spend, Debit, scope, None, amount, memo, None)] else [])
    else
      Lines([VoidLine(c.holds.open.at[claimed.value], claimed.value, scope,
            "authorization captured by settlement claim")]
            + if amount > 0 then [Line(Kind.Spend, Debit, scope, None, amount, memo, claimed)] else [])
  }

  function PlanControl(c: Chain, scope: Scope, memo: string, trip: bool): Plan {
    if !trip && memo == "" then Refuse(EmptyMemo)
    else if scope !in c.tree.nodes.at then Refuse(NoSuchScope)
    else if trip == (scope in c.tree.tripped) then Nothing
    else Lines([Line(if trip then CircuitTripped else CircuitReset, Neutral, scope, None, 0, memo, None)])
  }

  function PlanAnchor(c: Chain, scope: Scope, memo: string): Plan {
    if memo == "" then Refuse(EmptyMemo)
    else if scope !in c.tree.nodes.at then Refuse(NoSuchScope)
    else Lines([Line(Anchor, Neutral, scope, None, 0, memo, None)])
  }

  ghost function PlanOf(env: Env, policy: Policy, c: Chain, op: Op): Plan {
    match op
    case OpenRoot(scope, amount, memo) => PlanRoot(c, scope, amount, memo)
    case Fund(scope, amount, memo) => PlanFund(c, scope, amount, memo)
    case Delegate(parent, child, amount, memo) => PlanDelegate(policy, c, parent, child, amount, memo)
    case GiveBack(scope, wanted, memo) => PlanGiveBack(c, scope, wanted, memo)
    case Authorize(scope, amount, memo, trip, runaway) => PlanAuthorize(policy, c, scope, amount, memo, trip, runaway)
    case Capture(hold, cost, memo) => PlanCapture(c, hold, cost, memo)
    case VoidHold(hold, memo) => PlanVoid(c, hold, memo)
    case Refund(scope, amount, memo, reverses) => PlanRefund(env, c, scope, amount, memo, reverses)
    case Redeem(scope, claimed, amount, memo) => PlanRedeem(c, scope, claimed, amount, memo)
    case AnchorIn(scope, memo) => PlanAnchor(c, scope, memo)
    case TripScope(scope, reason) => PlanControl(c, scope, reason, true)
    case ResetScope(scope, memo) => PlanControl(c, scope, memo, false)
  }

  /** A scope spent out: nothing available and every hold settled. */
  predicate Exhausted(policy: Policy, c: Chain, scope: Scope) {
    policy.tripOnExhaustion && Balance(c, scope) <= 0 && Get(c.holds.counts, scope) == 0
  }

  /** The scope a settlement settles in, and whether running dry trips it. */
  function Settles(c: Chain, op: Op): Option<(Scope, bool)> {
    match op
    case Capture(hold, cost, _) =>
      if hold in c.holds.open.at && Charged(c.unit, cost) > 0 then Some((c.holds.open.at[hold].scope, true)) else None
    case Redeem(scope, claimed, amount, _) =>
      var open := claimed.Some? && claimed.value in c.holds.open.at;
      if amount == 0 && !open then None else Some((scope, open))
    case _ => None
  }

  /** The trip a settlement stages on what it left, unless the scope is latched. */
  function Aftermath(policy: Policy, settles: Option<(Scope, bool)>, after: Chain): seq<Line> {
    match settles
    case None => []
    case Some((scope, dry)) =>
      if scope in after.tree.tripped then []
      else if Balance(after, scope) < 0 then [Trips(scope, "overdrawn")]
      else if dry && Exhausted(policy, after, scope) then [Trips(scope, "spend envelope exhausted")]
      else []
  }

  /** An operation, with the ids and the clock its two possible posts draw. */
  datatype Event = Event(op: Op, first: Stamp, second: Stamp)

  predicate Drawn(ev: Event) { |ev.first.ids| >= 2 && |ev.second.ids| >= 1 }

  function PostLines(env: Env, v: View, stamp: Stamp, lines: seq<Line>): Result<(View, seq<Entry>)>
    requires |lines| <= |stamp.ids|
  {
    if lines == [] then Err(NoLines)
    else if exists i :: 0 <= i < |lines| && LineRule(lines[i]).Err? then Err(BadText)
    else
      var entries := Drafts(env, v.c, stamp, lines).entries;
      var w :- PostOne(env, v, entries);
      Ok((w, entries))
  }

  /** The whole unit of work of an operation that posts `lines`: the post, the trip it
      may stage, one commit. */
  function Worked(env: Env, policy: Policy, c: Chain, settles: Option<(Scope, bool)>, lines: seq<Line>,
                  ev: Event): Result<(Chain, seq<Entry>)>
    requires Drawn(ev) && |lines| <= 2
  {
    var (v, main) :- PostLines(env, Over(c), ev.first, lines);
    var trip := Aftermath(policy, settles, v.c);
    if trip == [] then Ok((Merged(env, v), main))
    else
      var (w, more) :- PostLines(env, v, ev.second, trip);
      Ok((Merged(env, w), main + more))
  }

  lemma PlanSize(env: Env, policy: Policy, c: Chain, op: Op)
    ensures var p := PlanOf(env, policy, c, op);
            (p.Lines? ==> |p.lines| <= 2) && (p.Deny? ==> |p.trip| == 1)
  {
    hide Halted, Charged, Credited, SpendLeft;
  }

  /** An operation either changes nothing or commits the whole of its unit of work. */
  ghost function Perform(env: Env, policy: Policy, c: Chain, ev: Event): (Chain, seq<Entry>)
    requires Drawn(ev)
  {
    PlanSize(env, policy, c, ev.op);
    match PlanOf(env, policy, c, ev.op)
    case Refuse(_) => (c, [])
    case Nothing => (c, [])
    case Deny(trip, _) => (match Worked(env, policy, c, None, trip, ev) case Ok(done) => done case Err(_) => (c, []))
    case Lines(lines) =>
      (match Worked(env, policy, c, Settles(c, ev.op), lines, ev) case Ok(done) => done case Err(_) => (c, []))
  }

  // -- runs --------------------------------------------------------------------------

  datatype Governed = Governed(c: Chain, batches: seq<seq<Entry>>)

  /** Every run of operations, each over what the ones before it committed. */
  ghost function RunOps(env: Env, policy: Policy, unit: Unit, events: seq<Event>): Governed
    requires forall i :: 0 <= i < |events| ==> Drawn(events[i])
  {
    if |events| == 0 then Governed(EmptyChain(unit), [])
    else
      var before := RunOps(env, policy, unit, events[..|events| - 1]);
      var (c, entries) := Perform(Writing(env, Flat(before.batches)), policy, before.c, events[|events| - 1]);
      if entries == [] then before else Governed(c, before.batches + [entries])
  }

  // -- a planned refund is one the rules accept --------------------------------------------

  /** A refund is planned exactly when the rules would take its entry: the check before
      the write and the rules agree on which refunds exceed a spend or a scope. */
  lemma RefundPlanIsTheRule(env: Env, c: Chain, scope: Scope, amount: int, memo: string, reverses: Option<Id>, e: Entry)
    requires Credited(c.unit, amount) > 0 && scope in c.tree.nodes.at
    requires e.kind.Reversal? && e.scope == scope && e.amount == Credited(c.unit, amount) && e.ref == reverses
    requires BalanceRule(c.purse, e).Ok?
    ensures PlanRefund(env, c, scope, amount, memo, reverses).Lines?
       <==> RefundRule(env, c.spendRefunds, map[], c.tip.length, e).Ok?
             && FlowRule(WRITING, BalanceRule(c.purse, e).value, e).Ok?
  {
    hide Credited;
  }
}
