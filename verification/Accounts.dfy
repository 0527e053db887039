/**
 What each operation puts on record and tells its caller: which entries the chain grew by,
 said from the call's own arguments; that the reason of a refusal is true; exactly when a
 settlement trips; and what is refunded of each spend over a whole run.
 */
module Accounts {
  import opened Vocabulary
  import opened Dicts
  import opened Engine
  import opened Replays
  import opened Laws
  import opened Trees
  import opened Posts
  import opened Managers
  import opened Governance
  import opened Effects
  import E = Effects
  import Stores

  // -- the entries of each operation -------------------------------------------------------------

  /** An entry of this kind, on this scope, moving this much. */
  predicate Of(e: Entry, kind: Kind, direction: Direction, scope: Scope, amount: int) {
    e.kind == kind && e.direction == direction && e.scope == scope && e.amount == amount && e.version == V3
  }

  /** It carries the caller's words, if there are any. */
  predicate Carries(e: Entry, memo: string) { memo != "" ==> e.memo == memo }

  /** Beside what was asked for, at most a trip of the scope settled in. */
  predicate ThenTrip(es: seq<Entry>, n: nat, scope: Scope) {
    n <= |es| <= n + 1 && (|es| > n ==> Of(es[n], CircuitTripped, Neutral, scope, 0))
  }

  /** What the chain grew by when the operation was done. */
  predicate Entered(c: Chain, op: Op, es: seq<Entry>) {
    |es| > 0 &&
    match op
    case OpenRoot(scope, amount, memo) =>
      |es| == 1 && Of(es[0], Funding, Credit, scope, Credited(c.unit, amount)) && Carries(es[0], memo)
    case Fund(scope, amount, memo) =>
      |es| == 1 && Of(es[0], Funding, Credit, scope, Credited(c.unit, amount)) && Carries(es[0], memo)
    case Delegate(parent, child, amount, memo) =>
      && |es| == 2 && Of(es[0], Allocation, Debit, parent, Credited(c.unit, amount))
      && Of(es[1], Allocation, Credit, child, Credited(c.unit, amount))
      && es[0].counterparty == Some(child) && es[1].counterparty == Some(parent)
      && Carries(es[0], memo) && Carries(es[1], memo)
    case GiveBack(scope, wanted, memo) =>
      && |es| == 2 && es[0].amount == (if wanted.None? then Balance(c, scope) else Credited(c.unit, wanted.value))
      && scope in c.tree.nodes.at && es[0].counterparty == c.tree.nodes.at[scope].parent
      && es[0].counterparty == Some(es[1].scope) && es[1].counterparty == Some(scope)
      && Of(es[0], Release, Debit, scope, es[0].amount) && Of(es[1], Release, Credit, es[1].scope, es[0].amount)
      && Carries(es[0], memo) && Carries(es[1], memo)
    case Authorize(scope, amount, memo, _, _) =>
      |es| == 1 && Of(es[0], Hold, Debit, scope, Charged(c.unit, amount)) && Carries(es[0], memo)
    case Capture(hold, cost, memo) =>
      && hold in c.holds.open.at
      && (var h := c.holds.open.at[hold];
          && Of(es[0], HoldVoid, Credit, h.scope, h.amount) && es[0].ref == Some(hold)
          && if Charged(c.unit, cost) == 0 then |es| == 1 && Carries(es[0], memo)
             else
               && ThenTrip(es, 2, h.scope) && Of(es[1], Kind.Spend, Debit, h.scope, Charged(c.unit, cost))
               && es[1].ref == Some(hold) && Carries(es[1], memo))
    case VoidHold(hold, memo) =>
      && hold in c.holds.open.at && |es| == 1
      && Of(es[0], HoldVoid, Credit, c.holds.open.at[hold].scope, c.holds.open.at[hold].amount)
      && es[0].ref == Some(hold) && Carries(es[0], memo)
    case Refund(scope, amount, memo, reverses) =>
      && |es| == 1 && Of(es[0], Reversal, Credit, scope, Credited(c.unit, amount)) && es[0].ref == reverses
      && Carries(es[0], memo)
    case Redeem(scope, claimed, amount, memo) =>
      var n := (if Claims(c, claimed) then 1 else 0) + (if amount > 0 then 1 else 0);
      if n == 0 then |es| == 1 && amount == 0 && Of(es[0], Anchor, Neutral, scope, 0) && es[0].memo == memo
      else
        && ThenTrip(es, n, scope)
        && (Claims(c, claimed) ==>
              Of(es[0], HoldVoid, Credit, scope, c.holds.open.at[claimed.value].amount) && es[0].ref == claimed)
        && (amount > 0 ==>
              && Of(es[n - 1], Kind.Spend, Debit, scope, amount) && es[n - 1].memo == memo
              && es[n - 1].ref == if Claims(c, claimed) then claimed else None)
    case AnchorIn(scope, memo) => |es| == 1 && Of(es[0], Anchor, Neutral, scope, 0) && es[0].memo == memo
    case TripScope(scope, reason) => |es| == 1 && Of(es[0], CircuitTripped, Neutral, scope, 0) && es[0].memo == reason
    case ResetScope(scope, memo) => |es| == 1 && Of(es[0], CircuitReset, Neutral, scope, 0) && es[0].memo == memo
  }

  predicate Claims(c: Chain, claimed: Option<Id>) { claimed.Some? && claimed.value in c.holds.open.at }

  lemma SettlesOnly(c: Chain, op: Op)
    requires !op.Capture? && !op.Redeem?
    ensures Settles(c, op).None?
  {
  }

  /** Outside settlements nothing follows the lines. */
  lemma PlainEntered(env: Env, policy: Policy, ev: Event, c: Chain, d: Chain, es: seq<Entry>)
    requires Drawn(ev) && !ev.op.Capture? && !ev.op.Redeem? && PlanOf(env, policy, c, ev.op).Lines?
    requires E.Commits(env, policy, ev, c, d, PlanOf(env, policy, c, ev.op).lines, es)
    ensures Entered(c, ev.op, es)
  {
    hide Batch, Charged, Credited, Halted, SpendLeft, Balance, Formed;
    SettlesOnly(c, ev.op);
    hide Settles;
    var lines := PlanOf(env, policy, c, ev.op).lines;
    assert es[..|lines|] == es;
    assert OfLine(es[0], lines[0]);
    if |lines| == 2 { assert OfLine(es[1], lines[1]); }
  }

  lemma CaptureEntered(env: Env, policy: Policy, ev: Event, c: Chain, d: Chain, es: seq<Entry>)
    requires Drawn(ev) && ev.op.Capture? && PlanCapture(c, ev.op.hold, ev.op.cost, ev.op.memo).Lines?
    requires E.Commits(env, policy, ev, c, d, PlanCapture(c, ev.op.hold, ev.op.cost, ev.op.memo).lines, es)
    ensures Entered(c, ev.op, es)
  {
    hide Batch, Charged;
    var lines := PlanCapture(c, ev.op.hold, ev.op.cost, ev.op.memo).lines;
    assert es[..|lines|][0] == es[0] && OfLine(es[0], lines[0]);
    if |lines| == 2 { assert es[..|lines|][1] == es[1] && OfLine(es[1], lines[1]); }
    TripForm(env, policy, ev, c, d, lines, es);
  }

  lemma RedeemEntered(env: Env, policy: Policy, ev: Event, c: Chain, d: Chain, es: seq<Entry>)
    requires Drawn(ev) && ev.op.Redeem?
    requires PlanRedeem(c, ev.op.scope, ev.op.claimed, ev.op.amount, ev.op.memo).Lines?
    requires E.Commits(env, policy, ev, c, d,
                     PlanRedeem(c, ev.op.scope, ev.op.claimed, ev.op.amount, ev.op.memo).lines, es)
    ensures Entered(c, ev.op, es)
  {
    hide Batch;
    var lines := PlanRedeem(c, ev.op.scope, ev.op.claimed, ev.op.amount, ev.op.memo).lines;
    assert es[..|lines|][0] == es[0] && OfLine(es[0], lines[0]);
    if |lines| == 2 { assert es[..|lines|][1] == es[1] && OfLine(es[1], lines[1]); }
    TripForm(env, policy, ev, c, d, lines, es);
  }

  /** The trip after the lines is a plain one. */
  lemma TripForm(env: Env, policy: Policy, ev: Event, c: Chain, d: Chain, lines: seq<Line>, es: seq<Entry>)
    requires Drawn(ev) && E.Commits(env, policy, ev, c, d, lines, es)
    ensures |es| > |lines| ==>
              Settles(c, ev.op).Some? && Of(es[|lines|], CircuitTripped, Neutral, Settles(c, ev.op).value.0, 0)
  {
    hide Steps, Governs, OfLines, Settles;
    BatchGoverns(env, c, es, d);
    if |es| > |lines| { assert Formed(es[|lines|]); }
  }

  lemma WhatIsEntered(env: Env, policy: Policy, ev: Event, stored: bool, was: (Chain, seq<Entry>),
                      now: (Chain, seq<Entry>), r: Answer) returns (es: seq<Entry>)
    requires Drawn(ev) && Performed(env, policy, ev, stored, was, now, r) && r.Done?
    ensures now.1 == was.1 + es && Entered(was.0, ev.op, es)
  {
    hide Entered, E.Commits, Perform, PlanOf;
    es := WhatWasDone(env, policy, ev, stored, was, now, r);
    if ev.op.Capture? {
      CapturePlan(env, policy, was.0, ev.op);
      CaptureEntered(env, policy, ev, was.0, now.0, es);
    } else if ev.op.Redeem? {
      RedeemPlan(env, policy, was.0, ev.op);
      RedeemEntered(env, policy, ev, was.0, now.0, es);
    } else {
      PlainEntered(env, policy, ev, was.0, now.0, es);
    }
  }

  // -- the reason of a refusal -----------------------------------------------------------------------

  /** The amount granted or charged is not one the operation can move. */
  predicate NoAmount(c: Chain, op: Op) {
    match op
    case OpenRoot(_, amount, _) => Credited(c.unit, amount) <= 0
    case Fund(_, amount, _) => Credited(c.unit, amount) <= 0
    case Delegate(_, _, amount, _) => Credited(c.unit, amount) <= 0
    case Authorize(_, amount, _, _, _) => Charged(c.unit, amount) <= 0
    case Capture(_, cost, _) => Charged(c.unit, cost) < 0
    case Refund(_, amount, _, _) => Credited(c.unit, amount) <= 0
    case _ => false
  }

  /** The scope the operation acts on. */
  function Subject(op: Op): Option<Scope> {
    match op
    case OpenRoot(scope, _, _) => Some(scope)
    case Fund(scope, _, _) => Some(scope)
    case Delegate(parent, _, _, _) => Some(parent)
    case GiveBack(scope, _, _) => Some(scope)
    case Authorize(scope, _, _, _, _) => Some(scope)
    case Capture(_, _, _) => None
    case VoidHold(_, _) => None
    case Refund(scope, _, _, _) => Some(scope)
    case Redeem(scope, _, _, _) => Some(scope)
    case AnchorIn(scope, _) => Some(scope)
    case TripScope(scope, _) => Some(scope)
    case ResetScope(scope, _) => Some(scope)
  }

  /** More than there is. */
  predicate TooMuch(c: Chain, op: Op) {
    match op
    case Delegate(parent, _, amount, _) => Credited(c.unit, amount) > Balance(c, parent)
    case GiveBack(scope, wanted, _) => wanted.Some? && Credited(c.unit, wanted.value) > Balance(c, scope)
    case Authorize(scope, amount, _, _, _) => Charged(c.unit, amount) > Balance(c, scope)
    case Refund(scope, amount, _, _) =>
      Get(c.purse.refunded, scope) + Credited(c.unit, amount) > Get(c.purse.spent, scope)
    case _ => false
  }

  /** What the reason says is so. */
  ghost predicate IsSo(env: Env, policy: Policy, c: Chain, op: Op, why: Why) {
    match why
    case BadAmount => NoAmount(c, op)
    case EmptyId => (op.OpenRoot? && op.scope == "") || (op.Delegate? && op.child == "")
    case NoSuchScope => Subject(op).Some? && Subject(op).value !in c.tree.nodes.at
    case Duplicate =>
      (op.OpenRoot? && op.scope in c.tree.nodes.at) || (op.Delegate? && op.child in c.tree.nodes.at)
    case NotRoot => op.Fund? && op.scope in c.tree.nodes.at && c.tree.nodes.at[op.scope].parent.Some?
    case IsRoot => op.GiveBack? && op.scope in c.tree.nodes.at && c.tree.nodes.at[op.scope].parent.None?
    case CircuitOpen => (op.Delegate? || op.Authorize?) && Halted(c.tree, Subject(op).value)
    case TooDeep =>
      op.Delegate? && op.parent in c.tree.nodes.at && c.tree.nodes.at[op.parent].depth >= policy.maxDepth
    case NotEnough => TooMuch(c, op)
    case AlreadySettled =>
      (op.Capture? && op.hold !in c.holds.open.at) || (op.VoidHold? && op.hold !in c.holds.open.at)
    case NotThatSpend =>
      op.Refund? && op.reverses.Some? && !SpendLeft(env, c, op.scope, op.reverses.value, Credited(c.unit, op.amount))
    case EmptyMemo => (op.AnchorIn? && op.memo == "") || (op.ResetScope? && op.memo == "")
    case Overdraft => op.Authorize? && op.trip && policy.tripOnOverdraft && TooMuch(c, op)
    case RunawayLoop => op.Authorize? && op.runaway
  }

  lemma ReasonsHold(env: Env, policy: Policy, c: Chain, op: Op)
    ensures var plan := PlanOf(env, policy, c, op);
            plan.Refuse? || plan.Deny? ==> IsSo(env, policy, c, op, plan.why)
  {
    hide Charged, Credited, Halted, SpendLeft, Balance;
  }

  /** Whoever is refused is told something that is so. */
  lemma RefusedTruly(env: Env, policy: Policy, ev: Event, stored: bool, was: (Chain, seq<Entry>),
                     now: (Chain, seq<Entry>), r: Answer)
    requires Drawn(ev) && Performed(env, policy, ev, stored, was, now, r) && r.Refused?
    ensures IsSo(env, policy, was.0, ev.op, r.why)
  {
    hide Perform, PlanOf, IsSo;
    ReasonsHold(env, policy, was.0, ev.op);
  }

  // -- when a settlement trips -------------------------------------------------------------------------

  /** What a settlement left is overdrawn, or, after a hold, spent out with none left open. */
  predicate Due(policy: Policy, d: Chain, scope: Scope, held: bool) {
    Balance(d, scope) < 0
    || (held && policy.tripOnExhaustion && Balance(d, scope) <= 0 && Get(d.holds.counts, scope) == 0)
  }

  /** The breakers after a settlement: the scope's is tripped if it is due, for the reason
      it is, and no other moved. */
  ghost predicate Tripping(c: Chain, d: Chain, scope: Scope, due: bool) {
    && d.tree.tripped.Keys == c.tree.tripped.Keys + (if due then {scope} else {})
    && (forall s :: s in c.tree.tripped ==> d.tree.tripped[s] == c.tree.tripped[s])
    && (scope in d.tree.tripped && scope !in c.tree.tripped ==>
          d.tree.tripped[scope].reason == if Balance(d, scope) < 0 then "overdrawn" else "spend envelope exhausted")
  }

  ghost predicate TrippedExactly(policy: Policy, c: Chain, d: Chain, op: Op) {
    match op
    case Capture(hold, cost, _) =>
      && hold in c.holds.open.at
      && var s := c.holds.open.at[hold].scope;
         Tripping(c, d, s, Charged(c.unit, cost) != 0 && Due(policy, d, s, true))
    case Redeem(scope, claimed, amount, _) =>
      Tripping(c, d, scope, (Claims(c, claimed) || amount != 0) && Due(policy, d, scope, Claims(c, claimed)))
    case _ => true
  }

  lemma TripKeepsHolds(env: Env, v: View, stamp: Stamp, scope: Scope, reason: string)
    requires |stamp.ids| >= 1 && PostLines(env, v, stamp, [Trips(scope, reason)]).Ok?
    ensures PostLines(env, v, stamp, [Trips(scope, reason)]).value.0.c.holds == v.c.holds
    ensures var t := PostLines(env, v, stamp, [Trips(scope, reason)]).value.0.c.tree.tripped;
            && t.Keys == v.c.tree.tripped.Keys + {scope} && t[scope].reason == reason
            && forall s :: s in v.c.tree.tripped && s != scope ==> t[s] == v.c.tree.tripped[s]
  {
    hide PostLines;
    var (w, es) := PostLines(env, v, stamp, [Trips(scope, reason)]).value;
    PostLinesParts(env, v, stamp, [Trips(scope, reason)]);
    assert OfLine(es[0], Trips(scope, reason)) && es == [es[0]] && es[..0] == [];
    assert Steps(env, WRITING, v, []) == Ok(v);
    assert Steps(env, WRITING, v, es) == Step(env, WRITING, v, es[0]);
    var txn := StepParts(env, WRITING, v, es[0]);
    StepTree(env, WRITING, v, es[0]);
    hide Step, Begin, BalanceRule, FlowRule, AddTotals;
  }

  /** The lines of a settlement leave the tree as it is. */
  lemma SettlingPost(env: Env, c: Chain, stamp: Stamp, ls: seq<Line>)
    requires |ls| <= 2 && |ls| <= |stamp.ids| && PostLines(env, Over(c), stamp, ls).Ok?
    requires forall i :: 0 <= i < |ls| ==> ls[i].kind.HoldVoid? || ls[i].kind.Spend?
    ensures PostLines(env, Over(c), stamp, ls).value.0.c.tree == c.tree
  {
    hide PostLines, Governance.Moved, Balance;
    var (w, es) := PostLines(env, Over(c), stamp, ls).value;
    PostLinesParts(env, Over(c), stamp, ls);
    PostEffects(env, Over(c), es, w, "");
    assert es[..|ls|] == es;
    assert OfLine(es[0], ls[0]);
    if |ls| == 2 { assert OfLine(es[1], ls[1]); }
    hide Governs;
    SettlingTree(c.tree, es, ls);
  }

  lemma WorkedTripsExactly(env: Env, policy: Policy, c: Chain, s: Scope, dry: bool, ls: seq<Line>, ev: Event)
    requires Drawn(ev) && |ls| <= 2 && Worked(env, policy, c, Some((s, dry)), ls, ev).Ok?
    requires forall i :: 0 <= i < |ls| ==> ls[i].kind.HoldVoid? || ls[i].kind.Spend?
    ensures var d := Worked(env, policy, c, Some((s, dry)), ls, ev).value.0;
            Tripping(c, d, s, Due(policy, d, s, dry))
  {
    hide PostLines;
    SettlingPost(env, c, ev.first, ls);
    var (v, main) := PostLines(env, Over(c), ev.first, ls).value;
    var trip := Aftermath(policy, Some((s, dry)), v.c);
    if trip != [] {
      assert trip == [Trips(s, trip[0].memo)];
      TripTrips(env, v, ev.second, s, trip[0].memo);
      TripKeepsHolds(env, v, ev.second, s, trip[0].memo);
    }
  }

  lemma SettlementLines(env: Env, policy: Policy, c: Chain, op: Op)
    requires (op.Capture? || op.Redeem?) && PlanOf(env, policy, c, op).Lines? && Settles(c, op).Some?
    ensures var ls := PlanOf(env, policy, c, op).lines;
            |ls| <= 2 && forall i :: 0 <= i < |ls| ==> ls[i].kind.HoldVoid? || ls[i].kind.Spend?
    ensures match op
            case Capture(hold, cost, _) => Settles(c, op) == Some((c.holds.open.at[hold].scope, true))
            case Redeem(scope, claimed, _, _) => Settles(c, op) == Some((scope, Claims(c, claimed)))
            case _ => false
  {
    hide Charged;
  }

  lemma NoSettlement(env: Env, policy: Policy, ev: Event, c: Chain, d: Chain, es: seq<Entry>)
    requires Drawn(ev) && (ev.op.Capture? || ev.op.Redeem?) && PlanOf(env, policy, c, ev.op).Lines?
    requires Settles(c, ev.op).None? && E.Commits(env, policy, ev, c, d, PlanOf(env, policy, c, ev.op).lines, es)
    ensures d.tree == c.tree && if ev.op.Capture? then Charged(c.unit, ev.op.cost) <= 0
                                else !Claims(c, ev.op.claimed) && ev.op.amount == 0
  {
    hide E.Commits, Balance, Governs, Charged;
    var ls := PlanOf(env, policy, c, ev.op).lines;
    PlanSize(env, policy, c, ev.op);
    Several(env, policy, ev, c, d, ls, es);
    assert |ls| == 1;
    OneGoverned(c.tree, es);
  }

  lemma SettlementTrips(env: Env, policy: Policy, ev: Event, stored: bool, was: (Chain, seq<Entry>),
                        now: (Chain, seq<Entry>), r: Answer)
    requires Drawn(ev) && Performed(env, policy, ev, stored, was, now, r) && r.Done?
    ensures TrippedExactly(policy, was.0, now.0, ev.op)
  {
    hide Performed, E.Commits, PlanOf, Settles, Worked, Charged, Due;
    if ev.op.Capture? || ev.op.Redeem? {
      var es := WhatWasDone(env, policy, ev, stored, was, now, r);
      var settles := Settles(was.0, ev.op);
      CaptureLines(env, policy, was.0, ev.op);
      if settles.Some? {
        var ls := PlanOf(env, policy, was.0, ev.op).lines;
        SettlementLines(env, policy, was.0, ev.op);
        DoneIs(env, policy, ev, stored, was, now, r);
        PlanSize(env, policy, was.0, ev.op);
        WorkedTripsExactly(env, policy, was.0, settles.value.0, settles.value.1, ls, ev);
      } else {
        NoSettlement(env, policy, ev, was.0, now.0, es);
      }
    }
  }

  lemma CaptureLines(env: Env, policy: Policy, c: Chain, op: Op)
    requires PlanOf(env, policy, c, op).Lines?
    ensures op.Capture? ==> op.hold in c.holds.open.at && Charged(c.unit, op.cost) >= 0
    ensures op.Capture? && Charged(c.unit, op.cost) > 0 ==> Settles(c, op).Some?
    ensures op.Capture? && Settles(c, op).Some? ==> Charged(c.unit, op.cost) != 0
    ensures op.Redeem? ==> (Settles(c, op).Some? <==> Claims(c, op.claimed) || op.amount != 0)
  {
    hide Charged, Halted, Credited, SpendLeft, Balance;
  }

  /** A scope's count is zero exactly when it has no hold open. */
  lemma {:induction false} NoneOpen(order: seq<Id>, at: map<Id, Entry>, s: Scope)
    requires forall id :: id in order ==> id in at
    ensures Weigh(order, at, CountIn(s)) >= 0
    ensures Weigh(order, at, CountIn(s)) == 0 <==> forall id :: id in order ==> at[id].scope != s
  {
    if |order| > 0 {
      var init := order[..|order| - 1];
      assert order == init + [order[|order| - 1]];
      NoneOpen(init, at, s);
    }
  }

  lemma CountMeans(h: Holds, entries: seq<Entry>, s: Scope)
    requires HoldsKept(h, entries)
    ensures Get(h.counts, s) == 0 <==> forall id :: id in h.open.at ==> h.open.at[id].scope != s
  {
    NoneOpen(h.open.order, h.open.at, s);
  }

  // -- all together ------------------------------------------------------------------------------------

  /** What the caller of an operation can read off the answer: done, the chain grew by what
      was asked for, and a settlement tripped exactly when it should; refused, for a reason
      that is so. */
  ghost predicate Explains(env: Env, policy: Policy, was: (Chain, seq<Entry>), now: (Chain, seq<Entry>), op: Op,
                           r: Answer) {
    && (r.Done? ==>
          TrippedExactly(policy, was.0, now.0, op) && exists es :: now.1 == was.1 + es && Entered(was.0, op, es))
    && (r.Refused? ==> IsSo(env, policy, was.0, op, r.why))
  }

  lemma Explained(env: Env, policy: Policy, ev: Event, stored: bool, was: (Chain, seq<Entry>), now: (Chain, seq<Entry>),
                  r: Answer)
    requires Drawn(ev) && Performed(env, policy, ev, stored, was, now, r)
    ensures Explains(env, policy, was, now, ev.op, r)
  {
    hide Performed, Entered, IsSo, TrippedExactly;
    if r.Done? {
      var es := WhatIsEntered(env, policy, ev, stored, was, now, r);
      SettlementTrips(env, policy, ev, stored, was, now, r);
    }
    if r.Refused? { RefusedTruly(env, policy, ev, stored, was, now, r); }
  }

  // -- refunds of a spend ------------------------------------------------------------------------------

  lemma NamingAppend(a: seq<Entry>, e: Entry, id: Id)
    ensures RefundsNaming(a + [e], id) == RefundsNaming(a, id) + RefundOf(e, id)
  {
    assert (a + [e])[..|a|] == a;
  }

  /** A refund done names what it was asked to, so that of that spend so much more is
      refunded, and of every other as much as before; otherwise nothing is. */
  ghost predicate RefundNames(c: Chain, was: seq<Entry>, now: seq<Entry>, amount: int, reverses: Option<Id>,
                              r: Answer) {
    forall id: Id :: RefundsNaming(now, id)
              == RefundsNaming(was, id) + if r.Done? && reverses == Some(id) then Credited(c.unit, amount) else 0
  }

  lemma RefundIsNamed(env: Env, policy: Policy, ev: Event, stored: bool, was: (Chain, seq<Entry>),
                      now: (Chain, seq<Entry>), r: Answer)
    requires Drawn(ev) && ev.op.Refund? && Performed(env, policy, ev, stored, was, now, r)
    ensures RefundNames(was.0, was.1, now.1, ev.op.amount, ev.op.reverses, r)
  {
    hide Performed, Credited, RefundsNaming;
    if r.Done? {
      var es := WhatIsEntered(env, policy, ev, stored, was, now, r);
      assert es == [es[0]];
      forall id: Id ensures RefundsNaming(now.1, id)
            == RefundsNaming(was.1, id) + if ev.op.reverses == Some(id) then Credited(was.0.unit, ev.op.amount) else 0 {
        NamingAppend(was.1, es[0], id);
      }
    } else {
      assert PlanOf(env, policy, was.0, ev.op) == PlanRefund(env, was.0, ev.op.scope, ev.op.amount, ev.op.memo,
                                                             ev.op.reverses)
        by { RefundPlan(env, policy, was.0, ev.op); }
      OtherwiseSame(env, policy, ev, stored, was, now, r);
      NeverDenied(env, was.0, ev.op);
    }
  }

  lemma NeverDenied(env: Env, c: Chain, op: Op)
    requires op.Refund?
    ensures !PlanRefund(env, c, op.scope, op.amount, op.memo, op.reverses).Deny?
  {
  }

  // -- over a run ----------------------------------------------------------------------------------------

  lemma {:induction false} NamingConcat(a: seq<Entry>, b: seq<Entry>, id: Id)
    ensures RefundsNaming(a + b, id) == RefundsNaming(a, id) + RefundsNaming(b, id)
  {
    if |b| == 0 {
      assert a + b == a;
    } else {
      var ab := a + b;
      assert ab[..|ab| - 1] == a + b[..|b| - 1];
      NamingConcat(a, b[..|b| - 1], id);
    }
  }

  lemma {:induction false} NamingNone(es: seq<Entry>, id: Id)
    requires forall i :: 0 <= i < |es| ==> !es[i].kind.Reversal?
    ensures RefundsNaming(es, id) == 0
  {
    if |es| > 0 { NamingNone(es[..|es| - 1], id); }
  }

  /** Only a refund posts a refund. */
  lemma PlanReverses(env: Env, policy: Policy, c: Chain, op: Op, i: nat)
    requires var p := PlanOf(env, policy, c, op); p.Lines? && i < |p.lines| && p.lines[i].kind.Reversal?
    ensures op.Refund?
  {
    hide Halted, Charged, Credited, SpendLeft, Balance;
  }

  lemma PerformReverses(env: Env, policy: Policy, c: Chain, ev: Event, i: nat)
    requires Drawn(ev) && i < |Perform(env, policy, c, ev).1| && Perform(env, policy, c, ev).1[i].kind.Reversal?
    ensures ev.op.Refund?
  {
    hide Perform, Batch, PlanOf;
    var lines := PerformParts(env, policy, c, ev);
    var es := Perform(env, policy, c, ev).1;
    assert i < |lines|;
    assert es[..|lines|][i] == es[i] && OfLine(es[i], lines[i]);
    var plan := PlanOf(env, policy, c, ev.op);
    if plan.Deny? { DenyTrips(env, policy, c, ev.op); }
    if plan.Lines? { PlanReverses(env, policy, c, ev.op, i); }
  }

  /** What an operation that wrote something refunded of a spend. */
  function Refunds(c: Chain, op: Op, id: Id): int {
    if op.Refund? && op.reverses == Some(id) then Credited(c.unit, op.amount) else 0
  }

  lemma PerformRefunds(env: Env, policy: Policy, c: Chain, ev: Event, id: Id)
    requires Drawn(ev) && Perform(env, policy, c, ev).1 != []
    ensures RefundsNaming(Perform(env, policy, c, ev).1, id) == Refunds(c, ev.op, id)
  {
    hide Perform, Credited, PlanOf;
    var es := Perform(env, policy, c, ev).1;
    if ev.op.Refund? {
      RefundWrote(env, policy, c, ev);
      assert [] + es == es;
      RefundIsNamed(env, policy, ev, true, (c, []), Perform(env, policy, c, ev), Done);
    } else {
      forall i | 0 <= i < |es| ensures !es[i].kind.Reversal? {
        if es[i].kind.Reversal? { PerformReverses(env, policy, c, ev, i); }
      }
      NamingNone(es, id);
    }
  }

  lemma RefundWrote(env: Env, policy: Policy, c: Chain, ev: Event)
    requires Drawn(ev) && ev.op.Refund? && Perform(env, policy, c, ev).1 != []
    ensures PlanOf(env, policy, c, ev.op).Lines?
  {
    hide Worked, Credited, SpendLeft;
  }

  /** What the calls of a run that named a spend refunded of it. */
  ghost function RefundedByCalls(env: Env, policy: Policy, unit: Unit, events: seq<Event>, id: Id): int
    requires forall i :: 0 <= i < |events| ==> Drawn(events[i])
  {
    if |events| == 0 then 0
    else
      var init, ev := events[..|events| - 1], events[|events| - 1];
      var g := RunOps(env, policy, unit, init);
      RefundedByCalls(env, policy, unit, init, id)
      + if Perform(Writing(env, Flat(g.batches)), policy, g.c, ev).1 != [] then Refunds(g.c, ev.op, id) else 0
  }

  /** On every run the refunds in the chain that name a spend are those of the calls that
      named it, done. */
  lemma {:induction false} CallsAreNamed(env: Env, policy: Policy, unit: Unit, events: seq<Event>, id: Id)
    requires forall i :: 0 <= i < |events| ==> Drawn(events[i])
    ensures RefundsNaming(Flat(RunOps(env, policy, unit, events).batches), id)
         == RefundedByCalls(env, policy, unit, events, id)
  {
    hide Perform, Refunds;
    if |events| > 0 {
      var init, ev := events[..|events| - 1], events[|events| - 1];
      CallsAreNamed(env, policy, unit, init, id);
      var g := RunOps(env, policy, unit, init);
      var at := Writing(env, Flat(g.batches));
      var es := Perform(at, policy, g.c, ev).1;
      if es != [] {
        PerformRefunds(at, policy, g.c, ev, id);
        Governance.FlatLast(g.batches, es);
        NamingConcat(Flat(g.batches), es, id);
      }
    }
  }

  /** So the calls of a run that name a spend never refund more of it than it spent. */
  lemma CallsWithinSpend(env: Env, policy: Policy, unit: Unit, events: seq<Event>, i: nat)
    requires HashIgnoresItself(env) && forall k :: 0 <= k < |events| ==> Drawn(events[k])
    requires DistinctIds(Flat(RunOps(env, policy, unit, events).batches))
    requires i < |Flat(RunOps(env, policy, unit, events).batches)|
    requires Flat(RunOps(env, policy, unit, events).batches)[i].kind.Spend?
    ensures var e := Flat(RunOps(env, policy, unit, events).batches)[i];
            RefundedByCalls(env, policy, unit, events, e.id) <= e.amount
  {
    hide RunOps, HashIgnoresItself, DistinctIds, Posted, Flat, Replay, Replaying, RefundsNaming, RefundedByCalls;
    var g := RunOps(env, policy, unit, events);
    RunIsPosted(env, policy, unit, events);
    RunHashed(env, policy, unit, events);
    Stores.PostsReplay(env, unit, g.batches);
    Stores.NeverOverRefunded(env, unit, Flat(g.batches), i);
    CallsAreNamed(env, policy, unit, events, Flat(g.batches)[i].id);
  }
}
