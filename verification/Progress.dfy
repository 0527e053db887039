/**
 The checks an operation makes before it writes are complete: on any state a governor can
 reach, what passes them, with text the ledger can hold and amounts it can count, is
 always accepted by the rules, and nothing else is.
 */
module Progress {
  import opened Vocabulary
  import opened Dicts
  import opened Engine
  import opened Replays
  import opened Laws
  import opened Trees
  import opened Posts
  import opened Managers
  import opened Governance
  import Effects
  import Merkle

  /** An amount the ledger's unit can count. */
  predicate Whole(unit: Unit, amount: int) { amount % Quantum(unit) == 0 }

  ghost predicate HoldReady(c: Chain, hold: Entry) {
    hold.scope in c.tree.nodes.at && hold.amount > 0 && Whole(c.unit, hold.amount)
  }

  /** What every state of a governor's ledger keeps: scopes named by legal text, holds on
      known scopes, whole amounts throughout, no unsealed first-version history. */
  ghost predicate Ready(c: Chain) {
    && TreeKept(c.tree) && "" !in c.tree.nodes.at && (c.tip.sawV1 ==> c.tip.sawV2)
    && (forall s :: s in c.tree.nodes.at ==> TextAllowed(s, MAX_ID_BYTES, true))
    && (forall id :: id in c.holds.open.at ==> HoldReady(c, c.holds.open.at[id]))
    && (forall s :: Whole(c.unit, Balance(c, s)))
  }

  // -- one entry ---------------------------------------------------------------------------------

  /** Everything the rules ask of an entry that building it does not settle. */
  ghost predicate Fits(env: Env, w: View, e: Entry) {
    && (w.c.tip.sawV1 ==> w.c.tip.sawV2) && !Scopeless(e.kind)
    && (if ZeroValue(e.kind) then e.scope != "" else Whole(w.c.unit, e.amount))
    && Begin(w.txn, e).Ok?
    && HoldRule(w.c.holds, Netted(Begin(w.txn, e).value, e), e).Ok?
    && RefundRule(env, w.c.spendRefunds, w.recent, w.start, e).Ok?
    && (BalanceRule(w.c.purse, e).Ok? ==> FlowRule(WRITING, BalanceRule(w.c.purse, e).value, e).Ok?)
    && Govern(w.c.tree, e).Ok?
  }

  lemma AdmitFits(env: Env, unit: Unit, tip: Tip, e: Entry)
    requires LinkRule(env, REPLAYING, tip, e).Ok? && LegalDirection(e.kind, e.direction) && TextRule(tip, e).Ok?
    requires e.version.V3? && (if ZeroValue(e.kind) then e.amount == 0 else e.amount > 0)
    requires (tip.sawV1 ==> tip.sawV2) && !Scopeless(e.kind)
    requires if ZeroValue(e.kind) then e.scope != "" else Whole(unit, e.amount)
    ensures AdmitRule(env, WRITING, unit, tip, e).Ok?
  {
    hide TextAllowed;
  }

  lemma StepFits(env: Env, w: View, e: Entry)
    requires LinkRule(env, REPLAYING, w.c.tip, e).Ok? && LegalDirection(e.kind, e.direction)
    requires TextRule(w.c.tip, e).Ok? && BalanceRule(w.c.purse, e).Ok?
    requires e.version.V3? && (if ZeroValue(e.kind) then e.amount == 0 else e.amount > 0) && Fits(env, w, e)
    ensures Step(env, WRITING, w, e).Ok?
  {
    hide TextRule, LinkRule, LegalDirection;
    AdmitFits(env, w.c.unit, w.c.tip, e);
    hide AdmitRule, Begin, Netted, BalanceRule, HoldRule, RefundRule, FlowRule, Govern, Advance, AddTotals;
  }

  /** The entry drafted for the last of some lines. */
  function LastDraft(env: Env, c: Chain, stamp: Stamp, lines: seq<Line>): Entry
    requires 0 < |lines| <= |stamp.ids|
  {
    Drafts(env, c, stamp, lines).entries[|lines| - 1]
  }

  lemma DraftOf(env: Env, c: Chain, stamp: Stamp, lines: seq<Line>)
    requires 0 < |lines| <= |stamp.ids|
    ensures var e := LastDraft(env, c, stamp, lines); OfLine(e, lines[|lines| - 1]) && e.txn == stamp.txn
    ensures Drafts(env, c, stamp, lines).entries
              == Drafts(env, c, stamp, lines[..|lines| - 1]).entries + [LastDraft(env, c, stamp, lines)]
  {
  }

  /** A view between transactions. */
  predicate Between(v: View) { v.txn.id.None? && v.txn.net == 0 }

  lemma Drafting(env: Env, v: View, stamp: Stamp, lines: seq<Line>, w: View)
    requires HashIgnoresItself(env) && 0 < |lines| <= |stamp.ids| && LineRule(lines[|lines| - 1]).Ok?
    requires Steps(env, WRITING, v, Drafts(env, v.c, stamp, lines[..|lines| - 1]).entries) == Ok(w)
    requires Fits(env, w, LastDraft(env, v.c, stamp, lines))
    ensures var e := LastDraft(env, v.c, stamp, lines);
            Step(env, WRITING, w, e).Ok?
            && Steps(env, WRITING, v, Drafts(env, v.c, stamp, lines).entries) == Step(env, WRITING, w, e)
  {
    hide Step, Fits, HashIgnoresItself, LineRule, Drafts, LinkRule, TextRule, BalanceRule, LegalDirection;
    var n := |lines| - 1;
    assert lines[..n + 1] == lines;
    BuiltFits(env, v, stamp, lines, n);
    DraftOf(env, v.c, stamp, lines);
    var es := Drafts(env, v.c, stamp, lines).entries;
    assert es[..|es| - 1] == Drafts(env, v.c, stamp, lines[..n]).entries;
    StepFits(env, w, LastDraft(env, v.c, stamp, lines));
  }

  // -- one post ------------------------------------------------------------------------------------

  lemma NetAfter(env: Env, w: View, e: Entry)
    requires Step(env, WRITING, w, e).Ok?
    ensures Step(env, WRITING, w, e).value.txn.net == w.txn.net + NetDelta(e)
  {
    var txn := StepParts(env, WRITING, w, e);
    NetStep(w, txn, e);
  }

  lemma NoLineYet(env: Env, v: View, stamp: Stamp)
    ensures Steps(env, WRITING, v, Drafts(env, v.c, stamp, []).entries) == Ok(v)
  {
  }

  /** A post of one line that fits. */
  lemma OneLine(env: Env, v: View, stamp: Stamp, line: Line)
    requires HashIgnoresItself(env) && |stamp.ids| >= 1 && LineRule(line).Ok? && Between(v) && !Balanced(line.kind)
    requires Fits(env, v, LastDraft(env, v.c, stamp, [line]))
    ensures PostLines(env, v, stamp, [line]).Ok?
  {
    hide Fits, HashIgnoresItself, LineRule, Drafts, Step, Steps, OfLine;
    var lines := [line];
    assert lines[..0] == [];
    NoLineYet(env, v, stamp);
    Drafting(env, v, stamp, lines, v);
    var e := LastDraft(env, v.c, stamp, lines);
    assert Balanced(e.kind) == Balanced(line.kind) by { DraftOf(env, v.c, stamp, lines); Like(e, line); }
    NetAfter(env, v, e);
  }

  lemma Like(e: Entry, line: Line)
    requires OfLine(e, line)
    ensures e.kind == line.kind && e.direction == line.direction && e.amount == line.amount
  {
  }

  /** A post of two lines, of which the second fits what the first leaves. */
  lemma TwoLines(env: Env, v: View, stamp: Stamp, a: Line, b: Line)
    requires HashIgnoresItself(env) && |stamp.ids| >= 2 && LineRule(a).Ok? && LineRule(b).Ok? && Between(v)
    requires if Balanced(a.kind) then
               Balanced(b.kind) && Signed(a.direction, a.amount) + Signed(b.direction, b.amount) == 0
             else !Balanced(b.kind)
    requires Fits(env, v, LastDraft(env, v.c, stamp, [a]))
    requires var w := Step(env, WRITING, v, LastDraft(env, v.c, stamp, [a]));
             w.Ok? ==> Fits(env, w.value, LastDraft(env, v.c, stamp, [a, b]))
    ensures PostLines(env, v, stamp, [a, b]).Ok?
  {
    hide Fits, HashIgnoresItself, LineRule, Drafts, Step, Steps, OfLine;
    var one, two := [a], [a, b];
    assert one[..0] == [] && two[..1] == one;
    NoLineYet(env, v, stamp);
    Drafting(env, v, stamp, one, v);
    var e := LastDraft(env, v.c, stamp, one);
    var w := Step(env, WRITING, v, e).value;
    Drafting(env, v, stamp, two, w);
    var f := LastDraft(env, v.c, stamp, two);
    DraftOf(env, v.c, stamp, one);
    DraftOf(env, v.c, stamp, two);
    Like(e, a);
    Like(f, b);
    NetAfter(env, v, e);
    NetAfter(env, w, f);
    assert forall i :: 0 <= i < |two| ==> LineRule(two[i]).Ok?;
  }

  /** What a step leaves for the next. */
  lemma AfterOne(env: Env, v: View, e: Entry)
    requires Step(env, WRITING, v, e).Ok? && e.version.V3? && Between(v)
    ensures var w := Step(env, WRITING, v, e).value;
            && Govern(v.c.tree, e) == Ok(w.c.tree) && w.c.unit == v.c.unit && w.start == v.start
            && w.txn.id == Some(e.txn) && w.c.tip.sawV2
            && RefundRule(env, v.c.spendRefunds, v.recent, v.start, e) == Ok(w.recent)
            && w.c.spendRefunds == v.c.spendRefunds
            && (NamedRelease(e) && e.ref.Some? ==> e.ref.value in w.txn.settleable)
  {
    StepTree(env, WRITING, v, e);
    StepRefunds(env, WRITING, v, e);
    var txn := StepParts(env, WRITING, v, e);
    KeptParts(env, v, e);
    hide Step, Govern, RefundRule;
    hide Drop, Counted, FirstOf, BalanceRule, FlowRule, AddTotals;
  }

  lemma KeptParts(env: Env, v: View, e: Entry)
    requires Step(env, WRITING, v, e).Ok? && e.version.V3?
    ensures var w := Step(env, WRITING, v, e).value;
            w.c.unit == v.c.unit && w.start == v.start && w.c.tip.sawV2 && w.c.tip.sawV1 == v.c.tip.sawV1
  {
    hide TextRule, Begin, Booking, Govern, AddTotals, Merkle.Extend;
  }

  // -- what a plan's lines need --------------------------------------------------------------------

  predicate LineLegal(c: Chain, l: Line) {
    && LineRule(l).Ok? && Whole(c.unit, l.amount)
    && (l.kind.HoldVoid? ==>
          l.ref.Some? && l.ref.value in c.holds.open.at && c.holds.open.at[l.ref.value].scope == l.scope)
  }

  /** Lines of legal text and whole amounts, releasing holds into their own scope. */
  predicate Legal(c: Chain, lines: seq<Line>) {
    lines != [] && forall i :: 0 <= i < |lines| ==> LineLegal(c, lines[i])
  }

  lemma KnownScope(c: Chain, s: Scope)
    requires Ready(c) && s in c.tree.nodes.at
    ensures s != "" && TextAllowed(s, MAX_ID_BYTES, true)
  {
  }

  lemma HoldKnown(c: Chain, id: Id)
    requires Ready(c) && id in c.holds.open.at
    ensures HoldReady(c, c.holds.open.at[id])
  {
  }

  /** A line that moves a scope's own money, or none, fits any state where the scope is known. */
  lemma PlainFits(env: Env, v: View, e: Entry)
    requires (v.c.tip.sawV1 ==> v.c.tip.sawV2) && Between(v) && e.scope in v.c.tree.nodes.at && e.scope != ""
    requires Whole(v.c.unit, e.amount) && e.version.V3? && e.ref.None?
    requires e.kind.Hold? || e.kind.Spend? || e.kind.Anchor? || e.kind.CircuitTripped? || e.kind.CircuitReset?
    ensures Fits(env, v, e)
  {
    hide Place;
  }

  lemma FundFits(env: Env, v: View, e: Entry)
    requires (v.c.tip.sawV1 ==> v.c.tip.sawV2) && Between(v) && Whole(v.c.unit, e.amount)
    requires e.version.V3? && e.ref.None?
    requires e.kind.Funding? && (e.scope in v.c.tree.nodes.at ==> v.c.tree.nodes.at[e.scope].parent.None?)
    ensures Fits(env, v, e)
  {
  }

  lemma VoidFits(env: Env, v: View, e: Entry)
    requires (v.c.tip.sawV1 ==> v.c.tip.sawV2) && Between(v) && Whole(v.c.unit, e.amount) && e.version.V3?
    requires e.kind.HoldVoid? && e.scope in v.c.tree.nodes.at && e.ref.Some? && e.ref.value in v.c.holds.open.at
    requires Key(v.c.holds.open.at[e.ref.value]) == Key(e)
    ensures Fits(env, v, e)
  {
    hide Close;
  }

  /** A refund of this line passes both refund rules. */
  ghost predicate RefundAble(env: Env, c: Chain, l: Line) {
    forall e: Entry :: OfLine(e, l) ==>
      && RefundRule(env, c.spendRefunds, map[], c.tip.length, e).Ok?
      && (BalanceRule(c.purse, e).Ok? ==> FlowRule(WRITING, BalanceRule(c.purse, e).value, e).Ok?)
  }

  lemma RefundIsAble(env: Env, c: Chain, op: Op)
    requires op.Refund? && PlanRefund(env, c, op.scope, op.amount, op.memo, op.reverses).Lines?
    ensures RefundAble(env, c, PlanRefund(env, c, op.scope, op.amount, op.memo, op.reverses).lines[0])
  {
    hide Credited;
    var l := PlanRefund(env, c, op.scope, op.amount, op.memo, op.reverses).lines[0];
    forall e: Entry | OfLine(e, l)
      ensures RefundRule(env, c.spendRefunds, map[], c.tip.length, e).Ok?
      ensures BalanceRule(c.purse, e).Ok? ==> FlowRule(WRITING, BalanceRule(c.purse, e).value, e).Ok?
    {
      var f := e.(balanceAfter := Get(c.purse.balances, e.scope) + Signed(e.direction, e.amount));
      RefundPlanIsTheRule(env, c, op.scope, op.amount, op.memo, op.reverses, f);
    }
  }

  /** What an operation's own checks have established of the lines it planned. */
  ghost predicate Able(env: Env, c: Chain, ls: seq<Line>) {
    && 0 < |ls| <= 2
    && match ls[0].kind
       case Funding =>
         |ls| == 1 && ls[0].ref.None? && (ls[0].scope in c.tree.nodes.at ==> c.tree.nodes.at[ls[0].scope].parent.None?)
       case Allocation =>
         && |ls| == 2 && ls[1].kind.Allocation? && ls[0].direction.Debit? && ls[1].direction.Credit?
         && ls[0].amount == ls[1].amount && ls[0].ref.None? && ls[1].ref.None?
         && ls[0].scope in c.tree.nodes.at && ls[1].scope !in c.tree.nodes.at && ls[1].counterparty == Some(ls[0].scope)
       case Release =>
         && |ls| == 2 && ls[1].kind.Release? && ls[0].direction.Debit? && ls[1].direction.Credit?
         && ls[0].amount == ls[1].amount && ls[0].ref.None? && ls[1].ref.None?
         && ls[0].counterparty == Some(ls[1].scope) && ls[1].counterparty == Some(ls[0].scope)
         && ls[0].scope in c.tree.nodes.at && c.tree.nodes.at[ls[0].scope].parent == Some(ls[1].scope)
         && ls[1].scope in c.tree.nodes.at
       case HoldVoid =>
         && ls[0].ref.Some? && ls[0].ref.value in c.holds.open.at && ls[0].scope in c.tree.nodes.at
         && c.holds.open.at[ls[0].ref.value].amount == ls[0].amount
         && (|ls| == 2 ==> ls[1].kind.Spend? && ls[1].ref == ls[0].ref && ls[1].scope == ls[0].scope)
       case Reversal => |ls| == 1 && ls[0].scope in c.tree.nodes.at && RefundAble(env, c, ls[0])
       case Seal | Checkpoint => false
       case _ => |ls| == 1 && ls[0].ref.None? && ls[0].scope in c.tree.nodes.at
  }

  lemma ParentKnown(t: Tree, s: Scope)
    requires TreeKept(t) && s in t.nodes.at && t.nodes.at[s].parent.Some?
    ensures t.nodes.at[s].parent.value in t.nodes.at && t.nodes.at[s].parent.value != s
  {
    assert NodeKept(t, s);
  }

  lemma TransferAble(env: Env, policy: Policy, c: Chain, op: Op)
    requires Ready(c) && (op.Delegate? || op.GiveBack?) && PlanOf(env, policy, c, op).Lines?
    ensures Able(env, c, PlanOf(env, policy, c, op).lines)
  {
    hide Ready, TextAllowed, TreeKept, Halted, Credited, Balance, RefundAble;
    if op.GiveBack? && op.scope in c.tree.nodes.at && c.tree.nodes.at[op.scope].parent.Some? {
      ReadyTree(c);
      ParentKnown(c.tree, op.scope);
    }
  }

  lemma ReadyTree(c: Chain)
    requires Ready(c)
    ensures TreeKept(c.tree)
  {
  }

  lemma CaptureAble(env: Env, c: Chain, id: Id, cost: int, memo: string)
    requires Ready(c) && PlanCapture(c, id, cost, memo).Lines?
    ensures Able(env, c, PlanCapture(c, id, cost, memo).lines)
  {
    hide Ready, Charged, RefundAble, Whole;
    HoldKnown(c, id);
  }

  lemma VoidAble(env: Env, c: Chain, id: Id, memo: string)
    requires Ready(c) && PlanVoid(c, id, memo).Lines?
    ensures Able(env, c, PlanVoid(c, id, memo).lines)
  {
    hide Ready, RefundAble, Whole;
    HoldKnown(c, id);
  }

  lemma RedeemAble(env: Env, c: Chain, scope: Scope, claimed: Option<Id>, amount: int, memo: string)
    requires PlanRedeem(c, scope, claimed, amount, memo).Lines?
    requires PlanRedeem(c, scope, claimed, amount, memo).lines != []
    ensures Able(env, c, PlanRedeem(c, scope, claimed, amount, memo).lines)
  {
    hide RefundAble;
  }

  lemma PlanAble(env: Env, policy: Policy, c: Chain, op: Op)
    requires Ready(c) && PlanOf(env, policy, c, op).Lines? && PlanOf(env, policy, c, op).lines != []
    ensures Able(env, c, PlanOf(env, policy, c, op).lines)
  {
    hide Ready, Able, PlanCapture, PlanVoid, PlanRedeem, PlanRefund, PlanDelegate, PlanGiveBack, PlanAuthorize,
         PlanRoot, PlanFund, PlanControl, PlanAnchor;
    match op
    case Delegate(_, _, _, _) => TransferAble(env, policy, c, op);
    case GiveBack(_, _, _) => TransferAble(env, policy, c, op);
    case Capture(hold, cost, memo) => CaptureAble(env, c, hold, cost, memo);
    case VoidHold(hold, memo) => VoidAble(env, c, hold, memo);
    case Redeem(scope, claimed, amount, memo) => RedeemAble(env, c, scope, claimed, amount, memo);
    case _ => OtherAble(env, policy, c, op);
  }

  lemma OtherAble(env: Env, policy: Policy, c: Chain, op: Op)
    requires PlanOf(env, policy, c, op).Lines?
    requires op.OpenRoot? || op.Fund? || op.Authorize? || op.Refund? || op.AnchorIn? || op.TripScope? || op.ResetScope?
    ensures Able(env, c, PlanOf(env, policy, c, op).lines)
  {
    hide Halted, Charged, Credited, SpendLeft, Balance, RefundAble;
    if op.Refund? { RefundIsAble(env, c, op); }
  }

  // -- planned lines are accepted -----------------------------------------------------------------------------

  lemma RefundFits(env: Env, c: Chain, l: Line, e: Entry)
    requires (c.tip.sawV1 ==> c.tip.sawV2) && RefundAble(env, c, l) && OfLine(e, l)
    requires e.kind.Reversal? && e.scope in c.tree.nodes.at && Whole(c.unit, e.amount)
    ensures Fits(env, Over(c), e)
  {
    hide Whole, RefundRule, FlowRule, BalanceRule;
  }

  /** The debit of a transfer. */
  lemma MoveFits(env: Env, v: View, e: Entry)
    requires (v.c.tip.sawV1 ==> v.c.tip.sawV2) && Between(v) && Whole(v.c.unit, e.amount)
    requires e.version.V3? && e.ref.None?
    requires (e.kind.Allocation? || e.kind.Release?) && e.direction.Debit? && e.scope in v.c.tree.nodes.at
    requires e.kind.Release? ==> v.c.tree.nodes.at[e.scope].parent == Some(Other(e))
    ensures Fits(env, v, e)
  {
    hide Whole;
  }

  /** A line legal and able fits the state it was planned on. */
  lemma FirstFits(env: Env, c: Chain, ls: seq<Line>, e: Entry)
    requires Ready(c) && Able(env, c, ls) && LineLegal(c, ls[0]) && OfLine(e, ls[0])
    ensures Fits(env, Over(c), e)
  {
    hide Ready, Whole, LineRule, Fits, RefundAble;
    ReadyFlags(c);
    match e.kind
    case Funding => FundFits(env, Over(c), e);
    case HoldVoid => VoidFits(env, Over(c), e);
    case Reversal => RefundFits(env, c, ls[0], e);
    case Allocation => MoveFits(env, Over(c), e);
    case Release => MoveFits(env, Over(c), e);
    case _ => PlainFits(env, Over(c), e);
  }

  lemma SecondHolds(env: Env, c: Chain, w: View, e: Entry, f: Entry)
    requires w.txn.id == Some(f.txn) && f.version.V3? && !f.kind.HoldVoid? && !f.kind.Reversal?
    requires (f.ref.Some? ==> f.kind.Spend? && f.ref.value in w.txn.settleable)
    ensures Begin(w.txn, f).Ok? && HoldRule(w.c.holds, Netted(Begin(w.txn, f).value, f), f).Ok?
    ensures RefundRule(env, w.c.spendRefunds, w.recent, w.start, f).Ok?
    ensures BalanceRule(w.c.purse, f).Ok? ==> FlowRule(WRITING, BalanceRule(w.c.purse, f).value, f).Ok?
  {
    hide Place;
  }

  /** The second line fits what the first leaves. */
  lemma SecondFits(env: Env, c: Chain, ls: seq<Line>, e: Entry, f: Entry)
    requires Able(env, c, ls) && |ls| == 2 && OfLine(e, ls[0]) && OfLine(f, ls[1]) && e.txn == f.txn
    requires Whole(c.unit, f.amount) && Step(env, WRITING, Over(c), e).Ok?
    ensures Fits(env, Step(env, WRITING, Over(c), e).value, f)
  {
    hide Step, Whole, RefundAble;
    AfterOne(env, Over(c), e);
    var w := Step(env, WRITING, Over(c), e).value;
    SecondHolds(env, c, w, e, f);
    hide Begin, HoldRule, RefundRule, FlowRule, BalanceRule, Netted;
  }

  /** A post of legal lines an operation planned goes through. */
  lemma PlanPosts(env: Env, c: Chain, stamp: Stamp, ls: seq<Line>)
    requires HashIgnoresItself(env) && Ready(c) && Able(env, c, ls) && Legal(c, ls) && |stamp.ids| >= 2
    ensures PostLines(env, Over(c), stamp, ls).Ok?
  {
    hide HashIgnoresItself, Ready, Fits, Drafts, PostLines, Step;
    assert LineLegal(c, ls[0]);
    DraftOf(env, c, stamp, [ls[0]]);
    var e := LastDraft(env, c, stamp, [ls[0]]);
    FirstFits(env, c, ls, e);
    hide LineRule, Whole, RefundAble;
    if |ls| == 1 {
      assert ls == [ls[0]];
      OneLine(env, Over(c), stamp, ls[0]);
    } else {
      assert ls == [ls[0], ls[1]] && LineLegal(c, ls[1]);
      DraftOf(env, c, stamp, ls);
      var f := LastDraft(env, c, stamp, ls);
      if Step(env, WRITING, Over(c), e).Ok? { SecondFits(env, c, ls, e, f); }
      TwoLines(env, Over(c), stamp, ls[0], ls[1]);
    }
  }

  // -- the trip that may follow ------------------------------------------------------------------------

  lemma {:induction false} SizeBound(text: string)
    ensures Utf8Size(text) <= 4 * |text|
  {
    if |text| > 0 { SizeBound(text[1..]); }
  }

  lemma ShortAllowed(text: string)
    requires |text| <= 64 && forall i :: 0 <= i < |text| ==> text[i] >= ' '
    ensures TextAllowed(text, MAX_MEMO_BYTES, false)
  {
    hide Utf8Size;
    SizeBound(text);
  }

  lemma ReasonsAllowed(reason: string)
    requires reason == "overdrawn" || reason == "spend envelope exhausted" || reason == "overdraft attempt"
          || reason == "runaway loop"
    ensures TextAllowed(reason, MAX_MEMO_BYTES, false)
  {
    hide TextAllowed;
    ShortAllowed(reason);
  }

  /** A trip of a known scope, between transactions, goes through. */
  lemma TripPosts(env: Env, v: View, stamp: Stamp, scope: Scope, reason: string)
    requires HashIgnoresItself(env) && Between(v) && (v.c.tip.sawV1 ==> v.c.tip.sawV2) && |stamp.ids| >= 1
    requires scope in v.c.tree.nodes.at && scope != ""
    requires TextAllowed(scope, MAX_ID_BYTES, true) && TextAllowed(reason, MAX_MEMO_BYTES, false)
    ensures PostLines(env, v, stamp, [Trips(scope, reason)]).Ok?
  {
    hide HashIgnoresItself, Fits, Drafts, PostLines, TextAllowed;
    var l := Trips(scope, reason);
    DraftOf(env, v.c, stamp, [l]);
    PlainFits(env, v, LastDraft(env, v.c, stamp, [l]));
    OneLine(env, v, stamp, l);
  }

  lemma GovernGrows(t: Tree, e: Entry)
    requires Govern(t, e).Ok?
    ensures t.nodes.at.Keys <= Govern(t, e).value.nodes.at.Keys
  {
  }

  lemma {:induction false} StepsGrow(env: Env, v: View, es: seq<Entry>)
    requires Steps(env, WRITING, v, es).Ok? && forall i :: 0 <= i < |es| ==> es[i].version.V3?
    ensures var w := Steps(env, WRITING, v, es).value;
            && v.c.tree.nodes.at.Keys <= w.c.tree.nodes.at.Keys && w.c.unit == v.c.unit
            && w.c.tip.sawV1 == v.c.tip.sawV1 && (v.c.tip.sawV2 ==> w.c.tip.sawV2)
  {
    hide Step, Govern;
    if |es| > 0 {
      var init, e := es[..|es| - 1], es[|es| - 1];
      StepsGrow(env, v, init);
      var w := Steps(env, WRITING, v, init).value;
      StepTree(env, WRITING, w, e);
      GovernGrows(w.c.tree, e);
      KeptParts(env, w, e);
    }
  }

  /** What a post leaves for a trip to follow. */
  lemma AfterPost(env: Env, v: View, stamp: Stamp, ls: seq<Line>)
    requires |ls| <= |stamp.ids| && PostLines(env, v, stamp, ls).Ok? && (v.c.tip.sawV1 ==> v.c.tip.sawV2)
    ensures var w := PostLines(env, v, stamp, ls).value.0;
            && Between(w) && (w.c.tip.sawV1 ==> w.c.tip.sawV2) && v.c.tree.nodes.at.Keys <= w.c.tree.nodes.at.Keys
  {
    hide Steps, Drafts, LineRule;
    DraftsAreOfLines(env, v.c, stamp, ls);
    StepsGrow(env, v, Drafts(env, v.c, stamp, ls).entries);
  }

  lemma SettlesKnown(env: Env, policy: Policy, c: Chain, op: Op)
    requires Ready(c) && PlanOf(env, policy, c, op).Lines? && Settles(c, op).Some?
    ensures Settles(c, op).value.0 in c.tree.nodes.at
  {
    hide Ready, Charged;
    if op.Capture? && op.hold in c.holds.open.at { HoldKnown(c, op.hold); }
  }

  /** The whole unit of work of a plan with legal lines goes through. */
  lemma PlanWorks(env: Env, policy: Policy, c: Chain, ev: Event)
    requires HashIgnoresItself(env) && Drawn(ev) && Ready(c)
    requires PlanOf(env, policy, c, ev.op).Lines? && |PlanOf(env, policy, c, ev.op).lines| <= 2
    requires Legal(c, PlanOf(env, policy, c, ev.op).lines)
    ensures Worked(env, policy, c, Settles(c, ev.op), PlanOf(env, policy, c, ev.op).lines, ev).Ok?
  {
    hide HashIgnoresItself, Ready, Able, PostLines, Settles, PlanOf, LineLegal, Exhausted, TextAllowed;
    var ls, settles := PlanOf(env, policy, c, ev.op).lines, Settles(c, ev.op);
    PlanAble(env, policy, c, ev.op);
    PlanPosts(env, c, ev.first, ls);
    ReadyFlags(c);
    AfterPost(env, Over(c), ev.first, ls);
    var v := PostLines(env, Over(c), ev.first, ls).value.0;
    var trip := Aftermath(policy, settles, v.c);
    if trip != [] {
      var scope := settles.value.0;
      SettlesKnown(env, policy, c, ev.op);
      KnownScope(c, scope);
      ReasonsAllowed(trip[0].memo);
      TripPosts(env, v, ev.second, scope, trip[0].memo);
      assert trip == [Trips(scope, trip[0].memo)];
    }
  }

  lemma ReadyFlags(c: Chain)
    requires Ready(c)
    ensures (c.tip.sawV1 ==> c.tip.sawV2) && "" !in c.tree.nodes.at
  {
  }

  // -- and nothing else is accepted --------------------------------------------------------------------

  lemma StepWhole(env: Env, v: View, e: Entry)
    requires Step(env, WRITING, v, e).Ok? && e.version.V3?
    ensures Whole(v.c.unit, e.amount) && TextAllowed(e.scope, MAX_ID_BYTES, true)
  {
    hide TextAllowed, Begin, Booking, Govern, AddTotals, Merkle.Extend;
  }

  lemma {:induction false} StepsWhole(env: Env, v: View, es: seq<Entry>, i: nat)
    requires Steps(env, WRITING, v, es).Ok? && (forall j :: 0 <= j < |es| ==> es[j].version.V3?) && i < |es|
    ensures Whole(v.c.unit, es[i].amount) && TextAllowed(es[i].scope, MAX_ID_BYTES, true)
  {
    hide Step, Whole, TextAllowed;
    var init, e := es[..|es| - 1], es[|es| - 1];
    if i < |init| {
      StepsWhole(env, v, init, i);
    } else {
      StepsGrow(env, v, init);
      StepWhole(env, Steps(env, WRITING, v, init).value, e);
    }
  }

  /** A release goes to the scope of the hold it names. */
  lemma VoidedOwn(env: Env, c: Chain, es: seq<Entry>)
    requires |es| > 0 && Steps(env, WRITING, Over(c), es).Ok? && NamedRelease(es[0])
    ensures es[0].ref.Some? && es[0].ref.value in c.holds.open.at
    ensures c.holds.open.at[es[0].ref.value].scope == es[0].scope
  {
    hide Step, HoldRule;
    assert es == [es[0]] + es[1..] && [es[0]][..0] == [];
    StepsAppend(env, WRITING, Over(c), [es[0]], es[1..]);
    assert Steps(env, WRITING, Over(c), [es[0]]) == Step(env, WRITING, Over(c), es[0]);
    var txn := StepParts(env, WRITING, Over(c), es[0]);
    NamedOpen(c.holds, Netted(txn, es[0]), es[0]);
  }

  lemma PostedLegal(env: Env, c: Chain, stamp: Stamp, ls: seq<Line>)
    requires Able(env, c, ls) && |ls| <= |stamp.ids| && PostLines(env, Over(c), stamp, ls).Ok?
    ensures Legal(c, ls)
  {
    hide Steps, Drafts, LineRule, Whole, TextAllowed, RefundAble;
    var es := Drafts(env, c, stamp, ls).entries;
    DraftsAreOfLines(env, c, stamp, ls);
    assert OfLine(es[0], ls[0]);
    if ls[0].kind.HoldVoid? { VoidedOwn(env, c, es); }
    forall i | 0 <= i < |ls| ensures LineLegal(c, ls[i]) {
      assert OfLine(es[i], ls[i]);
      StepsWhole(env, Over(c), es, i);
    }
  }

  lemma WorkedLegal(env: Env, policy: Policy, c: Chain, settles: Option<(Scope, bool)>, ls: seq<Line>, ev: Event)
    requires Able(env, c, ls) && |ls| <= 2 && Drawn(ev) && Worked(env, policy, c, settles, ls, ev).Ok?
    ensures Legal(c, ls)
  {
    hide PostLines, Able, Legal, Aftermath;
    PostedLegal(env, c, ev.first, ls);
  }

  lemma DenialTrips(env: Env, policy: Policy, c: Chain, op: Op)
    requires PlanOf(env, policy, c, op).Deny?
    ensures var t := PlanOf(env, policy, c, op).trip;
            |t| == 1 && t[0] == Trips(t[0].scope, t[0].memo) && t[0].scope in c.tree.nodes.at
            && (t[0].memo == "overdraft attempt" || t[0].memo == "runaway loop")
  {
    hide Halted, Charged, Balance;
  }

  lemma DenialWorks(env: Env, policy: Policy, c: Chain, ev: Event)
    requires HashIgnoresItself(env) && Drawn(ev) && Ready(c) && PlanOf(env, policy, c, ev.op).Deny?
    ensures |PlanOf(env, policy, c, ev.op).trip| == 1
    ensures Worked(env, policy, c, None, PlanOf(env, policy, c, ev.op).trip, ev).Ok?
  {
    hide HashIgnoresItself, Ready, PostLines, PlanOf, TextAllowed;
    DenialTrips(env, policy, c, ev.op);
    var t := PlanOf(env, policy, c, ev.op).trip;
    KnownScope(c, t[0].scope);
    ReasonsAllowed(t[0].memo);
    ReadyFlags(c);
    TripPosts(env, Over(c), ev.first, t[0].scope, t[0].memo);
    assert t == [t[0]];
  }

  lemma WorkedWrites(env: Env, policy: Policy, c: Chain, settles: Option<(Scope, bool)>, ls: seq<Line>, ev: Event)
    requires Drawn(ev) && |ls| <= 2 && Worked(env, policy, c, settles, ls, ev).Ok?
    ensures Worked(env, policy, c, settles, ls, ev).value.1 != []
  {
    hide Worked, Batch;
    WorkedParts(env, policy, c, settles, ls, ev);
  }

  /** What the plan must be for anything to be written. */
  ghost predicate Writes(c: Chain, plan: Plan) {
    match plan
    case Lines(ls) => Legal(c, ls)
    case Deny(_, _) => true
    case _ => false
  }

  /** An operation writes exactly when it planned lines that are legal, or planned a trip. */
  lemma PerformsExactly(env: Env, policy: Policy, c: Chain, ev: Event)
    requires HashIgnoresItself(env) && Drawn(ev) && Ready(c)
    ensures Perform(env, policy, c, ev).1 != [] <==> Writes(c, PlanOf(env, policy, c, ev.op))
  {
    hide HashIgnoresItself, Ready, Worked, PlanOf, Settles, Legal;
    PlanSize(env, policy, c, ev.op);
    var plan := PlanOf(env, policy, c, ev.op);
    if plan.Deny? {
      DenialWorks(env, policy, c, ev);
      WorkedWrites(env, policy, c, None, plan.trip, ev);
    } else if plan.Lines? {
      var settles := Settles(c, ev.op);
      if Legal(c, plan.lines) { PlanWorks(env, policy, c, ev); }
      if Worked(env, policy, c, settles, plan.lines, ev).Ok? {
        WorkedWrites(env, policy, c, settles, plan.lines, ev);
        SomeLines(env, policy, c, settles, plan.lines, ev);
        PlanAble(env, policy, c, ev.op);
        WorkedLegal(env, policy, c, settles, plan.lines, ev);
      }
    }
  }

  lemma SomeLines(env: Env, policy: Policy, c: Chain, settles: Option<(Scope, bool)>, ls: seq<Line>, ev: Event)
    requires Drawn(ev) && |ls| <= 2 && Worked(env, policy, c, settles, ls, ev).Ok?
    ensures ls != []
  {
    hide PostOne, Drafts, LineRule, Aftermath;
  }

  /** A caller is told that an operation is done exactly when its checks passed, its lines
      were legal and the store took them; and that it failed exactly when there was
      something to write and one of the last two was wanting. */
  lemma DoneExactly(env: Env, policy: Policy, ev: Event, stored: bool, was: (Chain, seq<Entry>),
                    now: (Chain, seq<Entry>), r: Effects.Answer)
    requires HashIgnoresItself(env) && Drawn(ev) && Ready(was.0)
    requires Effects.Performed(env, policy, ev, stored, was, now, r)
    ensures var plan := PlanOf(env, policy, was.0, ev.op);
            && (r.Done? <==> stored && plan.Lines? && Legal(was.0, plan.lines))
            && (r.Failed? <==> (plan.Lines? || plan.Deny?) && !(stored && Writes(was.0, plan)))
  {
    hide HashIgnoresItself, Ready, Perform, PlanOf, Legal;
    PerformsExactly(env, policy, was.0, ev);
  }

  // -- when a plan's lines are legal -------------------------------------------------------------------

  /** Text the ledger can hold. */
  predicate Legible(l: Line) {
    && TextAllowed(l.scope, MAX_ID_BYTES, true) && TextAllowed(l.memo, MAX_MEMO_BYTES, false)
    && (l.counterparty.Some? ==> TextAllowed(l.counterparty.value, MAX_ID_BYTES, true))
  }

  /** A line that is legal but for its text. */
  predicate Worded(c: Chain, l: Line) {
    && LegalDirection(l.kind, l.direction) && (if ZeroValue(l.kind) then l.amount == 0 else l.amount > 0)
    && (l.ref.Some? ==> Referencing(l.kind, V3)) && Whole(c.unit, l.amount)
    && (l.kind.HoldVoid? ==>
          l.ref.Some? && l.ref.value in c.holds.open.at && c.holds.open.at[l.ref.value].scope == l.scope)
  }

  lemma LegibleIsLegal(c: Chain, l: Line)
    requires Worded(c, l)
    ensures LineLegal(c, l) <==> Legible(l)
  {
    hide TextAllowed;
  }

  lemma NothingIsWhole(unit: Unit)
    ensures Whole(unit, 0)
  {
  }

  lemma RoundedWhole(unit: Unit)
    ensures forall a :: Whole(unit, Credited(unit, a))
    ensures forall a :: Whole(unit, Charged(unit, a))
  {
  }

  lemma BalanceWhole(c: Chain, s: Scope)
    requires Ready(c)
    ensures Whole(c.unit, Balance(c, s))
  {
  }

  lemma SettlementWorded(c: Chain, id: Id, cost: int, memo: string)
    requires Ready(c) && id in c.holds.open.at
    ensures PlanCapture(c, id, cost, memo).Lines?
            ==> forall l :: l in PlanCapture(c, id, cost, memo).lines ==> Worded(c, l)
    ensures forall l :: l in PlanVoid(c, id, memo).lines ==> Worded(c, l)
  {
    hide Ready, Whole, Charged;
    RoundedWhole(c.unit);
    HoldKnown(c, id);
  }

  lemma TransferWorded(env: Env, policy: Policy, c: Chain, op: Op)
    requires Ready(c) && (op.Delegate? || op.GiveBack?) && PlanOf(env, policy, c, op).Lines?
    ensures forall l :: l in PlanOf(env, policy, c, op).lines ==> Worded(c, l)
  {
    hide Ready, Halted, Balance, Whole, Credited;
    RoundedWhole(c.unit);
    if op.GiveBack? { BalanceWhole(c, op.scope); }
  }

  lemma PlanWorded(env: Env, policy: Policy, c: Chain, op: Op, i: nat)
    requires Ready(c) && PlanOf(env, policy, c, op).Lines? && i < |PlanOf(env, policy, c, op).lines| && !op.Redeem?
    ensures Worded(c, PlanOf(env, policy, c, op).lines[i])
  {
    hide Ready, Halted, SpendLeft, Balance, Whole, Credited, Charged;
    if op.Capture? {
      hide Worded;
      SettlementWorded(c, op.hold, op.cost, op.memo);
    } else if op.VoidHold? {
      hide Worded;
      SettlementWorded(c, op.hold, 0, op.memo);
    } else if op.Delegate? || op.GiveBack? {
      hide Worded;
      TransferWorded(env, policy, c, op);
    } else {
      NothingIsWhole(c.unit);
      RoundedWhole(c.unit);
    }
  }

  /** Apart from a claim's, the lines an operation planned are legal exactly when their
      text is: scopes, counterparties and memos the ledger can hold. */
  lemma TextDecides(env: Env, policy: Policy, c: Chain, op: Op)
    requires Ready(c) && PlanOf(env, policy, c, op).Lines? && !op.Redeem?
    ensures var ls := PlanOf(env, policy, c, op).lines;
            Legal(c, ls) <==> ls != [] && forall i :: 0 <= i < |ls| ==> Legible(ls[i])
  {
    hide Ready, PlanOf, Legible, LineLegal, Worded;
    var ls := PlanOf(env, policy, c, op).lines;
    forall i | 0 <= i < |ls| ensures LineLegal(c, ls[i]) <==> Legible(ls[i]) {
      PlanWorded(env, policy, c, op, i);
      LegibleIsLegal(c, ls[i]);
    }
  }

  // -- every state of a run is ready -------------------------------------------------------------------

  lemma AddWhole(unit: Unit, a: int, b: int)
    requires Whole(unit, a) && Whole(unit, b)
    ensures Whole(unit, a + b) && Whole(unit, -a)
  {
    var q := Quantum(unit);
    assert a == a / q * q && b == b / q * q;
    Multiple(a / q + b / q, q);
    Multiple(-(a / q), q);
    assert (a / q + b / q) * q == a / q * q + b / q * q;
    assert -(a / q) * q == -(a / q * q);
  }

  lemma {:induction false} MovedWhole(unit: Unit, es: seq<Entry>, s: Scope)
    requires forall i :: 0 <= i < |es| ==> Whole(unit, es[i].amount)
    ensures Whole(unit, Moved(es, s))
  {
    NothingIsWhole(unit);
    if |es| > 0 {
      var e := es[|es| - 1];
      MovedWhole(unit, es[..|es| - 1], s);
      hide Whole;
      AddWhole(unit, e.amount, e.amount);
      var move := if e.scope == s then Signed(e.direction, e.amount) else 0;
      AddWhole(unit, Moved(es[..|es| - 1], s), move);
    }
  }

  /** What may create a scope: a funding, or the credit of a delegation. */
  predicate Creating(kind: Kind, direction: Direction) { kind.Funding? || (kind.Allocation? && !direction.Debit?) }

  /** A scope not there before is the scope of an entry that created it. */
  lemma {:induction false} NewScope(t: Tree, es: seq<Entry>, s: Scope)
    requires Governs(t, es).Ok? && s in Governs(t, es).value.nodes.at
    ensures s in t.nodes.at
         || exists i :: 0 <= i < |es| && es[i].scope == s && Creating(es[i].kind, es[i].direction)
  {
    if |es| > 0 {
      var init, e := es[..|es| - 1], es[|es| - 1];
      hide Govern;
      var u := Governs(t, init).value;
      ScopeStep(u, e, s);
      if s in u.nodes.at {
        NewScope(t, init, s);
        if i :| 0 <= i < |init| && init[i].scope == s && Creating(init[i].kind, init[i].direction) {
          assert es[i] == init[i];
        }
      } else {
        assert es[|es| - 1] == e;
      }
    }
  }

  lemma ScopeStep(t: Tree, e: Entry, s: Scope)
    requires Govern(t, e).Ok? && s in Govern(t, e).value.nodes.at
    ensures s in t.nodes.at || (e.scope == s && Creating(e.kind, e.direction))
    ensures e.kind.Hold? ==> e.scope in Govern(t, e).value.nodes.at
  {
  }

  lemma {:induction false} HeldScope(t: Tree, es: seq<Entry>, i: nat)
    requires Governs(t, es).Ok? && i < |es| && es[i].kind.Hold?
    ensures es[i].scope in Governs(t, es).value.nodes.at
  {
    var init, e := es[..|es| - 1], es[|es| - 1];
    var u := Governs(t, init).value;
    if i < |init| {
      HeldScope(t, init, i);
      hide Govern;
      GovernGrows(u, e);
    }
  }

  /** No operation creates a scope without a name. */
  lemma PlanNames(env: Env, policy: Policy, c: Chain, op: Op, i: nat)
    requires "" !in c.tree.nodes.at && PlanOf(env, policy, c, op).Lines? && i < |PlanOf(env, policy, c, op).lines|
    requires var l := PlanOf(env, policy, c, op).lines[i]; Creating(l.kind, l.direction)
    ensures PlanOf(env, policy, c, op).lines[i].scope != ""
  {
    hide Halted, Charged, Credited, SpendLeft, Balance;
  }

  lemma PerformNames(env: Env, policy: Policy, c: Chain, ev: Event, i: nat)
    requires Drawn(ev) && "" !in c.tree.nodes.at && i < |Perform(env, policy, c, ev).1|
    requires var e := Perform(env, policy, c, ev).1[i]; Creating(e.kind, e.direction)
    ensures Perform(env, policy, c, ev).1[i].scope != ""
  {
    hide Perform, Batch, PlanOf;
    var lines := PerformParts(env, policy, c, ev);
    var es := Perform(env, policy, c, ev).1;
    assert i < |lines|;
    assert es[..|lines|][i] == es[i] && OfLine(es[i], lines[i]);
    if PlanOf(env, policy, c, ev.op).Deny? { DenyTrips(env, policy, c, ev.op); }
    if PlanOf(env, policy, c, ev.op).Lines? { PlanNames(env, policy, c, ev.op, i); }
  }

  /** The parts of a ready state that a commit keeps. */
  lemma CommitReady(env: Env, c: Chain, es: seq<Entry>, d: Chain)
    requires Ready(c) && Batch(env, WRITING, c, es) == Ok(d) && forall i :: 0 <= i < |es| ==> es[i].version.V3?
    requires forall i :: 0 <= i < |es| && Creating(es[i].kind, es[i].direction) ==> es[i].scope != ""
    ensures Ready(d)
  {
    hide Steps, Governs, Formed, Moved, Balance, Whole, TextAllowed, TreeKept;
    BatchGoverns(env, c, es, d);
    GovernsKeep(c.tree, es);
    StepsGrow(env, Over(c), es);
    forall i | 0 <= i < |es| ensures Whole(c.unit, es[i].amount) && TextAllowed(es[i].scope, MAX_ID_BYTES, true) {
      StepsWhole(env, Over(c), es, i);
    }
    forall s | s in d.tree.nodes.at ensures s != "" && TextAllowed(s, MAX_ID_BYTES, true) { NewScope(c.tree, es, s); }
    forall s ensures Whole(d.unit, Balance(d, s)) {
      BatchMoves(env, c, es, d, s);
      MovedWhole(c.unit, es, s);
      AddWhole(c.unit, Balance(c, s), Moved(es, s));
    }
    forall id | id in d.holds.open.at ensures HoldReady(d, d.holds.open.at[id]) { HeldReady(env, c, es, d, id); }
  }

  lemma HeldReady(env: Env, c: Chain, es: seq<Entry>, d: Chain, id: Id)
    requires (forall k :: k in c.holds.open.at ==> HoldReady(c, c.holds.open.at[k])) && id in d.holds.open.at
    requires Batch(env, WRITING, c, es) == Ok(d) && d.unit == c.unit && c.tree.nodes.at.Keys <= d.tree.nodes.at.Keys
    requires forall i :: 0 <= i < |es| ==> Whole(c.unit, es[i].amount)
    ensures HoldReady(d, d.holds.open.at[id])
  {
    hide Steps, Governs, Whole;
    BatchGoverns(env, c, es, d);
    StepsOpen(env, WRITING, Over(c), es, id);
    if id !in c.holds.open.at || d.holds.open.at[id] != c.holds.open.at[id] {
      var i :| 0 <= i < |es| && es[i].kind.Hold? && d.holds.open.at[id] == es[i];
      HeldScope(c.tree, es, i);
      assert Formed(es[i]);
    }
  }

  lemma PerformReady(env: Env, policy: Policy, c: Chain, ev: Event)
    requires Drawn(ev) && Ready(c)
    ensures Ready(Perform(env, policy, c, ev).0)
  {
    hide Perform, Batch, Shape;
    assert "" !in c.tree.nodes.at;
    hide Ready;
    var (d, es) := Perform(env, policy, c, ev);
    if es == [] {
      NoEntriesNoChange(env, policy, c, ev);
    } else {
      PerformShape(env, policy, c, ev);
      Effects.PerformVersions(env, policy, c, ev);
      forall i | 0 <= i < |es| && Creating(es[i].kind, es[i].direction) ensures es[i].scope != "" {
        PerformNames(env, policy, c, ev, i);
      }
      CommitReady(env, c, es, d);
    }
  }

  /** Every state a run of operations reaches is ready. */
  lemma {:induction false} RunReady(env: Env, policy: Policy, unit: Unit, events: seq<Event>)
    requires forall i :: 0 <= i < |events| ==> Drawn(events[i])
    ensures Ready(RunOps(env, policy, unit, events).c)
  {
    if |events| == 0 {
      EmptyReady(unit);
    } else {
      hide Perform, Ready;
      var init, ev := events[..|events| - 1], events[|events| - 1];
      RunReady(env, policy, unit, init);
      var before := RunOps(env, policy, unit, init);
      PerformReady(Writing(env, Flat(before.batches)), policy, before.c, ev);
    }
  }

  lemma EmptyReady(unit: Unit)
    ensures Ready(EmptyChain(unit))
  {
  }
}
