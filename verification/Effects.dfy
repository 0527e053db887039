/**
 What each operation does, in terms of the state: which balances move and by how much,
 what is spent and refunded, which holds are open, what becomes of the tree, and that
 everything else is as it was.
 */
module Effects {
  import opened Vocabulary
  import opened Dicts
  import opened Engine
  import opened Replays
  import opened Laws
  import opened Trees
  import opened Posts
  import opened Managers
  import opened Governance
  import Stores

  datatype Answer = Done | NoChange | Refused(why: Why) | Failed

  /** What a caller of an operation is told, by what the operation planned. */
  ghost predicate Answers(plan: Plan, wrote: bool, r: Answer) {
    match plan
    case Refuse(why) => r == Refused(why)
    case Nothing => r == NoChange
    case Lines(_) => r == if wrote then Done else Failed
    case Deny(_, why) => r == if wrote then Refused(why) else Failed
  }

  /** An operation on what was there left what is there, and said so: the whole of what
      it performs if the store took it, nothing if not. */
  ghost predicate Performed(env: Env, policy: Policy, ev: Event, stored: bool, was: (Chain, seq<Entry>),
                            now: (Chain, seq<Entry>), r: Answer)
    requires Drawn(ev)
  {
    var p := Perform(env, policy, was.0, ev);
    && (if stored then now == (p.0, was.1 + p.1) else now == was)
    && Answers(PlanOf(env, policy, was.0, ev.op), |now.1| > |was.1|, r)
  }

  // -- what a batch does to each part of the state ---------------------------------------------

  function SpentIn(es: seq<Entry>, s: Scope): int {
    if |es| == 0 then 0
    else
      var e := es[|es| - 1];
      SpentIn(es[..|es| - 1], s) + if e.kind.Spend? && e.scope == s then e.amount else 0
  }

  function RefundedIn(es: seq<Entry>, s: Scope): int {
    if |es| == 0 then 0
    else
      var e := es[|es| - 1];
      RefundedIn(es[..|es| - 1], s) + if e.kind.Reversal? && e.scope == s then e.amount else 0
  }

  /** The open holds after entries that name what they release. */
  function OpenAfter(open: map<Id, Entry>, es: seq<Entry>): map<Id, Entry> {
    if |es| == 0 then open
    else
      var before, e := OpenAfter(open, es[..|es| - 1]), es[|es| - 1];
      if e.kind.Hold? then before[e.id := e]
      else if e.kind.HoldVoid? && e.ref.Some? then before - {e.ref.value}
      else before
  }

  lemma FlowsOne(mode: Mode, p: Purse, e: Entry, s: Scope)
    requires BalanceRule(p, e).Ok? && FlowRule(mode, BalanceRule(p, e).value, e).Ok?
    ensures var q := FlowRule(mode, BalanceRule(p, e).value, e).value;
            && Get(q.spent, s) == Get(p.spent, s) + (if e.kind.Spend? && e.scope == s then e.amount else 0)
            && Get(q.refunded, s) == Get(p.refunded, s) + (if e.kind.Reversal? && e.scope == s then e.amount else 0)
  {
  }

  lemma OpenOne(h: Holds, txn: Txn, e: Entry)
    requires HoldRule(h, txn, e).Ok? && e.version.V3?
    ensures HoldRule(h, txn, e).value.0.open.at
         == if e.kind.Hold? then h.open.at[e.id := e]
               else if e.kind.HoldVoid? && e.ref.Some? then h.open.at - {e.ref.value} else h.open.at
  {
    hide Drop, Counted, FirstOf;
  }

  lemma {:induction false} StepsFlow(env: Env, mode: Mode, v: View, es: seq<Entry>, s: Scope)
    requires Steps(env, mode, v, es).Ok?
    ensures var p, q := v.c.purse, Steps(env, mode, v, es).value.c.purse;
            Get(q.spent, s) == Get(p.spent, s) + SpentIn(es, s)
                  && Get(q.refunded, s) == Get(p.refunded, s) + RefundedIn(es, s)
  {
    hide Step;
    if |es| > 0 {
      var init, e := es[..|es| - 1], es[|es| - 1];
      StepsFlow(env, mode, v, init, s);
      var w := Steps(env, mode, v, init).value;
      var txn := StepParts(env, mode, w, e);
      hide HoldRule, Begin, AddTotals, BalanceRule, FlowRule;
      FlowsOne(mode, w.c.purse, e, s);
    }
  }

  lemma {:induction false} StepsHold(env: Env, mode: Mode, v: View, es: seq<Entry>)
    requires Steps(env, mode, v, es).Ok? && forall i :: 0 <= i < |es| ==> es[i].version.V3?
    ensures Steps(env, mode, v, es).value.c.holds.open.at == OpenAfter(v.c.holds.open.at, es)
  {
    hide Step;
    if |es| > 0 {
      var init, e := es[..|es| - 1], es[|es| - 1];
      StepsHold(env, mode, v, init);
      var w := Steps(env, mode, v, init).value;
      var txn := StepParts(env, mode, w, e);
      hide HoldRule, Begin, AddTotals, BalanceRule, FlowRule;
      OpenOne(w.c.holds, Netted(txn, e), e);
    }
  }

  /** The state moved exactly so, in its money and its holds. */
  ghost predicate Moved(c: Chain, d: Chain, balances: map<Scope, int>, spent: map<Scope, int>,
                        refunded: map<Scope, int>, open: map<Id, Entry>) {
    && (forall x :: Balance(d, x) == Balance(c, x) + Get(balances, x))
    && (forall x :: Get(d.purse.spent, x) == Get(c.purse.spent, x) + Get(spent, x))
    && (forall x :: Get(d.purse.refunded, x) == Get(c.purse.refunded, x) + Get(refunded, x))
    && d.holds.open.at == open
  }

  lemma BatchEffect(env: Env, c: Chain, es: seq<Entry>, d: Chain)
    requires Batch(env, WRITING, c, es) == Ok(d) && forall i :: 0 <= i < |es| ==> es[i].version.V3?
    ensures forall x :: Balance(d, x) == Balance(c, x) + Governance.Moved(es, x)
    ensures forall x :: Get(d.purse.spent, x) == Get(c.purse.spent, x) + SpentIn(es, x)
    ensures forall x :: Get(d.purse.refunded, x) == Get(c.purse.refunded, x) + RefundedIn(es, x)
    ensures d.holds.open.at == OpenAfter(c.holds.open.at, es)
    ensures Governs(c.tree, es) == Ok(d.tree) && forall i :: 0 <= i < |es| ==> Formed(es[i])
  {
    hide Steps, Governance.Moved, SpentIn, RefundedIn, OpenAfter, Governs, Formed, Balance;
    forall x ensures Balance(d, x) == Balance(c, x) + Governance.Moved(es, x) { BatchMoves(env, c, es, d, x); }
    forall x
      ensures Get(d.purse.spent, x) == Get(c.purse.spent, x) + SpentIn(es, x)
      ensures Get(d.purse.refunded, x) == Get(c.purse.refunded, x) + RefundedIn(es, x)
    {
      StepsFlow(env, WRITING, Over(c), es, x);
    }
    StepsHold(env, WRITING, Over(c), es);
    BatchGoverns(env, c, es, d);
  }

  // -- the entries an operation commits ----------------------------------------------------------

  /** Everything an operation commits is of the newest version. */
  lemma PerformVersions(env: Env, policy: Policy, c: Chain, ev: Event)
    requires Drawn(ev)
    ensures forall i :: 0 <= i < |Perform(env, policy, c, ev).1| ==> Perform(env, policy, c, ev).1[i].version.V3?
  {
    hide Worked, PlanOf, Settles;
    PlanSize(env, policy, c, ev.op);
    var plan := PlanOf(env, policy, c, ev.op);
    if plan.Deny? && Worked(env, policy, c, None, plan.trip, ev).Ok? {
      WorkedVersions(env, policy, c, None, plan.trip, ev);
    } else if plan.Lines? && Worked(env, policy, c, Settles(c, ev.op), plan.lines, ev).Ok? {
      WorkedVersions(env, policy, c, Settles(c, ev.op), plan.lines, ev);
    }
  }

  /** And each is a line's, with its own id, or a trip of the scope settled in. */
  lemma WorkedVersions(env: Env, policy: Policy, c: Chain, settles: Option<(Scope, bool)>, lines: seq<Line>, ev: Event)
    requires Drawn(ev) && |lines| <= 2 && Worked(env, policy, c, settles, lines, ev).Ok?
    ensures var es := Worked(env, policy, c, settles, lines, ev).value.1;
            && (forall i :: 0 <= i < |es| ==> es[i].version.V3?)
            && |lines| <= |es| <= |lines| + 1
            && (forall i :: 0 <= i < |lines| ==> es[i].id == ev.first.ids[i])
            && (|es| > |lines| ==>
                  settles.Some? && es[|lines|].kind.CircuitTripped?
                  && es[|lines|].scope == settles.value.0)
  {
    hide PostOne, LineRule, Drafts, Over, Merged, Exhausted;
    DraftsAreOfLines(env, Over(c).c, ev.first, lines);
    DraftIds(env, Over(c).c, ev.first, lines);
    var (v, main) := PostLines(env, Over(c), ev.first, lines).value;
    var trip := Aftermath(policy, settles, v.c);
    if trip != [] { DraftsAreOfLines(env, v.c, ev.second, trip); }
  }

  /** The commit behind an operation that said it was done. */
  lemma WhatWasDone(env: Env, policy: Policy, ev: Event, stored: bool, was: (Chain, seq<Entry>),
                    now: (Chain, seq<Entry>), r: Answer)
    returns (es: seq<Entry>)
    requires Drawn(ev) && Performed(env, policy, ev, stored, was, now, r) && r.Done?
    ensures PlanOf(env, policy, was.0, ev.op).Lines?
              && Commits(env, policy, ev, was.0, now.0, PlanOf(env, policy, was.0, ev.op).lines, es)
    ensures now.1 == was.1 + es
  {
    hide Batch, Worked, PlanOf, WorkOf;
    es := Perform(env, policy, was.0, ev).1;
    PlanSize(env, policy, was.0, ev.op);
    var lines := PlanOf(env, policy, was.0, ev.op).lines;
    var settles := Settles(was.0, ev.op);
    assert Worked(env, policy, was.0, settles, lines, ev).Ok?;
    WorkedParts(env, policy, was.0, settles, lines, ev);
    WorkedVersions(env, policy, was.0, settles, lines, ev);
  }

  /** Entries that carry out lines, committed over a state: with the first stamp's ids, and
      after them at most a trip of the scope settled in. */
  ghost predicate Commits(env: Env, policy: Policy, ev: Event, c: Chain, d: Chain, lines: seq<Line>, es: seq<Entry>)
    requires Drawn(ev)
  {
    && Batch(env, WRITING, c, es) == Ok(d) && WorkOf(es, lines) && |lines| <= 2
    && (forall i :: 0 <= i < |es| ==> es[i].version.V3?)
    && (forall i :: 0 <= i < |lines| ==> es[i].id == ev.first.ids[i])
    && (|es| > |lines| ==> Settles(c, ev.op).Some? && es[|lines|].scope == Settles(c, ev.op).value.0)
  }

  /** One that did not say so changed nothing, unless it tripped and refused. */
  lemma OtherwiseSame(env: Env, policy: Policy, ev: Event, stored: bool, was: (Chain, seq<Entry>),
                      now: (Chain, seq<Entry>), r: Answer)
    requires Drawn(ev) && Performed(env, policy, ev, stored, was, now, r)
    ensures r.NoChange? || r.Failed? || PlanOf(env, policy, was.0, ev.op).Refuse? ==> now == was
    ensures r.Refused? <==>
              PlanOf(env, policy, was.0, ev.op).Refuse?
              || (PlanOf(env, policy, was.0, ev.op).Deny? && !r.Failed?)
    ensures r.NoChange? <==> PlanOf(env, policy, was.0, ev.op).Nothing?
    ensures PlanOf(env, policy, was.0, ev.op).Refuse? ==> r == Refused(PlanOf(env, policy, was.0, ev.op).why)
  {
    hide PlanOf, Worked, Settles;
    PlanSize(env, policy, was.0, ev.op);
    assert was.1 + [] == was.1;
    if Perform(env, policy, was.0, ev).1 == [] { NoEntriesNoChange(env, policy, was.0, ev); }
  }

  // -- a few entries at a time ---------------------------------------------------------------------

  function M(e: Entry, x: Scope): int { if e.scope == x then Signed(e.direction, e.amount) else 0 }
  function S(e: Entry, x: Scope): int { if e.kind.Spend? && e.scope == x then e.amount else 0 }
  function R(e: Entry, x: Scope): int { if e.kind.Reversal? && e.scope == x then e.amount else 0 }

  function OpenWith(open: map<Id, Entry>, e: Entry): map<Id, Entry> {
    if e.kind.Hold? then open[e.id := e] else if e.kind.HoldVoid? && e.ref.Some? then open - {e.ref.value} else open
  }

  /** Two entries, and a trip after them or not. */
  lemma Sums(es: seq<Entry>, x: Scope)
    requires 1 <= |es| <= 3
    ensures Governance.Moved(es, x) == M(es[0], x) + (if |es| > 1 then M(es[1], x)
              else 0) + (if |es| > 2 then M(es[2], x) else 0)
    ensures SpentIn(es, x) == S(es[0], x) + (if |es| > 1 then S(es[1], x) else 0) + (if |es| > 2 then S(es[2], x)
              else 0)
    ensures RefundedIn(es, x) == R(es[0], x) + (if |es| > 1 then R(es[1], x) else 0) + (if |es| > 2 then R(es[2], x)
              else 0)
  {
    if |es| == 1 {
      assert es[..0] == [];
    } else {
      var init := es[..|es| - 1];
      Sums(init, x);
    }
  }

  lemma Opens(open: map<Id, Entry>, es: seq<Entry>)
    requires 1 <= |es| <= 3
    ensures OpenAfter(open, es)
         == (var a := OpenWith(open, es[0]); var b := if |es| > 1 then OpenWith(a, es[1])
               else a; if |es| > 2 then OpenWith(b, es[2]) else b)
  {
    if |es| == 1 { assert es[..0] == []; } else { Opens(open, es[..|es| - 1]); }
  }

  lemma GovernedBy(t: Tree, es: seq<Entry>)
    requires 1 <= |es| <= 3
    ensures |es| == 1 ==> Governs(t, es) == Govern(t, es[0])
    ensures |es| > 1 ==>
              Governs(t, es)
              == match Governs(t, es[..|es| - 1]) case Ok(u) => Govern(u, es[|es| - 1]) case Err(f) => Err(f)
  {
    hide Govern;
    if |es| == 1 { assert es[..0] == []; }
  }

  // -- the operations, one by one --------------------------------------------------------------------

  /** Every scope but one is as it was. */
  ghost predicate OthersSame(c: Chain, d: Chain, scope: Scope) {
    && (forall s :: s != scope ==> (s in d.tree.nodes.at <==> s in c.tree.nodes.at))
    && (forall s :: s != scope && s in c.tree.nodes.at ==> d.tree.nodes.at[s] == c.tree.nodes.at[s])
    && d.tree.tripped == c.tree.tripped
  }

  /** A single entry's commit, with nothing staged after it. */
  lemma Single(env: Env, policy: Policy, ev: Event, c: Chain, d: Chain, line: Line, es: seq<Entry>)
    requires Drawn(ev) && Commits(env, policy, ev, c, d, [line], es) && Settles(c, ev.op).None?
    ensures |es| == 1 && OfLine(es[0], line) && es[0].id == ev.first.ids[0] && Formed(es[0])
    ensures Govern(c.tree, es[0]) == Ok(d.tree) && d.holds.open.at == OpenWith(c.holds.open.at, es[0])
    ensures forall x :: Balance(d, x) == Balance(c, x) + M(es[0], x)
    ensures forall x :: Get(d.purse.spent, x) == Get(c.purse.spent, x) + S(es[0], x)
    ensures forall x :: Get(d.purse.refunded, x) == Get(c.purse.refunded, x) + R(es[0], x)
  {
    hide Batch, Balance, Govern, Formed, M, S, R, OpenWith, Settles;
    BatchEffect(env, c, es, d);
    assert es[..1][0] == es[0] && OfLine(es[0], line);
    hide Governance.Moved, SpentIn, RefundedIn, OpenAfter, Governs;
    forall x
      ensures Balance(d, x) == Balance(c, x) + M(es[0], x)
      ensures Get(d.purse.spent, x) == Get(c.purse.spent, x) + S(es[0], x)
      ensures Get(d.purse.refunded, x) == Get(c.purse.refunded, x) + R(es[0], x)
    {
      Sums(es, x);
    }
    Opens(c.holds.open.at, es);
    GovernedBy(c.tree, es);
  }

  ghost predicate RootSays(c: Chain, d: Chain, scope: Scope, amount: int, r: Answer) {
    var envelope := Credited(c.unit, amount);
    && (r.Refused? <==> envelope <= 0 || scope == "" || scope in c.tree.nodes.at)
    && (!r.Done? ==> d == c)
    && (r.Done? ==>
          && Moved(c, d, map[scope := envelope], map[], map[], c.holds.open.at) && OthersSame(c, d, scope)
          && scope in d.tree.nodes.at && d.tree.nodes.at[scope].parent.None?
                && d.tree.nodes.at[scope].allotted == envelope
          && d.tree.nodes.at[scope].children == [])
  }

  lemma RootDoes(env: Env, policy: Policy, ev: Event, stored: bool, was: (Chain, seq<Entry>), now: (Chain, seq<Entry>),
                 r: Answer)
    requires Drawn(ev) && ev.op.OpenRoot? && Performed(env, policy, ev, stored, was, now, r)
    ensures RootSays(was.0, now.0, ev.op.scope, ev.op.amount, r)
  {
    hide Performed, Commits, PlanOf, Credited, Balance, TreeKept;
    var c, d, op := was.0, now.0, ev.op;
    assert PlanOf(env, policy, c, op) == PlanRoot(c, op.scope, op.amount, op.memo)
             && Settles(c, op).None? by { RootPlan(env, policy, c, op); }
    OtherwiseSame(env, policy, ev, stored, was, now, r);
    if r.Done? {
      var es := WhatWasDone(env, policy, ev, stored, was, now, r);
      Single(env, policy, ev, c, d, PlanRoot(c, op.scope, op.amount, op.memo).lines[0], es);
    }
  }

  lemma RootPlan(env: Env, policy: Policy, c: Chain, op: Op)
    requires op.OpenRoot?
    ensures PlanOf(env, policy, c, op) == PlanRoot(c, op.scope, op.amount, op.memo) && Settles(c, op).None?
  {
    hide PlanRoot;
  }

  ghost predicate FundSays(c: Chain, d: Chain, scope: Scope, amount: int, r: Answer) {
    var credited := Credited(c.unit, amount);
    && (r.Refused? <==> credited <= 0 || scope !in c.tree.nodes.at || c.tree.nodes.at[scope].parent.Some?)
    && (!r.Done? ==> d == c)
    && (r.Done? ==>
          && Moved(c, d, map[scope := credited], map[], map[], c.holds.open.at) && OthersSame(c, d, scope)
          && scope in d.tree.nodes.at
                && d.tree.nodes.at[scope]
                      == c.tree.nodes.at[scope].(allotted := c.tree.nodes.at[scope].allotted + credited))
  }

  lemma FundDoes(env: Env, policy: Policy, ev: Event, stored: bool, was: (Chain, seq<Entry>), now: (Chain, seq<Entry>),
                 r: Answer)
    requires Drawn(ev) && ev.op.Fund? && Performed(env, policy, ev, stored, was, now, r)
    ensures FundSays(was.0, now.0, ev.op.scope, ev.op.amount, r)
  {
    hide Performed, Commits, PlanOf, Credited, Balance, TreeKept;
    var c, d, op := was.0, now.0, ev.op;
    assert PlanOf(env, policy, c, op) == PlanFund(c, op.scope, op.amount, op.memo)
             && Settles(c, op).None? by { FundPlan(env, policy, c, op); }
    OtherwiseSame(env, policy, ev, stored, was, now, r);
    if r.Done? {
      var es := WhatWasDone(env, policy, ev, stored, was, now, r);
      Single(env, policy, ev, c, d, PlanFund(c, op.scope, op.amount, op.memo).lines[0], es);
    }
  }

  lemma FundPlan(env: Env, policy: Policy, c: Chain, op: Op)
    requires op.Fund?
    ensures PlanOf(env, policy, c, op) == PlanFund(c, op.scope, op.amount, op.memo) && Settles(c, op).None?
  {
    hide PlanFund;
  }

  /** The tree after the lines, and the trip that may follow them. */
  ghost predicate TripsAtMost(t: Tree, u: Tree, scope: Scope) {
    u.nodes == t.nodes && u.roots == t.roots && (u == t || u.tripped.Keys == t.tripped.Keys + {scope})
  }

  /** Up to two lines' commit, with the trip a settlement may stage after them. */
  lemma Several(env: Env, policy: Policy, ev: Event, c: Chain, d: Chain, lines: seq<Line>, es: seq<Entry>)
    requires Drawn(ev) && Commits(env, policy, ev, c, d, lines, es)
    ensures 1 <= |lines| <= |es| && OfLine(es[0], lines[0]) && Formed(es[0])
    ensures |lines| == 2 ==> OfLine(es[1], lines[1]) && Formed(es[1])
    ensures forall x :: Balance(d, x) == Balance(c, x) + M(es[0], x) + if |lines| == 2 then M(es[1], x) else 0
    ensures forall x :: Get(d.purse.spent, x) == Get(c.purse.spent, x) + S(es[0], x) + if |lines| == 2 then S(es[1], x)
              else 0
    ensures forall x :: Get(d.purse.refunded, x) == Get(c.purse.refunded, x) + R(es[0], x) + if |lines| == 2
              then R(es[1], x) else 0
    ensures d.holds.open.at == if |lines| == 2 then OpenWith(OpenWith(c.holds.open.at, es[0]), es[1])
              else OpenWith(c.holds.open.at, es[0])
    ensures var u := Governs(c.tree, es[..|lines|]);
            u.Ok? && (if Settles(c, ev.op).Some? then TripsAtMost(u.value, d.tree, Settles(c, ev.op).value.0)
                  else d.tree == u.value)
  {
    hide Batch, Balance, Govern, Settles;
    var k := |lines|;
    BatchEffect(env, c, es, d);
    assert es[..k][0] == es[0] && OfLine(es[0], lines[0]);
    if k == 2 { assert es[..k][1] == es[1] && OfLine(es[1], lines[1]); }
    hide Governance.Moved, SpentIn, RefundedIn, OpenAfter, Governs;
    assert |es| > k ==> Formed(es[k]) && es[k].kind.CircuitTripped?;
    forall x
      ensures Balance(d, x) == Balance(c, x) + M(es[0], x) + if k == 2 then M(es[1], x) else 0
      ensures Get(d.purse.spent, x) == Get(c.purse.spent, x) + S(es[0], x) + if k == 2 then S(es[1], x) else 0
      ensures Get(d.purse.refunded, x) == Get(c.purse.refunded, x) + R(es[0], x) + if k == 2 then R(es[1], x) else 0
    {
      Sums(es, x);
    }
    Opens(c.holds.open.at, es);
    TreeOf(c.tree, d.tree, es, k);
  }

  lemma TreeOf(t: Tree, u: Tree, es: seq<Entry>, k: nat)
    requires 1 <= k <= |es| <= k + 1 && k <= 2 && Governs(t, es) == Ok(u) && (|es| > k ==> es[k].kind.CircuitTripped?)
    ensures Governs(t, es[..k]).Ok?
    ensures if |es| > k then TripsAtMost(Governs(t, es[..k]).value, u, es[k].scope) else u == Governs(t, es[..k]).value
  {
    if |es| > k {
      GovernedBy(t, es);
    } else {
      assert es[..k] == es;
    }
  }

  lemma TwoGoverned(t: Tree, es: seq<Entry>)
    requires |es| >= 2
    ensures Governs(t, es[..2]) == match Govern(t, es[0]) case Ok(u) => Govern(u, es[1]) case Err(f) => Err(f)
    ensures Governs(t, es[..1]) == Govern(t, es[0])
  {
    GovernsTwo(t, es[0], es[1]);
    hide Govern, Governs;
    assert es[..2] == [es[0], es[1]] && es[..1] == [es[0]];
  }

  lemma OneGoverned(t: Tree, es: seq<Entry>)
    requires |es| >= 1
    ensures Governs(t, es[..1]) == Govern(t, es[0])
  {
    GovernsTwo(t, es[0], es[0]);
    hide Govern, Governs;
    assert es[..1] == [es[0]];
  }

  // -- delegating and giving back -------------------------------------------------------------------

  ghost predicate DelegateSays(policy: Policy, c: Chain, d: Chain, parent: Scope, child: Scope, amount: int,
                               r: Answer) {
    var granted := Credited(c.unit, amount);
    && (r.Refused? <==>
          granted <= 0 || child == "" || parent !in c.tree.nodes.at || child in c.tree.nodes.at
                || Halted(c.tree, parent)
          || c.tree.nodes.at[parent].depth + 1 > policy.maxDepth || granted > Balance(c, parent))
    && (!r.Done? ==> d == c)
    && (r.Done? ==>
          && Moved(c, d, map[parent := -granted, child := granted], map[], map[], c.holds.open.at)
          && (forall s :: s != child ==> (s in d.tree.nodes.at <==> s in c.tree.nodes.at))
          && (forall s :: s != child && s != parent && s in c.tree.nodes.at
                ==> d.tree.nodes.at[s] == c.tree.nodes.at[s])
          && parent in c.tree.nodes.at && child in d.tree.nodes.at && d.tree.tripped == c.tree.tripped
          && (var p := c.tree.nodes.at[parent]; d.tree.nodes.at[parent] == p.(children := p.children + [child]))
          && (var n := d.tree.nodes.at[child];
              n.parent == Some(parent) && n.depth == c.tree.nodes.at[parent].depth + 1 && n.allotted == granted
                    && n.children == []))
  }

  lemma DelegateDoes(env: Env, policy: Policy, ev: Event, stored: bool, was: (Chain, seq<Entry>),
                     now: (Chain, seq<Entry>), r: Answer)
    requires Drawn(ev) && ev.op.Delegate? && Performed(env, policy, ev, stored, was, now, r)
    ensures DelegateSays(policy, was.0, now.0, ev.op.parent, ev.op.child, ev.op.amount, r)
  {
    hide Performed, Commits, PlanOf, Credited, Balance, Halted, Governs;
    var c, d, op := was.0, now.0, ev.op;
    assert PlanOf(env, policy, c, op) == PlanDelegate(policy, c, op.parent, op.child, op.amount, op.memo)
             && Settles(c, op).None?
      by { DelegatePlan(env, policy, c, op); }
    OtherwiseSame(env, policy, ev, stored, was, now, r);
    if r.Done? {
      var es := WhatWasDone(env, policy, ev, stored, was, now, r);
      var lines := PlanDelegate(policy, c, op.parent, op.child, op.amount, op.memo).lines;
      Several(env, policy, ev, c, d, lines, es);
      DelegateTree(c.tree, d.tree, es, lines);
    }
  }

  lemma DelegateTree(t: Tree, u: Tree, es: seq<Entry>, lines: seq<Line>)
    requires |lines| == 2 && |es| >= 2 && OfLine(es[0], lines[0]) && OfLine(es[1], lines[1])
               && Governs(t, es[..2]) == Ok(u)
    requires lines[0].kind.Allocation? && lines[0].direction.Debit? && lines[1].kind.Allocation?
               && lines[1].direction.Credit?
    requires lines[1].counterparty == Some(lines[0].scope) && lines[0].scope in t.nodes.at
               && lines[1].scope !in t.nodes.at
    ensures var parent, child := lines[0].scope, lines[1].scope;
            && (forall s :: s != child ==> (s in u.nodes.at <==> s in t.nodes.at))
            && (forall s :: s != child && s != parent && s in t.nodes.at ==> u.nodes.at[s] == t.nodes.at[s])
            && child in u.nodes.at && u.tripped == t.tripped
            && u.nodes.at[parent] == t.nodes.at[parent].(children := t.nodes.at[parent].children + [child])
            && u.nodes.at[child].parent == Some(parent) && u.nodes.at[child].depth == t.nodes.at[parent].depth + 1
            && u.nodes.at[child].allotted == lines[1].amount && u.nodes.at[child].children == []
  {
    hide Governs;
    TwoGoverned(t, es);
  }

  lemma DelegatePlan(env: Env, policy: Policy, c: Chain, op: Op)
    requires op.Delegate?
    ensures PlanOf(env, policy, c, op) == PlanDelegate(policy, c, op.parent, op.child, op.amount, op.memo)
              && Settles(c, op).None?
  {
    hide PlanDelegate;
  }

  ghost predicate GiveBackSays(c: Chain, d: Chain, scope: Scope, wanted: Option<int>, r: Answer) {
    var returned := if wanted.None? then Balance(c, scope) else Credited(c.unit, wanted.value);
    && (r.Refused? <==>
          scope !in c.tree.nodes.at || c.tree.nodes.at[scope].parent.None?
          || (returned > 0 && returned > Balance(c, scope)))
    && (r.NoChange? <==> scope in c.tree.nodes.at && c.tree.nodes.at[scope].parent.Some? && returned <= 0)
    && (!r.Done? ==> d == c)
    && (r.Done? ==>
          && scope in c.tree.nodes.at && c.tree.nodes.at[scope].parent.Some? && d.tree == c.tree
          && var parent := c.tree.nodes.at[scope].parent.value;
             Moved(c, d, map[scope := -returned, parent := returned], map[], map[], c.holds.open.at))
  }

  lemma GiveBackDoes(env: Env, policy: Policy, ev: Event, stored: bool, was: (Chain, seq<Entry>),
                     now: (Chain, seq<Entry>), r: Answer)
    requires Drawn(ev) && ev.op.GiveBack? && Performed(env, policy, ev, stored, was, now, r) && TreeKept(was.0.tree)
    ensures GiveBackSays(was.0, now.0, ev.op.scope, ev.op.wanted, r)
  {
    hide Performed, Commits, PlanOf, Credited, Balance, Governs, TreeKept;
    var c, d, op := was.0, now.0, ev.op;
    if op.scope in c.tree.nodes.at { NotOwnParent(c.tree, op.scope); }
    assert PlanOf(env, policy, c, op) == PlanGiveBack(c, op.scope, op.wanted, op.memo) && Settles(c, op).None?
      by { GiveBackPlan(env, policy, c, op); }
    OtherwiseSame(env, policy, ev, stored, was, now, r);
    if r.Done? {
      var es := WhatWasDone(env, policy, ev, stored, was, now, r);
      Several(env, policy, ev, c, d, PlanGiveBack(c, op.scope, op.wanted, op.memo).lines, es);
      TwoGoverned(c.tree, es);
    }
  }

  lemma NotOwnParent(t: Tree, s: Scope)
    requires TreeKept(t) && s in t.nodes.at
    ensures t.nodes.at[s].parent != Some(s)
  {
    assert NodeKept(t, s);
  }

  lemma GiveBackPlan(env: Env, policy: Policy, c: Chain, op: Op)
    requires op.GiveBack?
    ensures PlanOf(env, policy, c, op) == PlanGiveBack(c, op.scope, op.wanted, op.memo) && Settles(c, op).None?
  {
    hide PlanGiveBack;
  }

  // -- holds -----------------------------------------------------------------------------------------

  /** The trip behind an operation that tripped and refused. */
  lemma WhatWasDenied(env: Env, policy: Policy, ev: Event, stored: bool, was: (Chain, seq<Entry>),
                      now: (Chain, seq<Entry>), r: Answer, scope: Scope, reason: string, why: Why)
    requires Drawn(ev) && Performed(env, policy, ev, stored, was, now, r)
               && PlanOf(env, policy, was.0, ev.op) == Deny([Trips(scope, reason)], why) && !r.Failed?
    ensures r == Refused(why) && OnlyTrips(was.0, now.0, scope, reason)
  {
    hide Batch, Worked, PlanOf, WorkOf;
    var c, d, line := was.0, now.0, Trips(scope, reason);
    var es := Perform(env, policy, c, ev).1;
    assert Worked(env, policy, c, None, [line], ev).Ok?;
    WorkedParts(env, policy, c, None, [line], ev);
    WorkedVersions(env, policy, c, None, [line], ev);
    hide Perform, Performed;
    JustTrips(env, c, d, es, line);
  }

  /** Nothing but a scope's breaker changed, and it says why. */
  ghost predicate OnlyTrips(c: Chain, d: Chain, scope: Scope, reason: string) {
    && Moved(c, d, map[], map[], map[], c.holds.open.at)
    && d.tree.nodes == c.tree.nodes && d.tree.roots == c.tree.roots
          && d.tree.tripped.Keys == c.tree.tripped.Keys + {scope} && d.tree.tripped[scope].reason == reason
    && forall s :: s != scope && s in c.tree.tripped ==> d.tree.tripped[s] == c.tree.tripped[s]
  }

  lemma JustTrips(env: Env, c: Chain, d: Chain, es: seq<Entry>, line: Line)
    requires Batch(env, WRITING, c, es) == Ok(d) && WorkOf(es, [line]) && |es| == 1 && es[0].version.V3?
               && line.kind.CircuitTripped?
    ensures OnlyTrips(c, d, line.scope, line.memo)
  {
    hide Batch, Balance;
    BatchEffect(env, c, es, d);
    assert es[..1][0] == es[0] && OfLine(es[0], line);
    hide Governance.Moved, SpentIn, RefundedIn, OpenAfter, Governs;
    forall x
      ensures Balance(d, x) == Balance(c, x) && Get(d.purse.spent, x) == Get(c.purse.spent, x)
                && Get(d.purse.refunded, x) == Get(c.purse.refunded, x)
    {
      Sums(es, x);
    }
    Opens(c.holds.open.at, es);
    GovernedBy(c.tree, es);
  }

  ghost predicate AuthorizeSays(policy: Policy, c: Chain, d: Chain, scope: Scope, amount: int, trip: bool,
                                runaway: bool, id: Id, r: Answer) {
    var held := Charged(c.unit, amount);
    var barred := held <= 0 || scope !in c.tree.nodes.at || Halted(c.tree, scope);
    var trips := !barred && (runaway || (held > Balance(c, scope) && trip && policy.tripOnOverdraft));
    && (r.Done? ==>
          && !barred && !runaway && held <= Balance(c, scope) && d.tree == c.tree
          && Moved(c, d, map[scope := -held], map[], map[], d.holds.open.at)
          && id in d.holds.open.at && Key(d.holds.open.at[id]) == (scope, held)
                && d.holds.open.at == c.holds.open.at[id := d.holds.open.at[id]])
    && (r.Refused? ==> barred || runaway || held > Balance(c, scope))
    && (r.Refused? && trips ==> OnlyTrips(c, d, scope, if runaway then "runaway loop" else "overdraft attempt"))
    && (!r.Done? && !(r.Refused? && trips) ==> d == c)
    && (barred || (held > Balance(c, scope) && !trips) ==> r.Refused?)
  }

  lemma AuthorizeDoes(env: Env, policy: Policy, ev: Event, stored: bool, was: (Chain, seq<Entry>),
                      now: (Chain, seq<Entry>), r: Answer)
    requires Drawn(ev) && ev.op.Authorize? && Performed(env, policy, ev, stored, was, now, r)
    ensures AuthorizeSays(policy, was.0, now.0, ev.op.scope, ev.op.amount, ev.op.trip, ev.op.runaway, ev.first.ids[0],
              r)
  {
    hide Performed, Commits, PlanOf, Charged, Balance, Halted, Governs;
    var c, d, op := was.0, now.0, ev.op;
    var plan := PlanAuthorize(policy, c, op.scope, op.amount, op.memo, op.trip, op.runaway);
    assert PlanOf(env, policy, c, op) == plan && Settles(c, op).None? by { AuthorizePlan(env, policy, c, op); }
    OtherwiseSame(env, policy, ev, stored, was, now, r);
    if r.Done? {
      var es := WhatWasDone(env, policy, ev, stored, was, now, r);
      Single(env, policy, ev, c, d, plan.lines[0], es);
    } else if plan.Deny? && !r.Failed? {
      WhatWasDenied(env, policy, ev, stored, was, now, r, op.scope, plan.trip[0].memo, plan.why);
    }
  }

  lemma AuthorizePlan(env: Env, policy: Policy, c: Chain, op: Op)
    requires op.Authorize?
    ensures PlanOf(env, policy, c, op) == PlanAuthorize(policy, c, op.scope, op.amount, op.memo, op.trip, op.runaway)
              && Settles(c, op).None?
  {
    hide PlanAuthorize;
  }

  ghost predicate CaptureSays(c: Chain, d: Chain, id: Id, cost: int, r: Answer) {
    var settled := Charged(c.unit, cost);
    && (r.Refused? <==> settled < 0 || id !in c.holds.open.at)
    && (!r.Done? ==> d == c)
    && (r.Done? ==>
          && id in c.holds.open.at
          && var hold := c.holds.open.at[id];
             && Moved(c, d, map[hold.scope := hold.amount - settled], map[hold.scope := settled], map[],
                   c.holds.open.at - {id})
             && TripsAtMost(c.tree, d.tree, hold.scope)
                   && (settled > 0 && Balance(d, hold.scope) < 0 ==> hold.scope in d.tree.tripped))
  }

  lemma CaptureDoes(env: Env, policy: Policy, ev: Event, stored: bool, was: (Chain, seq<Entry>),
                    now: (Chain, seq<Entry>), r: Answer)
    requires Drawn(ev) && ev.op.Capture? && Performed(env, policy, ev, stored, was, now, r)
    ensures CaptureSays(was.0, now.0, ev.op.hold, ev.op.cost, r)
  {
    hide Performed, Commits, PlanOf, Charged, Balance, Governs, Perform;
    var c, d, op := was.0, now.0, ev.op;
    var plan := PlanCapture(c, op.hold, op.cost, op.memo);
    assert PlanOf(env, policy, c, op) == plan by { CapturePlan(env, policy, c, op); }
    OtherwiseSame(env, policy, ev, stored, was, now, r);
    if r.Done? {
      var es := WhatWasDone(env, policy, ev, stored, was, now, r);
      var hold := c.holds.open.at[op.hold];
      Several(env, policy, ev, c, d, plan.lines, es);
      SettlingTree(c.tree, es, plan.lines);
      if |plan.lines| == 2 {
        DoneIs(env, policy, ev, stored, was, now, r);
        SettledTrips(env, policy, c, ev, hold.scope);
      }
    }
  }

  /** Releasing and spending leave the tree as it is. */
  lemma SettlingTree(t: Tree, es: seq<Entry>, lines: seq<Line>)
    requires 1 <= |lines| <= 2 && |lines| <= |es| && OfLine(es[0], lines[0])
               && (|lines| == 2 ==> OfLine(es[1], lines[1]))
    requires Governs(t, es[..|lines|]).Ok?
    requires forall i :: 0 <= i < |lines| ==> lines[i].kind.HoldVoid? || lines[i].kind.Spend?
    ensures Governs(t, es[..|lines|]).value == t
  {
    hide Governs;
    if |lines| == 2 { TwoGoverned(t, es); } else { OneGoverned(t, es); }
  }

  lemma DoneIs(env: Env, policy: Policy, ev: Event, stored: bool, was: (Chain, seq<Entry>), now: (Chain, seq<Entry>),
               r: Answer)
    requires Drawn(ev) && Performed(env, policy, ev, stored, was, now, r) && r.Done?
    ensures Perform(env, policy, was.0, ev).0 == now.0 && Perform(env, policy, was.0, ev).1 != []
  {
    hide PlanOf, Perform;
  }

  lemma CapturePlan(env: Env, policy: Policy, c: Chain, op: Op)
    requires op.Capture?
    ensures PlanOf(env, policy, c, op) == PlanCapture(c, op.hold, op.cost, op.memo)
  {
    hide PlanCapture;
  }

  ghost predicate VoidSays(c: Chain, d: Chain, id: Id, r: Answer) {
    && (r.Refused? <==> id !in c.holds.open.at)
    && (!r.Done? ==> d == c)
    && (r.Done? ==>
          && id in c.holds.open.at && d.tree == c.tree
          && Moved(c, d, map[c.holds.open.at[id].scope := c.holds.open.at[id].amount], map[], map[],
                c.holds.open.at - {id}))
  }

  lemma VoidDoes(env: Env, policy: Policy, ev: Event, stored: bool, was: (Chain, seq<Entry>), now: (Chain, seq<Entry>),
                 r: Answer)
    requires Drawn(ev) && ev.op.VoidHold? && Performed(env, policy, ev, stored, was, now, r)
    ensures VoidSays(was.0, now.0, ev.op.hold, r)
  {
    hide Performed, Commits, PlanOf, Balance;
    var c, d, op := was.0, now.0, ev.op;
    assert PlanOf(env, policy, c, op) == PlanVoid(c, op.hold, op.memo)
             && Settles(c, op).None? by { VoidPlan(env, policy, c, op); }
    OtherwiseSame(env, policy, ev, stored, was, now, r);
    if r.Done? {
      var es := WhatWasDone(env, policy, ev, stored, was, now, r);
      Single(env, policy, ev, c, d, PlanVoid(c, op.hold, op.memo).lines[0], es);
    }
  }

  lemma VoidPlan(env: Env, policy: Policy, c: Chain, op: Op)
    requires op.VoidHold?
    ensures PlanOf(env, policy, c, op) == PlanVoid(c, op.hold, op.memo) && Settles(c, op).None?
  {
    hide PlanVoid;
  }

  // -- refunds and claims ----------------------------------------------------------------------------

  ghost predicate RefundSays(env: Env, c: Chain, d: Chain, scope: Scope, amount: int, reverses: Option<Id>, r: Answer) {
    var credited := Credited(c.unit, amount);
    && (r.Refused? <==>
          credited <= 0 || scope !in c.tree.nodes.at
                || (reverses.Some? && !SpendLeft(env, c, scope, reverses.value, credited))
          || Get(c.purse.refunded, scope) + credited > Get(c.purse.spent, scope))
    && (!r.Done? ==> d == c)
    && (r.Done? ==>
          d.tree == c.tree
          && Moved(c, d, map[scope := credited], map[], map[scope := credited], c.holds.open.at))
  }

  lemma RefundDoes(env: Env, policy: Policy, ev: Event, stored: bool, was: (Chain, seq<Entry>),
                   now: (Chain, seq<Entry>), r: Answer)
    requires Drawn(ev) && ev.op.Refund? && Performed(env, policy, ev, stored, was, now, r)
    ensures RefundSays(env, was.0, now.0, ev.op.scope, ev.op.amount, ev.op.reverses, r)
  {
    hide Performed, Commits, PlanOf, Balance, SpendLeft, Credited;
    var c, d, op := was.0, now.0, ev.op;
    var plan := PlanRefund(env, c, op.scope, op.amount, op.memo, op.reverses);
    assert PlanOf(env, policy, c, op) == plan && Settles(c, op).None? by { RefundPlan(env, policy, c, op); }
    OtherwiseSame(env, policy, ev, stored, was, now, r);
    if r.Done? {
      var es := WhatWasDone(env, policy, ev, stored, was, now, r);
      Single(env, policy, ev, c, d, plan.lines[0], es);
    }
  }

  lemma RefundPlan(env: Env, policy: Policy, c: Chain, op: Op)
    requires op.Refund?
    ensures PlanOf(env, policy, c, op) == PlanRefund(env, c, op.scope, op.amount, op.memo, op.reverses)
              && Settles(c, op).None?
  {
    hide PlanRefund;
  }

  ghost predicate RedeemSays(c: Chain, d: Chain, scope: Scope, claimed: Option<Id>, amount: int, r: Answer) {
    && (r.Refused? <==> scope !in c.tree.nodes.at)
    && (!r.Done? ==> d == c)
    && (r.Done? ==>
          && Moved(c, d, map[scope := Back(c, claimed) - Charge(amount)], map[scope := Charge(amount)], map[],
                OpenWithout(c, claimed))
          && TripsAtMost(c.tree, d.tree, scope)
          && (((claimed.Some? && claimed.value in c.holds.open.at) || amount != 0) && Balance(d, scope) < 0
          ==> scope in d.tree.tripped))
  }

  function Back(c: Chain, claimed: Option<Id>): int {
    if claimed.Some? && claimed.value in c.holds.open.at then c.holds.open.at[claimed.value].amount else 0
  }

  function Charge(amount: int): int { if amount > 0 then amount else 0 }

  function OpenWithout(c: Chain, claimed: Option<Id>): map<Id, Entry> {
    if claimed.Some? && claimed.value in c.holds.open.at then c.holds.open.at - {claimed.value} else c.holds.open.at
  }

  /** What a claim's one or two entries add up to. */
  lemma RedeemEntries(c: Chain, scope: Scope, claimed: Option<Id>, amount: int, memo: string, es: seq<Entry>, x: Scope)
    requires var p := PlanRedeem(c, scope, claimed, amount, memo); p.Lines? && 1 <= |p.lines| <= |es| && |p.lines| <= 2
    requires var ls := PlanRedeem(c, scope, claimed, amount, memo).lines;
               OfLine(es[0], ls[0])
               && (|ls| == 2 ==> OfLine(es[1], ls[1]))
    ensures var two := |PlanRedeem(c, scope, claimed, amount, memo).lines| == 2;
            && M(es[0], x) + (if two then M(es[1], x) else 0) == Get(map[scope := Back(c, claimed) - Charge(amount)], x)
            && S(es[0], x) + (if two then S(es[1], x) else 0) == Get(map[scope := Charge(amount)], x)
            && R(es[0], x) + (if two then R(es[1], x) else 0) == 0
            && (if two then OpenWith(OpenWith(c.holds.open.at, es[0]), es[1]) else OpenWith(c.holds.open.at, es[0]))
                  == OpenWithout(c, claimed)
  {
  }

  lemma RedeemTree(c: Chain, scope: Scope, claimed: Option<Id>, amount: int, memo: string, es: seq<Entry>)
    requires var p := PlanRedeem(c, scope, claimed, amount, memo); p.Lines? && 1 <= |p.lines| <= |es| && |p.lines| <= 2
    requires var ls := PlanRedeem(c, scope, claimed, amount, memo).lines;
               OfLine(es[0], ls[0])
               && (|ls| == 2 ==> OfLine(es[1], ls[1]))
    requires Governs(c.tree, es[..|PlanRedeem(c, scope, claimed, amount, memo).lines|]).Ok?
    ensures Governs(c.tree, es[..|PlanRedeem(c, scope, claimed, amount, memo).lines|]).value == c.tree
  {
    hide Governs;
    if |PlanRedeem(c, scope, claimed, amount, memo).lines| == 2 { TwoGoverned(c.tree, es); }
          else { OneGoverned(c.tree, es); }
  }

  lemma RedeemDoes(env: Env, policy: Policy, ev: Event, stored: bool, was: (Chain, seq<Entry>),
                   now: (Chain, seq<Entry>), r: Answer)
    requires Drawn(ev) && ev.op.Redeem? && Performed(env, policy, ev, stored, was, now, r)
    ensures RedeemSays(was.0, now.0, ev.op.scope, ev.op.claimed, ev.op.amount, r)
  {
    hide Performed, Commits, PlanOf, Balance, Governs, Perform, PlanRedeem, M, S, R, OpenWith, OfLine, Formed;
    var c, d, op := was.0, now.0, ev.op;
    var plan := PlanRedeem(c, op.scope, op.claimed, op.amount, op.memo);
    assert PlanOf(env, policy, c, op) == plan by { RedeemPlan(env, policy, c, op); }
    OtherwiseSame(env, policy, ev, stored, was, now, r);
    RedeemRefused(c, op.scope, op.claimed, op.amount, op.memo);
    if r.Done? {
      var es := WhatWasDone(env, policy, ev, stored, was, now, r);
      RedeemDone(env, policy, ev, c, d, es);
      DoneIs(env, policy, ev, stored, was, now, r);
      hide Moved;
      if Settles(c, op).Some? { SettledTrips(env, policy, c, ev, op.scope); }
    }
  }

  lemma RedeemDone(env: Env, policy: Policy, ev: Event, c: Chain, d: Chain, es: seq<Entry>)
    requires Drawn(ev) && ev.op.Redeem? && PlanRedeem(c, ev.op.scope, ev.op.claimed, ev.op.amount, ev.op.memo).Lines?
    requires Commits(env, policy, ev, c, d, PlanRedeem(c, ev.op.scope, ev.op.claimed, ev.op.amount, ev.op.memo).lines,
               es)
    ensures var op := ev.op;
            && Moved(c, d, map[op.scope := Back(c, op.claimed) - Charge(op.amount)],
                  map[op.scope := Charge(op.amount)], map[], OpenWithout(c, op.claimed))
            && TripsAtMost(c.tree, d.tree, op.scope)
  {
    hide Commits, Balance, Governs, PlanRedeem, M, S, R, OpenWith, OfLine, Formed, Back, Charge, OpenWithout;
    var op := ev.op;
    RedeemRefused(c, op.scope, op.claimed, op.amount, op.memo);
    Several(env, policy, ev, c, d, PlanRedeem(c, op.scope, op.claimed, op.amount, op.memo).lines, es);
    RedeemTree(c, op.scope, op.claimed, op.amount, op.memo, es);
    RedeemEntries(c, op.scope, op.claimed, op.amount, op.memo, es, op.scope);
    hide Get;
    forall x
      ensures Balance(d, x) == Balance(c, x) + Get(map[op.scope := Back(c, op.claimed) - Charge(op.amount)], x)
      ensures Get(d.purse.spent, x) == Get(c.purse.spent, x) + Get(map[op.scope := Charge(op.amount)], x)
      ensures Get(d.purse.refunded, x) == Get(c.purse.refunded, x) + Get(map[], x)
    {
      RedeemEntries(c, op.scope, op.claimed, op.amount, op.memo, es, x);
      NothingThere(x);
    }
  }

  lemma NothingThere(x: Scope)
    ensures Get(map[], x) == 0
  {
  }

  lemma RedeemRefused(c: Chain, scope: Scope, claimed: Option<Id>, amount: int, memo: string)
    ensures var p := PlanRedeem(c, scope, claimed, amount, memo);
            (p.Refuse? <==> scope !in c.tree.nodes.at) && !p.Deny? && !p.Nothing? && (p.Lines? ==> |p.lines| <= 2)
  {
  }

  lemma RedeemPlan(env: Env, policy: Policy, c: Chain, op: Op)
    requires op.Redeem?
    ensures PlanOf(env, policy, c, op) == PlanRedeem(c, op.scope, op.claimed, op.amount, op.memo)
  {
    hide PlanRedeem;
  }

  // -- anchors and the breaker -------------------------------------------------------------------------

  ghost predicate AnchorSays(c: Chain, d: Chain, scope: Scope, memo: string, r: Answer) {
    && (r.Refused? <==> memo == "" || scope !in c.tree.nodes.at)
    && (!r.Done? ==> d == c)
    && (r.Done? ==>
          d.tree == c.tree && Moved(c, d, map[], map[], map[], c.holds.open.at)
          && d.tip.length == c.tip.length + 1)
  }

  lemma AnchorDoes(env: Env, policy: Policy, ev: Event, stored: bool, was: (Chain, seq<Entry>),
                   now: (Chain, seq<Entry>), r: Answer)
    requires Drawn(ev) && ev.op.AnchorIn? && Performed(env, policy, ev, stored, was, now, r)
    ensures AnchorSays(was.0, now.0, ev.op.scope, ev.op.memo, r)
  {
    hide Performed, Commits, PlanOf, Balance;
    var c, d, op := was.0, now.0, ev.op;
    assert PlanOf(env, policy, c, op) == PlanAnchor(c, op.scope, op.memo)
             && Settles(c, op).None? by { AnchorPlan(env, policy, c, op); }
    OtherwiseSame(env, policy, ev, stored, was, now, r);
    if r.Done? {
      var es := WhatWasDone(env, policy, ev, stored, was, now, r);
      Longer(env, policy, ev, c, d, PlanAnchor(c, op.scope, op.memo).lines, es);
      Single(env, policy, ev, c, d, PlanAnchor(c, op.scope, op.memo).lines[0], es);
    }
  }

  lemma Longer(env: Env, policy: Policy, ev: Event, c: Chain, d: Chain, lines: seq<Line>, es: seq<Entry>)
    requires Drawn(ev) && Commits(env, policy, ev, c, d, lines, es)
    ensures d.tip.length == c.tip.length + |es|
  {
    hide Steps;
    Stores.StepsLength(env, WRITING, Over(c), es);
  }

  lemma AnchorPlan(env: Env, policy: Policy, c: Chain, op: Op)
    requires op.AnchorIn?
    ensures PlanOf(env, policy, c, op) == PlanAnchor(c, op.scope, op.memo) && Settles(c, op).None?
  {
    hide PlanAnchor;
  }

  /** A trip latches a scope, a reset unlatches it; one already so is left as it is. */
  ghost predicate ControlSays(c: Chain, d: Chain, scope: Scope, memo: string, trip: bool, r: Answer) {
    && (r.Refused? <==> (!trip && memo == "") || scope !in c.tree.nodes.at)
    && (r.NoChange? <==> (trip || memo != "") && scope in c.tree.nodes.at && trip == (scope in c.tree.tripped))
    && (!r.Done? ==> d == c)
    && (r.Done? ==>
          && Moved(c, d, map[], map[], map[], c.holds.open.at) && d.tree.nodes == c.tree.nodes
                && d.tree.roots == c.tree.roots
          && d.tree.tripped.Keys == (if trip then c.tree.tripped.Keys + {scope} else c.tree.tripped.Keys - {scope})
          && (trip ==> d.tree.tripped[scope].reason == memo)
          && (forall s :: s != scope && s in c.tree.tripped ==> d.tree.tripped[s] == c.tree.tripped[s]))
  }

  lemma ControlDoes(env: Env, policy: Policy, ev: Event, stored: bool, was: (Chain, seq<Entry>),
                    now: (Chain, seq<Entry>), r: Answer)
    requires Drawn(ev) && (ev.op.TripScope? || ev.op.ResetScope?) && Performed(env, policy, ev, stored, was, now, r)
    ensures var op := ev.op; ControlSays(was.0, now.0, op.scope, if op.TripScope? then op.reason
              else op.memo, op.TripScope?, r)
  {
    hide Performed, Commits, PlanOf, Balance;
    var c, d, op := was.0, now.0, ev.op;
    var plan := PlanControl(c, op.scope, if op.TripScope? then op.reason else op.memo, op.TripScope?);
    assert PlanOf(env, policy, c, op) == plan && Settles(c, op).None? by { ControlPlan(env, policy, c, op); }
    OtherwiseSame(env, policy, ev, stored, was, now, r);
    if r.Done? {
      var es := WhatWasDone(env, policy, ev, stored, was, now, r);
      Single(env, policy, ev, c, d, plan.lines[0], es);
    }
  }

  lemma ControlPlan(env: Env, policy: Policy, c: Chain, op: Op)
    requires op.TripScope? || op.ResetScope?
    ensures PlanOf(env, policy, c, op) == PlanControl(c, op.scope, if op.TripScope? then op.reason
              else op.memo, op.TripScope?) && Settles(c, op).None?
  {
    hide PlanControl;
  }
}
