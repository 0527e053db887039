/**
 What a run of the governor's operations keeps: every commit has one of a few shapes,
 every subtree is worth what it was allotted less what it gave back, nothing is
 overdrawn unless a settlement overruns its hold, and a tripped scope stays halted.
 */
module Governance {
  import opened Vocabulary
  import opened Dicts
  import opened Engine
  import opened Replays
  import opened Laws
  import opened Trees
  import opened Posts
  import opened Managers
  import opened Subtrees
  import opened Stores

  // -- a unit of work is a batch --------------------------------------------------------

  /** An entry that says what a line asked for. */
  predicate OfLine(e: Entry, line: Line) {
    && e.kind == line.kind && e.direction == line.direction && e.scope == line.scope
    && e.counterparty == line.counterparty && e.amount == line.amount && e.ref == line.ref && e.version == V3
    && e.memo == line.memo
  }

  ghost predicate OfLines(entries: seq<Entry>, lines: seq<Line>) {
    |entries| == |lines| && forall i :: 0 <= i < |lines| ==> OfLine(entries[i], lines[i])
  }

  lemma {:induction false} DraftsAreOfLines(env: Env, c: Chain, stamp: Stamp, lines: seq<Line>)
    requires |lines| <= |stamp.ids|
    ensures OfLines(Drafts(env, c, stamp, lines).entries, lines)
  {
    if |lines| > 0 {
      DraftsAreOfLines(env, c, stamp, lines[..|lines| - 1]);
    }
  }

  lemma PostLinesParts(env: Env, v: View, stamp: Stamp, lines: seq<Line>)
    requires |lines| <= |stamp.ids| && PostLines(env, v, stamp, lines).Ok?
    ensures var (w, entries) := PostLines(env, v, stamp, lines).value;
            PostOne(env, v, entries) == Ok(w) && OfLines(entries, lines) && lines != []
  {
    hide PostOne, LineRule, Drafts, OfLines;
    DraftsAreOfLines(env, v.c, stamp, lines);
  }

  /** The entries of a unit of work: its lines, then the trip it may have staged. */
  ghost predicate WorkOf(entries: seq<Entry>, lines: seq<Line>) {
    && |lines| > 0 && |lines| <= |entries| <= |lines| + 1
    && OfLines(entries[..|lines|], lines)
    && (|entries| > |lines| ==> var e := entries[|lines|]; e.kind.CircuitTripped? && e.amount == 0)
  }

  lemma WorkedParts(env: Env, policy: Policy, c: Chain, settles: Option<(Scope, bool)>, lines: seq<Line>, ev: Event)
    requires Drawn(ev) && |lines| <= 2 && Worked(env, policy, c, settles, lines, ev).Ok?
    ensures var (d, entries) := Worked(env, policy, c, settles, lines, ev).value;
            Batch(env, WRITING, c, entries) == Ok(d) && WorkOf(entries, lines)
  {
    hide PostLines, Batch, Over, Merged, Exhausted;
    var (v, main) := PostLines(env, Over(c), ev.first, lines).value;
    PostLinesParts(env, Over(c), ev.first, lines);
    var trip := Aftermath(policy, settles, v.c);
    if trip == [] {
      OnePost(env, c, main, v);
      assert main[..|lines|] == main;
    } else {
      var (w, more) := PostLines(env, v, ev.second, trip).value;
      PostLinesParts(env, v, ev.second, trip);
      TwoPosts(env, c, main, v, more, w);
      assert (main + more)[..|lines|] == main;
    }
  }

  lemma OnePost(env: Env, c: Chain, a: seq<Entry>, v: View)
    requires PostOne(env, Over(c), a) == Ok(v)
    ensures Batch(env, WRITING, c, a) == Ok(Merged(env, v))
  {
    hide Steps, Over, Merged, End;
    assert [a][..0] == [] && Flat([]) == [] && Flat([a]) == [] + a == a;
    assert PostAll(env, Over(c), []) == Ok(Over(c));
    assert PostAll(env, Over(c), [a]) == Ok(v);
    PostsAreOneBatch(env, c, [a]);
  }

  lemma TwoPosts(env: Env, c: Chain, a: seq<Entry>, v: View, b: seq<Entry>, w: View)
    requires PostOne(env, Over(c), a) == Ok(v) && PostOne(env, v, b) == Ok(w)
    ensures Batch(env, WRITING, c, a + b) == Ok(Merged(env, w))
  {
    hide PostOne, Over, Merged, Batch;
    assert [a][..0] == [] && [a, b][..1] == [a];
    assert Flat([]) == [] && Flat([a]) == [] + a == a && Flat([a, b]) == a + b;
    assert PostAll(env, Over(c), []) == Ok(Over(c));
    assert PostAll(env, Over(c), [a]) == Ok(v);
    assert PostAll(env, Over(c), [a, b]) == Ok(w);
    PostsAreOneBatch(env, c, [a, b]);
  }

  /** What an operation that wrote something planned. */
  lemma PerformParts(env: Env, policy: Policy, c: Chain, ev: Event) returns (lines: seq<Line>)
    requires Drawn(ev) && Perform(env, policy, c, ev).1 != []
    ensures var (d, entries) := Perform(env, policy, c, ev);
            Batch(env, WRITING, c, entries) == Ok(d) && WorkOf(entries, lines)
    ensures PlanOf(env, policy, c, ev.op) == Lines(lines)
         || exists why :: PlanOf(env, policy, c, ev.op) == Deny(lines, why)
  {
    hide Batch, Worked, WorkOf, PlanOf, Settles;
    PlanSize(env, policy, c, ev.op);
    var plan := PlanOf(env, policy, c, ev.op);
    lines := if plan.Deny? then plan.trip else plan.lines;
    WorkedParts(env, policy, c, if plan.Deny? then None else Settles(c, ev.op), lines, ev);
  }

  /** A run of operations is a run of posts: every rule a replay enforces holds of it. */
  lemma {:induction false} RunIsPosted(env: Env, policy: Policy, unit: Unit, events: seq<Event>)
    requires forall i :: 0 <= i < |events| ==> Drawn(events[i])
    ensures var g := RunOps(env, policy, unit, events); Posted(env, EmptyChain(unit), g.batches) == Ok(g.c)
  {
    hide Perform, Batch;
    if |events| > 0 {
      var init, ev := events[..|events| - 1], events[|events| - 1];
      RunIsPosted(env, policy, unit, init);
      var before := RunOps(env, policy, unit, init);
      var at := Writing(env, Flat(before.batches));
      if Perform(at, policy, before.c, ev).1 != [] {
        var lines := PerformParts(at, policy, before.c, ev);
        var all := before.batches + [Perform(at, policy, before.c, ev).1];
        assert all[..|all| - 1] == before.batches;
      }
    }
  }

  // -- the shapes of commits ----------------------------------------------------------------

  ghost predicate Trailing(entries: seq<Entry>, from: nat) {
    forall i :: from <= i < |entries| ==> entries[i].kind.CircuitTripped?
  }

  /** A release of an open hold, then perhaps the spend that settles it. */
  ghost predicate Settling(c: Chain, es: seq<Entry>)
    requires |es| > 0
  {
    && es[0].version.V3? && es[0].ref.Some? && es[0].ref.value in c.holds.open.at
          && c.holds.open.at[es[0].ref.value].amount == es[0].amount
    && if |es| > 1 && es[1].kind.Spend? then es[1].ref == es[0].ref && es[1].scope == es[0].scope && Trailing(es, 2)
       else Trailing(es, 1)
  }

  /** What an operation commits, by its first entry, on the state it found. */
  ghost predicate Shape(c: Chain, es: seq<Entry>) {
    && |es| > 0
    && match es[0].kind
       case Funding => Trailing(es, 1)
       case Allocation => |es| >= 2 && Delegation(es[0], es[1]) && Trailing(es, 2)
                          && es[0].amount <= Balance(c, es[0].scope) && !Halted(c.tree, es[0].scope)
       case Release => |es| >= 2 && Return(es[0], es[1]) && Trailing(es, 2) && es[0].amount <= Balance(c, es[0].scope)
       case Hold => Trailing(es, 1) && es[0].amount <= Balance(c, es[0].scope) && !Halted(c.tree, es[0].scope)
       case HoldVoid => Settling(c, es)
       case Spend => Trailing(es, 1) && es[0].ref.None?
       case Reversal => Trailing(es, 1)
       case CircuitTripped | CircuitReset | Anchor => Trailing(es, 1)
       case Seal | Checkpoint => false
  }

  /** The same, of the lines. */
  ghost predicate LineShape(c: Chain, ls: seq<Line>) {
    && 0 < |ls| <= 2
    && match ls[0].kind
       case Allocation =>
         && |ls| == 2 && ls[0].direction.Debit? && ls[1].kind.Allocation? && ls[1].direction.Credit?
         && ls[1].counterparty == Some(ls[0].scope) && ls[0].counterparty == Some(ls[1].scope)
         && ls[0].amount == ls[1].amount && ls[0].scope != ls[1].scope
         && ls[0].amount <= Balance(c, ls[0].scope) && !Halted(c.tree, ls[0].scope)
       case Release =>
         && |ls| == 2 && ls[0].direction.Debit? && ls[1].kind.Release? && ls[1].direction.Credit?
         && ls[1].counterparty == Some(ls[0].scope) && ls[0].counterparty == Some(ls[1].scope)
         && ls[0].amount == ls[1].amount && ls[0].amount <= Balance(c, ls[0].scope)
       case Hold => |ls| == 1 && ls[0].amount <= Balance(c, ls[0].scope) && !Halted(c.tree, ls[0].scope)
       case HoldVoid =>
         && ls[0].ref.Some? && ls[0].ref.value in c.holds.open.at
               && c.holds.open.at[ls[0].ref.value].amount == ls[0].amount
         && (|ls| == 2 ==> ls[1].kind.Spend? && ls[1].ref == ls[0].ref && ls[1].scope == ls[0].scope)
       case Spend => |ls| == 1 && ls[0].ref.None?
       case Seal | Checkpoint => false
       case _ => |ls| == 1
  }

  lemma PlanShape(env: Env, policy: Policy, c: Chain, op: Op)
    requires var p := PlanOf(env, policy, c, op); p.Lines? && p.lines != []
    ensures LineShape(c, PlanOf(env, policy, c, op).lines)
  {
    hide Halted, Charged, Credited, SpendLeft, Balance;
  }

  lemma DenyShape(env: Env, policy: Policy, c: Chain, op: Op)
    requires PlanOf(env, policy, c, op).Deny?
    ensures LineShape(c, PlanOf(env, policy, c, op).trip)
  {
    hide Halted, Charged, Credited, SpendLeft, Balance;
  }

  lemma WorkShape(c: Chain, ls: seq<Line>, es: seq<Entry>)
    requires LineShape(c, ls) && WorkOf(es, ls)
    ensures Shape(c, es)
  {
    hide Halted, Balance;
    assert es[..|ls|][0] == es[0] && OfLine(es[0], ls[0]);
    if |ls| == 2 { assert es[..|ls|][1] == es[1] && OfLine(es[1], ls[1]); }
  }

  lemma PerformShape(env: Env, policy: Policy, c: Chain, ev: Event)
    requires Drawn(ev) && Perform(env, policy, c, ev).1 != []
    ensures Batch(env, WRITING, c, Perform(env, policy, c, ev).1) == Ok(Perform(env, policy, c, ev).0)
    ensures Shape(c, Perform(env, policy, c, ev).1)
  {
    hide Perform, Batch, PlanOf, Shape, LineShape;
    var lines := PerformParts(env, policy, c, ev);
    var plan := PlanOf(env, policy, c, ev.op);
    if plan.Lines? { PlanShape(env, policy, c, ev.op); } else { DenyShape(env, policy, c, ev.op); }
    WorkShape(c, lines, Perform(env, policy, c, ev).1);
  }

  // -- the tree of a batch ----------------------------------------------------------------

  function Governs(t: Tree, es: seq<Entry>): Result<Tree> {
    if |es| == 0 then Ok(t)
    else
      var u :- Governs(t, es[..|es| - 1]);
      Govern(u, es[|es| - 1])
  }

  /** A positive amount in a legal direction, or none at all. */
  predicate Formed(e: Entry) {
    LegalDirection(e.kind, e.direction) && (if ZeroValue(e.kind) then e.amount == 0 else e.amount > 0)
  }

  lemma {:induction false} StepsGovern(env: Env, mode: Mode, v: View, es: seq<Entry>)
    requires Steps(env, mode, v, es).Ok?
    ensures Governs(v.c.tree, es) == Ok(Steps(env, mode, v, es).value.c.tree)
    ensures forall i :: 0 <= i < |es| ==> Formed(es[i])
  {
    hide Step, Govern;
    if |es| > 0 {
      var init, e := es[..|es| - 1], es[|es| - 1];
      StepsGovern(env, mode, v, init);
      var w := Steps(env, mode, v, init).value;
      StepTree(env, mode, w, e);
      StepForm(env, mode, w, e);
      var txn := StepParts(env, mode, w, e);
    }
  }

  lemma BatchGoverns(env: Env, c: Chain, es: seq<Entry>, d: Chain)
    requires Batch(env, WRITING, c, es) == Ok(d)
    ensures Governs(c.tree, es) == Ok(d.tree) && forall i :: 0 <= i < |es| ==> Formed(es[i])
  {
    hide Steps, Governs;
    StepsGovern(env, WRITING, Over(c), es);
  }

  lemma {:induction false} GovernsKeep(t: Tree, es: seq<Entry>)
    requires TreeKept(t) && Governs(t, es).Ok? && forall i :: 0 <= i < |es| ==> Formed(es[i])
    ensures TreeKept(Governs(t, es).value)
  {
    hide Govern, TreeKept;
    if |es| > 0 {
      GovernsKeep(t, es[..|es| - 1]);
      GovernKeeps(Governs(t, es[..|es| - 1]).value, es[|es| - 1]);
    }
  }

  lemma {:induction false} GovernsAppend(t: Tree, a: seq<Entry>, b: seq<Entry>)
    ensures Governs(t, a + b) == match Governs(t, a) case Ok(u) => Governs(u, b) case Err(f) => Err(f)
  {
    hide Govern;
    if |b| == 0 {
      assert a + b == a;
    } else {
      var ab := a + b;
      assert ab[..|ab| - 1] == a + b[..|b| - 1];
      GovernsAppend(t, a, b[..|b| - 1]);
    }
  }

  lemma GovernsTwo(t: Tree, a: Entry, b: Entry)
    ensures Governs(t, [a]) == Govern(t, a)
    ensures Governs(t, [a, b]) == match Govern(t, a) case Ok(u) => Govern(u, b) case Err(f) => Err(f)
  {
    hide Govern;
    assert [a][..0] == [] && [a, b][..1] == [a];
  }

  // -- subtrees -------------------------------------------------------------------------------

  predicate Grants(e: Entry) { e.kind.Funding? || Balanced(e.kind) }

  lemma {:induction false} LawEach(t: Tree, u: Tree, entries: seq<Entry>, es: seq<Entry>)
    requires SubtreeLaw(t, entries) && Governs(t, es) == Ok(u) && forall i :: 0 <= i < |es| ==> !Grants(es[i])
    ensures SubtreeLaw(u, entries + es)
    decreases |es|
  {
    hide SubtreeLaw;
    if |es| == 0 {
      assert entries + es == entries;
    } else {
      var init, e := es[..|es| - 1], es[|es| - 1];
      var w := Governs(t, init).value;
      LawEach(t, w, entries, init);
      LawOne(w, u, entries + init, e);
      assert entries + init + [e] == entries + es;
    }
  }

  lemma LawOne(t: Tree, u: Tree, entries: seq<Entry>, e: Entry)
    requires SubtreeLaw(t, entries) && Govern(t, e) == Ok(u) && !Grants(e)
    ensures SubtreeLaw(u, entries + [e])
  {
    SameScopes(t, u, e);
    KeptTree(t, entries);
    GovernKeeps(t, e);
    hide SubtreeLaw, Govern;
    LawStays(t, u, entries, e);
  }

  lemma KeptTree(t: Tree, entries: seq<Entry>)
    requires SubtreeLaw(t, entries)
    ensures TreeKept(t)
  {
  }

  lemma SameScopes(t: Tree, u: Tree, e: Entry)
    requires Govern(t, e) == Ok(u) && !Grants(e)
    ensures u.nodes == t.nodes
  {
  }

  lemma LawFunding(t: Tree, u: Tree, entries: seq<Entry>, e: Entry)
    requires SubtreeLaw(t, entries) && Govern(t, e) == Ok(u) && e.kind.Funding? && Formed(e)
    ensures SubtreeLaw(u, entries + [e])
  {
    hide SubtreeLaw, Engine.Fund;
    if e.scope in t.nodes.at { LawFund(t, u, entries, e); } else { LawOpen(t, u, entries, e); }
  }

  /** The part of a commit that moves money between scopes. */
  lemma LawPair(t: Tree, u: Tree, entries: seq<Entry>, d: Entry, e: Entry)
    requires SubtreeLaw(t, entries) && Governs(t, [d, e]) == Ok(u) && (Delegation(d, e) || Return(d, e))
    ensures SubtreeLaw(u, entries + [d, e])
  {
    GovernsTwo(t, d, e);
    hide SubtreeLaw, Governs;
    assert entries + [d] + [e] == entries + [d, e];
    if Delegation(d, e) {
      LawDelegate(t, u, entries, d, e);
    } else {
      LawReturn(t, entries, d, e);
    }
  }

  /** Every commit of an operation keeps the law of every subtree. */
  lemma LawBatch(c: Chain, u: Tree, entries: seq<Entry>, es: seq<Entry>)
    requires SubtreeLaw(c.tree, entries) && Governs(c.tree, es) == Ok(u) && Shape(c, es)
    requires forall i :: 0 <= i < |es| ==> Formed(es[i])
    ensures SubtreeLaw(u, entries + es)
  {
    hide SubtreeLaw, Governs, Govern, Delegation, Return, Halted, Balance, Formed;
    if es[0].kind.Funding? {
      var tail := es[1..];
      assert es == [es[0]] + tail;
      GovernsAppend(c.tree, [es[0]], tail);
      GovernsTwo(c.tree, es[0], es[0]);
      var w := Governs(c.tree, [es[0]]).value;
      LawFunding(c.tree, w, entries, es[0]);
      LawEach(w, u, entries + [es[0]], tail);
      assert entries + [es[0]] + tail == entries + es;
    } else if Balanced(es[0].kind) {
      var head, tail := [es[0], es[1]], es[2..];
      assert es == head + tail;
      GovernsAppend(c.tree, head, tail);
      var w := Governs(c.tree, head).value;
      LawPair(c.tree, w, entries, es[0], es[1]);
      LawEach(w, u, entries + head, tail);
      assert entries + head + tail == entries + es;
    } else {
      LawEach(c.tree, u, entries, es);
    }
  }

  lemma NoLaw(unit: Unit)
    ensures SubtreeLaw(EmptyChain(unit).tree, [])
  {
  }

  lemma FlatLast(batches: seq<seq<Entry>>, es: seq<Entry>)
    ensures Flat(batches + [es]) == Flat(batches) + es
  {
    var all := batches + [es];
    assert all[..|all| - 1] == batches;
  }

  lemma {:induction false} RunKeepsSubtrees(env: Env, policy: Policy, unit: Unit, events: seq<Event>)
    requires forall i :: 0 <= i < |events| ==> Drawn(events[i])
    ensures var g := RunOps(env, policy, unit, events); SubtreeLaw(g.c.tree, Flat(g.batches))
  {
    hide Perform, SubtreeLaw, Shape, Batch, Governs;
    if |events| == 0 {
      NoLaw(unit);
    } else {
      var init, ev := events[..|events| - 1], events[|events| - 1];
      RunKeepsSubtrees(env, policy, unit, init);
      var before := RunOps(env, policy, unit, init);
      var at := Writing(env, Flat(before.batches));
      var (d, es) := Perform(at, policy, before.c, ev);
      if es != [] {
        PerformShape(at, policy, before.c, ev);
        BatchGoverns(at, before.c, es, d);
        LawBatch(before.c, d.tree, Flat(before.batches), es);
        FlatLast(before.batches, es);
      }
    }
  }

  // -- from grants to money -----------------------------------------------------------------------

  /** What a set of scopes is worth together: available, held, spent and not refunded. */
  ghost function WorthOf(order: seq<Scope>, inside: set<Scope>, c: Chain): int {
    if |order| == 0 then 0
    else
      var k := order[|order| - 1];
      WorthOf(order[..|order| - 1], inside, c) + if k in inside then Worth(c.purse, c.holds, k) else 0
  }

  lemma {:induction false} WorthIsGranted(order: seq<Scope>, inside: set<Scope>, c: Chain, entries: seq<Entry>)
    requires forall s :: Worth(c.purse, c.holds, s) == Granted(entries, s)
    ensures WorthOf(order, inside, c) == Total(order, inside, entries)
  {
    hide Worth;
    if |order| > 0 {
      WorthIsGranted(order[..|order| - 1], inside, c, entries);
    }
  }

  ghost predicate Hashed(env: Env, entries: seq<Entry>) {
    forall i :: 0 <= i < |entries| ==> env.digest(entries[i]) == entries[i].hash
  }

  /** Posting is replayed: the state an accepted run left is the replay of its entries. */
  lemma PostedKeeps(env: Env, unit: Unit, batches: seq<seq<Entry>>, c: Chain)
    requires Posted(env, EmptyChain(unit), batches) == Ok(c)
    requires DistinctIds(Flat(batches)) && Hashed(env, Flat(batches))
    ensures HoldsKept(c.holds, Flat(batches))
    ensures forall s :: Worth(c.purse, c.holds, s) == Granted(Flat(batches), s)
    ensures Sum(c.purse.balances) + c.purse.totals.holdsOpen + c.purse.totals.spent - c.purse.totals.reversed
              == c.purse.totals.funded
  {
    hide Steps, Posted, Flat, HoldsKept, Worth, Sum, Replaying, DistinctIds, Weigh;
    PostsReplay(env, unit, batches);
    var at := Replaying(env, Flat(batches));
    EveryChainKeeps(at, REPLAYING, unit, Flat(batches));
    ReplayConserves(at, unit, Flat(batches));
  }

  lemma DraftsHashed(env: Env, c: Chain, stamp: Stamp, lines: seq<Line>)
    requires HashIgnoresItself(env) && |lines| <= |stamp.ids|
    ensures Hashed(env, Drafts(env, c, stamp, lines).entries)
  {
    hide HashIgnoresItself;
    forall i | 0 <= i < |lines| ensures var e := Drafts(env, c, stamp, lines).entries[i]; env.digest(e) == e.hash {
      DraftHashes(env, c, stamp, lines, i);
    }
  }

  lemma WorkedHashed(env: Env, policy: Policy, c: Chain, settles: Option<(Scope, bool)>, lines: seq<Line>, ev: Event)
    requires HashIgnoresItself(env) && Drawn(ev) && |lines| <= 2 && Worked(env, policy, c, settles, lines, ev).Ok?
    ensures Hashed(env, Worked(env, policy, c, settles, lines, ev).value.1)
  {
    hide PostOne, HashIgnoresItself, LineRule, Drafts, Over, Merged, Exhausted;
    DraftsHashed(env, Over(c).c, ev.first, lines);
    var (v, main) := PostLines(env, Over(c), ev.first, lines).value;
    var trip := Aftermath(policy, settles, v.c);
    if trip != [] { DraftsHashed(env, v.c, ev.second, trip); }
  }

  lemma PerformHashed(env: Env, policy: Policy, c: Chain, ev: Event)
    requires HashIgnoresItself(env) && Drawn(ev)
    ensures Hashed(env, Perform(env, policy, c, ev).1)
  {
    hide HashIgnoresItself, Worked, PlanOf, Settles;
    PlanSize(env, policy, c, ev.op);
    var plan := PlanOf(env, policy, c, ev.op);
    if plan.Deny? && Worked(env, policy, c, None, plan.trip, ev).Ok? {
      WorkedHashed(env, policy, c, None, plan.trip, ev);
    } else if plan.Lines? && Worked(env, policy, c, Settles(c, ev.op), plan.lines, ev).Ok? {
      WorkedHashed(env, policy, c, Settles(c, ev.op), plan.lines, ev);
    }
  }

  lemma {:induction false} RunHashed(env: Env, policy: Policy, unit: Unit, events: seq<Event>)
    requires HashIgnoresItself(env) && forall i :: 0 <= i < |events| ==> Drawn(events[i])
    ensures Hashed(env, Flat(RunOps(env, policy, unit, events).batches))
  {
    hide Perform, HashIgnoresItself;
    if |events| > 0 {
      var init, ev := events[..|events| - 1], events[|events| - 1];
      RunHashed(env, policy, unit, init);
      var before := RunOps(env, policy, unit, init);
      var at := Writing(env, Flat(before.batches));
      var (d, es) := Perform(at, policy, before.c, ev);
      assert HashIgnoresItself(at) by { SameHashes(env, at); }
      PerformHashed(at, policy, before.c, ev);
      FlatLast(before.batches, es);
    }
  }

  lemma SameHashes(env: Env, at: Env)
    requires HashIgnoresItself(env) && at.digest == env.digest
    ensures HashIgnoresItself(at)
  {
  }

  /** On every run of operations and for every scope: what the scope and everything
      below it have available, hold, and have spent and not had refunded adds up to
      what the scope was allotted less what it gave back to its parent. */
  lemma SubtreeConserves(env: Env, policy: Policy, unit: Unit, events: seq<Event>, s: Scope)
    requires HashIgnoresItself(env) && forall i :: 0 <= i < |events| ==> Drawn(events[i])
    requires DistinctIds(Flat(RunOps(env, policy, unit, events).batches))
    requires s in RunOps(env, policy, unit, events).c.tree.nodes.at
    ensures var g := RunOps(env, policy, unit, events);
            && TreeKept(g.c.tree)
            && WorthOf(g.c.tree.nodes.order, Members(g.c.tree, s), g.c)
               == g.c.tree.nodes.at[s].allotted - Returned(Flat(g.batches), s)
  {
    hide RunOps, HashIgnoresItself, DistinctIds, Hashed, Posted, TreeKept, Members, WorthOf, Total, Returned, Worth,
          Sum, HoldsKept;
    var g := RunOps(env, policy, unit, events);
    RunIsPosted(env, policy, unit, events);
    RunHashed(env, policy, unit, events);
    RunKeepsSubtrees(env, policy, unit, events);
    PostedKeeps(env, unit, g.batches, g.c);
    assert LawAt(g.c.tree, Flat(g.batches), s);
    WorthIsGranted(g.c.tree.nodes.order, Members(g.c.tree, s), g.c, Flat(g.batches));
  }

  // -- nothing is overdrawn -------------------------------------------------------------------------

  /** A settlement within its hold: no more than it, and none without one. */
  predicate Within(c: Chain, op: Op) {
    match op
    case Capture(hold, cost, _) => hold in c.holds.open.at ==> Charged(c.unit, cost) <= c.holds.open.at[hold].amount
    case Redeem(_, claimed, amount, _) =>
      amount > 0 ==>
            claimed.Some? && claimed.value in c.holds.open.at
            && amount <= c.holds.open.at[claimed.value].amount
    case _ => true
  }

  /** What the entries of a commit did to a scope's balance. */
  function Moved(es: seq<Entry>, s: Scope): int {
    if |es| == 0 then 0
    else
      var e := es[|es| - 1];
      Moved(es[..|es| - 1], s) + if e.scope == s then Signed(e.direction, e.amount) else 0
  }

  lemma {:induction false} StepsMove(env: Env, mode: Mode, v: View, es: seq<Entry>, s: Scope)
    requires Steps(env, mode, v, es).Ok?
    ensures Get(Steps(env, mode, v, es).value.c.purse.balances, s) == Get(v.c.purse.balances, s) + Moved(es, s)
  {
    hide Step;
    if |es| > 0 {
      var init, e := es[..|es| - 1], es[|es| - 1];
      StepsMove(env, mode, v, init, s);
      var w := Steps(env, mode, v, init).value;
      var txn := StepParts(env, mode, w, e);
      hide HoldRule, Begin, AddTotals;
      MoveOne(mode, w.c.purse, e, s);
    }
  }

  lemma MoveOne(mode: Mode, p: Purse, e: Entry, s: Scope)
    requires LegalDirection(e.kind, e.direction)
    requires BalanceRule(p, e).Ok? && FlowRule(mode, BalanceRule(p, e).value, e).Ok?
    ensures Get(FlowRule(mode, BalanceRule(p, e).value, e).value.balances, s)
         == Get(p.balances, s) + if e.scope == s then Signed(e.direction, e.amount) else 0
  {
  }

  lemma {:induction false} MovedTrail(es: seq<Entry>, n: nat, s: Scope)
    requires n <= |es| && Trailing(es, n) && forall i :: 0 <= i < |es| ==> Formed(es[i])
    ensures Moved(es, s) == Moved(es[..n], s)
    decreases |es|
  {
    if n < |es| {
      var init := es[..|es| - 1];
      assert Formed(es[|es| - 1]);
      MovedTrail(init, n, s);
      assert init[..n] == es[..n];
    } else {
      assert es[..n] == es;
    }
  }

  lemma MovedTwo(a: Entry, b: Entry, s: Scope)
    ensures Moved([a], s) == if a.scope == s then Signed(a.direction, a.amount) else 0
    ensures Moved([a, b], s) == Moved([a], s) + if b.scope == s then Signed(b.direction, b.amount) else 0
  {
    assert [a][..0] == [] && [a, b][..1] == [a];
  }

  /** A commit whose settlement is within its hold. */
  ghost predicate Bounded(es: seq<Entry>) {
    && |es| > 0 && !es[0].kind.Spend?
    && (es[0].kind.HoldVoid? && |es| > 1 && es[1].kind.Spend? ==> es[1].amount <= es[0].amount)
  }

  /** Nothing a bounded commit does takes a balance below zero. */
  lemma CommitCovers(c: Chain, es: seq<Entry>, s: Scope)
    requires Shape(c, es) && Bounded(es) && forall i :: 0 <= i < |es| ==> Formed(es[i])
    requires Balance(c, s) >= 0
    ensures Balance(c, s) + Moved(es, s) >= 0
  {
    hide Moved, Halted, Balance;
    var two := Balanced(es[0].kind) || (es[0].kind.HoldVoid? && |es| > 1 && es[1].kind.Spend?);
    assert Formed(es[0]);
    if two {
      assert Formed(es[1]);
      assert es[..2] == [es[0], es[1]];
      MovedTrail(es, 2, s);
      MovedTwo(es[0], es[1], s);
    } else {
      assert es[..1] == [es[0]];
      MovedTrail(es, 1, s);
      MovedTwo(es[0], es[0], s);
    }
  }

  ghost predicate LinesBounded(ls: seq<Line>) {
    |ls| > 0 ==>
      && !ls[0].kind.Spend?
      && (ls[0].kind.HoldVoid? && |ls| > 1 && ls[1].kind.Spend? ==> ls[1].amount <= ls[0].amount)
  }

  lemma PlanBounded(env: Env, policy: Policy, c: Chain, op: Op)
    requires Within(c, op)
    ensures var p := PlanOf(env, policy, c, op);
              (p.Lines? ==> LinesBounded(p.lines))
              && (p.Deny? ==> LinesBounded(p.trip))
  {
    hide Halted, Charged, Credited, SpendLeft, Balance;
  }

  lemma WorkBounded(ls: seq<Line>, es: seq<Entry>)
    requires LinesBounded(ls) && WorkOf(es, ls)
    ensures Bounded(es)
  {
    assert es[..|ls|][0] == es[0] && OfLine(es[0], ls[0]);
    if |ls| >= 2 { assert es[..|ls|][1] == es[1] && OfLine(es[1], ls[1]); }
  }

  lemma PerformBounded(env: Env, policy: Policy, c: Chain, ev: Event)
    requires Drawn(ev) && Perform(env, policy, c, ev).1 != [] && Within(c, ev.op)
    ensures Bounded(Perform(env, policy, c, ev).1)
  {
    hide Perform, Batch, PlanOf, LinesBounded, Bounded;
    var lines := PerformParts(env, policy, c, ev);
    PlanBounded(env, policy, c, ev.op);
    WorkBounded(lines, Perform(env, policy, c, ev).1);
  }

  /** Every settlement of the run was within its hold when it was made. */
  ghost predicate AllWithin(env: Env, policy: Policy, unit: Unit, events: seq<Event>)
    requires forall i :: 0 <= i < |events| ==> Drawn(events[i])
  {
    |events| > 0 ==>
      && AllWithin(env, policy, unit, events[..|events| - 1])
      && Within(RunOps(env, policy, unit, events[..|events| - 1]).c, events[|events| - 1].op)
  }

  /** If no settlement exceeds its open hold, no balance is ever negative. */
  lemma {:induction false} NothingOverdrawn(env: Env, policy: Policy, unit: Unit, events: seq<Event>, s: Scope)
    requires (forall i :: 0 <= i < |events| ==> Drawn(events[i])) && AllWithin(env, policy, unit, events)
    ensures Balance(RunOps(env, policy, unit, events).c, s) >= 0
  {
    hide Perform, Within, Batch, Shape, Bounded, Moved;
    if |events| > 0 {
      var init, ev := events[..|events| - 1], events[|events| - 1];
      NothingOverdrawn(env, policy, unit, init, s);
      var before := RunOps(env, policy, unit, init);
      var at := Writing(env, Flat(before.batches));
      var (d, es) := Perform(at, policy, before.c, ev);
      if es != [] {
        PerformShape(at, policy, before.c, ev);
        PerformBounded(at, policy, before.c, ev);
        BatchGoverns(at, before.c, es, d);
        BatchMoves(at, before.c, es, d, s);
        CommitCovers(before.c, es, s);
      }
    }
  }

  lemma BatchMoves(env: Env, c: Chain, es: seq<Entry>, d: Chain, s: Scope)
    requires Batch(env, WRITING, c, es) == Ok(d)
    ensures Balance(d, s) == Balance(c, s) + Moved(es, s)
  {
    hide Steps, Moved;
    StepsMove(env, WRITING, Over(c), es, s);
  }

  /** The exact overdrafts: a settlement that costs more than its hold and all the
      scope has left, or a claim with no open hold that costs more than it has left. */
  ghost predicate Overruns(c: Chain, es: seq<Entry>, s: Scope) {
    && |es| > 0 && es[0].scope == s
    && (|| (es[0].kind.Spend? && es[0].amount > Balance(c, s))
        || (es[0].kind.HoldVoid? && |es| > 1 && es[1].kind.Spend? && es[1].amount > es[0].amount + Balance(c, s)))
  }

  lemma CommitOverdraws(c: Chain, es: seq<Entry>, s: Scope)
    requires Shape(c, es) && (forall i :: 0 <= i < |es| ==> Formed(es[i])) && Balance(c, s) >= 0
    ensures Balance(c, s) + Moved(es, s) < 0 <==> Overruns(c, es, s)
  {
    hide Moved, Halted, Balance;
    assert Formed(es[0]);
    if Balanced(es[0].kind) || (es[0].kind.HoldVoid? && |es| > 1 && es[1].kind.Spend?) {
      assert Formed(es[1]);
      assert es[..2] == [es[0], es[1]];
      MovedTrail(es, 2, s);
      MovedTwo(es[0], es[1], s);
    } else {
      assert es[..1] == [es[0]];
      MovedTrail(es, 1, s);
      MovedTwo(es[0], es[0], s);
    }
  }

  // -- what a subtree can spend ------------------------------------------------------------------

  ghost function NetSpend(order: seq<Scope>, inside: set<Scope>, p: Purse): int {
    if |order| == 0 then 0
    else
      var k := order[|order| - 1];
      NetSpend(order[..|order| - 1], inside, p) + if k in inside then Get(p.spent, k) - Get(p.refunded, k) else 0
  }

  lemma {:induction false} HeldPositive(order: seq<Id>, at: map<Id, Entry>, s: Scope)
    requires forall id :: id in at ==> at[id].amount > 0
    ensures Weigh(order, at, AmountsIn(s)) >= 0
  {
    if |order| > 0 { HeldPositive(order[..|order| - 1], at, s); }
  }

  lemma {:induction false} SpendWithinWorth(order: seq<Scope>, inside: set<Scope>, c: Chain)
    requires (forall s :: Balance(c, s) >= 0) && (forall id :: id in c.holds.open.at ==> c.holds.open.at[id].amount > 0)
    ensures NetSpend(order, inside, c.purse) <= WorthOf(order, inside, c)
  {
    if |order| > 0 {
      SpendWithinWorth(order[..|order| - 1], inside, c);
      var k := order[|order| - 1];
      HeldPositive(c.holds.open.order, c.holds.open.at, k);
      assert Balance(c, k) >= 0;
    }
  }

  /** Every entry of a posted chain is well formed. */
  lemma PostedFormed(env: Env, unit: Unit, batches: seq<seq<Entry>>, c: Chain)
    requires Posted(env, EmptyChain(unit), batches) == Ok(c)
    requires DistinctIds(Flat(batches)) && Hashed(env, Flat(batches))
    ensures forall i :: 0 <= i < |Flat(batches)| ==> Formed(Flat(batches)[i])
  {
    hide Steps, Posted, Flat, Replaying, DistinctIds, Formed, Governs;
    PostsReplay(env, unit, batches);
    StepsGovern(Replaying(env, Flat(batches)), REPLAYING, Over(EmptyChain(unit)), Flat(batches));
  }

  lemma {:induction false} ReturnedPositive(entries: seq<Entry>, s: Scope)
    requires forall i :: 0 <= i < |entries| ==> Formed(entries[i])
    ensures Returned(entries, s) >= 0
  {
    if |entries| > 0 {
      assert Formed(entries[|entries| - 1]);
      ReturnedPositive(entries[..|entries| - 1], s);
    }
  }

  lemma HoldsPositive(h: Holds, entries: seq<Entry>)
    requires HoldsKept(h, entries) && forall i :: 0 <= i < |entries| ==> Formed(entries[i])
    ensures forall id :: id in h.open.at ==> h.open.at[id].amount > 0
  {
    hide Weigh;
    forall id | id in h.open.at ensures h.open.at[id].amount > 0 {
      assert h.open.at[id] in entries;
      var i :| 0 <= i < |entries| && entries[i] == h.open.at[id];
      assert Formed(entries[i]);
    }
  }

  /** While no scope is overdrawn, a scope and everything below it have not spent, net of
      refunds, more than the scope was allotted, less what it gave back. */
  lemma SolventSpendBounded(env: Env, policy: Policy, unit: Unit, events: seq<Event>, s: Scope)
    requires HashIgnoresItself(env) && (forall i :: 0 <= i < |events| ==> Drawn(events[i]))
    requires DistinctIds(Flat(RunOps(env, policy, unit, events).batches))
    requires s in RunOps(env, policy, unit, events).c.tree.nodes.at
    requires forall x :: Balance(RunOps(env, policy, unit, events).c, x) >= 0
    ensures var g := RunOps(env, policy, unit, events);
            && TreeKept(g.c.tree)
            && NetSpend(g.c.tree.nodes.order, Members(g.c.tree, s), g.c.purse)
               <= g.c.tree.nodes.at[s].allotted - Returned(Flat(g.batches), s) <= g.c.tree.nodes.at[s].allotted
  {
    hide RunOps, HashIgnoresItself, DistinctIds, Posted, TreeKept, Members, WorthOf, NetSpend, Returned,
          HoldsKept, Formed, Hashed, Balance;
    var g := RunOps(env, policy, unit, events);
    SubtreeConserves(env, policy, unit, events, s);
    RunIsPosted(env, policy, unit, events);
    RunHashed(env, policy, unit, events);
    PostedKeeps(env, unit, g.batches, g.c);
    PostedFormed(env, unit, g.batches, g.c);
    HoldsPositive(g.c.holds, Flat(g.batches));
    ReturnedPositive(Flat(g.batches), s);
    SpendWithinWorth(g.c.tree.nodes.order, Members(g.c.tree, s), g.c);
  }

  /** The guarantee a delegation is for: while settlements stay within their holds, a
      scope and everything below it never spend, net of refunds, more than the scope
      was allotted, less what it gave back. */
  lemma SubtreeSpendBounded(env: Env, policy: Policy, unit: Unit, events: seq<Event>, s: Scope)
    requires HashIgnoresItself(env) && (forall i :: 0 <= i < |events| ==> Drawn(events[i]))
    requires DistinctIds(Flat(RunOps(env, policy, unit, events).batches)) && AllWithin(env, policy, unit, events)
    requires s in RunOps(env, policy, unit, events).c.tree.nodes.at
    ensures var g := RunOps(env, policy, unit, events);
            && TreeKept(g.c.tree)
            && NetSpend(g.c.tree.nodes.order, Members(g.c.tree, s), g.c.purse)
               <= g.c.tree.nodes.at[s].allotted - Returned(Flat(g.batches), s) <= g.c.tree.nodes.at[s].allotted
  {
    hide RunOps, AllWithin, HashIgnoresItself, DistinctIds, TreeKept, Members, NetSpend, Returned, Flat, Balance;
    forall x ensures Balance(RunOps(env, policy, unit, events).c, x) >= 0 {
      NothingOverdrawn(env, policy, unit, events, x);
    }
    SolventSpendBounded(env, policy, unit, events, s);
  }

  // -- the halt --------------------------------------------------------------------------------------

  /** An operation resets a scope's breaker only by being that reset. */
  lemma PlanResets(env: Env, policy: Policy, c: Chain, op: Op, i: nat)
    requires var p := PlanOf(env, policy, c, op); p.Lines? && i < |p.lines| && p.lines[i].kind.CircuitReset?
    ensures op.ResetScope? && op.scope == PlanOf(env, policy, c, op).lines[i].scope
  {
    hide Halted, Charged, Credited, SpendLeft, Balance;
  }

  lemma PerformResets(env: Env, policy: Policy, c: Chain, ev: Event, i: nat)
    requires Drawn(ev) && i < |Perform(env, policy, c, ev).1|
    requires Perform(env, policy, c, ev).1[i].kind.CircuitReset?
    ensures ev.op.ResetScope? && ev.op.scope == Perform(env, policy, c, ev).1[i].scope
  {
    hide Perform, Batch, PlanOf;
    var lines := PerformParts(env, policy, c, ev);
    var es := Perform(env, policy, c, ev).1;
    assert i < |lines|;
    assert es[..|lines|][i] == es[i] && OfLine(es[i], lines[i]);
    var plan := PlanOf(env, policy, c, ev.op);
    if plan.Deny? {
      DenyTrips(env, policy, c, ev.op);
      assert false;
    }
    PlanResets(env, policy, c, ev.op, i);
  }

  lemma DenyTrips(env: Env, policy: Policy, c: Chain, op: Op)
    requires PlanOf(env, policy, c, op).Deny?
    ensures var t := PlanOf(env, policy, c, op).trip; |t| == 1 && t[0].kind.CircuitTripped?
  {
    hide Halted, Charged, Credited, SpendLeft, Balance;
  }

  lemma {:induction false} TripHolds(t: Tree, es: seq<Entry>, a: Scope)
    requires Governs(t, es).Ok? && a in t.tripped
    requires forall i :: 0 <= i < |es| ==> !(es[i].kind.CircuitReset? && es[i].scope == a)
    ensures a in Governs(t, es).value.tripped
  {
    hide Engine.Fund, Allocate, ReleaseBetween;
    if |es| > 0 {
      TripHolds(t, es[..|es| - 1], a);
      TripOne(Governs(t, es[..|es| - 1]).value, es[|es| - 1], a);
    }
  }

  lemma TripOne(t: Tree, e: Entry, a: Scope)
    requires Govern(t, e).Ok? && a in t.tripped && !(e.kind.CircuitReset? && e.scope == a)
    ensures a in Govern(t, e).value.tripped
  {
  }

  /** A scope's subtree gains no member from an entry that creates no child in it. */
  lemma MembersOne(t: Tree, u: Tree, e: Entry, a: Scope)
    requires TreeKept(t) && a in t.nodes.at && Govern(t, e) == Ok(u) && Formed(e)
    requires e.kind.Allocation? && e.direction.Credit? ==> Other(e) !in Members(t, a)
    ensures TreeKept(u) && a in u.nodes.at && Members(u, a) == Members(t, a)
  {
    GovernKeeps(t, e);
    MembersLater(t, u, a);
    forall x | x in Members(u, a) ensures x in Members(t, a) {
      if x !in t.nodes.at { NewMember(t, u, e, a, x); }
    }
    assert forall x :: x in Members(t, a) ==> x in t.nodes.at;
  }

  lemma NewMember(t: Tree, u: Tree, e: Entry, a: Scope, x: Scope)
    requires TreeKept(t) && TreeKept(u) && Later(t, u) && a in t.nodes.at && Govern(t, e) == Ok(u)
    requires x in u.nodes.at && x !in t.nodes.at
               && (e.kind.Allocation? && e.direction.Credit? ==> Other(e) !in Members(t, a))
    requires Formed(e)
    ensures x !in Members(u, a)
  {
    MembersLater(t, u, a);
    NewNode(t, u, e, x);
    hide Govern, TreeKept, Members, Later, Under;
    if u.nodes.at[x].parent.None? {
      RootUnder(u, x, a);
    } else {
      ParentUnder(u, x, a);
    }
  }

  lemma NewNode(t: Tree, u: Tree, e: Entry, x: Scope)
    requires Govern(t, e) == Ok(u) && x in u.nodes.at && x !in t.nodes.at && Formed(e)
    ensures u.nodes.at[x].parent.None?
         || (e.kind.Allocation? && e.direction.Credit? && u.nodes.at[x].parent == Some(Other(e))
               && Other(e) in t.nodes.at)
  {
  }

  lemma {:induction false} MembersAll(t: Tree, es: seq<Entry>, a: Scope)
    requires TreeKept(t) && a in t.nodes.at && Governs(t, es).Ok?
    requires forall i :: 0 <= i < |es| ==> Formed(es[i])
    requires forall i :: 0 <= i < |es| && es[i].kind.Allocation? && es[i].direction.Credit?
               ==> Other(es[i]) !in Members(t, a)
    ensures TreeKept(Governs(t, es).value) && a in Governs(t, es).value.nodes.at
    ensures Members(Governs(t, es).value, a) == Members(t, a)
  {
    hide Govern, TreeKept, Members, Formed;
    if |es| > 0 {
      var init, e := es[..|es| - 1], es[|es| - 1];
      MembersAll(t, init, a);
      MembersOne(Governs(t, init).value, Governs(t, es).value, e, a);
    }
  }

  // -- what a commit under a halt can be ----------------------------------------------------------

  /** What a commit does to the subtree of a tripped scope: it places no hold there,
      creates no scope there, and spends there only by settling a hold that was
      already open at `start`, or by booking a claim that had no open hold. */
  ghost predicate HaltedCommit(start: Chain, c: Chain, a: Scope, es: seq<Entry>)
    requires TreeKept(c.tree)
  {
    forall i :: 0 <= i < |es| ==>
      && (es[i].kind.Hold? ==> es[i].scope !in Members(c.tree, a))
      && (es[i].kind.Allocation? && es[i].direction.Credit? ==> Other(es[i]) !in Members(c.tree, a))
      && (es[i].kind.Spend? && es[i].scope in Members(c.tree, a) ==>
            es[i].ref.None?
            || es[i].ref.value in start.holds.open.at)
  }

  /** The holds of a subtree were all open at `start`. */
  ghost predicate NoNewHolds(start: Chain, c: Chain, a: Scope)
    requires TreeKept(c.tree)
  {
    forall id :: id in c.holds.open.at && c.holds.open.at[id].scope in Members(c.tree, a) ==> id in start.holds.open.at
  }

  lemma NotUnder(t: Tree, s: Scope, a: Scope)
    requires TreeKept(t) && a in t.tripped && !Halted(t, s)
    ensures s !in Members(t, a)
  {
  }

  lemma CommitHalted(start: Chain, c: Chain, a: Scope, es: seq<Entry>)
    requires TreeKept(c.tree) && a in c.tree.tripped && Shape(c, es) && NoNewHolds(start, c, a)
    requires es[0].kind.HoldVoid? ==> c.holds.open.at[es[0].ref.value].scope == es[0].scope
    ensures HaltedCommit(start, c, a, es)
  {
    hide TreeKept, Members, Halted, Balance;
    if es[0].kind.Hold? || es[0].kind.Allocation? { NotUnder(c.tree, es[0].scope, a); }
  }

  lemma FirstRelease(env: Env, c: Chain, es: seq<Entry>)
    requires Batch(env, WRITING, c, es).Ok? && Shape(c, es) && es[0].kind.HoldVoid?
    ensures c.holds.open.at[es[0].ref.value].scope == es[0].scope
  {
    hide Step, Halted, Balance, HoldRule;
    var first, rest := [es[0]], es[1..];
    assert es == first + rest && first[..0] == [];
    StepsAppend(env, WRITING, Over(c), first, rest);
    assert Steps(env, WRITING, Over(c), first) == Step(env, WRITING, Over(c), es[0]);
    var txn := StepParts(env, WRITING, Over(c), es[0]);
    NamedOpen(Over(c).c.holds, Netted(txn, es[0]), es[0]);
  }

  lemma {:induction false} StepsOpen(env: Env, mode: Mode, v: View, es: seq<Entry>, id: Id)
    requires Steps(env, mode, v, es).Ok? && id in Steps(env, mode, v, es).value.c.holds.open.at
    ensures var a, b := v.c.holds.open.at, Steps(env, mode, v, es).value.c.holds.open.at;
            (id in a && b[id] == a[id]) || exists i :: 0 <= i < |es| && es[i].kind.Hold? && b[id] == es[i]
  {
    hide Step, HoldRule;
    if |es| > 0 {
      var init, e := es[..|es| - 1], es[|es| - 1];
      var w := Steps(env, mode, v, init).value;
      var txn := StepParts(env, mode, w, e);
      OpenChange(w.c.holds, Netted(txn, e), e);
      var a, b := w.c.holds.open.at, Steps(env, mode, v, es).value.c.holds.open.at;
      if id in a && b[id] == a[id] {
        StepsOpen(env, mode, v, init, id);
        if i :| 0 <= i < |init| && init[i].kind.Hold? && a[id] == init[i] { assert es[i] == init[i]; }
      } else {
        assert es[|es| - 1] == e;
      }
    }
  }

  /** After a commit under a halt, the halted subtree has the same scopes, and no hold
      that was not open at `start`. */
  lemma HaltStays(env: Env, start: Chain, c: Chain, d: Chain, a: Scope, es: seq<Entry>)
    requires Batch(env, WRITING, c, es) == Ok(d) && TreeKept(c.tree) && a in c.tree.nodes.at && NoNewHolds(start, c, a)
    requires HaltedCommit(start, c, a, es)
    ensures TreeKept(d.tree) && Members(d.tree, a) == Members(c.tree, a) && NoNewHolds(start, d, a)
  {
    hide TreeKept, Members, Steps, Governs, Formed;
    BatchGoverns(env, c, es, d);
    MembersAll(c.tree, es, a);
    forall id | id in d.holds.open.at
          && d.holds.open.at[id].scope in Members(d.tree, a) ensures id in start.holds.open.at {
      StepsOpen(env, WRITING, Over(c), es, id);
    }
  }

  // -- over a run -------------------------------------------------------------------------------------

  /** The state and the commits after the first `k` operations. */
  ghost function After(env: Env, policy: Policy, unit: Unit, events: seq<Event>, k: nat): Governed
    requires (forall i :: 0 <= i < |events| ==> Drawn(events[i])) && k <= |events|
  {
    RunOps(env, policy, unit, events[..k])
  }

  /** What the operation after the first `k` commits. */
  ghost function Commits(env: Env, policy: Policy, unit: Unit, events: seq<Event>, k: nat): (Chain, seq<Entry>)
    requires (forall i :: 0 <= i < |events| ==> Drawn(events[i])) && k < |events|
  {
    var g := After(env, policy, unit, events, k);
    Perform(Writing(env, Flat(g.batches)), policy, g.c, events[k])
  }

  lemma NextAfter(env: Env, policy: Policy, unit: Unit, events: seq<Event>, k: nat)
    requires (forall i :: 0 <= i < |events| ==> Drawn(events[i])) && k < |events|
    ensures var (d, es) := Commits(env, policy, unit, events, k);
            if es == [] then After(env, policy, unit, events, k + 1) == After(env, policy, unit, events, k)
            else After(env, policy, unit, events, k + 1).c == d
  {
    hide Perform;
    assert events[..k + 1][..k] == events[..k];
  }

  ghost predicate NotReset(events: seq<Event>, from: nat, to: nat, a: Scope)
    requires from <= to <= |events|
  {
    forall k :: from <= k < to ==> !(events[k].op.ResetScope? && events[k].op.scope == a)
  }

  ghost predicate StillHalted(start: Chain, c: Chain, a: Scope) {
    && TreeKept(start.tree) && TreeKept(c.tree) && a in c.tree.tripped
    && Members(c.tree, a) == Members(start.tree, a) && NoNewHolds(start, c, a)
  }

  lemma HaltStep(env: Env, policy: Policy, start: Chain, c: Chain, ev: Event, a: Scope)
    requires Drawn(ev) && StillHalted(start, c, a) && !(ev.op.ResetScope? && ev.op.scope == a)
    requires Perform(env, policy, c, ev).1 != []
    ensures HaltedCommit(start, c, a, Perform(env, policy, c, ev).1)
              && StillHalted(start, Perform(env, policy, c, ev).0, a)
  {
    hide Perform, Batch, Shape, Governs, Members, HaltedCommit, NoNewHolds;
    var (d, es) := Perform(env, policy, c, ev);
    PerformShape(env, policy, c, ev);
    ShapeRelease(env, c, es);
    assert a in c.tree.nodes.at;
    hide TreeKept;
    CommitHalted(start, c, a, es);
    HaltStays(env, start, c, d, a, es);
    BatchGoverns(env, c, es, d);
    forall i | 0 <= i < |es| ensures !(es[i].kind.CircuitReset? && es[i].scope == a) {
      if es[i].kind.CircuitReset? { PerformResets(env, policy, c, ev, i); }
    }
    TripHolds(c.tree, es, a);
  }

  lemma ShapeRelease(env: Env, c: Chain, es: seq<Entry>)
    requires Batch(env, WRITING, c, es).Ok? && Shape(c, es)
    ensures |es| > 0
    ensures es[0].kind.HoldVoid? ==>
              es[0].ref.Some? && es[0].ref.value in c.holds.open.at
              && c.holds.open.at[es[0].ref.value].scope == es[0].scope
  {
    hide Batch, Halted, Balance;
    if es[0].kind.HoldVoid? { FirstRelease(env, c, es); }
  }

  /** The halt holds before the operation at `k`, and of all it commits. */
  ghost predicate HaltedAt(env: Env, policy: Policy, unit: Unit, events: seq<Event>, start: Chain, k: nat, a: Scope)
    requires (forall j :: 0 <= j < |events| ==> Drawn(events[j])) && k < |events|
  {
    && StillHalted(start, After(env, policy, unit, events, k).c, a)
    && HaltedCommit(start, After(env, policy, unit, events, k).c, a, Commits(env, policy, unit, events, k).1)
  }

  /** From the moment a scope is tripped until an operation resets it: whatever
      operations run, no hold is placed on its subtree, no scope is created in it, and
      all spend there settles a hold already open at the trip or books a claim that
      had none. */
  lemma {:induction false} HaltedUntilReset(env: Env, policy: Policy, unit: Unit, events: seq<Event>, i: nat, k: nat,
                                            a: Scope)
    requires (forall j :: 0 <= j < |events| ==> Drawn(events[j]))
    requires i <= k <= |events| && NotReset(events, i, k, a)
    requires a in After(env, policy, unit, events, i).c.tree.tripped
    ensures StillHalted(After(env, policy, unit, events, i).c, After(env, policy, unit, events, k).c, a)
    ensures forall j :: i <= j < k ==> HaltedAt(env, policy, unit, events, After(env, policy, unit, events, i).c, j, a)
    decreases k
  {
    hide After, HaltedAt, StillHalted;
    var start := After(env, policy, unit, events, i).c;
    if k == i {
      AlwaysATree(env, policy, unit, events, i);
      StartHalted(start, a);
    } else {
      HaltedUntilReset(env, policy, unit, events, i, k - 1, a);
      HaltAt(env, policy, unit, events, start, k - 1, a);
    }
  }

  lemma StartHalted(start: Chain, a: Scope)
    requires TreeKept(start.tree) && a in start.tree.tripped
    ensures StillHalted(start, start, a)
  {
    hide TreeKept, Members;
  }

  lemma AlwaysATree(env: Env, policy: Policy, unit: Unit, events: seq<Event>, k: nat)
    requires (forall j :: 0 <= j < |events| ==> Drawn(events[j])) && k <= |events|
    ensures TreeKept(After(env, policy, unit, events, k).c.tree)
  {
    RunKeepsSubtrees(env, policy, unit, events[..k]);
    hide RunOps, TreeKept;
  }

  lemma HaltAt(env: Env, policy: Policy, unit: Unit, events: seq<Event>, start: Chain, k: nat, a: Scope)
    requires (forall j :: 0 <= j < |events| ==> Drawn(events[j])) && k < |events|
    requires !(events[k].op.ResetScope? && events[k].op.scope == a)
    requires StillHalted(start, After(env, policy, unit, events, k).c, a)
    ensures HaltedAt(env, policy, unit, events, start, k, a)
              && StillHalted(start, After(env, policy, unit, events, k + 1).c, a)
  {
    NextAfter(env, policy, unit, events, k);
    hide After, Perform, StillHalted;
    var g := After(env, policy, unit, events, k);
    var at := Writing(env, Flat(g.batches));
    if Perform(at, policy, g.c, events[k]).1 != [] { HaltStep(at, policy, start, g.c, events[k], a); }
  }

  // -- an overdraft trips ----------------------------------------------------------------------------

  /** What a post does to a scope's balance and to its breaker. */
  lemma PostEffects(env: Env, v: View, es: seq<Entry>, w: View, s: Scope)
    requires PostOne(env, v, es) == Ok(w)
    ensures Balance(w.c, s) == Balance(v.c, s) + Moved(es, s)
    ensures Governs(v.c.tree, es) == Ok(w.c.tree) && forall i :: 0 <= i < |es| ==> Formed(es[i])
  {
    hide Steps, Moved, Governs, Formed;
    StepsMove(env, WRITING, v, es, s);
    StepsGovern(env, WRITING, v, es);
  }

  lemma TripTrips(env: Env, v: View, stamp: Stamp, scope: Scope, reason: string)
    requires |stamp.ids| >= 1 && PostLines(env, v, stamp, [Trips(scope, reason)]).Ok?
    ensures var w := PostLines(env, v, stamp, [Trips(scope, reason)]).value.0;
            scope in w.c.tree.tripped && forall s :: Balance(w.c, s) == Balance(v.c, s)
  {
    hide PostLines, Moved, Balance;
    var (w, es) := PostLines(env, v, stamp, [Trips(scope, reason)]).value;
    PostLinesParts(env, v, stamp, [Trips(scope, reason)]);
    assert OfLine(es[0], Trips(scope, reason)) && es == [es[0]];
    forall s ensures Balance(w.c, s) == Balance(v.c, s) {
      PostEffects(env, v, es, w, s);
      assert Formed(es[0]);
      MovedTwo(es[0], es[0], s);
    }
    PostEffects(env, v, es, w, scope);
    GovernsTwo(v.c.tree, es[0], es[0]);
  }

  /** A settlement's unit of work leaves the scope it settles in tripped, if overdrawn. */
  lemma WorkedTrips(env: Env, policy: Policy, c: Chain, s: Scope, dry: bool, lines: seq<Line>, ev: Event)
    requires Drawn(ev) && |lines| <= 2 && Worked(env, policy, c, Some((s, dry)), lines, ev).Ok?
    ensures var d := Worked(env, policy, c, Some((s, dry)), lines, ev).value.0;
              Balance(d, s) < 0
              ==> s in d.tree.tripped
  {
    hide PostLines, Exhausted;
    var (v, main) := PostLines(env, Over(c), ev.first, lines).value;
    var trip := Aftermath(policy, Some((s, dry)), v.c);
    if trip != [] {
      TripTrips(env, v, ev.second, s, trip[0].memo);
      assert trip == [Trips(s, trip[0].memo)];
    }
  }

  /** The lines that spend are a settlement's, in the scope it settles in. */
  lemma SpendsSettle(env: Env, policy: Policy, c: Chain, op: Op)
    requires var p := PlanOf(env, policy, c, op); p.Lines? && exists i :: 0 <= i < |p.lines| && p.lines[i].kind.Spend?
    ensures Settles(c, op).Some? && Settles(c, op).value.0 == PlanOf(env, policy, c, op).lines[0].scope
  {
    hide Halted, Charged, Credited, SpendLeft, Balance;
  }

  lemma SettledTrips(env: Env, policy: Policy, c: Chain, ev: Event, s: Scope)
    requires Drawn(ev) && PlanOf(env, policy, c, ev.op).Lines?
    requires Settles(c, ev.op).Some? && Settles(c, ev.op).value.0 == s && Perform(env, policy, c, ev).1 != []
    ensures Balance(Perform(env, policy, c, ev).0, s) < 0 ==> s in Perform(env, policy, c, ev).0.tree.tripped
  {
    hide PlanOf, Worked, Settles, Balance;
    PlanSize(env, policy, c, ev.op);
    WorkedTrips(env, policy, c, s, Settles(c, ev.op).value.1, PlanOf(env, policy, c, ev.op).lines, ev);
  }

  /** A commit that overdraws a scope is a settlement's in that scope. */
  lemma OverdraftSettles(env: Env, policy: Policy, c: Chain, ev: Event, s: Scope)
    requires Drawn(ev) && Perform(env, policy, c, ev).1 != [] && Overruns(c, Perform(env, policy, c, ev).1, s)
    ensures PlanOf(env, policy, c, ev.op).Lines? && Settles(c, ev.op).Some? && Settles(c, ev.op).value.0 == s
  {
    hide Perform, Batch, PlanOf, Settles, Overruns, WorkOf;
    var lines := PerformParts(env, policy, c, ev);
    SpentIn(c, Perform(env, policy, c, ev).1, lines, s);
    var plan := PlanOf(env, policy, c, ev.op);
    if plan.Deny? { DenyTrips(env, policy, c, ev.op); }
    SpendsSettle(env, policy, c, ev.op);
  }

  /** An operation that takes a scope's balance below zero leaves its breaker tripped. */
  lemma OverdraftTrips(env: Env, policy: Policy, c: Chain, ev: Event, s: Scope)
    requires Drawn(ev) && Balance(c, s) >= 0 && Balance(Perform(env, policy, c, ev).0, s) < 0
    ensures s in Perform(env, policy, c, ev).0.tree.tripped
  {
    hide Perform, Batch, PlanOf, Settles, Balance, Shape, Moved, Overruns, Governs;
    var (d, es) := Perform(env, policy, c, ev);
    if es == [] { NoEntriesNoChange(env, policy, c, ev); }
    PerformShape(env, policy, c, ev);
    BatchGoverns(env, c, es, d);
    BatchMoves(env, c, es, d, s);
    CommitOverdraws(c, es, s);
    OverdraftSettles(env, policy, c, ev, s);
    SettledTrips(env, policy, c, ev, s);
  }

  lemma SpentIn(c: Chain, es: seq<Entry>, lines: seq<Line>, s: Scope)
    requires Overruns(c, es, s) && WorkOf(es, lines)
    ensures |lines| > 0 && lines[0].scope == s && exists i :: 0 <= i < |lines| && lines[i].kind.Spend?
  {
    hide Balance;
    assert es[..|lines|][0] == es[0] && OfLine(es[0], lines[0]);
    if es[0].kind.Spend? {
      assert lines[0].kind.Spend?;
    } else {
      assert 1 < |lines|;
      assert es[..|lines|][1] == es[1] && OfLine(es[1], lines[1]);
      assert lines[1].kind.Spend?;
    }
  }

  lemma NoEntriesNoChange(env: Env, policy: Policy, c: Chain, ev: Event)
    requires Drawn(ev) && Perform(env, policy, c, ev).1 == []
    ensures Perform(env, policy, c, ev).0 == c
  {
    hide Worked, PlanOf, Settles, Batch;
    PlanSize(env, policy, c, ev.op);
    var plan := PlanOf(env, policy, c, ev.op);
    if plan.Deny? && Worked(env, policy, c, None, plan.trip, ev).Ok? {
      WorkedParts(env, policy, c, None, plan.trip, ev);
    } else if plan.Lines? && Worked(env, policy, c, Settles(c, ev.op), plan.lines, ev).Ok? {
      WorkedParts(env, policy, c, Settles(c, ev.op), plan.lines, ev);
    }
  }

  // -- depth ------------------------------------------------------------------------------------------

  ghost predicate Shallow(t: Tree, depth: nat) {
    forall s :: s in t.nodes.at ==> t.nodes.at[s].depth <= depth
  }

  /** Every scope of a tree is in another, at the same depth. */
  ghost predicate SameDepths(t: Tree, u: Tree) {
    forall s :: s in t.nodes.at ==> s in u.nodes.at && u.nodes.at[s].depth == t.nodes.at[s].depth
  }

  predicate RoomBelow(t: Tree, e: Entry, depth: nat) {
    e.kind.Allocation? && e.direction.Credit? ==> Other(e) in t.nodes.at && t.nodes.at[Other(e)].depth + 1 <= depth
  }

  lemma ShallowOne(t: Tree, u: Tree, e: Entry, depth: nat)
    requires Govern(t, e) == Ok(u) && Formed(e) && Shallow(t, depth) && RoomBelow(t, e, depth)
    ensures Shallow(u, depth) && SameDepths(t, u)
  {
  }

  lemma {:induction false} ShallowAll(t: Tree, es: seq<Entry>, depth: nat)
    requires Governs(t, es).Ok? && Shallow(t, depth) && forall i :: 0 <= i < |es| ==>
               Formed(es[i])
               && RoomBelow(t, es[i], depth)
    ensures Shallow(Governs(t, es).value, depth) && SameDepths(t, Governs(t, es).value)
  {
    hide Govern, Formed;
    if |es| > 0 {
      var init, e := es[..|es| - 1], es[|es| - 1];
      ShallowAll(t, init, depth);
      ShallowOne(Governs(t, init).value, Governs(t, es).value, e, depth);
    }
  }

  lemma PlanDepth(env: Env, policy: Policy, c: Chain, op: Op, i: nat)
    requires var p := PlanOf(env, policy, c, op); p.Lines? && i < |p.lines| && p.lines[i].kind.Allocation?
    ensures op.Delegate? && op.parent in c.tree.nodes.at && c.tree.nodes.at[op.parent].depth + 1 <= policy.maxDepth
    ensures PlanOf(env, policy, c, op).lines[i].direction.Credit?
            ==> PlanOf(env, policy, c, op).lines[i].counterparty == Some(op.parent)
  {
    hide Halted, Charged, Credited, SpendLeft, Balance;
  }

  lemma PerformDepth(env: Env, policy: Policy, c: Chain, ev: Event, i: nat)
    requires Drawn(ev) && i < |Perform(env, policy, c, ev).1|
    ensures RoomBelow(c.tree, Perform(env, policy, c, ev).1[i], policy.maxDepth)
  {
    hide Perform, Batch, PlanOf;
    var es := Perform(env, policy, c, ev).1;
    var lines := PerformParts(env, policy, c, ev);
    if es[i].kind.Allocation? {
      assert es[..|lines|][i] == es[i] && OfLine(es[i], lines[i]);
      if PlanOf(env, policy, c, ev.op).Deny? { DenyTrips(env, policy, c, ev.op); }
      PlanDepth(env, policy, c, ev.op, i);
    }
  }

  /** No scope is ever deeper than the policy allows. */
  lemma {:induction false} DepthBounded(env: Env, policy: Policy, unit: Unit, events: seq<Event>)
    requires forall i :: 0 <= i < |events| ==> Drawn(events[i])
    ensures Shallow(RunOps(env, policy, unit, events).c.tree, policy.maxDepth)
  {
    hide Perform, Batch, Shape, Governs, RoomBelow;
    if |events| > 0 {
      var init, ev := events[..|events| - 1], events[|events| - 1];
      DepthBounded(env, policy, unit, init);
      var before := RunOps(env, policy, unit, init);
      var at := Writing(env, Flat(before.batches));
      var (d, es) := Perform(at, policy, before.c, ev);
      if es != [] {
        PerformShape(at, policy, before.c, ev);
        BatchGoverns(at, before.c, es, d);
        forall i | 0 <= i < |es| ensures RoomBelow(before.c.tree, es[i],
              policy.maxDepth) { PerformDepth(at, policy, before.c, ev, i); }
        ShallowAll(before.c.tree, es, policy.maxDepth);
      }
    }
  }
}
