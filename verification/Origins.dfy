/**
 What an accepted chain says of itself: every part of the state it implies goes back to
 the entries that made it so.
 */
module Origins {
  import opened Vocabulary
  import opened Dicts
  import opened Engine
  import opened Replays
  import opened Laws
  import opened Trees
  import Forms
  import Merkle

  /** The view after the first `n` entries of a chain. */
  function After(env: Env, mode: Mode, unit: Unit, entries: seq<Entry>, n: nat): Result<View>
    requires n <= |entries|
  {
    Steps(env, mode, Over(EmptyChain(unit)), entries[..n])
  }

  lemma {:induction false} EachAccepted(env: Env, mode: Mode, unit: Unit, entries: seq<Entry>, i: nat)
    requires Steps(env, mode, Over(EmptyChain(unit)), entries).Ok? && i < |entries|
    ensures After(env, mode, unit, entries, i).Ok?
    ensures After(env, mode, unit, entries, i + 1)
              == Step(env, mode, After(env, mode, unit, entries, i).value, entries[i])
    ensures After(env, mode, unit, entries, i + 1).Ok?
    decreases |entries| - i
  {
    hide Step;
    assert entries[..i + 1][..i] == entries[..i];
    if i + 1 == |entries| {
      assert entries[..i + 1] == entries;
    } else {
      EachAccepted(env, mode, unit, entries, i + 1);
    }
  }

  // -- the entry itself ---------------------------------------------------------------------------

  /** Nothing but a release, a spend, or a refund of the newest version carries a reference,
      and nothing of the first version does. */
  predicate RefersRightly(e: Entry) {
    e.ref.Some? ==> Referencing(e.kind, e.version) && !e.version.V1?
  }

  lemma StepRefers(env: Env, mode: Mode, v: View, e: Entry)
    requires Step(env, mode, v, e).Ok?
    ensures RefersRightly(e) && (e.kind.HoldVoid? && !e.version.V1? ==> e.ref.Some?)
    ensures e.kind.Reversal? && e.ref.Some? ==>
              env.resolve(e.ref.value).Some? && env.resolve(e.ref.value).value.kind.Spend?
              && env.resolve(e.ref.value).value.scope == e.scope
  {
    hide TextRule, AmountRule, Begin, Govern, AddTotals, Merkle.Extend, Place, Close, FirstOf;
  }

  lemma StepSeals(env: Env, mode: Mode, v: View, e: Entry)
    requires Step(env, mode, v, e).Ok? && e.kind.Seal? && !v.c.tip.legacyApplied
    ensures env.sealsNothing(e.memo)
  {
    var o := Opening(env, mode, v.c.unit, v.c.tip, v.txn, e);
    SameApplied(env, mode, v.c.unit, v.c.tip, v.txn, e);
    hide Opening, Booking, Govern, AddTotals, Merkle.Extend;
  }

  lemma SameApplied(env: Env, mode: Mode, unit: Unit, tip: Tip, txn: Txn, e: Entry)
    requires Opening(env, mode, unit, tip, txn, e).Ok?
    ensures Opening(env, mode, unit, tip, txn, e).value.0.legacyApplied == tip.legacyApplied
    ensures ZeroValue(e.kind) ==> !e.version.V1?
  {
    hide TextAllowed, Begin;
  }

  /** Every accepted entry records the balance it leaves its scope, refers only to what its
      kind and version may, and, refunding a named spend, stays in that spend's scope. */
  lemma EntryTellsTruth(env: Env, mode: Mode, unit: Unit, entries: seq<Entry>, i: nat)
    requires Steps(env, mode, Over(EmptyChain(unit)), entries).Ok? && i < |entries|
    ensures After(env, mode, unit, entries, i + 1).Ok?
    ensures var e, p := entries[i], After(env, mode, unit, entries, i + 1).value.c.purse;
            Get(p.balances, e.scope) == e.balanceAfter && RefersRightly(e)
    ensures var e := entries[i];
            e.kind.Reversal? && e.ref.Some? ==>
              env.resolve(e.ref.value).Some? && env.resolve(e.ref.value).value.kind.Spend?
              && env.resolve(e.ref.value).value.scope == e.scope
  {
    hide Step;
    EachAccepted(env, mode, unit, entries, i);
    var v := After(env, mode, unit, entries, i).value;
    StepRefers(env, mode, v, entries[i]);
    var txn := StepParts(env, mode, v, entries[i]);
    hide HoldRule, Begin, AddTotals, LegalDirection;
    RecordsBalance(mode, v.c.purse, entries[i]);
  }

  lemma RecordsBalance(mode: Mode, p: Purse, e: Entry)
    requires LegalDirection(e.kind, e.direction) && (ZeroValue(e.kind) ==> e.direction.Neutral?)
    requires BalanceRule(p, e).Ok? && FlowRule(mode, BalanceRule(p, e).value, e).Ok?
    ensures Get(FlowRule(mode, BalanceRule(p, e).value, e).value.balances, e.scope) == e.balanceAfter
  {
  }

  // -- transfers, transaction by transaction --------------------------------------------------------

  /** What the transfers among some entries add up to. */
  function NetOf(entries: seq<Entry>): int {
    if |entries| == 0 then 0 else NetOf(entries[..|entries| - 1]) + NetDelta(entries[|entries| - 1])
  }

  lemma {:induction false} NetIs(env: Env, mode: Mode, unit: Unit, entries: seq<Entry>)
    requires Steps(env, mode, Over(EmptyChain(unit)), entries).Ok?
    ensures Steps(env, mode, Over(EmptyChain(unit)), entries).value.txn.net == NetOf(entries)
  {
    hide Step;
    if |entries| > 0 {
      var init, e := entries[..|entries| - 1], entries[|entries| - 1];
      NetIs(env, mode, unit, init);
      var w := Steps(env, mode, Over(EmptyChain(unit)), init).value;
      var txn := StepParts(env, mode, w, e);
      NetStep(w, txn, e);
    }
  }

  lemma OpensClosed(x: Txn, e: Entry)
    requires Begin(x, e).Ok? && x.id.Some? && x.id != Some(e.txn)
    ensures x.net == 0
  {
  }

  /** Every transaction's transfers cancel out: wherever one ends and another begins, all
      transfers so far add up to nothing. */
  lemma TransactionsBalance(env: Env, mode: Mode, unit: Unit, entries: seq<Entry>, i: nat)
    requires Steps(env, mode, Over(EmptyChain(unit)), entries).Ok? && 0 < i < |entries|
    requires entries[i - 1].txn != entries[i].txn
    ensures NetOf(entries[..i]) == 0
  {
    hide Step;
    EachAccepted(env, mode, unit, entries, i);
    var v := After(env, mode, unit, entries, i).value;
    NetIs(env, mode, unit, entries[..i]);
    StepsTxn(env, mode, Over(EmptyChain(unit)), entries[..i]);
    var txn := StepParts(env, mode, v, entries[i]);
    OpensClosed(v.txn, entries[i]);
  }

  // -- keys only a number is known of ------------------------------------------------------------------

  predicate ReleasesUnnamed(e: Entry, key: HoldKey) { e.kind.HoldVoid? && e.version.V1? && Key(e) == key }

  lemma AmbiguousOne(h: Holds, txn: Txn, e: Entry)
    requires HoldRule(h, txn, e).Ok?
    ensures HoldRule(h, txn, e).value.0.ambiguous
         == h.ambiguous + if e.kind.HoldVoid? && e.version.V1? then {Key(e)} else {}
  {
    hide Drop, FirstOf, Counted, Key;
  }

  /** The keys of which only a number of open holds is certain are exactly those of a
      release that named none. */
  lemma {:induction false} AmbiguousExactly(env: Env, mode: Mode, unit: Unit, entries: seq<Entry>, key: HoldKey)
    requires Steps(env, mode, Over(EmptyChain(unit)), entries).Ok?
    ensures key in Steps(env, mode, Over(EmptyChain(unit)), entries).value.c.holds.ambiguous
       <==> exists i :: 0 <= i < |entries| && ReleasesUnnamed(entries[i], key)
  {
    hide Step, ReleasesUnnamed;
    if |entries| > 0 {
      var init, e := entries[..|entries| - 1], entries[|entries| - 1];
      AmbiguousExactly(env, mode, unit, init, key);
      var w := Steps(env, mode, Over(EmptyChain(unit)), init).value;
      var txn := StepParts(env, mode, w, e);
      AmbiguousOne(w.c.holds, Netted(txn, e), e);
      hide HoldRule;
      Unnames(e, key);
      if i :| 0 <= i < |init| && ReleasesUnnamed(init[i], key) { assert ReleasesUnnamed(entries[i], key); }
      if ReleasesUnnamed(e, key) { assert ReleasesUnnamed(entries[|entries| - 1], key); }
    }
  }

  lemma Unnames(e: Entry, key: HoldKey)
    ensures ReleasesUnnamed(e, key) <==> key in (if e.kind.HoldVoid? && e.version.V1? then {Key(e)} else {})
  {
  }

  // -- the tree -----------------------------------------------------------------------------------------

  predicate Creates(e: Entry,
                    s: Scope) { e.scope == s && (e.kind.Funding? || (e.kind.Allocation? && !e.direction.Debit?)) }

  /** What a scope was granted: every funding of it, and the delegation that created it. */
  function GrantedTo(entries: seq<Entry>, s: Scope): int {
    if |entries| == 0 then 0
    else
      var e := entries[|entries| - 1];
      GrantedTo(entries[..|entries| - 1], s) + if Creates(e, s) then e.amount else 0
  }

  /** The first entry that grants a scope something is what created it. */
  function Creator(entries: seq<Entry>, s: Scope): Option<Entry> {
    if |entries| == 0 then None
    else
      var before := Creator(entries[..|entries| - 1], s);
      if before.Some? then before
      else if Creates(entries[|entries| - 1], s) then Some(entries[|entries| - 1]) else None
  }

  /** The newest trip or reset of a scope. */
  function LastControl(entries: seq<Entry>, s: Scope): Option<Entry> {
    if |entries| == 0 then None
    else
      var e := entries[|entries| - 1];
      if e.scope == s && (e.kind.CircuitTripped? || e.kind.CircuitReset?) then Some(e)
      else LastControl(entries[..|entries| - 1], s)
  }

  /** A scope's record goes back to the entry that created it and those that funded it. */
  ghost predicate NodeTold(t: Tree, s: Scope, creator: Option<Entry>, granted: int) {
    && (s in t.nodes.at <==> creator.Some?)
    && (s in t.nodes.at ==>
          var n, e := t.nodes.at[s], creator.value;
          && n.created == e.time && n.allotted == granted
          && n.parent == if e.kind.Funding? then None else Some(Other(e)))
  }

  /** Its breaker is as the newest control entry left it. */
  ghost predicate TripTold(t: Tree, s: Scope, last: Option<Entry>) {
    && (s in t.tripped <==> last.Some? && last.value.kind.CircuitTripped?)
    && (s in t.tripped ==> t.tripped[s] == Trip(last.value.time, last.value.memo))
  }

  lemma NodeStep(t: Tree, e: Entry, s: Scope, creator: Option<Entry>, granted: int)
    requires Govern(t, e).Ok? && NodeTold(t, s, creator, granted) && (creator.None? ==> granted == 0)
    ensures NodeTold(Govern(t, e).value, s, if creator.Some? then creator else if Creates(e, s) then Some(e) else None,
                     granted + if Creates(e, s) then e.amount else 0)
  {
  }

  lemma TripStep(t: Tree, e: Entry, s: Scope, last: Option<Entry>)
    requires Govern(t, e).Ok? && TripTold(t, s, last)
    ensures TripTold(Govern(t, e).value, s,
                     if e.scope == s && (e.kind.CircuitTripped? || e.kind.CircuitReset?) then Some(e) else last)
  {
  }

  /** The delegation tree an accepted chain implies tells the chain: each scope was created
      when its first grant was entered, under the scope that grant came from, and is allotted
      the sum of its grants; it is tripped exactly if its newest control entry is a trip, as
      of that entry's time and for its reason. */
  lemma {:induction false} TreeTellsChain(env: Env, mode: Mode, unit: Unit, entries: seq<Entry>, s: Scope)
    requires Steps(env, mode, Over(EmptyChain(unit)), entries).Ok?
    ensures var t := Steps(env, mode, Over(EmptyChain(unit)), entries).value.c.tree;
            && NodeTold(t, s, Creator(entries, s), GrantedTo(entries, s)) && TripTold(t, s, LastControl(entries, s))
            && (Creator(entries, s).None? ==> GrantedTo(entries, s) == 0)
  {
    hide Step, Govern;
    if |entries| > 0 {
      var init, e := entries[..|entries| - 1], entries[|entries| - 1];
      TreeTellsChain(env, mode, unit, init, s);
      var w := Steps(env, mode, Over(EmptyChain(unit)), init).value;
      StepTree(env, mode, w, e);
      hide NodeTold, TripTold;
      NodeStep(w.c.tree, e, s, Creator(init, s), GrantedTo(init, s));
      TripStep(w.c.tree, e, s, LastControl(init, s));
    }
  }

  /** The entry creates its scope. */
  predicate CreatesNew(before: seq<Entry>, e: Entry) { Creates(e, e.scope) && Creator(before, e.scope).None? }

  /** The scopes created so far, in the order they were. */
  function ScopesOf(entries: seq<Entry>): seq<Scope> {
    if |entries| == 0 then []
    else
      var init, e := entries[..|entries| - 1], entries[|entries| - 1];
      ScopesOf(init) + if CreatesNew(init, e) then [e.scope] else []
  }

  /** Those of them created by a funding. */
  function RootsOf(entries: seq<Entry>): seq<Scope> {
    if |entries| == 0 then []
    else
      var init, e := entries[..|entries| - 1], entries[|entries| - 1];
      RootsOf(init) + if CreatesNew(init, e) && e.kind.Funding? then [e.scope] else []
  }

  /** Those of them created by a delegation from `s`. */
  function ChildrenOf(entries: seq<Entry>, s: Scope): seq<Scope> {
    if |entries| == 0 then []
    else
      var init, e := entries[..|entries| - 1], entries[|entries| - 1];
      ChildrenOf(init, s) + if CreatesNew(init, e) && !e.kind.Funding? && Other(e) == s then [e.scope] else []
  }

  lemma FamilyStep(t: Tree, e: Entry, isNew: bool, s: Scope)
    requires Govern(t, e).Ok? && isNew == (Creates(e, e.scope) && e.scope !in t.nodes.at)
    ensures var u := Govern(t, e).value;
            var more := if isNew && !e.kind.Funding? && Other(e) == s then [e.scope] else [];
            && u.nodes.order == t.nodes.order + (if isNew then [e.scope] else [])
            && u.roots == t.roots + (if isNew && e.kind.Funding? then [e.scope] else [])
            && (s in t.nodes.at ==> s in u.nodes.at && u.nodes.at[s].children == t.nodes.at[s].children + more)
            && (s !in t.nodes.at && s in u.nodes.at ==> u.nodes.at[s].children == [])
            && (isNew && !e.kind.Funding? && Other(e) == s ==> s in t.nodes.at)
  {
  }

  /** The delegation tree lists scopes, roots and the children of each in the order the
      chain created them, and no other. */
  lemma {:induction false} FamilyTellsChain(env: Env, mode: Mode, unit: Unit, entries: seq<Entry>, s: Scope)
    requires Steps(env, mode, Over(EmptyChain(unit)), entries).Ok?
    ensures var t := Steps(env, mode, Over(EmptyChain(unit)), entries).value.c.tree;
            && t.nodes.order == ScopesOf(entries) && t.roots == RootsOf(entries)
            && ChildrenOf(entries, s) == if s in t.nodes.at then t.nodes.at[s].children else []
  {
    hide Step, Govern, Creates, Creator;
    if |entries| > 0 {
      var init, e := entries[..|entries| - 1], entries[|entries| - 1];
      FamilyTellsChain(env, mode, unit, init, s);
      TreeTellsChain(env, mode, unit, init, e.scope);
      var w := Steps(env, mode, Over(EmptyChain(unit)), init).value;
      StepTree(env, mode, w, e);
      hide TripTold;
      FamilyStep(w.c.tree, e, CreatesNew(init, e), s);
    }
  }

  lemma GovernKnows(t: Tree, e: Entry)
    requires Govern(t, e).Ok? && !Scopeless(e.kind)
    ensures e.scope in Govern(t, e).value.nodes.at && t.nodes.at.Keys <= Govern(t, e).value.nodes.at.Keys
  {
  }

  lemma GovernKeepsKnown(t: Tree, e: Entry)
    requires Govern(t, e).Ok?
    ensures t.nodes.at.Keys <= Govern(t, e).value.nodes.at.Keys
  {
  }

  /** Every entry that belongs to a scope belongs to one the chain created. */
  lemma {:induction false} ScopesKnown(env: Env, mode: Mode, unit: Unit, entries: seq<Entry>, i: nat)
    requires Steps(env, mode, Over(EmptyChain(unit)), entries).Ok? && i < |entries| && !Scopeless(entries[i].kind)
    ensures entries[i].scope in Steps(env, mode, Over(EmptyChain(unit)), entries).value.c.tree.nodes.at
  {
    hide Step, Govern;
    var init, e := entries[..|entries| - 1], entries[|entries| - 1];
    var w := Steps(env, mode, Over(EmptyChain(unit)), init).value;
    StepTree(env, mode, w, e);
    if i < |init| {
      ScopesKnown(env, mode, unit, init, i);
      GovernKeepsKnown(w.c.tree, e);
    } else {
      GovernKnows(w.c.tree, e);
    }
  }

  // -- lifetime flows ------------------------------------------------------------------------------------

  /** The rule on lifetime refunds holds of every entry: it is written now, or of the newest version. */
  ghost predicate Bound(mode: Mode, entries: seq<Entry>) {
    mode.writing || forall i :: 0 <= i < |entries| ==> entries[i].version.V3?
  }

  lemma FlowStep(mode: Mode, p: Purse, e: Entry, s: Scope)
    requires BalanceRule(p, e).Ok? && FlowRule(mode, BalanceRule(p, e).value, e).Ok?
    requires Get(p.refunded, s) <= Get(p.spent, s) && (mode.writing || e.version.V3?)
               && (e.kind.Spend? ==> e.amount > 0)
    ensures var q := FlowRule(mode, BalanceRule(p, e).value, e).value; Get(q.refunded, s) <= Get(q.spent, s)
  {
  }

  /** On a chain of writes, or of the newest version, no scope is ever refunded more than it
      spent. */
  lemma {:induction false} RefundsWithinSpend(env: Env, mode: Mode, unit: Unit, entries: seq<Entry>, s: Scope)
    requires Steps(env, mode, Over(EmptyChain(unit)), entries).Ok? && Bound(mode, entries)
    ensures var p := Steps(env, mode, Over(EmptyChain(unit)), entries).value.c.purse;
            Get(p.refunded, s) <= Get(p.spent, s)
  {
    hide Step;
    if |entries| > 0 {
      var init, e := entries[..|entries| - 1], entries[|entries| - 1];
      RefundsWithinSpend(env, mode, unit, init, s);
      var w := Steps(env, mode, Over(EmptyChain(unit)), init).value;
      var txn := StepParts(env, mode, w, e);
      StepForm(env, mode, w, e);
      hide HoldRule, Begin, AddTotals, BalanceRule, FlowRule, Merkle.Extend;
      FlowStep(mode, w.c.purse, e, s);
    }
  }

  // -- the seal --------------------------------------------------------------------------------------------

  lemma StepApplies(env: Env, mode: Mode, v: View, e: Entry)
    requires Step(env, mode, v, e).Ok?
    ensures Step(env, mode, v, e).value.c.tip.legacyApplied == (v.c.tip.legacyApplied || !e.version.V1?)
  {
    SameApplied(env, mode, v.c.unit, v.c.tip, v.txn, e);
    hide Opening, Booking, Govern, AddTotals, Merkle.Extend;
  }

  lemma {:induction false} AppliedIs(env: Env, mode: Mode, unit: Unit, entries: seq<Entry>)
    requires Steps(env, mode, Over(EmptyChain(unit)), entries).Ok?
    ensures Steps(env, mode, Over(EmptyChain(unit)), entries).value.c.tip.legacyApplied
       <==> exists i :: 0 <= i < |entries| && !entries[i].version.V1?
  {
    hide Step;
    if |entries| > 0 {
      var init, e := entries[..|entries| - 1], entries[|entries| - 1];
      AppliedIs(env, mode, unit, init);
      StepApplies(env, mode, Steps(env, mode, Over(EmptyChain(unit)), init).value, e);
      if i :| 0 <= i < |init| && !init[i].version.V1? { assert !entries[i].version.V1?; }
      if !e.version.V1? { assert !entries[|entries| - 1].version.V1?; }
    }
  }

  /** The one seal of an accepted chain vouches for what came before it. */
  lemma SealVouches(env: Env, mode: Mode, unit: Unit, entries: seq<Entry>, i: nat)
    requires Steps(env, mode, Over(EmptyChain(unit)), entries).Ok? && i < |entries| && entries[i].kind.Seal?
    ensures env.sealsNothing(entries[i].memo)
  {
    hide Step, Steps;
    Forms.EveryChainIsFormal(env, mode, unit, entries);
    assert Forms.Border(entries, i);
    forall j | 0 <= j < i ensures entries[j].version.V1? {
      assert Forms.Rank(entries[j].version) <= Forms.Rank(entries[i - 1].version) by {
        if j < i - 1 { assert 0 < Forms.Rank(entries[j].version) <= Forms.Rank(entries[i - 1].version); }
      }
      assert !entries[j].version.Unknown?;
    }
    hide Forms.Formal;
    EachAccepted(env, mode, unit, entries, i);
    AppliedIs(env, mode, unit, entries[..i]);
    StepSeals(env, mode, After(env, mode, unit, entries, i).value, entries[i]);
  }
}
