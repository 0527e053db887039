/**
 What a ledger accepts, said of its entries alone: an entry is accepted if and only if it
 agrees with the entries before it.  No state the engine keeps is named in what agreeing
 means, so the engine's state is at every point what those entries say it is, and no rule
 refuses more than that or less.
 */
module Acceptance {
  import opened Vocabulary
  import opened Dicts
  import opened Engine
  import opened Replays
  import opened Laws
  import opened Trees
  import opened Forms
  import opened Origins
  import Merkle

  // -- what the entries so far add up to ----------------------------------------------------------

  function HeadOf(unit: Unit, before: seq<Entry>): Hash {
    if |before| == 0 then unit.genesis else before[|before| - 1].hash
  }

  function BalanceOf(before: seq<Entry>, s: Scope): int {
    if |before| == 0 then 0
    else
      var e := before[|before| - 1];
      BalanceOf(before[..|before| - 1], s) + if e.scope == s then Signed(e.direction, e.amount) else 0
  }

  function SpentBy(before: seq<Entry>, s: Scope): int {
    if |before| == 0 then 0
    else
      var e := before[|before| - 1];
      SpentBy(before[..|before| - 1], s) + if e.kind.Spend? && e.scope == s then e.amount else 0
  }

  function RefundedTo(before: seq<Entry>, s: Scope): int {
    if |before| == 0 then 0
    else
      var e := before[|before| - 1];
      RefundedTo(before[..|before| - 1], s) + if e.kind.Reversal? && e.scope == s then e.amount else 0
  }

  /** Where the hold of an id stands among those open. */
  function Named(open: seq<Entry>, id: Id): (r: Option<nat>)
    ensures r.Some? ==> r.value < |open| && open[r.value].id == id
    ensures r.None? ==> forall i :: 0 <= i < |open| ==> open[i].id != id
    ensures r.Some? ==> forall i :: 0 <= i < r.value ==> open[i].id != id
  {
    if |open| == 0 then None
    else if open[0].id == id then Some(0)
    else match Named(open[1..], id) case None => None case Some(n) => Some(n + 1)
  }

  /** Where the oldest open hold of a scope and amount stands. */
  function Oldest(open: seq<Entry>, key: HoldKey): (r: Option<nat>)
    ensures r.Some? ==> r.value < |open| && Key(open[r.value]) == key
    ensures r.None? ==> forall i :: 0 <= i < |open| ==> Key(open[i]) != key
    ensures r.Some? ==> forall i :: 0 <= i < r.value ==> Key(open[i]) != key
  {
    if |open| == 0 then None
    else if Key(open[0]) == key then Some(0)
    else match Oldest(open[1..], key) case None => None case Some(n) => Some(n + 1)
  }

  function Without(open: seq<Entry>, n: Option<nat>): seq<Entry> {
    match n
    case None => open
    case Some(i) => if i < |open| then open[..i] + open[i + 1..] else open
  }

  /** What an entry does to the open holds: a hold opens, a release closes the one it names,
      and one of the first version the oldest of its scope and amount. */
  function OpenNext(open: seq<Entry>, e: Entry): seq<Entry> {
    match e.kind
    case Hold => (match Named(open, e.id) case None => open + [e] case Some(i) => open[i := e])
    case HoldVoid =>
      Without(open, if e.version.V1? || e.ref.None? then Oldest(open, Key(e)) else Named(open, e.ref.value))
    case _ => open
  }

  /** The holds open, oldest first. */
  function OpenAfter(before: seq<Entry>): seq<Entry> {
    if |before| == 0 then []
    else OpenNext(OpenAfter(before[..|before| - 1]), before[|before| - 1])
  }

  predicate ReleasesNamed(e: Entry, id: Id) { e.kind.HoldVoid? && !e.version.V1? && e.ref == Some(id) }

  /** An entry released the hold, and only its own transaction followed. */
  ghost predicate ReleasedIn(before: seq<Entry>, txn: Id, id: Id) {
    exists j :: 0 <= j < |before| && ReleasesNamed(before[j], id)
                && forall k :: j <= k < |before| ==> before[k].txn == txn
  }

  // -- when an entry agrees with them ---------------------------------------------------------------

  ghost predicate Linked(env: Env, mode: Mode, unit: Unit, before: seq<Entry>, e: Entry) {
    && e.sequence == |before| + 1 && e.prevHash == HeadOf(unit, before) && !e.version.Unknown?
    && (mode.checkHash ==> env.digest(e) == e.hash)
  }

  ghost predicate HasFirst(before: seq<Entry>) { exists i :: 0 <= i < |before| && before[i].version.V1? }

  ghost predicate HasLater(before: seq<Entry>) { exists i :: 0 <= i < |before| && !before[i].version.V1? }

  ghost predicate HasThird(before: seq<Entry>) { exists i :: 0 <= i < |before| && before[i].version.V3? }

  ghost predicate HasSeal(before: seq<Entry>) { exists i :: 0 <= i < |before| && before[i].kind.Seal? }

  /** Formats never go back, and a seal comes between the first version and the rest. */
  ghost predicate InFormat(before: seq<Entry>, e: Entry) {
    && (e.version.V1? ==> !HasLater(before) && e.ref.None? && !ZeroValue(e.kind))
    && (e.version.V2? ==> !HasThird(before))
    && (!e.version.V1? && HasFirst(before) && !HasLater(before) ==> e.kind.Seal?)
  }

  /** A checkpoint names a place before it, past every place named so far. */
  ghost predicate NamesNext(env: Env, before: seq<Entry>, e: Entry) {
    e.kind.Checkpoint? ==>
      && env.readCheckpoint(e.memo).Some? && env.readCheckpoint(e.memo).value.0 < e.sequence
      && forall i :: 0 <= i < |before| && before[i].kind.Checkpoint? && env.readCheckpoint(before[i].memo).Some? ==>
                       env.readCheckpoint(before[i].memo).value.0 < env.readCheckpoint(e.memo).value.0
  }

  ghost predicate Sealing(env: Env, before: seq<Entry>, e: Entry) {
    e.kind.Seal? ==> !HasSeal(before) && HasFirst(before) && (!HasLater(before) ==> env.sealsNothing(e.memo))
  }

  ghost predicate Formed(env: Env, unit: Unit, before: seq<Entry>, e: Entry) {
    && WellShaped(unit, e) && InFormat(before, e) && NamesNext(env, before, e) && Sealing(env, before, e)
    && (e.version.V3? && |before| > 0 ==> before[|before| - 1].time <= e.time)
  }

  /** The transfers of a transaction cancel out before the next begins. */
  ghost predicate Turns(before: seq<Entry>, e: Entry) {
    |before| > 0 && before[|before| - 1].txn != e.txn ==> NetOf(before) == 0
  }

  /** The hold an entry releases or settles is there to be released or settled. */
  ghost predicate Holding(before: seq<Entry>, e: Entry) {
    match e.kind
    case HoldVoid =>
      if e.version.V1? then exists i :: 0 <= i < |OpenAfter(before)| && Key(OpenAfter(before)[i]) == Key(e)
      else
        && e.ref.Some?
        && exists i :: 0 <= i < |OpenAfter(before)| && OpenAfter(before)[i].id == e.ref.value
                       && Key(OpenAfter(before)[i]) == Key(e)
    case Spend => e.ref.Some? ==> ReleasedIn(before, e.txn, e.ref.value)
    case _ => e.ref.Some? ==> Referencing(e.kind, e.version)
  }

  /** A refund that names a spend leaves it not over-refunded, and no refund of the newest
      version, or written now, takes back more than its scope has spent. */
  ghost predicate Refunding(env: Env, mode: Mode, before: seq<Entry>, e: Entry) {
    e.kind.Reversal? ==>
      && (e.ref.Some? ==>
            && env.resolve(e.ref.value).Some?
            && var s := env.resolve(e.ref.value).value;
               s.kind.Spend? && s.scope == e.scope && RefundsNaming(before, e.ref.value) + e.amount <= s.amount)
      && (mode.writing || e.version.V3? ==> RefundedTo(before, e.scope) + e.amount <= SpentBy(before, e.scope))
  }

  predicate Known(before: seq<Entry>, s: Scope) { Creator(before, s).Some? }

  predicate ChildOf(before: seq<Entry>, child: Scope, parent: Scope) {
    Known(before, child) && Creator(before, child).value.kind.Allocation?
          && Other(Creator(before, child).value) == parent
  }

  /** The scopes an entry is of are known, or new where it creates one. */
  predicate Scoped(before: seq<Entry>, e: Entry) {
    match e.kind
    case Funding => Known(before, e.scope) ==> Creator(before, e.scope).value.kind.Funding?
    case Allocation =>
      if e.direction.Debit? then Known(before, e.scope) else !Known(before, e.scope) && Known(before, Other(e))
    case Release =>
      && Known(before, e.scope)
      && if e.direction.Debit? then ChildOf(before, e.scope, Other(e)) else ChildOf(before, Other(e), e.scope)
    case Seal | Checkpoint => true
    case _ => Known(before, e.scope)
  }

  ghost predicate Agrees(env: Env, mode: Mode, unit: Unit, before: seq<Entry>, e: Entry) {
    && Linked(env, mode, unit, before, e) && Formed(env, unit, before, e) && Turns(before, e)
    && e.balanceAfter == BalanceOf(before, e.scope) + Signed(e.direction, e.amount)
    && Holding(before, e) && Refunding(env, mode, before, e) && Scoped(before, e)
  }

  // -- the engine's state is what they say ------------------------------------------------------------

  /** An ordered dictionary of holds shows a list of them. */
  ghost predicate Shows(d: Dict<Id, Entry>, open: seq<Entry>) {
    && d.Valid() && |d.order| == |open|
    && forall i :: 0 <= i < |open| ==> d.order[i] == open[i].id && d.order[i] in d.at && d.at[d.order[i]] == open[i]
  }

  /** The money, the open holds and the open transaction are those of the entries. */
  ghost predicate Mirrors(v: View, before: seq<Entry>) {
    && Money(v.c.purse, before) && Shows(v.c.holds.open, OpenAfter(before))
    && v.start == 0 && v.c.spendRefunds == map[] && (forall id :: Get(v.recent, id) == RefundsNaming(before, id))
    && v.txn.net == NetOf(before) && Releasing(v.txn, before)
  }

  ghost predicate Money(p: Purse, before: seq<Entry>) {
    forall s :: Get(p.balances, s) == BalanceOf(before, s) && Get(p.spent, s) == SpentBy(before, s)
                && Get(p.refunded, s) == RefundedTo(before, s)
  }

  ghost predicate Releasing(txn: Txn, before: seq<Entry>) {
    && txn.id == (if |before| == 0 then None else Some(before[|before| - 1].txn))
    && forall id :: id in txn.settleable <==> |before| > 0 && ReleasedIn(before, before[|before| - 1].txn, id)
  }

  /** What the end of the chain allows next is what the entries say. */
  ghost predicate EndsAs(env: Env, t: Tip, unit: Unit, before: seq<Entry>) {
    && t.length == |before| && t.head == HeadOf(unit, before)
    && (t.sawV1 <==> HasFirst(before)) && (t.sawV2 <==> HasLater(before)) && (t.sawV3 <==> HasThird(before))
    && (t.seal.Some? <==> HasSeal(before)) && (t.legacyApplied <==> HasLater(before))
    && t.lastTime == (if |before| == 0 then None else Some(before[|before| - 1].time))
    && Checkpointed(env, t.lastCheckpoint, before)
  }

  ghost predicate Checkpointed(env: Env, last: Option<(int, Hash)>, before: seq<Entry>) {
    && (forall i :: 0 <= i < |before| && before[i].kind.Checkpoint? ==>
          var named := env.readCheckpoint(before[i].memo);
          named.Some? && last.Some? && named.value.0 <= last.value.0)
    && (last.Some? ==> exists i :: 0 <= i < |before| && before[i].kind.Checkpoint?
                                   && env.readCheckpoint(before[i].memo) == last)
  }

  // -- one rule at a time ---------------------------------------------------------------------------------

  /** An entry is accepted when each rule accepts it, and leaves what each leaves. */
  lemma StepSplits(env: Env, mode: Mode, v: View, e: Entry)
    ensures Step(env, mode, v, e).Ok? <==>
              && AdmitRule(env, mode, v.c.unit, v.c.tip, e).Ok? && Begin(v.txn, e).Ok? && BalanceRule(v.c.purse, e).Ok?
              && HoldRule(v.c.holds, Netted(Begin(v.txn, e).value, e), e).Ok?
              && RefundRule(env, v.c.spendRefunds, v.recent, v.start, e).Ok?
              && FlowRule(mode, BalanceRule(v.c.purse, e).value, e).Ok?
              && SealRule(env, AdmitRule(env, mode, v.c.unit, v.c.tip, e).value, e).Ok? && Govern(v.c.tree, e).Ok?
    ensures Step(env, mode, v, e).Ok? ==>
              var w := Step(env, mode, v, e).value;
              && w.start == v.start && w.c.spendRefunds == v.c.spendRefunds && w.c.unit == v.c.unit
              && w.recent == RefundRule(env, v.c.spendRefunds, v.recent, v.start, e).value
              && w.txn == HoldRule(v.c.holds, Netted(Begin(v.txn, e).value, e), e).value.1
              && w.c.holds == HoldRule(v.c.holds, Netted(Begin(v.txn, e).value, e), e).value.0
              && var q := FlowRule(mode, BalanceRule(v.c.purse, e).value, e).value;
                 w.c.purse == q.(totals := AddTotals(q.totals, e))
  {
    hide AdmitRule, Begin, BalanceRule, HoldRule, RefundRule, FlowRule, SealRule, Govern, AddTotals, Advance;
  }

  lemma AdmitSplits(env: Env, mode: Mode, unit: Unit, t: Tip, e: Entry)
    ensures AdmitRule(env, mode, unit, t, e).Ok? <==>
              && LinkRule(env, mode, t, e).Ok? && VersionRule(t, e).Ok?
              && ShapeRule(env, unit, VersionRule(t, e).value, e).Ok?
  {
    hide VersionRule, ShapeRule;
  }

  lemma VersionExactly(env: Env, t: Tip, unit: Unit, before: seq<Entry>, e: Entry)
    requires EndsAs(env, t, unit, before) && !e.version.Unknown?
    ensures VersionRule(t, e).Ok? <==> InFormat(before, e)
    ensures VersionRule(t, e).Ok? ==>
              VersionRule(t, e).value == t.(sawV1 := t.sawV1 || e.version.V1?, sawV2 := t.sawV2 || !e.version.V1?,
                                            sawV3 := t.sawV3 || e.version.V3?)
  {
    hide HasFirst, HasLater, HasThird, HasSeal, Checkpointed;
  }

  lemma TextExactly(t: Tip, e: Entry)
    ensures TextRule(t, e).Ok? <==>
              && TextAllowed(e.scope, MAX_ID_BYTES, true) && TextAllowed(e.memo, MAX_MEMO_BYTES, false)
              && (e.counterparty.Some? ==> TextAllowed(e.counterparty.value, MAX_ID_BYTES, true))
              && (t.lastTime.Some? ==> t.lastTime.value <= e.time)
  {
    hide TextAllowed;
  }

  lemma CheckpointExactly(env: Env, t: Tip, before: seq<Entry>, e: Entry)
    requires Checkpointed(env, t.lastCheckpoint, before) && e.kind.Checkpoint?
    ensures CheckpointRule(env, t, e).Ok? <==> NamesNext(env, before, e)
    ensures CheckpointRule(env, t, e).Ok? ==>
              CheckpointRule(env, t, e).value == t.(lastCheckpoint := env.readCheckpoint(e.memo))
  {
  }

  lemma AmountExactly(env: Env, unit: Unit, t: Tip, before: seq<Entry>, e: Entry)
    requires Checkpointed(env, t.lastCheckpoint, before) && (t.seal.Some? <==> HasSeal(before))
    requires t.sawV1 <==> HasFirst(before) || e.version.V1?
    requires e.version.V1? ==> !ZeroValue(e.kind)
    ensures AmountRule(env, unit, t, e).Ok? <==>
              && (if ZeroValue(e.kind) then e.amount == 0 && (e.scope == "" <==> Scopeless(e.kind))
                  else e.amount > 0 && (unit.quantum > 1 ==> e.amount % unit.quantum == 0))
              && NamesNext(env, before, e) && (e.kind.Seal? ==> !HasSeal(before) && HasFirst(before))
    ensures AmountRule(env, unit, t, e).Ok? ==>
              AmountRule(env, unit, t, e).value
                == if e.kind.Checkpoint? then t.(lastCheckpoint := env.readCheckpoint(e.memo)) else t
  {
    if e.kind.Checkpoint? { CheckpointExactly(env, t, before, e); }
    hide CheckpointRule, Checkpointed, HasSeal, HasFirst;
  }

  lemma AdmitExactly(env: Env, mode: Mode, unit: Unit, t: Tip, before: seq<Entry>, e: Entry)
    requires EndsAs(env, t, unit, before)
    ensures AdmitRule(env, mode, unit, t, e).Ok? && SealRule(env, AdmitRule(env, mode, unit, t, e).value, e).Ok?
       <==> Linked(env, mode, unit, before, e) && Formed(env, unit, before, e)
    ensures AdmitRule(env, mode, unit, t, e).Ok? ==>
              && AdmitRule(env, mode, unit, t, e).value.legacyApplied == t.legacyApplied
              && AdmitRule(env, mode, unit, t, e).value.lastCheckpoint
                 == if e.kind.Checkpoint? then env.readCheckpoint(e.memo) else t.lastCheckpoint
  {
    AdmitSplits(env, mode, unit, t, e);
    if LinkRule(env, mode, t, e).Ok? {
      VersionExactly(env, t, unit, before, e);
      if VersionRule(t, e).Ok? {
        var s := VersionRule(t, e).value;
        TextExactly(s, e);
        AmountExactly(env, unit, s, before, e);
      }
    }
    hide VersionRule, TextRule, AmountRule, TextAllowed, HasFirst, HasLater, HasThird, HasSeal, Checkpointed, NamesNext;
  }

  lemma BeginExactly(txn: Txn, before: seq<Entry>, e: Entry)
    requires txn.net == NetOf(before) && Releasing(txn, before)
    ensures Begin(txn, e).Ok? <==> Turns(before, e)
  {
    hide NetOf, ReleasedIn;
  }

  lemma RefundExactly(env: Env, mode: Mode, v: View, before: seq<Entry>, e: Entry)
    requires Mirrors(v, before) && BalanceRule(v.c.purse, e).Ok?
    ensures RefundRule(env, v.c.spendRefunds, v.recent, v.start, e).Ok?
              && FlowRule(mode, BalanceRule(v.c.purse, e).value, e).Ok?
       <==> Refunding(env, mode, before, e)
  {
    hide Shows, Releasing, NetOf, OpenAfter, RefundsNaming, SpentBy, RefundedTo, BalanceOf;
  }

  lemma HoldExactly(h: Holds, txn: Txn, begun: Txn, before: seq<Entry>, e: Entry)
    requires Shows(h.open, OpenAfter(before)) && Releasing(txn, before) && Begin(txn, e) == Ok(begun)
    requires e.version.V1? ==> e.ref.None?
    ensures HoldRule(h, Netted(begun, e), e).Ok? <==> Holding(before, e)
  {
    var open := OpenAfter(before);
    hide OpenAfter, Place, Counted;
    if e.kind.HoldVoid? && e.ref.Some? { ShownId(h.open, open, e.ref.value); }
    ShownKey(h.open, open, Key(e));
    BegunReleases(txn, begun, before, e);
    hide Begin, Drop, Releasing, ReleasedIn, Shows, FirstOf;
  }

  /** An id is that of an open hold if and only if it is among those shown. */
  lemma ShownId(d: Dict<Id, Entry>, open: seq<Entry>, id: Id)
    requires Shows(d, open)
    ensures id in d.at <==> exists i :: 0 <= i < |open| && open[i].id == id
    ensures forall i :: 0 <= i < |open| && open[i].id == id ==> id in d.at && d.at[id] == open[i]
  {
    if id in d.at {
      assert id in d.order;
      var i :| 0 <= i < |d.order| && d.order[i] == id;
      assert open[i].id == id;
    }
  }

  lemma ShownKey(d: Dict<Id, Entry>, open: seq<Entry>, key: HoldKey)
    requires Shows(d, open)
    ensures FirstOf(d.order, d.at, key).Some? <==> exists i :: 0 <= i < |open| && Key(open[i]) == key
  {
    hide Key;
    if i :| 0 <= i < |open| && Key(open[i]) == key { assert d.order[i] in d.order; }
    if FirstOf(d.order, d.at, key).Some? {
      var id := FirstOf(d.order, d.at, key).value;
      ShownId(d, open, id);
    }
  }

  /** What may be settled once an entry's transaction is the open one. */
  lemma BegunReleases(txn: Txn, begun: Txn, before: seq<Entry>, e: Entry)
    requires Releasing(txn, before) && Begin(txn, e) == Ok(begun)
    ensures begun.id == Some(e.txn) && begun.net == txn.net
    ensures forall id :: id in begun.settleable <==> ReleasedIn(before, e.txn, id)
  {
  }

  lemma ScopesExactly(t: Tree, before: seq<Entry>, e: Entry)
    requires LegalDirection(e.kind, e.direction)
    requires forall s :: NodeTold(t, s, Creator(before, s), GrantedTo(before, s))
    requires forall s :: Creator(before, s).Some? ==> Creates(Creator(before, s).value, s)
    ensures Govern(t, e).Ok? <==> Scoped(before, e)
  {
    assert NodeTold(t, e.scope, Creator(before, e.scope), GrantedTo(before, e.scope));
    assert NodeTold(t, Other(e), Creator(before, Other(e)), GrantedTo(before, Other(e)));
    hide Creator, GrantedTo;
  }

  // -- what an accepted entry leaves ------------------------------------------------------------------------

  lemma MoneyStep(mode: Mode, p: Purse, before: seq<Entry>, e: Entry)
    requires Money(p, before) && LegalDirection(e.kind, e.direction)
    requires BalanceRule(p, e).Ok? && FlowRule(mode, BalanceRule(p, e).value, e).Ok?
    ensures Money(FlowRule(mode, BalanceRule(p, e).value, e).value, before + [e])
  {
    var all := before + [e];
    assert all[..|all| - 1] == before;
    var q := FlowRule(mode, BalanceRule(p, e).value, e).value;
    forall s ensures Get(q.balances, s) == BalanceOf(all, s) && Get(q.spent, s) == SpentBy(all, s)
                     && Get(q.refunded, s) == RefundedTo(all, s) {
      assert Get(p.balances, s) == BalanceOf(before, s);
    }
  }

  lemma NamingStep(env: Env, v: View, before: seq<Entry>, e: Entry)
    requires v.start == 0 && v.c.spendRefunds == map[] && forall id :: Get(v.recent, id) == RefundsNaming(before, id)
    requires RefundRule(env, v.c.spendRefunds, v.recent, v.start, e).Ok?
    ensures var r := RefundRule(env, v.c.spendRefunds, v.recent, v.start, e).value;
            forall id :: Get(r, id) == RefundsNaming(before + [e], id)
  {
    var all := before + [e];
    assert all[..|all| - 1] == before;
  }

  lemma ReleasedStep(before: seq<Entry>, e: Entry, txn: Id, id: Id)
    ensures ReleasedIn(before + [e], txn, id) <==> e.txn == txn && (ReleasedIn(before, txn, id) || ReleasesNamed(e, id))
  {
    var all := before + [e];
    hide ReleasesNamed;
    if ReleasedIn(before, txn, id) && e.txn == txn {
      var j :| 0 <= j < |before| && ReleasesNamed(before[j], id)
                && forall k :: j <= k < |before| ==> before[k].txn == txn;
      assert ReleasesNamed(all[j], id) && forall k :: j <= k < |all| ==> all[k].txn == txn;
    }
    if ReleasesNamed(e, id) && e.txn == txn {
      assert ReleasesNamed(all[|before|], id);
    }
    if ReleasedIn(all, txn, id) {
      var j :| 0 <= j < |all| && ReleasesNamed(all[j], id) && forall k :: j <= k < |all| ==> all[k].txn == txn;
      assert all[|before|].txn == txn;
      if j < |before| {
        assert ReleasesNamed(before[j], id) && forall k :: j <= k < |before| ==> before[k].txn == all[k].txn;
      }
    }
  }

  lemma ReleasingStep(h: Holds, txn: Txn, begun: Txn, before: seq<Entry>, e: Entry)
    requires Releasing(txn, before) && Begin(txn, e) == Ok(begun) && HoldRule(h, Netted(begun, e), e).Ok?
    ensures Releasing(HoldRule(h, Netted(begun, e), e).value.1, before + [e])
  {
    BegunReleases(txn, begun, before, e);
    var w := HoldRule(h, Netted(begun, e), e).value.1;
    SettleableNext(h, Netted(begun, e), e);
    hide Begin, HoldRule;
    forall id ensures id in w.settleable <==> ReleasedIn(before + [e], e.txn, id) {
      ReleasedStep(before, e, e.txn, id);
    }
  }

  lemma SettleableNext(h: Holds, txn: Txn, e: Entry)
    requires HoldRule(h, txn, e).Ok?
    ensures var w := HoldRule(h, txn, e).value.1;
            w.id == txn.id && forall id :: id in w.settleable <==> id in txn.settleable || ReleasesNamed(e, id)
  {
    hide Place, Close, FirstOf;
  }

  // -- the open holds -----------------------------------------------------------------------------------------

  lemma PutShows(d: Dict<Id, Entry>, open: seq<Entry>, e: Entry)
    requires Shows(d, open)
    ensures Shows(d.Put(e.id, e), match Named(open, e.id) case None => open + [e] case Some(i) => open[i := e])
  {
    PutValid(d, e.id, e);
    ShownId(d, open, e.id);
    if Named(open, e.id).Some? { PutOver(d, open, e, Named(open, e.id).value); }
    hide Named;
  }

  lemma PutOver(d: Dict<Id, Entry>, open: seq<Entry>, e: Entry, n: nat)
    requires Shows(d, open) && n < |open| && open[n].id == e.id && d.Put(e.id, e).Valid()
    ensures Shows(d.Put(e.id, e), open[n := e])
  {
    assert e.id in d.at;
    assert forall i :: 0 <= i < |open| && i != n ==> d.order[i] != d.order[n];
  }

  lemma PopShows(d: Dict<Id, Entry>, open: seq<Entry>, n: nat)
    requires Shows(d, open) && n < |open|
    ensures Shows(d.Pop(open[n].id), open[..n] + open[n + 1..])
  {
    PopValid(d, open[n].id);
    DropOne(d.order, n);
    hide Drop;
    var r, left := d.Pop(open[n].id), open[..n] + open[n + 1..];
    assert r.order == d.order[..n] + d.order[n + 1..];
    forall i | 0 <= i < |left| ensures r.order[i] == left[i].id && r.order[i] in r.at && r.at[r.order[i]] == left[i] {
      var j := if i < n then i else i + 1;
      assert left[i] == open[j] && d.order[j] != d.order[n];
    }
  }

  lemma DropOne(ks: seq<Id>, n: nat)
    requires Distinct(ks) && n < |ks|
    ensures Drop(ks, {ks[n]}) == ks[..n] + ks[n + 1..]
  {
    hide Drop, Distinct;
    OnceOnly(ks, n);
    Around(ks, n);
    DropMiddle(ks[..n], ks[n], ks[n + 1..]);
  }

  lemma Around(ks: seq<Id>, n: nat)
    requires n < |ks|
    ensures (ks[..n] + [ks[n]]) + ks[n + 1..] == ks
  {
  }

  lemma OnceOnly(ks: seq<Id>, n: nat)
    requires Distinct(ks) && n < |ks|
    ensures ks[n] !in ks[..n] && ks[n] !in ks[n + 1..]
  {
    assert forall i :: 0 <= i < n ==> ks[i] != ks[n];
    assert forall i :: n < i < |ks| ==> ks[i] != ks[n];
  }

  lemma DropMiddle(a: seq<Id>, k: Id, b: seq<Id>)
    requires k !in a && k !in b
    ensures Drop((a + [k]) + b, {k}) == a + b
  {
    hide Drop;
    DropAppend(a + [k], b, {k});
    DropLast(a, k, {k});
    DropNone(a, {k});
    DropNone(b, {k});
    assert a + [] == a;
  }

  /** The first hold of a key in the dictionary is the oldest open one. */
  lemma OldestIs(d: Dict<Id, Entry>, open: seq<Entry>, order: seq<Id>, rest: seq<Entry>, key: HoldKey)
    requires |order| == |rest|
    requires forall i :: 0 <= i < |rest| ==> order[i] == rest[i].id && order[i] in d.at && d.at[order[i]] == rest[i]
    ensures FirstOf(order, d.at, key)
         == match Oldest(rest, key) case None => None case Some(n) => Some(rest[n].id)
  {
    hide Key;
    if |order| > 0 && Key(rest[0]) != key { OldestIs(d, open, order[1..], rest[1..], key); }
  }

  lemma PlacedShows(h: Holds, open: seq<Entry>, e: Entry)
    requires Shows(h.open, open) && e.kind.Hold?
    ensures Shows(Place(h, e).open, OpenNext(open, e))
  {
    PutShows(h.open, open, e);
    hide Shows, Counted, Named;
  }

  lemma ClosedShows(h: Holds, open: seq<Entry>, n: nat, id: Id, hold: Entry)
    requires Shows(h.open, open) && n < |open| && id == open[n].id
    ensures Shows(Close(h, id, hold).open, Without(open, Some(n)))
  {
    hide Shows, Counted, Drop;
    PopShows(h.open, open, n);
  }

  lemma UnnamedShows(h: Holds, open: seq<Entry>, e: Entry)
    requires Shows(h.open, open) && e.kind.HoldVoid? && e.version.V1? && ReleaseUnnamed(h, e).Ok?
    ensures Shows(ReleaseUnnamed(h, e).value.open, OpenNext(open, e))
  {
    OldestShown(h.open, open, Key(e));
    hide Close, Shows, FirstOf, Oldest, Without, Key;
    var n := Oldest(open, Key(e)).value;
    ClosedShows(h, open, n, open[n].id, h.open.at[open[n].id]);
  }

  lemma NamedShows(h: Holds, open: seq<Entry>, txn: Txn, e: Entry)
    requires Shows(h.open, open) && e.kind.HoldVoid? && !e.version.V1? && ReleaseNamed(h, txn, e).Ok?
    ensures Shows(ReleaseNamed(h, txn, e).value.0.open, OpenNext(open, e))
  {
    hide Close, Shows, Key, Named, Without;
    NamedShown(h.open, open, e.ref.value);
    ClosedShows(h, open, Named(open, e.ref.value).value, e.ref.value, h.open.at[e.ref.value]);
  }

  lemma OpenGrows(before: seq<Entry>, e: Entry)
    ensures OpenAfter(before + [e]) == OpenNext(OpenAfter(before), e)
  {
    hide OpenNext;
    assert (before + [e])[..|before|] == before;
  }

  lemma HoldsStep(h: Holds, txn: Txn, before: seq<Entry>, e: Entry)
    requires Shows(h.open, OpenAfter(before)) && HoldRule(h, txn, e).Ok?
    ensures Shows(HoldRule(h, txn, e).value.0.open, OpenAfter(before + [e]))
  {
    hide OpenAfter, Place, Shows, ReleaseNamed, ReleaseUnnamed, OpenNext;
    var open := OpenAfter(before);
    OpenGrows(before, e);
    if e.kind.Hold? {
      PlacedShows(h, open, e);
    } else if !e.kind.HoldVoid? {
      OpenStays(open, e);
    } else if e.version.V1? {
      UnnamedShows(h, open, e);
    } else {
      NamedShows(h, open, txn, e);
    }
  }

  lemma OpenStays(open: seq<Entry>, e: Entry)
    requires !e.kind.Hold? && !e.kind.HoldVoid?
    ensures OpenNext(open, e) == open
  {
  }

  ghost predicate OldestRight(d: Dict<Id, Entry>, open: seq<Entry>, key: HoldKey) {
    FirstOf(d.order, d.at, key) == match Oldest(open, key) case None => None case Some(n) => Some(open[n].id)
  }

  lemma OldestShown(d: Dict<Id, Entry>, open: seq<Entry>, key: HoldKey)
    requires Shows(d, open)
    ensures OldestRight(d, open, key)
  {
    OldestIs(d, open, d.order, open, key);
  }

  lemma NamedShown(d: Dict<Id, Entry>, open: seq<Entry>, id: Id)
    requires Shows(d, open) && id in d.at
    ensures Named(open, id).Some?
  {
    ShownId(d, open, id);
  }

  // -- every chain ------------------------------------------------------------------------------------------------

  lemma {:induction false} CreatorCreates(before: seq<Entry>, s: Scope)
    ensures Creator(before, s).Some? ==> Creates(Creator(before, s).value, s)
  {
    if |before| > 0 { CreatorCreates(before[..|before| - 1], s); }
  }

  lemma CheckpointStep(env: Env, a: Option<(int, Hash)>, b: Option<(int, Hash)>, before: seq<Entry>, e: Entry)
    requires Checkpointed(env, a, before)
    requires if e.kind.Checkpoint? then b.Some? && env.readCheckpoint(e.memo) == b
               && (a.Some? ==> a.value.0 < b.value.0)
             else b == a
    ensures Checkpointed(env, b, before + [e])
  {
    var all := before + [e];
    assert forall i :: 0 <= i < |before| ==> all[i] == before[i];
    if e.kind.Checkpoint? {
      assert all[|before|] == e;
    } else if a.Some? {
      var i :| 0 <= i < |before| && before[i].kind.Checkpoint? && env.readCheckpoint(before[i].memo) == a;
      assert all[i].kind.Checkpoint?;
    }
  }

  lemma {:induction false} CheckpointsAre(env: Env, mode: Mode, unit: Unit, entries: seq<Entry>)
    requires Steps(env, mode, Over(EmptyChain(unit)), entries).Ok?
    ensures Checkpointed(env, Steps(env, mode, Over(EmptyChain(unit)), entries).value.c.tip.lastCheckpoint, entries)
  {
    hide Step, WellShaped;
    if |entries| > 0 {
      var init, e := entries[..|entries| - 1], entries[|entries| - 1];
      CheckpointsAre(env, mode, unit, init);
      var v := Steps(env, mode, Over(EmptyChain(unit)), init).value;
      StepShape(env, mode, v, e);
      assert init + [e] == entries;
      CheckpointStep(env, v.c.tip.lastCheckpoint, Step(env, mode, v, e).value.c.tip.lastCheckpoint, init, e);
    }
  }

  /** The end of an accepted chain is what its entries say. */
  lemma EndIsSaid(env: Env, mode: Mode, unit: Unit, entries: seq<Entry>)
    requires Steps(env, mode, Over(EmptyChain(unit)), entries).Ok?
    ensures EndsAs(env, Steps(env, mode, Over(EmptyChain(unit)), entries).value.c.tip, unit, entries)
  {
    FrontierKept(env, mode, unit, entries);
    EveryChainIsFormal(env, mode, unit, entries);
    AppliedIs(env, mode, unit, entries);
    CheckpointsAre(env, mode, unit, entries);
    hide Steps, NeverBack, SealedOnce, InTime, Checkpointed, Merkle.Folded, Leaves;
  }

  lemma MirrorStep(env: Env, mode: Mode, v: View, before: seq<Entry>, e: Entry)
    requires Mirrors(v, before) && Step(env, mode, v, e).Ok?
    ensures Mirrors(Step(env, mode, v, e).value, before + [e])
  {
    StepSplits(env, mode, v, e);
    var txn := StepParts(env, mode, v, e);
    var all := before + [e];
    assert all[..|all| - 1] == before;
    MoneyStep(mode, v.c.purse, before, e);
    NamingStep(env, v, before, e);
    NetStep(v, txn, e);
    ReleasingStep(v.c.holds, v.txn, txn, before, e);
    HoldsStep(v.c.holds, Netted(txn, e), before, e);
    hide Step, Shows, Releasing, OpenAfter, RefundsNaming, HoldRule, Begin, RefundRule, BalanceRule, FlowRule,
          AddTotals,
         BalanceOf, SpentBy, RefundedTo, AdmitRule, SealRule, Govern;
  }

  /** On every accepted chain the engine's balances, lifetime flows, open holds in their
      order, refunds of each spend and open transaction are those its entries say. */
  lemma {:induction false} StateIsSaid(env: Env, mode: Mode, unit: Unit, entries: seq<Entry>)
    requires Steps(env, mode, Over(EmptyChain(unit)), entries).Ok?
    ensures Mirrors(Steps(env, mode, Over(EmptyChain(unit)), entries).value, entries)
  {
    hide Step, Mirrors;
    if |entries| == 0 {
      NothingSaid(unit);
    } else {
      var init, e := entries[..|entries| - 1], entries[|entries| - 1];
      StateIsSaid(env, mode, unit, init);
      MirrorStep(env, mode, Steps(env, mode, Over(EmptyChain(unit)), init).value, init, e);
      assert init + [e] == entries;
    }
  }

  lemma NothingSaid(unit: Unit)
    ensures Mirrors(Over(EmptyChain(unit)), [])
  {
  }

  /** After any accepted chain, the next entry is accepted if and only if it agrees with the
      entries of that chain. */
  lemma NextExactly(env: Env, mode: Mode, unit: Unit, before: seq<Entry>, e: Entry)
    requires Steps(env, mode, Over(EmptyChain(unit)), before).Ok?
    ensures Step(env, mode, Steps(env, mode, Over(EmptyChain(unit)), before).value, e).Ok?
       <==> Agrees(env, mode, unit, before, e)
  {
    hide Step, Steps;
    var v := Steps(env, mode, Over(EmptyChain(unit)), before).value;
    EndIsSaid(env, mode, unit, before);
    StateIsSaid(env, mode, unit, before);
    StepSplits(env, mode, v, e);
    AdmitExactly(env, mode, unit, v.c.tip, before, e);
    BeginExactly(v.txn, before, e);
    TreeSaid(env, mode, unit, before, e);
    UnitStays(env, mode, unit, before);
    SayMoney(v, before, e);
    if Begin(v.txn, e).Ok? && InFormat(before, e) {
      HoldExactly(v.c.holds, v.txn, Begin(v.txn, e).value, before, e);
    }
    if BalanceRule(v.c.purse, e).Ok? { RefundExactly(env, mode, v, before, e); }
    hide AdmitRule, SealRule, Begin, BalanceRule, HoldRule, RefundRule, FlowRule, Govern, AddTotals, EndsAs, Linked,
         Turns, Holding, Refunding, Scoped, BalanceOf, InFormat, NamesNext, Sealing, Shows, Money, Releasing;
  }

  lemma SayMoney(v: View, before: seq<Entry>, e: Entry)
    requires Mirrors(v, before)
    ensures BalanceRule(v.c.purse, e).Ok?
       <==> e.balanceAfter == BalanceOf(before, e.scope) + Signed(e.direction, e.amount)
  {
    hide BalanceOf, SpentBy, RefundedTo, Shows, Releasing;
  }

  lemma UnitStays(env: Env, mode: Mode, unit: Unit, entries: seq<Entry>)
    requires Steps(env, mode, Over(EmptyChain(unit)), entries).Ok?
    ensures Steps(env, mode, Over(EmptyChain(unit)), entries).value.c.unit == unit
  {
    hide Steps, Step, WellShaped, NamesLater;
    EveryEntryIsShaped(env, mode, unit, entries);
  }

  lemma TreeSaid(env: Env, mode: Mode, unit: Unit, before: seq<Entry>, e: Entry)
    requires Steps(env, mode, Over(EmptyChain(unit)), before).Ok?
    ensures LegalDirection(e.kind, e.direction) ==>
              (Govern(Steps(env, mode, Over(EmptyChain(unit)), before).value.c.tree, e).Ok? <==> Scoped(before, e))
  {
    hide Steps, Step, Govern, NodeTold, TripTold, Scoped, Creates;
    if LegalDirection(e.kind, e.direction) {
      forall s ensures NodeTold(Steps(env, mode, Over(EmptyChain(unit)), before).value.c.tree, s, Creator(before, s),
                                GrantedTo(before, s)) {
        TreeTellsChain(env, mode, unit, before, s);
      }
      forall s ensures Creator(before, s).Some? ==> Creates(Creator(before, s).value, s) { CreatorCreates(before, s); }
      ScopesExactly(Steps(env, mode, Over(EmptyChain(unit)), before).value.c.tree, before, e);
    }
  }

  /** A sequence of entries is accepted if and only if each agrees with those before it. */
  lemma {:induction false} AcceptedExactly(env: Env, mode: Mode, unit: Unit, entries: seq<Entry>)
    ensures Steps(env, mode, Over(EmptyChain(unit)), entries).Ok?
       <==> forall i :: 0 <= i < |entries| ==> Agrees(env, mode, unit, entries[..i], entries[i])
  {
    hide Step, Agrees;
    if |entries| > 0 {
      var init, e := entries[..|entries| - 1], entries[|entries| - 1];
      AcceptedExactly(env, mode, unit, init);
      assert forall i :: 0 <= i < |init| ==> init[..i] == entries[..i] && init[i] == entries[i];
      if Steps(env, mode, Over(EmptyChain(unit)), init).Ok? { NextExactly(env, mode, unit, init, e); }
    }
  }

  /** A ledger replays if and only if each entry agrees with those before it and its last
      transaction balances. */
  lemma ReplaysExactly(env: Env, unit: Unit, entries: seq<Entry>)
    ensures Replay(env, unit, entries).Ok?
       <==> && NetOf(entries) == 0
            && forall i :: 0 <= i < |entries| ==> Agrees(env, REPLAYING, unit, entries[..i], entries[i])
  {
    hide Steps, Agrees, Merged;
    AcceptedExactly(env, REPLAYING, unit, entries);
    if Steps(env, REPLAYING, Over(EmptyChain(unit)), entries).Ok? {
      NetIs(env, REPLAYING, unit, entries);
    }
  }

  // -- why an entry is refused ------------------------------------------------------------------------------------

  /** What a fault in an entry's place and form says of it and those before it. */
  ghost predicate BlamesForm(env: Env, unit: Unit, before: seq<Entry>, e: Entry, fault: Fault) {
    match fault
    case SequenceGap => e.sequence != |before| + 1
    case BrokenLink => e.prevHash != HeadOf(unit, before)
    case UnknownVersion => e.version.Unknown?
    case HashMismatch => env.digest(e) != e.hash
    case OldEntryAfterNew => e.version.V1? && HasLater(before)
    case RefOnFirstVersion => e.version.V1? && e.ref.Some?
    case KindNotInFirstVersion => e.version.V1? && ZeroValue(e.kind)
    case NotSealed => !e.version.V1? && HasFirst(before) && !HasLater(before) && !e.kind.Seal?
    case FormatWentBack => e.version.V2? && HasThird(before)
    case WrongDirection => !LegalDirection(e.kind, e.direction)
    case BadText =>
      || !TextAllowed(e.scope, MAX_ID_BYTES, true) || !TextAllowed(e.memo, MAX_MEMO_BYTES, false)
      || (e.counterparty.Some? && !TextAllowed(e.counterparty.value, MAX_ID_BYTES, true))
    case TimeRanBack => |before| > 0 && e.time < before[|before| - 1].time
    case CheckpointVersion => e.kind.Checkpoint? && !e.version.V3?
    case AmountNotPositive => !ZeroValue(e.kind) && e.amount <= 0
    case AmountTooFine => unit.quantum > 1 && e.amount % unit.quantum != 0
    case AmountNotZero => ZeroValue(e.kind) && e.amount != 0
    case ScopeMissing => !Scopeless(e.kind) && e.scope == ""
    case ScopeNotAllowed => Scopeless(e.kind) && e.scope != ""
    case MalformedCheckpoint => e.kind.Checkpoint? && env.readCheckpoint(e.memo).None?
    case CheckpointNotBefore => NamesAt(env, e, e.sequence)
    case CheckpointNotAfter =>
      exists i :: 0 <= i < |before| && before[i].kind.Checkpoint? && env.readCheckpoint(before[i].memo).Some?
                  && env.readCheckpoint(e.memo).Some?
                  && env.readCheckpoint(e.memo).value.0 <= env.readCheckpoint(before[i].memo).value.0
    case SecondSeal => e.kind.Seal? && HasSeal(before)
    case NothingToSeal => e.kind.Seal? && !HasFirst(before)
    case BadSeal => e.kind.Seal? && !env.sealsNothing(e.memo)
    case _ => false
  }

  /** What a fault in its hold says. */
  ghost predicate BlamesHolds(before: seq<Entry>, e: Entry, fault: Fault) {
    var open := OpenAfter(before);
    match fault
    case RefNotAllowed => e.ref.Some? && !Referencing(e.kind, e.version)
    case NotReleasedHere => e.kind.Spend? && e.ref.Some? && !ReleasedIn(before, e.txn, e.ref.value)
    case ReleaseNamesNoHold => e.kind.HoldVoid? && e.ref.None?
    case HoldNotOpen => e.ref.Some? && forall i :: 0 <= i < |open| ==> open[i].id != e.ref.value
    case HoldOfAnotherScope =>
      e.ref.Some? && exists i :: 0 <= i < |open| && open[i].id == e.ref.value && open[i].scope != e.scope
    case HoldOfAnotherAmount =>
      e.ref.Some? && exists i :: 0 <= i < |open| && open[i].id == e.ref.value && open[i].amount != e.amount
    case NoSuchHoldOpen => forall i :: 0 <= i < |open| ==> Key(open[i]) != Key(e)
    case _ => false
  }

  /** What a fault in its money says. */
  ghost predicate BlamesMoney(env: Env, before: seq<Entry>, e: Entry, fault: Fault) {
    match fault
    case Unbalanced => !Turns(before, e)
    case WrongBalance => e.balanceAfter != BalanceOf(before, e.scope) + Signed(e.direction, e.amount)
    case NotASpend =>
      e.ref.Some? && (env.resolve(e.ref.value).None? || !env.resolve(e.ref.value).value.kind.Spend?)
    case SpendOfAnotherScope =>
      e.ref.Some? && env.resolve(e.ref.value).Some? && env.resolve(e.ref.value).value.scope != e.scope
    case SpendOverRefunded =>
      && e.ref.Some? && env.resolve(e.ref.value).Some?
      && RefundsNaming(before, e.ref.value) + e.amount > env.resolve(e.ref.value).value.amount
    case ScopeOverRefunded => e.kind.Reversal? && RefundedTo(before, e.scope) + e.amount > SpentBy(before, e.scope)
    case _ => false
  }

  /** What a fault in its scopes says. */
  ghost predicate BlamesScopes(before: seq<Entry>, e: Entry, fault: Fault) {
    match fault
    case NotARoot => Known(before, e.scope) && !Creator(before, e.scope).value.kind.Funding?
    case ScopeExists => e.kind.Allocation? && Known(before, e.scope)
    case UnknownParent => e.kind.Allocation? && !Known(before, Other(e))
    case NotChildAndParent =>
      e.kind.Release? && !if e.direction.Debit? then ChildOf(before, e.scope, Other(e))
            else ChildOf(before, Other(e), e.scope)
    case UnknownScope => !Known(before, e.scope)
    case _ => false
  }

  /** What a fault says of the entry and those before it. */
  ghost predicate Blames(env: Env, unit: Unit, before: seq<Entry>, e: Entry, fault: Fault) {
    || BlamesForm(env, unit, before, e, fault) || BlamesHolds(before, e, fault)
    || BlamesMoney(env, before, e, fault) || BlamesScopes(before, e, fault)
  }

  predicate NamesAt(env: Env, e: Entry, least: int) {
    e.kind.Checkpoint? && env.readCheckpoint(e.memo).Some? && env.readCheckpoint(e.memo).value.0 >= least
  }

  /** A refused entry is refused for what the first rule to refuse it says. */
  lemma StepFaults(env: Env, mode: Mode, v: View, e: Entry)
    requires Step(env, mode, v, e).Err?
    ensures var f := Step(env, mode, v, e).fault;
            var admitted := AdmitRule(env, mode, v.c.unit, v.c.tip, e);
            || admitted == Err(f) || Begin(v.txn, e) == Err(f) || BalanceRule(v.c.purse, e) == Err(f)
            || (admitted.Ok? && Begin(v.txn, e).Ok?
                  && HoldRule(v.c.holds, Netted(Begin(v.txn, e).value, e), e) == Err(f))
            || RefundRule(env, v.c.spendRefunds, v.recent, v.start, e) == Err(f)
            || (BalanceRule(v.c.purse, e).Ok? && FlowRule(mode, BalanceRule(v.c.purse, e).value, e) == Err(f))
            || (admitted.Ok? && (SealRule(env, admitted.value, e) == Err(f) || Govern(v.c.tree, e) == Err(f)))
  {
    hide AdmitRule, Begin, BalanceRule, HoldRule, RefundRule, FlowRule, SealRule, Govern, AddTotals, Advance;
  }

  lemma VersionFaults(env: Env, unit: Unit, t: Tip, before: seq<Entry>, e: Entry)
    requires EndsAs(env, t, unit, before) && VersionRule(t, e).Err?
    ensures e.version.Unknown? || BlamesForm(env, unit, before, e, VersionRule(t, e).fault)
  {
    hide HasFirst, HasLater, HasThird, HasSeal, OpenAfter, Turns, ReleasedIn, Checkpointed;
  }

  lemma AmountFaults(env: Env, unit: Unit, t: Tip, before: seq<Entry>, e: Entry)
    requires Checkpointed(env, t.lastCheckpoint, before) && (t.seal.Some? <==> HasSeal(before))
    requires (t.sawV1 <==> HasFirst(before) || e.version.V1?) && AmountRule(env, unit, t, e).Err?
    ensures BlamesForm(env, unit, before, e, AmountRule(env, unit, t, e).fault)
  {
    hide HasFirst, HasLater, HasThird, HasSeal, OpenAfter, Turns, ReleasedIn;
  }

  lemma TextFaults(env: Env, unit: Unit, t: Tip, before: seq<Entry>, e: Entry)
    requires t.lastTime == (if |before| == 0 then None else Some(before[|before| - 1].time)) && TextRule(t, e).Err?
    ensures BlamesForm(env, unit, before, e, TextRule(t, e).fault)
  {
    hide HasFirst, HasLater, HasThird, HasSeal, OpenAfter, Turns, ReleasedIn, TextAllowed;
  }

  lemma AdmitFaults(env: Env, mode: Mode, unit: Unit, t: Tip, before: seq<Entry>, e: Entry)
    requires EndsAs(env, t, unit, before) && AdmitRule(env, mode, unit, t, e).Err?
    ensures BlamesForm(env, unit, before, e, AdmitRule(env, mode, unit, t, e).fault)
  {
    AdmitSplits(env, mode, unit, t, e);
    if LinkRule(env, mode, t, e).Ok? {
      if VersionRule(t, e).Err? {
        VersionFaults(env, unit, t, before, e);
      } else {
        VersionExactly(env, t, unit, before, e);
        ShapeFaults(env, unit, VersionRule(t, e).value, before, e);
      }
    }
    hide VersionRule, ShapeRule, HasFirst, HasLater, HasThird, HasSeal, OpenAfter, Turns, ReleasedIn, Checkpointed;
  }

  lemma ShapeFaults(env: Env, unit: Unit, t: Tip, before: seq<Entry>, e: Entry)
    requires Checkpointed(env, t.lastCheckpoint, before) && (t.seal.Some? <==> HasSeal(before))
    requires t.sawV1 <==> HasFirst(before) || e.version.V1?
    requires t.lastTime == (if |before| == 0 then None else Some(before[|before| - 1].time))
               && ShapeRule(env, unit, t, e).Err?
    ensures BlamesForm(env, unit, before, e, ShapeRule(env, unit, t, e).fault)
  {
    if AmountRule(env, unit, t, e).Err? { AmountFaults(env, unit, t, before, e); }
    if TextRule(t, e).Err? { TextFaults(env, unit, t, before, e); }
    assert !LegalDirection(e.kind, e.direction) ==> BlamesForm(env, unit, before, e, WrongDirection);
    assert e.kind.Checkpoint? && !e.version.V3? ==> BlamesForm(env, unit, before, e, CheckpointVersion);
    hide BlamesForm, AmountRule, TextRule, Checkpointed, HasFirst, HasSeal;
  }

  lemma SealFaults(env: Env, unit: Unit, t: Tip, before: seq<Entry>, e: Entry)
    requires SealRule(env, t, e).Err?
    ensures BlamesForm(env, unit, before, e, SealRule(env, t, e).fault)
  {
    hide OpenAfter, Turns, ReleasedIn;
  }

  lemma NamedFaults(h: Holds, txn: Txn, before: seq<Entry>, e: Entry)
    requires Shows(h.open, OpenAfter(before)) && e.kind.HoldVoid? && ReleaseNamed(h, txn, e).Err?
    ensures BlamesHolds(before, e, ReleaseNamed(h, txn, e).fault)
  {
    hide OpenAfter, Close, ReleasedIn, Key;
    if e.ref.Some? {
      if e.ref.value in h.open.at {
        var i := HeldAt(h.open, OpenAfter(before), e.ref.value);
        hide Shows;
        assert OpenAfter(before)[i].id == e.ref.value;
      } else {
        HeldId(h.open, OpenAfter(before), e.ref.value);
      }
    }
    hide Shows;
  }

  lemma UnnamedFaults(h: Holds, before: seq<Entry>, e: Entry)
    requires Shows(h.open, OpenAfter(before)) && ReleaseUnnamed(h, e).Err?
    ensures BlamesHolds(before, e, ReleaseUnnamed(h, e).fault)
  {
    hide OpenAfter, Close, ReleasedIn;
    ShownKey(h.open, OpenAfter(before), Key(e));
    hide Shows, FirstOf, Key;
  }

  lemma HoldFaults(h: Holds, txn: Txn, begun: Txn, before: seq<Entry>, e: Entry)
    requires Shows(h.open, OpenAfter(before)) && Releasing(txn, before) && Begin(txn, e) == Ok(begun)
    requires HoldRule(h, Netted(begun, e), e).Err?
    ensures BlamesHolds(before, e, HoldRule(h, Netted(begun, e), e).fault)
  {
    hide OpenAfter, Place, Shows, ReleaseNamed, ReleaseUnnamed, Key;
    if e.kind.HoldVoid? && e.version.V1? && ReleaseUnnamed(h, e).Err? { UnnamedFaults(h, before, e); }
    if e.kind.HoldVoid? && ReleaseNamed(h, Netted(begun, e), e).Err? { NamedFaults(h, Netted(begun, e), before, e); }
    BegunReleases(txn, begun, before, e);
    hide Begin, Releasing, ReleasedIn;
  }

  lemma HeldId(d: Dict<Id, Entry>, open: seq<Entry>, id: Id)
    requires Shows(d, open)
    ensures id !in d.at ==> forall i :: 0 <= i < |open| ==> open[i].id != id
  {
    ShownId(d, open, id);
  }

  lemma HeldAt(d: Dict<Id, Entry>, open: seq<Entry>, id: Id) returns (i: nat)
    requires Shows(d, open) && id in d.at
    ensures i < |open| && open[i].id == id && open[i] == d.at[id]
  {
    ShownId(d, open, id);
    i :| i < |open| && open[i].id == id;
  }

  lemma NamingFaults(env: Env, recent: map<Id, int>, before: seq<Entry>, e: Entry)
    requires e.ref.Some? ==> Get(recent, e.ref.value) == RefundsNaming(before, e.ref.value)
    ensures RefundRule(env, map[], recent, 0, e).Err? ==>
              BlamesMoney(env, before, e, RefundRule(env, map[], recent, 0, e).fault)
  {
    hide NetOf, RefundsNaming, SpentBy, RefundedTo, BalanceOf, Turns;
  }

  lemma FlowFaults(env: Env, mode: Mode, p: Purse, before: seq<Entry>, e: Entry)
    requires Money(p, before)
    ensures BalanceRule(p, e).Err? ==> BlamesMoney(env, before, e, BalanceRule(p, e).fault)
    ensures BalanceRule(p, e).Ok? && FlowRule(mode, BalanceRule(p, e).value, e).Err? ==>
              BlamesMoney(env, before, e, FlowRule(mode, BalanceRule(p, e).value, e).fault)
  {
    hide NetOf, RefundsNaming, SpentBy, RefundedTo, BalanceOf, Turns;
  }

  lemma TurnFaults(env: Env, txn: Txn, before: seq<Entry>, e: Entry)
    requires txn.net == NetOf(before) && Releasing(txn, before) && Begin(txn, e).Err?
    ensures BlamesMoney(env, before, e, Begin(txn, e).fault)
  {
    BeginExactly(txn, before, e);
    hide NetOf, RefundsNaming, SpentBy, RefundedTo, BalanceOf, Turns, Releasing;
  }

  lemma ScopeFaults(t: Tree, before: seq<Entry>, e: Entry)
    requires LegalDirection(e.kind, e.direction) && Govern(t, e).Err?
    requires forall s :: NodeTold(t, s, Creator(before, s), GrantedTo(before, s))
    requires forall s :: Creator(before, s).Some? ==> Creates(Creator(before, s).value, s)
    ensures BlamesScopes(before, e, Govern(t, e).fault)
  {
    assert NodeTold(t, e.scope, Creator(before, e.scope), GrantedTo(before, e.scope));
    assert NodeTold(t, Other(e), Creator(before, Other(e)), GrantedTo(before, Other(e)));
    hide Creator, GrantedTo, OpenAfter, Turns, ReleasedIn;
  }

  lemma TreeFaults(env: Env, mode: Mode, unit: Unit, before: seq<Entry>, e: Entry)
    requires Steps(env, mode, Over(EmptyChain(unit)), before).Ok? && LegalDirection(e.kind, e.direction)
    ensures var t := Steps(env, mode, Over(EmptyChain(unit)), before).value.c.tree;
            Govern(t, e).Err? ==> BlamesScopes(before, e, Govern(t, e).fault)
  {
    hide Steps, Step, Govern, NodeTold, TripTold, BlamesScopes, Creates;
    var t := Steps(env, mode, Over(EmptyChain(unit)), before).value.c.tree;
    forall s ensures NodeTold(t, s, Creator(before, s),
          GrantedTo(before, s)) { TreeTellsChain(env, mode, unit, before, s); }
    forall s ensures Creator(before, s).Some? ==> Creates(Creator(before, s).value, s) { CreatorCreates(before, s); }
    if Govern(t, e).Err? { ScopeFaults(t, before, e); }
  }

  lemma AdmittedDirection(env: Env, mode: Mode, unit: Unit, t: Tip, e: Entry)
    requires AdmitRule(env, mode, unit, t, e).Ok?
    ensures LegalDirection(e.kind, e.direction)
  {
    AdmitSplits(env, mode, unit, t, e);
    hide AdmitRule, LinkRule, VersionRule, TextRule, AmountRule;
  }

  /** Whatever an accepted chain refuses, the reason it gives is true of the entry and of the
      entries before it. */
  lemma FaultsAreTrue(env: Env, mode: Mode, unit: Unit, before: seq<Entry>, e: Entry)
    requires Steps(env, mode, Over(EmptyChain(unit)), before).Ok?
    requires Step(env, mode, Steps(env, mode, Over(EmptyChain(unit)), before).value, e).Err?
    ensures Blames(env, unit, before, e,
              Step(env, mode, Steps(env, mode, Over(EmptyChain(unit)), before).value, e).fault)
  {
    hide Step, Steps, BlamesForm, BlamesHolds, BlamesMoney, BlamesScopes;
    var v := Steps(env, mode, Over(EmptyChain(unit)), before).value;
    EndIsSaid(env, mode, unit, before);
    StateIsSaid(env, mode, unit, before);
    UnitStays(env, mode, unit, before);
    StepFaults(env, mode, v, e);
    NamingFaults(env, v.recent, before, e);
    FlowFaults(env, mode, v.c.purse, before, e);
    if Begin(v.txn, e).Err? { TurnFaults(env, v.txn, before, e); }
    var admitted := AdmitRule(env, mode, v.c.unit, v.c.tip, e);
    if admitted.Err? {
      AdmitFaults(env, mode, unit, v.c.tip, before, e);
    } else {
      AdmittedDirection(env, mode, unit, v.c.tip, e);
      TreeFaults(env, mode, unit, before, e);
      if SealRule(env, admitted.value, e).Err? { SealFaults(env, unit, admitted.value, before, e); }
      if Begin(v.txn, e).Ok? && HoldRule(v.c.holds, Netted(Begin(v.txn, e).value, e), e).Err? {
        HoldFaults(v.c.holds, v.txn, Begin(v.txn, e).value, before, e);
      }
    }
    hide AdmitRule, SealRule, Begin, BalanceRule, HoldRule, RefundRule, FlowRule, Govern, EndsAs, Shows, Money,
          Releasing,
         RefundsNaming, NetOf;
  }
}
