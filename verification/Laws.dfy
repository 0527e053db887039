/**
 Invariants of every accepted chain: conservation, scope by scope and in total; the open
 holds as those placed less those released, none released twice; and no spend refunded
 beyond its amount.
 */
module Laws {
  import opened Vocabulary
  import opened Dicts
  import opened Engine
  import opened Replays
  import Merkle

  // -- sums -----------------------------------------------------------------

  /** The sum of a weight over a dictionary of entries. */
  function Weigh(order: seq<Id>, at: map<Id, Entry>, f: Entry -> int): int {
    if |order| == 0 then 0
    else
      var k := order[|order| - 1];
      Weigh(order[..|order| - 1], at, f) + if k in at then f(at[k]) else 0
  }

  function Amounts(): Entry -> int { (e: Entry) => e.amount }
  function AmountsIn(s: Scope): Entry -> int { (e: Entry) => if e.scope == s then e.amount else 0 }
  function CountIn(s: Scope): Entry -> int { (e: Entry) => if e.scope == s then 1 else 0 }

  /** What the open holds of a scope encumber. */
  function Held(h: Holds, s: Scope): int { Weigh(h.open.order, h.open.at, AmountsIn(s)) }

  lemma {:induction false} WeighFrame(order: seq<Id>, a: map<Id, Entry>, b: map<Id, Entry>, f: Entry -> int)
    requires forall k :: k in order ==> (k in a <==> k in b) && (k in a ==> a[k] == b[k])
    ensures Weigh(order, a, f) == Weigh(order, b, f)
  {
    if |order| > 0 {
      assert order[|order| - 1] in order;
      WeighFrame(order[..|order| - 1], a, b, f);
    }
  }

  lemma WeighPut(d: Dict<Id, Entry>, k: Id, e: Entry, f: Entry -> int)
    requires d.Valid() && k !in d.at
    ensures Weigh(d.Put(k, e).order, d.Put(k, e).at, f) == Weigh(d.order, d.at, f) + f(e)
  {
    var p := d.Put(k, e);
    assert p.order[..|p.order| - 1] == d.order;
    WeighFrame(d.order, d.at, p.at, f);
  }

  lemma {:induction false} WeighDrop(order: seq<Id>, at: map<Id, Entry>, k: Id, f: Entry -> int)
    requires Distinct(order) && k in order && k in at
    ensures Weigh(Drop(order, {k}), at - {k}, f) == Weigh(order, at, f) - f(at[k])
  {
    var init, last := order[..|order| - 1], order[|order| - 1];
    if last == k {
      assert k !in init;
      DropNone(init, {k});
      WeighFrame(init, at, at - {k}, f);
    } else {
      assert k in init;
      WeighDrop(init, at, k, f);
      var d := Drop(init, {k}) + [last];
      assert d[..|d| - 1] == Drop(init, {k});
      assert Drop(order, {k}) == d;
      hide Drop, Distinct;
    }
  }

  ghost function Sum(m: map<Scope, int>): int {
    if |m| == 0 then 0
    else
      var k :| k in m;
      m[k] + Sum(m - {k})
  }

  lemma SumPick(m: map<Scope, int>) returns (j: Scope)
    requires |m| > 0
    ensures j in m && Sum(m) == m[j] + Sum(m - {j})
  {
    j :| j in m && Sum(m) == m[j] + Sum(m - {j});
  }

  lemma {:induction false} SumTake(m: map<Scope, int>, k: Scope)
    requires k in m
    ensures Sum(m) == m[k] + Sum(m - {k})
    decreases |m|
  {
    hide Sum;
    var j := SumPick(m);
    if j != k {
      SumTake(m - {j}, k);
      SumTake(m - {k}, j);
      assert m - {j} - {k} == m - {k} - {j};
    }
  }

  lemma SumPut(m: map<Scope, int>, k: Scope, v: int)
    ensures Sum(m[k := v]) == Sum(m) - Get(m, k) + v
  {
    hide Sum;
    SumTake(m[k := v], k);
    assert m[k := v] - {k} == m - {k};
    if k in m {
      SumTake(m, k);
    } else {
      assert m - {k} == m;
    }
  }

  // -- the holds ---------------------------------------------------------------

  /** Every open hold is a HOLD entry of the chain under its own id, and the
      counts are exactly the open holds of each scope. */
  ghost predicate HoldsKept(h: Holds, entries: seq<Entry>) {
    && h.open.Valid()
    && (forall id :: id in h.open.at ==> h.open.at[id] in entries && h.open.at[id].kind.Hold? && h.open.at[id].id == id)
    && (forall s :: Get(h.counts, s) == Weigh(h.open.order, h.open.at, CountIn(s)))
    && (forall s :: s in h.counts ==> h.counts[s] != 0)
  }

  /** How an entry changes a sum of weights over the open holds. */
  function HoldDelta(e: Entry, f: Entry -> int): int {
    if e.kind.Hold? then f(e) else if e.kind.HoldVoid? then -f(e) else 0
  }

  /** A weight that only looks at scope and amount. */
  ghost predicate Fungible(f: Entry -> int) {
    forall a, b :: Key(a) == Key(b) ==> f(a) == f(b)
  }

  /** An accepted entry places its own hold, or takes out one of its own scope
      and amount, and nothing else. */
  lemma HoldEffect(h: Holds, txn: Txn, e: Entry, f: Entry -> int)
    requires h.open.Valid() && (e.kind.Hold? ==> e.id !in h.open.at) && Fungible(f)
    requires HoldRule(h, txn, e).Ok?
    ensures var h' := HoldRule(h, txn, e).value.0;
            h'.open.Valid() && Weigh(h'.open.order, h'.open.at, f)
                  == Weigh(h.open.order, h.open.at, f) + HoldDelta(e, f)
  {
    hide Weigh, Drop, Counted, FirstOf;
    if e.kind.Hold? {
      WeighPut(h.open, e.id, e, f);
      PutValid(h.open, e.id, e);
    } else if e.kind.HoldVoid? {
      var id := Released(h, e);
      assert id in h.open.order;
      WeighDrop(h.open.order, h.open.at, id, f);
      PopValid(h.open, id);
      assert Key(h.open.at[id]) == Key(e);
    }
  }

  /** The hold an accepted release closes. */
  function Released(h: Holds, e: Entry): (id: Id)
    requires e.kind.HoldVoid? && (if e.version.V1? then ReleaseUnnamed(h, e).Ok? else ReleaseNamed(h, NO_TXN, e).Ok?)
    ensures id in h.open.at && Key(h.open.at[id]) == Key(e)
  {
    if e.version.V1? then FirstOf(h.open.order, h.open.at, Key(e)).value else e.ref.value
  }

  lemma CountsKept(h: Holds, txn: Txn, e: Entry, s: Scope)
    requires h.open.Valid() && (e.kind.Hold? ==> e.id !in h.open.at) && HoldRule(h, txn, e).Ok?
    ensures var h' := HoldRule(h, txn, e).value.0;
            && Get(h'.counts, s) == Get(h.counts, s) + HoldDelta(e, CountIn(s))
            && ((forall x :: x in h.counts ==> h.counts[x] != 0) ==> s in h'.counts ==> h'.counts[s] != 0)
  {
    hide Drop, FirstOf;
    if e.kind.HoldVoid? {
      var id := Released(h, e);
    }
  }

  lemma HoldsStay(h: Holds, txn: Txn, entries: seq<Entry>, e: Entry)
    requires HoldsKept(h, entries) && (e.kind.Hold? ==> e.id !in h.open.at) && HoldRule(h, txn, e).Ok?
    ensures HoldsKept(HoldRule(h, txn, e).value.0, entries + [e])
  {
    var h' := HoldRule(h, txn, e).value.0;
    FungibleIn("");
    HoldEffect(h, txn, e, Amounts());
    forall s
      ensures Get(h'.counts, s) == Weigh(h'.open.order, h'.open.at, CountIn(s))
                && (s in h'.counts ==> h'.counts[s] != 0)
    {
      CountsKept(h, txn, e, s);
      FungibleIn(s);
      HoldEffect(h, txn, e, CountIn(s));
    }
    assert forall id :: id in h'.open.at ==>
             (id in h.open.at && h'.open.at[id] == h.open.at[id])
             || (e.kind.Hold? && id == e.id && h'.open.at[id] == e)
      by { OpenChange(h, txn, e); }
  }

  lemma OpenChange(h: Holds, txn: Txn, e: Entry)
    requires HoldRule(h, txn, e).Ok?
    ensures var a, b := h.open.at, HoldRule(h, txn, e).value.0.open.at;
            forall id :: id in b ==> (id in a && b[id] == a[id]) || (e.kind.Hold? && id == e.id && b[id] == e)
  {
    hide FirstOf, Drop, Counted;
  }

  // -- the money of one scope ------------------------------------------------

  /** What a scope has and had: available, held, spent and not refunded. */
  function Worth(p: Purse, h: Holds, s: Scope): int {
    Get(p.balances, s) + Held(h, s) + Get(p.spent, s) - Get(p.refunded, s)
  }

  /** What an entry grants a scope, or takes from it for another. */
  function Grant(e: Entry, s: Scope): int {
    if e.scope == s && (e.kind.Funding? || Balanced(e.kind)) then Signed(e.direction, e.amount) else 0
  }

  function Granted(entries: seq<Entry>, s: Scope): int {
    if |entries| == 0 then 0 else Granted(entries[..|entries| - 1], s) + Grant(entries[|entries| - 1], s)
  }

  /** A scope's money outside its holds. */
  function Loose(p: Purse, s: Scope): int {
    Get(p.balances, s) + Get(p.spent, s) - Get(p.refunded, s)
  }

  lemma LooseStep(mode: Mode, p: Purse, e: Entry, s: Scope)
    requires LegalDirection(e.kind, e.direction)
    requires BalanceRule(p, e).Ok? && FlowRule(mode, BalanceRule(p, e).value, e).Ok?
    ensures var q := FlowRule(mode, BalanceRule(p, e).value, e).value;
            Loose(q, s) == Loose(p, s) + Grant(e, s) - HoldDelta(e, AmountsIn(s))
  {
  }

  /** Holding, releasing, spending and refunding move a scope's money between its
      own accounts; only funding and transfers change what it is worth. */
  lemma WorthStep(mode: Mode, p: Purse, h: Holds, txn: Txn, e: Entry, s: Scope)
    requires h.open.Valid() && (e.kind.Hold? ==> e.id !in h.open.at) && LegalDirection(e.kind, e.direction)
    requires BalanceRule(p, e).Ok? && FlowRule(mode, BalanceRule(p, e).value, e).Ok? && HoldRule(h, txn, e).Ok?
    ensures var q := FlowRule(mode, BalanceRule(p, e).value, e).value;
            Worth(q, HoldRule(h, txn, e).value.0, s) == Worth(p, h, s) + Grant(e, s)
  {
    hide Weigh, HoldRule, BalanceRule, FlowRule, HoldDelta, AmountsIn;
    LooseStep(mode, p, e, s);
    assert Fungible(AmountsIn(s)) by { FungibleIn(s); }
    HoldEffect(h, txn, e, AmountsIn(s));
  }

  lemma FungibleIn(s: Scope)
    ensures Fungible(AmountsIn(s)) && Fungible(CountIn(s)) && Fungible(Amounts())
  {
  }

  // -- the boundary totals ----------------------------------------------------

  /** What the ledger holds, against what came in: the open transaction's net. */
  ghost function Surplus(p: Purse): int {
    Sum(p.balances) + p.totals.holdsOpen + p.totals.spent - p.totals.reversed - p.totals.funded
  }

  function NetDelta(e: Entry): int {
    if Balanced(e.kind) then Signed(e.direction, e.amount) else 0
  }

  lemma SurplusStep(mode: Mode, p: Purse, e: Entry)
    requires LegalDirection(e.kind, e.direction)
    requires BalanceRule(p, e).Ok? && FlowRule(mode, BalanceRule(p, e).value, e).Ok?
    ensures var q := FlowRule(mode, BalanceRule(p, e).value, e).value;
            Surplus(q.(totals := AddTotals(q.totals, e))) == Surplus(p) + NetDelta(e)
  {
    hide Sum;
    SumPut(p.balances, e.scope, Get(p.balances, e.scope) + Signed(e.direction, e.amount));
  }

  // -- every accepted chain -----------------------------------------------------

  ghost predicate Kept(v: View, entries: seq<Entry>) {
    && HoldsKept(v.c.holds, entries)
    && (forall s :: Worth(v.c.purse, v.c.holds, s) == Granted(entries, s))
    && Surplus(v.c.purse) == v.txn.net
    && v.c.purse.totals.holdsOpen == Weigh(v.c.holds.open.order, v.c.holds.open.at, Amounts())
  }

  /** What an accepted entry did, part by part. */
  lemma StepParts(env: Env, mode: Mode, v: View, e: Entry) returns (txn: Txn)
    requires Step(env, mode, v, e).Ok?
    ensures var w := Step(env, mode, v, e).value;
            && LegalDirection(e.kind, e.direction)
            && BalanceRule(v.c.purse, e).Ok? && FlowRule(mode, BalanceRule(v.c.purse, e).value, e).Ok?
            && HoldRule(v.c.holds, Netted(txn, e), e).Ok? && Begin(v.txn, e) == Ok(txn)
            && w.c.holds == HoldRule(v.c.holds, Netted(txn, e), e).value.0
            && w.txn == HoldRule(v.c.holds, Netted(txn, e), e).value.1
            && var q := FlowRule(mode, BalanceRule(v.c.purse, e).value, e).value;
               w.c.purse == q.(totals := AddTotals(q.totals, e))
  {
    hide VersionRule, TextRule, AmountRule, Begin, BalanceRule, HoldRule, RefundRule, FlowRule, Governing, Advance,
          AddTotals;
    txn := Begin(v.txn, e).value;
  }

  lemma NetStep(v: View, txn: Txn, e: Entry)
    requires Begin(v.txn, e) == Ok(txn) && HoldRule(v.c.holds, Netted(txn, e), e).Ok?
    ensures HoldRule(v.c.holds, Netted(txn, e), e).value.1.net
         == v.txn.net + NetDelta(e)
  {
    hide Place, ReleaseUnnamed;
  }

  lemma KeptStep(env: Env, mode: Mode, v: View, entries: seq<Entry>, e: Entry)
    requires Kept(v, entries) && Step(env, mode, v, e).Ok?
    requires forall i :: 0 <= i < |entries| ==> entries[i].id != e.id
    ensures Kept(Step(env, mode, v, e).value, entries + [e])
  {
    NewHold(v.c.holds, entries, e);
    var txn := StepParts(env, mode, v, e);
    KeptParts(env, mode, v, entries, e, txn);
  }

  lemma NewHold(h: Holds, entries: seq<Entry>, e: Entry)
    requires HoldsKept(h, entries) && forall i :: 0 <= i < |entries| ==> entries[i].id != e.id
    ensures e.id !in h.open.at
  {
  }

  lemma KeptParts(env: Env, mode: Mode, v: View, entries: seq<Entry>, e: Entry, txn: Txn)
    requires Kept(v, entries) && e.id !in v.c.holds.open.at && LegalDirection(e.kind, e.direction)
    requires BalanceRule(v.c.purse, e).Ok? && FlowRule(mode, BalanceRule(v.c.purse, e).value, e).Ok?
    requires HoldRule(v.c.holds, Netted(txn, e), e).Ok? && Begin(v.txn, e) == Ok(txn)
    ensures var q := FlowRule(mode, BalanceRule(v.c.purse, e).value, e).value;
            var h := HoldRule(v.c.holds, Netted(txn, e), e).value;
            forall c: Chain, recent, start | c.purse == q.(totals := AddTotals(q.totals, e)) && c.holds == h.0 ::
              Kept(View(c, h.1, recent, start), entries + [e])
  {
    hide HoldRule, BalanceRule, FlowRule, Begin, Sum, Weigh, Netted, HoldsKept, AddTotals, HoldDelta, NetDelta;
    var q := FlowRule(mode, BalanceRule(v.c.purse, e).value, e).value;
    var h := HoldRule(v.c.holds, Netted(txn, e), e).value;
    var all := entries + [e];
    assert all[..|all| - 1] == entries && all[|all| - 1] == e;
    HoldsStay(v.c.holds, Netted(txn, e), entries, e);
    forall s ensures Worth(q, h.0, s) == Granted(all, s) {
      assert Worth(v.c.purse, v.c.holds, s) == Granted(entries, s);
      ValidHolds(v.c.holds, entries);
      WorthStep(mode, v.c.purse, v.c.holds, Netted(txn, e), e, s);
    }
    SurplusStep(mode, v.c.purse, e);
    NetStep(v, txn, e);
    ValidHolds(v.c.holds, entries);
    FungibleIn("");
    HoldEffect(v.c.holds, Netted(txn, e), e, Amounts());
    HoldTotals(mode, v.c.purse, e);
  }

  lemma ValidHolds(h: Holds, entries: seq<Entry>)
    requires HoldsKept(h, entries)
    ensures h.open.Valid()
  {
  }

  lemma HoldTotals(mode: Mode, p: Purse, e: Entry)
    requires BalanceRule(p, e).Ok? && FlowRule(mode, BalanceRule(p, e).value, e).Ok?
    ensures var q := FlowRule(mode, BalanceRule(p, e).value, e).value;
            AddTotals(q.totals, e).holdsOpen == p.totals.holdsOpen + HoldDelta(e, Amounts())
  {
  }

  /** On every accepted chain with distinct ids, at every point of it: each scope
      is worth exactly what it was granted, what the ledger holds exceeds what
      came in by the open transaction's net transfer, and the hold totals and
      counts are those of the open holds. */
  lemma {:induction false} EveryChainKeeps(env: Env, mode: Mode, unit: Unit, entries: seq<Entry>)
    requires DistinctIds(entries) && Steps(env, mode, Over(EmptyChain(unit)), entries).Ok?
    ensures Kept(Steps(env, mode, Over(EmptyChain(unit)), entries).value, entries)
  {
    hide Step, Kept;
    if |entries| == 0 {
      KeptEmpty(unit);
    } else {
      var init, last := entries[..|entries| - 1], entries[|entries| - 1];
      EveryChainKeeps(env, mode, unit, init);
      KeptStep(env, mode, Steps(env, mode, Over(EmptyChain(unit)), init).value, init, last);
      assert init + [last] == entries;
    }
  }

  lemma KeptEmpty(unit: Unit)
    ensures Kept(Over(EmptyChain(unit)), [])
  {
  }

  /** At the end of a replay the conservation identity holds exactly. */
  lemma ReplayConserves(env: Env, unit: Unit, entries: seq<Entry>)
    requires DistinctIds(entries) && Replay(env, unit, entries).Ok?
    ensures var p := Replay(env, unit, entries).value.purse;
            Sum(p.balances) + p.totals.holdsOpen + p.totals.spent - p.totals.reversed == p.totals.funded
  {
    EveryChainKeeps(env, REPLAYING, unit, entries);
    hide Step, HoldsKept, Sum, Weigh;
  }

  // -- releases -----------------------------------------------------------------

  predicate NamedRelease(e: Entry) {
    e.kind.HoldVoid? && !e.version.V1?
  }

  /** The release at `i` names a HOLD before it, of its own scope and amount. */
  ghost predicate NamesEarlierHold(entries: seq<Entry>, i: nat)
    requires i < |entries|
  {
    entries[i].ref.Some? && exists k ::
      0 <= k < i && entries[k].kind.Hold? && entries[k].id == entries[i].ref.value && Key(entries[k]) == Key(entries[i])
  }

  ghost predicate ReleasedOnce(entries: seq<Entry>) {
    && (forall i :: 0 <= i < |entries| && NamedRelease(entries[i]) ==> NamesEarlierHold(entries, i))
    && (forall i, j :: 0 <= i < j < |entries| && NamedRelease(entries[i]) && NamedRelease(entries[j]) ==>
          entries[i].ref != entries[j].ref)
  }

  ghost predicate ReleasedStayReleased(h: Holds, entries: seq<Entry>) {
    forall i :: 0 <= i < |entries| && NamedRelease(entries[i]) && entries[i].ref.Some?
          ==> entries[i].ref.value !in h.open.at
  }

  lemma NamedOpen(h: Holds, txn: Txn, e: Entry)
    requires HoldRule(h, txn, e).Ok? && NamedRelease(e)
    ensures e.ref.Some? && e.ref.value in h.open.at && Key(h.open.at[e.ref.value]) == Key(e)
    ensures e.ref.value !in HoldRule(h, txn, e).value.0.open.at
  {
    hide Drop;
  }

  lemma ReleasesStep(h: Holds, txn: Txn, entries: seq<Entry>, e: Entry)
    requires HoldsKept(h, entries) && ReleasedOnce(entries) && ReleasedStayReleased(h, entries)
    requires forall i :: 0 <= i < |entries| ==> entries[i].id != e.id
    requires HoldRule(h, txn, e).Ok?
    ensures ReleasedOnce(entries + [e]) && ReleasedStayReleased(HoldRule(h, txn, e).value.0, entries + [e])
  {
    hide HoldRule, Weigh, Key;
    var all, n := entries + [e], |entries|;
    if NamedRelease(e) {
      NamedOpen(h, txn, e);
      var hold := h.open.at[e.ref.value];
      assert hold in entries;
      var k :| 0 <= k < n && entries[k] == hold;
      assert all[k] == hold;
      assert NamesEarlierHold(all, n);
    }
    forall i | 0 <= i < n && NamedRelease(all[i]) ensures NamesEarlierHold(all, i) {
      assert NamesEarlierHold(entries, i);
      var k :| 0 <= k < i && entries[k].kind.Hold? && entries[k].id == entries[i].ref.value
            && Key(entries[k]) == Key(entries[i]);
      assert all[k] == entries[k];
    }
    OpenChange(h, txn, e);
    var h' := HoldRule(h, txn, e).value.0;
    forall i | 0 <= i < n && NamedRelease(all[i]) && all[i].ref.Some? ensures all[i].ref.value !in h'.open.at {
      assert NamesEarlierHold(entries, i);
      var k :| 0 <= k < i && entries[k].kind.Hold? && entries[k].id == entries[i].ref.value
            && Key(entries[k]) == Key(entries[i]);
      assert entries[k].id != e.id;
    }
  }

  /** On every accepted chain with distinct ids, each named release names a HOLD
      before it in its own scope and for its own amount, no two name the same
      hold, and a hold once released is never open again. */
  lemma {:induction false} NoHoldReleasedTwice(env: Env, mode: Mode, unit: Unit, entries: seq<Entry>)
    requires DistinctIds(entries) && Steps(env, mode, Over(EmptyChain(unit)), entries).Ok?
    ensures ReleasedOnce(entries)
    ensures ReleasedStayReleased(Steps(env, mode, Over(EmptyChain(unit)), entries).value.c.holds, entries)
  {
    hide Step, ReleasedOnce, ReleasedStayReleased, HoldsKept;
    if |entries| == 0 {
      NothingReleased(unit);
    } else {
      var init, last := entries[..|entries| - 1], entries[|entries| - 1];
      NoHoldReleasedTwice(env, mode, unit, init);
      EveryChainKeeps(env, mode, unit, init);
      var v := Steps(env, mode, Over(EmptyChain(unit)), init).value;
      var txn := StepParts(env, mode, v, last);
      ReleasesStep(v.c.holds, Netted(txn, last), init, last);
      assert init + [last] == entries;
    }
  }

  lemma NothingReleased(unit: Unit)
    ensures ReleasedOnce([]) && ReleasedStayReleased(EmptyChain(unit).holds, [])
  {
  }

  // -- the form of accepted entries, and the Merkle frontier ------------------------

  /** An accepted entry sits at its own sequence, and moves a positive amount or none. */
  lemma StepForm(env: Env, mode: Mode, v: View, e: Entry)
    requires Step(env, mode, v, e).Ok?
    ensures e.sequence == v.c.tip.length + 1 && e.prevHash == v.c.tip.head
              && (mode.checkHash ==> env.digest(e) == e.hash)
    ensures if ZeroValue(e.kind) then e.amount == 0 else e.amount > 0
    ensures var t := Step(env, mode, v, e).value.c.tip;
            && t.length == v.c.tip.length + 1 && t.head == e.hash && t.lastTime == Some(e.time)
            && t.frontier == Merkle.Extend(env.sha, v.c.tip.frontier, v.c.tip.length, env.leaf(e.hash))
  {
    hide TextRule, Begin, Booking, Govern, AddTotals, Merkle.Extend;
  }

  lemma {:induction false} AcceptedForm(env: Env, mode: Mode, unit: Unit, entries: seq<Entry>, i: nat)
    requires Steps(env, mode, Over(EmptyChain(unit)), entries).Ok? && i < |entries|
    ensures entries[i].sequence == i + 1
    ensures entries[i].prevHash == if i == 0 then unit.genesis else entries[i - 1].hash
    ensures mode.checkHash ==> env.digest(entries[i]) == entries[i].hash
    ensures if ZeroValue(entries[i].kind) then entries[i].amount == 0 else entries[i].amount > 0
  {
    hide Step;
    var init, last := entries[..|entries| - 1], entries[|entries| - 1];
    if i < |init| {
      AcceptedForm(env, mode, unit, init, i);
    } else {
      FrontierKept(env, mode, unit, init);
      StepForm(env, mode, Steps(env, mode, Over(EmptyChain(unit)), init).value, last);
    }
  }

  function Leaves(env: Env, entries: seq<Entry>): seq<Merkle.Bytes> {
    if |entries| == 0 then [] else Leaves(env, entries[..|entries| - 1]) + [env.leaf(entries[|entries| - 1].hash)]
  }

  /** The frontier a chain carries is the compact range over its entry hashes. */
  lemma {:induction false} FrontierKept(env: Env, mode: Mode, unit: Unit, entries: seq<Entry>)
    requires Steps(env, mode, Over(EmptyChain(unit)), entries).Ok?
    ensures var t := Steps(env, mode, Over(EmptyChain(unit)), entries).value.c.tip;
            && t.length == |entries| == |Leaves(env, entries)|
            && t.head == (if |entries| == 0 then unit.genesis else entries[|entries| - 1].hash)
            && t.frontier == Merkle.Folded(env.sha, Leaves(env, entries))
  {
    hide Step, Merkle.Extend;
    if |entries| > 0 {
      var init, last := entries[..|entries| - 1], entries[|entries| - 1];
      FrontierKept(env, mode, unit, init);
      StepForm(env, mode, Steps(env, mode, Over(EmptyChain(unit)), init).value, last);
      var all := Leaves(env, entries);
      assert all[..|all| - 1] == Leaves(env, init);
    }
  }

  /** The bytes taken from a hash tell the hashes of these entries apart, as bytes read
      from lower-case hex do. */
  ghost predicate LeavesTell(env: Env, a: seq<Entry>, b: seq<Entry>) {
    forall x, y :: x in a && y in b && env.leaf(x.hash) == env.leaf(y.hash) ==> x.hash == y.hash
  }

  lemma {:induction false} LeafAt(env: Env, entries: seq<Entry>, i: nat)
    requires i < |entries|
    ensures |Leaves(env, entries)| == |entries| && Leaves(env, entries)[i] == env.leaf(entries[i].hash)
  {
    var init := entries[..|entries| - 1];
    if |init| > 0 { LeafAt(env, init, if i < |init| then i else 0); }
  }

  lemma {:induction false} SameLeaves(env: Env, at: Env, entries: seq<Entry>)
    requires env.leaf == at.leaf
    ensures Leaves(env, entries) == Leaves(at, entries)
  {
    if |entries| > 0 { SameLeaves(env, at, entries[..|entries| - 1]); }
  }

  /** Two chains, each accepted with its own lookups, of one length and one Merkle root hold
      the same entry hashes, one for one, unless hashing these two trees met a collision. */
  lemma RootIdentifiesChain(env: Env, at: Env, mode: Mode, unit: Unit, a: seq<Entry>, b: seq<Entry>)
    requires Merkle.FixedWidth(env.sha) && env.sha == at.sha && env.leaf == at.leaf
    requires |a| == |b| && LeavesTell(env, a, b)
    requires Steps(env, mode, Over(EmptyChain(unit)), a).Ok? && Steps(at, mode, Over(EmptyChain(unit)), b).Ok?
    requires Merkle.Root(env.sha, Steps(env, mode, Over(EmptyChain(unit)), a).value.c.tip.frontier)
          == Merkle.Root(env.sha, Steps(at, mode, Over(EmptyChain(unit)), b).value.c.tip.frontier)
    ensures Merkle.Clash(env.sha, Leaves(env, a), Leaves(env, b)) || forall i :: 0 <= i < |a| ==> a[i].hash == b[i].hash
  {
    hide Steps, Leaves, Merkle.Folded, Merkle.Root, Merkle.Clash;
    FrontierKept(env, mode, unit, a);
    FrontierKept(at, mode, unit, b);
    SameLeaves(env, at, b);
    Merkle.RootCommits(env.sha, Leaves(env, a), Leaves(env, b));
    if Leaves(env, a) == Leaves(env, b) {
      forall i | 0 <= i < |a| ensures a[i].hash == b[i].hash {
        LeafAt(env, a, i);
        LeafAt(env, b, i);
        assert a[i] in a && b[i] in b;
      }
    }
  }

  // -- refunds ------------------------------------------------------------------

  /** Refunds are counted exactly, and never past the spend they name. */
  ghost predicate RefundsCounted(env: Env, v: View, entries: seq<Entry>) {
    forall id ::
      && Get(Refunds(v), id) == RefundsNaming(entries, id)
      && (RefundsNaming(entries, id) != 0 ==>
            env.resolve(id).Some? && env.resolve(id).value.kind.Spend?
                  && RefundsNaming(entries, id) <= env.resolve(id).value.amount)
  }

  lemma RefundStep(env: Env, kept: map<Id, int>, recent: map<Id, int>, start: nat, e: Entry, id: Id)
    requires env.refunds.None? && RefundRule(env, kept, recent, start, e).Ok?
    ensures var r := RefundRule(env, kept, recent, start, e).value;
            && Get(kept + r, id) == Get(kept + recent, id) + RefundOf(e, id)
            && (e.kind.Reversal? && e.ref == Some(id) ==>
                  env.resolve(id).Some? && env.resolve(id).value.kind.Spend?
                        && Get(kept + r, id) <= env.resolve(id).value.amount)
  {
    if e.ref.Some? {
      assert RefundedOfSpend(env, kept, recent, start, e.ref.value) == Get(kept + recent, e.ref.value);
    }
  }

  lemma StepRefunds(env: Env, mode: Mode, v: View, e: Entry)
    requires Step(env, mode, v, e).Ok?
    ensures RefundRule(env, v.c.spendRefunds, v.recent, v.start, e) == Ok(Step(env, mode, v, e).value.recent)
    ensures Step(env, mode, v, e).value.c.spendRefunds == v.c.spendRefunds
  {
    hide Opening, BalanceRule, HoldRule, RefundRule, FlowRule, Governing, Advance, AddTotals;
  }

  lemma {:induction false} RefundsAreCounted(env: Env, mode: Mode, unit: Unit, entries: seq<Entry>)
    requires env.refunds.None? && Steps(env, mode, Over(EmptyChain(unit)), entries).Ok?
    ensures RefundsCounted(env, Steps(env, mode, Over(EmptyChain(unit)), entries).value, entries)
  {
    hide Step;
    if |entries| > 0 {
      var init, last := entries[..|entries| - 1], entries[|entries| - 1];
      RefundsAreCounted(env, mode, unit, init);
      var v := Steps(env, mode, Over(EmptyChain(unit)), init).value;
      StepRefunds(env, mode, v, last);
      var w := Step(env, mode, v, last).value;
      forall id
        ensures Get(Refunds(w), id) == RefundsNaming(entries, id)
        ensures RefundsNaming(entries, id) != 0 ==>
                  env.resolve(id).Some? && env.resolve(id).value.kind.Spend?
                        && RefundsNaming(entries, id) <= env.resolve(id).value.amount
      {
        assert Get(Refunds(v), id) == RefundsNaming(init, id);
        RefundStep(env, v.c.spendRefunds, v.recent, v.start, last, id);
      }
    }
  }

  /** On every replayable chain with distinct ids, the refunds that name a spend
      never add up to more than it spent. */
  lemma NoSpendOverRefunded(env: Env, unit: Unit, entries: seq<Entry>, i: nat)
    requires env.refunds.None? && DistinctIds(entries)
               && Replay(env.(resolve := SpendIndex(entries)), unit, entries).Ok?
    requires i < |entries| && entries[i].kind.Spend?
    ensures RefundsNaming(entries, entries[i].id) <= entries[i].amount
  {
    var env' := env.(resolve := SpendIndex(entries));
    RefundsAreCounted(env', REPLAYING, unit, entries);
    SpendFound(entries, i);
    AcceptedForm(env', REPLAYING, unit, entries, i);
    hide Steps, RefundsNaming, NewestSpend;
    var v := Steps(env', REPLAYING, Over(EmptyChain(unit)), entries).value;
    assert RefundsCounted(env', v, entries);
    assert Get(Refunds(v), entries[i].id) == RefundsNaming(entries, entries[i].id);
  }
}
