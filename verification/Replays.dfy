/**
 Agreement between the paths that run the rules: however a chain is divided into
 views merged one after another, the state is the one a single replay gives, and
 whatever a write accepts a replay accepts.
 */
module Replays {
  import opened Vocabulary
  import opened Engine

  function Flat(batches: seq<seq<Entry>>): seq<Entry> {
    if |batches| == 0 then [] else Flat(batches[..|batches| - 1]) + batches[|batches| - 1]
  }

  /** Each batch in a view of its own, merged before the next is taken. */
  function Batches(env: Env, mode: Mode, c: Chain, batches: seq<seq<Entry>>): Result<Chain> {
    if |batches| == 0 then Ok(c)
    else
      var d :- Batches(env, mode, c, batches[..|batches| - 1]);
      Batch(env, mode, d, batches[|batches| - 1])
  }

  /** Every cut falls between two transactions. */
  ghost predicate CutBetweenTransactions(batches: seq<seq<Entry>>) {
    && (forall i :: 0 <= i < |batches| ==> |batches[i]| > 0)
    && (forall i :: 0 < i < |batches| ==>
          batches[i - 1][|batches[i - 1]| - 1].txn != batches[i][0].txn)
  }

  lemma {:induction false} StepsAppend(env: Env, mode: Mode, v: View, a: seq<Entry>, b: seq<Entry>)
    ensures Steps(env, mode, v, a + b)
         == match Steps(env, mode, v, a) case Ok(w) => Steps(env, mode, w, b) case Err(f) => Err(f)
  {
    hide Step;
    if |b| == 0 {
      assert a + b == a;
    } else {
      var ab := a + b;
      assert ab[..|ab| - 1] == a + b[..|b| - 1];
      StepsAppend(env, mode, v, a, b[..|b| - 1]);
    }
  }

  // -- what each part of a step depends on ------------------------------------

  /** The refunds counted for every spend, wherever they are kept. */
  function Refunds(v: View): map<Id, int> {
    v.c.spendRefunds + v.recent
  }

  /** Two views of one chain, taken at different places: `v` may have started its
      transaction later than `w`. */
  ghost predicate Same(v: View, w: View) {
    && v.c.purse == w.c.purse && v.c.holds == w.c.holds && v.c.tree == w.c.tree && v.c.tip == w.c.tip
    && v.c.unit == w.c.unit && Refunds(v) == Refunds(w)
    && v.txn.net == w.txn.net && v.txn.settleable <= w.txn.settleable
    && (v.txn.id == w.txn.id || (v.txn.id.None? && v.txn.net == 0 && v.txn.settleable == {}))
  }

  lemma BeginSame(x: Txn, y: Txn, e: Entry)
    requires x.net == y.net && x.settleable <= y.settleable
    requires x.id == y.id || (x.id.None? && x.net == 0 && x.settleable == {})
    requires Begin(x, e).Ok?
    ensures Begin(y, e).Ok?
    ensures var a, b := Begin(x, e).value, Begin(y, e).value;
            a.net == b.net && a.settleable <= b.settleable && a.id == b.id == Some(e.txn)
  {
  }

  lemma HoldSame(h: Holds, x: Txn, y: Txn, e: Entry)
    requires x.net == y.net && x.settleable <= y.settleable && x.id == y.id
    requires HoldRule(h, Netted(x, e), e).Ok?
    ensures HoldRule(h, Netted(y, e), e).Ok?
    ensures var (a, b) := (HoldRule(h, Netted(x, e), e).value, HoldRule(h, Netted(y, e), e).value);
            a.0 == b.0 && a.1.net == b.1.net && a.1.settleable <= b.1.settleable && a.1.id == b.1.id == x.id
  {
    hide Place, ReleaseUnnamed, Close;
  }

  lemma RefundSame(env: Env, kept: map<Id, int>, recent: map<Id, int>, start: nat,
                   kept': map<Id, int>, recent': map<Id, int>, start': nat, e: Entry)
    requires env.refunds.None? && kept + recent == kept' + recent'
    ensures var r, s := RefundRule(env, kept, recent, start, e), RefundRule(env, kept', recent', start', e);
            match r case Err(f) => s == Err(f) case Ok(m) => s.Ok? && kept + m == kept' + s.value
  {
    if e.ref.Some? {
      var id := e.ref.value;
      assert RefundedOfSpend(env, kept, recent, start, id) == Get(kept + recent, id);
      assert RefundedOfSpend(env, kept', recent', start', id) == Get(kept' + recent', id);
      var n := Get(kept + recent, id) + e.amount;
      assert kept + recent[id := n] == (kept + recent)[id := n];
      assert kept' + recent'[id := n] == (kept' + recent')[id := n];
    }
  }

  /** What one view accepts, a longer view of the same chain accepts, to the same effect. */
  lemma StepSame(env: Env, mode: Mode, v: View, w: View, e: Entry)
    requires env.refunds.None? && Same(v, w) && Step(env, mode, v, e).Ok?
    ensures Step(env, mode, w, e).Ok? && Same(Step(env, mode, v, e).value, Step(env, mode, w, e).value)
    ensures Step(env, mode, v, e).value.txn.id == Some(e.txn)
  {
    hide AdmitRule, Begin, Netted, BalanceRule, HoldRule, RefundRule, FlowRule, Governing, Advance, AddTotals;
    BeginSame(v.txn, w.txn, e);
    HoldSame(v.c.holds, Begin(v.txn, e).value, Begin(w.txn, e).value, e);
    RefundSame(env, v.c.spendRefunds, v.recent, v.start, w.c.spendRefunds, w.recent, w.start, e);
  }

  lemma {:induction false} StepsSame(env: Env, mode: Mode, v: View, w: View, entries: seq<Entry>)
    requires env.refunds.None? && Same(v, w) && Steps(env, mode, v, entries).Ok?
    ensures Steps(env, mode, w, entries).Ok?
              && Same(Steps(env, mode, v, entries).value, Steps(env, mode, w, entries).value)
  {
    hide Step, Same;
    if |entries| > 0 {
      var init := entries[..|entries| - 1];
      StepsSame(env, mode, v, w, init);
      StepSame(env, mode, Steps(env, mode, v, init).value, Steps(env, mode, w, init).value, entries[|entries| - 1]);
    }
  }

  /** A view merged and a new one taken over it: the same chain. */
  lemma MergedSame(env: Env, v: View, w: View)
    requires env.refunds.None? && Same(v, w) && End(v.txn).Ok?
    ensures Same(Over(Merged(env, v)), w) && End(w.txn).Ok?
  {
    assert Merged(env, v).spendRefunds + map[] == Refunds(v);
  }

  lemma SameMerged(env: Env, v: View, w: View)
    requires env.refunds.None? && Same(v, w)
    ensures Merged(env, v) == Merged(env, w)
  {
  }

  /** However the entries are divided, if every batch is accepted then one replay
      of them all is accepted and reaches the same state. */
  lemma {:induction false} DivisionSound(env: Env, mode: Mode, c: Chain, batches: seq<seq<Entry>>)
    requires env.refunds.None? && Batches(env, mode, c, batches).Ok?
    ensures var w := Steps(env, mode, Over(c), Flat(batches));
            w.Ok? && Same(Over(Batches(env, mode, c, batches).value), w.value)
    ensures Batch(env, mode, c, Flat(batches)) == Batches(env, mode, c, batches)
  {
    hide Step, Same, Merged, Over;
    if |batches| == 0 {
      assert Steps(env, mode, Over(c), []) == Ok(Over(c));
      SameSelf(Over(c));
      OverMerged(env, c);
    } else {
      var init, last := batches[..|batches| - 1], batches[|batches| - 1];
      DivisionSound(env, mode, c, init);
      var d := Batches(env, mode, c, init).value;
      var w := Steps(env, mode, Over(c), Flat(init)).value;
      StepsAppend(env, mode, Over(c), Flat(init), last);
      StepsSame(env, mode, Over(d), w, last);
      var v', w' := Steps(env, mode, Over(d), last).value, Steps(env, mode, w, last).value;
      MergedSame(env, v', w');
      SameMerged(env, v', w');
    }
  }

  lemma SameSelf(v: View)
    ensures Same(v, v)
  {
  }

  lemma OverMerged(env: Env, c: Chain)
    ensures Merged(env, Over(c)) == c && End(Over(c).txn).Ok?
  {
    assert c.spendRefunds + map[] == c.spendRefunds;
  }

  // -- cutting between transactions -------------------------------------------

  lemma StepFresh(env: Env, mode: Mode, w: View, e: Entry)
    requires w.txn == NO_TXN || (w.txn.id.Some? && w.txn.id != Some(e.txn))
    requires Step(env, mode, w, e).Ok?
    ensures End(w.txn).Ok? && Step(env, mode, w.(txn := NO_TXN), e) == Step(env, mode, w, e)
  {
    hide AdmitRule, Booking, Governing, Advance, AddTotals;
  }

  lemma {:induction false} StepsTxn(env: Env, mode: Mode, v: View, entries: seq<Entry>)
    requires Steps(env, mode, v, entries).Ok? && |entries| > 0
    ensures Steps(env, mode, v, entries).value.txn.id == Some(entries[|entries| - 1].txn)
  {
    var w := Steps(env, mode, v, entries[..|entries| - 1]).value;
    StepTxn(env, mode, w, entries[|entries| - 1]);
  }

  lemma StepTxn(env: Env, mode: Mode, w: View, e: Entry)
    requires Step(env, mode, w, e).Ok?
    ensures Step(env, mode, w, e).value.txn.id == Some(e.txn)
  {
    hide AdmitRule, BalanceRule, RefundRule, FlowRule, Governing, Advance, AddTotals, Place, ReleaseUnnamed;
  }

  /** Entries that start a transaction run the same from any closed one. */
  lemma StepsFresh(env: Env, mode: Mode, w: View, entries: seq<Entry>)
    requires |entries| > 0 && (w.txn == NO_TXN || (w.txn.id.Some? && w.txn.id != Some(entries[0].txn)))
    requires Steps(env, mode, w, entries).Ok?
    ensures End(w.txn).Ok? && Steps(env, mode, w.(txn := NO_TXN), entries) == Steps(env, mode, w, entries)
  {
    hide Step;
    var first, rest := [entries[0]], entries[1..];
    assert entries == first + rest && first[..0] == [];
    StepsAppend(env, mode, w, first, rest);
    StepsAppend(env, mode, w.(txn := NO_TXN), first, rest);
    assert Steps(env, mode, w, first) == Step(env, mode, w, entries[0]);
    StepFresh(env, mode, w, entries[0]);
    assert Steps(env, mode, w.(txn := NO_TXN), first) == Step(env, mode, w.(txn := NO_TXN), entries[0]);
  }

  lemma FlatLast(batches: seq<seq<Entry>>)
    requires |batches| > 0 && |batches[|batches| - 1]| > 0
    ensures var f, last := Flat(batches), batches[|batches| - 1];
            |f| > 0 && f[|f| - 1] == last[|last| - 1]
  {
  }

  /** A replay that is accepted is accepted in every division that cuts between
      transactions, to the same state. */
  lemma {:induction false} DivisionComplete(env: Env, mode: Mode, c: Chain, batches: seq<seq<Entry>>)
    requires env.refunds.None? && CutBetweenTransactions(batches)
    requires Batch(env, mode, c, Flat(batches)).Ok?
    ensures Batches(env, mode, c, batches) == Batch(env, mode, c, Flat(batches))
  {
    hide Step, Same, Merged, Over;
    if |batches| == 0 {
      OverMerged(env, c);
    } else {
      var init, last := batches[..|batches| - 1], batches[|batches| - 1];
      StepsAppend(env, mode, Over(c), Flat(init), last);
      var w := Steps(env, mode, Over(c), Flat(init)).value;
      if |init| > 0 {
        assert init[|init| - 1] == batches[|batches| - 2];
        FlatLast(init);
        StepsTxn(env, mode, Over(c), Flat(init));
      } else {
        OverTxn(c);
      }
      StepsFresh(env, mode, w, last);
      DivisionComplete(env, mode, c, init);
      DivisionSound(env, mode, c, init);
      DivisionTail(env, mode, Batches(env, mode, c, init).value, w, last);
    }
  }

  lemma OverTxn(c: Chain)
    ensures Over(c).txn == NO_TXN
  {
  }

  lemma DivisionTail(env: Env, mode: Mode, d: Chain, w: View, last: seq<Entry>)
    requires env.refunds.None? && Same(Over(d), w) && End(w.txn).Ok?
    requires Steps(env, mode, w.(txn := NO_TXN), last) == Steps(env, mode, w, last)
    requires Steps(env, mode, w, last).Ok? && End(Steps(env, mode, w, last).value.txn).Ok?
    ensures Batch(env, mode, d, last) == Ok(Merged(env, Steps(env, mode, w, last).value))
  {
    hide Step, Merged;
    var u := w.(txn := NO_TXN);
    assert Same(u, Over(d));
    StepsSame(env, mode, u, Over(d), last);
    SameMerged(env, Steps(env, mode, u, last).value, Steps(env, mode, Over(d), last).value);
  }

  // -- writing and replaying --------------------------------------------------

  /** The committed entry with an id, searched from the newest. */
  function Committed(entries: seq<Entry>): Id -> Option<Entry> {
    (id: Id) => Newest(entries, id)
  }

  function Newest(entries: seq<Entry>, id: Id): Option<Entry> {
    if |entries| == 0 then None
    else if entries[|entries| - 1].id == id then Some(entries[|entries| - 1])
    else Newest(entries[..|entries| - 1], id)
  }

  /** The spends among a replay's own entries, later ones shadowing earlier. */
  function SpendIndex(entries: seq<Entry>): Id -> Option<Entry> {
    (id: Id) => NewestSpend(entries, id)
  }

  function NewestSpend(entries: seq<Entry>, id: Id): Option<Entry> {
    if |entries| == 0 then None
    else if entries[|entries| - 1].id == id && entries[|entries| - 1].kind.Spend? then Some(entries[|entries| - 1])
    else NewestSpend(entries[..|entries| - 1], id)
  }

  ghost predicate DistinctIds(entries: seq<Entry>) {
    forall i, j :: 0 <= i < j < |entries| ==> entries[i].id != entries[j].id
  }

  function RefundOf(e: Entry, id: Id): int {
    if e.kind.Reversal? && e.ref == Some(id) then e.amount else 0
  }

  /** The sum of the refunds in some entries that name an id. */
  function RefundsNaming(entries: seq<Entry>, id: Id): int {
    if |entries| == 0 then 0 else RefundsNaming(entries[..|entries| - 1], id) + RefundOf(entries[|entries| - 1], id)
  }

  /** The same sum, over a prefix of what a store holds. */
  function StoreRefunds(entries: seq<Entry>): (Id, nat) -> int {
    (id: Id, n: nat) => RefundsNaming(if n <= |entries| then entries[..n] else entries, id)
  }

  /** The engine over a chain of committed entries: a store that keeps history counts
      the refunds in them, and without one they are counted in memory. */
  function OverChain(env: Env, entries: seq<Entry>): Env {
    env.(refunds := if env.refunds.None? then None else Some(StoreRefunds(entries)))
  }

  /** As a write sees them: any committed entry can be named. */
  function Writing(env: Env, entries: seq<Entry>): Env {
    OverChain(env, entries).(resolve := Committed(entries))
  }

  /** As a replay of them sees them: any spend among them can be named. */
  function Replaying(env: Env, entries: seq<Entry>): Env {
    OverChain(env, entries).(resolve := SpendIndex(entries))
  }

  lemma {:induction false} NewestFound(entries: seq<Entry>, id: Id)
    ensures var r := Newest(entries, id);
            r.Some? ==> exists i :: 0 <= i < |entries| && entries[i] == r.value && entries[i].id == id
  {
    if |entries| > 0 && entries[|entries| - 1].id != id {
      NewestFound(entries[..|entries| - 1], id);
    }
  }

  lemma {:induction false} SpendFound(entries: seq<Entry>, i: nat)
    requires DistinctIds(entries) && i < |entries| && entries[i].kind.Spend?
    ensures NewestSpend(entries, entries[i].id) == Some(entries[i])
  {
    if i < |entries| - 1 {
      assert entries[i].id != entries[|entries| - 1].id;
      SpendFound(entries[..|entries| - 1], i);
    }
  }

  /** A spend a write can name, the replay of any longer chain finds too. */
  lemma ResolverGrows(part: seq<Entry>, full: seq<Entry>, id: Id)
    requires part <= full && DistinctIds(full)
    requires Newest(part, id).Some? && Newest(part, id).value.kind.Spend?
    ensures NewestSpend(full, id) == Newest(part, id)
  {
    NewestFound(part, id);
    var i :| 0 <= i < |part| && part[i] == Newest(part, id).value && part[i].id == id;
    assert full[i] == part[i];
    SpendFound(full, i);
  }

  /** An entry a write accepted, a replay accepts, to the same effect. */
  lemma WriteThenReplay(env: Env, part: seq<Entry>, full: seq<Entry>, v: View, e: Entry)
    requires part <= full && DistinctIds(full) && env.digest(e) == e.hash
    requires Step(env.(resolve := Committed(part)), WRITING, v, e).Ok?
    ensures Step(env.(resolve := SpendIndex(full)), REPLAYING, v, e)
         == Step(env.(resolve := Committed(part)), WRITING, v, e)
  {
    var w, r := env.(resolve := Committed(part)), env.(resolve := SpendIndex(full));
    WriteOpening(w, r, v, e);
    WriteBooking(env, part, full, v, Opening(w, WRITING, v.c.unit, v.c.tip, v.txn, e).value.1, e);
    hide Opening, Booking, Govern, SpendIndex, Committed;
  }

  lemma WriteOpening(w: Env, r: Env, v: View, e: Entry)
    requires w.digest == r.digest && w.readCheckpoint == r.readCheckpoint && r.digest(e) == e.hash
    requires Opening(w, WRITING, v.c.unit, v.c.tip, v.txn, e).Ok?
    ensures Opening(r, REPLAYING, v.c.unit, v.c.tip, v.txn, e) == Opening(w, WRITING, v.c.unit, v.c.tip, v.txn, e)
  {
    hide VersionRule, TextRule, Begin;
  }

  lemma WriteBooking(env: Env, part: seq<Entry>, full: seq<Entry>, v: View, txn: Txn, e: Entry)
    requires part <= full && DistinctIds(full)
    requires Booking(env.(resolve := Committed(part)), WRITING, v.c.purse, v.c.holds, v.c.spendRefunds, txn, v.recent,
               v.start, e).Ok?
    ensures Booking(env.(resolve := SpendIndex(full)), REPLAYING, v.c.purse, v.c.holds, v.c.spendRefunds, txn,
              v.recent, v.start, e)
         == Booking(env.(resolve := Committed(part)), WRITING, v.c.purse, v.c.holds, v.c.spendRefunds, txn, v.recent,
               v.start, e)
  {
    hide BalanceRule, HoldRule, Netted, Newest, NewestSpend;
    if e.kind.Reversal? && e.ref.Some? {
      ResolverGrows(part, full, e.ref.value);
    }
  }

  /** A run of writes, each a transaction posted over what was committed before it. */
  function Posted(env: Env, c: Chain, batches: seq<seq<Entry>>): Result<Chain> {
    if |batches| == 0 then Ok(c)
    else
      var init := batches[..|batches| - 1];
      var d :- Posted(env, c, init);
      Batch(Writing(env, Flat(init)), WRITING, d, batches[|batches| - 1])
  }

  lemma {:induction false} StepsReplay(env: Env, part: seq<Entry>, full: seq<Entry>, v: View, entries: seq<Entry>)
    requires part <= full && DistinctIds(full)
    requires forall i :: 0 <= i < |entries| ==> env.digest(entries[i]) == entries[i].hash
    requires Steps(env.(resolve := Committed(part)), WRITING, v, entries).Ok?
    ensures Steps(env.(resolve := SpendIndex(full)), REPLAYING, v, entries)
         == Steps(env.(resolve := Committed(part)), WRITING, v, entries)
  {
    hide Step, SpendIndex, Committed;
    if |entries| > 0 {
      var init := entries[..|entries| - 1];
      StepsReplay(env, part, full, v, init);
      WriteThenReplay(env, part, full, Steps(env.(resolve := Committed(part)), WRITING, v, init).value,
            entries[|entries| - 1]);
    }
  }

  lemma {:induction false} PostedBatches(env: Env, c: Chain, batches: seq<seq<Entry>>, full: seq<Entry>)
    requires env.refunds.None? && Flat(batches) <= full && DistinctIds(full)
    requires forall i :: 0 <= i < |full| ==> env.digest(full[i]) == full[i].hash
    requires Posted(env, c, batches).Ok?
    ensures Batches(env.(resolve := SpendIndex(full)), REPLAYING, c, batches) == Posted(env, c, batches)
  {
    hide Steps, SpendIndex, Committed;
    if |batches| > 0 {
      var init, last := batches[..|batches| - 1], batches[|batches| - 1];
      var part := Flat(init);
      assert Flat(batches) == part + last;
      assert part <= full;
      PostedBatches(env, c, init, full);
      var d := Posted(env, c, init).value;
      assert forall i :: 0 <= i < |last| ==> last[i] == full[|part| + i];
      StepsReplay(env, part, full, Over(d), last);
    }
  }

  /** Whatever writes commit, in any number of transactions, one replay of the
      whole chain accepts and reaches the state the writes left. */
  lemma WhatIsPostedReplays(env: Env, unit: Unit, batches: seq<seq<Entry>>)
    requires env.refunds.None? && DistinctIds(Flat(batches))
    requires forall i :: 0 <= i < |Flat(batches)| ==> env.digest(Flat(batches)[i]) == Flat(batches)[i].hash
    requires Posted(env, EmptyChain(unit), batches).Ok?
    ensures Replay(env.(resolve := SpendIndex(Flat(batches))), unit, Flat(batches))
              == Posted(env, EmptyChain(unit), batches)
  {
    hide Steps, SpendIndex, Committed, Flat;
    PostedBatches(env, EmptyChain(unit), batches, Flat(batches));
    DivisionSound(env.(resolve := SpendIndex(Flat(batches))), REPLAYING, EmptyChain(unit), batches);
  }
}
