/**
 Two kinds of ledger, one behaviour: one counts the refunds of each spend in memory,
 one asks a store that keeps history.  Whatever is posted, divided into views, or
 replayed, both accept the same and reach the same state, but for the counts only the
 first remembers.
 */
module Stores {
  import opened Vocabulary
  import opened Engine
  import opened Replays
  import opened Laws
  import opened Opens

  /** The same engine with its refunds counted in memory. */
  function InMemory(env: Env): Env { env.(refunds := None) }

  /** A state as a ledger over this engine keeps it. */
  function Served(env: Env, c: Chain): Chain { if env.refunds.None? then c else c.(spendRefunds := map[]) }

  function ServedAll(env: Env, r: Result<Chain>): Result<Chain> {
    match r case Ok(c) => Ok(Served(env, c)) case Err(f) => Err(f)
  }

  /** A state that counts the refunds of every spend in its entries. */
  ghost predicate Counts(c: Chain, entries: seq<Entry>) {
    c.tip.length == |entries| && forall id :: Get(c.spendRefunds, id) == RefundsNaming(entries, id)
  }

  // -- one batch -----------------------------------------------------------------------

  /** The engine over a store, beside the one that counts in memory. */
  ghost predicate Beside(env: Env, store: Env) {
    && env.refunds.None? && store.refunds.Some? && SameSpends(env.resolve, store.resolve)
    && store == env.(resolve := store.resolve, refunds := store.refunds)
  }

  /** A store that answers for the first `n` entries of a chain as they are. */
  ghost predicate Answers(store: Env, full: seq<Entry>, n: nat) {
    n <= |full| && (n > 0 ==>
          store.refunds.Some?
          && forall id :: store.refunds.value(id, n) == RefundsNaming(full[..n], id))
  }

  lemma OverTwins(full: seq<Entry>, n: nat, env: Env, c: Chain, store: Env)
    requires n <= |full| && store.refunds.Some? && Answers(store, full, n) && Counts(c, full[..n])
    ensures Twins(full, n, env, Over(c), store, Over(c.(spendRefunds := map[])))
  {
    assert c.spendRefunds + map[] == c.spendRefunds;
    if n == 0 {
      assert full[..0] == [];
      forall id ensures RefundsNaming(full[..0], id) == 0 { NoRefunds(id); }
    }
  }

  lemma {:induction false} StepsLength(env: Env, mode: Mode, v: View, entries: seq<Entry>)
    requires Steps(env, mode, v, entries).Ok?
    ensures Steps(env, mode, v, entries).value.c.tip.length == v.c.tip.length + |entries|
  {
    hide Step;
    if |entries| > 0 {
      var init := entries[..|entries| - 1];
      StepsLength(env, mode, v, init);
      StepForm(env, mode, Steps(env, mode, v, init).value, entries[|entries| - 1]);
    }
  }

  /** One batch of either kind: the same verdict, the same state but for the counts. */
  lemma BatchEither(full: seq<Entry>, n: nat, k: nat, mode: Mode, env: Env, c: Chain, store: Env)
    requires Beside(env, store) && n + k <= |full| && Answers(store, full, n) && Counts(c, full[..n])
    ensures var part := full[n..n + k]; var b := Batch(env, mode, c, part);
            && Batch(store, mode, c.(spendRefunds := map[]), part) == ServedAll(store, b)
            && (b.Ok? ==> Counts(b.value, full[..n + k]))
  {
    hide Steps, Answers, RefundedOfSpend, RefundsNaming, SameSpends;
    var part, s := full[n..n + k], c.(spendRefunds := map[]);
    OverTwins(full, n, env, c, store);
    StepsTwins(full, n, k, mode, env, Over(c), store, Over(s));
    var a := Steps(env, mode, Over(c), part);
    if a.Ok? { StepsLength(env, mode, Over(c), part); }
  }

  // -- writes --------------------------------------------------------------------------

  lemma AnswersPart(env: Env, part: seq<Entry>, full: seq<Entry>)
    requires env.refunds.Some? && part <= full
    ensures Answers(OverChain(env, part), full, |part|) && Answers(Writing(env, part), full, |part|)
  {
    assert full[..|part|] == part && part[..|part|] == part;
  }

  /** Posts over a store leave the states posts in memory leave, but for the counts. */
  lemma {:induction false} PostedOverStore(env: Env, unit: Unit, batches: seq<seq<Entry>>)
    requires env.refunds.Some?
    ensures var p := Posted(InMemory(env), EmptyChain(unit), batches);
            && Posted(env, EmptyChain(unit), batches) == ServedAll(env, p)
            && (p.Ok? ==> Counts(p.value, Flat(batches)))
  {
    hide Batch, Committed, StoreRefunds, RefundsNaming, Counts;
    if |batches| == 0 {
      CountsNothing(unit);
    } else {
      var init, last := batches[..|batches| - 1], batches[|batches| - 1];
      PostedOverStore(env, unit, init);
      var p := Posted(InMemory(env), EmptyChain(unit), init);
      if p.Ok? { PostOverStore(env, Flat(init), last, p.value); }
    }
  }

  lemma PostOverStore(env: Env, part: seq<Entry>, last: seq<Entry>, c: Chain)
    requires env.refunds.Some? && Counts(c, part)
    ensures var b := Batch(Writing(InMemory(env), part), WRITING, c, last);
            && Batch(Writing(env, part), WRITING, c.(spendRefunds := map[]), last) == ServedAll(env, b)
            && (b.Ok? ==> Counts(b.value, part + last))
  {
    hide Batch, Committed, StoreRefunds, RefundsNaming, Counts, Answers;
    var full := part + last;
    assert full[..|part|] == part && full[|part|..|part| + |last|] == last && full[..|part| + |last|] == full;
    AnswersPart(env, part, full);
    BatchEither(full, |part|, |last|, WRITING, Writing(InMemory(env), part), c, Writing(env, part));
  }

  lemma CountsNothing(unit: Unit)
    ensures Counts(EmptyChain(unit), []) && EmptyChain(unit).(spendRefunds := map[]) == EmptyChain(unit)
  {
  }

  /** Posts of either kind. */
  lemma PostedEither(env: Env, unit: Unit, batches: seq<seq<Entry>>)
    ensures Posted(env, EmptyChain(unit), batches) == ServedAll(env, Posted(InMemory(env), EmptyChain(unit), batches))
  {
    hide Posted, Counts;
    if env.refunds.Some? { PostedOverStore(env, unit, batches); } else { assert InMemory(env) == env; }
  }

  // -- replays -------------------------------------------------------------------------

  /** A replay of either kind. */
  lemma ReplayEither(env: Env, unit: Unit, entries: seq<Entry>)
    ensures Replay(Replaying(env, entries), unit, entries)
         == ServedAll(env, Replay(Replaying(InMemory(env), entries), unit, entries))
  {
    hide Batch, SpendIndex, StoreRefunds, RefundsNaming, Counts;
    if env.refunds.Some? {
      assert entries[0..|entries|] == entries && entries[..0] == [];
      CountsNothing(unit);
      BatchEither(entries, 0, |entries|, REPLAYING, Replaying(InMemory(env), entries), EmptyChain(unit),
            Replaying(env, entries));
    } else {
      assert InMemory(env) == env;
    }
  }

  /** Whatever writes commit, one replay of the whole chain accepts and reaches the state
      they left, whether refunds are counted in memory or asked of the store. */
  lemma PostsReplay(env: Env, unit: Unit, batches: seq<seq<Entry>>)
    requires DistinctIds(Flat(batches)) && Posted(env, EmptyChain(unit), batches).Ok?
    requires forall i :: 0 <= i < |Flat(batches)| ==> env.digest(Flat(batches)[i]) == Flat(batches)[i].hash
    ensures Replay(Replaying(env, Flat(batches)), unit, Flat(batches)) == Posted(env, EmptyChain(unit), batches)
  {
    hide Posted, Flat, Replay, SpendIndex, StoreRefunds, DistinctIds;
    PostedEither(env, unit, batches);
    WhatIsPostedReplays(InMemory(env), unit, batches);
    ReplayEither(env, unit, Flat(batches));
  }

  // -- views merged one after another ------------------------------------------------------

  /** The refunds of each spend among some entries. */
  function CountedIn(entries: seq<Entry>): map<Id, int> {
    if |entries| == 0 then map[]
    else
      var m, e := CountedIn(entries[..|entries| - 1]), entries[|entries| - 1];
      if e.kind.Reversal? && e.ref.Some? then m[e.ref.value := Get(m, e.ref.value) + e.amount] else m
  }

  lemma {:induction false} CountedIsNaming(entries: seq<Entry>, id: Id)
    ensures Get(CountedIn(entries), id) == RefundsNaming(entries, id)
  {
    if |entries| > 0 { CountedIsNaming(entries[..|entries| - 1], id); }
  }

  /** Views over a chain in turn, of either kind. */
  lemma {:induction false} BatchesEither(pre: seq<Entry>, batches: seq<seq<Entry>>, full: seq<Entry>, mode: Mode,
                                         env: Env, c: Chain, store: Env)
    requires pre + Flat(batches) <= full && Beside(env, store) && store.refunds == Some(StoreRefunds(full))
               && Counts(c, pre)
    ensures var b := Batches(env, mode, c, batches);
            && Batches(store, mode, c.(spendRefunds := map[]), batches) == ServedAll(store, b)
            && (b.Ok? ==> Counts(b.value, pre + Flat(batches)))
  {
    hide Batch, Counts, SameSpends, RefundsNaming, StoreRefunds, Answers;
    if |batches| == 0 {
      assert pre + Flat(batches) == pre;
    } else {
      var init, last := batches[..|batches| - 1], batches[|batches| - 1];
      var part := pre + Flat(init);
      assert pre + Flat(batches) == part + last;
      assert part <= full;
      BatchesEither(pre, init, full, mode, env, c, store);
      var b := Batches(env, mode, c, init);
      if b.Ok? {
        AnswersWithin(store, full, |part|);
        assert full[..|part|] == part && full[|part|..|part| + |last|] == last
                 && full[..|part| + |last|] == part + last;
        BatchEither(full, |part|, |last|, mode, env, b.value, store);
      }
    }
  }

  lemma AnswersWithin(store: Env, full: seq<Entry>, n: nat)
    requires store.refunds == Some(StoreRefunds(full)) && n <= |full|
    ensures Answers(store, full, n)
  {
  }

  /** A state of either kind after some entries, and an engine over them and those to come. */
  ghost predicate Continues(env: Env, c: Chain, pre: seq<Entry>, tail: seq<Entry>) {
    env.refunds.None?
    || (env.refunds == Some(StoreRefunds(pre + tail)) && c.tip.length == |pre| && c.spendRefunds == map[])
  }

  /** The state in memory a state over a store stands for. */
  function Remembered(c: Chain, pre: seq<Entry>): Chain { c.(spendRefunds := CountedIn(pre)) }

  lemma BesideMemory(env: Env, c: Chain, pre: seq<Entry>, tail: seq<Entry>)
    requires env.refunds.Some? && Continues(env, c, pre, tail)
    ensures Beside(InMemory(env), env) && Counts(Remembered(c, pre), pre)
              && Remembered(c, pre).(spendRefunds := map[]) == c
  {
    hide CountedIn, RefundsNaming, StoreRefunds;
    forall id ensures Get(CountedIn(pre), id) == RefundsNaming(pre, id) { CountedIsNaming(pre, id); }
  }

  lemma TailEither(env: Env, mode: Mode, c: Chain, pre: seq<Entry>, batches: seq<seq<Entry>>)
    requires env.refunds.Some? && Continues(env, c, pre, Flat(batches))
    ensures Batches(env, mode, c, batches) == ServedAll(env, Batches(InMemory(env), mode, Remembered(c, pre), batches))
    ensures Batch(env, mode, c, Flat(batches))
              == ServedAll(env, Batch(InMemory(env), mode, Remembered(c, pre), Flat(batches)))
  {
    hide Batch, Batches, Flat, CountedIn, StoreRefunds, Answers, SameSpends, Counts, Remembered;
    var full, tail := pre + Flat(batches), Flat(batches);
    BesideMemory(env, c, pre, tail);
    BatchesEither(pre, batches, full, mode, InMemory(env), Remembered(c, pre), env);
    AnswersWithin(env, full, |pre|);
    assert full[..|pre|] == pre && full[|pre|..|pre| + |tail|] == tail;
    BatchEither(full, |pre|, |tail|, mode, InMemory(env), Remembered(c, pre), env);
  }

  /** However entries are divided into views merged one after another, of either kind: if
      each is accepted, one view over all of them accepts and reaches the same state; and
      if that one accepts, so does every division cut between transactions. */
  lemma DivisionAgrees(env: Env, mode: Mode, c: Chain, pre: seq<Entry>, batches: seq<seq<Entry>>)
    requires Continues(env, c, pre, Flat(batches))
    requires Batches(env, mode, c, batches).Ok?
               || (CutBetweenTransactions(batches) && Batch(env, mode, c, Flat(batches)).Ok?)
    ensures Batches(env, mode, c, batches) == Batch(env, mode, c, Flat(batches))
  {
    hide Batch, Batches, Flat, CutBetweenTransactions, Remembered, StoreRefunds;
    if env.refunds.None? {
      DivisionInMemory(env, mode, c, batches);
    } else {
      TailEither(env, mode, c, pre, batches);
      DivisionInMemory(InMemory(env), mode, Remembered(c, pre), batches);
    }
  }

  lemma DivisionInMemory(env: Env, mode: Mode, c: Chain, batches: seq<seq<Entry>>)
    requires env.refunds.None?
    requires Batches(env, mode, c, batches).Ok?
               || (CutBetweenTransactions(batches) && Batch(env, mode, c, Flat(batches)).Ok?)
    ensures Batches(env, mode, c, batches) == Batch(env, mode, c, Flat(batches))
  {
    hide Batch, Batches, Flat, CutBetweenTransactions;
    if Batches(env, mode, c, batches).Ok? {
      DivisionSound(env, mode, c, batches);
    } else {
      DivisionComplete(env, mode, c, batches);
    }
  }

  // -- refunds of either kind -------------------------------------------------------------------

  /** On every replayable chain with distinct ids, of either kind, the refunds naming a
      spend never add up to more than it spent. */
  lemma NeverOverRefunded(env: Env, unit: Unit, entries: seq<Entry>, i: nat)
    requires DistinctIds(entries) && Replay(Replaying(env, entries), unit, entries).Ok? && i < |entries|
               && entries[i].kind.Spend?
    ensures RefundsNaming(entries, entries[i].id) <= entries[i].amount
  {
    hide Replay, SpendIndex, StoreRefunds, RefundsNaming, DistinctIds;
    ReplayEither(env, unit, entries);
    NoSpendOverRefunded(InMemory(env), unit, entries, i);
  }
}
