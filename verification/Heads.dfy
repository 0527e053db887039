/**
 What a governor writes is of the newest version, hashed over its text, so the head of
 its ledger names everything it ever did: two governors that show one length and one
 head have the same chain and the same state.
 */
module Heads {
  import opened Vocabulary
  import opened Engine
  import opened Replays
  import opened Posts
  import opened Managers
  import opened Governance
  import opened Encoding
  import Stores
  import Effects
  import Governors

  ghost predicate AllNewest(entries: seq<Entry>) { forall i :: 0 <= i < |entries| ==> entries[i].version.V3? }

  lemma {:induction false} RunVersions(env: Env, policy: Policy, unit: Unit, events: seq<Event>)
    requires Governors.AllDrawn(events)
    ensures AllNewest(Flat(RunOps(env, policy, unit, events).batches))
  {
    hide Perform;
    if |events| > 0 {
      var init, ev := events[..|events| - 1], events[|events| - 1];
      RunVersions(env, policy, unit, init);
      var before := RunOps(env, policy, unit, init);
      var at := Writing(env, Flat(before.batches));
      Effects.PerformVersions(at, policy, before.c, ev);
      Governance.FlatLast(before.batches, Perform(at, policy, before.c, ev).1);
    }
  }

  /** A run's chain replays, with the hashes it was written with, to the run's state. */
  lemma RunIsReplayable(t: Texts, env: Env, policy: Policy, unit: Unit, events: seq<Event>)
    requires Governors.AllDrawn(events) && HashIgnoresItself(env) && HashesText(t, env)
    requires DistinctIds(Flat(RunOps(env, policy, unit, events).batches))
    ensures var g := RunOps(env, policy, unit, events);
            Replayable(t, env, unit, Flat(g.batches))
            && Replay(Replaying(env, Flat(g.batches)), unit, Flat(g.batches)) == Ok(g.c)
  {
    hide RunOps, HashIgnoresItself, DistinctIds, Posted, Flat, Replay, Replaying, HashesText;
    var g := RunOps(env, policy, unit, events);
    RunVersions(env, policy, unit, events);
    RunIsPosted(env, policy, unit, events);
    RunHashed(env, policy, unit, events);
    Stores.PostsReplay(env, unit, g.batches);
  }

  /** Two governors, whatever their policies and operations: if their states show one
      length and one head, their chains and their states are the same, or the two chains
      hold, at one place, different texts with one hash. */
  lemma HeadNamesRun(t: Texts, env: Env, p: Policy, q: Policy, unit: Unit, xs: seq<Event>, ys: seq<Event>)
    requires Governors.AllDrawn(xs) && Governors.AllDrawn(ys)
    requires Faithful(t) && HashIgnoresItself(env) && HashesText(t, env)
    requires DistinctIds(Flat(RunOps(env, p, unit, xs).batches)) && DistinctIds(Flat(RunOps(env, q, unit, ys).batches))
    requires var a, b := RunOps(env, p, unit, xs).c.tip, RunOps(env, q, unit, ys).c.tip;
             a.length == b.length && a.head == b.head
    ensures var a, b := RunOps(env, p, unit, xs), RunOps(env, q, unit, ys);
            (Flat(a.batches) == Flat(b.batches) && a.c == b.c) || TextsClash(t, Flat(a.batches), Flat(b.batches))
  {
    hide RunOps, HashIgnoresItself, DistinctIds, Flat, Replay, Replaying, HashesText, Replayable, Faithful, TextsClash;
    RunIsReplayable(t, env, p, unit, xs);
    RunIsReplayable(t, env, q, unit, ys);
    HeadNamesReplay(t, env, unit, Flat(RunOps(env, p, unit, xs).batches), Flat(RunOps(env, q, unit, ys).batches));
  }

  /** The same of two managers as they run. */
  lemma HeadNamesManager(t: Texts, m: Governors.BudgetManager, k: Governors.BudgetManager)
    requires m.Valid() && k.Valid() && m.ledger.env == k.ledger.env && m.ledger.state.unit == k.ledger.state.unit
    requires Faithful(t) && HashIgnoresItself(m.ledger.env) && HashesText(t, m.ledger.env)
    requires DistinctIds(m.ledger.entries) && DistinctIds(k.ledger.entries)
    requires m.ledger.state.length == k.ledger.state.length && m.ledger.state.head == k.ledger.state.head
    ensures (m.ledger.entries == k.ledger.entries && m.ledger.state.Value() == k.ledger.state.Value())
         || TextsClash(t, m.ledger.entries, k.ledger.entries)
  {
    hide RunOps, HashIgnoresItself, DistinctIds, Flat, HashesText, Faithful, TextsClash, Posted;
    HeadNamesRun(t, m.ledger.env, m.policy, k.policy, m.ledger.state.unit, m.events, k.events);
  }
}
