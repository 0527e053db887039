/**
 A fleet of governors is one governor: when everything each of them posts is what an
 operation commits on its own view, the committed chain of any interleaving is a run of
 operations, and everything proved of such runs holds fleet-wide.
 */
module Composition {
  import opened Vocabulary
  import opened Engine
  import opened Replays
  import opened Trees
  import opened Posts
  import opened Managers
  import opened Subtrees
  import opened Governance
  import opened Fleet
  import Overdrafts

  /** Whatever passes the fleet's guard is what some operation commits on that view. */
  ghost predicate Governing(f: Fleet, policy: Policy) {
    forall es, c, w :: f.guard(es, c, w) ==> Operation(f, policy, es, c, w)
  }

  ghost predicate Operation(f: Fleet, policy: Policy, es: seq<Entry>, c: Chain, w: Write) {
    w.entries != [] && exists ev :: Drawn(ev) && Perform(Replays.Writing(f.env, es), policy, c, ev).1 == w.entries
  }

  ghost predicate AllDrawn(events: seq<Event>) { forall i :: 0 <= i < |events| ==> Drawn(events[i]) }

  /** One operation for each commit: after each of them the operations so far left the
      state the commits so far left, and had written those commits. */
  ghost predicate Behind(f: Fleet, policy: Policy, ws: seq<Write>, events: seq<Event>) {
    && AllDrawn(events) && |events| == |ws|
    && forall k :: 0 <= k <= |ws| ==> BehindAt(f, policy, ws[..k], events[..k])
  }

  ghost predicate BehindAt(f: Fleet, policy: Policy, ws: seq<Write>, events: seq<Event>)
    requires AllDrawn(events)
  {
    StateOf(f, ws).Ok? && RunOps(f.env, policy, f.unit, events) == Governed(StateOf(f, ws).value, Batched(ws))
  }

  /** The run of operations behind a sequence of commits. */
  lemma {:induction false} OperationsOf(f: Fleet, policy: Policy, ws: seq<Write>) returns (events: seq<Event>)
    requires Governing(f, policy) && Guarded(f, ws) && StateOf(f, ws).Ok?
    ensures Behind(f, policy, ws, events)
  {
    hide Perform, Batch, Ledger, Batched, RunOps, StateOf, Guarded;
    if |ws| == 0 {
      events := [];
      NothingYet(f, policy);
      assert ws[..0] == [] && events[..0] == [];
    } else {
      var init, last := ws[..|ws| - 1], ws[|ws| - 1];
      Before(f, ws);
      var before := OperationsOf(f, policy, init);
      var c := StateOf(f, init).value;
      assert Operation(f, policy, Ledger(init), c, last);
      var ev :| Drawn(ev) && Perform(Replays.Writing(f.env, Ledger(init)), policy, c, ev).1 == last.entries;
      assert init[..|init|] == init && before[..|init|] == before;
      assert BehindAt(f, policy, init[..|init|], before[..|init|]);
      events := OneMore(f, policy, init, last, before, ev);
      BehindMore(f, policy, ws, before, events);
    }
  }

  lemma BehindMore(f: Fleet, policy: Policy, ws: seq<Write>, before: seq<Event>, events: seq<Event>)
    requires |ws| > 0 && |events| == |ws| && AllDrawn(events) && before == events[..|ws| - 1]
    requires Behind(f, policy, ws[..|ws| - 1], before) && BehindAt(f, policy, ws, events)
    ensures Behind(f, policy, ws, events)
  {
    hide BehindAt;
    forall k | 0 <= k <= |ws| ensures BehindAt(f, policy, ws[..k], events[..k]) {
      if k < |ws| {
        assert ws[..k] == ws[..|ws| - 1][..k] && events[..k] == before[..k];
      } else {
        assert ws[..k] == ws && events[..k] == events;
      }
    }
  }

  lemma NothingYet(f: Fleet, policy: Policy)
    ensures BehindAt(f, policy, [], [])
  {
  }

  lemma GuardedBefore(f: Fleet, ws: seq<Write>)
    requires |ws| > 0 && Guarded(f, ws)
    ensures var init := ws[..|ws| - 1];
            && Guarded(f, init) && StateOf(f, init).Ok? && f.guard(Ledger(init), StateOf(f, init).value, ws[|ws| - 1])
  {
    hide StateOf, Ledger;
    var init := ws[..|ws| - 1];
    forall i | 0 <= i < |init| ensures StateOf(f, init[..i]).Ok?
          && f.guard(Ledger(init[..i]), StateOf(f, init[..i]).value, init[i]) {
      assert init[..i] == ws[..i];
    }
  }

  lemma StateBefore(f: Fleet, ws: seq<Write>)
    requires |ws| > 0 && StateOf(f, ws[..|ws| - 1]).Ok?
    ensures var init := ws[..|ws| - 1];
            && StateOf(f, ws) == Batch(Replays.Writing(f.env, Ledger(init)), WRITING, StateOf(f, init).value,
                  ws[|ws| - 1].entries)
            && Batched(ws) == Batched(init) + [ws[|ws| - 1].entries]
  {
    hide Batch, Flat, Replays.Writing;
    BatchedSlices(ws, |ws| - 1);
    assert Batched(ws)[..|Batched(ws)| - 1] == Batched(ws[..|ws| - 1]);
  }

  /** A sequence of commits, but for its last. */
  lemma Before(f: Fleet, ws: seq<Write>)
    requires |ws| > 0 && Guarded(f, ws) && StateOf(f, ws).Ok?
    ensures var init := ws[..|ws| - 1];
            && Guarded(f, init) && StateOf(f, init).Ok? && f.guard(Ledger(init), StateOf(f, init).value, ws[|ws| - 1])
            && StateOf(f, ws) == Batch(Replays.Writing(f.env, Ledger(init)), WRITING, StateOf(f, init).value,
                  ws[|ws| - 1].entries)
            && Batched(ws) == Batched(init) + [ws[|ws| - 1].entries]
  {
    hide Batch, StateOf, Guarded, Ledger, Batched;
    GuardedBefore(f, ws);
    StateBefore(f, ws);
  }

  lemma OneMore(f: Fleet, policy: Policy, init: seq<Write>, last: Write, before: seq<Event>,
                ev: Event) returns (events: seq<Event>)
    requires AllDrawn(before) && Drawn(ev) && StateOf(f, init).Ok? && last.entries != []
    requires RunOps(f.env, policy, f.unit, before) == Governed(StateOf(f, init).value, Batched(init))
    requires Perform(Replays.Writing(f.env, Ledger(init)), policy, StateOf(f, init).value, ev).1 == last.entries
    ensures AllDrawn(events) && events == before + [ev]
    ensures var d := Batch(Replays.Writing(f.env, Ledger(init)), WRITING, StateOf(f, init).value, last.entries);
            d.Ok? && RunOps(f.env, policy, f.unit, events) == Governed(d.value, Batched(init) + [last.entries])
  {
    hide Perform, Batch, StateOf, Batched, Flat, Shape;
    events := before + [ev];
    assert events[..|events| - 1] == before;
    PerformShape(Replays.Writing(f.env, Ledger(init)), policy, StateOf(f, init).value, ev);
  }

  /** What is committed, in any interleaving of governors, crashes and lost commits, is
      one run of operations, one for each commit. */
  lemma FleetIsGoverned(f: Fleet, policy: Policy, worlds: seq<World>, actions: seq<Action>,
                        n: nat) returns (events: seq<Event>)
    requires Governing(f, policy) && Run(f, worlds, actions) && n <= |actions|
    ensures Behind(f, policy, worlds[n].posts, events)
  {
    hide Inv, Can, Do, Governing, RunOps, StateOf, Batched, Behind;
    EveryRunKeeps(f, worlds, actions, n);
    GoodOf(f, worlds[n]);
    events := OperationsOf(f, policy, worlds[n].posts);
  }

  /** After the whole of them. */
  lemma AllBehind(f: Fleet, policy: Policy, ws: seq<Write>, events: seq<Event>)
    requires Behind(f, policy, ws, events)
    ensures BehindAt(f, policy, ws, events)
  {
    hide BehindAt;
    assert BehindAt(f, policy, ws[..|ws|], events[..|ws|]);
    assert ws[..|ws|] == ws && events[..|ws|] == events;
  }

  /** And what the operation after the first `k` committed is the commit after them. */
  lemma NextBehind(f: Fleet, policy: Policy, ws: seq<Write>, events: seq<Event>, k: nat)
    requires Behind(f, policy, ws, events) && k < |ws| && ws[k].entries != []
    ensures StateOf(f, ws[..k]).Ok? && After(f.env, policy, f.unit, events, k).c == StateOf(f, ws[..k]).value
    ensures Commits(f.env, policy, f.unit, events, k).1 == ws[k].entries
  {
    hide Perform, StateOf, Flat;
    var next := k + 1;
    assert BehindAt(f, policy, ws[..k], events[..k]) && BehindAt(f, policy, ws[..next], events[..next]);
    assert events[..next][..k] == events[..k] && events[..next][k] == events[k];
    assert Batched(ws[..next])[k] == ws[k].entries && |Batched(ws[..k])| == k && |Batched(ws[..next])| == next;
  }

  lemma GoodOf(f: Fleet, w: World)
    requires Inv(f, w)
    ensures Guarded(f, w.posts) && StateOf(f, w.posts).Ok? && DistinctIds(Ledger(w.posts))
  {
    hide Recorded, Flat, Posted;
  }

  /** Every commit has entries. */
  lemma CommitsWrite(f: Fleet, policy: Policy, w: World, k: nat)
    requires Governing(f, policy) && Inv(f, w) && k < |w.posts|
    ensures w.posts[k].entries != []
  {
    hide Inv, StateOf, Ledger, Perform;
    GoodOf(f, w);
    assert f.guard(Ledger(w.posts[..k]), StateOf(f, w.posts[..k]).value, w.posts[k]);
    assert Operation(f, policy, Ledger(w.posts[..k]), StateOf(f, w.posts[..k]).value, w.posts[k]);
  }

  /** So over the fleet, at every moment: every subtree is worth what its scope was
      allotted less what it gave back, and no scope is too deep. */
  lemma FleetConserves(f: Fleet, policy: Policy, worlds: seq<World>, actions: seq<Action>, n: nat, s: Scope)
    requires Governing(f, policy) && HashIgnoresItself(f.env) && Run(f, worlds, actions) && n <= |actions|
    requires StateOf(f, worlds[n].posts).Ok? && s in StateOf(f, worlds[n].posts).value.tree.nodes.at
    ensures var c := StateOf(f, worlds[n].posts).value;
            && TreeKept(c.tree) && Shallow(c.tree, policy.maxDepth)
            && WorthOf(c.tree.nodes.order, Members(c.tree, s), c)
               == c.tree.nodes.at[s].allotted - Returned(Ledger(worlds[n].posts), s)
  {
    hide Inv, Can, Do, Governing, RunOps, StateOf, Batched, HashIgnoresItself, Flat, TreeKept, Members, WorthOf,
          Returned, Shallow, Behind;
    var events := FleetIsGoverned(f, policy, worlds, actions, n);
    AllBehindDrawn(f, policy, worlds[n].posts, events);
    AllBehind(f, policy, worlds[n].posts, events);
    EveryRunKeeps(f, worlds, actions, n);
    GoodOf(f, worlds[n]);
    hide Run, DistinctIds;
    SubtreeConserves(f.env, policy, f.unit, events, s);
    DepthBounded(f.env, policy, f.unit, events);
  }

  /** While no scope is overdrawn, no subtree has spent more across the fleet, net of
      refunds, than its scope was allotted less what it gave back. */
  lemma FleetSpendBounded(f: Fleet, policy: Policy, worlds: seq<World>, actions: seq<Action>, n: nat, s: Scope)
    requires Governing(f, policy) && HashIgnoresItself(f.env) && Run(f, worlds, actions) && n <= |actions|
    requires StateOf(f, worlds[n].posts).Ok? && s in StateOf(f, worlds[n].posts).value.tree.nodes.at
    requires forall x :: Balance(StateOf(f, worlds[n].posts).value, x) >= 0
    ensures var c := StateOf(f, worlds[n].posts).value;
            && TreeKept(c.tree)
            && NetSpend(c.tree.nodes.order, Members(c.tree, s), c.purse)
               <= c.tree.nodes.at[s].allotted - Returned(Ledger(worlds[n].posts), s) <= c.tree.nodes.at[s].allotted
  {
    hide Inv, Can, Do, Governing, RunOps, StateOf, Batched, HashIgnoresItself, Flat, TreeKept, Members, NetSpend,
          Returned, Balance, Behind;
    var events := FleetIsGoverned(f, policy, worlds, actions, n);
    AllBehindDrawn(f, policy, worlds[n].posts, events);
    AllBehind(f, policy, worlds[n].posts, events);
    EveryRunKeeps(f, worlds, actions, n);
    GoodOf(f, worlds[n]);
    hide Run, DistinctIds;
    SolventSpendBounded(f.env, policy, f.unit, events, s);
  }

  /** And no balance was ever below zero, after any commit, if and only if no commit was a
      settlement that overran its hold and what the scope had left. */
  lemma FleetOverdrawnExactly(f: Fleet, policy: Policy, worlds: seq<World>, actions: seq<Action>,
                              n: nat) returns (events: seq<Event>)
    requires Governing(f, policy) && Run(f, worlds, actions) && n <= |actions|
    ensures var ws := worlds[n].posts;
            && Behind(f, policy, ws, events) && (forall k :: 0 <= k <= |ws| ==> StateOf(f, ws[..k]).Ok?)
            && ((forall k, x :: 0 <= k <= |ws| ==> Balance(StateOf(f, ws[..k]).value, x) >= 0)
                <==> (forall k, x :: 0 <= k < |ws| ==>
                        !Overdrafts.Overruns(StateOf(f, ws[..k]).value, events[k].op, x)))
  {
    hide Inv, Can, Do, Governing, StateOf, Balance, Overdrafts.Overruns, RunOps;
    events := FleetIsGoverned(f, policy, worlds, actions, n);
    EveryRunKeeps(f, worlds, actions, n);
    var ws := worlds[n].posts;
    forall k | 0 <= k <= |ws|
      ensures StateOf(f, ws[..k]).Ok? && After(f.env, policy, f.unit, events, k).c == StateOf(f, ws[..k]).value
    {
      assert BehindAt(f, policy, ws[..k], events[..k]);
    }
    forall k, x | 0 <= k < |ws|
      ensures Overdrafts.OverrunsAt(f.env, policy, f.unit, events, k, x)
              <==> Overdrafts.Overruns(StateOf(f, ws[..k]).value, events[k].op, x)
    {
      CommitsWrite(f, policy, worlds[n], k);
      NextBehind(f, policy, ws, events, k);
    }
    hide After, Behind, Run;
    Overdrafts.OverdrawnExactly(f.env, policy, f.unit, events);
  }

  /** The commits from the one after the first `i` up to `k` reset no breaker of `a`. */
  ghost predicate Unreset(ws: seq<Write>, i: nat, k: nat, a: Scope)
    requires i <= k <= |ws|
  {
    forall j, m :: i <= j < k && 0 <= m < |ws[j].entries| ==>
      !(ws[j].entries[m].kind.CircuitReset? && ws[j].entries[m].scope == a)
  }

  lemma ResetWrites(env: Env, policy: Policy, c: Chain, ev: Event)
    requires Drawn(ev) && ev.op.ResetScope? && Perform(env, policy, c, ev).1 != []
    ensures Perform(env, policy, c, ev).1[0].kind.CircuitReset? && Perform(env, policy, c, ev).1[0].scope == ev.op.scope
  {
    hide Perform, Batch;
    var lines := PerformParts(env, policy, c, ev);
    var es := Perform(env, policy, c, ev).1;
    assert es[..|lines|][0] == es[0] && OfLine(es[0], lines[0]);
  }

  /** From the commit that trips a scope until one that resets it, whichever governors
      commit what in between: no hold is placed on its subtree, no scope is created in it,
      and all spend there settles a hold open at the trip or books a claim that had none. */
  lemma FleetHalts(f: Fleet, policy: Policy, worlds: seq<World>, actions: seq<Action>, n: nat, i: nat, k: nat, a: Scope)
    requires Governing(f, policy) && Run(f, worlds, actions) && n <= |actions|
    requires i <= k <= |worlds[n].posts| && Unreset(worlds[n].posts, i, k, a)
    requires StateOf(f, worlds[n].posts[..i]).Ok? && a in StateOf(f, worlds[n].posts[..i]).value.tree.tripped
    ensures var ws, start := worlds[n].posts, StateOf(f, worlds[n].posts[..i]).value;
            && StateOf(f, ws[..k]).Ok? && StillHalted(start, StateOf(f, ws[..k]).value, a)
            && forall j :: i <= j < k ==> FleetHaltedAt(f, ws, start, j, a)
  {
    hide Inv, Can, Do, Governing, StateOf, RunOps, StillHalted, HaltedCommit, TreeKept;
    var events := FleetIsGoverned(f, policy, worlds, actions, n);
    EveryRunKeeps(f, worlds, actions, n);
    var ws := worlds[n].posts;
    assert BehindAt(f, policy, ws[..i], events[..i]) && BehindAt(f, policy, ws[..k], events[..k]);
    forall j | i <= j < k ensures !(events[j].op.ResetScope? && events[j].op.scope == a) {
      NotResetAt(f, policy, worlds[n], events, j, a);
    }
    HaltedUntilReset(f.env, policy, f.unit, events, i, k, a);
    forall j | i <= j < k ensures FleetHaltedAt(f, ws, StateOf(f, ws[..i]).value, j, a) {
      CommitsWrite(f, policy, worlds[n], j);
      NextBehind(f, policy, ws, events, j);
      assert HaltedAt(f.env, policy, f.unit, events, StateOf(f, ws[..i]).value, j, a);
    }
  }

  /** The halt holds before a commit, and of all it wrote. */
  ghost predicate FleetHaltedAt(f: Fleet, ws: seq<Write>, start: Chain, j: nat, a: Scope)
    requires j < |ws|
  {
    && StateOf(f, ws[..j]).Ok? && StillHalted(start, StateOf(f, ws[..j]).value, a)
    && HaltedCommit(start, StateOf(f, ws[..j]).value, a, ws[j].entries)
  }

  lemma NotResetAt(f: Fleet, policy: Policy, w: World, events: seq<Event>, j: nat, a: Scope)
    requires Governing(f, policy) && Inv(f, w) && Behind(f, policy, w.posts, events) && j < |w.posts|
    requires forall m :: 0 <= m < |w.posts[j].entries| ==>
               !(w.posts[j].entries[m].kind.CircuitReset? && w.posts[j].entries[m].scope == a)
    ensures !(events[j].op.ResetScope? && events[j].op.scope == a)
  {
    hide Inv, Governing, Behind, Perform, RunOps;
    AllBehindDrawn(f, policy, w.posts, events);
    CommitsWrite(f, policy, w, j);
    NextBehind(f, policy, w.posts, events, j);
    var g := After(f.env, policy, f.unit, events, j);
    if events[j].op.ResetScope? { ResetWrites(Replays.Writing(f.env, Flat(g.batches)), policy, g.c, events[j]); }
  }

  lemma AllBehindDrawn(f: Fleet, policy: Policy, ws: seq<Write>, events: seq<Event>)
    requires Behind(f, policy, ws, events)
    ensures AllDrawn(events) && |events| == |ws|
  {
  }
}
