/**
 The governor and its ledger as they run: the state, the entries, the open
 authorizations and the store's cache rows, changed together by one commit or not at
 all.
 */
module Governors {
  import opened Vocabulary
  import opened Dicts
  import opened Engine
  import opened Replays
  import opened Trees
  import opened Overlays
  import opened Posts
  import opened Managers
  import opened Governance
  import opened Stores
  import opened Subtrees
  import opened Effects
  import opened Accounts
  import Progress

  /** A ledger: what the chain implies, the chain, the authorizations kept beside it,
      and the rows the store caches of it. */
  class Ledger {
    const state: ChainState
    const env: Env
    var entries: seq<Entry>
    var auths: map<Id, Entry>
    var nodeRows: map<Scope, NodeRow>
    var controlRows: seq<Entry>
    ghost var batches: seq<seq<Entry>>

    /** The state is what the commits so far left, each written over those before it.
        The caches are what it implies: the topology rows its scopes, the control rows
        the trips and resets of the chain, and one open authorization for every open
        hold, of its scope and amount. */
    ghost predicate Valid()
      reads this, state
    {
      && state.Valid()
      && auths == state.holds.at
      && nodeRows == RowsOf(state.nodes.at)
      && controlRows == ControlsOf(entries)
      && Flat(batches) == entries && Posted(env, EmptyChain(state.unit), batches) == Ok(state.Value())
    }

    function At(): Env
      reads this`entries
    {
      Writing(env, entries)
    }

    constructor (unit: Unit, e: Env)
      ensures Valid() && fresh(state) && state.Value() == EmptyChain(unit) && entries == [] && env == e
                && batches == [] && state.unit == unit
    {
      state := new ChainState(unit);
      env := e;
      entries, auths, nodeRows, controlRows, batches := [], map[], map[], [], [];
      new;
      EmptyParts(state, unit);
    }

    /** With the store's consent, state, entries, authorizations and rows move together to
        what the work implies; without it none of them moves. */
    method Commit(pending: Pending, stored: bool)
      requires Valid() && pending.view.Valid() && pending.view.base == state && pending.view.env == At()
      requires pending.view.events == ControlsOf(pending.entries)
      requires Batch(At(), WRITING, state.Value(), pending.entries) == Ok(Merged(At(), pending.view.Value()))
      modifies this`entries, this`auths, this`nodeRows, this`controlRows, this`batches, state
      ensures Valid()
      ensures !stored ==> state.Value() == old(state.Value()) && entries == old(entries) && batches == old(batches)
      ensures stored ==> batches == old(batches) + [pending.entries]
      ensures stored ==>
                state.Value() == Merged(At0(old(entries)), old(pending.view.Value()))
                && entries == old(entries) + pending.entries
    {
      hide Overlay.Valid, ChainState.Valid, Overlay.TreeSeen, Overlay.HoldsSeen, Overlay.PurseSeen, Overlay.TipSeen,
            Merged, Layer;
      hide Batch, Posted, Flat, Writing, ControlsOf, RowsOf, Overlay.TxnSeen, ChainState.Value, EmptyChain;
      StateParts(state);
      PostedMore(env, EmptyChain(state.unit), batches, pending.entries);
      var rows, controls, opens, closes := pending.view.CacheRows();
      if !stored { return; }
      ghost var v := pending.view.Value();
      pending.view.Merge();
      MergedParts(At0(entries), v);
      StateParts(state);
      assert Layer(Dict(old(state.holds.order), auths), closes, opens).at
               == auths - closes + opens.at by { LayerAt(Dict(old(state.holds.order), auths), closes, opens); }
      auths := auths - closes + opens.at;
      nodeRows := nodeRows + rows;
      controlRows := controlRows + controls;
      ControlsAppend(entries, pending.entries);
      entries := entries + pending.entries;
      batches := batches + [pending.entries];
    }

    ghost function At0(committed: seq<Entry>): Env
    {
      Writing(env, committed)
    }
  }

  /** None of the ids a post draws is a hold's. */
  predicate NewIds(holds: map<Id, Entry>, stamp: Stamp) {
    forall i :: 0 <= i < |stamp.ids| ==> stamp.ids[i] !in holds
  }

  class BudgetManager {
    const ledger: Ledger
    const policy: Policy
    ghost var events: seq<Event>

    /** The ledger is in order, and what it holds is the run of the operations so far. */
    ghost predicate Valid()
      reads this, ledger, ledger.state
    {
      && ledger.Valid() && TreeKept(ledger.state.TreeValue())
      && AllDrawn(events)
      && RunOps(ledger.env, policy, ledger.state.unit, events) == Governed(ledger.state.Value(), ledger.batches)
    }

    constructor (unit: Unit, env: Env, p: Policy)
      ensures Valid() && fresh(ledger) && fresh(ledger.state)
      ensures ledger.state.Value() == EmptyChain(unit) && ledger.entries == [] && ledger.env == env && policy == p
    {
      ledger := new Ledger(unit, env);
      policy := p;
      events := [];
      new;
      hide RunOps, TreeKept, EmptyChain, ChainState.Value, Ledger.Valid;
      EmptyTree(unit);
      StateParts(ledger.state);
      NoneRun(env, p, unit);
    }

    /** The trip a settlement stages on what it left, unless the scope is latched. */
    method Staged(view: Overlay, settles: Option<(Scope, bool)>) returns (trip: seq<Line>)
      requires view.Valid()
      ensures trip == Aftermath(policy, settles, view.Value().c)
    {
      hide Overlay.Valid, Overlay.HoldsSeen, Overlay.TreeSeen, Overlay.PurseSeen, Overlay.TipSeen, Overlay.TxnSeen;
      if settles.None? { return []; }
      var (scope, dry) := settles.value;
      var latched := view.TripOf(scope);
      if latched.Some? { return []; }
      var balance := view.Balance(scope);
      if balance < 0 { return [Trips(scope, "overdrawn")]; }
      var count := view.HoldsOpenIn(scope);
      if dry && policy.tripOnExhaustion && balance <= 0 && count == 0 {
        return [Trips(scope, "spend envelope exhausted")];
      }
      return [];
    }

    /** Post an operation's lines and stage the trip they make due, in one unit of work. */
    method Prepare(lines: seq<Line>, settles: Option<(Scope, bool)>, ev: Event) returns (ok: bool, pending: Pending)
      requires ledger.Valid() && Drawn(ev) && |lines| <= 2
      requires NewIds(ledger.state.holds.at, ev.first) && NewIds(ledger.state.holds.at, ev.second)
      ensures fresh(pending) && fresh(pending.view)
      ensures ok <==> Worked(ledger.At(), policy, ledger.state.Value(), settles, lines, ev).Ok?
      ensures ok ==>
        && pending.view.Valid() && pending.view.base == ledger.state && pending.view.env == ledger.At()
        && pending.view.events == ControlsOf(pending.entries)
        && Worked(ledger.At(), policy, ledger.state.Value(), settles, lines, ev)
           == Ok((Merged(ledger.At(), pending.view.Value()), pending.entries))
        && Batch(ledger.At(), WRITING, ledger.state.Value(), pending.entries)
              == Ok(Merged(ledger.At(), pending.view.Value()))
    {
      hide Overlay.Valid, Overlay.Value, ChainState.Valid, ChainState.Value, PostOne, Drafts, LineRule, Aftermath,
            Merged, Over, ControlsOf, Ledger.At, Posted, Flat, Batch;
      var view := new Overlay(ledger.state, ledger.At());
      pending := new Pending(view);
      var first := pending.Post(lines, ev.first);
      if first.Err? { return false, pending; }
      assert [] + first.value == first.value && [] + ControlsOf(first.value) == ControlsOf(first.value);
      var trip := Staged(view, settles);
      OneTrip(policy, settles, view.Value().c);
      if trip != [] {
        var second := pending.Post(trip, ev.second);
        if second.Err? { return false, pending; }
        ControlsAppend(first.value, second.value);
      }
      BatchOf(ledger.At(), policy, ledger.state.Value(), settles, lines, ev);
      return true, pending;
    }

    /** Do the whole of an operation's unit of work, or, if a rule or the store refuses
        it, nothing. */
    method Work(lines: seq<Line>, settles: Option<(Scope, bool)>, ev: Event, stored: bool) returns (wrote: bool)
      requires ledger.Valid() && TreeKept(ledger.state.TreeValue()) && Drawn(ev) && |lines| <= 2
      requires NewIds(ledger.state.holds.at, ev.first) && NewIds(ledger.state.holds.at, ev.second)
      modifies ledger, ledger.state
      ensures ledger.Valid() && TreeKept(ledger.state.TreeValue())
      ensures wrote <==> stored && Worked(old(ledger.At()), policy, old(ledger.state.Value()), settles, lines, ev).Ok?
      ensures wrote ==>
                Worked(old(ledger.At()), policy, old(ledger.state.Value()), settles, lines, ev).value.0
                == ledger.state.Value()
      ensures wrote ==>
                ledger.entries
                == old(ledger.entries)
                      + Worked(old(ledger.At()), policy, old(ledger.state.Value()), settles, lines, ev).value.1
      ensures wrote ==>
                ledger.batches
                == old(ledger.batches)
                      + [Worked(old(ledger.At()), policy, old(ledger.state.Value()), settles, lines, ev).value.1]
      ensures !wrote ==>
                ledger.state.Value() == old(ledger.state.Value()) && ledger.entries == old(ledger.entries)
                && ledger.batches == old(ledger.batches)
    {
      hide Overlay.Valid, Overlay.Value, ChainState.Valid, ChainState.Value, Worked, TreeKept, Merged, ControlsOf,
            Committed, Posted, Flat, Batch;
      ghost var c, at := ledger.state.Value(), ledger.At();
      StateParts(ledger.state);
      WorkedTree(at, policy, c, settles, lines, ev);
      var ok, pending := Prepare(lines, settles, ev);
      if !ok { return false; }
      ledger.Commit(pending, stored);
      StateParts(ledger.state);
      return stored;
    }

    /** Carry out what an operation planned on the state it found. */
    method Carry(plan: Plan, ev: Event, stored: bool) returns (r: Answer)
      requires Valid() && Drawn(ev) && plan == PlanOf(ledger.At(), policy, ledger.state.Value(), ev.op)
      requires NewIds(ledger.state.holds.at, ev.first) && NewIds(ledger.state.holds.at, ev.second)
      modifies this`events, ledger, ledger.state
      ensures Valid() && events == if stored then old(events) + [ev] else old(events)
      ensures Performed(old(ledger.At()), policy, ev, stored, old(Seen()), Seen(), r)
    {
      hide ChainState.Valid, ChainState.Value, Ledger.Valid, PlanOf, Worked, TreeKept, Settles, Ledger.At, RunOps;
      ghost var at, c := ledger.At(), ledger.state.Value();
      RunsOn(this, ev);
      if stored { events := events + [ev]; }
      assert ledger.entries + [] == ledger.entries;
      PlanSize(at, policy, c, ev.op);
      match plan
      case Refuse(why) => r := Refused(why);
      case Nothing => r := NoChange;
      case Deny(trip, why) =>
        var wrote := Work(trip, None, ev, stored);
        WroteSome(at, policy, c, None, trip, ev);
        r := if wrote then Refused(why) else Failed;
      case Lines(lines) =>
        var settles := Settles(ledger.state.Value(), ev.op);
        var wrote := Work(lines, settles, ev, stored);
        WroteSome(at, policy, c, settles, lines, ev);
        r := if wrote then Done else Failed;
    }

    /** Carry it out, and answer so that the caller can rely on it. */
    method Conclude(plan: Plan, ev: Event, stored: bool) returns (r: Answer)
      requires Valid() && Drawn(ev) && plan == PlanOf(ledger.At(), policy, ledger.state.Value(), ev.op)
      requires NewIds(ledger.state.holds.at, ev.first) && NewIds(ledger.state.holds.at, ev.second)
      modifies this`events, ledger, ledger.state
      ensures Valid() && events == if stored then old(events) + [ev] else old(events)
      ensures Performed(old(ledger.At()), policy, ev, stored, old(Seen()), Seen(), r)
      ensures Explains(old(ledger.At()), policy, old(Seen()), Seen(), ev.op, r)
    {
      hide ChainState.Valid, ChainState.Value, Ledger.Valid, PlanOf, TreeKept, Ledger.At, RunOps, Performed, Explains,
           NewIds;
      ghost var at, was := ledger.At(), Seen();
      r := Carry(plan, ev, stored);
      Explained(at, policy, ev, stored, was, Seen(), r);
    }

    ghost function Seen(): (Chain, seq<Entry>)
      reads this, ledger, ledger.state
    {
      (ledger.state.Value(), ledger.entries)
    }

    method OpenRoot(scope: Scope, amount: int, memo: string, first: Stamp, second: Stamp,
                    stored: bool) returns (r: Answer)
      requires Valid() && |first.ids| >= 2 && |second.ids| >= 1
      requires NewIds(ledger.state.holds.at, first) && NewIds(ledger.state.holds.at, second)
      modifies this`events, ledger, ledger.state
      ensures Valid() && Performed(old(ledger.At()), policy, Event(Op.OpenRoot(scope, amount, memo), first, second),
                stored, old(Seen()), Seen(), r)
      ensures Explains(old(ledger.At()), policy, old(Seen()), Seen(), Op.OpenRoot(scope, amount, memo), r)
      ensures RootSays(old(Seen()).0, Seen().0, scope, amount, r)
    {
      hide PlanOf, RunOps, Explains, RootSays, ChainState.Value, Ledger.Valid, TreeKept, Performed, Ledger.At,
           PlanRoot;
      ghost var at, was := ledger.At(), Seen();
      RootPlan(at, policy, was.0, Op.OpenRoot(scope, amount, memo));
      r := Conclude(PlanRoot(ledger.state.Value(), scope, amount, memo),
            Event(Op.OpenRoot(scope, amount, memo), first, second), stored);
      RootDoes(at, policy, Event(Op.OpenRoot(scope, amount, memo), first, second), stored, was, Seen(), r);
    }

    method Fund(scope: Scope, amount: int, memo: string, first: Stamp, second: Stamp, stored: bool) returns (r: Answer)
      requires Valid() && |first.ids| >= 2 && |second.ids| >= 1
      requires NewIds(ledger.state.holds.at, first) && NewIds(ledger.state.holds.at, second)
      modifies this`events, ledger, ledger.state
      ensures Valid() && Performed(old(ledger.At()), policy, Event(Op.Fund(scope, amount, memo), first, second),
                stored, old(Seen()), Seen(), r)
      ensures Explains(old(ledger.At()), policy, old(Seen()), Seen(), Op.Fund(scope, amount, memo), r)
      ensures FundSays(old(Seen()).0, Seen().0, scope, amount, r)
    {
      hide PlanOf, RunOps, Explains, FundSays, ChainState.Value, Ledger.Valid, TreeKept, Performed, Ledger.At,
           PlanFund;
      ghost var at, was := ledger.At(), Seen();
      FundPlan(at, policy, was.0, Op.Fund(scope, amount, memo));
      r := Conclude(PlanFund(ledger.state.Value(), scope, amount, memo),
            Event(Op.Fund(scope, amount, memo), first, second), stored);
      FundDoes(at, policy, Event(Op.Fund(scope, amount, memo), first, second), stored, was, Seen(), r);
    }

    /** Whether a scope is halted: the walk to the nearest tripped scope above it. */
    method IsHalted(scope: Scope) returns (halted: bool)
      requires Valid() && scope in ledger.state.nodes.at
      ensures halted == Halted(ledger.state.Value().tree, scope)
    {
      hide ChainState.Value, Ledger.Valid, TreeKept;
      StateParts(ledger.state);
      var nearest := HaltedBy(ledger.state.TreeValue(), scope);
      return nearest.Some?;
    }

    method Delegate(parent: Scope, child: Scope, amount: int, memo: string, first: Stamp, second: Stamp,
                    stored: bool) returns (r: Answer)
      requires Valid() && |first.ids| >= 2 && |second.ids| >= 1
      requires NewIds(ledger.state.holds.at, first) && NewIds(ledger.state.holds.at, second)
      modifies this`events, ledger, ledger.state
      ensures Valid()
      ensures Performed(old(ledger.At()), policy, Event(Op.Delegate(parent, child, amount, memo), first, second),
                stored, old(Seen()), Seen(), r)
      ensures Explains(old(ledger.At()), policy, old(Seen()), Seen(), Op.Delegate(parent, child, amount, memo), r)
      ensures DelegateSays(policy, old(Seen()).0, Seen().0, parent, child, amount, r)
    {
      hide PlanOf, RunOps, Explains, DelegateSays, ChainState.Value, Ledger.Valid, TreeKept, Performed, Ledger.At,
           Halted,
            Credited;
      ghost var at, was := ledger.At(), Seen();
      DelegatePlan(at, policy, was.0, Op.Delegate(parent, child, amount, memo));
      StateParts(ledger.state);
      var c := ledger.state.Value();
      var granted := Credited(c.unit, amount);
      var plan;
      if granted <= 0 { plan := Refuse(BadAmount); }
      else if child == "" { plan := Refuse(EmptyId); }
      else if parent !in ledger.state.nodes.at { plan := Refuse(NoSuchScope); }
      else if child in ledger.state.nodes.at { plan := Refuse(Duplicate); }
      else {
        var halted := IsHalted(parent);
        if halted { plan := Refuse(CircuitOpen); }
        else if ledger.state.nodes.at[parent].depth + 1 > policy.maxDepth { plan := Refuse(TooDeep); }
        else if granted > Balance(c, parent) { plan := Refuse(NotEnough); }
        else {
          var note := Or(memo, "sub-budget delegated to " + child);
          plan := Lines([Line(Allocation, Debit, parent, Some(child), granted, note, None),
                         Line(Allocation, Credit, child, Some(parent), granted, note, None)]);
        }
      }
      r := Conclude(plan, Event(Op.Delegate(parent, child, amount, memo), first, second), stored);
      DelegateDoes(at, policy, Event(Op.Delegate(parent, child, amount, memo), first, second), stored, was, Seen(), r);
    }

    method GiveBack(scope: Scope, wanted: Option<int>, memo: string, first: Stamp, second: Stamp,
                    stored: bool) returns (r: Answer)
      requires Valid() && |first.ids| >= 2 && |second.ids| >= 1
      requires NewIds(ledger.state.holds.at, first) && NewIds(ledger.state.holds.at, second)
      modifies this`events, ledger, ledger.state
      ensures Valid() && Performed(old(ledger.At()), policy, Event(Op.GiveBack(scope, wanted, memo), first, second),
                stored, old(Seen()), Seen(), r)
      ensures Explains(old(ledger.At()), policy, old(Seen()), Seen(), Op.GiveBack(scope, wanted, memo), r)
      ensures GiveBackSays(old(Seen()).0, Seen().0, scope, wanted, r)
    {
      hide PlanOf, RunOps, Explains, GiveBackSays, ChainState.Value, Ledger.Valid, TreeKept, Performed, Ledger.At,
           PlanGiveBack;
      ghost var at, was := ledger.At(), Seen();
      StateParts(ledger.state);
      GiveBackPlan(at, policy, was.0, Op.GiveBack(scope, wanted, memo));
      r := Conclude(PlanGiveBack(ledger.state.Value(), scope, wanted, memo),
            Event(Op.GiveBack(scope, wanted, memo), first, second), stored);
      GiveBackDoes(at, policy, Event(Op.GiveBack(scope, wanted, memo), first, second), stored, was, Seen(), r);
    }

    /** `trip` is false for a caller that only asks whether it can pay; `runaway` is
        the velocity check's verdict. */
    method Authorize(scope: Scope, amount: int, memo: string, trip: bool, runaway: bool, first: Stamp, second: Stamp,
                     stored: bool)
      returns (r: Answer)
      requires Valid() && |first.ids| >= 2 && |second.ids| >= 1
      requires NewIds(ledger.state.holds.at, first) && NewIds(ledger.state.holds.at, second)
      modifies this`events, ledger, ledger.state
      ensures Valid()
      ensures Performed(old(ledger.At()), policy,
                Event(Op.Authorize(scope, amount, memo, trip, runaway), first, second), stored, old(Seen()), Seen(), r)
      ensures Explains(old(ledger.At()), policy, old(Seen()), Seen(), Op.Authorize(scope, amount, memo, trip, runaway),
                r)
      ensures AuthorizeSays(policy, old(Seen()).0, Seen().0, scope, amount, trip, runaway, first.ids[0], r)
    {
      hide PlanOf, RunOps, Explains, AuthorizeSays, ChainState.Value, Ledger.Valid, TreeKept, Performed, Ledger.At,
           Halted,
            Charged;
      ghost var at, was := ledger.At(), Seen();
      AuthorizePlan(at, policy, was.0, Op.Authorize(scope, amount, memo, trip, runaway));
      StateParts(ledger.state);
      var c := ledger.state.Value();
      var held := Charged(c.unit, amount);
      var plan;
      if held <= 0 { plan := Refuse(BadAmount); }
      else if scope !in ledger.state.nodes.at { plan := Refuse(NoSuchScope); }
      else {
        var halted := IsHalted(scope);
        if halted { plan := Refuse(CircuitOpen); }
        else if runaway { plan := Deny([Trips(scope, "runaway loop")], RunawayLoop); }
        else if held > Balance(c, scope) {
          if !trip || !policy.tripOnOverdraft { plan := Refuse(NotEnough); }
          else { plan := Deny([Trips(scope, "overdraft attempt")], Overdraft); }
        } else {
          plan := Lines([Line(Hold, Debit, scope, None, held, Or(memo, "authorization hold"), None)]);
        }
      }
      r := Conclude(plan, Event(Op.Authorize(scope, amount, memo, trip, runaway), first, second), stored);
      AuthorizeDoes(at, policy, Event(Op.Authorize(scope, amount, memo, trip, runaway), first, second), stored, was,
            Seen(), r);
    }

    method Capture(hold: Id, cost: int, memo: string, first: Stamp, second: Stamp, stored: bool) returns (r: Answer)
      requires Valid() && |first.ids| >= 2 && |second.ids| >= 1
      requires NewIds(ledger.state.holds.at, first) && NewIds(ledger.state.holds.at, second)
      modifies this`events, ledger, ledger.state
      ensures Valid() && Performed(old(ledger.At()), policy, Event(Op.Capture(hold, cost, memo), first, second),
                stored, old(Seen()), Seen(), r)
      ensures Explains(old(ledger.At()), policy, old(Seen()), Seen(), Op.Capture(hold, cost, memo), r)
      ensures CaptureSays(old(Seen()).0, Seen().0, hold, cost, r)
    {
      hide PlanOf, RunOps, Explains, CaptureSays, ChainState.Value, Ledger.Valid, TreeKept, Performed, Ledger.At,
           PlanCapture;
      ghost var at, was := ledger.At(), Seen();
      CapturePlan(at, policy, was.0, Op.Capture(hold, cost, memo));
      r := Conclude(PlanCapture(ledger.state.Value(), hold, cost, memo),
            Event(Op.Capture(hold, cost, memo), first, second), stored);
      CaptureDoes(at, policy, Event(Op.Capture(hold, cost, memo), first, second), stored, was, Seen(), r);
    }

    method VoidHold(hold: Id, memo: string, first: Stamp, second: Stamp, stored: bool) returns (r: Answer)
      requires Valid() && |first.ids| >= 2 && |second.ids| >= 1
      requires NewIds(ledger.state.holds.at, first) && NewIds(ledger.state.holds.at, second)
      modifies this`events, ledger, ledger.state
      ensures Valid() && Performed(old(ledger.At()), policy, Event(Op.VoidHold(hold, memo), first, second), stored,
                old(Seen()), Seen(), r)
      ensures Explains(old(ledger.At()), policy, old(Seen()), Seen(), Op.VoidHold(hold, memo), r)
      ensures VoidSays(old(Seen()).0, Seen().0, hold, r)
    {
      hide PlanOf, RunOps, Explains, VoidSays, ChainState.Value, Ledger.Valid, TreeKept, Performed, Ledger.At,
           PlanVoid;
      ghost var at, was := ledger.At(), Seen();
      VoidPlan(at, policy, was.0, Op.VoidHold(hold, memo));
      r := Conclude(PlanVoid(ledger.state.Value(), hold, memo), Event(Op.VoidHold(hold, memo), first, second), stored);
      VoidDoes(at, policy, Event(Op.VoidHold(hold, memo), first, second), stored, was, Seen(), r);
    }

    method Refund(scope: Scope, amount: int, memo: string, reverses: Option<Id>, first: Stamp, second: Stamp,
                  stored: bool)
      returns (r: Answer)
      requires Valid() && |first.ids| >= 2 && |second.ids| >= 1
      requires NewIds(ledger.state.holds.at, first) && NewIds(ledger.state.holds.at, second)
      modifies this`events, ledger, ledger.state
      ensures Valid()
      ensures Performed(old(ledger.At()), policy, Event(Op.Refund(scope, amount, memo, reverses), first, second),
                stored, old(Seen()), Seen(), r)
      ensures Explains(old(ledger.At()), policy, old(Seen()), Seen(), Op.Refund(scope, amount, memo, reverses), r)
      ensures RefundNames(old(Seen()).0, old(ledger.entries), ledger.entries, amount, reverses, r)
      ensures RefundSays(old(ledger.At()), old(Seen()).0, Seen().0, scope, amount, reverses, r)
    {
      hide PlanOf, RunOps, Explains, RefundNames, RefundSays, ChainState.Value, Ledger.Valid, TreeKept, Performed,
            Ledger.At,
           PlanRefund;
      ghost var at, was := ledger.At(), Seen();
      RefundPlan(at, policy, was.0, Op.Refund(scope, amount, memo, reverses));
      r := Conclude(PlanRefund(ledger.At(), ledger.state.Value(), scope, amount, memo, reverses),
                    Event(Op.Refund(scope, amount, memo, reverses), first, second), stored);
      RefundDoes(at, policy, Event(Op.Refund(scope, amount, memo, reverses), first, second), stored, was, Seen(), r);
      RefundIsNamed(at, policy, Event(Op.Refund(scope, amount, memo, reverses), first, second), stored, was, Seen(), r);
    }

    method Redeem(scope: Scope, claimed: Option<Id>, amount: int, memo: string, first: Stamp, second: Stamp,
                  stored: bool)
      returns (r: Answer)
      requires Valid() && |first.ids| >= 2 && |second.ids| >= 1
      requires NewIds(ledger.state.holds.at, first) && NewIds(ledger.state.holds.at, second)
      modifies this`events, ledger, ledger.state
      ensures Valid()
      ensures Performed(old(ledger.At()), policy, Event(Op.Redeem(scope, claimed, amount, memo), first, second),
                stored, old(Seen()), Seen(), r)
      ensures Explains(old(ledger.At()), policy, old(Seen()), Seen(), Op.Redeem(scope, claimed, amount, memo), r)
      ensures RedeemSays(old(Seen()).0, Seen().0, scope, claimed, amount, r)
    {
      hide PlanOf, RunOps, Explains, RedeemSays, ChainState.Value, Ledger.Valid, TreeKept, Performed, Ledger.At,
           PlanRedeem;
      ghost var at, was := ledger.At(), Seen();
      RedeemPlan(at, policy, was.0, Op.Redeem(scope, claimed, amount, memo));
      r := Conclude(PlanRedeem(ledger.state.Value(), scope, claimed, amount, memo),
                    Event(Op.Redeem(scope, claimed, amount, memo), first, second), stored);
      RedeemDoes(at, policy, Event(Op.Redeem(scope, claimed, amount, memo), first, second), stored, was, Seen(), r);
    }

    method AnchorIn(scope: Scope, memo: string, first: Stamp, second: Stamp, stored: bool) returns (r: Answer)
      requires Valid() && |first.ids| >= 2 && |second.ids| >= 1
      requires NewIds(ledger.state.holds.at, first) && NewIds(ledger.state.holds.at, second)
      modifies this`events, ledger, ledger.state
      ensures Valid() && Performed(old(ledger.At()), policy, Event(Op.AnchorIn(scope, memo), first, second), stored,
                old(Seen()), Seen(), r)
      ensures Explains(old(ledger.At()), policy, old(Seen()), Seen(), Op.AnchorIn(scope, memo), r)
      ensures AnchorSays(old(Seen()).0, Seen().0, scope, memo, r)
    {
      hide PlanOf, RunOps, Explains, AnchorSays, ChainState.Value, Ledger.Valid, TreeKept, Performed, Ledger.At,
           PlanAnchor;
      ghost var at, was := ledger.At(), Seen();
      AnchorPlan(at, policy, was.0, Op.AnchorIn(scope, memo));
      r := Conclude(PlanAnchor(ledger.state.Value(), scope, memo), Event(Op.AnchorIn(scope, memo), first, second),
            stored);
      AnchorDoes(at, policy, Event(Op.AnchorIn(scope, memo), first, second), stored, was, Seen(), r);
    }

    method TripScope(scope: Scope, reason: string, first: Stamp, second: Stamp, stored: bool) returns (r: Answer)
      requires Valid() && |first.ids| >= 2 && |second.ids| >= 1
      requires NewIds(ledger.state.holds.at, first) && NewIds(ledger.state.holds.at, second)
      modifies this`events, ledger, ledger.state
      ensures Valid() && Performed(old(ledger.At()), policy, Event(Op.TripScope(scope, reason), first, second), stored,
                old(Seen()), Seen(), r)
      ensures Explains(old(ledger.At()), policy, old(Seen()), Seen(), Op.TripScope(scope, reason), r)
      ensures ControlSays(old(Seen()).0, Seen().0, scope, reason, true, r)
    {
      hide PlanOf, RunOps, Explains, ControlSays, ChainState.Value, Ledger.Valid, TreeKept, Performed, Ledger.At,
           PlanControl;
      ghost var at, was := ledger.At(), Seen();
      ControlPlan(at, policy, was.0, Op.TripScope(scope, reason));
      r := Conclude(PlanControl(ledger.state.Value(), scope, reason, true),
            Event(Op.TripScope(scope, reason), first, second), stored);
      ControlDoes(at, policy, Event(Op.TripScope(scope, reason), first, second), stored, was, Seen(), r);
    }

    method ResetScope(scope: Scope, memo: string, first: Stamp, second: Stamp, stored: bool) returns (r: Answer)
      requires Valid() && |first.ids| >= 2 && |second.ids| >= 1
      requires NewIds(ledger.state.holds.at, first) && NewIds(ledger.state.holds.at, second)
      modifies this`events, ledger, ledger.state
      ensures Valid() && Performed(old(ledger.At()), policy, Event(Op.ResetScope(scope, memo), first, second), stored,
                old(Seen()), Seen(), r)
      ensures Explains(old(ledger.At()), policy, old(Seen()), Seen(), Op.ResetScope(scope, memo), r)
      ensures ControlSays(old(Seen()).0, Seen().0, scope, memo, false, r)
    {
      hide PlanOf, RunOps, Explains, ControlSays, ChainState.Value, Ledger.Valid, TreeKept, Performed, Ledger.At,
           PlanControl;
      ghost var at, was := ledger.At(), Seen();
      ControlPlan(at, policy, was.0, Op.ResetScope(scope, memo));
      r := Conclude(PlanControl(ledger.state.Value(), scope, memo, false),
            Event(Op.ResetScope(scope, memo), first, second), stored);
      ControlDoes(at, policy, Event(Op.ResetScope(scope, memo), first, second), stored, was, Seen(), r);
    }
  }

  /** A further operation of the run a manager is at. */
  lemma RunsOn(m: BudgetManager, ev: Event)
    requires m.Valid() && Drawn(ev)
    ensures var (d, es) := Perform(m.ledger.At(), m.policy, m.ledger.state.Value(), ev);
            AllDrawn(m.events + [ev])
            && RunOps(m.ledger.env, m.policy, m.ledger.state.unit, m.events + [ev])
               == if es == [] then Governed(m.ledger.state.Value(), m.ledger.batches)
                     else Governed(d, m.ledger.batches + [es])
  {
    hide Perform, TreeKept, ChainState.Value, ChainState.Valid, Posted;
    var all := m.events + [ev];
    assert all[..|all| - 1] == m.events;
  }

  ghost predicate AllDrawn(events: seq<Event>) { forall i :: 0 <= i < |events| ==> Drawn(events[i]) }

  lemma WroteSome(env: Env, policy: Policy, c: Chain, settles: Option<(Scope, bool)>, lines: seq<Line>, ev: Event)
    requires Drawn(ev) && |lines| <= 2
    ensures var w := Worked(env, policy, c, settles, lines, ev); w.Ok? ==> |w.value.1| > 0
  {
    hide Worked, Batch;
    if Worked(env, policy, c, settles, lines, ev).Ok? { WorkedParts(env, policy, c, settles, lines, ev); }
  }

  lemma BatchOf(env: Env, policy: Policy, c: Chain, settles: Option<(Scope, bool)>, lines: seq<Line>, ev: Event)
    requires Drawn(ev) && |lines| <= 2
    ensures var w := Worked(env, policy, c, settles, lines, ev);
              w.Ok?
              ==> Batch(env, WRITING, c, w.value.1) == Ok(w.value.0)
  {
    hide Worked, Batch;
    if Worked(env, policy, c, settles, lines, ev).Ok? { WorkedParts(env, policy, c, settles, lines, ev); }
  }

  lemma OneTrip(policy: Policy, settles: Option<(Scope, bool)>, c: Chain)
    ensures |Aftermath(policy, settles, c)| <= 1
  {
  }

  /** A unit of work leaves a well-formed tree. */
  lemma WorkedTree(env: Env, policy: Policy, c: Chain, settles: Option<(Scope, bool)>, lines: seq<Line>, ev: Event)
    requires Drawn(ev) && |lines| <= 2 && TreeKept(c.tree)
    ensures var w := Worked(env, policy, c, settles, lines, ev); w.Ok? ==> TreeKept(w.value.0.tree)
  {
    hide Worked, Batch, WorkOf, TreeKept, Governs;
    var w := Worked(env, policy, c, settles, lines, ev);
    if w.Ok? {
      WorkedParts(env, policy, c, settles, lines, ev);
      BatchGoverns(env, c, w.value.1, w.value.0);
      GovernsKeep(c.tree, w.value.1);
    }
  }

  lemma NoneRun(env: Env, policy: Policy, unit: Unit)
    ensures RunOps(env, policy, unit, []) == Governed(EmptyChain(unit), [])
  {
  }

  lemma EmptyTree(unit: Unit)
    ensures TreeKept(EmptyChain(unit).tree)
  {
  }

  /** One more commit over those before it. */
  lemma PostedMore(env: Env, c: Chain, batches: seq<seq<Entry>>, es: seq<Entry>)
    ensures Flat(batches + [es]) == Flat(batches) + es
    ensures Posted(env, c, batches + [es])
         == match Posted(env, c, batches) case Ok(d) => Batch(Writing(env, Flat(batches)), WRITING, d,
               es) case Err(f) => Err(f)
  {
    hide Batch;
    var all := batches + [es];
    assert all[..|all| - 1] == batches;
  }

  lemma LayerAt(base: Dict<Id, Entry>, closes: set<Id>, opens: Dict<Id, Entry>)
    ensures Layer(base, closes, opens).at == base.at - closes + opens.at
  {
  }

  lemma MergedParts(env: Env, v: View)
    ensures Merged(env, v).holds == v.c.holds && Merged(env, v).tree == v.c.tree
  {
  }

  lemma StateParts(state: ChainState)
    ensures state.Value().holds.open == state.holds && state.Value().tree.nodes == state.nodes
    ensures state.Value().tree == state.TreeValue()
  {
  }

  lemma EmptyParts(state: ChainState, unit: Unit)
    requires state.Value() == EmptyChain(unit)
    ensures state.holds.at == map[] && state.nodes.at == map[]
  {
    StateParts(state);
  }

  /** Whatever was committed, replaying the entries gives the state served, and from that
      state follow the topology rows, the control rows and the authorizations kept. */
  lemma CachesAreReplayed(ledger: Ledger)
    requires ledger.Valid() && DistinctIds(ledger.entries) && Hashed(ledger.env, ledger.entries)
    ensures var r := Replay(Replaying(ledger.env, ledger.entries), ledger.state.unit, ledger.entries);
            && r == Ok(ledger.state.Value())
            && ledger.nodeRows == RowsOf(r.value.tree.nodes.at)
            && ledger.controlRows == ControlsOf(ledger.entries)
            && ledger.auths == r.value.holds.open.at
  {
    hide Posted, Flat, Replay, Replaying, DistinctIds;
    PostsReplay(ledger.env, ledger.state.unit, ledger.batches);
    StateParts(ledger.state);
  }

  /** Everything proved of runs of operations holds of a manager: here, that every subtree
      is worth what its scope was allotted less what it gave back. */
  lemma ManagerConserves(m: BudgetManager, s: Scope)
    requires m.Valid() && HashIgnoresItself(m.ledger.env) && DistinctIds(m.ledger.entries)
               && s in m.ledger.state.nodes.at
    ensures var c := m.ledger.state.Value();
            && TreeKept(c.tree) && s in c.tree.nodes.at
            && WorthOf(c.tree.nodes.order, Members(c.tree, s), c)
                  == c.tree.nodes.at[s].allotted - Returned(m.ledger.entries, s)
  {
    hide RunOps, ChainState.Value, ChainState.Valid, TreeKept, HashIgnoresItself, Posted, Members, WorthOf, Returned,
          DistinctIds;
    StateParts(m.ledger.state);
    SubtreeConserves(m.ledger.env, m.policy, m.ledger.state.unit, m.events, s);
  }

  /** On a manager's state an operation is done exactly when its own checks pass, its lines
      are legal and the store takes them. */
  lemma ManagerDone(m: BudgetManager, ev: Event, stored: bool, now: (Chain, seq<Entry>), r: Answer)
    requires m.Valid() && HashIgnoresItself(m.ledger.env) && Drawn(ev)
    requires Performed(m.ledger.At(), m.policy, ev, stored, m.Seen(), now, r)
    ensures var plan := PlanOf(m.ledger.At(), m.policy, m.Seen().0, ev.op);
            && (r.Done? <==> stored && plan.Lines? && Progress.Legal(m.Seen().0, plan.lines))
            && (r.Failed? <==> (plan.Lines? || plan.Deny?) && !(stored && Progress.Writes(m.Seen().0, plan)))
  {
    hide RunOps, ChainState.Value, Ledger.Valid, TreeKept, Performed, PlanOf, HashIgnoresItself, Progress.Legal;
    Progress.RunReady(m.ledger.env, m.policy, m.ledger.state.unit, m.events);
    assert HashIgnoresItself(m.ledger.At()) by { SameHashes(m.ledger.env, m.ledger.At()); }
    Progress.DoneExactly(m.ledger.At(), m.policy, ev, stored, m.Seen(), now, r);
  }
}
