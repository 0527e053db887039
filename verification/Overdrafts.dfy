/**
 Exactly which operations overdraw a scope, told before the call: a settlement whose
 charge is more than its hold, if that is open, and all the scope has left.
 */
module Overdrafts {
  import opened Vocabulary
  import opened Engine
  import opened Replays
  import opened Posts
  import opened Managers
  import Governance
  import Effects

  /** The charge is more than the hold and the balance together. */
  predicate Overruns(c: Chain, op: Op, s: Scope) {
    match op
    case Capture(hold, cost, _) =>
      hold in c.holds.open.at && c.holds.open.at[hold].scope == s
            && Charged(c.unit, cost) > c.holds.open.at[hold].amount + Balance(c, s)
    case Redeem(scope, claimed, amount, _) => scope == s && amount > Effects.Back(c, claimed) + Balance(c, s)
          && amount > 0
    case _ => false
  }

  /** What the operation answered, had it been asked. */
  ghost function Told(env: Env, policy: Policy, c: Chain, ev: Event): (r: Effects.Answer)
    requires Drawn(ev) && Perform(env, policy, c, ev).1 != [] && PlanOf(env, policy, c, ev.op).Lines?
    ensures r.Done? && Effects.Performed(env, policy, ev, true, (c, []),
              (Perform(env, policy, c, ev).0, Perform(env, policy, c, ev).1), r)
  {
    assert [] + Perform(env, policy, c, ev).1 == Perform(env, policy, c, ev).1;
    Effects.Done
  }

  lemma Settled(env: Env, policy: Policy, c: Chain, ev: Event)
    requires Drawn(ev) && (ev.op.Capture? || ev.op.Redeem?) && Perform(env, policy, c, ev).1 != []
    ensures PlanOf(env, policy, c, ev.op).Lines?
  {
    hide Worked, Charged;
  }

  lemma CaptureOverdraws(env: Env, policy: Policy, c: Chain, ev: Event, s: Scope)
    requires Drawn(ev) && ev.op.Capture? && Perform(env, policy, c, ev).1 != [] && Balance(c, s) >= 0
    ensures Balance(Perform(env, policy, c, ev).0, s) < 0 <==> Overruns(c, ev.op, s)
  {
    hide Perform, PlanOf, Charged;
    Settled(env, policy, c, ev);
    var d := Perform(env, policy, c, ev);
    var r := Told(env, policy, c, ev);
    Effects.CaptureDoes(env, policy, ev, true, (c, []), (d.0, d.1), r);
    assert Balance(d.0, s)
             == Balance(c, s) + Get(map[c.holds.open.at[ev.op.hold].scope :=
                   c.holds.open.at[ev.op.hold].amount - Charged(c.unit, ev.op.cost)], s);
  }

  lemma RedeemOverdraws(env: Env, policy: Policy, c: Chain, ev: Event, s: Scope)
    requires Drawn(ev) && ev.op.Redeem? && Perform(env, policy, c, ev).1 != [] && Balance(c, s) >= 0
    requires forall id :: id in c.holds.open.at ==> c.holds.open.at[id].amount > 0
    ensures Balance(Perform(env, policy, c, ev).0, s) < 0 <==> Overruns(c, ev.op, s)
  {
    hide Perform, PlanOf;
    Settled(env, policy, c, ev);
    var d := Perform(env, policy, c, ev);
    var r := Told(env, policy, c, ev);
    Effects.RedeemDoes(env, policy, ev, true, (c, []), (d.0, d.1), r);
    assert Balance(d.0, s)
             == Balance(c, s) + Get(map[ev.op.scope := Effects.Back(c, ev.op.claimed) - Effects.Charge(ev.op.amount)],
                   s);
  }

  /** No other operation takes a balance below zero. */
  lemma OthersCover(env: Env, policy: Policy, c: Chain, ev: Event, s: Scope)
    requires Drawn(ev) && !ev.op.Capture? && !ev.op.Redeem? && Balance(c, s) >= 0
    ensures Balance(Perform(env, policy, c, ev).0, s) >= 0
  {
    hide Perform, Batch, Governance.Shape, Governance.Bounded, Governance.Moved, Governance.Governs, Governance.Formed,
          Balance;
    var (d, es) := Perform(env, policy, c, ev);
    if es == [] {
      Governance.NoEntriesNoChange(env, policy, c, ev);
    } else {
      Governance.PerformShape(env, policy, c, ev);
      Governance.PerformBounded(env, policy, c, ev);
      Governance.BatchGoverns(env, c, es, d);
      Governance.BatchMoves(env, c, es, d, s);
      Governance.CommitCovers(c, es, s);
    }
  }

  /** An operation takes a balance below zero if and only if it is committed and is a
      settlement whose charge overruns its hold and what is left. */
  lemma OperationOverdraws(env: Env, policy: Policy, c: Chain, ev: Event, s: Scope)
    requires Drawn(ev) && Balance(c, s) >= 0 && forall id :: id in c.holds.open.at ==> c.holds.open.at[id].amount > 0
    ensures Balance(Perform(env, policy, c, ev).0, s) < 0 <==>
              Perform(env, policy, c, ev).1 != []
              && Overruns(c, ev.op, s)
  {
    hide Perform, Balance, Charged;
    if Perform(env, policy, c, ev).1 == [] {
      Governance.NoEntriesNoChange(env, policy, c, ev);
    } else if ev.op.Capture? {
      CaptureOverdraws(env, policy, c, ev, s);
    } else if ev.op.Redeem? {
      RedeemOverdraws(env, policy, c, ev, s);
    } else {
      OthersCover(env, policy, c, ev, s);
    }
  }

  // -- over a run -----------------------------------------------------------------------------

  ghost predicate AllDrawn(events: seq<Event>) { forall i :: 0 <= i < |events| ==> Drawn(events[i]) }

  /** The operation at `k` is committed and overruns. */
  ghost predicate OverrunsAt(env: Env, policy: Policy, unit: Unit, events: seq<Event>, k: nat, s: Scope)
    requires AllDrawn(events) && k < |events|
  {
    Governance.Commits(env, policy, unit, events, k).1 != []
          && Overruns(Governance.After(env, policy, unit, events, k).c, events[k].op, s)
  }

  lemma Next(env: Env, policy: Policy, unit: Unit, events: seq<Event>, k: nat, s: Scope)
    requires AllDrawn(events) && k < |events| && Balance(Governance.After(env, policy, unit, events, k).c, s) >= 0
    requires HoldsPositive(env, policy, unit, events, k)
    ensures Balance(Governance.After(env, policy, unit, events, k + 1).c, s) < 0
            <==> OverrunsAt(env, policy, unit, events, k, s)
  {
    Governance.NextAfter(env, policy, unit, events, k);
    hide Governance.After, Perform, Balance, Overruns;
    var g := Governance.After(env, policy, unit, events, k);
    var at := Writing(env, Flat(g.batches));
    OperationOverdraws(at, policy, g.c, events[k], s);
  }

  ghost predicate HoldsPositive(env: Env, policy: Policy, unit: Unit, events: seq<Event>, k: nat)
    requires AllDrawn(events) && k <= |events|
  {
    var open := Governance.After(env, policy, unit, events, k).c.holds.open.at;
    forall id :: id in open ==> open[id].amount > 0
  }

  /** Open holds are of positive amounts. */
  lemma {:induction false} AlwaysPositive(env: Env, policy: Policy, unit: Unit, events: seq<Event>, k: nat)
    requires AllDrawn(events) && k <= |events|
    ensures HoldsPositive(env, policy, unit, events, k)
  {
    hide Governance.After, Perform;
    if k == 0 {
      NoneAtFirst(env, policy, unit, events);
    } else {
      AlwaysPositive(env, policy, unit, events, k - 1);
      Governance.NextAfter(env, policy, unit, events, k - 1);
      var g := Governance.After(env, policy, unit, events, k - 1);
      var at := Writing(env, Flat(g.batches));
      if Perform(at, policy, g.c, events[k - 1]).1 != [] { StaysPositive(at, policy, g.c, events[k - 1]); }
    }
  }

  lemma NoneAtFirst(env: Env, policy: Policy, unit: Unit, events: seq<Event>)
    requires AllDrawn(events)
    ensures Governance.After(env, policy, unit, events, 0).c == EmptyChain(unit)
  {
    hide Perform;
    assert events[..0] == [];
  }

  lemma StaysPositive(env: Env, policy: Policy, c: Chain, ev: Event)
    requires Drawn(ev) && Perform(env, policy, c, ev).1 != [] && forall id ::
               id in c.holds.open.at
               ==> c.holds.open.at[id].amount > 0
    ensures var d := Perform(env, policy, c, ev).0; forall id ::
              id in d.holds.open.at
              ==> d.holds.open.at[id].amount > 0
  {
    hide Perform, Steps, Governance.Shape, Governance.Governs;
    var (d, es) := Perform(env, policy, c, ev);
    Governance.PerformShape(env, policy, c, ev);
    Governance.BatchGoverns(env, c, es, d);
    forall id | id in d.holds.open.at ensures d.holds.open.at[id].amount > 0 {
      Governance.StepsOpen(env, WRITING, Over(c), es, id);
    }
  }

  /** On every run no balance is ever negative if and only if no committed settlement
      overran its hold and what was left. */
  lemma OverdrawnExactly(env: Env, policy: Policy, unit: Unit, events: seq<Event>)
    requires AllDrawn(events)
    ensures (forall k, s :: 0 <= k <= |events| ==> Balance(Governance.After(env, policy, unit, events, k).c, s) >= 0)
       <==> (forall k, s :: 0 <= k < |events| ==> !OverrunsAt(env, policy, unit, events, k, s))
  {
    hide Governance.After, OverrunsAt, Balance;
    if forall k, s :: 0 <= k <= |events| ==> Balance(Governance.After(env, policy, unit, events, k).c, s) >= 0 {
      forall k, s | 0 <= k < |events| ensures !OverrunsAt(env, policy, unit, events, k, s) {
        AlwaysPositive(env, policy, unit, events, k);
        assert Balance(Governance.After(env, policy, unit, events, k).c, s) >= 0;
        var next := k + 1;
        assert Balance(Governance.After(env, policy, unit, events, next).c, s) >= 0;
        Next(env, policy, unit, events, k, s);
      }
    }
    if forall k, s :: 0 <= k < |events| ==> !OverrunsAt(env, policy, unit, events, k, s) {
      forall k, s | 0 <= k <= |events| ensures Balance(Governance.After(env, policy, unit, events, k).c, s) >= 0 {
        NoneSoFar(env, policy, unit, events, k, s);
      }
    }
  }

  lemma {:induction false} NoneSoFar(env: Env, policy: Policy, unit: Unit, events: seq<Event>, k: nat, s: Scope)
    requires AllDrawn(events) && k <= |events| && forall j, x ::
               0 <= j < |events|
               ==> !OverrunsAt(env, policy, unit, events, j, x)
    ensures Balance(Governance.After(env, policy, unit, events, k).c, s) >= 0
  {
    hide OverrunsAt, Governance.After;
    if k == 0 {
      NoneAtFirst(env, policy, unit, events);
    } else {
      hide Balance;
      NoneSoFar(env, policy, unit, events, k - 1, s);
      AlwaysPositive(env, policy, unit, events, k - 1);
      Next(env, policy, unit, events, k - 1, s);
    }
  }
}
