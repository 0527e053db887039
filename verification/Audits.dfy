/**
 The auditor as a replay that stops at each checkpointed sequence to compare snapshots,
 from genesis or from any state.
 */
module Audits {
  import opened Vocabulary
  import opened Dicts
  import opened Engine
  import opened Replays
  import opened Laws
  import opened Trees
  import opened Snapshots
  import opened Layers
  import opened Overlays
  import Merkle

  /** What the auditor reads beside the entries: which sequences the chain's
      CHECKPOINT entries name and by which digest, the snapshots stored, and how a
      snapshot is digested. */
  datatype Records = Records(digest: Document -> Hash, checkpoints: map<int, Hash>, stored: map<int, (Document, Hash)>)

  predicate Encodable(c: Chain) {
    && (forall k :: k in c.holds.open.order ==> k in c.holds.open.at)
    && (forall k :: k in c.tree.nodes.order ==> k in c.tree.nodes.at)
  }

  /** The digest named for a state, and the document stored for it, are that state's own. */
  predicate SnapshotMatches(records: Records, c: Chain, named: Hash) {
    && Encodable(c)
    && records.digest(Encode(c)) == named
    && c.tip.length in records.stored && records.stored[c.tip.length] == (Encode(c), named)
  }

  /** One entry; at a checkpointed sequence the view is folded in and checked. */
  function AuditStep(env: Env, records: Records, v: View, e: Entry): Result<View> {
    var w :- Step(env, REPLAYING, v, e);
    if w.c.tip.length !in records.checkpoints then Ok(w)
    else
      var _ :- End(w.txn);
      var c := Merged(env, w);
      if SnapshotMatches(records, c, records.checkpoints[w.c.tip.length]) then Ok(Over(c)) else Err(SnapshotMismatch)
  }

  function AuditSteps(env: Env, records: Records, v: View, entries: seq<Entry>): Result<View> {
    if |entries| == 0 then Ok(v)
    else
      var w :- AuditSteps(env, records, v, entries[..|entries| - 1]);
      AuditStep(env, records, w, entries[|entries| - 1])
  }

  /** A whole run from a state: the entries, then the head the store reported. */
  function AuditFrom(env: Env, records: Records, c: Chain, entries: seq<Entry>, length: nat,
                     head: Hash): Result<Chain> {
    var v :- AuditSteps(env, records, Over(c), entries);
    var _ :- End(v.txn);
    var d := Merged(env, v);
    if d.tip.length != length || d.tip.head != head then Err(HeadMoved) else Ok(d)
  }

  // -- the auditor's loop -----------------------------------------------------------

  /** The verdict on a view at a checkpointed sequence. */
  function Folded(env: Env, records: Records, w: View): Result<Chain> {
    var _ :- End(w.txn);
    var c := Merged(env, w);
    if w.c.tip.length in records.checkpoints && !SnapshotMatches(records, c, records.checkpoints[w.c.tip.length])
    then Err(SnapshotMismatch) else Ok(c)
  }

  function Reopened(r: Result<Chain>): Result<View> {
    match r case Ok(c) => Ok(Over(c)) case Err(f) => Err(f)
  }

  /** Fold a view into its state, and check the snapshot named there, if any. */
  method FoldIn(view: Overlay, records: Records) returns (r: Outcome)
    requires view.Valid()
    modifies view`txn, view`settleable, view.base
    ensures r.Pass? ==> Folded(view.env, records, old(view.Value())) == Ok(view.base.Value()) && view.base.Valid()
    ensures r.Fail? ==> Folded(view.env, records, old(view.Value())) == Err(r.fault)
  {
    hide Overlay.Valid, ChainState.Valid, SnapshotMatches, ChainState.Value;
    ghost var w := view.Value();
    var n := view.length;
    assert w.c.tip.length == n;
    r := CloseView(view);
    if r.Fail? { return; }
    view.Merge();
    var c := view.base.Value();
    if n in records.checkpoints && !SnapshotMatches(records, c, records.checkpoints[n]) {
      return Fail(SnapshotMismatch);
    }
  }

  ghost predicate DistinctHolds(entries: seq<Entry>) {
    forall i, j :: 0 <= i < j < |entries| && entries[i].kind.Hold? && entries[j].kind.Hold?
          ==> entries[i].id != entries[j].id
  }

  /** None of the holds still to come is open yet. */
  ghost predicate HoldsToCome(open: map<Id, Entry>, entries: seq<Entry>, from: nat) {
    forall j :: from <= j < |entries| && entries[j].kind.Hold? ==> entries[j].id !in open
  }

  /** Replay what follows `state`, merging at each checkpoint and once at the end. */
  method Run(state: ChainState, env: Env, records: Records, entries: seq<Entry>, length: nat, head: Hash)
    returns (r: Outcome)
    requires state.Valid() && DistinctHolds(entries) && HoldsToCome(state.holds.at, entries, 0)
    modifies state
    ensures r.Pass? ==> AuditFrom(env, records, old(state.Value()), entries, length, head) == Ok(state.Value())
    ensures r.Fail? ==> AuditFrom(env, records, old(state.Value()), entries, length, head) == Err(r.fault)
  {
    hide ChainState.Valid, Overlay.Valid, Overlay.Value, Overlay.Apart, Overlay.Held, StepUnder, Step, AuditStep,
          Folded, Over, Merged, DistinctHolds, HoldsToCome;
    ghost var c := state.Value();
    var view := new Overlay(state, env);
    OverHolds(state.Value());
    assert entries[..0] == [];
    for i := 0 to |entries|
      invariant fresh(view) && view.base == state && view.env == env && view.Valid() && view.Apart() && state.Valid()
      invariant AuditSteps(env, records, Over(c), entries[..i]) == Ok(view.Value())
      invariant HoldsToCome(state.holds.at, entries, i) && HoldsToCome(view.Value().c.holds.open.at, entries, i)
    {
      assert entries[..i + 1][..i] == entries[..i];
      ghost var v := view.Value();
      NextHold(state.holds.at, entries, i);
      r := view.Apply(entries[i], REPLAYING);
      if r.Pass? {
        HoldsStep(env, v, entries, i);
        AuditStepSplits(env, records, v, entries[i]);
        if view.length in records.checkpoints {
          ghost var w := view.Value();
          assert w.c.tip.length == view.length by { LengthSeen(view); }
          r := FoldIn(view, records);
          if r.Pass? {
            FoldedHolds(env, records, w);
            view := new Overlay(state, env);
            OverHolds(state.Value());
          }
        } else {
          LengthSeen(view);
        }
      } else {
        AuditStepFails(env, records, v, entries[i]);
      }
      if r.Fail? {
        AuditStops(env, records, Over(c), entries, i + 1);
        return;
      }
    }
    assert entries[..|entries|] == entries;
    ghost var v := view.Value();
    r := CloseView(view);
    if r.Fail? { return; }
    ghost var w := view.Value();
    SameMerge(env, v, w);
    view.Merge();
    if state.length != length || state.head != head {
      return Fail(HeadMoved);
    }
  }

  lemma SameMerge(env: Env, v: View, w: View)
    requires v.c == w.c && v.recent == w.recent
    ensures Merged(env, v) == Merged(env, w)
  {
  }

  lemma LengthSeen(view: Overlay)
    ensures view.Value().c.tip.length == view.length
  {
  }

  lemma OverHolds(c: Chain)
    ensures Over(c).c == c
  {
  }

  lemma NextHold(open: map<Id, Entry>, entries: seq<Entry>, i: nat)
    requires i < |entries| && HoldsToCome(open, entries, i)
    ensures entries[i].kind.Hold? ==> entries[i].id !in open
    ensures HoldsToCome(open, entries, i + 1)
  {
  }

  lemma HoldsStep(env: Env, v: View, entries: seq<Entry>, i: nat)
    requires i < |entries| && DistinctHolds(entries) && Step(env, REPLAYING, v, entries[i]).Ok?
    requires HoldsToCome(v.c.holds.open.at, entries, i)
    ensures HoldsToCome(Step(env, REPLAYING, v, entries[i]).value.c.holds.open.at, entries, i + 1)
  {
    var e := entries[i];
    var txn := StepParts(env, REPLAYING, v, e);
    hide Step;
    OpenKeys(v.c.holds, Netted(txn, e), e);
    hide HoldRule;
  }

  lemma OpenKeys(h: Holds, txn: Txn, e: Entry)
    requires HoldRule(h, txn, e).Ok?
    ensures forall id :: id in HoldRule(h, txn, e).value.0.open.at ==> id in h.open.at || (e.kind.Hold? && id == e.id)
  {
    hide FirstOf, Drop, Counted;
  }

  lemma FoldedHolds(env: Env, records: Records, w: View)
    requires Folded(env, records, w).Ok?
    ensures Folded(env, records, w).value.holds == w.c.holds
  {
  }

  lemma AuditStepSplits(env: Env, records: Records, v: View, e: Entry)
    requires Step(env, REPLAYING, v, e).Ok?
    ensures var w := Step(env, REPLAYING, v, e).value;
            AuditStep(env, records, v, e) == (if w.c.tip.length !in records.checkpoints then Ok(w)
                  else Reopened(Folded(env, records, w)))
  {
    hide Step, SnapshotMatches;
  }

  lemma AuditStepFails(env: Env, records: Records, v: View, e: Entry)
    requires Step(env, REPLAYING, v, e).Err?
    ensures AuditStep(env, records, v, e) == Err(Step(env, REPLAYING, v, e).fault)
  {
    hide Step;
  }

  lemma {:induction false} AuditStops(env: Env, records: Records, v: View, entries: seq<Entry>, n: nat)
    requires n <= |entries| && AuditSteps(env, records, v, entries[..n]).Err?
    ensures AuditSteps(env, records, v, entries) == AuditSteps(env, records, v, entries[..n])
    decreases |entries| - n
  {
    hide AuditStep;
    if n == |entries| {
      assert entries[..n] == entries;
    } else {
      assert entries[..n + 1][..n] == entries[..n];
      AuditStops(env, records, v, entries, n + 1);
    }
  }
}
