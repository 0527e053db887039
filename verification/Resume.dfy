/**
 Where a resumed audit starts, what every audited view keeps, and that a ledger grown
 longer is audited the same as far as it was.
 */
module Resumes {
  import opened Vocabulary
  import opened Dicts
  import opened Engine
  import opened Replays
  import opened Laws
  import opened Trees
  import opened Snapshots
  import opened Opens
  import opened Audits
  import Merkle

  datatype Mark = Mark(sequence: int, digest: Hash, verified: bool)

  /** The engine over a store that keeps history: any entry by its id, any spend's refunds. */
  function StoreEnv(env: Env, full: seq<Entry>): Env {
    env.(resolve := Committed(full), refunds := Some(StoreRefunds(full)))
  }

  // -- choosing where to start -----------------------------------------------------

  /** Whether a mark can be started from: the chain commits to its digest there, and
      the snapshot stored has that digest and decodes. */
  predicate Usable(records: Records, mark: Mark) {
    && mark.verified
    && mark.sequence in records.checkpoints && records.checkpoints[mark.sequence] == mark.digest
    && mark.sequence in records.stored && records.digest(records.stored[mark.sequence].0) == mark.digest
    && Decode(records.stored[mark.sequence].0).Some?
  }

  /** The newest usable mark's snapshot, or nothing and genesis. */
  method Resume(records: Records, marks: seq<Mark>, unit: Unit) returns (state: Chain, start: int)
    ensures (forall i :: 0 <= i < |marks| ==> !Usable(records, marks[i])) ==> state == EmptyChain(unit) && start == 0
    ensures (exists i :: 0 <= i < |marks| && Usable(records, marks[i])) ==>
              exists i :: 0 <= i < |marks| && Usable(records, marks[i]) && start == marks[i].sequence
                       && Decode(records.stored[marks[i].sequence].0) == Some(state)
                       && forall j :: i < j < |marks| ==> !Usable(records, marks[j])
  {
    hide Decode;
    for n := |marks| downto 0
      invariant forall j :: n <= j < |marks| ==> !Usable(records, marks[j])
    {
      var mark := marks[n];
      if mark.verified && mark.sequence in records.checkpoints && records.checkpoints[mark.sequence] == mark.digest {
        if mark.sequence in records.stored && records.digest(records.stored[mark.sequence].0) == mark.digest {
          var found := Decode(records.stored[mark.sequence].0);
          if found.Some? {
            assert Usable(records, marks[n]);
            return found.value, mark.sequence;
          }
        }
      }
    }
    return EmptyChain(unit), 0;
  }

  // -- what every audited view keeps -------------------------------------------------

  /** A view of an audit of `entries`, over a store that answers for refunds. */
  ghost predicate Audited(v: View, entries: seq<Entry>) {
    && HoldsKept(v.c.holds, entries) && TreeKept(v.c.tree)
    && v.c.tip.length == |entries| && |v.c.tip.frontier| == Merkle.Ones(|entries|)
    && v.c.spendRefunds == map[] && v.start <= |entries|
  }

  lemma AuditedStep(env: Env, v: View, entries: seq<Entry>, e: Entry)
    requires Audited(v, entries) && Step(env, REPLAYING, v, e).Ok?
    requires forall i :: 0 <= i < |entries| ==> entries[i].id != e.id
    ensures Audited(Step(env, REPLAYING, v, e).value, entries + [e])
  {
    hide HoldsKept, TreeKept, Merkle.Ones, Step;
    NewHold(v.c.holds, entries, e);
    var txn := StepParts(env, REPLAYING, v, e);
    hide HoldRule, BalanceRule, FlowRule, Begin, Netted, AddTotals, Govern;
    HoldsStay(v.c.holds, Netted(txn, e), entries, e);
    StepTree(env, REPLAYING, v, e);
    GovernKeeps(v.c.tree, e);
    StepForm(env, REPLAYING, v, e);
    Merkle.GrowCount(env.sha, v.c.tip.frontier, v.c.tip.length, Merkle.LeafHash(env.sha, env.leaf(e.hash)));
    StepRefunds(env, REPLAYING, v, e);
    StepStart(env, v, e);
  }

  lemma StepStart(env: Env, v: View, e: Entry)
    requires Step(env, REPLAYING, v, e).Ok?
    ensures Step(env, REPLAYING, v, e).value.start == v.start
  {
    hide Opening, Booking, Governing, Advance, AddTotals;
  }

  lemma AuditedFold(env: Env, w: View, entries: seq<Entry>)
    requires env.refunds.Some? && Audited(w, entries)
    ensures Merged(env, w) == w.c && Audited(Over(w.c), entries)
  {
    hide HoldsKept, TreeKept, Merkle.Ones;
  }

  /** The two shapes of an accepted audit step: carried on, or folded at a checkpoint. */
  lemma AuditStepShape(env: Env, records: Records, v: View, e: Entry)
    requires env.refunds.Some? && AuditStep(env, records, v, e).Ok?
    ensures Step(env, REPLAYING, v, e).Ok?
    ensures var w := Step(env, REPLAYING, v, e).value;
            if w.c.tip.length !in records.checkpoints then AuditStep(env, records, v, e) == Ok(w)
            else End(w.txn).Ok? && AuditStep(env, records, v, e) == Ok(Over(w.c))
  {
    hide Step, SnapshotMatches;
  }

  lemma {:induction false} AuditKeeps(env: Env, records: Records, unit: Unit, entries: seq<Entry>)
    requires env.refunds.Some? && DistinctIds(entries)
    requires AuditSteps(env, records, Over(EmptyChain(unit)), entries).Ok?
    ensures Audited(AuditSteps(env, records, Over(EmptyChain(unit)), entries).value, entries)
  {
    hide Step, AuditStep, Audited, Over;
    if |entries| == 0 {
      AuditedEmpty(unit);
    } else {
      var init, e := entries[..|entries| - 1], entries[|entries| - 1];
      AuditKeeps(env, records, unit, init);
      var v := AuditSteps(env, records, Over(EmptyChain(unit)), init).value;
      AuditStepShape(env, records, v, e);
      AuditedStep(env, v, init, e);
      assert init + [e] == entries;
      AuditedFold(env, Step(env, REPLAYING, v, e).value, entries);
    }
  }

  lemma AuditedEmpty(unit: Unit)
    ensures Audited(Over(EmptyChain(unit)), [])
  {
  }

  lemma AuditedIsSound(v: View, entries: seq<Entry>)
    requires Audited(v, entries)
    ensures Sound(v.c) && v.c.(spendRefunds := map[]) == v.c
  {
    hide TreeKept, Merkle.Ones, Weigh;
  }

  // -- a longer store answers the same ------------------------------------------------

  lemma RefundCarries(env: Env, full: seq<Entry>, later: seq<Entry>, v: View, e: Entry)
    requires full <= later && DistinctIds(later) && v.start <= |full|
    requires RefundRule(StoreEnv(env, full), v.c.spendRefunds, v.recent, v.start, e).Ok?
    ensures RefundRule(StoreEnv(env, later), v.c.spendRefunds, v.recent, v.start, e)
         == RefundRule(StoreEnv(env, full), v.c.spendRefunds, v.recent, v.start, e)
  {
    hide Newest, RefundsNaming;
    if e.kind.Reversal? && e.ref.Some? {
      var id := e.ref.value;
      NewestFound(full, id);
      var i :| 0 <= i < |full| && full[i] == Newest(full, id).value && full[i].id == id;
      assert later[i] == full[i];
      NewestIs(later, i);
      assert later[..v.start] == full[..v.start];
    }
  }

  lemma StepCarries(env: Env, full: seq<Entry>, later: seq<Entry>, v: View, e: Entry)
    requires full <= later && DistinctIds(later) && v.start <= |full|
    requires Step(StoreEnv(env, full), REPLAYING, v, e).Ok?
    ensures Step(StoreEnv(env, later), REPLAYING, v, e) == Step(StoreEnv(env, full), REPLAYING, v, e)
  {
    StepRefunds(StoreEnv(env, full), REPLAYING, v, e);
    RefundCarries(env, full, later, v, e);
    SameRules(StoreEnv(env, full), StoreEnv(env, later), v, e);
  }

  lemma SameRules(a: Env, b: Env, v: View, e: Entry)
    requires b == a.(resolve := b.resolve, refunds := b.refunds)
    requires RefundRule(b, v.c.spendRefunds, v.recent, v.start, e)
               == RefundRule(a, v.c.spendRefunds, v.recent, v.start, e)
    ensures Step(b, REPLAYING, v, e) == Step(a, REPLAYING, v, e)
  {
    hide Opening, Booking, Governing, RefundRule, AddTotals, Merkle.Extend;
    SameOpening(a, b, REPLAYING, v.c.unit, v.c.tip, v.txn, e);
    var o := Opening(b, REPLAYING, v.c.unit, v.c.tip, v.txn, e);
    if o.Ok? {
      SameBooked(a, b, v, o.value.1, e);
      SameGoverned(a, b, o.value.0, v.c.tree, e);
    }
  }

  lemma SameGoverned(a: Env, b: Env, tip: Tip, tree: Tree, e: Entry)
    requires b == a.(resolve := b.resolve, refunds := b.refunds)
    ensures Governing(b, tip, tree, e) == Governing(a, tip, tree, e)
  {
    hide Govern;
  }

  lemma SameBooked(a: Env, b: Env, v: View, txn: Txn, e: Entry)
    requires RefundRule(b, v.c.spendRefunds, v.recent, v.start, e)
               == RefundRule(a, v.c.spendRefunds, v.recent, v.start, e)
    ensures Booking(b, REPLAYING, v.c.purse, v.c.holds, v.c.spendRefunds, txn, v.recent, v.start, e)
         == Booking(a, REPLAYING, v.c.purse, v.c.holds, v.c.spendRefunds, txn, v.recent, v.start, e)
  {
    hide BalanceRule, HoldRule, RefundRule, FlowRule, Netted;
  }

  /** Two auditors' records agree about everything below a sequence. */
  ghost predicate SameBelow(r: Records, s: Records, n: int) {
    && r.digest == s.digest
    && (forall k :: k < n ==> (k in r.checkpoints <==> k in s.checkpoints))
    && (forall k :: k < n && k in r.checkpoints ==> r.checkpoints[k] == s.checkpoints[k])
    && (forall k :: k < n ==> (k in r.stored <==> k in s.stored))
    && (forall k :: k < n && k in r.stored ==> r.stored[k] == s.stored[k])
  }

  lemma AuditStepCarries(env: Env, full: seq<Entry>, later: seq<Entry>, r: Records, s: Records, v: View, e: Entry)
    requires full <= later && DistinctIds(later) && v.start <= |full|
    requires SameBelow(r, s, v.c.tip.length + 2) && AuditStep(StoreEnv(env, full), r, v, e).Ok?
    ensures AuditStep(StoreEnv(env, later), s, v, e) == AuditStep(StoreEnv(env, full), r, v, e)
  {
    var w := Step(StoreEnv(env, full), REPLAYING, v, e).value;
    StepCarries(env, full, later, v, e);
    StepForm(StoreEnv(env, full), REPLAYING, v, e);
    assert Merged(StoreEnv(env, full), w) == Merged(StoreEnv(env, later), w);
    hide Step, StoreEnv, Encode, Merkle.Extend;
  }

  /** What an audit accepted, an audit of the longer ledger accepts, to the same view. */
  lemma {:induction false} AuditCarries(env: Env, unit: Unit, full: seq<Entry>, later: seq<Entry>, r: Records,
                                        s: Records, n: nat)
    requires n <= |full| && full <= later && DistinctIds(later) && SameBelow(r, s, n + 1)
    requires AuditSteps(StoreEnv(env, full), r, Over(EmptyChain(unit)), full[..n]).Ok?
    ensures AuditSteps(StoreEnv(env, later), s, Over(EmptyChain(unit)), full[..n])
         == AuditSteps(StoreEnv(env, full), r, Over(EmptyChain(unit)), full[..n])
  {
    hide AuditStep, Audited;
    if n > 0 {
      assert full[..n][..n - 1] == full[..n - 1];
      AuditCarries(env, unit, full, later, r, s, n - 1);
      DistinctPrefix(full, later, n - 1);
      AuditKeeps(StoreEnv(env, full), r, unit, full[..n - 1]);
      var v := AuditSteps(StoreEnv(env, full), r, Over(EmptyChain(unit)), full[..n - 1]).value;
      AuditedBounds(v, full[..n - 1]);
      AuditStepCarries(env, full, later, r, s, v, full[n - 1]);
    }
  }

  lemma AuditedBounds(v: View, entries: seq<Entry>)
    requires Audited(v, entries)
    ensures v.start <= |entries| && v.c.tip.length == |entries|
  {
  }

  lemma DistinctPrefix(full: seq<Entry>, later: seq<Entry>, n: nat)
    requires full <= later && DistinctIds(later) && n <= |full|
    ensures DistinctIds(full[..n])
  {
  }

  lemma {:induction false} AuditStepsAppend(env: Env, records: Records, v: View, a: seq<Entry>, b: seq<Entry>)
    ensures AuditSteps(env, records, v, a + b)
         == match AuditSteps(env, records, v, a) case Ok(w) => AuditSteps(env, records, w, b) case Err(f) => Err(f)
  {
    hide AuditStep;
    if |b| == 0 {
      assert a + b == a;
    } else {
      var ab := a + b;
      assert ab[..|ab| - 1] == a + b[..|b| - 1];
      AuditStepsAppend(env, records, v, a, b[..|b| - 1]);
    }
  }

  // -- the resumed run ------------------------------------------------------------------

  /** An earlier audit, of the ledger as it then was, got past entry `n` and found the
      state there to have this digest. */
  ghost predicate Verified(env: Env, unit: Unit, full: seq<Entry>, r: Records, n: nat, digest: Hash) {
    && 0 < n <= |full|
    && var v := AuditSteps(StoreEnv(env, full), r, Over(EmptyChain(unit)), full[..n]);
       v.Ok? && End(v.value.txn).Ok? && Encodable(v.value.c) && r.digest(Encode(v.value.c)) == digest
  }

  /** The state that audit found there. */
  function StateAt(env: Env, unit: Unit, full: seq<Entry>, r: Records, n: nat): (c: Chain)
    requires n <= |full| && AuditSteps(StoreEnv(env, full), r, Over(EmptyChain(unit)), full[..n]).Ok?
  {
    AuditSteps(StoreEnv(env, full), r, Over(EmptyChain(unit)), full[..n]).value.c
  }

  lemma SnapshotReads(env: Env, unit: Unit, full: seq<Entry>, later: seq<Entry>, r: Records, n: nat, mark: Hash,
                      d: Document)
    requires full <= later && DistinctIds(later) && Verified(env, unit, full, r, n, mark) && r.digest(d) == mark
    ensures DigestsClash(r.digest, d, Encode(StateAt(env, unit, full, r, n)))
              || (d == Encode(StateAt(env, unit, full, r, n)) && Decode(d) == Some(StateAt(env, unit, full, r, n)))
  {
    hide AuditSteps, Audited, Encode, Decode, DistinctIds, Sound;
    DistinctPrefix(full, later, n);
    AuditKeeps(StoreEnv(env, full), r, unit, full[..n]);
    var v := AuditSteps(StoreEnv(env, full), r, Over(EmptyChain(unit)), full[..n]).value;
    AuditedIsSound(v, full[..n]);
    RoundTrip(v.c);
  }

  // -- which sequences a chain's checkpoints name ------------------------------------------

  /** The sequences the CHECKPOINT entries name, with the digests they commit to. */
  function Named(env: Env, entries: seq<Entry>): map<int, Hash> {
    if |entries| == 0 then map[]
    else
      var before, e := Named(env, entries[..|entries| - 1]), entries[|entries| - 1];
      match env.readCheckpoint(e.memo)
      case Some((sequence, digest)) => if e.kind.Checkpoint? then before[sequence := digest] else before
      case None => before
  }

  lemma StepCheckpoint(env: Env, mode: Mode, v: View, e: Entry)
    requires Step(env, mode, v, e).Ok?
    ensures var last, next := v.c.tip.lastCheckpoint, Step(env, mode, v, e).value.c.tip.lastCheckpoint;
            if e.kind.Checkpoint? then
              next.Some? && env.readCheckpoint(e.memo) == next && next.value.0 <= v.c.tip.length
              && (last.Some? ==> last.value.0 < next.value.0)
            else next == last
  {
    hide TextRule, Begin, Booking, Govern, AddTotals, Merkle.Extend;
  }

  lemma {:induction false} NamedUpTo(env: Env, mode: Mode, unit: Unit, entries: seq<Entry>)
    requires Steps(env, mode, Over(EmptyChain(unit)), entries).Ok?
    ensures var last := Steps(env, mode, Over(EmptyChain(unit)), entries).value.c.tip.lastCheckpoint;
            forall k :: k in Named(env, entries) ==> last.Some? && k <= last.value.0
  {
    hide Step;
    if |entries| > 0 {
      var init, e := entries[..|entries| - 1], entries[|entries| - 1];
      NamedUpTo(env, mode, unit, init);
      StepCheckpoint(env, mode, Steps(env, mode, Over(EmptyChain(unit)), init).value, e);
    }
  }

  /** Once a chain names a sequence, nothing at or below it is ever named anew: a
      mark whose checkpoint was already written is safe to resume from, whatever
      checkpoints follow. */
  lemma {:induction false} NamedStays(env: Env, mode: Mode, unit: Unit, full: seq<Entry>, later: seq<Entry>, n: int,
                                      k: int)
    requires full <= later && Steps(env, mode, Over(EmptyChain(unit)), later).Ok? && n in Named(env, full) && k <= n
    ensures n in Named(env, later)
    ensures k in Named(env, full) <==> k in Named(env, later)
    ensures k in Named(env, full) ==> Named(env, full)[k] == Named(env, later)[k]
  {
    hide Step;
    if |full| < |later| {
      var init, e := later[..|later| - 1], later[|later| - 1];
      assert full <= init;
      NamedStays(env, mode, unit, full, init, n, k);
      NamedUpTo(env, mode, unit, init);
      StepCheckpoint(env, mode, Steps(env, mode, Over(EmptyChain(unit)), init).value, e);
    } else {
      assert full == later;
    }
  }
}
