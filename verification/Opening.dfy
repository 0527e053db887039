/**
 Opening a ledger from a checkpoint, and auditing one from a mark: both start from
 a snapshot and must end where a replay from genesis ends.
 */
module Opens {
  import opened Vocabulary
  import opened Dicts
  import opened Engine
  import opened Replays
  import opened Laws
  import opened Cuts
  import opened Trees
  import opened Snapshots
  import Merkle

  // -- refunds kept in memory, and refunds read from the store ---------------------

  function AsSpend(found: Option<Entry>): Option<Entry> {
    if found.Some? && found.value.kind.Spend? then found else None
  }

  /** Two ways to look entries up that find the same spends. */
  ghost predicate SameSpends(a: Id -> Option<Entry>, b: Id -> Option<Entry>) {
    forall id :: AsSpend(a(id)) == AsSpend(b(id))
  }

  /** A view that keeps its refunds in memory and one that asks the store, after
      the same `n` entries of a chain. */
  ghost predicate Twins(full: seq<Entry>, n: nat, env: Env, m: View, store: Env, s: View) {
    && n <= |full|
    && s.c == m.c.(spendRefunds := map[]) && s.txn == m.txn
    && (forall id :: Get(Refunds(m), id) == RefundsNaming(full[..n], id))
    && (forall id :: RefundedOfSpend(store, s.c.spendRefunds, s.recent, s.start, id) == RefundsNaming(full[..n], id))
  }

  lemma RefundTwins(env: Env, store: Env, m: View, s: View, e: Entry)
    requires env.refunds.None? && SameSpends(env.resolve, store.resolve)
    requires forall id :: RefundedOfSpend(store, s.c.spendRefunds, s.recent, s.start, id) == Get(Refunds(m), id)
    ensures var a, b := RefundRule(env, m.c.spendRefunds, m.recent, m.start, e),
              RefundRule(store, s.c.spendRefunds, s.recent, s.start, e);
            && a.Ok? == b.Ok? && (a.Err? ==> a.fault == b.fault)
            && (a.Ok? ==> forall id ::
                  RefundedOfSpend(store, s.c.spendRefunds, b.value, s.start, id)
                        == Get(Refunds(m), id) + RefundOf(e, id))
            && (a.Ok? ==> forall id :: Get(m.c.spendRefunds + a.value, id) == Get(Refunds(m), id) + RefundOf(e, id))
  {
    if e.kind.Reversal? && e.ref.Some? {
      var id := e.ref.value;
      assert AsSpend(env.resolve(id)) == AsSpend(store.resolve(id));
      assert RefundedOfSpend(env, m.c.spendRefunds, m.recent, m.start, id) == Get(Refunds(m), id);
    }
  }

  lemma StepTwins(full: seq<Entry>, n: nat, mode: Mode, env: Env, m: View, store: Env, s: View)
    requires env.refunds.None? && SameSpends(env.resolve, store.resolve)
    requires store == env.(resolve := store.resolve, refunds := store.refunds)
    requires Twins(full, n, env, m, store, s) && n < |full|
    ensures var a, b := Step(env, mode, m, full[n]), Step(store, mode, s, full[n]);
            && a.Ok? == b.Ok? && (a.Err? ==> a.fault == b.fault)
            && (a.Ok? ==> Twins(full, n + 1, env, a.value, store, b.value))
  {
    var e := full[n];
    assert full[..n + 1][..n] == full[..n];
    assert forall id :: RefundsNaming(full[..n + 1], id) == RefundsNaming(full[..n], id) + RefundOf(e, id);
    RefundTwins(env, store, m, s, e);
    SameRest(env, store, mode, m, s, e);
  }

  lemma SameRest(env: Env, store: Env, mode: Mode, m: View, s: View, e: Entry)
    requires store == env.(resolve := store.resolve, refunds := store.refunds)
    requires s.c == m.c.(spendRefunds := map[]) && s.txn == m.txn
    requires var x, y := RefundRule(env, m.c.spendRefunds, m.recent, m.start, e),
               RefundRule(store, s.c.spendRefunds, s.recent, s.start, e);
             x.Ok? == y.Ok? && (x.Err? ==> x.fault == y.fault)
    ensures var a, b := Step(env, mode, m, e), Step(store, mode, s, e);
            && a.Ok? == b.Ok? && (a.Err? ==> a.fault == b.fault)
            && (a.Ok? ==>
                  && b.value.c == a.value.c.(spendRefunds := map[]) && b.value.txn == a.value.txn
                  && a.value.c.spendRefunds == m.c.spendRefunds && b.value.start == s.start
                  && RefundRule(env, m.c.spendRefunds, m.recent, m.start, e) == Ok(a.value.recent)
                  && RefundRule(store, s.c.spendRefunds, s.recent, s.start, e) == Ok(b.value.recent))
  {
    SameOpening(env, store, mode, m.c.unit, m.c.tip, m.txn, e);
    var o := Opening(env, mode, m.c.unit, m.c.tip, m.txn, e);
    if o.Ok? {
      SameBooking(env, store, mode, m, s, o.value.1, e);
    }
    hide Opening, Booking, RefundRule, Govern, AddTotals, Merkle.Extend;
  }

  lemma SameBooking(env: Env, store: Env, mode: Mode, m: View, s: View, txn: Txn, e: Entry)
    requires s.c == m.c.(spendRefunds := map[])
    requires var x, y := RefundRule(env, m.c.spendRefunds, m.recent, m.start, e),
               RefundRule(store, s.c.spendRefunds, s.recent, s.start, e);
             x.Ok? == y.Ok? && (x.Err? ==> x.fault == y.fault)
    ensures var a := Booking(env, mode, m.c.purse, m.c.holds, m.c.spendRefunds, txn, m.recent, m.start, e);
            var b := Booking(store, mode, s.c.purse, s.c.holds, s.c.spendRefunds, txn, s.recent, s.start, e);
            && a.Ok? == b.Ok? && (a.Err? ==> a.fault == b.fault)
            && (a.Ok? ==>
                  && a.value.0 == b.value.0 && a.value.1 == b.value.1 && a.value.2 == b.value.2
                  && RefundRule(env, m.c.spendRefunds, m.recent, m.start, e) == Ok(a.value.3)
                  && RefundRule(store, s.c.spendRefunds, s.recent, s.start, e) == Ok(b.value.3))
  {
    hide BalanceRule, HoldRule, RefundRule, FlowRule, Netted;
  }

  lemma SameOpening(env: Env, store: Env, mode: Mode, unit: Unit, tip: Tip, txn: Txn, e: Entry)
    requires store == env.(resolve := store.resolve, refunds := store.refunds)
    ensures Opening(env, mode, unit, tip, txn, e) == Opening(store, mode, unit, tip, txn, e)
  {
    hide VersionRule, TextRule, Begin;
  }

  lemma {:induction false} StepsTwins(full: seq<Entry>, n: nat, k: nat, mode: Mode, env: Env, m: View, store: Env,
                                      s: View)
    requires env.refunds.None? && SameSpends(env.resolve, store.resolve)
    requires store == env.(resolve := store.resolve, refunds := store.refunds)
    requires Twins(full, n, env, m, store, s) && n + k <= |full|
    ensures var a, b := Steps(env, mode, m, full[n..n + k]), Steps(store, mode, s, full[n..n + k]);
            && a.Ok? == b.Ok? && (a.Err? ==> a.fault == b.fault)
            && (a.Ok? ==> Twins(full, n + k, env, a.value, store, b.value))
  {
    hide Step, Twins, SameSpends;
    if k > 0 {
      StepsTwins(full, n, k - 1, mode, env, m, store, s);
      var part := full[n..n + k];
      assert part[..|part| - 1] == full[n..n + k - 1];
      var a, b := Steps(env, mode, m, full[n..n + k - 1]), Steps(store, mode, s, full[n..n + k - 1]);
      if a.Ok? {
        StepTwins(full, n + k - 1, mode, env, a.value, store, b.value);
      }
    }
  }

  // -- the resolver of an opening ----------------------------------------------------

  /** The spends among the entries after the checkpoint, then any entry of the store
      up to it. */
  function OpeningResolver(pre: seq<Entry>, tail: seq<Entry>): Id -> Option<Entry> {
    (id: Id) => if NewestSpend(tail, id).Some? then NewestSpend(tail, id) else Newest(pre, id)
  }

  lemma {:induction false} SpendFoundIn(entries: seq<Entry>, id: Id)
    ensures var r := NewestSpend(entries, id);
            r.Some? ==> r.value.kind.Spend? && exists i ::
                  0 <= i < |entries| && entries[i] == r.value
                  && entries[i].id == id
  {
    if |entries| > 0 && !(entries[|entries| - 1].id == id && entries[|entries| - 1].kind.Spend?) {
      SpendFoundIn(entries[..|entries| - 1], id);
    }
  }

  lemma {:induction false} NewestIs(entries: seq<Entry>, i: nat)
    requires DistinctIds(entries) && i < |entries|
    ensures Newest(entries, entries[i].id) == Some(entries[i])
  {
    if i < |entries| - 1 {
      assert entries[i].id != entries[|entries| - 1].id;
      NewestIs(entries[..|entries| - 1], i);
    }
  }

  lemma DistinctParts(pre: seq<Entry>, tail: seq<Entry>)
    requires DistinctIds(pre + tail)
    ensures DistinctIds(pre) && DistinctIds(tail)
  {
    var full := pre + tail;
    assert forall i :: 0 <= i < |pre| ==> pre[i] == full[i];
    assert forall i :: 0 <= i < |tail| ==> tail[i] == full[|pre| + i];
  }

  lemma OpeningFindsSpends(pre: seq<Entry>, tail: seq<Entry>, id: Id)
    requires DistinctIds(pre + tail)
    ensures AsSpend(OpeningResolver(pre, tail)(id)) == AsSpend(SpendIndex(pre + tail)(id))
  {
    hide Newest, NewestSpend;
    var full := pre + tail;
    DistinctParts(pre, tail);
    SpendFoundIn(tail, id);
    SpendFoundIn(full, id);
    NewestFound(pre, id);
    if NewestSpend(tail, id).Some? {
      var i :| 0 <= i < |tail| && tail[i] == NewestSpend(tail, id).value && tail[i].id == id;
      assert full[|pre| + i] == tail[i];
      SpendFound(full, |pre| + i);
    } else if NewestSpend(full, id).Some? {
      var i :| 0 <= i < |full| && full[i] == NewestSpend(full, id).value && full[i].id == id;
      if i >= |pre| {
        assert tail[i - |pre|] == full[i];
        SpendFound(tail, i - |pre|);
        assert false;
      }
      assert pre[i] == full[i];
      NewestIs(pre, i);
    } else if Newest(pre, id).Some? && Newest(pre, id).value.kind.Spend? {
      var i :| 0 <= i < |pre| && pre[i] == Newest(pre, id).value && pre[i].id == id;
      assert full[i] == pre[i];
      SpendFound(full, i);
      assert false;
    }
  }

  // -- opening from a checkpoint ---------------------------------------------------------

  /** A replayed state is one a snapshot can carry. */
  lemma ReplayedIsSound(env: Env, unit: Unit, entries: seq<Entry>)
    requires DistinctIds(entries) && Replay(env, unit, entries).Ok?
    ensures Sound(Replay(env, unit, entries).value)
    ensures Replay(env, unit, entries).value.tip.length == |entries|
    ensures Replay(env, unit, entries).value.unit == unit
  {
    hide Steps, TreeKept, Weigh, Leaves, Merkle.Ones, Merkle.Folded, Merkle.Root, DistinctIds, Sum;
    EveryChainKeeps(env, REPLAYING, unit, entries);
    EveryTreeIsKept(env, REPLAYING, unit, entries);
    FrontierKept(env, REPLAYING, unit, entries);
    Merkle.FrontierIsTheTree(env.sha, Leaves(env, entries));
    UnitKept(env, REPLAYING, Over(EmptyChain(unit)), entries);
  }

  lemma {:induction false} UnitKept(env: Env, mode: Mode, v: View, entries: seq<Entry>)
    requires Steps(env, mode, v, entries).Ok?
    ensures Steps(env, mode, v, entries).value.c.unit == v.c.unit
  {
    hide Opening, Booking, Governing;
    if |entries| > 0 {
      UnitKept(env, mode, v, entries[..|entries| - 1]);
    }
  }

  lemma ReplayedRefunds(env: Env, unit: Unit, entries: seq<Entry>, id: Id)
    requires env.refunds.None? && Replay(env, unit, entries).Ok?
    ensures Get(Replay(env, unit, entries).value.spendRefunds, id) == RefundsNaming(entries, id)
  {
    RefundsAreCounted(env, REPLAYING, unit, entries);
    hide Steps, RefundsNaming;
    var v := Steps(env, REPLAYING, Over(EmptyChain(unit)), entries).value;
    assert Get(Refunds(v), id) == RefundsNaming(entries, id);
  }

  /** Decode a document and verify the tail over it. */
  function OpenFrom(env: Env, d: Document, tail: seq<Entry>): Option<Chain> {
    match Decode(d)
    case None => None
    case Some(c) =>
      if |tail| == 0 || tail[0].sequence != c.tip.length + 1 then None
      else match Batch(env, REPLAYING, c, tail)
        case Ok(served) => Some(served)
        case Err(_) => None
  }

  /** A memory view over a replayed prefix and a store view over its snapshot are twins. */
  lemma SnapshotTwins(env: Env, unit: Unit, pre: seq<Entry>, tail: seq<Entry>, store: Env)
    requires env.refunds.None? && DistinctIds(pre + tail) && Replay(env, unit, pre).Ok?
    requires store.refunds == Some(StoreRefunds(pre + tail))
    ensures var c := Replay(env, unit, pre).value;
            Twins(pre + tail, |pre|, env, Over(c), store, Over(c.(spendRefunds := map[])))
  {
    var c, full := Replay(env, unit, pre).value, pre + tail;
    assert full[..|pre|] == pre && full[..0] == [];
    DistinctParts(pre, tail);
    ReplayedIsSound(env, unit, pre);
    assert c.spendRefunds + map[] == c.spendRefunds;
    hide Replay, RefundsNaming, Sound;
    forall id ensures Get(c.spendRefunds, id)
          == RefundsNaming(full[..|pre|], id) { ReplayedRefunds(env, unit, pre, id); }
    if |pre| == 0 {
      forall id ensures RefundsNaming(full[..|pre|], id) == 0 { NoRefunds(id); }
    }
  }

  lemma NoRefunds(id: Id)
    ensures RefundsNaming([], id) == 0
  {
  }

  /** Verifying the tail over the snapshot, asking the store for refunds. */
  lemma TailAgrees(env: Env, unit: Unit, pre: seq<Entry>, tail: seq<Entry>, store: Env)
    requires env.refunds.None? && DistinctIds(pre + tail) && Replay(env, unit, pre).Ok?
    requires store == env.(resolve := store.resolve, refunds := Some(StoreRefunds(pre + tail)))
    requires SameSpends(env.resolve, store.resolve)
    ensures var c := Replay(env, unit, pre).value.(spendRefunds := map[]);
            match Replay(env, unit, pre + tail)
            case Ok(d) => if CutOff(pre, tail) then Batch(store, REPLAYING, c, tail).Err?
                          else Batch(store, REPLAYING, c, tail) == Ok(d.(spendRefunds := map[]))
            case Err(_) => Batch(store, REPLAYING, c, tail).Err?
  {
    hide Steps, StoreRefunds, SameSpends, Twins, Batch, DistinctIds, CutOff;
    var full := pre + tail;
    var c := Replay(env, unit, pre).value;
    SnapshotTwins(env, unit, pre, tail, store);
    assert full[|pre|..|pre| + |tail|] == tail;
    StepsTwins(full, |pre|, |tail|, REPLAYING, env, Over(c), store, Over(c.(spendRefunds := map[])));
    TwoParts(env, REPLAYING, EmptyChain(unit), pre, tail);
    BatchTwins(full, env, store, c, tail);
  }

  /** Entries out of sequence are never replayed. */
  lemma OutOfPlace(env: Env, unit: Unit, pre: seq<Entry>, tail: seq<Entry>)
    requires |tail| > 0 && tail[0].sequence != |pre| + 1
    ensures Replay(env, unit, pre + tail).Err?
  {
    hide Steps;
    var full := pre + tail;
    assert full[|pre|] == tail[0];
    if Replay(env, unit, full).Ok? { AcceptedForm(env, REPLAYING, unit, full, |pre|); }
  }

  /** Opening from the snapshot of any replayed prefix, and verifying only what follows it,
      accepts exactly what a replay from genesis accepts, to the same state, though one
      counts refunds in memory and the other asks the store; but for a settlement cut from
      its release by a snapshot inside their transaction, which it refuses. */
  lemma OpeningAgreesWithReplay(env: Env, unit: Unit, pre: seq<Entry>, tail: seq<Entry>)
    requires env.refunds.None? && env.resolve == SpendIndex(pre + tail) && DistinctIds(pre + tail)
    requires Replay(env, unit, pre).Ok? && |tail| > 0
    ensures Sound(Replay(env, unit, pre).value)
    ensures var store := env.(resolve := OpeningResolver(pre, tail), refunds := Some(StoreRefunds(pre + tail)));
            var result := OpenFrom(store, Encode(Replay(env, unit, pre).value), tail);
            match Replay(env, unit, pre + tail)
            case Ok(c) => result == if CutOff(pre, tail) then None else Some(c.(spendRefunds := map[]))
            case Err(_) => result == None
  {
    var store := env.(resolve := OpeningResolver(pre, tail), refunds := Some(StoreRefunds(pre + tail)));
    DistinctParts(pre, tail);
    ReplayedIsSound(env, unit, pre);
    RoundTrip(Replay(env, unit, pre).value);
    assert SameSpends(env.resolve, store.resolve) by {
      forall id ensures AsSpend(env.resolve(id)) == AsSpend(store.resolve(id)) { OpeningFindsSpends(pre, tail, id); }
    }
    hide Replay, Batch, OpeningResolver, SpendIndex, StoreRefunds, Decode, DistinctIds, SameSpends, CutOff;
    TailAgrees(env, unit, pre, tail, store);
    if tail[0].sequence != |pre| + 1 { OutOfPlace(env, unit, pre, tail); }
  }

  /** So a snapshot taken between two transactions opens to what a replay reaches, always. */
  lemma OpeningBetweenTransactions(env: Env, unit: Unit, pre: seq<Entry>, tail: seq<Entry>)
    requires env.refunds.None? && env.resolve == SpendIndex(pre + tail) && DistinctIds(pre + tail)
    requires Replay(env, unit, pre).Ok? && |tail| > 0 && !Continues(pre, tail[0].txn)
    ensures Sound(Replay(env, unit, pre).value)
    ensures var store := env.(resolve := OpeningResolver(pre, tail), refunds := Some(StoreRefunds(pre + tail)));
            var result := OpenFrom(store, Encode(Replay(env, unit, pre).value), tail);
            match Replay(env, unit, pre + tail)
            case Ok(c) => result == Some(c.(spendRefunds := map[]))
            case Err(_) => result == None
  {
    hide Replay, OpenFrom, OpeningResolver, SpendIndex, StoreRefunds, Encode, DistinctIds, CutOff, Sound;
    BetweenCutsNone(pre, tail);
    OpeningAgreesWithReplay(env, unit, pre, tail);
  }

  lemma BatchTwins(full: seq<Entry>, env: Env, store: Env, c: Chain, tail: seq<Entry>)
    requires env.refunds.None? && store.refunds.Some?
    requires var a := Steps(env, REPLAYING, Over(c), tail);
             var b := Steps(store, REPLAYING, Over(c.(spendRefunds := map[])), tail);
             a.Ok? == b.Ok? && (a.Ok? ==> exists n :: Twins(full, n, env, a.value, store, b.value))
    ensures match Batch(env, REPLAYING, c, tail)
            case Ok(d) => Batch(store, REPLAYING, c.(spendRefunds := map[]), tail) == Ok(d.(spendRefunds := map[]))
            case Err(_) => Batch(store, REPLAYING, c.(spendRefunds := map[]), tail).Err?
  {
    hide Steps, RefundedOfSpend, RefundsNaming;
  }

  // -- which snapshot may be opened ------------------------------------------------------------

  /** A snapshot as the store keeps it. */
  datatype Stored = Stored(sequence: int, body: Document, digest: Hash)

  function NewestCheckpoint(entries: seq<Entry>): Option<Entry> {
    if |entries| == 0 then None
    else if entries[|entries| - 1].kind.Checkpoint? then Some(entries[|entries| - 1])
    else NewestCheckpoint(entries[..|entries| - 1])
  }

  /** Open from a stored snapshot, if the last CHECKPOINT of the tail reads as its sequence
      and digest, its digest column agrees, and its unit is this ledger's. */
  function Adopt(env: Env, digest: Document -> Hash, unit: Unit, stored: Stored, tail: seq<Entry>): Option<Chain> {
    match NewestCheckpoint(tail)
    case None => None
    case Some(e) =>
      if env.readCheckpoint(e.memo) != Some((stored.sequence, digest(stored.body)))
            || stored.digest != digest(stored.body) then None
      else if Decode(stored.body).None? then None
      else if Decode(stored.body).value.tip.length != stored.sequence
            || Decode(stored.body).value.unit != unit then None
      else OpenFrom(env, stored.body, tail)
  }

  /** Whatever the store holds in place of the snapshot, over a chain whose newest
      checkpoint commits to the state of the entries before it: opening either refuses,
      or serves exactly what a replay from genesis reaches, or what is stored is another
      document with the digest of the one committed to. */
  lemma OnlyTheNamedSnapshotOpens(env: Env, digest: Document -> Hash, unit: Unit, pre: seq<Entry>, tail: seq<Entry>,
                                  d: Document, stored: Stored)
    requires env.refunds.None? && env.resolve == SpendIndex(pre + tail) && DistinctIds(pre + tail)
    requires Replay(env, unit, pre).Ok? && Sound(Replay(env, unit, pre).value)
               && d == Encode(Replay(env, unit, pre).value)
    requires NewestCheckpoint(tail).Some?
    requires env.readCheckpoint(NewestCheckpoint(tail).value.memo) == Some((|pre| as int, digest(d)))
    ensures var store := env.(resolve := OpeningResolver(pre, tail), refunds := Some(StoreRefunds(pre + tail)));
            var result := Adopt(store, digest, unit, stored, tail);
            || result.None?
            || (Replay(env, unit, pre + tail).Ok?
                  && result == Some(Replay(env, unit, pre + tail).value.(spendRefunds := map[])))
            || DigestsClash(digest, stored.body, d)
  {
    assert |tail| > 0;
    hide Replay, Decode, OpenFrom, Encode, Sound, SpendIndex, OpeningResolver, StoreRefunds, NewestCheckpoint,
          DistinctIds, CutOff;
    OpeningAgreesWithReplay(env, unit, pre, tail);
  }

  /** And the snapshot the newest checkpoint names, stored as it was made, does open: to
      exactly what a replay from genesis reaches, whenever the chain replays and the
      snapshot cuts no settlement from its release. */
  lemma NamedSnapshotOpens(env: Env, digest: Document -> Hash, unit: Unit, pre: seq<Entry>, tail: seq<Entry>,
                           d: Document)
    requires env.refunds.None? && env.resolve == SpendIndex(pre + tail) && DistinctIds(pre + tail)
    requires Replay(env, unit, pre).Ok? && Sound(Replay(env, unit, pre).value)
               && d == Encode(Replay(env, unit, pre).value)
    requires NewestCheckpoint(tail).Some?
    requires env.readCheckpoint(NewestCheckpoint(tail).value.memo) == Some((|pre| as int, digest(d)))
    ensures var store := env.(resolve := OpeningResolver(pre, tail), refunds := Some(StoreRefunds(pre + tail)));
            var result := Adopt(store, digest, unit, Stored(|pre|, d, digest(d)), tail);
            match Replay(env, unit, pre + tail)
            case Ok(c) => result == if CutOff(pre, tail) then None else Some(c.(spendRefunds := map[]))
            case Err(_) => result == None
  {
    assert |tail| > 0;
    hide Replay, Decode, OpenFrom, Encode, Sound, SpendIndex, OpeningResolver, StoreRefunds, NewestCheckpoint,
         DistinctIds, CutOff;
    OpeningAgreesWithReplay(env, unit, pre, tail);
    DistinctParts(pre, tail);
    ReplayedIsSound(env, unit, pre);
    RoundTrip(Replay(env, unit, pre).value);
  }
}
