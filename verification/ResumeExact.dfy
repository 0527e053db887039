/**
 When a resumed audit agrees with one from genesis.  A checkpoint may name a sequence
 below a mark after the mark was made: the run from genesis then folds its view there
 and checks that snapshot, and the resumed run does not.  The two agree exactly when
 every such late checkpoint would have passed.
 */
module ResumeExact {
  import opened Vocabulary
  import opened Dicts
  import opened Engine
  import opened Replays
  import opened Laws
  import opened Cuts
  import opened Trees
  import opened Snapshots
  import opened Opens
  import opened Audits
  import opened Resumes
  import Merkle

  /** Records only ever added to: what was named and stored below `n` still is. */
  ghost predicate Grown(r: Records, s: Records, n: nat) {
    && r.digest == s.digest
    && (forall k :: k < n && k in r.checkpoints ==> k in s.checkpoints && s.checkpoints[k] == r.checkpoints[k])
    && (forall k :: k < n && k in r.stored ==> k in s.stored && s.stored[k] == r.stored[k])
  }

  /** Named now, and not when the mark was made. */
  predicate Late(r: Records, s: Records, k: nat) { k in s.checkpoints && k !in r.checkpoints }

  /** The audit that made the mark, after `m` entries. */
  function Then(env: Env, r: Records, unit: Unit, chain: seq<Entry>, m: nat): Result<View>
    requires m <= |chain|
  {
    AuditSteps(env, r, Over(EmptyChain(unit)), chain[..m])
  }

  /** A late checkpoint's snapshot is the state there, between transactions. */
  ghost predicate Passes(s: Records, v: View, k: nat)
    requires k in s.checkpoints
  {
    End(v.txn).Ok? && SnapshotMatches(s, v.c, s.checkpoints[k])
  }

  /** A spend before `m` settles a hold its own transaction released before `k`. */
  ghost predicate Across(chain: seq<Entry>, v: View, k: nat, m: nat)
    requires m <= |chain|
  {
    exists j: nat :: SettlesAt(chain, v, k, j) && j < m
  }

  ghost predicate SettlesAt(chain: seq<Entry>, v: View, k: nat, j: nat) {
    && k <= j < |chain| && OneTransaction(chain, v, k, j + 1)
    && chain[j].kind.Spend? && chain[j].ref.Some? && chain[j].ref.value in v.txn.settleable
  }

  /** The entries from `k` to `m` belong to the view's open transaction. */
  ghost predicate OneTransaction(chain: seq<Entry>, v: View, k: nat, m: nat) {
    m <= |chain| && forall i :: k <= i < m ==> v.txn.id == Some(chain[i].txn)
  }

  /** Every late checkpoint up to `m` passes, and none cuts a settlement from the release
      it settles. */
  ghost predicate LatePass(env: Env, r: Records, s: Records, unit: Unit, chain: seq<Entry>, m: nat)
    requires m <= |chain|
  {
    forall k :: 0 < k <= m && Late(r, s, k) ==> PassesAt(env, r, s, unit, chain, m, k)
  }

  ghost predicate PassesAt(env: Env, r: Records, s: Records, unit: Unit, chain: seq<Entry>, m: nat, k: nat)
    requires k <= m <= |chain| && k in s.checkpoints
  {
    Then(env, r, unit, chain, k).Ok? && Passes(s, Then(env, r, unit, chain, k).value, k)
          && !Across(chain, Then(env, r, unit, chain, k).value, k, m)
  }

  // -- the two runs, side by side -------------------------------------------------------------

  /** A view that sees, for every spend, the refunds among the first `m` entries. */
  ghost predicate Sees(env: Env, chain: seq<Entry>, m: nat, v: View)
    requires m <= |chain|
  {
    forall id :: RefundedOfSpend(env, v.c.spendRefunds, v.recent, v.start, id) == RefundsNaming(chain[..m], id)
  }

  /** The run from genesis beside the earlier one: one state, and a transaction that may
      have been closed since. */
  ghost predicate Beside(g: View, v: View) {
    && g.c == v.c && g.txn.net == v.txn.net && g.txn.settleable <= v.txn.settleable
    && (g.txn.id == v.txn.id || (g.txn.id.None? && g.txn.net == 0))
    && (g.txn.id.None? ==> g.txn.settleable == {}) && (v.txn.id.None? ==> v.txn.settleable == {})
  }

  lemma SeesStep(env: Env, chain: seq<Entry>, m: nat, v: View)
    requires m < |chain| && Sees(env, chain, m, v) && Step(env, REPLAYING, v, chain[m]).Ok?
    ensures Sees(env, chain, m + 1, Step(env, REPLAYING, v, chain[m]).value)
  {
    var e, w := chain[m], Step(env, REPLAYING, v, chain[m]).value;
    StepRefunds(env, REPLAYING, v, e);
    StepStart(env, v, e);
    hide Step;
    assert chain[..m + 1][..m] == chain[..m];
    forall id ensures RefundedOfSpend(env, w.c.spendRefunds, w.recent, w.start, id)
          == RefundsNaming(chain[..m + 1], id) {
      assert RefundedOfSpend(env, v.c.spendRefunds, v.recent, v.start, id) == RefundsNaming(chain[..m], id);
    }
  }

  lemma SeesFolded(env: Env, chain: seq<Entry>, m: nat, c: Chain)
    requires m <= |chain| && env.refunds == Some(StoreRefunds(chain)) && c.tip.length == m
    ensures Sees(env, chain, m, Over(c))
  {
    if m == 0 { assert chain[..0] == []; }
  }

  /** What the later run's transaction must hold for a spend the earlier one accepted. */
  predicate Settleable(g: View, e: Entry) {
    e.kind.Spend? && e.ref.Some? ==> g.txn.id == Some(e.txn) && e.ref.value in g.txn.settleable
  }

  lemma RefundsAlike(env: Env, chain: seq<Entry>, m: nat, g: View, v: View, e: Entry)
    requires m <= |chain| && Sees(env, chain, m, g) && Sees(env, chain, m, v)
    ensures RefundRule(env, g.c.spendRefunds, g.recent, g.start, e).Ok?
              == RefundRule(env, v.c.spendRefunds, v.recent, v.start, e).Ok?
  {
    if e.ref.Some? {
      var id := e.ref.value;
      assert RefundedOfSpend(env, g.c.spendRefunds, g.recent, g.start, id) == RefundsNaming(chain[..m], id);
      assert RefundedOfSpend(env, v.c.spendRefunds, v.recent, v.start, id) == RefundsNaming(chain[..m], id);
    }
  }

  /** An entry the earlier run accepted, the later one accepts exactly when what it
      settles is still settleable there; and then the two go on side by side. */
  lemma StepBeside(env: Env, chain: seq<Entry>, m: nat, g: View, v: View)
    requires m < |chain| && Beside(g, v) && Sees(env, chain, m, g) && Sees(env, chain, m, v)
    requires Step(env, REPLAYING, v, chain[m]).Ok?
    ensures Step(env, REPLAYING, g, chain[m]).Ok? <==> Settleable(g, chain[m])
    ensures Step(env, REPLAYING, g, chain[m]).Ok?
            ==> Beside(Step(env, REPLAYING, g, chain[m]).value, Step(env, REPLAYING, v, chain[m]).value)
  {
    var e := chain[m];
    RefundsAlike(env, chain, m, g, v, e);
    var txn := StepParts(env, REPLAYING, v, e);
    BeginAlike(g.txn, v.txn, e);
    HoldsAlike(v.c.holds, Begin(g.txn, e).value, Begin(v.txn, e).value, e);
    hide Sees, AdmitRule, Begin, Netted, BalanceRule, HoldRule, RefundRule, FlowRule, Governing, Advance, AddTotals;
  }

  /** Holds once released, of entries before `m`, and not settleable in a view. */
  ghost predicate Spent(chain: seq<Entry>, m: nat, open: map<Id, Entry>, h: Id)
    requires m <= |chain|
  {
    h !in open && exists i :: 0 <= i < m && chain[i].id == h
  }

  lemma SpentStep(env: Env, chain: seq<Entry>, m: nat, v: View, h: Id)
    requires m < |chain| && DistinctIds(chain) && Step(env, REPLAYING, v, chain[m]).Ok?
               && Spent(chain, m, v.c.holds.open.at, h)
    ensures Spent(chain, m + 1, Step(env, REPLAYING, v, chain[m]).value.c.holds.open.at, h)
  {
    var txn := StepParts(env, REPLAYING, v, chain[m]);
    OpenChange(v.c.holds, Netted(txn, chain[m]), chain[m]);
    hide Step, HoldRule;
  }

  /** A release makes its hold spent. */
  lemma ReleasedIsSpent(env: Env, chain: seq<Entry>, m: nat, v: View)
    requires m < |chain| && Audited(v, chain[..m]) && Step(env, REPLAYING, v, chain[m]).Ok? && NamedRelease(chain[m])
    requires v.txn.id.None? ==> v.txn.settleable == {}
    ensures chain[m].ref.Some?
              && Spent(chain, m + 1, Step(env, REPLAYING, v, chain[m]).value.c.holds.open.at, chain[m].ref.value)
  {
    SettleableAfter(env, REPLAYING, v, chain[m]);
    hide Step, TreeKept, Weigh, Merkle.Ones;
    var h := chain[m].ref.value;
    var hold := v.c.holds.open.at[h];
    assert hold in chain[..m] && hold.id == h;
    var i :| 0 <= i < m && chain[..m][i] == hold;
    assert chain[i].id == h;
  }

  // -- the invariant of the two runs ------------------------------------------------------------

  /** The hold is lost to the later run: a late checkpoint cut its release off. */
  ghost predicate Cut(env: Env, r: Records, s: Records, unit: Unit, chain: seq<Entry>, top: nat, m: nat, v: View,
                      h: Id, k: nat)
    requires top <= |chain|
  {
    && 0 < k <= top && k <= m && Late(r, s, k) && Then(env, r, unit, chain, k).Ok?
    && h in Then(env, r, unit, chain, k).value.txn.settleable
    && OneTransaction(chain, Then(env, r, unit, chain, k).value, k, m)
          && v.txn.id == Then(env, r, unit, chain, k).value.txn.id
  }

  ghost predicate Losses(env: Env, r: Records, s: Records, unit: Unit, chain: seq<Entry>, top: nat, m: nat, g: View,
                         v: View)
    requires top <= |chain|
  {
    forall h :: h in v.txn.settleable && h !in g.txn.settleable
          ==> exists k :: Cut(env, r, s, unit, chain, top, m, v, h, k)
  }

  /** What a late checkpoint cut off is gone for good. */
  ghost predicate Gone(env: Env, r: Records, s: Records, unit: Unit, chain: seq<Entry>, top: nat, m: nat, g: View)
    requires top <= |chain| && m <= |chain|
  {
    forall k, h ::
      (&& 0 < k <= top && Late(r, s, k) && Then(env, r, unit, chain, k).Ok?
       && h in Then(env, r, unit, chain, k).value.txn.settleable)
      ==> h !in g.txn.settleable && Spent(chain, m, g.c.holds.open.at, h)
  }

  ghost predicate Released(chain: seq<Entry>, m: nat, v: View)
    requires m <= |chain|
  {
    forall h :: h in v.txn.settleable ==> Spent(chain, m, v.c.holds.open.at, h)
  }

  ghost predicate Going(env: Env, r: Records, s: Records, unit: Unit, chain: seq<Entry>, top: nat, m: nat, g: View,
                        v: View)
    requires top <= m <= |chain|
  {
    && Beside(g, v) && Sees(env, chain, m, g) && Sees(env, chain, m, v) && Audited(v, chain[..m])
          && Released(chain, m, v)
    && Losses(env, r, s, unit, chain, top, m, g, v) && Gone(env, r, s, unit, chain, top, m, g)
  }

  /** An entry both runs accept. */
  lemma GoingStep(env: Env, r: Records, s: Records, unit: Unit, chain: seq<Entry>, m: nat, g: View, v: View)
    requires m < |chain| && DistinctIds(chain) && Going(env, r, s, unit, chain, m, m, g, v)
    requires Step(env, REPLAYING, v, chain[m]).Ok? && Step(env, REPLAYING, g, chain[m]).Ok?
    ensures Going(env, r, s, unit, chain, m, m + 1, Step(env, REPLAYING, g, chain[m]).value,
              Step(env, REPLAYING, v, chain[m]).value)
  {
    hide Step, Audited, Sees, Losses, Gone, Released;
    var e := chain[m];
    var w, x := Step(env, REPLAYING, v, e).value, Step(env, REPLAYING, g, e).value;
    StepBeside(env, chain, m, g, v);
    SeesStep(env, chain, m, g);
    SeesStep(env, chain, m, v);
    NewId(chain, m);
    AuditedStep(env, v, chain[..m], e);
    assert chain[..m] + [e] == chain[..m + 1];
    ReleasedStep(env, chain, m, v);
    LossesStep(env, r, s, unit, chain, m, g, v);
    GoneStep(env, r, s, unit, chain, m, g, v);
  }

  lemma NewId(chain: seq<Entry>, m: nat)
    requires m < |chain| && DistinctIds(chain)
    ensures forall i :: 0 <= i < |chain[..m]| ==> chain[..m][i].id != chain[m].id
  {
  }

  lemma ReleasedStep(env: Env, chain: seq<Entry>, m: nat, v: View)
    requires m < |chain| && DistinctIds(chain) && Audited(v, chain[..m]) && Released(chain, m, v)
    requires Step(env, REPLAYING, v, chain[m]).Ok? && (v.txn.id.None? ==> v.txn.settleable == {})
    ensures Released(chain, m + 1, Step(env, REPLAYING, v, chain[m]).value)
  {
    hide Step, Audited, Spent;
    SettleableAfter(env, REPLAYING, v, chain[m]);
    var w := Step(env, REPLAYING, v, chain[m]).value;
    if NamedRelease(chain[m]) { ReleasedIsSpent(env, chain, m, v); }
    forall h | h in w.txn.settleable ensures Spent(chain, m + 1, w.c.holds.open.at, h) {
      if h in v.txn.settleable { SpentStep(env, chain, m, v, h); }
    }
  }

  lemma LossesStep(env: Env, r: Records, s: Records, unit: Unit, chain: seq<Entry>, m: nat, g: View, v: View)
    requires m < |chain| && Beside(g, v) && Losses(env, r, s, unit, chain, m, m, g, v)
    requires Step(env, REPLAYING, v, chain[m]).Ok? && Step(env, REPLAYING, g, chain[m]).Ok?
    ensures Losses(env, r, s, unit, chain, m, m + 1, Step(env, REPLAYING, g, chain[m]).value,
              Step(env, REPLAYING, v, chain[m]).value)
  {
    hide Step, Then;
    var e := chain[m];
    var w, x := Step(env, REPLAYING, v, e).value, Step(env, REPLAYING, g, e).value;
    SettleableAfter(env, REPLAYING, v, e);
    SettleableAfter(env, REPLAYING, g, e);
    var next := m + 1;
    forall h | h in w.txn.settleable
          && h !in x.txn.settleable ensures exists k :: Cut(env, r, s, unit, chain, m, next, w, h, k) {
      assert h in v.txn.settleable && v.txn.id == Some(e.txn);
      assert h !in g.txn.settleable;
      var k :| Cut(env, r, s, unit, chain, m, m, v, h, k);
      assert Cut(env, r, s, unit, chain, m, next, w, h, k);
    }
  }

  lemma GoneStep(env: Env, r: Records, s: Records, unit: Unit, chain: seq<Entry>, m: nat, g: View, v: View)
    requires m < |chain| && DistinctIds(chain) && Beside(g, v) && Gone(env, r, s, unit, chain, m, m, g)
    requires Step(env, REPLAYING, g, chain[m]).Ok?
    ensures Gone(env, r, s, unit, chain, m, m + 1, Step(env, REPLAYING, g, chain[m]).value)
  {
    hide Step, Then;
    var e, x := chain[m], Step(env, REPLAYING, g, chain[m]).value;
    SettleableAfter(env, REPLAYING, g, e);
    forall k, h | 0 < k <= m && Late(r, s, k) && Then(env, r, unit, chain, k).Ok?
          && h in Then(env, r, unit, chain, k).value.txn.settleable
      ensures h !in x.txn.settleable && Spent(chain, m + 1, x.c.holds.open.at, h)
    {
      assert h !in g.txn.settleable && Spent(chain, m, g.c.holds.open.at, h);
      SpentStep(env, chain, m, g, h);
    }
  }

  // -- folding ----------------------------------------------------------------------------------

  lemma LossesFold(env: Env, r: Records, s: Records, unit: Unit, chain: seq<Entry>, m: nat, g: View, v: View)
    requires 0 < m <= |chain| && Late(r, s, m) && Then(env, r, unit, chain, m) == Ok(v) && g.txn.settleable == {}
    ensures Losses(env, r, s, unit, chain, m, m, g, v)
  {
    hide Then;
    forall h | h in v.txn.settleable ensures exists k :: Cut(env, r, s, unit, chain, m, m, v, h, k) {
      assert Cut(env, r, s, unit, chain, m, m, v, h, m);
    }
  }

  lemma GoneFold(env: Env, r: Records, s: Records, unit: Unit, chain: seq<Entry>, m: nat, top: nat, g: View, v: View)
    requires 0 < m <= |chain| && top == m - 1 && Gone(env, r, s, unit, chain, top, m, v.(txn := g.txn))
    requires g.c == v.c && (Late(r, s, m) ==>
               Then(env, r, unit, chain, m) == Ok(v) && Released(chain, m, v)
               && g.txn.settleable == {})
    ensures Gone(env, r, s, unit, chain, m, m, g)
  {
    hide Then, Spent;
  }

  /** At a late checkpoint that passes, only the later run folds. */
  lemma GoingLate(env: Env, r: Records, s: Records, unit: Unit, chain: seq<Entry>, m: nat, top: nat, g: View, v: View)
    requires env.refunds == Some(StoreRefunds(chain)) && 0 < m <= |chain| && top == m - 1
               && Going(env, r, s, unit, chain, top, m, g, v)
    requires Late(r, s, m) && Then(env, r, unit, chain, m) == Ok(v) && End(v.txn).Ok?
    ensures Going(env, r, s, unit, chain, m, m, Over(v.c), v)
  {
    hide Then, Losses, Gone, Sees, Released, Spent;
    assert v.c.tip.length == m by { AuditedBounds(v, chain[..m]); }
    hide Audited;
    SeesFolded(env, chain, m, v.c);
    LossesFold(env, r, s, unit, chain, m, Over(v.c), v);
    GoneShrinks(env, r, s, unit, chain, top, m, g, Over(v.c));
    GoneFold(env, r, s, unit, chain, m, top, Over(v.c), v);
  }

  lemma GoneShrinks(env: Env, r: Records, s: Records, unit: Unit, chain: seq<Entry>, top: nat, m: nat, g: View, x: View)
    requires top <= |chain| && m <= |chain| && Gone(env, r, s, unit, chain, top, m, g) && x.c == g.c
               && x.txn.settleable <= g.txn.settleable
    ensures Gone(env, r, s, unit, chain, top, m, x) && forall t: View ::
              t.c == x.c
              ==> Gone(env, r, s, unit, chain, top, m, t.(txn := x.txn))
  {
    hide Then, Spent;
  }

  /** At a checkpoint both hold, both fold. */
  lemma GoingBoth(env: Env, r: Records, s: Records, unit: Unit, chain: seq<Entry>, m: nat, top: nat, g: View, v: View)
    requires env.refunds == Some(StoreRefunds(chain)) && 0 < m <= |chain| && top == m - 1
               && Going(env, r, s, unit, chain, top, m, g, v)
    requires !Late(r, s, m)
    ensures Going(env, r, s, unit, chain, m, m, Over(v.c), Over(v.c))
  {
    hide Then, Gone, Sees, Spent;
    assert v.c.tip.length == m by { AuditedBounds(v, chain[..m]); }
    assert Audited(Over(v.c), chain[..m]) by { FoldedAudited(v, chain[..m]); }
    hide Audited;
    SeesFolded(env, chain, m, v.c);
    GoneShrinks(env, r, s, unit, chain, top, m, g, Over(v.c));
    GoneFold(env, r, s, unit, chain, m, top, Over(v.c), v);
  }

  lemma FoldedAudited(v: View, entries: seq<Entry>)
    requires Audited(v, entries)
    ensures Audited(Over(v.c), entries)
  {
    hide HoldsKept, TreeKept, Merkle.Ones;
  }

  /** Elsewhere neither does. */
  lemma GoingOn(env: Env, r: Records, s: Records, unit: Unit, chain: seq<Entry>, m: nat, top: nat, g: View, v: View)
    requires 0 < m <= |chain| && top == m - 1 && Going(env, r, s, unit, chain, top, m, g, v) && !Late(r, s, m)
    ensures Going(env, r, s, unit, chain, m, m, g, v)
  {
    hide Then, Sees, Audited, Released, Spent;
    GoneShrinks(env, r, s, unit, chain, top, m, g, g);
    assert v.(txn := g.txn).c == g.c;
    GoneFold(env, r, s, unit, chain, m, top, g, v);
    LossesOn(env, r, s, unit, chain, m, top, g, v);
  }

  lemma LossesOn(env: Env, r: Records, s: Records, unit: Unit, chain: seq<Entry>, m: nat, top: nat, g: View, v: View)
    requires top <= m <= |chain| && Losses(env, r, s, unit, chain, top, m, g, v)
    ensures Losses(env, r, s, unit, chain, m, m, g, v)
  {
    hide Then;
    forall h | h in v.txn.settleable
          && h !in g.txn.settleable ensures exists k :: Cut(env, r, s, unit, chain, m, m, v, h, k) {
      var k :| Cut(env, r, s, unit, chain, top, m, v, h, k);
      assert Cut(env, r, s, unit, chain, m, m, v, h, k);
    }
  }

  // -- step by step -------------------------------------------------------------------------------

  /** The later run refuses an entry exactly when a late checkpoint cut it off. */
  lemma RefusedWhenCut(env: Env, r: Records, s: Records, unit: Unit, chain: seq<Entry>, m: nat, g: View, v: View)
    requires m < |chain| && Going(env, r, s, unit, chain, m, m, g, v) && Step(env, REPLAYING, v, chain[m]).Ok?
    ensures Step(env, REPLAYING, g, chain[m]).Ok? <==> !CutOff(env, r, s, unit, chain, m)
  {
    hide Step, Then, Sees, Audited, Released;
    var e := chain[m];
    StepBeside(env, chain, m, g, v);
    SettleableAfter(env, REPLAYING, v, e);
    if !Settleable(g, e) {
      var h := e.ref.value;
      assert h in v.txn.settleable && h !in g.txn.settleable;
      var k :| Cut(env, r, s, unit, chain, m, m, v, h, k);
      assert SettlesAt(chain, Then(env, r, unit, chain, k).value, k, m);
      assert CutOffBy(env, r, s, unit, chain, m, k);
    }
    hide Spent;
    if k: nat :| CutOffBy(env, r, s, unit, chain, m, k) {
      assert e.ref.value !in g.txn.settleable;
    }
  }

  /** Some late checkpoint cut the settlement at `m` from its release. */
  ghost predicate CutOff(env: Env, r: Records, s: Records, unit: Unit, chain: seq<Entry>, m: nat)
    requires m < |chain|
  {
    exists k: nat :: CutOffBy(env, r, s, unit, chain, m, k)
  }

  ghost predicate CutOffBy(env: Env, r: Records, s: Records, unit: Unit, chain: seq<Entry>, m: nat, k: nat)
    requires m < |chain|
  {
    0 < k <= m && Late(r, s, k) && Then(env, r, unit, chain, k).Ok?
          && SettlesAt(chain, Then(env, r, unit, chain, k).value, k, m)
  }

  /** The verdicts of late checkpoints, one entry further. */
  lemma LatePassMore(env: Env, r: Records, s: Records, unit: Unit, chain: seq<Entry>, m: nat)
    requires m < |chain| && Then(env, r, unit, chain, m + 1).Ok?
    ensures LatePass(env, r, s, unit, chain, m + 1) <==>
              && LatePass(env, r, s, unit, chain, m) && !CutOff(env, r, s, unit, chain, m)
              && (Late(r, s, m + 1) ==> Passes(s, Then(env, r, unit, chain, m + 1).value, m + 1))
  {
    hide Then, Passes, SettlesAt;
    var n := m + 1;
    forall k: nat | 0 < k <= m && Late(r, s, k)
      ensures PassesAt(env, r, s, unit, chain, n, k) <==>
                PassesAt(env, r, s, unit, chain, m, k)
                && !CutOffBy(env, r, s, unit, chain, m, k)
    {
      PassesMore(env, r, s, unit, chain, m, k);
    }
    if Late(r, s, n) {
      NoneYet(chain, Then(env, r, unit, chain, n).value, n);
    }
  }

  lemma NoneYet(chain: seq<Entry>, v: View, n: nat)
    requires n <= |chain|
    ensures !Across(chain, v, n, n)
  {
  }

  lemma PassesMore(env: Env, r: Records, s: Records, unit: Unit, chain: seq<Entry>, m: nat, k: nat)
    requires m < |chain| && 0 < k <= m && Late(r, s, k)
    ensures PassesAt(env, r, s, unit, chain, m + 1, k) <==>
              PassesAt(env, r, s, unit, chain, m, k)
              && !CutOffBy(env, r, s, unit, chain, m, k)
  {
    hide Then, Passes, SettlesAt;
    if Then(env, r, unit, chain, k).Ok? {
      var v := Then(env, r, unit, chain, k).value;
      AcrossMore(chain, v, k, m);
    }
  }

  lemma AcrossMore(chain: seq<Entry>, v: View, k: nat, m: nat)
    requires m < |chain|
    ensures Across(chain, v, k, m + 1) <==> Across(chain, v, k, m) || SettlesAt(chain, v, k, m)
  {
    hide SettlesAt;
    var n := m + 1;
    if Across(chain, v, k, n) && !SettlesAt(chain, v, k, m) {
      var j: nat :| SettlesAt(chain, v, k, j) && j < n;
      assert SettlesAt(chain, v, k, j) && j < m;
    }
    if Across(chain, v, k, m) {
      var j: nat :| SettlesAt(chain, v, k, j) && j < m;
      assert SettlesAt(chain, v, k, j) && j < n;
    }
  }

  lemma ThenBefore(env: Env, r: Records, unit: Unit, chain: seq<Entry>, m: nat)
    requires m < |chain|
    ensures Then(env, r, unit, chain, m + 1)
         == match Then(env, r, unit, chain, m) case Ok(v) => AuditStep(env, r, v, chain[m]) case Err(f) => Err(f)
  {
    hide AuditStep;
    assert chain[..m + 1][..m] == chain[..m];
  }

  /** What the later run does with an accepted entry at its place. */
  lemma FoldsWhere(env: Env, s: Records, g: View, e: Entry, m: nat)
    requires env.refunds.Some? && Step(env, REPLAYING, g, e).Ok?
               && Step(env, REPLAYING, g, e).value.c.tip.length == m + 1
    ensures var x := Step(env, REPLAYING, g, e).value;
            AuditStep(env, s, g, e).Ok? <==> (m + 1 in s.checkpoints ==> Passes(s, x, m + 1))
    ensures AuditStep(env, s, g, e).Ok? ==>
              AuditStep(env, s, g, e).value == if m + 1 in s.checkpoints then Over(Step(env, REPLAYING, g, e).value.c)
                    else Step(env, REPLAYING, g, e).value
  {
    hide Step, SnapshotMatches;
  }

  lemma RefusedStep(env: Env, s: Records, g: View, e: Entry)
    requires Step(env, REPLAYING, g, e).Err?
    ensures AuditStep(env, s, g, e).Err?
  {
    hide Step;
  }

  /** Side by side through every entry the earlier run accepted: the run from genesis is
      still going exactly when every late checkpoint so far passes. */
  lemma {:induction false} SideBySide(env: Env, r: Records, s: Records, unit: Unit, chain: seq<Entry>, m: nat)
    requires env.refunds == Some(StoreRefunds(chain)) && DistinctIds(chain) && m <= |chain| && Grown(r, s, m + 1)
    requires Then(env, r, unit, chain, m).Ok?
    ensures Then(env, s, unit, chain, m).Ok? <==> LatePass(env, r, s, unit, chain, m)
    ensures Then(env, s, unit, chain, m).Ok? ==>
              Going(env, r, s, unit, chain, m, m, Then(env, s, unit, chain, m).value,
                    Then(env, r, unit, chain, m).value)
  {
    hide AuditStep, Going, LatePass, Then;
    if m == 0 {
      AtTheStart(env, r, s, unit, chain);
    } else {
      var n := m - 1;
      ThenBefore(env, r, unit, chain, n);
      ThenBefore(env, s, unit, chain, n);
      SideBySide(env, r, s, unit, chain, n);
      LatePassMore(env, r, s, unit, chain, n);
      if Then(env, s, unit, chain, n).Ok? {
        Abreast(env, r, s, unit, chain, n, Then(env, s, unit, chain, n).value, Then(env, r, unit, chain, n).value);
      }
    }
  }

  lemma AtTheStart(env: Env, r: Records, s: Records, unit: Unit, chain: seq<Entry>)
    requires env.refunds == Some(StoreRefunds(chain))
    ensures Then(env, s, unit, chain, 0).Ok? && LatePass(env, r, s, unit, chain, 0)
    ensures Then(env, r, unit, chain, 0).Ok?
    ensures Going(env, r, s, unit, chain, 0, 0, Then(env, s, unit, chain, 0).value, Then(env, r, unit, chain, 0).value)
  {
    assert chain[..0] == [];
    SeesFolded(env, chain, 0, EmptyChain(unit));
    AuditedEmpty(unit);
    hide Sees, Audited, EmptyChain;
  }

  /** One entry further. */
  lemma Abreast(env: Env, r: Records, s: Records, unit: Unit, chain: seq<Entry>, m: nat, g: View, v: View)
    requires env.refunds == Some(StoreRefunds(chain)) && DistinctIds(chain) && m < |chain| && Grown(r, s, m + 2)
    requires Going(env, r, s, unit, chain, m, m, g, v) && AuditStep(env, r, v, chain[m]).Ok?
    requires Then(env, r, unit, chain, m + 1) == AuditStep(env, r, v, chain[m])
    ensures AuditStep(env, s, g, chain[m]).Ok? <==>
              !CutOff(env, r, s, unit, chain, m)
                    && (Late(r, s, m + 1) ==> Passes(s, Then(env, r, unit, chain, m + 1).value, m + 1))
    ensures AuditStep(env, s, g, chain[m]).Ok? ==>
              Going(env, r, s, unit, chain, m + 1, m + 1, AuditStep(env, s, g, chain[m]).value,
                    Then(env, r, unit, chain, m + 1).value)
  {
    hide AuditStep, Going, Then, CutOff, Step, Passes, Grown;
    var e, n := chain[m], m + 1;
    AuditStepShape(env, r, v, e);
    var w := Step(env, REPLAYING, v, e).value;
    RefusedWhenCut(env, r, s, unit, chain, m, g, v);
    if CutOff(env, r, s, unit, chain, m) {
      RefusedStep(env, s, g, e);
    } else {
      GoingStep(env, r, s, unit, chain, m, g, v);
      var x := Step(env, REPLAYING, g, e).value;
      SameState(env, r, s, unit, chain, m, x, w);
      FoldsWhere(env, s, g, e, m);
      PassesSame(s, x, w, n);
      if n in r.checkpoints {
        BothPass(env, r, s, v, e, n);
        GoingBoth(env, r, s, unit, chain, n, m, x, w);
      } else if n in s.checkpoints {
        if Passes(s, w, n) {
          ClosedThere(s, w, n);
          GoingLate(env, r, s, unit, chain, n, m, x, w);
        }
      } else {
        GoingOn(env, r, s, unit, chain, n, m, x, w);
      }
    }
  }

  lemma SameState(env: Env, r: Records, s: Records, unit: Unit, chain: seq<Entry>, m: nat, x: View, w: View)
    requires m < |chain| && Going(env, r, s, unit, chain, m, m + 1, x, w)
    ensures x.c == w.c && x.txn.net == w.txn.net && w.c.tip.length == m + 1
  {
    hide Sees, Losses, Gone, Released, HoldsKept, TreeKept, Merkle.Ones;
  }

  lemma PassesSame(s: Records, x: View, w: View, n: nat)
    requires x.c == w.c && x.txn.net == w.txn.net
    ensures n in s.checkpoints ==> (Passes(s, x, n) <==> Passes(s, w, n))
  {
    hide SnapshotMatches;
  }

  lemma ClosedThere(s: Records, w: View, n: nat)
    requires n in s.checkpoints && Passes(s, w, n)
    ensures End(w.txn).Ok?
  {
  }

  /** A checkpoint that passed then passes now. */
  lemma BothPass(env: Env, r: Records, s: Records, v: View, e: Entry, n: nat)
    requires env.refunds.Some? && AuditStep(env, r, v, e).Ok? && n in r.checkpoints && Grown(r, s, n + 1)
    requires Step(env, REPLAYING, v, e).Ok? && Step(env, REPLAYING, v, e).value.c.tip.length == n
    ensures n in s.checkpoints && Passes(s, Step(env, REPLAYING, v, e).value, n)
  {
    hide Step, Encode;
  }

  // -- the verdict at the mark ---------------------------------------------------------------------

  /** Every checkpoint below the mark named since it was made would have passed then, and
      cuts no settlement below the mark from the release it settles. */
  ghost predicate AllLatePass(env: Env, r: Records, s: Records, unit: Unit, chain: seq<Entry>, n: nat)
    requires n <= |chain|
  {
    forall k :: 0 < k < n && Late(r, s, k) ==> PassesAt(env, r, s, unit, chain, n, k)
  }

  lemma AllLateIs(env: Env, r: Records, s: Records, unit: Unit, chain: seq<Entry>, m: nat)
    requires m < |chain|
    ensures AllLatePass(env, r, s, unit, chain, m + 1)
       <==> LatePass(env, r, s, unit, chain, m) && !CutOff(env, r, s, unit, chain, m)
  {
    hide PassesAt, CutOffBy;
    var n := m + 1;
    forall k: nat | 0 < k <= m && Late(r, s, k)
      ensures PassesAt(env, r, s, unit, chain, n, k) <==>
                PassesAt(env, r, s, unit, chain, m, k)
                && !CutOffBy(env, r, s, unit, chain, m, k)
    {
      PassesMore(env, r, s, unit, chain, m, k);
    }
    assert forall k: nat :: CutOffBy(env, r, s, unit, chain, m, k) ==>
             0 < k <= m
             && Late(r, s, k) by { CutOffIsLate(env, r, s, unit, chain, m); }
  }

  lemma CutOffIsLate(env: Env, r: Records, s: Records, unit: Unit, chain: seq<Entry>, m: nat)
    requires m < |chain|
    ensures forall k: nat :: CutOffBy(env, r, s, unit, chain, m, k) ==> 0 < k <= m && Late(r, s, k)
  {
    hide Then, SettlesAt;
  }

  /** The earlier run, as the engine over the longer ledger sees it. */
  lemma EarlierRun(env: Env, unit: Unit, full: seq<Entry>, later: seq<Entry>, r: Records, n: nat, mark: Hash)
    requires 0 < n <= |full| && full <= later && DistinctIds(later) && Verified(env, unit, full, r, n, mark)
    ensures var t := Then(StoreEnv(env, later), r, unit, later, n);
            && t.Ok? && t.value.c == StateAt(env, unit, full, r, n) && End(t.value.txn).Ok?
            && Encodable(t.value.c) && r.digest(Encode(t.value.c)) == mark
  {
    hide AuditSteps, Encode, Encodable, DistinctIds, StoreEnv;
    assert full[..n] == later[..n];
    AuditCarries(env, unit, full, later, r, r, n);
  }

  /** At the mark the run from genesis stands exactly when every late checkpoint passed
      and the snapshot stored there, digest column and all, is the state's. */
  lemma AtTheMark(env: Env, unit: Unit, full: seq<Entry>, later: seq<Entry>, r: Records, s: Records, n: nat, mark: Hash)
    requires 0 < n <= |full| && full <= later && DistinctIds(later) && Grown(r, s, n)
               && Verified(env, unit, full, r, n, mark)
    requires n in s.checkpoints && s.checkpoints[n] == mark
    ensures var at, c := StoreEnv(env, later), StateAt(env, unit, full, r, n);
            && (Then(at, s, unit, later, n).Ok? <==>
                  n in s.stored && s.stored[n] == (Encode(c), mark) && AllLatePass(at, r, s, unit, later, n))
            && (Then(at, s, unit, later, n).Ok? ==> Then(at, s, unit, later, n) == Ok(Over(c)))
  {
    hide AuditStep, Encode, Encodable, Step, Going, LatePass, CutOff, Then, AllLatePass, StateAt, Verified, Grown;
    var at, m, e := StoreEnv(env, later), n - 1, later[n - 1];
    EarlierRun(env, unit, full, later, r, n, mark);
    ThenBefore(at, r, unit, later, m);
    ThenBefore(at, s, unit, later, m);
    SideBySide(at, r, s, unit, later, m);
    AllLateIs(at, r, s, unit, later, m);
    GrownDigest(r, s, n);
    if Then(at, s, unit, later, m).Ok? {
      var g, v := Then(at, s, unit, later, m).value, Then(at, r, unit, later, m).value;
      AuditStepShape(at, r, v, e);
      RefusedWhenCut(at, r, s, unit, later, m, g, v);
      if CutOff(at, r, s, unit, later, m) {
        RefusedStep(at, s, g, e);
      } else {
        LastFold(at, r, s, unit, later, m, g, v, mark, Then(at, r, unit, later, n).value.c);
      }
    }
  }

  lemma GrownDigest(r: Records, s: Records, n: nat)
    requires Grown(r, s, n)
    ensures r.digest == s.digest
  {
  }

  lemma LastFold(env: Env, r: Records, s: Records, unit: Unit, chain: seq<Entry>, m: nat, g: View, v: View, mark: Hash,
                 c: Chain)
    requires env.refunds.Some? && DistinctIds(chain) && m < |chain| && Going(env, r, s, unit, chain, m, m, g, v)
    requires Step(env, REPLAYING, v, chain[m]).Ok? && Step(env, REPLAYING, g, chain[m]).Ok?
    requires AuditStep(env, r, v, chain[m]).Ok?
    requires AuditStep(env, r, v, chain[m]).value.c == c && End(AuditStep(env, r, v, chain[m]).value.txn).Ok?
    requires m + 1 in s.checkpoints && s.checkpoints[m + 1] == mark && Encodable(c) && s.digest(Encode(c)) == mark
    ensures AuditStep(env, s, g, chain[m]).Ok? <==> m + 1 in s.stored && s.stored[m + 1] == (Encode(c), mark)
    ensures AuditStep(env, s, g, chain[m]).Ok? ==> AuditStep(env, s, g, chain[m]) == Ok(Over(c))
  {
    hide Step, Going, Encode, Encodable, AuditStep;
    var e := chain[m];
    AuditStepShape(env, r, v, e);
    GoingStep(env, r, s, unit, chain, m, g, v);
    var x, w := Step(env, REPLAYING, g, e).value, Step(env, REPLAYING, v, e).value;
    SameState(env, r, s, unit, chain, m, x, w);
    FoldsWhere(env, s, g, e, m);
    PassesSame(s, x, w, m + 1);
  }

  /** Over a ledger and records only ever added to, an audit resumed from a mark an
      earlier audit verified says the same of every prefix as one from genesis if and
      only if the stored digest column is right and every checkpoint below the mark named
      since would have passed; or the snapshot stored there is not the verified state's
      and yet has its digest. */
  lemma ResumedAuditAgrees(env: Env, unit: Unit, full: seq<Entry>, later: seq<Entry>, r: Records, s: Records,
                           n: nat, mark: Hash, d: Document, column: Hash, c: Chain)
    requires 0 < n <= |full| && full <= later && DistinctIds(later) && Grown(r, s, n)
               && Verified(env, unit, full, r, n, mark)
    requires n in s.checkpoints && s.checkpoints[n] == mark && n in s.stored && s.stored[n] == (d, column)
    requires s.digest(d) == mark && Decode(d) == Some(c)
    ensures DigestsClash(s.digest, d, Encode(StateAt(env, unit, full, r, n)))
         || (SameVerdicts(StoreEnv(env, later), s, unit, later, n, c)
             <==> column == mark && AllLatePass(StoreEnv(env, later), r, s, unit, later, n))
  {
    hide Encode, Decode, DistinctIds, Verified, Grown, StateAt, AllLatePass, SameVerdicts, Then;
    AtTheMark(env, unit, full, later, r, s, n, mark);
    GrownDigest(r, s, n);
    SnapshotReads(env, unit, full, later, r, n, mark, d);
    if Then(StoreEnv(env, later), s, unit, later, n) == Ok(Over(c)) {
      SameFrom(StoreEnv(env, later), s, unit, later, n, c);
    }
    if Then(StoreEnv(env, later), s, unit, later, n).Err? {
      DifferAt(StoreEnv(env, later), s, unit, later, n, c);
    }
  }

  /** The run resumed from a state after `n` entries, and the run from genesis. */
  ghost predicate SameVerdicts(env: Env, s: Records, unit: Unit, chain: seq<Entry>, n: nat, c: Chain)
    requires n <= |chain|
  {
    forall k :: n <= k <= |chain| ==> Resumed(env, s, chain, n, c, k) == Then(env, s, unit, chain, k)
  }

  function Resumed(env: Env, s: Records, chain: seq<Entry>, n: nat, c: Chain, k: nat): Result<View>
    requires n <= k <= |chain|
  {
    AuditSteps(env, s, Over(c), chain[n..k])
  }

  lemma SameFrom(env: Env, s: Records, unit: Unit, chain: seq<Entry>, n: nat, c: Chain)
    requires n <= |chain| && Then(env, s, unit, chain, n) == Ok(Over(c))
    ensures SameVerdicts(env, s, unit, chain, n, c)
  {
    hide AuditSteps;
    forall k | n <= k <= |chain| ensures Resumed(env, s, chain, n, c, k) == Then(env, s, unit, chain, k) {
      assert chain[..k] == chain[..n] + chain[n..k];
      AuditStepsAppend(env, s, Over(EmptyChain(unit)), chain[..n], chain[n..k]);
    }
  }

  lemma DifferAt(env: Env, s: Records, unit: Unit, chain: seq<Entry>, n: nat, c: Chain)
    requires n <= |chain| && Then(env, s, unit, chain, n).Err?
    ensures !SameVerdicts(env, s, unit, chain, n, c)
  {
    hide Then;
    assert chain[n..n] == [];
    assert Resumed(env, s, chain, n, c, n) == Ok(Over(c));
  }

  /** The whole run: same verdict, same final state, same head. */
  lemma ResumedRunAgrees(env: Env, s: Records, unit: Unit, chain: seq<Entry>, n: nat, c: Chain, length: nat, head: Hash)
    requires n <= |chain| && SameVerdicts(env, s, unit, chain, n, c)
    ensures AuditFrom(env, s, c, chain[n..], length, head) == AuditFrom(env, s, EmptyChain(unit), chain, length, head)
  {
    hide AuditSteps, Merged;
    assert chain[n..|chain|] == chain[n..] && chain[..|chain|] == chain;
    assert Resumed(env, s, chain, n, c, |chain|) == Then(env, s, unit, chain, |chain|);
  }

  /** Records of a chain as it grew: the checkpoints are those its entries name, and what
      was stored stays. */
  ghost predicate OfChains(env: Env, full: seq<Entry>, later: seq<Entry>, r: Records, s: Records) {
    && r.digest == s.digest && r.checkpoints == Named(env, full) && s.checkpoints == Named(env, later)
    && (forall k :: k in r.stored ==> k in s.stored && s.stored[k] == r.stored[k])
  }

  lemma NothingLate(env: Env, mode: Mode, unit: Unit, full: seq<Entry>, later: seq<Entry>, r: Records, s: Records,
                    n: nat)
    requires full <= later && Steps(env, mode, Over(EmptyChain(unit)), later).Ok? && n in Named(env, full)
    requires OfChains(env, full, later, r, s)
    ensures Grown(r, s, n) && n in s.checkpoints && forall k: nat :: k < n ==> !Late(r, s, k)
  {
    hide Steps, Named;
    forall k: int | k <= n ensures k in Named(env, full) <==> k in Named(env, later) {
      NamedStays(env, mode, unit, full, later, n, k);
    }
    forall k: int | k <= n && k in Named(env, full) ensures Named(env, later)[k] == Named(env, full)[k] {
      NamedStays(env, mode, unit, full, later, n, k);
    }
  }

  lemma NothingLateAllPass(env: Env, r: Records, s: Records, unit: Unit, chain: seq<Entry>, n: nat)
    requires n <= |chain| && forall k: nat :: k < n ==> !Late(r, s, k)
    ensures AllLatePass(env, r, s, unit, chain, n)
  {
    hide PassesAt;
  }

  /** When the mark's own checkpoint was in the chain already, nothing below it is named
      late, so a resumed audit agrees exactly where the stored digest column is right. */
  lemma NamedMarkAgrees(env: Env, mode: Mode, unit: Unit, full: seq<Entry>, later: seq<Entry>, r: Records, s: Records,
                        n: nat, mark: Hash, d: Document, column: Hash, c: Chain)
    requires 0 < n <= |full| && full <= later && n in s.checkpoints && n in s.stored
    requires s.checkpoints[n] == mark && s.stored[n] == (d, column) && s.digest(d) == mark && Decode(d) == Some(c)
    requires DistinctIds(later) && Verified(env, unit, full, r, n, mark)
    requires Steps(env, mode, Over(EmptyChain(unit)), later).Ok? && n in Named(env, full)
               && OfChains(env, full, later, r, s)
    ensures DigestsClash(s.digest, d, Encode(StateAt(env, unit, full, r, n)))
         || (SameVerdicts(StoreEnv(env, later), s, unit, later, n, c) <==> column == mark)
  {
    hide Decode, DistinctIds, Verified, SameVerdicts, Steps, Named, Then, AllLatePass, Grown, OfChains;
    NothingLate(env, mode, unit, full, later, r, s, n);
    NothingLateAllPass(StoreEnv(env, later), r, s, unit, later, n);
    ResumedAuditAgrees(env, unit, full, later, r, s, n, mark, d, column, c);
  }
}
