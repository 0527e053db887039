/**
 What it means that an audit passes: the whole chain replays, every checkpoint along it
 is the state there, and the chain ends where the store said.
 */
module AuditExact {
  import opened Vocabulary
  import opened Dicts
  import opened Engine
  import opened Replays
  import opened Laws
  import opened Cuts
  import opened Snapshots
  import opened Opens
  import opened Audits
  import opened Resumes
  import opened ResumeExact
  import Fleet

  /** Records in which no sequence is checkpointed. */
  function Unnamed(s: Records): Records { Records(s.digest, map[], map[]) }

  /** Every checkpoint named in the chain passes: up to it the chain replays, to a state
      between transactions with the digest the checkpoint names, of which the store holds
      the document and that digest beside it; and it cuts no settlement from the release it
      settles. */
  ghost predicate CheckpointsPass(env: Env, s: Records, unit: Unit, chain: seq<Entry>) {
    forall k :: 0 < k <= |chain| && k in s.checkpoints ==> CheckpointPasses(env, s, unit, chain, k)
  }

  ghost predicate CheckpointPasses(env: Env, s: Records, unit: Unit, chain: seq<Entry>, k: nat)
    requires k <= |chain| && k in s.checkpoints
  {
    var there := Steps(env, REPLAYING, Over(EmptyChain(unit)), chain[..k]);
    && there.Ok? && there.value.txn.net == 0 && Encodable(there.value.c)
    && s.digest(Encode(there.value.c)) == s.checkpoints[k]
    && k in s.stored && s.stored[k] == (Encode(there.value.c), s.checkpoints[k])
    && !Across(chain, there.value, k, |chain|)
  }

  lemma PassesIs(env: Env, s: Records, unit: Unit, chain: seq<Entry>, k: nat)
    requires DistinctIds(chain) && k <= |chain| && k in s.checkpoints
    ensures PassesAt(env, Unnamed(s), s, unit, chain, |chain|, k) <==> CheckpointPasses(env, s, unit, chain, k)
  {
    PlainAudit(env, s, Over(EmptyChain(unit)), chain[..k]);
    hide Steps, AuditSteps, Encode, Across, Leaves, DistinctIds;
    if Steps(env, REPLAYING, Over(EmptyChain(unit)), chain[..k]).Ok? {
      FrontierKept(env, REPLAYING, unit, chain[..k]);
    }
  }

  lemma {:induction false} PlainAudit(env: Env, s: Records, v: View, entries: seq<Entry>)
    ensures AuditSteps(env, Unnamed(s), v, entries) == Steps(env, REPLAYING, v, entries)
  {
    hide Step;
    if |entries| > 0 { PlainAudit(env, s, v, entries[..|entries| - 1]); }
  }

  /** What a view accepts, one beside it with more to settle accepts. */
  lemma StepForward(env: Env, chain: seq<Entry>, m: nat, g: View, v: View)
    requires m < |chain| && Beside(g, v) && Sees(env, chain, m, g) && Sees(env, chain, m, v)
    requires Step(env, REPLAYING, g, chain[m]).Ok?
    ensures Step(env, REPLAYING, v, chain[m]).Ok?
  {
    var e := chain[m];
    RefundsAlike(env, chain, m, g, v, e);
    var txn := StepParts(env, REPLAYING, g, e);
    BeginSame(g.txn, v.txn, e);
    HoldSame(g.c.holds, Begin(g.txn, e).value, Begin(v.txn, e).value, e);
    hide Sees, AdmitRule, Begin, Netted, BalanceRule, HoldRule, RefundRule, FlowRule, Governing, Advance, AddTotals;
  }

  lemma GoingParts(env: Env, r: Records, s: Records, unit: Unit, chain: seq<Entry>, m: nat, g: View, v: View)
    requires m <= |chain| && Going(env, r, s, unit, chain, m, m, g, v)
    ensures Beside(g, v) && Sees(env, chain, m, g) && Sees(env, chain, m, v)
  {
    hide Losses, Gone, ResumeExact.Released, Audited, Beside, Sees;
  }

  lemma AuditStepped(env: Env, s: Records, v: View, e: Entry)
    requires AuditStep(env, s, v, e).Ok?
    ensures Step(env, REPLAYING, v, e).Ok?
  {
    hide Step, SnapshotMatches;
  }

  lemma PlainStep(env: Env, s: Records, v: View, e: Entry)
    ensures AuditStep(env, Unnamed(s), v, e) == Step(env, REPLAYING, v, e)
  {
    hide Step;
  }

  /** As far as an audit gets, a replay gets. */
  lemma {:induction false} AuditedReplays(env: Env, s: Records, unit: Unit, chain: seq<Entry>, m: nat)
    requires env.refunds == Some(StoreRefunds(chain)) && DistinctIds(chain) && m <= |chain|
    requires Then(env, s, unit, chain, m).Ok?
    ensures Then(env, Unnamed(s), unit, chain, m).Ok?
  {
    hide AuditStep, Going, Then, LatePass, Step, Beside, Sees;
    if m == 0 {
      AtTheStart(env, Unnamed(s), s, unit, chain);
    } else {
      var n := m - 1;
      ThenBefore(env, s, unit, chain, n);
      ThenBefore(env, Unnamed(s), unit, chain, n);
      AuditedReplays(env, s, unit, chain, n);
      SideBySide(env, Unnamed(s), s, unit, chain, n);
      var g, v := Then(env, s, unit, chain, n).value, Then(env, Unnamed(s), unit, chain, n).value;
      GoingParts(env, Unnamed(s), s, unit, chain, n, g, v);
      AuditStepped(env, s, g, chain[n]);
      StepForward(env, chain, n, g, v);
      PlainStep(env, s, v, chain[n]);
    }
  }

  /** The engine of an audit, finding spends as a replay of the whole chain does. */
  function Whole(env: Env, full: seq<Entry>): Env { Replaying(StoreEnv(env, full), full) }

  lemma SameResolver(env: Env, unit: Unit, full: seq<Entry>)
    requires DistinctIds(full)
    ensures Replay(Whole(env, full), unit, full) == Replay(StoreEnv(env, full), unit, full)
  {
    var at := StoreEnv(env, full);
    assert SameSpends(at.resolve, SpendIndex(full)) by {
      hide SpendIndex, Newest, NewestSpend;
      assert full + [] == full;
      forall id ensures AsSpend(at.resolve(id)) == AsSpend(SpendIndex(full)(id)) {
        OpeningFindsSpends(full, [], id);
        NoneNewest(id);
      }
    }
    hide SameSpends, Batch, SpendIndex, StoreRefunds, DistinctIds;
    Fleet.SwitchResolver(at, at.resolve, SpendIndex(full), EmptyChain(unit), full);
    assert at.(resolve := at.resolve) == at;
  }

  lemma NoneNewest(id: Id)
    ensures NewestSpend([], id).None?
  {
  }

  lemma ReplayIs(env: Env, s: Records, unit: Unit, full: seq<Entry>)
    requires env.refunds.Some?
    ensures var v := Then(env, Unnamed(s), unit, full, |full|);
            Replay(env, unit, full) == if v.Err? then Err(v.fault) else if End(v.value.txn).Err? then Err(Unbalanced)
                                       else Ok(v.value.c)
  {
    assert full[..|full|] == full;
    PlainAudit(env, s, Over(EmptyChain(unit)), full);
    hide Steps, AuditSteps;
  }

  lemma AllPass(env: Env, s: Records, unit: Unit, full: seq<Entry>)
    requires DistinctIds(full)
    ensures LatePass(env, Unnamed(s), s, unit, full, |full|) <==> CheckpointsPass(env, s, unit, full)
  {
    hide PassesAt, CheckpointPasses, DistinctIds;
    forall k: nat | 0 < k <= |full| && k in s.checkpoints
      ensures PassesAt(env, Unnamed(s), s, unit, full, |full|, k) <==> CheckpointPasses(env, s, unit, full, k)
    {
      PassesIs(env, s, unit, full, k);
    }
  }

  lemma BesideEnds(g: View, v: View)
    requires Beside(g, v)
    ensures g.c == v.c && End(g.txn).Ok? == End(v.txn).Ok?
  {
  }

  /** An audit from genesis passes if and only if the chain replays, every checkpoint named
      in it passes, and the chain is as long and ends in the head as the store reported;
      and then the state it ends in is the replay's. */
  lemma AuditPassesExactly(env: Env, s: Records, unit: Unit, full: seq<Entry>, length: nat, head: Hash)
    requires DistinctIds(full)
    ensures var at := StoreEnv(env, full);
            var r := AuditFrom(at, s, EmptyChain(unit), full, length, head);
            && (r.Ok? <==>
                  && Replay(Whole(env, full), unit, full).Ok? && CheckpointsPass(at, s, unit, full)
                  && |full| == length && (if |full| == 0 then unit.genesis else full[|full| - 1].hash) == head)
            && (r.Ok? ==> r == Replay(Whole(env, full), unit, full))
  {
    hide AuditSteps, Steps, LatePass, CheckpointsPass, Going, Beside, DistinctIds, Leaves, SpendIndex;
    var at := StoreEnv(env, full);
    SameResolver(env, unit, full);
    hide Whole;
    ReplayIs(at, s, unit, full);
    AllPass(at, s, unit, full);
    assert full[..|full|] == full;
    var v, g := Then(at, Unnamed(s), unit, full, |full|), Then(at, s, unit, full, |full|);
    if g.Ok? { AuditedReplays(at, s, unit, full, |full|); }
    if v.Ok? {
      SideBySide(at, Unnamed(s), s, unit, full, |full|);
      TipAt(at, s, unit, full);
      if g.Ok? {
        GoingParts(at, Unnamed(s), s, unit, full, |full|, g.value, v.value);
        BesideEnds(g.value, v.value);
      }
    }
  }

  lemma TipAt(env: Env, s: Records, unit: Unit, full: seq<Entry>)
    requires Then(env, Unnamed(s), unit, full, |full|).Ok?
    ensures var t := Then(env, Unnamed(s), unit, full, |full|).value.c.tip;
            t.length == |full| && t.head == if |full| == 0 then unit.genesis else full[|full| - 1].hash
  {
    assert full[..|full|] == full;
    PlainAudit(env, s, Over(EmptyChain(unit)), full);
    hide Steps, AuditSteps, Leaves;
    FrontierKept(env, REPLAYING, unit, full);
  }

  // -- from the mark that was picked ----------------------------------------------------------------

  /** Every mark left as verified is one an earlier audit left: it got past that sequence of
      the ledger as it then was, and found the state there to have that digest. */
  ghost predicate Truthful(env: Env, unit: Unit, full: seq<Entry>, r: Records, marks: seq<Mark>) {
    forall i :: 0 <= i < |marks| && marks[i].verified ==>
      0 < marks[i].sequence <= |full| && Verified(env, unit, full, r, marks[i].sequence, marks[i].digest)
  }

  /** A run resumed from whichever mark was picked says the same of every prefix as one from
      genesis if and only if the stored digest beside that mark's snapshot is right and every
      checkpoint below it named since passes; or that snapshot is another document with the
      verified state's digest. */
  lemma PickedAgrees(env: Env, unit: Unit, full: seq<Entry>, later: seq<Entry>, r: Records, s: Records,
                     marks: seq<Mark>, i: nat, c: Chain)
    requires i < |marks| && Usable(s, marks[i]) && Truthful(env, unit, full, r, marks)
    requires Decode(s.stored[marks[i].sequence].0) == Some(c)
    requires full <= later && DistinctIds(later) && Grown(r, s, marks[i].sequence)
    ensures var n, mark := marks[i].sequence, marks[i].digest;
            && 0 < n <= |full| && Verified(env, unit, full, r, n, mark)
            && (DigestsClash(s.digest, s.stored[n].0, Encode(StateAt(env, unit, full, r, n)))
                || (SameVerdicts(StoreEnv(env, later), s, unit, later, n, c)
                    <==> s.stored[n].1 == mark && AllLatePass(StoreEnv(env, later), r, s, unit, later, n)))
  {
    hide Encode, Decode, DistinctIds, Grown, StateAt, AllLatePass, SameVerdicts, AuditSteps;
    var n, mark := marks[i].sequence, marks[i].digest;
    var (d, column) := s.stored[n];
    ResumedAuditAgrees(env, unit, full, later, r, s, n, mark, d, column, c);
  }
}
