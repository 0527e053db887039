/**
 The form every accepted chain has: formats that never go back, one seal exactly where
 the oldest format ends, time that never runs backwards in the newest, checkpoints that
 name ever later sequences, and amounts, texts and scopes within bounds.
 */
module Forms {
  import opened Vocabulary
  import opened Engine
  import opened Laws
  import Merkle

  function Rank(v: Version): nat {
    match v case V1 => 1 case V2 => 2 case V3 => 3 case Unknown(_) => 0
  }

  /** What an accepted entry says of the chain before it, and leaves for the one after. */
  lemma StepForms(env: Env, mode: Mode, v: View, e: Entry)
    requires Step(env, mode, v, e).Ok?
    ensures var a, b := v.c.tip, Step(env, mode, v, e).value.c.tip;
            && !e.version.Unknown?
            && (e.version.V1? ==> !a.sawV2 && !ZeroValue(e.kind)) && (e.version.V2? ==> !a.sawV3)
            && (!e.version.V1? && a.sawV1 && !a.sawV2 ==> e.kind.Seal?)
            && (e.kind.Seal? ==> a.seal.None? && a.sawV1)
            && b.sawV1 == (a.sawV1 || e.version.V1?) && b.sawV2 == (a.sawV2 || !e.version.V1?)
                  && b.sawV3 == (a.sawV3 || e.version.V3?)
            && b.seal.Some? == (a.seal.Some? || e.kind.Seal?) && b.lastTime == Some(e.time)
            && (e.version.V3? && a.lastTime.Some? ==> a.lastTime.value <= e.time)
  {
    hide TextAllowed, Begin, Booking, Govern, AddTotals, Merkle.Extend;
  }

  /** What the end of a chain remembers of it. */
  ghost predicate Remembers(t: Tip, entries: seq<Entry>) {
    && (t.sawV1 <==> exists i :: 0 <= i < |entries| && entries[i].version.V1?)
    && (t.sawV2 <==> exists i :: 0 <= i < |entries| && !entries[i].version.V1?)
    && (t.sawV3 <==> exists i :: 0 <= i < |entries| && entries[i].version.V3?)
    && (t.seal.Some? <==> exists i :: 0 <= i < |entries| && entries[i].kind.Seal?)
    && t.lastTime == if |entries| == 0 then None else Some(entries[|entries| - 1].time)
  }

  lemma RememberStep(a: Tip, b: Tip, entries: seq<Entry>, e: Entry)
    requires Remembers(a, entries)
    requires b.sawV1 == (a.sawV1 || e.version.V1?) && b.sawV2 == (a.sawV2 || !e.version.V1?)
               && b.sawV3 == (a.sawV3 || e.version.V3?)
    requires b.seal.Some? == (a.seal.Some? || e.kind.Seal?) && b.lastTime == Some(e.time)
    ensures Remembers(b, entries + [e])
  {
    var all := entries + [e];
    assert all[|entries|] == e;
    assert forall i :: 0 <= i < |entries| ==> all[i] == entries[i];
  }

  /** A format never gives way to an older one. */
  ghost predicate NeverBack(entries: seq<Entry>) {
    forall i, j :: 0 <= i < j < |entries| ==> 0 < Rank(entries[i].version) <= Rank(entries[j].version)
  }

  /** There is a seal exactly where entries of the oldest format end. */
  ghost predicate SealedOnce(entries: seq<Entry>) {
    forall i :: 0 <= i < |entries| ==> (entries[i].kind.Seal? <==> Border(entries, i))
  }

  predicate Border(entries: seq<Entry>, i: nat)
    requires i < |entries|
  {
    i > 0 && entries[i - 1].version.V1? && !entries[i].version.V1?
  }

  /** From the first entry of the newest format on, time never runs backwards. */
  ghost predicate InTime(entries: seq<Entry>) {
    forall i, j :: 0 <= i < j < |entries| && entries[i].version.V3? ==> entries[i].time <= entries[j].time
  }

  lemma BackStep(t: Tip, entries: seq<Entry>, e: Entry)
    requires Remembers(t, entries) && NeverBack(entries) && !e.version.Unknown?
    requires forall i :: 0 <= i < |entries| ==> !entries[i].version.Unknown?
    requires (e.version.V1? ==> !t.sawV2) && (e.version.V2? ==> !t.sawV3)
    ensures NeverBack(entries + [e])
  {
    var all := entries + [e];
    forall i | 0 <= i < |entries| ensures 0 < Rank(entries[i].version) <= Rank(e.version) {
      if e.version.V1? { assert entries[i].version.V1?; }
      if e.version.V2? { assert !entries[i].version.V3?; }
    }
    assert forall i :: 0 <= i < |entries| ==> all[i] == entries[i];
  }

  lemma SealStep(t: Tip, entries: seq<Entry>, e: Entry)
    requires Remembers(t, entries) && SealedOnce(entries) && NeverBack(entries)
    requires (e.version.V1? ==> !ZeroValue(e.kind)) && (!e.version.V1? && t.sawV1 && !t.sawV2 ==> e.kind.Seal?)
    requires e.kind.Seal? ==> t.seal.None? && t.sawV1
    ensures SealedOnce(entries + [e])
  {
    hide Border, Remembers, NeverBack;
    var all, n := entries + [e], |entries|;
    AtTheBorder(t, entries, e);
    forall i | 0 <= i < |all| ensures all[i].kind.Seal? <==> Border(all, i) {
      BorderIn(entries, e, i);
      assert i < n ==> (entries[i].kind.Seal? <==> Border(entries, i));
    }
  }

  lemma BorderIn(entries: seq<Entry>, e: Entry, i: nat)
    requires i <= |entries|
    ensures i < |entries| ==> (Border(entries + [e], i) <==> Border(entries, i)) && (entries + [e])[i] == entries[i]
    ensures Border(entries + [e], |entries|) <==> |entries| > 0 && entries[|entries| - 1].version.V1? && !e.version.V1?
  {
  }

  lemma AtTheBorder(t: Tip, entries: seq<Entry>, e: Entry)
    requires Remembers(t, entries) && SealedOnce(entries) && NeverBack(entries)
    requires (e.version.V1? ==> !ZeroValue(e.kind)) && (!e.version.V1? && t.sawV1 && !t.sawV2 ==> e.kind.Seal?)
    requires e.kind.Seal? ==> t.seal.None? && t.sawV1
    ensures e.kind.Seal? <==> |entries| > 0 && entries[|entries| - 1].version.V1? && !e.version.V1?
  {
    hide SealedOnce;
    if e.kind.Seal? { AllFirst(t, entries); }
    if |entries| > 0 && entries[|entries| - 1].version.V1? { OnlyFirst(t, entries); }
  }

  /** A chain that ends in the oldest format is all of it. */
  lemma OnlyFirst(t: Tip, entries: seq<Entry>)
    requires Remembers(t, entries) && NeverBack(entries) && |entries| > 0 && entries[|entries| - 1].version.V1?
    ensures t.sawV1 && !t.sawV2
  {
    var n := |entries| - 1;
    forall i | 0 <= i <= n ensures entries[i].version.V1? {
      if i < n { assert Rank(entries[i].version) <= Rank(entries[n].version); }
    }
    assert entries[n].version.V1?;
  }

  /** With the oldest format seen and no seal yet, everything is of the oldest format. */
  lemma AllFirst(t: Tip, entries: seq<Entry>)
    requires Remembers(t, entries) && SealedOnce(entries) && NeverBack(entries) && t.seal.None? && t.sawV1
    ensures |entries| > 0 && entries[|entries| - 1].version.V1?
  {
    var f :| 0 <= f < |entries| && entries[f].version.V1?;
    FirstRun(entries, f, |entries| - 1);
  }

  lemma {:induction false} FirstRun(entries: seq<Entry>, f: nat, j: nat)
    requires f <= j < |entries| && entries[f].version.V1? && SealedOnce(entries)
    requires forall i :: 0 <= i < |entries| ==> !entries[i].kind.Seal?
    ensures entries[j].version.V1?
    decreases j
  {
    if f < j {
      FirstRun(entries, f, j - 1);
      assert !Border(entries, j);
    }
  }

  lemma TimeStep(t: Tip, entries: seq<Entry>, e: Entry)
    requires Remembers(t, entries) && InTime(entries) && NeverBack(entries + [e])
    requires e.version.V3? && t.lastTime.Some? ==> t.lastTime.value <= e.time
    ensures InTime(entries + [e])
  {
    var all, n := entries + [e], |entries|;
    assert forall i :: 0 <= i < n ==> all[i] == entries[i];
    forall i | 0 <= i < n && entries[i].version.V3? ensures entries[i].time <= e.time {
      assert Rank(all[i].version) <= Rank(all[n].version);
      if i < n - 1 { assert entries[i].time <= entries[n - 1].time; }
    }
  }

  ghost predicate Formal(t: Tip, entries: seq<Entry>) {
    && Remembers(t, entries) && NeverBack(entries) && SealedOnce(entries) && InTime(entries)
    && forall i :: 0 <= i < |entries| ==> !entries[i].version.Unknown?
  }

  /** On every accepted chain: formats never go back, entries of the oldest format are
      followed by exactly one seal and there is no other, and in the newest format time
      never runs backwards. */
  lemma {:induction false} EveryChainIsFormal(env: Env, mode: Mode, unit: Unit, entries: seq<Entry>)
    requires Steps(env, mode, Over(EmptyChain(unit)), entries).Ok?
    ensures Formal(Steps(env, mode, Over(EmptyChain(unit)), entries).value.c.tip, entries)
  {
    hide Step, Remembers, NeverBack, SealedOnce, InTime;
    if |entries| == 0 {
      NothingFormal(unit);
    } else {
      var init, e := entries[..|entries| - 1], entries[|entries| - 1];
      EveryChainIsFormal(env, mode, unit, init);
      var v := Steps(env, mode, Over(EmptyChain(unit)), init).value;
      StepForms(env, mode, v, e);
      assert init + [e] == entries;
      RememberStep(v.c.tip, Step(env, mode, v, e).value.c.tip, init, e);
      BackStep(v.c.tip, init, e);
      SealStep(v.c.tip, init, e);
      TimeStep(v.c.tip, init, e);
    }
  }

  lemma NothingFormal(unit: Unit)
    ensures Formal(EmptyChain(unit).tip, [])
  {
  }

  // -- one entry -----------------------------------------------------------------------------

  /** Within the bounds of its kind, its unit and its format. */
  predicate WellShaped(unit: Unit, e: Entry) {
    && LegalDirection(e.kind, e.direction)
    && (if ZeroValue(e.kind) then e.amount == 0 && (e.scope == "" <==> Scopeless(e.kind))
        else e.amount > 0 && (unit.quantum > 1 ==> e.amount % unit.quantum == 0))
    && (e.kind.Checkpoint? ==> e.version.V3?)
    && (e.version.V3? ==> TextAllowed(e.scope, MAX_ID_BYTES, true) && TextAllowed(e.memo, MAX_MEMO_BYTES, false)
                          && (e.counterparty.Some? ==> TextAllowed(e.counterparty.value, MAX_ID_BYTES, true)))
  }

  lemma StepShape(env: Env, mode: Mode, v: View, e: Entry)
    requires Step(env, mode, v, e).Ok?
    ensures WellShaped(v.c.unit, e) && Step(env, mode, v, e).value.c.unit == v.c.unit
    ensures var a, b := v.c.tip.lastCheckpoint, Step(env, mode, v, e).value.c.tip.lastCheckpoint;
            if e.kind.Checkpoint? then
              b.Some? && env.readCheckpoint(e.memo) == b && b.value.0 <= v.c.tip.length
                    && (a.Some? ==> a.value.0 < b.value.0)
            else b == a
  {
    hide TextAllowed, Begin, Booking, Govern, AddTotals, Merkle.Extend;
  }

  ghost predicate NamesLater(env: Env, last: Option<(int, Hash)>, entries: seq<Entry>) {
    && (forall i :: 0 <= i < |entries| && entries[i].kind.Checkpoint? ==>
          var named := env.readCheckpoint(entries[i].memo);
                named.Some? && named.value.0 <= i && last.Some?
                && named.value.0 <= last.value.0)
    && (forall i, j :: 0 <= i < j < |entries| && entries[i].kind.Checkpoint? && entries[j].kind.Checkpoint? ==>
          env.readCheckpoint(entries[i].memo).Some? && env.readCheckpoint(entries[j].memo).Some?
          && env.readCheckpoint(entries[i].memo).value.0 < env.readCheckpoint(entries[j].memo).value.0)
  }

  lemma NamesStep(env: Env, a: Option<(int, Hash)>, b: Option<(int, Hash)>, entries: seq<Entry>, e: Entry)
    requires NamesLater(env, a, entries)
    requires if e.kind.Checkpoint? then b.Some? && env.readCheckpoint(e.memo) == b && b.value.0 <= |entries|
               && (a.Some? ==> a.value.0 < b.value.0)
             else b == a
    ensures NamesLater(env, b, entries + [e])
  {
    var all := entries + [e];
    assert forall i :: 0 <= i < |entries| ==> all[i] == entries[i];
  }

  /** On every accepted chain each entry is within bounds, and each checkpoint names a
      sequence before it, later than any checkpoint before it named. */
  lemma {:induction false} EveryEntryIsShaped(env: Env, mode: Mode, unit: Unit, entries: seq<Entry>)
    requires Steps(env, mode, Over(EmptyChain(unit)), entries).Ok?
    ensures Steps(env, mode, Over(EmptyChain(unit)), entries).value.c.unit == unit
    ensures forall i :: 0 <= i < |entries| ==> WellShaped(unit, entries[i])
    ensures NamesLater(env, Steps(env, mode, Over(EmptyChain(unit)), entries).value.c.tip.lastCheckpoint, entries)
  {
    hide Step, WellShaped, NamesLater;
    if |entries| == 0 {
      NothingNamed(env);
    } else {
      var init, e := entries[..|entries| - 1], entries[|entries| - 1];
      EveryEntryIsShaped(env, mode, unit, init);
      var v := Steps(env, mode, Over(EmptyChain(unit)), init).value;
      StepShape(env, mode, v, e);
      FrontierKept(env, mode, unit, init);
      assert init + [e] == entries;
      NamesStep(env, v.c.tip.lastCheckpoint, Step(env, mode, v, e).value.c.tip.lastCheckpoint, init, e);
    }
  }

  lemma NothingNamed(env: Env)
    ensures NamesLater(env, None, [])
  {
  }
}
