/**
 A chain cut in two, the second part verified over the state the first left.  What a
 transaction released before the cut it can no longer settle after it; this is all the
 cut changes.
 */
module Cuts {
  import opened Vocabulary
  import opened Dicts
  import opened Engine
  import opened Replays
  import opened Laws

  // -- two views that differ in what is settleable ----------------------------------------------

  lemma HoldsAlike(h: Holds, x: Txn, y: Txn, e: Entry)
    requires x.net == y.net && x.settleable <= y.settleable && x.id == y.id && HoldRule(h, Netted(y, e), e).Ok?
    ensures HoldRule(h, Netted(x, e), e).Ok? <==> (e.kind.Spend? && e.ref.Some? ==> e.ref.value in x.settleable)
    ensures HoldRule(h, Netted(x, e), e).Ok? ==>
              var (a, b) := (HoldRule(h, Netted(x, e), e).value, HoldRule(h, Netted(y, e), e).value);
              a.0 == b.0 && a.1.net == b.1.net && a.1.settleable <= b.1.settleable && a.1.id == b.1.id == x.id
  {
    hide Place, ReleaseUnnamed, Close;
  }

  lemma BeginAlike(x: Txn, y: Txn, e: Entry)
    requires x.net == y.net && x.settleable <= y.settleable && Begin(y, e).Ok?
    requires x.id == y.id || (x.id.None? && x.net == 0)
    requires (x.id.None? ==> x.settleable == {}) && (y.id.None? ==> y.settleable == {})
    ensures Begin(x, e).Ok?
    ensures var a, b := Begin(x, e).value, Begin(y, e).value;
            a.net == b.net && a.settleable <= b.settleable && a.id == b.id == Some(e.txn)
    ensures Begin(x, e).value.settleable == if x.id == Some(e.txn) then x.settleable else {}
    ensures Begin(y, e).value.settleable == if y.id == Some(e.txn) then y.settleable else {}
  {
  }

  /** The holds a transaction can settle: those it released itself. */
  lemma SettleableAfter(env: Env, mode: Mode, v: View, e: Entry)
    requires Step(env, mode, v, e).Ok? && (v.txn.id.None? ==> v.txn.settleable == {})
    ensures var w := Step(env, mode, v, e).value;
            var begun := if v.txn.id == Some(e.txn) then v.txn.settleable else {};
            && w.txn.id == Some(e.txn)
            && (NamedRelease(e) ==>
                  e.ref.Some? && e.ref.value in v.c.holds.open.at
                  && e.ref.value !in w.c.holds.open.at)
            && w.txn.settleable == begun + (if NamedRelease(e) then {e.ref.value} else {})
            && (e.kind.Spend? && e.ref.Some? ==> e.ref.value in begun)
  {
    var txn := StepParts(env, mode, v, e);
    hide Step;
    if NamedRelease(e) { NamedOpen(v.c.holds, Netted(txn, e), e); }
    hide Drop, Counted, FirstOf;
  }

  // -- what the last transaction released ------------------------------------------------------------

  predicate Continues(es: seq<Entry>, txn: Id) { |es| > 0 && es[|es| - 1].txn == txn }

  /** The holds released by the transaction some entries end in. */
  function LastReleases(es: seq<Entry>): set<Id>
    decreases |es|, 0
  {
    if |es| == 0 then {}
    else
      var init, e := es[..|es| - 1], es[|es| - 1];
      Releasable(init, e.txn) + (if NamedRelease(e) && e.ref.Some? then {e.ref.value} else {})
  }

  /** Those a next entry of a transaction may settle. */
  function Releasable(es: seq<Entry>, txn: Id): set<Id>
    decreases |es|, 1
  {
    if Continues(es, txn) then LastReleases(es) else {}
  }

  /** A view over some entries, taken anew before them, has just their transaction open. */
  ghost predicate Follows(v: View, es: seq<Entry>) {
    v.txn.id == (if |es| == 0 then None else Some(es[|es| - 1].txn)) && v.txn.settleable == LastReleases(es)
  }

  lemma FollowsStep(env: Env, mode: Mode, v: View, es: seq<Entry>, e: Entry)
    requires Follows(v, es) && Step(env, mode, v, e).Ok?
    ensures Follows(Step(env, mode, v, e).value, es + [e])
    ensures e.kind.Spend? && e.ref.Some? ==> e.ref.value in Releasable(es, e.txn)
  {
    SettleableAfter(env, mode, v, e);
    hide Step;
    var all := es + [e];
    assert all[..|all| - 1] == es && all[|all| - 1] == e;
    assert Releasable(es, e.txn) == if v.txn.id == Some(e.txn) then v.txn.settleable else {};
  }

  lemma {:induction false} StepsFollow(env: Env, mode: Mode, c: Chain, es: seq<Entry>)
    requires Steps(env, mode, Over(c), es).Ok?
    ensures Follows(Steps(env, mode, Over(c), es).value, es)
  {
    hide Step, Follows;
    if |es| == 0 {
      FollowsNone(c);
    } else {
      var init, e := es[..|es| - 1], es[|es| - 1];
      StepsFollow(env, mode, c, init);
      FollowsStep(env, mode, Steps(env, mode, Over(c), init).value, init, e);
      assert init + [e] == es;
    }
  }

  lemma FollowsNone(c: Chain)
    ensures Follows(Over(c), [])
  {
  }

  // -- the cut ------------------------------------------------------------------------------------

  /** The spend at `j` after the cut settles a hold that its transaction released before
      the cut, and has not released again since. */
  predicate CutOffAt(pre: seq<Entry>, tail: seq<Entry>, j: nat)
    requires j < |tail|
  {
    var e := tail[j];
    e.kind.Spend? && e.ref.Some? && e.ref.value in Releasable(pre + tail[..j], e.txn)
    && e.ref.value !in Releasable(tail[..j], e.txn)
  }

  /** A settlement is cut from the release it settles. */
  ghost predicate CutOff(pre: seq<Entry>, tail: seq<Entry>) { exists j :: 0 <= j < |tail| && CutOffAt(pre, tail, j) }

  /** Where the cut falls between two transactions, none is. */
  lemma {:induction false} BetweenCutsNone(pre: seq<Entry>, tail: seq<Entry>)
    requires |tail| > 0 && !Continues(pre, tail[0].txn)
    ensures !CutOff(pre, tail)
  {
    forall j | 0 <= j < |tail| ensures !CutOffAt(pre, tail, j) { SameReleases(pre, tail, j, tail[j].txn); }
  }

  lemma {:induction false} SameReleases(pre: seq<Entry>, tail: seq<Entry>, j: nat, txn: Id)
    requires j < |tail| && !Continues(pre, tail[0].txn) && (j == 0 ==> txn == tail[0].txn)
    ensures Releasable(pre + tail[..j], txn) == Releasable(tail[..j], txn)
  {
    if j == 0 {
      assert pre + tail[..0] == pre;
    } else {
      var all := pre + tail[..j];
      assert all[..|all| - 1] == pre + tail[..j - 1] && tail[..j][..j - 1] == tail[..j - 1];
      SameReleases(pre, tail, j - 1, tail[j - 1].txn);
    }
  }

  /** What a longer view accepts, one taken later accepts unless it is cut off. */
  lemma StepBack(env: Env, mode: Mode, g: View, w: View, all: seq<Entry>, es: seq<Entry>, e: Entry)
    requires env.refunds.None? && Same(g, w) && Follows(w, all) && Follows(g, es) && Step(env, mode, w, e).Ok?
    ensures Step(env, mode, g, e).Ok? <==> (e.kind.Spend? && e.ref.Some? ==> e.ref.value in Releasable(es, e.txn))
  {
    var txn := StepParts(env, mode, w, e);
    BeginAlike(g.txn, w.txn, e);
    HoldsAlike(w.c.holds, Begin(g.txn, e).value, Begin(w.txn, e).value, e);
    RefundSame(env, g.c.spendRefunds, g.recent, g.start, w.c.spendRefunds, w.recent, w.start, e);
    hide AdmitRule, Begin, Netted, BalanceRule, HoldRule, RefundRule, FlowRule, Governing, Advance, AddTotals,
          LastReleases;
  }

  /** Two views of one chain, the second taken at the cut, through the first `j` entries
      after it. */
  ghost predicate Abreast(env: Env, mode: Mode, pre: seq<Entry>, tail: seq<Entry>, j: nat, g: View, w: View)
    requires j <= |tail|
  {
    match Steps(env, mode, w, tail[..j])
    case Err(_) => Steps(env, mode, g, tail[..j]).Err?
    case Ok(x) =>
      && (Steps(env, mode, g, tail[..j]).Ok? <==> forall i :: 0 <= i < j ==> !CutOffAt(pre, tail, i))
      && Follows(x, pre + tail[..j])
      && (Steps(env, mode, g, tail[..j]).Ok? ==>
            var y := Steps(env, mode, g, tail[..j]).value; Same(y, x) && Follows(y, tail[..j]))
  }

  lemma {:induction false} TailAbreast(env: Env, mode: Mode, pre: seq<Entry>, tail: seq<Entry>, j: nat, g: View,
                                       w: View)
    requires env.refunds.None? && j <= |tail| && Same(g, w) && Follows(w, pre) && Follows(g, [])
    ensures Abreast(env, mode, pre, tail, j, g, w)
  {
    hide Step, Follows, Same;
    if j == 0 {
      assert tail[..0] == [] && pre + [] == pre;
    } else {
      var i := j - 1;
      TailAbreast(env, mode, pre, tail, i, g, w);
      hide CutOffAt;
      NextAbreast(env, mode, pre, tail, i, g, w);
    }
  }

  lemma NextAbreast(env: Env, mode: Mode, pre: seq<Entry>, tail: seq<Entry>, i: nat, g: View, w: View)
    requires env.refunds.None? && i < |tail| && Abreast(env, mode, pre, tail, i, g, w)
    ensures Abreast(env, mode, pre, tail, i + 1, g, w)
  {
    hide Step, Follows, Same, Releasable;
    var e, j := tail[i], i + 1;
    assert tail[..j][..i] == tail[..i] && pre + tail[..j] == pre + tail[..i] + [e] && tail[..j] == tail[..i] + [e];
    var x, y := Steps(env, mode, w, tail[..i]), Steps(env, mode, g, tail[..i]);
    if x.Ok? {
      if Step(env, mode, x.value, e).Ok? { FollowsStep(env, mode, x.value, pre + tail[..i], e); }
      if y.Ok? {
        if Step(env, mode, y.value, e).Ok? {
          StepSame(env, mode, y.value, x.value, e);
          FollowsStep(env, mode, y.value, tail[..i], e);
        }
        if Step(env, mode, x.value, e).Ok? {
          StepBack(env, mode, y.value, x.value, pre + tail[..i], tail[..i], e);
          assert Step(env, mode, y.value, e).Ok? <==> !CutOffAt(pre, tail, i);
        }
      }
    }
  }

  /** A chain verified in two parts, one after the other, is accepted exactly when it is
      accepted whole and no settlement is cut from its release; and then to one state. */
  lemma TwoParts(env: Env, mode: Mode, c: Chain, pre: seq<Entry>, tail: seq<Entry>)
    requires env.refunds.None? && Batch(env, mode, c, pre).Ok?
    ensures match Batch(env, mode, c, pre + tail)
            case Err(_) => Batch(env, mode, Batch(env, mode, c, pre).value, tail).Err?
            case Ok(d) => if CutOff(pre, tail) then Batch(env, mode, Batch(env, mode, c, pre).value, tail).Err?
                          else Batch(env, mode, Batch(env, mode, c, pre).value, tail) == Ok(d)
  {
    hide Steps, Same, Follows, CutOffAt, Over, Merged;
    var w := Steps(env, mode, Over(c), pre).value;
    var d := Merged(env, w);
    StepsFollow(env, mode, c, pre);
    FollowsNone(d);
    SameSelf(w);
    MergedSame(env, w, w);
    StepsAppend(env, mode, Over(c), pre, tail);
    TailAbreast(env, mode, pre, tail, |tail|, Over(d), w);
    assert tail[..|tail|] == tail;
    var x, y := Steps(env, mode, w, tail), Steps(env, mode, Over(d), tail);
    if y.Ok? && x.Ok? {
      SameMerged(env, y.value, x.value);
      SameNet(y.value, x.value);
    }
  }

  lemma SameNet(v: View, w: View)
    requires Same(v, w)
    ensures End(v.txn).Ok? == End(w.txn).Ok?
  {
  }
}
