/**
 The inline loop detectors: near-identical calls by Jaccard similarity of their
 shingles, with a size-ratio shortcut, and cycles in the sequence of fingerprints.
 Similarities are real numbers; rounding is not modelled.
 */
module Detectors {
  import opened Vocabulary

  type Shingles = set<string>

  datatype ToolCall = ToolCall(fingerprint: string, shingles: Shingles, results: Option<Shingles>)

  /** The similarity as it is defined. */
  function Similarity(a: Shingles, b: Shingles): (r: real)
    ensures 0.0 <= r <= 1.0
  {
    if a == {} || b == {} then if a == b then 1.0 else 0.0
    else
      Sizes(a, b);
      |a * b| as real / |a + b| as real
  }

  /** The similarity, or zero as soon as the sizes rule out reaching the floor. */
  function Jaccard(a: Shingles, b: Shingles, floor: real): real {
    if a == {} || b == {} then if a == b then 1.0 else 0.0
    else
      var smaller, larger := if |a| <= |b| then |a| else |b|, if |a| <= |b| then |b| else |a|;
      if floor > 0.0 && smaller as real / larger as real < floor then 0.0
      else Similarity(a, b)
  }

  lemma {:induction false} Within(a: Shingles, b: Shingles)
    requires a <= b
    ensures |a| <= |b|
  {
    if a != {} {
      var x :| x in a;
      Within(a - {x}, b - {x});
    }
  }

  lemma Sizes(a: Shingles, b: Shingles)
    ensures |a * b| <= |a| <= |a + b| && |a * b| <= |b| <= |a + b|
  {
    Within(a * b, a);
    Within(a * b, b);
    Within(a, a + b);
    Within(b, a + b);
  }

  lemma Ratio(p: nat, q: nat, m: nat, n: nat)
    requires p <= m && 0 < n <= q
    ensures p as real / q as real <= m as real / n as real
  {
    Shrinks(m as real, n as real, q as real);
  }

  lemma Shrinks(m: real, n: real, q: real)
    requires m >= 0.0 && 0.0 < n <= q
    ensures m / q <= m / n
  {
    var x := m / n;
    assert x * q >= x * n;
    assert x * q / q == x;
  }

  /** The shortcut never changes a decision: whatever the sets and the threshold, the
      similarity reaches it with the shortcut exactly when it does without. */
  lemma PruningIsSound(a: Shingles, b: Shingles, threshold: real)
    ensures Jaccard(a, b, threshold) >= threshold <==> Similarity(a, b) >= threshold
    ensures Similarity(a, b) >= threshold ==> Jaccard(a, b, threshold) == Similarity(a, b)
  {
    if a != {} && b != {} {
      var smaller, larger := if |a| <= |b| then |a| else |b|, if |a| <= |b| then |b| else |a|;
      Sizes(a, b);
      Ratio(|a * b|, |a + b|, smaller, larger);
    }
  }

  // -- near-identical calls -------------------------------------------------------------------

  datatype NearDuplicate = NearDuplicate(threshold: real, maxStreak: int, resultThreshold: real)

  /** Two calls in a row that made no progress: alike, and with results alike where both
      are known. */
  predicate Stagnant(d: NearDuplicate, newer: ToolCall, older: ToolCall) {
    && Similarity(newer.shingles, older.shingles) >= d.threshold
    && (newer.results.Some? && older.results.Some? ==>
          Similarity(newer.results.value, older.results.value) >= d.resultThreshold)
  }

  function PairSimilarity(calls: seq<ToolCall>, i: nat): real
    requires 0 < i < |calls|
  {
    Similarity(calls[i].shingles, calls[i - 1].shingles)
  }

  /** The last `n` pairs of consecutive calls were all stagnant. */
  ghost predicate Streak(d: NearDuplicate, calls: seq<ToolCall>, n: nat) {
    n < |calls| && forall i :: |calls| - n <= i < |calls| ==> Stagnant(d, calls[i], calls[i - 1])
  }

  method ResultsAgree(d: NearDuplicate, newer: ToolCall, older: ToolCall) returns (r: bool)
    ensures r == (newer.results.Some? && older.results.Some? ==>
                    Similarity(newer.results.value, older.results.value) >= d.resultThreshold)
  {
    if newer.results.None? || older.results.None? { return true; }
    PruningIsSound(newer.results.value, older.results.value, d.resultThreshold);
    return Jaccard(newer.results.value, older.results.value, d.resultThreshold) >= d.resultThreshold;
  }

  /** Trips exactly when the last `maxStreak` pairs in its window are all stagnant, and
      reports the least similarity among them. */
  method NearDuplicateObserve(d: NearDuplicate, call: ToolCall, history: seq<ToolCall>) returns (r: Option<real>)
    ensures r.Some? <==> d.maxStreak >= 1 && history != [] && Streak(d, history + [call], d.maxStreak)
    ensures r.Some? ==> var s := history + [call];
              && (forall i :: |s| - d.maxStreak <= i < |s| ==> r.value <= PairSimilarity(s, i))
              && exists i :: |s| - d.maxStreak <= i < |s| && r.value == PairSimilarity(s, i)
  {
    if d.maxStreak < 1 || history == [] { return None; }
    var s := history + [call];
    var streak: nat, weakest := 0, 1.0;
    ghost var least := |s| - 1;
    var index := |s| - 1;
    while index > 0 && streak < d.maxStreak
      invariant 0 <= index <= |s| - 1 && streak == |s| - 1 - index <= d.maxStreak
      invariant forall i :: index < i < |s| ==> Stagnant(d, s[i], s[i - 1]) && weakest <= PairSimilarity(s, i)
      invariant streak > 0 ==> index < least < |s| && weakest == PairSimilarity(s, least)
      invariant streak == 0 ==> weakest == 1.0
    {
      PruningIsSound(s[index].shingles, s[index - 1].shingles, d.threshold);
      var similarity := Jaccard(s[index].shingles, s[index - 1].shingles, d.threshold);
      if similarity < d.threshold { break; }
      var agree := ResultsAgree(d, s[index], s[index - 1]);
      if !agree { break; }
      streak := streak + 1;
      if similarity < weakest || streak == 1 { least := index; }
      weakest := if similarity < weakest then similarity else weakest;
      index := index - 1;
    }
    if streak < d.maxStreak {
      assert index > 0 ==> !Stagnant(d, s[index], s[index - 1]);
      return None;
    }
    return Some(weakest);
  }

  // -- cycles --------------------------------------------------------------------------------

  /** The last `span` fingerprints repeat with a period, and are not all one. */
  ghost predicate CyclesOver(prints: seq<string>, period: nat, span: nat) {
    && 0 < period && span <= |prints|
    && var tail := prints[|prints| - span..];
       && (forall i :: 0 <= i < span ==> tail[i] == tail[i % period])
       && (exists i, j :: 0 <= i < span && 0 <= j < span && tail[i] != tail[j])
  }

  ghost predicate Cycles(prints: seq<string>, period: nat, repeats: nat) {
    CyclesOver(prints, period, period * repeats)
  }

  method CyclesNow(prints: seq<string>, period: nat, span: nat) returns (r: bool)
    requires period > 0
    ensures r == CyclesOver(prints, period, span)
  {
    if |prints| < span { return false; }
    var tail := prints[|prints| - span..];
    var repeats := forall i :: 0 <= i < span ==> tail[i] == tail[i % period];
    var distinct := |set i | 0 <= i < span :: tail[i]|;
    DistinctCount(tail);
    return repeats && distinct >= 2;
  }

  /** The shortest period of at least two the calls cycle with. */
  method CycleObserve(maxPeriod: int, minRepeats: int, prints: seq<string>) returns (r: Option<nat>)
    ensures maxPeriod < 2 || minRepeats < 2 ==> r.None?
    ensures r.Some? ==> 2 <= r.value <= maxPeriod && Cycles(prints, r.value, minRepeats)
                        && forall p :: 2 <= p < r.value ==> !Cycles(prints, p, minRepeats)
    ensures r.None? && minRepeats >= 2 ==> forall p :: 2 <= p <= maxPeriod ==> !Cycles(prints, p, minRepeats)
  {
    hide CyclesOver;
    if maxPeriod < 2 || minRepeats < 2 { return None; }
    for period := 2 to maxPeriod + 1
      invariant forall p :: 2 <= p < period ==> !Cycles(prints, p, minRepeats)
    {
      var cycles := CyclesNow(prints, period, period * minRepeats);
      assert cycles == Cycles(prints, period, minRepeats);
      if cycles { return Some(period); }
    }
    return None;
  }

  lemma DistinctCount(tail: seq<string>)
    ensures |set i | 0 <= i < |tail| :: tail[i]| >= 2 <==> exists i, j ::
              0 <= i < |tail| && 0 <= j < |tail|
              && tail[i] != tail[j]
  {
    var all := set i | 0 <= i < |tail| :: tail[i];
    if i, j :| 0 <= i < |tail| && 0 <= j < |tail| && tail[i] != tail[j] {
      Within({tail[i], tail[j]}, all);
    } else if |tail| > 0 {
      assert all == {tail[0]};
    }
  }

  /** What the breaker gives its detectors: the last `window` calls before this one. */
  function Window(history: seq<string>, window: nat): seq<string> {
    if window == 0 || |history| <= window then history else history[|history| - window..]
  }

  /** Through the breaker, a cycle of a period can be seen only if enough repeats of it
      fit in the window and the call itself. */
  lemma CycleFits(history: seq<string>, call: string, window: nat, period: nat, repeats: nat)
    requires window > 0 && Cycles(Window(history, window) + [call], period, repeats)
    ensures period * repeats <= window + 1
  {
  }

  function Round(period: nat, i: nat): string
    requires period > 0
  {
    seq(i % period, _ => 'x')
  }

  function Rounds(period: nat, from: nat, to: nat): (r: seq<string>)
    requires period > 0 && from <= to
    ensures |r| == to - from && forall i :: 0 <= i < to - from ==> r[i] == Round(period, from + i)
  {
    seq(to - from, i requires 0 <= i < to - from => Round(period, from + i))
  }

  lemma RoundAgain(period: nat, i: nat)
    requires period > 0
    ensures i % period <= i && Round(period, i % period) == Round(period, i)
  {
  }

  lemma RoundsCycle(period: nat, span: nat)
    requires period >= 2 && span >= period
    ensures CyclesOver(Rounds(period, 0, span), period, span)
  {
    var all := Rounds(period, 0, span);
    assert |Round(period, 0)| == 0 && |Round(period, 1)| == 1;
    hide Rounds, Round;
    assert all[|all| - span..] == all;
    assert all[0] != all[1];
    forall i | 0 <= i < span ensures i % period < span && all[i] == all[i % period] {
      RoundAgain(period, i);
    }
  }

  lemma Times(p: nat, r: nat)
    requires r >= 2
    ensures p * r >= p * 2
  {
  }

  /** And whenever it fits, some history shows it. */
  lemma FittingCycleSeen(window: nat, period: nat, repeats: nat)
    requires window > 0 && period >= 2 && repeats >= 2 && period * repeats <= window + 1
    ensures exists history, call :: Cycles(Window(history, window) + [call], period, repeats)
  {
    var span := period * repeats;
    assert span >= period * 2 by { Times(period, repeats); }
    RoundsCycle(period, span);
    var all := Rounds(period, 0, span);
    hide CyclesOver, Rounds;
    var history, call := all[..span - 1], all[span - 1];
    assert Window(history, window) == history;
    assert history + [call] == all;
  }
}
