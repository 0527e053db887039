/**
 The cognitive breaker: a bounded list of trajectories sorted by last observation, each
 latched once judged to be looping.
 */
module Cognitives {
  import opened Vocabulary
  import opened Dicts
  import Detectors

  type Trajectory = string

  /** A trajectory's verdicts: the one latched, and one the semantic lane reached that
      is enforced at the next observation or check. */
  datatype Latch = Latch(tripped: bool, pending: bool)

  /** The trajectories retained, least recently observed first. */
  datatype Kept = Kept(order: seq<Trajectory>, at: map<Trajectory, Latch>)

  ghost predicate Valid(k: Kept) {
    Distinct(k.order) && forall t :: t in k.order <==> t in k.at
  }

  /** The order with a trajectory moved to its end, new there if it was unknown. */
  function Touched(k: Kept, t: Trajectory): Kept {
    Kept(Drop(k.order, {t}) + [t], k.at[t := if t in k.at then k.at[t] else Latch(false, false)])
  }

  /** Drop the least recent until no more than `limit` are left. */
  function Evicted(k: Kept, limit: nat): Kept
    decreases |k.order|
  {
    if |k.order| <= limit then k else Evicted(Kept(k.order[1..], k.at - {k.order[0]}), limit)
  }

  /** What an observation latches: what was latched, what was pending, or its own verdict. */
  function Judged(l: Latch, judged: bool): Latch {
    if l.tripped then l else Latch(l.pending || judged, false)
  }

  function Observed(k: Kept, limit: nat, t: Trajectory, judged: bool): Kept {
    var touched := Touched(k, t);
    var left := if t in k.at then touched else Evicted(touched, limit);
    left.(at := if t in left.at then left.at[t := Judged(left.at[t], judged)] else left.at)
  }

  function Checked(k: Kept, t: Trajectory): Kept {
    if t in k.at then k.(at := k.at[t := Judged(k.at[t], false)]) else k
  }

  function Reset(k: Kept, t: Trajectory): Kept {
    Kept(Drop(k.order, {t}), k.at - {t})
  }

  function Evaluated(k: Kept, t: Trajectory): Kept {
    if t in k.at && !k.at[t].tripped then k.(at := k.at[t := k.at[t].(pending := true)]) else k
  }

  class CognitiveBreaker {
    const limit: nat
    const exempt: set<string>
    var order: seq<Trajectory>
    var at: map<Trajectory, Latch>

    ghost function Value(): Kept
      reads this
    {
      Kept(order, at)
    }

    constructor (n: nat, tools: set<string>)
      ensures Value() == Kept([], map[]) && limit == n && exempt == tools
    {
      limit, exempt, order, at := n, tools, [], map[];
    }

    method Touch(t: Trajectory)
      requires Valid(Value())
      modifies this
      ensures Value() == if t in old(at) then Touched(old(Value()), t) else Evicted(Touched(old(Value()), t), limit)
      ensures Valid(Value())
    {
      TouchedValid(Value(), t);
      if t in at {
        order := Drop(order, {t}) + [t];
        assert at[t := at[t]] == at;
      } else {
        DropNone(order, {t});
        order, at := order + [t], at[t := Latch(false, false)];
        ghost var touched := Value();
        while |order| > limit
          invariant Evicted(Value(), limit) == Evicted(touched, limit) && Valid(Value())
          decreases |order|
        {
          EvictOne(Value());
          order, at := order[1..], at - {order[0]};
        }
      }
    }

    /** Record a call and refuse it if its trajectory is latched, was since judged by the
        semantic lane, or is judged now (`judged` is the inline detectors' verdict). */
    method Observe(t: Trajectory, tool: string, judged: bool) returns (refused: bool)
      requires Valid(Value())
      modifies this
      ensures Valid(Value())
      ensures tool in exempt ==> !refused && Value() == old(Value())
      ensures tool !in exempt ==> Value() == Observed(old(Value()), limit, t, judged)
      ensures tool !in exempt ==> refused == (judged || (t in old(at) && (old(at)[t].tripped || old(at)[t].pending)))
    {
      if tool in exempt { return false; }
      var latch := if t in at then at[t] else Latch(false, false);
      Touch(t);
      EvictedSame(Touched(old(Value()), t), limit);
      var verdict := if latch.tripped then true else if latch.pending then true else judged;
      if t in at { at := at[t := Judged(latch, judged)]; }
      return verdict;
    }

    method Check(t: Trajectory) returns (refused: bool)
      requires Valid(Value())
      modifies this
      ensures Valid(Value()) && Value() == Checked(old(Value()), t)
      ensures refused == (t in old(at) && (old(at)[t].tripped || old(at)[t].pending))
    {
      if t !in at { return false; }
      var latch := at[t];
      if !latch.tripped && latch.pending {
        at := at[t := Latch(true, false)];
        return true;
      }
      assert at[t := at[t]] == at;
      return latch.tripped;
    }

    /** Forget a trajectory: it is no longer retained or latched, and every other is as it
        was, with the same ones after it but for this one. */
    method ResetTrajectory(t: Trajectory)
      requires Valid(Value())
      modifies this
      ensures Valid(Value()) && Value() == Reset(old(Value()), t)
      ensures t !in at && (forall x :: x != t ==> (x in at <==> x in old(at)) && (x in at ==> at[x] == old(at)[x]))
      ensures forall x :: x in order ==> Members(After(order, x)) == Members(After(old(order), x)) - {t}
    {
      forall x | x in order && x != t ensures Members(After(Drop(order, {t}), x)) == Members(After(order, x)) - {t} {
        AfterDrop(order, x, t);
        DropGone(After(order, x), t);
      }
      DropDistinct(order, {t});
      order, at := Drop(order, {t}), at - {t};
    }

    /** A verdict of the semantic lane, kept for the next observation or check. */
    method Evaluate(t: Trajectory)
      requires Valid(Value())
      modifies this
      ensures Valid(Value()) && Value() == Evaluated(old(Value()), t)
    {
      if t in at && !at[t].tripped && !at[t].pending { at := at[t := at[t].(pending := true)]; }
      assert t in at ==> at[t := at[t]] == at;
    }
  }

  lemma TouchedValid(k: Kept, t: Trajectory)
    requires Valid(k)
    ensures Valid(Touched(k, t))
  {
    hide Drop;
    DropDistinct(k.order, {t});
    DistinctAppend(Drop(k.order, {t}), [t]);
  }

  lemma EvictOne(k: Kept)
    requires Valid(k) && |k.order| > 0
    ensures Valid(Kept(k.order[1..], k.at - {k.order[0]}))
  {
    var rest := k.order[1..];
    assert forall i :: 0 <= i < |rest| ==> rest[i] == k.order[i + 1];
    assert k.order == [k.order[0]] + rest;
  }

  lemma {:induction false} EvictedSame(k: Kept, limit: nat)
    ensures forall t :: t in Evicted(k, limit).at ==> t in k.at && Evicted(k, limit).at[t] == k.at[t]
    decreases |k.order|
  {
    if |k.order| > limit { EvictedSame(Kept(k.order[1..], k.at - {k.order[0]}), limit); }
  }

  // -- runs -----------------------------------------------------------------------------

  /** What can happen to a breaker; calls of exempt tools change nothing. */
  datatype Event = Observe(t: Trajectory,
                           judged: bool) | Check(t: Trajectory) | ResetIt(t: Trajectory) | Evaluate(t: Trajectory)

  function Next(k: Kept, limit: nat, e: Event): Kept {
    match e
    case Observe(t, judged) => Observed(k, limit, t, judged)
    case Check(t) => Checked(k, t)
    case ResetIt(t) => Reset(k, t)
    case Evaluate(t) => Evaluated(k, t)
  }

  function Play(limit: nat, events: seq<Event>): Kept {
    if |events| == 0 then Kept([], map[]) else Next(Play(limit, events[..|events| - 1]), limit, events[|events| - 1])
  }

  /** The other trajectories observed since a trajectory was last observed. */
  function Others(events: seq<Event>, t: Trajectory): set<Trajectory> {
    if |events| == 0 then {}
    else
      var before, e := Others(events[..|events| - 1], t), events[|events| - 1];
      if !e.Observe? then before else if e.t == t then {} else before + {e.t}
  }

  /** What comes after a trajectory in the order. */
  function After(order: seq<Trajectory>, t: Trajectory): seq<Trajectory> {
    if |order| == 0 || order[|order| - 1] == t then []
    else After(order[..|order| - 1], t) + [order[|order| - 1]]
  }

  lemma AfterAppend(order: seq<Trajectory>, t: Trajectory, x: Trajectory)
    ensures After(order + [x], t) == if x == t then [] else After(order, t) + [x]
  {
    assert (order + [x])[..|order|] == order;
  }

  lemma {:induction false} AfterDrop(order: seq<Trajectory>, t: Trajectory, x: Trajectory)
    requires x != t
    ensures After(Drop(order, {x}), t) == Drop(After(order, t), {x})
  {
    if |order| > 0 {
      var init, last := order[..|order| - 1], order[|order| - 1];
      AfterDrop(init, t, x);
      if last != x { AfterAppend(Drop(init, {x}), t, last); }
      if last != t {
        var a := After(init, t) + [last];
        assert a[..|a| - 1] == After(init, t);
      }
    }
  }

  /** A trajectory's place in the order, counted from the end. */
  lemma {:induction false} AfterPlace(order: seq<Trajectory>, t: Trajectory)
    requires Distinct(order) && t in order
    ensures |After(order, t)| < |order| && order[|order| - 1 - |After(order, t)|] == t
    ensures forall x :: x in After(order, t) ==> x in order && x != t
    ensures Distinct(After(order, t))
  {
    var init, last := order[..|order| - 1], order[|order| - 1];
    if last != t {
      AfterPlace(init, t);
      assert last !in init;
      assert last !in After(init, t);
    }
  }

  function Members(s: seq<Trajectory>): set<Trajectory> { set x | x in s }

  lemma {:induction false} MembersCount(s: seq<Trajectory>)
    requires Distinct(s)
    ensures |Members(s)| == |s|
  {
    if |s| > 0 {
      var init, last := s[..|s| - 1], s[|s| - 1];
      MembersCount(init);
      assert Members(s) == Members(init) + {last};
      assert last !in init;
    }
  }

  /** Evicting keeps the last `limit` of the order. */
  lemma {:induction false} EvictedOrder(k: Kept, limit: nat)
    requires Valid(k)
    ensures Valid(Evicted(k, limit))
    ensures Evicted(k, limit).order == if |k.order| <= limit then k.order else k.order[|k.order| - limit..]
    decreases |k.order|
  {
    if |k.order| > limit {
      EvictOne(k);
      EvictedOrder(Kept(k.order[1..], k.at - {k.order[0]}), limit);
    }
  }

  lemma {:induction false} AfterSuffix(order: seq<Trajectory>, t: Trajectory, n: nat)
    requires Distinct(order) && n <= |order| && t in order
    ensures t in order[n..] <==> |After(order, t)| < |order| - n
    ensures t in order[n..] ==> After(order[n..], t) == After(order, t)
  {
    AfterPlace(order, t);
    var p := |order| - 1 - |After(order, t)|;
    if p >= n {
      assert order[n..][p - n] == t;
      SuffixAfter(order, t, n);
    } else {
      assert forall i :: 0 <= i < |order[n..]| ==> order[n..][i] == order[n + i];
    }
  }

  lemma {:induction false} SuffixAfter(order: seq<Trajectory>, t: Trajectory, n: nat)
    requires n <= |order| && t in order[n..]
    ensures After(order[n..], t) == After(order, t)
  {
    var suffix := order[n..];
    if suffix[|suffix| - 1] != t {
      var init := order[..|order| - 1];
      assert suffix[..|suffix| - 1] == init[n..];
      assert suffix == init[n..] + [suffix[|suffix| - 1]];
      SuffixAfter(init, t, n);
    }
  }

  lemma NextValid(k: Kept, limit: nat, e: Event)
    requires Valid(k) && |k.order| <= limit
    ensures Valid(Next(k, limit, e)) && |Next(k, limit, e).order| <= limit
  {
    hide Drop;
    match e
    case Observe(t, judged) =>
      TouchedValid(k, t);
      EvictedOrder(Touched(k, t), limit);
      if t in k.at { TouchedSize(k, t); }
    case ResetIt(t) =>
      DropDistinct(k.order, {t});
      DropSize(k.order, {t});
    case _ =>
  }

  lemma {:induction false} DropSize(ks: seq<Trajectory>, gone: set<Trajectory>)
    ensures |Drop(ks, gone)| <= |ks| && ((exists k :: k in ks && k in gone) ==> |Drop(ks, gone)| < |ks|)
  {
    if |ks| > 0 { DropSize(ks[..|ks| - 1], gone); }
  }

  lemma TouchedSize(k: Kept, t: Trajectory)
    requires Valid(k) && t in k.at
    ensures |Touched(k, t).order| <= |k.order|
  {
    DropSize(k.order, {t});
  }

  lemma {:induction false} PlayValid(limit: nat, events: seq<Event>)
    ensures Valid(Play(limit, events)) && |Play(limit, events).order| <= limit
  {
    if |events| > 0 {
      PlayValid(limit, events[..|events| - 1]);
      NextValid(Play(limit, events[..|events| - 1]), limit, events[|events| - 1]);
    }
  }

  lemma OthersAppend(events: seq<Event>, e: Event, t: Trajectory)
    ensures Others(events + [e], t) == if !e.Observe? then Others(events, t) else if e.t == t then {}
              else Others(events, t) + {e.t}
  {
    var all := events + [e];
    assert all[..|all| - 1] == events;
  }

  lemma PlayAppend(limit: nat, events: seq<Event>, e: Event)
    ensures Play(limit, events + [e]) == Next(Play(limit, events), limit, e)
  {
    var all := events + [e];
    assert all[..|all| - 1] == events;
  }

  /** The order after an observation: the observed trajectory last, the rest as they were,
      cut to the limit only if it was not there. */
  lemma ObservedOrder(k: Kept, limit: nat, x: Trajectory, judged: bool)
    requires Valid(k)
    ensures var order := Drop(k.order, {x}) + [x];
            && Distinct(order)
            && Observed(k, limit, x, judged).order
               == (if x in k.at || |order| <= limit then order else order[|order| - limit..])
    ensures x !in k.at ==> Drop(k.order, {x}) == k.order
  {
    TouchedValid(k, x);
    EvictedOrder(Touched(k, x), limit);
    if x !in k.at { DropNone(k.order, {x}); }
  }

  /** Moving another trajectory to the end moves it after this one. */
  lemma MovedAfter(order: seq<Trajectory>, t: Trajectory, x: Trajectory)
    requires t in order && x != t
    ensures var moved := Drop(order, {x}) + [x]; t in moved && After(moved, t) == Drop(After(order, t), {x}) + [x]
  {
    hide Drop, After;
    AfterDrop(order, t, x);
    AfterAppend(Drop(order, {x}), t, x);
    assert t in Drop(order, {x});
  }

  /** Cutting an order to its last `limit` keeps a trajectory with fewer than that after it. */
  lemma CutAfter(order: seq<Trajectory>, t: Trajectory, limit: nat)
    requires Distinct(order) && t in order
    ensures var o := if |order| <= limit then order else order[|order| - limit..];
            (t in o <==> |After(order, t)| < limit) && (t in o ==> After(o, t) == After(order, t))
  {
    hide After;
    AfterPlace(order, t);
    hide Distinct;
    if |order| > limit { AfterSuffix(order, t, |order| - limit); }
  }

  /** Where an observation of another leaves a trajectory. */
  lemma ObservedAfter(k: Kept, limit: nat, x: Trajectory, judged: bool, t: Trajectory)
    requires Valid(k) && |k.order| <= limit && t in k.order && x != t
    ensures var o := Observed(k, limit, x, judged).order; var after := Drop(After(k.order, t), {x}) + [x];
            && (t in o <==> |after| < limit)
            && (t in o ==> After(o, t) == after)
  {
    hide Drop, After, Observed, Distinct;
    ObservedOrder(k, limit, x, judged);
    MovedAfter(k.order, t, x);
    CutAfter(Drop(k.order, {x}) + [x], t, limit);
    if x in k.at { DropSize(k.order, {x}); }
  }

  lemma DropMembers(s: seq<Trajectory>, x: Trajectory)
    ensures Members(Drop(s, {x}) + [x]) == Members(s) + {x}
  {
  }

  /** What comes after a trajectory was observed since it was. */
  lemma {:induction false} AfterWithin(limit: nat, events: seq<Event>, t: Trajectory)
    ensures t in Play(limit, events).order ==> Members(After(Play(limit, events).order, t)) <= Others(events, t)
  {
    hide Drop, After, Observed, Members;
    if |events| > 0 {
      var init, e := events[..|events| - 1], events[|events| - 1];
      AfterWithin(limit, init, t);
      PlayValid(limit, init);
      WithinStep(Play(limit, init), limit, e, t, Others(init, t));
    } else {
      NoneAfter(t);
    }
  }

  lemma NoneAfter(t: Trajectory)
    ensures After([], t) == [] && Members([]) == {}
  {
  }

  lemma WithinStep(k: Kept, limit: nat, e: Event, t: Trajectory, others: set<Trajectory>)
    requires Valid(k) && |k.order| <= limit && (t in k.order ==> Members(After(k.order, t)) <= others)
    ensures var n := Next(k, limit, e).order;
            t in n ==> Members(After(n, t)) <= if !e.Observe? then others else if e.t == t then {} else others + {e.t}
  {
    hide Drop, After, Observed, Members;
    match e
    case Observe(x, judged) =>
      ObservedOrder(k, limit, x, judged);
      if x == t {
        ObservedSelf(k, limit, t, judged);
        NoneAfter(t);
      } else if t in k.order {
        ObservedAfter(k, limit, x, judged, t);
        DropMembers(After(k.order, t), x);
      } else {
        NotBack(k, limit, x, judged, t);
      }
    case ResetIt(x) =>
      if x != t {
        AfterDrop(k.order, t, x);
        DropWithin(After(k.order, t), x);
      }
    case _ =>
  }

  lemma ObservedSelf(k: Kept, limit: nat, t: Trajectory, judged: bool)
    requires Valid(k) && |k.order| <= limit
    ensures var o := Observed(k, limit, t, judged).order; (t in o <==> limit > 0) && (t in o ==> After(o, t) == [])
  {
    hide Drop, Observed;
    ObservedOrder(k, limit, t, judged);
    var o, order := Observed(k, limit, t, judged).order, Drop(k.order, {t}) + [t];
    if |o| > 0 { assert o[|o| - 1] == t; }
  }

  lemma NotBack(k: Kept, limit: nat, x: Trajectory, judged: bool, t: Trajectory)
    requires Valid(k) && t !in k.order && x != t
    ensures t !in Observed(k, limit, x, judged).order
  {
    hide Observed;
    ObservedOrder(k, limit, x, judged);
    assert t !in Drop(k.order, {x}) + [x];
  }

  lemma DropWithin(s: seq<Trajectory>, x: Trajectory)
    ensures Members(Drop(s, {x})) <= Members(s)
  {
  }

  // -- the latch ------------------------------------------------------------------------------

  predicate Latched(k: Kept, t: Trajectory) { t in k.at && k.at[t].tripped }

  lemma LatchStep(limit: nat, events: seq<Event>, e: Event, t: Trajectory)
    requires Latched(Play(limit, events), t) && e != ResetIt(t) && |Others(events + [e], t)| < limit
    ensures Latched(Play(limit, events + [e]), t)
  {
    hide Drop, After, Others, Members;
    var k := Play(limit, events);
    PlayAppend(limit, events, e);
    PlayValid(limit, events);
    hide Play;
    if e.Observe? && e.t != t && e.t !in k.at {
      AfterWithin(limit, events, t);
      OthersAppend(events, e, t);
      LatchKept(k, limit, e.t, e.judged, t, Others(events, t));
    }
  }

  lemma LatchKept(k: Kept, limit: nat, x: Trajectory, judged: bool, t: Trajectory, others: set<Trajectory>)
    requires Valid(k) && |k.order| <= limit && Latched(k, t) && x != t && x !in k.at
    requires Members(After(k.order, t)) <= others && |others + {x}| < limit
    ensures Latched(Observed(k, limit, x, judged), t)
  {
    hide Drop, After, Members;
    ObservedAfter(k, limit, x, judged, t);
    var after := Drop(After(k.order, t), {x}) + [x];
    DropMembers(After(k.order, t), x);
    AfterPlace(k.order, t);
    DropDistinct(After(k.order, t), {x});
    DistinctAppend(Drop(After(k.order, t), {x}), [x]);
    MembersCount(after);
    Detectors.Within(Members(after), others + {x});
    TouchedValid(k, x);
    EvictedOrder(Touched(k, x), limit);
    EvictedSame(Touched(k, x), limit);
  }

  /** The latch outlives everything but a reset of its trajectory, or as many others
      observed since it as the limit; so until then every check and observation refuses. */
  lemma {:induction false} LatchHolds(limit: nat, events: seq<Event>, more: seq<Event>, t: Trajectory)
    requires Latched(Play(limit, events), t)
    requires forall i :: 0 <= i < |more| ==> more[i] != ResetIt(t)
    requires forall i :: 0 <= i <= |more| ==> |Others(events + more[..i], t)| < limit
    ensures Latched(Play(limit, events + more), t)
  {
    hide Play, Others, Latched;
    if |more| == 0 {
      assert events + more == events;
    } else {
      var init, e := more[..|more| - 1], more[|more| - 1];
      forall i | 0 <= i <= |init| ensures |Others(events + init[..i], t)| < limit { assert init[..i] == more[..i]; }
      LatchHolds(limit, events, init, t);
      assert events + init + [e] == events + more && more[..|more|] == more;
      LatchStep(limit, events + init, e, t);
    }
  }

  // -- exactly which trajectories are retained ------------------------------------------------------

  /** The others observed since a trajectory was, and not reset since they were. */
  function Rivals(events: seq<Event>, t: Trajectory): set<Trajectory> {
    if |events| == 0 then {}
    else
      var before, e := Rivals(events[..|events| - 1], t), events[|events| - 1];
      match e
      case Observe(x, _) => if x == t then {} else before + {x}
      case ResetIt(x) => before - {x}
      case _ => before
  }

  /** Observed at `i`, not reset since, and never with as many rivals as the limit since. */
  ghost predicate StaysFrom(limit: nat, events: seq<Event>, t: Trajectory, i: nat) {
    && i < |events| && events[i].Observe? && events[i].t == t
    && (forall k :: i < k < |events| ==> events[k] != ResetIt(t))
    && (forall j :: i < j <= |events| ==> |Rivals(events[..j], t)| < limit)
  }

  ghost predicate Stays(limit: nat, events: seq<Event>, t: Trajectory) {
    exists i :: StaysFrom(limit, events, t, i)
  }

  /** Exactly which trajectories are retained, resets and all: those observed after their
      last reset, with fewer rivals than the limit at every moment since.  What comes
      after one in the order is exactly its rivals. */
  lemma {:induction false} RetainedExactly(limit: nat, events: seq<Event>, t: Trajectory)
    ensures t in Play(limit, events).order <==> Stays(limit, events, t)
    ensures t in Play(limit, events).order ==> Members(After(Play(limit, events).order, t)) == Rivals(events, t)
  {
    if |events| > 0 {
      var init, e := events[..|events| - 1], events[|events| - 1];
      var k := Play(limit, init);
      RetainedExactly(limit, init, t);
      PlayValid(limit, init);
      hide Drop, After, Observed, Members, Stays;
      if e.Observe? && e.t == t {
        ObservedSelf(k, limit, t, e.judged);
        NoneAfter(t);
        StaysNow(limit, events, t);
      } else if e == ResetIt(t) {
        NoneAfterReset(limit, events, t);
      } else {
        RivalStep(k, limit, e, t, Rivals(init, t));
        StaysOn(limit, events, t);
      }
    }
  }

  lemma StaysNow(limit: nat, events: seq<Event>, t: Trajectory)
    requires |events| > 0 && events[|events| - 1].Observe? && events[|events| - 1].t == t
    ensures limit > 0 <==> Stays(limit, events, t)
    ensures Rivals(events, t) == {}
  {
    assert events[..|events|] == events;
    if limit > 0 {
      assert StaysFrom(limit, events, t, |events| - 1);
    }
  }

  lemma NoneAfterReset(limit: nat, events: seq<Event>, t: Trajectory)
    requires |events| > 0 && events[|events| - 1] == ResetIt(t)
    ensures !Stays(limit, events, t)
  {
  }

  /** An event that neither observes nor resets a trajectory: it stays if it stayed, and
      its rivals are still too few. */
  lemma StaysOn(limit: nat, events: seq<Event>, t: Trajectory)
    requires |events| > 0
    requires var e := events[|events| - 1]; !(e.Observe? && e.t == t) && e != ResetIt(t)
    ensures Stays(limit, events, t) <==> Stays(limit, events[..|events| - 1], t) && |Rivals(events, t)| < limit
  {
    hide StaysFrom, Rivals;
    var init := events[..|events| - 1];
    forall i: nat ensures StaysFrom(limit, events, t, i) <==>
          StaysFrom(limit, init, t, i)
          && |Rivals(events, t)| < limit {
      StaysOnFrom(limit, events, t, i);
    }
  }

  lemma StaysOnFrom(limit: nat, events: seq<Event>, t: Trajectory, i: nat)
    requires |events| > 0
    requires var e := events[|events| - 1]; !(e.Observe? && e.t == t) && e != ResetIt(t)
    ensures StaysFrom(limit, events, t, i) <==>
              StaysFrom(limit, events[..|events| - 1], t, i)
              && |Rivals(events, t)| < limit
  {
    hide Rivals;
    var init := events[..|events| - 1];
    assert events[..|events|] == events;
    assert forall j :: 0 <= j <= |init| ==> init[..j] == events[..j];
    if StaysFrom(limit, init, t, i) && |Rivals(events, t)| < limit {
      forall j | i < j <= |events| ensures |Rivals(events[..j], t)| < limit {
        if j < |events| { assert init[..j] == events[..j]; }
      }
    }
  }

  lemma RivalStep(k: Kept, limit: nat, e: Event, t: Trajectory, rivals: set<Trajectory>)
    requires Valid(k) && |k.order| <= limit && !(e.Observe? && e.t == t) && e != ResetIt(t)
    requires t in k.order ==> Members(After(k.order, t)) == rivals
    ensures var n, now := Next(k, limit, e).order,
              match e case Observe(x, _) => rivals + {x} case ResetIt(x) => rivals - {x} case _ => rivals;
            (t in n <==> t in k.order && |now| < limit) && (t in n ==> Members(After(n, t)) == now)
  {
    hide Drop, After, Observed, Members;
    if t in k.order { FewRivals(k, limit, t); }
    match e
    case Observe(x, judged) =>
      if t in k.order { ExactStep(k, limit, x, judged, t, rivals); } else { NotBack(k, limit, x, judged, t); }
    case ResetIt(x) =>
      AfterDrop(k.order, t, x);
      DropGone(After(k.order, t), x);
      Detectors.Within(rivals - {x}, rivals);
    case _ =>
  }

  lemma FewRivals(k: Kept, limit: nat, t: Trajectory)
    requires Valid(k) && |k.order| <= limit && t in k.order
    ensures |Members(After(k.order, t))| < limit
  {
    AfterPlace(k.order, t);
    MembersCount(After(k.order, t));
  }

  lemma DropGone(s: seq<Trajectory>, x: Trajectory)
    ensures Members(Drop(s, {x})) == Members(s) - {x}
  {
  }

  const FOUR := [Observe("a", false), Observe("b", false), ResetIt("b"), Observe("c", false)]

  lemma FourRivals(j: nat)
    requires 0 < j <= 4
    ensures Rivals(FOUR[..j], "a") == if j == 2 then {"b"} else if j == 4 then {"c"} else {}
  {
    if j > 1 {
      FourRivals(j - 1);
      assert FOUR[..j][..j - 1] == FOUR[..j - 1];
    } else {
      assert FOUR[..1] == [FOUR[0]];
    }
  }

  lemma FourOthers(j: nat)
    requires 0 < j <= 4
    ensures Others(FOUR[..j], "a") == if j == 1 then {} else if j == 4 then {"b", "c"} else {"b"}
  {
    if j > 1 {
      FourOthers(j - 1);
      assert FOUR[..j][..j - 1] == FOUR[..j - 1];
    } else {
      assert FOUR[..1] == [FOUR[0]];
    }
  }

  /** Counting every other observed since would be wrong once one was reset: here two
      were, the limit is two, and the first is still retained. */
  lemma ResetsMatter()
    ensures "a" in Play(2, FOUR).order && |Others(FOUR, "a")| == 2 && |Rivals(FOUR, "a")| == 1
  {
    hide Play, Rivals, Others, After, Members;
    assert FOUR[..4] == FOUR;
    FourRivals(4);
    FourOthers(4);
    forall j | 0 < j <= 4 ensures |Rivals(FOUR[..j], "a")| < 2 { FourRivals(j); }
    assert StaysFrom(2, FOUR, "a", 0);
    RetainedExactly(2, FOUR, "a");
  }

  ghost predicate Seen(events: seq<Event>, t: Trajectory) {
    exists i :: 0 <= i < |events| && events[i].Observe? && events[i].t == t
  }

  ghost predicate NoResets(events: seq<Event>) { forall i :: 0 <= i < |events| ==> !events[i].ResetIt? }

  /** Without resets that is simply while fewer others than the limit were observed since. */
  lemma {:induction false} RetainedWithoutResets(limit: nat, events: seq<Event>, t: Trajectory)
    requires NoResets(events) && Seen(events, t)
    ensures var k := Play(limit, events);
            && (t in k.order <==> |Others(events, t)| < limit)
            && (t in k.order ==> Members(After(k.order, t)) == Others(events, t))
  {
    var init, e := events[..|events| - 1], events[|events| - 1];
    var k := Play(limit, init);
    PlayValid(limit, init);
    if e.Observe? && e.t == t {
      hide Drop, After, Observed, Members;
      ObservedSelf(k, limit, t, e.judged);
      NoneAfter(t);
    } else {
      SeenBefore(events, t);
      RetainedWithoutResets(limit, init, t);
      hide Drop, After, Observed, Members, Seen;
      if e.Observe? {
        ExactStep(k, limit, e.t, e.judged, t, Others(init, t));
      }
    }
  }

  lemma SeenBefore(events: seq<Event>, t: Trajectory)
    requires |events| > 0 && Seen(events, t) && !(events[|events| - 1].Observe? && events[|events| - 1].t == t)
    ensures Seen(events[..|events| - 1], t)
  {
    var i :| 0 <= i < |events| && events[i].Observe? && events[i].t == t;
    assert events[..|events| - 1][i] == events[i];
  }

  lemma ExactStep(k: Kept, limit: nat, x: Trajectory, judged: bool, t: Trajectory, others: set<Trajectory>)
    requires Valid(k) && |k.order| <= limit && x != t
    requires t in k.order <==> |others| < limit
    requires t in k.order ==> Members(After(k.order, t)) == others
    ensures var o := Observed(k, limit, x, judged).order;
            && (t in o <==> |others + {x}| < limit)
            && (t in o ==> Members(After(o, t)) == others + {x})
  {
    hide Drop, After, Observed, Members;
    if t in k.order {
      ObservedAfter(k, limit, x, judged, t);
      var after := Drop(After(k.order, t), {x}) + [x];
      DropMembers(After(k.order, t), x);
      AfterPlace(k.order, t);
      DropDistinct(After(k.order, t), {x});
      DistinctAppend(Drop(After(k.order, t), {x}), [x]);
      MembersCount(after);
    } else {
      NotBack(k, limit, x, judged, t);
      Detectors.Within(others, others + {x});
    }
  }

  // -- what is refused ---------------------------------------------------------------------------

  /** The event at `i` finds the trajectory looping: its own detectors, or the semantic
      lane while it is retained. */
  predicate Finds(limit: nat, events: seq<Event>, i: nat, t: Trajectory)
    requires i < |events|
  {
    events[i] == Observe(t, true) || (events[i] == Evaluate(t) && t in Play(limit, events[..i]).at)
  }

  /** The trajectory has been retained ever since the event at `i`. */
  ghost predicate RetainedSince(limit: nat, events: seq<Event>, i: nat, t: Trajectory) {
    forall j :: i < j <= |events| ==> t in Play(limit, events[..j]).at
  }

  /** It was found looping, and has been retained since. */
  ghost predicate Found(limit: nat, events: seq<Event>, t: Trajectory) {
    exists i :: 0 <= i < |events| && Finds(limit, events, i, t) && RetainedSince(limit, events, i, t)
  }

  lemma RetainedMore(limit: nat, events: seq<Event>, i: nat, t: Trajectory)
    requires |events| > 0 && i < |events|
    ensures var init := events[..|events| - 1];
            RetainedSince(limit, events, i, t)
            <==> t in Play(limit, events).at && (i < |init| ==> RetainedSince(limit, init, i, t))
  {
    hide Play;
    var init := events[..|events| - 1];
    assert events[..|events|] == events;
    forall j | i < j <= |init| ensures events[..j] == init[..j] {
    }
    if t in Play(limit, events).at && (i < |init| ==> RetainedSince(limit, init, i, t)) {
      forall j | i < j <= |events| ensures t in Play(limit, events[..j]).at {
        if j <= |init| { assert events[..j] == init[..j]; }
      }
    }
    if RetainedSince(limit, events, i, t) {
      forall j | i < j <= |init| ensures t in Play(limit, init[..j]).at { assert events[..j] == init[..j]; }
    }
  }

  lemma FoundMore(limit: nat, events: seq<Event>, t: Trajectory)
    requires |events| > 0
    ensures var init := events[..|events| - 1];
            Found(limit, events, t)
            <==> t in Play(limit, events).at && (Found(limit, init, t) || Finds(limit, events, |events| - 1, t))
  {
    hide Play, RetainedSince;
    var init, n := events[..|events| - 1], |events| - 1;
    if Found(limit, events, t) {
      var i :| 0 <= i < |events| && Finds(limit, events, i, t) && RetainedSince(limit, events, i, t);
      RetainedMore(limit, events, i, t);
      if i < n { SameFinds(limit, events, i, t); }
    }
    if t in Play(limit, events).at && Found(limit, init, t) {
      var i :| 0 <= i < |init| && Finds(limit, init, i, t) && RetainedSince(limit, init, i, t);
      RetainedMore(limit, events, i, t);
      SameFinds(limit, events, i, t);
    }
    if t in Play(limit, events).at && Finds(limit, events, n, t) { RetainedMore(limit, events, n, t); }
  }

  lemma SameFinds(limit: nat, events: seq<Event>, i: nat, t: Trajectory)
    requires |events| > 0 && i < |events| - 1
    ensures Finds(limit, events, i, t) <==> Finds(limit, events[..|events| - 1], i, t)
  {
    assert events[..|events| - 1][..i] == events[..i];
  }

  /** How an event changes whether a retained trajectory is refused. */
  lemma FlagStep(k: Kept, limit: nat, e: Event, t: Trajectory)
    requires Valid(k) && t in Next(k, limit, e).at
    ensures var l := Next(k, limit, e).at[t];
            (l.tripped || l.pending) <==>
              (t in k.at && (k.at[t].tripped || k.at[t].pending))
              || e == Observe(t, true) || (e == Evaluate(t) && t in k.at)
  {
    hide Drop;
    if e.Observe? { EvictedSame(Touched(k, e.t), limit); }
    hide Evicted;
  }

  /** A retained trajectory is refused at its next call or check if and only if it was found
      looping, by its detectors or by the semantic lane, and has been retained since: once
      found, it stays refused until it is reset or evicted, and none other is. */
  lemma {:induction false} RefusedExactly(limit: nat, events: seq<Event>, t: Trajectory)
    requires t in Play(limit, events).at
    ensures var l := Play(limit, events).at[t]; (l.tripped || l.pending) <==> Found(limit, events, t)
  {
    hide Next, Found, Finds;
    if |events| > 0 {
      var init, e := events[..|events| - 1], events[|events| - 1];
      var k := Play(limit, init);
      PlayValid(limit, init);
      FlagStep(k, limit, e, t);
      FoundMore(limit, events, t);
      if t in k.at { RefusedExactly(limit, init, t); }
      NotKeptNotFound(limit, init, t);
      FindsNow(limit, events, t);
    }
  }

  lemma NotKeptNotFound(limit: nat, events: seq<Event>, t: Trajectory)
    ensures t !in Play(limit, events).at ==> !Found(limit, events, t)
  {
    hide Play, Finds;
    assert events[..|events|] == events;
  }

  lemma FindsNow(limit: nat, events: seq<Event>, t: Trajectory)
    requires |events| > 0
    ensures var e, init := events[|events| - 1], events[..|events| - 1];
            Finds(limit, events, |events| - 1, t)
            <==> e == Observe(t, true) || (e == Evaluate(t) && t in Play(limit, init).at)
  {
    hide Play;
  }
}
