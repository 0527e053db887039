/**
 Blocks of operations that stand or fall together.  Of a failed block only the trips its
 operations recorded remain, written anew over the state from before it.
 */
module Transactions {
  import opened Vocabulary
  import opened Engine
  import opened Replays
  import opened Posts
  import opened Managers
  import opened Governance
  import opened Stores
  import Progress
  import Overdrafts
  import Effects

  /** A ledger with no store: its run of commits, the authorizations open in it, and the
      sequence of the result entry of each call made under a key. */
  datatype Session = Session(g: Governed, auths: map<Id, Entry>, keys: map<string, nat>)

  /** An operation, perhaps under a key, and which of its entries is its result. */
  datatype Call = Call(ev: Event, key: Option<string>, result: nat)

  datatype Config = Config(env: Env, policy: Policy, unit: Unit)

  function At(f: Config, g: Governed): Env {
    Writing(f.env, Flat(g.batches))
  }

  ghost function Wrote(f: Config, s: Session, call: Call): seq<Entry>
    requires Drawn(call.ev)
  {
    if call.key.Some? && call.key.value in s.keys then [] else Perform(At(f, s.g), f.policy, s.g.c, call.ev).1
  }

  /** One operation of the block.  A retry under a key already answered writes nothing. */
  ghost function Make(f: Config, s: Session, call: Call): Session
    requires Drawn(call.ev)
  {
    var es := Wrote(f, s, call);
    if es == [] then s
    else
      var c := Perform(At(f, s.g), f.policy, s.g.c, call.ev).0;
      var sequence := |Flat(s.g.batches)| + 1 + (if call.result < |es| then call.result else 0);
      Session(Governed(c, s.g.batches + [es]), c.holds.open.at,
              if call.key.Some? then s.keys[call.key.value := sequence] else s.keys)
  }

  /** The trip an operation made when it refused its caller, or was asked to make. */
  ghost function Recorded(f: Config, s: Session, call: Call): seq<(Scope, string)>
    requires Drawn(call.ev)
  {
    var own := call.ev.op.TripScope? || PlanOf(At(f, s.g), f.policy, s.g.c, call.ev.op).Deny?;
    var es := Wrote(f, s, call);
    if own && es != [] then [(es[0].scope, es[0].memo)] else []
  }

  ghost predicate AllDrawn(calls: seq<Call>) { forall i :: 0 <= i < |calls| ==> Drawn(calls[i].ev) }

  /** What a block did, and the trips it recorded. */
  ghost function Block(f: Config, s: Session, calls: seq<Call>): (Session, seq<(Scope, string)>)
    requires AllDrawn(calls)
  {
    if |calls| == 0 then (s, [])
    else
      var (before, trips) := Block(f, s, calls[..|calls| - 1]);
      var last := calls[|calls| - 1];
      (Make(f, before, last), trips + Recorded(f, before, last))
  }

  /** The session a replay of the first `n` entries gives, with the key records up to there. */
  ghost function Rewind(f: Config, s: Session, n: nat, batches: seq<seq<Entry>>): Result<Session>
    requires n <= |Flat(s.g.batches)|
  {
    var kept := Flat(s.g.batches)[..n];
    var c :- Replay(Replaying(f.env, kept), f.unit, kept);
    Ok(Session(Governed(c, batches), c.holds.open.at, map k | k in s.keys && s.keys[k] <= n :: s.keys[k]))
  }

  /** A session with trips asked for one after another. */
  ghost function Retrip(f: Config, s: Session, trips: seq<(Scope, string)>, stamps: seq<Stamp>): Session
    requires |trips| <= |stamps| && forall i :: 0 <= i < |stamps| ==> |stamps[i].ids| >= 2
  {
    if |trips| == 0 then s
    else
      var n := |trips| - 1;
      Make(f, Retrip(f, s, trips[..n], stamps),
            Call(Event(TripScope(trips[n].0, trips[n].1), stamps[n], stamps[n]), None, 0))
  }

  // -- what a session keeps ------------------------------------------------------------

  ghost predicate Consistent(f: Config, s: Session) {
    && Posted(f.env, EmptyChain(f.unit), s.g.batches) == Ok(s.g.c)
    && s.auths == s.g.c.holds.open.at
    && (forall k :: k in s.keys ==> s.keys[k] <= |Flat(s.g.batches)|)
    && Hashed(f.env, Flat(s.g.batches))
  }

  /** One more commit of entries the rules accept, each carrying its hash. */
  lemma CommitKeeps(f: Config, s: Session, es: seq<Entry>, c: Chain)
    requires Consistent(f, s) && Batch(At(f, s.g), WRITING, s.g.c, es) == Ok(c) && Hashed(f.env, es)
    ensures Posted(f.env, EmptyChain(f.unit), s.g.batches + [es]) == Ok(c)
    ensures Hashed(f.env, Flat(s.g.batches + [es]))
    ensures |Flat(s.g.batches + [es])| == |Flat(s.g.batches)| + |es|
  {
    hide Batch, Writing;
    var all := s.g.batches + [es];
    assert all[..|all| - 1] == s.g.batches;
    Governance.FlatLast(s.g.batches, es);
  }

  lemma WroteHashed(f: Config, s: Session, call: Call)
    requires HashIgnoresItself(f.env) && Drawn(call.ev)
    ensures Hashed(f.env, Wrote(f, s, call))
  {
    hide Perform, HashIgnoresItself, Flat;
    var at := At(f, s.g);
    assert HashIgnoresItself(at) by { SameHashes(f.env, at); }
    PerformHashed(at, f.policy, s.g.c, call.ev);
  }

  lemma MakeKeeps(f: Config, s: Session, call: Call)
    requires HashIgnoresItself(f.env) && Drawn(call.ev) && Consistent(f, s)
    ensures Consistent(f, Make(f, s, call))
    ensures s.g.batches <= Make(f, s, call).g.batches
  {
    hide Perform, HashIgnoresItself, Batch, Posted, Hashed, Flat, At;
    var es := Wrote(f, s, call);
    if es != [] {
      var at := At(f, s.g);
      var c := Perform(at, f.policy, s.g.c, call.ev).0;
      var lines := PerformParts(at, f.policy, s.g.c, call.ev);
      WroteHashed(f, s, call);
      CommitKeeps(f, s, es, c);
    }
  }

  /** A block only adds commits after those there, and answers no key twice. */
  lemma {:induction false} BlockKeeps(f: Config, s: Session, calls: seq<Call>)
    requires HashIgnoresItself(f.env) && AllDrawn(calls) && Consistent(f, s)
    ensures var t := Block(f, s, calls).0;
            && Consistent(f, t) && s.g.batches <= t.g.batches
            && (forall k :: k in s.keys ==> k in t.keys && t.keys[k] == s.keys[k])
            && (forall k :: k in t.keys && k !in s.keys ==> t.keys[k] > |Flat(s.g.batches)|)
  {
    hide Make, Consistent, HashIgnoresItself, Recorded;
    if |calls| > 0 {
      var init, last := calls[..|calls| - 1], calls[|calls| - 1];
      BlockKeeps(f, s, init);
      var t := Block(f, s, init).0;
      MakeKeeps(f, t, last);
      FlatGrows(s.g.batches, t.g.batches);
      MakeKeys(f, t, last);
    }
  }

  lemma MakeKeys(f: Config, s: Session, call: Call)
    requires Drawn(call.ev)
    ensures var t := Make(f, s, call).keys;
            && (forall k :: k in s.keys ==> k in t && t[k] == s.keys[k])
            && (forall k :: k in t && k !in s.keys ==> t[k] > |Flat(s.g.batches)|)
  {
    hide Perform;
  }

  lemma {:induction false} FlatGrows(a: seq<seq<Entry>>, b: seq<seq<Entry>>)
    requires a <= b
    ensures Flat(a) <= Flat(b)
  {
    if |a| < |b| {
      var init := b[..|b| - 1];
      assert a <= init;
      FlatGrows(a, init);
    } else {
      assert a == b;
    }
  }

  lemma PrefixDistinct(a: seq<Entry>, b: seq<Entry>)
    requires a <= b && DistinctIds(b)
    ensures DistinctIds(a)
  {
  }

  /** If a block raises, taking the ledger back to where the block began gives exactly
      the state, the open authorizations and the key records from before it. */
  lemma RollBackRestores(f: Config, s: Session, calls: seq<Call>)
    requires HashIgnoresItself(f.env) && AllDrawn(calls) && Consistent(f, s)
    requires DistinctIds(Flat(Block(f, s, calls).0.g.batches))
    ensures |Flat(s.g.batches)| <= |Flat(Block(f, s, calls).0.g.batches)|
    ensures Rewind(f, Block(f, s, calls).0, |Flat(s.g.batches)|, s.g.batches) == Ok(s)
  {
    hide Block, HashIgnoresItself, Posted, Replay, Replaying;
    var t, mark := Block(f, s, calls).0, |Flat(s.g.batches)|;
    BlockKeeps(f, s, calls);
    FlatGrows(s.g.batches, t.g.batches);
    assert Flat(t.g.batches)[..mark] == Flat(s.g.batches);
    PrefixDistinct(Flat(s.g.batches), Flat(t.g.batches));
    hide DistinctIds;
    PostsReplay(f.env, f.unit, s.g.batches);
    assert (map k | k in t.keys && t.keys[k] <= mark :: t.keys[k]) == s.keys;
  }

  /** What writing a trip again adds: nothing, or one commit of that one trip. */
  lemma RetripAdds(f: Config, s: Session, scope: Scope, reason: string, stamp: Stamp)
    requires |stamp.ids| >= 2
    ensures var t := Make(f, s, Call(Event(TripScope(scope, reason), stamp, stamp), None, 0));
            && t.keys == s.keys
            && (t == s || exists e :: t.g.batches == s.g.batches + [[e]] && e.kind.CircuitTripped? && e.scope == scope)
  {
    hide Perform, Batch;
    var call := Call(Event(TripScope(scope, reason), stamp, stamp), None, 0);
    var es := Wrote(f, s, call);
    if es != [] {
      var lines := PerformParts(At(f, s.g), f.policy, s.g.c, call.ev);
      assert lines == [Line(CircuitTripped, Neutral, scope, None, 0, reason, None)];
      OneTripOnly(At(f, s.g), f.policy, s.g.c, call.ev);
      assert es[..1][0] == es[0] && OfLine(es[0], lines[0]);
      assert es == [es[0]];
    }
  }

  lemma OneTripOnly(env: Env, policy: Policy, c: Chain, ev: Event)
    requires Drawn(ev) && ev.op.TripScope? && Perform(env, policy, c, ev).1 != []
    ensures |Perform(env, policy, c, ev).1| == 1
  {
    hide PostOne, Drafts, LineRule;
    PlanSize(env, policy, c, ev.op);
  }

  /** The whole of a transaction.  A block that completes keeps all of its commits; one
      that raises leaves the session as it was before the block, followed only by the
      trips the block recorded. */
  ghost function Transaction(f: Config, s: Session, calls: seq<Call>, raised: bool, stamps: seq<Stamp>): Result<Session>
    requires AllDrawn(calls) && |Flat(s.g.batches)| <= |Flat(Block(f, s, calls).0.g.batches)|
    requires |Block(f, s, calls).1| <= |stamps| && forall i :: 0 <= i < |stamps| ==> |stamps[i].ids| >= 2
  {
    var (t, trips) := Block(f, s, calls);
    if !raised then Ok(t)
    else
      var back :- Rewind(f, t, |Flat(s.g.batches)|, s.g.batches);
      Ok(Retrip(f, back, trips, stamps))
  }

  lemma {:induction false} RetripKeeps(f: Config, s: Session, trips: seq<(Scope, string)>, stamps: seq<Stamp>)
    requires |trips| <= |stamps| && forall i :: 0 <= i < |stamps| ==> |stamps[i].ids| >= 2
    ensures var t := Retrip(f, s, trips, stamps);
            && t.keys == s.keys && s.g.batches <= t.g.batches
            && forall i :: |s.g.batches| <= i < |t.g.batches| ==>
                 |t.g.batches[i]| == 1 && t.g.batches[i][0].kind.CircuitTripped?
                 && exists j :: 0 <= j < |trips| && trips[j].0 == t.g.batches[i][0].scope
  {
    hide Make;
    if |trips| > 0 {
      var n := |trips| - 1;
      RetripKeeps(f, s, trips[..n], stamps);
      var u, t := Retrip(f, s, trips[..n], stamps), Retrip(f, s, trips, stamps);
      RetripAdds(f, u, trips[n].0, trips[n].1, stamps[n]);
      forall i | |s.g.batches| <= i < |t.g.batches|
        ensures |t.g.batches[i]| == 1 && t.g.batches[i][0].kind.CircuitTripped?
        ensures exists j :: 0 <= j < |trips| && trips[j].0 == t.g.batches[i][0].scope
      {
        if i < |u.g.batches| {
          assert t.g.batches[i] == u.g.batches[i];
          var j :| 0 <= j < n && trips[..n][j].0 == u.g.batches[i][0].scope;
          assert trips[j].0 == t.g.batches[i][0].scope;
        } else {
          assert trips[n].0 == t.g.batches[i][0].scope;
        }
      }
    }
  }

  lemma AllOrOnlyTrips(f: Config, s: Session, calls: seq<Call>, raised: bool, stamps: seq<Stamp>)
    requires HashIgnoresItself(f.env) && AllDrawn(calls) && Consistent(f, s)
    requires DistinctIds(Flat(Block(f, s, calls).0.g.batches))
    requires |Block(f, s, calls).1| <= |stamps| && forall i :: 0 <= i < |stamps| ==> |stamps[i].ids| >= 2
    ensures |Flat(s.g.batches)| <= |Flat(Block(f, s, calls).0.g.batches)|
    ensures Transaction(f, s, calls, raised, stamps)
         == Ok(if raised then Retrip(f, s, Block(f, s, calls).1, stamps) else Block(f, s, calls).0)
  {
    hide Block, HashIgnoresItself, Consistent, DistinctIds, Rewind, Retrip;
    RollBackRestores(f, s, calls);
  }

  /** What a block records is always a trip it wrote, by its scope and reason. */
  lemma RecordedIsATrip(f: Config, s: Session, call: Call)
    requires Drawn(call.ev) && Recorded(f, s, call) != []
    ensures var es := Wrote(f, s, call);
            |es| > 0 && es[0].kind.CircuitTripped? && Recorded(f, s, call) == [(es[0].scope, es[0].memo)]
  {
    hide Perform, Batch, PlanOf;
    var at, es := At(f, s.g), Wrote(f, s, call);
    var lines := PerformParts(at, f.policy, s.g.c, call.ev);
    assert es[..|lines|][0] == es[0] && OfLine(es[0], lines[0]);
    if PlanOf(at, f.policy, s.g.c, call.ev.op).Deny? {
      DenyTrips(at, f.policy, s.g.c, call.ev.op);
    } else {
      AskedTrip(at, f.policy, s.g.c, call.ev.op);
    }
  }

  lemma AskedTrip(env: Env, policy: Policy, c: Chain, op: Op)
    requires op.TripScope? && PlanOf(env, policy, c, op).Lines?
    ensures var ls := PlanOf(env, policy, c, op).lines; |ls| == 1 && ls[0].kind.CircuitTripped?
  {
  }

  // -- the trips survive ---------------------------------------------------------------------------

  /** A trip can be written: the scope is known and the reason is legal text. */
  predicate CanTrip(c: Chain, scope: Scope, reason: string) {
    scope in c.tree.nodes.at && TextAllowed(reason, MAX_MEMO_BYTES, false)
  }

  lemma TripLegal(env: Env, policy: Policy, c: Chain, scope: Scope, reason: string)
    requires Progress.Ready(c)
    ensures Progress.Writes(c, PlanOf(env, policy, c, TripScope(scope, reason)))
       <==> scope !in c.tree.tripped && CanTrip(c, scope, reason)
  {
    hide Progress.Ready, TextAllowed;
    if scope in c.tree.nodes.at {
      Progress.KnownScope(c, scope);
      Progress.NothingIsWhole(c.unit);
      var l := Trips(scope, reason);
      assert Progress.LineLegal(c, l) <==> TextAllowed(reason, MAX_MEMO_BYTES, false);
      assert Progress.Legal(c, [l]) <==> Progress.LineLegal(c, [l][0]);
    }
  }

  /** Asking for a trip trips the scope exactly if it can, or it was tripped already; and
      changes no other breaker and no scope. */
  lemma TripLands(f: Config, s: Session, scope: Scope, reason: string, stamp: Stamp)
    requires HashIgnoresItself(f.env) && Progress.Ready(s.g.c) && |stamp.ids| >= 2
    ensures var t := Make(f, s, Call(Event(TripScope(scope, reason), stamp, stamp), None, 0));
            && Progress.Ready(t.g.c) && t.g.c.tree.nodes == s.g.c.tree.nodes
            && t.g.c.tree.tripped.Keys
               == s.g.c.tree.tripped.Keys + (if CanTrip(s.g.c, scope, reason) then {scope} else {})
  {
    hide HashIgnoresItself, Progress.Ready, Perform, PlanOf, CanTrip, Effects.Performed, Balance;
    var ev := Event(TripScope(scope, reason), stamp, stamp);
    var at, c := At(f, s.g), s.g.c;
    assert HashIgnoresItself(at) by { SameHashes(f.env, at); }
    Progress.PerformsExactly(at, f.policy, c, ev);
    TripLegal(at, f.policy, c, scope, reason);
    Progress.PerformReady(at, f.policy, c, ev);
    if Perform(at, f.policy, c, ev).1 != [] {
      AskedPlan(at, f.policy, c, scope, reason);
      var r := Overdrafts.Told(at, f.policy, c, ev);
      Effects.ControlDoes(at, f.policy, ev, true, (c, []), Perform(at, f.policy, c, ev), r);
    }
  }

  lemma AskedPlan(env: Env, policy: Policy, c: Chain, scope: Scope, reason: string)
    ensures !PlanOf(env, policy, c, TripScope(scope, reason)).Deny?
  {
  }

  /** After trips are written again, the scopes tripped are those tripped before and those
      a trip could be written for. */
  lemma {:induction false} RetripTrips(f: Config, s: Session, trips: seq<(Scope, string)>, stamps: seq<Stamp>)
    requires HashIgnoresItself(f.env) && Progress.Ready(s.g.c)
    requires |trips| <= |stamps| && forall i :: 0 <= i < |stamps| ==> |stamps[i].ids| >= 2
    ensures var t := Retrip(f, s, trips, stamps).g.c;
            && Progress.Ready(t) && t.tree.nodes == s.g.c.tree.nodes
            && forall x :: x in t.tree.tripped <==>
                 x in s.g.c.tree.tripped
                 || exists j :: 0 <= j < |trips| && trips[j].0 == x && CanTrip(s.g.c, x, trips[j].1)
  {
    hide Make, HashIgnoresItself, Progress.Ready;
    if |trips| > 0 {
      var n := |trips| - 1;
      RetripTrips(f, s, trips[..n], stamps);
      var u, t := Retrip(f, s, trips[..n], stamps).g.c, Retrip(f, s, trips, stamps).g.c;
      TripLands(f, Retrip(f, s, trips[..n], stamps), trips[n].0, trips[n].1, stamps[n]);
      hide TextAllowed;
      forall x ensures x in t.tree.tripped <==>
          x in s.g.c.tree.tripped
          || exists j :: 0 <= j < |trips| && trips[j].0 == x && CanTrip(s.g.c, x, trips[j].1)
      {
        if x in u.tree.tripped && x !in s.g.c.tree.tripped {
          var j :| 0 <= j < n && trips[..n][j].0 == x && CanTrip(s.g.c, x, trips[..n][j].1);
          assert trips[j].0 == x && CanTrip(s.g.c, x, trips[j].1);
        }
        if j :| 0 <= j < |trips| && trips[j].0 == x && CanTrip(s.g.c, x, trips[j].1) {
          if j < n { assert trips[..n][j] == trips[j]; }
        }
      }
    }
  }

  /** The reason of a recorded trip is text the ledger took. */
  lemma RecordedLegal(f: Config, s: Session, call: Call)
    requires Drawn(call.ev) && Recorded(f, s, call) != []
    ensures TextAllowed(Recorded(f, s, call)[0].1, MAX_MEMO_BYTES, false)
  {
    hide TextAllowed, Perform, PlanOf;
    RecordedIsATrip(f, s, call);
    var at, es := At(f, s.g), Wrote(f, s, call);
    PerformText(at, f.policy, s.g.c, call.ev);
  }

  lemma StepMemo(env: Env, v: View, e: Entry)
    requires Step(env, WRITING, v, e).Ok? && e.version.V3?
    ensures TextAllowed(e.memo, MAX_MEMO_BYTES, false)
  {
    hide TextAllowed, Begin, Booking, Governing, Advance, AddTotals;
  }

  lemma PerformText(env: Env, policy: Policy, c: Chain, ev: Event)
    requires Drawn(ev) && Perform(env, policy, c, ev).1 != []
    ensures TextAllowed(Perform(env, policy, c, ev).1[0].memo, MAX_MEMO_BYTES, false)
  {
    hide TextAllowed, Perform, PlanOf, Step;
    var es := Perform(env, policy, c, ev).1;
    var lines := PerformParts(env, policy, c, ev);
    Effects.PerformVersions(env, policy, c, ev);
    assert es == [es[0]] + es[1..] && [es[0]][..0] == [];
    StepsAppend(env, WRITING, Over(c), [es[0]], es[1..]);
    assert Steps(env, WRITING, Over(c), [es[0]]) == Step(env, WRITING, Over(c), es[0]);
    StepMemo(env, Over(c), es[0]);
  }

  lemma {:induction false} BlockLegal(f: Config, s: Session, calls: seq<Call>, j: nat)
    requires AllDrawn(calls) && j < |Block(f, s, calls).1|
    ensures TextAllowed(Block(f, s, calls).1[j].1, MAX_MEMO_BYTES, false)
  {
    hide Make, Recorded, TextAllowed;
    var init, last := calls[..|calls| - 1], calls[|calls| - 1];
    var (before, trips) := Block(f, s, init);
    if j < |trips| {
      BlockLegal(f, s, init, j);
    } else {
      RecordedLegal(f, before, last);
      OneRecorded(f, before, last);
    }
  }

  lemma OneRecorded(f: Config, s: Session, call: Call)
    requires Drawn(call.ev)
    ensures |Recorded(f, s, call)| <= 1
  {
    hide Perform, PlanOf;
  }

  /** Every session begun on an empty ledger stays ready for any operation. */
  lemma {:induction false} BlockReady(f: Config, s: Session, calls: seq<Call>)
    requires AllDrawn(calls) && Progress.Ready(s.g.c)
    ensures Progress.Ready(Block(f, s, calls).0.g.c)
  {
    hide Perform, Recorded, Progress.Ready;
    if |calls| > 0 {
      var init, last := calls[..|calls| - 1], calls[|calls| - 1];
      BlockReady(f, s, init);
      var before := Block(f, s, init).0;
      Progress.PerformReady(At(f, before.g), f.policy, before.g.c, last.ev);
    }
  }

  /** A block that raises leaves no trace but its trips, and those all stay: afterwards the
      scopes tripped are exactly those tripped before the block and those of its recorded
      trips that existed before it. */
  lemma TripsSurvive(f: Config, s: Session, calls: seq<Call>, stamps: seq<Stamp>)
    requires HashIgnoresItself(f.env) && AllDrawn(calls) && Consistent(f, s) && Progress.Ready(s.g.c)
    requires DistinctIds(Flat(Block(f, s, calls).0.g.batches))
    requires |Block(f, s, calls).1| <= |stamps| && forall i :: 0 <= i < |stamps| ==> |stamps[i].ids| >= 2
    ensures |Flat(s.g.batches)| <= |Flat(Block(f, s, calls).0.g.batches)|
    ensures var after, trips := Transaction(f, s, calls, true, stamps), Block(f, s, calls).1;
            after.Ok? && forall x :: x in after.value.g.c.tree.tripped <==>
              x in s.g.c.tree.tripped
              || (x in s.g.c.tree.nodes.at && exists j :: 0 <= j < |trips| && trips[j].0 == x)
  {
    hide Block, HashIgnoresItself, Consistent, DistinctIds, Transaction, Retrip, Progress.Ready, TextAllowed;
    AllOrOnlyTrips(f, s, calls, true, stamps);
    var trips := Block(f, s, calls).1;
    RetripTrips(f, s, trips, stamps);
    forall j | 0 <= j < |trips| ensures TextAllowed(trips[j].1, MAX_MEMO_BYTES, false) { BlockLegal(f, s, calls, j); }
  }

  // -- exactly which trips are recorded --------------------------------------------------------------

  lemma PlanTrips(env: Env, policy: Policy, c: Chain, op: Op)
    requires var p := PlanOf(env, policy, c, op); p.Lines? && p.lines != [] && p.lines[0].kind.CircuitTripped?
    ensures op.TripScope?
  {
    hide Halted, Charged, Credited, SpendLeft, Balance;
  }

  /** A call records a trip exactly when what it wrote begins with one. */
  lemma RecordedExactly(f: Config, s: Session, call: Call)
    requires Drawn(call.ev)
    ensures var es := Wrote(f, s, call);
            Recorded(f, s, call) == if es != [] && es[0].kind.CircuitTripped? then [(es[0].scope, es[0].memo)] else []
  {
    hide Perform, Batch, PlanOf;
    var at, es := At(f, s.g), Wrote(f, s, call);
    if Recorded(f, s, call) != [] { RecordedIsATrip(f, s, call); }
    if es != [] && es[0].kind.CircuitTripped? {
      var lines := PerformParts(at, f.policy, s.g.c, call.ev);
      assert es[..|lines|][0] == es[0] && OfLine(es[0], lines[0]);
      if PlanOf(at, f.policy, s.g.c, call.ev.op).Lines? { PlanTrips(at, f.policy, s.g.c, call.ev.op); }
    }
  }

  /** The trips some commits begin with. */
  function TripsIn(batches: seq<seq<Entry>>): seq<(Scope, string)> {
    if |batches| == 0 then []
    else
      var es := batches[|batches| - 1];
      TripsIn(batches[..|batches| - 1])
      + if es != [] && es[0].kind.CircuitTripped? then [(es[0].scope, es[0].memo)] else []
  }

  lemma MakeCommits(f: Config, s: Session, call: Call)
    requires Drawn(call.ev)
    ensures Make(f, s, call).g.batches == s.g.batches + if Wrote(f, s, call) == [] then [] else [Wrote(f, s, call)]
  {
    hide Perform;
  }

  lemma TripsMore(batches: seq<seq<Entry>>, es: seq<Entry>, n: nat)
    requires n <= |batches|
    ensures TripsIn((batches + [es])[n..])
         == TripsIn(batches[n..]) + if es != [] && es[0].kind.CircuitTripped? then [(es[0].scope, es[0].memo)] else []
  {
    var more := (batches + [es])[n..];
    assert more[..|more| - 1] == batches[n..];
  }

  /** A block records exactly the trips its commits begin with, in order. */
  lemma {:induction false} BlockRecords(f: Config, s: Session, calls: seq<Call>)
    requires AllDrawn(calls)
    ensures s.g.batches <= Block(f, s, calls).0.g.batches
    ensures Block(f, s, calls).1 == TripsIn(Block(f, s, calls).0.g.batches[|s.g.batches|..])
  {
    hide Make, Wrote, Recorded;
    if |calls| == 0 {
      assert s.g.batches[|s.g.batches|..] == [];
    } else {
      var init, last := calls[..|calls| - 1], calls[|calls| - 1];
      BlockRecords(f, s, init);
      var before, n := Block(f, s, init).0, |s.g.batches|;
      RecordedExactly(f, before, last);
      MakeCommits(f, before, last);
      var es := Wrote(f, before, last);
      if es != [] { TripsMore(before.g.batches, es, n); }
      hide TripsIn;
      assert before.g.batches + [] == before.g.batches;
    }
  }

  lemma {:induction false} InTrips(batches: seq<seq<Entry>>, x: Scope)
    ensures HasTrip(TripsIn(batches), x) <==> HasCommit(batches, x)
  {
    if |batches| > 0 {
      var init, es := batches[..|batches| - 1], batches[|batches| - 1];
      InTrips(init, x);
      var before, all := TripsIn(init), TripsIn(batches);
      if j :| 0 <= j < |before| && before[j].0 == x { assert all[j].0 == x; }
      if BeginsWithTrip(es, x) {
        assert all[|before|].0 == x;
        assert BeginsWithTrip(batches[|batches| - 1], x);
      }
      if k :| 0 <= k < |init| && BeginsWithTrip(init[k], x) { assert BeginsWithTrip(batches[k], x); }
    }
  }

  ghost predicate HasTrip(trips: seq<(Scope, string)>, x: Scope) { exists j :: 0 <= j < |trips| && trips[j].0 == x }

  ghost predicate HasCommit(batches: seq<seq<Entry>>, x: Scope) {
    exists k :: 0 <= k < |batches| && BeginsWithTrip(batches[k], x)
  }

  predicate BeginsWithTrip(es: seq<Entry>, x: Scope) { es != [] && es[0].kind.CircuitTripped? && es[0].scope == x }

  /** So of a block that raised just this is left: of the scopes that existed before it,
      those for which one of its commits began with a trip are tripped, with those tripped
      before. */
  lemma CommittedTripsSurvive(f: Config, s: Session, calls: seq<Call>, stamps: seq<Stamp>)
    requires HashIgnoresItself(f.env) && AllDrawn(calls) && Consistent(f, s) && Progress.Ready(s.g.c)
    requires DistinctIds(Flat(Block(f, s, calls).0.g.batches))
    requires |Block(f, s, calls).1| <= |stamps| && forall i :: 0 <= i < |stamps| ==> |stamps[i].ids| >= 2
    ensures |Flat(s.g.batches)| <= |Flat(Block(f, s, calls).0.g.batches)|
              && s.g.batches <= Block(f, s, calls).0.g.batches
    ensures var after, made := Transaction(f, s, calls, true, stamps), Block(f, s, calls).0.g.batches[|s.g.batches|..];
            after.Ok? && forall x :: x in after.value.g.c.tree.tripped <==>
              x in s.g.c.tree.tripped
              || (x in s.g.c.tree.nodes.at && HasCommit(made, x))
  {
    hide Block, HashIgnoresItself, Consistent, DistinctIds, Transaction, Progress.Ready, TripsIn, BeginsWithTrip;
    TripsSurvive(f, s, calls, stamps);
    BlockRecords(f, s, calls);
    var made := Block(f, s, calls).0.g.batches[|s.g.batches|..];
    var after := Transaction(f, s, calls, true, stamps);
    forall x ensures x in after.value.g.c.tree.tripped <==>
        x in s.g.c.tree.tripped || (x in s.g.c.tree.nodes.at && HasCommit(made, x))
    {
      InTrips(made, x);
    }
  }

  // -- keys ------------------------------------------------------------------------------------------------

  /** A call under a key leaves a record that names its result, or, if the key was answered
      or nothing was written, leaves the session as it was; and touches no other record. */
  lemma CallIsRecorded(f: Config, s: Session, call: Call, key: string)
    requires Drawn(call.ev) && call.key == Some(key)
    ensures var t, es := Make(f, s, call), Wrote(f, s, call);
            && (key in s.keys || es == [] ==> t == s)
            && (forall k :: k != key ==> (k in t.keys <==> k in s.keys) && (k in s.keys ==> t.keys[k] == s.keys[k]))
            && (es != [] ==>
                  && key in t.keys && 0 < t.keys[key] <= |Flat(t.g.batches)|
                  && Flat(t.g.batches)[t.keys[key] - 1] == es[if call.result < |es| then call.result else 0])
  {
    hide Perform;
    var es := Wrote(f, s, call);
    if es != [] { Governance.FlatLast(s.g.batches, es); }
  }
}
