/**
 What each caller of a group commit is told, by what happened: whether its own work
 raised, and how the unit it rode in ended.  All of it is read off the steps of a run.
 */
module GroupAnswers {
  import V = Vocabulary
  import opened Dicts
  import opened GroupCommit

  /** This step runs the caller's work, and the work raises unless `ok`. */
  predicate Runs(s: State, a: Action, q: Req, ok: bool) {
    a.RunNext? && a.ok == ok && s.unit.Some? && s.unit.value.ran < |s.unit.value.batch|
    && s.unit.value.batch[s.unit.value.ran] == q
  }

  /** This step ends the unit the caller rides in, committed or not. */
  predicate Ends(a: Action, after: State, q: Req, committed: bool) {
    (if committed then a.Commit? else a.Fail?) && q in Current(after)
  }

  ghost predicate HasRun(states: seq<State>, actions: seq<Action>, n: nat, q: Req, ok: bool)
    requires |states| == |actions| + 1 && n <= |actions|
  {
    exists i :: 0 <= i < n && Runs(states[i], actions[i], q, ok)
  }

  ghost predicate HasEnded(states: seq<State>, actions: seq<Action>, n: nat, q: Req, committed: bool)
    requires |states| == |actions| + 1 && n <= |actions|
  {
    exists i :: 0 <= i < n && Ends(actions[i], states[i + 1], q, committed)
  }

  /** The unit the caller rides in has ended. */
  predicate Over(s: State, q: Req) {
    q in Batched(s.past) || (s.unit.Some? && s.unit.value.stage.Closed? && q in s.unit.value.batch)
  }

  /** What a caller's outcome says of what happened to it. */
  ghost predicate Fair(s: State, q: Req, well: bool, badly: bool, committed: bool, failed: bool) {
    && (q !in s.callers ==> !well && !badly)
    && (q in s.callers ==>
          match s.callers[q].outcome
          case NotRun => !well && !badly && !committed && !failed
          case Value => well && !badly && !failed
          case OwnError => badly && !well
          case UnitError => !badly && failed && !committed)
    && (committed || failed <==> Over(s, q)) && !(committed && failed)
  }

  // -- one step ------------------------------------------------------------------------------------

  /** Who is in the batch, or was in one, is in no other. */
  lemma BatchApart(s: State, q: Req)
    requires Order(s) && q in Current(s)
    ensures q !in Batched(s.past) && q !in s.queue && q in s.callers
  {
    var past, rest := Batched(s.past), Current(s) + s.queue;
    assert s.arrived == past + rest;
    InOrder(Current(s), s.queue, q);
    InOrder(past, rest, q);
    var k :| 0 <= k < |rest| && rest[k] == q;
    forall j | 0 <= j < |past| ensures past[j] != q {
      assert s.arrived[|past| + k] == rest[k] && s.arrived[j] == past[j];
    }
    BatchDistinct(s);
  }

  lemma QueueApart(s: State, q: Req)
    requires Order(s) && q in s.queue
    ensures q !in Batched(s.past) && q !in Current(s) && q in s.callers
  {
    var before := Batched(s.past) + Current(s);
    assert s.arrived == before + s.queue;
    InOrder(before, s.queue, q);
    InOrder(Batched(s.past), Current(s), q);
    var k :| 0 <= k < |s.queue| && s.queue[k] == q;
    forall j | 0 <= j < |before| ensures before[j] != q {
      assert s.arrived[|before| + k] == s.queue[k] && s.arrived[j] == before[j];
    }
  }

  /** Whoever's unit is over has arrived. */
  lemma OverArrived(s: State, q: Req)
    requires Order(s) && Over(s, q)
    ensures q in s.callers
  {
    InOrder(Batched(s.past), Current(s), q);
    InOrder(Batched(s.past) + Current(s), s.queue, q);
  }

  lemma NextNotRun(s: State, r: Req, ok: bool)
    requires Results(s) && Can(s, RunNext(r, ok))
    ensures s.callers[s.unit.value.batch[s.unit.value.ran]].outcome.NotRun?
  {
    hide KeptBy;
  }

  /** At a commit every caller of the batch has been run. */
  lemma AllRun(s: State, r: Req, q: Req)
    requires Results(s) && Can(s, Commit(r)) && q in Current(s)
    ensures q in s.callers && (s.callers[q].outcome.Value? || s.callers[q].outcome.OwnError?)
  {
    hide KeptBy;
  }

  lemma FairArrive(s: State, r: Req, q: Req, well: bool, badly: bool, committed: bool, failed: bool)
    requires Order(s) && Fair(s, q, well, badly, committed, failed) && Can(s, Arrive(r))
    ensures Fair(Do(s, Arrive(r)), q, well, badly, committed, failed)
  {
    if Over(s, q) { OverArrived(s, q); }
    hide Batched, Order;
  }

  lemma RunLeaves(s: State, r: Req, ok: bool, q: Req)
    requires Can(s, RunNext(r, ok))
    ensures var d, x := Do(s, RunNext(r, ok)), s.unit.value.batch[s.unit.value.ran];
            && d.past == s.past && d.unit.Some? && d.unit.value.stage.Open? && s.unit.value.stage.Open?
            && (q in d.callers <==> q in s.callers)
            && (q in s.callers && q != x ==> d.callers[q] == s.callers[q])
            && x in s.callers && d.callers[x].outcome == if ok then Value else OwnError
  {
  }

  lemma FairRun(s: State, r: Req, ok: bool, q: Req, well: bool, badly: bool, committed: bool, failed: bool)
    requires Order(s) && Results(s) && Fair(s, q, well, badly, committed, failed) && Can(s, RunNext(r, ok))
    ensures var now := Runs(s, RunNext(r, ok), q, ok);
            Fair(Do(s, RunNext(r, ok)), q, well || (now && ok), badly || (now && !ok), committed, failed)
              && (now ==> !well && !badly)
  {
    hide Batched, Order, Results, Do;
    NextNotRun(s, r, ok);
    RunLeaves(s, r, ok, q);
  }

  lemma FairCommit(s: State, r: Req, q: Req, well: bool, badly: bool, committed: bool, failed: bool)
    requires Order(s) && Results(s) && Fair(s, q, well, badly, committed, failed) && Can(s, Commit(r))
    ensures Fair(Do(s, Commit(r)), q, well, badly, committed || q in Current(s), failed)
  {
    if q in Current(s) {
      BatchApart(s, q);
      AllRun(s, r, q);
    }
    hide Batched, Order, Results;
  }

  lemma FailLeaves(s: State, r: Req, kept: bool, q: Req)
    requires Can(s, Fail(r, kept))
    ensures var d := Do(s, Fail(r, kept));
            && d.past == s.past && d.unit.Some? && d.unit.value.stage == Closed(false)
                  && (q in d.callers <==> q in s.callers)
            && (q in s.callers ==>
                  d.callers[q].outcome == if q in Current(d) && !s.callers[q].outcome.OwnError? then UnitError
                        else s.callers[q].outcome)
  {
  }

  lemma FailTakes(s: State, r: Req, kept: bool, q: Req)
    requires Order(s) && Can(s, Fail(r, kept))
    ensures q in Current(Do(s, Fail(r, kept))) ==> q in s.callers && q !in Batched(s.past)
    ensures q in Current(s) ==> q in Current(Do(s, Fail(r, kept)))
  {
    var taken := if s.unit.value.batch == [] then Take(s.queue, BATCH).0 else [];
    assert Current(Do(s, Fail(r, kept))) == Current(s) + taken;
    InOrder(Current(s), taken, q);
    if q in Current(s) { BatchApart(s, q); }
    if q in taken {
      assert q in s.queue;
      QueueApart(s, q);
    }
    hide Batched, Order, Take, Do;
  }

  lemma FairFail(s: State, r: Req, kept: bool, q: Req, well: bool, badly: bool, committed: bool, failed: bool)
    requires Order(s) && Fair(s, q, well, badly, committed, failed) && Can(s, Fail(r, kept))
    ensures var d := Do(s, Fail(r, kept));
            Fair(d, q, well, badly, committed, failed || q in Current(d))
  {
    hide Batched, Order, Do;
    FailLeaves(s, r, kept, q);
    FailTakes(s, r, kept, q);
  }

  lemma FairEnd(s: State, r: Req, q: Req, well: bool, badly: bool, committed: bool, failed: bool)
    requires Fair(s, q, well, badly, committed, failed) && Can(s, EndUnit(r))
    ensures Fair(Do(s, EndUnit(r)), q, well, badly, committed, failed)
  {
    var d := Do(s, EndUnit(r));
    assert d.past[..|d.past| - 1] == s.past;
    InOrder(Batched(s.past), Current(s), q);
  }

  lemma FairElse(s: State, a: Action, q: Req, well: bool, badly: bool, committed: bool, failed: bool)
    requires Fair(s, q, well, badly, committed, failed) && Can(s, a)
    requires !a.Arrive? && !a.RunNext? && !a.Commit? && !a.Fail? && !a.EndUnit?
    ensures Fair(Do(s, a), q, well, badly, committed, failed)
  {
    hide Batched;
  }

  lemma FairStep(s: State, a: Action, q: Req, well: bool, badly: bool, committed: bool, failed: bool)
    requires Order(s) && Results(s) && Fair(s, q, well, badly, committed, failed) && Can(s, a)
    ensures var d := Do(s, a);
            Fair(d, q, well || Runs(s, a, q, true), badly || Runs(s, a, q, false), committed || Ends(a, d, q, true),
                 failed || Ends(a, d, q, false))
    ensures Runs(s, a, q, true) || Runs(s, a, q, false) ==> !well && !badly
  {
    hide Order, Results, Fair, Can, Do, Current;
    match a
    case Arrive(r) => FairArrive(s, r, q, well, badly, committed, failed);
    case RunNext(r, ok) => FairRun(s, r, ok, q, well, badly, committed, failed);
    case Commit(r) =>
      SameBatch(s, r);
      FairCommit(s, r, q, well, badly, committed, failed);
    case Fail(r, kept) => FairFail(s, r, kept, q, well, badly, committed, failed);
    case EndUnit(r) => FairEnd(s, r, q, well, badly, committed, failed);
    case _ => FairElse(s, a, q, well, badly, committed, failed);
  }

  lemma SameBatch(s: State, r: Req)
    requires Can(s, Commit(r))
    ensures Current(Do(s, Commit(r))) == Current(s)
  {
  }

  // -- every run -----------------------------------------------------------------------------------

  lemma HasRunMore(states: seq<State>, actions: seq<Action>, n: nat, q: Req, ok: bool)
    requires |states| == |actions| + 1 && n < |actions|
    ensures HasRun(states, actions, n + 1, q, ok)
       <==> HasRun(states, actions, n, q, ok) || Runs(states[n], actions[n], q, ok)
    ensures HasEnded(states, actions, n + 1, q, ok)
       <==> HasEnded(states, actions, n, q, ok) || Ends(actions[n], states[n + 1], q, ok)
  {
    hide Runs, Ends;
  }

  lemma {:induction false} EveryRunIsFair(states: seq<State>, actions: seq<Action>, n: nat, q: Req)
    requires Run(states, actions) && n <= |actions|
    ensures Fair(states[n], q, HasRun(states, actions, n, q, true), HasRun(states, actions, n, q, false),
                 HasEnded(states, actions, n, q, true), HasEnded(states, actions, n, q, false))
  {
    hide Fair, HasRun, HasEnded, Order, Results, Callers, Lead, Can, Do;
    if n == 0 {
      NothingYet(states, actions, q);
    } else {
      var m := n - 1;
      EveryRunIsFair(states, actions, m, q);
      EveryRunKeeps(states, actions, m);
      assert Can(states[m], actions[m]) && states[m + 1] == Do(states[m], actions[m]);
      HasRunMore(states, actions, m, q, true);
      HasRunMore(states, actions, m, q, false);
      FairStep(states[m], actions[m], q, HasRun(states, actions, m, q, true), HasRun(states, actions, m, q, false),
               HasEnded(states, actions, m, q, true), HasEnded(states, actions, m, q, false));
    }
  }

  lemma NothingYet(states: seq<State>, actions: seq<Action>, q: Req)
    requires Run(states, actions)
    ensures Fair(states[0], q, HasRun(states, actions, 0, q, true), HasRun(states, actions, 0, q, false),
                 HasEnded(states, actions, 0, q, true), HasEnded(states, actions, 0, q, false))
  {
  }

  /** No caller's work is run twice. */
  lemma RunOnce(states: seq<State>, actions: seq<Action>, i: nat, j: nat, q: Req, x: bool, y: bool)
    requires Run(states, actions) && i < j < |actions|
    requires Runs(states[i], actions[i], q, x)
    ensures !Runs(states[j], actions[j], q, y)
  {
    hide Fair, Order, Results, Callers, Lead, Can, Do, Runs;
    EveryRunIsFair(states, actions, j, q);
    EveryRunKeeps(states, actions, j);
    assert Can(states[j], actions[j]) && states[j + 1] == Do(states[j], actions[j]);
    assert HasRun(states, actions, j, q, x);
    hide HasRun, HasEnded;
    FairStep(states[j], actions[j], q, HasRun(states, actions, j, q, true), HasRun(states, actions, j, q, false),
             HasEnded(states, actions, j, q, true), HasEnded(states, actions, j, q, false));
  }

  lemma ReturnedIsOver(s: State, t: V.Option<Req>, q: Req)
    requires Inv(s, t) && q in s.callers && s.callers[q].phase.Returned?
    ensures Over(s, q)
  {
    hide Lead, Batched;
    ReturnedIsSettled(s, t, q);
    if q !in Batched(s.past) {
      OpenUnsettled(s.callers, s.unit.value);
      assert q in Current(s)[..Done(s)];
    }
  }

  /** What a caller that returned was told is what happened to it: an error of its own if
      and only if the one step that ran its work had it raise; a value if and only if its
      work did not raise and its unit committed; its unit's failure if and only if the unit
      failed and its work had not raised. */
  lemma AnswersExactly(states: seq<State>, actions: seq<Action>, n: nat, q: Req)
    requires Run(states, actions) && n <= |actions| && q in states[n].callers && states[n].callers[q].phase.Returned?
    ensures var o := states[n].callers[q].outcome;
            && (o.OwnError? <==> HasRun(states, actions, n, q, false))
            && (o.Value? <==> HasRun(states, actions, n, q, true) && HasEnded(states, actions, n, q, true))
            && (o.UnitError? <==> HasEnded(states, actions, n, q, false) && !HasRun(states, actions, n, q, false))
            && HasEnded(states, actions, n, q, true) == !HasEnded(states, actions, n, q, false)
  {
    EveryRunIsFair(states, actions, n, q);
    EveryRunKeeps(states, actions, n);
    ReturnedIsOver(states[n], LeadAfter(states, actions, n), q);
    hide HasRun, HasEnded, Over;
  }

  // -- what is durable ------------------------------------------------------------------------------

  /** This step makes the caller's unit durable: it commits, or fails with the store having
      kept it all the same. */
  predicate Stores(a: Action, after: State, q: Req) {
    (a.Commit? || (a.Fail? && a.kept)) && q in Current(after)
  }

  ghost predicate HasStored(states: seq<State>, actions: seq<Action>, n: nat, q: Req)
    requires |states| == |actions| + 1 && n <= |actions|
  {
    exists i :: 0 <= i < n && Stores(actions[i], states[i + 1], q)
  }

  lemma DurableStep(s: State, a: Action, q: Req)
    requires Can(s, a)
    ensures q in Do(s, a).durable <==> q in s.durable || Stores(a, Do(s, a), q)
  {
    var d := Do(s, a);
    if a.Commit? { InOrder(s.durable, Current(s), q); }
    if a.Fail? && a.kept { InOrder(s.durable, Current(d), q); }
  }

  /** A caller's work is durable exactly when a step that stores was taken with it aboard. */
  lemma {:induction false} DurableExactly(states: seq<State>, actions: seq<Action>, n: nat, q: Req)
    requires Run(states, actions) && n <= |actions|
    ensures q in states[n].durable <==> HasStored(states, actions, n, q)
  {
    hide Stores, Can, Do;
    if n > 0 {
      var m := n - 1;
      DurableExactly(states, actions, m, q);
      assert Can(states[m], actions[m]) && states[m + 1] == Do(states[m], actions[m]);
      DurableStep(states[m], actions[m], q);
    }
  }
}
