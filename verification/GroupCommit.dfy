/**
 Group commit: callers of one governor queue their work, and one of them at a time
 leads, running everything queued in one unit of work.  Each caller is a thread; a
 step of the protocol is one of its critical sections, so every interleaving of
 callers is a run of steps.
 */
module GroupCommit {
  import V = Vocabulary
  import opened Dicts

  type Req = nat
  type Option<+T> = V.Option<T>

  const BATCH: nat := 256

  /** Where a caller is: blocked on its own wake lock; holding the lead and waiting
      for the governor's lock; inside it; out of it with the lead still its own;
      about to wake the next leader; done but for returning; returned. */
  datatype Phase = Waiting | Holding | InLock | Leaving | Handing(next: Req) | Finishing | Returned

  datatype Outcome = NotRun | Value | OwnError | UnitError

  /** A caller and its request.  `woken` says its wake lock has been released. */
  datatype Caller = Caller(phase: Phase, woken: bool, settled: bool, outcome: Outcome)

  datatype Stage = Open | Closed(committed: bool)

  /** A unit of work: what it drained from the queue, how much of that ran, how it
      ended, whether the store kept it, and how many of its callers were settled. */
  datatype Unit = Unit(batch: seq<Req>, ran: nat, stage: Stage, kept: bool, done: nat)

  datatype Lock = Free | Of(r: Req) | Outside

  datatype State = State(callers: map<Req, Caller>, arrived: seq<Req>, queue: seq<Req>, leading: bool,
                         lock: Lock, unit: Option<Unit>, past: seq<Unit>, durable: seq<Req>, broken: bool)

  const START := State(map[], [], [], false, Free, V.None, [], [], false)

  datatype Action =
    | Arrive(r: Req) | Wake(r: Req) | TakeLock(r: Req) | Begin(r: Req) | Drain(r: Req)
    | RunNext(r: Req, ok: bool) | Commit(r: Req) | Fail(r: Req, kept: bool) | Settle(r: Req) | EndUnit(r: Req)
    | LeaveLock(r: Req) | HandOn(r: Req) | Release(r: Req) | Return(r: Req)
    | Enter | Exit

  predicate At(s: State, r: Req, p: Phase) {
    r in s.callers && s.callers[r].phase == p
  }

  predicate InUnit(s: State, r: Req, stage: Stage) {
    At(s, r, InLock) && s.unit.Some? && s.unit.value.stage == stage
  }

  predicate Can(s: State, a: Action) {
    match a
    case Arrive(r) => r !in s.callers
    case Wake(r) => At(s, r, Waiting) && s.callers[r].woken
    case TakeLock(r) => At(s, r, Holding) && s.lock.Free?
    case Begin(r) => At(s, r, InLock) && s.unit.None? && !s.callers[r].settled
    case Drain(r) => InUnit(s, r, Open) && s.unit.value.ran == |s.unit.value.batch| < BATCH && |s.queue| > 0
    case RunNext(r, _) => InUnit(s, r, Open) && s.unit.value.ran < |s.unit.value.batch|
          && s.unit.value.batch[s.unit.value.ran] in s.callers
    case Commit(r) => InUnit(s, r, Open) && s.unit.value.ran == |s.unit.value.batch|
          && (s.unit.value.ran == BATCH || s.queue == [])
    case Fail(r, kept) => InUnit(s, r, Open) && (kept ==> s.unit.value.ran == |s.unit.value.batch| > 0)
    case Settle(r) => At(s, r, InLock) && s.unit.Some? && s.unit.value.stage.Closed?
          && s.unit.value.done < |s.unit.value.batch|
                      && s.unit.value.batch[s.unit.value.done] in s.callers
    case EndUnit(r) => At(s, r, InLock) && s.unit.Some? && s.unit.value.stage.Closed?
          && s.unit.value.done == |s.unit.value.batch|
    case LeaveLock(r) => At(s, r, InLock) && s.unit.None? && s.callers[r].settled
    case HandOn(r) => At(s, r, Leaving)
    case Release(r) => r in s.callers && s.callers[r].phase.Handing? && s.callers[r].phase.next in s.callers
    case Return(r) => At(s, r, Finishing)
    case Enter => s.lock.Free?
    case Exit => s.lock.Outside?
  }

  function Move(s: State, r: Req, p: Phase): State
    requires r in s.callers
  {
    s.(callers := s.callers[r := s.callers[r].(phase := p)])
  }

  /** What a failed unit does to those it took that have no error of their own. */
  function Failed(callers: map<Req, Caller>, batch: seq<Req>): map<Req, Caller> {
    map r | r in callers ::
      if r in batch && !callers[r].outcome.OwnError? then callers[r].(outcome := UnitError) else callers[r]
  }

  function Take(queue: seq<Req>, room: nat): (seq<Req>, seq<Req>) {
    if |queue| <= room then (queue, []) else (queue[..room], queue[room..])
  }

  /** Release a caller's wake lock; releasing it twice is an error. */
  function Woken(s: State, r: Req): State
    requires r in s.callers
  {
    s.(callers := s.callers[r := s.callers[r].(woken := true)], broken := s.broken || s.callers[r].woken)
  }

  function Do(s: State, a: Action): State
    requires Can(s, a)
  {
    match a
    case Arrive(r) =>
      s.(callers := s.callers[r := Caller(if s.leading then Waiting else Holding, false, false, NotRun)],
         arrived := s.arrived + [r], queue := s.queue + [r], leading := true)
    case Wake(r) =>
      var c := s.callers[r];
      s.(callers := s.callers[r := c.(woken := false, phase := if c.settled then Returned else Holding)])
    case TakeLock(r) => Move(s, r, InLock).(lock := Of(r))
    case Begin(r) => s.(unit := V.Some(Unit([], 0, Open, false, 0)))
    case Drain(r) =>
      var u := s.unit.value;
      var (taken, left) := Take(s.queue, BATCH - |u.batch|);
      s.(queue := left, unit := V.Some(u.(batch := u.batch + taken)))
    case RunNext(r, ok) =>
      var u := s.unit.value;
      var q := u.batch[u.ran];
      s.(callers := s.callers[q := s.callers[q].(outcome := if ok then Value else OwnError)],
            unit := V.Some(u.(ran := u.ran + 1)))
    case Commit(r) =>
      var u := s.unit.value;
      s.(unit := V.Some(u.(stage := Closed(true), kept := true)), durable := s.durable + u.batch)
    case Fail(r, kept) =>
      var u := s.unit.value;
      var (taken, left) := if u.batch == [] then Take(s.queue, BATCH) else ([], s.queue);
      var batch := u.batch + taken;
      s.(callers := Failed(s.callers, batch), queue := left,
         unit := V.Some(u.(batch := batch, stage := Closed(false), kept := kept)),
         durable := if kept then s.durable + batch else s.durable)
    case Settle(r) =>
      var u := s.unit.value;
      var q := u.batch[u.done];
      var w := Woken(s, q);
      w.(callers := w.callers[q := w.callers[q].(settled := true)], unit := V.Some(u.(done := u.done + 1)))
    case EndUnit(r) => s.(unit := V.None, past := s.past + [s.unit.value])
    case LeaveLock(r) => Move(s, r, Leaving).(lock := Free)
    case HandOn(r) =>
      Move(s, r, if s.queue == [] then Finishing else Handing(s.queue[0])).(leading := s.queue != [])
    case Release(r) => Woken(Move(s, r, Finishing), s.callers[r].phase.next)
    case Return(r) => Move(s, r, Returned)
    case Enter => s.(lock := Outside)
    case Exit => s.(lock := Free)
  }

  /** A run: every state follows from the one before by a step some thread can take. */
  ghost predicate Run(states: seq<State>, actions: seq<Action>) {
    && |states| == |actions| + 1 && states[0] == START
    && forall i :: 0 <= i < |actions| ==> Can(states[i], actions[i]) && states[i + 1] == Do(states[i], actions[i])
  }

  // -- the invariant ----------------------------------------------------------------

  function Batched(units: seq<Unit>): seq<Req> {
    if |units| == 0 then [] else Batched(units[..|units| - 1]) + units[|units| - 1].batch
  }

  /** What the store kept of the units so far, in order. */
  function KeptBy(units: seq<Unit>): seq<Req> {
    if |units| == 0 then []
    else
      var u := units[|units| - 1];
      KeptBy(units[..|units| - 1]) + (if u.kept then u.batch else [])
  }

  function Current(s: State): seq<Req> {
    if s.unit.Some? then s.unit.value.batch else []
  }

  function Done(s: State): nat {
    if s.unit.Some? then s.unit.value.done else 0
  }

  /** Who was settled: the callers of the past units, and the current one's so far. */
  ghost predicate Order(s: State) {
    && s.arrived == Batched(s.past) + Current(s) + s.queue
    && Distinct(s.arrived)
    && (forall r :: r in s.callers <==> r in s.arrived)
    && Done(s) <= |Current(s)|
    && (forall r :: r in s.callers ==>
          (s.callers[r].settled <==> r in Batched(s.past) || r in Current(s)[..Done(s)]))
  }

  /** A caller's phase and wake lock, given who has the lead. */
  ghost predicate Placed(c: Caller, lead: bool) {
    if c.settled then
      if lead then c.phase.InLock? || c.phase.Leaving? || c.phase.Handing?
      else (c.phase.Waiting? && c.woken) || c.phase.Finishing? || c.phase.Returned?
    else if lead then (c.phase.Waiting? && c.woken) || ((c.phase.Holding? || c.phase.InLock?) && !c.woken)
    else c.phase.Waiting? && !c.woken
  }

  ghost predicate Callers(s: State, t: Option<Req>) {
    forall r :: r in s.callers ==> Placed(s.callers[r], t == V.Some(r))
  }

  /** Who leads, what it leads from, and which lock it holds. */
  ghost predicate Lead(s: State, t: Option<Req>) {
    && !s.broken
    && (s.leading <==> t.Some?)
    && (t.None? ==> s.queue == [] && s.unit.None?)
    && (t.Some? ==> t.value in s.callers && Leader(s, t.value, s.callers[t.value]))
    && (forall r :: s.lock == Of(r) ==> t == V.Some(r) && s.callers[r].phase.InLock?)
  }

  ghost predicate Leader(s: State, t: Req, c: Caller) {
    && (!c.settled ==> if Current(s) == [] then s.queue != [] && s.queue[0] == t else Current(s)[0] == t)
    && (c.phase.InLock? ==> s.lock == Of(t))
    && (s.unit.Some? ==> c.phase.InLock?)
    && (s.unit.Some? && s.unit.value.stage.Open? ==> !c.settled)
    && (s.unit.Some? && s.unit.value.stage.Closed? ==> s.unit.value.batch != [])
    && (c.phase.Handing? ==> s.queue != [] && s.queue[0] == c.phase.next && c.phase.next != t)
  }

  /** What a unit's callers were told, against how it ended. */
  ghost predicate Told(callers: map<Req, Caller>, u: Unit) {
    && u.ran <= |u.batch|
    && (u.stage.Open? ==> u.done == 0 && !u.kept)
    && (forall i :: 0 <= i < |u.batch| ==> u.batch[i] in callers)
    && match u.stage
       case Open =>
         (forall i :: 0 <= i < |u.batch| ==>
            if i < u.ran then callers[u.batch[i]].outcome.Value? || callers[u.batch[i]].outcome.OwnError?
            else callers[u.batch[i]].outcome.NotRun?)
       case Closed(committed) =>
         && (committed ==> u.kept && u.ran == |u.batch|)
         && (forall i :: 0 <= i < |u.batch| ==>
               var o := callers[u.batch[i]].outcome;
               o.OwnError? || (if committed then o.Value? else o.UnitError?))
  }

  ghost predicate Results(s: State) {
    && (forall i :: 0 <= i < |s.past| ==>
          s.past[i].stage.Closed? && s.past[i].done == |s.past[i].batch|
          && Told(s.callers, s.past[i]))
    && (s.unit.Some? ==> Told(s.callers, s.unit.value))
    && (forall i :: 0 <= i < |s.queue| ==> s.queue[i] in s.callers && s.callers[s.queue[i]].outcome.NotRun?)
    && s.durable == KeptBy(s.past) + (if s.unit.Some? && s.unit.value.kept then s.unit.value.batch else [])
    && (forall i :: 0 <= i < |s.past| ==> |s.past[i].batch| <= BATCH)
    && |Current(s)| <= BATCH
  }

  ghost predicate Inv(s: State, t: Option<Req>) {
    Order(s) && Callers(s, t) && Lead(s, t) && Results(s)
  }

  // -- every step keeps it --------------------------------------------------------------

  /** Who has the lead after a step. */
  function NextLead(s: State, t: Option<Req>, a: Action): Option<Req>
    requires Can(s, a)
  {
    match a
    case Arrive(r) => if s.leading then t else V.Some(r)
    case HandOn(_) => if s.queue == [] then V.None else t
    case Release(r) => V.Some(s.callers[r].phase.next)
    case _ => t
  }

  lemma OrderFrame(s: State, u: State)
    requires Order(s) && u.arrived == s.arrived && u.queue == s.queue && u.past == s.past
    requires Current(u) == Current(s) && Done(u) == Done(s) && u.callers.Keys == s.callers.Keys
    requires forall r :: r in s.callers ==> u.callers[r].settled == s.callers[r].settled
    ensures Order(u)
  {
  }

  lemma InOrder(a: seq<Req>, b: seq<Req>, r: Req)
    ensures r in a + b <==> r in a || r in b
  {
  }

  lemma OrderArrive(s: State, r: Req)
    requires Order(s) && Can(s, Arrive(r))
    ensures Order(Do(s, Arrive(r)))
  {
    var u := Do(s, Arrive(r));
    assert u.arrived == Batched(s.past) + Current(s) + (s.queue + [r]);
    assert r !in s.arrived;
    forall x ensures x in u.callers <==> x in u.arrived { InOrder(s.arrived, [r], x); }
    if r in Batched(s.past) || r in Current(s)[..Done(s)] {
      InOrder(Batched(s.past) + Current(s), s.queue, r);
      InOrder(Batched(s.past), Current(s), r);
      assert false;
    }
  }

  /** Moving the front of the queue into the current batch. */
  lemma OrderTake(s: State, u: State, taken: seq<Req>)
    requires Order(s) && s.unit.Some? && u.unit.Some? && u.arrived == s.arrived && u.past == s.past
    requires s.queue == taken + u.queue && Current(u) == Current(s) + taken && Done(u) == Done(s)
    requires u.callers.Keys == s.callers.Keys && forall r ::
               r in s.callers
               ==> u.callers[r].settled == s.callers[r].settled
    ensures Order(u)
  {
    assert Batched(s.past) + Current(s) + (taken + u.queue) == Batched(s.past) + (Current(s) + taken) + u.queue;
    assert Current(u)[..Done(u)] == Current(s)[..Done(s)];
  }

  lemma TakeParts(queue: seq<Req>, room: nat)
    ensures var (taken, left) := Take(queue, room); queue == taken + left && |taken| <= room
    ensures room > 0 && queue != [] ==> Take(queue, room).0 != [] && Take(queue, room).0[0] == queue[0]
  {
  }

  lemma OrderSettle(s: State, r: Req)
    requires Order(s) && Can(s, Settle(r))
    ensures Order(Do(s, Settle(r)))
  {
    var u, q := Do(s, Settle(r)), s.unit.value.batch[Done(s)];
    assert Current(u)[..Done(u)] == Current(s)[..Done(s)] + [q];
    forall x | x in u.callers
      ensures u.callers[x].settled <==> x in Batched(u.past) || x in Current(u)[..Done(u)]
    {
      InOrder(Current(s)[..Done(s)], [q], x);
    }
  }

  lemma OrderEnd(s: State, r: Req)
    requires Order(s) && Can(s, EndUnit(r))
    ensures Order(Do(s, EndUnit(r)))
  {
    var u := Do(s, EndUnit(r));
    assert u.past[..|u.past| - 1] == s.past;
    assert Batched(u.past) == Batched(s.past) + Current(s);
    assert Current(u) == [] && Batched(u.past) + [] == Batched(u.past);
    assert Current(s)[..Done(s)] == Current(s);
    forall x ensures x in Batched(u.past) <==> x in Batched(s.past) || x in Current(s) {
      InOrder(Batched(s.past), Current(s), x);
    }
  }

  /** The steps that move neither the queue nor the batch, and settle nobody. */
  predicate OnlyPhases(a: Action) {
    !a.Arrive? && !a.Drain? && !a.Fail? && !a.Settle? && !a.EndUnit?
  }

  lemma OrderElse(s: State, a: Action)
    requires Order(s) && Can(s, a) && OnlyPhases(a)
    ensures Order(Do(s, a))
  {
    hide Order;
    OrderFrame(s, Do(s, a));
  }

  lemma OrderDrain(s: State, r: Req)
    requires Order(s) && Can(s, Drain(r))
    ensures Order(Do(s, Drain(r)))
  {
    hide Order;
    var room := BATCH - |s.unit.value.batch|;
    TakeParts(s.queue, room);
    OrderTake(s, Do(s, Drain(r)), Take(s.queue, room).0);
  }

  lemma FailedSame(callers: map<Req, Caller>, batch: seq<Req>)
    ensures Failed(callers, batch).Keys == callers.Keys
    ensures forall r :: r in callers ==> Failed(callers, batch)[r].settled == callers[r].settled
  {
  }

  lemma OrderFail(s: State, r: Req, kept: bool)
    requires Order(s) && Can(s, Fail(r, kept))
    ensures Order(Do(s, Fail(r, kept)))
  {
    hide Order, Failed, Take;
    var taken := if s.unit.value.batch == [] then Take(s.queue, BATCH).0 else [];
    TakeParts(s.queue, BATCH);
    FailedSame(s.callers, s.unit.value.batch + taken);
    OrderTake(s, Do(s, Fail(r, kept)), taken);
  }

  lemma OrderStep(s: State, a: Action)
    requires Order(s) && Can(s, a)
    ensures Order(Do(s, a))
  {
    hide Order, Do, Can;
    match a
    case Arrive(r) => OrderArrive(s, r);
    case Drain(r) => OrderDrain(s, r);
    case Fail(r, kept) => OrderFail(s, r, kept);
    case Settle(r) => OrderSettle(s, r);
    case EndUnit(r) => OrderEnd(s, r);
    case _ => OrderElse(s, a);
  }

  lemma CallersArrive(s: State, t: Option<Req>, r: Req)
    requires Callers(s, t) && Lead(s, t) && Can(s, Arrive(r))
    ensures Callers(Do(s, Arrive(r)), NextLead(s, t, Arrive(r)))
  {
  }

  /** A caller about to be settled is asleep, or leads. */
  lemma CallersSettle(s: State, t: Option<Req>, r: Req)
    requires Order(s) && Callers(s, t) && Lead(s, t) && Can(s, Settle(r))
    ensures Callers(Do(s, Settle(r)), t)
  {
    hide Order;
    NextToSettle(s, t, r);
  }

  /** So is one about to be handed the lead. */
  lemma CallersRelease(s: State, t: Option<Req>, r: Req)
    requires Order(s) && Callers(s, t) && Lead(s, t) && Can(s, Release(r))
    ensures Callers(Do(s, Release(r)), NextLead(s, t, Release(r)))
  {
    hide Order;
    Queued(s, s.callers[r].phase.next);
  }

  /** Steps inside a unit that settle nobody change no caller's phase or wake lock. */
  lemma CallersInUnit(s: State, t: Option<Req>, a: Action)
    requires Callers(s, t) && Can(s, a) && OfUnit(a) && !a.Settle?
    ensures Callers(Do(s, a), t)
  {
  }

  lemma CallersElse(s: State, t: Option<Req>, a: Action)
    requires Callers(s, t) && Lead(s, t) && Can(s, a) && !OfUnit(a) && !a.Arrive? && !a.Release?
    ensures Callers(Do(s, a), NextLead(s, t, a))
  {
  }

  lemma CallersStep(s: State, t: Option<Req>, a: Action)
    requires Order(s) && Callers(s, t) && Lead(s, t) && Can(s, a)
    ensures Callers(Do(s, a), NextLead(s, t, a))
  {
    hide Order, Callers, Lead, Do, Can;
    match a
    case Arrive(r) => CallersArrive(s, t, r);
    case Settle(r) => CallersSettle(s, t, r);
    case Release(r) => CallersRelease(s, t, r);
    case _ => if OfUnit(a) { CallersInUnit(s, t, a); } else { CallersElse(s, t, a); }
  }

  /** A queued request is not settled. */
  lemma Queued(s: State, r: Req)
    requires Order(s) && r in s.queue
    ensures r in s.callers && !s.callers[r].settled
  {
    var i :| 0 <= i < |s.queue| && s.queue[i] == r;
    var front := Batched(s.past) + Current(s);
    assert s.arrived == front + s.queue;
    assert s.arrived[|front| + i] == r;
    forall j | 0 <= j < |front| ensures front[j] != r { assert s.arrived[j] == front[j]; }
    InOrder(Batched(s.past), Current(s), r);
  }

  /** Neither is one of the batch whose turn to be settled has not come. */
  lemma NextToSettle(s: State, t: Option<Req>, r: Req)
    requires Order(s) && Can(s, Settle(r))
    ensures var q := s.unit.value.batch[s.unit.value.done]; q in s.callers && !s.callers[q].settled
  {
    var d := s.unit.value.done;
    var q := s.unit.value.batch[d];
    var past := Batched(s.past);
    assert s.arrived == past + (Current(s) + s.queue);
    assert s.arrived[|past| + d] == q;
    forall j | 0 <= j < |past| ensures past[j] != q { assert s.arrived[j] == past[j]; }
    forall j | 0 <= j < d ensures Current(s)[j] != q { assert s.arrived[|past| + j] == Current(s)[j]; }
  }

  lemma AllSettled(s: State, r: Req)
    requires Order(s) && Can(s, EndUnit(r))
    ensures forall i :: 0 <= i < |Current(s)| ==> Current(s)[i] in s.callers && s.callers[Current(s)[i]].settled
  {
    assert Current(s)[..Done(s)] == Current(s);
    forall i | 0 <= i < |Current(s)| ensures Current(s)[i] in s.callers {
      assert s.arrived[|Batched(s.past)| + i] == Current(s)[i];
    }
  }

  predicate OfUnit(a: Action) {
    a.Begin? || a.Drain? || a.RunNext? || a.Commit? || a.Fail? || a.Settle? || a.EndUnit?
  }

  lemma LeadSettle(s: State, t: Option<Req>, r: Req)
    requires Order(s) && Callers(s, t) && Lead(s, t) && Can(s, Settle(r))
    ensures Lead(Do(s, Settle(r)), t)
  {
    hide Order;
    NextToSettle(s, t, r);
  }

  lemma LeadFail(s: State, t: Option<Req>, r: Req, kept: bool)
    requires Callers(s, t) && Lead(s, t) && Can(s, Fail(r, kept))
    ensures Lead(Do(s, Fail(r, kept)), t)
  {
    TakeParts(s.queue, BATCH);
  }

  lemma LeadDrain(s: State, t: Option<Req>, r: Req)
    requires Callers(s, t) && Lead(s, t) && Can(s, Drain(r))
    ensures Lead(Do(s, Drain(r)), t)
  {
    TakeParts(s.queue, BATCH - |s.unit.value.batch|);
  }

  lemma LeadEnd(s: State, t: Option<Req>, r: Req)
    requires Order(s) && Callers(s, t) && Lead(s, t) && Can(s, EndUnit(r))
    ensures Lead(Do(s, EndUnit(r)), t)
  {
    hide Order;
    AllSettled(s, r);
  }

  lemma LeadWorks(s: State, t: Option<Req>, a: Action)
    requires Callers(s, t) && Lead(s, t) && Can(s, a) && (a.Begin? || a.RunNext? || a.Commit?)
    ensures Lead(Do(s, a), t)
  {
  }

  lemma LeadInUnit(s: State, t: Option<Req>, a: Action)
    requires Order(s) && Callers(s, t) && Lead(s, t) && Can(s, a) && OfUnit(a)
    ensures Lead(Do(s, a), t)
  {
    hide Order, Callers, Lead, Do, Can;
    match a
    case Settle(r) => LeadSettle(s, t, r);
    case Fail(r, kept) => LeadFail(s, t, r, kept);
    case Drain(r) => LeadDrain(s, t, r);
    case EndUnit(r) => LeadEnd(s, t, r);
    case _ => LeadWorks(s, t, a);
  }

  /** The lead passes on: to nobody over an empty queue, else to the oldest queued. */
  lemma LeadHandOn(s: State, t: Option<Req>, r: Req)
    requires Order(s) && Callers(s, t) && Lead(s, t) && Can(s, HandOn(r))
    ensures Lead(Do(s, HandOn(r)), NextLead(s, t, HandOn(r)))
  {
    hide Order;
    assert t == V.Some(r);
    if s.queue != [] { Queued(s, s.queue[0]); }
  }

  lemma LeadRelease(s: State, t: Option<Req>, r: Req)
    requires Order(s) && Callers(s, t) && Lead(s, t) && Can(s, Release(r))
    ensures Lead(Do(s, Release(r)), NextLead(s, t, Release(r)))
  {
    hide Order;
    assert t == V.Some(r);
    Queued(s, s.callers[r].phase.next);
  }

  lemma LeadElse(s: State, t: Option<Req>, a: Action)
    requires Callers(s, t) && Lead(s, t) && Can(s, a) && !OfUnit(a) && !a.HandOn? && !a.Release?
    ensures Lead(Do(s, a), NextLead(s, t, a))
  {
  }

  lemma LeadStep(s: State, t: Option<Req>, a: Action)
    requires Order(s) && Callers(s, t) && Lead(s, t) && Can(s, a)
    ensures Lead(Do(s, a), NextLead(s, t, a))
  {
    hide Order, Callers, Lead;
    if OfUnit(a) {
      LeadInUnit(s, t, a);
    } else if a.HandOn? {
      LeadHandOn(s, t, a.r);
    } else if a.Release? {
      LeadRelease(s, t, a.r);
    } else {
      LeadElse(s, t, a);
    }
  }

  // -- what callers are told -------------------------------------------------------------

  lemma ToldFrame(a: map<Req, Caller>, b: map<Req, Caller>, u: Unit)
    requires Told(a, u) && forall r :: r in a ==> r in b && b[r].outcome == a[r].outcome
    ensures Told(b, u)
  {
  }

  lemma ToldElsewhere(a: map<Req, Caller>, b: map<Req, Caller>, u: Unit)
    requires Told(a, u) && forall r :: r in u.batch && r in a ==> r in b && b[r].outcome == a[r].outcome
    ensures Told(b, u)
  {
    forall i | 0 <= i < |u.batch| ensures u.batch[i] in b && b[u.batch[i]].outcome == a[u.batch[i]].outcome {
      assert u.batch[i] in u.batch;
    }
  }

  lemma ResultsFrame(s: State, u: State)
    requires Results(s) && u.queue == s.queue && u.past == s.past && u.unit == s.unit && u.durable == s.durable
    requires forall r :: r in s.callers ==> r in u.callers && u.callers[r].outcome == s.callers[r].outcome
    ensures Results(u)
  {
    hide Told, KeptBy;
    forall i | 0 <= i < |s.past| ensures Told(u.callers, s.past[i]) { ToldFrame(s.callers, u.callers, s.past[i]); }
    if s.unit.Some? { ToldFrame(s.callers, u.callers, s.unit.value); }
  }

  /** The past units' callers are none of the current unit's, nor of the queue's. */
  lemma {:induction false} PastOf(units: seq<Unit>, i: nat, r: Req)
    requires i < |units| && r in units[i].batch
    ensures r in Batched(units)
  {
    var init, last := units[..|units| - 1], units[|units| - 1];
    InOrder(Batched(init), last.batch, r);
    if i < |init| { PastOf(init, i, r); }
  }

  lemma Apart(s: State, i: nat, r: Req)
    requires Order(s) && i < |s.past| && r in s.past[i].batch
    ensures r !in Current(s) && r !in s.queue
  {
    PastOf(s.past, i, r);
    var past, rest := Batched(s.past), Current(s) + s.queue;
    assert s.arrived == past + rest;
    var k :| 0 <= k < |past| && past[k] == r;
    forall j | 0 <= j < |rest| ensures rest[j] != r { assert s.arrived[|past| + j] == rest[j] && s.arrived[k] == r; }
    InOrder(Current(s), s.queue, r);
  }

  lemma ResultsArrive(s: State, r: Req)
    requires Order(s) && Results(s) && Can(s, Arrive(r))
    ensures Results(Do(s, Arrive(r)))
  {
    hide Told, KeptBy, Order;
    var u := Do(s, Arrive(r));
    forall i | 0 <= i < |s.past| ensures Told(u.callers, s.past[i]) { ToldFrame(s.callers, u.callers, s.past[i]); }
    if s.unit.Some? { ToldFrame(s.callers, u.callers, s.unit.value); }
  }

  lemma ToldDrain(callers: map<Req, Caller>, u: Unit, taken: seq<Req>)
    requires Told(callers, u) && u.stage.Open?
    requires forall i :: 0 <= i < |taken| ==> taken[i] in callers && callers[taken[i]].outcome.NotRun?
    ensures Told(callers, u.(batch := u.batch + taken))
  {
  }

  lemma ResultsDrain(s: State, r: Req)
    requires Results(s) && Can(s, Drain(r))
    ensures Results(Do(s, Drain(r)))
  {
    hide Told, KeptBy;
    var u, room := s.unit.value, BATCH - |s.unit.value.batch|;
    TakeParts(s.queue, room);
    var taken := Take(s.queue, room).0;
    forall i | 0 <= i < |taken| ensures taken[i] in s.callers
          && s.callers[taken[i]].outcome.NotRun? { assert taken[i] == s.queue[i]; }
    ToldDrain(s.callers, u, taken);
    KeptFlag(s.callers, u);
  }

  lemma KeptFlag(callers: map<Req, Caller>, u: Unit)
    requires Told(callers, u) && u.stage.Open?
    ensures !u.kept && u.done == 0 && u.ran <= |u.batch|
  {
  }

  /** The callers of a batch and of the queue behind it are all different. */
  lemma BatchDistinct(s: State)
    requires Order(s)
    ensures Distinct(Current(s)) && forall r :: r in Current(s) ==> r !in s.queue
  {
    var past, rest := Batched(s.past), Current(s) + s.queue;
    assert s.arrived == past + rest;
    assert forall i :: 0 <= i < |rest| ==> s.arrived[|past| + i] == rest[i];
    assert forall i :: 0 <= i < |Current(s)| ==> rest[i] == Current(s)[i];
    assert forall i :: 0 <= i < |s.queue| ==> rest[|Current(s)| + i] == s.queue[i];
  }

  lemma ToldRun(a: map<Req, Caller>, b: map<Req, Caller>, u: Unit)
    requires Told(a, u) && u.stage.Open? && u.ran < |u.batch| && Distinct(u.batch)
    requires forall r :: r in a && r != u.batch[u.ran] ==> r in b && b[r] == a[r]
    requires u.batch[u.ran] in b && (b[u.batch[u.ran]].outcome.Value? || b[u.batch[u.ran]].outcome.OwnError?)
    ensures Told(b, u.(ran := u.ran + 1))
  {
  }

  lemma ResultsRun(s: State, r: Req, ok: bool)
    requires Order(s) && Results(s) && Can(s, RunNext(r, ok))
    ensures Results(Do(s, RunNext(r, ok)))
  {
    hide Told, KeptBy, Order;
    var u, d := s.unit.value, Do(s, RunNext(r, ok));
    var q := u.batch[u.ran];
    assert q in Current(s);
    BatchDistinct(s);
    KeptFlag(s.callers, u);
    ToldRun(s.callers, d.callers, u);
    forall i | 0 <= i < |s.past| ensures Told(d.callers, s.past[i]) {
      if q in s.past[i].batch { Apart(s, i, q); }
      ToldElsewhere(s.callers, d.callers, s.past[i]);
    }
    forall i | 0 <= i < |s.queue| ensures s.queue[i] in d.callers && d.callers[s.queue[i]].outcome.NotRun? {
      assert s.queue[i] in s.queue;
    }
  }

  lemma ResultsCommit(s: State, r: Req)
    requires Results(s) && Can(s, Commit(r))
    ensures Results(Do(s, Commit(r)))
  {
    hide KeptBy;
    assert KeptBy(s.past) + [] == KeptBy(s.past);
  }

  lemma ToldFail(a: map<Req, Caller>, u: Unit, taken: seq<Req>, kept: bool)
    requires Told(a, u) && u.stage.Open? && forall i :: 0 <= i < |taken| ==> taken[i] in a
    ensures Told(Failed(a, u.batch + taken), u.(batch := u.batch + taken, stage := Closed(false), kept := kept))
  {
    var batch := u.batch + taken;
    forall i | 0 <= i < |batch|
      ensures batch[i] in a
      ensures var o := Failed(a, batch)[batch[i]].outcome; o.OwnError? || o.UnitError?
    {
      assert batch[i] in batch;
    }
  }

  /** Neither the past units' callers nor those left in the queue notice. */
  lemma FailSpares(s: State, taken: seq<Req>, left: seq<Req>)
    requires Order(s) && Results(s) && s.queue == taken + left
    ensures forall i :: 0 <= i < |s.past| ==> Told(Failed(s.callers, Current(s) + taken), s.past[i])
    ensures var after := Failed(s.callers, Current(s) + taken);
            forall i :: 0 <= i < |left| ==> left[i] in after && after[left[i]].outcome.NotRun?
  {
    hide Told, KeptBy, Order, Failed;
    var batch := Current(s) + taken;
    var after := Failed(s.callers, batch);
    forall i | 0 <= i < |s.past| ensures Told(after, s.past[i]) {
      forall q | q in s.past[i].batch && q in s.callers ensures q in after && after[q].outcome == s.callers[q].outcome {
        Apart(s, i, q);
        InOrder(taken, left, q);
        FailedElsewhere(s.callers, batch, q);
      }
      ToldElsewhere(s.callers, after, s.past[i]);
    }
    BatchDistinctAfter(s, taken, left);
    forall i | 0 <= i < |left| ensures left[i] in after && after[left[i]].outcome.NotRun? {
      assert left[i] == s.queue[|taken| + i];
      assert left[i] in left;
      FailedElsewhere(s.callers, batch, left[i]);
    }
  }

  lemma ResultsFail(s: State, r: Req, kept: bool)
    requires Order(s) && Results(s) && Can(s, Fail(r, kept))
    ensures Results(Do(s, Fail(r, kept)))
  {
    hide Told, KeptBy, Order, Failed;
    var u, d := s.unit.value, Do(s, Fail(r, kept));
    KeptFlag(s.callers, u);
    TakeParts(s.queue, BATCH);
    var taken := if u.batch == [] then Take(s.queue, BATCH).0 else [];
    assert s.queue == taken + d.queue;
    forall i | 0 <= i < |taken| ensures taken[i] in s.callers { assert taken[i] == s.queue[i]; }
    ToldFail(s.callers, u, taken, kept);
    FailSpares(s, taken, d.queue);
    assert KeptBy(s.past) + [] == KeptBy(s.past);
  }

  lemma FailedElsewhere(a: map<Req, Caller>, batch: seq<Req>, q: Req)
    requires q in a && q !in batch
    ensures q in Failed(a, batch) && Failed(a, batch)[q] == a[q]
  {
  }

  lemma BatchDistinctAfter(s: State, taken: seq<Req>, left: seq<Req>)
    requires Order(s) && s.queue == taken + left
    ensures forall q :: q in left ==> q !in Current(s) + taken
  {
    var front := Batched(s.past) + (Current(s) + taken);
    assert s.arrived == front + left;
    forall i, j | 0 <= i < |left| && 0 <= j < |Current(s) + taken| ensures left[i] != (Current(s) + taken)[j] {
      assert s.arrived[|front| + i] == left[i] && s.arrived[|Batched(s.past)| + j] == (Current(s) + taken)[j];
    }
  }

  lemma ResultsSettle(s: State, r: Req)
    requires Results(s) && Can(s, Settle(r))
    ensures Results(Do(s, Settle(r)))
  {
    hide Told, KeptBy;
    var u, d := s.unit.value, Do(s, Settle(r));
    forall i | 0 <= i < |s.past| ensures Told(d.callers, s.past[i]) { ToldFrame(s.callers, d.callers, s.past[i]); }
    ToldFrame(s.callers, d.callers, u);
    ToldDone(d.callers, u, u.done + 1);
  }

  lemma ToldDone(callers: map<Req, Caller>, u: Unit, done: nat)
    requires Told(callers, u) && u.stage.Closed?
    ensures Told(callers, u.(done := done))
  {
  }

  lemma ResultsEnd(s: State, r: Req)
    requires Results(s) && Can(s, EndUnit(r))
    ensures Results(Do(s, EndUnit(r)))
  {
    hide Told;
    var d := Do(s, EndUnit(r));
    assert d.past[..|d.past| - 1] == s.past;
    assert KeptBy(d.past) + [] == KeptBy(d.past);
  }

  lemma ResultsBegin(s: State, r: Req)
    requires Results(s) && Can(s, Begin(r))
    ensures Results(Do(s, Begin(r)))
  {
    hide KeptBy;
    forall i | 0 <= i < |s.past| ensures Told(s.callers, s.past[i]) {}
  }

  lemma ResultsStep(s: State, a: Action)
    requires Order(s) && Results(s) && Can(s, a)
    ensures Results(Do(s, a))
  {
    hide Results, Order;
    match a
    case Arrive(r) => ResultsArrive(s, r);
    case Begin(r) => ResultsBegin(s, r);
    case Drain(r) => ResultsDrain(s, r);
    case RunNext(r, ok) => ResultsRun(s, r, ok);
    case Commit(r) => ResultsCommit(s, r);
    case Fail(r, kept) => ResultsFail(s, r, kept);
    case Settle(r) => ResultsSettle(s, r);
    case EndUnit(r) => ResultsEnd(s, r);
    case _ => ResultsFrame(s, Do(s, a));
  }

  // -- every run -----------------------------------------------------------------------------

  /** The lead along a run: at most one caller has it at any time. */
  ghost function LeadAfter(states: seq<State>, actions: seq<Action>, n: nat): Option<Req>
    requires Run(states, actions) && n <= |actions|
  {
    if n == 0 then V.None else NextLead(states[n - 1], LeadAfter(states, actions, n - 1), actions[n - 1])
  }

  lemma {:induction false} EveryRunKeeps(states: seq<State>, actions: seq<Action>, n: nat)
    requires Run(states, actions) && n <= |actions|
    ensures Inv(states[n], LeadAfter(states, actions, n))
  {
    hide Order, Callers, Lead, Results, Can, Do, NextLead;
    if n == 0 {
      StartKeeps();
    } else {
      EveryRunKeeps(states, actions, n - 1);
      var s, t, a := states[n - 1], LeadAfter(states, actions, n - 1), actions[n - 1];
      assert Can(s, a) && states[n - 1 + 1] == Do(s, a);
      OrderStep(s, a);
      CallersStep(s, t, a);
      LeadStep(s, t, a);
      ResultsStep(s, a);
    }
  }

  lemma StartKeeps()
    ensures Inv(START, V.None)
  {
  }

  // -- what the protocol promises ------------------------------------------------------------

  predicate HasLead(c: Caller) {
    c.phase.Holding? || c.phase.InLock? || c.phase.Leaving? || c.phase.Handing?
          || (c.phase.Waiting? && c.woken && !c.settled)
  }

  /** At every moment of every run: the flag is down only over an empty queue, and at
      most one caller leads or has been handed the lead; a unit is in progress only
      while that caller holds the governor's lock; no wake lock is released twice. */
  lemma OneLeader(states: seq<State>, actions: seq<Action>, n: nat)
    requires Run(states, actions) && n <= |actions|
    ensures var s := states[n];
            && (!s.leading ==> s.queue == [] && s.unit.None?)
            && (forall a, b :: a in s.callers && b in s.callers && HasLead(s.callers[a]) && HasLead(s.callers[b])
                  ==> a == b)
            && (s.leading <==> exists r :: r in s.callers && HasLead(s.callers[r]))
            && (s.unit.Some? ==> s.lock.Of? && s.lock.r in s.callers && HasLead(s.callers[s.lock.r]))
            && !s.broken
  {
    EveryRunKeeps(states, actions, n);
    hide Order, Results;
    var t := LeadAfter(states, actions, n);
    assert t.Some? ==> HasLead(states[n].callers[t.value]);
  }

  /** Requests are run in the order they came, each at most once, and each settled
      exactly once, with its unit: those settled are a prefix of those that came, cut
      into units, and what the store kept is in that order too. */
  lemma InQueueOrder(states: seq<State>, actions: seq<Action>, n: nat)
    requires Run(states, actions) && n <= |actions|
    ensures var s := states[n];
            && Batched(s.past) + Current(s) + s.queue == s.arrived && Distinct(s.arrived)
            && (forall i :: 0 <= i < |s.past| ==>
                  0 <= s.past[i].ran <= |s.past[i].batch| <= BATCH
                  && s.past[i].stage.Closed?)
            && Done(s) <= |Current(s)|
            && (forall r :: r in s.callers && s.callers[r].settled <==>
                  r in Batched(s.past)
                  || r in Current(s)[..Done(s)])
            && s.durable == KeptBy(s.past) + (if s.unit.Some? && s.unit.value.kept then s.unit.value.batch else [])
  {
    EveryRunKeeps(states, actions, n);
    hide Callers, Lead;
    var s := states[n];
    forall r | r in Batched(s.past) || r in Current(s)[..Done(s)] ensures r in s.callers {
      InOrder(Batched(s.past), Current(s), r);
      InOrder(Batched(s.past) + Current(s), s.queue, r);
    }
  }

  lemma {:induction false} KeptIn(units: seq<Unit>, i: nat, r: Req)
    requires i < |units| && units[i].kept && r in units[i].batch
    ensures r in KeptBy(units)
  {
    var init, last := units[..|units| - 1], units[|units| - 1];
    InOrder(KeptBy(init), if last.kept then last.batch else [], r);
    if i < |init| { KeptIn(init, i, r); }
  }

  lemma {:induction false} BatchedIn(units: seq<Unit>, r: Req) returns (i: nat)
    requires r in Batched(units)
    ensures i < |units| && r in units[i].batch
  {
    var init, last := units[..|units| - 1], units[|units| - 1];
    InOrder(Batched(init), last.batch, r);
    if r in last.batch { i := |init|; } else { i := BatchedIn(init, r); }
  }

  /** A unit that ended, and what it told one of its callers. */
  ghost predicate EndedWith(s: State, u: Unit, r: Req) {
    && (u in s.past || s.unit == V.Some(u)) && r in u.batch && u.stage.Closed? && r in s.callers
    && (if u.stage.committed then !s.callers[r].outcome.UnitError? else !s.callers[r].outcome.Value?)
  }

  lemma ToldOne(callers: map<Req, Caller>, u: Unit, r: Req)
    requires Told(callers, u) && u.stage.Closed? && r in u.batch
    ensures r in callers && !callers[r].outcome.NotRun? && (callers[r].outcome.Value? ==> u.kept)
    ensures if u.stage.committed then !callers[r].outcome.UnitError? else !callers[r].outcome.Value?
  {
    var i :| 0 <= i < |u.batch| && u.batch[i] == r;
  }

  lemma ReturnedIsSettled(s: State, t: Option<Req>, r: Req)
    requires Order(s) && Callers(s, t) && r in s.callers && s.callers[r].phase.Returned?
    ensures s.callers[r].settled && Done(s) <= |Current(s)| && (r in Batched(s.past) || r in Current(s)[..Done(s)])
  {
    hide Batched;
  }

  /** No caller is given a result before its unit ended as a whole: one that returned
      without an error rode in a unit the store kept, and every failure is its own or
      its unit's. */
  lemma ResultsAfterCommit(states: seq<State>, actions: seq<Action>, n: nat, r: Req)
    requires Run(states, actions) && n <= |actions| && r in states[n].callers && states[n].callers[r].phase.Returned?
    ensures var s := states[n];
            && s.callers[r].settled && !s.callers[r].outcome.NotRun?
            && (s.callers[r].outcome.Value? ==> r in s.durable)
            && exists u :: EndedWith(s, u, r)
  {
    EveryRunKeeps(states, actions, n);
    hide Callers, Lead, Run, KeptBy, Batched, Told, Order;
    var s := states[n];
    ReturnedIsSettled(s, LeadAfter(states, actions, n), r);
    var now := if s.unit.Some? && s.unit.value.kept then s.unit.value.batch else [];
    InOrder(KeptBy(s.past), now, r);
    if r in Batched(s.past) {
      var i := BatchedIn(s.past, r);
      ToldOne(s.callers, s.past[i], r);
      if s.past[i].kept { KeptIn(s.past, i, r); }
      assert EndedWith(s, s.past[i], r);
    } else {
      OpenUnsettled(s.callers, s.unit.value);
      ToldOne(s.callers, s.unit.value, r);
      assert EndedWith(s, s.unit.value, r);
    }
  }

  lemma OpenUnsettled(callers: map<Req, Caller>, u: Unit)
    requires Told(callers, u)
    ensures u.stage.Open? ==> u.done == 0
  {
  }

  /** Whether a step is the protocol's own: no arrival, no outsider, no failure. */
  predicate Own(a: Action) { !a.Arrive? && !a.Enter? && !a.Exit? && !a.Fail? }

  /** No caller is forgotten: while one has not returned, some thread of the protocol
      can take a step, unless an outsider is inside the governor's lock. */
  lemma NobodyIsForgotten(states: seq<State>, actions: seq<Action>, n: nat, r: Req)
    requires Run(states, actions) && n <= |actions| && !states[n].lock.Outside?
    requires r in states[n].callers && !states[n].callers[r].phase.Returned?
    ensures exists a :: Own(a) && Can(states[n], a)
  {
    EveryRunKeeps(states, actions, n);
    var s, t := states[n], LeadAfter(states, actions, n);
    hide Run, Can;
    var c := s.callers[r];
    if c.settled && t != V.Some(r) {
      if c.phase.Waiting? { CanWake(s, r); } else { CanReturn(s, r); }
    } else {
      if t.None? { NoLeadAllSettled(s, r); }
      LeaderMoves(s, t.value);
    }
  }

  lemma CanWake(s: State, r: Req)
    requires At(s, r, Waiting) && s.callers[r].woken
    ensures Can(s, Wake(r)) && Own(Wake(r))
  {
  }

  lemma CanReturn(s: State, r: Req)
    requires At(s, r, Finishing)
    ensures Can(s, Return(r)) && Own(Return(r))
  {
  }

  lemma NoLeadAllSettled(s: State, r: Req)
    requires Order(s) && Lead(s, V.None) && r in s.callers
    ensures s.callers[r].settled
  {
    assert Current(s) == [] && Batched(s.past) + [] + [] == Batched(s.past);
  }

  lemma LeaderMoves(s: State, t: Req)
    requires Order(s) && Callers(s, V.Some(t)) && Lead(s, V.Some(t)) && Results(s) && !s.lock.Outside?
    ensures exists a :: Own(a) && Can(s, a)
  {
    hide Order, Results;
    var c := s.callers[t];
    match c.phase
    case Waiting => CanWake(s, t);
    case Holding => assert Can(s, TakeLock(t)) && Own(TakeLock(t));
    case Leaving => assert Can(s, HandOn(t)) && Own(HandOn(t));
    case Handing(x) => Queued(s, x); assert Can(s, Release(t)) && Own(Release(t));
    case InLock => InsideMoves(s, t);
  }

  lemma InsideMoves(s: State, t: Req)
    requires Order(s) && Lead(s, V.Some(t)) && Results(s) && At(s, t, InLock)
    ensures exists a :: Own(a) && Can(s, a)
  {
    hide KeptBy, Batched, Order;
    if s.unit.None? {
      if s.callers[t].settled { assert Can(s, LeaveLock(t)) && Own(LeaveLock(t)); }
            else { assert Can(s, Begin(t)) && Own(Begin(t)); }
    } else {
      var u := s.unit.value;
      BatchDone(s);
      if u.stage.Open? {
        if u.ran < |u.batch| {
          assert Can(s, RunNext(t, true)) && Own(RunNext(t, true));
        } else if u.ran == BATCH || s.queue == [] {
          assert Can(s, Commit(t)) && Own(Commit(t));
        } else {
          assert Can(s, Drain(t)) && Own(Drain(t));
        }
      } else if u.done < |u.batch| {
        assert Can(s, Settle(t)) && Own(Settle(t));
      } else {
        assert Can(s, EndUnit(t)) && Own(EndUnit(t));
      }
    }
  }

  lemma BatchDone(s: State)
    requires Order(s)
    ensures Done(s) <= |Current(s)|
  {
  }

  // -- every caller returns -----------------------------------------------------------------

  /** How far a caller is from returning, but for what its unit has to do. */
  function Weight(p: Phase): nat {
    match p
    case Waiting => 9 case Holding => 8 case InLock => 4 case Leaving => 3
    case Handing(_) => 2 case Finishing => 1 case Returned => 0
  }

  function Phases(order: seq<Req>, callers: map<Req, Caller>): nat {
    if |order| == 0 then 0
    else
      var r := order[|order| - 1];
      Phases(order[..|order| - 1], callers) + if r in callers then Weight(callers[r].phase) else 0
  }

  /** What is left to drain, run and settle. */
  function Items(s: State): int {
    3 * |s.queue| +
    match s.unit
    case None => 0
    case Some(u) => if u.stage.Open? then 2 * |u.batch| - u.ran else |u.batch| - u.done
  }

  /** What is left of the unit itself: to begin, to close, to end. */
  function Stages(s: State): nat {
    match s.unit
    case Some(u) => if u.stage.Open? then 2 else 1
    case None => if s.lock.Of? && s.lock.r in s.callers && !s.callers[s.lock.r].settled then 3 else 0
  }

  /** The steps the protocol has left, until someone arrives or an outsider comes. */
  function Left(s: State): int { Phases(s.arrived, s.callers) + Items(s) + Stages(s) }

  lemma {:induction false} PhasesSame(order: seq<Req>, a: map<Req, Caller>, b: map<Req, Caller>)
    requires a.Keys == b.Keys && forall r :: r in a ==> a[r].phase == b[r].phase
    ensures Phases(order, a) == Phases(order, b)
  {
    if |order| > 0 { PhasesSame(order[..|order| - 1], a, b); }
  }

  lemma {:induction false} PhasesMove(order: seq<Req>, a: map<Req, Caller>, b: map<Req, Caller>, r: Req)
    requires Distinct(order) && r in order && r in a && a.Keys == b.Keys && forall x ::
               x in a && x != r
               ==> a[x].phase == b[x].phase
    ensures Phases(order, b) == Phases(order, a) - Weight(a[r].phase) + Weight(b[r].phase)
  {
    var init, last := order[..|order| - 1], order[|order| - 1];
    if last == r {
      assert r !in init;
      PhasesApart(init, a, b, r);
    } else {
      assert r in init;
      PhasesMove(init, a, b, r);
    }
  }

  lemma {:induction false} PhasesApart(order: seq<Req>, a: map<Req, Caller>, b: map<Req, Caller>, r: Req)
    requires r !in order && a.Keys == b.Keys && forall x :: x in a && x != r ==> a[x].phase == b[x].phase
    ensures Phases(order, a) == Phases(order, b)
  {
    if |order| > 0 {
      assert order[|order| - 1] in order;
      PhasesApart(order[..|order| - 1], a, b, r);
    }
  }

  /** A step inside a unit changes no phase, and leaves less of the unit to do. */
  lemma LeftInUnit(s: State, t: V.Option<Req>, a: Action)
    requires Inv(s, t) && Can(s, a) && OfUnit(a)
    ensures Left(Do(s, a)) < Left(s)
  {
    UnitPhases(s, a);
    ItemsFall(s, t, a);
    hide Do, Inv, Phases, Items, Stages;
  }

  lemma UnitPhases(s: State, a: Action)
    requires Can(s, a) && OfUnit(a)
    ensures Do(s, a).arrived == s.arrived && Phases(s.arrived, Do(s, a).callers) == Phases(s.arrived, s.callers)
  {
    hide Phases;
    PhasesSame(s.arrived, s.callers, Do(s, a).callers);
  }

  lemma ItemsFall(s: State, t: V.Option<Req>, a: Action)
    requires Inv(s, t) && Can(s, a) && OfUnit(a)
    ensures Items(Do(s, a)) + Stages(Do(s, a)) < Items(s) + Stages(s)
  {
    hide Inv, Do, Can, Items, Stages;
    if a.EndUnit? { EndFalls(s, t, a.r); } else { WorkFalls(s, t, a); }
  }

  lemma EndFalls(s: State, t: V.Option<Req>, r: Req)
    requires Inv(s, t) && Can(s, EndUnit(r))
    ensures Items(Do(s, EndUnit(r))) + Stages(Do(s, EndUnit(r))) < Items(s) + Stages(s)
  {
    hide Order, Callers, Results;
    AllSettled(s, r);
  }

  lemma WorkFalls(s: State, t: V.Option<Req>, a: Action)
    requires Inv(s, t) && Can(s, a) && OfUnit(a) && !a.EndUnit?
    ensures Items(Do(s, a)) + Stages(Do(s, a)) < Items(s) + Stages(s)
  {
    hide Failed, Order, Callers, Results;
    match a
    case Begin(_) => BeginsLocked(s, t, a.r);
    case Drain(_) => TakeParts(s.queue, BATCH - |s.unit.value.batch|);
    case Fail(_, _) =>
      TakeParts(s.queue, BATCH);
      RanWithin(s, t);
    case Commit(_) => RanWithin(s, t);
    case _ =>
  }

  lemma BeginsLocked(s: State, t: V.Option<Req>, r: Req)
    requires Inv(s, t) && Can(s, Begin(r))
    ensures s.lock == Of(r)
  {
    hide Order, Results;
  }

  lemma RanWithin(s: State, t: V.Option<Req>)
    requires Inv(s, t) && s.unit.Some?
    ensures s.unit.value.ran <= |s.unit.value.batch| && (s.unit.value.stage.Open? ==> s.unit.value.done == 0)
  {
    hide Order, Callers, Lead, KeptBy;
  }

  /** A caller's own step brings it nearer to returning. */
  lemma LeftOutside(s: State, t: V.Option<Req>, a: Action)
    requires Inv(s, t) && Can(s, a) && OfCaller(a)
    ensures Left(Do(s, a)) < Left(s)
  {
    PhaseFalls(s, t, a);
    StagesOutside(s, t, a);
    hide Do, Inv, Phases, Stages;
  }

  predicate OfCaller(a: Action) { !OfUnit(a) && !a.Arrive? && !a.Enter? && !a.Exit? }

  lemma Known(s: State, r: Req)
    requires Order(s) && r in s.callers
    ensures Distinct(s.arrived) && r in s.arrived
  {
    hide Batched;
  }

  /** Only the phase of the caller that steps changes, and it falls. */
  lemma OnlyItsPhase(s: State, a: Action)
    requires Can(s, a) && OfCaller(a)
    ensures var d := Do(s, a);
            && d.arrived == s.arrived && a.r in s.callers && d.callers.Keys == s.callers.Keys
            && (forall x :: x in s.callers && x != a.r ==> s.callers[x].phase == d.callers[x].phase)
            && Weight(d.callers[a.r].phase) <= Weight(s.callers[a.r].phase) - (if a.TakeLock? then 4 else 1)
  {
  }

  lemma PhaseFalls(s: State, t: V.Option<Req>, a: Action)
    requires Inv(s, t) && Can(s, a) && OfCaller(a)
    ensures Do(s, a).arrived == s.arrived
    ensures Phases(s.arrived, Do(s, a).callers) <= Phases(s.arrived, s.callers) - (if a.TakeLock? then 4 else 1)
  {
    hide Phases, Order, Results, Lead, Callers, Do, Can;
    OnlyItsPhase(s, a);
    Known(s, a.r);
    PhasesMove(s.arrived, s.callers, Do(s, a).callers, a.r);
  }

  lemma StagesOutside(s: State, t: V.Option<Req>, a: Action)
    requires Inv(s, t) && Can(s, a) && OfCaller(a)
    ensures Items(Do(s, a)) == Items(s) && Stages(Do(s, a)) <= Stages(s) + (if a.TakeLock? then 3 else 0)
  {
    hide Phases, Batched, KeptBy, Results, Order;
  }

  lemma LeftStep(s: State, t: V.Option<Req>, a: Action)
    requires Inv(s, t) && Can(s, a)
    ensures Left(s) >= 0
    ensures !a.Arrive? && !a.Enter? && !a.Exit? ==> Left(Do(s, a)) < Left(s)
  {
    LeftPositive(s, t);
    hide Inv, Do, Can, Left;
    if !a.Arrive? && !a.Enter? && !a.Exit? {
      if OfUnit(a) { LeftInUnit(s, t, a); } else { LeftOutside(s, t, a); }
    }
  }

  lemma LeftPositive(s: State, t: V.Option<Req>)
    requires Inv(s, t)
    ensures Left(s) >= 0
  {
    hide Phases, Batched, KeptBy, Callers, Lead;
  }

  /** From any moment of any run, until someone arrives or an outsider takes or leaves the
      governor's lock, the protocol takes no more steps than it has left; and when it can
      take none, with no outsider inside, every caller has returned. */
  lemma {:induction false} EveryCallerReturns(states: seq<State>, actions: seq<Action>, n: nat, m: nat)
    requires Run(states, actions) && n <= m <= |actions|
    requires forall i :: n <= i < m ==> !actions[i].Arrive? && !actions[i].Enter? && !actions[i].Exit?
    ensures 0 <= Left(states[m]) <= Left(states[n]) - (m - n)
    ensures !states[m].lock.Outside? && (forall a :: Own(a) ==> !Can(states[m], a)) ==>
              forall r :: r in states[m].callers ==> states[m].callers[r].phase.Returned?
    decreases m
  {
    hide Left, Inv, Do, Can;
    EveryRunKeeps(states, actions, m);
    LeftPositive(states[m], LeadAfter(states, actions, m));
    if n < m {
      EveryCallerReturns(states, actions, n, m - 1);
      EveryRunKeeps(states, actions, m - 1);
      var s, a := states[m - 1], actions[m - 1];
      assert Can(s, a) && states[m - 1 + 1] == Do(s, a);
      LeftStep(s, LeadAfter(states, actions, m - 1), a);
    }
    if !states[m].lock.Outside? && (forall a :: Own(a) ==> !Can(states[m], a)) {
      forall r | r in states[m].callers ensures states[m].callers[r].phase.Returned? {
        if !states[m].callers[r].phase.Returned? { NobodyIsForgotten(states, actions, m, r); }
      }
    }
  }
}
