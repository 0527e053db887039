/**
 A governed call from a coroutine: the hold is placed, and settled, on a worker thread,
 while the awaiting coroutine may be cancelled any number of times.  Every interleaving of
 the workers' completions with cancellations is a run of steps.
 */
module Asyncs {
  /** A call handed to a worker thread: not finished, or finished with a result or an
      exception.  Waiting for it never cancels it. */
  datatype Future = Pending | Finished(ok: bool)

  /** What became of the hold in the ledger, and how often it was settled. */
  datatype Hold = NotPlaced | Open | Captured | Voided

  /** Where the coroutine is: awaiting the placing of the hold; cancelled there and seeing it
      finish; undoing it; awaiting the guarded call; awaiting the settlement; cancelled
      there and seeing it finish; ended. */
  datatype Place = Entering | Abandoning | Undoing | Calling | Leaving | Draining | Ended

  /** `raised`: the guarded call raised, or was cancelled.  `undone`: an undo was begun. */
  datatype State = State(place: Place, enter: Future, undo: Future, exit: Future, raised: bool, undone: bool,
                         hold: Hold, settled: nat)

  const START := State(Entering, Pending, Pending, Pending, false, false, NotPlaced, 0)

  datatype Action =
    | EnterRuns(ok: bool) | UndoRuns | ExitRuns | Cancel
    | Resume | CallEnds(ok: bool)

  /** The worker may run a call once it was handed over; the coroutine may resume once what it
      awaits has finished; a cancellation may come at any await. */
  predicate Can(s: State, a: Action) {
    match a
    case EnterRuns(_) => (s.place.Entering? || s.place.Abandoning?) && s.enter.Pending?
    case UndoRuns => s.place.Undoing? && s.undo.Pending?
    case ExitRuns => (s.place.Leaving? || s.place.Draining?) && s.exit.Pending?
    case Cancel => !s.place.Ended?
    case CallEnds(_) => s.place.Calling?
    case Resume =>
      match s.place
      case Entering | Abandoning => s.enter.Finished?
      case Undoing => s.undo.Finished?
      case Leaving | Draining => s.exit.Finished?
      case Calling | Ended => false
  }

  /** Settling the hold, if there is one: void it if the body raised, else capture it. */
  function Settle(s: State, void: bool): State {
    if s.enter != Finished(true) then s
    else s.(hold := if void then Voided else Captured, settled := s.settled + 1)
  }

  function Do(s: State, a: Action): State
    requires Can(s, a)
  {
    match a
    case EnterRuns(ok) => s.(enter := Finished(ok), hold := if ok then Open else NotPlaced)
    case UndoRuns => Settle(s, true).(undo := Finished(true))
    case ExitRuns => Settle(s, s.raised).(exit := Finished(true))
    case Cancel =>
      (match s.place
       case Entering => s.(place := Abandoning)
       case Calling => s.(place := Leaving, raised := true)
       case Leaving => s.(place := Draining)
       case _ => s)
    case CallEnds(ok) => s.(place := Leaving, raised := !ok)
    case Resume =>
      match s.place
      case Entering => s.(place := if s.enter.ok then Calling else Ended)
      case Abandoning => if s.enter.ok then s.(place := Undoing, undone := true) else s.(place := Ended)
      case _ => s.(place := Ended)
  }

  ghost predicate Run(states: seq<State>, actions: seq<Action>) {
    && |states| == |actions| + 1 && states[0] == START
    && forall i :: 0 <= i < |actions| ==> Can(states[i], actions[i]) && states[i + 1] == Do(states[i], actions[i])
  }

  /** What is true at each place. */
  ghost predicate Inv(s: State) {
    && (s.undone <==> s.place.Undoing? || (s.place.Ended? && s.undo.Finished?))
    && (s.undone ==> s.enter == Finished(true))
    && match s.place
       case Entering | Abandoning =>
         s.undo.Pending? && s.exit.Pending? && s.settled == 0 && s.hold == if s.enter == Finished(true) then Open
               else NotPlaced
       case Undoing =>
         && s.enter == Finished(true) && s.exit.Pending?
         && (if s.undo.Pending? then s.hold.Open? && s.settled == 0 else s.hold.Voided? && s.settled == 1)
       case Calling => s.enter == Finished(true) && s.undo.Pending? && s.exit.Pending? && s.hold.Open? && s.settled == 0
       case Leaving | Draining =>
         && s.enter == Finished(true) && s.undo.Pending?
         && (if s.exit.Pending? then s.hold.Open? && s.settled == 0
             else s.hold == (if s.raised then Voided else Captured) && s.settled == 1)
       case Ended =>
         if s.enter == Finished(true) then (s.hold.Captured? || s.hold.Voided?) && s.settled == 1
               && (s.hold.Captured? ==> !s.raised && !s.undone)
         else s.hold.NotPlaced? && s.settled == 0
  }

  lemma StepKeeps(s: State, a: Action)
    requires Inv(s) && Can(s, a)
    ensures Inv(Do(s, a))
  {
  }

  lemma {:induction false} EveryRunKeeps(states: seq<State>, actions: seq<Action>, n: nat)
    requires Run(states, actions) && n <= |actions|
    ensures Inv(states[n])
  {
    if n > 0 {
      EveryRunKeeps(states, actions, n - 1);
      assert Can(states[n - 1], actions[n - 1]) && states[n - 1 + 1] == Do(states[n - 1], actions[n - 1]);
      StepKeeps(states[n - 1], actions[n - 1]);
    }
  }

  /** In any interleaving, a call that is over placed no hold, or had its hold settled one
      single time; and a call that raised was not charged. */
  lemma HoldSettledOnce(states: seq<State>, actions: seq<Action>, n: nat)
    requires Run(states, actions) && n <= |actions| && states[n].place.Ended?
    ensures var s := states[n];
            || (s.enter != Finished(true) && s.hold.NotPlaced? && s.settled == 0)
            || (s.enter == Finished(true) && s.settled == 1 && (s.hold.Voided? || (s.hold.Captured? && !s.raised)))
  {
    EveryRunKeeps(states, actions, n);
  }

  // -- what the actions of a run decide ---------------------------------------------------------

  /** The guarded call ended so. */
  ghost predicate CallEnded(actions: seq<Action>, ok: bool) { CallEnds(ok) in actions }

  /** A cancellation came before the guarded call had ended. */
  ghost predicate CancelledEarly(actions: seq<Action>) {
    exists i :: 0 <= i < |actions| && actions[i].Cancel? && NoCallEnded(actions[..i])
  }

  ghost predicate NoCallEnded(actions: seq<Action>) { !CallEnded(actions, true) && !CallEnded(actions, false) }

  /** What the actions so far say of where the call is. */
  ghost predicate Told(s: State, actions: seq<Action>) {
    var well, badly, early := CallEnded(actions, true), CallEnded(actions, false), CancelledEarly(actions);
    && (s.enter == Finished(true) <==> EnterRuns(true) in actions)
    && match s.place
       case Entering | Calling => !well && !badly && !early
       case Abandoning | Undoing => !well && !badly && early
       case Leaving | Draining => if s.raised then !well && (badly || early) else well && !badly && !early
       case Ended =>
         s.enter == Finished(true) ==>
           if s.hold.Captured? then well && !badly && !early else !well && (badly || early)
  }

  lemma EarlyGrows(actions: seq<Action>, a: Action)
    ensures CancelledEarly(actions + [a]) <==> CancelledEarly(actions) || (a.Cancel? && NoCallEnded(actions))
  {
    var all := actions + [a];
    forall i | 0 <= i < |actions| ensures all[..i] == actions[..i] {
    }
    assert all[..|actions|] == actions;
    if CancelledEarly(actions) {
      var i :| 0 <= i < |actions| && actions[i].Cancel? && NoCallEnded(actions[..i]);
      assert all[i].Cancel? && NoCallEnded(all[..i]);
    }
    if a.Cancel? && NoCallEnded(actions) { assert all[|actions|].Cancel? && NoCallEnded(all[..|actions|]); }
  }

  lemma ToldMore(s: State, actions: seq<Action>, a: Action)
    requires Inv(s) && Told(s, actions) && Can(s, a)
    ensures Told(Do(s, a), actions + [a])
  {
    EarlyGrows(actions, a);
    hide CancelledEarly;
  }

  lemma {:induction false} EveryRunTells(states: seq<State>, actions: seq<Action>, n: nat)
    requires Run(states, actions) && n <= |actions|
    ensures Told(states[n], actions[..n])
  {
    if n > 0 {
      EveryRunTells(states, actions, n - 1);
      EveryRunKeeps(states, actions, n - 1);
      assert Can(states[n - 1], actions[n - 1]) && states[n - 1 + 1] == Do(states[n - 1], actions[n - 1]);
      ToldMore(states[n - 1], actions[..n - 1], actions[n - 1]);
      assert actions[..n] == actions[..n - 1] + [actions[n - 1]];
    } else {
      assert actions[..0] == [];
    }
  }

  /** A call that is over, its hold once placed: it was charged if and only if the guarded
      call ended well; and its hold was given back if and only if the guarded call raised,
      or a cancellation came before it had ended.  Later cancellations change neither. */
  lemma ChargedExactly(states: seq<State>, actions: seq<Action>)
    requires Run(states, actions) && states[|actions|].place.Ended? && EnterRuns(true) in actions
    ensures states[|actions|].hold.Captured? <==> CallEnds(true) in actions
    ensures states[|actions|].hold.Voided? <==> CallEnds(false) in actions || CancelledEarly(actions)
    ensures states[|actions|].settled == 1
  {
    EveryRunTells(states, actions, |actions|);
    EveryRunKeeps(states, actions, |actions|);
    assert actions[..|actions|] == actions;
    hide CancelledEarly;
  }

  /** And a call whose hold was not placed is not charged, whatever else happened. */
  lemma NotPlacedNotCharged(states: seq<State>, actions: seq<Action>)
    requires Run(states, actions) && EnterRuns(true) !in actions
    ensures states[|actions|].hold.NotPlaced? && states[|actions|].settled == 0
  {
    EveryRunTells(states, actions, |actions|);
    EveryRunKeeps(states, actions, |actions|);
    assert actions[..|actions|] == actions;
    hide CancelledEarly;
  }

  /** An undo is begun only after the call it undoes has finished, successfully. */
  lemma UndoAfterSuccess(states: seq<State>, actions: seq<Action>, n: nat)
    requires Run(states, actions) && n <= |actions| && states[n].undone
    ensures states[n].enter == Finished(true)
  {
    EveryRunKeeps(states, actions, n);
  }

  /** How much is left to do, whatever the cancellations. */
  function Left(s: State): nat {
    match s.place
    case Entering => if s.enter.Pending? then 7 else 6
    case Abandoning => if s.enter.Pending? then 5 else 4
    case Calling => 4
    case Leaving => if s.exit.Pending? then 3 else 2
    case Draining => if s.exit.Pending? then 2 else 1
    case Undoing => if s.undo.Pending? then 2 else 1
    case Ended => 0
  }

  /** No number of cancellations keeps the call from ending: until it has, something else
      can happen, everything else brings it nearer, and a cancellation never further. */
  lemma CancellationsCannotHold(s: State, a: Action)
    requires Inv(s) && Can(s, a)
    ensures Left(Do(s, a)) <= Left(s) && (!a.Cancel? ==> Left(Do(s, a)) < Left(s))
    ensures !s.place.Ended? ==> exists b: Action :: !b.Cancel? && Can(s, b)
  {
    if !s.place.Ended? {
      var b := match s.place
        case Entering | Abandoning => if s.enter.Pending? then EnterRuns(true) else Resume
        case Undoing => if s.undo.Pending? then UndoRuns else Resume
        case Leaving | Draining => if s.exit.Pending? then ExitRuns else Resume
        case _ => CallEnds(true);
      assert !b.Cancel? && Can(s, b);
    }
  }

  lemma {:induction false} OtherSteps(states: seq<State>, actions: seq<Action>, n: nat)
    requires Run(states, actions) && n <= |actions|
    ensures Left(states[n]) + Others(actions[..n]) <= Left(START)
  {
    if n > 0 {
      OtherSteps(states, actions, n - 1);
      EveryRunKeeps(states, actions, n - 1);
      assert Can(states[n - 1], actions[n - 1]) && states[n - 1 + 1] == Do(states[n - 1], actions[n - 1]);
      CancellationsCannotHold(states[n - 1], actions[n - 1]);
      assert actions[..n][..n - 1] == actions[..n - 1];
    } else {
      assert actions[..0] == [];
    }
  }

  /** The steps of a run that are not cancellations: never more than seven. */
  function Others(actions: seq<Action>): nat {
    if |actions| == 0 then 0 else Others(actions[..|actions| - 1]) + if actions[|actions| - 1].Cancel? then 0 else 1
  }
}
