/**
 Holds as a view stages them: beside the kept ones it records which it closed and which it
 placed.  Where a view reuses the id of a hold kept below it, the two layers stop being
 one dictionary; here is what the view answers then, and exactly when that is what the
 rules answer.
 */
module Layers {
  import opened Vocabulary
  import opened Dicts
  import opened Engine

  datatype Staged = Staged(kept: Dict<Id, Entry>, closed: set<Id>, placed: Dict<Id, Entry>) {
    ghost predicate Valid() { kept.Valid() && placed.Valid() && closed <= kept.at.Keys }

    /** No id placed here is one of the kept holds'. */
    ghost predicate Apart() { placed.at.Keys !! kept.at.Keys }

    /** The dictionary merging leaves. */
    function Shown(): Dict<Id, Entry> { Layer(kept, closed, placed) }

    function Open(id: Id): Option<Entry> {
      if id in closed then None
      else if id in placed.at then Some(placed.at[id])
      else if id in kept.at then Some(kept.at[id])
      else None
    }

    /** The first hold of a key: the kept ones not closed, then those placed. */
    function First(key: HoldKey): Option<Id> {
      match FirstOf(Drop(kept.order, closed), kept.at, key)
      case Some(id) => Some(id)
      case None => FirstOf(placed.order, placed.at, key)
    }

    function Place(e: Entry): Staged { this.(placed := placed.Put(e.id, e)) }

    function Close(id: Id): Staged {
      if id in placed.at then this.(placed := placed.Pop(id)) else this.(closed := closed + {id})
    }
  }

  /** Holds seen through a stage, with their numbers and the uncertain keys. */
  function Seen(s: Staged, counts: map<Scope, int>, ambiguous: set<HoldKey>): Holds {
    Holds(s.Shown(), counts, ambiguous)
  }

  function NamedUnder(h: Holds, s: Staged, txn: Txn, e: Entry): Result<(Holds, Staged, Txn)> {
    if e.ref.None? then Err(ReleaseNamesNoHold)
    else match s.Open(e.ref.value)
      case None => Err(HoldNotOpen)
      case Some(hold) =>
        if hold.scope != e.scope then Err(HoldOfAnotherScope)
        else if hold.amount != e.amount then Err(HoldOfAnotherAmount)
        else
          var s' := s.Close(e.ref.value);
          Ok((Seen(s', Counted(h.counts, hold.scope, -1), h.ambiguous), s',
              txn.(settleable := txn.settleable + {e.ref.value})))
  }

  function UnnamedUnder(h: Holds, s: Staged, e: Entry): Result<(Holds, Staged)> {
    match s.First(Key(e))
    case None => Err(NoSuchHoldOpen)
    case Some(id) =>
      var s' := s.Close(id);
      Ok((Seen(s', Counted(h.counts, e.scope, -1), h.ambiguous + {Key(e)}), s'))
  }

  /** What a view does with its staged holds on one entry. */
  function HoldRuleUnder(h: Holds, s: Staged, txn: Txn, e: Entry): Result<(Holds, Staged, Txn)> {
    if e.ref.Some? && !Referencing(e.kind, e.version) then Err(RefNotAllowed)
    else match e.kind
      case Hold => Ok((Seen(s.Place(e), Counted(h.counts, e.scope, 1), h.ambiguous), s.Place(e), txn))
      case HoldVoid =>
        if e.version.V1? then
          var (h', s') :- UnnamedUnder(h, s, e);
          Ok((h', s', txn))
        else NamedUnder(h, s, txn, e)
      case Spend =>
        if e.ref.Some? && e.ref.value !in txn.settleable then Err(NotReleasedHere) else Ok((h, s, txn))
      case _ => Ok((h, s, txn))
  }

  function BookingUnder(env: Env, mode: Mode, purse: Purse, holds: Holds, s: Staged, kept: map<Id, int>, txn: Txn,
                        recent: map<Id, int>, start: nat, e: Entry)
    : Result<(Purse, Holds, Staged, Txn, map<Id, int>)>
  {
    var moved :- BalanceRule(purse, e);
    var (holds', s', txn') :- HoldRuleUnder(holds, s, Netted(txn, e), e);
    var recent' :- RefundRule(env, kept, recent, start, e);
    var flowed :- FlowRule(mode, moved, e);
    Ok((flowed, holds', s', txn', recent'))
  }

  /** What a view does on one entry, its staged holds beside what it shows. */
  function StepUnder(env: Env, mode: Mode, v: View, s: Staged, e: Entry): Result<(View, Staged)> {
    var (tip, begun) :- Opening(env, mode, v.c.unit, v.c.tip, v.txn, e);
    var (flowed, holds, s', txn, recent) :-
      BookingUnder(env, mode, v.c.purse, v.c.holds, s, v.c.spendRefunds, begun, v.recent, v.start, e);
    var (tip', tree) :- Governing(env, tip, v.c.tree, e);
    var purse := flowed.(totals := AddTotals(flowed.totals, e));
    Ok((View(Chain(purse, holds, tree, Advance(env, tip', e), v.c.spendRefunds, v.c.unit), txn, recent, v.start), s'))
  }

  function StepsUnder(env: Env, mode: Mode, v: View, s: Staged, entries: seq<Entry>): Result<(View, Staged)> {
    if |entries| == 0 then Ok((v, s))
    else
      var (w, s') :- StepsUnder(env, mode, v, s, entries[..|entries| - 1]);
      StepUnder(env, mode, w, s', entries[|entries| - 1])
  }

  /** Nothing is staged over the holds of a state yet. */
  function Unstaged(c: Chain): Staged { Staged(c.holds.open, {}, Empty()) }

  /** One view taken over a state, every entry applied in it, its transaction closed. */
  function BatchUnder(env: Env, mode: Mode, c: Chain, entries: seq<Entry>): Result<Chain> {
    var (v, _) :- StepsUnder(env, mode, Over(c), Unstaged(c), entries);
    var _ :- End(v.txn);
    Ok(Merged(env, v))
  }

  // -- when the layers are one dictionary --------------------------------------------------

  lemma ShownOpen(s: Staged, id: Id)
    requires s.Valid() && s.Apart()
    ensures s.Open(id) == if id in s.Shown().at then Some(s.Shown().at[id]) else None
  {
    hide Drop;
  }

  lemma {:induction false} FirstAppend(a: seq<Id>, b: seq<Id>, at: map<Id, Entry>, key: HoldKey)
    ensures FirstOf(a + b, at, key)
         == match FirstOf(a, at, key) case Some(id) => Some(id) case None => FirstOf(b, at, key)
  {
    if |a| == 0 {
      assert a + b == b;
    } else {
      assert (a + b)[1..] == a[1..] + b;
      FirstAppend(a[1..], b, at, key);
    }
  }

  lemma {:induction false} FirstFrame(order: seq<Id>, at: map<Id, Entry>, bt: map<Id, Entry>, key: HoldKey)
    requires forall id :: id in order ==> (id in at <==> id in bt) && (id in at ==> at[id] == bt[id])
    ensures FirstOf(order, at, key) == FirstOf(order, bt, key)
  {
    if |order| > 0 {
      assert order[0] in order;
      FirstFrame(order[1..], at, bt, key);
    }
  }

  lemma ShownFirst(s: Staged, key: HoldKey)
    requires s.Valid() && s.Apart()
    ensures s.First(key) == FirstOf(s.Shown().order, s.Shown().at, key)
  {
    hide FirstOf, Drop;
    LayerApart(s.kept, s.closed, s.placed);
    var left := Drop(s.kept.order, s.closed);
    FirstAppend(left, s.placed.order, s.Shown().at, key);
    FirstFrame(left, s.kept.at, s.Shown().at, key);
    FirstFrame(s.placed.order, s.placed.at, s.Shown().at, key);
  }

  lemma ShownPlace(s: Staged, e: Entry)
    requires s.Valid()
    ensures s.Place(e).Valid() && s.Place(e).Shown() == s.Shown().Put(e.id, e)
  {
    hide Layer;
    LayerPut(s.kept, s.closed, s.placed, e.id, e);
    PutValid(s.placed, e.id, e);
  }

  lemma CloseValid(s: Staged, id: Id)
    requires s.Valid() && (id in s.placed.at || id in s.kept.at)
    ensures s.Close(id).Valid()
  {
    if id in s.placed.at { PopValid(s.placed, id); }
  }

  lemma ShownClose(s: Staged, id: Id)
    requires s.Valid() && s.Apart() && id in s.Shown().at
    ensures s.Close(id).Valid() && s.Close(id).Apart() && s.Close(id).Shown() == s.Shown().Pop(id)
  {
    hide Drop;
    CloseValid(s, id);
    if id in s.placed.at {
      LayerPopAdded(s.kept, s.closed, s.placed, id);
    } else {
      LayerPopBase(s.kept, s.closed, s.placed, id);
    }
  }

  /** The view's answer is the rules' answer on what it shows. */
  ghost predicate SameAnswer(s: Staged, h: Holds, txn: Txn, e: Entry) {
    match HoldRuleUnder(h, s, txn, e)
    case Ok((h', s', txn')) => HoldRule(h, txn, e) == Ok((h', txn'))
    case Err(fault) => HoldRule(h, txn, e) == Err(fault)
  }

  lemma NamedSame(s: Staged, h: Holds, txn: Txn, e: Entry)
    requires s.Valid() && s.Apart() && h.open == s.Shown()
    ensures match NamedUnder(h, s, txn, e)
            case Ok((h', s', txn')) => ReleaseNamed(h, txn, e) == Ok((h', txn')) && s'.Valid() && s'.Apart()
            case Err(fault) => ReleaseNamed(h, txn, e) == Err(fault)
  {
    if e.ref.Some? {
      var id := e.ref.value;
      ShownOpen(s, id);
      if s.Open(id).Some? { ShownClose(s, id); }
    }
    hide Layer, Drop, Counted;
  }

  lemma UnnamedSame(s: Staged, h: Holds, e: Entry)
    requires s.Valid() && s.Apart() && h.open == s.Shown()
    ensures match UnnamedUnder(h, s, e)
            case Ok((h', s')) => ReleaseUnnamed(h, e) == Ok(h') && s'.Valid() && s'.Apart()
            case Err(fault) => ReleaseUnnamed(h, e) == Err(fault)
  {
    ShownFirst(s, Key(e));
    var found := s.First(Key(e));
    if found.Some? { ShownClose(s, found.value); }
    hide Layer, Drop, Counted;
  }

  /** With no id reused so far, a view answers every entry as the rules do, and none is
      reused after it unless the entry is a hold under a kept id. */
  lemma ApartAgrees(s: Staged, h: Holds, txn: Txn, e: Entry)
    requires s.Valid() && s.Apart() && h.open == s.Shown()
    ensures SameAnswer(s, h, txn, e)
    ensures HoldRuleUnder(h, s, txn, e).Ok? ==>
              var (h', s', _) := HoldRuleUnder(h, s, txn, e).value;
              s'.Valid() && h'.open == s'.Shown() && ((e.kind.Hold? ==> e.id !in s.kept.at) ==> s'.Apart())
  {
    hide Layer, NamedUnder, UnnamedUnder, ReleaseNamed, ReleaseUnnamed, Counted, Dict.Valid;
    ShownPlace(s, e);
    NamedSame(s, h, txn, e);
    UnnamedSame(s, h, e);
    NamedShows(s, h, txn, e);
  }

  /** What is shown after a release is what is staged. */
  lemma NamedShows(s: Staged, h: Holds, txn: Txn, e: Entry)
    ensures NamedUnder(h, s, txn, e).Ok? ==>
              NamedUnder(h, s, txn, e).value.0.open == NamedUnder(h, s, txn, e).value.1.Shown()
    ensures UnnamedUnder(h, s, e).Ok? ==> UnnamedUnder(h, s, e).value.0.open == UnnamedUnder(h, s, e).value.1.Shown()
  {
    hide Layer, Counted;
  }

  /** A hold placed under a kept id and then released by name: the rules have it gone.  The
      view does not find it if the kept hold was closed here, and shows the kept hold again
      if it was not. */
  lemma ReusedDiffers(s: Staged, h: Holds, txn: Txn, id: Id, e: Entry)
    requires s.Valid() && h.open == s.Shown() && id in s.placed.at && id in s.kept.at
    requires e.kind.HoldVoid? && e.version.V3? && e.ref == Some(id) && Key(e) == Key(s.placed.at[id])
    ensures HoldRule(h, txn, e).Ok? && id !in HoldRule(h, txn, e).value.0.open.at
    ensures if id in s.closed then HoldRuleUnder(h, s, txn, e) == Err(HoldNotOpen)
            else HoldRuleUnder(h, s, txn, e).Ok?
                 && id in HoldRuleUnder(h, s, txn, e).value.0.open.at
                 && HoldRuleUnder(h, s, txn, e).value.0.open.at[id] == s.kept.at[id]
    ensures !SameAnswer(s, h, txn, e)
  {
    hide Drop, Counted;
  }

  /** A view answers every entry as the rules do if and only if it reuses no kept id. */
  lemma AgreesExactly(s: Staged, counts: map<Scope, int>, ambiguous: set<HoldKey>)
    requires s.Valid()
    ensures s.Apart() <==> forall txn, e :: SameAnswer(s, Seen(s, counts, ambiguous), txn, e)
  {
    hide SameAnswer, Layer;
    var h := Seen(s, counts, ambiguous);
    if s.Apart() {
      forall txn, e ensures SameAnswer(s, h, txn, e) { ApartAgrees(s, h, txn, e); }
    } else {
      var id :| id in s.placed.at && id in s.kept.at;
      var hold := s.placed.at[id];
      var e := hold.(kind := HoldVoid, version := V3, ref := Some(id));
      ReusedDiffers(s, h, NO_TXN, id, e);
    }
  }

  // -- steps and batches --------------------------------------------------------------------

  ghost predicate Together(v: View, s: Staged) { s.Valid() && s.Apart() && v.c.holds.open == s.Shown() }

  /** One step of a view that reuses no id is one step of the rules. */
  lemma StepAgrees(env: Env, mode: Mode, v: View, s: Staged, e: Entry)
    requires Together(v, s)
    ensures match StepUnder(env, mode, v, s, e)
            case Ok((w, s')) =>
              Step(env, mode, v, e) == Ok(w) && s'.kept == s.kept
              && ((e.kind.Hold? ==> e.id !in s.kept.at) ==> Together(w, s'))
            case Err(fault) => Step(env, mode, v, e) == Err(fault)
  {
    hide HoldRule, HoldRuleUnder, Opening, BalanceRule, RefundRule, FlowRule, Governing, Advance, AddTotals, Layer,
         Netted, Dict.Valid;
    var o := Opening(env, mode, v.c.unit, v.c.tip, v.txn, e);
    if o.Ok? {
      ApartAgrees(s, v.c.holds, Netted(o.value.1, e), e);
      KeptStays(s, v.c.holds, Netted(o.value.1, e), e);
    }
  }

  lemma KeptStays(s: Staged, h: Holds, txn: Txn, e: Entry)
    ensures HoldRuleUnder(h, s, txn, e).Ok? ==> HoldRuleUnder(h, s, txn, e).value.1.kept == s.kept
  {
    hide Layer, Drop, FirstOf, Counted;
  }

  /** A batch's holds are new to the state it is applied to. */
  ghost predicate NewHolds(c: Chain, entries: seq<Entry>) {
    forall i :: 0 <= i < |entries| && entries[i].kind.Hold? ==> entries[i].id !in c.holds.open.at
  }

  lemma {:induction false} StepsAgree(env: Env, mode: Mode, v: View, s: Staged, entries: seq<Entry>)
    requires Together(v, s) && forall i :: 0 <= i < |entries| && entries[i].kind.Hold? ==> entries[i].id !in s.kept.at
    ensures match StepsUnder(env, mode, v, s, entries)
            case Ok((w, s')) => Steps(env, mode, v, entries) == Ok(w) && Together(w, s') && s'.kept == s.kept
            case Err(fault) => Steps(env, mode, v, entries) == Err(fault)
  {
    hide Step, StepUnder, Together;
    if |entries| > 0 {
      var init, e := entries[..|entries| - 1], entries[|entries| - 1];
      StepsAgree(env, mode, v, s, init);
      var r := StepsUnder(env, mode, v, s, init);
      if r.Ok? { StepAgrees(env, mode, r.value.0, r.value.1, e); }
    }
  }

  lemma UnstagedShows(c: Chain)
    requires c.holds.open.Valid()
    ensures Together(Over(c), Unstaged(c))
  {
    LayerNothing(c.holds.open);
  }

  /** A batch whose holds are new does, view and layers and all, what the rules say. */
  lemma BatchAgrees(env: Env, mode: Mode, c: Chain, entries: seq<Entry>)
    requires c.holds.open.Valid() && NewHolds(c, entries)
    ensures BatchUnder(env, mode, c, entries) == Batch(env, mode, c, entries)
  {
    hide Steps, StepsUnder, Together, Over, Dict.Valid;
    UnstagedShows(c);
    StepsAgree(env, mode, Over(c), Unstaged(c), entries);
  }
}
