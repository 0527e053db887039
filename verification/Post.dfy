/**
 Posting: a unit of work turns lines into entries (sequence, link, running balance,
 time and hash), and holds them to every rule a replay enforces before anything is
 durable.
 */
module Posts {
  import opened Vocabulary
  import opened Dicts
  import opened Engine
  import opened Replays
  import opened Laws
  import opened Layers
  import opened Overlays
  import Merkle

  datatype Line = Line(kind: Kind, direction: Direction, scope: Scope, counterparty: Option<Scope>, amount: int,
                       memo: string, ref: Option<Id>)

  /** What a post draws from outside: new ids, a transaction id, the clock. */
  datatype Stamp = Stamp(ids: seq<Id>, txn: Id, now: int)

  function LineRule(line: Line): Result<()> {
    if !LegalDirection(line.kind, line.direction) then Err(WrongDirection)
    else if ZeroValue(line.kind) && line.amount != 0 then Err(AmountNotZero)
    else if !ZeroValue(line.kind) && line.amount <= 0 then Err(AmountNotPositive)
    else if line.ref.Some? && !Referencing(line.kind, V3) then Err(RefNotAllowed)
    else if !TextAllowed(line.scope, MAX_ID_BYTES, true) then Err(BadText)
    else if line.counterparty.Some? && !TextAllowed(line.counterparty.value, MAX_ID_BYTES, true) then Err(BadText)
    else if !TextAllowed(line.memo, MAX_MEMO_BYTES, false) then Err(BadText)
    else Ok(())
  }

  /** Entries under construction: the balances they leave, and the end of the chain with them. */
  datatype Draft = Draft(entries: seq<Entry>, running: map<Scope, int>, prev: Hash, sequence: int)

  /** The clock's time, unless the chain is already past it. */
  function Now(tip: Tip, now: int): int {
    if tip.lastTime.Some? && now < tip.lastTime.value then tip.lastTime.value else now
  }

  function BalanceOf(p: Purse, d: Draft, s: Scope): int {
    if s in d.running then d.running[s] else Get(p.balances, s)
  }

  function Drafted(env: Env, p: Purse, time: int, txn: Id, id: Id, d: Draft, line: Line): Draft {
    var after := BalanceOf(p, d, line.scope) + Signed(line.direction, line.amount);
    var e := Entry(d.sequence + 1, id, txn, time, line.kind, line.direction, line.scope, line.counterparty,
                   line.amount, after, d.prev, "", line.memo, line.ref, V3);
    var entry := e.(hash := env.digest(e));
    Draft(d.entries + [entry], if ZeroValue(line.kind) then d.running else d.running[line.scope := after],
          entry.hash, d.sequence + 1)
  }

  function Drafts(env: Env, c: Chain, stamp: Stamp, lines: seq<Line>): (d: Draft)
    requires |lines| <= |stamp.ids|
    ensures |d.entries| == |lines|
  {
    if |lines| == 0 then Draft([], map[], c.tip.head, c.tip.length)
    else
      var n := |lines| - 1;
      Drafted(env, c.purse, Now(c.tip, stamp.now), stamp.txn, stamp.ids[n], Drafts(env, c, stamp, lines[..n]), lines[n])
  }

  /** One transaction added to a unit of work, its view left between transactions. */
  function PostOne(env: Env, v: View, entries: seq<Entry>): Result<View> {
    var w :- Steps(env, WRITING, v, entries);
    var closed :- End(w.txn);
    Ok(w.(txn := closed))
  }

  predicate Controls(e: Entry) { e.kind.CircuitTripped? || e.kind.CircuitReset? }

  /** The trips and resets among entries, oldest first. */
  function ControlsOf(entries: seq<Entry>): seq<Entry> {
    if |entries| == 0 then []
    else
      var e := entries[|entries| - 1];
      ControlsOf(entries[..|entries| - 1]) + (if Controls(e) then [e] else [])
  }

  lemma {:induction false} ControlsAppend(a: seq<Entry>, b: seq<Entry>)
    ensures ControlsOf(a + b) == ControlsOf(a) + ControlsOf(b)
  {
    if |b| == 0 {
      assert a + b == a;
    } else {
      var ab := a + b;
      assert ab[..|ab| - 1] == a + b[..|b| - 1];
      ControlsAppend(a, b[..|b| - 1]);
    }
  }

  /** A unit of work: the view it builds on, and what it will write. */
  class Pending {
    const view: Overlay
    var entries: seq<Entry>

    constructor (v: Overlay)
      ensures view == v && entries == []
    {
      view, entries := v, [];
    }

    /** Check each line and give it its place in the chain, its running balance and hash. */
    method Build(lines: seq<Line>, stamp: Stamp) returns (r: Result<seq<Entry>>)
      requires view.Valid() && |lines| <= |stamp.ids|
      ensures r.Ok? ==> (forall i :: 0 <= i < |lines| ==> LineRule(lines[i]).Ok?)
                        && r.value == Drafts(view.env, view.Value().c, stamp, lines).entries
      ensures r.Err? ==> exists i :: 0 <= i < |lines| && LineRule(lines[i]) == Err(r.fault)
                                  && forall j :: 0 <= j < i ==> LineRule(lines[j]).Ok?
    {
      hide Overlay.Valid, LineRule, TextAllowed, Drafted, Overlay.HoldsSeen, Overlay.TreeSeen, Overlay.TxnSeen, Get,
            Now;
      ghost var c := view.Value().c;
      assert c.tip.head == view.head && c.tip.length == view.length && c.tip.lastTime == view.lastTime;
      var time := if view.lastTime.Some? && stamp.now < view.lastTime.value then view.lastTime.value else stamp.now;
      assert time == Now(c.tip, stamp.now) by { LaterTime(c.tip, stamp.now); }
      var built: seq<Entry>, running: map<Scope, int>, prev, sequence := [], map[], view.head, view.length;
      assert lines[..0] == [];
      for i := 0 to |lines|
        invariant forall j :: 0 <= j < i ==> LineRule(lines[j]).Ok?
        invariant Draft(built, running, prev, sequence) == Drafts(view.env, c, stamp, lines[..i])
      {
        var line := lines[i];
        var ok := LineRule(line);
        if ok.Err? { return Err(ok.fault); }
        ghost var d := Draft(built, running, prev, sequence);
        var balance := view.Balance(line.scope);
        var current := if line.scope in running then running[line.scope] else balance;
        var after := current + Signed(line.direction, line.amount);
        sequence := sequence + 1;
        var e := Entry(sequence, stamp.ids[i], stamp.txn, time, line.kind, line.direction, line.scope,
              line.counterparty,
                       line.amount, after, prev, "", line.memo, line.ref, V3);
        prev := view.env.digest(e);
        built := built + [e.(hash := prev)];
        if !ZeroValue(line.kind) { running := running[line.scope := after]; }
        assert Draft(built, running, prev, sequence)
                 == Drafted(view.env, c.purse, time, stamp.txn, stamp.ids[i], d, line) by {
          DraftedIs(view.env, c.purse, time, stamp.txn, stamp.ids[i], d, line, current);
        }
        assert lines[..i + 1][..i] == lines[..i];
      }
      assert lines[..|lines|] == lines;
      return Ok(built);
    }

    /** Build entries for the lines and hold them to the rules as one closed transaction;
        on any refusal the work has no entry more. */
    method Post(lines: seq<Line>, stamp: Stamp) returns (r: Result<seq<Entry>>)
      requires view.Valid() && view.Apart() && |lines| <= |stamp.ids|
      requires forall i :: 0 <= i < |stamp.ids| ==> stamp.ids[i] !in view.base.holds.at
      modifies this, view
      ensures r.Ok? <==> && lines != [] && (forall i :: 0 <= i < |lines| ==> LineRule(lines[i]).Ok?)
                         && PostOne(view.env, old(view.Value()),
                               Drafts(view.env, old(view.Value()).c, stamp, lines).entries).Ok?
      ensures r.Ok? ==>
        && r.value == Drafts(view.env, old(view.Value()).c, stamp, lines).entries
        && entries == old(entries) + r.value && view.Valid() && view.Apart()
        && PostOne(view.env, old(view.Value()), r.value) == Ok(view.Value())
        && view.events == old(view.events) + ControlsOf(r.value)
      ensures r.Err? ==> entries == old(entries)
    {
      hide Overlay.Valid, Overlay.Value, Overlay.Apart, Overlay.Held, Steps, ControlsOf, LineRule, Drafts;
      if lines == [] { return Err(NoLines); }
      ghost var v := view.Value();
      r := Build(lines, stamp);
      if r.Err? { return; }
      var built := r.value;
      DraftIds(view.env, v.c, stamp, lines);
      var p := Admit(view, built);
      if p.Fail? { return Err(p.fault); }
      var q := CloseView(view);
      if q.Fail? { return Err(q.fault); }
      entries := entries + built;
      return Ok(built);
    }
  }

  /** Hold entries to the rules one after the other, up to the first refused. */
  method Admit(view: Overlay, built: seq<Entry>) returns (r: Outcome)
    requires view.Valid() && view.Apart()
    requires forall i :: 0 <= i < |built| ==> built[i].id !in view.base.holds.at
    modifies view
    ensures r.Pass? ==> view.Valid() && view.Apart() && view.events == old(view.events) + ControlsOf(built)
    ensures r.Pass? ==> Steps(view.env, WRITING, old(view.Value()), built) == Ok(view.Value())
    ensures r.Fail? ==> Steps(view.env, WRITING, old(view.Value()), built) == Err(r.fault)
  {
    hide Overlay.Valid, Overlay.Value, Overlay.Apart, Overlay.Held, StepUnder, Step;
    ghost var v := view.Value();
    assert built[..0] == [];
    for i := 0 to |built|
      invariant view.Valid() && view.Apart()
      invariant Steps(view.env, WRITING, v, built[..i]) == Ok(view.Value())
      invariant view.events == old(view.events) + ControlsOf(built[..i])
    {
      assert built[..i + 1][..i] == built[..i];
      r := view.Apply(built[i], WRITING);
      if r.Fail? {
        StepsStop(view.env, WRITING, v, built, i + 1);
        return;
      }
    }
    assert built[..|built|] == built;
    return Pass;
  }

  /** A refused entry refuses every longer run of entries the same way. */
  lemma {:induction false} StepsStop(env: Env, mode: Mode, v: View, entries: seq<Entry>, n: nat)
    requires n <= |entries| && Steps(env, mode, v, entries[..n]).Err?
    ensures Steps(env, mode, v, entries) == Steps(env, mode, v, entries[..n])
    decreases |entries| - n
  {
    hide Step;
    if n == |entries| {
      assert entries[..n] == entries;
    } else {
      assert entries[..n + 1][..n] == entries[..n];
      StepsStop(env, mode, v, entries, n + 1);
    }
  }

  lemma LaterTime(tip: Tip, now: int)
    ensures Now(tip, now) == if tip.lastTime.Some? && now < tip.lastTime.value then tip.lastTime.value else now
  {
  }

  lemma DraftedIs(env: Env, p: Purse, time: int, txn: Id, id: Id, d: Draft, line: Line, current: int)
    requires current == BalanceOf(p, d, line.scope)
    ensures var after := current + Signed(line.direction, line.amount);
            var e := Entry(d.sequence + 1, id, txn, time, line.kind, line.direction, line.scope, line.counterparty,
                           line.amount, after, d.prev, "", line.memo, line.ref, V3);
            Drafted(env, p, time, txn, id, d, line)
              == Draft(d.entries + [e.(hash := env.digest(e))], if ZeroValue(line.kind) then d.running
                    else d.running[line.scope := after],
                       env.digest(e), d.sequence + 1)
  {
  }

  lemma {:induction false} DraftIds(env: Env, c: Chain, stamp: Stamp, lines: seq<Line>)
    requires |lines| <= |stamp.ids|
    ensures forall i :: 0 <= i < |lines| ==> Drafts(env, c, stamp, lines).entries[i].id == stamp.ids[i]
  {
    if |lines| > 0 {
      DraftIds(env, c, stamp, lines[..|lines| - 1]);
    }
  }

  /** What a post stamps its entries with: the ids drawn, one transaction, and the clock's
      time, or the time of the chain's last entry if that is later. */
  lemma {:induction false} DraftStamps(env: Env, c: Chain, stamp: Stamp, lines: seq<Line>, i: nat)
    requires |lines| <= |stamp.ids| && i < |lines|
    ensures var e, last := Drafts(env, c, stamp, lines).entries[i], c.tip.lastTime;
            && e.id == stamp.ids[i] && e.txn == stamp.txn && e.sequence == c.tip.length + 1 + i && e.version.V3?
            && e.time >= stamp.now && (last.Some? ==> e.time >= last.value)
            && (e.time == stamp.now || last == Some(e.time))
            && e.memo == lines[i].memo && e.ref == lines[i].ref && e.counterparty == lines[i].counterparty
  {
    DraftSequence(env, c, stamp, lines);
    if i < |lines| - 1 {
      DraftStamps(env, c, stamp, lines[..|lines| - 1], i);
    } else {
      DraftSequence(env, c, stamp, lines[..|lines| - 1]);
    }
  }

  lemma {:induction false} DraftSequence(env: Env, c: Chain, stamp: Stamp, lines: seq<Line>)
    requires |lines| <= |stamp.ids|
    ensures Drafts(env, c, stamp, lines).sequence == c.tip.length + |lines|
  {
    if |lines| > 0 { DraftSequence(env, c, stamp, lines[..|lines| - 1]); }
  }

  // -- what is built fits the chain ---------------------------------------------------

  /** The hash of an entry is a function of its other fields. */
  ghost predicate HashIgnoresItself(env: Env) {
    forall e: Entry, h :: env.digest(e.(hash := h)) == env.digest(e)
  }

  lemma {:induction false} DraftHashes(env: Env, c: Chain, stamp: Stamp, lines: seq<Line>, i: nat)
    requires HashIgnoresItself(env) && |lines| <= |stamp.ids| && i < |lines|
    ensures var e := Drafts(env, c, stamp, lines).entries[i]; env.digest(e) == e.hash
  {
    var d := Drafts(env, c, stamp, lines);
    if i < |lines| - 1 {
      DraftHashes(env, c, stamp, lines[..|lines| - 1], i);
    } else {
      var e := d.entries[i];
      assert env.digest(e.(hash := "")) == e.hash;
      assert e.(hash := "").(hash := e.hash) == e;
    }
  }

  /** A draft is of the chain the engine has reached: same end, same balances. */
  ghost predicate Abreast(c: Chain, stamp: Stamp, d: Draft, w: View) {
    && w.c.tip.head == d.prev && w.c.tip.length == d.sequence
    && (w.c.tip.lastTime.Some? ==> w.c.tip.lastTime.value <= Now(c.tip, stamp.now))
    && (forall s :: Get(w.c.purse.balances, s) == BalanceOf(c.purse, d, s))
  }

  lemma AbreastStep(env: Env, c: Chain, stamp: Stamp, id: Id, d: Draft, line: Line, w: View)
    requires Abreast(c, stamp, d, w)
    requires var next := Drafted(env, c.purse, Now(c.tip, stamp.now), stamp.txn, id, d, line);
             Step(env, WRITING, w, next.entries[|d.entries|]).Ok?
    ensures var next := Drafted(env, c.purse, Now(c.tip, stamp.now), stamp.txn, id, d, line);
            Abreast(c, stamp, next, Step(env, WRITING, w, next.entries[|d.entries|]).value)
  {
    hide Step, Now;
    var next := Drafted(env, c.purse, Now(c.tip, stamp.now), stamp.txn, id, d, line);
    var e := next.entries[|d.entries|];
    StepForm(env, WRITING, w, e);
    var txn := StepParts(env, WRITING, w, e);
    hide HoldRule, Begin, Netted, AddTotals, LegalDirection;
    BalancesAfter(WRITING, w.c.purse, e);
    hide BalanceRule, FlowRule;
    var w' := Step(env, WRITING, w, e).value;
    assert w'.c.tip.head == next.prev && w'.c.tip.length == next.sequence;
    assert w'.c.tip.lastTime == Some(Now(c.tip, stamp.now));
    forall s ensures Get(w'.c.purse.balances, s) == BalanceOf(c.purse, next, s) {
      assert Get(w.c.purse.balances, s) == BalanceOf(c.purse, d, s);
    }
  }

  lemma {:induction false} DraftsAbreast(env: Env, v: View, stamp: Stamp, lines: seq<Line>)
    requires |lines| <= |stamp.ids| && Steps(env, WRITING, v, Drafts(env, v.c, stamp, lines).entries).Ok?
    ensures Abreast(v.c, stamp, Drafts(env, v.c, stamp, lines),
              Steps(env, WRITING, v, Drafts(env, v.c, stamp, lines).entries).value)
  {
    hide Step, LineRule;
    if |lines| > 0 {
      var n := |lines| - 1;
      var d, d' := Drafts(env, v.c, stamp, lines[..n]), Drafts(env, v.c, stamp, lines);
      assert d'.entries[..n] == d.entries;
      DraftsAbreast(env, v, stamp, lines[..n]);
      hide Abreast;
      AbreastStep(env, v.c, stamp, stamp.ids[n], d, lines[n], Steps(env, WRITING, v, d.entries).value);
    }
  }

  lemma BalancesAfter(mode: Mode, p: Purse, e: Entry)
    requires BalanceRule(p, e).Ok? && FlowRule(mode, BalanceRule(p, e).value, e).Ok?
    ensures FlowRule(mode, BalanceRule(p, e).value, e).value.balances
         == if ZeroValue(e.kind) then p.balances else p.balances[e.scope := e.balanceAfter]
  {
  }

  /** Whatever the lines, an entry built for them never fails its link, its hash, its
      running balance, its direction, its text or its time: only what a line asks for
      can be refused, never how it was put into the chain. */
  lemma BuiltFits(env: Env, v: View, stamp: Stamp, lines: seq<Line>, i: nat)
    requires HashIgnoresItself(env) && |lines| <= |stamp.ids| && i < |lines| && LineRule(lines[i]).Ok?
    requires Steps(env, WRITING, v, Drafts(env, v.c, stamp, lines[..i]).entries).Ok?
    ensures var e := Drafts(env, v.c, stamp, lines[..i + 1]).entries[i];
            var w := Steps(env, WRITING, v, Drafts(env, v.c, stamp, lines[..i]).entries).value;
            && LinkRule(env, REPLAYING, w.c.tip, e).Ok?
            && LegalDirection(e.kind, e.direction) && (if ZeroValue(e.kind) then e.amount == 0 else e.amount > 0)
            && TextRule(w.c.tip, e).Ok?
            && BalanceRule(w.c.purse, e).Ok?
            && (e.ref.Some? ==> Referencing(e.kind, e.version))
  {
    hide Steps, TextAllowed;
    DraftsAbreast(env, v, stamp, lines[..i]);
    DraftHashes(env, v.c, stamp, lines[..i + 1], i);
    hide HashIgnoresItself;
    assert lines[..i + 1][..i] == lines[..i];
    var d := Drafts(env, v.c, stamp, lines[..i]);
    assert Drafts(env, v.c, stamp, lines[..i + 1])
        == Drafted(env, v.c.purse, Now(v.c.tip, stamp.now), stamp.txn, stamp.ids[i], d, lines[i]);
  }

  // -- several transactions in one unit of work ----------------------------------------

  function PostAll(env: Env, v: View, posts: seq<seq<Entry>>): Result<View> {
    if |posts| == 0 then Ok(v)
    else
      var w :- PostAll(env, v, posts[..|posts| - 1]);
      PostOne(env, w, posts[|posts| - 1])
  }

  /** Two views that differ only in where their transaction began. */
  ghost predicate OneView(v: View, w: View) {
    && v.c == w.c && v.recent == w.recent && v.start == w.start
    && v.txn.net == w.txn.net && v.txn.settleable <= w.txn.settleable
    && (v.txn.id == w.txn.id || (v.txn.id.None? && v.txn.net == 0 && v.txn.settleable == {}))
  }

  lemma StepOneView(env: Env, mode: Mode, v: View, w: View, e: Entry)
    requires OneView(v, w) && Step(env, mode, v, e).Ok?
    ensures Step(env, mode, w, e).Ok? && OneView(Step(env, mode, v, e).value, Step(env, mode, w, e).value)
  {
    hide AdmitRule, Begin, Netted, BalanceRule, HoldRule, RefundRule, FlowRule, Governing, Advance, AddTotals;
    BeginSame(v.txn, w.txn, e);
    HoldSame(v.c.holds, Begin(v.txn, e).value, Begin(w.txn, e).value, e);
  }

  lemma {:induction false} StepsOneView(env: Env, mode: Mode, v: View, w: View, entries: seq<Entry>)
    requires OneView(v, w) && Steps(env, mode, v, entries).Ok?
    ensures Steps(env, mode, w, entries).Ok?
    ensures OneView(Steps(env, mode, v, entries).value, Steps(env, mode, w, entries).value)
  {
    hide Step, OneView;
    if |entries| > 0 {
      var init := entries[..|entries| - 1];
      StepsOneView(env, mode, v, w, init);
      StepOneView(env, mode, Steps(env, mode, v, init).value, Steps(env, mode, w, init).value, entries[|entries| - 1]);
    }
  }

  /** The transactions of a unit of work are one batch: what posting them one after
      another accepts, one view over all their entries accepts, to the same state. */
  lemma {:induction false} PostsAreOneBatch(env: Env, c: Chain, posts: seq<seq<Entry>>)
    requires PostAll(env, Over(c), posts).Ok?
    ensures Steps(env, WRITING, Over(c), Flat(posts)).Ok?
    ensures OneView(PostAll(env, Over(c), posts).value, Steps(env, WRITING, Over(c), Flat(posts)).value)
    ensures Batch(env, WRITING, c, Flat(posts)) == Ok(Merged(env, PostAll(env, Over(c), posts).value))
  {
    hide Step, OneView, Over, Merged;
    if |posts| == 0 {
      OverMerged(env, c);
      SelfOneView(Over(c));
    } else {
      var init, last := posts[..|posts| - 1], posts[|posts| - 1];
      PostsAreOneBatch(env, c, init);
      var v, w := PostAll(env, Over(c), init).value, Steps(env, WRITING, Over(c), Flat(init)).value;
      StepsAppend(env, WRITING, Over(c), Flat(init), last);
      StepsOneView(env, WRITING, v, w, last);
      Between(env, Steps(env, WRITING, v, last).value, Steps(env, WRITING, w, last).value);
    }
  }

  lemma SelfOneView(v: View)
    ensures OneView(v, v)
  {
  }

  lemma Between(env: Env, x: View, y: View)
    requires OneView(x, y) && End(x.txn).Ok?
    ensures End(y.txn).Ok? && OneView(x.(txn := End(x.txn).value), y)
    ensures Merged(env, y) == Merged(env, x.(txn := End(x.txn).value))
  {
  }
}
