/**
 A ledger whose snapshot cuts a settlement from its release: a hold is released as the
 last entry before the snapshot and settled, in the same transaction, as the first after
 it.  A replay accepts the whole chain; opening from that snapshot refuses it.
 */
module CutInputs {
  import opened Vocabulary
  import opened Dicts
  import opened Engine
  import opened Replays
  import opened Laws
  import opened Cuts
  import opened Snapshots
  import opened Opens
  import Merkle

  const UNIT := Unit("", 1)

  /** Everything hashes to the empty text, and entries are looked up among these. */
  function Rules(entries: seq<Entry>): Env {
    Env((e: Entry) => "", (b: Merkle.Bytes) => [], (h: Hash) => [], (memo: string) => None, (memo: string) => false,
        SpendIndex(entries), None)
  }

  function Line(n: nat, txn: Id, kind: Kind, direction: Direction, amount: int, after: int, ref: Option<Id>): Entry {
    Entry(n, n, txn, 0, kind, direction, "a", None, amount, after, "", "", "", ref, V3)
  }

  const FUND := Line(1, 1, Funding, Credit, 9, 9, None)
  const HOLD := Line(2, 2, Hold, Debit, 5, 4, None)
  const VOID := Line(3, 3, HoldVoid, Credit, 5, 9, Some(2))
  const SPEND := Line(4, 3, Spend, Debit, 5, 4, Some(2))

  const BEFORE := [FUND, HOLD, VOID]
  const AFTER := [SPEND]

  ghost predicate At(v: View, n: nat, balance: int) {
    && v.c.unit == UNIT && v.c.tip.length == n && v.c.tip.head == "" && v.txn.net == 0
    && (v.c.tip.lastTime == None || v.c.tip.lastTime == Some(0)) && !v.c.tip.sawV1
    && Get(v.c.purse.balances, "a") == balance && (n > 0 ==> "a" in v.c.tree.nodes.at)
  }

  lemma Texts()
    ensures TextAllowed("a", MAX_ID_BYTES, true) && TextAllowed("", MAX_MEMO_BYTES, false)
  {
    assert Utf8Size("") == 0;
    assert "a"[1..] == "";
  }

  lemma Funded(env: Env, v: View)
    requires env.digest(FUND) == "" && v == Over(EmptyChain(UNIT))
    ensures var s := Step(env, REPLAYING, v, FUND); s.Ok? && At(s.value, 1, 9)
  {
    hide TextAllowed, Merkle.Extend;
    Texts();
  }

  lemma Held(env: Env, v: View)
    requires env.digest(HOLD) == "" && At(v, 1, 9)
    ensures var s := Step(env, REPLAYING, v, HOLD);
            s.Ok? && At(s.value, 2, 4) && 2 in s.value.c.holds.open.at && s.value.c.holds.open.at[2] == HOLD
  {
    hide TextAllowed, Merkle.Extend;
    Texts();
  }

  lemma Voided(env: Env, v: View)
    requires env.digest(VOID) == "" && At(v, 2, 4) && 2 in v.c.holds.open.at && v.c.holds.open.at[2] == HOLD
    ensures var s := Step(env, REPLAYING, v, VOID);
            s.Ok? && At(s.value, 3, 9) && s.value.txn.id == Some(3) && 2 in s.value.txn.settleable
  {
    hide TextAllowed, Merkle.Extend, Drop;
    Texts();
  }

  lemma Settled(env: Env, v: View)
    requires env.digest(SPEND) == "" && At(v, 3, 9) && v.txn.id == Some(3) && 2 in v.txn.settleable
    ensures var s := Step(env, REPLAYING, v, SPEND); s.Ok? && At(s.value, 4, 4)
  {
    hide TextAllowed, Merkle.Extend;
    Texts();
  }

  lemma OneMore(env: Env, v: View, entries: seq<Entry>, e: Entry)
    ensures Steps(env, REPLAYING, v, entries + [e])
         == match Steps(env, REPLAYING, v, entries) case Ok(w) => Step(env, REPLAYING, w, e) case Err(f) => Err(f)
  {
    hide Step;
    var all := entries + [e];
    assert all[..|all| - 1] == entries;
  }

  lemma Nothing(env: Env, v: View)
    ensures Steps(env, REPLAYING, v, []) == Ok(v)
  {
  }

  lemma Ends(env: Env, entries: seq<Entry>, n: nat, balance: int)
    requires Steps(env, REPLAYING, Over(EmptyChain(UNIT)), entries).Ok?
    requires At(Steps(env, REPLAYING, Over(EmptyChain(UNIT)), entries).value, n, balance)
    ensures Replay(env, UNIT, entries).Ok?
  {
    hide Steps;
  }

  lemma BothReplay(env: Env)
    requires env.digest(FUND) == "" && env.digest(HOLD) == "" && env.digest(VOID) == "" && env.digest(SPEND) == ""
    ensures Replay(env, UNIT, BEFORE).Ok? && Replay(env, UNIT, BEFORE + AFTER).Ok?
  {
    hide Step, Steps, At, Replay;
    var v := Over(EmptyChain(UNIT));
    Nothing(env, v);
    assert [] + [FUND] == [FUND] && [FUND] + [HOLD] == [FUND, HOLD] && [FUND, HOLD] + [VOID] == BEFORE;
    OneMore(env, v, [], FUND);
    Funded(env, v);
    OneMore(env, v, [FUND], HOLD);
    Held(env, Steps(env, REPLAYING, v, [FUND]).value);
    OneMore(env, v, [FUND, HOLD], VOID);
    Voided(env, Steps(env, REPLAYING, v, [FUND, HOLD]).value);
    Ends(env, BEFORE, 3, 9);
    OneMore(env, v, BEFORE, SPEND);
    Settled(env, Steps(env, REPLAYING, v, BEFORE).value);
    Ends(env, BEFORE + AFTER, 4, 4);
  }

  lemma IsCutOff()
    ensures CutOff(BEFORE, AFTER)
  {
    assert BEFORE[..2] == [FUND, HOLD] && BEFORE + AFTER[..0] == BEFORE && AFTER[..0] == [];
    assert LastReleases(BEFORE) == Releasable([FUND, HOLD], 3) + {2};
    assert CutOffAt(BEFORE, AFTER, 0);
  }

  /** The whole chain replays, and opening it from the snapshot between the release and
      its settlement is refused. */
  lemma CutSettlement()
    ensures var env := Rules(BEFORE + AFTER);
            var store := env.(resolve := OpeningResolver(BEFORE, AFTER), refunds := Some(StoreRefunds(BEFORE + AFTER)));
            && Replay(env, UNIT, BEFORE + AFTER).Ok? && Replay(env, UNIT, BEFORE).Ok?
            && Sound(Replay(env, UNIT, BEFORE).value)
            && OpenFrom(store, Encode(Replay(env, UNIT, BEFORE).value), AFTER).None?
  {
    hide Replay, OpenFrom, OpeningResolver, SpendIndex, StoreRefunds, Encode, CutOff, Sound;
    var env := Rules(BEFORE + AFTER);
    BothReplay(env);
    IsCutOff();
    assert DistinctIds(BEFORE + AFTER);
    OpeningAgreesWithReplay(env, UNIT, BEFORE, AFTER);
  }
}
