/**
 Ledgers on which a resumed audit and one from genesis differ: one with a checkpoint
 named below the mark after the mark was made, and one whose stored snapshot carries a
 wrong digest beside the right body.  Whatever the snapshot digest is, the resumed run
 accepts the whole chain and the run from genesis refuses it.
 */
module ResumeInputs {
  import opened Vocabulary
  import opened Dicts
  import opened Engine
  import opened Replays
  import opened Laws
  import opened Trees
  import opened Snapshots
  import opened Opens
  import opened Audits
  import opened Resumes
  import opened ResumeExact
  import Merkle

  const UNIT := Unit("", 1)

  /** Everything hashes to the empty text; a memo reads as a checkpoint of the sequence its
      first character gives, committing to the digest in the rest. */
  function Rules(): Env {
    Env((e: Entry) => "", (b: Merkle.Bytes) => [], (h: Hash) => [],
        (memo: string) => if |memo| > 0 then Some((if memo[0] == '1' then 1 else 2, memo[1..])) else None,
        (memo: string) => false, (id: Id) => None, Some((id: Id, n: nat) => 0))
  }

  function Funds(n: nat, after: int): Entry {
    Entry(n, n, n, 0, Funding, Credit, "a", None, 5, after, "", "", "", None, V3)
  }

  function Names(n: nat, memo: string): Entry {
    Entry(n, n, n, 0, Checkpoint, Neutral, "", None, 0, 0, "", "", memo, None, V3)
  }

  const FUNDED := [Funds(1, 5), Funds(2, 10)]

  /** A view between transactions, at a place any entry of this world may follow. */
  ghost predicate Open(v: View, length: nat, balance: int) {
    && v.c.unit == UNIT && v.c.tip.length == length && v.c.tip.head == "" && v.txn.net == 0
    && (v.c.tip.lastTime == None || v.c.tip.lastTime == Some(0)) && !v.c.tip.sawV1 && v.c.tip.seal.None?
    && Get(v.c.purse.balances, "a") == balance && Get(v.c.purse.balances, "") == 0
    && (v.txn.id.Some? ==> v.txn.id.value <= length)
    && ("a" in v.c.tree.nodes.at ==> v.c.tree.nodes.at["a"].parent.None?)
  }

  lemma Texts()
    ensures TextAllowed("a", MAX_ID_BYTES, true) && TextAllowed("", MAX_ID_BYTES, true)
              && TextAllowed("", MAX_MEMO_BYTES, false)
  {
    assert Utf8Size("") == 0;
    assert "a"[1..] == "";
  }

  lemma FundsAccepted(env: Env, v: View, n: nat, balance: int)
    requires Open(v, n, balance) && env.digest(Funds(n + 1, balance + 5)) == ""
    ensures var s := Step(env, REPLAYING, v, Funds(n + 1, balance + 5)); s.Ok? && Open(s.value, n + 1, balance + 5)
    ensures Step(env, REPLAYING, v, Funds(n + 1, balance + 5)).value.c.tip.lastCheckpoint == v.c.tip.lastCheckpoint
  {
    hide TextAllowed, Merkle.Extend;
    Texts();
  }

  lemma NamesAccepted(env: Env, v: View, n: nat, balance: int, memo: string, sequence: nat, digest: Hash)
    requires Open(v, n, balance) && env.digest(Names(n + 1, memo)) == "" && TextAllowed(memo, MAX_MEMO_BYTES, false)
    requires env.readCheckpoint(memo) == Some((sequence as int, digest)) && sequence <= n
    requires v.c.tip.lastCheckpoint.Some? ==> v.c.tip.lastCheckpoint.value.0 < sequence
    ensures var s := Step(env, REPLAYING, v, Names(n + 1, memo));
            s.Ok? && Open(s.value, n + 1, balance) && s.value.c.tip.lastCheckpoint == Some((sequence as int, digest))
  {
    hide TextAllowed, Merkle.Extend;
    Texts();
  }

  // -- the earlier audit: two fundings, no checkpoint -------------------------------------------

  function Bare(digest: Document -> Hash): Records { Records(digest, map[], map[]) }

  lemma Started(env: Env)
    ensures Open(Over(EmptyChain(UNIT)), 0, 0)
  {
  }

  /** Steps past sequences no checkpoint names are plain steps. */
  lemma PlainStep(env: Env, records: Records, v: View, e: Entry)
    requires Step(env, REPLAYING, v, e).Ok? && Step(env, REPLAYING, v, e).value.c.tip.length !in records.checkpoints
    ensures AuditStep(env, records, v, e) == Step(env, REPLAYING, v, e)
  {
    hide Step;
  }

  lemma FundedIsAccepted(env: Env, digest: Document -> Hash)
    requires env.digest(Funds(1, 5)) == "" && env.digest(Funds(2, 10)) == ""
    ensures var v := AuditSteps(env, Bare(digest), Over(EmptyChain(UNIT)), FUNDED);
            v.Ok? && Open(v.value, 2, 10) && v.value.c.tip.lastCheckpoint.None?
  {
    hide Step, Open, AuditStep;
    var start := Over(EmptyChain(UNIT));
    Started(env);
    FundsAccepted(env, start, 0, 0);
    var one := Step(env, REPLAYING, start, Funds(1, 5)).value;
    FundsAccepted(env, one, 1, 5);
    var two := Step(env, REPLAYING, one, Funds(2, 10)).value;
    PlainStep(env, Bare(digest), start, Funds(1, 5));
    PlainStep(env, Bare(digest), one, Funds(2, 10));
    assert FUNDED[..1] == [Funds(1, 5)] && [Funds(1, 5)][..0] == [];
    assert AuditSteps(env, Bare(digest), start, []) == Ok(start);
    assert AuditSteps(env, Bare(digest), start, [Funds(1, 5)]) == Ok(one);
  }

  /** The state after both fundings, and the mark an audit leaves there. */
  ghost function After(digest: Document -> Hash): (c: Chain)
    ensures Encodable(c) && Verified(Rules(), UNIT, FUNDED, Bare(digest), 2, digest(Encode(c)))
    ensures c == StateAt(Rules(), UNIT, FUNDED, Bare(digest), 2) && Sound(c) && Open(Over(c), 2, 10)
              && c.(spendRefunds := map[]) == c
    ensures c.tip.lastCheckpoint.None?
  {
    AfterBoth(digest);
    StateAt(Rules(), UNIT, FUNDED, Bare(digest), 2)
  }

  lemma AfterBoth(digest: Document -> Hash)
    ensures AuditSteps(StoreEnv(Rules(), FUNDED), Bare(digest), Over(EmptyChain(UNIT)), FUNDED[..2]).Ok?
    ensures var c := StateAt(Rules(), UNIT, FUNDED, Bare(digest), 2);
            && Encodable(c) && Verified(Rules(), UNIT, FUNDED, Bare(digest), 2, digest(Encode(c)))
            && Sound(c) && Open(Over(c), 2, 10) && c.(spendRefunds := map[]) == c && c.tip.lastCheckpoint.None?
  {
    hide AuditSteps, Sound, Encode, Audited;
    var at := StoreEnv(Rules(), FUNDED);
    assert FUNDED[..2] == FUNDED;
    FundedIsAccepted(at, digest);
    AuditKeeps(at, Bare(digest), UNIT, FUNDED);
    var v := AuditSteps(at, Bare(digest), Over(EmptyChain(UNIT)), FUNDED).value;
    AuditedIsSound(v, FUNDED);
    SoundEncodes(v.c);
  }

  lemma SoundEncodes(c: Chain)
    requires Sound(c)
    ensures Encodable(c)
  {
    hide TreeKept, Weigh, Merkle.Ones;
    assert TreeKept(c.tree);
    NodesOrdered(c.tree);
  }

  lemma NodesOrdered(t: Tree)
    requires TreeKept(t)
    ensures forall k :: k in t.nodes.order ==> k in t.nodes.at
  {
  }

  // -- the two inputs -----------------------------------------------------------------------------

  /** The digests can be written in a checkpoint's memo. */
  ghost predicate Writable(digest: Document -> Hash) {
    forall d :: TextAllowed("2" + digest(d), MAX_MEMO_BYTES, false)
  }

  ghost function MarkOf(digest: Document -> Hash): Hash { digest(Encode(After(digest))) }

  lemma OneTextAllowed()
    ensures TextAllowed("1", MAX_MEMO_BYTES, false)
  {
    assert "1"[1..] == "";
    assert Utf8Size("") == 0;
  }

  /** A checkpoint entry no recorded sequence coincides with. */
  lemma NamesAudited(env: Env, records: Records, v: View, n: nat, memo: string, sequence: nat, digest: Hash)
    requires Open(v, n, 10) && env.digest(Names(n + 1, memo)) == "" && TextAllowed(memo, MAX_MEMO_BYTES, false)
    requires env.readCheckpoint(memo) == Some((sequence as int, digest)) && sequence <= n
               && n + 1 !in records.checkpoints
    requires v.c.tip.lastCheckpoint.Some? ==> v.c.tip.lastCheckpoint.value.0 < sequence
    ensures var s := AuditStep(env, records, v, Names(n + 1, memo));
            s.Ok? && Open(s.value, n + 1, 10) && s.value.c.tip.lastCheckpoint == Some((sequence as int, digest))
  {
    hide Step, AuditStep, TextAllowed;
    NamesAccepted(env, v, n, 10, memo, sequence, digest);
    PlainStep(env, records, v, Names(n + 1, memo));
  }

  lemma OneMoreAudited(env: Env, records: Records, v: View, entries: seq<Entry>, e: Entry)
    ensures AuditSteps(env, records, v, entries + [e])
         == match AuditSteps(env, records, v, entries) case Ok(w) => AuditStep(env, records, w, e) case Err(f) => Err(f)
  {
    hide AuditStep;
    var all := entries + [e];
    assert all[..|all| - 1] == entries;
  }

  lemma Finishes(env: Env, records: Records, c: Chain, entries: seq<Entry>, length: nat)
    requires env.refunds.Some? && AuditSteps(env, records, Over(c), entries).Ok?
    requires Open(AuditSteps(env, records, Over(c), entries).value, length, 10)
    ensures AuditFrom(env, records, c, entries, length, "").Ok?
  {
    hide AuditSteps;
  }

  /** The chain of the first input: both fundings, a late checkpoint of sequence 1, then
      the checkpoint of sequence 2 the mark is of. */
  function LateChain(mark: Hash): seq<Entry> { FUNDED + [Names(3, "1"), Names(4, "2" + mark)] }

  ghost function LateRecords(digest: Document -> Hash): Records {
    Records(digest, map[1 := "", 2 := MarkOf(digest)], map[2 := (Encode(After(digest)), MarkOf(digest))])
  }

  lemma LateResumed(digest: Document -> Hash)
    requires Writable(digest)
    ensures var chain := LateChain(MarkOf(digest));
            AuditFrom(StoreEnv(Rules(), chain), LateRecords(digest), After(digest), chain[2..], 4, "").Ok?
  {
    hide AuditStep, AuditSteps, Open, Encode, TextAllowed, AuditFrom;
    var mark := MarkOf(digest);
    var chain := LateChain(mark);
    var at, s, c := StoreEnv(Rules(), chain), LateRecords(digest), After(digest);
    assert chain[2..] == [Names(3, "1")] + [Names(4, "2" + mark)];
    OneTextAllowed();
    assert "1"[1..] == "" && ("2" + mark)[1..] == mark;
    assert AuditSteps(at, s, Over(c), []) == Ok(Over(c)) by { NothingAudited(at, s, Over(c)); }
    NamesAudited(at, s, Over(c), 2, "1", 1, "");
    assert [] + [Names(3, "1")] == [Names(3, "1")];
    OneMoreAudited(at, s, Over(c), [], Names(3, "1"));
    var v := AuditSteps(at, s, Over(c), [Names(3, "1")]).value;
    NamesAudited(at, s, v, 3, "2" + mark, 2, mark);
    OneMoreAudited(at, s, Over(c), [Names(3, "1")], Names(4, "2" + mark));
    Finishes(at, s, c, chain[2..], 4);
  }

  lemma NothingAudited(env: Env, records: Records, v: View)
    ensures AuditSteps(env, records, v, []) == Ok(v)
  {
  }

  /** A run refused early is refused as a whole. */
  lemma RefusedEarly(env: Env, s: Records, chain: seq<Entry>, n: nat, length: nat)
    requires n <= |chain| && Then(env, s, UNIT, chain, n).Err?
    ensures AuditFrom(env, s, EmptyChain(UNIT), chain, length, "").Err?
  {
    hide AuditSteps;
    AuditStops(env, s, Over(EmptyChain(UNIT)), chain, n);
  }

  lemma LateIsNotStored(digest: Document -> Hash)
    ensures var chain := LateChain(MarkOf(digest));
            !AllLatePass(StoreEnv(Rules(), chain), Bare(digest), LateRecords(digest), UNIT, chain, 2)
  {
    hide Encode, AuditSteps, Across, Audited;
    var chain := LateChain(MarkOf(digest));
    var at, r, s := StoreEnv(Rules(), chain), Bare(digest), LateRecords(digest);
    assert s.checkpoints == map[1 := "", 2 := MarkOf(digest)] && s.stored.Keys == {2};
    assert Late(r, s, 1);
    var one := Then(at, r, UNIT, chain, 1);
    if one.Ok? {
      assert DistinctIds(chain[..1]);
      AuditKeeps(at, r, UNIT, chain[..1]);
      AuditedBounds(one.value, chain[..1]);
      assert !SnapshotMatches(s, one.value.c, s.checkpoints[1]);
    }
    assert !PassesAt(at, r, s, UNIT, chain, 2, 1);
  }

  /** The mark was left at sequence 2; a checkpoint of sequence 1 was named afterwards and
      its snapshot is not there.  The run from genesis refuses the chain, the resumed one
      accepts all of it. */
  lemma SkippedCheckpoint(digest: Document -> Hash)
    requires Writable(digest)
    ensures var chain, s, c := LateChain(MarkOf(digest)), LateRecords(digest), After(digest);
            && s.checkpoints == Named(Rules(), chain) && s.stored[2] == (Encode(c), MarkOf(digest))
                  && Decode(Encode(c)) == Some(c)
            && AuditFrom(StoreEnv(Rules(), chain), s, c, chain[2..], 4, "").Ok?
            && AuditFrom(StoreEnv(Rules(), chain), s, EmptyChain(UNIT), chain, 4, "").Err?
  {
    hide Encode, Decode, AuditFrom, AllLatePass, Then, Open, Sound, Named, Verified, Encodable;
    var mark := MarkOf(digest);
    var chain := LateChain(mark);
    var s, c := LateRecords(digest), After(digest);
    RoundTrip(c);
    LateResumed(digest);
    LateIsNotStored(digest);
    LateNamed(mark);
    assert DistinctIds(chain) && FUNDED <= chain && Grown(Bare(digest), s, 2);
    AtTheMark(Rules(), UNIT, FUNDED, chain, Bare(digest), s, 2, mark);
    RefusedEarly(StoreEnv(Rules(), chain), s, chain, 2, 4);
  }

  lemma LateNamed(mark: Hash)
    ensures Named(Rules(), LateChain(mark)) == map[1 := "", 2 := mark]
  {
    var chain := LateChain(mark);
    assert chain[..3] == FUNDED + [Names(3, "1")] && chain[..3][..2] == FUNDED && FUNDED[..1] == [Funds(1, 5)]
             && [Funds(1, 5)][..0] == [];
    assert Named(Rules(), [Funds(1, 5)]) == map[] && Named(Rules(), FUNDED) == map[];
    assert "1"[1..] == "" && ("2" + mark)[1..] == mark;
    assert Named(Rules(), chain[..3]) == map[1 := ""];
  }

  /** The chain of the second input: both fundings and the checkpoint the mark is of. */
  function ColumnChain(mark: Hash): seq<Entry> { FUNDED + [Names(3, "2" + mark)] }

  ghost function ColumnRecords(digest: Document -> Hash): Records {
    Records(digest, map[2 := MarkOf(digest)], map[2 := (Encode(After(digest)), MarkOf(digest) + "x")])
  }

  /** The snapshot stored at the mark has the right body and a wrong digest beside it.  A
      resumed run does not read that column; the run from genesis does. */
  lemma WrongColumn(digest: Document -> Hash)
    requires Writable(digest)
    ensures var chain, s, c := ColumnChain(MarkOf(digest)), ColumnRecords(digest), After(digest);
            && AuditFrom(StoreEnv(Rules(), chain), s, c, chain[2..], 3, "").Ok?
            && AuditFrom(StoreEnv(Rules(), chain), s, EmptyChain(UNIT), chain, 3, "").Err?
  {
    hide Encode, Decode, AuditFrom, AllLatePass, Then, Open, Sound, Named, Verified, Encodable, AuditSteps, AuditStep,
          TextAllowed;
    var mark := MarkOf(digest);
    var chain := ColumnChain(mark);
    var at, s, c := StoreEnv(Rules(), chain), ColumnRecords(digest), After(digest);
    assert chain[2..] == [] + [Names(3, "2" + mark)];
    assert ("2" + mark)[1..] == mark;
    NothingAudited(at, s, Over(c));
    NamesAudited(at, s, Over(c), 2, "2" + mark, 2, mark);
    OneMoreAudited(at, s, Over(c), [], Names(3, "2" + mark));
    Finishes(at, s, c, chain[2..], 3);
    assert DistinctIds(chain) && FUNDED <= chain && Grown(Bare(digest), s, 2);
    assert |mark + "x"| != |mark|;
    AtTheMark(Rules(), UNIT, FUNDED, chain, Bare(digest), s, 2, mark);
    RefusedEarly(at, s, chain, 2, 3);
  }
}
