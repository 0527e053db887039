/**
 Several governors over one shared ledger.  Each keeps the state in memory, takes the
 fleet's writer lock for a mutation, catches up under it, posts, and commits; a
 session may also be abandoned, crash, or lose its connection with the commit's
 outcome unknown.  Calls made under an idempotency key are recorded with the entries
 they wrote.
 */
module Fleet {
  import opened Vocabulary
  import opened Dicts
  import opened Engine
  import opened Replays
  import opened Laws
  import opened Snapshots
  import opened Opens
  import opened Resumes
  import opened Stores

  type Gov = nat

  /** A call under a key: what was asked, and which of its entries is the result. */
  datatype Call = Call(key: string, request: string, result: nat)

  /** One unit of work: the entries of a commit, and the call they answer. */
  datatype Write = Write(entries: seq<Entry>, call: Option<Call>)

  /** The row kept for a key. */
  datatype Record = Record(request: string, sequence: nat)

  datatype Phase = Idle | Locked | Writing

  datatype Governor = Governor(c: Chain, phase: Phase, dirty: bool, unusable: bool, pending: seq<Write>)

  /** The store: what is committed, the rows of the keys, the writer lock; and the
      governors running. */
  datatype World = World(posts: seq<Write>, keys: map<string, Record>, lock: Option<Gov>, govs: map<Gov, Governor>)

  /** The ledger's rules, and what a governor checks before it posts, given what its view
      has seen committed and the state in its own memory. */
  datatype Fleet = Fleet(env: Env, unit: Unit, guard: (seq<Entry>, Chain, Write) -> bool)

  datatype Action =
    | Open(g: Gov) | Crash(g: Gov, landed: bool) | Refresh(g: Gov)
    | Take(g: Gov) | Follow(g: Gov) | Post(g: Gov, w: Write)
    | Commit(g: Gov) | Abort(g: Gov) | Lost(g: Gov, landed: bool)

  function Batched(ws: seq<Write>): (r: seq<seq<Entry>>)
    ensures |r| == |ws| && forall i :: 0 <= i < |ws| ==> r[i] == ws[i].entries
  {
    if |ws| == 0 then [] else Batched(ws[..|ws| - 1]) + [ws[|ws| - 1].entries]
  }

  function Ledger(ws: seq<Write>): seq<Entry> {
    Flat(Batched(ws))
  }

  function Head(unit: Unit, chain: seq<Entry>): Hash {
    if |chain| == 0 then unit.genesis else chain[|chain| - 1].hash
  }

  /** Bring a view up to the chain: nothing to do if it ends where the chain ends;
      refused if the chain no longer holds what it verified; else verify the rest. */
  function Caught(f: Fleet, chain: seq<Entry>, c: Chain): Result<Chain> {
    var n := c.tip.length;
    if n == |chain| && c.tip.head == Head(f.unit, chain) then Ok(c)
    else if n > |chain| || (n > 0 && chain[n - 1].hash != c.tip.head) then Err(HeadMoved)
    else Batch(OverChain(f.env, chain).(resolve := OpeningResolver(chain[..n], chain[n..])), REPLAYING, c, chain[n..])
  }

  /** Read the whole ledger again. */
  function Reloaded(f: Fleet, chain: seq<Entry>): Result<Chain> {
    Replay(Replaying(f.env, chain), f.unit, chain)
  }

  /** A governor follows the ledger; one that cannot is never usable again. */
  function Followed(f: Fleet, chain: seq<Entry>, g: Governor): Governor {
    match if g.dirty then Reloaded(f, chain) else Caught(f, chain, g.c)
    case Ok(c) => g.(c := c, dirty := false)
    case Err(_) => g.(unusable := true)
  }

  /** What the writes add to the table of keys. */
  function Recorded(ws: seq<Write>): map<string, Record> {
    if |ws| == 0 then map[]
    else
      var init, w := ws[..|ws| - 1], ws[|ws| - 1];
      match w.call
      case None => Recorded(init)
      case Some(call) => Recorded(init)[call.key := Record(call.request, |Ledger(init)| + call.result + 1)]
  }

  datatype Answer = New | Replayed(sequence: nat) | Conflict

  /** What a call under a key is answered: looked up in the store's table and in the
      session's own writes. */
  function Asked(w: World, g: Governor, key: string, request: string): Answer {
    var own := Recorded(w.posts + g.pending);
    var found := if key in own then Some(own[key]) else if key in w.keys then Some(w.keys[key]) else None;
    if found.None? then New
    else if found.value.request != request then Conflict
    else Replayed(found.value.sequence)
  }

  /** What a post needs: a current view, entries the rules accept on it, the guard, new
      ids and true hashes, and a key not used before. */
  ghost predicate CanPost(f: Fleet, w: World, g: Governor, x: Write) {
    && g.phase.Writing? && |x.entries| > 0
    && f.guard(Ledger(w.posts + g.pending), g.c, x)
    && Batch(Replays.Writing(f.env, Ledger(w.posts + g.pending)), WRITING, g.c, x.entries).Ok?
    && DistinctIds(Ledger(w.posts + g.pending) + x.entries)
    && (forall i :: 0 <= i < |x.entries| ==> f.env.digest(x.entries[i]) == x.entries[i].hash)
    && (x.call.Some? ==> Asked(w, g, x.call.value.key, x.call.value.request).New? && x.call.value.result < |x.entries|)
  }

  predicate In(w: World, g: Gov, p: Phase) {
    g in w.govs && w.govs[g].phase == p
  }

  ghost predicate Can(f: Fleet, w: World, a: Action) {
    match a
    case Open(g) => g !in w.govs
    case Crash(g, landed) => g in w.govs && (landed ==> In(w, g, Writing))
    case Refresh(g) => In(w, g, Idle) && !w.govs[g].unusable
    case Take(g) => In(w, g, Idle) && !w.govs[g].unusable && w.lock.None?
    case Follow(g) => In(w, g, Locked)
    case Post(g, x) => g in w.govs && CanPost(f, w, w.govs[g], x)
    case Commit(g) => In(w, g, Writing)
    case Abort(g) => g in w.govs && !w.govs[g].phase.Idle?
    case Lost(g, _) => In(w, g, Writing) && w.govs[g].pending != []
  }

  function Kept(w: World, g: Governor, landed: bool): World {
    if landed then w.(posts := w.posts + g.pending, keys := w.keys + Recorded(w.posts + g.pending)) else w
  }

  function Ended(g: Governor, dirty: bool): Governor {
    g.(phase := Idle, pending := [], dirty := g.dirty || dirty)
  }

  /** A session's view after a post, and what it then has to commit. */
  function Written(f: Fleet, w: World, g: Governor, x: Write): Governor {
    match Batch(Replays.Writing(f.env, Ledger(w.posts + g.pending)), WRITING, g.c, x.entries)
    case Ok(d) => g.(c := d, pending := g.pending + [x])
    case Err(_) => g
  }

  /** Following under the lock: current and free to write, or unusable and out. */
  function Entered(f: Fleet, w: World, g: Governor): Governor {
    var next := Followed(f, Ledger(w.posts), g);
    next.(phase := if next.unusable then Idle else Writing)
  }

  ghost function Do(f: Fleet, w: World, a: Action): World
    requires Can(f, w, a)
  {
    match a
    case Open(g) =>
      (match Reloaded(f, Ledger(w.posts))
       case Ok(c) => w.(govs := w.govs[g := Governor(c, Idle, false, false, [])])
       case Err(_) => w)
    case Crash(g, landed) =>
      Kept(w, w.govs[g], landed).(govs := w.govs - {g}, lock := if In(w, g, Idle) then w.lock else None)
    case Refresh(g) => w.(govs := w.govs[g := Followed(f, Ledger(w.posts), w.govs[g])])
    case Take(g) => w.(lock := Some(g), govs := w.govs[g := w.govs[g].(phase := Locked)])
    case Follow(g) =>
      var next := Entered(f, w, w.govs[g]);
      w.(govs := w.govs[g := next], lock := if next.unusable then None else w.lock)
    case Post(g, x) => w.(govs := w.govs[g := Written(f, w, w.govs[g], x)])
    case Commit(g) => Kept(w, w.govs[g], true).(lock := None, govs := w.govs[g := Ended(w.govs[g], false)])
    case Abort(g) => w.(lock := None, govs := w.govs[g := Ended(w.govs[g], w.govs[g].pending != [])])
    case Lost(g, landed) => Kept(w, w.govs[g], landed).(lock := None, govs := w.govs[g := Ended(w.govs[g], true)])
  }

  /** Every interleaving of the governors' steps. */
  ghost predicate Run(f: Fleet, worlds: seq<World>, actions: seq<Action>) {
    && |worlds| == |actions| + 1 && worlds[0] == World([], map[], None, map[])
    && forall i :: 0 <= i < |actions| ==> Can(f, worlds[i], actions[i]) && worlds[i + 1] == Do(f, worlds[i], actions[i])
  }

  // -- posting, replaying and catching up agree ------------------------------------------

  /** The state writes leave, each posted over those before it. */
  function StateOf(f: Fleet, ws: seq<Write>): Result<Chain> {
    Posted(f.env, EmptyChain(f.unit), Batched(ws))
  }

  lemma {:induction false} FlatAppend(a: seq<seq<Entry>>, b: seq<seq<Entry>>)
    ensures Flat(a + b) == Flat(a) + Flat(b)
  {
    if |b| == 0 {
      assert a + b == a;
    } else {
      var ab := a + b;
      assert ab[..|ab| - 1] == a + b[..|b| - 1];
      FlatAppend(a, b[..|b| - 1]);
    }
  }

  lemma BatchedSlices(ws: seq<Write>, k: nat)
    requires k <= |ws|
    ensures Batched(ws[..k]) == Batched(ws)[..k] && Batched(ws[k..]) == Batched(ws)[k..]
  {
    hide Batched;
  }

  lemma BatchedAppend(a: seq<Write>, b: seq<Write>)
    ensures Batched(a + b) == Batched(a) + Batched(b)
  {
    hide Batched;
  }

  lemma LedgerSplit(ws: seq<Write>, k: nat)
    requires k <= |ws|
    ensures Ledger(ws) == Ledger(ws[..k]) + Ledger(ws[k..])
  {
    BatchedSlices(ws, k);
    assert Batched(ws) == Batched(ws)[..k] + Batched(ws)[k..];
    FlatAppend(Batched(ws)[..k], Batched(ws)[k..]);
  }

  lemma LedgerAppend(a: seq<Write>, b: seq<Write>)
    ensures Ledger(a + b) == Ledger(a) + Ledger(b)
  {
    BatchedAppend(a, b);
    FlatAppend(Batched(a), Batched(b));
  }

  lemma {:induction false} BatchesAppend(env: Env, mode: Mode, c: Chain, a: seq<seq<Entry>>, b: seq<seq<Entry>>)
    ensures Batches(env, mode, c, a + b)
         == match Batches(env, mode, c, a) case Ok(d) => Batches(env, mode, d, b) case Err(e) => Err(e)
  {
    hide Batch;
    if |b| == 0 {
      assert a + b == a;
    } else {
      var ab := a + b;
      assert ab[..|ab| - 1] == a + b[..|b| - 1];
      BatchesAppend(env, mode, c, a, b[..|b| - 1]);
    }
  }

  /** Writes that were all accepted, with new ids and true hashes. */
  ghost predicate Sealed(f: Fleet, ws: seq<Write>) {
    && StateOf(f, ws).Ok? && DistinctIds(Ledger(ws))
    && (forall i :: 0 <= i < |Ledger(ws)| ==> f.env.digest(Ledger(ws)[i]) == Ledger(ws)[i].hash)
  }

  lemma {:induction false} PostedPrefix(env: Env, c: Chain, batches: seq<seq<Entry>>, k: nat)
    requires k <= |batches| && Posted(env, c, batches).Ok?
    ensures Posted(env, c, batches[..k]).Ok?
  {
    hide Batch;
    if k < |batches| {
      var init := batches[..|batches| - 1];
      PostedPrefix(env, c, init, k);
      assert init[..k] == batches[..k];
    } else {
      assert batches[..k] == batches;
    }
  }

  lemma SealedPrefix(f: Fleet, ws: seq<Write>, k: nat)
    requires k <= |ws| && Sealed(f, ws)
    ensures Sealed(f, ws[..k])
  {
    hide Posted, Flat;
    LedgerSplit(ws, k);
    BatchedSlices(ws, k);
    PostedPrefix(f.env, EmptyChain(f.unit), Batched(ws), k);
    DistinctParts(Ledger(ws[..k]), Ledger(ws[k..]));
    assert forall i :: 0 <= i < |Ledger(ws[..k])| ==> Ledger(ws[..k])[i] == Ledger(ws)[i];
  }

  /** Reading the whole ledger again gives the state the writes left. */
  lemma ReloadAgrees(f: Fleet, ws: seq<Write>)
    requires Sealed(f, ws)
    ensures Reloaded(f, Ledger(ws)) == StateOf(f, ws)
    ensures StateOf(f, ws).value.tip.length == |Ledger(ws)| && StateOf(f, ws).value.tip.head == Head(f.unit, Ledger(ws))
  {
    hide Posted, Flat, Steps, Replaying;
    PostsReplay(f.env, f.unit, Batched(ws));
    var env := Replaying(f.env, Ledger(ws));
    FrontierKept(env, REPLAYING, f.unit, Ledger(ws));
    hide Leaves;
  }

  lemma StepSameSpends(a: Env, b: Env, v: View, e: Entry)
    requires b == a.(resolve := b.resolve) && SameSpends(a.resolve, b.resolve)
    ensures Step(b, REPLAYING, v, e) == Step(a, REPLAYING, v, e)
  {
    hide Step;
    if e.ref.Some? {
      assert AsSpend(a.resolve(e.ref.value)) == AsSpend(b.resolve(e.ref.value));
    }
    SameRules(a, b, v, e);
  }

  lemma {:induction false} StepsSameSpends(a: Env, b: Env, v: View, entries: seq<Entry>)
    requires b == a.(resolve := b.resolve) && SameSpends(a.resolve, b.resolve)
    ensures Steps(b, REPLAYING, v, entries) == Steps(a, REPLAYING, v, entries)
  {
    hide Step, SameSpends;
    if |entries| > 0 {
      StepsSameSpends(a, b, v, entries[..|entries| - 1]);
      var w := Steps(a, REPLAYING, v, entries[..|entries| - 1]);
      if w.Ok? { StepSameSpends(a, b, w.value, entries[|entries| - 1]); }
    }
  }

  /** Each commit's entries replay from where the one before left off. */
  lemma TailInMemory(f: Fleet, ws: seq<Write>, k: nat)
    requires f.env.refunds.None? && k <= |ws| && Sealed(f, ws)
    ensures StateOf(f, ws[..k]).Ok?
    ensures Batch(Replaying(f.env, Ledger(ws)), REPLAYING, StateOf(f, ws[..k]).value, Ledger(ws[k..])) == StateOf(f, ws)
  {
    hide Posted, Batch, Flat, SpendIndex, DistinctIds;
    var all, env := Batched(ws), f.env.(resolve := SpendIndex(Ledger(ws)));
    SealedPrefix(f, ws, k);
    BatchedSlices(ws, k);
    LedgerSplit(ws, k);
    PostedBatches(f.env, EmptyChain(f.unit), all, Ledger(ws));
    PostedBatches(f.env, EmptyChain(f.unit), all[..k], Ledger(ws));
    assert all == all[..k] + all[k..];
    BatchesAppend(env, REPLAYING, EmptyChain(f.unit), all[..k], all[k..]);
    DivisionSound(env, REPLAYING, StateOf(f, ws[..k]).value, all[k..]);
  }

  lemma SealedInMemory(f: Fleet, ws: seq<Write>)
    requires Sealed(f, ws)
    ensures Sealed(f.(env := InMemory(f.env)), ws)
    ensures StateOf(f, ws) == ServedAll(f.env, StateOf(f.(env := InMemory(f.env)), ws))
  {
    hide Posted, Flat, DistinctIds;
    PostedEither(f.env, f.unit, Batched(ws));
  }

  lemma TailReplays(f: Fleet, ws: seq<Write>, k: nat)
    requires k <= |ws| && Sealed(f, ws)
    ensures StateOf(f, ws[..k]).Ok?
    ensures Batch(Replaying(f.env, Ledger(ws)), REPLAYING, StateOf(f, ws[..k]).value, Ledger(ws[k..])) == StateOf(f, ws)
  {
    hide Batch, Replaying, Sealed, StateOf, Ledger, Counts;
    if f.env.refunds.None? {
      TailInMemory(f, ws, k);
    } else {
      var m := f.(env := InMemory(f.env));
      SealedInMemory(f, ws);
      SealedPrefix(f, ws, k);
      SealedInMemory(f, ws[..k]);
      TailInMemory(m, ws, k);
      LedgerSplit(ws, k);
      CountsOf(f, ws[..k]);
      TailOverStore(f.env, Ledger(ws[..k]), Ledger(ws[k..]), StateOf(m, ws[..k]).value);
    }
  }

  lemma CountsOf(f: Fleet, ws: seq<Write>)
    requires f.env.refunds.Some? && StateOf(f.(env := InMemory(f.env)), ws).Ok?
    ensures Counts(StateOf(f.(env := InMemory(f.env)), ws).value, Ledger(ws))
  {
    hide Posted, Flat, Counts;
    PostedOverStore(f.env, f.unit, Batched(ws));
  }

  /** Verifying what follows a state, asking the store for refunds. */
  lemma TailOverStore(env: Env, pre: seq<Entry>, tail: seq<Entry>, c: Chain)
    requires env.refunds.Some? && Counts(c, pre)
    ensures Batch(Replaying(env, pre + tail), REPLAYING, c.(spendRefunds := map[]), tail)
         == ServedAll(env, Batch(Replaying(InMemory(env), pre + tail), REPLAYING, c, tail))
  {
    hide Batch, SpendIndex, StoreRefunds, Counts, Answers;
    var full := pre + tail;
    assert full[..|pre|] == pre && full[|pre|..|pre| + |tail|] == tail;
    AnswersWithin(Replaying(env, full), full, |pre|);
    BatchEither(full, |pre|, |tail|, REPLAYING, Replaying(InMemory(env), full), c, Replaying(env, full));
  }

  /** Catching up from any commit always succeeds, and reaches the state of the whole
      committed chain. */
  lemma CatchUpAgrees(f: Fleet, ws: seq<Write>, k: nat)
    requires k <= |ws| && Sealed(f, ws)
    ensures StateOf(f, ws[..k]).Ok? && Caught(f, Ledger(ws), StateOf(f, ws[..k]).value) == StateOf(f, ws)
  {
    var pre, tail := Ledger(ws[..k]), Ledger(ws[k..]);
    var chain := Ledger(ws);
    LedgerSplit(ws, k);
    TailReplays(f, ws, k);
    SealedPrefix(f, ws, k);
    ReloadAgrees(f, ws[..k]);
    assert chain[..|pre|] == pre && chain[|pre|..] == tail;
    assert SameSpends(SpendIndex(chain), OpeningResolver(pre, tail)) by {
      forall id ensures AsSpend(SpendIndex(chain)(id))
            == AsSpend(OpeningResolver(pre, tail)(id)) { OpeningFindsSpends(pre, tail, id); }
    }
    SwitchResolver(OverChain(f.env, chain), SpendIndex(chain), OpeningResolver(pre, tail), StateOf(f, ws[..k]).value,
          tail);
    hide StateOf, Ledger, Batch, SpendIndex, OpeningResolver, Sealed, SameSpends, OverChain;
    if |pre| == |chain| {
      assert tail == [];
      EmptyBatch(Replaying(f.env, chain), StateOf(f, ws[..k]).value);
    }
  }

  lemma SwitchResolver(env: Env, a: Id -> Option<Entry>, b: Id -> Option<Entry>, c: Chain, entries: seq<Entry>)
    requires SameSpends(a, b)
    ensures Batch(env.(resolve := b), REPLAYING, c, entries) == Batch(env.(resolve := a), REPLAYING, c, entries)
  {
    hide Steps, SameSpends;
    StepsSameSpends(env.(resolve := a), env.(resolve := b), Over(c), entries);
  }

  lemma EmptyBatch(env: Env, c: Chain)
    ensures Batch(env, REPLAYING, c, []) == Ok(c)
  {
    OverMerged(env, c);
  }

  // -- the invariant -----------------------------------------------------------------------

  /** Every write passed its governor's guard on the state of exactly the writes before it. */
  ghost predicate Guarded(f: Fleet, ws: seq<Write>) {
    forall i :: 0 <= i < |ws| ==> StateOf(f, ws[..i]).Ok? && f.guard(Ledger(ws[..i]), StateOf(f, ws[..i]).value, ws[i])
  }

  predicate SameKey(a: Write, b: Write) {
    a.call.Some? && b.call.Some? && a.call.value.key == b.call.value.key
  }

  /** No two writes answer the same key, and each names one of its own entries. */
  ghost predicate KeysOnce(ws: seq<Write>) {
    && (forall i, j :: 0 <= i < j < |ws| ==> !SameKey(ws[i], ws[j]))
    && (forall i :: 0 <= i < |ws| && ws[i].call.Some? ==> ws[i].call.value.result < |ws[i].entries|)
  }

  ghost predicate Good(f: Fleet, ws: seq<Write>) {
    Sealed(f, ws) && Guarded(f, ws) && KeysOnce(ws)
  }

  /** A view of a prefix of what is committed, cut between two commits. */
  ghost predicate OfPrefix(f: Fleet, posts: seq<Write>, c: Chain) {
    exists k :: 0 <= k <= |posts| && StateOf(f, posts[..k]) == Ok(c)
  }

  ghost predicate GovOk(f: Fleet, posts: seq<Write>, g: Governor) {
    && !g.unusable
    && (if g.phase.Writing? then !g.dirty && Good(f, posts + g.pending) && StateOf(f, posts + g.pending) == Ok(g.c)
        else g.pending == [] && (g.dirty || OfPrefix(f, posts, g.c)))
  }

  ghost predicate LockOk(w: World) {
    && (forall id :: id in w.govs && !w.govs[id].phase.Idle? ==> w.lock == Some(id))
    && (forall id :: w.lock == Some(id) ==> id in w.govs && !w.govs[id].phase.Idle?)
  }

  ghost predicate Inv(f: Fleet, w: World) {
    && Good(f, w.posts) && w.keys == Recorded(w.posts) && LockOk(w)
    && (forall id :: id in w.govs ==> GovOk(f, w.posts, w.govs[id]))
  }

  // -- a post extends what is good ---------------------------------------------------------

  lemma StateGrows(f: Fleet, ws: seq<Write>, x: Write, c: Chain, d: Chain)
    requires StateOf(f, ws) == Ok(c)
    requires Batch(Replays.Writing(f.env, Ledger(ws)), WRITING, c, x.entries) == Ok(d)
    ensures StateOf(f, ws + [x]) == Ok(d)
  {
    hide Batch, Committed;
    var b := Batched(ws + [x]);
    BatchedAppend(ws, [x]);
    assert b[..|b| - 1] == Batched(ws);
  }

  lemma SealedGrows(f: Fleet, ws: seq<Write>, x: Write)
    requires Sealed(f, ws) && StateOf(f, ws + [x]).Ok? && DistinctIds(Ledger(ws) + x.entries)
    requires forall i :: 0 <= i < |x.entries| ==> f.env.digest(x.entries[i]) == x.entries[i].hash
    ensures Sealed(f, ws + [x])
  {
    hide StateOf, Flat, DistinctIds, Batched;
    LedgerAppend(ws, [x]);
    SingleLedger(x);
  }

  lemma SingleLedger(x: Write)
    ensures Ledger([x]) == x.entries
  {
    var b := Batched([x]);
    assert b[..0] == [] && Flat(b[..0]) == [];
    assert Flat(b) == [] + b[0];
  }

  lemma GuardedGrows(f: Fleet, ws: seq<Write>, x: Write, c: Chain)
    requires Guarded(f, ws) && StateOf(f, ws) == Ok(c) && f.guard(Ledger(ws), c, x)
    ensures Guarded(f, ws + [x])
  {
    hide StateOf, Ledger;
    var all := ws + [x];
    forall i | 0 <= i < |all| ensures StateOf(f, all[..i]).Ok?
          && f.guard(Ledger(all[..i]), StateOf(f, all[..i]).value, all[i]) {
      if i < |ws| { assert all[..i] == ws[..i]; } else { assert all[..i] == ws; }
    }
  }

  lemma {:induction false} RecordedKeys(ws: seq<Write>, key: string)
    ensures key in Recorded(ws) <==> exists i :: 0 <= i < |ws| && ws[i].call.Some? && ws[i].call.value.key == key
  {
    hide Ledger;
    if |ws| > 0 {
      var init := ws[..|ws| - 1];
      RecordedKeys(init, key);
      if i :| 0 <= i < |ws| && ws[i].call.Some? && ws[i].call.value.key == key {
        if i < |init| { assert init[i] == ws[i]; }
      }
    }
  }

  lemma KeysGrow(ws: seq<Write>, x: Write)
    requires KeysOnce(ws)
    requires x.call.Some? ==> x.call.value.key !in Recorded(ws) && x.call.value.result < |x.entries|
    ensures KeysOnce(ws + [x])
  {
    if x.call.Some? { RecordedKeys(ws, x.call.value.key); }
    hide Recorded;
  }

  lemma NewKey(w: World, g: Governor, key: string, request: string)
    requires Asked(w, g, key, request).New?
    ensures key !in Recorded(w.posts + g.pending)
  {
  }

  lemma GoodGrows(f: Fleet, w: World, g: Governor, x: Write)
    requires Good(f, w.posts + g.pending) && StateOf(f, w.posts + g.pending) == Ok(g.c) && CanPost(f, w, g, x)
    ensures var ws := w.posts + (g.pending + [x]);
            Good(f, ws) && Batch(Replays.Writing(f.env, Ledger(w.posts + g.pending)), WRITING, g.c, x.entries)
                  == StateOf(f, ws)
  {
    hide StateOf, Batch, Sealed, Guarded, KeysOnce, Committed, DistinctIds, Asked, Recorded, Ledger;
    var ws := w.posts + g.pending;
    assert w.posts + (g.pending + [x]) == ws + [x];
    var d := Batch(Replays.Writing(f.env, Ledger(ws)), WRITING, g.c, x.entries).value;
    StateGrows(f, ws, x, g.c, d);
    SealedGrows(f, ws, x);
    GuardedGrows(f, ws, x, g.c);
    if x.call.Some? { NewKey(w, g, x.call.value.key, x.call.value.request); }
    KeysGrow(ws, x);
  }

  lemma {:induction false} RecordedGrows(a: seq<Write>, b: seq<Write>)
    ensures Recorded(a).Keys <= Recorded(a + b).Keys
  {
    hide Ledger;
    if |b| == 0 {
      assert a + b == a;
    } else {
      var ab := a + b;
      assert ab[..|ab| - 1] == a + b[..|b| - 1];
      RecordedGrows(a, b[..|b| - 1]);
    }
  }

  // -- every step keeps it --------------------------------------------------------------------

  /** A governor that follows the store is current, and never refused. */
  lemma FollowedIsCurrent(f: Fleet, posts: seq<Write>, g: Governor)
    requires Good(f, posts) && !g.unusable && (g.dirty || OfPrefix(f, posts, g.c))
    ensures Followed(f, Ledger(posts), g) == g.(c := StateOf(f, posts).value, dirty := false)
  {
    hide StateOf, Caught, Reloaded, Ledger, Guarded, KeysOnce;
    assert StateOf(f, posts).Ok?;
    hide Sealed;
    if g.dirty {
      ReloadAgrees(f, posts);
    } else {
      var k :| 0 <= k <= |posts| && StateOf(f, posts[..k]) == Ok(g.c);
      CatchUpAgrees(f, posts, k);
    }
  }

  lemma WholePrefix(f: Fleet, posts: seq<Write>)
    requires StateOf(f, posts).Ok?
    ensures OfPrefix(f, posts, StateOf(f, posts).value)
  {
    assert posts[..|posts|] == posts;
    hide StateOf;
  }

  lemma PrefixGrows(f: Fleet, posts: seq<Write>, more: seq<Write>, c: Chain)
    requires OfPrefix(f, posts, c)
    ensures OfPrefix(f, posts + more, c)
  {
    hide StateOf;
    var k :| 0 <= k <= |posts| && StateOf(f, posts[..k]) == Ok(c);
    assert (posts + more)[..k] == posts[..k];
  }

  lemma GoodSealed(f: Fleet, ws: seq<Write>)
    requires Good(f, ws)
    ensures Sealed(f, ws)
  {
  }

  lemma GoodState(f: Fleet, ws: seq<Write>)
    requires Good(f, ws)
    ensures StateOf(f, ws).Ok?
  {
  }

  /** Those not writing do not mind the store growing. */
  lemma OthersStay(f: Fleet, posts: seq<Write>, more: seq<Write>, g: Governor)
    requires GovOk(f, posts, g) && !g.phase.Writing?
    ensures GovOk(f, posts + more, g)
  {
    hide StateOf, Good, OfPrefix;
    if !g.dirty { PrefixGrows(f, posts, more, g.c); }
  }

  /** What a session leaves in the store, and itself behind. */
  lemma KeptIsGood(f: Fleet, w: World, id: Gov, landed: bool)
    requires Inv(f, w) && In(w, id, Writing)
    ensures var k := Kept(w, w.govs[id], landed);
            && Good(f, k.posts) && k.keys == Recorded(k.posts)
            && forall x :: x in w.govs && x != id ==> GovOk(f, k.posts, w.govs[x]) && w.govs[x].phase.Idle?
  {
    hide Good, StateOf, Recorded, OfPrefix;
    var g := w.govs[id];
    assert GovOk(f, w.posts, g);
    RecordedGrows(w.posts, g.pending);
    KeysMerge(Recorded(w.posts), Recorded(w.posts + g.pending));
    forall x | x in w.govs && x != id ensures GovOk(f, Kept(w, g, landed).posts, w.govs[x]) && w.govs[x].phase.Idle? {
      OthersStay(f, w.posts, g.pending, w.govs[x]);
    }
  }

  lemma KeysMerge(a: map<string, Record>, b: map<string, Record>)
    requires a.Keys <= b.Keys
    ensures a + b == b
  {
  }

  lemma CommitKeeps(f: Fleet, w: World, id: Gov)
    requires Inv(f, w) && Can(f, w, Commit(id))
    ensures Inv(f, Do(f, w, Commit(id)))
  {
    hide Good, StateOf, Recorded, OfPrefix;
    KeptIsGood(f, w, id, true);
    var g, v := w.govs[id], Do(f, w, Commit(id));
    GoodState(f, v.posts);
    WholePrefix(f, v.posts);
    assert GovOk(f, w.posts, g);
    assert GovOk(f, v.posts, v.govs[id]);
  }

  lemma LostKeeps(f: Fleet, w: World, id: Gov, landed: bool)
    requires Inv(f, w) && Can(f, w, Lost(id, landed))
    ensures Inv(f, Do(f, w, Lost(id, landed)))
  {
    hide Good, StateOf, Recorded, OfPrefix;
    KeptIsGood(f, w, id, landed);
    var g, v := w.govs[id], Do(f, w, Lost(id, landed));
    assert GovOk(f, w.posts, g);
    assert GovOk(f, v.posts, v.govs[id]);
  }

  lemma CrashKeeps(f: Fleet, w: World, id: Gov, landed: bool)
    requires Inv(f, w) && Can(f, w, Crash(id, landed))
    ensures Inv(f, Do(f, w, Crash(id, landed)))
  {
    hide Good, StateOf, Recorded, OfPrefix;
    if landed { KeptIsGood(f, w, id, landed); }
  }

  lemma AbortKeeps(f: Fleet, w: World, id: Gov)
    requires Inv(f, w) && Can(f, w, Abort(id))
    ensures Inv(f, Do(f, w, Abort(id)))
  {
    hide Good, StateOf, Recorded;
    var g, v := w.govs[id], Do(f, w, Abort(id));
    assert GovOk(f, w.posts, g);
    if g.phase.Writing? && g.pending == [] {
      assert w.posts + [] == w.posts;
      GoodState(f, w.posts);
      WholePrefix(f, w.posts);
    }
    hide OfPrefix;
    assert GovOk(f, v.posts, v.govs[id]);
  }

  lemma RefreshKeeps(f: Fleet, w: World, id: Gov)
    requires Inv(f, w) && Can(f, w, Refresh(id))
    ensures Inv(f, Do(f, w, Refresh(id)))
  {
    hide Good, StateOf, Recorded, OfPrefix, Followed;
    assert GovOk(f, w.posts, w.govs[id]);
    FollowedIsCurrent(f, w.posts, w.govs[id]);
    GoodState(f, w.posts);
    WholePrefix(f, w.posts);
  }

  lemma FollowKeeps(f: Fleet, w: World, id: Gov)
    requires Inv(f, w) && Can(f, w, Follow(id))
    ensures Inv(f, Do(f, w, Follow(id)))
  {
    hide Good, StateOf, Recorded, OfPrefix, Followed;
    var g := w.govs[id];
    assert GovOk(f, w.posts, g);
    FollowedIsCurrent(f, w.posts, g);
    GoodState(f, w.posts);
    assert w.posts + [] == w.posts;
    assert GovOk(f, w.posts, Entered(f, w, g));
  }

  lemma PostKeeps(f: Fleet, w: World, id: Gov, x: Write)
    requires Inv(f, w) && Can(f, w, Post(id, x))
    ensures Inv(f, Do(f, w, Post(id, x)))
  {
    hide Good, StateOf, Recorded, OfPrefix, Batch, Committed;
    var g := w.govs[id];
    assert GovOk(f, w.posts, g);
    GoodGrows(f, w, g, x);
    hide CanPost;
    GoodState(f, w.posts + (g.pending + [x]));
    assert GovOk(f, w.posts, Written(f, w, g, x));
  }

  lemma OpenKeeps(f: Fleet, w: World, id: Gov)
    requires Inv(f, w) && Can(f, w, Open(id))
    ensures Inv(f, Do(f, w, Open(id)))
  {
    hide Good, StateOf, Recorded, OfPrefix, Reloaded, Sealed, Ledger;
    GoodSealed(f, w.posts);
    ReloadAgrees(f, w.posts);
    GoodState(f, w.posts);
    WholePrefix(f, w.posts);
  }

  lemma TakeKeeps(f: Fleet, w: World, id: Gov)
    requires Inv(f, w) && Can(f, w, Take(id))
    ensures Inv(f, Do(f, w, Take(id)))
  {
    hide Good, StateOf, Recorded, OfPrefix;
    assert GovOk(f, w.posts, w.govs[id]);
  }

  lemma StepKeeps(f: Fleet, w: World, a: Action)
    requires Inv(f, w) && Can(f, w, a)
    ensures Inv(f, Do(f, w, a))
  {
    hide Inv, Do;
    match a
    case Open(g) => OpenKeeps(f, w, g);
    case Crash(g, landed) => CrashKeeps(f, w, g, landed);
    case Refresh(g) => RefreshKeeps(f, w, g);
    case Take(g) => TakeKeeps(f, w, g);
    case Follow(g) => FollowKeeps(f, w, g);
    case Post(g, x) => PostKeeps(f, w, g, x);
    case Commit(g) => CommitKeeps(f, w, g);
    case Abort(g) => AbortKeeps(f, w, g);
    case Lost(g, landed) => LostKeeps(f, w, g, landed);
  }

  lemma {:induction false} EveryRunKeeps(f: Fleet, worlds: seq<World>, actions: seq<Action>, n: nat)
    requires Run(f, worlds, actions) && n <= |actions|
    ensures Inv(f, worlds[n])
  {
    hide Inv, Can, Do;
    if n == 0 {
      StartKeeps(f);
    } else {
      EveryRunKeeps(f, worlds, actions, n - 1);
      assert Can(f, worlds[n - 1], actions[n - 1]) && worlds[n - 1 + 1] == Do(f, worlds[n - 1], actions[n - 1]);
      StepKeeps(f, worlds[n - 1], actions[n - 1]);
    }
  }

  lemma StartKeeps(f: Fleet)
    ensures Inv(f, World([], map[], None, map[]))
  {
  }

  // -- what the fleet is promised ----------------------------------------------------------

  /** At every moment of every run: a governor not marked dirty, and not writing, holds
      the replay of a prefix of the committed chain; the writer, once it has followed,
      holds the replay of the whole committed chain with its own uncommitted entries
      after it; and nobody ever stops following. */
  lemma ViewsAreReplays(f: Fleet, worlds: seq<World>, actions: seq<Action>, n: nat, id: Gov)
    requires Run(f, worlds, actions) && n <= |actions| && id in worlds[n].govs
    ensures !worlds[n].govs[id].unusable
    ensures !worlds[n].govs[id].dirty && !worlds[n].govs[id].phase.Writing? ==> ReplayOfPrefix(f, worlds[n], id)
    ensures worlds[n].govs[id].phase.Writing? ==> worlds[n].lock == Some(id) && ReplayOfAll(f, worlds[n], id)
  {
    hide Inv, Can, Do, ReplayOfPrefix, ReplayOfAll;
    EveryRunKeeps(f, worlds, actions, n);
    ViewAt(f, worlds[n], id);
  }

  /** A governor's view is the replay of a prefix of the committed chain. */
  ghost predicate ReplayOfPrefix(f: Fleet, w: World, id: Gov)
    requires id in w.govs
  {
    exists k :: && 0 <= k <= |w.posts| && Ledger(w.posts[..k]) <= Ledger(w.posts)
                && Reloaded(f, Ledger(w.posts[..k])) == Ok(w.govs[id].c)
  }

  /** It is the replay of all of it, and of its own uncommitted entries after it. */
  ghost predicate ReplayOfAll(f: Fleet, w: World, id: Gov)
    requires id in w.govs
  {
    Reloaded(f, Ledger(w.posts + w.govs[id].pending)) == Ok(w.govs[id].c)
  }

  lemma ViewAt(f: Fleet, w: World, id: Gov)
    requires Inv(f, w) && id in w.govs
    ensures !w.govs[id].unusable
    ensures !w.govs[id].dirty && !w.govs[id].phase.Writing? ==> ReplayOfPrefix(f, w, id)
    ensures w.govs[id].phase.Writing? ==> w.lock == Some(id) && ReplayOfAll(f, w, id)
  {
    hide Reloaded, Recorded, StateOf, Ledger, Good, Sealed;
    var g := w.govs[id];
    assert GovOk(f, w.posts, g);
    GoodSealed(f, w.posts);
    if g.phase.Writing? {
      GoodSealed(f, w.posts + g.pending);
      ReloadAgrees(f, w.posts + g.pending);
    } else if !g.dirty {
      var k :| 0 <= k <= |w.posts| && StateOf(f, w.posts[..k]) == Ok(g.c);
      SealedPrefix(f, w.posts, k);
      ReloadAgrees(f, w.posts[..k]);
      LedgerSplit(w.posts, k);
    }
  }

  /** Only one governor is ever inside the writer lock. */
  lemma OneWriter(f: Fleet, worlds: seq<World>, actions: seq<Action>, n: nat, a: Gov, b: Gov)
    requires Run(f, worlds, actions) && n <= |actions| && a in worlds[n].govs && b in worlds[n].govs
    requires !worlds[n].govs[a].phase.Idle? && !worlds[n].govs[b].phase.Idle?
    ensures a == b
  {
    EveryRunKeeps(f, worlds, actions, n);
    hide Run, Good, GovOk, Recorded;
  }

  /** Serializable: whatever a governor checked in its own memory held of the state a
      replay of everything committed before its write gives. */
  lemma GuardsHoldOfTheChain(f: Fleet, worlds: seq<World>, actions: seq<Action>, n: nat, i: nat)
    requires Run(f, worlds, actions) && n <= |actions| && i < |worlds[n].posts|
    ensures Reloaded(f, Ledger(worlds[n].posts)).Ok?
    ensures Reloaded(f, Ledger(worlds[n].posts[..i])).Ok?
    ensures f.guard(Ledger(worlds[n].posts[..i]), Reloaded(f, Ledger(worlds[n].posts[..i])).value, worlds[n].posts[i])
  {
    EveryRunKeeps(f, worlds, actions, n);
    var ws := worlds[n].posts;
    assert Sealed(f, ws) && Guarded(f, ws);
    hide Run, Reloaded, Recorded, StateOf, Ledger, KeysOnce, Sealed, GovOk, LockOk;
    SealedPrefix(f, ws, i);
    ReloadAgrees(f, ws[..i]);
    ReloadAgrees(f, ws);
  }

  /** The guard of an authorization: the scope has what the hold takes. */
  predicate Covered(c: Chain, w: Write) {
    |w.entries| == 1 && w.entries[0].kind.Hold? ==> w.entries[0].amount <= Get(c.purse.balances, w.entries[0].scope)
  }

  /** No two governors hold the same funds: a hold any of them committed was covered by
      what every commit before it, by whichever governor, had left. */
  lemma HoldsAreCovered(f: Fleet, worlds: seq<World>, actions: seq<Action>, n: nat, i: nat)
    requires Run(f, worlds, actions) && n <= |actions| && i < |worlds[n].posts|
    requires forall es, c, w :: f.guard(es, c, w) ==> Covered(c, w)
    requires |worlds[n].posts[i].entries| == 1 && worlds[n].posts[i].entries[0].kind.Hold?
    ensures var ws, e := worlds[n].posts, worlds[n].posts[i].entries[0];
            && Reloaded(f, Ledger(ws[..i])).Ok?
            && e.amount <= Get(Reloaded(f, Ledger(ws[..i])).value.purse.balances, e.scope)
  {
    var ws := worlds[n].posts;
    hide Run, Reloaded, Ledger;
    GuardsHoldOfTheChain(f, worlds, actions, n, i);
    assert Covered(Reloaded(f, Ledger(ws[..i])).value, ws[i]);
  }

  // -- keys ---------------------------------------------------------------------------------

  /** The record of a key names the result entry of the write made under it. */
  ghost predicate Names(ws: seq<Write>, i: nat)
    requires i < |ws| && ws[i].call.Some?
  {
    var call, at := ws[i].call.value, ResultAt(ws, i);
    && call.key in Recorded(ws) && Recorded(ws)[call.key] == Record(call.request, at + 1)
    && call.result < |ws[i].entries| && at < |Ledger(ws)| && Ledger(ws)[at] == ws[i].entries[call.result]
  }

  /** Where in the ledger the result of a call is. */
  function ResultAt(ws: seq<Write>, i: nat): nat
    requires i < |ws| && ws[i].call.Some?
  {
    |Ledger(ws[..i])| + ws[i].call.value.result
  }

  lemma {:induction false} RecordNames(ws: seq<Write>, i: nat)
    requires KeysOnce(ws) && i < |ws| && ws[i].call.Some?
    ensures Names(ws, i)
  {
    hide Ledger;
    var init, last := ws[..|ws| - 1], ws[|ws| - 1];
    assert ws == init + [last];
    LedgerAppend(init, [last]);
    SingleLedger(last);
    if i < |init| {
      RecordNames(init, i);
      assert init[..i] == ws[..i];
      assert !SameKey(ws[i], last);
    }
  }

  lemma AskedAgain(w: World, g: Governor, i: nat, request: string)
    requires KeysOnce(w.posts + g.pending) && i < |w.posts| && w.posts[i].call.Some?
    ensures var call := w.posts[i].call.value;
            Asked(w, g, call.key, request) == if request == call.request then Replayed(ResultAt(w.posts, i) + 1)
                  else Conflict
  {
    hide Ledger, KeysOnce;
    var all := w.posts + g.pending;
    assert all[i] == w.posts[i] && all[..i] == w.posts[..i];
    RecordNames(all, i);
  }

  /** What the invariant says of a store's keys, and of a writer's. */
  lemma KeysOf(f: Fleet, w: World)
    requires Inv(f, w)
    ensures KeysOnce(w.posts) && forall id :: In(w, id, Writing) ==> KeysOnce(w.posts + w.govs[id].pending)
  {
    hide Sealed, Guarded, KeysOnce, Recorded, OfPrefix, StateOf;
    forall id | In(w, id,
          Writing) ensures KeysOnce(w.posts + w.govs[id].pending) { assert GovOk(f, w.posts, w.govs[id]); }
  }

  lemma OnlyOne(ws: seq<Write>, i: nat)
    requires KeysOnce(ws) && i < |ws|
    ensures forall j :: 0 <= j < |ws| && SameKey(ws[i], ws[j]) ==> j == i
  {
    forall j | 0 <= j < |ws| && SameKey(ws[i], ws[j]) ensures j == i {
      assert SameKey(ws[j], ws[i]);
    }
  }

  /** On every run, with retries, crashes, lost commits and several governors: at most
      one committed write answers a given key, its record names its own result entry,
      and a session asking for the key with the same request is given that entry, with
      another request is refused. */
  lemma OneResultPerKey(f: Fleet, worlds: seq<World>, actions: seq<Action>, n: nat, i: nat)
    requires Run(f, worlds, actions) && n <= |actions|
    requires i < |worlds[n].posts| && worlds[n].posts[i].call.Some?
    ensures Names(worlds[n].posts, i)
    ensures forall j :: 0 <= j < |worlds[n].posts| && SameKey(worlds[n].posts[i], worlds[n].posts[j]) ==> j == i
    ensures var w, call := worlds[n], worlds[n].posts[i].call.value;
            forall id, request :: In(w, id, Writing) ==>
              Asked(w, w.govs[id], call.key, request) == if request == call.request
                    then Replayed(ResultAt(w.posts, i) + 1) else Conflict
  {
    hide Inv, Asked, ResultAt, Names, SameKey, Can, Do;
    EveryRunKeeps(f, worlds, actions, n);
    KeysAt(f, worlds[n], i);
  }

  lemma KeysAt(f: Fleet, w: World, i: nat)
    requires Inv(f, w) && i < |w.posts| && w.posts[i].call.Some?
    ensures Names(w.posts, i)
    ensures forall j :: 0 <= j < |w.posts| && SameKey(w.posts[i], w.posts[j]) ==> j == i
    ensures var call := w.posts[i].call.value;
            forall id, request :: In(w, id, Writing) ==>
              Asked(w, w.govs[id], call.key, request) == if request == call.request
                    then Replayed(ResultAt(w.posts, i) + 1) else Conflict
  {
    hide Inv, Asked, ResultAt, Names, KeysOnce, SameKey;
    KeysOf(f, w);
    RecordNames(w.posts, i);
    OnlyOne(w.posts, i);
    var call := w.posts[i].call.value;
    forall id, request | In(w, id, Writing)
      ensures Asked(w, w.govs[id], call.key, request) == if request == call.request
                then Replayed(ResultAt(w.posts, i) + 1) else Conflict
    {
      AskedAgain(w, w.govs[id], i, request);
    }
  }

  /** So a retry appends nothing: no session can post under a key already answered. */
  lemma RetryAppendsNothing(f: Fleet, worlds: seq<World>, actions: seq<Action>, n: nat, i: nat, id: Gov, x: Write)
    requires Run(f, worlds, actions) && n <= |actions|
    requires i < |worlds[n].posts| && SameKey(worlds[n].posts[i], x)
    ensures !Can(f, worlds[n], Post(id, x))
  {
    var w := worlds[n];
    OneResultPerKey(f, worlds, actions, n, i);
    hide Run, Ledger, Asked, ResultAt, Names, Batch;
    if Can(f, w, Post(id, x)) {
      AskedOnce(f, w, id, x);
      assert false;
    }
  }

  lemma AskedOnce(f: Fleet, w: World, id: Gov, x: Write)
    requires Can(f, w, Post(id, x)) && x.call.Some?
    ensures In(w, id, Writing) && Asked(w, w.govs[id], x.call.value.key, x.call.value.request).New?
  {
    hide Batch, Ledger, Asked;
  }
}
