/**
 What a fleet's steps leave, told from the steps alone: what each session posted, which
 sessions reached the store, and where that leaves the governor that took the step.
 */
module FleetLog {
  import opened Vocabulary
  import opened Engine
  import opened Replays
  import opened Fleet

  /** What is stored, and what each session has posted and not yet ended with. */
  datatype Log = Log(posts: seq<Write>, sessions: map<Gov, seq<Write>>)

  function Session(l: Log, g: Gov): seq<Write> {
    if g in l.sessions then l.sessions[g] else []
  }

  /** A session over: stored whole and in order, or dropped. */
  function Over(l: Log, g: Gov, stored: bool): Log {
    Log(if stored then l.posts + Session(l, g) else l.posts, l.sessions - {g})
  }

  function Noted(l: Log, a: Action): Log {
    match a
    case Post(g, x) => l.(sessions := l.sessions[g := Session(l, g) + [x]])
    case Commit(g) => Over(l, g, true)
    case Lost(g, landed) => Over(l, g, landed)
    case Crash(g, landed) => Over(l, g, landed)
    case Abort(g) => Over(l, g, false)
    case _ => l
  }

  /** The log of some actions, whatever the states between them. */
  function LogOf(actions: seq<Action>): Log {
    if |actions| == 0 then Log([], map[]) else Noted(LogOf(actions[..|actions| - 1]), actions[|actions| - 1])
  }

  ghost predicate Logged(w: World, l: Log) {
    && w.posts == l.posts
    && (forall g :: g in w.govs ==> w.govs[g].pending == Session(l, g))
    && (forall g :: g !in w.govs ==> Session(l, g) == [])
  }

  lemma OpensReady(f: Fleet, w: World)
    requires Inv(f, w)
    ensures Reloaded(f, Ledger(w.posts)).Ok? && StateOf(f, w.posts) == Reloaded(f, Ledger(w.posts))
  {
    hide Reloaded, StateOf, Ledger, Sealed, Guarded, KeysOnce, GovOk, Recorded;
    GoodSealed(f, w.posts);
    ReloadAgrees(f, w.posts);
    GoodState(f, w.posts);
  }

  lemma NoSession(f: Fleet, w: World, g: Gov)
    requires Inv(f, w) && g in w.govs && !w.govs[g].phase.Writing?
    ensures w.govs[g].pending == []
  {
    hide Good, Recorded, OfPrefix;
    assert GovOk(f, w.posts, w.govs[g]);
  }

  lemma FollowedKeeps(f: Fleet, chain: seq<Entry>, g: Governor)
    ensures Followed(f, chain, g).pending == g.pending && Followed(f, chain, g).phase == g.phase
  {
    hide Reloaded, Caught;
  }

  lemma LoggedOthers(f: Fleet, w: World, l: Log, a: Action)
    requires Inv(f, w) && Can(f, w, a) && Logged(w, l)
    requires a.Open? || a.Refresh? || a.Take? || a.Follow? || a.Post?
    ensures Logged(Do(f, w, a), Noted(l, a))
  {
    hide Inv, Reloaded, Ledger, Batch, Followed;
    match a
    case Open(g) => OpensReady(f, w);
    case Refresh(g) => FollowedKeeps(f, Ledger(w.posts), w.govs[g]);
    case Take(g) =>
    case Follow(g) => FollowedKeeps(f, Ledger(w.posts), w.govs[g]);
    case Post(g, x) =>
  }

  lemma LoggedEnds(f: Fleet, w: World, l: Log, a: Action)
    requires Inv(f, w) && Can(f, w, a) && Logged(w, l)
    requires a.Commit? || a.Lost? || a.Crash? || a.Abort?
    ensures Logged(Do(f, w, a), Noted(l, a))
  {
    hide Inv, Recorded;
  }

  lemma LoggedStep(f: Fleet, w: World, l: Log, a: Action)
    requires Inv(f, w) && Can(f, w, a) && Logged(w, l)
    ensures Logged(Do(f, w, a), Noted(l, a))
  {
    hide Inv, Can, Do, Logged, Noted;
    if a.Commit? || a.Lost? || a.Crash? || a.Abort? { LoggedEnds(f, w, l, a); } else { LoggedOthers(f, w, l, a); }
  }

  lemma KeysAre(f: Fleet, w: World)
    requires Inv(f, w)
    ensures w.keys == Recorded(w.posts)
  {
  }

  /** On every run the store holds exactly what the sessions that reached it posted, each
      whole, in the order they reached it, with the key records of those writes; and each
      running governor has pending what its session posted since. */
  lemma {:induction false} StoredExactly(f: Fleet, worlds: seq<World>, actions: seq<Action>, n: nat)
    requires Run(f, worlds, actions) && n <= |actions|
    ensures worlds[n].posts == LogOf(actions[..n]).posts && worlds[n].keys == Recorded(LogOf(actions[..n]).posts)
    ensures Logged(worlds[n], LogOf(actions[..n]))
  {
    hide Inv, Can, Do, Noted, Recorded;
    EveryRunKeeps(f, worlds, actions, n);
    KeysAre(f, worlds[n]);
    if n > 0 {
      var m := n - 1;
      StoredExactly(f, worlds, actions, m);
      EveryRunKeeps(f, worlds, actions, m);
      assert Can(f, worlds[m], actions[m]) && worlds[m + 1] == Do(f, worlds[m], actions[m]);
      hide Logged;
      LoggedStep(f, worlds[m], LogOf(actions[..m]), actions[m]);
      assert actions[..n][..m] == actions[..m];
    } else {
      assert actions[..0] == [];
    }
    assert worlds[n].posts == LogOf(actions[..n]).posts by { PostsLogged(worlds[n], LogOf(actions[..n])); }
  }

  lemma PostsLogged(w: World, l: Log)
    requires Logged(w, l)
    ensures w.posts == l.posts
  {
  }

  // -- where a step leaves the governor that took it ----------------------------------------------

  /** A governor that knows all that is stored. */
  ghost predicate Current(f: Fleet, w: World, g: Gov) {
    g in w.govs && !w.govs[g].dirty && !w.govs[g].unusable && Reloaded(f, Ledger(w.posts)) == Ok(w.govs[g].c)
  }

  /** What a step promises the governor taking it. */
  ghost predicate Served(f: Fleet, w: World, a: Action, v: World) {
    match a
    case Open(g) => Current(f, v, g) && v.govs[g].phase.Idle? && v.lock == w.lock
    case Refresh(g) => Current(f, v, g) && v.govs[g].phase.Idle? && v.lock == w.lock
    case Take(g) => In(v, g, Locked) && v.lock == Some(g)
    case Follow(g) => Current(f, v, g) && v.govs[g].phase.Writing? && v.lock == Some(g) && v.govs[g].pending == []
    case Post(g, x) =>
      In(v, g, Writing) && v.lock == Some(g) && Reloaded(f, Ledger(v.posts + v.govs[g].pending)) == Ok(v.govs[g].c)
    case Commit(g) => Current(f, v, g) && v.govs[g].phase.Idle? && v.lock == None
    case Lost(g, _) => In(v, g, Idle) && v.govs[g].dirty && v.lock == None
    case Abort(g) => In(v, g, Idle) && v.lock == None && (g in w.govs && w.govs[g].pending != [] ==> v.govs[g].dirty)
    case Crash(g, _) => g !in v.govs && v.lock == if w.lock == Some(g) then None else w.lock
  }

  function Actor(a: Action): Gov {
    match a
    case Open(g) => g case Refresh(g) => g case Take(g) => g case Follow(g) => g case Post(g, _) => g
    case Commit(g) => g case Lost(g, _) => g case Abort(g) => g case Crash(g, _) => g
  }

  lemma ServedOpen(f: Fleet, w: World, g: Gov)
    requires Inv(f, w) && Can(f, w, Open(g))
    ensures Served(f, w, Open(g), Do(f, w, Open(g)))
  {
    hide Inv, Reloaded, Ledger, StateOf;
    OpensReady(f, w);
  }

  /** A governor that follows knows all that is stored. */
  lemma Follows(f: Fleet, w: World, g: Gov)
    requires Inv(f, w) && g in w.govs && !w.govs[g].phase.Writing?
    ensures var next := Followed(f, Ledger(w.posts), w.govs[g]);
            !next.dirty && !next.unusable && Reloaded(f, Ledger(w.posts)) == Ok(next.c)
  {
    hide Followed, Reloaded, Ledger, StateOf, Good, OfPrefix, Recorded;
    assert GovOk(f, w.posts, w.govs[g]);
    OpensReady(f, w);
    FollowedIsCurrent(f, w.posts, w.govs[g]);
  }

  lemma ServedFollow(f: Fleet, w: World, a: Action)
    requires Inv(f, w) && Can(f, w, a) && (a.Refresh? || a.Follow?)
    ensures Served(f, w, a, Do(f, w, a))
  {
    hide Followed, Reloaded, Ledger, Good, GovOk, Recorded;
    Follows(f, w, a.g);
    NoSession(f, w, a.g);
    FollowedKeeps(f, Ledger(w.posts), w.govs[a.g]);
  }

  lemma ServedPost(f: Fleet, w: World, g: Gov, x: Write)
    requires Inv(f, w) && Can(f, w, Post(g, x))
    ensures Served(f, w, Post(g, x), Do(f, w, Post(g, x)))
  {
    hide Reloaded, Ledger, StateOf, Batch, Good, Recorded;
    PostKeeps(f, w, g, x);
    var v := Do(f, w, Post(g, x));
    assert GovOk(f, v.posts, v.govs[g]);
    WriterCurrent(f, v, g);
  }

  lemma WriterCurrent(f: Fleet, w: World, g: Gov)
    requires Inv(f, w) && In(w, g, Writing)
    ensures Reloaded(f, Ledger(w.posts + w.govs[g].pending)) == Ok(w.govs[g].c) && w.lock == Some(g)
  {
    hide Reloaded, Ledger, StateOf, Sealed, Guarded, KeysOnce, Recorded;
    assert GovOk(f, w.posts, w.govs[g]);
    GoodSealed(f, w.posts + w.govs[g].pending);
    ReloadAgrees(f, w.posts + w.govs[g].pending);
  }

  lemma ServedCommit(f: Fleet, w: World, g: Gov)
    requires Inv(f, w) && Can(f, w, Commit(g))
    ensures Served(f, w, Commit(g), Do(f, w, Commit(g)))
  {
    hide Reloaded, Ledger, StateOf, Good, Recorded;
    assert GovOk(f, w.posts, w.govs[g]);
    WriterCurrent(f, w, g);
  }

  lemma ServedElse(f: Fleet, w: World, a: Action)
    requires Inv(f, w) && Can(f, w, a) && (a.Take? || a.Lost? || a.Abort? || a.Crash?)
    ensures Served(f, w, a, Do(f, w, a))
  {
    hide Good, GovOk, Recorded;
  }

  lemma ServedStep(f: Fleet, w: World, a: Action)
    requires Inv(f, w) && Can(f, w, a)
    ensures Served(f, w, a, Do(f, w, a))
    ensures forall g :: g != Actor(a) ==> (g in w.govs <==> g in Do(f, w, a).govs)
    ensures forall g :: g != Actor(a) && g in w.govs ==> Do(f, w, a).govs[g] == w.govs[g]
  {
    OthersKept(f, w, a);
    hide Inv, Can, Do, Served;
    match a
    case Open(g) => ServedOpen(f, w, g);
    case Refresh(g) => ServedFollow(f, w, a);
    case Follow(g) => ServedFollow(f, w, a);
    case Post(g, x) => ServedPost(f, w, g, x);
    case Commit(g) => ServedCommit(f, w, g);
    case _ => ServedElse(f, w, a);
  }

  lemma OthersKept(f: Fleet, w: World, a: Action)
    requires Can(f, w, a)
    ensures forall g :: g != Actor(a) ==> (g in w.govs <==> g in Do(f, w, a).govs)
    ensures forall g :: g != Actor(a) && g in w.govs ==> Do(f, w, a).govs[g] == w.govs[g]
  {
    hide Recorded, Ledger, Reloaded, Followed, CanPost, Batch;
  }

  /** At every step of every run the governor taking it is served: opening, following and
      committing leave it with the replay of all that is stored; a session that was lost or
      broken off after posting leaves it marked to read everything again; and no other
      governor's view is touched. */
  lemma EveryStepServes(f: Fleet, worlds: seq<World>, actions: seq<Action>, n: nat)
    requires Run(f, worlds, actions) && n < |actions|
    ensures Served(f, worlds[n], actions[n], worlds[n + 1])
    ensures forall g :: g != Actor(actions[n]) ==> (g in worlds[n].govs <==> g in worlds[n + 1].govs)
    ensures forall g :: g != Actor(actions[n]) && g in worlds[n].govs ==> worlds[n + 1].govs[g] == worlds[n].govs[g]
  {
    hide Inv, Can, Do, Served;
    EveryRunKeeps(f, worlds, actions, n);
    assert Can(f, worlds[n], actions[n]) && worlds[n + 1] == Do(f, worlds[n], actions[n]);
    ServedStep(f, worlds[n], actions[n]);
  }

  // -- nobody is stuck ---------------------------------------------------------------------------

  /** At every moment of every run each governor can go on: an idle one can follow what is
      stored, and take the lock if it is free; one that took it can follow, and then commit
      or break off.  The lock is held by a running governor, or by nobody. */
  lemma NobodyIsStuck(f: Fleet, worlds: seq<World>, actions: seq<Action>, n: nat, g: Gov)
    requires Run(f, worlds, actions) && n <= |actions| && g in worlds[n].govs
    ensures var w := worlds[n];
            && (w.lock.Some? ==> w.lock.value in w.govs && !w.govs[w.lock.value].phase.Idle?)
            && match w.govs[g].phase
               case Idle => Can(f, w, Refresh(g)) && (w.lock == None ==> Can(f, w, Take(g)))
               case Locked => Can(f, w, Follow(g))
               case Writing => Can(f, w, Commit(g)) && Can(f, w, Abort(g))
  {
    hide Reloaded, Good, Recorded, OfPrefix, StateOf;
    EveryRunKeeps(f, worlds, actions, n);
    assert GovOk(f, worlds[n].posts, worlds[n].govs[g]);
  }

  predicate Answers(w: Write, key: string) { w.call.Some? && w.call.value.key == key }

  /** A call under a key is new to a session exactly when neither the store nor the session
      itself holds a write that answers the key. */
  lemma NewExactly(f: Fleet, worlds: seq<World>, actions: seq<Action>, n: nat, g: Gov, key: string, request: string)
    requires Run(f, worlds, actions) && n <= |actions| && g in worlds[n].govs
    ensures var w, all := worlds[n], worlds[n].posts + worlds[n].govs[g].pending;
            Asked(w, w.govs[g], key, request).New? <==> forall i :: 0 <= i < |all| ==> !Answers(all[i], key)
  {
    hide Inv, Recorded;
    EveryRunKeeps(f, worlds, actions, n);
    var w := worlds[n];
    KeysAre(f, w);
    RecordedKeys(w.posts, key);
    RecordedKeys(w.posts + w.govs[g].pending, key);
    RecordedGrows(w.posts, w.govs[g].pending);
  }
}
