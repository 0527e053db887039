/**
 Giving each stored authorization row an open hold.  Most rows keep the hold they name.
 Where a release without a name has been at work, only the number of open holds of a
 scope and amount is certain, and rows of that key are dealt out over them.
 */
module Reconciles {
  import opened Vocabulary
  import opened Dicts
  import opened Replays

  datatype Row = Row(auth: Id, entry: Id, scope: Scope, amount: int, openedAt: int)

  datatype Auth = Auth(id: Id, scope: Scope, amount: int, openedAt: int, entry: Entry)

  datatype Problem = TwoRows | MissingHold | Differs | AlreadyReleased | Unnamed | WrongCount

  function AuthFor(hold: Entry): Auth { Auth(hold.id, hold.scope, hold.amount, hold.time, hold) }

  /** The chain as it is matched against: its open holds in order, the keys a
      first-version release touched, every HOLD by id, and the holds a release named. */
  datatype Holding = Holding(open: Dict<Id, Entry>, ambiguous: set<HoldKey>, hold: Id -> Option<Entry>,
                             released: Id -> bool) {
    ghost predicate Valid() {
      && open.Valid() && (forall id :: id in open.at ==> open.at[id].id == id)
      && (forall id :: hold(id).Some? ==> hold(id).value.id == id)
    }
  }

  function Ids(list: seq<Entry>): set<Id> { set i | 0 <= i < |list| :: list[i].id }

  ghost predicate DistinctHolds(list: seq<Auth>) { forall i,
                                j :: 0 <= i < j < |list| ==> list[i].entry.id != list[j].entry.id }

  ghost predicate DistinctAuths(list: seq<Auth>) { forall i, j :: 0 <= i < j < |list| ==> list[i].id != list[j].id }

  lemma {:induction false} IdsCount(list: seq<Entry>)
    requires DistinctIds(list)
    ensures |Ids(list)| == |list|
  {
    if |list| > 0 {
      var init, last := list[..|list| - 1], list[|list| - 1];
      IdsCount(init);
      assert Ids(list) == Ids(init) + {last.id};
    }
  }

  function Without(list: seq<Entry>, gone: set<Id>): (r: seq<Entry>)
    ensures forall e :: e in r <==> e in list && e.id !in gone
  {
    if |list| == 0 then []
    else
      var last := list[|list| - 1];
      Without(list[..|list| - 1], gone) + if last.id in gone then [] else [last]
  }

  lemma IdsAppend(list: seq<Entry>, e: Entry)
    ensures Ids(list + [e]) == Ids(list) + {e.id}
    ensures DistinctIds(list) && e.id !in Ids(list) ==> DistinctIds(list + [e])
    ensures DistinctIds(list + [e]) ==> DistinctIds(list) && e.id !in Ids(list)
  {
    var all := list + [e];
    assert all[|list|] == e;
    assert forall i :: 0 <= i < |list| ==> all[i] == list[i];
  }

  lemma {:induction false} WithoutDistinct(list: seq<Entry>, gone: set<Id>)
    requires DistinctIds(list)
    ensures DistinctIds(Without(list, gone)) && Ids(Without(list, gone)) == Ids(list) - gone
  {
    hide Ids, DistinctIds;
    if |list| > 0 {
      var init, last := list[..|list| - 1], list[|list| - 1];
      assert list == init + [last];
      IdsAppend(init, last);
      WithoutDistinct(init, gone);
      var w := Without(init, gone);
      assert w + [] == w;
      IdsAppend(w, last);
    } else {
      NoIds(gone);
    }
  }

  lemma NoIds(gone: set<Id>)
    ensures Ids([]) == {} && DistinctIds([])
  {
  }

  /** The holds some authorizations name. */
  function Claimed(list: seq<Auth>): set<Id> { set i | 0 <= i < |list| :: list[i].entry.id }

  /** How many of them name a hold that is not open. */
  function Strays(list: seq<Auth>, open: set<Id>): nat {
    if |list| == 0 then 0
    else Strays(list[..|list| - 1], open) + if list[|list| - 1].entry.id in open then 0 else 1
  }

  lemma {:induction false} StraysCount(list: seq<Auth>, open: set<Id>)
    requires DistinctHolds(list)
    ensures |Claimed(list) * open| + Strays(list, open) == |list|
  {
    if |list| > 0 {
      var init, last := list[..|list| - 1], list[|list| - 1];
      StraysCount(init, open);
      assert Claimed(list) == Claimed(init) + {last.entry.id};
      assert last.entry.id !in Claimed(init);
      if last.entry.id in open {
        assert Claimed(list) * open == Claimed(init) * open + {last.entry.id};
      } else {
        assert Claimed(list) * open == Claimed(init) * open;
      }
    }
  }

  /** There are always enough free holds for the authorizations that name none open. */
  lemma FreeSuffices(kept: seq<Auth>, holds: seq<Entry>)
    requires DistinctHolds(kept) && DistinctIds(holds) && |kept| <= |holds|
    ensures |Without(holds, Claimed(kept))| == |holds| - |kept| + Strays(kept, Ids(holds))
  {
    var free, claimed, all := Without(holds, Claimed(kept)), Claimed(kept), Ids(holds);
    WithoutDistinct(holds, claimed);
    IdsCount(free);
    IdsCount(holds);
    StraysCount(kept, all);
    assert all == (all - claimed) + (claimed * all);
  }

  lemma {:induction false} StraysGrow(list: seq<Auth>, open: set<Id>, n: nat)
    requires n < |list|
    ensures Strays(list[..n + 1], open) == Strays(list[..n], open) + (if list[n].entry.id in open then 0 else 1)
    ensures Strays(list[..n + 1], open) <= Strays(list, open)
    decreases |list|
  {
    assert list[..n + 1][..n] == list[..n];
    if n + 1 == |list| {
      assert list[..n + 1] == list;
    } else {
      var init := list[..|list| - 1];
      StraysGrow(init, open, n);
      assert init[..n + 1] == list[..n + 1] && init[..n] == list[..n];
    }
  }

  lemma ClaimedMore(list: seq<Auth>, n: nat)
    requires n < |list|
    ensures Claimed(list[..n + 1]) == Claimed(list[..n]) + {list[n].entry.id}
    ensures DistinctHolds(list) ==> list[n].entry.id !in Claimed(list[..n])
    ensures Claimed(list[..n]) <= Claimed(list) && list[n].entry.id in Claimed(list)
  {
  }

  lemma IdsMore(list: seq<Entry>, n: nat)
    requires n < |list|
    ensures Ids(list[..n + 1]) == Ids(list[..n]) + {list[n].id}
    ensures DistinctIds(list) ==> list[n].id !in Ids(list[..n])
    ensures Ids(list[..n]) <= Ids(list) && list[n].id in Ids(list)
  {
  }

  lemma ClaimedAppend(list: seq<Auth>, a: Auth)
    requires DistinctHolds(list) && a.entry.id !in Claimed(list)
    ensures DistinctHolds(list + [a]) && Claimed(list + [a]) == Claimed(list) + {a.entry.id}
  {
    var all := list + [a];
    assert forall i :: 0 <= i < |list| ==> list[i].entry.id in Claimed(list);
    forall i | 0 <= i < |all| ensures all[i].entry.id in Claimed(list) + {a.entry.id} {}
    forall x | x in Claimed(list) + {a.entry.id} ensures x in Claimed(all) {
      if x == a.entry.id { assert all[|list|] == a; } else {
        var i :| 0 <= i < |list| && list[i].entry.id == x;
        assert all[i] == list[i];
      }
    }
  }

  /** The ids of what is left of a list after its first `p`. */
  lemma IdsRest(list: seq<Entry>, p: nat)
    requires DistinctIds(list) && p <= |list|
    ensures Ids(list[..p]) !! Ids(list[p..]) && Ids(list[..p]) + Ids(list[p..]) == Ids(list)
  {
    forall i | 0 <= i < |list| ensures list[i].id in Ids(list[..p]) + Ids(list[p..]) {
      if i < p { assert list[..p][i] == list[i]; } else { assert list[p..][i - p] == list[i]; }
    }
  }

  /** An authorization as it was, but for the hold it is served on. */
  ghost predicate Rehomed(a: Auth, b: Auth, holds: seq<Entry>) {
    a == b.(entry := a.entry) && a.entry in holds
  }

  /** Serve the authorizations of one key on its open holds: each on the hold it names
      if that is open, else on the next free one.  The queue of free holds never runs
      out, whatever the rows say. */
  method ServeKey(kept: seq<Auth>, holds: seq<Entry>) returns (served: seq<Auth>, rest: seq<Entry>)
    requires DistinctHolds(kept) && DistinctIds(holds) && |kept| <= |holds|
    requires forall i :: 0 <= i < |kept| && kept[i].entry.id in Ids(holds) ==> kept[i].entry in holds
    ensures |served| == |kept| && |rest| == |holds| - |kept|
    ensures forall i :: 0 <= i < |served| ==> Rehomed(served[i], kept[i], holds)
    ensures DistinctHolds(served) && Claimed(served) !! Ids(rest) && Claimed(served) + Ids(rest) == Ids(holds)
    ensures forall e :: e in rest ==> e in holds
    ensures forall i :: 0 <= i < |kept| && kept[i].entry.id in Ids(holds) ==> served[i] == kept[i]
    ensures DistinctIds(rest)
  {
    hide Without, Strays, Claimed, Ids, DistinctHolds, DistinctIds, Rehomed;
    var claimed, open := Claimed(kept), Ids(holds);
    var free := Without(holds, claimed);
    WithoutDistinct(holds, claimed);
    FreeSuffices(kept, holds);
    served := [];
    var p := 0;
    assert kept[..0] == [] && free[..0] == [];
    NothingServed(open);
    for i := 0 to |kept|
      invariant |served| == i && p == Strays(kept[..i], open) && p <= |free|
      invariant forall j :: 0 <= j < i ==> Rehomed(served[j], kept[j], holds)
      invariant forall j :: 0 <= j < i && kept[j].entry.id in open ==> served[j] == kept[j]
      invariant DistinctHolds(served)
      invariant Claimed(served) == (Claimed(kept[..i]) * open) + Ids(free[..p])
    {
      StraysGrow(kept, open, i);
      ClaimedMore(kept, i);
      var taken := kept[i].entry;
      ghost var c, f := Claimed(kept[..i]), Ids(free[..p]);
      IdsWithin(free, p);
      if kept[i].entry.id in open {
        ServedOwn(c, open, f, taken.id);
      } else {
        taken := free[p];
        assert free[p] in free;
        IdsMore(free, p);
        p := p + 1;
        ServedFree(c, claimed, open, f, kept[i].entry.id, taken.id);
      }
      var moved := kept[i].(entry := taken);
      assert Rehomed(moved, kept[i], holds) by { Rehomes(kept[i], taken, holds); }
      ClaimedAppend(served, moved);
      served := served + [moved];
    }
    rest := free[p..];
    assert kept[..|kept|] == kept;
    RestDistinct(free, p);
    IdsRest(free, p);
    ServedAll(claimed, open, Ids(free[..p]), Ids(rest));
    assert forall e :: e in rest ==> e in free;
  }

  lemma RestDistinct(list: seq<Entry>, p: nat)
    requires DistinctIds(list) && p <= |list|
    ensures DistinctIds(list[p..])
  {
  }

  lemma Rehomes(b: Auth, e: Entry, holds: seq<Entry>)
    requires e in holds
    ensures Rehomed(b.(entry := e), b, holds)
  {
  }

  lemma ServedOwn(c: set<Id>, open: set<Id>, f: set<Id>, x: Id)
    requires x in open
    ensures ((c + {x}) * open) + f == ((c * open) + f) + {x}
  {
  }

  lemma ServedFree(c: set<Id>, claimed: set<Id>, open: set<Id>, f: set<Id>, x: Id, y: Id)
    requires x !in open && y in open - claimed && y !in f && c <= claimed
    ensures ((c + {x}) * open) + (f + {y}) == ((c * open) + f) + {y} && y !in (c * open) + f
  {
  }

  lemma ServedAll(claimed: set<Id>, open: set<Id>, f: set<Id>, rest: set<Id>)
    requires f !! rest && f + rest == open - claimed
    ensures (claimed * open) + f !! rest && (claimed * open) + f + rest == open
  {
  }

  lemma IdsWithin(list: seq<Entry>, p: nat)
    requires p <= |list|
    ensures Ids(list[..p]) <= Ids(list)
  {
  }

  lemma NothingServed(open: set<Id>)
    ensures Strays([], open) == 0 && DistinctHolds([]) && Claimed([]) == {} && Ids([]) == {}
  {
  }

  // -- ordering the authorizations of a key ------------------------------------------------

  /** By openness of the hold named, then its place in the chain, then the row's own id. */
  predicate Before(a: Auth, b: Auth, open: set<Id>) {
    var x, y := a.entry.id in open, b.entry.id in open;
    if x != y then x
    else if a.entry.sequence != b.entry.sequence then a.entry.sequence < b.entry.sequence
    else a.id <= b.id
  }

  function Insert(a: Auth, list: seq<Auth>, open: set<Id>): (r: seq<Auth>)
    ensures |r| == |list| + 1 && forall x :: x in r <==> x in list || x == a
  {
    if |list| == 0 then [a]
    else if Before(a, list[0], open) then [a] + list
    else [list[0]] + Insert(a, list[1..], open)
  }

  function Sorted(list: seq<Auth>, open: set<Id>): (r: seq<Auth>)
    ensures |r| == |list| && forall x :: x in r <==> x in list
  {
    if |list| == 0 then [] else
      assert list == [list[0]] + list[1..];
      Insert(list[0], Sorted(list[1..], open), open)
  }

  lemma {:induction false} InsertHolds(a: Auth, list: seq<Auth>, open: set<Id>)
    requires DistinctHolds(list) && forall x :: x in list ==> x.entry.id != a.entry.id
    ensures DistinctHolds(Insert(a, list, open))
  {
    if |list| > 0 && !Before(a, list[0], open) {
      var rest := Insert(a, list[1..], open);
      InsertHolds(a, list[1..], open);
      forall i | 0 <= i < |rest| ensures rest[i].entry.id != list[0].entry.id {
        assert rest[i] in rest;
      }
    }
  }

  lemma {:induction false} SortedHolds(list: seq<Auth>, open: set<Id>)
    requires DistinctHolds(list)
    ensures DistinctHolds(Sorted(list, open))
  {
    if |list| > 0 {
      SortedHolds(list[1..], open);
      InsertHolds(list[0], Sorted(list[1..], open), open);
    }
  }

  ghost predicate Ordered(list: seq<Auth>, open: set<Id>) {
    forall i, j :: 0 <= i < j < |list| ==> Before(list[i], list[j], open)
  }

  lemma {:induction false} InsertOrdered(a: Auth, list: seq<Auth>, open: set<Id>)
    requires Ordered(list, open)
    ensures Ordered(Insert(a, list, open), open)
  {
    if |list| > 0 && !Before(a, list[0], open) {
      var rest := Insert(a, list[1..], open);
      InsertOrdered(a, list[1..], open);
      forall j | 0 <= j < |rest| ensures Before(list[0], rest[j], open) {
        assert rest[j] in rest;
        if rest[j] != a {
          var k :| 0 < k < |list| && list[k] == rest[j];
        }
      }
    }
  }

  lemma {:induction false} SortedOrdered(list: seq<Auth>, open: set<Id>)
    ensures Ordered(Sorted(list, open), open)
  {
    if |list| > 0 {
      SortedOrdered(list[1..], open);
      InsertOrdered(list[0], Sorted(list[1..], open), open);
    }
  }

  lemma {:induction false} InsertAuths(a: Auth, list: seq<Auth>, open: set<Id>)
    requires DistinctAuths(list) && forall x :: x in list ==> x.id != a.id
    ensures DistinctAuths(Insert(a, list, open))
  {
    if |list| > 0 && !Before(a, list[0], open) {
      var rest := Insert(a, list[1..], open);
      InsertAuths(a, list[1..], open);
      forall i | 0 <= i < |rest| ensures rest[i].id != list[0].id { assert rest[i] in rest; }
    }
  }

  lemma {:induction false} SortedAuths(list: seq<Auth>, open: set<Id>)
    requires DistinctAuths(list)
    ensures DistinctAuths(Sorted(list, open))
  {
    if |list| > 0 {
      SortedAuths(list[1..], open);
      InsertAuths(list[0], Sorted(list[1..], open), open);
    }
  }

  lemma HasFirst(list: seq<Auth>)
    ensures |list| > 0 ==> exists x :: x in list
  {
    if |list| > 0 { assert list[0] in list; }
  }

  lemma FirstSame(a: seq<Auth>, b: seq<Auth>, open: set<Id>)
    requires Ordered(a, open) && Ordered(b, open) && DistinctAuths(a) && |a| > 0 && |b| > 0
    requires forall x :: x in a <==> x in b
    ensures a[0] == b[0]
  {
    assert a[0] in a && b[0] in b;
    var i :| 0 <= i < |b| && b[i] == a[0];
    var j :| 0 <= j < |a| && a[j] == b[0];
  }

  lemma InRest(list: seq<Auth>, x: Auth)
    requires DistinctAuths(list) && |list| > 0
    ensures x in list[1..] <==> x in list && x != list[0]
  {
    assert list == [list[0]] + list[1..];
  }

  /** There is one order of the same authorizations. */
  lemma {:induction false} OneOrder(a: seq<Auth>, b: seq<Auth>, open: set<Id>)
    requires Ordered(a, open) && Ordered(b, open) && DistinctAuths(a) && DistinctAuths(b)
    requires forall x :: x in a <==> x in b
    ensures a == b
  {
    HasFirst(a);
    HasFirst(b);
    if |a| > 0 && |b| > 0 {
      FirstSame(a, b, open);
      forall x ensures x in a[1..] <==> x in b[1..] {
        InRest(a, x);
        InRest(b, x);
      }
      OneOrder(a[1..], b[1..], open);
      assert a == [a[0]] + a[1..] && b == [b[0]] + b[1..];
    }
  }

  /** Governors that read the same rows in whatever order line them up the same, those that
      name open holds first. */
  lemma SameOrder(a: seq<Auth>, b: seq<Auth>, open: set<Id>)
    requires DistinctAuths(a) && DistinctAuths(b) && forall x :: x in a <==> x in b
    ensures Sorted(a, open) == Sorted(b, open)
    ensures forall i, j :: 0 <= i < j < |a| && Sorted(a, open)[j].entry.id in open
              ==> Sorted(a, open)[i].entry.id in open
  {
    hide Sorted;
    SortedOrdered(a, open);
    SortedOrdered(b, open);
    SortedAuths(a, open);
    SortedAuths(b, open);
    OneOrder(Sorted(a, open), Sorted(b, open), open);
    hide DistinctAuths;
    forall i, j | 0 <= i < j < |a| && Sorted(a, open)[j].entry.id in open ensures Sorted(a, open)[i].entry.id in open {
      assert Before(Sorted(a, open)[i], Sorted(a, open)[j], open);
    }
  }

  // -- what is served ---------------------------------------------------------------------------

  /** An authorization on an open hold, of its scope and amount. */
  ghost predicate Fits(h: Holding, a: Auth) {
    && a.entry.id in h.open.at && h.open.at[a.entry.id] == a.entry
    && a.scope == a.entry.scope && a.amount == a.entry.amount
  }

  ghost predicate Served(result: map<Id, Auth>, id: Id) {
    exists a :: a in result && result[a].entry.id == id
  }

  /** What is served so far: every one fits, no two on one hold, and every hold of an
      unambiguous key, or of one already done, has one. */
  ghost predicate Matched(h: Holding, result: map<Id, Auth>, done: set<HoldKey>) {
    && Sound(h, result, done)
    && (forall id :: id in h.open.at && (Key(h.open.at[id]) !in h.ambiguous || Key(h.open.at[id]) in done)
          ==> Served(result, id))
  }

  ghost predicate Sound(h: Holding, result: map<Id, Auth>, done: set<HoldKey>) {
    && (forall a :: a in result ==> result[a].id == a && Fits(h, result[a]))
    && (forall a :: a in result ==> Key(result[a].entry) !in h.ambiguous || Key(result[a].entry) in done)
    && (forall a, b :: a in result && b in result && a != b ==> result[a].entry.id != result[b].entry.id)
  }

  /** One authorization for each open hold, of its scope and amount, and no other. */
  ghost predicate Bijection(h: Holding, result: map<Id, Auth>) {
    && (forall a :: a in result ==> result[a].id == a && Fits(h, result[a]))
    && (forall a, b :: a in result && b in result && result[a].entry.id == result[b].entry.id ==> a == b)
    && (forall id :: id in h.open.at ==> Served(result, id))
  }

  lemma MatchedAll(h: Holding, result: map<Id, Auth>)
    requires Matched(h, result, h.ambiguous)
    ensures Bijection(h, result)
  {
    hide Fits;
  }

  function Added(result: map<Id, Auth>, list: seq<Auth>): map<Id, Auth> {
    if |list| == 0 then result
    else
      var a := list[|list| - 1];
      Added(result, list[..|list| - 1])[a.id := a]
  }

  lemma AddedKeys(result: map<Id, Auth>, list: seq<Auth>)
    ensures forall a :: a in Added(result, list) ==> a in result || exists i :: 0 <= i < |list| && list[i].id == a
    decreases |list|
  {
    if |list| > 0 {
      var init := list[..|list| - 1];
      AddedKeys(result, init);
      forall a | a in Added(result, list) && a !in result ensures exists i :: 0 <= i < |list| && list[i].id == a {
        if a == list[|list| - 1].id {
          assert list[|list| - 1].id == a;
        } else {
          var i :| 0 <= i < |init| && init[i].id == a;
          assert list[i].id == a;
        }
      }
    }
  }

  lemma {:induction false} AddedParts(result: map<Id, Auth>, list: seq<Auth>)
    requires DistinctAuths(list) && forall i :: 0 <= i < |list| ==> list[i].id !in result
    ensures forall a :: a in result ==> a in Added(result, list) && Added(result, list)[a] == result[a]
    ensures forall i :: 0 <= i < |list| ==>
              list[i].id in Added(result, list)
              && Added(result, list)[list[i].id] == list[i]
    ensures forall a :: a in Added(result, list) ==> a in result || exists i :: 0 <= i < |list| && list[i].id == a
  {
    if |list| > 0 {
      AddedParts(result, list[..|list| - 1]);
    }
    AddedKeys(result, list);
  }

  /** Those of an order's holds that have a key. */
  function HoldsOf(order: seq<Id>, at: map<Id, Entry>, key: HoldKey): (r: seq<Entry>)
    ensures forall e :: e in r <==> exists id :: id in order && id in at && at[id] == e && Key(e) == key
  {
    if |order| == 0 then []
    else
      var id := order[|order| - 1];
      assert order == order[..|order| - 1] + [id];
      HoldsOf(order[..|order| - 1], at, key) + if id in at && Key(at[id]) == key then [at[id]] else []
  }

  lemma {:induction false} HoldsOfDistinct(order: seq<Id>, at: map<Id, Entry>, key: HoldKey)
    requires Distinct(order) && forall id :: id in at ==> at[id].id == id
    ensures DistinctIds(HoldsOf(order, at, key))
    ensures forall id :: id in Ids(HoldsOf(order, at, key)) ==> id in order
  {
    NoIds({});
    if |order| > 0 {
      var init, id := order[..|order| - 1], order[|order| - 1];
      HoldsOfDistinct(init, at, key);
      var list := HoldsOf(init, at, key);
      hide Ids, DistinctIds;
      assert id !in init;
      if id in at { IdsAppend(list, at[id]); }
      assert list + [] == list;
    }
  }

  /** Adding what was served of one key. */
  lemma AddedMatched(h: Holding, result: map<Id, Auth>, done: set<HoldKey>, key: HoldKey, served: seq<Auth>)
    requires Matched(h, result, done) && key in h.ambiguous && key !in done && DistinctAuths(served)
               && DistinctHolds(served)
    requires forall i :: 0 <= i < |served| ==>
               served[i].id !in result && Fits(h, served[i])
               && Key(served[i].entry) == key
    requires forall id :: id in h.open.at && Key(h.open.at[id]) == key ==> id in Claimed(served)
    ensures Matched(h, Added(result, served), done + {key})
  {
    hide Added, Fits, Sound;
    AddedParts(result, served);
    AddedSound(h, result, done, key, served);
    hide DistinctAuths, DistinctHolds, Key;
    forall id | id in h.open.at && (Key(h.open.at[id]) !in h.ambiguous || Key(h.open.at[id]) in done + {key})
      ensures Served(Added(result, served), id)
    {
      if Key(h.open.at[id]) == key {
        var i :| 0 <= i < |served| && served[i].entry.id == id;
        assert Added(result, served)[served[i].id].entry.id == id;
      } else {
        var a :| a in result && result[a].entry.id == id;
        assert Added(result, served)[a].entry.id == id;
      }
    }
  }

  lemma AddedSound(h: Holding, result: map<Id, Auth>, done: set<HoldKey>, key: HoldKey, served: seq<Auth>)
    requires Sound(h, result, done) && key in h.ambiguous && key !in done && DistinctAuths(served)
               && DistinctHolds(served)
    requires forall i :: 0 <= i < |served| ==>
               served[i].id !in result && Fits(h, served[i])
               && Key(served[i].entry) == key
    ensures Sound(h, Added(result, served), done + {key})
  {
    hide Added, Fits;
    AddedParts(result, served);
    hide Key;
    var all := Added(result, served);
    forall a, b | a in all && b in all && a != b ensures all[a].entry.id != all[b].entry.id {
      if a in result && b in result {
      } else if a in result {
        var j :| 0 <= j < |served| && served[j].id == b;
        DifferentKeys(h, all[a], all[b]);
      } else if b in result {
        var i :| 0 <= i < |served| && served[i].id == a;
        DifferentKeys(h, all[b], all[a]);
      } else {
        var i :| 0 <= i < |served| && served[i].id == a;
        var j :| 0 <= j < |served| && served[j].id == b;
      }
    }
  }

  lemma DifferentKeys(h: Holding, a: Auth, b: Auth)
    requires Fits(h, a) && Fits(h, b) && Key(a.entry) != Key(b.entry)
    ensures a.entry.id != b.entry.id
  {
  }

  // -- the rows, one by one -----------------------------------------------------------------------

  datatype Verdict = Report(problem: Problem) | Wait(waiter: Auth) | Serve(auth: Auth)

  /** The hold a row names: an open one, or any the chain ever placed. */
  function Found(h: Holding, id: Id): Option<Entry> {
    if id in h.open.at then Some(h.open.at[id]) else h.hold(id)
  }

  function Judge(h: Holding, row: Row, named: set<Id>): Verdict {
    var found := Found(h, row.entry);
    if row.entry in named then Report(TwoRows)
    else if found.None? then Report(MissingHold)
    else
      var hold := found.value;
      if hold.scope != row.scope || hold.amount != row.amount then Report(Differs)
      else
        var auth := Auth(row.auth, row.scope, row.amount, row.openedAt, hold);
        var isOpen := row.entry in h.open.at;
        if !isOpen && h.released(row.entry) then Report(AlreadyReleased)
        else if Key(hold) in h.ambiguous then Wait(auth)
        else if !isOpen then Report(AlreadyReleased)
        else Serve(auth)
  }

  /** An authorization made from one of the first `n` rows, on the hold that row names. */
  ghost predicate FromRow(h: Holding, rows: seq<Row>, n: nat, a: Auth)
    requires n <= |rows|
  {
    && a.scope == a.entry.scope && a.amount == a.entry.amount
    && exists j :: 0 <= j < n && rows[j].auth == a.id && rows[j].entry == a.entry.id
          && Found(h, rows[j].entry) == Some(a.entry)
  }

  function WaitingFor(waiting: map<HoldKey, seq<Auth>>, key: HoldKey): seq<Auth> {
    if key in waiting then waiting[key] else []
  }

  ghost predicate Waits(h: Holding, rows: seq<Row>, n: nat, waiting: map<HoldKey, seq<Auth>>)
    requires n <= |rows|
  {
    forall k :: k in waiting ==>
      && k in h.ambiguous && DistinctHolds(waiting[k])
      && (forall i :: 0 <= i < |waiting[k]| ==> FromRow(h, rows, n, waiting[k][i]) && Key(waiting[k][i].entry) == k)
  }

  ghost predicate Serves(h: Holding, rows: seq<Row>, n: nat, result: map<Id, Auth>)
    requires n <= |rows|
  {
    && Sound(h, result, {})
    && (forall a :: a in result ==> FromRow(h, rows, n, result[a]))
  }

  function NamedBy(rows: seq<Row>): set<Id> { set j | 0 <= j < |rows| :: rows[j].entry }

  ghost predicate DistinctRows(rows: seq<Row>) { forall i, j :: 0 <= i < j < |rows| ==> rows[i].auth != rows[j].auth }

  ghost predicate Accounted(h: Holding, rows: seq<Row>, n: nat, result: map<Id, Auth>)
    requires n <= |rows|
  {
    forall j :: 0 <= j < n && rows[j].entry in h.open.at && Key(h.open.at[rows[j].entry]) !in h.ambiguous
          ==> Served(result, rows[j].entry)
  }

  lemma FromMore(h: Holding, rows: seq<Row>, n: nat, a: Auth)
    requires n < |rows| && FromRow(h, rows, n, a)
    ensures FromRow(h, rows, n + 1, a) && a.entry.id in NamedBy(rows[..n])
  {
    var j :| 0 <= j < n && rows[j].auth == a.id && rows[j].entry == a.entry.id
          && Found(h, rows[j].entry) == Some(a.entry);
    assert rows[..n][j].entry == a.entry.id;
  }

  lemma JudgedFrom(h: Holding, rows: seq<Row>, n: nat, a: Auth)
    requires h.Valid() && n < |rows|
    requires Judge(h, rows[n], NamedBy(rows[..n])) == Wait(a) || Judge(h, rows[n], NamedBy(rows[..n])) == Serve(a)
    ensures FromRow(h, rows, n + 1, a) && a.entry.id == rows[n].entry && a.entry.id !in NamedBy(rows[..n])
              && a.id == rows[n].auth
    ensures Judge(h, rows[n], NamedBy(rows[..n])).Serve? ==> Fits(h, a) && Key(a.entry) !in h.ambiguous
    ensures Judge(h, rows[n], NamedBy(rows[..n])).Wait? ==> Key(a.entry) in h.ambiguous
  {
    hide NamedBy;
    assert Found(h, rows[n].entry) == Some(a.entry);
  }

  lemma ServesMore(h: Holding, rows: seq<Row>, n: nat, result: map<Id, Auth>, a: Auth)
    requires h.Valid() && n < |rows| && Serves(h, rows, n, result) && Judge(h, rows[n], NamedBy(rows[..n])) == Serve(a)
    ensures Serves(h, rows, n + 1, result[a.id := a])
  {
    JudgedFrom(h, rows, n, a);
    hide FromRow, Judge, NamedBy, Fits;
    forall b | b in result ensures FromRow(h, rows, n + 1, result[b]) && result[b].entry.id != a.entry.id {
      FromMore(h, rows, n, result[b]);
    }
  }

  lemma ServesStays(h: Holding, rows: seq<Row>, n: nat, result: map<Id, Auth>)
    requires n < |rows| && Serves(h, rows, n, result)
    ensures Serves(h, rows, n + 1, result)
  {
    hide FromRow, Sound, NamedBy;
    forall b | b in result ensures FromRow(h, rows, n + 1, result[b]) { FromMore(h, rows, n, result[b]); }
  }

  lemma WaitsStays(h: Holding, rows: seq<Row>, n: nat, waiting: map<HoldKey, seq<Auth>>)
    requires n < |rows| && Waits(h, rows, n, waiting)
    ensures Waits(h, rows, n + 1, waiting)
  {
    hide FromRow, NamedBy, DistinctHolds;
    forall k, i | k in waiting && 0 <= i < |waiting[k]| ensures FromRow(h, rows, n + 1, waiting[k][i]) {
      FromMore(h, rows, n, waiting[k][i]);
    }
  }

  lemma WaitsMore(h: Holding, rows: seq<Row>, n: nat, waiting: map<HoldKey, seq<Auth>>, a: Auth)
    requires h.Valid() && n < |rows| && Waits(h, rows, n, waiting) && Judge(h, rows[n], NamedBy(rows[..n])) == Wait(a)
    ensures Waits(h, rows, n + 1, waiting[Key(a.entry) := WaitingFor(waiting, Key(a.entry)) + [a]])
  {
    JudgedFrom(h, rows, n, a);
    WaitsStays(h, rows, n, waiting);
    hide FromRow, Judge, NamedBy, Key;
    var list := WaitingFor(waiting, Key(a.entry));
    forall i | 0 <= i < |list| ensures list[i].entry.id != a.entry.id {
      FromMore(h, rows, n, list[i]);
    }
  }

  lemma AccountedMore(h: Holding, rows: seq<Row>, n: nat, result: map<Id, Auth>, v: Verdict)
    requires h.Valid() && n < |rows| && DistinctRows(rows) && Serves(h, rows, n, result)
               && Accounted(h, rows, n, result)
    requires v == Judge(h, rows[n], NamedBy(rows[..n])) && !v.Report?
    ensures Accounted(h, rows, n + 1, if v.Serve? then result[v.auth.id := v.auth] else result)
  {
    var next := if v.Serve? then result[v.auth.id := v.auth] else result;
    var a := if v.Serve? then v.auth else v.waiter;
    JudgedFrom(h, rows, n, a);
    hide Judge, NamedBy, Sound;
    if a.id in result { NotBefore(h, rows, n, result[a.id], a.id); }
    forall j | 0 <= j < n + 1 && rows[j].entry in h.open.at && Key(h.open.at[rows[j].entry]) !in h.ambiguous
      ensures Served(next, rows[j].entry)
    {
      if j < n {
        var b :| b in result && result[b].entry.id == rows[j].entry;
        assert next[b].entry.id == rows[j].entry;
      } else {
        assert v.Serve? && next[a.id].entry.id == rows[j].entry;
      }
    }
  }

  lemma NotBefore(h: Holding, rows: seq<Row>, n: nat, a: Auth, id: Id)
    requires n < |rows| && DistinctRows(rows) && FromRow(h, rows, n, a) && id == rows[n].auth
    ensures a.id != id
  {
  }

  /** What a row says of the hold it names. */
  function AuthOf(row: Row, hold: Entry): Auth { Auth(row.auth, row.scope, row.amount, row.openedAt, hold) }

  /** The row is the first to name its hold, and has its scope and amount. */
  ghost predicate Names(h: Holding, rows: seq<Row>, j: nat, hold: Entry)
    requires j < |rows|
  {
    && (forall i :: 0 <= i < j ==> rows[i].entry != rows[j].entry)
    && Found(h, rows[j].entry) == Some(hold) && hold.scope == rows[j].scope && hold.amount == rows[j].amount
  }

  /** It names a hold not known to be released, of a key that fixes only a number. */
  ghost predicate Awaits(h: Holding, rows: seq<Row>, j: nat, hold: Entry)
    requires j < |rows|
  {
    Names(h, rows, j, hold) && Key(hold) in h.ambiguous && (rows[j].entry in h.open.at || !h.released(rows[j].entry))
  }

  /** It names an open hold of a key no unnamed release touched. */
  ghost predicate Stands(h: Holding, rows: seq<Row>, j: nat, hold: Entry)
    requires j < |rows|
  {
    Names(h, rows, j, hold) && Key(hold) !in h.ambiguous && rows[j].entry in h.open.at
  }

  lemma NotNamed(rows: seq<Row>, j: nat)
    requires j < |rows|
    ensures rows[j].entry in NamedBy(rows[..j]) <==> exists i :: 0 <= i < j && rows[i].entry == rows[j].entry
  {
    if rows[j].entry in NamedBy(rows[..j]) {
      var i :| 0 <= i < j && rows[..j][i].entry == rows[j].entry;
      assert rows[i].entry == rows[j].entry;
    }
    if i :| 0 <= i < j && rows[i].entry == rows[j].entry { assert rows[..j][i].entry == rows[j].entry; }
  }

  /** A row is set aside, served or reported by what it names, and by nothing else. */
  lemma JudgedBy(h: Holding, rows: seq<Row>, j: nat)
    requires j < |rows|
    ensures var v := Judge(h, rows[j], NamedBy(rows[..j]));
            && (v.Wait? ==> Awaits(h, rows, j, v.waiter.entry) && v.waiter == AuthOf(rows[j], v.waiter.entry))
            && (v.Serve? ==> Stands(h, rows, j, v.auth.entry) && v.auth == AuthOf(rows[j], v.auth.entry))
            && (forall hold :: Awaits(h, rows, j, hold) ==> v == Wait(AuthOf(rows[j], hold)))
            && (forall hold :: Stands(h, rows, j, hold) ==> v == Serve(AuthOf(rows[j], hold)))
  {
    NotNamed(rows, j);
    hide NamedBy;
  }

  /** What is reported of a row is so. */
  lemma ReportIsSo(h: Holding, rows: seq<Row>, j: nat)
    requires j < |rows| && Judge(h, rows[j], NamedBy(rows[..j])).Report?
    ensures var found := Found(h, rows[j].entry);
            match Judge(h, rows[j], NamedBy(rows[..j])).problem
            case TwoRows => exists i :: 0 <= i < j && rows[i].entry == rows[j].entry
            case MissingHold => found.None?
            case Differs => found.Some? && (found.value.scope != rows[j].scope || found.value.amount != rows[j].amount)
            case AlreadyReleased =>
              && found.Some? && rows[j].entry !in h.open.at
              && (h.released(rows[j].entry) || Key(found.value) !in h.ambiguous)
            case _ => false
  {
    NotNamed(rows, j);
    hide NamedBy;
  }

  /** Each of the first `n` rows that should wait does, and each that stands is served. */
  ghost predicate AllAside(h: Holding, rows: seq<Row>, n: nat, waiting: map<HoldKey, seq<Auth>>)
    requires n <= |rows|
  {
    forall j, hold :: 0 <= j < n && Awaits(h, rows, j, hold) ==>
      AuthOf(rows[j], hold) in WaitingFor(waiting, Key(hold))
  }

  ghost predicate AllServed(h: Holding, rows: seq<Row>, n: nat, result: map<Id, Auth>)
    requires n <= |rows|
  {
    forall j, hold :: 0 <= j < n && Stands(h, rows, j, hold) ==>
      rows[j].auth in result && result[rows[j].auth] == AuthOf(rows[j], hold)
  }

  ghost predicate Settled(h: Holding, rows: seq<Row>, j: nat)
    requires j < |rows|
  {
    exists hold :: Awaits(h, rows, j, hold) || Stands(h, rows, j, hold)
  }

  lemma AsideMore(h: Holding, rows: seq<Row>, n: nat, waiting: map<HoldKey, seq<Auth>>, v: Verdict)
    requires n < |rows| && AllAside(h, rows, n, waiting) && v == Judge(h, rows[n], NamedBy(rows[..n]))
    ensures AllAside(h, rows, n + 1, if !v.Wait? then waiting
              else waiting[Key(v.waiter.entry) := WaitingFor(waiting, Key(v.waiter.entry)) + [v.waiter]])
  {
    JudgedBy(h, rows, n);
    hide Judge, NamedBy, Awaits, Stands, Key, AuthOf;
  }

  lemma ServedMore(h: Holding, rows: seq<Row>, n: nat, result: map<Id, Auth>, v: Verdict)
    requires n < |rows| && DistinctRows(rows) && AllServed(h, rows, n, result)
    requires v == Judge(h, rows[n], NamedBy(rows[..n]))
    ensures AllServed(h, rows, n + 1, if v.Serve? then result[v.auth.id := v.auth] else result)
  {
    JudgedBy(h, rows, n);
    hide Judge, NamedBy, Awaits, Stands;
  }

  lemma SettledIs(h: Holding, rows: seq<Row>, j: nat)
    requires j < |rows|
    ensures Settled(h, rows, j) <==> !Judge(h, rows[j], NamedBy(rows[..j])).Report?
  {
    JudgedBy(h, rows, j);
    hide Judge, NamedBy, Awaits, Stands;
  }

  /** The rows matched so far. */
  ghost predicate MatchedSoFar(h: Holding, rows: seq<Row>, n: nat, result: map<Id, Auth>,
                               waiting: map<HoldKey, seq<Auth>>, named: set<Id>, problems: seq<Problem>)
    requires n <= |rows|
  {
    && named == NamedBy(rows[..n]) && Serves(h, rows, n, result) && Waits(h, rows, n, waiting)
    && AllAside(h, rows, n, waiting) && (DistinctRows(rows) ==> AllServed(h, rows, n, result))
    && AllCounted(h, rows, n, waiting) && OnlyStanding(h, rows, n, result) && OnlyAwaiting(h, rows, n, waiting)
    && (problems == [] <==> AllSettled(h, rows, n))
    && (problems == [] && DistinctRows(rows) ==> Accounted(h, rows, n, result))
  }

  ghost predicate AllSettled(h: Holding, rows: seq<Row>, n: nat)
    requires n <= |rows|
  {
    forall j :: 0 <= j < n ==> Settled(h, rows, j)
  }

  lemma NoRowYet(h: Holding, rows: seq<Row>)
    ensures MatchedSoFar(h, rows, 0, map[], map[], {}, [])
  {
    forall key ensures Waiters(h, rows, 0, key) == {} {
    }
  }

  /** The row waits under this key. */
  ghost predicate AwaitsKey(h: Holding, rows: seq<Row>, j: nat, key: HoldKey)
    requires j < |rows|
  {
    exists hold :: Awaits(h, rows, j, hold) && Key(hold) == key
  }

  ghost function Waiters(h: Holding, rows: seq<Row>, n: nat, key: HoldKey): set<nat>
    requires n <= |rows|
  {
    set j: nat | j < n && AwaitsKey(h, rows, j, key)
  }

  /** As many wait for each key as should. */
  ghost predicate AllCounted(h: Holding, rows: seq<Row>, n: nat, waiting: map<HoldKey, seq<Auth>>)
    requires n <= |rows|
  {
    forall key :: |WaitingFor(waiting, key)| == |Waiters(h, rows, n, key)|
  }

  /** What is served so far is what a standing row asks for. */
  ghost predicate OnlyStanding(h: Holding, rows: seq<Row>, n: nat, result: map<Id, Auth>)
    requires n <= |rows|
  {
    forall a :: a in result ==> exists j :: 0 <= j < n && StandsFor(h, rows, j, a, result[a])
  }

  ghost predicate StandsFor(h: Holding, rows: seq<Row>, j: nat, a: Id, auth: Auth)
    requires j < |rows|
  {
    rows[j].auth == a && Stands(h, rows, j, auth.entry) && auth == AuthOf(rows[j], auth.entry)
  }

  /** What waits is what an awaiting row asks for. */
  ghost predicate OnlyAwaiting(h: Holding, rows: seq<Row>, n: nat, waiting: map<HoldKey, seq<Auth>>)
    requires n <= |rows|
  {
    forall key, x :: x in WaitingFor(waiting, key) ==> exists j :: 0 <= j < n && AwaitsAs(h, rows, j, key, x)
  }

  ghost predicate AwaitsAs(h: Holding, rows: seq<Row>, j: nat, key: HoldKey, x: Auth)
    requires j < |rows|
  {
    Awaits(h, rows, j, x.entry) && Key(x.entry) == key && x == AuthOf(rows[j], x.entry)
  }

  lemma AwaitsIs(h: Holding, rows: seq<Row>, n: nat, key: HoldKey, v: Verdict)
    requires n < |rows| && v == Judge(h, rows[n], NamedBy(rows[..n]))
    ensures AwaitsKey(h, rows, n, key) <==> v.Wait? && Key(v.waiter.entry) == key
  {
    JudgedBy(h, rows, n);
    hide Judge, NamedBy, Awaits, Stands, Key;
  }

  lemma NextWaiter(h: Holding, rows: seq<Row>, n: nat, key: HoldKey)
    requires n < |rows|
    ensures |Waiters(h, rows, n + 1, key)| == |Waiters(h, rows, n, key)| + if AwaitsKey(h, rows, n, key) then 1 else 0
  {
    hide AwaitsKey;
    assert Waiters(h, rows, n + 1, key) == Waiters(h, rows, n, key) + if AwaitsKey(h, rows, n, key) then {n} else {};
  }

  lemma CountedMore(h: Holding, rows: seq<Row>, n: nat, waiting: map<HoldKey, seq<Auth>>, v: Verdict)
    requires n < |rows| && AllCounted(h, rows, n, waiting) && v == Judge(h, rows[n], NamedBy(rows[..n]))
    ensures AllCounted(h, rows, n + 1, if !v.Wait? then waiting
              else waiting[Key(v.waiter.entry) := WaitingFor(waiting, Key(v.waiter.entry)) + [v.waiter]])
  {
    hide Judge, NamedBy, AwaitsKey, Key, Waiters;
    var next := if !v.Wait? then waiting
                else waiting[Key(v.waiter.entry) := WaitingFor(waiting, Key(v.waiter.entry)) + [v.waiter]];
    forall key ensures |WaitingFor(next, key)| == |Waiters(h, rows, n + 1, key)| {
      AwaitsIs(h, rows, n, key, v);
      NextWaiter(h, rows, n, key);
      assert |WaitingFor(waiting, key)| == |Waiters(h, rows, n, key)|;
    }
  }

  lemma StandingMore(h: Holding, rows: seq<Row>, n: nat, result: map<Id, Auth>, v: Verdict)
    requires n < |rows| && OnlyStanding(h, rows, n, result) && v == Judge(h, rows[n], NamedBy(rows[..n]))
    ensures OnlyStanding(h, rows, n + 1, if v.Serve? then result[v.auth.id := v.auth] else result)
  {
    JudgedBy(h, rows, n);
    hide Judge, NamedBy, Awaits, Stands;
    if v.Serve? { assert StandsFor(h, rows, n, v.auth.id, v.auth); }
    var next := if v.Serve? then result[v.auth.id := v.auth] else result;
    forall a | a in next ensures exists j :: 0 <= j < n + 1 && StandsFor(h, rows, j, a, next[a]) {
      if !(v.Serve? && a == v.auth.id) {
        var j :| 0 <= j < n && StandsFor(h, rows, j, a, result[a]);
        assert StandsFor(h, rows, j, a, next[a]);
      }
    }
  }

  lemma AwaitingMore(h: Holding, rows: seq<Row>, n: nat, waiting: map<HoldKey, seq<Auth>>, v: Verdict)
    requires n < |rows| && OnlyAwaiting(h, rows, n, waiting) && v == Judge(h, rows[n], NamedBy(rows[..n]))
    ensures OnlyAwaiting(h, rows, n + 1, if !v.Wait? then waiting
              else waiting[Key(v.waiter.entry) := WaitingFor(waiting, Key(v.waiter.entry)) + [v.waiter]])
  {
    JudgedBy(h, rows, n);
    hide Judge, NamedBy, Awaits, Stands, Key;
    var next := if !v.Wait? then waiting
                else waiting[Key(v.waiter.entry) := WaitingFor(waiting, Key(v.waiter.entry)) + [v.waiter]];
    forall key, x | x in WaitingFor(next, key) ensures exists j :: 0 <= j < n + 1 && AwaitsAs(h, rows, j, key, x) {
      if x in WaitingFor(waiting, key) {
        var j :| 0 <= j < n && AwaitsAs(h, rows, j, key, x);
      } else {
        assert x == v.waiter && key == Key(v.waiter.entry);
        assert AwaitsAs(h, rows, n, key, x);
      }
    }
  }

  /** One more row, by its verdict. */
  lemma RowMatched(h: Holding, rows: seq<Row>, n: nat, result: map<Id, Auth>, waiting: map<HoldKey, seq<Auth>>,
                   named: set<Id>, problems: seq<Problem>)
    requires h.Valid() && n < |rows| && MatchedSoFar(h, rows, n, result, waiting, named, problems)
    ensures var next := named + {rows[n].entry};
            match Judge(h, rows[n], named)
            case Report(problem) => MatchedSoFar(h, rows, n + 1, result, waiting, next, problems + [problem])
            case Wait(a) =>
              MatchedSoFar(h, rows, n + 1, result,
                           waiting[Key(a.entry) := WaitingFor(waiting, Key(a.entry)) + [a]], next, problems)
            case Serve(a) => MatchedSoFar(h, rows, n + 1, result[a.id := a], waiting, next, problems)
  {
    hide Judge, Serves, Waits, Accounted, DistinctRows, FromRow, AllAside, AllServed, Key, NamedBy, AllSettled,
          AllCounted,
         OnlyStanding, OnlyAwaiting;
    var v := Judge(h, rows[n], named);
    NamedMore(rows, n);
    if problems == [] && DistinctRows(rows) && !v.Report? { AccountedMore(h, rows, n, result, v); }
    AsideMore(h, rows, n, waiting, v);
    CountedMore(h, rows, n, waiting, v);
    StandingMore(h, rows, n, result, v);
    AwaitingMore(h, rows, n, waiting, v);
    if DistinctRows(rows) { ServedMore(h, rows, n, result, v); }
    SettledMore(h, rows, n);
    if v.Serve? { ServesMore(h, rows, n, result, v.auth); } else { ServesStays(h, rows, n, result); }
    if v.Wait? { WaitsMore(h, rows, n, waiting, v.waiter); } else { WaitsStays(h, rows, n, waiting); }
  }

  lemma SettledMore(h: Holding, rows: seq<Row>, n: nat)
    requires n < |rows|
    ensures AllSettled(h, rows, n + 1)
       <==> AllSettled(h, rows, n) && !Judge(h, rows[n], NamedBy(rows[..n])).Report?
  {
    SettledIs(h, rows, n);
    hide Settled, Judge, NamedBy;
  }

  /** Match the rows in turn: each is served, set aside under its key, or reported. */
  method MatchRows(rows: seq<Row>, h: Holding)
    returns (result: map<Id, Auth>, waiting: map<HoldKey, seq<Auth>>, named: set<Id>, problems: seq<Problem>)
    requires h.Valid()
    ensures named == NamedBy(rows) && Serves(h, rows, |rows|, result) && Waits(h, rows, |rows|, waiting)
    ensures AllAside(h, rows, |rows|, waiting) && (DistinctRows(rows) ==> AllServed(h, rows, |rows|, result))
    ensures problems == [] <==> forall j :: 0 <= j < |rows| ==> Settled(h, rows, j)
    ensures problems == [] && DistinctRows(rows) ==> Accounted(h, rows, |rows|, result)
    ensures AllCounted(h, rows, |rows|, waiting) && OnlyStanding(h, rows, |rows|, result)
    ensures OnlyAwaiting(h, rows, |rows|, waiting)
  {
    hide Judge, Serves, Waits, Accounted, DistinctRows, AllAside, AllServed, Settled, Key, AllCounted, OnlyStanding,
         OnlyAwaiting;
    result, waiting, named, problems := map[], map[], {}, [];
    NoRowYet(h, rows);
    for i := 0 to |rows|
      invariant MatchedSoFar(h, rows, i, result, waiting, named, problems)
    {
      hide MatchedSoFar;
      RowMatched(h, rows, i, result, waiting, named, problems);
      match Judge(h, rows[i], named) {
      case Report(problem) => problems := problems + [problem];
      case Wait(a) => waiting := waiting[Key(a.entry) := WaitingFor(waiting, Key(a.entry)) + [a]];
      case Serve(a) => result := result[a.id := a];
      }
      named := named + {rows[i].entry};
    }
    assert rows[..|rows|] == rows;
  }

  lemma NamedMore(rows: seq<Row>, n: nat)
    requires n < |rows|
    ensures NamedBy(rows[..n + 1]) == NamedBy(rows[..n]) + {rows[n].entry}
  {
  }

  // -- the holds nothing names, and the keys that fix only a number ---------------------------------

  /** Every open hold of a settled key is named by some row. */
  ghost predicate EveryHoldNamed(h: Holding, rows: seq<Row>) {
    forall id :: id in h.open.at && Key(h.open.at[id]) !in h.ambiguous ==> id in NamedBy(rows)
  }

  /** An authorization made for a hold that nothing serves. */
  ghost predicate Repaired(h: Holding, result: map<Id, Auth>, a: Id, auth: Auth) {
    && a in h.open.at && auth == AuthFor(h.open.at[a]) && Key(h.open.at[a]) !in h.ambiguous && !Served(result, a)
  }

  /** What was served, and, of the first `n` holds, those repaired. */
  ghost predicate Extended(h: Holding, result: map<Id, Auth>, all: map<Id, Auth>, n: nat, repairing: bool)
    requires n <= |h.open.order|
  {
    && (forall a :: a in result ==> a in all)
    && (forall a :: a in all ==>
          (a in result && all[a] == result[a]) || (repairing && Repaired(h, result, a, all[a])))
    && (repairing ==>
          forall j :: 0 <= j < n && Repairable(h, result, h.open.order[j]) ==>
            h.open.order[j] in all && all[h.open.order[j]] == AuthFor(h.open.at[h.open.order[j]]))
  }

  ghost predicate Repairable(h: Holding, result: map<Id, Auth>, id: Id) {
    id in h.open.at && Key(h.open.at[id]) !in h.ambiguous && !Served(result, id)
  }

  ghost predicate NamedSoFar(h: Holding, rows: seq<Row>, n: nat)
    requires n <= |h.open.order|
  {
    forall j :: 0 <= j < n && h.open.order[j] in h.open.at && Key(h.open.at[h.open.order[j]]) !in h.ambiguous
          ==> h.open.order[j] in NamedBy(rows)
  }

  lemma AllNamed(h: Holding, rows: seq<Row>)
    requires h.Valid()
    ensures NamedSoFar(h, rows, |h.open.order|) <==> EveryHoldNamed(h, rows)
  {
    hide NamedBy, Key;
    if NamedSoFar(h, rows, |h.open.order|) {
      forall id | id in h.open.at && Key(h.open.at[id]) !in h.ambiguous ensures id in NamedBy(rows) {
        assert id in h.open.order;
      }
    }
  }

  /** Whatever is served is named by a row. */
  lemma ServedIsNamed(h: Holding, rows: seq<Row>, result: map<Id, Auth>, id: Id)
    requires Serves(h, rows, |rows|, result) && Served(result, id)
    ensures id in NamedBy(rows)
  {
    var a :| a in result && result[a].entry.id == id;
    assert FromRow(h, rows, |rows|, result[a]);
  }

  lemma NobodyRepaired(h: Holding, result: map<Id, Auth>, repairing: bool)
    ensures Extended(h, result, result, 0, repairing)
  {
    hide Repaired, Repairable;
  }

  lemma OneRepaired(h: Holding, result: map<Id, Auth>, all: map<Id, Auth>, n: nat, repairing: bool)
    requires n < |h.open.order| && h.Valid() && Extended(h, result, all, n, repairing)
    ensures var id := h.open.order[n];
            Extended(h, result, if repairing && Repairable(h, result, id) then all[id := AuthFor(h.open.at[id])]
                  else all,
                     n + 1, repairing)
  {
    hide Served, Key;
  }

  /** Report exactly the open holds of unambiguous keys that no row names; if repairing,
      serve those that nothing serves. */
  method CheckServed(h: Holding, named: set<Id>, rows: seq<Row>, result: map<Id, Auth>, repairing: bool)
    returns (all: map<Id, Auth>, problems: seq<Problem>)
    requires h.Valid() && named == NamedBy(rows) && Serves(h, rows, |rows|, result)
    ensures problems == [] <==> EveryHoldNamed(h, rows)
    ensures Extended(h, result, all, |h.open.order|, repairing)
    ensures problems == [] && Accounted(h, rows, |rows|, result) ==> all == result && Matched(h, all, {})
  {
    all, problems := result, [];
    NobodyRepaired(h, result, repairing);
    for i := 0 to |h.open.order|
      invariant problems == [] <==> NamedSoFar(h, rows, i)
      invariant Extended(h, result, all, i, repairing)
    {
      var id := h.open.order[i];
      assert id in h.open.order;
      var served := exists a :: a in result && result[a].entry.id == id;
      assert served == Served(result, id);
      hide NamedBy, Serves, Extended, Served;
      if served { ServedIsNamed(h, rows, result, id); }
      OneRepaired(h, result, all, i, repairing);
      if Key(h.open.at[id]) !in h.ambiguous && !served {
        if id !in named {
          problems := problems + [Unnamed];
          assert |problems| > 0;
        }
        if repairing { all := all[id := AuthFor(h.open.at[id])]; }
      }
    }
    AllNamed(h, rows);
    hide Extended, Accounted, Matched, NamedSoFar;
    if problems == [] && Accounted(h, rows, |rows|, result) { NothingRepaired(h, rows, result, all, repairing); }
  }

  lemma NothingRepaired(h: Holding, rows: seq<Row>, result: map<Id, Auth>, all: map<Id, Auth>, repairing: bool)
    requires EveryHoldNamed(h, rows) && Accounted(h, rows, |rows|, result) && Serves(h, rows, |rows|, result)
    requires Extended(h, result, all, |h.open.order|, repairing)
    ensures all == result && Matched(h, all, {})
  {
    hide NamedBy, Accounted, Key, Served, Sound, Fits;
    forall id | id in h.open.at && Key(h.open.at[id]) !in h.ambiguous ensures Served(result, id) {
      NamedIsServed(h, rows, result, id);
    }
    assert all.Keys == result.Keys;
  }

  lemma NamedIsServed(h: Holding, rows: seq<Row>, result: map<Id, Auth>, id: Id)
    requires Accounted(h, rows, |rows|, result) && id in NamedBy(rows) && id in h.open.at
               && Key(h.open.at[id]) !in h.ambiguous
    ensures Served(result, id)
  {
  }

  /** Every authorization served so far comes from a row whose hold's key is settled. */
  ghost predicate Origins(h: Holding, rows: seq<Row>, result: map<Id, Auth>, done: set<HoldKey>) {
    forall a :: a in result ==> Origin(h, rows, a, done)
  }

  ghost predicate Origin(h: Holding, rows: seq<Row>, a: Id, done: set<HoldKey>) {
    exists j :: 0 <= j < |rows| && rows[j].auth == a && Found(h, rows[j].entry).Some?
             && (Key(Found(h, rows[j].entry).value) !in h.ambiguous || Key(Found(h, rows[j].entry).value) in done)
  }

  lemma ServedOrigins(h: Holding, rows: seq<Row>, result: map<Id, Auth>)
    requires Serves(h, rows, |rows|, result)
    ensures Origins(h, rows, result, {})
  {
    forall a | a in result ensures Origin(h, rows, a, {}) {
      assert FromRow(h, rows, |rows|, result[a]);
    }
  }

  /** A waiting authorization is nobody else's: not served, nor waiting twice. */
  lemma WaiterIsNew(h: Holding, rows: seq<Row>, result: map<Id, Auth>, done: set<HoldKey>, x: Auth, key: HoldKey)
    requires DistinctRows(rows) && Origins(h, rows, result, done) && FromRow(h, rows, |rows|, x) && Key(x.entry) == key
    requires key in h.ambiguous && key !in done
    ensures x.id !in result
  {
    assert x.id in result ==> Origin(h, rows, x.id, done);
  }

  lemma WaitersDiffer(h: Holding, rows: seq<Row>, x: Auth, y: Auth)
    requires DistinctRows(rows) && FromRow(h, rows, |rows|, x) && FromRow(h, rows, |rows|, y)
               && x.entry.id != y.entry.id
    ensures x.id != y.id
  {
  }

  lemma OriginOf(h: Holding, rows: seq<Row>, x: Auth, done: set<HoldKey>)
    requires FromRow(h, rows, |rows|, x) && Key(x.entry) in done
    ensures Origin(h, rows, x.id, done)
  {
  }

  /** The authorizations waiting for a key, in order, as many as it has open holds. */
  function Kept(h: Holding, waiting: map<HoldKey, seq<Auth>>, key: HoldKey): (r: seq<Auth>)
    ensures |r| <= |HoldsOf(h.open.order, h.open.at, key)|
    ensures |WaitingFor(waiting, key)| == |HoldsOf(h.open.order, h.open.at, key)|
            ==> |r| == |HoldsOf(h.open.order, h.open.at, key)|
  {
    var n, all := |HoldsOf(h.open.order, h.open.at, key)|, Sorted(WaitingFor(waiting, key), h.open.at.Keys);
    if |all| <= n then all else all[..n]
  }

  ghost predicate Ready(h: Holding, rows: seq<Row>, key: HoldKey, kept: seq<Auth>) {
    && DistinctHolds(kept)
    && forall i :: 0 <= i < |kept| ==> FromRow(h, rows, |rows|, kept[i]) && Key(kept[i].entry) == key
  }

  lemma KeptReady(h: Holding, rows: seq<Row>, waiting: map<HoldKey, seq<Auth>>, key: HoldKey)
    requires h.Valid() && Waits(h, rows, |rows|, waiting)
    ensures Ready(h, rows, key, Kept(h, waiting, key))
  {
    hide FromRow, HoldsOf;
    var list := WaitingFor(waiting, key);
    SortedHolds(list, h.open.at.Keys);
    hide Sorted;
    var all := Sorted(list, h.open.at.Keys);
    forall i | 0 <= i < |all| ensures FromRow(h, rows, |rows|, all[i]) && Key(all[i].entry) == key {
      assert all[i] in all;
    }
  }

  lemma HoldsReady(h: Holding, rows: seq<Row>, key: HoldKey, kept: seq<Auth>)
    requires h.Valid() && Ready(h, rows, key, kept)
    ensures var holds := HoldsOf(h.open.order, h.open.at, key);
            && DistinctIds(holds)
            && (forall e :: e in holds ==> e.id in h.open.at && h.open.at[e.id] == e && Key(e) == key)
            && (forall id :: id in h.open.at && Key(h.open.at[id]) == key ==> id in Ids(holds))
            && (forall i :: 0 <= i < |kept| && kept[i].entry.id in Ids(holds) ==> kept[i].entry in holds)
  {
    HoldsOfDistinct(h.open.order, h.open.at, key);
    hide HoldsOf, DistinctIds, DistinctHolds;
    var holds := HoldsOf(h.open.order, h.open.at, key);
    forall id | id in h.open.at && Key(h.open.at[id]) == key ensures id in Ids(holds) {
      assert id in h.open.order;
      assert h.open.at[id] in holds;
    }
    forall i | 0 <= i < |kept| && kept[i].entry.id in Ids(holds) ensures kept[i].entry in holds {
      assert FromRow(h, rows, |rows|, kept[i]);
      assert kept[i].entry.id in h.open.order;
    }
  }

  lemma ServedReady(h: Holding, rows: seq<Row>, key: HoldKey, kept: seq<Auth>, served: seq<Auth>, holds: seq<Entry>)
    requires Ready(h, rows, key, kept) && |served| == |kept|
    requires forall e :: e in holds ==> e.id in h.open.at && h.open.at[e.id] == e && Key(e) == key
    requires forall i :: 0 <= i < |served| ==> Rehomed(served[i], kept[i], holds)
    ensures forall i :: 0 <= i < |served| ==>
              served[i].id == kept[i].id && Fits(h, served[i])
              && Key(served[i].entry) == key
  {
    hide DistinctHolds;
    forall i | 0 <= i < |served| ensures served[i].id == kept[i].id && Fits(h, served[i])
          && Key(served[i].entry) == key {
      assert Rehomed(served[i], kept[i], holds) && FromRow(h, rows, |rows|, kept[i]);
    }
  }

  /** Serving a key whose rows and holds are as many leaves it matched. */
  lemma KeyMatched(h: Holding, rows: seq<Row>, result: map<Id, Auth>, done: set<HoldKey>, key: HoldKey,
                   kept: seq<Auth>, served: seq<Auth>)
    requires DistinctRows(rows) && Matched(h, result, done) && Origins(h, rows, result, done)
    requires key in h.ambiguous && key !in done && Ready(h, rows, key, kept) && DistinctHolds(served)
               && |served| == |kept|
    requires forall i :: 0 <= i < |served| ==>
               served[i].id == kept[i].id && Fits(h, served[i])
               && Key(served[i].entry) == key
    requires forall id :: id in h.open.at && Key(h.open.at[id]) == key ==> id in Claimed(served)
    ensures Matched(h, Added(result, served), done + {key}) && Origins(h, rows, Added(result, served), done + {key})
  {
    hide Matched, Fits, FromRow, Claimed, Origins, Key, Added;
    forall i | 0 <= i < |served| ensures served[i].id !in result { WaiterIsNew(h, rows, result, done, kept[i], key); }
    forall i, j | 0 <= i < j < |served| ensures served[i].id != served[j].id { WaitersDiffer(h, rows, kept[i],
          kept[j]); }
    AddedMatched(h, result, done, key, served);
    OriginsAdded(h, rows, result, done, key, kept, served);
  }

  lemma OriginsAdded(h: Holding, rows: seq<Row>, result: map<Id, Auth>, done: set<HoldKey>, key: HoldKey,
                     kept: seq<Auth>, served: seq<Auth>)
    requires Origins(h, rows, result, done) && Ready(h, rows, key, kept) && |served| == |kept| && DistinctAuths(served)
    requires forall i :: 0 <= i < |served| ==> served[i].id == kept[i].id && served[i].id !in result
    ensures Origins(h, rows, Added(result, served), done + {key})
  {
    hide Added, FromRow, Origin, DistinctHolds, Key;
    AddedParts(result, served);
    forall a | a in Added(result, served) ensures Origin(h, rows, a, done + {key}) {
      if a in result {
        OriginGrows(h, rows, a, done, key);
      } else {
        var i :| 0 <= i < |served| && served[i].id == a;
        OriginOf(h, rows, kept[i], done + {key});
      }
    }
  }

  lemma OriginGrows(h: Holding, rows: seq<Row>, a: Id, done: set<HoldKey>, key: HoldKey)
    requires Origin(h, rows, a, done)
    ensures Origin(h, rows, a, done + {key})
  {
  }

  function AuthsFor(holds: seq<Entry>): seq<Auth> { seq(|holds|, i requires 0 <= i < |holds| => AuthFor(holds[i])) }

  function Done(keys: seq<HoldKey>): set<HoldKey> { set i | 0 <= i < |keys| :: keys[i] }

  // -- exactly what is served -----------------------------------------------------------------------

  /** No authorization goes by the id of an open hold it does not name. */
  predicate OwnIds(h: Holding, rows: seq<Row>) {
    forall j :: 0 <= j < |rows| && rows[j].auth in h.open.at ==> rows[j].entry == rows[j].auth
  }

  ghost predicate StandsOn(h: Holding, rows: seq<Row>, id: Id)
    requires id in h.open.at
  {
    exists j :: 0 <= j < |rows| && Stands(h, rows, j, h.open.at[id]) && rows[j].entry == id
  }

  /** Whether an open hold should have an authorization once the keys `done` were dealt with. */
  ghost predicate Deserves(h: Holding, rows: seq<Row>, id: Id, done: set<HoldKey>, repairing: bool)
    requires id in h.open.at
  {
    if Key(h.open.at[id]) in h.ambiguous then Key(h.open.at[id]) in done else repairing || StandsOn(h, rows, id)
  }

  /** A row that awaits on a hold still open keeps that very hold. */
  ghost predicate OwnKept(h: Holding, rows: seq<Row>, result: map<Id, Auth>, done: set<HoldKey>) {
    forall j, hold :: 0 <= j < |rows| && Awaits(h, rows, j, hold) && rows[j].entry in h.open.at && Key(hold) in done ==>
      rows[j].auth in result && result[rows[j].auth] == AuthOf(rows[j], hold)
  }

  /** The key an authorization id stands for: that of the hold its row names, or of the
      open hold it is the id of. */
  ghost predicate HasKey(h: Holding, rows: seq<Row>, a: Id, key: HoldKey) {
    || (exists j :: 0 <= j < |rows| && rows[j].auth == a && Found(h, rows[j].entry).Some?
                 && Key(Found(h, rows[j].entry).value) == key)
    || (a in h.open.at && Key(h.open.at[a]) == key)
  }

  lemma OneKey(h: Holding, rows: seq<Row>, a: Id, x: HoldKey, y: HoldKey)
    requires DistinctRows(rows) && OwnIds(h, rows) && HasKey(h, rows, a, x) && HasKey(h, rows, a, y)
    ensures x == y
  {
    hide Key;
  }

  ghost predicate Keyed(h: Holding, rows: seq<Row>, result: map<Id, Auth>) {
    forall a :: a in result ==> HasKey(h, rows, a, Key(result[a].entry))
  }

  /** What is served once the keys `done` were dealt with: fitting holds, each once, and
      exactly those that deserve it; rows that stand, or await on an open hold, are served
      on the hold they name. */
  ghost predicate Dealt(h: Holding, rows: seq<Row>, result: map<Id, Auth>, done: set<HoldKey>, repairing: bool) {
    && Sound(h, result, done) && Keyed(h, rows, result)
    && (forall id :: id in h.open.at ==> (Served(result, id) <==> Deserves(h, rows, id, done, repairing)))
    && AllServed(h, rows, |rows|, result) && OwnKept(h, rows, result, done)
  }

  lemma StandingHolds(h: Holding, rows: seq<Row>, result: map<Id, Auth>, a: Id)
    requires h.Valid() && OnlyStanding(h, rows, |rows|, result) && a in result
    ensures exists j :: && 0 <= j < |rows| && rows[j].auth == a && Stands(h, rows, j, result[a].entry)
                        && rows[j].entry == result[a].entry.id
  {
    var j :| 0 <= j < |rows| && StandsFor(h, rows, j, a, result[a]);
    assert rows[j].auth == a && Stands(h, rows, j, result[a].entry) && rows[j].entry == result[a].entry.id;
  }

  /** A served hold is one a row stands on, and the other way round. */
  lemma ServedStands(h: Holding, rows: seq<Row>, result: map<Id, Auth>, id: Id)
    requires h.Valid() && id in h.open.at && Key(h.open.at[id]) !in h.ambiguous
    requires OnlyStanding(h, rows, |rows|, result) && AllServed(h, rows, |rows|, result)
    ensures Served(result, id) <==> StandsOn(h, rows, id)
  {
    hide Key, OnlyStanding;
    if Served(result, id) {
      var a :| a in result && result[a].entry.id == id;
      StandingHolds(h, rows, result, a);
    }
    if StandsOn(h, rows, id) {
      var j :| 0 <= j < |rows| && Stands(h, rows, j, h.open.at[id]) && rows[j].entry == id;
      assert result[rows[j].auth].entry.id == id;
    }
  }

  lemma ExtendedParts(h: Holding, rows: seq<Row>, result: map<Id, Auth>, all: map<Id, Auth>, repairing: bool)
    requires h.Valid() && OwnIds(h, rows) && OnlyStanding(h, rows, |rows|, result)
    requires Extended(h, result, all, |h.open.order|, repairing)
    ensures forall a :: a in result ==> a in all && all[a] == result[a]
    ensures forall a :: a in all && a !in result ==> repairing && Repaired(h, result, a, all[a])
    ensures forall id :: repairing && Repairable(h, result, id) ==> id in all && all[id] == AuthFor(h.open.at[id])
  {
    hide Key, OnlyStanding;
    forall a | a in result ensures a in all && all[a] == result[a] {
      StandingHolds(h, rows, result, a);
      if Repaired(h, result, a, all[a]) { assert result[a].entry.id == a; }
    }
    hide Served, OwnIds;
    forall id | repairing && Repairable(h, result, id) ensures id in all && all[id] == AuthFor(h.open.at[id]) {
      assert id in h.open.order;
    }
  }

  lemma ExtendedSound(h: Holding, rows: seq<Row>, result: map<Id, Auth>, all: map<Id, Auth>, repairing: bool)
    requires h.Valid() && Sound(h, result, {})
    requires forall a :: a in result ==> a in all && all[a] == result[a]
    requires forall a :: a in all && a !in result ==> repairing && Repaired(h, result, a, all[a])
    ensures Sound(h, all, {})
  {
    hide Key;
  }

  lemma FirstKeyed(h: Holding, rows: seq<Row>, result: map<Id, Auth>, all: map<Id, Auth>, repairing: bool)
    requires h.Valid() && OnlyStanding(h, rows, |rows|, result)
    requires forall a :: a in result ==> a in all && all[a] == result[a]
    requires forall a :: a in all && a !in result ==> repairing && Repaired(h, result, a, all[a])
    ensures Keyed(h, rows, all)
  {
    hide Key, OnlyStanding, Served;
    forall a | a in all ensures HasKey(h, rows, a, Key(all[a].entry)) {
      if a in result { KeyOfServed(h, rows, result, a); }
    }
  }

  /** Before any ambiguous key is dealt with. */
  lemma FirstDealt(h: Holding, rows: seq<Row>, result: map<Id, Auth>, all: map<Id, Auth>, repairing: bool)
    requires h.Valid() && DistinctRows(rows) && OwnIds(h, rows)
    requires Serves(h, rows, |rows|, result) && AllServed(h, rows, |rows|, result)
               && OnlyStanding(h, rows, |rows|, result)
    requires Extended(h, result, all, |h.open.order|, repairing)
    ensures Dealt(h, rows, all, {}, repairing)
  {
    hide Key, OnlyStanding, Extended, Stands, Awaits, OwnIds, FromRow, DistinctRows, Repairable, Repaired, Deserves,
          Sound,
         Keyed, Served, AllServed;
    ExtendedParts(h, rows, result, all, repairing);
    ExtendedSound(h, rows, result, all, repairing);
    FirstKeyed(h, rows, result, all, repairing);
    forall id | id in h.open.at ensures Served(all, id) <==> Deserves(h, rows, id, {}, repairing) {
      FirstServed(h, rows, result, all, repairing, id);
    }
    StillServed(h, rows, result, all);
  }

  lemma StillServed(h: Holding, rows: seq<Row>, result: map<Id, Auth>, all: map<Id, Auth>)
    requires AllServed(h, rows, |rows|, result) && forall a :: a in result ==> a in all && all[a] == result[a]
    ensures AllServed(h, rows, |rows|, all)
  {
    hide Stands;
  }

  lemma KeyOfServed(h: Holding, rows: seq<Row>, result: map<Id, Auth>, a: Id)
    requires h.Valid() && OnlyStanding(h, rows, |rows|, result) && a in result
    ensures HasKey(h, rows, a, Key(result[a].entry))
  {
    hide OnlyStanding;
    StandingHolds(h, rows, result, a);
    hide Key;
  }

  lemma FirstServed(h: Holding, rows: seq<Row>, result: map<Id, Auth>, all: map<Id, Auth>, repairing: bool, id: Id)
    requires h.Valid() && id in h.open.at
    requires AllServed(h, rows, |rows|, result) && OnlyStanding(h, rows, |rows|, result) && Sound(h, all, {})
    requires forall a :: a in result ==> a in all && all[a] == result[a]
    requires forall a :: a in all && a !in result ==> repairing && Repaired(h, result, a, all[a])
    requires forall x :: repairing && Repairable(h, result, x) ==> x in all && all[x] == AuthFor(h.open.at[x])
    ensures Served(all, id) <==> Deserves(h, rows, id, {}, repairing)
  {
    hide Key, OnlyStanding, StandsOn, AllServed;
    if Key(h.open.at[id]) !in h.ambiguous {
      ServedStands(h, rows, result, id);
      if Served(result, id) {
        var a :| a in result && result[a].entry.id == id;
        assert all[a].entry.id == id;
      } else if repairing {
        assert Repairable(h, result, id);
        assert all[id].entry.id == id;
      }
    }
  }

  // -- one more key -------------------------------------------------------------------------------------

  ghost predicate OpensFirst(list: seq<Auth>, open: set<Id>) {
    forall i, j :: 0 <= i < j < |list| && list[j].entry.id in open ==> list[i].entry.id in open
  }

  lemma SortedOpensFirst(list: seq<Auth>, open: set<Id>)
    ensures OpensFirst(Sorted(list, open), open)
  {
    SortedOrdered(list, open);
    hide Sorted;
    var all := Sorted(list, open);
    forall i, j | 0 <= i < j < |all| && all[j].entry.id in open ensures all[i].entry.id in open {
      assert Before(all[i], all[j], open);
    }
  }

  lemma {:induction false} ClaimedCount(list: seq<Auth>)
    requires DistinctHolds(list)
    ensures |Claimed(list)| == |list|
  {
    if |list| > 0 {
      var init, last := list[..|list| - 1], list[|list| - 1];
      ClaimedCount(init);
      assert Claimed(list) == Claimed(init) + {last.entry.id};
    }
  }

  /** No more of them come before the last that is open than there are holds of the key. */
  lemma OpensFit(all: seq<Auth>, p: nat, holds: seq<Entry>, open: set<Id>)
    requires OpensFirst(all, open) && DistinctHolds(all) && DistinctIds(holds)
    requires p < |all| && all[p].entry.id in open
    requires forall x :: x in all && x.entry.id in open ==> x.entry.id in Ids(holds)
    ensures p < |holds|
  {
    hide Ids, DistinctIds;
    var front := all[..p + 1];
    forall id | id in Claimed(front) ensures id in Ids(holds) {
      var i :| 0 <= i <= p && front[i].entry.id == id;
      assert all[i] in all && all[i].entry.id in open;
    }
    ClaimedCount(front);
    IdsCount(holds);
    hide Claimed;
    FewerIn(Claimed(front), Ids(holds));
  }

  /** Those that wait on holds still open are among those kept. */
  lemma OpenIsKept(h: Holding, rows: seq<Row>, waiting: map<HoldKey, seq<Auth>>, key: HoldKey, x: Auth)
    requires h.Valid() && Waits(h, rows, |rows|, waiting) && x in WaitingFor(waiting, key) && x.entry.id in h.open.at
    ensures x in Kept(h, waiting, key)
  {
    var list, open := WaitingFor(waiting, key), h.open.at.Keys;
    var holds := HoldsOf(h.open.order, h.open.at, key);
    SortedOpensFirst(list, open);
    SortedHolds(list, open);
    KeptReady(h, rows, waiting, key);
    HoldsReady(h, rows, key, Kept(h, waiting, key));
    hide HoldsOf, FromRow, Sorted, Ids, DistinctIds, OpensFirst, DistinctHolds, Key, Waits, Dict.Valid;
    var all := Sorted(list, open);
    forall y | y in all && y.entry.id in open ensures y.entry.id in Ids(holds) { OpenOfKey(h, rows, waiting, key, y); }
    var p :| 0 <= p < |all| && all[p] == x;
    OpensFit(all, p, holds, open);
  }

  lemma OpenOfKey(h: Holding, rows: seq<Row>, waiting: map<HoldKey, seq<Auth>>, key: HoldKey, x: Auth)
    requires h.Valid() && Waits(h, rows, |rows|, waiting) && x in WaitingFor(waiting, key) && x.entry.id in h.open.at
    ensures h.open.at[x.entry.id] == x.entry && Key(x.entry) == key
  {
    hide Key, DistinctHolds;
    var i :| 0 <= i < |waiting[key]| && waiting[key][i] == x;
    assert FromRow(h, rows, |rows|, waiting[key][i]);
  }

  lemma FewerIn(a: set<Id>, b: set<Id>)
    requires a <= b
    ensures |a| <= |b|
  {
    assert b == a + (b - a);
  }

  /** How a key's holds were shared out: the rows kept, each on the hold it names if that
      is open, and the holds left over. */
  ghost predicate Shared(h: Holding, rows: seq<Row>, key: HoldKey, kept: seq<Auth>, served: seq<Auth>,
                         rest: seq<Entry>) {
    && Ready(h, rows, key, kept) && |served| == |kept|
    && (forall i :: 0 <= i < |served| ==>
          && served[i].id == kept[i].id && Fits(h, served[i]) && Key(served[i].entry) == key
          && (kept[i].entry.id in h.open.at ==> served[i] == kept[i]))
    && DistinctHolds(served) && DistinctIds(rest) && Claimed(served) !! Ids(rest)
    && (forall e :: e in rest ==> e.id in h.open.at && h.open.at[e.id] == e && Key(e) == key)
    && (forall id :: id in h.open.at && Key(h.open.at[id]) == key ==> id in Claimed(served) + Ids(rest))
  }

  lemma {:induction false} AddedTwice(result: map<Id, Auth>, a: seq<Auth>, b: seq<Auth>)
    ensures Added(Added(result, a), b) == Added(result, a + b)
  {
    if |b| == 0 {
      assert a + b == a;
    } else {
      var ab := a + b;
      assert ab[..|ab| - 1] == a + b[..|b| - 1];
      AddedTwice(result, a, b[..|b| - 1]);
    }
  }

  /** The authorizations of a key: on kept rows, then made for the holds left over. */
  function Deal(served: seq<Auth>, rest: seq<Entry>): seq<Auth> { served + AuthsFor(rest) }

  lemma DealAt(h: Holding, rows: seq<Row>, key: HoldKey, kept: seq<Auth>, served: seq<Auth>, rest: seq<Entry>, i: nat)
    requires Shared(h, rows, key, kept, served, rest) && i < |Deal(served, rest)|
    ensures var x := Deal(served, rest)[i]; Fits(h, x) && Key(x.entry) == key && HasKey(h, rows, x.id, key)
    ensures i < |served| ==> Deal(served, rest)[i] == served[i]
    ensures i >= |served| ==> Deal(served, rest)[i] == AuthFor(rest[i - |served|])
  {
    hide Claimed, Ids, DistinctHolds, DistinctIds, Key;
    if i < |served| {
      assert FromRow(h, rows, |rows|, kept[i]) && Key(kept[i].entry) == key;
    } else {
      assert rest[i - |served|] in rest;
    }
  }

  lemma ServedNotLeft(h: Holding, rows: seq<Row>, key: HoldKey, kept: seq<Auth>, served: seq<Auth>, rest: seq<Entry>,
                      i: nat, j: nat)
    requires OwnIds(h, rows) && Shared(h, rows, key, kept, served, rest) && i < |served| && j < |rest|
    ensures served[i].id != rest[j].id && served[i].entry.id != rest[j].id
  {
    hide DistinctHolds, DistinctIds, Key;
    assert FromRow(h, rows, |rows|, kept[i]) && rest[j] in rest;
    assert rest[j].id in Ids(rest) && served[i].entry.id in Claimed(served);
  }

  /** They are new, different, and on different holds. */
  lemma DealIsNew(h: Holding, rows: seq<Row>, result: map<Id, Auth>, done: set<HoldKey>, key: HoldKey, kept: seq<Auth>,
                  served: seq<Auth>, rest: seq<Entry>)
    requires DistinctRows(rows) && OwnIds(h, rows) && Shared(h, rows, key, kept, served, rest)
    requires Sound(h, result, done) && Keyed(h, rows, result) && key in h.ambiguous && key !in done
    ensures var l := Deal(served, rest); DistinctAuths(l) && DistinctHolds(l)
    ensures var l := Deal(served, rest); forall i :: 0 <= i < |l| ==> l[i].id !in result
  {
    var l := Deal(served, rest);
    hide Key, FromRow, OwnIds, Claimed, Ids, HasKey, Deal, Fits;
    forall i, j | 0 <= i < j < |l| ensures l[i].id != l[j].id && l[i].entry.id != l[j].entry.id {
      DealAt(h, rows, key, kept, served, rest, i);
      DealAt(h, rows, key, kept, served, rest, j);
      if j < |served| {
        WaitersDiffer(h, rows, kept[i], kept[j]);
      } else if i < |served| {
        assert |l| == |served| + |rest| by { DealSize(served, rest); }
        ServedNotLeft(h, rows, key, kept, served, rest, i, j - |served|);
      } else {
        assert |l| == |served| + |rest| by { DealSize(served, rest); }
      }
    }
    forall i | 0 <= i < |l| ensures l[i].id !in result {
      DealAt(h, rows, key, kept, served, rest, i);
      if l[i].id in result { OneKey(h, rows, l[i].id, key, Key(result[l[i].id].entry)); }
    }
  }

  /** One of them goes by this id. */
  ghost predicate InDeal(served: seq<Auth>, rest: seq<Entry>, a: Id) {
    exists i :: 0 <= i < |Deal(served, rest)| && Deal(served, rest)[i].id == a
  }

  lemma DealSize(served: seq<Auth>, rest: seq<Entry>)
    ensures |Deal(served, rest)| == |served| + |rest|
  {
  }

  lemma DealKeyed(h: Holding, rows: seq<Row>, result: map<Id, Auth>, key: HoldKey, kept: seq<Auth>, served: seq<Auth>,
                  rest: seq<Entry>, all: map<Id, Auth>)
    requires Shared(h, rows, key, kept, served, rest) && Keyed(h, rows, result)
    requires forall a :: a in result ==> a in all && all[a] == result[a]
    requires var l := Deal(served, rest); forall i :: 0 <= i < |l| ==> l[i].id in all && all[l[i].id] == l[i]
    requires forall a :: a in all ==> a in result || InDeal(served, rest, a)
    ensures Keyed(h, rows, all)
  {
    hide Key, HasKey, Shared, Deal;
    forall a | a in all ensures HasKey(h, rows, a, Key(all[a].entry)) {
      if a !in result {
        var i :| 0 <= i < |Deal(served, rest)| && Deal(served, rest)[i].id == a;
        DealAt(h, rows, key, kept, served, rest, i);
      }
    }
  }

  lemma DealServes(h: Holding, rows: seq<Row>, result: map<Id, Auth>, key: HoldKey, kept: seq<Auth>, served: seq<Auth>,
                   rest: seq<Entry>, all: map<Id, Auth>, id: Id)
    requires Shared(h, rows, key, kept, served, rest) && id in h.open.at
    requires forall a :: a in result ==> a in all && all[a] == result[a]
    requires var l := Deal(served, rest); forall i :: 0 <= i < |l| ==> l[i].id in all && all[l[i].id] == l[i]
    requires forall a :: a in all ==> a in result || InDeal(served, rest, a)
    ensures Served(all, id) <==> Served(result, id) || Key(h.open.at[id]) == key
  {
    hide Key, HasKey;
    var l := Deal(served, rest);
    if Key(h.open.at[id]) == key {
      if id in Claimed(served) {
        var i :| 0 <= i < |served| && served[i].entry.id == id;
        assert l[i] == served[i];
        assert all[l[i].id].entry.id == id;
      } else {
        var i :| 0 <= i < |rest| && rest[i].id == id;
        assert l[|served| + i] == AuthFor(rest[i]);
        assert all[l[|served| + i].id].entry.id == id;
      }
    }
    if Served(result, id) {
      var a :| a in result && result[a].entry.id == id;
      assert all[a].entry.id == id;
    }
    hide Shared, Deal;
    if Served(all, id) && !Served(result, id) {
      var a :| a in all && all[a].entry.id == id;
      assert a !in result;
      var i :| 0 <= i < |l| && l[i].id == a;
      DealAt(h, rows, key, kept, served, rest, i);
    }
  }

  lemma DealKeepsOwn(h: Holding, rows: seq<Row>, waiting: map<HoldKey, seq<Auth>>, result: map<Id, Auth>,
                     done: set<HoldKey>, key: HoldKey, served: seq<Auth>, rest: seq<Entry>, all: map<Id, Auth>)
    requires h.Valid() && Waits(h, rows, |rows|, waiting) && AllAside(h, rows, |rows|, waiting)
    requires Shared(h, rows, key, Kept(h, waiting, key), served, rest) && OwnKept(h, rows, result, done)
    requires forall a :: a in result ==> a in all && all[a] == result[a]
    requires var l := Deal(served, rest); forall i :: 0 <= i < |l| ==> l[i].id in all && all[l[i].id] == l[i]
    ensures OwnKept(h, rows, all, done + {key})
  {
    hide Key, Awaits, Waits, Kept, Ready, Claimed, Ids, DistinctHolds, DistinctIds, Dict.Valid;
    var kept := Kept(h, waiting, key);
    forall j, hold | 0 <= j < |rows| && Awaits(h, rows, j, hold) && rows[j].entry in h.open.at
          && Key(hold) in done + {key}
      ensures rows[j].auth in all && all[rows[j].auth] == AuthOf(rows[j], hold)
    {
      if Key(hold) == key {
        var x := AuthOf(rows[j], hold);
        assert x in WaitingFor(waiting, key);
        NamesOpen(h, rows, j, hold);
        OpenIsKept(h, rows, waiting, key, x);
        var i :| 0 <= i < |kept| && kept[i] == x;
        assert served[i] == x && Deal(served, rest)[i] == served[i];
      }
    }
  }

  lemma NamesOpen(h: Holding, rows: seq<Row>, j: nat, hold: Entry)
    requires h.Valid() && j < |rows| && Awaits(h, rows, j, hold) && rows[j].entry in h.open.at
    ensures hold.id == rows[j].entry
  {
    hide Key;
  }

  /** One key further. */
  lemma KeyDealt(h: Holding, rows: seq<Row>, waiting: map<HoldKey, seq<Auth>>, result: map<Id, Auth>,
                 done: set<HoldKey>, key: HoldKey, served: seq<Auth>, rest: seq<Entry>, repairing: bool)
    requires h.Valid() && DistinctRows(rows) && OwnIds(h, rows) && key in h.ambiguous && key !in done
    requires Waits(h, rows, |rows|, waiting) && AllAside(h, rows, |rows|, waiting)
    requires Shared(h, rows, key, Kept(h, waiting, key), served, rest) && Dealt(h, rows, result, done, repairing)
    ensures Dealt(h, rows, Added(Added(result, served), AuthsFor(rest)), done + {key}, repairing)
  {
    hide Key, Awaits, Waits, Kept, DistinctRows, OwnIds, Added, Sound, Keyed, AllServed, OwnKept, AllAside, Shared,
          Deal,
         Deserves, Served;
    var l, kept := Deal(served, rest), Kept(h, waiting, key);
    var all := Added(result, l);
    AddedTwice(result, served, AuthsFor(rest));
    assert Added(Added(result, served), AuthsFor(rest)) == all by { DealIs(served, rest); }
    DealIsNew(h, rows, result, done, key, kept, served, rest);
    AddedParts(result, l);
    forall i | 0 <= i < |l| ensures Fits(h, l[i]) && Key(l[i].entry) == key {
      DealAt(h, rows, key, kept, served, rest, i);
    }
    AddedSound(h, result, done, key, l);
    DealKeyed(h, rows, result, key, kept, served, rest, all);
    DealKeepsOwn(h, rows, waiting, result, done, key, served, rest, all);
    StillServed(h, rows, result, all);
    forall id | id in h.open.at ensures Served(all, id) <==> Deserves(h, rows, id, done + {key}, repairing) {
      DealServes(h, rows, result, key, kept, served, rest, all, id);
      MoreDeserve(h, rows, id, done, key, repairing);
    }
  }

  lemma DealIs(served: seq<Auth>, rest: seq<Entry>)
    ensures Deal(served, rest) == served + AuthsFor(rest)
  {
  }

  lemma MoreDeserve(h: Holding, rows: seq<Row>, id: Id, done: set<HoldKey>, key: HoldKey, repairing: bool)
    requires id in h.open.at && key in h.ambiguous
    ensures Deserves(h, rows, id, done + {key}, repairing)
       <==> Deserves(h, rows, id, done, repairing) || Key(h.open.at[id]) == key
  {
    hide Key, StandsOn;
  }

  ghost predicate InStep(h: Holding, rows: seq<Row>, result: map<Id, Auth>, done: set<HoldKey>,
                         problems: seq<Problem>) {
    problems == [] && DistinctRows(rows) ==> Matched(h, result, done) && Origins(h, rows, result, done)
  }

  /** How many open holds a key has. */
  ghost function OpenOf(h: Holding, key: HoldKey): set<Id> { set id | id in h.open.at && Key(h.open.at[id]) == key }

  /** As many rows wait for the key as it has open holds. */
  ghost predicate Even(h: Holding, rows: seq<Row>, key: HoldKey) {
    |Waiters(h, rows, |rows|, key)| == |OpenOf(h, key)|
  }

  lemma OpenCount(h: Holding, key: HoldKey)
    requires h.Valid()
    ensures |HoldsOf(h.open.order, h.open.at, key)| == |OpenOf(h, key)|
  {
    var holds := HoldsOf(h.open.order, h.open.at, key);
    HoldsOfDistinct(h.open.order, h.open.at, key);
    hide HoldsOf, Key, DistinctIds;
    forall id ensures id in Ids(holds) <==> id in OpenOf(h, key) {
      if id in Ids(holds) {
        var i :| 0 <= i < |holds| && holds[i].id == id;
        assert holds[i] in holds;
      }
      if id in OpenOf(h, key) {
        assert id in h.open.order;
        assert h.open.at[id] in holds;
      }
    }
    assert Ids(holds) == OpenOf(h, key);
    IdsCount(holds);
  }

  lemma EvenIs(h: Holding, rows: seq<Row>, waiting: map<HoldKey, seq<Auth>>, key: HoldKey)
    requires h.Valid() && AllCounted(h, rows, |rows|, waiting)
    ensures Even(h, rows, key) <==> |WaitingFor(waiting, key)| == |HoldsOf(h.open.order, h.open.at, key)|
  {
    OpenCount(h, key);
    hide HoldsOf, Waiters, OpenOf;
  }

  ghost predicate EvenSoFar(h: Holding, rows: seq<Row>, keys: seq<HoldKey>, n: nat)
    requires n <= |keys|
  {
    forall i :: 0 <= i < n ==> Even(h, rows, keys[i])
  }

  lemma IsShared(h: Holding, rows: seq<Row>, waiting: map<HoldKey, seq<Auth>>, key: HoldKey, served: seq<Auth>,
                 rest: seq<Entry>)
    requires h.Valid() && Waits(h, rows, |rows|, waiting)
    requires var kept, holds := Kept(h, waiting, key), HoldsOf(h.open.order, h.open.at, key);
             && |served| == |kept| && (forall i :: 0 <= i < |served| ==> Rehomed(served[i], kept[i], holds))
             && DistinctHolds(served) && Claimed(served) !! Ids(rest) && Claimed(served) + Ids(rest) == Ids(holds)
             && (forall e :: e in rest ==> e in holds) && DistinctIds(rest)
             && (forall i :: 0 <= i < |kept| && kept[i].entry.id in Ids(holds) ==> served[i] == kept[i])
    ensures Shared(h, rows, key, Kept(h, waiting, key), served, rest)
  {
    var kept, holds := Kept(h, waiting, key), HoldsOf(h.open.order, h.open.at, key);
    KeptReady(h, rows, waiting, key);
    HoldsReady(h, rows, key, kept);
    hide Kept, HoldsOf, Waits, Key, DistinctHolds, DistinctIds, Claimed, Ids, Rehomed;
    ServedReady(h, rows, key, kept, served, holds);
    forall i | 0 <= i < |served| && kept[i].entry.id in h.open.at ensures served[i] == kept[i] {
      assert FromRow(h, rows, |rows|, kept[i]) && Key(kept[i].entry) == key;
    }
  }

  /** Serve every ambiguous key, in the order given; report those with more rows waiting
      than holds open, or fewer. */
  method ServeKeys(h: Holding, rows: seq<Row>, waiting: map<HoldKey, seq<Auth>>, keys: seq<HoldKey>,
                   first: map<Id, Auth>, found: seq<Problem>, ghost repairing: bool)
    returns (result: map<Id, Auth>, problems: seq<Problem>)
    requires h.Valid() && Waits(h, rows, |rows|, waiting) && Distinct(keys) && Done(keys) == h.ambiguous
    requires AllCounted(h, rows, |rows|, waiting) && AllAside(h, rows, |rows|, waiting)
    requires InStep(h, rows, first, {}, found)
    requires DistinctRows(rows) && OwnIds(h, rows) ==> Dealt(h, rows, first, {}, repairing)
    ensures InStep(h, rows, result, h.ambiguous, problems)
    ensures problems == [] <==> found == [] && EvenSoFar(h, rows, keys, |keys|)
    ensures DistinctRows(rows) && OwnIds(h, rows) ==> Dealt(h, rows, result, h.ambiguous, repairing)
  {
    hide Waits, Matched, Origins, InStep, Kept, HoldsOf, Added, DistinctHolds, DistinctIds, Claimed, Ids, Rehomed,
         Ready, Dealt, Shared, DistinctRows, OwnIds, AllCounted, AllAside, Even;
    result, problems := first, found;
    assert Done(keys[..0]) == {};
    for i := 0 to |keys|
      invariant InStep(h, rows, result, Done(keys[..i]), problems)
      invariant problems == [] <==> found == [] && EvenSoFar(h, rows, keys, i)
      invariant DistinctRows(rows) && OwnIds(h, rows) ==> Dealt(h, rows, result, Done(keys[..i]), repairing)
    {
      var key := keys[i];
      var holds := HoldsOf(h.open.order, h.open.at, key);
      var kept := Kept(h, waiting, key);
      KeptReady(h, rows, waiting, key);
      HoldsReady(h, rows, key, kept);
      ReadyDistinct(h, rows, key, kept);
      var served, rest := ServeKey(kept, holds);
      ServedReady(h, rows, key, kept, served, holds);
      IsShared(h, rows, waiting, key, served, rest);
      DoneMore(keys, i);
      EvenIs(h, rows, waiting, key);
      ghost var before, was := result, problems;
      if |WaitingFor(waiting, key)| != |holds| { problems := problems + [WrongCount]; }
      result := Added(Added(result, served), AuthsFor(rest));
      StepOn(h, rows, before, Done(keys[..i]), was, key, kept, served, rest, |WaitingFor(waiting, key)| == |holds|);
      if DistinctRows(rows) && OwnIds(h, rows) {
        KeyDealt(h, rows, waiting, before, Done(keys[..i]), key, served, rest, repairing);
      }
    }
    assert keys[..|keys|] == keys;
  }

  lemma ReadyDistinct(h: Holding, rows: seq<Row>, key: HoldKey, kept: seq<Auth>)
    requires Ready(h, rows, key, kept)
    ensures DistinctHolds(kept)
  {
  }

  lemma DoneMore(keys: seq<HoldKey>, i: nat)
    requires Distinct(keys) && i < |keys|
    ensures Done(keys[..i + 1]) == Done(keys[..i]) + {keys[i]} && keys[i] !in Done(keys[..i]) && keys[i] in Done(keys)
  {
  }

  /** One key further: served in full if its rows and holds were as many. */
  lemma StepOn(h: Holding, rows: seq<Row>, result: map<Id, Auth>, done: set<HoldKey>, problems: seq<Problem>,
               key: HoldKey,
               kept: seq<Auth>, served: seq<Auth>, rest: seq<Entry>, even: bool)
    requires InStep(h, rows, result, done, problems) && key in h.ambiguous && key !in done
    requires Ready(h, rows, key, kept) && DistinctHolds(served) && |served| == |kept|
    requires forall i :: 0 <= i < |served| ==>
               served[i].id == kept[i].id && Fits(h, served[i])
               && Key(served[i].entry) == key
    requires forall id :: id in h.open.at && Key(h.open.at[id]) == key ==> id in Claimed(served) + Ids(rest)
    requires even ==> rest == []
    ensures InStep(h, rows, Added(Added(result, served), AuthsFor(rest)), done + {key}, if even then problems
              else problems + [WrongCount])
  {
    hide Matched, Origins, Ready, Fits, Claimed, DistinctHolds, Key;
    if even && problems == [] && DistinctRows(rows) {
      assert Ids(rest) == {};
      KeyMatched(h, rows, result, done, key, kept, served);
      assert AuthsFor(rest) == [];
    }
  }

  /** Rows and chain agree: every row awaits or stands, every open hold of a settled key
      is named by a row, and each ambiguous key has as many rows waiting as open holds. */
  ghost predicate Consistent(h: Holding, rows: seq<Row>) {
    && (forall j :: 0 <= j < |rows| ==> Settled(h, rows, j)) && EveryHoldNamed(h, rows)
    && (forall key :: key in h.ambiguous ==> Even(h, rows, key))
  }

  lemma EvenAll(h: Holding, rows: seq<Row>, keys: seq<HoldKey>)
    requires Done(keys) == h.ambiguous
    ensures EvenSoFar(h, rows, keys, |keys|) <==> forall key :: key in h.ambiguous ==> Even(h, rows, key)
  {
    hide Even;
    forall i | 0 <= i < |keys| ensures keys[i] in h.ambiguous { assert keys[i] in Done(keys); }
  }

  /** A problem is reported if and only if rows and chain disagree.  For rows with distinct
      authorization ids: with no problem, what is served is exactly one authorization for
      each open hold, of its scope and amount, also where unnamed releases made holds
      interchangeable; and, problems or not, if no authorization goes by the id of an open
      hold it does not name, exactly the holds that deserve it are served, all of them when
      repairing. */
  method Reconcile(rows: seq<Row>, h: Holding, keys: seq<HoldKey>, repairing: bool) returns (result: map<Id, Auth>,
                   problems: seq<Problem>)
    requires h.Valid() && Distinct(keys) && Done(keys) == h.ambiguous
    ensures problems == [] <==> Consistent(h, rows)
    ensures problems == [] && DistinctRows(rows) ==> Bijection(h, result)
    ensures DistinctRows(rows) && OwnIds(h, rows) ==> Dealt(h, rows, result, h.ambiguous, repairing)
    ensures DistinctRows(rows) && OwnIds(h, rows) && repairing ==> Bijection(h, result)
  {
    hide Waits, Serves, Accounted, Matched, Origins, Bijection, DistinctRows, OwnIds, Dealt, Extended, AllCounted,
          AllAside,
         AllServed, OnlyStanding, OnlyAwaiting, EveryHoldNamed, Settled, EvenSoFar, Even;
    var first, waiting, named, found := MatchRows(rows, h);
    var all, more := CheckServed(h, named, rows, first, repairing);
    ServedOrigins(h, rows, first);
    if DistinctRows(rows) && OwnIds(h, rows) { FirstDealt(h, rows, first, all, repairing); }
    GrewFrom(found, more);
    result, problems := ServeKeys(h, rows, waiting, keys, all, found + more, repairing);
    EvenAll(h, rows, keys);
    if problems == [] && DistinctRows(rows) { MatchedAll(h, result); }
    if DistinctRows(rows) && OwnIds(h, rows) && repairing { DealtAll(h, rows, result); }
  }

  lemma DealtAll(h: Holding, rows: seq<Row>, result: map<Id, Auth>)
    requires Dealt(h, rows, result, h.ambiguous, true)
    ensures Bijection(h, result)
  {
    hide Key, Fits, Keyed, AllServed, OwnKept;
  }

  lemma GrewFrom(found: seq<Problem>, more: seq<Problem>)
    ensures found + more == [] <==> found == [] && more == []
  {
  }
}
