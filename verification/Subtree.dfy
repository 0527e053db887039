/**
 Delegation conserves money subtree by subtree: when every transfer is a delegation to
 a new child or a return to the parent, a scope and everything below it are together
 worth exactly what the scope was allotted, less what it gave back.
 */
module Subtrees {
  import opened Vocabulary
  import opened Dicts
  import opened Engine
  import opened Replays
  import opened Laws
  import opened Trees

  /** A scope and everything below it. */
  ghost function Members(t: Tree, s: Scope): set<Scope>
    requires TreeKept(t)
  {
    set x | x in t.nodes.at && Under(t, x, s)
  }

  /** What the scopes of a set were granted, over a list of scopes. */
  ghost function Total(order: seq<Scope>, inside: set<Scope>, entries: seq<Entry>): int {
    if |order| == 0 then 0
    else
      var k := order[|order| - 1];
      Total(order[..|order| - 1], inside, entries) + if k in inside then Granted(entries, k) else 0
  }

  /** What a scope gave back to its parent. */
  function GaveBack(e: Entry, s: Scope): int {
    if e.kind.Release? && e.direction.Debit? && e.scope == s then e.amount else 0
  }

  function Returned(entries: seq<Entry>, s: Scope): int {
    if |entries| == 0 then 0 else Returned(entries[..|entries| - 1], s) + GaveBack(entries[|entries| - 1], s)
  }

  ghost predicate LawAt(t: Tree, entries: seq<Entry>, s: Scope)
    requires TreeKept(t) && s in t.nodes.at
  {
    Total(t.nodes.order, Members(t, s), entries) == t.nodes.at[s].allotted - Returned(entries, s)
  }

  ghost predicate SubtreeLaw(t: Tree, entries: seq<Entry>) {
    && TreeKept(t)
    && (forall s :: s in t.nodes.at ==> LawAt(t, entries, s))
    && (forall s :: s !in t.nodes.at ==> Granted(entries, s) == 0 && Returned(entries, s) == 0)
  }

  // -- sums over a list of scopes -------------------------------------------------------

  lemma AppendOne(entries: seq<Entry>, e: Entry, s: Scope)
    ensures Granted(entries + [e], s) == Granted(entries, s) + Grant(e, s)
    ensures Returned(entries + [e], s) == Returned(entries, s) + GaveBack(e, s)
  {
    var all := entries + [e];
    assert all[..|all| - 1] == entries;
  }

  /** One entry moves one scope's grant. */
  lemma {:induction false} TotalShift(order: seq<Scope>, inside: set<Scope>, entries: seq<Entry>, e: Entry)
    requires Distinct(order)
    ensures Total(order, inside, entries + [e])
         == Total(order, inside, entries) + if e.scope in order && e.scope in inside then Grant(e, e.scope) else 0
  {
    if |order| > 0 {
      var n := |order| - 1;
      var k := order[n];
      TotalShift(order[..n], inside, entries, e);
      AppendOne(entries, e, k);
      assert k !in order[..n];
      assert e.scope in order <==> e.scope in order[..n] || e.scope == k;
    }
  }

  lemma {:induction false} TotalFrame(order: seq<Scope>, a: set<Scope>, b: set<Scope>, entries: seq<Entry>)
    requires forall x :: x in order ==> (x in a <==> x in b)
    ensures Total(order, a, entries) == Total(order, b, entries)
  {
    if |order| > 0 {
      assert order[|order| - 1] in order;
      TotalFrame(order[..|order| - 1], a, b, entries);
    }
  }

  lemma {:induction false} TotalNothing(order: seq<Scope>, inside: set<Scope>, entries: seq<Entry>)
    requires forall x :: x in order && x in inside ==> Granted(entries, x) == 0
    ensures Total(order, inside, entries) == 0
  {
    if |order| > 0 {
      assert order[|order| - 1] in order;
      TotalNothing(order[..|order| - 1], inside, entries);
    }
  }

  // -- who is below whom ------------------------------------------------------------------

  lemma {:induction false} UnderIn(t: Tree, s: Scope, a: Scope)
    requires TreeKept(t) && s in t.nodes.at && Under(t, s, a)
    ensures a in t.nodes.at && t.nodes.at[a].depth <= t.nodes.at[s].depth
    decreases t.nodes.at[s].depth
  {
    assert NodeKept(t, s);
    if s != a { UnderIn(t, t.nodes.at[s].parent.value, a); }
  }

  /** The old part of a tree is below the same scopes in any later tree. */
  lemma MembersLater(t: Tree, u: Tree, s: Scope)
    requires TreeKept(t) && TreeKept(u) && Later(t, u)
    ensures forall x :: x in t.nodes.at ==> (x in Members(u, s) <==> x in Members(t, s))
    ensures s !in t.nodes.at ==> Members(t, s) == {}
  {
    forall x | x in t.nodes.at ensures x in Members(u, s) <==> x in Members(t, s) {
      UnderStays(t, u, x, s);
    }
    forall x | x in t.nodes.at && Under(t, x, s) ensures s in t.nodes.at {
      UnderIn(t, x, s);
    }
  }

  /** Below a scope's parent is below the scope itself, but for the scope. */
  lemma ParentUnder(t: Tree, k: Scope, s: Scope)
    requires TreeKept(t) && k in t.nodes.at && t.nodes.at[k].parent.Some?
    ensures t.nodes.at[k].parent.value in t.nodes.at
    ensures k in Members(t, k) && t.nodes.at[k].parent.value !in Members(t, k)
    ensures s != k ==> (k in Members(t, s) <==> t.nodes.at[k].parent.value in Members(t, s))
  {
    assert NodeKept(t, k);
    var p := t.nodes.at[k].parent.value;
    if Under(t, p, k) { UnderIn(t, p, k); }
  }

  lemma RootUnder(t: Tree, r: Scope, s: Scope)
    requires TreeKept(t) && r in t.nodes.at && t.nodes.at[r].parent.None?
    ensures r in Members(t, s) <==> r == s
  {
  }

  // -- the four kinds of change ---------------------------------------------------------------

  /** An entry that grants nothing, over a tree with the same scopes. */
  lemma LawStays(t: Tree, u: Tree, entries: seq<Entry>, e: Entry)
    requires SubtreeLaw(t, entries) && TreeKept(u) && u.nodes == t.nodes
    requires !e.kind.Funding? && !Balanced(e.kind)
    ensures SubtreeLaw(u, entries + [e])
  {
    hide TreeKept, Members, Total, Under;
    forall s ensures Granted(entries + [e], s) == Granted(entries, s)
          && Returned(entries + [e], s) == Returned(entries, s) {
      AppendOne(entries, e, s);
    }
    forall s | s in u.nodes.at ensures LawAt(u, entries + [e], s) {
      assert LawAt(t, entries, s);
      SameMembers(t, u, s);
      assert Distinct(t.nodes.order) by { NodesDistinct(t); }
      TotalShift(t.nodes.order, Members(t, s), entries, e);
    }
  }

  lemma NodesDistinct(t: Tree)
    requires TreeKept(t)
    ensures Distinct(t.nodes.order) && forall s :: s in t.nodes.order <==> s in t.nodes.at
  {
  }

  lemma SameMembers(t: Tree, u: Tree, s: Scope)
    requires TreeKept(t) && TreeKept(u) && u.nodes == t.nodes
    ensures Members(u, s) == Members(t, s)
  {
    assert Later(t, u) by { LaterSame(t, u); }
    MembersLater(t, u, s);
  }

  lemma LaterSame(t: Tree, u: Tree)
    requires u.nodes == t.nodes
    ensures Later(t, u)
  {
  }

  predicate Funds(e: Entry) { e.kind.Funding? && e.direction.Credit? && e.amount > 0 }

  lemma FundSums(entries: seq<Entry>, e: Entry, s: Scope)
    requires Funds(e)
    ensures Granted(entries + [e], s) == Granted(entries, s) + (if s == e.scope then e.amount else 0)
    ensures Returned(entries + [e], s) == Returned(entries, s)
  {
    AppendOne(entries, e, s);
  }

  lemma FundTotals(t: Tree, u: Tree, entries: seq<Entry>, e: Entry, s: Scope)
    requires TreeKept(t) && TreeKept(u) && Later(t, u) && Funds(e)
    ensures Total(t.nodes.order, Members(u, s), entries + [e])
         == Total(t.nodes.order, Members(t, s), entries) + if e.scope in t.nodes.at
               && e.scope in Members(t, s) then e.amount else 0
  {
    NodesDistinct(t);
    hide TreeKept, Members, Total, Under, Later;
    MembersLater(t, u, s);
    TotalFrame(t.nodes.order, Members(t, s), Members(u, s), entries);
    TotalShift(t.nodes.order, Members(u, s), entries, e);
  }

  /** What funding does to the tree. */
  lemma FundParts(t: Tree, u: Tree, e: Entry)
    requires TreeKept(t) && Funds(e) && Fund(t, e) == Ok(u)
    ensures TreeKept(u) && Later(t, u)
    ensures u.nodes.at.Keys == t.nodes.at.Keys + {e.scope} && u.nodes.at[e.scope].parent.None?
    ensures e.scope in t.nodes.at ==> t.nodes.at[e.scope].parent.None?
    ensures u.nodes.order == if e.scope in t.nodes.at then t.nodes.order else t.nodes.order + [e.scope]
    ensures forall s :: s in t.nodes.at && s != e.scope ==> u.nodes.at[s].allotted == t.nodes.at[s].allotted
    ensures u.nodes.at[e.scope].allotted == e.amount + if e.scope in t.nodes.at then t.nodes.at[e.scope].allotted else 0
  {
    hide TreeKept, Later;
    FundKeeps(t, e);
  }

  /** Topping up a root. */
  lemma LawFund(t: Tree, u: Tree, entries: seq<Entry>, e: Entry)
    requires SubtreeLaw(t, entries) && Funds(e) && Fund(t, e) == Ok(u) && e.scope in t.nodes.at
    ensures SubtreeLaw(u, entries + [e])
  {
    hide Fund, TreeKept, Members, Total, Under, Later, Granted, Returned;
    FundParts(t, u, e);
    forall s | s in u.nodes.at ensures LawAt(u, entries + [e], s) {
      assert LawAt(t, entries, s);
      RootUnder(t, e.scope, s);
      FundTotals(t, u, entries, e, s);
      FundSums(entries, e, s);
    }
    forall s | s !in u.nodes.at ensures Granted(entries + [e], s) == 0
          && Returned(entries + [e], s) == 0 { FundSums(entries, e, s); }
  }

  /** Opening a root. */
  lemma LawOpen(t: Tree, u: Tree, entries: seq<Entry>, e: Entry)
    requires SubtreeLaw(t, entries) && Funds(e) && Fund(t, e) == Ok(u) && e.scope !in t.nodes.at
    ensures SubtreeLaw(u, entries + [e])
  {
    hide Fund, TreeKept, Members, Total, Under, Later, Granted, Returned;
    FundParts(t, u, e);
    var r, all := e.scope, entries + [e];
    FundSums(entries, e, r);
    forall s | s in u.nodes.at ensures LawAt(u, all, s) {
      RootUnder(u, r, s);
      FundTotals(t, u, entries, e, s);
      FundSums(entries, e, s);
      TotalGrows(t.nodes.order, r, Members(u, s), all);
      if s == r {
        MembersLater(t, u, s);
        TotalNothing(t.nodes.order, Members(t, s), entries);
      } else {
        assert LawAt(t, entries, s);
      }
    }
    forall s | s !in u.nodes.at ensures Granted(all, s) == 0 && Returned(all, s) == 0 { FundSums(entries, e, s); }
  }

  lemma TotalGrows(order: seq<Scope>, k: Scope, inside: set<Scope>, entries: seq<Entry>)
    ensures Total(order + [k], inside, entries) == Total(order, inside, entries) + if k in inside
              then Granted(entries, k) else 0
  {
    var all := order + [k];
    assert all[..|all| - 1] == order;
  }

  /** A delegation: the parent's debit, then the new child's credit. */
  ghost predicate Delegation(d: Entry, e: Entry) {
    && d.kind.Allocation? && d.direction.Debit? && e.kind.Allocation? && e.direction.Credit?
    && e.counterparty == Some(d.scope) && d.counterparty == Some(e.scope) && d.amount == e.amount && e.scope != d.scope
  }

  lemma DelegateTotals(t: Tree, u: Tree, entries: seq<Entry>, d: Entry, e: Entry, s: Scope)
    requires TreeKept(t) && TreeKept(u) && Later(t, u) && Delegation(d, e) && d.scope in t.nodes.at
               && e.scope !in t.nodes.at
    ensures Total(t.nodes.order, Members(u, s), entries + [d] + [e])
         == Total(t.nodes.order, Members(t, s), entries) - if d.scope in Members(u, s) then d.amount else 0
  {
    NodesDistinct(t);
    hide TreeKept, Members, Total, Under, Later;
    MembersLater(t, u, s);
    TotalFrame(t.nodes.order, Members(t, s), Members(u, s), entries);
    TotalShift(t.nodes.order, Members(u, s), entries, d);
    TotalShift(t.nodes.order, Members(u, s), entries + [d], e);
  }

  /** What a delegation does to the tree. */
  lemma DelegateParts(t: Tree, u: Tree, d: Entry, e: Entry)
    requires TreeKept(t) && Delegation(d, e) && Allocate(t, d) == Ok(t) && Allocate(t, e) == Ok(u)
    ensures TreeKept(u) && Later(t, u) && d.scope in t.nodes.at && e.scope !in t.nodes.at
    ensures u.nodes.at.Keys == t.nodes.at.Keys + {e.scope} && u.nodes.order == t.nodes.order + [e.scope]
    ensures u.nodes.at[e.scope].parent == Some(d.scope) && u.nodes.at[e.scope].allotted == e.amount
    ensures forall s :: s in t.nodes.at ==> u.nodes.at[s].allotted == t.nodes.at[s].allotted
  {
    hide TreeKept, Later;
    AllocateKeeps(t, e);
  }

  lemma LawDelegate(t: Tree, u: Tree, entries: seq<Entry>, d: Entry, e: Entry)
    requires SubtreeLaw(t, entries) && Delegation(d, e) && Allocate(t, d) == Ok(t) && Allocate(t, e) == Ok(u)
    ensures SubtreeLaw(u, entries + [d] + [e])
  {
    hide Allocate, TreeKept, Members, Total, Under, Later, Granted, Returned;
    var k, all := e.scope, entries + [d] + [e];
    DelegateParts(t, u, d, e);
    DelegateSums(entries, d, e, k);
    forall s | s in u.nodes.at ensures LawAt(u, all, s) {
      ParentUnder(u, k, s);
      DelegateTotals(t, u, entries, d, e, s);
      DelegateSums(entries, d, e, s);
      TotalGrows(t.nodes.order, k, Members(u, s), all);
      if s == k {
        MembersLater(t, u, s);
        TotalNothing(t.nodes.order, Members(t, s), entries);
      } else {
        assert LawAt(t, entries, s);
      }
    }
    forall s | s !in u.nodes.at ensures Granted(all, s) == 0
          && Returned(all, s) == 0 { DelegateSums(entries, d, e, s); }
  }

  lemma DelegateSums(entries: seq<Entry>, d: Entry, e: Entry, s: Scope)
    requires Delegation(d, e)
    ensures var all := entries + [d] + [e];
            && Granted(all, s) == Granted(entries, s) + (if s == e.scope then e.amount
                  else if s == d.scope then -e.amount else 0)
            && Returned(all, s) == Returned(entries, s)
  {
    AppendOne(entries, d, s);
    AppendOne(entries + [d], e, s);
  }

  /** A return: the child's debit, then its parent's credit. */
  ghost predicate Return(d: Entry, e: Entry) {
    && d.kind.Release? && d.direction.Debit? && e.kind.Release? && e.direction.Credit?
    && e.counterparty == Some(d.scope) && d.counterparty == Some(e.scope) && d.amount == e.amount
  }

  lemma LawReturn(t: Tree, entries: seq<Entry>, d: Entry, e: Entry)
    requires SubtreeLaw(t, entries) && Return(d, e) && ReleaseBetween(t, d) == Ok(t)
    ensures SubtreeLaw(t, entries + [d] + [e])
  {
    hide TreeKept, Members, Total, Under;
    var k, p, all := d.scope, e.scope, entries + [d] + [e];
    assert t.nodes.at[k].parent == Some(p);
    NodesDistinct(t);
    forall s | s in t.nodes.at ensures LawAt(t, all, s) {
      assert LawAt(t, entries, s);
      ParentUnder(t, k, s);
      TotalShift(t.nodes.order, Members(t, s), entries, d);
      TotalShift(t.nodes.order, Members(t, s), entries + [d], e);
      AppendOne(entries, d, s);
      AppendOne(entries + [d], e, s);
    }
    ParentUnder(t, k, k);
    forall s | s !in t.nodes.at ensures Granted(all, s) == 0 && Returned(all, s) == 0 {
      AppendOne(entries, d, s);
      AppendOne(entries + [d], e, s);
    }
  }
}
