/**
 The delegation tree every accepted chain builds: parents registered before their
 children, depths that fall by one towards a root, children listed under their
 parent, and a past that never changes.
 */
module Trees {
  import opened Vocabulary
  import opened Dicts
  import opened Engine
  import opened Replays

  ghost predicate NodeKept(t: Tree, s: Scope)
    requires s in t.nodes.at
  {
    var n := t.nodes.at[s];
    && n.scope == s
    && (n.parent.None? ==> n.depth == 0 && s in t.roots)
    && (n.parent.Some? ==>
          && n.parent.value in t.nodes.at
          && n.depth == t.nodes.at[n.parent.value].depth + 1
          && s in t.nodes.at[n.parent.value].children)
    && (forall c :: c in n.children ==> c in t.nodes.at && t.nodes.at[c].parent == Some(s))
  }

  ghost predicate TreeKept(t: Tree) {
    && t.nodes.Valid()
    && (forall s :: s in t.nodes.at ==> NodeKept(t, s))
    && (forall s :: s in t.roots ==> s in t.nodes.at && t.nodes.at[s].parent.None?)
    && (forall s :: s in t.tripped ==> s in t.nodes.at)
  }

  /** A later tree: every scope is still there, under the same parent, at the same
      depth, with at least the allotment and the children it had. */
  ghost predicate Later(t: Tree, u: Tree) {
    forall s :: s in t.nodes.at ==>
      && s in u.nodes.at
      && u.nodes.at[s].parent == t.nodes.at[s].parent
      && u.nodes.at[s].depth == t.nodes.at[s].depth
      && u.nodes.at[s].allotted >= t.nodes.at[s].allotted
      && t.nodes.at[s].children <= u.nodes.at[s].children
  }

  /** A scope stays in order in a later tree whose new children are in order. */
  lemma NodeStays(t: Tree, u: Tree, s: Scope)
    requires s in t.nodes.at && NodeKept(t, s) && Later(t, u)
    requires u.nodes.at[s].scope == s && (s in t.roots ==> s in u.roots)
    requires forall c :: c in u.nodes.at[s].children && c !in t.nodes.at[s].children ==>
               c in u.nodes.at && u.nodes.at[c].parent == Some(s)
    ensures NodeKept(u, s)
  {
    var n := t.nodes.at[s];
    if n.parent.Some? {
      assert t.nodes.at[n.parent.value].children <= u.nodes.at[n.parent.value].children;
    }
  }

  lemma FundKeeps(t: Tree, e: Entry)
    requires TreeKept(t) && e.amount > 0 && Fund(t, e).Ok?
    ensures TreeKept(Fund(t, e).value) && Later(t, Fund(t, e).value)
  {
    hide NodeKept;
    var u := Fund(t, e).value;
    PutValid(t.nodes, e.scope, u.nodes.at[e.scope]);
    assert Later(t, u);
    forall s | s in u.nodes.at ensures NodeKept(u, s) {
      if s in t.nodes.at {
        assert NodeKept(t, s);
        NodeScope(t, s);
        NodeStays(t, u, s);
      } else {
        RootKept(u, s);
      }
    }
  }

  lemma NodeScope(t: Tree, s: Scope)
    requires s in t.nodes.at && NodeKept(t, s)
    ensures t.nodes.at[s].scope == s
  {
  }

  lemma RootKept(u: Tree, s: Scope)
    requires s in u.nodes.at && s in u.roots
    requires var n := u.nodes.at[s]; n.scope == s && n.parent.None? && n.depth == 0 && n.children == []
    ensures NodeKept(u, s)
  {
  }

  lemma ChildKept(u: Tree, s: Scope, p: Scope)
    requires s in u.nodes.at && p in u.nodes.at && s in u.nodes.at[p].children
    requires var n := u.nodes.at[s];
             n.scope == s && n.parent == Some(p) && n.depth == u.nodes.at[p].depth + 1 && n.children == []
    ensures NodeKept(u, s)
  {
  }

  lemma AllocateKeeps(t: Tree, e: Entry)
    requires TreeKept(t) && Allocate(t, e).Ok?
    ensures TreeKept(Allocate(t, e).value) && Later(t, Allocate(t, e).value)
  {
    hide NodeKept;
    var u := Allocate(t, e).value;
    if !e.direction.Debit? {
      var p := Other(e);
      PutValid(t.nodes, e.scope, u.nodes.at[e.scope]);
      PutValid(t.nodes.Put(e.scope, u.nodes.at[e.scope]), p, u.nodes.at[p]);
      assert Later(t, u);
      forall s | s in u.nodes.at ensures NodeKept(u, s) {
        if s in t.nodes.at {
          assert NodeKept(t, s);
          NodeScope(t, s);
          NodeStays(t, u, s);
        } else {
          ChildKept(u, s, p);
        }
      }
    }
  }

  lemma GovernKeeps(t: Tree, e: Entry)
    requires TreeKept(t) && Govern(t, e).Ok? && (e.kind.Funding? ==> e.amount > 0)
    ensures TreeKept(Govern(t, e).value) && Later(t, Govern(t, e).value)
  {
    hide Fund, Allocate, NodeKept;
    match e.kind
    case Funding => FundKeeps(t, e);
    case Allocation => AllocateKeeps(t, e);
    case CircuitTripped | CircuitReset =>
      var u := Govern(t, e).value;
      forall s | s in u.nodes.at ensures NodeKept(u, s) {
        assert NodeKept(t, s);
        SameNodes(t, u, s);
      }
    case _ =>
  }

  lemma SameNodes(t: Tree, u: Tree, s: Scope)
    requires t.nodes == u.nodes && t.roots == u.roots && s in t.nodes.at && NodeKept(t, s)
    ensures NodeKept(u, s)
  {
  }

  /** What a step does to the tree is what its entry does. */
  lemma StepTree(env: Env, mode: Mode, v: View, e: Entry)
    requires Step(env, mode, v, e).Ok?
    ensures Govern(v.c.tree, e) == Ok(Step(env, mode, v, e).value.c.tree)
    ensures !ZeroValue(e.kind) ==> e.amount > 0
  {
    hide LinkRule, VersionRule, TextRule, Begin, Booking, SealRule, Govern, Advance, AddTotals;
  }

  /** Every accepted chain builds a well-formed tree. */
  lemma {:induction false} EveryTreeIsKept(env: Env, mode: Mode, unit: Unit, entries: seq<Entry>)
    requires Steps(env, mode, Over(EmptyChain(unit)), entries).Ok?
    ensures TreeKept(Steps(env, mode, Over(EmptyChain(unit)), entries).value.c.tree)
  {
    hide Step;
    if |entries| > 0 {
      var init, last := entries[..|entries| - 1], entries[|entries| - 1];
      EveryTreeIsKept(env, mode, unit, init);
      var v := Steps(env, mode, Over(EmptyChain(unit)), init).value;
      StepTree(env, mode, v, last);
      GovernKeeps(v.c.tree, last);
    }
  }

  // -- ancestors -----------------------------------------------------------------

  /** Whether `a` is `s` or an ancestor of it: the walk up the parents. */
  ghost predicate Under(t: Tree, s: Scope, a: Scope)
    requires TreeKept(t) && s in t.nodes.at
    decreases t.nodes.at[s].depth
  {
    s == a || (NodeKept(t, s) && t.nodes.at[s].parent.Some? && Under(t, t.nodes.at[s].parent.value, a))
  }

  /** Being under a scope does not depend on what was added to the tree later. */
  lemma {:induction false} UnderStays(t: Tree, u: Tree, s: Scope, a: Scope)
    requires TreeKept(t) && TreeKept(u) && Later(t, u) && s in t.nodes.at
    ensures Under(t, s, a) == Under(u, s, a)
    decreases t.nodes.at[s].depth
  {
    assert NodeKept(t, s) && NodeKept(u, s);
    if t.nodes.at[s].parent.Some? {
      UnderStays(t, u, t.nodes.at[s].parent.value, a);
    }
  }

  /** Walk up from a scope until a tripped one or a root: the depth falls at every step. */
  method HaltedBy(t: Tree, scope: Scope) returns (r: Option<Scope>)
    requires TreeKept(t) && scope in t.nodes.at
    ensures r.Some? ==> r.value in t.tripped && Under(t, scope, r.value)
    ensures r.None? ==> forall a :: a in t.tripped ==> !Under(t, scope, a)
  {
    var cursor := scope;
    while true
      invariant cursor in t.nodes.at && Under(t, scope, cursor)
      invariant forall a :: Under(t, scope, a) && a in t.tripped ==> Under(t, cursor, a)
      decreases t.nodes.at[cursor].depth
    {
      if cursor in t.tripped { return Some(cursor); }
      assert NodeKept(t, cursor);
      var parent := t.nodes.at[cursor].parent;
      if parent.None? { return None; }
      UnderParent(t, scope, cursor);
      cursor := parent.value;
    }
  }

  lemma {:induction false} UnderParent(t: Tree, s: Scope, a: Scope)
    requires TreeKept(t) && s in t.nodes.at && a in t.nodes.at && Under(t, s, a)
    requires t.nodes.at[a].parent.Some?
    ensures Under(t, s, t.nodes.at[a].parent.value)
    decreases t.nodes.at[s].depth
  {
    assert NodeKept(t, s) && NodeKept(t, a);
    if s != a {
      UnderParent(t, t.nodes.at[s].parent.value, a);
    }
  }
}
