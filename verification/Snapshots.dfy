/**
 Snapshots: a state written as a document of plain lists and maps, and read back so that
 nothing but a state's own document is accepted.
 */
module Snapshots {
  import opened Vocabulary
  import opened Dicts
  import opened Engine
  import opened Replays
  import opened Laws
  import opened Trees
  import Merkle

  /** A snapshot's fields.  Open holds and scopes are lists in their order; how
      many holds a scope has and what refunds were counted are not in it. */
  datatype Document = Document(
    balances: map<Scope, int>, spent: map<Scope, int>, refunded: map<Scope, int>, totals: Totals,
    holds: seq<Entry>, ambiguous: set<HoldKey>, nodes: seq<Node>, roots: seq<Scope>, tripped: map<Scope, Trip>,
    tip: Tip, unit: Unit)

  /** Two different documents with one digest. */
  predicate DigestsClash(digest: Document -> Hash, d: Document, e: Document) { d != e && digest(d) == digest(e) }

  function Values<K(!new), V>(order: seq<K>, at: map<K, V>): (r: seq<V>)
    requires forall k :: k in order ==> k in at
    ensures |r| == |order|
  {
    seq(|order|, i requires 0 <= i < |order| => assert order[i] in order; at[order[i]])
  }

  function Encode(c: Chain): Document
    requires forall k :: k in c.holds.open.order ==> k in c.holds.open.at
    requires forall k :: k in c.tree.nodes.order ==> k in c.tree.nodes.at
  {
    Document(c.purse.balances, c.purse.spent, c.purse.refunded, c.purse.totals,
             Values(c.holds.open.order, c.holds.open.at), c.holds.ambiguous,
             Values(c.tree.nodes.order, c.tree.nodes.at), c.tree.roots, c.tree.tripped, c.tip, c.unit)
  }

  function HoldsOf(list: seq<Entry>): Dict<Id, Entry> {
    if |list| == 0 then Empty()
    else var e := list[|list| - 1]; HoldsOf(list[..|list| - 1]).Put(e.id, e)
  }

  function CountsOf(list: seq<Entry>): map<Scope, int> {
    if |list| == 0 then map[]
    else
      var counts, s := CountsOf(list[..|list| - 1]), list[|list| - 1].scope;
      counts[s := Get(counts, s) + 1]
  }

  function NodesOf(list: seq<Node>): Dict<Scope, Node> {
    if |list| == 0 then Empty()
    else var n := list[|list| - 1]; NodesOf(list[..|list| - 1]).Put(n.scope, n)
  }

  lemma HoldsOfClosed(list: seq<Entry>)
    ensures forall k :: k in HoldsOf(list).order ==> k in HoldsOf(list).at
  {
  }

  lemma NodesOfClosed(list: seq<Node>)
    ensures forall k :: k in NodesOf(list).order ==> k in NodesOf(list).at
  {
  }

  /** The state a document's fields describe, before it is checked. */
  function Read(d: Document): Chain {
    Chain(Purse(d.balances, d.spent, d.refunded, d.totals),
          Holds(HoldsOf(d.holds), CountsOf(d.holds), d.ambiguous),
          Tree(NodesOf(d.nodes), d.roots, d.tripped), d.tip, map[], d.unit)
  }

  /** Strict: the frontier has the length's one-bits, the roots are scopes, and the
      state encodes back to exactly this document. */
  function Decode(d: Document): Option<Chain> {
    var c := Read(d);
    HoldsOfClosed(d.holds); NodesOfClosed(d.nodes);
    if |d.tip.frontier| != Merkle.Ones(d.tip.length) then None
    else if exists i :: 0 <= i < |d.roots| && d.roots[i] !in c.tree.nodes.at then None
    else if Encode(c) != d then None
    else Some(c)
  }

  // -- reading back what was written -------------------------------------------

  /** What the rules keep of a state that a snapshot relies on. */
  ghost predicate Sound(c: Chain) {
    && c.holds.open.Valid() && (forall id :: id in c.holds.open.at ==> c.holds.open.at[id].id == id)
    && (forall s :: Get(c.holds.counts, s) == Weigh(c.holds.open.order, c.holds.open.at, CountIn(s)))
    && (forall s :: s in c.holds.counts ==> c.holds.counts[s] != 0)
    && TreeKept(c.tree)
    && |c.tip.frontier| == Merkle.Ones(c.tip.length)
  }

  lemma ValuesDrop<K(!new), V>(order: seq<K>, at: map<K, V>)
    requires |order| > 0 && forall k :: k in order ==> k in at
    ensures var n := |order| - 1;
            && order[n] in order && order[n] in at
            && (forall k :: k in order[..n] ==> k in at)
            && Values(order, at)[..n] == Values(order[..n], at)
            && Values(order, at)[n] == at[order[n]]
  {
  }

  lemma {:induction false} HoldsBack(order: seq<Id>, at: map<Id, Entry>)
    requires Distinct(order) && forall k :: k in order ==> k in at && at[k].id == k
    ensures var d := HoldsOf(Values(order, at));
            d.order == order && (forall k :: k in d.at <==> k in order) && forall k :: k in order ==> d.at[k] == at[k]
  {
    hide Values;
    if |order| > 0 {
      var n := |order| - 1;
      var k := order[n];
      ValuesDrop(order, at);
      HoldsBack(order[..n], at);
      assert k !in order[..n];
      assert order == order[..n] + [k];
      assert forall x :: x in order <==> x in order[..n] || x == k;
    }
  }

  lemma {:induction false} CountsBack(order: seq<Id>, at: map<Id, Entry>, s: Scope)
    requires forall k :: k in order ==> k in at
    ensures var c := CountsOf(Values(order, at));
            Get(c, s) == Weigh(order, at, CountIn(s)) >= 0 && (s in c ==> c[s] > 0)
  {
    hide Values;
    if |order| > 0 {
      var n := |order| - 1;
      ValuesDrop(order, at);
      CountsBack(order[..n], at, s);
      var last := at[order[n]].scope;
      CountsBack(order[..n], at, last);
    }
  }

  lemma {:induction false} NodesBack(order: seq<Scope>, at: map<Scope, Node>)
    requires Distinct(order) && forall k :: k in order ==> k in at && at[k].scope == k
    ensures var d := NodesOf(Values(order, at));
            d.order == order && (forall k :: k in d.at <==> k in order) && forall k :: k in order ==> d.at[k] == at[k]
  {
    hide Values;
    if |order| > 0 {
      var n := |order| - 1;
      var k := order[n];
      ValuesDrop(order, at);
      NodesBack(order[..n], at);
      assert k !in order[..n];
      assert order == order[..n] + [k];
      assert forall x :: x in order <==> x in order[..n] || x == k;
    }
  }

  lemma SameCounts(a: map<Scope, int>, b: map<Scope, int>)
    requires forall s :: Get(a, s) == Get(b, s)
    requires (forall s :: s in a ==> a[s] != 0) && (forall s :: s in b ==> b[s] != 0)
    ensures a == b
  {
    assert forall s :: s in a ==> Get(a, s) != 0;
    assert forall s :: s in b ==> Get(b, s) != 0;
  }

  /** A sound state survives a snapshot, but for the refunds a store answers for. */
  lemma RoundTrip(c: Chain)
    requires Sound(c)
    ensures Decode(Encode(c)) == Some(c.(spendRefunds := map[]))
  {
    var h, t := c.holds, c.tree;
    hide Values, Weigh, NodeKept, CountsOf, HoldsOf, NodesOf;
    HoldsBack(h.open.order, h.open.at);
    assert HoldsOf(Encode(c).holds) == h.open by { assert HoldsOf(Encode(c).holds).at == h.open.at; }
    forall s | s in t.nodes.at ensures t.nodes.at[s].scope == s { NodeScope(t, s); }
    NodesBack(t.nodes.order, t.nodes.at);
    assert NodesOf(Encode(c).nodes) == t.nodes by { assert NodesOf(Encode(c).nodes).at == t.nodes.at; }
    var counts := CountsOf(Encode(c).holds);
    forall s ensures Get(counts, s) == Get(h.counts, s) && (s in counts ==> counts[s] != 0) {
      CountsBack(h.open.order, h.open.at, s);
    }
    SameCounts(counts, h.counts);
  }

  /** What decodes, encodes back to the same document: one document, one state. */
  lemma DecodeIsStrict(d: Document)
    requires Decode(d).Some?
    ensures (forall k :: k in Decode(d).value.holds.open.order ==> k in Decode(d).value.holds.open.at)
    ensures (forall k :: k in Decode(d).value.tree.nodes.order ==> k in Decode(d).value.tree.nodes.at)
    ensures Encode(Decode(d).value) == d
  {
    HoldsOfClosed(d.holds);
    NodesOfClosed(d.nodes);
  }

  /** One state has one snapshot: no two documents decode to it. */
  lemma OneDocument(a: Document, b: Document)
    requires Decode(a).Some? && Decode(a) == Decode(b)
    ensures a == b
  {
    hide Encode, Decode;
    DecodeIsStrict(a);
    DecodeIsStrict(b);
  }

  /** Two sound states with one digest are one state, refund counts aside, unless their
      own documents differ and the digest does not tell them apart. */
  lemma DigestNamesState(digest: Document -> Hash, a: Chain, b: Chain)
    requires Sound(a) && Sound(b) && digest(Encode(a)) == digest(Encode(b))
    ensures a.(spendRefunds := map[]) == b.(spendRefunds := map[]) || DigestsClash(digest, Encode(a), Encode(b))
  {
    hide Decode;
    RoundTrip(a);
    RoundTrip(b);
    hide Encode, Sound;
  }
}
