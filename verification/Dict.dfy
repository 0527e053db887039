/**
 Insertion-ordered dictionaries: what the ledger keeps its open holds and its
 scopes in, where the order is part of the state (a snapshot serialises it).
 */
module Dicts {
  datatype Dict<K(==,!new), V> = Dict(order: seq<K>, at: map<K, V>) {
    ghost predicate Valid() {
      && Distinct(order)
      && (forall k :: k in order <==> k in at)
    }

    /** Assignment keeps the place of a key already there. */
    function Put(k: K, v: V): Dict<K, V> {
      Dict(if k in at then order else order + [k], at[k := v])
    }

    function Pop(k: K): Dict<K, V> {
      Dict(Drop(order, {k}), at - {k})
    }
  }

  ghost predicate Distinct<K>(s: seq<K>) {
    forall i, j :: 0 <= i < j < |s| ==> s[i] != s[j]
  }

  lemma DistinctAppend<K(!new)>(a: seq<K>, b: seq<K>)
    requires Distinct(a) && Distinct(b) && forall k :: k in a ==> k !in b
    ensures Distinct(a + b)
  {
    var s := a + b;
    forall i, j | 0 <= i < j < |s|
      ensures s[i] != s[j]
    {
      if i < |a| <= j {
        assert a[i] in a && b[j - |a|] in b;
      }
    }
  }

  function Empty<K(!new), V>(): Dict<K, V> {
    Dict([], map[])
  }

  /** `ks` without the keys in `gone`, in order. */
  function Drop<K(!new)>(ks: seq<K>, gone: set<K>): (r: seq<K>)
    ensures forall k :: k in r <==> k in ks && k !in gone
  {
    if |ks| == 0 then []
    else if ks[|ks| - 1] in gone then Drop(ks[..|ks| - 1], gone)
    else Drop(ks[..|ks| - 1], gone) + [ks[|ks| - 1]]
  }

  /** A dictionary after some keys are taken out and others put in: what is left keeps its
      place, and what was not there follows in the order it was added. */
  function Layer<K(!new), V>(base: Dict<K, V>, closed: set<K>, added: Dict<K, V>): Dict<K, V> {
    Dict(Drop(base.order, closed) + Drop(added.order, base.at.Keys - closed), (base.at - closed) + added.at)
  }

  /** Nothing added is a key of the base: what was added follows what is left. */
  lemma LayerApart<K(!new), V>(base: Dict<K, V>, closed: set<K>, added: Dict<K, V>)
    requires added.Valid() && base.at.Keys !! added.at.Keys
    ensures Layer(base, closed, added) == Dict(Drop(base.order, closed) + added.order, (base.at - closed) + added.at)
  {
    hide Drop;
    DropNone(added.order, base.at.Keys - closed);
  }

  lemma {:induction false} DropNone<K(!new)>(ks: seq<K>, gone: set<K>)
    requires forall k :: k in gone ==> k !in ks
    ensures Drop(ks, gone) == ks
  {
    if |ks| > 0 {
      DropNone(ks[..|ks| - 1], gone);
      assert ks[|ks| - 1] in ks;
      assert ks == ks[..|ks| - 1] + [ks[|ks| - 1]];
    }
  }

  lemma DropLast<K(!new)>(ks: seq<K>, k: K, gone: set<K>)
    ensures Drop(ks + [k], gone) == Drop(ks, gone) + if k in gone then [] else [k]
  {
    assert (ks + [k])[..|ks|] == ks;
  }

  lemma {:induction false} DropAppend<K(!new)>(a: seq<K>, b: seq<K>, gone: set<K>)
    ensures Drop(a + b, gone) == Drop(a, gone) + Drop(b, gone)
  {
    if |b| == 0 {
      assert a + b == a;
    } else {
      var init, k := b[..|b| - 1], b[|b| - 1];
      assert b == init + [k] && a + b == (a + init) + [k];
      DropAppend(a, init, gone);
      hide Drop;
      DropLast(a + init, k, gone);
      DropLast(init, k, gone);
    }
  }

  lemma {:induction false} DropTwice<K(!new)>(ks: seq<K>, a: set<K>, b: set<K>)
    ensures Drop(Drop(ks, a), b) == Drop(ks, a + b)
  {
    if |ks| > 0 {
      var init, last := ks[..|ks| - 1], ks[|ks| - 1];
      DropTwice(init, a, b);
      if last !in a {
        var d := Drop(init, a) + [last];
        assert d[..|d| - 1] == Drop(init, a);
      }
    }
  }

  lemma {:induction false} DropDistinct<K(!new)>(ks: seq<K>, gone: set<K>)
    requires Distinct(ks)
    ensures Distinct(Drop(ks, gone))
  {
    if |ks| > 0 {
      var init, last := ks[..|ks| - 1], ks[|ks| - 1];
      DropDistinct(init, gone);
      assert last !in init;
      DistinctAppend(Drop(init, gone), [last]);
    }
  }

  lemma PutValid<K(!new), V>(d: Dict<K, V>, k: K, v: V)
    requires d.Valid()
    ensures d.Put(k, v).Valid()
  {
    var r := d.Put(k, v);
    if k !in d.at {
      assert forall x :: x in r.order <==> x in d.order || x == k;
    }
  }

  lemma PopValid<K(!new), V>(d: Dict<K, V>, k: K)
    requires d.Valid()
    ensures d.Pop(k).Valid()
  {
    DropDistinct(d.order, {k});
  }

  lemma DropPut<K(!new), V>(added: Dict<K, V>, gone: set<K>, k: K, v: V)
    ensures Drop(added.Put(k, v).order, gone)
              == Drop(added.order, gone) + (if k in gone || k in added.at then [] else [k])
  {
    DropLast(added.order, k, gone);
  }

  /** A key is put in by adding it, whether or not the base has it. */
  lemma LayerPut<K(!new), V>(base: Dict<K, V>, closed: set<K>, added: Dict<K, V>, k: K, v: V)
    ensures Layer(base, closed, added.Put(k, v)) == Layer(base, closed, added).Put(k, v)
  {
    hide Drop;
    var l := Layer(base, closed, added);
    DropPut(added, base.at.Keys - closed, k, v);
    assert Drop(base.order, closed) + (Drop(added.order, base.at.Keys - closed) + [k]) == l.order + [k];
    assert (base.at - closed) + added.at[k := v] == l.at[k := v];
  }

  lemma {:induction false} DropSwap<K(!new)>(ks: seq<K>, a: set<K>, b: set<K>)
    ensures Drop(Drop(ks, a), b) == Drop(Drop(ks, b), a)
  {
    DropTwice(ks, a, b);
    DropTwice(ks, b, a);
    assert a + b == b + a;
  }

  /** A key added, and no key of the base, is taken back where it was added. */
  lemma LayerPopAdded<K(!new), V>(base: Dict<K, V>, closed: set<K>, added: Dict<K, V>, k: K)
    requires base.Valid() && k !in base.at
    ensures Layer(base, closed, added.Pop(k)) == Layer(base, closed, added).Pop(k)
  {
    hide Drop;
    var gone := base.at.Keys - closed;
    DropAppend(Drop(base.order, closed), Drop(added.order, gone), {k});
    DropSwap(added.order, gone, {k});
    assert k !in base.order;
    DropNone(Drop(base.order, closed), {k});
    assert (base.at - closed) + (added.at - {k}) == ((base.at - closed) + added.at) - {k};
  }

  /** A key of the base, and none added, is taken by recording that it closed. */
  lemma LayerPopBase<K(!new), V>(base: Dict<K, V>, closed: set<K>, added: Dict<K, V>, k: K)
    requires added.Valid() && k !in added.at
    ensures Layer(base, closed + {k}, added) == Layer(base, closed, added).Pop(k)
  {
    hide Drop;
    var gone := base.at.Keys - closed;
    DropAppend(Drop(base.order, closed), Drop(added.order, gone), {k});
    DropTwice(base.order, closed, {k});
    assert k !in added.order;
    DropLess(added.order, gone, k);
    DropNone(Drop(added.order, gone), {k});
    assert base.at.Keys - (closed + {k}) == gone - {k};
    assert (base.at - (closed + {k})) + added.at == ((base.at - closed) + added.at) - {k};
  }

  lemma {:induction false} DropLess<K(!new)>(ks: seq<K>, gone: set<K>, k: K)
    requires k !in ks
    ensures Drop(ks, gone - {k}) == Drop(ks, gone)
  {
    if |ks| > 0 {
      assert ks[|ks| - 1] in ks;
      DropLess(ks[..|ks| - 1], gone, k);
    }
  }

  lemma LayerNothing<K(!new), V>(base: Dict<K, V>)
    ensures Layer(base, {}, Empty()) == base
  {
    DropNone(base.order, {});
    assert base.order + [] == base.order;
    assert (base.at - {}) + map[] == base.at;
  }

  lemma LayerValid<K(!new), V>(base: Dict<K, V>, closed: set<K>, added: Dict<K, V>)
    requires base.Valid() && added.Valid()
    ensures Layer(base, closed, added).Valid()
  {
    hide Drop;
    var gone := base.at.Keys - closed;
    DropDistinct(base.order, closed);
    DropDistinct(added.order, gone);
    assert forall k :: k in Drop(base.order, closed) ==> k in gone;
    DistinctAppend(Drop(base.order, closed), Drop(added.order, gone));
  }

  // -- the same, step by step ---------------------------------------------------------------

  /** A dictionary with the keys of another put in, one after the other. */
  lemma PutNext<K(!new), V>(base: Dict<K, V>, closed: set<K>, added: Dict<K, V>, i: nat)
    requires added.Valid() && i < |added.order|
    ensures Layer(base, closed, FirstFew(added, i)).Put(added.order[i], added.at[added.order[i]])
         == Layer(base, closed, FirstFew(added, i + 1))
  {
    hide Drop, Layer;
    var k := added.order[i];
    assert k in added.order && k !in added.order[..i];
    LayerPut(base, closed, FirstFew(added, i), k, added.at[k]);
    FirstNext(added, i);
  }

  /** The first `n` keys added, and what they hold. */
  ghost function FirstFew<K(!new), V>(d: Dict<K, V>, n: nat): Dict<K, V>
    requires n <= |d.order|
  {
    Dict(d.order[..n], map k | k in d.order[..n] && k in d.at :: d.at[k])
  }

  lemma FirstNext<K(!new), V>(d: Dict<K, V>, i: nat)
    requires d.Valid() && i < |d.order|
    ensures FirstFew(d, i).Put(d.order[i], d.at[d.order[i]]) == FirstFew(d, i + 1)
  {
    var k := d.order[i];
    assert k in d.order && k !in d.order[..i];
    assert d.order[..i + 1] == d.order[..i] + [k];
    assert forall x :: x in d.order[..i + 1] <==> x in d.order[..i] || x == k;
    assert FirstFew(d, i).at[k := d.at[k]] == FirstFew(d, i + 1).at;
  }

  lemma FirstAll<K(!new), V>(d: Dict<K, V>)
    requires d.Valid()
    ensures FirstFew(d, |d.order|) == d && FirstFew(d, 0) == Empty()
  {
    assert d.order[..|d.order|] == d.order;
    assert FirstFew(d, |d.order|).at == d.at;
  }

  lemma PopNext<K(!new), V>(base: Dict<K, V>, gone: set<K>, k: K)
    ensures Layer(base, gone, Empty()).Pop(k) == Layer(base, gone + {k}, Empty())
  {
    LayerPopBase(base, gone, Empty(), k);
  }
}
