/**
 What an open checks of the store's cached rows against the chain: topology rows and
 control-event rows that disagree, are missing, or should not be there.
 */
module Caches {
  import opened Vocabulary
  import opened Dicts
  import opened Replays
  import opened Overlays

  function Extra<K, V, W>(known: map<K, V>, rows: map<K, W>): set<K> {
    set s | s in rows && s !in known
  }

  /** Scopes whose row is missing or differs, and rows of scopes the chain never made. */
  method NodeRowProblems(nodes: Dict<Scope, Node>, rows: map<Scope, NodeRow>) returns (wrong: seq<Scope>,
                         extra: set<Scope>)
    requires nodes.Valid()
    ensures wrong == [] && extra == {} <==> rows == RowsOf(nodes.at)
    ensures forall s :: s in wrong ==> s in nodes.at && (s !in rows || rows[s] != RowOf(nodes.at[s]))
  {
    wrong := [];
    for i := 0 to |nodes.order|
      invariant wrong == [] <==> forall j :: 0 <= j < i ==>
                  nodes.order[j] in rows
                  && rows[nodes.order[j]] == RowOf(nodes.at[nodes.order[j]])
      invariant forall s :: s in wrong ==> s in nodes.at && (s !in rows || rows[s] != RowOf(nodes.at[s]))
    {
      var s := nodes.order[i];
      assert s in nodes.order;
      if s !in rows || rows[s] != RowOf(nodes.at[s]) {
        wrong := wrong + [s];
        assert wrong[|wrong| - 1] == s;
      }
    }
    extra := Extra(nodes.at, rows);
    RowsAgree(nodes, rows, wrong == [] && extra == {});
  }

  lemma RowsAgree(nodes: Dict<Scope, Node>, rows: map<Scope, NodeRow>, agree: bool)
    requires nodes.Valid()
    requires agree <==>
      && (forall j :: 0 <= j < |nodes.order| ==>
            nodes.order[j] in rows
            && rows[nodes.order[j]] == RowOf(nodes.at[nodes.order[j]]))
      && Extra(nodes.at, rows) == {}
    ensures agree <==> rows == RowsOf(nodes.at)
  {
    if agree {
      forall s | s in nodes.at ensures s in rows && rows[s] == RowOf(nodes.at[s]) {
        assert s in nodes.order;
      }
      forall s | s in rows ensures s in nodes.at {
        assert s !in Extra(nodes.at, rows);
      }
      assert rows == RowsOf(nodes.at);
    } else if rows == RowsOf(nodes.at) {
      forall j | 0 <= j < |nodes.order| ensures nodes.order[j] in rows
            && rows[nodes.order[j]] == RowOf(nodes.at[nodes.order[j]]) {
        assert nodes.order[j] in nodes.order;
      }
    }
  }

  datatype RowProblem = Twice(id: Id) | Missing(id: Id) | Differs(id: Id) | Stray(id: Id)

  function ById(rows: seq<Entry>): map<Id, Entry> {
    if |rows| == 0 then map[] else ById(rows[..|rows| - 1])[rows[|rows| - 1].id := rows[|rows| - 1]]
  }

  lemma {:induction false} ByIdParts(rows: seq<Entry>)
    ensures forall id :: id in ById(rows) ==> ById(rows)[id] in rows && ById(rows)[id].id == id
    ensures forall e :: e in rows ==> e.id in ById(rows)
    ensures DistinctIds(rows) ==> forall e :: e in rows ==> ById(rows)[e.id] == e
  {
    if |rows| > 0 {
      var init, last := rows[..|rows| - 1], rows[|rows| - 1];
      ByIdParts(init);
      assert rows == init + [last];
      assert DistinctIds(rows) ==> forall e :: e in init ==> e.id != last.id;
    }
  }

  /** Index the stored rows, reporting an entry recorded twice. */
  method IndexRows(rows: seq<Entry>) returns (stored: map<Id, Entry>, problems: seq<RowProblem>)
    ensures stored == ById(rows) && (problems == [] <==> DistinctIds(rows))
  {
    stored, problems := map[], [];
    for i := 0 to |rows|
      invariant stored == ById(rows[..i]) && (problems == [] <==> DistinctIds(rows[..i]))
    {
      var row := rows[i];
      assert rows[..i + 1][..i] == rows[..i];
      ByIdParts(rows[..i]);
      OneMore(rows, i);
      if row.id in stored {
        problems := problems + [Twice(row.id)];
        assert |problems| > 0;
      }
      stored := stored[row.id := row];
    }
    assert rows[..|rows|] == rows;
  }

  lemma OneMore(rows: seq<Entry>, i: nat)
    requires i < |rows|
    ensures DistinctIds(rows[..i + 1]) <==> DistinctIds(rows[..i]) && forall e :: e in rows[..i] ==> e.id != rows[i].id
  {
    var a, b := rows[..i + 1], rows[..i];
    assert a == b + [rows[i]];
    if DistinctIds(a) {
      forall e | e in b ensures e.id != rows[i].id {
        var j :| 0 <= j < i && b[j] == e;
        assert a[j] == e && a[i] == rows[i];
      }
      assert forall j :: 0 <= j < i ==> a[j] == b[j];
    }
    if DistinctIds(b) && forall e :: e in b ==> e.id != rows[i].id {
      assert forall j :: 0 <= j < i ==> a[j] == b[j] && b[j] in b;
    }
  }

  /** No problem is found exactly when the rows are the chain's control entries, each
      once. */
  method ControlRowProblems(chained: seq<Entry>, rows: seq<Entry>) returns (problems: seq<RowProblem>)
    requires DistinctIds(chained)
    ensures problems == [] <==> DistinctIds(rows) && (forall e :: e in rows <==> e in chained)
  {
    var stored;
    stored, problems := IndexRows(rows);
    ghost var twice := problems == [];
    ByIdParts(rows);
    ByIdParts(chained);
    for i := 0 to |chained|
      invariant problems == [] <==> twice && forall j :: 0 <= j < i ==>
                  chained[j].id in stored
                  && stored[chained[j].id] == chained[j]
    {
      var event := chained[i];
      if event.id !in stored {
        problems := problems + [Missing(event.id)];
        assert |problems| > 0;
      } else if stored[event.id] != event {
        problems := problems + [RowProblem.Differs(event.id)];
        assert |problems| > 0;
      }
    }
    var known := ById(chained);
    var strays := Extra(known, stored);
    if strays != {} {
      var id :| id in strays;
      problems := problems + [Stray(id)];
      assert |problems| > 0;
    }
    Agrees(chained, rows, twice);
  }

  /** Every chained entry is stored as it is, and nothing else is stored. */
  ghost predicate StoredAs(chained: seq<Entry>, rows: seq<Entry>) {
    && (forall j :: 0 <= j < |chained| ==> chained[j].id in ById(rows) && ById(rows)[chained[j].id] == chained[j])
    && Extra(ById(chained), ById(rows)) == {}
  }

  lemma StoredThenSame(chained: seq<Entry>, rows: seq<Entry>)
    requires DistinctIds(chained) && DistinctIds(rows) && StoredAs(chained, rows)
    ensures forall e :: e in rows <==> e in chained
  {
    ByIdParts(rows);
    ByIdParts(chained);
    hide ById, DistinctIds;
    forall e | e in rows ensures e in chained {
      assert e.id !in Extra(ById(chained), ById(rows));
      assert ById(chained)[e.id] in chained;
    }
  }

  lemma SameThenStored(chained: seq<Entry>, rows: seq<Entry>)
    requires DistinctIds(chained) && DistinctIds(rows) && forall e :: e in rows <==> e in chained
    ensures StoredAs(chained, rows)
  {
    ByIdParts(rows);
    ByIdParts(chained);
    hide ById, DistinctIds;
    forall id | id in ById(rows) ensures id in ById(chained) {
      assert ById(rows)[id] in rows;
    }
  }

  lemma Agrees(chained: seq<Entry>, rows: seq<Entry>, once: bool)
    requires DistinctIds(chained) && (once <==> DistinctIds(rows))
    ensures once && StoredAs(chained, rows) <==> DistinctIds(rows) && (forall e :: e in rows <==> e in chained)
  {
    hide StoredAs, DistinctIds;
    if once && StoredAs(chained, rows) { StoredThenSame(chained, rows); }
    if once && forall e :: e in rows <==> e in chained { SameThenStored(chained, rows); }
  }
}
