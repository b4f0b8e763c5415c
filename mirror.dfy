/**
 * The reconciliation rules the local store applies to one of its record
 * lists after a backend round-trip: `findIndex` by id, replace-or-prepend
 * after a save, and `filter` by id after a delete.
 */
module Mirror {
  import opened Remote

  /** No two entries of the list share an id. */
  predicate UniqueIds(s: seq<Row>)
  {
    forall i, j :: 0 <= i < j < |s| ==> s[i].id != s[j].id
  }

  predicate HasId(s: seq<Row>, id: string)
  {
    exists i :: 0 <= i < |s| && s[i].id == id
  }

  /** `list.findIndex(x => x.id === id)`: the first position holding `id`, or -1. */
  function IndexOfId(s: seq<Row>, id: string): (k: int)
    ensures -1 <= k < |s|
    ensures 0 <= k ==> s[k].id == id
    ensures forall j :: 0 <= j < |s| && (k < 0 || j < k) ==> s[j].id != id
  {
    if s == [] then -1
    else if s[0].id == id then 0
    else
      var k := IndexOfId(s[1..], id);
      if k < 0 then -1 else k + 1
  }

  /**
   * The list after a successful save returned `row`: the first entry with the
   * same id is replaced in place, and with no such entry the row goes to the front.
   */
  function Reconcile(s: seq<Row>, row: Row): (r: seq<Row>)
    ensures var k := IndexOfId(s, row.id);
      k >= 0 ==> |r| == |s| && r[k] == row && forall j :: 0 <= j < |s| && j != k ==> r[j] == s[j]
    ensures IndexOfId(s, row.id) < 0 ==> r == [row] + s
  {
    var k := IndexOfId(s, row.id);
    if k >= 0 then s[k := row] else [row] + s
  }

  /** `list.filter(x => x.id !== id)`. */
  function RemoveId(s: seq<Row>, id: string): (r: seq<Row>)
    ensures |r| <= |s|
    ensures forall x :: x in r <==> x in s && x.id != id
  {
    if s == [] then []
    else if s[0].id == id then RemoveId(s[1..], id)
    else [s[0]] + RemoveId(s[1..], id)
  }

  /** Save of an id already present: one position changes, nothing else does. */
  lemma ReconcileReplacesFirst(s: seq<Row>, row: Row, k: nat)
    requires k < |s| && s[k].id == row.id
    requires forall j :: 0 <= j < k ==> s[j].id != row.id
    ensures |Reconcile(s, row)| == |s|
    ensures Reconcile(s, row)[k] == row
    ensures forall j :: 0 <= j < |s| && j != k ==> Reconcile(s, row)[j] == s[j]
  {
  }

  /** Save of a new id: the row is prepended and the list grows by exactly one. */
  lemma ReconcilePrepends(s: seq<Row>, row: Row)
    requires !HasId(s, row.id)
    ensures Reconcile(s, row) == [row] + s
    ensures |Reconcile(s, row)| == |s| + 1
  {
  }

  /** After a save the returned row is in the list, at the first position holding its id. */
  lemma ReconcileFindsRow(s: seq<Row>, row: Row)
    ensures var r := Reconcile(s, row);
      0 <= IndexOfId(r, row.id) && r[IndexOfId(r, row.id)] == row
  {
  }

  /** Saving the same returned row twice leaves the list as saving it once. */
  lemma ReconcileIdempotent(s: seq<Row>, row: Row)
    ensures Reconcile(Reconcile(s, row), row) == Reconcile(s, row)
  {
  }

  /** A list with unique ids keeps them unique through a save. */
  lemma ReconcileKeepsUnique(s: seq<Row>, row: Row)
    requires UniqueIds(s)
    ensures UniqueIds(Reconcile(s, row))
  {
  }

  /** Removing from a concatenation removes from each part: relative order is kept. */
  lemma {:induction false} RemoveIdAppend(a: seq<Row>, b: seq<Row>, id: string)
    ensures RemoveId(a + b, id) == RemoveId(a, id) + RemoveId(b, id)
  {
    if a == [] {
      assert a + b == b;
    } else {
      assert (a + b)[0] == a[0];
      assert (a + b)[1..] == a[1..] + b;
      RemoveIdAppend(a[1..], b, id);
    }
  }

  /** Deleting an id that is absent leaves the list unchanged. */
  lemma {:induction false} RemoveIdAbsent(s: seq<Row>, id: string)
    requires !HasId(s, id)
    ensures RemoveId(s, id) == s
  {
    if s != [] {
      assert s[0].id != id;
      assert !HasId(s[1..], id) by {
        forall i | 0 <= i < |s[1..]| ensures s[1..][i].id != id {
          assert s[1..][i] == s[i + 1];
        }
      }
      RemoveIdAbsent(s[1..], id);
      assert [s[0]] + s[1..] == s;
    }
  }

  /** Deleting a present id from a list with unique ids removes exactly one entry. */
  lemma {:induction false} RemoveIdUniqueShrinks(s: seq<Row>, id: string)
    requires UniqueIds(s) && HasId(s, id)
    ensures |RemoveId(s, id)| == |s| - 1
  {
    var tail := s[1..];
    assert UniqueIds(tail) by {
      forall i, j | 0 <= i < j < |tail| ensures tail[i].id != tail[j].id {
        assert tail[i] == s[i + 1] && tail[j] == s[j + 1];
      }
    }
    if s[0].id == id {
      assert !HasId(tail, id) by {
        forall i | 0 <= i < |tail| ensures tail[i].id != id {
          assert tail[i] == s[i + 1];
        }
      }
      RemoveIdAbsent(tail, id);
    } else {
      var i :| 0 <= i < |s| && s[i].id == id;
      assert tail[i - 1] == s[i];
      RemoveIdUniqueShrinks(tail, id);
    }
  }

  /** Deleting twice is the same as deleting once. */
  lemma RemoveIdIdempotent(s: seq<Row>, id: string)
    ensures RemoveId(RemoveId(s, id), id) == RemoveId(s, id)
  {
  }

  /** Overwriting an entry with one of the same id does not change what a delete of that id leaves. */
  lemma RemoveIdOverwrite(s: seq<Row>, k: nat, row: Row)
    requires k < |s| && s[k].id == row.id
    ensures RemoveId(s[k := row], row.id) == RemoveId(s, row.id)
  {
    var t := s[k := row];
    assert s == s[..k] + ([s[k]] + s[k + 1..]);
    assert t == s[..k] + ([row] + s[k + 1..]);
    RemoveIdAppend(s[..k], [s[k]] + s[k + 1..], row.id);
    RemoveIdAppend(s[..k], [row] + s[k + 1..], row.id);
    RemoveIdAppend([s[k]], s[k + 1..], row.id);
    RemoveIdAppend([row], s[k + 1..], row.id);
  }

  /** Deleting the id a save just returned leaves what deleting it before the save would have left. */
  lemma RemoveIdUndoesReconcile(s: seq<Row>, row: Row)
    ensures RemoveId(Reconcile(s, row), row.id) == RemoveId(s, row.id)
  {
    var k := IndexOfId(s, row.id);
    if k >= 0 {
      RemoveIdOverwrite(s, k, row);
    } else {
      assert ([row] + s)[1..] == s;
    }
  }
}
