/**
 * A database table as the Nextcloud `QBMapper` base class sees it: rows with
 * an auto-increment `id`, kept in insertion order (which is ascending id
 * order), and the queries and writes every mapper inherits.
 */
module Tables {

  /** A stored entity: its auto-increment id and its column values. */
  datatype Row<T> = Row(id: int, rec: T)

  /** The rows of one table, and the id the next insert receives. */
  datatype Table<T> = Table(rows: seq<Row<T>>, nextId: int)

  /** What `QBMapper::findEntity` yields: one row, or one of its two exceptions. */
  datatype Lookup<T> = Found(row: Row<T>) | DoesNotExist | MultipleObjectsReturned

  /** Ids strictly increase along the rows. */
  ghost predicate Ascending<T>(rows: seq<Row<T>>) {
    forall i, j :: 0 <= i < j < |rows| ==> rows[i].id < rows[j].id
  }

  /** The auto-increment discipline: ids are positive, ascending, and below `nextId`. */
  ghost predicate Valid<T>(t: Table<T>) {
    && 0 < t.nextId
    && Ascending(t.rows)
    && (forall i :: 0 <= i < |t.rows| ==> 0 < t.rows[i].id < t.nextId)
  }

  /** Some row has this id. */
  predicate Has<T>(t: Table<T>, id: int) {
    exists i :: 0 <= i < |t.rows| && t.rows[i].id == id
  }

  /** The `WHERE id = :id` condition. */
  function IdIs<T>(id: int): Row<T> -> bool {
    (x: Row<T>) => x.id == id
  }

  /** The complement of a `WHERE` condition. */
  function Not<T>(p: Row<T> -> bool): Row<T> -> bool {
    (x: Row<T>) => !p(x)
  }

  /** The rows matching a `WHERE` condition, in table order. */
  function Where<T(!new)>(rows: seq<Row<T>>, p: Row<T> -> bool): (r: seq<Row<T>>)
    ensures forall x :: x in r <==> x in rows && p(x)
    ensures |r| <= |rows|
  {
    if rows == [] then [] else (if p(rows[0]) then [rows[0]] else []) + Where(rows[1..], p)
  }

  lemma {:induction false} WhereAscending<T(!new)>(rows: seq<Row<T>>, p: Row<T> -> bool)
    requires Ascending(rows)
    ensures Ascending(Where(rows, p))
  {
    if rows != [] {
      var rest := Where(rows[1..], p);
      WhereAscending(rows[1..], p);
      forall k | 0 <= k < |rest| ensures rows[0].id < rest[k].id {
        assert rest[k] in rows[1..];
        var m :| 0 <= m < |rows[1..]| && rows[1..][m] == rest[k];
        assert rows[m + 1] == rest[k];
      }
    }
  }

  /** Filtering a concatenation filters each part. */
  lemma {:induction false} WhereConcat<T(!new)>(a: seq<Row<T>>, b: seq<Row<T>>, p: Row<T> -> bool)
    ensures Where(a + b, p) == Where(a, p) + Where(b, p)
  {
    if a == [] {
      assert a + b == b;
    } else {
      assert (a + b)[0] == a[0];
      assert (a + b)[1..] == a[1..] + b;
      WhereConcat(a[1..], b, p);
    }
  }

  /** A condition every row meets keeps every row. */
  lemma {:induction false} WhereAll<T(!new)>(rows: seq<Row<T>>, p: Row<T> -> bool)
    requires forall x :: x in rows ==> p(x)
    ensures Where(rows, p) == rows
  {
    if rows != [] {
      assert rows[0] in rows;
      WhereAll(rows[1..], p);
      assert [rows[0]] + rows[1..] == rows;
    }
  }

  /** Filtering by `p` first loses nothing that `q` would keep when `q` implies `p`. */
  lemma {:induction false} WhereImplied<T(!new)>(rows: seq<Row<T>>, p: Row<T> -> bool, q: Row<T> -> bool)
    requires forall x :: q(x) ==> p(x)
    ensures Where(Where(rows, p), q) == Where(rows, q)
  {
    if rows != [] {
      WhereImplied(rows[1..], p, q);
      if p(rows[0]) {
        assert Where(rows, p) == [rows[0]] + Where(rows[1..], p);
        assert ([rows[0]] + Where(rows[1..], p))[1..] == Where(rows[1..], p);
      } else {
        assert Where(rows, p) == Where(rows[1..], p);
      }
    }
  }

  /**
   * `QBMapper::findEntity`: the single matching row, `DoesNotExist` when none
   * matches, `MultipleObjectsReturned` when a second one does.
   */
  function FindEntity<T(!new)>(rows: seq<Row<T>>, p: Row<T> -> bool): (r: Lookup<T>)
    ensures r.DoesNotExist? <==> forall x :: x in rows ==> !p(x)
    ensures r.Found? ==> r.row in rows && p(r.row)
    ensures r.DoesNotExist? <==> Where(rows, p) == []
    ensures r.Found? <==> |Where(rows, p)| == 1
    ensures r.Found? ==> Where(rows, p) == [r.row]
  {
    if rows == [] then DoesNotExist
    else
      var rest := FindEntity(rows[1..], p);
      if !p(rows[0]) then rest
      else if rest.DoesNotExist? then Found(rows[0])
      else MultipleObjectsReturned
  }

  /** A condition no row meets selects nothing. */
  lemma {:induction false} WhereNone<T(!new)>(rows: seq<Row<T>>, p: Row<T> -> bool)
    requires forall x :: x in rows ==> !p(x)
    ensures Where(rows, p) == []
  {
    if rows != [] {
      assert rows[0] in rows;
      WhereNone(rows[1..], p);
    }
  }

  /** At most one row carries a given id. */
  lemma {:induction false} AtMostOneWithId<T(!new)>(rows: seq<Row<T>>, id: int)
    requires Ascending(rows)
    ensures |Where(rows, IdIs(id))| <= 1
  {
    if rows != [] {
      if rows[0].id == id {
        forall x | x in rows[1..] ensures x.id != id {
          var m :| 0 <= m < |rows[1..]| && rows[1..][m] == x;
          assert rows[m + 1] == x;
        }
        WhereNone(rows[1..], IdIs(id));
      } else {
        AtMostOneWithId(rows[1..], id);
      }
    }
  }

  /** Rows of an ascending table are told apart by their ids. */
  lemma IdsIdentify<T>(rows: seq<Row<T>>)
    requires Ascending(rows)
    ensures forall x, y :: x in rows && y in rows && x.id == y.id ==> x == y
  {
    forall x, y | x in rows && y in rows && x.id == y.id ensures x == y {
      var i :| 0 <= i < |rows| && rows[i] == x;
      var j :| 0 <= j < |rows| && rows[j] == y;
      assert i == j;
    }
  }

  /**
   * When a unique index covers the condition (at most one row meets it),
   * `findEntity` never reports `MultipleObjectsReturned`.
   */
  lemma {:induction false} UniqueKeyFindsOne<T(!new)>(rows: seq<Row<T>>, p: Row<T> -> bool)
    requires Ascending(rows)
    requires forall x, y :: x in rows && y in rows && p(x) && p(y) ==> x == y
    ensures !FindEntity(rows, p).MultipleObjectsReturned?
  {
    if rows != [] {
      var tail := rows[1..];
      forall x | x in tail ensures rows[0].id < x.id {
        var m :| 0 <= m < |tail| && tail[m] == x;
        assert rows[m + 1] == x;
      }
      if p(rows[0]) {
        forall x | x in tail ensures !p(x) {
          assert rows[0].id < x.id;
        }
      } else {
        UniqueKeyFindsOne(tail, p);
      }
    }
  }

  /** `find(int $id)` in every mapper: the row with that id, or `DoesNotExist`. */
  function Find<T(!new)>(t: Table<T>, id: int): (r: Lookup<T>)
    requires Valid(t)
    ensures !r.MultipleObjectsReturned?
    ensures r.Found? <==> Has(t, id)
    ensures r.Found? ==> r.row.id == id && r.row in t.rows
  {
    AtMostOneWithId(t.rows, id);
    var r := FindEntity(t.rows, IdIs(id));
    assert Has(t, id) ==> t.rows[FirstWithId(t, id)] in Where(t.rows, IdIs(id));
    assert r.Found? ==> r.row in Where(t.rows, IdIs(id));
    r
  }

  /** The position of a row with the given id. */
  ghost function FirstWithId<T>(t: Table<T>, id: int): (k: nat)
    requires Has(t, id)
    ensures k < |t.rows| && t.rows[k].id == id
  {
    var k :| 0 <= k < |t.rows| && t.rows[k].id == id; k
  }

  /** `findAll()`: every row, each once, in id order. */
  function FindAll<T(!new)>(t: Table<T>): (r: seq<Row<T>>)
    requires Valid(t)
    ensures forall x :: x in r <==> x in t.rows
    ensures Ascending(r)
  {
    t.rows
  }

  /** `findEntities` over a `WHERE` condition: the matching rows, in id order. */
  function Select<T(!new)>(t: Table<T>, p: Row<T> -> bool): (r: seq<Row<T>>)
    requires Valid(t)
    ensures forall x :: x in r <==> x in t.rows && p(x)
    ensures Ascending(r)
  {
    WhereAscending(t.rows, p);
    Where(t.rows, p)
  }

  /** `insert($entity)`: the entity receives the next id and is appended. */
  function Insert<T(!new)>(t: Table<T>, rec: T): (r: (Table<T>, Row<T>))
    requires Valid(t)
    ensures Valid(r.0) && r.0.nextId == t.nextId + 1
    ensures r.1 == Row(t.nextId, rec) && !Has(t, r.1.id)
    ensures r.0.rows == t.rows + [r.1]
  {
    var row := Row(t.nextId, rec);
    (Table(t.rows + [row], t.nextId + 1), row)
  }

  /** The rows with the one whose id is `id` given new column values. */
  function Replace<T>(rows: seq<Row<T>>, id: int, rec: T): (r: seq<Row<T>>)
    ensures |r| == |rows|
    ensures forall k :: 0 <= k < |rows| ==> r[k].id == rows[k].id
    ensures forall k :: 0 <= k < |rows| ==> r[k] == if rows[k].id == id then Row(id, rec) else rows[k]
  {
    if rows == [] then []
    else [if rows[0].id == id then Row(id, rec) else rows[0]] + Replace(rows[1..], id, rec)
  }

  /** `update($entity)`: the row with the entity's id takes the entity's values. */
  function Update<T(!new)>(t: Table<T>, id: int, rec: T): (r: Table<T>)
    requires Valid(t)
    ensures Valid(r) && r.nextId == t.nextId
    ensures forall x :: x in r.rows <==> (x in t.rows && x.id != id) || (x == Row(id, rec) && Has(t, id))
  {
    var rows := Replace(t.rows, id, rec);
    assert forall x :: x in rows ==> exists k :: 0 <= k < |rows| && rows[k] == x;
    Table(rows, t.nextId)
  }

  /** `DELETE ... WHERE p`: the rows that do not match stay, in order. */
  function DeleteWhere<T(!new)>(t: Table<T>, p: Row<T> -> bool): (r: Table<T>)
    requires Valid(t)
    ensures Valid(r) && r.nextId == t.nextId
    ensures forall x :: x in r.rows <==> x in t.rows && !p(x)
  {
    WhereAscending(t.rows, Not(p));
    var rows := Where(t.rows, Not(p));
    assert forall k :: 0 <= k < |rows| ==> rows[k] in t.rows;
    Table(rows, t.nextId)
  }

  /** `delete($entity)`: the row with that id is removed. */
  function Delete<T(!new)>(t: Table<T>, id: int): (r: Table<T>)
    requires Valid(t)
    ensures Valid(r) && r.nextId == t.nextId
    ensures forall x :: x in r.rows <==> x in t.rows && x.id != id
  {
    DeleteWhere(t, IdIs(id))
  }

  /** Successive `insert` calls, one per record, in order. */
  function InsertAll<T(!new)>(t: Table<T>, recs: seq<T>): (r: Table<T>)
    requires Valid(t)
    ensures Valid(r) && r.nextId == t.nextId + |recs|
    decreases |recs|
  {
    if recs == [] then t else Insert(InsertAll(t, recs[..|recs| - 1]), recs[|recs| - 1]).0
  }

  /** Inserting one more record extends the run of inserts by one. */
  lemma InsertAllStep<T(!new)>(t: Table<T>, recs: seq<T>, i: nat)
    requires Valid(t) && i < |recs|
    ensures InsertAll(t, recs[..i + 1]) == Insert(InsertAll(t, recs[..i]), recs[i]).0
  {
    assert recs[..i + 1][..i] == recs[..i];
  }

  /** The rows a run of inserts creates: consecutive ids from `first`. */
  function Numbered<T>(first: int, recs: seq<T>): (rows: seq<Row<T>>)
    ensures |rows| == |recs|
    ensures forall k :: 0 <= k < |recs| ==> rows[k] == Row(first + k, recs[k])
  {
    seq(|recs|, k requires 0 <= k < |recs| => Row(first + k, recs[k]))
  }

  /** Inserting records one by one appends them with consecutive ids. */
  lemma {:induction false} InsertAllAppends<T(!new)>(t: Table<T>, recs: seq<T>)
    requires Valid(t)
    ensures InsertAll(t, recs).rows == t.rows + Numbered(t.nextId, recs)
    decreases |recs|
  {
    if recs != [] {
      var n := |recs| - 1;
      InsertAllAppends(t, recs[..n]);
      assert Numbered(t.nextId, recs) == Numbered(t.nextId, recs[..n]) + [Row(t.nextId + n, recs[n])];
    }
  }

  /** Every filtered view of a table after a batch insert is the old view followed by the new rows that pass. */
  lemma SelectAfterInsertAll<T(!new)>(t: Table<T>, recs: seq<T>, p: Row<T> -> bool)
    requires Valid(t)
    ensures Select(InsertAll(t, recs), p) == Select(t, p) + Where(Numbered(t.nextId, recs), p)
  {
    InsertAllAppends(t, recs);
    WhereConcat(t.rows, Numbered(t.nextId, recs), p);
  }

  /** A row that is present is what `find` returns for its id. */
  lemma FindRow<T(!new)>(t: Table<T>, x: Row<T>)
    requires Valid(t) && x in t.rows
    ensures Find(t, x.id) == Found(x)
  {
    var y := Find(t, x.id).row;
    var i :| 0 <= i < |t.rows| && t.rows[i] == x;
    var j :| 0 <= j < |t.rows| && t.rows[j] == y;
    assert i == j;
  }

  /** After `insert`, `find` sees the new row under its id and everything else as before. */
  lemma FindAfterInsert<T(!new)>(t: Table<T>, rec: T, id: int)
    requires Valid(t)
    ensures Find(Insert(t, rec).0, id) == if id == t.nextId then Found(Row(t.nextId, rec)) else Find(t, id)
  {
    var t' := Insert(t, rec).0;
    if id == t.nextId {
      FindRow(t', Row(t.nextId, rec));
    } else if Has(t, id) {
      FindRow(t', Find(t, id).row);
    } else {
      assert !Has(t', id) by {
        forall k | 0 <= k < |t'.rows| ensures t'.rows[k].id != id {
          if k < |t.rows| { assert t'.rows[k] == t.rows[k]; }
        }
      }
    }
  }

  /** After `update`, `find` returns the new values under that id and everything else as before. */
  lemma FindAfterUpdate<T(!new)>(t: Table<T>, id: int, rec: T, other: int)
    requires Valid(t)
    ensures Find(Update(t, id, rec), other) ==
      if other == id && Has(t, id) then Found(Row(id, rec)) else Find(t, other)
  {
    var t' := Update(t, id, rec);
    if other == id && Has(t, id) {
      FindRow(t', Row(id, rec));
    } else if Has(t, other) {
      FindRow(t', Find(t, other).row);
    } else {
      if Has(t', other) {
        var x := Find(t', other).row;
        assert x in t.rows;
        assert Has(t, other);
      }
    }
  }

  /** After `delete`, that id is gone and every other id is found as before. */
  lemma FindAfterDelete<T(!new)>(t: Table<T>, id: int, other: int)
    requires Valid(t)
    ensures Find(Delete(t, id), other) == if other == id then DoesNotExist else Find(t, other)
  {
    var t' := Delete(t, id);
    if other != id && Has(t, other) {
      FindRow(t', Find(t, other).row);
    } else if Has(t', other) {
      var x := Find(t', other).row;
      assert x in t.rows;
      assert Has(t, other);
    }
  }

  /** After `DELETE ... WHERE p`, a query for `p` finds nothing. */
  lemma DeleteWhereClears<T(!new)>(t: Table<T>, p: Row<T> -> bool)
    requires Valid(t)
    ensures Select(DeleteWhere(t, p), p) == []
  {
    WhereNone(DeleteWhere(t, p).rows, p);
  }

  /** Deleting where nothing matches leaves the table as it was. */
  lemma DeleteWhereNothing<T(!new)>(t: Table<T>, p: Row<T> -> bool)
    requires Valid(t) && Select(t, p) == []
    ensures DeleteWhere(t, p) == t
  {
    forall x | x in t.rows ensures Not(p)(x) {
      assert x !in Select(t, p);
    }
    WhereAll(t.rows, Not(p));
  }

  /** A query whose rows `p` never matches sees the same rows after `DELETE ... WHERE p`. */
  lemma DeleteWhereKeeps<T(!new)>(t: Table<T>, p: Row<T> -> bool, q: Row<T> -> bool)
    requires Valid(t)
    requires forall x :: q(x) ==> !p(x)
    ensures Select(DeleteWhere(t, p), q) == Select(t, q)
  {
    WhereImplied(t.rows, Not(p), q);
  }
}
