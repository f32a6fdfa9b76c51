/**
  A table is a sequence of rows in scan order. This module gives the three
  statement shapes the first-party code issues through its ORMs, stated once
  for every table:
  - `SelectOne`: `SELECT ... WHERE p LIMIT 1` (`.filter(..).one()`, `find_by_id`),
  - `UpdateWhere`: `UPDATE ... SET f WHERE p`,
  - `DeleteWhere`: `DELETE ... WHERE p`,
  and the two kinds of integrity constraint a table can carry: a unique key and
  a foreign key into another table.
*/
module Query {
  import opened Wrappers

  /** No two rows of `rows` share a value of `key` (a primary key or a unique index). */
  predicate Unique<T, K(==)>(rows: seq<T>, key: T -> K) {
    forall i, j :: 0 <= i < j < |rows| ==> key(rows[i]) != key(rows[j])
  }

  /** Every row of `rows` names, through `fk`, a row of `target` by its key `pk`. */
  ghost predicate References<T(!new), R(!new), K>(rows: seq<T>, fk: T -> K, target: seq<R>, pk: R -> K) {
    forall x :: x in rows ==> exists y :: y in target && pk(y) == fk(x)
  }

  /** The first row satisfying `p`, or nothing when no row does. */
  function SelectOne<T(==, !new)>(rows: seq<T>, p: T -> bool): (r: Option<T>)
    ensures r.None? <==> forall x :: x in rows ==> !p(x)
    ensures r.Some? ==> r.value in rows && p(r.value)
  {
    if rows == [] then None
    else if p(rows[0]) then Some(rows[0])
    else SelectOne(rows[1..], p)
  }

  /** Every row satisfying `p` is replaced by `f` of itself; the others stay in place. */
  function UpdateWhere<T>(rows: seq<T>, p: T -> bool, f: T -> T): seq<T> {
    seq(|rows|, i requires 0 <= i < |rows| => if p(rows[i]) then f(rows[i]) else rows[i])
  }

  /** The table without the rows satisfying `p`, the others kept in their order. */
  function DeleteWhere<T(==, !new)>(rows: seq<T>, p: T -> bool): (r: seq<T>)
    ensures forall x :: x in r <==> x in rows && !p(x)
    ensures |r| <= |rows|
  {
    if rows == [] then []
    else if p(rows[0]) then DeleteWhere(rows[1..], p)
    else [rows[0]] + DeleteWhere(rows[1..], p)
  }

  /** Under a unique key, a key value picks out at most one row. */
  lemma SameKeySameRow<T, K>(rows: seq<T>, key: T -> K, x: T, y: T)
    requires Unique(rows, key)
    requires x in rows && y in rows
    ensures key(x) == key(y) ==> x == y
  {
  }

  /** Deleting rows never breaks a unique key. */
  lemma {:induction false} DeleteWhereKeepsUnique<T(!new), K>(rows: seq<T>, p: T -> bool, key: T -> K)
    requires Unique(rows, key)
    ensures Unique(DeleteWhere(rows, p), key)
  {
    if rows != [] {
      var tail := rows[1..];
      assert Unique(tail, key) by {
        forall i, j | 0 <= i < j < |tail| ensures key(tail[i]) != key(tail[j]) {
          assert tail[i] == rows[i + 1] && tail[j] == rows[j + 1];
        }
      }
      DeleteWhereKeepsUnique(tail, p, key);
      if !p(rows[0]) {
        var rest := DeleteWhere(tail, p);
        var r := [rows[0]] + rest;
        forall i, j | 0 <= i < j < |r| ensures key(r[i]) != key(r[j]) {
          assert r[j] == rest[j - 1];
          if i == 0 {
            assert rest[j - 1] in tail;
            var k :| 0 <= k < |tail| && tail[k] == rest[j - 1];
            assert rows[k + 1] == r[j];
            assert key(rows[0]) != key(rows[k + 1]);
          } else {
            assert r[i] == rest[i - 1];
          }
        }
        assert DeleteWhere(rows, p) == r;
      }
    }
  }

  /** Deleting rows never leaves a dangling foreign key, and rows that point into
      a table keep pointing into it once rows are deleted from their own table. */
  lemma DeleteWhereKeepsReferences<T(!new), R(!new), K>(rows: seq<T>, p: T -> bool, fk: T -> K, target: seq<R>, pk: R -> K)
    requires References(rows, fk, target, pk)
    ensures References(DeleteWhere(rows, p), fk, target, pk)
  {
  }

  /** Running the same delete twice removes nothing more. */
  lemma {:induction false} DeleteWhereIdempotent<T(!new)>(rows: seq<T>, p: T -> bool)
    ensures DeleteWhere(DeleteWhere(rows, p), p) == DeleteWhere(rows, p)
  {
    if rows != [] {
      DeleteWhereIdempotent(rows[1..], p);
      if !p(rows[0]) {
        var rest := DeleteWhere(rows[1..], p);
        assert ([rows[0]] + rest)[0] == rows[0];
        assert ([rows[0]] + rest)[1..] == rest;
      }
    }
  }
}
