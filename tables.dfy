/** What the content store's queries do to a table, with the database left
    out: a table is the sequence of its rows, each row carries the
    server-assigned primary key, and the query builder's `where`, `orderBy`,
    `limit(1)`, `update ... where id` and `delete ... where id` become
    functions on that sequence. */
module Tables {
  import opened Wrappers

  /** Primary keys. The database draws them from `gen_random_uuid()`; the model
      draws them from a counter, which only matters for their freshness. */
  type Id = nat

  datatype Row<T> = Row(id: Id, data: T)

  /** The primary key is unique within a table. */
  ghost predicate UniqueIds<T>(rows: seq<Row<T>>) {
    forall i, j :: 0 <= i < j < |rows| ==> rows[i].id != rows[j].id
  }

  /** Every key was drawn before the counter reached `bound`. */
  ghost predicate IdsBelow<T>(rows: seq<Row<T>>, bound: Id) {
    forall i :: 0 <= i < |rows| ==> rows[i].id < bound
  }

  ghost predicate TableValid<T>(rows: seq<Row<T>>, bound: Id) {
    UniqueIds(rows) && IdsBelow(rows, bound)
  }

  /** A unique column other than the key: no two rows share a value of `key`. */
  ghost predicate DistinctBy<T, K>(rows: seq<Row<T>>, key: Row<T> -> K) {
    forall i, j :: 0 <= i < j < |rows| ==> key(rows[i]) != key(rows[j])
  }

  predicate HasId<T>(rows: seq<Row<T>>, id: Id) {
    exists i :: 0 <= i < |rows| && rows[i].id == id
  }

  /** `select ... where p` keeping the first matching row (the `const [x] = ...`
      destructuring of every keyed lookup). */
  function Find<T(==)>(rows: seq<Row<T>>, p: Row<T> -> bool): (r: Option<Row<T>>)
    ensures r.None? <==> forall i :: 0 <= i < |rows| ==> !p(rows[i])
    ensures r.Some? ==> exists k :: 0 <= k < |rows| && rows[k] == r.value && p(r.value)
                                   && forall i :: 0 <= i < k ==> !p(rows[i])
  {
    if rows == [] then None
    else if p(rows[0]) then Some(rows[0])
    else
      var r := Find(rows[1..], p);
      assert forall i :: 1 <= i < |rows| ==> rows[i] == rows[1..][i - 1];
      if r.Some? then
        var k :| 0 <= k < |rows[1..]| && rows[1..][k] == r.value && p(r.value)
                 && forall i :: 0 <= i < k ==> !p(rows[1..][i]);
        assert rows[k + 1] == r.value;
        r
      else
        r
  }

  /** `limit(1)` on an unordered `select`. The database may return any row;
      the model takes the first in table order. */
  function First<T>(rows: seq<Row<T>>): (r: Option<Row<T>>)
    ensures r.None? <==> rows == []
    ensures r.Some? ==> r.value == rows[0]
  {
    if rows == [] then None else Some(rows[0])
  }

  /** `where p`: the rows satisfying `p`, in table order. */
  function Filter<T(==,!new)>(rows: seq<Row<T>>, p: Row<T> -> bool): (r: seq<Row<T>>)
    ensures forall x :: x in r <==> x in rows && p(x)
    ensures |r| <= |rows|
    ensures UniqueIds(rows) ==> UniqueIds(r)
  {
    if rows == [] then []
    else
      var rest := Filter(rows[1..], p);
      assert forall x :: x in rows <==> x == rows[0] || x in rows[1..];
      if p(rows[0]) then
        assert UniqueIds(rows) ==> forall x :: x in rest ==> x.id != rows[0].id by {
          if UniqueIds(rows) {
            forall x | x in rest ensures x.id != rows[0].id {
              var j :| 0 <= j < |rows[1..]| && rows[1..][j] == x;
              assert rows[j + 1] == x;
            }
          }
        }
        [rows[0]] + rest
      else
        rest
  }

  /** Filtering works piece by piece: the kept rows of a table made of two
      parts are the kept rows of the first part followed by those of the
      second, so `where` keeps table order. */
  lemma {:induction false} FilterConcat<T(!new)>(a: seq<Row<T>>, b: seq<Row<T>>, p: Row<T> -> bool)
    ensures Filter(a + b, p) == Filter(a, p) + Filter(b, p)
  {
    if a == [] {
      assert a + b == b;
    } else {
      assert (a + b)[1..] == a[1..] + b;
      FilterConcat(a[1..], b, p);
    }
  }

  /** A single row is kept exactly when it satisfies the predicate. */
  lemma FilterOne<T(!new)>(x: Row<T>, p: Row<T> -> bool)
    ensures Filter([x], p) == if p(x) then [x] else []
  {
    assert [x][1..] == [];
  }

  /** The order of a sort key under `orderBy(column)`: ascending, and since the
      database sorts NULL after every value in ascending order, a missing key
      comes last. */
  predicate KeyLe(a: Option<int>, b: Option<int>) {
    match (a, b)
    case (Some(x), Some(y)) => x <= y
    case (Some(_), None) => true
    case (None, Some(_)) => false
    case (None, None) => true
  }

  lemma KeyLeTotal(a: Option<int>, b: Option<int>)
    ensures KeyLe(a, b) || KeyLe(b, a)
  {
  }

  ghost predicate SortedBy<T>(rows: seq<Row<T>>, key: Row<T> -> Option<int>) {
    forall i, j :: 0 <= i < j < |rows| ==> KeyLe(key(rows[i]), key(rows[j]))
  }

  /** Places `x` before the first row of a sorted table whose key is not below it. */
  function InsertSorted<T(==)>(x: Row<T>, rows: seq<Row<T>>, key: Row<T> -> Option<int>): (r: seq<Row<T>>)
    requires SortedBy(rows, key)
    ensures SortedBy(r, key)
    ensures multiset(r) == multiset(rows) + multiset{x}
    ensures |r| == |rows| + 1
    ensures r[0] == x || (rows != [] && r[0] == rows[0])
  {
    if rows == [] || KeyLe(key(x), key(rows[0])) then
      [x] + rows
    else
      var rest := InsertSorted(x, rows[1..], key);
      assert rows == [rows[0]] + rows[1..];
      KeyLeTotal(key(x), key(rows[0]));
      [rows[0]] + rest
  }

  /** `orderBy(key)`: the same rows, arranged so that keys never decrease. The
      database leaves the order of equal keys open; the model keeps table order. */
  function SortBy<T(==)>(rows: seq<Row<T>>, key: Row<T> -> Option<int>): (r: seq<Row<T>>)
    ensures SortedBy(r, key)
    ensures multiset(r) == multiset(rows)
    ensures |r| == |rows|
  {
    if rows == [] then []
    else
      assert rows == [rows[0]] + rows[1..];
      InsertSorted(rows[0], SortBy(rows[1..], key), key)
  }

  /** Sorting neither adds nor drops a row. */
  lemma SortByMembers<T>(rows: seq<Row<T>>, key: Row<T> -> Option<int>)
    ensures forall x :: x in SortBy(rows, key) <==> x in rows
  {
    var r := SortBy(rows, key);
    assert forall x :: x in r <==> x in multiset(r);
    assert forall x :: x in rows <==> x in multiset(rows);
  }

  lemma {:induction false} InsertSortedUnique<T>(x: Row<T>, rows: seq<Row<T>>, key: Row<T> -> Option<int>)
    requires SortedBy(rows, key) && UniqueIds(rows) && !HasId(rows, x.id)
    ensures UniqueIds(InsertSorted(x, rows, key))
  {
    if rows != [] && !KeyLe(key(x), key(rows[0])) {
      UniqueTail(rows);
      forall i | 0 <= i < |rows[1..]| ensures rows[1..][i].id != x.id {
        assert rows[1..][i] == rows[i + 1];
      }
      InsertSortedUnique(x, rows[1..], key);
      var rest := InsertSorted(x, rows[1..], key);
      forall y | y in rest ensures y.id != rows[0].id {
        assert y in multiset(rest);
        if y != x {
          assert y in multiset(rows[1..]);
        }
      }
      assert InsertSorted(x, rows, key) == [rows[0]] + rest;
    }
  }

  /** Sorting a table with unique keys keeps them unique. */
  lemma {:induction false} SortByUnique<T>(rows: seq<Row<T>>, key: Row<T> -> Option<int>)
    requires UniqueIds(rows)
    ensures UniqueIds(SortBy(rows, key))
  {
    if rows != [] {
      UniqueTail(rows);
      SortByUnique(rows[1..], key);
      var rest := SortBy(rows[1..], key);
      forall i | 0 <= i < |rest| ensures rest[i].id != rows[0].id {
        assert rest[i] in multiset(rest);
        assert rest[i] in multiset(rows[1..]);
      }
      InsertSortedUnique(rows[0], rest, key);
    }
  }

  /** `orderBy(key).limit(1)`: a row whose key is not above any other's, or
      nothing for an empty table. */
  function Least<T(==)>(rows: seq<Row<T>>, key: Row<T> -> Option<int>): (r: Option<Row<T>>)
    ensures r.None? <==> rows == []
    ensures r.Some? ==> r.value in rows
    ensures r.Some? ==> forall i :: 0 <= i < |rows| ==> KeyLe(key(r.value), key(rows[i]))
  {
    var s := SortBy(rows, key);
    if s == [] then None
    else
      assert s[0] in multiset(rows);
      assert forall i :: 0 <= i < |rows| ==> KeyLe(key(s[0]), key(rows[i])) by {
        forall i | 0 <= i < |rows| ensures KeyLe(key(s[0]), key(rows[i])) {
          assert rows[i] in multiset(s);
          var j :| 0 <= j < |s| && s[j] == rows[i];
          if j == 0 {
            KeyLeTotal(key(s[0]), key(s[0]));
          }
        }
      }
      Some(s[0])
  }

  /** `update ... set f where id = ...`: the row with that key gets new data,
      every other row and the order of the table stay as they were. */
  function Update<T>(rows: seq<Row<T>>, id: Id, f: T -> T): (r: seq<Row<T>>)
    ensures |r| == |rows|
    ensures forall i :: 0 <= i < |rows| && rows[i].id != id ==> r[i] == rows[i]
    ensures forall i :: 0 <= i < |rows| && rows[i].id == id ==> r[i] == Row(id, f(rows[i].data))
  {
    if rows == [] then []
    else
      var head := if rows[0].id == id then Row(id, f(rows[0].data)) else rows[0];
      [head] + Update(rows[1..], id, f)
  }

  /** With unique keys, updating the key of row `k` rewrites that row alone. */
  lemma UpdateAt<T>(rows: seq<Row<T>>, k: int, f: T -> T)
    requires UniqueIds(rows) && 0 <= k < |rows|
    ensures Update(rows, rows[k].id, f) == rows[k := Row(rows[k].id, f(rows[k].data))]
  {
    assert forall i :: 0 <= i < |rows| && i != k ==> rows[i].id != rows[k].id;
  }

  /** `delete ... where id = ...`: every row with that key leaves the table, the
      others keep their order. A row is in the result exactly when it was in
      the table and has another key, so a delete never adds or alters a row. */
  function Delete<T(!new)>(rows: seq<Row<T>>, id: Id): (r: seq<Row<T>>)
    ensures forall x :: x in r <==> x in rows && x.id != id
    ensures |r| <= |rows|
  {
    if rows == [] then []
    else
      assert forall x :: x in rows <==> x == rows[0] || x in rows[1..];
      if rows[0].id == id then Delete(rows[1..], id)
      else [rows[0]] + Delete(rows[1..], id)
  }

  /** Deleting a key that is not in the table changes nothing. */
  lemma {:induction false} DeleteAbsent<T(!new)>(rows: seq<Row<T>>, id: Id)
    requires !HasId(rows, id)
    ensures Delete(rows, id) == rows
  {
    if rows != [] {
      forall i | 0 <= i < |rows[1..]| ensures rows[1..][i].id != id {
        assert rows[1..][i] == rows[i + 1];
      }
      DeleteAbsent(rows[1..], id);
      assert rows == [rows[0]] + rows[1..];
    }
  }

  lemma UniqueTail<T>(rows: seq<Row<T>>)
    requires rows != [] && UniqueIds(rows)
    ensures UniqueIds(rows[1..])
    ensures !HasId(rows[1..], rows[0].id)
  {
    forall i | 0 <= i < |rows[1..]| ensures rows[1..][i].id != rows[0].id {
      assert rows[1..][i] == rows[i + 1];
    }
  }

  /** Deleting works piece by piece over a table made of two parts. */
  lemma {:induction false} DeleteConcat<T(!new)>(a: seq<Row<T>>, b: seq<Row<T>>, id: Id)
    ensures Delete(a + b, id) == Delete(a, id) + Delete(b, id)
  {
    if a == [] {
      assert a + b == b;
    } else {
      assert (a + b)[1..] == a[1..] + b;
      DeleteConcat(a[1..], b, id);
    }
  }

  /** In a table with unique keys, deleting the key held at position `k` cuts
      out exactly that position. */
  lemma DeleteAt<T(!new)>(rows: seq<Row<T>>, id: Id, k: nat)
    requires UniqueIds(rows)
    requires k < |rows| && rows[k].id == id
    ensures Delete(rows, id) == rows[..k] + rows[k + 1..]
  {
    var before, after := rows[..k], rows[k + 1..];
    assert rows == before + ([rows[k]] + after);
    assert !HasId(before, id) by {
      forall i | 0 <= i < |before| ensures before[i].id != id {
        assert before[i] == rows[i];
      }
    }
    assert !HasId(after, id) by {
      forall i | 0 <= i < |after| ensures after[i].id != id {
        assert after[i] == rows[k + 1 + i];
      }
    }
    DeleteConcat(before, [rows[k]] + after, id);
    DeleteConcat([rows[k]], after, id);
    assert Delete([rows[k]], id) == [] by {
      assert [rows[k]][1..] == [];
    }
    DeleteAbsent(before, id);
    DeleteAbsent(after, id);
  }

  /** Cutting out one position keeps keys unique and drawn. */
  lemma CutKeepsValid<T>(rows: seq<Row<T>>, k: nat, bound: Id)
    requires TableValid(rows, bound) && k < |rows|
    ensures TableValid(rows[..k] + rows[k + 1..], bound)
  {
    var r := rows[..k] + rows[k + 1..];
    assert forall i :: 0 <= i < |r| ==> r[i] == rows[if i < k then i else i + 1];
  }

  /** Cutting out one position keeps a unique column unique. */
  lemma CutKeepsDistinct<T, K>(rows: seq<Row<T>>, k: nat, key: Row<T> -> K)
    requires DistinctBy(rows, key) && k < |rows|
    ensures DistinctBy(rows[..k] + rows[k + 1..], key)
  {
    var r := rows[..k] + rows[k + 1..];
    assert forall i :: 0 <= i < |r| ==> r[i] == rows[if i < k then i else i + 1];
  }

  /** Deleting keeps every key unique and every key drawn. */
  lemma DeleteKeepsValid<T(!new)>(rows: seq<Row<T>>, id: Id, bound: Id)
    requires TableValid(rows, bound)
    ensures TableValid(Delete(rows, id), bound)
  {
    if HasId(rows, id) {
      var k :| 0 <= k < |rows| && rows[k].id == id;
      DeleteAt(rows, id, k);
      CutKeepsValid(rows, k, bound);
    } else {
      DeleteAbsent(rows, id);
    }
  }

  /** Deleting keeps a unique column unique. */
  lemma DeleteKeepsDistinct<T(!new), K>(rows: seq<Row<T>>, id: Id, key: Row<T> -> K)
    requires UniqueIds(rows) && DistinctBy(rows, key)
    ensures DistinctBy(Delete(rows, id), key)
  {
    if HasId(rows, id) {
      var k :| 0 <= k < |rows| && rows[k].id == id;
      DeleteAt(rows, id, k);
      CutKeepsDistinct(rows, k, key);
    } else {
      DeleteAbsent(rows, id);
    }
  }

  /** Updating data in place keeps every key where it was. */
  lemma UpdateKeepsValid<T>(rows: seq<Row<T>>, id: Id, f: T -> T, bound: Id)
    requires TableValid(rows, bound)
    ensures TableValid(Update(rows, id, f), bound)
  {
    var r := Update(rows, id, f);
    assert forall i :: 0 <= i < |rows| ==> r[i].id == rows[i].id;
  }
}
