/**
 * Cached rows as the hooks see them: plain JavaScript objects. Object spread
 * `{...a, ...b}` and the `row.id === id` test are all the optimistic patches need,
 * so a row is a finite map from property names to values.
 */
module Rows {
  import opened Wrappers
  import opened SeqUtil

  /** A property value of a row. */
  datatype Value = Str(s: string) | Num(n: int) | Bool(b: bool) | Null | Undefined

  type Row = map<string, Value>

  /** `{...a, ...b}`: every property of `b`, plus the properties of `a` that `b` lacks. */
  function Spread(a: Row, b: Row): (r: Row)
    ensures r.Keys == a.Keys + b.Keys
    ensures forall k :: k in b ==> r[k] == b[k]
    ensures forall k :: k in a && k !in b ==> r[k] == a[k]
  {
    a + b
  }

  /** The row's `id` property, if it has one. */
  function IdOf(row: Row): Option<Value> {
    if "id" in row then Some(row["id"]) else None
  }

  /** `row.id === id` for a string `id`. */
  predicate HasId(row: Row, id: string) {
    IdOf(row) == Some(Str(id))
  }

  /** The slot invariant: no two rows carry the same id. */
  predicate UniqueIds(rows: seq<Row>) {
    forall i, j | 0 <= i < j < |rows| :: IdOf(rows[i]).Some? ==> IdOf(rows[i]) != IdOf(rows[j])
  }

  /** `rows.map(r => r.id === id ? { ...r, ...updates } : r)`. */
  function MergeById(rows: seq<Row>, id: string, updates: Row): (r: seq<Row>)
    ensures |r| == |rows|
    ensures forall i :: 0 <= i < |rows| && !HasId(rows[i], id) ==> r[i] == rows[i]
    ensures forall i :: 0 <= i < |rows| && HasId(rows[i], id) ==> r[i] == Spread(rows[i], updates)
  {
    if rows == [] then []
    else [if HasId(rows[0], id) then Spread(rows[0], updates) else rows[0]] + MergeById(rows[1..], id, updates)
  }

  /** `rows.filter(r => r.id !== id)`. */
  function RemoveById(rows: seq<Row>, id: string): (r: seq<Row>)
    ensures forall row :: row in r ==> !HasId(row, id)
    ensures forall row :: row in rows && !HasId(row, id) ==> row in r
    ensures forall row :: row in r ==> row in rows
  {
    Filter(rows, (row: Row) => !HasId(row, id))
  }

  /** Deleting keeps the surviving rows in their original order. */
  lemma RemoveKeepsOrder(rows: seq<Row>, id: string)
    ensures IsSubsequence(RemoveById(rows, id), rows)
  {
    FilterSubsequence(rows, (row: Row) => !HasId(row, id));
  }

  /** Deleting an id no row carries leaves the rows as they were. */
  lemma RemoveAbsentId(rows: seq<Row>, id: string)
    requires forall i :: 0 <= i < |rows| ==> !HasId(rows[i], id)
    ensures RemoveById(rows, id) == rows
  {
    FilterAll(rows, (row: Row) => !HasId(row, id));
  }

  /** A merge that does not write `id` leaves every row's id where it was. */
  lemma MergeKeepsIds(rows: seq<Row>, id: string, updates: Row)
    requires "id" !in updates
    ensures forall i :: 0 <= i < |rows| ==> IdOf(MergeById(rows, id, updates)[i]) == IdOf(rows[i])
    ensures UniqueIds(rows) ==> UniqueIds(MergeById(rows, id, updates))
  {
  }

  /** Deleting rows cannot create duplicate ids. */
  lemma {:induction false} RemoveKeepsUniqueIds(rows: seq<Row>, id: string)
    requires UniqueIds(rows)
    ensures UniqueIds(RemoveById(rows, id))
  {
    if rows != [] {
      var tail := rows[1..];
      assert UniqueIds(tail) by {
        forall i, j | 0 <= i < j < |tail| ensures IdOf(tail[i]).Some? ==> IdOf(tail[i]) != IdOf(tail[j]) {
          assert tail[i] == rows[i + 1] && tail[j] == rows[j + 1];
        }
      }
      RemoveKeepsUniqueIds(tail, id);
      var rest := RemoveById(tail, id);
      if !HasId(rows[0], id) {
        var r := RemoveById(rows, id);
        assert r == [rows[0]] + rest;
        forall i, j | 0 <= i < j < |r| ensures IdOf(r[i]).Some? ==> IdOf(r[i]) != IdOf(r[j]) {
          if i == 0 {
            assert r[j] in tail;
            var k :| 0 <= k < |tail| && tail[k] == r[j];
            assert rows[k + 1] == r[j];
          } else {
            assert r[i] == rest[i - 1] && r[j] == rest[j - 1];
          }
        }
      } else {
        assert RemoveById(rows, id) == rest;
      }
    }
  }

  /** Appending a row whose id no cached row carries keeps ids unique. */
  lemma AppendKeepsUniqueIds(rows: seq<Row>, row: Row)
    requires UniqueIds(rows)
    requires forall i :: 0 <= i < |rows| ==> IdOf(rows[i]) != IdOf(row)
    ensures UniqueIds(rows + [row])
  {
  }
}
