/**
 * The two tables of the service are sequences of rows kept in rowid order.
 * This module gives the meaning of the one SQL statement that removes rows,
 * `DELETE FROM t WHERE ...`, and of the count SQLite reports for it
 * (`this.changes`).
 */
module Tables {

  /** The rows that `DELETE ... WHERE matches(row)` leaves in the table, in their original order. */
  function DeleteWhere<R>(rows: seq<R>, matches: R -> bool): (kept: seq<R>)
    ensures |kept| <= |rows|
    ensures forall i :: 0 <= i < |kept| ==> kept[i] in rows && !matches(kept[i])
    ensures forall i :: 0 <= i < |rows| && !matches(rows[i]) ==> rows[i] in kept
  {
    if rows == [] then []
    else if matches(rows[0]) then DeleteWhere(rows[1..], matches)
    else [rows[0]] + DeleteWhere(rows[1..], matches)
  }

  /** How many rows `DELETE ... WHERE matches(row)` removes: SQLite's `changes`. */
  function MatchCount<R>(rows: seq<R>, matches: R -> bool): (n: nat)
    ensures n <= |rows|
    ensures n == 0 <==> forall i :: 0 <= i < |rows| ==> !matches(rows[i])
  {
    if rows == [] then 0
    else (if matches(rows[0]) then 1 else 0) + MatchCount(rows[1..], matches)
  }

  /** `r` is obtained from `s` by dropping some elements and keeping the others in order. */
  ghost predicate IsSubsequence<T>(r: seq<T>, s: seq<T>)
    decreases |s|
  {
    if r == [] then true
    else if s == [] then false
    else (r[0] == s[0] && IsSubsequence(r[1..], s[1..])) || IsSubsequence(r, s[1..])
  }

  /** The rows are in strictly increasing order of their ids (rowid order). */
  ghost predicate IdsIncreasing<R>(rows: seq<R>, id: R -> int) {
    forall i, j :: 0 <= i < j < |rows| ==> id(rows[i]) < id(rows[j])
  }

  /** The rows left and the rows removed add up to the table: `changes` is the size difference. */
  lemma {:induction false} DeleteWhereChanges<R>(rows: seq<R>, matches: R -> bool)
    ensures |rows| - |DeleteWhere(rows, matches)| == MatchCount(rows, matches)
  {
    if rows != [] {
      DeleteWhereChanges(rows[1..], matches);
    }
  }

  /** A `DELETE` whose condition matches no row leaves the table exactly as it was. */
  lemma {:induction false} DeleteWhereNothingMatches<R>(rows: seq<R>, matches: R -> bool)
    requires forall i :: 0 <= i < |rows| ==> !matches(rows[i])
    ensures DeleteWhere(rows, matches) == rows
  {
    if rows != [] {
      assert rows == [rows[0]] + rows[1..];
      DeleteWhereNothingMatches(rows[1..], matches);
    }
  }

  /** The surviving rows keep their original relative order. */
  lemma {:induction false} DeleteWhereKeepsOrder<R>(rows: seq<R>, matches: R -> bool)
    ensures IsSubsequence(DeleteWhere(rows, matches), rows)
  {
    if rows != [] {
      var rest := DeleteWhere(rows[1..], matches);
      DeleteWhereKeepsOrder(rows[1..], matches);
      if !matches(rows[0]) {
        var kept := [rows[0]] + rest;
        assert kept[0] == rows[0] && kept[1..] == rest;
      }
    }
  }

  /** Deleting rows from a table in rowid order leaves it in rowid order. */
  lemma {:induction false} DeleteWhereKeepsIdsIncreasing<R>(rows: seq<R>, matches: R -> bool, id: R -> int)
    requires IdsIncreasing(rows, id)
    ensures IdsIncreasing(DeleteWhere(rows, matches), id)
  {
    if rows != [] {
      assert IdsIncreasing(rows[1..], id);
      DeleteWhereKeepsIdsIncreasing(rows[1..], matches, id);
      var rest := DeleteWhere(rows[1..], matches);
      if !matches(rows[0]) {
        forall k | 0 <= k < |rest| ensures id(rows[0]) < id(rest[k]) {
          var j :| 0 <= j < |rows[1..]| && rows[1..][j] == rest[k];
          assert rows[j + 1] == rest[k];
        }
      }
    }
  }
}
