/**
 * A worksheet as the ledger sees it: a list of rows, each a list of cell
 * strings. The three worksheet calls services.py makes to change Settings
 * are `find(key)`, `update_cell(row, 2, value)` and `append_row(cells)`;
 * `Upsert` is the find-then-update-or-append pattern that
 * `add_fixed_expense` and `set_budget_limit` share.
 */
module Tables {
  import opened Wrappers

  /** One row as `get_all_values()` returns it. */
  type Row = seq<string>

  /** Whether a row is filed under `key`, i.e. its first cell is the key. */
  predicate HasKey(row: Row, key: string) {
    |row| > 0 && row[0] == key
  }

  /** `sheet.find(key)`: the index of the first row filed under `key`, if any. */
  function FindKey(rows: seq<Row>, key: string): (r: Option<nat>)
    ensures r.Some? ==> r.value < |rows| && HasKey(rows[r.value], key)
    ensures r.Some? ==> forall i | 0 <= i < r.value :: !HasKey(rows[i], key)
    ensures r.None? ==> forall i | 0 <= i < |rows| :: !HasKey(rows[i], key)
    decreases |rows|
  {
    if rows == [] then None
    else if HasKey(rows[0], key) then Some(0)
    else
      match FindKey(rows[1..], key)
      case None => None
      case Some(i) => Some(i + 1)
  }

  /** `update_cell(row, 2, value)` on a found row: the second cell becomes `value`. */
  function SetSecondCell(row: Row, value: string): (r: Row)
    requires |row| > 0
    ensures |r| == if |row| >= 2 then |row| else 2
    ensures r[0] == row[0] && r[1] == value
    ensures forall c | 2 <= c < |row| :: r[c] == row[c]
  {
    if |row| >= 2 then row[1 := value] else row + [value]
  }

  /**
   * Find the row filed under `key` and set its second cell to `value`, or
   * append `[key, value]` when there is none.
   */
  function Upsert(rows: seq<Row>, key: string, value: string): (r: seq<Row>)
    ensures FindKey(rows, key).None? ==> |r| == |rows| + 1 && r[..|rows|] == rows && r[|rows|] == [key, value]
    ensures FindKey(rows, key).Some? ==>
      var i := FindKey(rows, key).value;
      |r| == |rows| && |r[i]| >= 2 && r[i][0] == key && r[i][1] == value &&
      forall j | 0 <= j < |rows| && j != i :: r[j] == rows[j]
  {
    match FindKey(rows, key)
    case None => rows + [[key, value]]
    case Some(i) => rows[i := SetSecondCell(rows[i], value)]
  }

  /** The number of rows filed under `key`. */
  function KeyRows(rows: seq<Row>, key: string): (n: nat)
    ensures n <= |rows|
    decreases |rows|
  {
    if rows == [] then 0
    else KeyRows(rows[..|rows| - 1], key) + (if HasKey(rows[|rows| - 1], key) then 1 else 0)
  }

  /** Appending a row adds one to the count exactly when the row is filed under the key. */
  lemma {:induction false} KeyRowsAppend(rows: seq<Row>, row: Row, key: string)
    ensures KeyRows(rows + [row], key) == KeyRows(rows, key) + (if HasKey(row, key) then 1 else 0)
  {
    assert (rows + [row])[..|rows|] == rows;
  }

  /** Rows not filed under `key` contribute nothing to its count. */
  lemma {:induction false} KeyRowsNone(rows: seq<Row>, key: string)
    requires forall i | 0 <= i < |rows| :: !HasKey(rows[i], key)
    ensures KeyRows(rows, key) == 0
    decreases |rows|
  {
    if rows != [] {
      KeyRowsNone(rows[..|rows| - 1], key);
    }
  }

  /** Replacing one row by another filed under the same key keeps the count. */
  lemma {:induction false} KeyRowsReplace(rows: seq<Row>, i: nat, row: Row, key: string)
    requires i < |rows| && HasKey(rows[i], key) == HasKey(row, key)
    ensures KeyRows(rows[i := row], key) == KeyRows(rows, key)
    decreases |rows|
  {
    var n := |rows|;
    if i < n - 1 {
      assert rows[i := row][..n - 1] == rows[..n - 1][i := row];
      KeyRowsReplace(rows[..n - 1], i, row, key);
    } else {
      assert rows[i := row][..n - 1] == rows[..n - 1];
    }
  }

  /**
   * Upserting never files a key twice: afterwards it is filed once if it
   * was filed at most once before, and as often as before otherwise.
   */
  lemma {:induction false} UpsertKeyRows(rows: seq<Row>, key: string, value: string)
    ensures KeyRows(Upsert(rows, key, value), key) == if KeyRows(rows, key) == 0 then 1 else KeyRows(rows, key)
  {
    match FindKey(rows, key)
    case None =>
      KeyRowsNone(rows, key);
      KeyRowsAppend(rows, [key, value], key);
    case Some(i) =>
      KeyRowsReplace(rows, i, SetSecondCell(rows[i], value), key);
      KeyRowsPositive(rows, i, key);
  }

  /** A key filed at some row is counted. */
  lemma {:induction false} KeyRowsPositive(rows: seq<Row>, i: nat, key: string)
    requires i < |rows| && HasKey(rows[i], key)
    ensures KeyRows(rows, key) > 0
    decreases |rows|
  {
    if i < |rows| - 1 {
      KeyRowsPositive(rows[..|rows| - 1], i, key);
    }
  }

  /** After an upsert the key is found on a row whose second cell is the value. */
  lemma {:induction false} UpsertThenFind(rows: seq<Row>, key: string, value: string)
    ensures FindKey(Upsert(rows, key, value), key).Some?
    ensures var r := Upsert(rows, key, value);
      var i := FindKey(r, key).value;
      |r[i]| >= 2 && r[i][1] == value
  {
    var r := Upsert(rows, key, value);
    match FindKey(rows, key)
    case None =>
      assert HasKey(r[|rows|], key);
      FindKeyFirst(r, |rows|, key);
    case Some(i) =>
      FindKeyFirst(r, i, key);
  }

  /** The first row filed under a key is the one `find` returns. */
  lemma {:induction false} FindKeyFirst(rows: seq<Row>, i: nat, key: string)
    requires i < |rows| && HasKey(rows[i], key)
    requires forall j | 0 <= j < i :: !HasKey(rows[j], key)
    ensures FindKey(rows, key) == Some(i)
    decreases i
  {
    if i > 0 {
      assert forall j | 0 <= j < i - 1 :: rows[1..][j] == rows[j + 1];
      FindKeyFirst(rows[1..], i - 1, key);
    }
  }

  /** Repeating an upsert with the same value changes nothing. */
  lemma {:induction false} UpsertIdempotent(rows: seq<Row>, key: string, value: string)
    ensures Upsert(Upsert(rows, key, value), key, value) == Upsert(rows, key, value)
  {
    UpsertOverwrites(rows, key, value, value);
  }

  /** A second upsert of the same key replaces the first one's value: the last write wins. */
  lemma {:induction false} UpsertOverwrites(rows: seq<Row>, key: string, v1: string, v2: string)
    ensures Upsert(Upsert(rows, key, v1), key, v2) == Upsert(rows, key, v2)
  {
    var r := Upsert(rows, key, v1);
    match FindKey(rows, key)
    case None =>
      assert HasKey(r[|rows|], key);
      FindKeyFirst(r, |rows|, key);
      assert SetSecondCell([key, v1], v2) == [key, v2];
      assert r[|rows| := [key, v2]] == rows + [[key, v2]];
    case Some(i) =>
      FindKeyFirst(r, i, key);
      assert SetSecondCell(SetSecondCell(rows[i], v1), v2) == SetSecondCell(rows[i], v2);
  }

  /** An upsert leaves the count of every other key as it was. */
  lemma {:induction false} UpsertOtherKey(rows: seq<Row>, key: string, value: string, other: string)
    requires other != key
    ensures KeyRows(Upsert(rows, key, value), other) == KeyRows(rows, other)
  {
    match FindKey(rows, key)
    case None =>
      KeyRowsAppend(rows, [key, value], other);
    case Some(i) =>
      KeyRowsReplace(rows, i, SetSecondCell(rows[i], value), other);
  }
}
