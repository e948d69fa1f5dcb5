/**
 * The SQLite transaction store (database.py): one `transactions` table whose
 * rows have six columns, kept in insertion order (the order a `SELECT *` with
 * no `ORDER BY` returns them in on a table that is never vacuumed).
 */
module Database {
  import opened Wrappers
  import opened Strings
  import opened Frame

  /**
   * One stored row: receipt_no, date, time, description, amount, category.
   * Any column may hold NULL (`Missing`), which is what NaN and None become.
   */
  datatype Tx = Tx(receiptNo: Cell, date: Cell, time: Cell, description: Cell, amount: Cell, category: Cell)

  /**
   * `WHERE receipt_no = ? AND date = ? AND amount = ?`. SQL `=` is `PyEq`:
   * NULL equals nothing, not even NULL.
   */
  predicate SameKey(t: Tx, receiptNo: Cell, date: Cell, amount: Cell) {
    PyEq(t.receiptNo, receiptNo) && PyEq(t.date, date) && PyEq(t.amount, amount)
  }

  /** Some stored row has the given (receipt_no, date, amount). */
  predicate Stored(rows: seq<Tx>, receiptNo: Cell, date: Cell, amount: Cell) {
    exists i :: 0 <= i < |rows| && SameKey(rows[i], receiptNo, date, amount)
  }

  /** `description LIKE '%f%' OR receipt_no LIKE '%f%'`, as a plain substring test on text. */
  predicate Found(t: Tx, f: string) {
    || (t.description.Text? && Contains(t.description.s, f))
    || (t.receiptNo.Text? && Contains(t.receiptNo.s, f))
  }

  /** The rows a search for `f` returns, in table order. */
  function Matching(rows: seq<Tx>, f: string): (r: seq<Tx>)
    ensures forall t :: t in r <==> t in rows && Found(t, f)
    ensures |r| <= |rows|
  {
    var k := Kept(rows, (t: Tx) => Found(t, f));
    assert forall t :: t in rows && Found(t, f) ==> t in Pick(rows, k) by {
      forall t | t in rows && Found(t, f) ensures t in Pick(rows, k) {
        var i :| 0 <= i < |rows| && rows[i] == t;
        var j :| 0 <= j < |k| && k[j] == i;
        assert Pick(rows, k)[j] == t;
      }
    }
    Pick(rows, k)
  }

  /** The table after `UPDATE transactions SET category = c WHERE receipt_no = r`. */
  function Updated(rows: seq<Tx>, receiptNo: Cell, category: Cell): seq<Tx> {
    seq(|rows|, i requires 0 <= i < |rows| =>
      if PyEq(rows[i].receiptNo, receiptNo) then rows[i].(category := category) else rows[i])
  }

  /**
   * An update reaches every row carrying the receipt number, not just one;
   * rows with another (or a NULL) receipt number are untouched, and no column
   * but the category ever changes.
   */
  lemma UpdateReachesAll(rows: seq<Tx>, receiptNo: Cell, category: Cell)
    ensures var r := Updated(rows, receiptNo, category);
      && |r| == |rows|
      && (forall i :: 0 <= i < |rows| && PyEq(rows[i].receiptNo, receiptNo) ==> r[i].category == category)
      && (forall i :: 0 <= i < |rows| && !PyEq(rows[i].receiptNo, receiptNo) ==> r[i] == rows[i])
      && (forall i :: 0 <= i < |rows| ==> r[i] == rows[i].(category := r[i].category))
  {
  }

  /** Repeating an update changes nothing more. */
  lemma UpdateIdempotent(rows: seq<Tx>, receiptNo: Cell, category: Cell)
    ensures Updated(Updated(rows, receiptNo, category), receiptNo, category) == Updated(rows, receiptNo, category)
  {
  }

  /** A NULL receipt number matches no row, so updating by it changes nothing. */
  lemma UpdateByNullIsNoop(rows: seq<Tx>, category: Cell)
    ensures Updated(rows, Missing, category) == rows
  {
  }

  /**
   * The connection to transactions.db. `created` says whether the table
   * exists; `rows` is its contents.
   */
  class TransactionStore {
    var created: bool
    var rows: seq<Tx>

    /** `create_connection` (database.py:7-12): the file's table, if it has one. */
    constructor Connect(existing: Option<seq<Tx>>)
      ensures created == existing.Some?
      ensures rows == if existing.Some? then existing.value else []
    {
      created := existing.Some?;
      rows := if existing.Some? then existing.value else [];
    }

    /** `create_table` (database.py:14-30): `IF NOT EXISTS` keeps an existing table's rows. */
    method CreateTable()
      modifies this
      ensures created
      ensures rows == if old(created) then old(rows) else []
    {
      if !created {
        created := true;
        rows := [];
      }
    }

    /** `insert_transaction` (database.py:32-42): appends the row; no deduplication. */
    method Insert(tx: Tx)
      requires created
      modifies this
      ensures created && rows == old(rows) + [tx]
    {
      rows := rows + [tx];
    }

    /** `transaction_exists` (database.py:44-51). */
    method Exists(receiptNo: Cell, date: Cell, amount: Cell) returns (found: bool)
      requires created
      ensures found <==> Stored(rows, receiptNo, date, amount)
    {
      found := false;
      var i := 0;
      while i < |rows|
        invariant 0 <= i <= |rows|
        invariant found <==> exists k :: 0 <= k < i && SameKey(rows[k], receiptNo, date, amount)
      {
        if SameKey(rows[i], receiptNo, date, amount) {
          found := true;
        }
        i := i + 1;
      }
    }

    /**
     * `get_transactions` (database.py:53-65): every row when the filter is
     * absent or empty, else the rows whose description or receipt number
     * contains it.
     */
    method Get(filter: Option<string>) returns (result: seq<Tx>)
      requires created
      ensures filter.None? || filter == Some("") ==> result == rows
      ensures filter.Some? && filter.value != "" ==> result == Matching(rows, filter.value)
    {
      if filter.None? || filter.value == "" {
        return rows;
      }
      var f := filter.value;
      result := [];
      ghost var k: seq<nat> := [];
      var i := 0;
      while i < |rows|
        invariant 0 <= i <= |rows|
        invariant k == Kept(rows[..i], (t: Tx) => Found(t, f))
        invariant forall j :: 0 <= j < |k| ==> k[j] < i
        invariant result == Pick(rows, k)
      {
        KeptSnoc(rows, (t: Tx) => Found(t, f), i);
        if Found(rows[i], f) {
          PickSnoc(rows, k, i);
          result := result + [rows[i]];
          k := k + [i];
        }
        i := i + 1;
      }
      assert rows[..|rows|] == rows;
    }

    /** `update_transaction_category` (database.py:67-73). */
    method UpdateCategory(receiptNo: Cell, category: Cell)
      requires created
      modifies this
      ensures created && rows == Updated(old(rows), receiptNo, category)
    {
      var out := [];
      var i := 0;
      while i < |rows|
        invariant 0 <= i <= |rows|
        invariant out == Updated(rows[..i], receiptNo, category)
      {
        out := out + [if PyEq(rows[i].receiptNo, receiptNo) then rows[i].(category := category) else rows[i]];
        i := i + 1;
      }
      assert rows[..|rows|] == rows;
      rows := out;
    }
  }
}
