/**
 * The slice of pandas the pipeline uses: cells, rows keyed by column name,
 * tables with an ordered column list and index labels, and the column-wise
 * operations `df[c] = ...`, `df.drop`, `df.rename` and boolean-mask filtering.
 */
module Frame {

  /**
   * A cell: NaN/None (which SQLite stores as NULL), a string, or a float.
   * The same three kinds are what an SQLite column of the store holds.
   */
  datatype Cell = Missing | Text(s: string) | Number(x: real)

  /** Python `a == b` on cells: NaN equals nothing, not even another NaN. */
  predicate PyEq(a: Cell, b: Cell) {
    !a.Missing? && a == b
  }

  type Row = map<string, Cell>

  predicate Distinct<T(==)>(s: seq<T>) {
    forall i, j :: 0 <= i < j < |s| ==> s[i] != s[j]
  }

  /** The names a list holds (column names, or a dictionary's category names), as a set. */
  function ColumnSet(cols: seq<string>): set<string> {
    set c | c in cols
  }

  /** A DataFrame: its column names in order, its index labels, and one row per label. */
  datatype Table = Table(columns: seq<string>, labels: seq<nat>, rows: seq<Row>)

  ghost predicate Valid(t: Table) {
    && Distinct(t.columns)
    && Distinct(t.labels)
    && |t.labels| == |t.rows|
    && forall i :: 0 <= i < |t.rows| ==> t.rows[i].Keys == ColumnSet(t.columns)
  }

  /** The columns after `df[c] = ...`: a new column goes last, an existing one keeps its place. */
  function WithColumn(cols: seq<string>, c: string): (r: seq<string>)
    ensures ColumnSet(r) == ColumnSet(cols) + {c}
    ensures Distinct(cols) ==> Distinct(r)
    ensures c in cols ==> r == cols
  {
    if c in cols then cols else cols + [c]
  }

  /** The columns after `df.drop(columns=c)`. */
  function WithoutColumn(cols: seq<string>, c: string): (r: seq<string>)
    ensures ColumnSet(r) == ColumnSet(cols) - {c}
    ensures Distinct(cols) ==> Distinct(r)
    ensures |r| <= |cols|
    ensures c !in cols ==> r == cols
  {
    if cols == [] then []
    else
      var rest := WithoutColumn(cols[1..], c);
      assert ColumnSet(cols) == {cols[0]} + ColumnSet(cols[1..]);
      if cols[0] == c then rest
      else
        assert ColumnSet([cols[0]] + rest) == {cols[0]} + ColumnSet(rest);
        assert Distinct(cols) ==> cols[0] !in ColumnSet(cols[1..]);
        [cols[0]] + rest
  }

  /** The columns after `df.rename(columns={a: b})`: `b` takes `a`'s place. */
  function RenameColumn(cols: seq<string>, a: string, b: string): (r: seq<string>)
    ensures |r| == |cols|
    ensures forall i :: 0 <= i < |cols| ==> r[i] == if cols[i] == a then b else cols[i]
    ensures a in cols ==> ColumnSet(r) == ColumnSet(cols) - {a} + {b}
    ensures Distinct(cols) && b !in cols ==> Distinct(r)
  {
    var r := seq(|cols|, i requires 0 <= i < |cols| => if cols[i] == a then b else cols[i]);
    assert a in cols ==> ColumnSet(r) == ColumnSet(cols) - {a} + {b} by {
      if a in cols {
        forall c | c in ColumnSet(cols) - {a} + {b} ensures c in ColumnSet(r) {
          if c == b {
            var i :| 0 <= i < |cols| && cols[i] == a;
            assert r[i] == b;
          } else {
            var i :| 0 <= i < |cols| && cols[i] == c;
            assert r[i] == c;
          }
        }
      }
    }
    r
  }

  /**
   * `df[c] = df[c].map(f)` and the like, row by row: every row is replaced by
   * its image under `f`, in order.
   */
  method MapRows(rows: seq<Row>, f: Row -> Row) returns (out: seq<Row>)
    ensures |out| == |rows|
    ensures forall i :: 0 <= i < |rows| ==> out[i] == f(rows[i])
  {
    out := [];
    var i := 0;
    while i < |rows|
      invariant 0 <= i <= |rows|
      invariant |out| == i
      invariant forall k :: 0 <= k < i ==> out[k] == f(rows[k])
    {
      out := out + [f(rows[i])];
      i := i + 1;
    }
  }

  /** The positions of `s` whose element satisfies `keep`, in increasing order. */
  function Kept<T>(s: seq<T>, keep: T -> bool): (k: seq<nat>)
    ensures forall j :: 0 <= j < |k| ==> k[j] < |s| && keep(s[k[j]])
    ensures forall j, j' :: 0 <= j < j' < |k| ==> k[j] < k[j']
    ensures forall i :: 0 <= i < |s| && keep(s[i]) ==> i in k
    ensures |k| <= |s|
  {
    if s == [] then []
    else
      var k := Kept(s[..|s| - 1], keep);
      assert forall i :: 0 <= i < |s| - 1 ==> s[..|s| - 1][i] == s[i];
      if keep(s[|s| - 1]) then k + [|s| - 1] else k
  }

  /** The elements of `s` at positions `k`. */
  function Pick<T>(s: seq<T>, k: seq<nat>): (r: seq<T>)
    requires forall j :: 0 <= j < |k| ==> k[j] < |s|
    ensures |r| == |k| && forall j :: 0 <= j < |k| ==> r[j] == s[k[j]]
  {
    seq(|k|, j requires 0 <= j < |k| => s[k[j]])
  }

  lemma KeptSnoc<T>(s: seq<T>, keep: T -> bool, i: nat)
    requires i < |s|
    ensures Kept(s[..i + 1], keep) == Kept(s[..i], keep) + if keep(s[i]) then [i] else []
  {
    assert s[..i + 1][..i] == s[..i];
  }

  lemma PickSnoc<T>(s: seq<T>, k: seq<nat>, i: nat)
    requires i < |s| && forall j :: 0 <= j < |k| ==> k[j] < |s|
    ensures Pick(s, k + [i]) == Pick(s, k) + [s[i]]
  {
  }

  /** The positions kept and the positions dropped by one predicate partition the sequence. */
  lemma {:induction false} KeptComplement<T>(s: seq<T>, keep: T -> bool, drop: T -> bool)
    requires forall x :: drop(x) == !keep(x)
    ensures |Kept(s, keep)| + |Kept(s, drop)| == |s|
  {
    if s != [] {
      KeptComplement(s[..|s| - 1], keep, drop);
    }
  }

  /** Picking at strictly increasing positions keeps distinct elements distinct. */
  lemma PickDistinct<T>(s: seq<T>, k: seq<nat>)
    requires forall j :: 0 <= j < |k| ==> k[j] < |s|
    requires forall j, j' :: 0 <= j < j' < |k| ==> k[j] < k[j']
    requires Distinct(s)
    ensures Distinct(Pick(s, k))
  {
  }

  /**
   * `df[mask]` for a row-wise mask: the rows satisfying `keep` and their index
   * labels, in their original order.
   */
  method FilterRows(labels: seq<nat>, rows: seq<Row>, keep: Row -> bool) returns (labels': seq<nat>, rows': seq<Row>)
    requires |labels| == |rows|
    ensures labels' == Pick(labels, Kept(rows, keep))
    ensures rows' == Pick(rows, Kept(rows, keep))
  {
    labels', rows' := [], [];
    ghost var k: seq<nat> := [];
    var i := 0;
    while i < |rows|
      invariant 0 <= i <= |rows|
      invariant k == Kept(rows[..i], keep)
      invariant forall j :: 0 <= j < |k| ==> k[j] < i
      invariant labels' == Pick(labels, k) && rows' == Pick(rows, k)
    {
      KeptSnoc(rows, keep, i);
      if keep(rows[i]) {
        PickSnoc(labels, k, i);
        PickSnoc(rows, k, i);
        labels', rows' := labels' + [labels[i]], rows' + [rows[i]];
        k := k + [i];
      }
      i := i + 1;
    }
    assert rows[..|rows|] == rows;
  }
}
