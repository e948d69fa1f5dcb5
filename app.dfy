/**
 * The flows of app.py that write to the stores: the review-save loop of the
 * upload page, the deduplicating ingest, the edit-and-propagate loop of the
 * database page, and the two spending summaries.
 */
module App {
  import opened Wrappers
  import opened Numbers
  import opened Frame
  import opened Categories
  import opened Database
  import Processor

  // ---------------------------------------------------------------------------
  // Receipt ids (app.py:144)

  const ReceiptNo := "Receipt No"
  const TransactionId := "Transaction ID"

  /** The columns of the review editor, which shows a five-column view of the cleaned table (app.py:114). */
  function EditorColumns(): set<string> {
    {Processor.Date, Processor.Time, Processor.Description, Processor.Amount, Processor.Category}
  }

  /** A row the review editor hands back: it has the five columns the loops read. */
  predicate Editable(row: Row) {
    EditorColumns() <= row.Keys
  }

  /** `row.get(c, '')` */
  function Lookup(row: Row, c: string): Cell {
    if c in row then row[c] else Text("")
  }

  /**
   * Python truthiness of a cell: NaN is true, the empty string and 0.0 are false.
   * A missing cell is read as NaN; a None cell, which Python finds false, is not modelled.
   */
  predicate Truthy(c: Cell) {
    match c
    case Missing => true
    case Text(s) => s != ""
    case Number(x) => x != 0.0
  }

  /** `f"TXN_{row.name}_{row['Date']}"` */
  function Synthesized(index: nat, date: Cell, show: real -> string): string {
    "TXN_" + Digits(index) + "_" + Processor.Str(date, show)
  }

  /** `row.get('Receipt No', '') or row.get('Transaction ID', '') or f"TXN_..."` */
  function ReceiptId(row: Row, index: nat, show: real -> string): (r: Cell)
    requires Processor.Date in row
    ensures Truthy(r)
    ensures r == Lookup(row, ReceiptNo) || r == Lookup(row, TransactionId) || r == Text(Synthesized(index, row[Processor.Date], show))
    ensures Truthy(Lookup(row, ReceiptNo)) ==> r == Lookup(row, ReceiptNo)
    ensures !Truthy(Lookup(row, ReceiptNo)) && Truthy(Lookup(row, TransactionId)) ==> r == Lookup(row, TransactionId)
    ensures !Truthy(Lookup(row, ReceiptNo)) && !Truthy(Lookup(row, TransactionId)) ==> r == Text(Synthesized(index, row[Processor.Date], show))
    ensures r.Missing? ==> Lookup(row, ReceiptNo).Missing? || Lookup(row, TransactionId).Missing?
  {
    if Truthy(Lookup(row, ReceiptNo)) then Lookup(row, ReceiptNo)
    else if Truthy(Lookup(row, TransactionId)) then Lookup(row, TransactionId)
    else Text(Synthesized(index, row[Processor.Date], show))
  }

  /** Splitting at the first occurrence of a separator neither prefix contains. */
  lemma SplitAtSeparator(a: string, x: string, b: string, y: string, sep: char)
    requires sep !in a && sep !in b
    requires a + [sep] + x == b + [sep] + y
    ensures a == b && x == y
  {
    var s := a + [sep] + x;
    assert forall k :: 0 <= k < |a| ==> s[k] == a[k];
    assert forall k :: 0 <= k < |b| ==> s[k] == b[k];
    assert s[|a|] == sep && s[|b|] == sep;
    assert |a| == |b|;
    assert a == s[..|a|] == b;
    assert x == s[|a| + 1..] == y;
  }

  /** Ids of the synthesized shape split back into their digits and their date text. */
  lemma SynthesizedSplit(a: string, x: string, b: string, y: string)
    requires AllDigits(a) && AllDigits(b)
    requires "TXN_" + a + "_" + x == "TXN_" + b + "_" + y
    ensures a == b && x == y
  {
    var s := "TXN_" + a + "_" + x;
    assert s[4..] == a + "_" + x;
    assert s[4..] == b + "_" + y;
    assert !IsDigit('_');
    SplitAtSeparator(a, x, b, y, '_');
  }

  /**
   * Synthesized ids tell rows apart exactly by index label and by the text of
   * the date: two rows of different uploads that share both collide.
   */
  lemma SynthesizedInjective(i1: nat, d1: Cell, i2: nat, d2: Cell, show: real -> string)
    ensures Synthesized(i1, d1, show) == Synthesized(i2, d2, show) <==>
      i1 == i2 && Processor.Str(d1, show) == Processor.Str(d2, show)
  {
    if Synthesized(i1, d1, show) == Synthesized(i2, d2, show) {
      SynthesizedSplit(Digits(i1), Processor.Str(d1, show), Digits(i2), Processor.Str(d2, show));
    }
  }

  /**
   * The rows of the review editor never carry `Receipt No` or `Transaction ID`,
   * so ingest always falls back to the synthesized id.
   */
  lemma EditorRowsSynthesize(row: Row, index: nat, show: real -> string)
    requires row.Keys == EditorColumns()
    ensures ReceiptId(row, index, show) == Text(Synthesized(index, row[Processor.Date], show))
  {
    assert ReceiptNo !in row && TransactionId !in row;
  }

  // ---------------------------------------------------------------------------
  // Deduplicating ingest (app.py:142-150)

  /** The row inserted for an editor row: `(receipt_no, str(Date), Time, Description, Amount, Category)`. */
  function Record(row: Row, index: nat, show: real -> string): (r: Tx)
    requires Editable(row)
    ensures Truthy(r.receiptNo) && r.date.Text?
    ensures Keyed(r) <==> !ReceiptId(row, index, show).Missing? && !row[Processor.Amount].Missing?
  {
    Tx(ReceiptId(row, index, show), Text(Processor.Str(row[Processor.Date], show)), row[Processor.Time],
       row[Processor.Description], row[Processor.Amount], row[Processor.Category])
  }

  predicate Ingestible(edited: Table) {
    |edited.labels| == |edited.rows| && forall i :: 0 <= i < |edited.rows| ==> Editable(edited.rows[i])
  }

  function Records(edited: Table, show: real -> string): seq<Tx>
    requires Ingestible(edited)
  {
    seq(|edited.rows|, i requires 0 <= i < |edited.rows| => Record(edited.rows[i], edited.labels[i], show))
  }

  /** `transaction_exists` would find `t`'s key among `rows`. */
  predicate Duplicate(rows: seq<Tx>, t: Tx) {
    Stored(rows, t.receiptNo, t.date, t.amount)
  }

  /** The store after ingesting `txs` in order: each is inserted unless its key is already there. */
  function Ingested(stored: seq<Tx>, txs: seq<Tx>): seq<Tx> {
    if txs == [] then stored
    else
      var before := Ingested(stored, txs[..|txs| - 1]);
      var t := txs[|txs| - 1];
      if Duplicate(before, t) then before else before + [t]
  }

  /** The ingest loop: returns `new_count`. */
  method Ingest(db: TransactionStore, edited: Table, show: real -> string) returns (newCount: nat)
    requires db.created && Ingestible(edited)
    modifies db
    ensures db.created
    ensures db.rows == Ingested(old(db.rows), Records(edited, show))
    ensures newCount == |db.rows| - |old(db.rows)|
  {
    ghost var txs := Records(edited, show);
    ghost var stored := db.rows;
    newCount := 0;
    var i := 0;
    while i < |edited.rows|
      invariant 0 <= i <= |edited.rows|
      invariant db.created
      invariant db.rows == Ingested(stored, txs[..i])
      invariant |db.rows| == |stored| + newCount
    {
      var row := edited.rows[i];
      var receiptNo := ReceiptId(row, edited.labels[i], show);
      var date := Text(Processor.Str(row[Processor.Date], show));
      var amount := row[Processor.Amount];
      var present := db.Exists(receiptNo, date, amount);
      assert txs[..i + 1][..i] == txs[..i];
      if !present {
        db.Insert(Tx(receiptNo, date, row[Processor.Time], row[Processor.Description], amount, row[Processor.Category]));
        newCount := newCount + 1;
      }
      i := i + 1;
    }
    assert txs[..|txs|] == txs;
  }

  /** A row whose key columns are all non-NULL, so that SQL `=` can match it. */
  predicate Keyed(t: Tx) {
    !t.receiptNo.Missing? && !t.date.Missing? && !t.amount.Missing?
  }

  /** Ingest only appends, and only rows of the batch. */
  lemma {:induction false} IngestKeepsStored(stored: seq<Tx>, txs: seq<Tx>)
    ensures |stored| <= |Ingested(stored, txs)| <= |stored| + |txs|
    ensures Ingested(stored, txs)[..|stored|] == stored
    ensures forall k :: |stored| <= k < |Ingested(stored, txs)| ==> Ingested(stored, txs)[k] in txs
  {
    if txs != [] {
      var front := txs[..|txs| - 1];
      IngestKeepsStored(stored, front);
      assert forall t :: t in front ==> t in txs;
    }
  }

  /** A key found among some rows is still found once more rows are appended. */
  lemma DuplicateGrows(rows: seq<Tx>, extra: seq<Tx>, t: Tx)
    requires Duplicate(rows, t)
    ensures Duplicate(rows + extra, t)
  {
    var i :| 0 <= i < |rows| && SameKey(rows[i], t.receiptNo, t.date, t.amount);
    assert (rows + extra)[i] == rows[i];
  }

  /** After ingest, every batch row with a non-NULL key is found in the store. */
  lemma {:induction false} IngestRecordsAll(stored: seq<Tx>, txs: seq<Tx>)
    ensures forall t :: t in txs && Keyed(t) ==> Duplicate(Ingested(stored, txs), t)
  {
    if txs != [] {
      var front := txs[..|txs| - 1];
      var before := Ingested(stored, front);
      var last := txs[|txs| - 1];
      IngestRecordsAll(stored, front);
      forall t | t in txs && Keyed(t) ensures Duplicate(Ingested(stored, txs), t) {
        if t == last {
          if !Duplicate(before, t) {
            assert (before + [t])[|before|] == t;
          }
        } else {
          assert t in front;
          DuplicateGrows(before, if Duplicate(before, last) then [] else [last], t);
          assert before + [] == before;
        }
      }
    }
  }

  /** A batch whose every row is already stored adds nothing. */
  lemma {:induction false} IngestDuplicatesOnly(stored: seq<Tx>, txs: seq<Tx>)
    requires forall t :: t in txs ==> Duplicate(stored, t)
    ensures Ingested(stored, txs) == stored
  {
    if txs != [] {
      IngestDuplicatesOnly(stored, txs[..|txs| - 1]);
    }
  }

  /**
   * Uploading the same statement again inserts nothing (`new_count` is 0), as
   * long as no key column is NULL.
   */
  lemma ReingestAddsNothing(stored: seq<Tx>, txs: seq<Tx>)
    requires forall t :: t in txs ==> Keyed(t)
    ensures Ingested(Ingested(stored, txs), txs) == Ingested(stored, txs)
  {
    IngestRecordsAll(stored, txs);
    IngestDuplicatesOnly(Ingested(stored, txs), txs);
  }

  /** A row with a NULL amount never matches itself, so every upload inserts it again. */
  lemma NullAmountReinserted(stored: seq<Tx>, t: Tx)
    requires t.amount.Missing?
    ensures Ingested(Ingested(stored, [t]), [t]) == stored + [t, t]
  {
    assert [t][..0] == [];
    assert !Duplicate(stored, t);
    assert !Duplicate(stored + [t], t);
  }

  /** Each insert is visible to later checks of the same batch: a repeated key is inserted once. */
  lemma BatchSeesOwnInserts(stored: seq<Tx>, t: Tx, u: Tx)
    requires Keyed(t) && !Duplicate(stored, t)
    requires u.receiptNo == t.receiptNo && u.date == t.date && u.amount == t.amount
    ensures Ingested(stored, [t, u]) == stored + [t]
  {
    assert [t, u][..1] == [t];
    assert [t][..0] == [];
    assert Ingested(stored, [t]) == stored + [t];
    assert SameKey((stored + [t])[|stored|], u.receiptNo, u.date, u.amount);
  }

  /** Two new rows sharing receipt number and date but not amount are both kept. */
  lemma DifferentAmountsBothKept(stored: seq<Tx>, t: Tx, u: Tx)
    requires !Duplicate(stored, t) && !Duplicate(stored, u)
    requires t.amount != u.amount
    ensures Ingested(stored, [t, u]) == stored + [t, u]
  {
    assert [t, u][..1] == [t];
    assert [t][..0] == [];
    assert Ingested(stored, [t]) == stored + [t];
    assert !SameKey((stored + [t])[|stored|], u.receiptNo, u.date, u.amount);
    assert stored + [t] + [u] == stored + [t, u];
  }

  /**
   * What ingest stores for a row of the review editor: the synthesized id,
   * `str` of the date, and the other four cells; its key is complete exactly
   * when its amount is not NaN.
   */
  lemma EditorRecord(row: Row, index: nat, show: real -> string)
    requires row.Keys == EditorColumns()
    ensures Record(row, index, show).receiptNo == Text(Synthesized(index, row[Processor.Date], show))
    ensures Keyed(Record(row, index, show)) <==> !row[Processor.Amount].Missing?
  {
    EditorRowsSynthesize(row, index, show);
  }

  // ---------------------------------------------------------------------------
  // Review save (app.py:131-139)

  /**
   * The cleaned table and the editor's copy of it: the editor returns the same
   * rows under the same labels, so row i of one is row i of the other.
   */
  predicate Reviewable(clean: seq<Row>, edited: seq<Row>) {
    && |clean| == |edited|
    && forall i :: 0 <= i < |edited| ==>
      Processor.Category in clean[i] && Editable(edited[i]) && edited[i][Processor.Category].Text?
  }

  /** The editor gave row i another category than the cleaned table has (app.py:134). */
  predicate Recategorized(clean: seq<Row>, edited: seq<Row>, i: nat)
    requires Reviewable(clean, edited) && i < |clean|
  {
    !PyEq(edited[i][Processor.Category], clean[i][Processor.Category])
  }

  /** The cleaned table after the save: changed rows take the edited category. */
  function Reviewed(clean: seq<Row>, edited: seq<Row>): seq<Row>
    requires Reviewable(clean, edited)
  {
    seq(|clean|, i requires 0 <= i < |clean| =>
      if Recategorized(clean, edited, i) then clean[i][Processor.Category := edited[i][Processor.Category]] else clean[i])
  }

  /** The dictionary after the first `n` rows are saved: each changed row teaches its description. */
  function Learned(m: CategoryMap, clean: seq<Row>, edited: seq<Row>, n: nat): (r: CategoryMap)
    requires WellFormed(m) && Reviewable(clean, edited) && n <= |clean|
    ensures WellFormed(r)
  {
    if n == 0 then m
    else
      var before := Learned(m, clean, edited, n - 1);
      if Recategorized(clean, edited, n - 1) then
        WithKeyword(before, edited[n - 1][Processor.Category].s, edited[n - 1][Processor.Description])
      else before
  }

  /** The save loop; returns the session's new cleaned table. */
  method ReviewSave(store: CategoryStore, clean: Table, edited: Table) returns (saved: Table)
    requires store.Valid() && Reviewable(clean.rows, edited.rows)
    requires Distinct(clean.labels) && edited.labels == clean.labels
    modifies store
    ensures store.Valid()
    ensures saved == clean.(rows := Reviewed(clean.rows, edited.rows))
    ensures store.categories == Learned(old(store.categories), clean.rows, edited.rows, |clean.rows|)
    ensures (store.file == old(store.file) && store.categories == old(store.categories)) || store.file == Some(store.categories)
  {
    ghost var m0, f0 := store.categories, store.file;
    var rows := clean.rows;
    var i := 0;
    while i < |edited.rows|
      invariant 0 <= i <= |edited.rows|
      invariant store.Valid()
      invariant |rows| == |clean.rows|
      invariant forall k :: 0 <= k < i ==> rows[k] == Reviewed(clean.rows, edited.rows)[k]
      invariant forall k :: i <= k < |rows| ==> rows[k] == clean.rows[k]
      invariant store.categories == Learned(m0, clean.rows, edited.rows, i)
      invariant (store.file == f0 && store.categories == m0) || store.file == Some(store.categories)
    {
      var newCategory := edited.rows[i][Processor.Category];
      if !PyEq(newCategory, rows[i][Processor.Category]) {
        var details := edited.rows[i][Processor.Description];
        rows := rows[i := rows[i][Processor.Category := newCategory]];
        KeywordRecorded(store.categories, newCategory.s, details);
        store.AddKeyword(newCategory.s, details);
      }
      i := i + 1;
    }
    saved := clean.(rows := rows);
  }

  /** With no category changed, the save changes neither the table nor the dictionary. */
  lemma {:induction false} ReviewUnchanged(m: CategoryMap, clean: seq<Row>, edited: seq<Row>, n: nat)
    requires WellFormed(m) && Reviewable(clean, edited) && n <= |clean|
    requires forall i :: 0 <= i < |clean| ==> !Recategorized(clean, edited, i)
    ensures Learned(m, clean, edited, n) == m
    ensures Reviewed(clean, edited) == clean
  {
    if n > 0 {
      ReviewUnchanged(m, clean, edited, n - 1);
    }
  }

  /** Every changed row's description ends up a keyword of its new category. */
  lemma {:induction false} ReviewLearns(m: CategoryMap, clean: seq<Row>, edited: seq<Row>, n: nat)
    requires WellFormed(m) && Reviewable(clean, edited) && n <= |clean|
    ensures forall i :: 0 <= i < n && Recategorized(clean, edited, i) ==>
      var r := Learned(m, clean, edited, n);
      edited[i][Processor.Category].s in r.keywords &&
      edited[i][Processor.Description] in r.keywords[edited[i][Processor.Category].s]
  {
    if n > 0 {
      ReviewLearns(m, clean, edited, n - 1);
      var before := Learned(m, clean, edited, n - 1);
      if Recategorized(clean, edited, n - 1) {
        var c, d := edited[n - 1][Processor.Category].s, edited[n - 1][Processor.Description];
        KeywordRecorded(before, c, d);
        forall i | 0 <= i < n - 1 && Recategorized(clean, edited, i)
          ensures edited[i][Processor.Description] in WithKeyword(before, c, d).keywords[edited[i][Processor.Category].s]
        {
          KeywordKept(before, c, d, edited[i][Processor.Category].s, edited[i][Processor.Description]);
        }
      }
    }
  }

  // ---------------------------------------------------------------------------
  // Category edits on the database page (app.py:184-198)

  /**
   * Row i of the database editor has a new category (app.py:188). The editor
   * shows the snapshot's rows in order, so row i of one is row i of the other;
   * Python `!=` on the cells read back from SQLite, where NULL is None and
   * equals None.
   */
  predicate Changed(snapshot: seq<Tx>, edited: seq<Tx>, i: nat)
    requires i < |snapshot| && i < |edited|
  {
    edited[i].category != snapshot[i].category
  }

  /** The editor's changes: same row count, and every changed category is a name. */
  predicate Editing(snapshot: seq<Tx>, edited: seq<Tx>) {
    && |edited| == |snapshot|
    && forall i :: 0 <= i < |edited| && Changed(snapshot, edited, i) ==> edited[i].category.Text?
  }

  /** Snapshot row j is another row with the edited description and another category (app.py:195). */
  predicate Follows(snapshot: seq<Tx>, i: nat, j: nat, description: Cell, category: Cell)
    requires j < |snapshot|
  {
    j != i && snapshot[j].description == description && snapshot[j].category != category
  }

  /** The store after the propagation loop has visited snapshot rows `0..n`. */
  function Propagated(rows: seq<Tx>, snapshot: seq<Tx>, i: nat, description: Cell, category: Cell, n: nat): seq<Tx>
    requires n <= |snapshot|
  {
    if n == 0 then rows
    else
      var before := Propagated(rows, snapshot, i, description, category, n - 1);
      if Follows(snapshot, i, n - 1, description, category) then Updated(before, snapshot[n - 1].receiptNo, category)
      else before
  }

  /** The store after row i of the editor is saved: its own update, then the propagation. */
  function EditOne(rows: seq<Tx>, snapshot: seq<Tx>, edited: seq<Tx>, i: nat): seq<Tx>
    requires Editing(snapshot, edited) && i < |edited|
  {
    if Changed(snapshot, edited, i) then
      Propagated(Updated(rows, edited[i].receiptNo, edited[i].category), snapshot, i,
                 edited[i].description, edited[i].category, |snapshot|)
    else rows
  }

  /** The store after the first `n` editor rows are saved. */
  function EditedRows(rows: seq<Tx>, snapshot: seq<Tx>, edited: seq<Tx>, n: nat): seq<Tx>
    requires Editing(snapshot, edited) && n <= |edited|
  {
    if n == 0 then rows else EditOne(EditedRows(rows, snapshot, edited, n - 1), snapshot, edited, n - 1)
  }

  /** The dictionary after the first `n` editor rows are saved: each change teaches its description. */
  function EditedKeywords(m: CategoryMap, snapshot: seq<Tx>, edited: seq<Tx>, n: nat): (r: CategoryMap)
    requires WellFormed(m) && Editing(snapshot, edited) && n <= |edited|
    ensures WellFormed(r)
  {
    if n == 0 then m
    else
      var before := EditedKeywords(m, snapshot, edited, n - 1);
      if Changed(snapshot, edited, n - 1) then
        WithKeyword(before, edited[n - 1].category.s, edited[n - 1].description)
      else before
  }

  /** The inner loop of app.py:194-196. */
  method Propagate(db: TransactionStore, snapshot: seq<Tx>, i: nat, description: Cell, category: Cell)
    requires db.created
    modifies db
    ensures db.created
    ensures db.rows == Propagated(old(db.rows), snapshot, i, description, category, |snapshot|)
  {
    ghost var rows := db.rows;
    var j := 0;
    while j < |snapshot|
      invariant 0 <= j <= |snapshot|
      invariant db.created
      invariant db.rows == Propagated(rows, snapshot, i, description, category, j)
    {
      var other := snapshot[j];
      if j != i && other.description == description && other.category != category {
        db.UpdateCategory(other.receiptNo, category);
      }
      j := j + 1;
    }
  }

  /**
   * The save button of the database page: reads the table (app.py:158), then
   * applies the editor's rows in order (app.py:184-198).
   */
  method SaveDbEdits(db: TransactionStore, store: CategoryStore, edited: seq<Tx>)
    requires db.created && store.Valid()
    requires Editing(db.rows, edited)
    modifies db, store
    ensures db.created && store.Valid()
    ensures db.rows == EditedRows(old(db.rows), old(db.rows), edited, |edited|)
    ensures store.categories == EditedKeywords(old(store.categories), old(db.rows), edited, |edited|)
    ensures (store.file == old(store.file) && store.categories == old(store.categories)) || store.file == Some(store.categories)
  {
    var snapshot := db.Get(None);
    ghost var m0, f0 := store.categories, store.file;
    var i := 0;
    while i < |edited|
      invariant 0 <= i <= |edited|
      invariant db.created && store.Valid()
      invariant db.rows == EditedRows(snapshot, snapshot, edited, i)
      invariant store.categories == EditedKeywords(m0, snapshot, edited, i)
      invariant (store.file == f0 && store.categories == m0) || store.file == Some(store.categories)
    {
      var newCategory := edited[i].category;
      if newCategory != snapshot[i].category {
        db.UpdateCategory(edited[i].receiptNo, newCategory);
        var description := edited[i].description;
        KeywordRecorded(store.categories, newCategory.s, description);
        store.AddKeyword(newCategory.s, description);
        Propagate(db, snapshot, i, description, newCategory);
      }
      i := i + 1;
    }
  }

  /** Saving an editor in which no category changed issues no update and learns no keyword. */
  lemma {:induction false} NoEditNoEffect(m: CategoryMap, rows: seq<Tx>, snapshot: seq<Tx>, edited: seq<Tx>, n: nat)
    requires WellFormed(m) && Editing(snapshot, edited) && n <= |edited|
    requires forall i :: 0 <= i < n ==> !Changed(snapshot, edited, i)
    ensures EditedRows(rows, snapshot, edited, n) == rows
    ensures EditedKeywords(m, snapshot, edited, n) == m
  {
    if n > 0 {
      NoEditNoEffect(m, rows, snapshot, edited, n - 1);
    }
  }

  /** Some snapshot row before `n` that the edit propagates to shares `t`'s receipt number. */
  predicate Reached(t: Tx, snapshot: seq<Tx>, i: nat, description: Cell, category: Cell, n: nat)
    requires n <= |snapshot|
  {
    exists j :: 0 <= j < n && Follows(snapshot, i, j, description, category) && PyEq(t.receiptNo, snapshot[j].receiptNo)
  }

  /**
   * Propagation gives the new category to every stored row sharing a receipt
   * number with a following snapshot row, leaves every other row as it was,
   * and changes no column but the category.
   */
  lemma {:induction false} PropagatedRows(rows: seq<Tx>, snapshot: seq<Tx>, i: nat, description: Cell, category: Cell, n: nat)
    requires n <= |snapshot|
    ensures |Propagated(rows, snapshot, i, description, category, n)| == |rows|
    ensures forall k :: 0 <= k < |rows| ==>
      Propagated(rows, snapshot, i, description, category, n)[k] ==
        if Reached(rows[k], snapshot, i, description, category, n) then rows[k].(category := category) else rows[k]
  {
    if n > 0 {
      PropagatedRows(rows, snapshot, i, description, category, n - 1);
      var before := Propagated(rows, snapshot, i, description, category, n - 1);
      if Follows(snapshot, i, n - 1, description, category) {
        UpdateReachesAll(before, snapshot[n - 1].receiptNo, category);
      }
    }
  }

  /**
   * When exactly one row of the editor changed its category, the store ends
   * with the new category on every row whose receipt number is the edited
   * row's or that of a snapshot row with the same description and another
   * category; every other row is as it was.
   */
  lemma SingleEditPropagates(rows: seq<Tx>, snapshot: seq<Tx>, edited: seq<Tx>, i: nat)
    requires Editing(snapshot, edited) && i < |edited| && Changed(snapshot, edited, i)
    requires forall j :: 0 <= j < |edited| && j != i ==> !Changed(snapshot, edited, j)
    ensures var r := EditedRows(rows, snapshot, edited, |edited|);
      var c, d := edited[i].category, edited[i].description;
      && |r| == |rows|
      && forall k :: 0 <= k < |rows| ==>
        r[k] == if PyEq(rows[k].receiptNo, edited[i].receiptNo) || Reached(rows[k], snapshot, i, d, c, |snapshot|)
                then rows[k].(category := c) else rows[k]
  {
    NoEditNoEffect(Default(), rows, snapshot, edited, i);
    var once := EditedRows(rows, snapshot, edited, i + 1);
    EditsAfter(rows, snapshot, edited, i + 1, |edited|);
    var c, d := edited[i].category, edited[i].description;
    var updated := Updated(rows, edited[i].receiptNo, c);
    UpdateReachesAll(rows, edited[i].receiptNo, c);
    PropagatedRows(updated, snapshot, i, d, c, |snapshot|);
    forall k | 0 <= k < |rows| ensures Reached(updated[k], snapshot, i, d, c, |snapshot|) == Reached(rows[k], snapshot, i, d, c, |snapshot|) {
      assert updated[k].receiptNo == rows[k].receiptNo;
    }
  }

  /** Editor rows past `from` that did not change leave the store as it was after `from`. */
  lemma {:induction false} EditsAfter(rows: seq<Tx>, snapshot: seq<Tx>, edited: seq<Tx>, from: nat, n: nat)
    requires Editing(snapshot, edited) && from <= n <= |edited|
    requires forall j :: from <= j < n ==> !Changed(snapshot, edited, j)
    ensures EditedRows(rows, snapshot, edited, n) == EditedRows(rows, snapshot, edited, from)
  {
    if n > from {
      EditsAfter(rows, snapshot, edited, from, n - 1);
    }
  }

  /** The edited row itself and each following snapshot row end with the new category. */
  lemma SingleEditOutcome(snapshot: seq<Tx>, edited: seq<Tx>, i: nat)
    requires Editing(snapshot, edited) && i < |edited| && Changed(snapshot, edited, i)
    requires forall j :: 0 <= j < |edited| && j != i ==> !Changed(snapshot, edited, j)
    requires PyEq(edited[i].receiptNo, snapshot[i].receiptNo)
    ensures var r := EditedRows(snapshot, snapshot, edited, |edited|);
      |r| == |snapshot| && r[i].category == edited[i].category
    ensures var r := EditedRows(snapshot, snapshot, edited, |edited|);
      forall j :: 0 <= j < |snapshot| && !snapshot[j].receiptNo.Missing? && Follows(snapshot, i, j, edited[i].description, edited[i].category) ==>
        |r| == |snapshot| && r[j].category == edited[i].category
  {
    SingleEditPropagates(snapshot, snapshot, edited, i);
    forall j | 0 <= j < |snapshot| && !snapshot[j].receiptNo.Missing? &&
      Follows(snapshot, i, j, edited[i].description, edited[i].category)
      ensures Reached(snapshot[j], snapshot, i, edited[i].description, edited[i].category, |snapshot|)
    {
      assert PyEq(snapshot[j].receiptNo, snapshot[j].receiptNo);
    }
  }

  /** Every changed row's description ends up a keyword of its new category. */
  lemma {:induction false} EditLearns(m: CategoryMap, snapshot: seq<Tx>, edited: seq<Tx>, n: nat)
    requires WellFormed(m) && Editing(snapshot, edited) && n <= |edited|
    ensures forall i :: 0 <= i < n && Changed(snapshot, edited, i) ==>
      var r := EditedKeywords(m, snapshot, edited, n);
      edited[i].category.s in r.keywords && edited[i].description in r.keywords[edited[i].category.s]
  {
    if n > 0 {
      EditLearns(m, snapshot, edited, n - 1);
      var before := EditedKeywords(m, snapshot, edited, n - 1);
      if Changed(snapshot, edited, n - 1) {
        var c, d := edited[n - 1].category.s, edited[n - 1].description;
        KeywordRecorded(before, c, d);
        forall i | 0 <= i < n - 1 && Changed(snapshot, edited, i)
          ensures edited[i].description in WithKeyword(before, c, d).keywords[edited[i].category.s]
        {
          KeywordKept(before, c, d, edited[i].category.s, edited[i].description);
        }
      }
    }
  }

  // ---------------------------------------------------------------------------
  // Spending summaries (app.py:214-219, app.py:235-239)

  /** An expense: a stored amount below zero (`amount < 0`, which is false for NULL). */
  predicate Expense(t: Tx) {
    t.amount.Number? && t.amount.x < 0.0
  }

  /** What a row adds to a spending figure: `abs(amount)` for an expense, nothing otherwise. */
  function Outlay(t: Tx): (r: real)
    ensures r >= 0.0
    ensures r > 0.0 <==> Expense(t)
  {
    if Expense(t) then -t.amount.x else 0.0
  }

  /** The summary's choice: the selected categories and an inclusive range of days. */
  datatype Query = Query(selected: seq<Cell>, first: int, last: int)

  /**
   * The mask of app.py:214-217. `day` stands for
   * `pd.to_datetime(..., errors='coerce').dt.date`: the day a stored date text
   * denotes, if any; a NULL or unparsable date (NaT) compares false.
   */
  predicate InSummary(t: Tx, q: Query, day: string -> Option<int>) {
    && t.category in q.selected
    && t.date.Text? && day(t.date.s).Some?
    && q.first <= day(t.date.s).value <= q.last
    && Expense(t)
  }

  /** The magnitude of an amount cell; pandas' `sum` skips NaN. */
  function Magnitude(c: Cell): real {
    if c.Number? then (if c.x < 0.0 then -c.x else c.x) else 0.0
  }

  /** `rows['amount'].abs().sum()` */
  function AbsSum(rows: seq<Tx>): real {
    if rows == [] then 0.0 else AbsSum(rows[..|rows| - 1]) + Magnitude(rows[|rows| - 1].amount)
  }

  /** The rows the mask of app.py:214-217 keeps, in table order. */
  function Summary(rows: seq<Tx>, q: Query, day: string -> Option<int>): seq<Tx> {
    Pick(rows, Kept(rows, (t: Tx) => InSummary(t, q, day)))
  }

  /** The total of app.py:214-219: filter the rows, take absolute amounts, sum them. */
  function ExpenseTotal(rows: seq<Tx>, q: Query, day: string -> Option<int>): real {
    AbsSum(Summary(rows, q, day))
  }

  /** The amount spent in a summary, row by row: each row in it adds its outlay. */
  function SummarySpend(rows: seq<Tx>, q: Query, day: string -> Option<int>): (r: real)
    ensures r >= 0.0
  {
    if rows == [] then 0.0
    else
      var t := rows[|rows| - 1];
      SummarySpend(rows[..|rows| - 1], q, day) + if InSummary(t, q, day) then Outlay(t) else 0.0
  }

  /** Filtering one more row appends it when the mask keeps it. */
  lemma SummarySnoc(rows: seq<Tx>, q: Query, day: string -> Option<int>)
    requires rows != []
    ensures var n := |rows| - 1;
      Summary(rows, q, day) == Summary(rows[..n], q, day) + if InSummary(rows[n], q, day) then [rows[n]] else []
  {
    var n := |rows| - 1;
    KeptSnoc(rows, (t: Tx) => InSummary(t, q, day), n);
    assert rows[..n + 1] == rows;
    var k := Kept(rows[..n], (t: Tx) => InSummary(t, q, day));
    assert Pick(rows[..n], k) == Pick(rows, k);
    if InSummary(rows[n], q, day) {
      PickSnoc(rows, k, n);
    }
  }

  /** The displayed total is the sum of `|amount|` over the expenses in the summary. */
  lemma {:induction false} ExpenseTotalIsSpend(rows: seq<Tx>, q: Query, day: string -> Option<int>)
    ensures ExpenseTotal(rows, q, day) == SummarySpend(rows, q, day)
  {
    if rows != [] {
      var n := |rows| - 1;
      ExpenseTotalIsSpend(rows[..n], q, day);
      SummarySnoc(rows, q, day);
      var picked := Summary(rows[..n], q, day);
      if InSummary(rows[n], q, day) {
        var grown := picked + [rows[n]];
        assert grown[..|picked|] == picked && grown[|picked|] == rows[n];
        assert AbsSum(grown) == AbsSum(picked) + Outlay(rows[n]);
      } else {
        assert Summary(rows, q, day) == picked + [] == picked;
      }
    }
  }

  /** Spending over consecutive stretches of rows adds up. */
  lemma {:induction false} SummarySpendAppend(a: seq<Tx>, b: seq<Tx>, q: Query, day: string -> Option<int>)
    ensures SummarySpend(a + b, q, day) == SummarySpend(a, q, day) + SummarySpend(b, q, day)
  {
    if b != [] {
      var n := |b| - 1;
      SummarySpendAppend(a, b[..n], q, day);
      assert (a + b)[..|a + b| - 1] == a + b[..n];
      assert (a + b)[|a + b| - 1] == b[n];
    } else {
      assert a + b == a;
    }
  }

  /** Selecting more categories or a wider range of days never lowers the total. */
  lemma {:induction false} WiderSummarySpendsMore(rows: seq<Tx>, q: Query, wider: Query, day: string -> Option<int>)
    requires forall c :: c in q.selected ==> c in wider.selected
    requires wider.first <= q.first && q.last <= wider.last
    ensures SummarySpend(rows, q, day) <= SummarySpend(rows, wider, day)
  {
    if rows != [] {
      WiderSummarySpendsMore(rows[..|rows| - 1], q, wider, day);
    }
  }

  /** `groupby('category')['amount'].sum()` over the expenses; NULL categories are dropped. */
  function GroupSums(rows: seq<Tx>): map<Cell, real> {
    if rows == [] then map[]
    else
      var g := GroupSums(rows[..|rows| - 1]);
      var t := rows[|rows| - 1];
      if Expense(t) && !t.category.Missing? then
        g[t.category := (if t.category in g then g[t.category] else 0.0) + Outlay(t)]
      else g
  }

  /** The pie chart's data (app.py:235-239): the grouped sums that are positive. */
  function CategorySums(rows: seq<Tx>): map<Cell, real> {
    var g := GroupSums(rows);
    map c | c in g && g[c] > 0.0 :: g[c]
  }

  /** Some expense is filed under category `c`. */
  predicate Spends(rows: seq<Tx>, c: Cell) {
    exists i :: 0 <= i < |rows| && Expense(rows[i]) && rows[i].category == c
  }

  /** The amount spent under category `c`, row by row. */
  function CategorySpend(rows: seq<Tx>, c: Cell): (r: real)
    ensures r >= 0.0
  {
    if rows == [] then 0.0
    else
      var t := rows[|rows| - 1];
      CategorySpend(rows[..|rows| - 1], c) + if t.category == c then Outlay(t) else 0.0
  }

  /** A category spends something exactly when one of its rows is an expense. */
  lemma {:induction false} SpendPositive(rows: seq<Tx>, c: Cell)
    ensures CategorySpend(rows, c) > 0.0 <==> Spends(rows, c)
  {
    if rows != [] {
      var n := |rows| - 1;
      var front := rows[..n];
      SpendPositive(front, c);
      if Spends(front, c) {
        var i :| 0 <= i < n && Expense(front[i]) && front[i].category == c;
        assert rows[i] == front[i];
      }
      if Spends(rows, c) && !(Expense(rows[n]) && rows[n].category == c) {
        var i :| 0 <= i < |rows| && Expense(rows[i]) && rows[i].category == c;
        assert front[i] == rows[i];
      }
    }
  }

  /** The grouped sums: one entry per non-NULL category with an expense, holding what it spent. */
  lemma {:induction false} GroupSpend(rows: seq<Tx>)
    ensures forall c :: c in GroupSums(rows) <==> !c.Missing? && Spends(rows, c)
    ensures forall c :: c in GroupSums(rows) ==> GroupSums(rows)[c] == CategorySpend(rows, c)
  {
    if rows != [] {
      var n := |rows| - 1;
      var front := rows[..n];
      var t := rows[n];
      GroupSpend(front);
      forall c: Cell ensures Spends(rows, c) <==> Spends(front, c) || (Expense(t) && t.category == c) {
        if Spends(rows, c) && !(Expense(t) && t.category == c) {
          var i :| 0 <= i < |rows| && Expense(rows[i]) && rows[i].category == c;
          assert front[i] == rows[i];
        }
        if Spends(front, c) {
          var i :| 0 <= i < n && Expense(front[i]) && front[i].category == c;
          assert rows[i] == front[i];
        }
      }
      if Expense(t) && !t.category.Missing? && t.category !in GroupSums(front) {
        SpendPositive(front, t.category);
      }
    }
  }

  /**
   * The chart covers exactly the non-NULL categories that have an expense, each
   * with its total outlay: the `> 0` filter never removes a group.
   */
  lemma CategorySumsExact(rows: seq<Tx>)
    ensures forall c :: c in CategorySums(rows) <==> !c.Missing? && Spends(rows, c)
    ensures forall c :: c in CategorySums(rows) ==> CategorySums(rows)[c] == CategorySpend(rows, c)
  {
    GroupSpend(rows);
    forall c: Cell | !c.Missing? && Spends(rows, c) ensures GroupSums(rows)[c] > 0.0 {
      SpendPositive(rows, c);
    }
  }
}
