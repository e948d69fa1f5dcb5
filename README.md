# M-Pesa finance tracker: a verified model of the statement pipeline

This project models, in Dafny, the core of a small personal-finance tracker.
The tracker takes M-Pesa mobile-money statement exports and processes them in four stages:

- It normalises their rows into canonical transactions (`clean_data` in processor.py).
- It lets the user assign categories, learning a keyword from every correction.
- It stores the transactions in SQLite, skipping rows it has already stored.
- It summarises spending per category and over a date range.

The model follows the Python code branch by branch and proves what that code guarantees.

Modules, one per concern:

- `Wrappers`: `Option` and `Result`.
- `Strings`: the Python string methods the code relies on: `lower`, `strip`, `in`, and `replace(',', '')`.
- `Numbers`: the subset of Python `float()` parsing that statement figures need. It also proves that a figure printed with thousands separators, such as "1,234.50", parses back to its value.
- `Frame`: the slice of pandas in use. A cell is NaN/None, a string or a float. A table has ordered columns, index labels and rows keyed by column name. The module provides column add/drop/rename and boolean-mask filtering, which keeps index labels.
- `Processor`: `clean_data`, written as the sequence of column-wise steps it performs, including the exceptions it raises, except those that come from a None cell (see "## Left out").
- `Categories`: the category dictionary, in insertion order with a keyword list per name. `CategoryStore` is a class holding that dictionary and the last contents written to categories.json. The module also has `add_keyword_to_category`, the add-category form and `categorize_transactions`.
- `Database`: the `transactions` table. `TransactionStore` is a class over an in-memory sequence of six-column rows, with the five SQL operations.
- `App`: the loops of app.py that write to the stores (review save, deduplicating ingest, database edit with propagation) and the two spending summaries.

Where the code does something different from what its design describes, the model follows the code:

- Signed amount: the `Withdrawn` assignment runs second. A row with both `Paid in` and `Withdrawn` positive therefore gets the negative amount.
- Category choice: in `categorize_transactions`, a later category in dictionary order overwrites an earlier match. The last match wins, not the first.
- Stored keywords: they are the raw descriptions, with their case and spacing kept. A keyword counts as present only if it is value-equal to one already in the list. The list is not a case-insensitive set.
- Updates by receipt number: `update_transaction_category` updates every row with that receipt number. Ingest always synthesizes `TXN_<index label>_<date>`, because the review editor shows only five columns. Rows of different uploads that share an index label and a date therefore share a receipt number. They are also treated as duplicates of each other when their amounts agree.
- Re-ingest with a NaN amount: a row with a NaN (NULL) amount never matches itself. Uploading it again therefore inserts it again.
- Propagation compares against a stale copy: the propagation loop compares descriptions and categories with the table as it was read before the save, not with the store as it is being updated.
- `categorize_transactions` is not called by the upload flow. It is modelled as a standalone operation.

## Model

| member | source | states |
|---|---|---|
| Strings.Lower | app.py:68 | `lower()` keeps the length and lowercases each character on its own |
| Strings.Strip | app.py:71 | `strip()` leaves no white space at either end and never lengthens the text |
| Strings.StripSlice | app.py:71 | `strip()` keeps the slice of the text that starts after the leading white space, and only white space follows it; with Strip's contract this fixes the result |
| Strings.StripIdempotent | app.py:68-71 | stripping twice is stripping once |
| Strings.RemoveCommas | processor.py:19 | the result has no comma; a comma-free text is unchanged |
| Strings.RemoveCommasCount | processor.py:19 | the result is shorter than the text by exactly its number of commas; with RemoveCommasAppend, every other character stays, in order |
| Strings.RemoveCommasAppend | processor.py:19 | removing commas from a concatenation removes them from each part |
| Numbers.ParseDigits | processor.py:20 | `float()` of a plain digit string is that number |
| Numbers.NanLiteral | processor.py:18-20 | `float("nan")`, the text `astype(str)` gives a NaN cell, is NaN |
| Numbers.ZeroLiteral | processor.py:18-20 | `float("0")`, what an empty cell is replaced by, is 0.0 |
| Numbers.ParseShillings | processor.py:19-20 | a figure printed with thousands separators and two decimals parses, once its commas are removed, to exactly its value |
| Frame.MapRows | processor.py:6-32 | a row-wise column assignment replaces every row by its image, in order, keeping the row count |
| Frame.FilterRows | processor.py:14 | masking keeps exactly the rows the predicate accepts, in order, with their index labels |
| Frame.KeptComplement | processor.py:14 | the kept rows and the dropped rows together are all the rows |
| Processor.SplitAtSpace | processor.py:6 | `split(' ', n=1)`: the part before the first space has no space; rejoining the parts with one space gives back the text; there is no second part exactly when the text has no space |
| Processor.Coerce | processor.py:18-20 | a cell that is not a float gives what `float()` gives on its `astype(str)` text, with '' read as '0' and commas removed: so '' becomes 0.0, NaN stays NaN, and text that is not a float literal fails; a float cell keeps its value |
| Processor.CoerceColumn | processor.py:16-20 | one amount column is coerced row by row; it fails exactly when some cell is not a float literal |
| Processor.CoerceIfPresent | processor.py:16-20 | a present column is coerced as CoerceColumn does; an absent one leaves every row unchanged; the table keeps its shape |
| Processor.CoerceRow | processor.py:16-20 | one row fails exactly when its cell in the column is not a float literal; otherwise only that cell is replaced by its coerced value |
| Processor.Prepare | processor.py:5-12 | the Date/Time split and the rename; fails exactly with the KeyError or duplicate-column error the code meets first |
| Processor.CoerceAmounts | processor.py:16-20 | both amount columns coerced where present; the first column that does not parse is reported |
| Processor.WithdrawnAfterPaidIn | processor.py:16-20 | coercing Paid in makes no Withdrawn cell pass or fail, so the Withdrawn error depends on the input cells alone |
| Processor.Finished | processor.py:22-32 | every finished row has an Amount and an empty Category, and none of Paid in, Withdrawn, Transaction Status or Balance |
| Processor.FinishedKeeps | processor.py:16-32 | the amount coercion, the merge, the drop and the category reset leave every other column as it was |
| Processor.DropTransient | processor.py:28-30 | each present transient column is dropped from the columns and from every row |
| Processor.Finish | processor.py:22-32 | the signed amount, the drops and the empty category, on every row |
| Processor.CleanData | processor.py:4-33 | fails exactly when `clean_data` raises (a missing Completion Time split, a duplicate or missing Description, `.str` on a description column with no strings, an amount that is not a float literal), with the first such error; otherwise the table is well formed, has the clean column list, and holds the non-overdraft rows in order with their labels, each normalised |
| Processor.TextlessDescriptions | processor.py:14 | once the columns are in place, `.str` fails exactly when the table has rows and no raw description is a string |
| Processor.OverdraftFilter | processor.py:14 | a row is kept exactly when its description is not text containing "OverDraft of Credit Party"; a row with a missing description is kept |
| Processor.KeptCount | processor.py:14 | output rows plus overdraft rows equal the input rows |
| Processor.PreparedDescription | processor.py:11-14 | the description survives the rename, and the overdraft test on the prepared row is the test on the raw description |
| Processor.SignedAmount | processor.py:22-26 | the amount is negative exactly when Withdrawn is positive, and is then minus Withdrawn; it is positive exactly when only Paid in is positive, and is then Paid in |
| Processor.AmountSign | processor.py:22-26 | a positive Withdrawn gives minus that amount even when Paid in is positive; else a positive Paid in gives that amount; else 0.0 |
| Processor.AmountDirection | processor.py:22-26 | the amount is negative exactly when Withdrawn is positive, and positive exactly when only Paid in is |
| Processor.CoerceFigure | processor.py:16-20 | a statement figure such as "1,000.00" coerces to its value |
| Processor.PaidInFigure | processor.py:16-24 | a figure in Paid in, with Withdrawn absent or empty, becomes that positive amount |
| Processor.WithdrawnFigure | processor.py:16-26 | a figure in Withdrawn becomes minus that amount, whatever Paid in holds |
| Processor.CategoryReset | processor.py:32 | every cleaned row has the empty category |
| Processor.NormalizedColumns | processor.py:9-12 | a cleaned row has no Completion Time, Details, Paid in, Withdrawn, Transaction Status or Balance, and keeps the raw description under Description |
| Processor.NormalizedDateTime | processor.py:5-8 | Date is the parsed first half of Completion Time and Time the parsed remainder; an unparsable half gives NaN, not an error |
| Processor.NormalizedPassThrough | processor.py:4-33 | every column `clean_data` does not name passes through unchanged |
| Processor.CleanColumnSet | processor.py:4-33 | the clean columns are distinct: the input columns minus the raw and transient ones, plus Description, Amount, Category, and Date/Time when Completion Time was there |
| Categories.Default | app.py:48-51 | the default dictionary is `{"Uncategorized": []}` |
| Categories.KeywordRecorded | app.py:77-86 | after adding, the category exists and holds the keyword; an absent keyword is appended at the end, and a present one leaves the dictionary unchanged |
| Categories.KeywordFrame | app.py:81-85 | other categories keep their keywords; a new category goes last |
| Categories.KeywordIdempotent | app.py:84-86 | adding the same keyword twice equals adding it once, and the second call does not save |
| Categories.KeywordKept | app.py:77-86 | adding a keyword never removes a category or a keyword |
| Categories.CategoryAdded | app.py:92-95 | an empty or existing name leaves the dictionary unchanged; a new name gets an empty list at the end |
| Categories.CategoryStore.Load | app.py:48-55 | the session starts with the file's dictionary if there is one, else the default |
| Categories.CategoryStore.Save | app.py:57-59 | the file receives the whole current dictionary |
| Categories.CategoryStore.AddKeyword | app.py:77-86 | the dictionary becomes the keyword-added one; the file is written exactly when the keyword was appended |
| Categories.CategoryStore.AddCategory | app.py:92-96 | the dictionary becomes the category-added one; the file is written exactly when a new name was added |
| Categories.Lowered | app.py:68 | lowering the keyword list succeeds exactly when all keywords are text, giving each trimmed and lowercased |
| Categories.LoweredMatches | app.py:68-72 | membership in the lowered list is an exact match of a normalised keyword, not a substring test |
| Categories.Categorize | app.py:61-75 | on a table with distinct index labels: fails exactly when a keyword or a needed description is not text; otherwise the Category column is added or overwritten, labels and row count are kept, and each row gets the category the dictionary assigns it |
| Categories.DescriptionListed | app.py:71-72 | the test is true exactly when the lowered, stripped description is one of the lowered keywords |
| Categories.ApplyCategory | app.py:70-73 | fails exactly when some row's description is not text; otherwise a row takes the category exactly when its description is listed, and every other row keeps its earlier category |
| Categories.CategorizeStep | app.py:64-73 | one pass of the outer loop: it fails exactly when the category is active and a keyword or a description is not text; otherwise every row now has the category the dictionary entries up to this one give it |
| Categories.LabelRow | app.py:71-73 | a row takes the current category exactly when its normalised description is among the lowered keywords, otherwise keeps its category; a description that is not text fails |
| Categories.AssignedMatches | app.py:62-73 | a row gets a category other than Uncategorized only if that category is active and one of its keywords equals the normalised description |
| Categories.LatestMatchWins | app.py:64-73 | when several active categories match, the last in dictionary order wins |
| Categories.DefaultUncategorized | app.py:48-73 | with the default dictionary every row stays Uncategorized |
| Categories.NoMatchUncategorized | app.py:62-66 | when no active category (neither Uncategorized nor without keywords) has a matching keyword, the row stays Uncategorized |
| Database.Matching | database.py:58-61 | the search result holds exactly the rows whose description or receipt number contains the filter |
| Database.UpdateReachesAll | database.py:71-72 | an update sets the category of every row with the receipt number, leaves other rows and NULL receipts alone, and changes no other column |
| Database.UpdateByNullIsNoop | database.py:71-72 | updating by a NULL receipt number changes no row, since `receipt_no = NULL` is never true |
| Database.UpdateIdempotent | database.py:67-73 | repeating an update changes nothing more |
| Database.TransactionStore.Connect | database.py:7-12 | the connection sees the file's table if there is one |
| Database.TransactionStore.CreateTable | database.py:14-30 | the table exists afterwards, and an existing table keeps its rows |
| Database.TransactionStore.Insert | database.py:32-42 | exactly the given row is appended, with no deduplication |
| Database.TransactionStore.Exists | database.py:44-51 | true exactly when some row equals the arguments on receipt number, date and amount under SQL `=` |
| Database.TransactionStore.Get | database.py:53-65 | no filter or an empty one returns every row; otherwise exactly the matching rows, in table order |
| Database.TransactionStore.UpdateCategory | database.py:67-73 | the table becomes the updated table |
| App.SynthesizedInjective | app.py:144 | two synthesized ids are equal exactly when the index labels and the date texts are |
| App.ReceiptId | app.py:144 | the `or` chain yields a truthy id: a truthy Receipt No wins; when Receipt No is falsy a truthy Transaction ID wins; when both are falsy the id is the synthesized `TXN_` id; a NaN id comes only from a NaN column |
| App.Record | app.py:144-148 | the stored row has a truthy receipt number and a text date; its key is complete exactly when neither the id nor the amount is NaN |
| App.EditorRowsSynthesize | app.py:114-144 | a row of the five-column review editor always gets the synthesized id |
| App.EditorRecord | app.py:144-148 | an editor row is stored with the synthesized id and `str` of its date; its key is complete exactly when its amount is not NaN |
| App.Ingest | app.py:142-150 | the store becomes the ingested store, checking each row against the store as updated by earlier rows; `new_count` is the number of rows added |
| App.IngestKeepsStored | app.py:142-150 | ingest only appends, at most one row per batch row, and only rows of the batch |
| App.IngestRecordsAll | app.py:147-149 | afterwards every batch row with a non-NULL key is found in the store |
| App.ReingestAddsNothing | app.py:142-150 | ingesting the same batch again adds nothing, so `new_count` is 0, when no key cell is NULL |
| App.NullAmountReinserted | app.py:146-149 | a row with a NaN amount is inserted again by every upload |
| App.BatchSeesOwnInserts | app.py:147-149 | a key repeated within one batch is inserted once |
| App.DifferentAmountsBothKept | app.py:147-149 | two new rows with the same receipt number and date but different amounts are both stored |
| App.ReviewSave | app.py:131-139 | for an editor table with the cleaned table's distinct labels: changed rows take the edited category and teach their description to it; unchanged rows are skipped; the file is untouched or holds the final dictionary |
| App.ReviewUnchanged | app.py:134-135 | with no category changed, neither the table nor the dictionary changes |
| App.ReviewLearns | app.py:137-139 | every changed row's description becomes a keyword of its new category |
| App.Propagate | app.py:194-196 | the store becomes the store with the propagation applied: every other snapshot row with the same description and another category is updated by its receipt number |
| App.SaveDbEdits | app.py:158-198 | the store and the dictionary become the result of applying every changed editor row in order; the file is untouched or holds the final dictionary |
| App.NoEditNoEffect | app.py:188 | with no category changed, no update is issued and no keyword is learned |
| App.PropagatedRows | app.py:194-196 | propagation gives the new category to every row sharing a receipt number with a following snapshot row, leaves other rows as they were, and changes no other column |
| App.SingleEditPropagates | app.py:185-196 | with one changed row, the store ends with the new category on every row whose receipt number is the edited row's or a following row's, and every other row is unchanged |
| App.SingleEditOutcome | app.py:185-196 | the edited row and every other snapshot row with the same description, another category and a non-NULL receipt number end with the new category |
| App.EditLearns | app.py:190-192 | every changed row's description becomes a keyword of its new category |
| App.Outlay | app.py:217-218 | a row adds a positive amount to spending exactly when its amount is negative |
| App.ExpenseTotalIsSpend | app.py:214-219 | the displayed total equals the sum of the absolute amounts of expenses in a selected category whose date falls in the inclusive range |
| App.SummarySpendAppend | app.py:219 | the total over two stretches of rows is the sum of their totals |
| App.WiderSummarySpendsMore | app.py:214-217 | selecting more categories or a wider date range never lowers the total |
| App.SpendPositive | app.py:235-239 | a category's spending is positive exactly when it has an expense |
| App.GroupSpend | app.py:238 | the grouped sums have one entry per non-NULL category with an expense, holding its total spending |
| App.CategorySumsExact | app.py:235-239 | the chart covers exactly the non-NULL categories with an expense, each with its total, so the `> 0` filter removes nothing |

## Left out

- The Streamlit user interface is not modelled: page set-up, widgets, the data editors' own behaviour, reruns and messages. The editors' output is a parameter: a table with the same rows and labels as the one they show.
- parser.py (`parse_csv`, `parse_pdf`) is file input and is not part of this model. `clean_data` receives the parsed table.
- Date and time parsing with `pd.to_datetime`/`strftime` is a parameter (`Conversions.parseDate`, `parseTime`), and so is the day a stored date denotes in the summary. `str()` of a float is the parameter `Conversions.show`.
- Floating point: amounts are exact reals, sums are exact, and `float()` is modelled for plain decimal literals (sign, digits, one point, "nan"). Exponents, "inf", underscores and rounding are not modelled.
- Processor.Coerce: a float cell is assumed to survive `astype(str)` and `float()` unchanged. A None cell (which pdfplumber gives for a cell missing from a PDF table) is treated as NaN. pandas turns it into the text "None" under `astype(str)`, so `astype(float)` would raise ValueError, while the model keeps the cell missing and the amount becomes 0. The model has one missing-cell kind, for NaN and None alike.
- App.ReceiptId: a missing id cell is read as NaN, which Python finds true, so the chain stops at it. A None `Receipt No`, which Python finds false, would fall through to `Transaction ID`; that case is not modelled. Editor rows have neither column, so ingest never meets it.
- Strings.Lower: only ASCII letters are lowercased. Unicode case mapping is not modelled.
- Persistence of categories.json is write-through. `CategoryStore.file` is the last dictionary written, and a loaded file is assumed to be a well-formed dictionary. Its JSON encoding is not modelled.
- Database.Matching and Database.TransactionStore.Get: the filter is a case-sensitive substring test. SQLite's `LIKE` is case-insensitive for ASCII and treats `%` and `_` inside the filter as wildcards.
- SQLite details are not modelled: type affinity (text that looks numeric stored as REAL), and connection handling and commits.
- The imports of app.py are assumed to succeed. app.py imports `get_all_categories`, `add_category_mapping` and `get_category_mappings` from database.py, which does not define them, so the program as written stops with ImportError before any modelled code runs.
- Database.TransactionStore.Insert, Exists, Get and UpdateCategory require the table to exist. Without it SQLite raises an error, but app.py always calls `create_table` first.
- Charts and downloads are not modelled: Altair, matplotlib, the monthly resample, and the CSV and PNG buffers.
- Categories.Categorize requires distinct index labels. On a repeated label, `df.at[idx, "Category"] = category` (app.py:73) writes to every row with that label, and the model does not describe that write.
- App.ReviewSave requires the cleaned table's labels to be distinct and the editor's labels to equal them. On a repeated label, `clean_df.at[idx, "Category"]` (app.py:134) is a Series, and comparing it in the `if` raises ValueError; the model does not describe that error. `clean_data` keeps the labels of the table it is given, and the program never hands it repeated ones.
- App.ReviewSave and App.SaveDbEdits require every changed category to be text. A category cleared to None in the editor would make the dictionary key None, and that is not modelled.
- Processor.CleanData requires distinct column names (`Valid`). A raw table with a repeated header, such as two "Paid in" columns from a PDF, is accepted by `clean_data`, which then raises or passes it through. The model cannot represent such a table.
- Processor.CleanData: the `.str` accessor at processor.py:14 is modelled as failing when the table has rows and none of their descriptions is a string. pandas decides by the column's dtype. A CSV column of only NaN or only numbers fails, as modelled. A PDF column of only None cells has dtype object and does not fail, while the model, which does not tell None from NaN, reports NoTextDescription. For the same reason a None amount cell does not raise in the model (see Processor.Coerce).
- App.Ingest takes the review editor's table as it is. The exception handler around the upload flow is not modelled.
