/**
 * The keyword-based categoriser (app.py): the category dictionary kept in the
 * session and in categories.json, `add_keyword_to_category`, the add-category
 * form, and `categorize_transactions`.
 */
module Categories {
  import opened Wrappers
  import opened Strings
  import opened Frame
  import Processor

  /** The category every row starts with and that never assigns itself. */
  const Uncategorized := "Uncategorized"

  /**
   * The category dictionary: its names in insertion order (the order of `items()`)
   * and each name's keyword list. A keyword is a cell because the store's
   * descriptions, which the edit page turns into keywords, may be NULL.
   */
  datatype CategoryMap = CategoryMap(names: seq<string>, keywords: map<string, seq<Cell>>)

  /** A dictionary: each name once, and exactly the listed names have keyword lists. */
  ghost predicate WellFormed(m: CategoryMap) {
    Distinct(m.names) && m.keywords.Keys == ColumnSet(m.names)
  }

  /** The dictionary a new session starts with (app.py:48-51). */
  function Default(): (m: CategoryMap)
    ensures WellFormed(m) && m.names == [Uncategorized] && m.keywords[Uncategorized] == []
  {
    CategoryMap([Uncategorized], map[Uncategorized := []])
  }

  /** `categories[name] = []` for a name not yet present: it goes last. */
  function WithEmpty(m: CategoryMap, name: string): (r: CategoryMap)
    requires WellFormed(m) && name !in m.keywords
    ensures WellFormed(r)
    ensures r.names == m.names + [name] && r.keywords == m.keywords[name := []]
  {
    assert ColumnSet(m.names + [name]) == ColumnSet(m.names) + {name};
    CategoryMap(m.names + [name], m.keywords[name := []])
  }

  /** The dictionary after `add_keyword_to_category(category, keyword)` (app.py:77-86). */
  function WithKeyword(m: CategoryMap, category: string, keyword: Cell): (r: CategoryMap)
    requires WellFormed(m)
    ensures WellFormed(r)
  {
    var m1 := if category in m.keywords then m else WithEmpty(m, category);
    if keyword in m1.keywords[category] then m1
    else m1.(keywords := m1.keywords[category := m1.keywords[category] + [keyword]])
  }

  /** Whether `add_keyword_to_category` writes categories.json: only when it appends. */
  predicate KeywordSaves(m: CategoryMap, category: string, keyword: Cell) {
    !(category in m.keywords && keyword in m.keywords[category])
  }

  /** The dictionary after the add-category form is submitted with `name` (app.py:92-96). */
  function WithCategory(m: CategoryMap, name: string): (r: CategoryMap)
    requires WellFormed(m)
    ensures WellFormed(r)
  {
    if name == "" || name in m.keywords then m else WithEmpty(m, name)
  }

  /** Whether the add-category form writes categories.json. */
  predicate CategorySaves(m: CategoryMap, name: string) {
    name != "" && name !in m.keywords
  }

  /** After adding, the keyword is in the category's list exactly once if it was absent. */
  lemma KeywordRecorded(m: CategoryMap, category: string, keyword: Cell)
    requires WellFormed(m)
    ensures var r := WithKeyword(m, category, keyword);
      && category in r.keywords && keyword in r.keywords[category]
      && (KeywordSaves(m, category, keyword) ==>
            r.keywords[category] == (if category in m.keywords then m.keywords[category] else []) + [keyword])
      && (!KeywordSaves(m, category, keyword) ==> r == m)
  {
  }

  /** Adding a keyword touches no other category, and a new category goes last. */
  lemma KeywordFrame(m: CategoryMap, category: string, keyword: Cell, other: string)
    requires WellFormed(m) && other != category
    ensures var r := WithKeyword(m, category, keyword);
      && (other in r.keywords <==> other in m.keywords)
      && (other in m.keywords ==> r.keywords[other] == m.keywords[other])
      && r.names == if category in m.keywords then m.names else m.names + [category]
  {
  }

  /** Adding the same keyword twice is the same as adding it once, and the second does not save. */
  lemma {:induction false} KeywordIdempotent(m: CategoryMap, category: string, keyword: Cell)
    requires WellFormed(m)
    ensures WithKeyword(WithKeyword(m, category, keyword), category, keyword) == WithKeyword(m, category, keyword)
    ensures !KeywordSaves(WithKeyword(m, category, keyword), category, keyword)
  {
    KeywordRecorded(m, category, keyword);
  }

  /** Adding a keyword never removes a category or a keyword already recorded. */
  lemma KeywordKept(m: CategoryMap, category: string, keyword: Cell, c: string, k: Cell)
    requires WellFormed(m) && c in m.keywords && k in m.keywords[c]
    ensures c in WithKeyword(m, category, keyword).keywords
    ensures k in WithKeyword(m, category, keyword).keywords[c]
  {
  }

  /**
   * The add-category form: an empty name changes nothing; a new name gets an empty
   * keyword list at the end; an existing category keeps its keywords.
   */
  lemma CategoryAdded(m: CategoryMap, name: string)
    requires WellFormed(m)
    ensures name == "" ==> WithCategory(m, name) == m
    ensures name in m.keywords ==> WithCategory(m, name) == m
    ensures CategorySaves(m, name) ==>
      WithCategory(m, name).names == m.names + [name] && WithCategory(m, name).keywords[name] == []
    ensures name != "" ==> name in WithCategory(m, name).keywords
  {
  }

  /**
   * The session's dictionary and the last contents written to categories.json.
   * Every write stores the whole dictionary, so a later load gives it back.
   */
  class CategoryStore {
    var categories: CategoryMap
    var file: Option<CategoryMap>

    ghost predicate Valid()
      reads this
    {
      WellFormed(categories) && (file.Some? ==> WellFormed(file.value))
    }

    /** app.py:48-55: the file's dictionary when there is one, else the default. */
    constructor Load(saved: Option<CategoryMap>)
      requires saved.Some? ==> WellFormed(saved.value)
      ensures Valid()
      ensures categories == (if saved.Some? then saved.value else Default())
      ensures file == saved
    {
      categories := if saved.Some? then saved.value else Default();
      file := saved;
    }

    /** `save_categories` (app.py:57-59). */
    method Save()
      requires Valid()
      modifies this
      ensures Valid() && categories == old(categories) && file == Some(categories)
    {
      file := Some(categories);
    }

    /** `add_keyword_to_category` (app.py:77-86). */
    method AddKeyword(category: string, keyword: Cell)
      requires Valid()
      modifies this
      ensures Valid()
      ensures categories == WithKeyword(old(categories), category, keyword)
      ensures file == if KeywordSaves(old(categories), category, keyword) then Some(categories) else old(file)
    {
      if category !in categories.keywords {
        categories := WithEmpty(categories, category);
      }
      if keyword !in categories.keywords[category] {
        categories := categories.(keywords := categories.keywords[category := categories.keywords[category] + [keyword]]);
        Save();
      }
    }

    /** The add-category form (app.py:92-96). */
    method AddCategory(name: string)
      requires Valid()
      modifies this
      ensures Valid()
      ensures categories == WithCategory(old(categories), name)
      ensures file == if CategorySaves(old(categories), name) then Some(categories) else old(file)
    {
      if name != "" {
        if name !in categories.keywords {
          categories := WithEmpty(categories, name);
          Save();
        }
      }
    }
  }

  // ---------------------------------------------------------------------------
  // categorize_transactions (app.py:61-75)

  /** `s.lower().strip()` */
  function Normal(s: string): string {
    Strip(Lower(s))
  }

  /** A category the loop does not skip: not Uncategorized and with some keyword. */
  predicate Active(m: CategoryMap, c: string)
    requires c in m.keywords
  {
    c != Uncategorized && m.keywords[c] != []
  }

  /** `[keyword.lower().strip() for keyword in keywords]`; None when one is not a string. */
  function Lowered(keywords: seq<Cell>): (r: Option<seq<string>>)
    ensures r.Some? <==> forall i :: 0 <= i < |keywords| ==> keywords[i].Text?
    ensures r.Some? ==> |r.value| == |keywords|
    ensures r.Some? ==> forall i :: 0 <= i < |keywords| ==> r.value[i] == Normal(keywords[i].s)
  {
    if keywords == [] then Some([])
    else
      var rest := Lowered(keywords[1..]);
      if keywords[0].Text? && rest.Some? then Some([Normal(keywords[0].s)] + rest.value)
      else
        assert !keywords[0].Text? || exists i :: 0 <= i < |keywords[1..]| && !keywords[1..][i].Text?;
        None
  }

  /** Membership in the lowered list is a match against the original keywords. */
  lemma LoweredMatches(keywords: seq<Cell>, d: string)
    requires Lowered(keywords).Some?
    ensures d in Lowered(keywords).value <==> Matches(keywords, d)
  {
    var l := Lowered(keywords).value;
    if d in l {
      var i :| 0 <= i < |l| && l[i] == d;
      assert keywords[i].Text? && Normal(keywords[i].s) == d;
    }
  }

  /** A keyword of the list that normalises to `d`. */
  predicate Matches(keywords: seq<Cell>, d: string) {
    exists i :: 0 <= i < |keywords| && keywords[i].Text? && Normal(keywords[i].s) == d
  }

  /** The normalised description of a row, or "" when it has none that is a string. */
  function Key(row: Row): string {
    if Processor.Description in row && row[Processor.Description].Text? then Normal(row[Processor.Description].s) else ""
  }

  /** The last active category among `names` with a keyword matching `d`, else Uncategorized. */
  function CategoryOf(m: CategoryMap, names: seq<string>, d: string): string
    requires forall i :: 0 <= i < |names| ==> names[i] in m.keywords
  {
    if names == [] then Uncategorized
    else
      var c := names[|names| - 1];
      if Active(m, c) && Matches(m.keywords[c], d) then c else CategoryOf(m, names[..|names| - 1], d)
  }

  /** Some active category has a keyword that is not a string: `keyword.lower()` raises. */
  predicate BadKeywords(m: CategoryMap)
    requires WellFormed(m)
  {
    exists i :: 0 <= i < |m.names| && Active(m, m.names[i]) && Lowered(m.keywords[m.names[i]]).None?
  }

  /** Some row's description is absent or not a string: `row["Description"].lower()` raises. */
  predicate BadDescriptions(rows: seq<Row>) {
    exists j :: 0 <= j < |rows| && !(Processor.Description in rows[j] && rows[j][Processor.Description].Text?)
  }

  predicate SomeActive(m: CategoryMap)
    requires WellFormed(m)
  {
    exists i :: 0 <= i < |m.names| && Active(m, m.names[i])
  }

  /** `df.at[idx, "Category"] = category` on one row. */
  function Labelled(row: Row, category: string): Row {
    row[Processor.Category := Text(category)]
  }

  /** Setting the category twice leaves the second one. */
  lemma Relabelled(row: Row, a: string, b: string)
    ensures Labelled(Labelled(row, a), b) == Labelled(row, b)
  {
  }

  /** The row with its category set to what the categoriser gives it. */
  function Categorized(m: CategoryMap, row: Row): Row
    requires WellFormed(m)
  {
    Labelled(row, CategoryOf(m, m.names, Key(row)))
  }

  /** The rows with the categories the first `i` dictionary entries give them. */
  ghost predicate CategorizedUpTo(m: CategoryMap, i: nat, rows: seq<Row>, out: seq<Row>)
    requires WellFormed(m) && i <= |m.names|
  {
    |out| == |rows| &&
    forall j :: 0 <= j < |rows| ==> out[j] == Labelled(rows[j], CategoryOf(m, m.names[..i], Key(rows[j])))
  }

  lemma CategoryOfStep(m: CategoryMap, i: nat, d: string)
    requires WellFormed(m) && i < |m.names|
    ensures CategoryOf(m, m.names[..i + 1], d) ==
      if Active(m, m.names[i]) && Matches(m.keywords[m.names[i]], d) then m.names[i] else CategoryOf(m, m.names[..i], d)
  {
    var names := m.names[..i + 1];
    assert names[|names| - 1] == m.names[i];
    assert names[..|names| - 1] == m.names[..i];
  }

  /** One row of the inner loop: a match sets the category, no match keeps the earlier one. */
  lemma ApplyRow(m: CategoryMap, i: nat, lowered: seq<string>, row: Row)
    requires WellFormed(m) && i < |m.names| && Active(m, m.names[i])
    requires Lowered(m.keywords[m.names[i]]) == Some(lowered)
    ensures CategoryOf(m, m.names[..i + 1], Key(row)) ==
      if Key(row) in lowered then m.names[i] else CategoryOf(m, m.names[..i], Key(row))
  {
    LoweredMatches(m.keywords[m.names[i]], Key(row));
    CategoryOfStep(m, i, Key(row));
  }

  /** `row["Description"].lower().strip() in lowered_keywords` (app.py:72-73). */
  method DescriptionListed(row: Row, lowered: seq<string>) returns (hit: bool)
    requires Processor.Description in row && row[Processor.Description].Text?
    ensures hit <==> Key(row) in lowered
  {
    var details := Normal(row[Processor.Description].s);
    hit := details in lowered;
  }

  /**
   * One row of the inner loop of app.py:71-73: the row already labelled
   * `before` gets the category when its description is listed, else keeps it;
   * a description that is not text fails.
   */
  method LabelRow(row: Row, current: Row, lowered: seq<string>, category: string, ghost before: string)
    returns (r: Option<Row>)
    requires current == Labelled(row, before)
    ensures r.None? <==> !(Processor.Description in row && row[Processor.Description].Text?)
    ensures r.Some? ==> r.value == Labelled(row, if Key(row) in lowered then category else before)
  {
    if !(Processor.Description in row && row[Processor.Description].Text?) {
      return None;
    }
    var hit := DescriptionListed(row, lowered);
    if hit {
      Relabelled(row, before, category);
      return Some(Labelled(current, category));
    }
    return Some(current);
  }

  /** A skipped category changes no row's category. */
  lemma SkipCategory(m: CategoryMap, i: nat, rows: seq<Row>, out: seq<Row>)
    requires WellFormed(m) && i < |m.names| && !Active(m, m.names[i])
    requires CategorizedUpTo(m, i, rows, out)
    ensures CategorizedUpTo(m, i + 1, rows, out)
  {
    forall j | 0 <= j < |rows|
      ensures out[j] == Labelled(rows[j], CategoryOf(m, m.names[..i + 1], Key(rows[j])))
    {
      CategoryOfStep(m, i, Key(rows[j]));
    }
  }

  /**
   * The inner loop of app.py:71-73 for one active category: a row whose normalised
   * description is among the lowered keywords gets the category, the others keep
   * the category `before` gave them. Each row is read as it stood when the
   * pass began, as `iterrows` yields it.
   */
  method ApplyCategory(category: string, lowered: seq<string>, rows: seq<Row>, out: seq<Row>, ghost before: seq<string>)
    returns (r: Option<seq<Row>>)
    requires |out| == |rows| == |before|
    requires forall k :: 0 <= k < |rows| ==> out[k] == Labelled(rows[k], before[k])
    ensures r.None? <==> BadDescriptions(rows)
    ensures r.Some? ==> |r.value| == |rows|
    ensures r.Some? ==> forall k :: 0 <= k < |rows| ==>
      r.value[k] == Labelled(rows[k], if Key(rows[k]) in lowered then category else before[k])
  {
    ghost var target := seq(|rows|, k requires 0 <= k < |rows| => if Key(rows[k]) in lowered then category else before[k]);
    var next := out;
    for j := 0 to |rows|
      invariant |next| == |rows|
      invariant forall k :: 0 <= k < j ==> Processor.Description in rows[k] && rows[k][Processor.Description].Text?
      invariant forall k :: 0 <= k < j ==> next[k] == Labelled(rows[k], target[k])
    {
      var labelled := LabelRow(rows[j], out[j], lowered, category, before[j]);
      if labelled.None? {
        return None;
      }
      ghost var prior := next;
      next := next[j := labelled.value];
      LabelledPrefix(rows, prior, next, target, j);
    }
    r := Some(next);
  }

  /** Setting row `j` to its target extends the labelled prefix by one row. */
  lemma LabelledPrefix(rows: seq<Row>, prior: seq<Row>, next: seq<Row>, target: seq<string>, j: nat)
    requires |prior| == |next| == |rows| == |target| && j < |rows|
    requires forall k :: 0 <= k < j ==> prior[k] == Labelled(rows[k], target[k])
    requires next == prior[j := Labelled(rows[j], target[j])]
    ensures forall k :: 0 <= k <= j ==> next[k] == Labelled(rows[k], target[k])
  {
  }

  /** What `ApplyCategory` does for `m.names[i]` is one more step of `CategoryOf`. */
  lemma ApplyAll(m: CategoryMap, i: nat, lowered: seq<string>, rows: seq<Row>, next: seq<Row>)
    requires WellFormed(m) && i < |m.names| && Active(m, m.names[i])
    requires Lowered(m.keywords[m.names[i]]) == Some(lowered)
    requires |next| == |rows|
    requires forall k :: 0 <= k < |rows| ==>
      next[k] == Labelled(rows[k], if Key(rows[k]) in lowered then m.names[i] else CategoryOf(m, m.names[..i], Key(rows[k])))
    ensures CategorizedUpTo(m, i + 1, rows, next)
  {
    forall k | 0 <= k < |rows|
      ensures next[k] == Labelled(rows[k], CategoryOf(m, m.names[..i + 1], Key(rows[k])))
    {
      ApplyRow(m, i, lowered, rows[k]);
    }
  }

  /** One pass of the outer loop of app.py:64-73, for `m.names[i]`. */
  method CategorizeStep(m: CategoryMap, i: nat, rows: seq<Row>, out: seq<Row>) returns (r: Option<seq<Row>>)
    requires WellFormed(m) && i < |m.names|
    requires CategorizedUpTo(m, i, rows, out)
    ensures r.None? <==> Active(m, m.names[i]) && (Lowered(m.keywords[m.names[i]]).None? || BadDescriptions(rows))
    ensures r.Some? ==> CategorizedUpTo(m, i + 1, rows, r.value)
  {
    var category := m.names[i];
    if category == Uncategorized || m.keywords[category] == [] {
      SkipCategory(m, i, rows, out);
      return Some(out);
    }
    var lowered := Lowered(m.keywords[category]);
    if lowered.None? {
      return None;
    }
    ghost var before := seq(|rows|, k requires 0 <= k < |rows| => CategoryOf(m, m.names[..i], Key(rows[k])));
    var applied := ApplyCategory(category, lowered.value, rows, out, before);
    if applied.None? {
      return None;
    }
    ApplyAll(m, i, lowered.value, rows, applied.value);
    r := applied;
  }

  /**
   * app.py:61-75. None when the loop raises: an active category with a keyword that
   * is not a string, or an active category and a row without a string description.
   * Otherwise every row keeps its other columns and gets `Categorized`'s category.
   */
  method Categorize(df: Table, m: CategoryMap) returns (r: Option<Table>)
    requires WellFormed(m)
    requires Distinct(df.labels)
    ensures r.None? <==> BadKeywords(m) || (SomeActive(m) && BadDescriptions(df.rows))
    ensures r.Some? ==> r.value.columns == WithColumn(df.columns, Processor.Category) && r.value.labels == df.labels
    ensures r.Some? ==> |r.value.rows| == |df.rows|
    ensures r.Some? ==> forall j :: 0 <= j < |df.rows| ==> r.value.rows[j] == Categorized(m, df.rows[j])
  {
    var rows := df.rows;
    var out := MapRows(rows, (row: Row) => Labelled(row, Uncategorized));
    ghost var seen := false;
    for i := 0 to |m.names|
      invariant CategorizedUpTo(m, i, rows, out)
      invariant forall i' :: 0 <= i' < i && Active(m, m.names[i']) ==> Lowered(m.keywords[m.names[i']]).Some?
      invariant !seen ==> forall i' :: 0 <= i' < i ==> !Active(m, m.names[i'])
      invariant seen ==> !BadDescriptions(rows)
    {
      var step := CategorizeStep(m, i, rows, out);
      if step.None? {
        return None;
      }
      out := step.value;
      seen := seen || Active(m, m.names[i]);
    }
    assert !BadKeywords(m);
    assert m.names[..|m.names|] == m.names;
    r := Some(Table(WithColumn(df.columns, Processor.Category), df.labels, out));
  }

  /** A category the categoriser assigns is active and has a keyword matching the description. */
  lemma {:induction false} AssignedMatches(m: CategoryMap, names: seq<string>, d: string)
    requires forall i :: 0 <= i < |names| ==> names[i] in m.keywords
    ensures var c := CategoryOf(m, names, d);
      c == Uncategorized || (c in names && Active(m, c) && Matches(m.keywords[c], d))
  {
    if names != [] {
      AssignedMatches(m, names[..|names| - 1], d);
    }
  }

  /**
   * When some active category matches, the categoriser assigns the last such one in
   * dictionary order: a later match overwrites an earlier one.
   */
  lemma {:induction false} LatestMatchWins(m: CategoryMap, names: seq<string>, d: string, i: int)
    requires forall k :: 0 <= k < |names| ==> names[k] in m.keywords
    requires 0 <= i < |names| && Active(m, names[i]) && Matches(m.keywords[names[i]], d)
    requires forall k :: i < k < |names| ==> !(Active(m, names[k]) && Matches(m.keywords[names[k]], d))
    ensures CategoryOf(m, names, d) == names[i]
  {
    var front := names[..|names| - 1];
    if i < |names| - 1 {
      assert forall k :: 0 <= k < |front| ==> front[k] == names[k];
      LatestMatchWins(m, front, d, i);
    }
  }

  /** No active category matches: the row stays Uncategorized. */
  lemma {:induction false} NoMatchUncategorized(m: CategoryMap, names: seq<string>, d: string)
    requires forall k :: 0 <= k < |names| ==> names[k] in m.keywords
    requires forall k :: 0 <= k < |names| ==> !(Active(m, names[k]) && Matches(m.keywords[names[k]], d))
    ensures CategoryOf(m, names, d) == Uncategorized
  {
    if names != [] {
      var front := names[..|names| - 1];
      assert forall k :: 0 <= k < |front| ==> front[k] == names[k];
      NoMatchUncategorized(m, front, d);
    }
  }

  /** With the default dictionary every row is Uncategorized. */
  lemma DefaultUncategorized(d: string)
    ensures CategoryOf(Default(), Default().names, d) == Uncategorized
  {
  }
}
