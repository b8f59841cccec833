/** The semantic data model: tables, relationships and measures, the
    relationship-suggestion heuristic, and the two in-place mutators that
    append a relationship or a (validated) measure to a model. */
module DataModeling {
  import opened Wrappers
  import opened Text
  import opened Dax

  datatype Column = Column(
    name: string,
    dtype: string,            // "string", "number", "date" or "boolean"
    isKey: bool,
    isForeignKey: bool,
    references: Option<string>)  // "table.column"

  datatype Table = Table(name: string, columns: seq<Column>, rowCount: int, source: string)

  datatype Relationship = Relationship(
    id: string,
    fromTable: string,
    fromColumn: string,
    toTable: string,
    toColumn: string,
    cardinality: string,      // "many-to-one" unless the caller says otherwise
    crossFilter: string)

  datatype Measure = Measure(name: string, expression: string, format: string, description: string)

  /** Why a relationship was suggested. */
  datatype Reason =
    | IdenticalNames     // the two column names agree up to case
    | ForeignKeyPattern  // the column is named `<other table>_id`

  /** A suggested relationship between two `"table.column"` references. */
  datatype Suggestion = Suggestion(from: string, to: string, confidence: real, reason: Reason)

  function Qualified(table: string, column: string): string {
    table + "." + column
  }

  /** The identical-name rule: the two names agree after lower-casing. */
  predicate SameName(a: string, b: string) {
    Lower(a) == Lower(b)
  }

  /** The foreign-key rule: `column` is `<table>_id` after lower-casing. */
  predicate NamesTable(column: string, table: string) {
    Lower(column) == Lower(table) + "_id"
  }

  /** The suggestion, if any, for column `c1` of `t1` against column `c2` of
      `t2`: the identical-name rule first, the foreign-key rule only when it
      does not fire. */
  function Match(t1: Table, c1: Column, t2: Table, c2: Column): (r: seq<Suggestion>)
    ensures |r| <= 1
  {
    if SameName(c1.name, c2.name) then
      [Suggestion(Qualified(t1.name, c1.name), Qualified(t2.name, c2.name), 0.9, IdenticalNames)]
    else if NamesTable(c1.name, t2.name) then
      [Suggestion(Qualified(t1.name, c1.name), Qualified(t2.name, "id"), 0.95, ForeignKeyPattern)]
    else []
  }

  /** What one column pair yields: nothing when neither rule fires; otherwise
      a suggestion from `t1.c1`, by the identical-name rule exactly when the
      names agree up to case, so the foreign-key rule only when they do not. */
  lemma MatchRules(t1: Table, c1: Column, t2: Table, c2: Column, s: Suggestion)
    ensures Match(t1, c1, t2, c2) == [] <==> !SameName(c1.name, c2.name) && !NamesTable(c1.name, t2.name)
    ensures s in Match(t1, c1, t2, c2) ==>
      && s.from == Qualified(t1.name, c1.name)
      && (s.reason == IdenticalNames <==> SameName(c1.name, c2.name))
      && (s.reason == IdenticalNames ==> s.to == Qualified(t2.name, c2.name) && s.confidence == 0.9)
      && (s.reason == ForeignKeyPattern ==>
            s.to == Qualified(t2.name, "id") && s.confidence == 0.95 && NamesTable(c1.name, t2.name))
  {
  }

  /** The suggestions for `c1` against the first `n` columns of `t2`. */
  function ColumnPairs(t1: Table, c1: Column, t2: Table, n: nat): seq<Suggestion>
    requires n <= |t2.columns|
  {
    if n == 0 then [] else ColumnPairs(t1, c1, t2, n - 1) + Match(t1, c1, t2, t2.columns[n - 1])
  }

  /** The suggestions for the first `m` columns of `t1` against `t2`. */
  function TablePair(t1: Table, t2: Table, m: nat): seq<Suggestion>
    requires m <= |t1.columns|
  {
    if m == 0 then [] else TablePair(t1, t2, m - 1) + ColumnPairs(t1, t1.columns[m - 1], t2, |t2.columns|)
  }

  /** The suggestions for `t1` against the first `n` tables of `ts`; a table
      with the same name as `t1` (itself included) is skipped. */
  function FromTable(t1: Table, ts: seq<Table>, n: nat): seq<Suggestion>
    requires n <= |ts|
  {
    if n == 0 then []
    else if t1.name == ts[n - 1].name then FromTable(t1, ts, n - 1)
    else FromTable(t1, ts, n - 1) + TablePair(t1, ts[n - 1], |t1.columns|)
  }

  /** The rows of `rows` joined in order. */
  function Flatten<T>(rows: seq<seq<T>>): seq<T> {
    if rows == [] then [] else Flatten(rows[..|rows| - 1]) + rows[|rows| - 1]
  }

  lemma FlattenAppend<T>(rows: seq<seq<T>>, row: seq<T>)
    ensures Flatten(rows + [row]) == Flatten(rows) + row
  {
    assert (rows + [row])[..|rows|] == rows;
  }

  lemma {:induction false} FlattenSound<T>(rows: seq<seq<T>>, x: T) returns (i: int)
    requires x in Flatten(rows)
    ensures 0 <= i < |rows| && x in rows[i]
  {
    var init := rows[..|rows| - 1];
    if x in Flatten(init) {
      i := FlattenSound(init, x);
      assert rows[i] == init[i];
    } else {
      i := |rows| - 1;
    }
  }

  lemma {:induction false} FlattenComplete<T>(rows: seq<seq<T>>, i: int, x: T)
    requires 0 <= i < |rows| && x in rows[i]
    ensures x in Flatten(rows)
  {
    var init := rows[..|rows| - 1];
    if i < |rows| - 1 {
      assert init[i] == rows[i];
      FlattenComplete(init, i, x);
    }
  }

  /** Row `i` holds the suggestions for table `i` against all of `ts`. */
  function Rows(ts: seq<Table>, m: nat): (r: seq<seq<Suggestion>>)
    requires m <= |ts|
    ensures |r| == m
    ensures forall i :: 0 <= i < m ==> r[i] == FromTable(ts[i], ts, |ts|)
  {
    if m == 0 then [] else Rows(ts, m - 1) + [FromTable(ts[m - 1], ts, |ts|)]
  }

  /** The suggestions for the first `m` tables of `ts` against all of `ts`. */
  function AllPairs(ts: seq<Table>, m: nat): seq<Suggestion>
    requires m <= |ts|
  {
    Flatten(Rows(ts, m))
  }

  lemma AllPairsStep(ts: seq<Table>, m: nat)
    requires m < |ts|
    ensures AllPairs(ts, m + 1) == AllPairs(ts, m) + FromTable(ts[m], ts, |ts|)
  {
    FlattenAppend(Rows(ts, m), FromTable(ts[m], ts, |ts|));
  }

  /** Every suggestion for a model's tables, in nested-loop order: first table
      outermost, then second table, then first column, then second column. */
  function Suggestions(ts: seq<Table>): seq<Suggestion> {
    AllPairs(ts, |ts|)
  }

  /** `s` is what comparing `c1` with column `l` of `t2` yields. */
  predicate InColumnPairs(t1: Table, c1: Column, t2: Table, l: int, s: Suggestion) {
    0 <= l < |t2.columns| && s in Match(t1, c1, t2, t2.columns[l])
  }

  /** `s` is what comparing column `k` of `t1` with column `l` of `t2` yields. */
  predicate InTablePair(t1: Table, t2: Table, k: int, l: int, s: Suggestion) {
    0 <= k < |t1.columns| && InColumnPairs(t1, t1.columns[k], t2, l, s)
  }

  /** The same, for `t2` the `j`-th table, named differently from `t1`. */
  predicate InFromTable(t1: Table, ts: seq<Table>, j: int, k: int, l: int, s: Suggestion) {
    0 <= j < |ts| && t1.name != ts[j].name && InTablePair(t1, ts[j], k, l, s)
  }

  /** `s` is what comparing column `k` of table `i` with column `l` of table
      `j` yields, for two differently named tables. */
  predicate SuggestedAt(ts: seq<Table>, i: int, j: int, k: int, l: int, s: Suggestion) {
    0 <= i < |ts| && InFromTable(ts[i], ts, j, k, l, s)
  }

  lemma {:induction false} ColumnPairsSound(t1: Table, c1: Column, t2: Table, n: nat, s: Suggestion)
    returns (l: int)
    requires n <= |t2.columns| && s in ColumnPairs(t1, c1, t2, n)
    ensures l < n && InColumnPairs(t1, c1, t2, l, s)
  {
    if s in ColumnPairs(t1, c1, t2, n - 1) {
      l := ColumnPairsSound(t1, c1, t2, n - 1, s);
    } else {
      l := n - 1;
    }
  }

  lemma {:induction false} ColumnPairsComplete(t1: Table, c1: Column, t2: Table, n: nat, l: int, s: Suggestion)
    requires n <= |t2.columns| && l < n && InColumnPairs(t1, c1, t2, l, s)
    ensures s in ColumnPairs(t1, c1, t2, n)
  {
    if l < n - 1 {
      ColumnPairsComplete(t1, c1, t2, n - 1, l, s);
    }
  }

  lemma {:induction false} TablePairSound(t1: Table, t2: Table, m: nat, s: Suggestion)
    returns (k: int, l: int)
    requires m <= |t1.columns| && s in TablePair(t1, t2, m)
    ensures k < m && InTablePair(t1, t2, k, l, s)
  {
    if s in TablePair(t1, t2, m - 1) {
      k, l := TablePairSound(t1, t2, m - 1, s);
    } else {
      k := m - 1;
      l := ColumnPairsSound(t1, t1.columns[k], t2, |t2.columns|, s);
    }
  }

  lemma {:induction false} TablePairComplete(t1: Table, t2: Table, m: nat, k: int, l: int, s: Suggestion)
    requires m <= |t1.columns| && k < m && InTablePair(t1, t2, k, l, s)
    ensures s in TablePair(t1, t2, m)
  {
    if k < m - 1 {
      TablePairComplete(t1, t2, m - 1, k, l, s);
    } else {
      ColumnPairsComplete(t1, t1.columns[m - 1], t2, |t2.columns|, l, s);
    }
  }

  lemma {:induction false} FromTableSound(t1: Table, ts: seq<Table>, n: nat, s: Suggestion)
    returns (j: int, k: int, l: int)
    requires n <= |ts| && s in FromTable(t1, ts, n)
    ensures j < n && InFromTable(t1, ts, j, k, l, s)
  {
    if s in FromTable(t1, ts, n - 1) {
      j, k, l := FromTableSound(t1, ts, n - 1, s);
    } else {
      j := n - 1;
      assert t1.name != ts[j].name && s in TablePair(t1, ts[j], |t1.columns|);
      k, l := TablePairSound(t1, ts[j], |t1.columns|, s);
    }
  }

  lemma {:induction false} FromTableComplete(t1: Table, ts: seq<Table>, n: nat, j: int, k: int, l: int, s: Suggestion)
    requires n <= |ts| && j < n && InFromTable(t1, ts, j, k, l, s)
    ensures s in FromTable(t1, ts, n)
  {
    if j < n - 1 {
      FromTableComplete(t1, ts, n - 1, j, k, l, s);
    } else {
      TablePairComplete(t1, ts[n - 1], |t1.columns|, k, l, s);
    }
  }

  lemma AllPairsSound(ts: seq<Table>, m: nat, s: Suggestion) returns (i: int)
    requires m <= |ts| && s in AllPairs(ts, m)
    ensures 0 <= i < m && s in FromTable(ts[i], ts, |ts|)
  {
    i := FlattenSound(Rows(ts, m), s);
  }

  lemma AllPairsComplete(ts: seq<Table>, m: nat, i: int, j: int, k: int, l: int, s: Suggestion)
    requires m <= |ts| && i < m && SuggestedAt(ts, i, j, k, l, s)
    ensures s in AllPairs(ts, m)
  {
    FromTableComplete(ts[i], ts, |ts|, j, k, l, s);
    FlattenComplete(Rows(ts, m), i, s);
  }

  /** A suggestion is produced exactly when some pair of columns of two
      differently named tables yields it. */
  lemma SuggestionsMembers(ts: seq<Table>, s: Suggestion)
    ensures s in Suggestions(ts) <==> exists i, j, k, l :: SuggestedAt(ts, i, j, k, l, s)
  {
    if s in Suggestions(ts) {
      var i := AllPairsSound(ts, |ts|, s);
      var j, k, l := FromTableSound(ts[i], ts, |ts|, s);
      assert SuggestedAt(ts, i, j, k, l, s);
    }
    if exists i, j, k, l :: SuggestedAt(ts, i, j, k, l, s) {
      var i, j, k, l :| SuggestedAt(ts, i, j, k, l, s);
      AllPairsComplete(ts, |ts|, i, j, k, l, s);
    }
  }

  /** Every suggestion is one of the two rules' outputs, with that rule's
      confidence; a foreign-key suggestion always targets `<table>.id`. */
  lemma SuggestionShape(ts: seq<Table>, s: Suggestion)
    requires s in Suggestions(ts)
    ensures s.reason == IdenticalNames ==> s.confidence == 0.9
    ensures s.reason == ForeignKeyPattern ==>
              s.confidence == 0.95 && exists j :: 0 <= j < |ts| && s.to == Qualified(ts[j].name, "id")
  {
    SuggestionsMembers(ts, s);
    var i, j, k, l :| SuggestedAt(ts, i, j, k, l, s);
  }

  /** No suggestion relates a table to a table of the same name: it goes from
      column `k` of table `i` to column `l`, or the `id`, of table `j`, and
      the two tables are named differently. */
  lemma NeverSameTable(ts: seq<Table>, s: Suggestion) returns (i: int, j: int, k: int, l: int)
    requires s in Suggestions(ts)
    ensures 0 <= i < |ts| && 0 <= j < |ts| && ts[i].name != ts[j].name
    ensures 0 <= k < |ts[i].columns| && 0 <= l < |ts[j].columns|
    ensures s.from == Qualified(ts[i].name, ts[i].columns[k].name)
    ensures s.to == Qualified(ts[j].name, ts[j].columns[l].name) || s.to == Qualified(ts[j].name, "id")
  {
    SuggestionsMembers(ts, s);
    i, j, k, l :| SuggestedAt(ts, i, j, k, l, s);
    MatchRules(ts[i], ts[i].columns[k], ts[j], ts[j].columns[l], s);
  }

  /** Two columns of differently named tables whose names agree up to case are
      always suggested, in that direction, with confidence 0.9. */
  lemma IdenticalNamesSuggested(ts: seq<Table>, i: int, j: int, k: int, l: int)
    requires 0 <= i < |ts| && 0 <= j < |ts| && ts[i].name != ts[j].name
    requires 0 <= k < |ts[i].columns| && 0 <= l < |ts[j].columns|
    requires Lower(ts[i].columns[k].name) == Lower(ts[j].columns[l].name)
    ensures Suggestion(Qualified(ts[i].name, ts[i].columns[k].name), Qualified(ts[j].name, ts[j].columns[l].name),
                       0.9, IdenticalNames) in Suggestions(ts)
  {
    var s := Suggestion(Qualified(ts[i].name, ts[i].columns[k].name), Qualified(ts[j].name, ts[j].columns[l].name),
                        0.9, IdenticalNames);
    assert SuggestedAt(ts, i, j, k, l, s);
    SuggestionsMembers(ts, s);
  }

  /** A column named `<other table>_id` (up to case) is suggested as a foreign
      key to `<other table>.id` against every column of the other table whose
      name differs from it, whether or not that table has an `id` column. */
  lemma ForeignKeySuggested(ts: seq<Table>, i: int, j: int, k: int, l: int)
    requires 0 <= i < |ts| && 0 <= j < |ts| && ts[i].name != ts[j].name
    requires 0 <= k < |ts[i].columns| && 0 <= l < |ts[j].columns|
    requires Lower(ts[i].columns[k].name) != Lower(ts[j].columns[l].name)
    requires Lower(ts[i].columns[k].name) == Lower(ts[j].name) + "_id"
    ensures Suggestion(Qualified(ts[i].name, ts[i].columns[k].name), Qualified(ts[j].name, "id"),
                       0.95, ForeignKeyPattern) in Suggestions(ts)
  {
    var s := Suggestion(Qualified(ts[i].name, ts[i].columns[k].name), Qualified(ts[j].name, "id"),
                        0.95, ForeignKeyPattern);
    assert SuggestedAt(ts, i, j, k, l, s);
    SuggestionsMembers(ts, s);
  }

  function TextColumn(name: string): Column {
    Column(name, "string", false, false, None)
  }

  /** Two tables in the order the suggestion loops visit them: `a` has
      columns `x` and `b_id`, `b` has the single column `x`. */
  const ExampleTables: seq<Table> :=
    [Table("a", [TextColumn("x"), TextColumn("b_id")], 0, "upload"), Table("b", [TextColumn("x")], 0, "upload")]

  lemma ExampleNames()
    ensures Lower("x") == "x" && Lower("b_id") == "b_id" && Lower("a") == "a" && Lower("b") == "b"
    ensures Qualified("a", "x") == "a.x" && Qualified("b", "x") == "b.x"
    ensures Qualified("a", "b_id") == "a.b_id" && Qualified("b", "id") == "b.id"
  {
  }

  lemma ExampleFromA()
    ensures FromTable(ExampleTables[0], ExampleTables, 2)
         == [Suggestion("a.x", "b.x", 0.9, IdenticalNames), Suggestion("a.b_id", "b.id", 0.95, ForeignKeyPattern)]
  {
    ExampleNames();
    var ts := ExampleTables;
    var ta, tb := ts[0], ts[1];
    var s1 := Suggestion("a.x", "b.x", 0.9, IdenticalNames);
    var s2 := Suggestion("a.b_id", "b.id", 0.95, ForeignKeyPattern);
    assert Match(ta, ta.columns[0], tb, tb.columns[0]) == [s1];
    assert Match(ta, ta.columns[1], tb, tb.columns[0]) == [s2];
    assert ColumnPairs(ta, ta.columns[0], tb, 1) == [s1];
    assert ColumnPairs(ta, ta.columns[1], tb, 1) == [s2];
    assert TablePair(ta, tb, 1) == [s1];
    assert TablePair(ta, tb, 2) == [s1, s2];
    assert FromTable(ta, ts, 1) == [];
  }

  lemma ExampleFromB()
    ensures FromTable(ExampleTables[1], ExampleTables, 2) == [Suggestion("b.x", "a.x", 0.9, IdenticalNames)]
  {
    ExampleNames();
    var ts := ExampleTables;
    var ta, tb := ts[0], ts[1];
    var s3 := Suggestion("b.x", "a.x", 0.9, IdenticalNames);
    assert Match(tb, tb.columns[0], ta, ta.columns[0]) == [s3];
    assert Match(tb, tb.columns[0], ta, ta.columns[1]) == [];
    assert ColumnPairs(tb, tb.columns[0], ta, 1) == [s3];
    assert ColumnPairs(tb, tb.columns[0], ta, 2) == [s3];
    assert TablePair(tb, ta, 1) == [s3];
    assert FromTable(tb, ts, 1) == [s3];
  }

  /** Suggestions come in table order, not sorted by confidence, and the
      foreign-key rule fires although table `b` has no `id` column. */
  lemma UnsortedExample()
    ensures Suggestions(ExampleTables)
         == [Suggestion("a.x", "b.x", 0.9, IdenticalNames),
             Suggestion("a.b_id", "b.id", 0.95, ForeignKeyPattern),
             Suggestion("b.x", "a.x", 0.9, IdenticalNames)]
  {
    ExampleFromA();
    ExampleFromB();
    AllPairsStep(ExampleTables, 0);
    AllPairsStep(ExampleTables, 1);
  }

  /** The innermost loop of the suggestion scan: one column of `t1` against
      every column of `t2`. */
  method CompareColumn(t1: Table, c1: Column, t2: Table) returns (suggestions: seq<Suggestion>)
    ensures suggestions == ColumnPairs(t1, c1, t2, |t2.columns|)
  {
    suggestions := [];
    var l := 0;
    while l < |t2.columns|
      invariant 0 <= l <= |t2.columns|
      invariant suggestions == ColumnPairs(t1, c1, t2, l)
    {
      var c2 := t2.columns[l];
      if SameName(c1.name, c2.name) {
        suggestions := suggestions + [Suggestion(Qualified(t1.name, c1.name), Qualified(t2.name, c2.name), 0.9, IdenticalNames)];
      } else if NamesTable(c1.name, t2.name) {
        suggestions := suggestions + [Suggestion(Qualified(t1.name, c1.name), Qualified(t2.name, "id"), 0.95, ForeignKeyPattern)];
      }
      l := l + 1;
    }
  }

  /** The third loop of the suggestion scan: every column of `t1` against
      every column of `t2`. */
  method CompareTables(t1: Table, t2: Table) returns (suggestions: seq<Suggestion>)
    ensures suggestions == TablePair(t1, t2, |t1.columns|)
  {
    suggestions := [];
    var k := 0;
    while k < |t1.columns|
      invariant 0 <= k <= |t1.columns|
      invariant suggestions == TablePair(t1, t2, k)
    {
      var row := CompareColumn(t1, t1.columns[k], t2);
      suggestions := suggestions + row;
      k := k + 1;
    }
  }

  /** The second loop of the suggestion scan: `t1` against every table of
      `ts` whose name differs from its own. */
  method CompareWithAll(t1: Table, ts: seq<Table>) returns (suggestions: seq<Suggestion>)
    ensures suggestions == FromTable(t1, ts, |ts|)
  {
    suggestions := [];
    var j := 0;
    while j < |ts|
      invariant 0 <= j <= |ts|
      invariant suggestions == FromTable(t1, ts, j)
    {
      var t2 := ts[j];
      if t1.name != t2.name {
        var pair := CompareTables(t1, t2);
        suggestions := suggestions + pair;
      }
      j := j + 1;
    }
  }

  /** A semantic model. Its relationship and measure lists grow in place. */
  class DataModel {
    var id: string
    var name: string
    var tables: seq<Table>
    var relationships: seq<Relationship>
    var measures: seq<Measure>
    var createdAt: string
    var updatedAt: string
    var owner: string

    constructor(id: string, name: string, tables: seq<Table>, relationships: seq<Relationship>,
                measures: seq<Measure>, createdAt: string, updatedAt: string, owner: string)
      ensures this.id == id && this.name == name && this.tables == tables
      ensures this.relationships == relationships && this.measures == measures
      ensures this.createdAt == createdAt && this.updatedAt == updatedAt && this.owner == owner
    {
      this.id := id;
      this.name := name;
      this.tables := tables;
      this.relationships := relationships;
      this.measures := measures;
      this.createdAt := createdAt;
      this.updatedAt := updatedAt;
      this.owner := owner;
    }

    /** Every stored measure passes the validator. */
    ghost predicate MeasuresValid()
      reads this
    {
      forall m :: m in measures ==> Validate(m.expression).valid
    }

    /** Appends a relationship with the given endpoints; `relId` stands for
        the first eight characters of a fresh UUID. No duplicate or endpoint
        check is made. */
    method CreateRelationship(relId: string, fromTable: string, fromColumn: string, toTable: string,
                              toColumn: string, cardinality: string := "many-to-one")
      returns (rel: Relationship)
      modifies this
      ensures rel == Relationship(relId, fromTable, fromColumn, toTable, toColumn, cardinality, "single")
      ensures relationships == old(relationships) + [rel]
      ensures id == old(id) && name == old(name) && tables == old(tables) && measures == old(measures)
      ensures createdAt == old(createdAt) && updatedAt == old(updatedAt) && owner == old(owner)
    {
      rel := Relationship(relId, fromTable, fromColumn, toTable, toColumn, cardinality, "single");
      relationships := relationships + [rel];
    }

    /** Scans every ordered pair of differently named tables and every pair of
        their columns, collecting suggestions; the model is not changed. */
    method DetectRelationships() returns (suggestions: seq<Suggestion>)
      ensures suggestions == Suggestions(tables)
    {
      var ts := tables;
      suggestions := [];
      var i := 0;
      while i < |ts|
        invariant 0 <= i <= |ts|
        invariant suggestions == AllPairs(ts, i)
      {
        var row := CompareWithAll(ts[i], ts);
        AllPairsStep(ts, i);
        suggestions := suggestions + row;
        i := i + 1;
      }
    }

    /** Validates the expression and, when it is valid, appends the measure. */
    method CreateMeasure(name: string, expression: string, format: string := "number", description: string := "")
      returns (m: Option<Measure>)
      modifies this
      ensures m.None? <==> !Validate(expression).valid
      ensures m.None? ==> measures == old(measures)
      ensures m.Some? ==> m.value == Measure(name, expression, format, description)
                          && measures == old(measures) + [m.value]
      ensures id == old(id) && this.name == old(this.name) && tables == old(tables)
      ensures relationships == old(relationships)
      ensures createdAt == old(createdAt) && updatedAt == old(updatedAt) && owner == old(owner)
      ensures old(MeasuresValid()) ==> MeasuresValid()
    {
      var validation := ValidateDax(expression);
      if !validation.valid {
        return None;
      }
      var measure := Measure(name, expression, format, description);
      measures := measures + [measure];
      m := Some(measure);
    }
  }
}
