/**
 * `DataHandler` of the shared utilities (Shared/MyUtils.cs): the filter that
 * turns an Excel sheet name into a table name, and the first-match lookups of
 * a table by name and of a field by the key in a row's first column.
 */
module DataHandler {
  import opened Wrappers

  /** The characters the table-name filter keeps: `[a-zA-Z0-9 _-]`. */
  predicate IsAllowed(c: char)
  {
    ('a' <= c <= 'z') || ('A' <= c <= 'Z') || ('0' <= c <= '9') || c == ' ' || c == '_' || c == '-'
  }

  /** Every character of `s` is one the filter keeps. */
  predicate AllAllowed(s: string)
  {
    forall i :: 0 <= i < |s| ==> IsAllowed(s[i])
  }

  /**
   * The sheet-name filter: the regular expression `[^a-zA-Z0-9 _-]` replaced
   * by the empty string, which drops the `'` and `$` the Excel driver puts
   * around sheet names, and every other character outside the class.
   */
  function SanitizeTableName(s: string): (r: string)
    ensures |r| <= |s|
    ensures AllAllowed(r)
  {
    if s == [] then []
    else (if IsAllowed(s[0]) then [s[0]] else []) + SanitizeTableName(s[1..])
  }

  /** The filter works character by character: filtering a concatenation concatenates the filtered parts. */
  lemma {:induction false} SanitizeAppend(a: string, b: string)
    ensures SanitizeTableName(a + b) == SanitizeTableName(a) + SanitizeTableName(b)
  {
    if a != [] {
      var head := if IsAllowed(a[0]) then [a[0]] else [];
      assert (a + b)[0] == a[0] && (a + b)[1..] == a[1..] + b;
      SanitizeAppend(a[1..], b);
      calc {
        SanitizeTableName(a + b);
        head + SanitizeTableName(a[1..] + b);
        head + (SanitizeTableName(a[1..]) + SanitizeTableName(b));
        (head + SanitizeTableName(a[1..])) + SanitizeTableName(b);
        SanitizeTableName(a) + SanitizeTableName(b);
      }
    } else {
      assert a + b == b;
    }
  }

  /**
   * Order is kept: around any character the input's two sides are filtered
   * independently, and the character itself stays between them exactly when
   * it is allowed.
   */
  lemma SanitizeAroundChar(a: string, c: char, b: string)
    ensures SanitizeTableName(a + [c] + b) ==
      SanitizeTableName(a) + (if IsAllowed(c) then [c] else []) + SanitizeTableName(b)
  {
    SanitizeAppend(a + [c], b);
    SanitizeAppend(a, [c]);
    assert [c][1..] == [];
  }

  /** A name made only of allowed characters passes unchanged. */
  lemma {:induction false} SanitizeKeepsAllowed(s: string)
    requires AllAllowed(s)
    ensures SanitizeTableName(s) == s
  {
    if s != [] {
      SanitizeKeepsAllowed(s[1..]);
    }
  }

  /** Filtering twice is filtering once. */
  lemma SanitizeIdempotent(s: string)
    ensures SanitizeTableName(SanitizeTableName(s)) == SanitizeTableName(s)
  {
    SanitizeKeepsAllowed(SanitizeTableName(s));
  }

  /**
   * Nothing allowed is lost and nothing else survives: each allowed character
   * occurs as often in the result as in the input, every other one not at all.
   */
  lemma {:induction false} SanitizeCounts(s: string, c: char)
    ensures multiset(SanitizeTableName(s))[c] == if IsAllowed(c) then multiset(s)[c] else 0
  {
    if s != [] {
      SanitizeCounts(s[1..], c);
      assert s == [s[0]] + s[1..];
    }
  }

  /** A data row: a value (null as `None`) for each column name. */
  type Row = map<string, Option<string>>

  /** A data table: its name, its columns in order and its rows. */
  datatype Table = Table(name: string, columns: seq<string>, rows: seq<Row>)

  /** Every row of a table has a value for exactly the table's columns. */
  predicate WellFormed(t: Table)
  {
    forall r :: r in t.rows ==> r.Keys == set c | c in t.columns
  }

  /** `ReadDataTable`: the first table of the collection with the requested name, or null. */
  function ReadDataTable(tables: seq<Table>, tableName: string): (r: Option<Table>)
    ensures r.None? <==> forall i :: 0 <= i < |tables| ==> tables[i].name != tableName
    ensures r.Some? ==> exists i :: (0 <= i < |tables| && tables[i] == r.value && tables[i].name == tableName
      && forall j :: 0 <= j < i ==> tables[j].name != tableName)
  {
    if tables == [] then None
    else if tables[0].name == tableName then Some(tables[0])
    else
      var r := ReadDataTable(tables[1..], tableName);
      assert r.Some? ==> exists i :: (0 < i < |tables| && tables[i] == r.value && tables[i].name == tableName
        && forall j :: 0 <= j < i ==> tables[j].name != tableName)
      by {
        if r.Some? {
          var i :| 0 <= i < |tables[1..]| && tables[1..][i] == r.value && tables[1..][i].name == tableName
            && forall j :: 0 <= j < i ==> tables[1..][j].name != tableName;
          assert tables[i + 1] == r.value;
        }
      }
      r
  }

  /** The row matches the key when its first column holds the key (a null cell never does). */
  predicate KeyMatches(t: Table, r: Row, key: string)
  {
    |t.columns| > 0 && t.columns[0] in r && r[t.columns[0]] == Some(key)
  }

  /** The index of the first row of `t` from position `from` on whose first column holds the key. */
  function FirstMatch(t: Table, key: string, from: nat): (r: Option<nat>)
    requires from <= |t.rows|
    ensures r.None? <==> forall i :: from <= i < |t.rows| ==> !KeyMatches(t, t.rows[i], key)
    ensures r.Some? ==> (from <= r.value < |t.rows| && KeyMatches(t, t.rows[r.value], key)
      && forall j :: from <= j < r.value ==> !KeyMatches(t, t.rows[j], key))
    decreases |t.rows| - from
  {
    if from == |t.rows| then None
    else if KeyMatches(t, t.rows[from], key) then Some(from)
    else FirstMatch(t, key, from + 1)
  }

  /** The exceptions `DataRow.Field` raises in this lookup. */
  datatype FieldError =
    | NoFirstColumn              // `Field(0)` on a table without columns
    | ColumnNotFound(column: string)  // `Field(parameter)` for a column the table lacks

  /**
   * `ReadParameterFromDataTable`: the `parameter` field of the first row whose
   * first column equals `key`; null when no row matches.
   */
  function ReadParameterFromDataTable(key: string, table: Table, parameter: string): (r: Result<Option<string>, FieldError>)
    requires WellFormed(table)
    ensures r == Failure(NoFirstColumn) <==> |table.columns| == 0 && |table.rows| > 0
    ensures r == Failure(ColumnNotFound(parameter)) <==>
      (exists i :: 0 <= i < |table.rows| && KeyMatches(table, table.rows[i], key)) && parameter !in table.columns
    ensures r.Failure? ==> r == Failure(NoFirstColumn) || r == Failure(ColumnNotFound(parameter))
    ensures ((forall i :: 0 <= i < |table.rows| ==> !KeyMatches(table, table.rows[i], key))
      && !(|table.columns| == 0 && |table.rows| > 0)) ==> r == Success(None)
    ensures (exists i :: 0 <= i < |table.rows| && KeyMatches(table, table.rows[i], key)) && parameter in table.columns ==>
      r.Success? && exists i :: (0 <= i < |table.rows| && KeyMatches(table, table.rows[i], key)
        && (forall j :: 0 <= j < i ==> !KeyMatches(table, table.rows[j], key))
        && parameter in table.rows[i] && r.value == table.rows[i][parameter])
  {
    if |table.columns| == 0 && |table.rows| > 0 then Failure(NoFirstColumn)
    else
      match FirstMatch(table, key, 0)
      case None => Success(None)
      case Some(i) =>
        if parameter !in table.columns then Failure(ColumnNotFound(parameter))
        else Success(table.rows[i][parameter])
  }
}
