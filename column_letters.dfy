/**
 * Spreadsheet column letters of the PDF exporter: the fixed `Columns` table
 * and `IndexToLetter` (PDFExporter/PDFExporterForm.cs).
 */
module ColumnLetters {
  import opened Wrappers

  /** The exporter's 60-entry table of column names, in order, one constant per line of its display. */
  const ColumnsLine1: seq<string> := ["A", "B", "C", "D", "E", "F", "G", "H", "I", "J", "K", "L", "M", "N", "O", "P", "Q"]
  const ColumnsLine2: seq<string> := ["R", "S", "T", "U", "V", "W", "X", "Y", "Z", "AA", "AB", "AC", "AD", "AE", "AF"]
  const ColumnsLine3: seq<string> := ["AG", "AH", "AI", "AJ", "AK", "AL", "AM", "AN", "AO", "AP", "AQ", "AR", "AS"]
  const ColumnsLine4: seq<string> := ["AT", "AU", "AV", "AW", "AX", "AY", "AZ", "BA", "BB", "BC", "BD", "BE", "BF", "BG", "BH"]
  const Columns: seq<string> := ColumnsLine1 + ColumnsLine2 + ColumnsLine3 + ColumnsLine4

  /** Both failures are an IndexOutOfRangeException in the source; the two causes are kept apart. */
  datatype IndexError =
    | NotPositive   // the explicit guard on `index <= 0`
    | BeyondTable   // the array bound of `Columns`

  /** The upper-case letter for digit `d` of bijective base 26 (0 is 'A'). */
  function Letter(d: nat): (c: char)
    requires d < 26
    ensures 'A' <= c <= 'Z'
    ensures c as int - 'A' as int == d
  {
    ('A' as int + d) as char
  }

  /** Reference definition: the spreadsheet name of column `n` (bijective base 26). */
  function ColumnName(n: nat): string
    requires n >= 1
  {
    if n <= 26 then [Letter(n - 1)]
    else ColumnName((n - 1) / 26) + [Letter((n - 1) % 26)]
  }

  /** The inverse direction: the column number a spreadsheet name stands for. */
  function ColumnNumber(s: string): int
  {
    if s == [] then 0
    else ColumnNumber(s[..|s| - 1]) * 26 + (s[|s| - 1] as int - 'A' as int + 1)
  }

  /** Decoding a column's name gives back the column's number. */
  lemma {:induction false} ColumnNumberOfName(n: nat)
    requires n >= 1
    ensures ColumnNumber(ColumnName(n)) == n
  {
    if n > 26 {
      var q, d := (n - 1) / 26, (n - 1) % 26;
      var s := ColumnName(n);
      assert s[..|s| - 1] == ColumnName(q);
      ColumnNumberOfName(q);
    }
  }

  /** Line 1 of the table's display holds the names of columns 1 to 17. */
  lemma ColumnsLine1Names(n: nat)
    requires 1 <= n <= 17
    ensures |ColumnsLine1| == 17
    ensures ColumnsLine1[n - 1] == ColumnName(n)
  {
  }

  /** Line 2 of the table's display holds the names of columns 18 to 32. */
  lemma ColumnsLine2Names(n: nat)
    requires 18 <= n <= 32
    ensures |ColumnsLine2| == 15
    ensures ColumnsLine2[n - 18] == ColumnName(n)
  {
  }

  /** Line 3 of the table's display holds the names of columns 33 to 45. */
  lemma ColumnsLine3Names(n: nat)
    requires 33 <= n <= 45
    ensures |ColumnsLine3| == 13
    ensures ColumnsLine3[n - 33] == ColumnName(n)
  {
  }

  /** Line 4 of the table's display holds the names of columns 46 to 60. */
  lemma ColumnsLine4Names(n: nat)
    requires 46 <= n <= 60
    ensures |ColumnsLine4| == 15
    ensures ColumnsLine4[n - 46] == ColumnName(n)
  {
  }

  /** The table is exactly spreadsheet naming of columns 1 to 60. */
  lemma ColumnsAreColumnNames()
    ensures |Columns| == 60
    ensures forall n :: 1 <= n <= 60 ==> Columns[n - 1] == ColumnName(n)
  {
    forall n | 1 <= n <= 60
      ensures Columns[n - 1] == ColumnName(n)
    {
      if n <= 17 {
        ColumnsLine1Names(n);
      } else if n <= 32 {
        ColumnsLine2Names(n);
      } else if n <= 45 {
        ColumnsLine3Names(n);
      } else {
        ColumnsLine4Names(n);
      }
    }
  }

  /** No two entries of the table are the same name. */
  lemma ColumnsDistinct()
    ensures forall i, j :: 0 <= i < j < |Columns| ==> Columns[i] != Columns[j]
  {
    ColumnsAreColumnNames();
    forall i, j | 0 <= i < j < |Columns|
      ensures Columns[i] != Columns[j]
    {
      ColumnNumberOfName(i + 1);
      ColumnNumberOfName(j + 1);
    }
  }

  /**
   * `IndexToLetter`: the name of spreadsheet column `index`. A non-positive
   * index is refused by the explicit guard, one past the table by the array bound.
   */
  function IndexToLetter(index: int): (r: Result<string, IndexError>)
    ensures r == Failure(NotPositive) <==> index <= 0
    ensures r == Failure(BeyondTable) <==> index > 60
    ensures r.Success? ==> r.value == ColumnName(index) && ColumnNumber(r.value) == index
  {
    ColumnsAreColumnNames();
    if index <= 0 then Failure(NotPositive)
    else if index - 1 >= |Columns| then Failure(BeyondTable)
    else
      ColumnNumberOfName(index);
      Success(Columns[index - 1])
  }
}
