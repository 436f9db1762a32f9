/**
 * The paper-size dictionary of the PDF exporter (`createPaperSizeDictionary`,
 * PDFExporter/PDFExporterForm.cs) and its lookup `paperSizeDict[height][width]`.
 * Heights and widths are sheet dimensions in millimetres, already converted
 * from feet and rounded to integers by the caller.
 */
module PaperSizes {
  import opened Wrappers

  // One inner dictionary per height, as in the source's nested literal.
  const Row297: map<int, string> := map[
      210 := "1x1_(297x210)_MM",
      420 := "1x2_(297x420)_MM",
      630 := "1x3_(297x630)_MM",
      840 := "1x4_(297x840)_MM",
      1050 := "1x5_(297x1050)_MM",
      1260 := "1x6_(297x1260)_MM",
      1470 := "1x7_(297x1470)_MM",
      1680 := "1x8_(297x1680)_MM",
      1890 := "1x9_(297x1890)_MM",
      2100 := "1x10_(297x2100)_MM"
  ]
  const Row446: map<int, string> := map[
      210 := "1,5x1_(446x210)_MM",
      420 := "1,5x2_(446x420)_MM",
      630 := "1,5x3_(446x630)_MM",
      840 := "1,5x4_(446x840)_MM",
      1050 := "1,5x5_(446x1050)_MM",
      1260 := "1,5x6_(446x1260)_MM",
      1470 := "1,5x7_(446x1470)_MM",
      1680 := "1,5x8_(446x1680)_MM",
      1890 := "1,5x9_(446x1890)_MM",
      2100 := "1,5x10_(446x2100)_MM"
  ]
  const Row594: map<int, string> := map[
      210 := "2x1_(594x210)_MM",
      420 := "2x2_(594x420)_MM",
      630 := "2x3_(594x630)_MM",
      840 := "2x4_(594x840)_MM",
      1050 := "2x5_(594x1050)_MM",
      1260 := "2x6_(594x1260)_MM",
      1470 := "2x7_(594x1470)_MM",
      1680 := "2x8_(594x1680)_MM",
      1890 := "2x9_(594x1890)_MM",
      2100 := "2x10_(594x2100)_MM"
  ]
  const Row891: map<int, string> := map[
      210 := "3x1_(893x210)_MM",
      420 := "3x2_(893x420)_MM",
      630 := "3x3_(893x630)_MM",
      840 := "3x4_(893x840)_MM",
      1050 := "3x5_(893x1050)_MM",
      1260 := "3x6_(893x1260)_MM",
      1470 := "3x7_(893x1470)_MM",
      1680 := "3x8_(893x1680)_MM",
      1890 := "3x9_(893x1890)_MM",
      2100 := "3x10_(893x2100)_MM"
  ]
  const Row2339: map<int, string> := map[
      1654 := "ISO_A2_(420.00_x_594.00_MM)"
  ]
  const Row3311: map<int, string> := map[
      2339 := "ISO_A1_(594.00_x_841.00_MM)"
  ]
  const Row4680: map<int, string> := map[
      3311 := "ISO_A0_(841.00_x_1189.00_MM)"
  ]

  /** Height (mm) to width (mm) to the name of the print setting for that paper. */
  const PaperSizeTable: map<int, map<int, string>> := map[
    297 := Row297,
    446 := Row446,
    594 := Row594,
    891 := Row891,
    2339 := Row2339,
    3311 := Row3311,
    4680 := Row4680
  ]

  /** Both failures are a KeyNotFoundException in the source; which key was missing is kept. */
  datatype LookupError =
    | HeightNotFound(height: int)
    | WidthNotFound(height: int, width: int)

  /** `paperSizeDict[height][width]`: the print-setting name of a sheet of that size. */
  function PaperSizeName(height: int, width: int): (r: Result<string, LookupError>)
    ensures r.Success? <==> height in PaperSizeTable && width in PaperSizeTable[height]
    ensures r.Failure? ==> r.error.height == height && (r.error.WidthNotFound? <==> height in PaperSizeTable)
    ensures r.Failure? && r.error.WidthNotFound? ==> r.error.width == width
  {
    if height !in PaperSizeTable then Failure(HeightNotFound(height))
    else if width !in PaperSizeTable[height] then Failure(WidthNotFound(height, width))
    else Success(PaperSizeTable[height][width])
  }

  /** The four heights whose rows list the widths 210, 420, ..., 2100. */
  predicate IsStripHeight(h: int)
  {
    h == 297 || h == 446 || h == 594 || h == 891
  }

  /** Every height the dictionary has a row for. */
  predicate IsListedHeight(h: int)
  {
    IsStripHeight(h) || h == 2339 || h == 3311 || h == 4680
  }

  /** The sizes the dictionary knows: 210·k mm wide (k = 1..10) on a strip height, or one of three ISO sheets. */
  predicate IsListedSize(h: int, w: int)
  {
    || (IsStripHeight(h) && w % 210 == 0 && 1 <= w / 210 <= 10)
    || (h == 2339 && w == 1654)
    || (h == 3311 && w == 2339)
    || (h == 4680 && w == 3311)
  }

  /** The decimal digit character for `d`. */
  function Digit(d: nat): (c: char)
    requires d < 10
    ensures '0' <= c <= '9' && c as int - '0' as int == d
  {
    if d == 0 then '0' else if d == 1 then '1' else if d == 2 then '2' else if d == 3 then '3'
    else if d == 4 then '4' else if d == 5 then '5' else if d == 6 then '6' else if d == 7 then '7'
    else if d == 8 then '8' else '9'
  }

  /** The decimal representation of `n`, without leading zeros. */
  function DecimalString(n: nat): string
  {
    if n < 10 then [Digit(n)] else DecimalString(n / 10) + [Digit(n % 10)]
  }

  /** Reading a string of decimal digits back as a number. */
  function DecimalValue(s: string): int
  {
    if s == [] then 0 else DecimalValue(s[..|s| - 1]) * 10 + (s[|s| - 1] as int - '0' as int)
  }

  /** Writing a number in decimal and reading it back gives the number. */
  lemma {:induction false} DecimalRoundTrip(n: nat)
    ensures DecimalValue(DecimalString(n)) == n
  {
    var s := DecimalString(n);
    if n < 10 {
      assert s[..0] == [];
    } else {
      assert s[..|s| - 1] == DecimalString(n / 10);
      DecimalRoundTrip(n / 10);
    }
  }

  /** The sheet-count multiplier written at the front of a strip row's names. */
  function Multiplier(h: int): string
    requires IsStripHeight(h)
  {
    if h == 297 then "1" else if h == 446 then "1,5" else if h == 594 then "2" else "3"
  }

  /**
   * The height written inside a strip row's names: the row's own height,
   * except that the names of the 891 mm row say 893.
   */
  function NameHeight(h: int): (n: nat)
    requires IsStripHeight(h)
    ensures h != 891 ==> n == h
    ensures h == 891 ==> n == 893
  {
    if h == 891 then 893 else h
  }

  /** The name pattern of strip rows: `{m}x{k}_({H}x{210k})_MM`. */
  function StripName(h: int, k: nat): string
    requires IsStripHeight(h)
  {
    Multiplier(h) + "x" + DecimalString(k) + "_(" + DecimalString(NameHeight(h)) + "x" + DecimalString(210 * k) + ")_MM"
  }

  /** Every character is a decimal digit. */
  predicate AllDigits(d: string)
  {
    forall i :: 0 <= i < |d| ==> '0' <= d[i] <= '9'
  }

  /** A decimal representation is a non-empty run of digits. */
  lemma {:induction false} DecimalDigits(n: nat)
    ensures |DecimalString(n)| >= 1
    ensures AllDigits(DecimalString(n))
  {
    if n >= 10 {
      DecimalDigits(n / 10);
    }
  }

  /** In `p + d + r`, the digits of `d` sit right after `p`, and the character after them is `r`'s first. */
  lemma DigitRunPositions(p: string, d: string, r: string)
    requires AllDigits(d) && |r| >= 1
    ensures (p + d + r)[|p| + |d|] == r[0]
    ensures forall i :: |p| <= i < |p| + |d| ==> '0' <= (p + d + r)[i] <= '9'
    ensures (p + d + r)[|p|..|p| + |d|] == d
  {
  }

  /**
   * Two names of the strip pattern `{m}x{k}_({H}x{w})_MM` that are equal
   * carry the same digits in the `k` place: they end at the first `_`.
   */
  lemma StripPatternDeterminesCount(m: string, a1: string, a2: string, b: string, c1: string, c2: string)
    requires AllDigits(a1) && AllDigits(a2)
    requires m + "x" + a1 + "_(" + b + "x" + c1 + ")_MM" == m + "x" + a2 + "_(" + b + "x" + c2 + ")_MM"
    ensures a1 == a2
  {
    var p := m + "x";
    var r1 := "_(" + b + "x" + c1 + ")_MM";
    var r2 := "_(" + b + "x" + c2 + ")_MM";
    assert m + "x" + a1 + "_(" + b + "x" + c1 + ")_MM" == p + a1 + r1;
    assert m + "x" + a2 + "_(" + b + "x" + c2 + ")_MM" == p + a2 + r2;
    DigitRunPositions(p, a1, r1);
    DigitRunPositions(p, a2, r2);
    assert |a1| == |a2|;
  }

  /**
   * Within a strip row no two entries share a name: the sheet count k can be
   * read back from the name, as the digits between the first `x` and `_(`.
   */
  lemma StripNamesDistinct(h: int, k1: nat, k2: nat)
    requires IsStripHeight(h)
    ensures StripName(h, k1) == StripName(h, k2) ==> k1 == k2
  {
    if StripName(h, k1) == StripName(h, k2) {
      DecimalDigits(k1);
      DecimalDigits(k2);
      StripPatternDeterminesCount(Multiplier(h), DecimalString(k1), DecimalString(k2),
        DecimalString(NameHeight(h)), DecimalString(210 * k1), DecimalString(210 * k2));
      DecimalRoundTrip(k1);
      DecimalRoundTrip(k2);
    }
  }

  // Each entry of a strip row is checked against the pattern in a lemma of its own. Checking a
  // name compares a string literal with one assembled from pieces, and the verifier's cost of
  // several such comparisons in one proof grows faster than their number. Each lemma takes k
  // as a parameter `x`, fixed by its requires, rather than a literal. `RowNNNNames` gathers
  // a row's ten entries by cases.
  // Entry k of the 297 mm row.
  lemma Row297Entry1(x: int) requires x == 1 ensures Row297[210 * x] == StripName(297, x) {}

  lemma Row297Entry2(x: int) requires x == 2 ensures Row297[210 * x] == StripName(297, x) {}

  lemma Row297Entry3(x: int) requires x == 3 ensures Row297[210 * x] == StripName(297, x) {}

  lemma Row297Entry4(x: int) requires x == 4 ensures Row297[210 * x] == StripName(297, x) {}

  lemma Row297Entry5(x: int) requires x == 5 ensures Row297[210 * x] == StripName(297, x) {}

  lemma Row297Entry6(x: int) requires x == 6 ensures Row297[210 * x] == StripName(297, x) {}

  lemma Row297Entry7(x: int) requires x == 7 ensures Row297[210 * x] == StripName(297, x) {}

  lemma Row297Entry8(x: int) requires x == 8 ensures Row297[210 * x] == StripName(297, x) {}

  lemma Row297Entry9(x: int) requires x == 9 ensures Row297[210 * x] == StripName(297, x) {}

  lemma Row297Entry10(x: int) requires x == 10 ensures Row297[210 * x] == StripName(297, x) {}

  /** The 297 mm row follows the strip pattern, entry by entry. */
  lemma Row297Names(k: int)
    requires 1 <= k <= 10
    ensures 210 * k in Row297 && Row297[210 * k] == StripName(297, k)
  {
    if k == 1 {
      Row297Entry1(k);
    } else if k == 2 {
      Row297Entry2(k);
    } else if k == 3 {
      Row297Entry3(k);
    } else if k == 4 {
      Row297Entry4(k);
    } else if k == 5 {
      Row297Entry5(k);
    } else if k == 6 {
      Row297Entry6(k);
    } else if k == 7 {
      Row297Entry7(k);
    } else if k == 8 {
      Row297Entry8(k);
    } else if k == 9 {
      Row297Entry9(k);
    } else {
      Row297Entry10(k);
    }
  }

  // Entry k of the 446 mm row.
  lemma Row446Entry1(x: int) requires x == 1 ensures Row446[210 * x] == StripName(446, x) {}

  lemma Row446Entry2(x: int) requires x == 2 ensures Row446[210 * x] == StripName(446, x) {}

  lemma Row446Entry3(x: int) requires x == 3 ensures Row446[210 * x] == StripName(446, x) {}

  lemma Row446Entry4(x: int) requires x == 4 ensures Row446[210 * x] == StripName(446, x) {}

  lemma Row446Entry5(x: int) requires x == 5 ensures Row446[210 * x] == StripName(446, x) {}

  lemma Row446Entry6(x: int) requires x == 6 ensures Row446[210 * x] == StripName(446, x) {}

  lemma Row446Entry7(x: int) requires x == 7 ensures Row446[210 * x] == StripName(446, x) {}

  lemma Row446Entry8(x: int) requires x == 8 ensures Row446[210 * x] == StripName(446, x) {}

  lemma Row446Entry9(x: int) requires x == 9 ensures Row446[210 * x] == StripName(446, x) {}

  lemma Row446Entry10(x: int) requires x == 10 ensures Row446[210 * x] == StripName(446, x) {}

  /** The 446 mm row follows the strip pattern, entry by entry. */
  lemma Row446Names(k: int)
    requires 1 <= k <= 10
    ensures 210 * k in Row446 && Row446[210 * k] == StripName(446, k)
  {
    if k == 1 {
      Row446Entry1(k);
    } else if k == 2 {
      Row446Entry2(k);
    } else if k == 3 {
      Row446Entry3(k);
    } else if k == 4 {
      Row446Entry4(k);
    } else if k == 5 {
      Row446Entry5(k);
    } else if k == 6 {
      Row446Entry6(k);
    } else if k == 7 {
      Row446Entry7(k);
    } else if k == 8 {
      Row446Entry8(k);
    } else if k == 9 {
      Row446Entry9(k);
    } else {
      Row446Entry10(k);
    }
  }

  // Entry k of the 594 mm row.
  lemma Row594Entry1(x: int) requires x == 1 ensures Row594[210 * x] == StripName(594, x) {}

  lemma Row594Entry2(x: int) requires x == 2 ensures Row594[210 * x] == StripName(594, x) {}

  lemma Row594Entry3(x: int) requires x == 3 ensures Row594[210 * x] == StripName(594, x) {}

  lemma Row594Entry4(x: int) requires x == 4 ensures Row594[210 * x] == StripName(594, x) {}

  lemma Row594Entry5(x: int) requires x == 5 ensures Row594[210 * x] == StripName(594, x) {}

  lemma Row594Entry6(x: int) requires x == 6 ensures Row594[210 * x] == StripName(594, x) {}

  lemma Row594Entry7(x: int) requires x == 7 ensures Row594[210 * x] == StripName(594, x) {}

  lemma Row594Entry8(x: int) requires x == 8 ensures Row594[210 * x] == StripName(594, x) {}

  lemma Row594Entry9(x: int) requires x == 9 ensures Row594[210 * x] == StripName(594, x) {}

  lemma Row594Entry10(x: int) requires x == 10 ensures Row594[210 * x] == StripName(594, x) {}

  /** The 594 mm row follows the strip pattern, entry by entry. */
  lemma Row594Names(k: int)
    requires 1 <= k <= 10
    ensures 210 * k in Row594 && Row594[210 * k] == StripName(594, k)
  {
    if k == 1 {
      Row594Entry1(k);
    } else if k == 2 {
      Row594Entry2(k);
    } else if k == 3 {
      Row594Entry3(k);
    } else if k == 4 {
      Row594Entry4(k);
    } else if k == 5 {
      Row594Entry5(k);
    } else if k == 6 {
      Row594Entry6(k);
    } else if k == 7 {
      Row594Entry7(k);
    } else if k == 8 {
      Row594Entry8(k);
    } else if k == 9 {
      Row594Entry9(k);
    } else {
      Row594Entry10(k);
    }
  }

  // Entry k of the 891 mm row.
  lemma Row891Entry1(x: int) requires x == 1 ensures Row891[210 * x] == StripName(891, x) {}

  lemma Row891Entry2(x: int) requires x == 2 ensures Row891[210 * x] == StripName(891, x) {}

  lemma Row891Entry3(x: int) requires x == 3 ensures Row891[210 * x] == StripName(891, x) {}

  lemma Row891Entry4(x: int) requires x == 4 ensures Row891[210 * x] == StripName(891, x) {}

  lemma Row891Entry5(x: int) requires x == 5 ensures Row891[210 * x] == StripName(891, x) {}

  lemma Row891Entry6(x: int) requires x == 6 ensures Row891[210 * x] == StripName(891, x) {}

  lemma Row891Entry7(x: int) requires x == 7 ensures Row891[210 * x] == StripName(891, x) {}

  lemma Row891Entry8(x: int) requires x == 8 ensures Row891[210 * x] == StripName(891, x) {}

  lemma Row891Entry9(x: int) requires x == 9 ensures Row891[210 * x] == StripName(891, x) {}

  lemma Row891Entry10(x: int) requires x == 10 ensures Row891[210 * x] == StripName(891, x) {}

  /** The 891 mm row follows the strip pattern, entry by entry. */
  lemma Row891Names(k: int)
    requires 1 <= k <= 10
    ensures 210 * k in Row891 && Row891[210 * k] == StripName(891, k)
  {
    if k == 1 {
      Row891Entry1(k);
    } else if k == 2 {
      Row891Entry2(k);
    } else if k == 3 {
      Row891Entry3(k);
    } else if k == 4 {
      Row891Entry4(k);
    } else if k == 5 {
      Row891Entry5(k);
    } else if k == 6 {
      Row891Entry6(k);
    } else if k == 7 {
      Row891Entry7(k);
    } else if k == 8 {
      Row891Entry8(k);
    } else if k == 9 {
      Row891Entry9(k);
    } else {
      Row891Entry10(k);
    }
  }

  /** The outer dictionary maps each strip height to its own row. */
  lemma TableRow297()
    ensures PaperSizeTable[297] == Row297
  {
  }

  lemma TableRow446()
    ensures PaperSizeTable[446] == Row446
  {
  }

  lemma TableRow594()
    ensures PaperSizeTable[594] == Row594
  {
  }

  lemma TableRow891()
    ensures PaperSizeTable[891] == Row891
  {
  }

  /** Every entry of a strip row is 210·k mm wide and named by the strip pattern. */
  lemma StripRowNames(h: int, k: int)
    requires IsStripHeight(h) && 1 <= k <= 10
    ensures PaperSizeName(h, 210 * k) == Success(StripName(h, k))
  {
    if h == 297 {
      TableRow297();
      Row297Names(k);
    } else if h == 446 {
      TableRow446();
      Row446Names(k);
    } else if h == 594 {
      TableRow594();
      Row594Names(k);
    } else {
      TableRow891();
      Row891Names(k);
    }
  }

  /** The dictionary has a row for exactly the listed heights. */
  lemma ListedHeights(h: int)
    ensures h in PaperSizeTable <==> IsListedHeight(h)
  {
  }

  /** The widths 210·k mm, k = 1..10. */
  const StripWidths: set<int> := {210, 420, 630, 840, 1050, 1260, 1470, 1680, 1890, 2100}

  lemma StripWidthsAreMultiples(w: int)
    ensures w in StripWidths <==> w % 210 == 0 && 1 <= w / 210 <= 10
  {
  }

  lemma Row297Widths()
    ensures Row297.Keys == StripWidths
  {
  }

  lemma Row446Widths()
    ensures Row446.Keys == StripWidths
  {
  }

  lemma Row594Widths()
    ensures Row594.Keys == StripWidths
  {
  }

  lemma Row891Widths()
    ensures Row891.Keys == StripWidths
  {
  }

  /** A strip row holds exactly the widths 210·k, k = 1..10. */
  lemma StripRowWidths(h: int, w: int)
    requires IsStripHeight(h)
    ensures w in PaperSizeTable[h] <==> w % 210 == 0 && 1 <= w / 210 <= 10
  {
    StripWidthsAreMultiples(w);
    if h == 297 {
      TableRow297();
      Row297Widths();
    } else if h == 446 {
      TableRow446();
      Row446Widths();
    } else if h == 594 {
      TableRow594();
      Row594Widths();
    } else {
      TableRow891();
      Row891Widths();
    }
  }

  /**
   * The lookup succeeds exactly on the listed sizes; an unknown height fails
   * on the outer key, a known height with an unknown width on the inner one.
   */
  lemma PaperSizeDomain(h: int, w: int)
    ensures PaperSizeName(h, w).Success? <==> IsListedSize(h, w)
    ensures PaperSizeName(h, w) == Failure(HeightNotFound(h)) <==> !IsListedHeight(h)
    ensures PaperSizeName(h, w) == Failure(WidthNotFound(h, w)) <==> IsListedHeight(h) && !IsListedSize(h, w)
  {
    ListedHeights(h);
    if IsStripHeight(h) {
      StripRowWidths(h, w);
    }
  }
}
