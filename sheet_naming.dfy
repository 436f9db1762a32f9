/**
 * File naming of the PDF exporter's print loop (`button2_Click`,
 * PDFExporter/PDFExporterForm.cs): for every sheet of the selected set it
 * records where the printer will write the PDF, where the file is finally
 * moved, and the printer's fallback name.
 */
module SheetNaming {
  import opened Wrappers

  /** A sheet, reduced to what the naming reads: its number, current revision (null when unset) and name. */
  datatype Sheet = Sheet(number: string, revision: Option<string>, name: string)

  /** `string.IsNullOrEmpty` on the revision parameter. */
  predicate IsNullOrEmpty(s: Option<string>)
  {
    s.None? || s.value == []
  }

  /** What follows the sheet number in the file name: a dash and the revision, if there is one. */
  function RevisionTag(revision: Option<string>): string
  {
    if !IsNullOrEmpty(revision) then "-" + revision.value else ""
  }

  /** The PDF file name of a sheet: the revision goes after the number when there is one. */
  function SheetFileName(s: Sheet): (r: string)
    ensures |r| > |s.number| + 4 && r[..|s.number|] == s.number && r[|r| - 4..] == ".pdf"
    ensures r[|s.number|] == '-' <==> !IsNullOrEmpty(s.revision)
  {
    s.number + RevisionTag(s.revision) + " - " + s.name + ".pdf"
  }

  /** Where the file ends up: the export folder followed by the file name. */
  function DestinationPath(pathToExport: string, s: Sheet): string
  {
    pathToExport + SheetFileName(s)
  }

  /** Where the printer is told to write: the user's documents folder. */
  function PrintSourcePath(documents: string, s: Sheet): string
  {
    documents + "\\" + SheetFileName(s)
  }

  /** The name the PDF printer falls back to when it ignores the requested one. */
  function DefaultPrintPath(documents: string, title: string, s: Sheet): string
  {
    documents + "\\" + title + " - Sheet - " + s.number + " - " + s.name + ".pdf"
  }

  /**
   * The naming region of the loop body for one sheet: the file name, then the
   * print-to path, the final destination and the printer's fallback name.
   */
  method NameSheet(sheet: Sheet, pathToExport: string, documents: string, title: string)
    returns (printFileName: string, fullSheetFileName: string, defaultFileName: string)
    ensures printFileName == PrintSourcePath(documents, sheet)
    ensures fullSheetFileName == DestinationPath(pathToExport, sheet)
    ensures defaultFileName == DefaultPrintPath(documents, title, sheet)
  {
    var sheetFileName;
    if !IsNullOrEmpty(sheet.revision) {
      sheetFileName := sheet.number + "-" + sheet.revision.value + " - " + sheet.name + ".pdf";
    } else {
      sheetFileName := sheet.number + " - " + sheet.name + ".pdf";
    }
    fullSheetFileName := pathToExport + sheetFileName;
    printFileName := documents + "\\" + sheetFileName;
    defaultFileName := documents + "\\" + title + " - Sheet - " + sheet.number + " - " + sheet.name + ".pdf";
  }

  /** One entry per sheet, in sheet order, computed by `f`. */
  function MapSheets<T>(f: Sheet -> T, sheets: seq<Sheet>): (r: seq<T>)
    ensures |r| == |sheets|
  {
    if sheets == [] then []
    else MapSheets(f, sheets[..|sheets| - 1]) + [f(sheets[|sheets| - 1])]
  }

  /** Entry i of the list is computed from sheet i. */
  lemma {:induction false} MapSheetsFollowsSheets<T>(f: Sheet -> T, sheets: seq<Sheet>)
    ensures forall i :: 0 <= i < |sheets| ==> MapSheets(f, sheets)[i] == f(sheets[i])
  {
    if sheets != [] {
      var init := sheets[..|sheets| - 1];
      MapSheetsFollowsSheets(f, init);
      forall i | 0 <= i < |sheets|
        ensures MapSheets(f, sheets)[i] == f(sheets[i])
      {
        if i < |init| {
          assert sheets[i] == init[i];
        }
      }
    }
  }

  /** The three per-sheet paths, as functions of the sheet. */
  function SourcePathOf(documents: string): Sheet -> string
  {
    s => PrintSourcePath(documents, s)
  }

  function DestinationPathOf(pathToExport: string): Sheet -> string
  {
    s => DestinationPath(pathToExport, s)
  }

  function DefaultPrintPathOf(documents: string, title: string): Sheet -> string
  {
    s => DefaultPrintPath(documents, title, s)
  }

  /**
   * The naming part of the print loop: one entry per sheet in each of the
   * three lists, in sheet order.
   */
  method BuildFileNames(sheets: seq<Sheet>, pathToExport: string, documents: string, title: string)
    returns (sources: seq<string>, destinations: seq<string>, defaults: seq<string>)
    ensures sources == MapSheets(SourcePathOf(documents), sheets)
    ensures destinations == MapSheets(DestinationPathOf(pathToExport), sheets)
    ensures defaults == MapSheets(DefaultPrintPathOf(documents, title), sheets)
  {
    sources, destinations, defaults := [], [], [];
    for n := 0 to |sheets|
      invariant sources == MapSheets(SourcePathOf(documents), sheets[..n])
      invariant destinations == MapSheets(DestinationPathOf(pathToExport), sheets[..n])
      invariant defaults == MapSheets(DefaultPrintPathOf(documents, title), sheets[..n])
    {
      assert sheets[..n + 1][..n] == sheets[..n];
      var printFileName, fullSheetFileName, defaultFileName := NameSheet(sheets[n], pathToExport, documents, title);
      destinations := destinations + [fullSheetFileName];
      sources := sources + [printFileName];
      defaults := defaults + [defaultFileName];
    }
    assert sheets[..|sheets|] == sheets;
  }

  /** After the loop, entry i of each list is the corresponding path of sheet i. */
  lemma FileNameListsFollowSheets(sheets: seq<Sheet>, pathToExport: string, documents: string, title: string)
    ensures forall i :: 0 <= i < |sheets| ==>
      MapSheets(SourcePathOf(documents), sheets)[i] == PrintSourcePath(documents, sheets[i]) &&
      MapSheets(DestinationPathOf(pathToExport), sheets)[i] == DestinationPath(pathToExport, sheets[i]) &&
      MapSheets(DefaultPrintPathOf(documents, title), sheets)[i] == DefaultPrintPath(documents, title, sheets[i])
  {
    MapSheetsFollowsSheets(SourcePathOf(documents), sheets);
    MapSheetsFollowsSheets(DestinationPathOf(pathToExport), sheets);
    MapSheetsFollowsSheets(DefaultPrintPathOf(documents, title), sheets);
  }

  /**
   * Two sheets with the same number and name get the same file name exactly
   * when they agree on the revision, a null and an empty revision counting alike.
   */
  lemma SheetFileNameDeterminesRevision(a: Sheet, b: Sheet)
    requires a.number == b.number && a.name == b.name
    ensures SheetFileName(a) == SheetFileName(b) <==>
      (IsNullOrEmpty(a.revision) && IsNullOrEmpty(b.revision)) ||
      (!IsNullOrEmpty(a.revision) && !IsNullOrEmpty(b.revision) && a.revision.value == b.revision.value)
  {
    var tail := " - " + a.name + ".pdf";
    if !IsNullOrEmpty(a.revision) && !IsNullOrEmpty(b.revision) && SheetFileName(a) == SheetFileName(b) {
      var p := a.number + "-";
      var ra, rb := a.revision.value, b.revision.value;
      assert SheetFileName(a) == p + ra + tail;
      assert SheetFileName(b) == p + rb + tail;
      assert |ra| == |rb|;
      forall i | 0 <= i < |ra|
        ensures ra[i] == rb[i]
      {
        assert ra[i] == SheetFileName(a)[|p| + i];
        assert rb[i] == SheetFileName(b)[|p| + i];
      }
    }
  }

  /**
   * The file moved to the export folder and the file the printer writes carry
   * the same file name, so pairing the two lists moves each sheet's own PDF.
   */
  lemma SourceAndDestinationShareFileName(pathToExport: string, documents: string, s: Sheet)
    ensures var f := SheetFileName(s);
      && PrintSourcePath(documents, s)[|documents| + 1..] == f
      && DestinationPath(pathToExport, s)[|pathToExport|..] == f
  {
  }

  /**
   * For a sheet without a revision the printer's fallback name is never the
   * requested one (it is longer by the title and " - Sheet - "), which is why the
   * move step looks for both files.
   */
  lemma DefaultDiffersFromSource(documents: string, title: string, s: Sheet)
    requires IsNullOrEmpty(s.revision)
    ensures DefaultPrintPath(documents, title, s) != PrintSourcePath(documents, s)
    ensures |DefaultPrintPath(documents, title, s)| == |PrintSourcePath(documents, s)| + |title| + 11
  {
    assert SheetFileName(s) == s.number + " - " + s.name + ".pdf";
  }
}
