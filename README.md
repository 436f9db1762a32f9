# MyRevitAddins shared utilities and PDF exporter — verified model

This project models the deterministic core of two parts of the MyRevitAddins
Revit add-in collection, in Dafny, and proves what that code promises.

- **Connector classification** (`Cons`, `MyMepUtils.GetConnectorManager` in
  `Shared/MyUtils.cs`): an element's connectors are walked in order. Only
  piping connectors are counted. Each one is put into the Primary, Secondary
  or Tertiary slot by an `if / else if` chain, with later connectors
  overwriting earlier ones. An element with several piping connectors and no
  Secondary is refused. A transition pipe fitting also records its larger and
  smaller end. `Cons` is a class whose static method `New` runs the loop on
  the fields of a fresh object. `New` is proved equal to the pure
  specification `Classify`, and the properties are proved about `Classify`.
- **Data tables** (`DataHandler` in `Shared/MyUtils.cs`):
  - the regular-expression filter that turns Excel sheet names into table
    names;
  - `ReadDataTable`, the first table with a given name;
  - `ReadParameterFromDataTable`, a field of the first row whose first column
    holds a key.

  Tables are values: a name, a column list and rows mapping column names to
  possibly-null strings.
- **PDF exporter** (`PDFExporter/PDFExporterForm.cs`):
  - the spreadsheet column table `Columns` and `IndexToLetter`;
  - the paper-size dictionary `createPaperSizeDictionary`, looked up as
    `paperSizeDict[height][width]`;
  - the file-naming part of the print loop in `button2_Click`, which builds
    three parallel path lists for the selected sheets.

Modules: `Wrappers` (Option, Result), `Connectors`, `DataHandler`,
`ColumnLetters`, `PaperSizes`, `SheetNaming`. Exceptions of the source are
`Failure` values that name the cause, and nulls are `None`.

## Model

| member | source | states |
|---|---|---|
| Connectors.GetConnectorManager | MyRevitAddins/Shared/MyUtils.cs:595-603 | An element that is neither an MEP curve nor a family instance is an argument error. Otherwise the result is the element's connector list. |
| Connectors.SlotOf | MyRevitAddins/Shared/MyUtils.cs:621-626 | A non-piping connector gets no slot. A piping connector flagged primary goes to Primary. One flagged neither primary nor secondary goes to Tertiary. |
| Connectors.LastInSlot | MyRevitAddins/Shared/MyUtils.cs:619-627 | The slot ends up holding the last connector, in iteration order, that the chain sorts into it. It is null exactly when no connector goes there. |
| Connectors.PipingCountIsNumberOfPiping | MyRevitAddins/Shared/MyUtils.cs:619-622 | The loop's count equals the number of positions holding a piping connector. |
| Connectors.Classify | MyRevitAddins/Shared/MyUtils.cs:615-648 | The constructor's outcome as a value: the object's fields, or the exception it throws. On success the count is at most the number of connectors, and more than one piping connector implies a Secondary. Largest and Smallest are set exactly for a transition pipe fitting, and each is the Primary or the Secondary. |
| Connectors.Cons.Init | MyRevitAddins/Shared/MyUtils.cs:608-613 | A new `Cons` has every slot null and a count of zero. |
| Connectors.Cons.New | MyRevitAddins/Shared/MyUtils.cs:615-648 | The constructor, with its loop over the fields of a fresh object. It throws exactly when `Classify` fails, with the same error. Otherwise the new object's fields are `Classify`'s view. |
| Connectors.SlotOfMatchesFlags | MyRevitAddins/Shared/MyUtils.cs:623-626 | The chain agrees with the flags. A connector flagged both primary and secondary is Primary only, and never Secondary. A connector lands in some slot exactly when it is a piping connector. |
| Connectors.CountIsPipingConnectors | MyRevitAddins/Shared/MyUtils.cs:619-622 | After a successful construction, `Count` is the number of piping connectors. |
| Connectors.SlotsHoldLastOfTheirKind | MyRevitAddins/Shared/MyUtils.cs:619-627 | After a successful construction, each slot holds a piping connector whose flags belong there, and no later connector has such flags. The slot is null exactly when no connector does. |
| Connectors.WrongElementTypeRejected | MyRevitAddins/Shared/MyUtils.cs:597-602 | Construction fails with the argument error exactly for an element that is neither an MEP curve nor a family instance. |
| Connectors.MissingSecondaryExactly | MyRevitAddins/Shared/MyUtils.cs:629-630 | Construction fails for a missing Secondary exactly when the element has more than one piping connector and none is Secondary. The error reports that count. |
| Connectors.FewPipingNeverMissSecondary | MyRevitAddins/Shared/MyUtils.cs:629-630 | With zero or one piping connector, construction never fails for a missing Secondary. |
| Connectors.LargestAndSmallest | MyRevitAddins/Shared/MyUtils.cs:632-646 | Largest and Smallest stay null unless the element is a transition pipe fitting. For a transition fitting both Primary and Secondary are set. Largest is Primary when Primary's diameter is strictly greater, else Secondary. Smallest is Primary when its diameter is strictly smaller, else Secondary. Equal diameters give Secondary for both. |
| Connectors.NullConnectorExactly | MyRevitAddins/Shared/MyUtils.cs:638-644 | A transition fitting fails when its diameters are read exactly when it passed the Secondary check but lacks a Primary or a Secondary. |
| DataHandler.SanitizeTableName | MyRevitAddins/Shared/MyUtils.cs:677-678 | The table name holds only characters of `[a-zA-Z0-9 _-]` and is never longer than the sheet name. |
| DataHandler.SanitizeAppend | MyRevitAddins/Shared/MyUtils.cs:677-678 | Filtering a concatenation concatenates the filtered parts. |
| DataHandler.SanitizeAroundChar | MyRevitAddins/Shared/MyUtils.cs:677-678 | Every character keeps its place: an allowed one stays between what is kept before it and after it, and any other one disappears. |
| DataHandler.SanitizeKeepsAllowed | MyRevitAddins/Shared/MyUtils.cs:677-678 | A name made only of allowed characters passes unchanged. |
| DataHandler.SanitizeIdempotent | MyRevitAddins/Shared/MyUtils.cs:677-678 | Filtering twice equals filtering once. |
| DataHandler.SanitizeCounts | MyRevitAddins/Shared/MyUtils.cs:677-678 | Each allowed character occurs in the result as often as in the input. Every other character occurs zero times. |
| DataHandler.ReadDataTable | MyRevitAddins/Shared/MyUtils.cs:716-721 | The result is null exactly when no table has the requested name. Otherwise it is the first table with that name. |
| DataHandler.FirstMatch | MyRevitAddins/Shared/MyUtils.cs:726-732 | Gives the index of the first row from `from` on whose first column holds the key, or none when no such row exists. |
| DataHandler.ReadParameterFromDataTable | MyRevitAddins/Shared/MyUtils.cs:723-738 | With no columns and some rows, reading column 0 fails. When no row's first column holds the key, the result is null. Otherwise it is the `parameter` field of the first matching row. That read fails exactly when `parameter` is not a column. |
| ColumnLetters.Columns | MyRevitAddins/PDFExporter/PDFExporterForm.cs:438-444 | The 60 names of the table, one constant per line of its display. Its content is stated by the `ColumnsLine*Names`, `ColumnsAreColumnNames` and `ColumnsDistinct` rows. |
| ColumnLetters.ColumnNumberOfName | MyRevitAddins/PDFExporter/PDFExporterForm.cs:438-444 | Reading back the spreadsheet name of column n gives n. |
| ColumnLetters.ColumnsLine1Names | MyRevitAddins/PDFExporter/PDFExporterForm.cs:440 | The first line of the table is the names of columns 1 to 17. |
| ColumnLetters.ColumnsLine2Names | MyRevitAddins/PDFExporter/PDFExporterForm.cs:441 | The second line is the names of columns 18 to 32. |
| ColumnLetters.ColumnsLine3Names | MyRevitAddins/PDFExporter/PDFExporterForm.cs:442 | The third line is the names of columns 33 to 45. |
| ColumnLetters.ColumnsLine4Names | MyRevitAddins/PDFExporter/PDFExporterForm.cs:443 | The fourth line is the names of columns 46 to 60. |
| ColumnLetters.ColumnsAreColumnNames | MyRevitAddins/PDFExporter/PDFExporterForm.cs:438-444 | `Columns` has 60 entries, and entry n-1 is the spreadsheet name (bijective base 26) of column n: A to Z, AA to AZ, BA to BH. |
| ColumnLetters.ColumnsDistinct | MyRevitAddins/PDFExporter/PDFExporterForm.cs:438-444 | No two entries of `Columns` are equal. |
| ColumnLetters.IndexToLetter | MyRevitAddins/PDFExporter/PDFExporterForm.cs:445-450 | An index ≤ 0 fails the explicit guard, and an index > 60 fails on the array bound. Any other index gives the spreadsheet name of that column, which reads back as the index. |
| PaperSizes.PaperSizeTable | MyRevitAddins/PDFExporter/PDFExporterForm.cs:367-436 | The nested dictionary literal, one inner map per height, with the names as written. Its content is stated by the `Row*Names`, `Row*Widths`, `ListedHeights` and `PaperSizeDomain` rows. |
| PaperSizes.PaperSizeName | MyRevitAddins/PDFExporter/PDFExporterForm.cs:167 | `paperSizeDict[height][width]`, as at lines 167 and 311. It succeeds exactly when the height is an outer key and the width a key of that row. Otherwise it fails with a missing-key error that names the height, and also the width when the height was found. |
| PaperSizes.NameHeight | MyRevitAddins/PDFExporter/PDFExporterForm.cs:371-422 | The height written in a strip row's names is the row's own height, except that the 891 mm row's names say 893. That the table's names carry this height is proved by `Row891Names` and `StripRowNames`. |
| PaperSizes.Row297Names | MyRevitAddins/PDFExporter/PDFExporterForm.cs:371-383 | For k = 1..10 the 297 mm row has width 210·k, named `1x{k}_(297x{210k})_MM`. |
| PaperSizes.Row446Names | MyRevitAddins/PDFExporter/PDFExporterForm.cs:384-396 | For k = 1..10 the 446 mm row has width 210·k, named `1,5x{k}_(446x{210k})_MM`. |
| PaperSizes.Row594Names | MyRevitAddins/PDFExporter/PDFExporterForm.cs:397-409 | For k = 1..10 the 594 mm row has width 210·k, named `2x{k}_(594x{210k})_MM`. |
| PaperSizes.Row891Names | MyRevitAddins/PDFExporter/PDFExporterForm.cs:410-422 | For k = 1..10 the 891 mm row has width 210·k, named `3x{k}_(893x{210k})_MM`: the names say 893. |
| PaperSizes.Row297Widths | MyRevitAddins/PDFExporter/PDFExporterForm.cs:371-383 | The 297 mm row has exactly the widths 210, 420, …, 2100. |
| PaperSizes.Row446Widths | MyRevitAddins/PDFExporter/PDFExporterForm.cs:384-396 | The 446 mm row has exactly the widths 210, 420, …, 2100. |
| PaperSizes.Row594Widths | MyRevitAddins/PDFExporter/PDFExporterForm.cs:397-409 | The 594 mm row has exactly the widths 210, 420, …, 2100. |
| PaperSizes.Row891Widths | MyRevitAddins/PDFExporter/PDFExporterForm.cs:410-422 | The 891 mm row has exactly the widths 210, 420, …, 2100. |
| PaperSizes.StripRowNames | MyRevitAddins/PDFExporter/PDFExporterForm.cs:371-422 | Looking up a strip height with width 210·k (k = 1..10) gives `{m}x{k}_({H}x{210k})_MM`. Here m is 1, 1,5, 2 or 3 by row, and H is the row height, or 893 in the 891 row. |
| PaperSizes.StripRowWidths | MyRevitAddins/PDFExporter/PDFExporterForm.cs:371-422 | A strip row contains a width exactly when it is 210·k for some k in 1..10. |
| PaperSizes.StripNamesDistinct | MyRevitAddins/PDFExporter/PDFExporterForm.cs:371-422 | Within a strip row, entries for different sheet counts k have different names: k can be read back from the digits after the first `x`. |
| PaperSizes.ListedHeights | MyRevitAddins/PDFExporter/PDFExporterForm.cs:367-436 | The dictionary has a row for exactly the heights 297, 446, 594, 891, 2339, 3311 and 4680. |
| PaperSizes.PaperSizeDomain | MyRevitAddins/PDFExporter/PDFExporterForm.cs:367-436 | The lookup `paperSizeDict[height][width]` (lines 167 and 311) succeeds exactly on the listed sizes. These are the strip widths on the four strip heights and one ISO size each for 2339, 3311 and 4680. An unknown height fails on the outer key, and a known height with an unlisted width on the inner one. |
| SheetNaming.SheetFileName | MyRevitAddins/PDFExporter/PDFExporterForm.cs:139-143 | The file name starts with the sheet number and ends in `.pdf`. The character after the number is `-` exactly when the revision is neither null nor empty. |
| SheetNaming.NameSheet | MyRevitAddins/PDFExporter/PDFExporterForm.cs:136-153 | The loop body's naming region gives three paths. The print-to path is the documents folder, a backslash and the file name. The destination is the export path followed by the file name. The printer's fallback is `documents\title - Sheet - number - name.pdf`. The file name is `number-revision - name.pdf`, or `number - name.pdf` when the revision is null or empty. |
| SheetNaming.BuildFileNames | MyRevitAddins/PDFExporter/PDFExporterForm.cs:131-153 | The loop over the sheets fills each of the three lists with one path per sheet, in sheet order. |
| SheetNaming.MapSheetsFollowsSheets | MyRevitAddins/PDFExporter/PDFExporterForm.cs:131-153 | Entry i of a per-sheet list comes from sheet i. |
| SheetNaming.FileNameListsFollowSheets | MyRevitAddins/PDFExporter/PDFExporterForm.cs:131-153 | After the loop, entry i of the source, destination and default lists is that path of sheet i. That is why the later copy step can pair the lists by index. |
| SheetNaming.SheetFileNameDeterminesRevision | MyRevitAddins/PDFExporter/PDFExporterForm.cs:139-143 | For the same number and name, two sheets get the same file name exactly when their revisions agree. A null and an empty revision count alike. |
| SheetNaming.SourceAndDestinationShareFileName | MyRevitAddins/PDFExporter/PDFExporterForm.cs:145-149 | The print-to path and the destination end in the same file name, after their folder prefixes. |
| SheetNaming.DefaultDiffersFromSource | MyRevitAddins/PDFExporter/PDFExporterForm.cs:145-153 | For a sheet without a revision, the printer's fallback path is never the requested print-to path. It is longer by exactly the length of the title plus 11, the length of " - Sheet - ". |

## Left out

- Geometry (`ConvexHull`, `RotateElementInPosition`) and unit conversion or formatting (`Conversion`, `MyExtensions`) are not modelled. They are floating-point computations on host types.
- Diameters are not computed from connector radii. The model takes each connector's diameter as an integer (twice the radius, rounded to 3 decimals, in thousandths), because the rounding is floating point.
- Paper-size keys are not computed from title-block sizes. The model takes the height and width already converted from feet to millimetres and rounded, because that conversion is floating point.
- The host API query builders (`Filter`, the `MyMepUtils` collectors, `GetConnectorSet`, `Dbg`) are not modelled. An element is given as its kind and its connector list, in the order the connector manager enumerates them.
- A family instance with no connector manager is not modelled: `MEPModel.ConnectorManager` null at line 602, then dereferenced at line 619. The model gives every family instance a connector list, so the source's null-reference failure there becomes whatever the empty list stands in for: a classification with count 0 and no slots, or `NullConnector` for a transition pipe fitting.
- A family instance whose `MEPModel` is null is not modelled. Nor is a pipe fitting whose `MEPModel` is not a `MechanicalFitting` (both are null-reference failures in the source). The element carries the transition flag directly.
- Connector slots hold positions in the connector list rather than host `Connector` references.
- Excel and OLE DB import (`ImportExcelToDataSet`, `GetExcelSheetNames`) are not modelled: they are file and database I/O. Only the sheet-name filter they apply is modelled.
- The `Row` type's own behaviour is not modelled. Rows are maps from column names to possibly-null strings, and every row has exactly the table's columns. DataTable's case-insensitive fallback for column names and the cast errors of `Field<string>` on non-string cells are not modelled.
- DataHandler.ReadDataTable: a null table name and null collection entries are not modelled. Names are plain strings compared exactly.
- DataHandler.ReadParameterFromDataTable: a null key is not modelled, so a null first-column cell never matches.
- The print pipeline is not modelled: the print manager, print-setting lookup, printing, the file copy and delete loop, and waiting for the printer. The lists the naming loop builds are the model's output.
- The documents folder (`Environment.GetFolderPath`) and the document title are parameters. `App.cs` and the WinForms UI are not part of this model.
