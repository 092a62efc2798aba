# XlsxToCsv row reconstruction, modelled in Dafny

`XlsxToCsvExporter` converts a worksheet of an `.xlsx` workbook into a CSV file.
It reads the worksheet as a stream of XML elements, in one pass:

- the sheet `dimension`;
- `row` open and close;
- cell (`c`) open and close;
- cell value (`v`);
- inline string (`is`).

It writes one line per row. The worksheet format leaves out empty cells, so the
exporter writes an empty quoted field for each missing column. Labels in the first
(header) row are de-duplicated by appending an occurrence count. A column whose header cell
holds an empty value or inline-string text is dropped from every line, and so are the
columns after the header row's last cell.

This project models that state machine. It proves what each handler does to the
exporter's state, and which invariants the whole worksheet pass keeps.

Modules:

- `Optional`: `Option` and `Result`.
- `ColumnAddress`:
  - a cell address reduced to its upper-case letters (`GetColumnNameFromCellAddress`);
  - the column number those letters spell (`ColumnIndexFromName`, a loop proved against the recursive `ColumnValue`);
  - the inverse encoding `ColumnLetters`, with both round trips.
- `CellText`:
  - the line-feed and quote replacement every cell text goes through;
  - splitting the dimension reference at `:`;
  - decimal notation, used when parsing indexes and when writing header suffixes.
- `Headers`: the first-row label registry (`headers`) and the label written for each occurrence.
- `CsvLine`: the text of one output line, built from the fields appended to it; the empty fields
  written for missing columns (`GapPieces`).
- `Exporter`: the class `XlsxToCsvExporter`, with the source's fields and one method per handler,
  plus `ExportWorksheetPart`, which dispatches a sequence of reader events.
- `ExporterExamples`: one worksheet worked through event by event with `HandleEvent`, from the
  dimension to the written line, using only the handlers' contracts.

How the model represents the source:

- The `StringBuilder lineBuilder` is modelled as the sequence of fields (`Piece`s) appended to it,
  in order. Each piece records its column, its text and whether a `,` follows it. `Render` gives the
  buffer's text.
- The `StreamWriter` is the field `lines`, the sequence of strings written so far. Ghost fields record:
  - the fields of each written line (`emitted`);
  - the header texts registered (`headerLabels`).
- A few source methods are split into helper methods along their own blocks. The trailing-column loop
  of the row-end handler is `PadRow`; writing the line is `EndLine`, with its text from `LineText`.
  The gap loop of the cell-start handler is `FillMissingCells`, and its type and style reading is
  `ReadCellType`. The header-and-append tail shared by the value and inline-string handlers is
  `WriteCellText`, with `RegisterHeaderText`.
- The gap loops run over local copies of the fields and store them back when the loop ends. No other
  code runs in between, so this is the same as updating the fields in place.
- An exception thrown inside a handler becomes a `Failure` status. `ExportWorksheetPart` then returns
  `Aborted` at that event, and the lines already written stay written.
- The reader becomes a sequence of `Event`s. Each has:
  - an element kind and a start/end flag;
  - the element's attributes as a map;
  - its text: `GetText()` for a value, `InnerText` for an inline string.
- The workbook's shared strings and the number format of each cell style are constructor parameters.
  So is the date rendering (`formatDate`), which depends on the culture and on `DateTime`.

Behaviours of the code a reader might not expect (the model follows the code,
`XlsxToCsv/XlsxToCsvExporter.cs`):

- **Seeded skip list has no effect.** The skip list is seeded with columns 35-41 in the constructor,
  but `ExportWorksheetPart` clears it at the start of every worksheet (line 75). So no column is
  skipped unless its header text is empty, or it comes after the last cell of the header row.
- **Leading gaps in the header row.** A column missing before a header cell gets an empty field; it is
  not added to the skip list (lines 330-345). Only trailing columns of the header row are skipped
  (lines 191-218).
- **Header cells without a value keep their column.** A header-row cell with no `v` or `is` child
  (such as `<c r="C1" s="3"/>`) gets an empty field at the cell's end (lines 365-373), and its column
  is not added to the skip list. Only an empty value or inline-string text drops the column
  (lines 296-300).
- **Trailing padding is off by one column.**
  - Fields written for cells and gaps omit the `,` after column `sheetEnd` (lines 316, 339, 371, 410).
  - Trailing padding omits it after column `sheetEnd - 1` instead (line 205), and writes one after
    column `sheetEnd`. The row-end trim (lines 220-221) removes only that last `,`. So when a later
    row ends two or more columns early, its last two padding fields run together: on a three-column
    sheet, a row holding only "1" in column A is written `"1",""""` (`PaddingGluesFields`).
  - When a later row's last cell is in column `sheetEnd - 1`, no padding is written at all (lines 191
    and 212-218). Column `sheetEnd` then gets no field: a row holding "a" and "b" on a three-column
    sheet is written `"a","b"` (`LastColumnDropped`).
- **Header labels can collide.** `SuffixedLabelsCanCollide` shows that "Name", "Name", "Name2" are
  written "Name", "Name2", "Name2".
- **A bad value is fatal.** A value that does not parse as a shared-string index or a date serial number
  throws. Nothing falls back to the raw text. The exception also leaves `Export`, so later worksheets
  are not exported.
- **State carries over between worksheets.** These are not reset per worksheet: the line buffer, the
  cell flags, the sheet's last column and `cellColumnIndex`. Only the column, the row count, `headers`
  and the skip list are reset (lines 72-75, `StartSheet`).
- **Unterminated rows leak into the next worksheet.** A row without its closing element is not written on
  its own worksheet. The line buffer is not reset between worksheets (lines 72-75, `StartSheet`), so its
  fields open the first line of the next worksheet that is exported.

## Model

| member | source | states |
|---|---|---|
| ColumnAddress.ColumnName | XlsxToCsv/XlsxToCsvExporter.cs:415-418 | the column name of an address consists only of the letters A-Z and is no longer than the address |
| ColumnAddress.ColumnNameKeepsLetters | XlsxToCsv/XlsxToCsvExporter.cs:415-418 | every letter A-Z of the address occurs in the column name exactly as often as in the address |
| ColumnAddress.ColumnNameAppend | XlsxToCsv/XlsxToCsvExporter.cs:415-418 | removing the non-letters of a concatenation is the concatenation of the two results, so letters keep their order |
| ColumnAddress.ColumnNameOfLetters | XlsxToCsv/XlsxToCsvExporter.cs:415-418 | a name made of letters only is its own column name |
| ColumnAddress.ColumnNameOfNonLetters | XlsxToCsv/XlsxToCsvExporter.cs:415-418 | a text without letters A-Z has an empty column name |
| ColumnAddress.CellAddressColumnName | XlsxToCsv/XlsxToCsvExporter.cs:415-418 | an address made of letters followed by a letter-free row part has exactly those letters as its column name |
| ColumnAddress.ColumnValue | XlsxToCsv/XlsxToCsvExporter.cs:420-436 | a name of letters has a non-negative column number, and that number is 0 exactly for the empty name |
| ColumnAddress.ColumnIndexFromName | XlsxToCsv/XlsxToCsvExporter.cs:420-436 | the loop, which adds (code - 64) times 26 to the power of the number of letters that follow, computes the base-26 value of the name, and that value is 0 only for an empty name |
| ColumnAddress.ColumnLetters | XlsxToCsv/XlsxToCsvExporter.cs:420-436 | the inverse encoding gives letters only, and it is empty exactly for column 0 |
| ColumnAddress.ColumnLettersValue | XlsxToCsv/XlsxToCsvExporter.cs:420-436 | reading back the letters of any column number gives that number |
| ColumnAddress.ColumnValueLetters | XlsxToCsv/XlsxToCsvExporter.cs:420-436 | every name of letters is the encoding of its column number, so distinct names name distinct columns |
| ColumnAddress.KnownColumns | XlsxToCsv/XlsxToCsvExporter.cs:420-436 | A is 1, Z is 26, AA is 27, AZ is 52 and BA is 53 |
| ColumnAddress.KnownCellAddress | XlsxToCsv/XlsxToCsvExporter.cs:415-436 | the cell address AB12 lies in column 28 |
| CellText.Replace | XlsxToCsv/XlsxToCsvExporter.cs:243-244 | the result has the input's length and holds the replacement wherever the input held the replaced character, and the input's character elsewhere |
| CellText.Sanitize | XlsxToCsv/XlsxToCsvExporter.cs:243-244 | the text keeps its length, line feeds become spaces, double quotes become apostrophes, and no line feed or double quote remains |
| CellText.SanitizeIdempotent | XlsxToCsv/XlsxToCsvExporter.cs:387-388 | sanitizing twice is the same as sanitizing once |
| CellText.SanitizeUnchanged | XlsxToCsv/XlsxToCsvExporter.cs:387-388 | a text is left unchanged exactly when it holds no line feed and no double quote |
| CellText.SanitizeExample | XlsxToCsv/XlsxToCsvExporter.cs:243-244 | a two-line value with embedded quotes comes out on one line with apostrophes |
| CellText.Split | XlsxToCsv/XlsxToCsvExporter.cs:178-179 | splitting gives at least one part, no part contains the separator, and there is a second part exactly when the separator occurs |
| CellText.SplitJoin | XlsxToCsv/XlsxToCsvExporter.cs:178-179 | joining the parts with the separator gives back the text |
| CellText.SplitCount | XlsxToCsv/XlsxToCsvExporter.cs:178-179 | there is one part more than there are separators |
| CellText.SplitNone | XlsxToCsv/XlsxToCsvExporter.cs:178-179 | a text without the separator splits into itself alone |
| CellText.SplitAround | XlsxToCsv/XlsxToCsvExporter.cs:178-179 | a text with exactly one separator splits into the parts before and after it, so the part read as the sheet's end is the text after `:` |
| CellText.DecimalString | XlsxToCsv/XlsxToCsvExporter.cs:307 | the count appended to a repeated label is a non-empty string of digits without a leading zero |
| CellText.ParseDecimal | XlsxToCsv/XlsxToCsvExporter.cs:239 | an index is read exactly from a non-empty string of digits |
| CellText.ParseDecimalString | XlsxToCsv/XlsxToCsvExporter.cs:306-307 | the decimal notation of a number parses back to that number |
| Headers.RegisterHeader | XlsxToCsv/XlsxToCsvExporter.cs:302-308 | the registry gains the text as a key and keeps all others; the written label starts with the text, and equals it exactly when the text was not registered before |
| Headers.RegisterHeaderCounts | XlsxToCsv/XlsxToCsvExporter.cs:296-308 | the registry counts every first-row text seen so far, and the k-th occurrence of a text is written plain for k = 1 and with k appended otherwise |
| Headers.SuffixedLabelsCanCollide | XlsxToCsv/XlsxToCsvExporter.cs:302-308 | the suffixed labels are not unique: "Name", "Name", "Name2" are written "Name", "Name2", "Name2" |
| CsvLine.RenderAppend | XlsxToCsv/XlsxToCsvExporter.cs:313-317 | appending a field adds its quoted text, then its delimiter if it has one, to the buffer |
| CsvLine.Render | XlsxToCsv/XlsxToCsvExporter.cs:313-317 | the buffer is at least twice as long as the number of fields appended to it (each field brings its two quotes) |
| CsvLine.EmitLine | XlsxToCsv/XlsxToCsvExporter.cs:220-222 | every written line ends with a line feed, and the character before it is never a `,` |
| CsvLine.TrimmedRenderEndsInQuote | XlsxToCsv/XlsxToCsvExporter.cs:220-221 | after the trim, a non-empty buffer ends with a field's closing quote |
| CsvLine.EmitLineLastField | XlsxToCsv/XlsxToCsvExporter.cs:220-222 | the line of a non-empty buffer is the earlier fields, the last field quoted without its delimiter, and a line feed |
| CsvLine.TrimmedRenderJoins | XlsxToCsv/XlsxToCsvExporter.cs:220-221 | when every field but the last carries a delimiter, the trimmed buffer is exactly the quoted fields joined by `,` |
| CsvLine.EmitLineJoins | XlsxToCsv/XlsxToCsvExporter.cs:220-222 | the line written for such a row is the joined fields followed by a line feed |
| CsvLine.GapPiecesFields | XlsxToCsv/XlsxToCsvExporter.cs:332-344 | each field written for a gap is empty, lies in a column of the gap that is not skipped, and carries a delimiter unless it is in the column singled out |
| CsvLine.GapPieces | XlsxToCsv/XlsxToCsvExporter.cs:332-344 | a gap gets at most one field per column, and an empty gap gets none |
| CsvLine.GapPiecesAvoid | XlsxToCsv/XlsxToCsvExporter.cs:334 | gap fields never stand in a skipped column |
| CsvLine.GapPiecesExtend | XlsxToCsv/XlsxToCsvExporter.cs:332-344 | one more loop step appends at most the field of the current column, and appends it exactly when that column is not skipped |
| CsvLine.GapPiecesIncreasing | XlsxToCsv/XlsxToCsvExporter.cs:332-344 | gap fields are written in strictly increasing column order |
| CsvLine.GapPiecesCover | XlsxToCsv/XlsxToCsvExporter.cs:332-344 | every column of the gap that is not skipped gets a field |
| CsvLine.RangeExtend | XlsxToCsv/XlsxToCsvExporter.cs:193-197 | one more trailing column in the header row appends that column to the skip list |
| CsvLine.RangeElements | XlsxToCsv/XlsxToCsvExporter.cs:193-197 | the columns marked skipped at the end of the header row are exactly the consecutive columns of the range, in order |
| Exporter.LookupStyle | XlsxToCsv/XlsxToCsvExporter.cs:353-357 | a cell has no style exactly when its `s` attribute is absent or empty; a resolved style index is a string of digits and names one of the workbook's cell formats |
| Exporter.StyleIndexResolves | XlsxToCsv/XlsxToCsvExporter.cs:353-357 | style index i, written in decimal, gives the number format of the i-th cell format |
| Exporter.StyleIndexOutOfRange | XlsxToCsv/XlsxToCsvExporter.cs:353-357 | a style index at or beyond the end of the cell-format table, or beyond Int16, is an invalid style (the exporter throws) |
| Exporter.SharedString | XlsxToCsv/XlsxToCsvExporter.cs:239 | only a non-empty string of digits refers to a shared string, and what it refers to is an item of the table |
| Exporter.SharedStringIndexResolves | XlsxToCsv/XlsxToCsvExporter.cs:239 | shared-string index i, written in decimal, gives the i-th shared string |
| Exporter.SharedStringOutOfRange | XlsxToCsv/XlsxToCsvExporter.cs:239 | a shared-string index at or beyond the end of the table, or beyond Int32, refers to nothing, so the value is an error (the exporter throws) |
| Exporter.RowPadding | XlsxToCsv/XlsxToCsvExporter.cs:191-218 | the first row gets no padding; a later row gets at most one field per column from the next column through the last, and none when the next column is the last |
| Exporter.RowPaddingFields | XlsxToCsv/XlsxToCsvExporter.cs:193-210 | every padding field is empty, lies in a column from the next one through the last that is not skipped, and carries a `,` exactly when its column is not the one before the last |
| Exporter.PaddingGluesFields | XlsxToCsv/XlsxToCsvExporter.cs:191-222 | a later row holding "1" in column A of a three-column sheet is written `"1",""""`: the two padding fields run together |
| Exporter.LastColumnDropped | XlsxToCsv/XlsxToCsvExporter.cs:191-222 | a later row holding "a" and "b" in columns A and B of a three-column sheet is written `"a","b"`: column C gets no field |
| Exporter.CellValueText | XlsxToCsv/XlsxToCsvExporter.cs:233-292 | a shared-string index that does not resolve is an error; outside the date formats 14-22, the text is the sanitized value or the sanitized shared string; under a date format, the text is what `formatDate` makes of that sanitized text, and the date conversion fails exactly when `formatDate` gives nothing; there are no other errors |
| Exporter.XlsxToCsvExporter.constructor | XlsxToCsv/XlsxToCsvExporter.cs:16-32 | every field starts at the source's initial value: columns 0, format -1, flags false, empty registry and buffer, columns 35-41 seeded as skipped |
| Exporter.XlsxToCsvExporter.ExportWorksheetPart | XlsxToCsv/XlsxToCsvExporter.cs:70-172 | it calls StartSheet, whose contract gives the reset; then one line is written for each row end before the end or the failing event; a failure can only come from opening a dimension, a cell or a value; every line is a CSV line; no line after the header line has a field in a skipped column |
| Exporter.XlsxToCsvExporter.HandleEvent | XlsxToCsv/XlsxToCsvExporter.cs:81-168 | each element reaches its handler: a dimension start, a row end, a cell start or end, a value start and an inline-string start have exactly their handler's effect and change no other field; a row start, any other end and any other element change nothing; the row count grows by one exactly at a row end; after the first row the skip list never changes; only a dimension, cell or value start can fail; the exporter's invariants are kept |
| Exporter.XlsxToCsvExporter.StartSheet | XlsxToCsv/XlsxToCsvExporter.cs:72-75 | the column, the row count, the header registry and the skip list start afresh and nothing is written yet; the line buffer, the cell flags and the sheet's last column keep their values |
| Exporter.XlsxToCsvExporter.HandleSheetDimensionStartElement | XlsxToCsv/XlsxToCsvExporter.cs:174-183 | a missing `ref`, or one without `:`, fails; otherwise the sheet's last column is the column number of the part after `:` |
| Exporter.XlsxToCsvExporter.HandleRowEndElement | XlsxToCsv/XlsxToCsvExporter.cs:185-231 | the line written is the buffer plus the trailing padding; in the header row the trailing columns are skipped instead; the row count grows by one, and the column and buffer are reset |
| Exporter.XlsxToCsvExporter.PadRow | XlsxToCsv/XlsxToCsvExporter.cs:191-218 | the header row marks every column from the current one through the last as skipped; later rows get an empty field for each of those columns that is not skipped, unless the current column already is the last, when nothing is written (lines 212-218); no skipped column gets a field; the column ends one past the last, or stays where it was when it already was the last |
| Exporter.XlsxToCsvExporter.EndLine | XlsxToCsv/XlsxToCsvExporter.cs:220-230 | the written line is the trimmed buffer plus a line feed; the row count grows by one and the column and buffer are reset |
| Exporter.XlsxToCsvExporter.LineText | XlsxToCsv/XlsxToCsvExporter.cs:220-223 | the text written is the buffer's text with one trailing `,` removed and a line feed appended |
| Exporter.XlsxToCsvExporter.WriteCellText | XlsxToCsv/XlsxToCsvExporter.cs:294-318 | in the header row the text is registered, and an empty one marks its column as skipped; the written label is appended unless the column is skipped; the registry keeps counting the labels |
| Exporter.XlsxToCsvExporter.RegisterHeaderText | XlsxToCsv/XlsxToCsvExporter.cs:296-309 | the text is counted in the registry and written with its occurrence count appended when repeated; an empty text marks the current column as skipped |
| Exporter.XlsxToCsvExporter.HandleCellValueStartElement | XlsxToCsv/XlsxToCsvExporter.cs:233-319 | the cell is marked as having a value; a value whose text cannot be produced fails and writes nothing; otherwise its text is written as WriteCellText says |
| Exporter.XlsxToCsvExporter.HandleInlineStringStartElement | XlsxToCsv/XlsxToCsvExporter.cs:381-413 | the cell is marked as having a value, and its sanitized text is written as WriteCellText says, with no number format |
| Exporter.XlsxToCsvExporter.HandleCellStartElement | XlsxToCsv/XlsxToCsvExporter.cs:321-359 | a missing `r` fails; otherwise the cell's column comes from its address, an empty field is written for every non-skipped column before it, and the type and style are recorded as ReadCellType says |
| Exporter.XlsxToCsvExporter.FillMissingCells | XlsxToCsv/XlsxToCsvExporter.cs:330-345 | the current column advances to the cell's column, and the gap fields are appended, never in a skipped column |
| Exporter.XlsxToCsvExporter.ReadCellType | XlsxToCsv/XlsxToCsvExporter.cs:347-358 | a shared-string type marks the cell; a cell that is not a shared string takes its style's number format; a style that is not a valid index fails |
| Exporter.XlsxToCsvExporter.HandleCellEndElement | XlsxToCsv/XlsxToCsvExporter.cs:361-379 | a cell without a value gets an empty field unless its column is skipped; the cell flags return to their defaults |
| ExporterExamples.SmallAddress | XlsxToCsv/XlsxToCsvExporter.cs:415-436 | a one-letter, one-digit address such as D1 lies in the column of its letter |
| ExporterExamples.OpenDimension | XlsxToCsv/XlsxToCsvExporter.cs:174-183 | the dimension "A1:" followed by a reference sets the sheet's last column to that reference's column and changes nothing else |
| ExporterExamples.OpenCell | XlsxToCsv/XlsxToCsvExporter.cs:321-359 | opening an untyped, unstyled cell in the next column advances the column and writes nothing |
| ExporterExamples.ReadHeaderValue | XlsxToCsv/XlsxToCsvExporter.cs:233-319 | a first-row value without line feeds or quotes is registered, an empty one marks its column skipped, and the written label is appended unless the column is skipped |
| ExporterExamples.CloseValueCell | XlsxToCsv/XlsxToCsvExporter.cs:361-379 | closing a cell that had a value writes nothing and resets the cell flags |
| ExporterExamples.HeaderValueCell | XlsxToCsv/XlsxToCsvExporter.cs:321-379 | a whole first-row cell (open, value, close) advances the column by one and has exactly the effect of its value |
| ExporterExamples.HeaderLine | XlsxToCsv/XlsxToCsvExporter.cs:220-222 | the fields "Name", "Name2" and a final "Age" are written `"Name","Name2","Age"` followed by a line feed |
| ExporterExamples.OpenHeaderRow | XlsxToCsv/XlsxToCsvExporter.cs:72-183 | a fresh exporter on the sheet "A1:D1", inside its first row, has last column 4 and everything else at its start value |
| ExporterExamples.ReadFirstLabel | XlsxToCsv/XlsxToCsvExporter.cs:296-318 | the label "Name" in A1 is counted once and written as it is |
| ExporterExamples.ReadRepeatedLabel | XlsxToCsv/XlsxToCsvExporter.cs:296-318 | the label "Name" again in B1 raises its count to 2 and is written "Name2" |
| ExporterExamples.ReadSkippedAndLastLabel | XlsxToCsv/XlsxToCsvExporter.cs:296-318 | the empty label in C1 marks column 3 skipped and writes nothing; "Age" in D1, the last column, is written without a delimiter |
| ExporterExamples.EndFirstRow | XlsxToCsv/XlsxToCsvExporter.cs:185-231 | ending the first row writes the buffer's line with no padding |
| ExporterExamples.HeaderRowExample | XlsxToCsv/XlsxToCsvExporter.cs:70-231 | the sheet "A1:D1" whose row holds "Name", "Name", "" and "Age" is written as the one line `"Name","Name2","Age"` |

## Left out

- `Export` (lines 34-68) is not modelled. It opens the workbook, reads the shared-string and style tables, chooses worksheets by name and creates one file per worksheet. The model's worksheet pass receives those tables, and a sequence of events, as parameters.
- `Program.cs` (the command line) is not part of this model.
- CellValueText: the date rendering for formats 14-22 (`DateTime.FromOADate`, `Convert.ToDouble` and culture patterns) is the parameter `formatDate`. The model does not say which text a date serial number becomes.
- LookupStyle: `Convert.ToInt16` also accepts a sign and surrounding white space; the model reads only plain digits and rejects everything else as an invalid style.
- ParseDecimal: only plain digits are read. `Convert.ToInt16` and `Convert.ToInt32` also accept a leading sign and surrounding white space, so such an index is an error in the model but resolves in the source.
- SharedString: `Convert.ToInt32` also accepts a sign and surrounding white space; the model reads only plain digits.
- ColumnIndexFromName: not modelled are the `double` rounding of `Math.Pow` and the Int32 overflow for names of seven or more letters. A character outside A-Z cannot reach it, because only letters are kept.
- HandleCellStartElement: attributes are a map, so the exception `SingleOrDefault` throws for a repeated attribute cannot arise.
- ReadCellType: a style whose `NumberFormatId` is absent throws in the source. The model gives every style a number format.
- HandleCellValueStartElement: a workbook without a shared-string table leaves `sharedStringItems` null, and a shared-string cell then throws. The model passes an empty table instead, which fails the same way.
- ExportWorksheetPart: it states the number of lines, their line endings and the skipped columns. It does not give each line's text for an arbitrary worksheet. `HandleEvent` states the effect of each event, and `HeaderRowExample` works one whole worksheet through to its text.
- ExportWorksheetPart: an exception ends the whole `Export` call, so later worksheets are not exported. The model covers one worksheet and reports where it stopped.
- The `StringBuilder` is updated in place. The model keeps the sequence of appended fields, and its text is `Render(lineBuilder)`.
