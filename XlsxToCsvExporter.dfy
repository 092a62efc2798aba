/**
 * The per-worksheet row reconstruction of XlsxToCsvExporter: a stream of
 * worksheet elements (dimension, row, cell, cell value, inline string) is
 * turned into one CSV line per row. Missing cells are filled in with empty
 * quoted fields and first-row labels are de-duplicated. A column whose
 * first-row cell holds an empty value or inline-string text is left out of
 * every line, and so are the columns after the first row's last cell.
 */
module Exporter {
  import opened Optional
  import opened ColumnAddress
  import opened CellText
  import opened Headers
  import opened CsvLine

  /** The elements the exporter reacts to; `Other` stands for every other element name. */
  datatype ElementKind = Dimension | Row | Cell | CellValue | InlineString | Other

  /** One reader step: an element opening or closing, its attributes and (for values) its text. */
  datatype Event = Event(kind: ElementKind, isStart: bool, attributes: map<string, string>, text: string)

  /** The exceptions that end the export of a worksheet. */
  datatype ExportError =
    | DimensionRefMissing        // no `ref` attribute on the dimension
    | DimensionEndMissing        // `ref` holds no ':'
    | CellRefMissing             // no `r` attribute on a cell
    | StyleIndexInvalid          // `s` is not an Int16 index into the cell formats
    | SharedStringIndexInvalid   // the value is not an Int32 index into the shared strings
    | DateConversionFailed       // the value of a date-formatted cell is not a date serial number

  datatype Status = Success | Failure(error: ExportError)

  /** How the export of one worksheet ended: after every event, or at the event that threw. */
  datatype Outcome = Completed | Aborted(at: nat, error: ExportError)

  const MaxInt16: int := 32767
  const MaxInt32: int := 2147483647

  function Max(a: int, b: int): int {
    if a < b then b else a
  }

  /** The built-in number formats the exporter renders as dates and times. */
  predicate IsDateFormat(numberFormatId: int) {
    14 <= numberFormatId <= 22
  }

  predicate IsSharedStringType(attributes: map<string, string>) {
    "t" in attributes && attributes["t"] == "s"
  }

  datatype StyleLookup = NoStyle | StyleFormat(numberFormatId: int) | BadStyle

  /**
   * The number format of a cell's style index, when the cell names one: a cell
   * without a style index has none, and a style index that resolves names one
   * of the workbook's cell formats.
   */
  function LookupStyle(attributes: map<string, string>, cellFormats: seq<int>): (r: StyleLookup)
    ensures r == NoStyle <==> "s" !in attributes || attributes["s"] == ""
    ensures r.StyleFormat? ==> "s" in attributes && AllDigits(attributes["s"]) && r.numberFormatId in cellFormats
  {
    if "s" !in attributes || attributes["s"] == "" then NoStyle
    else match ParseDecimal(attributes["s"])
      case Some(index) => if index <= MaxInt16 && index < |cellFormats| then StyleFormat(cellFormats[index]) else BadStyle
      case None => BadStyle
  }

  /** The shared string a cell value refers to: only a string of digits refers to one, and it is an item of the table. */
  function SharedString(reference: string, sharedStrings: seq<string>): (r: Option<string>)
    ensures r.Some? ==> reference != [] && AllDigits(reference) && r.value in sharedStrings
  {
    match ParseDecimal(reference)
    case Some(index) => if index <= MaxInt32 && index < |sharedStrings| then Some(sharedStrings[index]) else None
    case None => None
  }

  /** Style index i, written in decimal, gives the number format of the i-th cell format. */
  lemma StyleIndexResolves(i: nat, cellFormats: seq<int>)
    requires i < |cellFormats| && i <= MaxInt16
    ensures LookupStyle(map["s" := DecimalString(i)], cellFormats) == StyleFormat(cellFormats[i])
  {
    ParseDecimalString(i);
  }

  /** A style index beyond the cell-format table, or beyond Int16, is an invalid style. */
  lemma StyleIndexOutOfRange(i: nat, cellFormats: seq<int>)
    requires i >= |cellFormats| || i > MaxInt16
    ensures LookupStyle(map["s" := DecimalString(i)], cellFormats) == BadStyle
  {
    ParseDecimalString(i);
  }

  /** Shared-string index i, written in decimal, gives the i-th shared string. */
  lemma SharedStringIndexResolves(i: nat, sharedStrings: seq<string>)
    requires i < |sharedStrings| && i <= MaxInt32
    ensures SharedString(DecimalString(i), sharedStrings) == Some(sharedStrings[i])
  {
    ParseDecimalString(i);
  }

  /** A shared-string index beyond the table, or beyond Int32, refers to nothing. */
  lemma SharedStringOutOfRange(i: nat, sharedStrings: seq<string>)
    requires i >= |sharedStrings| || i > MaxInt32
    ensures SharedString(DecimalString(i), sharedStrings) == None
  {
    ParseDecimalString(i);
  }

  /**
   * The text a cell value contributes: the shared string it refers to or the
   * value itself, sanitized, then rendered by `formatDate` when the cell's
   * number format is a date format.
   */
  function CellValueText(value: string, isSharedString: bool, numberFormatId: int,
                         sharedStrings: seq<string>, formatDate: (string, int) -> Option<string>): (r: Result<string, ExportError>)
    ensures isSharedString && SharedString(value, sharedStrings).None? ==> r == Err(SharedStringIndexInvalid)
    ensures !IsDateFormat(numberFormatId) && !isSharedString ==> r == Ok(Sanitize(value))
    ensures !IsDateFormat(numberFormatId) && isSharedString && SharedString(value, sharedStrings).Some? ==>
      r == Ok(Sanitize(SharedString(value, sharedStrings).value))
    ensures r.Err? ==> r.error == SharedStringIndexInvalid || (r.error == DateConversionFailed && IsDateFormat(numberFormatId))
    ensures IsDateFormat(numberFormatId) && (!isSharedString || SharedString(value, sharedStrings).Some?) ==>
      var raw := if isSharedString then SharedString(value, sharedStrings).value else value;
      match formatDate(Sanitize(raw), numberFormatId)
      case Some(rendered) => r == Ok(rendered)
      case None => r == Err(DateConversionFailed)
  {
    var raw := if isSharedString then SharedString(value, sharedStrings) else Some(value);
    if raw.None? then Err(SharedStringIndexInvalid)
    else
      var text := Sanitize(raw.value);
      if numberFormatId > -1 && IsDateFormat(numberFormatId) then
        match formatDate(text, numberFormatId)
        case Some(rendered) => Ok(rendered)
        case None => Err(DateConversionFailed)
      else Ok(text)
  }

  /**
   * The empty fields written at the end of a row whose next column is `from`:
   * none in the first row (those columns are skipped instead), none when `from`
   * is the last column, and otherwise one for each column from `from` through
   * the last that is not skipped, followed by a delimiter unless its column is
   * the one before the last.
   */
  function RowPadding(from: int, skip: seq<int>, sheetEnd: int, rowCount: int): (r: seq<Piece>)
    ensures |r| <= (if rowCount == 0 || sheetEnd <= from then 0 else sheetEnd + 1 - from)
  {
    if rowCount == 0 || from == sheetEnd then [] else GapPieces(from, sheetEnd + 1, skip, sheetEnd - 1)
  }

  /**
   * Every padding field is empty, stands in a column from `from` through the
   * last that is not skipped, and carries a delimiter exactly when its column
   * is not the one before the last.
   */
  lemma RowPaddingFields(from: int, skip: seq<int>, sheetEnd: int, rowCount: int)
    ensures var r := RowPadding(from, skip, sheetEnd, rowCount);
      forall i :: 0 <= i < |r| ==>
        from <= r[i].column <= sheetEnd && r[i].column !in skip && r[i] == Piece(r[i].column, "", r[i].column != sheetEnd - 1)
  {
    GapPiecesFields(from, sheetEnd + 1, skip, sheetEnd - 1);
  }

  /**
   * A later row whose last cell is in column 1 of a three-column sheet: the
   * padding leaves out the delimiter after column 2 but writes one after
   * column 3, so the two empty fields run together.
   */
  lemma PaddingGluesFields()
    ensures EmitLine([Piece(1, "1", true)] + RowPadding(2, [], 3, 1)) == "\"1\",\"\"\"\"\n"
  {
    var p1, p2, p3 := Piece(1, "1", true), Piece(2, "", false), Piece(3, "", true);
    assert [p1] + RowPadding(2, [], 3, 1) == [p1, p2] + [p3] by {
      assert GapPieces(2, 2, [], 2) == [];
      assert GapPieces(2, 3, [], 2) == [p2];
    }
    assert Render([p1]) == "\"1\"," by {
      RenderAppend([], p1);
      assert [] + [p1] == [p1];
    }
    assert Render([p1, p2]) == "\"1\",\"\"" by {
      RenderAppend([p1], p2);
      assert [p1] + [p2] == [p1, p2];
    }
    assert EmitLine([p1, p2] + [p3]) == Render([p1, p2]) + Quote("") + "\n" by {
      EmitLineLastField([p1, p2], p3);
    }
    assert Render([p1, p2]) + Quote("") + "\n" == "\"1\",\"\"\"\"\n";
  }

  /**
   * A later row whose last cell is in column 2 of a three-column sheet: the
   * padding is not written at all, so column 3 gets no field.
   */
  lemma LastColumnDropped()
    ensures EmitLine([Piece(1, "a", true), Piece(2, "b", true)] + RowPadding(3, [], 3, 1)) == "\"a\",\"b\"\n"
  {
    var p1, p2 := Piece(1, "a", true), Piece(2, "b", true);
    assert [p1, p2] + RowPadding(3, [], 3, 1) == [p1] + [p2];
    assert Render([p1]) == "\"a\"," by {
      RenderAppend([], p1);
      assert [] + [p1] == [p1];
    }
    EmitLineLastField([p1], p2);
  }

  predicate IsRowEnd(e: Event) {
    e.kind == Row && !e.isStart
  }

  function RowEnds(events: seq<Event>): nat {
    if |events| == 0 then 0
    else RowEnds(events[..|events| - 1]) + (if IsRowEnd(events[|events| - 1]) then 1 else 0)
  }

  class XlsxToCsvExporter {
    // Workbook tables, read before any worksheet is exported.
    const sharedStringItems: seq<string>
    const cellFormats: seq<int>        // number format id of each cell style
    const formatDate: (string, int) -> Option<string>

    var sheetEndColumnIndex: int
    var currColumnIndex: int
    var cellColumnIndex: int
    var rowCount: nat
    var numberFormatToApply: int
    var hasCellValue: bool
    var isSharedString: bool
    var headers: map<string, nat>
    var columnsToSkip: seq<int>
    /** The line being built, as the fields appended to it in order; its text is `Render(lineBuilder)`. */
    var lineBuilder: seq<Piece>
    var lines: seq<string>             // what the worksheet's writer has received

    ghost var headerLabels: seq<string> // the first-row texts registered in headers
    ghost var emitted: seq<seq<Piece>>  // the fields of each written line

    /** `headers` counts the first-row texts registered so far. */
    ghost predicate HeadersCounted()
      reads this`headers, this`headerLabels
    {
      Counts(headers, headerLabels)
    }

    /** One line has been written per row end, and each is the emitted form of its row's fields. */
    ghost predicate LinesWritten()
      reads this`rowCount, this`lines, this`emitted
    {
      && rowCount == |lines| == |emitted|
      && forall i :: 0 <= i < |lines| ==> lines[i] == EmitLine(emitted[i])
    }

    /** After the header row, the line being built has no field in a skipped column. */
    ghost predicate RowAvoidsSkipped()
      reads this`rowCount, this`lineBuilder, this`columnsToSkip
    {
      rowCount > 0 ==> AvoidsColumns(lineBuilder, columnsToSkip)
    }

    /** No line after the header line has a field in a skipped column. */
    ghost predicate LinesAvoidSkipped()
      reads this`emitted, this`columnsToSkip
    {
      forall i :: 1 <= i < |emitted| ==> AvoidsColumns(emitted[i], columnsToSkip)
    }

    ghost predicate Valid()
      reads this
    {
      HeadersCounted() && LinesWritten() && RowAvoidsSkipped() && LinesAvoidSkipped()
    }

    constructor (sharedStringItems: seq<string>, cellFormats: seq<int>, formatDate: (string, int) -> Option<string>)
      ensures Valid()
      ensures this.sharedStringItems == sharedStringItems && this.cellFormats == cellFormats && this.formatDate == formatDate
      ensures sheetEndColumnIndex == 0 && currColumnIndex == 0 && cellColumnIndex == 0 && rowCount == 0
      ensures numberFormatToApply == -1 && !hasCellValue && !isSharedString
      ensures headers == map[] && columnsToSkip == Range(35, 42) && lineBuilder == [] && lines == []
    {
      this.sharedStringItems := sharedStringItems;
      this.cellFormats := cellFormats;
      this.formatDate := formatDate;
      sheetEndColumnIndex, currColumnIndex, cellColumnIndex, rowCount := 0, 0, 0, 0;
      numberFormatToApply := -1;
      hasCellValue, isSharedString := false, false;
      headers := map[];
      columnsToSkip := [35, 36, 37, 38, 39, 40, 41];
      lineBuilder := [];
      lines := [];
      headerLabels, emitted := [], [];
    }

    /**
     * Exports one worksheet: the row state is reset and every event is
     * dispatched to its handler until the events run out or a handler fails.
     * Every row end writes exactly one line, and every line after the first
     * (header) line leaves out the columns the header row marked as skipped.
     */
    method ExportWorksheetPart(events: seq<Event>) returns (outcome: Outcome)
      requires Valid()
      modifies this
      ensures Valid()
      ensures |lines| == rowCount
      ensures outcome.Completed? ==> rowCount == RowEnds(events)
      ensures outcome.Aborted? ==>
        && outcome.at < |events|
        && rowCount == RowEnds(events[..outcome.at])
        && events[outcome.at].isStart
        && events[outcome.at].kind in {Dimension, Cell, CellValue}
      ensures forall i :: 0 <= i < |lines| ==> IsCsvLine(lines[i])
      ensures forall i :: 1 <= i < |lines| ==> AvoidsColumns(emitted[i], columnsToSkip)
    {
      StartSheet();
      var i := 0;
      while i < |events|
        invariant 0 <= i <= |events|
        invariant Valid()
        invariant rowCount == RowEnds(events[..i])
      {
        var status := HandleEvent(events[i]);
        if status.Failure? {
          outcome := Aborted(i, status.error);
          return;
        }
        assert events[..i + 1][..i] == events[..i];
        i := i + 1;
      }
      assert events[..i] == events;
      outcome := Completed;
    }

    /**
     * The reset at the start of a worksheet: column, row count, header registry
     * and skip list start afresh, and the worksheet's file is new. The line
     * buffer, the cell flags and the sheet's last column are not reset.
     */
    method StartSheet()
      modifies this
      ensures Valid()
      ensures currColumnIndex == 0 && rowCount == 0 && headers == map[] && columnsToSkip == []
      ensures lines == [] && headerLabels == [] && emitted == []
      ensures unchanged(this`sheetEndColumnIndex, this`cellColumnIndex, this`numberFormatToApply,
        this`hasCellValue, this`isSharedString, this`lineBuilder)
    {
      currColumnIndex := 0;
      rowCount := 0;
      headers := map[];
      columnsToSkip := [];
      headerLabels := [];
      lines, emitted := [], [];
    }

    /** An event no handler acts on: nothing changes. */
    twostate predicate Ignored(status: Status)
      reads this
    {
      status == Success && unchanged(this)
    }

    /**
     * Sends one reader event to the handler for its element, whose effect is
     * the new state; other elements, and the ends of the dimension, a value or
     * an inline string, change nothing. After the header row the skip list is
     * frozen.
     */
    method HandleEvent(e: Event) returns (status: Status)
      requires Valid()
      modifies this`sheetEndColumnIndex, this`currColumnIndex, this`cellColumnIndex, this`rowCount,
        this`numberFormatToApply, this`hasCellValue, this`isSharedString, this`headers, this`columnsToSkip,
        this`lineBuilder, this`lines, this`headerLabels, this`emitted
      ensures Valid()
      ensures match e.kind
        case Dimension =>
          if !e.isStart then Ignored(status)
          else
            && DimensionRead(e, status)
            && unchanged(this`currColumnIndex, this`cellColumnIndex, this`rowCount, this`numberFormatToApply,
                 this`hasCellValue, this`isSharedString, this`headers, this`columnsToSkip, this`lineBuilder,
                 this`lines, this`headerLabels, this`emitted)
        case Row =>
          if e.isStart then Ignored(status)
          else
            && RowEnded() && status == Success
            && unchanged(this`sheetEndColumnIndex, this`cellColumnIndex, this`numberFormatToApply,
                 this`hasCellValue, this`isSharedString, this`headers, this`headerLabels)
        case Cell =>
          if e.isStart then
            && CellOpened(e, status)
            && unchanged(this`sheetEndColumnIndex, this`rowCount, this`hasCellValue, this`headers,
                 this`columnsToSkip, this`lines, this`headerLabels, this`emitted)
          else
            && CellClosed() && status == Success
            && unchanged(this`sheetEndColumnIndex, this`currColumnIndex, this`cellColumnIndex, this`rowCount,
                 this`headers, this`columnsToSkip, this`lines, this`headerLabels, this`emitted)
        case CellValue =>
          if !e.isStart then Ignored(status)
          else
            && ValueRead(e, status)
            && unchanged(this`sheetEndColumnIndex, this`currColumnIndex, this`cellColumnIndex, this`rowCount,
                 this`numberFormatToApply, this`isSharedString, this`lines, this`emitted)
        case InlineString =>
          if !e.isStart then Ignored(status)
          else
            && InlineStringRead(e) && status == Success
            && unchanged(this`sheetEndColumnIndex, this`currColumnIndex, this`cellColumnIndex, this`rowCount,
                 this`numberFormatToApply, this`isSharedString, this`lines, this`emitted)
        case Other => Ignored(status)
      ensures rowCount == old(rowCount) + (if IsRowEnd(e) then 1 else 0)
      ensures old(rowCount) > 0 ==> columnsToSkip == old(columnsToSkip)
      ensures status.Failure? ==> e.isStart && e.kind in {Dimension, Cell, CellValue}
    {
      status := Success;
      match e.kind {
        case Dimension =>
          if e.isStart { status := HandleSheetDimensionStartElement(e); }
        case Row =>
          if !e.isStart { HandleRowEndElement(); }
        case Cell =>
          if e.isStart { status := HandleCellStartElement(e); } else { HandleCellEndElement(); }
        case CellValue =>
          if e.isStart { status := HandleCellValueStartElement(e); }
        case InlineString =>
          if e.isStart { HandleInlineStringStartElement(e); }
        case Other =>
      }
    }

    /**
     * The effect of the dimension element: a missing `ref`, or one without
     * ':', fails; otherwise the sheet's last column is the column of the part
     * after ':'.
     */
    twostate predicate DimensionRead(e: Event, status: Status)
      reads this
    {
      && ("ref" !in e.attributes ==>
            status == Failure(DimensionRefMissing) && sheetEndColumnIndex == old(sheetEndColumnIndex))
      && ("ref" in e.attributes && ':' !in e.attributes["ref"] ==>
            status == Failure(DimensionEndMissing) && sheetEndColumnIndex == old(sheetEndColumnIndex))
      && ("ref" in e.attributes && ':' in e.attributes["ref"] ==>
            status == Success && sheetEndColumnIndex == ColumnValue(ColumnName(Split(e.attributes["ref"], ':')[1])))
    }

    /** The dimension's `ref` ("A1:D9") gives the last column of the sheet: the column of the part after ':'. */
    method HandleSheetDimensionStartElement(e: Event) returns (status: Status)
      requires Valid()
      modifies this`sheetEndColumnIndex
      ensures Valid()
      ensures DimensionRead(e, status)
      ensures unchanged(this`currColumnIndex, this`cellColumnIndex, this`rowCount, this`numberFormatToApply,
        this`hasCellValue, this`isSharedString, this`headers, this`columnsToSkip, this`lineBuilder,
        this`lines, this`headerLabels, this`emitted)
    {
      if "ref" !in e.attributes {
        return Failure(DimensionRefMissing);
      }
      var sheetRefValue := e.attributes["ref"];
      var parts := Split(sheetRefValue, ':');
      if |parts| < 2 {
        return Failure(DimensionEndMissing);
      }
      var sheetEndColumnName := ColumnName(parts[1]);
      sheetEndColumnIndex := ColumnIndexFromName(sheetEndColumnName);
      status := Success;
    }

    /**
     * The effect of a row end: the line written is the buffer followed by the
     * trailing padding (see RowPadding); in the header row the trailing columns
     * are marked as skipped instead; the row count advances and the column and
     * buffer are reset.
     */
    twostate predicate RowEnded()
      reads this
    {
      && rowCount == old(rowCount) + 1 && currColumnIndex == 0 && lineBuilder == []
      && columnsToSkip == old(columnsToSkip) +
           (if old(rowCount) == 0 then Range(old(currColumnIndex) + 1, sheetEndColumnIndex + 1) else [])
      && emitted == old(emitted) +
           [old(lineBuilder) + RowPadding(old(currColumnIndex) + 1, old(columnsToSkip), sheetEndColumnIndex, old(rowCount))]
      && lines == old(lines) +
           [EmitLine(old(lineBuilder) + RowPadding(old(currColumnIndex) + 1, old(columnsToSkip), sheetEndColumnIndex, old(rowCount)))]
    }

    /**
     * Closes a row: the trailing columns are padded (see RowPadding), or in the
     * first row marked as skipped; one dangling delimiter is trimmed, the line
     * is written, and the row state is reset.
     */
    method HandleRowEndElement()
      requires Valid()
      modifies this`currColumnIndex, this`columnsToSkip, this`lineBuilder, this`lines, this`emitted, this`rowCount
      ensures Valid()
      ensures RowEnded()
    {
      currColumnIndex := currColumnIndex + 1;
      PadRow();
      EndLine();
    }

    /**
     * Writes the line: one dangling delimiter is trimmed and a line feed
     * appended; the row count advances and the row state is reset.
     */
    method EndLine()
      requires LinesWritten() && RowAvoidsSkipped() && LinesAvoidSkipped()
      modifies this`currColumnIndex, this`lineBuilder, this`lines, this`emitted, this`rowCount
      ensures LinesWritten() && RowAvoidsSkipped() && LinesAvoidSkipped()
      ensures rowCount == old(rowCount) + 1 && currColumnIndex == 0 && lineBuilder == []
      ensures emitted == old(emitted) + [old(lineBuilder)]
      ensures lines == old(lines) + [EmitLine(old(lineBuilder))]
    {
      var line := LineText();
      lines := lines + [line];
      emitted := emitted + [lineBuilder];

      rowCount := rowCount + 1;
      currColumnIndex := 0;
      lineBuilder := [];
    }

    /** The text of the line being built, as written: one dangling delimiter trimmed, a line feed appended. */
    method LineText() returns (line: string)
      ensures line == EmitLine(lineBuilder)
    {
      line := Render(lineBuilder);
      if |line| > 0 && line[|line| - 1] == ColumnDelimiter {
        line := line[..|line| - 1];
      }
      line := line + "\n";
    }

    /**
     * The trailing columns of a row, from the current column through the
     * sheet's last: in the first row they are marked as skipped; in later rows
     * each one that is not skipped gets an empty field.
     */
    method PadRow()
      requires RowAvoidsSkipped() && LinesAvoidSkipped()
      requires rowCount == 0 ==> |emitted| == 0
      modifies this`currColumnIndex, this`columnsToSkip, this`lineBuilder
      ensures RowAvoidsSkipped() && LinesAvoidSkipped()
      ensures columnsToSkip == old(columnsToSkip) +
        (if rowCount == 0 then Range(old(currColumnIndex), sheetEndColumnIndex + 1) else [])
      ensures lineBuilder == old(lineBuilder) +
        RowPadding(old(currColumnIndex), old(columnsToSkip), sheetEndColumnIndex, rowCount)
      ensures currColumnIndex == if old(currColumnIndex) == sheetEndColumnIndex then old(currColumnIndex)
        else Max(old(currColumnIndex), sheetEndColumnIndex + 1)
    {
      var curr, skip, line := currColumnIndex, columnsToSkip, lineBuilder;
      var row, sheetEnd := rowCount, sheetEndColumnIndex;
      if curr != sheetEnd {
        while curr <= sheetEnd
          invariant old(currColumnIndex) <= curr <= Max(old(currColumnIndex), sheetEnd + 1)
          invariant skip == old(columnsToSkip) + (if row == 0 then Range(old(currColumnIndex), curr) else [])
          invariant line == old(lineBuilder) +
            (if row == 0 then [] else GapPieces(old(currColumnIndex), curr, skip, sheetEnd - 1))
        {
          if row == 0 {
            RangeExtend(old(columnsToSkip), old(currColumnIndex), curr);
            skip := skip + [curr];
          } else {
            GapPiecesExtend(old(lineBuilder), old(currColumnIndex), curr, skip, sheetEnd - 1);
          }
          if curr !in skip {
            line := line + [Piece(curr, "", curr != sheetEnd - 1)];
          }
          curr := curr + 1;
        }
        assert curr == Max(old(currColumnIndex), sheetEnd + 1);
        if row != 0 {
          GapPiecesAvoid(old(lineBuilder), old(currColumnIndex), curr, skip, sheetEnd - 1);
        }
      } else if row == 0 {
        skip := skip + [curr];
      }
      currColumnIndex, columnsToSkip, lineBuilder := curr, skip, line;
    }

    /** The effect of writing one cell's text: header registration in the first row, then the field unless its column is skipped. */
    twostate predicate WroteCellText(text: string)
      reads this
    {
      var written := if old(rowCount) == 0 then RegisterHeader(old(headers), text).written else text;
      && (old(rowCount) == 0 ==>
            && headerLabels == old(headerLabels) + [text]
            && headers == RegisterHeader(old(headers), text).headers
            && columnsToSkip == old(columnsToSkip) + (if text == "" then [currColumnIndex] else []))
      && (old(rowCount) != 0 ==>
            headerLabels == old(headerLabels) && headers == old(headers) && columnsToSkip == old(columnsToSkip))
      && lineBuilder == old(lineBuilder) +
           (if currColumnIndex in columnsToSkip then []
            else [Piece(currColumnIndex, written, currColumnIndex != sheetEndColumnIndex)])
    }

    /** Writes the text of a cell value or inline string into the line. */
    method WriteCellText(text: string)
      requires Valid()
      modifies this`headers, this`headerLabels, this`columnsToSkip, this`lineBuilder
      ensures Valid()
      ensures WroteCellText(text)
    {
      var written := text;
      if rowCount == 0 {
        written := RegisterHeaderText(text);
      }
      if currColumnIndex !in columnsToSkip {
        lineBuilder := lineBuilder + [Piece(currColumnIndex, written, currColumnIndex != sheetEndColumnIndex)];
      }
    }

    /**
     * A first-row text: an empty one marks its column as skipped, and the text
     * is counted in `headers`, a repeated one getting its count as a suffix.
     */
    method RegisterHeaderText(text: string) returns (written: string)
      requires HeadersCounted()
      modifies this`headers, this`headerLabels, this`columnsToSkip
      ensures HeadersCounted()
      ensures headerLabels == old(headerLabels) + [text]
      ensures headers == RegisterHeader(old(headers), text).headers
      ensures written == RegisterHeader(old(headers), text).written
      ensures written == Suffixed(text, multiset(headerLabels)[text])
      ensures columnsToSkip == old(columnsToSkip) + (if text == "" then [currColumnIndex] else [])
    {
      if text == "" {
        columnsToSkip := columnsToSkip + [currColumnIndex];
      }
      RegisterHeaderCounts(headers, headerLabels, text);
      var registration := RegisterHeader(headers, text);
      headers := registration.headers;
      headerLabels := headerLabels + [text];
      written := registration.written;
    }

    /**
     * The effect of a cell value: the cell is marked as having a value; a text
     * that cannot be produced (see CellValueText) fails and writes nothing;
     * otherwise the text is written.
     */
    twostate predicate ValueRead(e: Event, status: Status)
      reads this
    {
      var r := CellValueText(e.text, old(isSharedString), old(numberFormatToApply), sharedStringItems, formatDate);
      && hasCellValue
      && (r.Err? ==>
            && status == Failure(r.error)
            && unchanged(this`headers, this`headerLabels, this`columnsToSkip, this`lineBuilder))
      && (r.Ok? ==> status == Success && WroteCellText(r.value))
    }

    /** A cell value: its text (see CellValueText) is written into the line. */
    method HandleCellValueStartElement(e: Event) returns (status: Status)
      requires Valid()
      modifies this`hasCellValue, this`headers, this`headerLabels, this`columnsToSkip, this`lineBuilder
      ensures Valid()
      ensures ValueRead(e, status)
      ensures unchanged(this`sheetEndColumnIndex, this`currColumnIndex, this`cellColumnIndex, this`rowCount,
        this`numberFormatToApply, this`isSharedString, this`lines, this`emitted)
    {
      hasCellValue := true;
      var r := CellValueText(e.text, isSharedString, numberFormatToApply, sharedStringItems, formatDate);
      if r.Err? {
        return Failure(r.error);
      }
      WriteCellText(r.value);
      status := Success;
    }

    /** The effect of an inline string: the cell has a value and its sanitized text is written. */
    twostate predicate InlineStringRead(e: Event)
      reads this
    {
      && hasCellValue
      && WroteCellText(Sanitize(e.text))
    }

    /** An inline string: its sanitized text is written into the line; no number format applies. */
    method HandleInlineStringStartElement(e: Event)
      requires Valid()
      modifies this`hasCellValue, this`headers, this`headerLabels, this`columnsToSkip, this`lineBuilder
      ensures Valid()
      ensures InlineStringRead(e)
      ensures unchanged(this`sheetEndColumnIndex, this`currColumnIndex, this`cellColumnIndex, this`rowCount,
        this`numberFormatToApply, this`isSharedString, this`lines, this`emitted)
    {
      hasCellValue := true;
      var text := Sanitize(e.text);
      WriteCellText(text);
    }

    /**
     * The effect of a cell start: the column advances by one; a missing `r`
     * fails; otherwise an empty field is written for every column left out
     * before the cell's own, and its type and number format are recorded.
     */
    twostate predicate CellOpened(e: Event, status: Status)
      reads this
    {
      && ("r" !in e.attributes ==>
            && status == Failure(CellRefMissing)
            && currColumnIndex == old(currColumnIndex) + 1
            && unchanged(this`cellColumnIndex, this`lineBuilder, this`isSharedString, this`numberFormatToApply))
      && ("r" in e.attributes ==>
            && cellColumnIndex == ColumnValue(ColumnName(e.attributes["r"]))
            && currColumnIndex == Max(old(currColumnIndex) + 1, cellColumnIndex)
            && lineBuilder == old(lineBuilder) + GapPieces(old(currColumnIndex) + 1, cellColumnIndex, columnsToSkip, sheetEndColumnIndex)
            && isSharedString == (old(isSharedString) || IsSharedStringType(e.attributes))
            && (isSharedString ==> status == Success && numberFormatToApply == old(numberFormatToApply))
            && (!isSharedString ==>
                  match LookupStyle(e.attributes, cellFormats)
                  case NoStyle => status == Success && numberFormatToApply == old(numberFormatToApply)
                  case StyleFormat(id) => status == Success && numberFormatToApply == id
                  case BadStyle => status == Failure(StyleIndexInvalid) && numberFormatToApply == old(numberFormatToApply)))
    }

    /**
     * Opens a cell: the column advances by one, an empty field is written for
     * every column the worksheet left out before the cell's own column, and the
     * cell's type and number format are recorded.
     */
    method HandleCellStartElement(e: Event) returns (status: Status)
      requires RowAvoidsSkipped()
      modifies this`currColumnIndex, this`cellColumnIndex, this`lineBuilder, this`isSharedString, this`numberFormatToApply
      ensures RowAvoidsSkipped()
      ensures CellOpened(e, status)
      ensures unchanged(this`sheetEndColumnIndex, this`rowCount, this`hasCellValue, this`headers,
        this`columnsToSkip, this`lines, this`headerLabels, this`emitted)
    {
      currColumnIndex := currColumnIndex + 1;
      if "r" !in e.attributes {
        return Failure(CellRefMissing);
      }
      var cellColumnName := ColumnName(e.attributes["r"]);
      cellColumnIndex := ColumnIndexFromName(cellColumnName);
      if currColumnIndex != cellColumnIndex {
        FillMissingCells(cellColumnIndex);
      }
      status := ReadCellType(e.attributes);
    }

    /**
     * Cells the worksheet left out before a cell: an empty field for every
     * column from the current one up to (not including) `to` that is not
     * skipped; the current column ends at `to` when it was before it.
     */
    method FillMissingCells(to: int)
      requires RowAvoidsSkipped()
      modifies this`currColumnIndex, this`lineBuilder
      ensures RowAvoidsSkipped()
      ensures currColumnIndex == Max(old(currColumnIndex), to)
      ensures lineBuilder == old(lineBuilder) + GapPieces(old(currColumnIndex), to, columnsToSkip, sheetEndColumnIndex)
    {
      var curr, line := currColumnIndex, lineBuilder;
      while curr < to
        invariant old(currColumnIndex) <= curr <= Max(old(currColumnIndex), to)
        invariant line == old(lineBuilder) + GapPieces(old(currColumnIndex), curr, columnsToSkip, sheetEndColumnIndex)
      {
        GapPiecesExtend(old(lineBuilder), old(currColumnIndex), curr, columnsToSkip, sheetEndColumnIndex);
        if curr !in columnsToSkip {
          line := line + [Piece(curr, "", curr != sheetEndColumnIndex)];
        }
        curr := curr + 1;
      }
      if rowCount > 0 {
        GapPiecesAvoid(old(lineBuilder), old(currColumnIndex), curr, columnsToSkip, sheetEndColumnIndex);
      }
      currColumnIndex, lineBuilder := curr, line;
    }

    /**
     * A cell's type and style: a shared-string cell stays one until the cell
     * closes; any other cell takes the number format of the style it names.
     */
    method ReadCellType(attributes: map<string, string>) returns (status: Status)
      modifies this`isSharedString, this`numberFormatToApply
      ensures isSharedString == (old(isSharedString) || IsSharedStringType(attributes))
      ensures isSharedString ==> status == Success && numberFormatToApply == old(numberFormatToApply)
      ensures !isSharedString ==>
        match LookupStyle(attributes, cellFormats)
        case NoStyle => status == Success && numberFormatToApply == old(numberFormatToApply)
        case StyleFormat(id) => status == Success && numberFormatToApply == id
        case BadStyle => status == Failure(StyleIndexInvalid) && numberFormatToApply == old(numberFormatToApply)
    {
      if IsSharedStringType(attributes) {
        isSharedString := true;
      }
      status := Success;
      if !isSharedString {
        match LookupStyle(attributes, cellFormats)
        case NoStyle =>
        case StyleFormat(id) => numberFormatToApply := id;
        case BadStyle => status := Failure(StyleIndexInvalid);
      }
    }

    /** The effect of a cell end: a cell without a value gets an empty field unless its column is skipped, and the cell flags reset. */
    twostate predicate CellClosed()
      reads this
    {
      && lineBuilder == old(lineBuilder) +
           (if !old(hasCellValue) && currColumnIndex !in columnsToSkip
            then [Piece(currColumnIndex, "", currColumnIndex != sheetEndColumnIndex)] else [])
      && !hasCellValue && !isSharedString && numberFormatToApply == -1
    }

    /** Closes a cell: a cell without a value gets an empty field, and the per-cell flags are reset. */
    method HandleCellEndElement()
      requires RowAvoidsSkipped()
      modifies this`lineBuilder, this`hasCellValue, this`isSharedString, this`numberFormatToApply
      ensures RowAvoidsSkipped()
      ensures CellClosed()
      ensures unchanged(this`sheetEndColumnIndex, this`currColumnIndex, this`cellColumnIndex, this`rowCount,
        this`headers, this`columnsToSkip, this`lines, this`headerLabels, this`emitted)
    {
      if !hasCellValue {
        if currColumnIndex !in columnsToSkip {
          lineBuilder := lineBuilder + [Piece(currColumnIndex, "", currColumnIndex != sheetEndColumnIndex)];
        }
      }
      hasCellValue := false;
      isSharedString := false;
      numberFormatToApply := -1;
    }
  }
}
