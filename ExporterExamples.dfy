/**
 * Worked worksheets: the exporter is started on a sheet and each reader event
 * is dispatched in turn, as ExportWorksheetPart does, and the written lines
 * follow from the handlers' contracts alone.
 */
module ExporterExamples {
  import opened Optional
  import opened ColumnAddress
  import opened CellText
  import opened Headers
  import opened CsvLine
  import opened Exporter

  /** The column of a one-letter, one-digit cell address. */
  lemma SmallAddress(letter: char, digit: char)
    requires IsColumnLetter(letter) && IsDigit(digit)
    ensures ColumnValue(ColumnName([letter, digit])) == letter as int - 64
  {
    CellAddressColumnName([letter], [digit]);
    assert [letter] + [digit] == [letter, digit];
    assert [letter][..0] == [];
  }

  /** The dimension "A1:" followed by `last`: the sheet's last column is set and nothing else changes. */
  method OpenDimension(exporter: XlsxToCsvExporter, last: string)
    requires exporter.Valid() && ':' !in last
    modifies exporter
    ensures exporter.Valid()
    ensures exporter.sheetEndColumnIndex == ColumnValue(ColumnName(last))
    ensures unchanged(exporter`currColumnIndex, exporter`rowCount, exporter`numberFormatToApply,
      exporter`hasCellValue, exporter`isSharedString, exporter`headers, exporter`columnsToSkip,
      exporter`lineBuilder, exporter`lines, exporter`headerLabels, exporter`emitted)
  {
    var reference := "A1:" + last;
    SplitAround("A1", last, ':');
    assert "A1" + [':'] + last == reference;
    var status := exporter.HandleEvent(Event(Dimension, true, map["ref" := reference], ""));
  }

  /** A cell in the column after the current one, with no type or style: the column advances and nothing is written. */
  method OpenCell(exporter: XlsxToCsvExporter, address: string)
    requires exporter.Valid()
    requires ColumnValue(ColumnName(address)) == exporter.currColumnIndex + 1
    modifies exporter
    ensures exporter.Valid()
    ensures exporter.currColumnIndex == old(exporter.currColumnIndex) + 1
    ensures unchanged(exporter`sheetEndColumnIndex, exporter`rowCount, exporter`numberFormatToApply,
      exporter`hasCellValue, exporter`isSharedString, exporter`headers, exporter`columnsToSkip,
      exporter`lineBuilder, exporter`lines, exporter`headerLabels, exporter`emitted)
  {
    var attributes := map["r" := address];
    assert !IsSharedStringType(attributes) && LookupStyle(attributes, exporter.cellFormats) == NoStyle;
    assert GapPieces(exporter.currColumnIndex + 1, exporter.currColumnIndex + 1, exporter.columnsToSkip, exporter.sheetEndColumnIndex) == [];
    var status := exporter.HandleEvent(Event(Cell, true, attributes, ""));
    assert exporter.lineBuilder == old(exporter.lineBuilder) + [];
    assert exporter.lineBuilder == old(exporter.lineBuilder);
    assert unchanged(exporter`lineBuilder);
  }

  /**
   * A header-row value without line feeds or quotes, in a cell that is not a
   * shared string and has no number format: its label is registered, an empty
   * one marks the column as skipped, and the written label is appended unless
   * the column is skipped.
   */
  method ReadHeaderValue(exporter: XlsxToCsvExporter, text: string)
    requires exporter.Valid() && exporter.rowCount == 0
    requires !exporter.isSharedString && exporter.numberFormatToApply == -1
    requires forall i :: 0 <= i < |text| ==> text[i] != '\n' && text[i] != '"'
    modifies exporter
    ensures exporter.Valid() && exporter.hasCellValue
    ensures unchanged(exporter`sheetEndColumnIndex, exporter`currColumnIndex, exporter`rowCount,
      exporter`numberFormatToApply, exporter`isSharedString, exporter`lines, exporter`emitted)
    ensures exporter.headers == RegisterHeader(old(exporter.headers), text).headers
    ensures exporter.columnsToSkip == old(exporter.columnsToSkip) + (if text == "" then [exporter.currColumnIndex] else [])
    ensures exporter.lineBuilder == old(exporter.lineBuilder) +
      (if exporter.currColumnIndex in exporter.columnsToSkip then []
       else [Piece(exporter.currColumnIndex, RegisterHeader(old(exporter.headers), text).written,
                   exporter.currColumnIndex != exporter.sheetEndColumnIndex)])
  {
    SanitizeUnchanged(text);
    var status := exporter.HandleEvent(Event(CellValue, true, map[], text));
    status := exporter.HandleEvent(Event(CellValue, false, map[], ""));
  }

  /** Closing a cell that had a value: nothing is written and the cell flags reset. */
  method CloseValueCell(exporter: XlsxToCsvExporter)
    requires exporter.Valid() && exporter.hasCellValue
    modifies exporter
    ensures exporter.Valid()
    ensures !exporter.hasCellValue && !exporter.isSharedString && exporter.numberFormatToApply == -1
    ensures unchanged(exporter`sheetEndColumnIndex, exporter`currColumnIndex, exporter`rowCount,
      exporter`headers, exporter`columnsToSkip, exporter`lineBuilder, exporter`lines, exporter`emitted)
  {
    var status := exporter.HandleEvent(Event(Cell, false, map[], ""));
    assert exporter.lineBuilder == old(exporter.lineBuilder) + [];
    assert exporter.lineBuilder == old(exporter.lineBuilder);
  }

  /** A header-row cell in the column after the current one, holding a value without line feeds or quotes. */
  method HeaderValueCell(exporter: XlsxToCsvExporter, address: string, text: string)
    requires exporter.Valid() && exporter.rowCount == 0
    requires ColumnValue(ColumnName(address)) == exporter.currColumnIndex + 1
    requires !exporter.isSharedString && exporter.numberFormatToApply == -1
    requires forall i :: 0 <= i < |text| ==> text[i] != '\n' && text[i] != '"'
    modifies exporter
    ensures exporter.Valid()
    ensures exporter.currColumnIndex == old(exporter.currColumnIndex) + 1
    ensures unchanged(exporter`sheetEndColumnIndex, exporter`rowCount, exporter`lines, exporter`emitted)
    ensures !exporter.isSharedString && exporter.numberFormatToApply == -1
    ensures exporter.headers == RegisterHeader(old(exporter.headers), text).headers
    ensures exporter.columnsToSkip == old(exporter.columnsToSkip) + (if text == "" then [exporter.currColumnIndex] else [])
    ensures exporter.lineBuilder == old(exporter.lineBuilder) +
      (if exporter.currColumnIndex in exporter.columnsToSkip then []
       else [Piece(exporter.currColumnIndex, RegisterHeader(old(exporter.headers), text).written,
                   exporter.currColumnIndex != exporter.sheetEndColumnIndex)])
  {
    OpenCell(exporter, address);
    ReadHeaderValue(exporter, text);
    CloseValueCell(exporter);
  }

  /** The line of the three header fields: the last has no delimiter after it, so nothing is trimmed. */
  lemma HeaderLine()
    ensures EmitLine([Piece(1, "Name", true), Piece(2, "Name2", true), Piece(4, "Age", false)])
      == "\"Name\",\"Name2\",\"Age\"\n"
  {
    var p1, p2, p3 := Piece(1, "Name", true), Piece(2, "Name2", true), Piece(4, "Age", false);
    assert Render([p1]) == "\"Name\"," by {
      RenderAppend([], p1);
      assert [] + [p1] == [p1];
    }
    assert Render([p1, p2]) == "\"Name\",\"Name2\"," by {
      RenderAppend([p1], p2);
      assert [p1] + [p2] == [p1, p2];
    }
    assert EmitLine([p1, p2, p3]) == Render([p1, p2]) + Quote("Age") + "\n" by {
      assert [p1, p2, p3] == [p1, p2] + [p3];
      EmitLineLastField([p1, p2], p3);
    }
  }

  /** A fresh exporter on the sheet "A1:D1", inside its first row. */
  method OpenHeaderRow() returns (exporter: XlsxToCsvExporter)
    ensures fresh(exporter) && exporter.Valid()
    ensures exporter.sheetEndColumnIndex == 4 && exporter.currColumnIndex == 0 && exporter.rowCount == 0
    ensures !exporter.isSharedString && exporter.numberFormatToApply == -1
    ensures exporter.headers == map[] && exporter.columnsToSkip == [] && exporter.lineBuilder == [] && exporter.lines == []
  {
    exporter := new XlsxToCsvExporter([], [], (text: string, id: int) => None);
    exporter.StartSheet();
    SmallAddress('D', '1');
    OpenDimension(exporter, "D1");
    var status := exporter.HandleEvent(Event(Row, true, map[], ""));
  }

  /** The label "Name" in cell A1 is registered once and written as it is. */
  method ReadFirstLabel(exporter: XlsxToCsvExporter)
    requires exporter.Valid()
    requires exporter.sheetEndColumnIndex == 4 && exporter.currColumnIndex == 0 && exporter.rowCount == 0
    requires !exporter.isSharedString && exporter.numberFormatToApply == -1
    requires exporter.headers == map[] && exporter.columnsToSkip == [] && exporter.lineBuilder == [] && exporter.lines == []
    modifies exporter
    ensures exporter.Valid()
    ensures exporter.sheetEndColumnIndex == 4 && exporter.currColumnIndex == 1 && exporter.rowCount == 0
    ensures !exporter.isSharedString && exporter.numberFormatToApply == -1
    ensures exporter.headers == map["Name" := 1] && exporter.columnsToSkip == [] && exporter.lines == []
    ensures exporter.lineBuilder == [Piece(1, "Name", true)]
  {
    SmallAddress('A', '1');
    HeaderValueCell(exporter, "A1", "Name");
  }

  /** The label "Name" again, in cell B1: its count rises to 2 and it is written "Name2". */
  method ReadRepeatedLabel(exporter: XlsxToCsvExporter)
    requires exporter.Valid()
    requires exporter.sheetEndColumnIndex == 4 && exporter.currColumnIndex == 1 && exporter.rowCount == 0
    requires !exporter.isSharedString && exporter.numberFormatToApply == -1
    requires exporter.headers == map["Name" := 1] && exporter.columnsToSkip == [] && exporter.lines == []
    modifies exporter
    ensures exporter.Valid()
    ensures exporter.sheetEndColumnIndex == 4 && exporter.currColumnIndex == 2 && exporter.rowCount == 0
    ensures !exporter.isSharedString && exporter.numberFormatToApply == -1
    ensures exporter.headers == map["Name" := 2] && exporter.columnsToSkip == [] && exporter.lines == []
    ensures exporter.lineBuilder == old(exporter.lineBuilder) + [Piece(2, "Name2", true)]
  {
    SmallAddress('B', '1');
    assert DecimalString(2) == "2";
    assert RegisterHeader(map["Name" := 1], "Name") == Registration(map["Name" := 2], "Name2");
    HeaderValueCell(exporter, "B1", "Name");
  }

  /** The labels "" and "Age" in cells C1 and D1: column C is skipped and D is written without a delimiter. */
  method ReadSkippedAndLastLabel(exporter: XlsxToCsvExporter)
    requires exporter.Valid()
    requires exporter.sheetEndColumnIndex == 4 && exporter.currColumnIndex == 2 && exporter.rowCount == 0
    requires !exporter.isSharedString && exporter.numberFormatToApply == -1
    requires exporter.headers == map["Name" := 2] && exporter.columnsToSkip == [] && exporter.lines == []
    modifies exporter
    ensures exporter.Valid()
    ensures exporter.currColumnIndex == 4 && exporter.rowCount == 0 && exporter.lines == []
    ensures exporter.columnsToSkip == [3]
    ensures exporter.lineBuilder == old(exporter.lineBuilder) + [Piece(4, "Age", false)]
  {
    SmallAddress('C', '1');
    HeaderValueCell(exporter, "C1", "");
    assert exporter.columnsToSkip == [] + [3];
    assert exporter.lineBuilder == old(exporter.lineBuilder) + [];

    HeaderValueCell(exporter, "D1", "Age");
  }

  /** Ending the first row writes the buffer's line: the first row gets no padding. */
  method EndFirstRow(exporter: XlsxToCsvExporter)
    requires exporter.Valid() && exporter.rowCount == 0
    modifies exporter
    ensures exporter.lines == old(exporter.lines) + [EmitLine(old(exporter.lineBuilder))]
  {
    var status := exporter.HandleEvent(Event(Row, false, map[], ""));
    assert old(exporter.lineBuilder) + [] == old(exporter.lineBuilder);
  }

  /**
   * The sheet "A1:D1" whose one row holds the labels "Name", "Name", "" and
   * "Age" is written as one line: the repeated label gets its count, and the
   * column with the empty label is left out without a stray delimiter.
   */
  method HeaderRowExample() returns (lines: seq<string>)
    ensures lines == ["\"Name\",\"Name2\",\"Age\"\n"]
  {
    var exporter := OpenHeaderRow();
    ReadFirstLabel(exporter);
    ReadRepeatedLabel(exporter);
    ReadSkippedAndLastLabel(exporter);
    assert exporter.lineBuilder == [Piece(1, "Name", true), Piece(2, "Name2", true), Piece(4, "Age", false)];
    EndFirstRow(exporter);
    HeaderLine();
    lines := exporter.lines;
  }
}
