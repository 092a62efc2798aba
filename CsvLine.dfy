/**
 * The text of one output line. The exporter appends quoted fields to a line
 * buffer one at a time, each followed by the column delimiter unless it sits
 * in the column the test singles out; at the end of the row one dangling
 * delimiter is trimmed and a line feed appended. A `Piece` records one such
 * field; `Render` is the buffer the pieces produce.
 */
module CsvLine {

  const TextDelimiter: char := '"'
  const ColumnDelimiter: char := ','

  /** One field appended to the line: its column, its text and whether a delimiter follows it. */
  datatype Piece = Piece(column: int, text: string, delimited: bool)

  function Quote(text: string): string {
    [TextDelimiter] + text + [TextDelimiter]
  }

  function FieldText(p: Piece): string {
    Quote(p.text) + (if p.delimited then [ColumnDelimiter] else [])
  }

  /** The buffer holding the given fields, appended in order. */
  function Render(pieces: seq<Piece>): (r: string)
    ensures |r| >= 2 * |pieces|
  {
    if |pieces| == 0 then [] else Render(pieces[..|pieces| - 1]) + FieldText(pieces[|pieces| - 1])
  }

  lemma RenderAppend(pieces: seq<Piece>, p: Piece)
    ensures Render(pieces + [p]) == Render(pieces) + FieldText(p)
  {
    assert (pieces + [p])[..|pieces|] == pieces;
  }

  /** Drops one trailing column delimiter, if there is one. */
  function TrimDelimiter(s: string): string {
    if |s| > 0 && s[|s| - 1] == ColumnDelimiter then s[..|s| - 1] else s
  }

  /** A line ends with a line feed, and the character before it is never the column delimiter. */
  predicate IsCsvLine(line: string) {
    |line| >= 1 && line[|line| - 1] == '\n' && (|line| >= 2 ==> line[|line| - 2] != ColumnDelimiter)
  }

  /** Trimming the buffer leaves it ending in a field's closing quote, or empty. */
  lemma TrimmedRenderEndsInQuote(pieces: seq<Piece>)
    ensures var t := TrimDelimiter(Render(pieces)); |t| == 0 || t[|t| - 1] == TextDelimiter
  {
    if pieces != [] {
      var last := pieces[|pieces| - 1];
      var s := Render(pieces);
      assert s == Render(pieces[..|pieces| - 1]) + FieldText(last);
      if last.delimited {
        assert s[..|s| - 1] == Render(pieces[..|pieces| - 1]) + Quote(last.text);
      }
    }
  }

  /** The line written for a row whose buffer holds the given fields: it is always a CSV line. */
  function EmitLine(pieces: seq<Piece>): (r: string)
    ensures IsCsvLine(r)
  {
    TrimmedRenderEndsInQuote(pieces);
    TrimDelimiter(Render(pieces)) + "\n"
  }

  /** The line ends with the last field's quoted text, whether or not a delimiter followed it in the buffer. */
  lemma EmitLineLastField(init: seq<Piece>, last: Piece)
    ensures EmitLine(init + [last]) == Render(init) + Quote(last.text) + "\n"
  {
    RenderAppend(init, last);
    var s := Render(init + [last]);
    var kept := Render(init) + Quote(last.text);
    if last.delimited {
      assert s == kept + [ColumnDelimiter];
      assert TrimDelimiter(s) == kept;
    } else {
      assert s == kept && kept[|kept| - 1] == TextDelimiter;
      assert TrimDelimiter(s) == kept;
    }
  }

  /** The fields' quoted texts joined by the column delimiter: what a well-formed line holds. */
  function JoinFields(pieces: seq<Piece>): string {
    if |pieces| == 0 then []
    else if |pieces| == 1 then Quote(pieces[0].text)
    else JoinFields(pieces[..|pieces| - 1]) + [ColumnDelimiter] + Quote(pieces[|pieces| - 1].text)
  }

  /**
   * When every field but the last is followed by a delimiter, the trimmed
   * buffer is exactly the delimiter-joined quoted fields.
   */
  lemma {:induction false} TrimmedRenderJoins(pieces: seq<Piece>)
    requires forall i :: 0 <= i < |pieces| - 1 ==> pieces[i].delimited
    ensures TrimDelimiter(Render(pieces)) == JoinFields(pieces)
  {
    if pieces != [] {
      var n := |pieces|;
      var init, last := pieces[..n - 1], pieces[n - 1];
      var s := Render(pieces);
      assert s == Render(init) + FieldText(last);
      if n == 1 {
        assert Render(init) == [];
      } else {
        TrimmedRenderJoins(init);
        var r := Render(init);
        assert r == Render(init[..n - 2]) + FieldText(init[n - 2]);
        assert init[n - 2].delimited;
        assert r != [] && r[|r| - 1] == ColumnDelimiter;
        assert r == JoinFields(init) + [ColumnDelimiter];
      }
      if last.delimited {
        assert TrimDelimiter(s) == Render(init) + Quote(last.text);
      } else {
        assert TrimDelimiter(s) == s;
      }
    }
  }

  /** The written line of such a row is the joined fields followed by a line feed. */
  lemma EmitLineJoins(pieces: seq<Piece>)
    requires forall i :: 0 <= i < |pieces| - 1 ==> pieces[i].delimited
    ensures EmitLine(pieces) == JoinFields(pieces) + "\n"
  {
    TrimmedRenderJoins(pieces);
  }

  /**
   * The empty fields the exporter writes for the columns from `from` up to
   * (not including) `to` that are not in `skip`: the field of column c is
   * followed by a delimiter unless c is `last`.
   */
  function GapPieces(from: int, to: int, skip: seq<int>, last: int): (r: seq<Piece>)
    decreases to - from
    ensures |r| <= (if to <= from then 0 else to - from)
  {
    if to <= from then []
    else GapPieces(from, to - 1, skip, last) + (if to - 1 in skip then [] else [Piece(to - 1, "", to - 1 != last)])
  }

  /**
   * Every gap field is empty, stands in a column of the range that is not
   * skipped, and carries a delimiter unless it is in column `last`.
   */
  lemma {:induction false} GapPiecesFields(from: int, to: int, skip: seq<int>, last: int)
    decreases to - from
    ensures forall i :: 0 <= i < |GapPieces(from, to, skip, last)| ==>
      && from <= GapPieces(from, to, skip, last)[i].column < to
      && GapPieces(from, to, skip, last)[i].column !in skip
      && GapPieces(from, to, skip, last)[i] ==
           Piece(GapPieces(from, to, skip, last)[i].column, "", GapPieces(from, to, skip, last)[i].column != last)
  {
    if from < to {
      GapPiecesFields(from, to - 1, skip, last);
      var pieces := GapPieces(from, to, skip, last);
      var init := GapPieces(from, to - 1, skip, last);
      forall i | 0 <= i < |init|
        ensures pieces[i] == init[i]
      {
      }
    }
  }

  /** Gap fields never stand in a skipped column, so appending them keeps a line clear of those columns. */
  lemma GapPiecesAvoid(pieces: seq<Piece>, from: int, to: int, skip: seq<int>, last: int)
    requires AvoidsColumns(pieces, skip)
    ensures AvoidsColumns(pieces + GapPieces(from, to, skip, last), skip)
  {
    GapPiecesFields(from, to, skip, last);
    var all := pieces + GapPieces(from, to, skip, last);
    forall i | |pieces| <= i < |all|
      ensures all[i].column !in skip
    {
      assert all[i] == GapPieces(from, to, skip, last)[i - |pieces|];
    }
  }

  /** Extending the range by one column adds at most that column's field to a line ending in the gap. */
  lemma GapPiecesExtend(line: seq<Piece>, from: int, to: int, skip: seq<int>, last: int)
    requires from <= to
    ensures line + GapPieces(from, to + 1, skip, last) ==
      line + GapPieces(from, to, skip, last) + (if to in skip then [] else [Piece(to, "", to != last)])
  {
    var step := if to in skip then [] else [Piece(to, "", to != last)];
    assert GapPieces(from, to + 1, skip, last) == GapPieces(from, to, skip, last) + step;
    assert line + (GapPieces(from, to, skip, last) + step) == line + GapPieces(from, to, skip, last) + step;
  }

  /** The gap fields come in strictly increasing column order. */
  lemma {:induction false} GapPiecesIncreasing(from: int, to: int, skip: seq<int>, last: int)
    decreases to - from
    ensures forall i, j :: 0 <= i < j < |GapPieces(from, to, skip, last)| ==>
      GapPieces(from, to, skip, last)[i].column < GapPieces(from, to, skip, last)[j].column
  {
    if from < to {
      GapPiecesIncreasing(from, to - 1, skip, last);
      GapPiecesFields(from, to - 1, skip, last);
      var pieces := GapPieces(from, to, skip, last);
      var init := GapPieces(from, to - 1, skip, last);
      forall i, j | 0 <= i < j < |pieces|
        ensures pieces[i].column < pieces[j].column
      {
        assert pieces[i] == init[i];
        if j < |init| {
          assert pieces[j] == init[j];
          assert init[i].column < init[j].column;
        } else {
          assert pieces[j].column == to - 1;
          assert init[i].column < to - 1;
        }
      }
    }
  }

  /** Every column in range that is not skipped gets its field. */
  lemma {:induction false} GapPiecesCover(from: int, to: int, skip: seq<int>, last: int, c: int)
    decreases to - from
    requires from <= c < to && c !in skip
    ensures exists i :: 0 <= i < |GapPieces(from, to, skip, last)| && GapPieces(from, to, skip, last)[i].column == c
  {
    var pieces := GapPieces(from, to, skip, last);
    var init := GapPieces(from, to - 1, skip, last);
    if c == to - 1 {
      assert pieces[|pieces| - 1].column == c;
    } else {
      GapPiecesCover(from, to - 1, skip, last, c);
      var i :| 0 <= i < |init| && init[i].column == c;
      assert pieces[i] == init[i];
    }
  }

  /** The columns from `from` up to (not including) `to`, in order. */
  function Range(from: int, to: int): seq<int>
    decreases to - from
  {
    if to <= from then [] else Range(from, to - 1) + [to - 1]
  }

  /** Extending the range by one column appends that column. */
  lemma RangeExtend(columns: seq<int>, from: int, to: int)
    requires from <= to
    ensures columns + Range(from, to + 1) == columns + Range(from, to) + [to]
  {
    assert columns + (Range(from, to) + [to]) == columns + Range(from, to) + [to];
  }

  lemma {:induction false} RangeElements(from: int, to: int)
    decreases to - from
    ensures |Range(from, to)| == if to <= from then 0 else to - from
    ensures forall i :: 0 <= i < |Range(from, to)| ==> Range(from, to)[i] == from + i
  {
    if from < to {
      RangeElements(from, to - 1);
    }
  }

  /** No field of the line stands in one of the given columns. */
  predicate AvoidsColumns(pieces: seq<Piece>, columns: seq<int>) {
    forall i :: 0 <= i < |pieces| ==> pieces[i].column !in columns
  }
}
