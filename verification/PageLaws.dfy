/** What stands where on the pages of a table: every title, heading and cell, at its place in
    points from the lower left corner of an 842 by 595 page. */
module PageLaws {
  import opened PdfText
  import opened PdfWriter

  /** A decimal text with two places that is nearest to the value. */
  ghost predicate Prints(s: string, value: real) {
    exists sign: string, whole: string, cents: string :: PrintsAs(s, value, sign, whole, cents)
  }

  ghost predicate PrintsAs(s: string, value: real, sign: string, whole: string, cents: string) {
    && s == sign + whole + "." + cents && AllDigits(whole) && AllDigits(cents) && |cents| == 2
    && (if value >= 0.0 then sign == "" else sign == "-")
    && var hundredths := (NatValue(whole) * 100 + NatValue(cents)) as real;
       var size := if value >= 0.0 then value else -value;
       hundredths - 0.5 <= size * 100.0 < hundredths + 0.5
  }

  /** The page sets this text at this place and size. */
  ghost predicate Shows(page: string, x: real, y: real, size: real, text: string) {
    exists a, b, sx, sy, ss :: ShowsAs(page, x, y, size, text, a, b, sx, sy, ss)
  }

  ghost predicate ShowsAs(page: string, x: real, y: real, size: real, text: string, a: string, b: string, sx: string, sy: string, ss: string) {
    && Prints(sx, x) && Prints(sy, y) && Prints(ss, size)
    && page == a + ("BT\n/F1 " + ss + " Tf\n1 0 0 1 " + sx + " " + sy + " Tm\n(" + Escape(text) + ") Tj\nET\n") + b
  }

  /** The text cut to what fits its column: at least four characters, dots at the end of a cut one. */
  predicate CutFor(value: string, colWidth: real, size: real, shown: string)
    requires size > 0.0
  {
    var fit := (colWidth / (size * 0.55)).Floor;
    var room := if fit < 4 then 4 else fit;
    if |value| <= room then shown == value else |shown| == room && shown[..room - 3] == value[..room - 3] && shown[room - 3..] == "..."
  }

  // ----- one text

  lemma FixedPrints(value: real)
    ensures Prints(Fixed(value), value)
  {
    var size := if value < 0.0 then -value else value;
    var h := (size * 100.0 + 0.5).Floor;
    var whole, cents := Decimal(h / 100), [Digit(h % 100 / 10), Digit(h % 10)];
    DecimalReads(h / 100);
    TwoDigits(h % 100 / 10, h % 10);
    assert h == (h / 100) * 100 + (h % 100 / 10) * 10 + h % 10;
    assert PrintsAs(Fixed(value), value, if value < 0.0 then "-" else "", whole, cents);
  }

  lemma TwoDigits(a: nat, b: nat)
    requires a < 10 && b < 10
    ensures AllDigits([Digit(a), Digit(b)]) && NatValue([Digit(a), Digit(b)]) == 10 * a + b
  {
    var s, t := [Digit(a), Digit(b)], [Digit(a)];
    assert DigitValue(Digit(a)) == a && DigitValue(Digit(b)) == b;
    assert t[..0] == [] && NatValue(t) == a;
    assert s[..1] == t && s[1] == Digit(b);
  }

  lemma {:induction false} PrintedParts(ops: seq<TextOp>, i: nat) returns (a: string, b: string)
    requires i < |ops|
    ensures Printed(ops) == a + PrintedOp(ops[i]) + b
  {
    hide PrintedOp;
    var n := |ops| - 1;
    if i == n {
      a, b := Printed(ops[..n]), "";
    } else {
      a, b := PrintedParts(ops[..n], i);
      var tail := PrintedOp(ops[n]);
      b := b + tail;
    }
  }

  lemma PrintedShows(ops: seq<TextOp>, op: TextOp)
    requires op in ops
    ensures Shows(Printed(ops), op.x, op.y, op.size, op.text)
  {
    hide Fixed, Escape, Prints, Printed;
    var i :| 0 <= i < |ops| && ops[i] == op;
    var a, b := PrintedParts(ops, i);
    FixedPrints(op.x);
    FixedPrints(op.y);
    FixedPrints(op.size);
    OpIs(op);
    assert ShowsAs(Printed(ops), op.x, op.y, op.size, op.text, a, b, Fixed(op.x), Fixed(op.y), Fixed(op.size));
  }

  lemma OpIs(op: TextOp)
    ensures PrintedOp(op) == "BT\n/F1 " + Fixed(op.size) + " Tf\n1 0 0 1 " + Fixed(op.x) + " " + Fixed(op.y) + " Tm\n(" + Escape(op.text) + ") Tj\nET\n"
  {
    hide Fixed, Escape;
  }

  lemma TruncateCuts(value: string, colWidth: real, size: real)
    requires size > 0.0
    ensures CutFor(value, colWidth, size, Truncate(value, MaxChars(colWidth, size)))
  {
  }

  // ----- one page

  function LineY(top: real, r: nat): real {
    top - 16.0 * r as real
  }

  lemma {:induction false} RowsHold(rows: seq<Row>, top: real, colWidth: real, r: nat, n: nat)
    requires r < |rows| && n < |rows[r]|
    ensures Cell(rows[r][n], n, 36.0, LineY(top, r), colWidth, 8.0) in TableRows(rows, top, colWidth)
  {
    hide Cell;
    var last := |rows| - 1;
    if r < last {
      RowsHold(rows[..last], top, colWidth, r, n);
    } else {
      var own := TableRow(rows[last], 36.0, top - last as real * 16.0, colWidth, 8.0);
      assert own[n] == Cell(rows[r][n], n, 36.0, LineY(top, r), colWidth, 8.0);
    }
  }

  /** The columns share the width between the margins. */
  predicate ColumnsAre(header: Row, rows: seq<Row>, columns: nat) {
    columns == if header != [] then |header| else if rows != [] then |rows[0]| else 0
  }

  lemma PageHolds(title: string, header: Row, rows: seq<Row>, columns: nat)
    requires ColumnsAre(header, rows, columns)
    ensures Shows(Printed(Page(title, header, rows)), 36.0, 559.0, 14.0, title)
    ensures columns == 0 ==> Shows(Printed(Page(title, header, rows)), 36.0, 531.0, 10.0, "No rows found")
  {
    hide Shows, Printed, TableRow, TableRows;
    var ops := Page(title, header, rows);
    assert ops[0] == TextOp(36.0, 559.0, 14.0, title);
    PrintedShows(ops, ops[0]);
    if columns == 0 {
      assert ops[1] == TextOp(36.0, 531.0, 10.0, "No rows found");
      PrintedShows(ops, ops[1]);
    }
  }

  lemma PageParts(title: string, header: Row, rows: seq<Row>, columns: nat, width: real)
    requires ColumnsAre(header, rows, columns) && columns > 0 && width == 770.0 / columns as real
    ensures forall op :: op in TableRow(header, 36.0, 531.0, width, 9.0) || op in TableRows(rows, 515.0, width) ==> op in Page(title, header, rows)
  {
    hide TableRow, TableRows;
  }

  lemma HeadingShown(title: string, header: Row, rows: seq<Row>, n: nat, width: real) returns (shown: string)
    requires n < |header| && width == 770.0 / |header| as real
    ensures CutFor(header[n], width, 9.0, shown) && Shows(Printed(Page(title, header, rows)), ColumnX(36.0, n, width), 531.0, 9.0, shown)
  {
    hide Shows, Printed, Page, CutFor, ColumnX;
    shown := Truncate(header[n], MaxChars(width, 9.0));
    TruncateCuts(header[n], width, 9.0);
    PageParts(title, header, rows, |header|, width);
    var own := TableRow(header, 36.0, 531.0, width, 9.0);
    assert own[n] == TextOp(ColumnX(36.0, n, width), 531.0, 9.0, shown) && own[n] in own;
    PrintedShows(Page(title, header, rows), own[n]);
  }

  lemma CellShown(title: string, header: Row, rows: seq<Row>, columns: nat, width: real, r: nat, n: nat) returns (shown: string)
    requires ColumnsAre(header, rows, columns) && columns > 0 && width == 770.0 / columns as real && r < |rows| && n < |rows[r]|
    ensures CutFor(rows[r][n], width, 8.0, shown)
    ensures Shows(Printed(Page(title, header, rows)), ColumnX(36.0, n, width), LineY(515.0, r), 8.0, shown)
  {
    hide Shows, Printed, Page, TableRows, TableRow, CutFor, ColumnX, LineY, ColumnsAre;
    shown := Truncate(rows[r][n], MaxChars(width, 8.0));
    TruncateCuts(rows[r][n], width, 8.0);
    RowsHold(rows, 515.0, width, r, n);
    PageParts(title, header, rows, columns, width);
    PrintedShows(Page(title, header, rows), Cell(rows[r][n], n, 36.0, LineY(515.0, r), width, 8.0));
  }

  // ----- the table

  lemma {:induction false} ChunkAt(body: seq<Row>, i: nat)
    requires i < |body|
    ensures i / 29 < |Chunks(body)| && i % 29 < |Chunks(body)[i / 29]| && Chunks(body)[i / 29][i % 29] == body[i]
    ensures Chunks(body)[i / 29][0] == body[i - i % 29]
    decreases |body|
  {
    if |body| > 29 && i >= 29 {
      ChunkAt(body[29..], i - 29);
      assert (i - 29) / 29 == i / 29 - 1 && (i - 29) % 29 == i % 29;
    }
  }

  lemma {:induction false} PageAt(title: string, header: Row, chunks: seq<seq<Row>>, p: nat)
    requires p < |chunks|
    ensures |PagesFor(title, header, chunks)| == |chunks| && PagesFor(title, header, chunks)[p] == Printed(Page(title, header, chunks[p]))
  {
    hide Printed, Page;
    var n := |chunks| - 1;
    if p < n {
      PageAt(title, header, chunks[..n], p);
    } else {
      PagesCount(title, header, chunks[..n]);
    }
  }

  lemma {:induction false} PagesCount(title: string, header: Row, chunks: seq<seq<Row>>)
    ensures |PagesFor(title, header, chunks)| == |chunks|
  {
    if chunks != [] {
      PagesCount(title, header, chunks[..|chunks| - 1]);
    }
  }

  /** The text stands, cut to its column, in column `n` of so many, on a line this high. */
  ghost predicate InColumn(page: string, value: string, n: nat, columns: nat, y: real, size: real)
    requires columns > 0 && size > 0.0
  {
    exists x, width, shown :: width == 770.0 / columns as real && x == 36.0 + n as real * width
                              && CutFor(value, width, size, shown) && Shows(page, x, y, size, shown)
  }

  lemma IntoColumn(page: string, value: string, n: nat, columns: nat, width: real, y: real, size: real, shown: string)
    requires columns > 0 && size > 0.0 && width == 770.0 / columns as real
    requires CutFor(value, width, size, shown) && Shows(page, ColumnX(36.0, n, width), y, size, shown)
    ensures InColumn(page, value, n, columns, y, size)
  {
    hide CutFor, Shows;
  }

  /** Row `i` below the heading stands on page `i / 29`, line `i % 29`, each cell in its column. */
  lemma TableCellShown(title: string, rows: seq<Row>, i: nat, n: nat)
    requires i + 1 < |rows| && n < |rows[i + 1]|
    requires rows[0] != [] || rows[i + 1 - i % 29] != []
    ensures i / 29 < |TablePages(title, rows)|
    ensures InColumn(TablePages(title, rows)[i / 29], rows[i + 1][n], n, if rows[0] != [] then |rows[0]| else |rows[i + 1 - i % 29]|,
                     515.0 - 16.0 * (i % 29) as real, 8.0)
  {
    hide Shows, Printed, Page, PagesFor, CutFor, Chunks, InColumn, ColumnX;
    var body, p := rows[1..], i / 29;
    ChunkAt(body, i);
    PageAt(title, rows[0], Chunks(body), p);
    var columns: nat := if rows[0] != [] then |rows[0]| else |rows[i + 1 - i % 29]|;
    var width := 770.0 / columns as real;
    var shown := CellShown(title, rows[0], Chunks(body)[p], columns, width, i % 29, n);
    IntoColumn(TablePages(title, rows)[p], rows[i + 1][n], n, columns, width, LineY(515.0, i % 29), 8.0, shown);
  }

  /** Every page carries the title and, cell by cell, the heading. */
  lemma TableHeadingShown(title: string, rows: seq<Row>, p: nat)
    requires p < |TablePages(title, rows)|
    ensures Shows(TablePages(title, rows)[p], 36.0, 559.0, 14.0, title)
    ensures rows != [] ==>
              forall n: nat :: n < |rows[0]| ==> InColumn(TablePages(title, rows)[p], rows[0][n], n, |rows[0]|, 531.0, 9.0)
    ensures rows == [] ==> |TablePages(title, rows)| == 1 && Shows(TablePages(title, rows)[p], 36.0, 531.0, 10.0, "No rows found")
  {
    hide Shows, Printed, Page, CutFor, Chunks, InColumn, ColumnX, PagesFor;
    if rows == [] {
      PageHolds(title, [], [], 0);
    } else {
      var chunks := Chunks(rows[1..]);
      PagesCount(title, rows[0], chunks);
      PageAt(title, rows[0], chunks, p);
      PageHolds(title, rows[0], chunks[p], if rows[0] != [] then |rows[0]| else if chunks[p] != [] then |chunks[p][0]| else 0);
      forall n: nat | n < |rows[0]| ensures InColumn(TablePages(title, rows)[p], rows[0][n], n, |rows[0]|, 531.0, 9.0) {
        var shown := HeadingShown(title, rows[0], chunks[p], n, 770.0 / |rows[0]| as real);
        IntoColumn(TablePages(title, rows)[p], rows[0][n], n, |rows[0]|, 770.0 / |rows[0]| as real, 531.0, 9.0, shown);
      }
    }
  }
}
