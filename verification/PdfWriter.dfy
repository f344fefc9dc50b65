/** The hand-written PDF file (`internal/render/pdf.go`): its pages, its objects, and the
    cross-reference table that indexes them (section 7.5.4 of ISO 32000-1). */
module PdfWriter {
  import opened PdfText

  type Row = seq<string>

  // ----- pages

  const ROWS_PER_PAGE: nat := 29

  /** `int((595 - 120) / 16)` */
  lemma RowsPerPage()
    ensures ((595.0 - 120.0) / 16.0).Floor == ROWS_PER_PAGE
  {
    assert (595.0 - 120.0) / 16.0 == 29.6875;
  }

  function Chunks(body: seq<Row>): (chunks: seq<seq<Row>>)
    ensures chunks != []
    decreases |body|
  {
    if |body| <= ROWS_PER_PAGE then [body] else [body[..ROWS_PER_PAGE]] + Chunks(body[ROWS_PER_PAGE..])
  }

  function Flatten(chunks: seq<seq<Row>>): seq<Row> {
    if chunks == [] then [] else chunks[0] + Flatten(chunks[1..])
  }

  /** The pages' rows are the body's rows in order; no page holds more than fits, and every page
      but the last is full. */
  lemma {:induction false} ChunksHoldTheBody(body: seq<Row>)
    ensures Flatten(Chunks(body)) == body
    ensures forall i :: 0 <= i < |Chunks(body)| ==> |Chunks(body)[i]| <= ROWS_PER_PAGE
    ensures forall i :: 0 <= i < |Chunks(body)| - 1 ==> |Chunks(body)[i]| == ROWS_PER_PAGE
    decreases |body|
  {
    if |body| <= ROWS_PER_PAGE {
      assert Flatten([body]) == body + Flatten([body][1..]);
    } else {
      ChunksHoldTheBody(body[ROWS_PER_PAGE..]);
      assert Chunks(body)[1..] == Chunks(body[ROWS_PER_PAGE..]);
    }
  }

  /** `strconv.FormatFloat(value, 'f', 2, 64)` */
  function Fixed(value: real): string {
    var hundredths := (if value < 0.0 then -value else value) * 100.0 + 0.5;
    var h := hundredths.Floor;
    (if value < 0.0 then "-" else "") + Decimal(h / 100) + "." + [Digit(h % 100 / 10), Digit(h % 10)]
  }

  function Truncate(value: string, maxChars: nat): (r: string)
    ensures |r| <= maxChars
    ensures |value| <= maxChars ==> r == value
    ensures |value| > maxChars > 3 ==> r == value[..maxChars - 3] + "..."
  {
    if |value| <= maxChars then value
    else if maxChars <= 3 then value[..maxChars]
    else value[..maxChars - 3] + "..."
  }

  /** One piece of text on a page. */
  datatype TextOp = TextOp(x: real, y: real, size: real, text: string)

  function PrintedOp(op: TextOp): string {
    "BT\n" + "/F1 " + Fixed(op.size) + " Tf\n" + "1 0 0 1 " + Fixed(op.x) + " " + Fixed(op.y) + " Tm\n" + "(" + Escape(op.text) + ") Tj\n" + "ET\n"
  }

  function Printed(ops: seq<TextOp>): string {
    if ops == [] then "" else Printed(ops[..|ops| - 1]) + PrintedOp(ops[|ops| - 1])
  }

  function MaxChars(colWidth: real, size: real): nat
    requires size > 0.0
  {
    var n := (colWidth / (size * 0.55)).Floor;
    if n < 4 then 4 else n
  }

  function ColumnX(x: real, n: nat, colWidth: real): real {
    x + n as real * colWidth
  }

  function Cell(value: string, n: nat, x: real, y: real, colWidth: real, size: real): TextOp
    requires size > 0.0
  {
    TextOp(ColumnX(x, n, colWidth), y, size, Truncate(value, MaxChars(colWidth, size)))
  }

  function TableRow(row: Row, x: real, y: real, colWidth: real, size: real): (ops: seq<TextOp>)
    requires size > 0.0
    ensures |ops| == |row| && forall i :: 0 <= i < |row| ==> ops[i] == Cell(row[i], i, x, y, colWidth, size)
  {
    seq(|row|, i requires 0 <= i < |row| => Cell(row[i], i, x, y, colWidth, size))
  }

  function TableRows(rows: seq<Row>, y: real, colWidth: real): seq<TextOp> {
    if rows == [] then []
    else
      var n := |rows| - 1;
      TableRows(rows[..n], y, colWidth) + TableRow(rows[n], 36.0, y - n as real * 16.0, colWidth, 8.0)
  }

  function ColumnCount(header: Row, rows: seq<Row>): nat {
    if header == [] && rows != [] then |rows[0]| else |header|
  }

  /** The title, then the header and the rows below it, or a note that there are none. */
  function Page(title: string, header: Row, rows: seq<Row>): seq<TextOp> {
    var columns := ColumnCount(header, rows);
    [TextOp(36.0, 559.0, 14.0, title)]
    + if columns == 0 then [TextOp(36.0, 531.0, 10.0, "No rows found")]
      else TableRow(header, 36.0, 531.0, 770.0 / columns as real, 9.0) + TableRows(rows, 515.0, 770.0 / columns as real)
  }

  function PagesFor(title: string, header: Row, chunks: seq<seq<Row>>): seq<string> {
    if chunks == [] then []
    else PagesFor(title, header, chunks[..|chunks| - 1]) + [Printed(Page(title, header, chunks[|chunks| - 1]))]
  }

  function TablePages(title: string, rows: seq<Row>): seq<string> {
    if rows == [] then [Printed(Page(title, [], []))] else PagesFor(title, rows[0], Chunks(rows[1..]))
  }

  // ----- objects

  const HEADER := "%PDF-1.4\n"
  const CATALOG := "<< /Type /Catalog /Pages 2 0 R >>"
  const FONT := "<< /Type /Font /Subtype /Type1 /BaseFont /Helvetica >>"

  function Reference(n: nat): string {
    Decimal(n) + " 0 R"
  }

  /** `strings.Join(parts, " ")` */
  function Join(parts: seq<string>): string {
    if parts == [] then "" else if |parts| == 1 then parts[0] else parts[0] + " " + Join(parts[1..])
  }

  /** Page `i` is object `4 + 2i`, its content the object after it. */
  function PageNumber(i: nat): nat {
    4 + i * 2
  }

  function KidNumbers(pageCount: nat): (numbers: seq<nat>)
    ensures |numbers| == pageCount && forall i :: 0 <= i < pageCount ==> numbers[i] == PageNumber(i)
  {
    seq(pageCount, (i: nat) => PageNumber(i))
  }

  function References(numbers: seq<nat>): (parts: seq<string>)
    ensures |parts| == |numbers| && forall i :: 0 <= i < |numbers| ==> parts[i] == Reference(numbers[i])
  {
    seq(|numbers|, i requires 0 <= i < |numbers| => Reference(numbers[i]))
  }

  const KIDS_OPEN := "<< /Type /Pages /Kids ["

  function PagesObject(pageCount: nat): string {
    KIDS_OPEN + Join(References(KidNumbers(pageCount))) + "] /Count " + Decimal(pageCount) + " >>"
  }

  const CONTENTS_OPEN := "<< /Type /Page /Parent 2 0 R /MediaBox [0 0 842 595] /Resources << /Font << /F1 3 0 R >> >> /Contents "

  function PageObject(i: nat): string {
    CONTENTS_OPEN + Decimal(PageNumber(i) + 1) + " 0 R >>"
  }

  const LENGTH_OPEN := "<< /Length "
  const STREAM_OPEN := " >>\nstream\n"

  function ContentObject(page: string): string {
    LENGTH_OPEN + Decimal(|page|) + STREAM_OPEN + page + "\nendstream"
  }

  function PageObjects(pages: seq<string>): (objects: seq<string>)
    ensures |objects| == 2 * |pages|
  {
    if pages == [] then []
    else PageObjects(pages[..|pages| - 1]) + [PageObject(|pages| - 1), ContentObject(pages[|pages| - 1])]
  }

  function Objects(pages: seq<string>): (objects: seq<string>)
    ensures |objects| == 3 + 2 * |pages|
  {
    [CATALOG, PagesObject(|pages|), FONT] + PageObjects(pages)
  }

  // ----- the file

  function Numbered(n: nat, object_: string): string {
    Decimal(n) + " 0 obj\n" + object_ + "\nendobj\n"
  }

  function Body(objects: seq<string>): string {
    if objects == [] then "" else Body(objects[..|objects| - 1]) + Numbered(|objects|, objects[|objects| - 1])
  }

  /** Where object `n` (counted from 1) begins. */
  function Offset(objects: seq<string>, n: nat): nat
    requires 1 <= n <= |objects|
  {
    |HEADER| + |Body(objects[..n - 1])|
  }

  function Entry(offset: nat): string {
    TenDigits(offset) + " 00000 n \n"
  }

  function Entries(objects: seq<string>, n: nat): string
    requires n <= |objects|
  {
    if n == 0 then "" else Entries(objects, n - 1) + Entry(Offset(objects, n))
  }

  function XrefOffset(objects: seq<string>): nat {
    |HEADER| + |Body(objects)|
  }

  const XREF_OPEN := "xref\n0 "
  const FREE_ENTRY := "0000000000 65535 f \n"
  const STARTXREF := " /Root 1 0 R >>\nstartxref\n"
  const END_OF_FILE := "\n%%EOF\n"

  function Table(objects: seq<string>): string {
    XREF_OPEN + Decimal(|objects| + 1) + "\n" + FREE_ENTRY + Entries(objects, |objects|)
  }

  function Trailer(objects: seq<string>): string {
    "trailer\n<< /Size " + Decimal(|objects| + 1) + STARTXREF + Decimal(XrefOffset(objects)) + END_OF_FILE
  }

  function File(objects: seq<string>): string {
    HEADER + Body(objects) + Table(objects) + Trailer(objects)
  }

  // ----- reading it back

  predicate StartsWith(s: string, prefix: string) {
    prefix <= s
  }

  lemma DropBefore(a: string, b: string, k: nat)
    requires k <= |a|
    ensures (a + b)[k..] == a[k..] + b
  {
  }

  lemma StartsStill(s: string, t: string, prefix: string)
    requires StartsWith(s, prefix)
    ensures StartsWith(s + t, prefix)
  {
  }

  lemma {:induction false} BodyAt(objects: seq<string>, n: nat)
    requires 1 <= n <= |objects|
    ensures |Body(objects[..n - 1])| <= |Body(objects)|
    ensures StartsWith(Body(objects)[|Body(objects[..n - 1])|..], Numbered(n, objects[n - 1]))
  {
    var init, last := objects[..|objects| - 1], objects[|objects| - 1];
    if n == |objects| {
      DropBefore(Body(init), Numbered(n, last), |Body(init)|);
      assert Body(init)[|Body(init)|..] == "";
    } else {
      assert init[..n - 1] == objects[..n - 1];
      BodyAt(init, n);
      var k := |Body(objects[..n - 1])|;
      DropBefore(Body(init), Numbered(|objects|, last), k);
      StartsStill(Body(init)[k..], Numbered(|objects|, last), Numbered(n, objects[n - 1]));
    }
  }

  lemma DropInto(h: string, b: string, t: string, k: nat)
    requires k <= |b|
    ensures (h + b + t)[|h| + k..] == b[k..] + t
  {
  }

  lemma NumberedReads(n: nat, object_: string, s: string, t: string)
    requires StartsWith(s, Numbered(n, object_))
    ensures ReadNat(s + t).0 == n && StartsWith(ReadNat(s + t).1, " 0 obj\n" + object_ + "\nendobj\n")
  {
    var own := " 0 obj\n" + object_ + "\nendobj\n";
    assert Numbered(n, object_) == Decimal(n) + own;
    var behind := s[|Numbered(n, object_)|..] + t;
    assert s + t == Decimal(n) + (own + behind);
    assert (own + behind)[0] == ' ';
    ReadsDecimal(n, own + behind);
  }

  function Behind(objects: seq<string>): string {
    Table(objects) + Trailer(objects)
  }

  lemma FileSplits(objects: seq<string>)
    ensures File(objects) == HEADER + Body(objects) + Behind(objects)
  {
  }

  lemma ObjectIn(f: string, h: string, body: string, tail: string, k: nat, n: nat, object_: string)
    requires f == h + body + tail && k <= |body| && StartsWith(body[k..], Numbered(n, object_))
    ensures |h| + k <= |f|
    ensures ReadNat(f[|h| + k..]).0 == n && StartsWith(ReadNat(f[|h| + k..]).1, " 0 obj\n" + object_ + "\nendobj\n")
  {
    DropInto(h, body, tail, k);
    NumberedReads(n, object_, body[k..], tail);
  }

  /** At its offset an object's number can be read, and the object follows. */
  lemma ObjectAtOffset(objects: seq<string>, n: nat)
    requires 1 <= n <= |objects|
    ensures Offset(objects, n) <= |File(objects)|
    ensures ReadNat(File(objects)[Offset(objects, n)..]).0 == n
    ensures StartsWith(ReadNat(File(objects)[Offset(objects, n)..]).1, " 0 obj\n" + objects[n - 1] + "\nendobj\n")
  {
    BodyAt(objects, n);
    FileSplits(objects);
    ObjectIn(File(objects), HEADER, Body(objects), Behind(objects), |Body(objects[..n - 1])|, n, objects[n - 1]);
  }

  /** The last object's offset fits the ten digits of an entry. */
  predicate Fits(objects: seq<string>) {
    objects != [] ==> Offset(objects, |objects|) < 10_000_000_000
  }

  lemma OffsetsGrow(objects: seq<string>, n: nat, m: nat)
    requires 1 <= n <= m <= |objects|
    ensures Offset(objects, n) <= Offset(objects, m)
  {
    if n < m {
      assert objects[..m - 1][..n - 1] == objects[..n - 1];
      BodyAt(objects[..m - 1], n);
    }
  }

  lemma FittingEntry(objects: seq<string>, n: nat)
    requires 1 <= n <= |objects| && Fits(objects)
    ensures |Entry(Offset(objects, n))| == 20
  {
    OffsetsGrow(objects, n, |objects|);
    EntryIsTwentyBytes(Offset(objects, n));
  }

  lemma {:induction false} EntriesLength(objects: seq<string>, m: nat)
    requires m <= |objects| && Fits(objects)
    ensures |Entries(objects, m)| == 20 * m
  {
    if m > 0 {
      EntriesLength(objects, m - 1);
      FittingEntry(objects, m);
    }
  }

  lemma SliceBefore(a: string, b: string, i: nat, j: nat)
    requires i <= j <= |a|
    ensures (a + b)[i..j] == a[i..j]
  {
  }

  lemma SliceAfter(a: string, b: string)
    ensures (a + b)[|a|..|a| + |b|] == b
  {
  }

  lemma {:induction false} EntriesAt(objects: seq<string>, n: nat, m: nat)
    requires 1 <= n <= m <= |objects| && Fits(objects)
    ensures |Entries(objects, m)| >= 20 * n
    ensures Entries(objects, m)[20 * (n - 1)..20 * n] == Entry(Offset(objects, n))
  {
    EntriesLength(objects, m);
    EntriesLength(objects, m - 1);
    FittingEntry(objects, m);
    if n < m {
      EntriesAt(objects, n, m - 1);
      SliceBefore(Entries(objects, m - 1), Entry(Offset(objects, m)), 20 * (n - 1), 20 * n);
    } else {
      SliceAfter(Entries(objects, m - 1), Entry(Offset(objects, m)));
    }
  }

  lemma {:induction false} OffsetsBelow(objects: seq<string>, n: nat)
    requires 1 <= n <= |objects|
    ensures Offset(objects, n) < XrefOffset(objects)
  {
    BodyAt(objects, n);
  }

  /** Section 7.5.4: behind `xref` and the subsection's first number and size stand entries of
      twenty bytes; the first ten digits of entry `n` are the offset of object `n`. */
  function ReadEntry(f: string, xref: nat, n: nat): (offset: int) {
    if xref > |f| || !(XREF_OPEN <= f[xref..]) then -1
    else
      var (count, rest) := ReadNat(f[xref + |XREF_OPEN|..]);
      if n >= count || |rest| < 1 + 20 * (n + 1) || !AllDigits(rest[1 + 20 * n..11 + 20 * n]) then -1
      else NatValue(rest[1 + 20 * n..11 + 20 * n])
  }

  /** An entry keeps its twenty bytes exactly while its offset fits ten digits. */
  lemma EntryIsTwentyBytes(offset: nat)
    ensures |Entry(offset)| == 20 <==> offset < 10_000_000_000
    ensures |Entry(offset)| == 20 ==> AllDigits(Entry(offset)[..10]) && NatValue(Entry(offset)[..10]) == offset
  {
    TenDigitsRead(offset);
    if |Entry(offset)| == 20 {
      assert Entry(offset)[..10] == TenDigits(offset);
    }
  }

  lemma TableReads(f: string, pre: string, count: nat, entries: string, trailer: string, n: nat, entry: string)
    requires f == pre + (XREF_OPEN + Decimal(count) + "\n" + FREE_ENTRY + entries) + trailer
    requires 1 <= n < count && |entries| >= 20 * n && entries[20 * (n - 1)..20 * n] == entry
    requires |entry| == 20 && AllDigits(entry[..10])
    ensures ReadEntry(f, |pre|, n) == NatValue(entry[..10])
  {
    hide Decimal, ReadNat, AllDigits, NatValue;
    var lead := "\n" + FREE_ENTRY;
    assert |lead| == 21 && lead[0] == '\n';
    var rest := lead + entries + trailer;
    ReadsDecimal(count, rest);
    assert XREF_OPEN + Decimal(count) + "\n" + FREE_ENTRY + entries == XREF_OPEN + Decimal(count) + (lead + entries);
    BehindPrefix(f, pre, XREF_OPEN, Decimal(count), lead + entries, trailer);
    InsideEntries(lead, entries, trailer, 20 * (n - 1), entry);
  }

  lemma BehindPrefix(f: string, pre: string, open: string, count: string, middle: string, trailer: string)
    requires f == pre + (open + count + middle) + trailer
    ensures |pre| + |open| <= |f| && open <= f[|pre|..] && f[|pre| + |open|..] == count + (middle + trailer)
  {
    assert f[|pre|..] == open + (count + (middle + trailer));
  }

  lemma InsideEntries(lead: string, entries: string, trailer: string, at: nat, entry: string)
    requires at + 20 <= |entries| && entries[at..at + 20] == entry
    ensures (lead + entries + trailer)[|lead| + at..|lead| + at + 10] == entry[..10]
  {
    assert (lead + entries + trailer)[|lead| + at..|lead| + at + 10] == entries[at..at + 10];
  }

  /** The parts of the file around its table, and the entry of one object. */
  lemma FileShape(objects: seq<string>, n: nat) returns (front: string, entries: string, trailer: string, entry: string)
    requires 1 <= n <= |objects| && Fits(objects)
    ensures |front| == XrefOffset(objects)
    ensures File(objects) == front + (XREF_OPEN + Decimal(|objects| + 1) + "\n" + FREE_ENTRY + entries) + trailer
    ensures |entries| >= 20 * n && entries[20 * (n - 1)..20 * n] == entry
    ensures |entry| == 20 && AllDigits(entry[..10]) && NatValue(entry[..10]) == Offset(objects, n)
  {
    front, entries, trailer, entry := HEADER + Body(objects), Entries(objects, |objects|), Trailer(objects), Entry(Offset(objects, n));
    EntriesAt(objects, n, |objects|);
    FittingEntry(objects, n);
    EntryIsTwentyBytes(Offset(objects, n));
    FileIs(objects);
  }

  lemma EntryReads(objects: seq<string>, n: nat)
    requires 1 <= n <= |objects| && Fits(objects)
    ensures ReadEntry(File(objects), XrefOffset(objects), n) == Offset(objects, n)
  {
    var front, entries, trailer, entry := FileShape(objects, n);
    TableReads(File(objects), front, |objects| + 1, entries, trailer, n, entry);
  }

  lemma FileIs(objects: seq<string>)
    ensures File(objects) == HEADER + Body(objects)
            + (XREF_OPEN + Decimal(|objects| + 1) + "\n" + FREE_ENTRY + Entries(objects, |objects|)) + Trailer(objects)
  {
  }

  // ----- where the table is

  function TrailingDigits(s: string): (d: string)
    ensures AllDigits(d) && |d| <= |s|
  {
    if s != [] && IsDigit(s[|s| - 1]) then TrailingDigits(s[..|s| - 1]) + [s[|s| - 1]] else []
  }

  lemma {:induction false} TrailingAll(p: string, d: string)
    requires AllDigits(d) && p != [] && !IsDigit(p[|p| - 1])
    ensures TrailingDigits(p + d) == d
  {
    if d == [] {
      assert p + d == p;
    } else {
      var n := |d| - 1;
      assert (p + d)[..|p + d| - 1] == p + d[..n];
      TrailingAll(p, d[..n]);
    }
  }

  /** Section 7.5.5: the number on the line before the end-of-file marker. */
  function ReadStartxref(f: string): nat {
    if |f| < |END_OF_FILE| then 0 else NatValue(TrailingDigits(f[..|f| - |END_OF_FILE|]))
  }

  lemma StartxrefIn(f: string, p: string, n: nat)
    requires f == p + Decimal(n) + END_OF_FILE && p != [] && !IsDigit(p[|p| - 1])
    ensures ReadStartxref(f) == n
  {
    assert f[..|f| - |END_OF_FILE|] == p + Decimal(n);
    DecimalReads(n);
    TrailingAll(p, Decimal(n));
  }

  lemma StartxrefReads(objects: seq<string>)
    ensures ReadStartxref(File(objects)) == XrefOffset(objects)
  {
    var p := HEADER + Body(objects) + Table(objects) + ("trailer\n<< /Size " + Decimal(|objects| + 1) + STARTXREF);
    TrailerEnds(objects);
    assert File(objects) == p + Decimal(XrefOffset(objects)) + END_OF_FILE;
    assert p[|p| - 1] == STARTXREF[|STARTXREF| - 1] == '\n';
    StartxrefIn(File(objects), p, XrefOffset(objects));
  }

  lemma TrailerEnds(objects: seq<string>)
    ensures Trailer(objects) == ("trailer\n<< /Size " + Decimal(|objects| + 1) + STARTXREF) + Decimal(XrefOffset(objects)) + END_OF_FILE
  {
  }

  /** The file indexes its own bytes: from the number before the end of the file a reader finds
      the table, in entry `n` an offset, and there the beginning of object `n`. */
  lemma TableIndexesFile(objects: seq<string>, n: nat)
    requires 1 <= n <= |objects| && Fits(objects)
    ensures var f := File(objects);
            var offset := ReadEntry(f, ReadStartxref(f), n);
            && 0 <= offset <= |f|
            && ReadNat(f[offset..]).0 == n
            && StartsWith(ReadNat(f[offset..]).1, " 0 obj\n" + objects[n - 1] + "\nendobj\n")
  {
    StartxrefReads(objects);
    EntryReads(objects, n);
    ObjectAtOffset(objects, n);
  }

  /** What a reader takes from an entry always has ten digits. */
  lemma ReadEntryBelow(f: string, xref: nat, n: nat)
    ensures ReadEntry(f, xref, n) < 10_000_000_000
  {
    if xref <= |f| && XREF_OPEN <= f[xref..] {
      var (count, rest) := ReadNat(f[xref + |XREF_OPEN|..]);
      if n < count && |rest| >= 1 + 20 * (n + 1) && AllDigits(rest[1 + 20 * n..11 + 20 * n]) {
        ValueBelow(rest[1 + 20 * n..11 + 20 * n]);
        PowerOfTen();
      }
    }
  }

  /** The table gives every object's offset exactly when the last one fits ten digits. */
  lemma TableIsExactIff(objects: seq<string>)
    ensures (forall n | 1 <= n <= |objects| :: ReadEntry(File(objects), XrefOffset(objects), n) == Offset(objects, n)) <==> Fits(objects)
  {
    if Fits(objects) {
      forall n | 1 <= n <= |objects| ensures ReadEntry(File(objects), XrefOffset(objects), n) == Offset(objects, n) {
        EntryReads(objects, n);
      }
    } else {
      ReadEntryBelow(File(objects), XrefOffset(objects), |objects|);
      assert ReadEntry(File(objects), XrefOffset(objects), |objects|) != Offset(objects, |objects|);
    }
  }

  // ----- references

  function ReadReferences(s: string): seq<nat>
    decreases |s|
  {
    if s == [] || !IsDigit(s[0]) then []
    else
      var (n, rest) := ReadNat(s);
      [n] + (if |rest| > 5 && rest[..5] == " 0 R " then ReadReferences(rest[5..]) else [])
  }

  lemma ReferenceThenMore(n: nat, tail: string)
    requires tail != []
    ensures ReadReferences(Decimal(n) + (" 0 R " + tail)) == [n] + ReadReferences(tail)
  {
    var behind := " 0 R " + tail;
    ReadsDecimal(n, behind);
    DecimalStarts(n, behind);
    assert behind[..5] == " 0 R " && behind[5..] == tail;
  }

  lemma ReferenceLast(n: nat, rest: string)
    requires rest != [] && rest[0] == ']'
    ensures ReadReferences(Decimal(n) + (" 0 R" + rest)) == [n]
  {
    var behind := " 0 R" + rest;
    ReadsDecimal(n, behind);
    DecimalStarts(n, behind);
    if |behind| > 5 {
      assert behind[..5][4] == behind[4] == ']';
    }
  }

  lemma JoinSplits(numbers: seq<nat>, rest: string)
    requires |numbers| > 1
    ensures Join(References(numbers)) + rest == Decimal(numbers[0]) + (" 0 R " + (Join(References(numbers[1..])) + rest))
  {
    assert References(numbers)[1..] == References(numbers[1..]);
    assert Join(References(numbers)) == Decimal(numbers[0]) + " 0 R" + " " + Join(References(numbers[1..]));
  }

  lemma JoinSingle(numbers: seq<nat>, rest: string)
    requires |numbers| == 1
    ensures Join(References(numbers)) + rest == Decimal(numbers[0]) + (" 0 R" + rest)
  {
  }

  lemma {:induction false} JoinReads(numbers: seq<nat>, rest: string)
    requires rest != [] && rest[0] == ']'
    ensures ReadReferences(Join(References(numbers)) + rest) == numbers
  {
    if numbers == [] {
      assert Join(References(numbers)) + rest == rest;
    } else if |numbers| == 1 {
      JoinSingle(numbers, rest);
      ReferenceLast(numbers[0], rest);
    } else {
      JoinSplits(numbers, rest);
      ReferenceThenMore(numbers[0], Join(References(numbers[1..])) + rest);
      JoinReads(numbers[1..], rest);
      assert numbers == [numbers[0]] + numbers[1..];
    }
  }

  lemma DecimalStarts(n: nat, rest: string)
    ensures (Decimal(n) + rest) != [] && IsDigit((Decimal(n) + rest)[0])
  {
    DecimalReads(n);
  }

  lemma KidsRead(pageCount: nat)
    ensures StartsWith(PagesObject(pageCount), KIDS_OPEN)
    ensures ReadReferences(PagesObject(pageCount)[|KIDS_OPEN|..]) == KidNumbers(pageCount)
  {
    var rest := "] /Count " + Decimal(pageCount) + " >>";
    var kids := Join(References(KidNumbers(pageCount)));
    assert PagesObject(pageCount) == KIDS_OPEN + (kids + rest);
    JoinReads(KidNumbers(pageCount), rest);
  }

  lemma ContentsRead(i: nat)
    ensures StartsWith(PageObject(i), CONTENTS_OPEN)
    ensures ReadNat(PageObject(i)[|CONTENTS_OPEN|..]).0 == PageNumber(i) + 1
  {
    assert PageObject(i) == CONTENTS_OPEN + (Decimal(PageNumber(i) + 1) + " 0 R >>");
    ReadsDecimal(PageNumber(i) + 1, " 0 R >>");
  }

  /** The stated length is the stream's: that many bytes behind `stream` are the page's. */
  lemma LengthReads(page: string)
    ensures StartsWith(ContentObject(page), LENGTH_OPEN)
    ensures var (length, rest) := ReadNat(ContentObject(page)[|LENGTH_OPEN|..]);
            && length == |page| && StartsWith(rest, STREAM_OPEN) && |rest| >= |STREAM_OPEN| + length
            && rest[|STREAM_OPEN|..|STREAM_OPEN| + length] == page
            && rest[|STREAM_OPEN| + length..] == "\nendstream"
  {
    var rest := STREAM_OPEN + page + "\nendstream";
    assert ContentObject(page) == LENGTH_OPEN + (Decimal(|page|) + rest);
    ReadsDecimal(|page|, rest);
  }

  lemma {:induction false} PageObjectsAt(pages: seq<string>, i: nat)
    requires i < |pages|
    ensures PageObjects(pages)[2 * i] == PageObject(i) && PageObjects(pages)[2 * i + 1] == ContentObject(pages[i])
  {
    if i < |pages| - 1 {
      PageObjectsAt(pages[..|pages| - 1], i);
    }
  }

  lemma KidsOf(pages: seq<string>)
    ensures ReadReferences(Objects(pages)[1][|KIDS_OPEN|..]) == KidNumbers(|pages|)
  {
    KidsRead(|pages|);
  }

  lemma PageAndContent(pages: seq<string>, i: nat)
    requires i < |pages|
    ensures Objects(pages)[PageNumber(i) - 1] == PageObject(i)
    ensures Objects(pages)[PageNumber(i)] == ContentObject(pages[i])
  {
    PageObjectsAt(pages, i);
  }

  /** Kid `i` of the page tree is the object of page `i`; its contents are the object holding that
      page's bytes. */
  lemma PagesAreReachable(pages: seq<string>, i: nat)
    requires i < |pages|
    ensures var kids := ReadReferences(Objects(pages)[1][|KIDS_OPEN|..]);
            && |kids| == |pages| && 1 <= kids[i] <= |Objects(pages)|
            && Objects(pages)[kids[i] - 1] == PageObject(i)
    ensures var content := ReadNat(PageObject(i)[|CONTENTS_OPEN|..]).0;
            1 <= content <= |Objects(pages)| && Objects(pages)[content - 1] == ContentObject(pages[i])
  {
    hide Objects, PageObject, ContentObject, ReadNat, ReadReferences;
    KidsOf(pages);
    ContentsRead(i);
    PageAndContent(pages, i);
  }

  // ----- the writer

  method WriteText(content: string, ghost ops: seq<TextOp>, op: TextOp) returns (content': string)
    requires content == Printed(ops)
    ensures content' == Printed(ops + [op])
  {
    var escaped := EscapePDFText(op.text);
    content' := content + ("BT\n" + "/F1 " + Fixed(op.size) + " Tf\n" + "1 0 0 1 " + Fixed(op.x) + " " + Fixed(op.y) + " Tm\n" + "(" + escaped + ") Tj\n" + "ET\n");
    assert (ops + [op])[..|ops|] == ops;
  }

  method WriteTableRow(content: string, ghost ops: seq<TextOp>, row: Row, x: real, y: real, colWidth: real, fontSize: real) returns (content': string)
    requires fontSize > 0.0 && content == Printed(ops)
    ensures content' == Printed(ops + TableRow(row, x, y, colWidth, fontSize))
  {
    hide Printed;
    content' := content;
    ghost var all := TableRow(row, x, y, colWidth, fontSize);
    assert ops + all[..0] == ops;
    for i := 0 to |row|
      invariant content' == Printed(ops + all[..i])
    {
      var maxChars := (colWidth / (fontSize * 0.55)).Floor;
      if maxChars < 4 {
        maxChars := 4;
      }
      content' := WriteText(content', ops + all[..i], TextOp(ColumnX(x, i, colWidth), y, fontSize, Truncate(row[i], maxChars)));
      assert ops + all[..i] + [all[i]] == ops + all[..i + 1];
    }
    assert all[..|row|] == all;
  }

  method WriteTableRows(content: string, ghost ops: seq<TextOp>, rows: seq<Row>, top: real, colWidth: real) returns (content': string)
    requires content == Printed(ops)
    ensures content' == Printed(ops + TableRows(rows, top, colWidth))
  {
    hide Printed;
    content' := content;
    var y := top;
    assert ops + TableRows(rows[..0], top, colWidth) == ops;
    for i := 0 to |rows|
      invariant y == top - i as real * 16.0
      invariant content' == Printed(ops + TableRows(rows[..i], top, colWidth))
    {
      assert rows[..i + 1][..i] == rows[..i];
      ghost var before := TableRows(rows[..i], top, colWidth);
      content' := WriteTableRow(content', ops + before, rows[i], 36.0, y, colWidth, 8.0);
      assert ops + before + TableRow(rows[i], 36.0, y, colWidth, 8.0) == ops + (before + TableRow(rows[i], 36.0, y, colWidth, 8.0));
      y := y - 16.0;
    }
    assert rows[..|rows|] == rows;
  }

  lemma NothingPrinted()
    ensures Printed([]) == ""
  {
  }

  method RenderPage(title: string, header: Row, rows: seq<Row>) returns (content: string)
    ensures content == Printed(Page(title, header, rows))
  {
    NothingPrinted();
    hide Printed, TableRow, TableRows;
    ghost var top := [TextOp(36.0, 559.0, 14.0, title)];
    content := WriteText("", [], TextOp(36.0, 559.0, 14.0, title));
    assert [] + top == top;
    var y := 531.0;
    var colCount := |header|;
    if colCount == 0 && |rows| > 0 {
      colCount := |rows[0]|;
    }
    if colCount == 0 {
      content := WriteText(content, top, TextOp(36.0, y, 10.0, "No rows found"));
      return;
    }
    var colWidth := 770.0 / colCount as real;
    ghost var head := TableRow(header, 36.0, y, colWidth, 9.0);
    content := WriteTableRow(content, top, header, 36.0, y, colWidth, 9.0);
    content := WriteTableRows(content, top + head, rows, y - 16.0, colWidth);
    assert top + head + TableRows(rows, y - 16.0, colWidth) == top + (head + TableRows(rows, y - 16.0, colWidth));
  }

  lemma PagesSnoc(title: string, header: Row, chunks: seq<seq<Row>>, chunk: seq<Row>)
    ensures PagesFor(title, header, chunks + [chunk]) == PagesFor(title, header, chunks) + [Printed(Page(title, header, chunk))]
  {
    assert (chunks + [chunk])[..|chunks|] == chunks;
  }

  lemma MoveChunk(done: seq<seq<Row>>, chunk: seq<Row>, rest: seq<seq<Row>>)
    requires rest != [] && rest[0] == chunk
    ensures done + [chunk] + rest[1..] == done + rest
  {
  }

  lemma NextChunk(body: seq<Row>, start: nat, end: nat)
    requires start <= |body| && end == (if start + ROWS_PER_PAGE > |body| then |body| else start + ROWS_PER_PAGE)
    ensures Chunks(body[start..]) == [body[start..end]] + (if end < |body| then Chunks(body[end..]) else [])
  {
    assert body[start..][..end - start] == body[start..end];
    if end < |body| {
      assert body[start..][ROWS_PER_PAGE..] == body[end..];
    } else {
      assert body[start..end] == body[start..];
    }
  }

  class SimplePDF {
    const title: string
    var pages: seq<string>

    constructor (title: string)
      ensures this.title == title && pages == []
    {
      this.title, pages := title, [];
    }

    method AddTable(rows: seq<Row>)
      modifies this
      ensures pages == old(pages) + TablePages(title, rows)
    {
      if |rows| == 0 {
        var blank := RenderPage(title, [], []);
        pages := pages + [blank];
        return;
      }
      AddPages(rows[0], rows[1..]);
    }

    method AddPage(header: Row, rows: seq<Row>, ghost before: seq<string>, ghost done: seq<seq<Row>>)
      requires pages == before + PagesFor(title, header, done)
      modifies this
      ensures pages == before + PagesFor(title, header, done + [rows])
    {
      hide PagesFor, Printed, Page;
      var page := RenderPage(title, header, rows);
      PagesSnoc(title, header, done, rows);
      pages := pages + [page];
    }

    method AddPages(header: Row, body: seq<Row>)
      modifies this
      ensures pages == old(pages) + PagesFor(title, header, Chunks(body))
    {
      var start := 0;
      ghost var done: seq<seq<Row>>, rest := [], Chunks(body);
      assert body[0..] == body;
      var rowsPerPage := ((595.0 - 120.0) / 16.0).Floor;
      RowsPerPage();
      while start < |body| || start == 0
        invariant 0 <= start < |body| + ROWS_PER_PAGE + 1
        invariant pages == old(pages) + PagesFor(title, header, done)
        invariant done + rest == Chunks(body)
        invariant rest == if start == 0 || start < |body| then Chunks(body[start..]) else []
        decreases |body| + ROWS_PER_PAGE + 1 - start
      {
        var end := start + rowsPerPage;
        if end > |body| {
          end := |body|;
        }
        NextChunk(body, start, end);
        AddPage(header, body[start..end], old(pages), done);
        MoveChunk(done, body[start..end], rest);
        done, rest := done + [body[start..end]], rest[1..];
        if |body| == 0 {
          break;
        }
        start := start + rowsPerPage;
      }
      assert rest == [] && done == Chunks(body);
    }

    method CollectKids() returns (kids: seq<string>)
      ensures kids == References(KidNumbers(|pages|))
    {
      kids := [];
      for i := 0 to |pages|
        invariant kids == References(KidNumbers(i))
      {
        kids := kids + [Decimal(4 + i * 2) + " 0 R"];
      }
    }

    method CollectPages(front: seq<string>) returns (objects: seq<string>)
      ensures objects == front + PageObjects(pages)
    {
      objects := front;
      for i := 0 to |pages|
        invariant objects == front + PageObjects(pages[..i])
      {
        assert pages[..i + 1][..i] == pages[..i];
        var pageObject := CONTENTS_OPEN + Decimal(4 + i * 2 + 1) + " 0 R >>";
        var contentObject := LENGTH_OPEN + Decimal(|pages[i]|) + STREAM_OPEN + pages[i] + "\nendstream";
        objects := objects + [pageObject] + [contentObject];
      }
      assert pages[..|pages|] == pages;
    }

    method CollectObjects() returns (objects: seq<string>)
      ensures objects == Objects(pages)
    {
      var kids := CollectKids();
      objects := [CATALOG, KIDS_OPEN + Join(kids) + "] /Count " + Decimal(|pages|) + " >>", FONT];
      objects := CollectPages(objects);
    }

    method WriteObjects(objects: seq<string>) returns (out: string, offsets: seq<nat>)
      ensures out == HEADER + Body(objects)
      ensures |offsets| == |objects| + 1 && forall n :: 1 <= n <= |objects| ==> offsets[n] == Offset(objects, n)
    {
      out, offsets := HEADER, [0];
      for i := 0 to |objects|
        invariant out == HEADER + Body(objects[..i])
        invariant |offsets| == i + 1 && forall n :: 1 <= n <= i ==> offsets[n] == Offset(objects, n)
      {
        assert objects[..i + 1][..i] == objects[..i];
        Assoc(HEADER, Body(objects[..i]), Numbered(i + 1, objects[i]));
        offsets := offsets + [|out|];
        out := out + Numbered(i + 1, objects[i]);
      }
      assert objects[..|objects|] == objects;
    }

    method WriteEntries(front: string, objects: seq<string>, offsets: seq<nat>) returns (out: string)
      requires |offsets| == |objects| + 1 && forall n :: 1 <= n <= |objects| ==> offsets[n] == Offset(objects, n)
      ensures out == front + Entries(objects, |objects|)
    {
      hide Entry, Offset;
      out := front;
      for n := 1 to |offsets|
        invariant out == front + Entries(objects, n - 1)
      {
        Assoc(front, Entries(objects, n - 1), Entry(offsets[n]));
        out := out + Entry(offsets[n]);
      }
    }

    method Bytes() returns (out: string)
      ensures out == File(Objects(pages))
    {
      hide Body, Entries, Decimal, Objects;
      var objects := CollectObjects();
      var offsets;
      out, offsets := WriteObjects(objects);
      var xrefOffset := |out|;
      ghost var body := out;
      var head := XREF_OPEN + Decimal(|objects| + 1) + "\n" + FREE_ENTRY;
      out := out + head;
      out := WriteEntries(out, objects, offsets);
      Assoc(body, head, Entries(objects, |objects|));
      assert xrefOffset == XrefOffset(objects);
      out := out + ("trailer\n<< /Size " + Decimal(|objects| + 1) + STARTXREF + Decimal(xrefOffset) + END_OF_FILE);
    }
  }

  /** The row collector the exports use. */
  class PDFWriter {
    var rows: seq<Row>

    constructor ()
      ensures rows == []
    {
      rows := [];
    }

    method WriteRow(row: Row)
      modifies this
      ensures rows == old(rows) + [row]
    {
      rows := rows + [row];
    }

    method WriteTo(title: string) returns (out: string)
      ensures out == File(Objects(TablePages(title, rows)))
    {
      var pdf := new SimplePDF(title);
      pdf.AddTable(rows);
      assert [] + TablePages(title, rows) == TablePages(title, rows);
      out := pdf.Bytes();
    }
  }
}
