/** A reader's way through the written file: from its end to the cross-reference table, the page
    tree, each page and its content (sections 7.5 and 7.7 of ISO 32000-1). */
module PdfReader {
  import opened PdfText
  import opened PdfWriter

  const OBJECT_OPEN := " 0 obj\n"

  /** What stands behind `n 0 obj` at the offset the table has for object `n`. */
  function ReadObject(f: string, n: nat): string {
    var offset := ReadEntry(f, ReadStartxref(f), n);
    if offset < 0 || offset > |f| then ""
    else
      var (number, rest) := ReadNat(f[offset..]);
      if number == n && StartsWith(rest, OBJECT_OPEN) then rest[|OBJECT_OPEN|..] else ""
  }

  function After(s: string, prefix: string): string {
    if StartsWith(s, prefix) then s[|prefix|..] else ""
  }

  /** The page objects the page tree lists. */
  function ReadKids(f: string): seq<nat> {
    ReadReferences(After(ReadObject(f, 2), KIDS_OPEN))
  }

  function ReadContents(f: string, kid: nat): nat {
    ReadNat(After(ReadObject(f, kid), CONTENTS_OPEN)).0
  }

  /** As many bytes behind `stream` as the dictionary says. */
  function ReadStream(f: string, content: nat): string {
    var (length, rest) := ReadNat(After(ReadObject(f, content), LENGTH_OPEN));
    var bytes := After(rest, STREAM_OPEN);
    if length <= |bytes| then bytes[..length] else ""
  }

  /** The contents of the file's pages. */
  function ReadPages(f: string): seq<string> {
    var kids := ReadKids(f);
    seq(|kids|, i requires 0 <= i < |kids| => ReadStream(f, ReadContents(f, kids[i])))
  }

  lemma ObjectReads(objects: seq<string>, n: nat)
    requires 1 <= n <= |objects| && Fits(objects)
    ensures StartsWith(ReadObject(File(objects), n), objects[n - 1] + "\nendobj\n")
  {
    hide File, ReadEntry, ReadStartxref, ReadNat, Fits;
    var f := File(objects);
    TableIndexesFile(objects, n);
    var rest := ReadNat(f[ReadEntry(f, ReadStartxref(f), n)..]).1;
    Strip(rest, OBJECT_OPEN, objects[n - 1] + "\nendobj\n");
  }

  lemma Strip(s: string, a: string, b: string)
    requires StartsWith(s, a + b)
    ensures StartsWith(s, a) && StartsWith(s[|a|..], b)
  {
    assert s[..|a + b|] == a + b;
    assert s[|a|..][..|b|] == b;
  }

  /** An object's text, whatever follows it in the file. */
  lemma ObjectFollowed(objects: seq<string>, n: nat) returns (rest: string)
    requires 1 <= n <= |objects| && Fits(objects)
    ensures ReadObject(File(objects), n) == objects[n - 1] + rest
  {
    hide File, ReadObject, Fits;
    ObjectReads(objects, n);
    var s, o := ReadObject(File(objects), n), objects[n - 1];
    rest := s[|o|..];
    assert (o + "\nendobj\n")[..|o|] == o;
    assert s[..|o + "\nendobj\n"|][..|o|] == s[..|o|];
  }

  lemma AfterIs(prefix: string, rest: string)
    ensures After(prefix + rest, prefix) == rest
  {
  }

  lemma KidsReadOn(pageCount: nat, tail: string)
    ensures ReadReferences(After(PagesObject(pageCount) + tail, KIDS_OPEN)) == KidNumbers(pageCount)
  {
    hide Join, References, KidNumbers, Decimal, ReadReferences, After;
    var rest := "] /Count " + Decimal(pageCount) + " >>" + tail;
    var kids := Join(References(KidNumbers(pageCount)));
    assert PagesObject(pageCount) + tail == KIDS_OPEN + (kids + rest);
    AfterIs(KIDS_OPEN, kids + rest);
    JoinReads(KidNumbers(pageCount), rest);
  }

  lemma ContentsReadOn(i: nat, tail: string)
    ensures ReadNat(After(PageObject(i) + tail, CONTENTS_OPEN)).0 == PageNumber(i) + 1
  {
    hide Decimal, ReadNat, After;
    var rest := " 0 R >>" + tail;
    assert PageObject(i) + tail == CONTENTS_OPEN + (Decimal(PageNumber(i) + 1) + rest);
    AfterIs(CONTENTS_OPEN, Decimal(PageNumber(i) + 1) + rest);
    ReadsDecimal(PageNumber(i) + 1, rest);
  }

  lemma StreamReadsOn(page: string, tail: string)
    ensures var (length, rest) := ReadNat(After(ContentObject(page) + tail, LENGTH_OPEN));
            length == |page| && length <= |After(rest, STREAM_OPEN)| && After(rest, STREAM_OPEN)[..length] == page
  {
    hide Decimal, ReadNat, After;
    var bytes := page + ("\nendstream" + tail);
    assert ContentObject(page) + tail == LENGTH_OPEN + (Decimal(|page|) + (STREAM_OPEN + bytes));
    AfterIs(LENGTH_OPEN, Decimal(|page|) + (STREAM_OPEN + bytes));
    ReadsDecimal(|page|, STREAM_OPEN + bytes);
    AfterIs(STREAM_OPEN, bytes);
  }

  lemma KidsOfFile(pages: seq<string>)
    requires Fits(Objects(pages))
    ensures ReadKids(File(Objects(pages))) == KidNumbers(|pages|)
  {
    hide File, Fits, ReadObject, After, ReadReferences, PagesObject;
    var tail := ObjectFollowed(Objects(pages), 2);
    KidsReadOn(|pages|, tail);
  }

  lemma ContentsOfFile(pages: seq<string>, i: nat)
    requires Fits(Objects(pages)) && i < |pages|
    ensures ReadContents(File(Objects(pages)), PageNumber(i)) == PageNumber(i) + 1
  {
    hide File, Fits, ReadObject, After, Objects, PageObject;
    PageAndContent(pages, i);
    var tail := ObjectFollowed(Objects(pages), PageNumber(i));
    ContentsReadOn(i, tail);
  }

  lemma StreamOfFile(pages: seq<string>, i: nat)
    requires Fits(Objects(pages)) && i < |pages|
    ensures ReadStream(File(Objects(pages)), PageNumber(i) + 1) == pages[i]
  {
    hide File, Fits, ReadObject, After, Objects, ContentObject, ReadNat;
    PageAndContent(pages, i);
    var tail := ObjectFollowed(Objects(pages), PageNumber(i) + 1);
    StreamReadsOn(pages[i], tail);
  }

  /** A reader that follows the file's own table, tree, references and lengths finds its pages. */
  lemma FileReadsBack(pages: seq<string>)
    requires Fits(Objects(pages))
    ensures ReadPages(File(Objects(pages))) == pages
  {
    hide File, Fits, ReadKids, ReadContents, ReadStream, Objects;
    var f := File(Objects(pages));
    KidsOfFile(pages);
    forall i | 0 <= i < |pages| ensures ReadStream(f, ReadContents(f, KidNumbers(|pages|)[i])) == pages[i] {
      ContentsOfFile(pages, i);
      StreamOfFile(pages, i);
    }
  }

  lemma ShortFileFits(objects: seq<string>)
    requires |File(objects)| <= 10_000_000_000
    ensures Fits(objects)
  {
    if objects != [] {
      OffsetsBelow(objects, |objects|);
    }
  }

  /** What `WriteTo` returns, read back, is the table's pages. */
  lemma ReportReadsBack(title: string, rows: seq<Row>)
    requires |File(Objects(TablePages(title, rows)))| <= 10_000_000_000
    ensures ReadPages(File(Objects(TablePages(title, rows)))) == TablePages(title, rows)
  {
    ShortFileFits(Objects(TablePages(title, rows)));
    FileReadsBack(TablePages(title, rows));
  }
}
