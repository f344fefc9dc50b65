/** Numbers and strings in a PDF file: how the writer prints them and how a reader takes them
    back (sections 7.3.3 and 7.3.4.2 of ISO 32000-1). A character stands for one byte. */
module PdfText {

  // ----- numbers

  function Digit(n: nat): char
    requires n < 10
  {
    '0' + n as char
  }

  predicate IsDigit(c: char) {
    '0' <= c <= '9'
  }

  function DigitValue(c: char): nat
    requires IsDigit(c)
  {
    c as int - '0' as int
  }

  /** `%d` */
  function Decimal(n: nat): (s: string)
    ensures s != []
  {
    if n < 10 then [Digit(n)] else Decimal(n / 10) + [Digit(n % 10)]
  }

  /** `%010d` */
  function TenDigits(n: nat): (s: string)
    ensures |s| >= 10
  {
    var s := Decimal(n);
    if |s| >= 10 then s else seq(10 - |s|, _ => '0') + s
  }

  predicate AllDigits(s: string) {
    forall i :: 0 <= i < |s| ==> IsDigit(s[i])
  }

  function NatValue(s: string): nat
    requires AllDigits(s)
  {
    if s == [] then 0 else NatValue(s[..|s| - 1]) * 10 + DigitValue(s[|s| - 1])
  }

  /** The digits a text starts with. */
  function Leading(s: string): (d: string)
    ensures AllDigits(d) && d <= s
  {
    if s != [] && IsDigit(s[0]) then [s[0]] + Leading(s[1..]) else []
  }

  /** A reader takes the number at the front of a text and goes on behind it. */
  function ReadNat(s: string): (nat, string) {
    (NatValue(Leading(s)), s[|Leading(s)|..])
  }

  lemma {:induction false} DecimalReads(n: nat)
    ensures AllDigits(Decimal(n)) && NatValue(Decimal(n)) == n
  {
    if n < 10 {
      assert [Digit(n)][..0] == [];
    } else {
      DecimalReads(n / 10);
      assert Decimal(n)[..|Decimal(n)| - 1] == Decimal(n / 10);
    }
  }

  lemma {:induction false} LeadingAll(d: string, rest: string)
    requires AllDigits(d) && (rest != [] ==> !IsDigit(rest[0]))
    ensures Leading(d + rest) == d
  {
    if d == [] {
      assert d + rest == rest;
    } else {
      assert (d + rest)[1..] == d[1..] + rest;
      LeadingAll(d[1..], rest);
    }
  }

  lemma ReadsDecimal(n: nat, rest: string)
    requires rest != [] ==> !IsDigit(rest[0])
    ensures ReadNat(Decimal(n) + rest) == (n, rest)
  {
    DecimalReads(n);
    LeadingAll(Decimal(n), rest);
    assert (Decimal(n) + rest)[|Decimal(n)|..] == rest;
  }

  lemma {:induction false} ZerosRead(k: nat, s: string)
    requires AllDigits(s)
    ensures AllDigits(seq(k, _ => '0') + s) && NatValue(seq(k, _ => '0') + s) == NatValue(s)
    decreases |s|, k
  {
    var z := seq(k, _ => '0');
    if s != [] {
      ZerosRead(k, s[..|s| - 1]);
      assert (z + s)[..|z + s| - 1] == z + s[..|s| - 1];
    } else if k > 0 {
      ZerosRead(k - 1, s);
      assert (z + s)[..|z + s| - 1] == seq(k - 1, _ => '0') + s;
    } else {
      assert z + s == s;
    }
  }

  function Power(k: nat): nat {
    if k == 0 then 1 else 10 * Power(k - 1)
  }

  lemma {:induction false} DecimalLength(n: nat, k: nat)
    requires k > 0
    ensures |Decimal(n)| <= k <==> n < Power(k)
  {
    if n < 10 {
      PowerGrows(k);
    } else if k == 1 {
      assert Power(0) == 1;
    } else {
      DecimalLength(n / 10, k - 1);
    }
  }

  lemma {:induction false} PowerGrows(k: nat)
    requires k > 0
    ensures Power(k) >= 10
  {
    if k == 1 {
      assert Power(0) == 1;
    } else {
      PowerGrows(k - 1);
    }
  }

  lemma {:induction false} ValueBelow(s: string)
    requires AllDigits(s)
    ensures NatValue(s) < Power(|s|)
  {
    if s != [] {
      ValueBelow(s[..|s| - 1]);
    }
  }

  /** A padded number reads back, and keeps the ten bytes of a cross-reference entry exactly when
      it is below ten to the tenth. */
  lemma TenDigitsRead(n: nat)
    ensures AllDigits(TenDigits(n)) && NatValue(TenDigits(n)) == n
    ensures |TenDigits(n)| == 10 <==> n < 10_000_000_000
  {
    DecimalReads(n);
    if |Decimal(n)| < 10 {
      ZerosRead(10 - |Decimal(n)|, Decimal(n));
    }
    DecimalLength(n, 10);
    PowerOfTen();
  }

  lemma PowerOfTen()
    ensures Power(10) == 10_000_000_000
  {
    assert Power(5) == 100_000 by {
      assert Power(2) == 100;
    }
    assert Power(8) == 100_000_000;
  }

  // ----- literal strings

  function Replace(s: string, c: char, to: string): string {
    if s == [] then [] else Replace(s[..|s| - 1], c, to) + (if s[|s| - 1] == c then to else [s[|s| - 1]])
  }

  /** Five replacements, one after the other. */
  function Replacements(s: string): string {
    Replace(Replace(Replace(Replace(Replace(s, '\\', "\\\\"), '(', "\\("), ')', "\\)"), '\r', " "), '\n', " ")
  }

  /** What a reader of a literal string has seen: its text and what follows the closing parenthesis. */
  datatype Literal = Literal(text: string, rest: string) | Unterminated

  /** Section 7.3.4.2: a backslash escapes the next byte, balanced parentheses belong to the
      text, and the first unbalanced closing one ends it. Of the escapes only those of the
      three delimiters occur here; the others read as the byte itself. */
  function ReadLiteral(s: string, depth: nat): Literal {
    if s == [] then Unterminated
    else if s[0] == '\\' then (if |s| == 1 then Unterminated else Prefixed(s[1], ReadLiteral(s[2..], depth)))
    else if s[0] == '(' then Prefixed('(', ReadLiteral(s[1..], depth + 1))
    else if s[0] == ')' then (if depth == 0 then Literal([], s[1..]) else Prefixed(')', ReadLiteral(s[1..], depth - 1)))
    else Prefixed(s[0], ReadLiteral(s[1..], depth))
  }

  function Prefixed(c: char, l: Literal): Literal {
    if l.Literal? then Literal([c] + l.text, l.rest) else Unterminated
  }

  /** The text with line breaks shown as blanks. */
  function Spaced(s: string): (r: string)
    ensures |r| == |s|
  {
    seq(|s|, i requires 0 <= i < |s| => if s[i] == '\r' || s[i] == '\n' then ' ' else s[i])
  }

  function EscapedChar(c: char): string {
    if c == '\\' then "\\\\" else if c == '(' then "\\(" else if c == ')' then "\\)" else if c == '\r' || c == '\n' then " " else [c]
  }

  function Escape(s: string): string {
    if s == [] then [] else Escape(s[..|s| - 1]) + EscapedChar(s[|s| - 1])
  }

  lemma {:induction false} ReplaceConcat(a: string, b: string, c: char, to: string)
    ensures Replace(a + b, c, to) == Replace(a, c, to) + Replace(b, c, to)
  {
    if b == [] {
      assert a + b == a;
    } else {
      var n := |b| - 1;
      assert (a + b)[..|a + b| - 1] == a + b[..n];
      ReplaceConcat(a, b[..n], c, to);
    }
  }

  lemma ReplacementsConcat(a: string, b: string)
    ensures Replacements(a + b) == Replacements(a) + Replacements(b)
  {
    var a1, b1 := Replace(a, '\\', "\\\\"), Replace(b, '\\', "\\\\");
    ReplaceConcat(a, b, '\\', "\\\\");
    var a2, b2 := Replace(a1, '(', "\\("), Replace(b1, '(', "\\(");
    ReplaceConcat(a1, b1, '(', "\\(");
    var a3, b3 := Replace(a2, ')', "\\)"), Replace(b2, ')', "\\)");
    ReplaceConcat(a2, b2, ')', "\\)");
    var a4, b4 := Replace(a3, '\r', " "), Replace(b3, '\r', " ");
    ReplaceConcat(a3, b3, '\r', " ");
    ReplaceConcat(a4, b4, '\n', " ");
  }

  lemma ReplaceOne(x: char, c: char, to: string)
    ensures Replace([x], c, to) == if x == c then to else [x]
  {
    assert [x][..0] == [];
  }

  /** A pair without the replaced byte stays. */
  lemma PairStays(x: char, y: char, c: char, to: string)
    requires x != c && y != c
    ensures Replace([x, y], c, to) == [x, y]
  {
    assert [x, y][..1] == [x];
    ReplaceOne(x, c, to);
  }

  lemma BackslashReplaced()
    ensures Replacements(['\\']) == "\\\\"
  {
    ReplaceOne('\\', '\\', "\\\\");
    assert "\\\\" == ['\\', '\\'];
    PairStays('\\', '\\', '(', "\\(");
    PairStays('\\', '\\', ')', "\\)");
    PairStays('\\', '\\', '\r', " ");
    PairStays('\\', '\\', '\n', " ");
  }

  lemma OpeningReplaced()
    ensures Replacements(['(']) == "\\("
  {
    ReplaceOne('(', '\\', "\\\\");
    ReplaceOne('(', '(', "\\(");
    assert "\\(" == ['\\', '('];
    PairStays('\\', '(', ')', "\\)");
    PairStays('\\', '(', '\r', " ");
    PairStays('\\', '(', '\n', " ");
  }

  lemma ClosingReplaced()
    ensures Replacements([')']) == "\\)"
  {
    ReplaceOne(')', '\\', "\\\\");
    ReplaceOne(')', '(', "\\(");
    ReplaceOne(')', ')', "\\)");
    assert "\\)" == ['\\', ')'];
    PairStays('\\', ')', '\r', " ");
    PairStays('\\', ')', '\n', " ");
  }

  lemma PlainReplaced(x: char)
    requires x != '\\' && x != '(' && x != ')'
    ensures Replacements([x]) == EscapedChar(x)
  {
    ReplaceOne(x, '\\', "\\\\");
    ReplaceOne(x, '(', "\\(");
    ReplaceOne(x, ')', "\\)");
    ReplaceOne(x, '\r', " ");
    ReplaceOne(x, '\n', " ");
    ReplaceOne(' ', '\n', " ");
  }

  /** The later replacements leave the escapes of the earlier ones alone. */
  lemma OneReplaced(x: char)
    ensures Replacements([x]) == EscapedChar(x)
  {
    BackslashReplaced();
    OpeningReplaced();
    ClosingReplaced();
    if x != '\\' && x != '(' && x != ')' {
      PlainReplaced(x);
    }
  }

  lemma FirstThenRest(whole: string, first: string, others: string, rest: string)
    requires whole == first + others
    ensures whole + [')'] + rest == first + (others + [')'] + rest)
  {
  }

  /** The replacements escape byte by byte. */
  lemma {:induction false} ReplacementsEscape(s: string)
    ensures Replacements(s) == Escape(s)
  {
    hide Replacements, Escape, EscapedChar;
    if s == [] {
      NothingReplaced();
    } else {
      var t, c := s[..|s| - 1], s[|s| - 1];
      ReplacementsEscape(t);
      SnocReplaced(t, c);
      EscapeSnoc(t, c);
      assert s == t + [c];
    }
  }

  lemma NothingReplaced()
    ensures Replacements([]) == Escape([])
  {
  }

  lemma EscapeSnoc(t: string, c: char)
    ensures Escape(t + [c]) == Escape(t) + EscapedChar(c)
  {
    assert (t + [c])[..|t|] == t;
  }

  lemma SnocReplaced(t: string, c: char)
    ensures Replacements(t + [c]) == Replacements(t) + EscapedChar(c)
  {
    ReplacementsConcat(t, [c]);
    OneReplaced(c);
  }

  /** `escapePDFText` */
  method EscapePDFText(value: string) returns (r: string)
    ensures r == Escape(value)
  {
    r := Replace(value, '\\', "\\\\");
    r := Replace(r, '(', "\\(");
    r := Replace(r, ')', "\\)");
    r := Replace(r, '\r', " ");
    r := Replace(r, '\n', " ");
    ReplacementsEscape(value);
  }

  lemma {:induction false} EscapeConcat(a: string, b: string)
    ensures Escape(a + b) == Escape(a) + Escape(b)
  {
    if b == [] {
      assert a + b == a;
    } else {
      hide Escape, EscapedChar;
      var t, c := b[..|b| - 1], b[|b| - 1];
      SnocApart(a, b);
      EscapeConcat(a, t);
      EscapeSnoc(a + t, c);
      EscapeSnoc(t, c);
      Assoc(Escape(a), Escape(t), EscapedChar(c));
    }
  }

  lemma SnocApart(a: string, b: string)
    requires b != []
    ensures b == b[..|b| - 1] + [b[|b| - 1]] && a + b == a + b[..|b| - 1] + [b[|b| - 1]]
  {
  }

  lemma Assoc(a: string, b: string, c: string)
    ensures a + b + c == a + (b + c)
  {
  }

  lemma EscapeCons(c: char, t: string)
    ensures Escape([c] + t) == EscapedChar(c) + Escape(t)
  {
    EscapeConcat([c], t);
    assert [c][..0] == [];
  }

  lemma SpacedSplits(s: string)
    requires s != []
    ensures Spaced(s) == [Spaced([s[0]])[0]] + Spaced(s[1..])
  {
  }

  /** An escaped text followed by its closing parenthesis reads back as the text, with line
      breaks as blanks; nothing inside it can end the string early. */
  lemma {:induction false} EscapedReadsBack(s: string, rest: string)
    ensures ReadLiteral(Escape(s) + [')'] + rest, 0) == Literal(Spaced(s), rest)
  {
    if s == [] {
      NothingReadsBack(rest);
    } else {
      assert s == [s[0]] + s[1..];
      EscapeCons(s[0], s[1..]);
      FirstThenRest(Escape(s), EscapedChar(s[0]), Escape(s[1..]), rest);
      EscapedReadsBack(s[1..], rest);
      EscapedCharReads(s[0], Escape(s[1..]) + [')'] + rest);
      SpacedSplits(s);
    }
  }

  lemma NothingReadsBack(rest: string)
    ensures ReadLiteral(Escape([]) + [')'] + rest, 0) == Literal(Spaced([]), rest)
  {
    assert Escape([]) + [')'] + rest == [')'] + rest;
    assert ([')'] + rest)[1..] == rest;
    assert Spaced([]) == [];
  }

  lemma EscapedCharReads(c: char, tail: string)
    ensures ReadLiteral(EscapedChar(c) + tail, 0) == Prefixed(Spaced([c])[0], ReadLiteral(tail, 0))
  {
    var s := EscapedChar(c) + tail;
    if c == '\\' || c == '(' || c == ')' {
      assert s[0] == '\\' && s[1] == c && s[2..] == tail;
    } else {
      assert s[1..] == tail;
    }
  }
}
