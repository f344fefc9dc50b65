/** `normalizeOrderPaymentText`: trimmed, lower-cased, runs of hyphens and blanks joined to one
    underscore. Characters are Latin-1 code points. */
module PaymentText {

  /** The blanks `strings.TrimSpace` removes. */
  predicate Blank(c: char) {
    c == '\t' || c == '\n' || c == '\U{000B}' || c == '\U{000C}' || c == '\r' || c == ' ' || c == '\U{0085}' || c == '\U{00A0}'
  }

  /** The class `[-\s]` of the separator pattern; `\s` is narrower than `TrimSpace`. */
  predicate Separator(c: char) {
    c == '-' || c == '\t' || c == '\n' || c == '\U{000C}' || c == '\r' || c == ' '
  }

  /** The capital letters of Latin-1 outside ASCII; U+00D7 is the multiplication sign. */
  predicate AccentedCapital(c: char) {
    '\U{00C0}' <= c <= '\U{00DE}' && c != '\U{00D7}'
  }

  /** `strings.ToLower` */
  function LowerChar(c: char): char {
    if 'A' <= c <= 'Z' || AccentedCapital(c) then c - 'A' + 'a' else c
  }

  function Lower(s: string): (r: string)
    ensures |r| == |s| && forall i :: 0 <= i < |s| ==> r[i] == LowerChar(s[i])
  {
    seq(|s|, i requires 0 <= i < |s| => LowerChar(s[i]))
  }

  function TrimLeft(s: string): string {
    if s != [] && Blank(s[0]) then TrimLeft(s[1..]) else s
  }

  function TrimRight(s: string): string {
    if s != [] && Blank(s[|s| - 1]) then TrimRight(s[..|s| - 1]) else s
  }

  function Trim(s: string): string {
    TrimRight(TrimLeft(s))
  }

  /** Each maximal run of separators becomes one underscore. */
  function Collapse(s: string): string {
    if s == [] then []
    else
      var n := |s| - 1;
      if !Separator(s[n]) then Collapse(s[..n]) + [s[n]]
      else if n > 0 && Separator(s[n - 1]) then Collapse(s[..n])
      else Collapse(s[..n]) + ['_']
  }

  function Normalize(s: string): string {
    Collapse(Lower(Trim(s)))
  }

  predicate StartsAt(s: string, part: string, i: nat) {
    i + |part| <= |s| && s[i..i + |part|] == part
  }

  predicate Contains(s: string, part: string) {
    exists i :: 0 <= i <= |s| && StartsAt(s, part, i)
  }

  predicate NoSeparators(s: string) {
    forall i :: 0 <= i < |s| ==> !Separator(s[i])
  }

  predicate LowerCase(s: string) {
    forall i :: 0 <= i < |s| ==> LowerChar(s[i]) == s[i]
  }

  predicate SolidEnds(s: string) {
    s != [] ==> !Blank(s[0]) && !Blank(s[|s| - 1])
  }

  lemma {:induction false} CollapseShape(s: string)
    ensures NoSeparators(Collapse(s))
    ensures LowerCase(s) ==> LowerCase(Collapse(s))
    ensures Collapse(s) == [] <==> s == []
    ensures s != [] ==> Collapse(s)[0] == if Separator(s[0]) then '_' else s[0]
    ensures s != [] ==> Collapse(s)[|Collapse(s)| - 1] == if Separator(s[|s| - 1]) then '_' else s[|s| - 1]
  {
    if s != [] {
      CollapseShape(s[..|s| - 1]);
    }
  }

  lemma {:induction false} CollapseOfSolid(s: string)
    requires NoSeparators(s)
    ensures Collapse(s) == s
  {
    if s != [] {
      CollapseOfSolid(s[..|s| - 1]);
    }
  }

  lemma {:induction false} TrimLeftStarts(s: string)
    ensures TrimLeft(s) != [] ==> !Blank(TrimLeft(s)[0])
  {
    if s != [] && Blank(s[0]) {
      TrimLeftStarts(s[1..]);
    }
  }

  lemma {:induction false} TrimRightEnds(s: string)
    ensures TrimRight(s) != [] ==> !Blank(TrimRight(s)[|TrimRight(s)| - 1]) && TrimRight(s)[0] == s[0]
    ensures |TrimRight(s)| <= |s|
  {
    if s != [] && Blank(s[|s| - 1]) {
      TrimRightEnds(s[..|s| - 1]);
    }
  }

  lemma TrimOfSolid(s: string)
    ensures SolidEnds(Trim(s))
    ensures SolidEnds(s) ==> Trim(s) == s
  {
    TrimLeftStarts(s);
    TrimRightEnds(TrimLeft(s));
  }

  /** What every normalised text looks like, and what normalising leaves alone. */
  predicate Normal(s: string) {
    SolidEnds(s) && LowerCase(s) && NoSeparators(s)
  }

  lemma LowerCharFacts(c: char)
    ensures LowerChar(LowerChar(c)) == LowerChar(c)
    ensures Blank(LowerChar(c)) <==> Blank(c)
  {
  }

  lemma LoweredTrim(s: string)
    ensures LowerCase(Lower(Trim(s))) && SolidEnds(Lower(Trim(s)))
  {
    var t := Trim(s);
    TrimOfSolid(s);
    forall i | 0 <= i < |t| ensures LowerChar(Lower(t)[i]) == Lower(t)[i] && (Blank(Lower(t)[i]) <==> Blank(t[i])) {
      LowerCharFacts(t[i]);
    }
  }

  lemma NormalizeIsNormal(s: string)
    ensures Normal(Normalize(s))
  {
    LoweredTrim(s);
    CollapseShape(Lower(Trim(s)));
  }

  lemma NormalStays(s: string)
    requires Normal(s)
    ensures Normalize(s) == s
  {
    TrimOfSolid(s);
    assert Lower(s) == s;
    CollapseOfSolid(s);
  }

  /** Normalising a normalised text changes nothing. */
  lemma NormalizeTwice(s: string)
    ensures Normalize(Normalize(s)) == Normalize(s)
  {
    NormalizeIsNormal(s);
    NormalStays(Normalize(s));
  }

  predicate AllSeparators(s: string) {
    forall i :: 0 <= i < |s| ==> Separator(s[i])
  }

  /** A run of separators between two solid words joins them with one underscore. */
  lemma {:induction false} CollapseJoins(a: string, run: string, b: string)
    requires a != [] && NoSeparators(a) && NoSeparators(b) && run != [] && AllSeparators(run)
    ensures Collapse(a + run + b) == a + ['_'] + b
    decreases |b|, |run|
  {
    var s := a + run + b;
    var n := |s| - 1;
    if b != [] {
      CollapseJoins(a, run, b[..|b| - 1]);
      assert s[..n] == a + run + b[..|b| - 1];
    } else if |run| == 1 {
      assert s[..n] == a;
      assert s[n - 1] == a[|a| - 1];
      CollapseOfSolid(a);
    } else {
      assert s[..n] == a + run[..|run| - 1] + b;
      assert s[n - 1] == run[|run| - 2];
      CollapseJoins(a, run[..|run| - 1], b);
    }
  }

  // ----- texts with single separators

  predicate SingleSeparators(s: string) {
    forall i :: 0 < i < |s| ==> !(Separator(s[i - 1]) && Separator(s[i]))
  }

  function Underscored(s: string): (r: string)
    ensures |r| == |s| && forall i :: 0 <= i < |s| ==> r[i] == if Separator(s[i]) then '_' else s[i]
  {
    seq(|s|, i requires 0 <= i < |s| => if Separator(s[i]) then '_' else s[i])
  }

  lemma SingleSnoc(s: string)
    requires s != []
    ensures var n := |s| - 1;
            SingleSeparators(s) <==> SingleSeparators(s[..n]) && !(n > 0 && Separator(s[n - 1]) && Separator(s[n]))
  {
    var n := |s| - 1;
    assert forall i :: 0 <= i < n ==> s[..n][i] == s[i];
  }

  lemma UnderscoredSnoc(s: string)
    requires s != []
    ensures Underscored(s) == Underscored(s[..|s| - 1]) + [if Separator(s[|s| - 1]) then '_' else s[|s| - 1]]
  {
  }

  /** Collapsing shortens a text just when separators are adjacent; otherwise it replaces them. */
  lemma {:induction false} CollapseReplaces(s: string)
    ensures |Collapse(s)| <= |s|
    ensures |Collapse(s)| == |s| <==> SingleSeparators(s)
    ensures SingleSeparators(s) ==> Collapse(s) == Underscored(s)
  {
    if s != [] {
      hide SingleSeparators, Underscored;
      CollapseReplaces(s[..|s| - 1]);
      SingleSnoc(s);
      UnderscoredSnoc(s);
    } else {
      assert Underscored(s) == [];
    }
  }
}
