/** When the report's expressions and the audit make the same of a payment text. */
module TextAgreement {
  import opened PaymentText
  import opened Expressions

  /** What the expressions make of a text. */
  function MongoNormal(s: string): string {
    ReplaceChar(ReplaceChar(MongoTrim(MongoLower(s)), '-', '_'), ' ', '_')
  }

  /** A text both sides trim alike, with single hyphens and plain blanks as its only separators. */
  predicate Separated(s: string) {
    var t := Trim(s);
    t == MongoTrim(s) && SingleSeparators(t) && forall i :: 0 <= i < |t| && Separator(t[i]) ==> t[i] == '-' || t[i] == ' '
  }

  /** And without a capital letter beyond ASCII. */
  predicate Tidy(s: string) {
    Separated(s) && forall i :: 0 <= i < |Trim(s)| ==> !AccentedCapital(Trim(s)[i])
  }

  // ----- the expressions lower first, the audit trims first

  lemma {:induction false} TrimLeftOfLower(s: string)
    ensures MongoTrimLeft(MongoLower(s)) == MongoLower(MongoTrimLeft(s))
  {
    if s != [] {
      TrimLeftOfLower(s[1..]);
      assert MongoLower(s)[1..] == MongoLower(s[1..]);
    }
  }

  lemma {:induction false} TrimRightOfLower(s: string)
    ensures MongoTrimRight(MongoLower(s)) == MongoLower(MongoTrimRight(s))
  {
    if s != [] {
      TrimRightOfLower(s[..|s| - 1]);
      assert MongoLower(s)[..|s| - 1] == MongoLower(s[..|s| - 1]);
    }
  }

  lemma MongoNormalAt(s: string)
    ensures var t, m := MongoTrim(s), MongoNormal(s);
            |m| == |t| && forall i :: 0 <= i < |t| ==> m[i] == if t[i] == '-' || t[i] == ' ' then '_' else MongoLowerChar(t[i])
  {
    TrimLeftOfLower(s);
    TrimRightOfLower(MongoTrimLeft(s));
  }

  // ----- trimming

  lemma {:induction false} LeftEdge(s: string)
    ensures var a, b := TrimLeft(s), MongoTrimLeft(s);
            a == b || (a != [] && a[0] == '\U{0000}') || (b != [] && b[0] == '\U{0085}')
    ensures MongoTrimLeft(s) != [] ==> !MongoBlank(MongoTrimLeft(s)[0])
  {
    if s != [] && (Blank(s[0]) || MongoBlank(s[0])) {
      LeftEdge(s[1..]);
    }
  }

  lemma {:induction false} RightEdge(s: string)
    ensures var a, b := TrimRight(s), MongoTrimRight(s);
            a == b || (a != [] && a[|a| - 1] == '\U{0000}') || (b != [] && b[|b| - 1] == '\U{0085}')
    ensures MongoTrimRight(s) != [] ==> !MongoBlank(MongoTrimRight(s)[|MongoTrimRight(s)| - 1])
  {
    if s != [] && (Blank(s[|s| - 1]) || MongoBlank(s[|s| - 1])) {
      RightEdge(s[..|s| - 1]);
    }
  }

  lemma {:induction false} FirstCharStays(s: string)
    requires s != []
    ensures !Blank(s[0]) ==> TrimRight(s) != [] && TrimRight(s)[0] == s[0]
    ensures !MongoBlank(s[0]) ==> MongoTrimRight(s) != [] && MongoTrimRight(s)[0] == s[0]
  {
    if |s| > 1 {
      FirstCharStays(s[..|s| - 1]);
    }
  }

  predicate HasEnd(s: string, c: char) {
    s != [] && (s[0] == c || s[|s| - 1] == c)
  }

  /** Only a null character or a next-line character at an end is trimmed by one side alone. */
  lemma TrimsDiffer(s: string)
    ensures Trim(s) == MongoTrim(s) || HasEnd(Trim(s), '\U{0000}') || HasEnd(MongoTrim(s), '\U{0085}')
    ensures var t := MongoTrim(s); t != [] ==> !MongoBlank(t[0]) && !MongoBlank(t[|t| - 1])
  {
    var a, b := TrimLeft(s), MongoTrimLeft(s);
    LeftEdge(s);
    RightEdge(b);
    TrimLeftStarts(s);
    if a != [] {
      FirstCharStays(a);
    }
    if b != [] {
      FirstCharStays(b);
    }
  }

  /** What ends either result. */
  lemma EndsOfNormals(s: string)
    ensures Normalize(s) == [] <==> Trim(s) == []
    ensures !HasEnd(Normalize(s), '\U{0085}')
    ensures !HasEnd(MongoNormal(s), '\U{0000}')
    ensures HasEnd(Trim(s), '\U{0000}') ==> HasEnd(Normalize(s), '\U{0000}')
    ensures HasEnd(MongoTrim(s), '\U{0085}') ==> HasEnd(MongoNormal(s), '\U{0085}')
  {
    hide TrimLeft, TrimRight, MongoTrim, MongoNormal, Collapse;
    TrimOfSolid(s);
    CollapseShape(Lower(Trim(s)));
    TrimsDiffer(s);
    MongoNormalAt(s);
  }

  // ----- between the ends

  lemma SeparatorsStay(s: string)
    ensures SingleSeparators(Lower(s)) <==> SingleSeparators(s)
  {
    forall i | 0 <= i < |s| ensures Separator(Lower(s)[i]) <==> Separator(s[i]) {
    }
    if SingleSeparators(Lower(s)) {
      forall i | 0 < i < |s| ensures !(Separator(s[i - 1]) && Separator(s[i])) {
        assert !(Separator(Lower(s)[i - 1]) && Separator(Lower(s)[i]));
      }
    }
  }

  predicate PlainChar(c: char) {
    (Separator(c) ==> c == '-' || c == ' ') && !AccentedCapital(c)
  }

  lemma CharsAgreeIff(c: char)
    ensures (if Separator(LowerChar(c)) then '_' else LowerChar(c)) == (if c == '-' || c == ' ' then '_' else MongoLowerChar(c))
            <==> PlainChar(c)
  {
  }

  lemma InnerAgreeIff(s: string)
    requires Trim(s) == MongoTrim(s)
    ensures MongoNormal(s) == Normalize(s) <==> Tidy(s)
  {
    var t := Trim(s);
    MongoNormalAt(s);
    CollapseReplaces(Lower(t));
    SeparatorsStay(t);
    forall i | 0 <= i < |t| ensures Underscored(Lower(t))[i] == MongoNormal(s)[i] <==> PlainChar(t[i]) {
      CharsAgreeIff(t[i]);
    }
    if SingleSeparators(t) && forall i :: 0 <= i < |t| ==> PlainChar(t[i]) {
      assert Underscored(Lower(t)) == MongoNormal(s);
    }
  }

  /** The two normalisations agree exactly on tidy texts. */
  lemma NormalizationsAgreeIff(s: string)
    ensures MongoNormal(s) == Normalize(s) <==> Tidy(s)
  {
    if Trim(s) == MongoTrim(s) {
      InnerAgreeIff(s);
    } else {
      TrimsDiffer(s);
      EndsOfNormals(s);
    }
  }

  // ----- the words that matter are ASCII

  predicate Ascii(s: string) {
    forall i :: 0 <= i < |s| ==> s[i] <= '\U{007F}'
  }

  predicate SameToAscii(a: string, b: string) {
    |a| == |b| && forall i :: 0 <= i < |a| ==> a[i] == b[i] || (a[i] > '\U{007F}' && b[i] > '\U{007F}')
  }

  lemma StartsAlike(a: string, b: string, word: string, i: nat)
    requires SameToAscii(a, b) && Ascii(word) && StartsAt(a, word, i)
    ensures StartsAt(b, word, i)
  {
    forall d | 0 <= d < |word| ensures b[i..i + |word|][d] == word[d] {
      assert a[i..i + |word|][d] == a[i + d];
    }
  }

  /** No ASCII word tells two such texts apart. */
  lemma WordsAlike(a: string, b: string, word: string)
    requires SameToAscii(a, b) && Ascii(word)
    ensures a == word <==> b == word
    ensures Contains(a, word) <==> Contains(b, word)
  {
    forall i | 0 <= i <= |a| ensures StartsAt(a, word, i) <==> StartsAt(b, word, i) {
      if StartsAt(a, word, i) { StartsAlike(a, b, word, i); }
      if StartsAt(b, word, i) { StartsAlike(b, a, word, i); }
    }
  }

  /** Lower-casing accented letters differently hides no separator and no ASCII letter. */
  lemma SeparatedAlike(s: string)
    requires Separated(s)
    ensures SameToAscii(Normalize(s), MongoNormal(s))
  {
    var t := Trim(s);
    MongoNormalAt(s);
    CollapseReplaces(Lower(t));
    SeparatorsStay(t);
  }

  // ----- concrete texts

  lemma SolidForMongo(s: string)
    requires s != [] && !MongoBlank(s[0]) && !MongoBlank(s[|s| - 1])
    ensures MongoTrim(s) == s
  {
  }

  /** A capital letter beyond ASCII is lowered by the audit alone. */
  lemma AccentsDisagree()
    ensures Separated("CAF\U{00C9}") && MongoNormal("CAF\U{00C9}") != Normalize("CAF\U{00C9}")
  {
    var s := "CAF\U{00C9}";
    TrimOfSolid(s);
    SolidForMongo(s);
    assert AccentedCapital(s[3]);
    NormalizationsAgreeIff(s);
  }
}
