/** What normalising does to a payment text: blanks at its ends go, letters become small, and what
    separates two words becomes one underscore. */
module TextLaws {
  import opened PaymentText

  /** A blank of Latin-1: tab to carriage return, space, next line, no-break space. */
  predicate IsBlank(c: char) {
    c in ['\U{0009}', '\U{000A}', '\U{000B}', '\U{000C}', '\U{000D}', ' ', '\U{0085}', '\U{00A0}']
  }

  /** A hyphen, a space, or a tab, line feed, form feed or carriage return. */
  predicate Separates(c: char) {
    c in ['-', ' ', '\U{0009}', '\U{000A}', '\U{000C}', '\U{000D}']
  }

  /** The small letter of a capital of Latin-1, and any other character itself. */
  function Small(c: char): char {
    if ('A' <= c <= 'Z') || ('\U{00C0}' <= c <= '\U{00DE}' && c != '\U{00D7}') then (c as int + 32) as char else c
  }

  predicate Blanks(s: string) {
    forall i :: 0 <= i < |s| ==> IsBlank(s[i])
  }

  /** A word of at least one character, none of them a blank or a separator. */
  predicate Word(s: string) {
    s != "" && forall i :: 0 <= i < |s| ==> !IsBlank(s[i]) && !Separates(s[i])
  }

  predicate Run(s: string) {
    s != "" && forall i :: 0 <= i < |s| ==> Separates(s[i])
  }

  function SmallText(s: string): (r: string)
    ensures |r| == |s| && forall i :: 0 <= i < |s| ==> r[i] == Small(s[i])
  {
    seq(|s|, i requires 0 <= i < |s| => Small(s[i]))
  }

  lemma CharsAre(c: char)
    ensures Blank(c) <==> IsBlank(c)
    ensures Separator(c) <==> Separates(c)
    ensures LowerChar(c) == Small(c)
    ensures !IsBlank(c) && !Separates(c) ==> !Separates(Small(c))
    ensures Separates(c) ==> Small(c) == c
  {
  }

  lemma {:induction false} LeftGoes(lead: string, s: string)
    requires Blanks(lead) && (s != "" ==> !IsBlank(s[0]))
    ensures TrimLeft(lead + s) == s
  {
    if lead != "" {
      CharsAre(lead[0]);
      assert (lead + s)[1..] == lead[1..] + s;
      LeftGoes(lead[1..], s);
    } else {
      assert lead + s == s;
      if s != "" { CharsAre(s[0]); }
    }
  }

  lemma {:induction false} RightGoes(s: string, trail: string)
    requires Blanks(trail) && (s != "" ==> !IsBlank(s[|s| - 1]))
    ensures TrimRight(s + trail) == s
  {
    if trail != "" {
      var n := |trail| - 1;
      CharsAre(trail[n]);
      assert (s + trail)[..|s + trail| - 1] == s + trail[..n];
      RightGoes(s, trail[..n]);
    } else {
      assert s + trail == s;
      if s != "" { CharsAre(s[|s| - 1]); }
    }
  }

  lemma EndsGo(lead: string, s: string, trail: string)
    requires Blanks(lead) && Blanks(trail) && s != "" && !IsBlank(s[0]) && !IsBlank(s[|s| - 1])
    ensures Trim(lead + s + trail) == s
  {
    assert lead + s + trail == lead + (s + trail);
    LeftGoes(lead, s + trail);
    RightGoes(s, trail);
  }

  lemma SmallIs(s: string)
    ensures Lower(s) == SmallText(s)
  {
    forall i | 0 <= i < |s| ensures Lower(s)[i] == SmallText(s)[i] {
      CharsAre(s[i]);
    }
  }

  lemma WordStays(s: string)
    requires Word(s)
    ensures NoSeparators(SmallText(s))
  {
    forall i | 0 <= i < |s| ensures !Separator(SmallText(s)[i]) {
      CharsAre(s[i]);
      CharsAre(Small(s[i]));
    }
  }

  /** A single word is made small. */
  lemma OneWord(lead: string, word: string, trail: string)
    requires Blanks(lead) && Blanks(trail) && Word(word)
    ensures Normalize(lead + word + trail) == SmallText(word)
  {
    EndsGo(lead, word, trail);
    SmallIs(word);
    WordStays(word);
    CollapseOfSolid(SmallText(word));
  }

  /** Two words are joined by one underscore, however long the run of separators between them. */
  lemma TwoWords(lead: string, a: string, run: string, b: string, trail: string)
    requires Blanks(lead) && Blanks(trail) && Word(a) && Word(b) && Run(run)
    ensures Normalize(lead + (a + run + b) + trail) == SmallText(a) + "_" + SmallText(b)
  {
    var s := a + run + b;
    EndsGo(lead, s, trail);
    SmallIs(s);
    WordStays(a);
    WordStays(b);
    forall i | 0 <= i < |run| ensures Separator(run[i]) && Small(run[i]) == run[i] {
      CharsAre(run[i]);
    }
    assert SmallText(s) == SmallText(a) + run + SmallText(b);
    CollapseJoins(SmallText(a), run, SmallText(b));
  }

  lemma NothingLeft(blanks: string)
    requires Blanks(blanks)
    ensures Normalize(blanks) == ""
  {
    assert blanks + "" == blanks;
    LeftGoes(blanks, "");
  }

  lemma {:induction false} LeftOfBlanks(s: string)
    ensures TrimLeft(s) == "" <==> Blanks(s)
  {
    if s != "" {
      CharsAre(s[0]);
      LeftOfBlanks(s[1..]);
      assert forall i :: 0 < i < |s| ==> s[i] == s[1..][i - 1];
    }
  }

  lemma {:induction false} RightOfBlanks(s: string)
    ensures TrimRight(s) == "" <==> Blanks(s)
  {
    if s != "" {
      CharsAre(s[|s| - 1]);
      RightOfBlanks(s[..|s| - 1]);
    }
  }

  lemma {:induction false} LeftKeeps(s: string)
    requires !Blanks(s)
    ensures !Blanks(TrimLeft(s))
  {
    CharsAre(s[0]);
    if IsBlank(s[0]) {
      assert exists i :: 0 <= i < |s| - 1 && !IsBlank(s[1..][i]) by {
        var i :| 0 <= i < |s| && !IsBlank(s[i]);
        assert s[1..][i - 1] == s[i];
      }
      LeftKeeps(s[1..]);
    }
  }

  /** Nothing is left of a text exactly when all of it is blank. */
  lemma TrimEmptyIff(s: string)
    ensures Trim(s) == "" <==> Blanks(s)
  {
    LeftOfBlanks(s);
    RightOfBlanks(TrimLeft(s));
    if !Blanks(s) {
      LeftKeeps(s);
    }
  }
}
