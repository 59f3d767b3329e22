/**
 * Page-text clean-up (clean_text) and the extraction of a manual's description
 * from its first page (extract_description), utils.py:12-19 and 58-100.
 */
module TextNormalization {
  import opened Strings
  import opened Regex

  /** No hyphen stands right before a line break. */
  predicate NoHyphenBreak(s: string) {
    forall i :: 0 <= i < |s| - 1 ==> !(s[i] == '-' && s[i + 1] == '\n')
  }

  /** No three line breaks in a row. */
  predicate NoTripleNewline(s: string) {
    forall i :: 0 <= i < |s| - 2 ==> !(s[i] == '\n' && s[i + 1] == '\n' && s[i + 2] == '\n')
  }

  /** clean_text: carriage returns become line breaks, hyphenated line breaks are
      joined, runs of blank lines shrink to one blank line, and the result is stripped. */
  function CleanText(s: string): (r: string)
    ensures s == [] ==> r == []
    ensures '\r' !in r
    ensures NoHyphenBreak(r)
    ensures NoTripleNewline(r)
    ensures r == [] || (!IsSpace(r[0]) && !IsSpace(r[|r| - 1]))
  {
    if s == [] then []
    else
      var s1 := Replace(s, "\r", "\n");
      var s2 := Sub(s1, HyphenBreak, Delete);
      var s3 := Sub(s2, NewlineRun, TwoNewlines);
      ReplaceClears(s, '\r', "\n");
      SubAbsent(s1, HyphenBreak, Delete, '\r');
      SubAbsent(s2, NewlineRun, TwoNewlines, '\r');
      JoinedBreaks(s1);
      CollapsedKeepsNoHyphenBreak(s2);
      CollapsedNewlines(s2);
      StripKeeps(s3);
      Strip(s3)
  }

  /** Slicing cannot create a hyphenated line break or a run of three line breaks. */
  lemma SliceKeeps(s: string, a: nat, b: nat)
    requires a <= b <= |s|
    ensures NoHyphenBreak(s) ==> NoHyphenBreak(s[a..b])
    ensures NoTripleNewline(s) ==> NoTripleNewline(s[a..b])
    ensures '\r' !in s ==> '\r' !in s[a..b]
  {
    if NoHyphenBreak(s) {
      forall i | 0 <= i < b - a - 1 ensures !(s[a..b][i] == '-' && s[a..b][i + 1] == '\n') {
        assert s[a..b][i] == s[a + i] && s[a..b][i + 1] == s[a + i + 1];
      }
    }
    if NoTripleNewline(s) {
      forall i | 0 <= i < b - a - 2
        ensures !(s[a..b][i] == '\n' && s[a..b][i + 1] == '\n' && s[a..b][i + 2] == '\n')
      {
        assert s[a..b][i] == s[a + i] && s[a..b][i + 1] == s[a + i + 1] && s[a..b][i + 2] == s[a + i + 2];
      }
    }
  }

  lemma StripKeeps(s: string)
    ensures NoHyphenBreak(s) ==> NoHyphenBreak(Strip(s))
    ensures NoTripleNewline(s) ==> NoTripleNewline(Strip(s))
    ensures '\r' !in s ==> '\r' !in Strip(s)
  {
    var a, b := StripSlice(s);
    SliceKeeps(s, a, b);
  }

  /** After `-\n\s*` has been removed, the text does not start with a line break
      unless it did so before. */
  lemma {:induction false} JoinedBreaksStart(s: string)
    requires s == [] || s[0] != '\n'
    ensures var r := Sub(s, HyphenBreak, Delete); r == [] || r[0] != '\n'
    decreases |s|
  {
    var n := HyphenBreak(s);
    if s != [] && n > 0 {
      var rest := s[n..];
      assert rest == [] || rest[0] == s[2..][Spaces(s[2..])];
      JoinedBreaksStart(rest);
    }
  }

  /** Removing every `-\n\s*` leaves no hyphen before a line break, including
      where a removal brings a hyphen next to new text. */
  lemma {:induction false} JoinedBreaks(s: string)
    ensures NoHyphenBreak(Sub(s, HyphenBreak, Delete))
    decreases |s|
  {
    if s != [] {
      var n := HyphenBreak(s);
      if n > 0 {
        JoinedBreaks(s[n..]);
      } else {
        var t := Sub(s[1..], HyphenBreak, Delete);
        JoinedBreaks(s[1..]);
        if s[0] == '-' {
          JoinedBreaksStart(s[1..]);
        }
        ConsNoHyphenBreak(s[0], t);
      }
    }
  }

  lemma ConsNoHyphenBreak(x: char, t: string)
    requires NoHyphenBreak(t)
    requires x == '-' ==> t == [] || t[0] != '\n'
    ensures NoHyphenBreak([x] + t)
  {
    var u := [x] + t;
    forall i | 0 <= i < |u| - 1 ensures !(u[i] == '-' && u[i + 1] == '\n') {
      if i > 0 {
        assert u[i] == t[i - 1] && u[i + 1] == t[i];
      }
    }
  }

  /** Shrinking newline runs keeps the first character. */
  lemma {:induction false} CollapsedStart(s: string)
    requires s != []
    ensures var r := Sub(s, NewlineRun, TwoNewlines); r != [] && r[0] == s[0]
  {
    if NewlineRun(s) == 0 {
      assert Sub(s, NewlineRun, TwoNewlines) == [s[0]] + Sub(s[1..], NewlineRun, TwoNewlines);
    }
  }

  /** Shrinking newline runs creates no hyphenated line break. */
  lemma {:induction false} CollapsedKeepsNoHyphenBreak(s: string)
    requires NoHyphenBreak(s)
    ensures NoHyphenBreak(Sub(s, NewlineRun, TwoNewlines))
    decreases |s|
  {
    if s != [] {
      var n := NewlineRun(s);
      var rest := if n > 0 then s[n..] else s[1..];
      SliceKeeps(s, |s| - |rest|, |s|);
      assert s[|s| - |rest|..|s|] == rest;
      CollapsedKeepsNoHyphenBreak(rest);
      CollapseStep(s);
      if n > 0 {
        RunKeepsNoHyphenBreak(Sub(rest, NewlineRun, TwoNewlines));
      } else {
        CharKeepsNoHyphenBreak(s);
      }
    }
  }

  lemma RunKeepsNoHyphenBreak(t: string)
    requires NoHyphenBreak(t)
    ensures NoHyphenBreak("\n\n" + t)
  {
    ConsNoHyphenBreak('\n', t);
    ConsNoHyphenBreak('\n', ['\n'] + t);
    assert "\n\n" + t == ['\n'] + (['\n'] + t);
  }

  lemma CharKeepsNoHyphenBreak(s: string)
    requires s != [] && NewlineRun(s) == 0 && NoHyphenBreak(s)
    requires NoHyphenBreak(Sub(s[1..], NewlineRun, TwoNewlines))
    ensures NoHyphenBreak([s[0]] + Sub(s[1..], NewlineRun, TwoNewlines))
  {
    var t := Sub(s[1..], NewlineRun, TwoNewlines);
    if s[0] == '-' && |s| > 1 {
      assert s[1] != '\n';
      CollapsedStart(s[1..]);
    }
    ConsNoHyphenBreak(s[0], t);
  }

  /** One step of the newline-run substitution. */
  lemma CollapseStep(s: string)
    requires s != []
    ensures var n := NewlineRun(s);
            Sub(s, NewlineRun, TwoNewlines)
            == if n > 0 then "\n\n" + Sub(s[n..], NewlineRun, TwoNewlines)
               else [s[0]] + Sub(s[1..], NewlineRun, TwoNewlines)
  {
  }

  lemma NewlineRunFacts(s: string)
    ensures var n := NewlineRun(s); n > 0 ==> s[0] == '\n' && (n == |s| || s[n] != '\n')
    ensures NewlineRun(s) == 0 && |s| >= 2 && s[0] == '\n' ==> s[1] != '\n'
  {
  }

  /** A line break, a line break, and a text that does not start with one. */
  lemma TwoThenNoNewline(t: string)
    requires NoTripleNewline(t) && (t == [] || t[0] != '\n')
    ensures NoTripleNewline("\n\n" + t)
  {
    var r := "\n\n" + t;
    forall i | 0 <= i < |r| - 2 ensures !(r[i] == '\n' && r[i + 1] == '\n' && r[i + 2] == '\n') {
      if i >= 2 {
        assert r[i] == t[i - 2] && r[i + 1] == t[i - 1] && r[i + 2] == t[i];
      } else if i == 1 {
        assert r[i + 1] == t[0];
      } else {
        assert r[i + 2] == t[0];
      }
    }
  }

  lemma ConsNoTripleNewline(x: char, t: string)
    requires NoTripleNewline(t) && (x == '\n' ==> t == [] || t[0] != '\n')
    ensures NoTripleNewline([x] + t)
  {
    var r := [x] + t;
    forall i | 0 <= i < |r| - 2 ensures !(r[i] == '\n' && r[i + 1] == '\n' && r[i + 2] == '\n') {
      if i >= 1 {
        assert r[i] == t[i - 1] && r[i + 1] == t[i] && r[i + 2] == t[i + 1];
      } else {
        assert r[i + 1] == t[0];
      }
    }
  }

  /** After `\n{2,}` has been replaced by two line breaks, no three line breaks follow each other. */
  lemma {:induction false} CollapsedNewlines(s: string)
    ensures NoTripleNewline(Sub(s, NewlineRun, TwoNewlines))
    decreases |s|
  {
    if s != [] {
      var n := NewlineRun(s);
      NewlineRunFacts(s);
      var rest := if n > 0 then s[n..] else s[1..];
      CollapsedNewlines(rest);
      var t := Sub(rest, NewlineRun, TwoNewlines);
      if rest != [] {
        CollapsedStart(rest);
      }
      if n > 0 {
        assert Sub(s, NewlineRun, TwoNewlines) == "\n\n" + t;
        TwoThenNoNewline(t);
      } else {
        assert Sub(s, NewlineRun, TwoNewlines) == [s[0]] + t;
        ConsNoTripleNewline(s[0], t);
      }
    }
  }

  // ---------------------------------------------------------------------
  // extract_description
  // ---------------------------------------------------------------------

  const ManualSentenceStart: string := "BO-VEST"
  const ManualSentenceName: string := "BO-VEST bæredygtighedsmanual"

  /** extract_description: the BO-VEST sentence of a noisy first page (or the
      whole page when there is none), without the running header and footer,
      with whitespace runs shrunk to one space, and with "BO-VEST" spelt out
      as "BO-VEST bæredygtighedsmanual". The result never holds a line
      break, '>' or '/'. */
  function ExtractDescription(text: string): (r: string)
    ensures '\n' !in r && '>' !in r && '/' !in r
  {
    DescriptionChars(text);
    DescriptionFrom(Denoised(text))
  }

  /** utils.py:65-71: line breaks become spaces, the text is stripped, doubled
      letters are undoubled and runs of '>' and '/' are dropped. */
  function Denoised(text: string): string {
    var t1 := Strip(Replace(text, "\n", " "));
    var t2 := Sub(t1, RepeatedWordChar, FirstChar);
    Sub(t2, AngleOrSlashRun, Delete)
  }

  /** utils.py:74-98: pick the BO-VEST sentence, drop header and footer, shrink
      whitespace, strip, and spell out the manual's name. */
  function DescriptionFrom(t: string): string {
    var found := SearchText(t, DescriptionSentence);
    var d0 := if found.Some? then found.value else t;
    var d1 := Sub(d0, ManualHeader, Delete);
    var d2 := Sub(d1, EditionFooter, Delete);
    var d3 := Strip(Sub(d2, SpaceRun, OneSpace));
    Replace(d3, ManualSentenceStart, ManualSentenceName)
  }

  lemma DescriptionChars(text: string)
    ensures var r := DescriptionFrom(Denoised(text)); '\n' !in r && '>' !in r && '/' !in r
  {
    var t := Denoised(text);
    DenoisedChars(text);
    NameChars();
    DescriptionKeepsOut(t, '\n');
    DescriptionKeepsOut(t, '>');
    DescriptionKeepsOut(t, '/');
  }

  lemma NameChars()
    ensures '\n' !in ManualSentenceName && '>' !in ManualSentenceName && '/' !in ManualSentenceName
  {
    var n := ManualSentenceName;
    assert forall i :: 0 <= i < |n| ==> n[i] != '\n' && n[i] != '>' && n[i] != '/';
  }

  /** Line breaks go at the first step, '>' and '/' at the last. */
  lemma DenoisedChars(text: string)
    ensures var t := Denoised(text); '\n' !in t && '>' !in t && '/' !in t
  {
    var t0 := Replace(text, "\n", " ");
    var t1 := Strip(t0);
    var t2 := Sub(t1, RepeatedWordChar, FirstChar);
    ReplaceClears(text, '\n', " ");
    if '\n' in t1 { StripChars(t0, '\n'); }
    SubAbsent(t1, RepeatedWordChar, FirstChar, '\n');
    SubAbsent(t2, AngleOrSlashRun, Delete, '\n');
    SubClears(t2, AngleOrSlashRun, Delete, '>');
    SubClears(t2, AngleOrSlashRun, Delete, '/');
  }

  /** No step of DescriptionFrom adds a character other than those of the
      spelt-out name and the single spaces it puts between words. */
  lemma DescriptionKeepsOut(t: string, c: char)
    requires c !in t && c !in ManualSentenceName
    ensures c !in DescriptionFrom(t)
  {
    var found := SearchText(t, DescriptionSentence);
    SearchTextAbsent(t, DescriptionSentence, c);
    var d0 := if found.Some? then found.value else t;
    var d1 := Sub(d0, ManualHeader, Delete);
    var d2 := Sub(d1, EditionFooter, Delete);
    var d3' := Sub(d2, SpaceRun, OneSpace);
    SubAbsent(d0, ManualHeader, Delete, c);
    SubAbsent(d1, EditionFooter, Delete, c);
    SubAbsent(d2, SpaceRun, OneSpace, c);
    if c in Strip(d3') { StripChars(d3', c); }
    ReplaceAbsent(Strip(d3'), ManualSentenceStart, ManualSentenceName, c);
  }
}
