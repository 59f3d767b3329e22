/**
 * The regular-expression operations utils.py performs, each for the one
 * fixed pattern it is used with. A pattern is given as an anchored matcher:
 * the length of the match the engine settles on when it tries the pattern at
 * the start of a string, or 0 when it finds none (none of these patterns can
 * match the empty string). `re.sub`, `re.search` and `str.replace` are then
 * the left-to-right scans below.
 */
module Regex {
  import opened Strings

  type Matcher = string -> nat

  /** A matcher never claims more than the string it is tried on. */
  ghost predicate Anchored(m: Matcher) {
    forall t :: m(t) <= |t|
  }

  /** `re.sub(pattern, repl, s)`: every leftmost, non-overlapping match is
      replaced by `repl` applied to the matched text; scanning resumes after it. */
  function Sub(s: string, m: Matcher, repl: string -> string): string
    requires Anchored(m)
    decreases |s|
  {
    if s == [] then []
    else if m(s) > 0 then repl(s[..m(s)]) + Sub(s[m(s)..], m, repl)
    else [s[0]] + Sub(s[1..], m, repl)
  }

  /** The start of the leftmost match (`re.search(...).start()`), if any. */
  function Search(s: string, m: Matcher): (r: Option<nat>)
    requires Anchored(m)
    ensures r.Some? ==> r.value < |s| && m(s[r.value..]) > 0
    ensures r.Some? ==> forall j :: 0 <= j < r.value ==> m(s[j..]) == 0
    ensures r.None? ==> forall j :: 0 <= j < |s| ==> m(s[j..]) == 0
    decreases |s|
  {
    if s == [] then None
    else if m(s) > 0 then Some(0)
    else
      match Search(s[1..], m)
      case None =>
        assert forall j :: 1 <= j < |s| ==> s[j..] == s[1..][j - 1..];
        None
      case Some(i) =>
        assert s[i + 1..] == s[1..][i..];
        assert forall j :: 1 <= j < i + 1 ==> s[j..] == s[1..][j - 1..];
        Some(i + 1)
  }

  /** The text of the leftmost match (`re.search(...).group(0)`), if any. */
  function SearchText(s: string, m: Matcher): (r: Option<string>)
    requires Anchored(m)
    ensures r.Some? ==> r.value != [] && Contains(s, r.value)
    ensures r.None? ==> forall j :: 0 <= j < |s| ==> m(s[j..]) == 0
  {
    match Search(s, m)
    case None => None
    case Some(i) =>
      var n := m(s[i..]);
      assert s[i..][..n] == s[i..i + n];
      ContainsAt(s, s[i..i + n], i);
      Some(s[i..i + n])
  }

  /** The matched text holds no character the searched text lacks. */
  lemma SearchTextAbsent(s: string, m: Matcher, c: char)
    requires Anchored(m) && c !in s
    ensures SearchText(s, m).Some? ==> c !in SearchText(s, m).value
  {
    var found := SearchText(s, m);
    if found.Some? && c in found.value {
      var i := ContainsWitness(s, found.value);
    }
  }

  function Delete(x: string): string { [] }

  /** The matcher of a plain string. */
  function Literal(pat: string): Matcher {
    t => if StartsWith(t, pat) then |pat| else 0
  }

  /** `s.replace(pat, rep)` for a non-empty `pat`. */
  function Replace(s: string, pat: string, rep: string): string
    requires pat != []
  {
    Sub(s, Literal(pat), _ => rep)
  }

  // ---------------------------------------------------------------------
  // What re.sub keeps out of its result
  // ---------------------------------------------------------------------

  /** A character that is not in the input, and that the replacement never adds,
      is not in the result. */
  lemma {:induction false} SubAbsent(s: string, m: Matcher, repl: string -> string, c: char)
    requires Anchored(m)
    requires c !in s
    requires forall x :: c !in x ==> c !in repl(x)
    ensures c !in Sub(s, m, repl)
    decreases |s|
  {
    if s != [] {
      if m(s) > 0 {
        assert c !in s[..m(s)];
        SubAbsent(s[m(s)..], m, repl, c);
      } else {
        SubAbsent(s[1..], m, repl, c);
      }
    }
  }

  /** A character that always starts a match, and that the replacement never
      produces, is not in the result. */
  lemma {:induction false} SubClears(s: string, m: Matcher, repl: string -> string, c: char)
    requires Anchored(m)
    requires forall t :: t != [] && t[0] == c ==> m(t) > 0
    requires forall x :: c !in repl(x)
    ensures c !in Sub(s, m, repl)
    decreases |s|
  {
    if s != [] {
      if m(s) > 0 {
        SubClears(s[m(s)..], m, repl, c);
      } else {
        SubClears(s[1..], m, repl, c);
      }
    }
  }

  lemma ReplaceAbsent(s: string, pat: string, rep: string, c: char)
    requires pat != [] && c !in s && c !in rep
    ensures c !in Replace(s, pat, rep)
  {
    SubAbsent(s, Literal(pat), _ => rep, c);
  }

  /** `s.replace(c, rep)` leaves no `c` behind when `rep` holds none. */
  lemma ReplaceClears(s: string, c: char, rep: string)
    requires c !in rep
    ensures c !in Replace(s, [c], rep)
  {
    SubClears(s, Literal([c]), _ => rep, c);
  }

  /** Replacing one character by another maps the string character by character. */
  lemma {:induction false} ReplaceChar(s: string, c: char, d: char)
    ensures Replace(s, [c], [d]) == seq(|s|, i requires 0 <= i < |s| => if s[i] == c then d else s[i])
    decreases |s|
  {
    if s != [] {
      ReplaceChar(s[1..], c, d);
    }
  }

  // ---------------------------------------------------------------------
  // Case-insensitive literals (re.IGNORECASE)
  // ---------------------------------------------------------------------

  /** The case folding re.IGNORECASE applies, within Latin-1 plus the nine
      characters outside it that match a Latin-1 letter: İ and ı (i), ſ (s),
      the Kelvin sign (k), the Angstrom sign (å), Ÿ (ÿ), ẞ (ß), and the Greek
      Μ and μ (µ). */
  function Fold(c: char): char {
    if c == '\U{130}' || c == '\U{131}' then 'i'
    else if c == '\U{17f}' then 's'
    else if c == '\U{212a}' then 'k'
    else if c == '\U{212b}' then '\U{e5}'
    else if c == '\U{178}' then '\U{ff}'
    else if c == '\U{1e9e}' then '\U{df}'
    else if c == '\U{39c}' || c == '\U{3bc}' then '\U{b5}'
    else LowerChar(c)
  }

  predicate CiStartsWith(t: string, lit: string) {
    |lit| <= |t| && forall i :: 0 <= i < |lit| ==> Fold(t[i]) == Fold(lit[i])
  }

  function Spaces(t: string): (n: nat)
    ensures n <= |t|
  {
    Span(t, IsSpace)
  }

  // ---------------------------------------------------------------------
  // The fixed patterns
  // ---------------------------------------------------------------------

  /** `-\n\s*` (utils.py:17): a hyphen at a line break and the whitespace after it. */
  function HyphenBreak(t: string): (n: nat)
    ensures n <= |t|
    ensures n > 0 <==> |t| >= 2 && t[0] == '-' && t[1] == '\n'
    ensures n > 0 ==> (forall i :: 2 <= i < n ==> IsSpace(t[i])) && (n < |t| ==> !IsSpace(t[n]))
  {
    if |t| >= 2 && t[0] == '-' && t[1] == '\n' then 2 + Spaces(t[2..]) else 0
  }

  /** `\n{2,}` (utils.py:18). */
  function NewlineRun(t: string): (n: nat)
    ensures n <= |t|
    ensures n > 0 <==> |t| >= 2 && t[0] == '\n' && t[1] == '\n'
    ensures n > 0 ==> (forall i :: 0 <= i < n ==> t[i] == '\n') && (n < |t| ==> t[n] != '\n')
  {
    var k := Span(t, IsNewline);
    if k >= 2 then k else 0
  }

  predicate IsNewline(c: char) { c == '\n' }

  function TwoNewlines(x: string): string { "\n\n" }

  /** `(\w)\1+` (utils.py:68): a word character and the repetitions of it that follow. */
  function RepeatedWordChar(t: string): (n: nat)
    ensures n <= |t|
    ensures n > 0 <==> |t| >= 2 && IsWordChar(t[0]) && t[1] == t[0]
    ensures n > 0 ==> (forall i :: 0 <= i < n ==> t[i] == t[0]) && (n < |t| ==> t[n] != t[0])
  {
    if |t| >= 2 && IsWordChar(t[0]) && t[1] == t[0] then Span(t, c => c == t[0]) else 0
  }

  /** The replacement `\1`: the repeated character, once. */
  function FirstChar(x: string): string {
    if x == [] then [] else [x[0]]
  }

  predicate IsAngleOrSlash(c: char) { c == '>' || c == '/' }

  /** `[>/]+` (utils.py:71). */
  function AngleOrSlashRun(t: string): (n: nat)
    ensures n <= |t|
    ensures forall i :: 0 <= i < n ==> IsAngleOrSlash(t[i])
    ensures n < |t| ==> !IsAngleOrSlash(t[n])
  {
    Span(t, IsAngleOrSlash)
  }

  predicate NotFullStop(c: char) { c != '.' }

  const ManualWord: string := "bæredygtighedsmanual"

  /** `BO-?VEST\s+bæredygtighedsmanual[^.]*\.` with IGNORECASE (utils.py:74):
      the sentence that opens the manual's description, up to its first full stop. */
  function DescriptionSentence(t: string): (n: nat)
    ensures n <= |t|
    ensures n > 0 ==> CiStartsWith(t, "bo") && n >= 8 + |ManualWord| && t[n - 1] == '.'
  {
    if !CiStartsWith(t, "bo") then 0
    else
      var a := if |t| > 2 && t[2] == '-' then 3 else 2;
      if !CiStartsWith(t[a..], "vest") then 0
      else
        var b := a + 4;
        var sp := Spaces(t[b..]);
        if sp == 0 || !CiStartsWith(t[b + sp..], ManualWord) then 0
        else
          var c := b + sp + |ManualWord|;
          var d := Span(t[c..], NotFullStop);
          if c + d < |t| then c + d + 1 else 0
  }

  /** `Bæredygtigheds\s*Manual\s*(NYBYG|RENOVERING|SIMPEL\s*SAG)?` with IGNORECASE
      (utils.py:84): the running header of the manuals. */
  function ManualHeader(t: string): (n: nat)
    ensures n <= |t|
    ensures n > 0 ==> CiStartsWith(t, "bæredygtigheds") && n >= 20
  {
    if !CiStartsWith(t, "bæredygtigheds") then 0
    else
      var a := 14 + Spaces(t[14..]);
      if !CiStartsWith(t[a..], "manual") then 0
      else
        var b := a + 6 + Spaces(t[a + 6..]);
        b + EditionName(t[b..])
  }

  /** The optional group `(NYBYG|RENOVERING|SIMPEL\s*SAG)?`, alternatives tried in order. */
  function EditionName(t: string): (n: nat)
    ensures n <= |t|
  {
    if CiStartsWith(t, "nybyg") then 5
    else if CiStartsWith(t, "renovering") then 10
    else if CiStartsWith(t, "simpel") then
      var k := 6 + Spaces(t[6..]);
      if CiStartsWith(t[k..], "sag") then k + 3 else 0
    else 0
  }

  /** `Tegnestuen\s*Vandkunsten\s*Oktober\s*\d{4}` with IGNORECASE (utils.py:90):
      the running footer of the manuals. */
  function EditionFooter(t: string): (n: nat)
    ensures n <= |t|
    ensures n > 0 ==> CiStartsWith(t, "tegnestuen") && n >= 32 && forall i :: n - 4 <= i < n ==> IsDigit(t[i])
  {
    if !CiStartsWith(t, "tegnestuen") then 0
    else
      var a := 10 + Spaces(t[10..]);
      if !CiStartsWith(t[a..], "vandkunsten") then 0
      else
        var b := a + 11 + Spaces(t[a + 11..]);
        if !CiStartsWith(t[b..], "oktober") then 0
        else
          var c := b + 7 + Spaces(t[b + 7..]);
          if c + 4 <= |t| && forall i :: c <= i < c + 4 ==> IsDigit(t[i]) then c + 4 else 0
  }

  /** `\s{2,}` (utils.py:97). */
  function SpaceRun(t: string): (n: nat)
    ensures n <= |t|
    ensures n > 0 <==> |t| >= 2 && IsSpace(t[0]) && IsSpace(t[1])
    ensures n > 0 ==> (forall i :: 0 <= i < n ==> IsSpace(t[i])) && (n < |t| ==> !IsSpace(t[n]))
  {
    var k := Spaces(t);
    if k >= 2 then k else 0
  }

  function OneSpace(x: string): string { " " }

  /** `MANUALEN\s*SOM\s*V[ÆA]RKT[ØO]J` with IGNORECASE (utils.py:110): the
      heading of the page that lists the manual's themes. */
  function ManualTitle(t: string): (n: nat)
    ensures n <= |t|
    ensures n > 0 ==> CiStartsWith(t, "manualen") && n >= 18 && Fold(t[n - 1]) == 'j'
  {
    if !CiStartsWith(t, "manualen") then 0
    else
      var a := 8 + Spaces(t[8..]);
      if !CiStartsWith(t[a..], "som") then 0
      else
        var k := a + 3 + Spaces(t[a + 3..]);
        var m := ToolWord(t[k..]);
        if m > 0 then k + m else 0
  }

  /** `V[ÆA]RKT[ØO]J` with IGNORECASE, the last word of the theme-page heading. */
  function ToolWord(t: string): (n: nat)
    ensures n == 0 || (n == 7 && n <= |t| && Fold(t[6]) == 'j')
  {
    if 7 <= |t| && Fold(t[0]) == 'v' && Fold(t[1]) in {'\U{e6}', 'a'}
       && CiStartsWith(t[2..], "rkt") && Fold(t[5]) in {'\U{f8}', 'o'} && Fold(t[6]) == 'j'
    then 7
    else 0
  }

  /** "BO-VEST ", any spelling of "bæredygtighedsmanual" that re.IGNORECASE
      accepts, then text without a full stop and a full stop: the opening
      sentence matches in full. */
  lemma DescriptionOpening(w: string, rest: string)
    requires |w| == |ManualWord| && CiStartsWith(w, ManualWord) && '.' !in rest
    ensures DescriptionSentence("BO-VEST " + w + rest + ".") == 9 + |w| + |rest|
  {
    var t := "BO-VEST " + w + rest + ".";
    assert t[..8] == "BO-VEST ";
    assert CiStartsWith(t, "bo") && t[2] == '-' && CiStartsWith(t[3..], "vest");
    assert Fold(w[0]) == 'b';
    SingleSpaceRun(t[7..]);
    assert t[8..][..20] == w;
    CiStartsWithPrefix(t[8..], 20, ManualWord);
    assert t[28..] == rest + ".";
    FullStopAfter(rest);
  }

  /** The opening sentence of a description matches with a dotted capital I in
      "bæredygtighedsmanual", as re.IGNORECASE matches it. */
  lemma DottedCapitalIDescription()
    ensures DescriptionSentence("BO-VEST " + "B\U{c6}REDYGT\U{130}GHEDSMANUAL" + " x" + ".") == 31
  {
    var w := "B\U{c6}REDYGT\U{130}GHEDSMANUAL";
    DottedManualWord(w);
    DescriptionOpening(w, " x");
  }

  /** "BÆREDYGTİGHEDSMANUAL" matches the word, five characters at a time. */
  lemma DottedManualWord(w: string)
    requires w == "B\U{c6}REDYGT\U{130}GHEDSMANUAL"
    ensures |w| == |ManualWord| && CiStartsWith(w, ManualWord)
  {
    DottedWordPieces(w);
    PieceFolds();
    CiConcat("B\U{c6}RED", "YGT\U{130}G", "b\U{e6}red", "ygtig");
    CiConcat("B\U{c6}RED" + "YGT\U{130}G", "HEDSM", "b\U{e6}red" + "ygtig", "hedsm");
    CiConcat("B\U{c6}RED" + "YGT\U{130}G" + "HEDSM", "ANUAL", "b\U{e6}red" + "ygtig" + "hedsm", "anual");
    ManualWordPieces();
  }

  lemma DottedWordPieces(w: string)
    requires w == "B\U{c6}REDYGT\U{130}GHEDSMANUAL"
    ensures w == "B\U{c6}RED" + "YGT\U{130}G" + "HEDSM" + "ANUAL"
  {
  }

  lemma ManualWordPieces()
    ensures ManualWord == "b\U{e6}red" + "ygtig" + "hedsm" + "anual"
  {
  }

  lemma PieceFolds()
    ensures CiStartsWith("B\U{c6}RED", "b\U{e6}red") && CiStartsWith("YGT\U{130}G", "ygtig")
    ensures CiStartsWith("HEDSM", "hedsm") && CiStartsWith("ANUAL", "anual")
  {
  }

  /** A whitespace character followed by another character is a run of one. */
  lemma SingleSpaceRun(u: string)
    requires |u| >= 2 && u[0] == ' ' && !IsSpace(u[1])
    ensures Spaces(u) == 1
  {
  }

  /** Text without a full stop, then a full stop: the run before the stop is the text. */
  lemma FullStopAfter(rest: string)
    requires '.' !in rest
    ensures Span(rest + ".", NotFullStop) == |rest|
  {
    var u := rest + ".";
    assert forall i :: 0 <= i < |rest| ==> u[i] == rest[i];
    assert u[|rest|] == '.';
  }

  /** A case-insensitive prefix of a prefix of `t` is one of `t`. */
  lemma CiStartsWithPrefix(t: string, k: nat, lit: string)
    requires k <= |t| && CiStartsWith(t[..k], lit)
    ensures CiStartsWith(t, lit)
  {
  }

  /** Case-insensitive prefixes of equal length concatenate. */
  lemma CiConcat(t: string, u: string, a: string, b: string)
    requires |t| == |a| && CiStartsWith(t, a) && CiStartsWith(u, b)
    ensures CiStartsWith(t + u, a + b)
  {
  }

  /** The edition names of the header pattern match a dotted capital I where
      they have an i, as re.IGNORECASE does. */
  lemma DottedCapitalIEdition()
    ensures EditionName("S\U{130}MPEL SAG") == 10
  {
    var t := "S\U{130}MPEL SAG";
    assert Fold(t[0]) != Fold("nybyg"[0]) && Fold(t[0]) != Fold("renovering"[0]);
    assert CiStartsWith(t, "simpel");
    var rest := t[6..];
    assert rest[0] == ' ' && rest[1..] == "SAG" && !IsSpace(rest[1..][0]);
    assert Span(rest[1..], IsSpace) == 0;
    assert Span(rest, IsSpace) == 1;
    assert CiStartsWith(t[7..], "sag");
  }

  /** `re.search` of the theme-page heading. */
  predicate HasManualTitle(text: string) {
    Search(text, ManualTitle).Some?
  }
}
