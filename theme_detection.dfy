/**
 * Finding the manual's themes: code_from_title, find_manualen_page and
 * find_theme_pages (utils.py:21-56, 102-151).
 */
module ThemeDetection {
  import opened Strings
  import opened Regex

  // ---------------------------------------------------------------------
  // code_from_title
  // ---------------------------------------------------------------------

  /** code_from_title: "DS" for a social theme, "IE" for indoor climate and
      energy, "MA" for materials, "XX" otherwise, tested in that order on the
      upper-cased title. */
  function CodeFromTitle(title: string): (code: string)
    ensures code in {"DS", "IE", "MA", "XX"}
  {
    var t := Upper(title);
    if Contains(t, "SOCIA") then "DS"
    else if Contains(t, "INDE") then "IE"
    else if Contains(t, "MATER") then "MA"
    else "XX"
  }

  /** The three themes every manual has, in the order utils.py lists them. */
  datatype ThemeKind = Social | Indoor | Materials

  const ThemeOrder: seq<ThemeKind> := [Social, Indoor, Materials]

  /** The theme's title as it appears in the output. */
  function ThemeTitle(t: ThemeKind): string {
    match t
    case Social => "Det Sociale"
    case Indoor => "Indeklima, Energi og Miljø"
    case Materials => "Materialer"
  }

  /** The upper-case keywords that reveal the theme. */
  function ThemeKeywords(t: ThemeKind): seq<string> {
    match t
    case Social => ["DET SOCIALE"]
    case Indoor => ["INDEKLIMA", "ENERGI", "MILJØ"]
    case Materials => ["MATERIALER"]
  }

  /** The theme's position in the fixed order. */
  function Rank(t: ThemeKind): nat {
    match t
    case Social => 0
    case Indoor => 1
    case Materials => 2
  }

  function ExpectedCode(t: ThemeKind): string {
    match t
    case Social => "DS"
    case Indoor => "IE"
    case Materials => "MA"
  }

  /** The three fixed theme titles get the codes DS, IE and MA, so no two of them share one. */
  lemma ThemeTitleCodes()
    ensures forall t: ThemeKind :: CodeFromTitle(ThemeTitle(t)) == ExpectedCode(t)
  {
    forall t: ThemeKind
      ensures CodeFromTitle(ThemeTitle(t)) == ExpectedCode(t)
    {
      match t
      case Social => SocialCode(ThemeTitle(t));
      case Indoor => IndoorCode(ThemeTitle(t));
      case Materials => MaterialsCode(ThemeTitle(t));
    }
  }

  lemma SocialCode(title: string)
    requires title == "Det Sociale"
    ensures CodeFromTitle(title) == "DS"
  {
    SocialUpper(Upper(title));
  }

  lemma IndoorCode(title: string)
    requires title == "Indeklima, Energi og Miljø"
    ensures CodeFromTitle(title) == "IE"
  {
    IndoorUpper(Upper(title));
  }

  lemma MaterialsCode(title: string)
    requires title == "Materialer"
    ensures CodeFromTitle(title) == "MA"
  {
    MaterialsUpper(Upper(title));
  }

  lemma SocialUpper(t: string)
    requires t == "DET SOCIALE"
    ensures Contains(t, "SOCIA")
  {
    assert t[4..9] == "SOCIA";
    ContainsAt(t, "SOCIA", 4);
  }

  lemma IndoorUpper(t: string)
    requires t == "INDEKLIMA, ENERGI OG MILJØ"
    ensures !Contains(t, "SOCIA") && Contains(t, "INDE")
  {
    PrefixWithout(t, "INDE", "SOCIA", 'S');
  }

  lemma MaterialsUpper(t: string)
    requires t == "MATERIALER"
    ensures !Contains(t, "SOCIA") && !Contains(t, "INDE") && Contains(t, "MATER")
  {
    MissingChar(t, "SOCIA", 'S');
    MissingChar(t, "INDE", 'N');
    assert t[0..5] == "MATER";
    ContainsAt(t, "MATER", 0);
  }

  // ---------------------------------------------------------------------
  // The first page that matches
  // ---------------------------------------------------------------------

  /** The index of the first non-empty page that `found` accepts. */
  function FirstHit(pages: seq<string>, found: string -> bool): (r: Option<nat>)
    ensures r.Some? ==> r.value < |pages| && pages[r.value] != "" && found(pages[r.value])
    ensures r.Some? ==> forall j :: 0 <= j < r.value ==> pages[j] == "" || !found(pages[j])
    ensures r.None? ==> forall j :: 0 <= j < |pages| ==> pages[j] == "" || !found(pages[j])
    decreases |pages|
  {
    if pages == [] then None
    else if pages[0] != "" && found(pages[0]) then Some(0)
    else
      match FirstHit(pages[1..], found)
      case None => None
      case Some(i) => Some(i + 1)
  }

  /** find_manualen_page: the 1-based number of the first non-empty page on
      which the title pattern is found, or -1. The pattern itself (utils.py:44-46,
      built from the title) is the parameter `matchesTitle`. */
  method FindManualenPage(pages: seq<string>, matchesTitle: string -> bool) returns (k: int)
    ensures k == -1 || 1 <= k <= |pages|
    ensures k != -1 ==> pages[k - 1] != "" && matchesTitle(pages[k - 1])
    ensures k != -1 ==> forall j :: 0 <= j < k - 1 ==> pages[j] == "" || !matchesTitle(pages[j])
    ensures k == -1 <==> forall j :: 0 <= j < |pages| ==> pages[j] == "" || !matchesTitle(pages[j])
    ensures k == match FirstHit(pages, matchesTitle) case None => -1 case Some(i) => i + 1
  {
    var i := 1;
    while i <= |pages|
      invariant 1 <= i <= |pages| + 1
      invariant forall j :: 0 <= j < i - 1 ==> pages[j] == "" || !matchesTitle(pages[j])
    {
      var text := pages[i - 1];
      if text == "" {
        i := i + 1;
        continue;
      }
      if matchesTitle(text) {
        return i;
      }
      i := i + 1;
    }
    return -1;
  }

  // ---------------------------------------------------------------------
  // find_theme_pages
  // ---------------------------------------------------------------------

  /** A detected theme and the 1-based page it was found on. */
  datatype ThemePage = ThemePage(theme: ThemeKind, page: nat)

  const DefaultThemes: seq<ThemePage> := [ThemePage(Social, 1), ThemePage(Indoor, 1), ThemePage(Materials, 1)]

  /** The text searched for theme keywords: the theme page, or the first eight
      pages when there is none, joined by line breaks and upper-cased. */
  function ThemeSearchText(pages: seq<string>, manualPage: Option<nat>): string
    requires manualPage.Some? ==> manualPage.value < |pages|
  {
    var searched := if manualPage.None? then pages[..Min(8, |pages|)] else [pages[manualPage.value]];
    Upper(Join(searched, "\n"))
  }

  /** The 1-based page number reported for detected themes. */
  function ThemePageNumber(manualPage: Option<nat>): nat {
    if manualPage.None? then 1 else manualPage.value + 1
  }

  /** Which themes have a keyword in `text`, index for index with ThemeOrder. */
  function KeywordHits(text: string): (hits: seq<bool>)
    ensures |hits| == 3
  {
    seq(3, k requires 0 <= k < 3 => AnyIn(ThemeKeywords(ThemeOrder[k]), text))
  }

  /** The themes among the first `n` of the fixed order that were hit, in that order. */
  function MatchedThemes(hits: seq<bool>, page: nat, n: nat): seq<ThemePage>
    requires n <= |hits| && n <= 3
  {
    if n == 0 then []
    else MatchedThemes(hits, page, n - 1) + (if hits[n - 1] then [ThemePage(ThemeOrder[n - 1], page)] else [])
  }

  /** The themes reported when the keyword test gave `hits`: the matched ones,
      or the three fixed themes on page 1 when none matched. */
  function ThemesForHits(hits: seq<bool>, page: nat): seq<ThemePage>
    requires |hits| == 3
  {
    var matched := MatchedThemes(hits, page, 3);
    if matched == [] then DefaultThemes else matched
  }

  /** The themes reported for the theme page `manualPage` (None when there is none). */
  function ThemesFrom(pages: seq<string>, manualPage: Option<nat>): seq<ThemePage>
    requires manualPage.Some? ==> manualPage.value < |pages|
  {
    ThemesForHits(KeywordHits(ThemeSearchText(pages, manualPage)), ThemePageNumber(manualPage))
  }

  /** What find_theme_pages returns. */
  function DetectedThemes(pages: seq<string>): seq<ThemePage> {
    ThemesFrom(pages, FirstHit(pages, HasManualTitle))
  }

  /** The scan for the theme page: the 0-based index of the first non-empty
      page that `found` accepts. */
  method FirstMatchingPage(pages: seq<string>, found: string -> bool) returns (r: Option<nat>)
    ensures r == FirstHit(pages, found)
  {
    r := None;
    var i := 0;
    while i < |pages|
      invariant 0 <= i <= |pages|
      invariant forall j :: 0 <= j < i ==> pages[j] == "" || !found(pages[j])
    {
      if pages[i] != "" && found(pages[i]) {
        return Some(i);
      }
      i := i + 1;
    }
  }

  /** find_theme_pages: locate the theme page, look for each theme's keywords
      on it, and fall back to the three fixed themes when none is found. */
  method FindThemePages(pages: seq<string>) returns (themes: seq<ThemePage>)
    ensures themes == DetectedThemes(pages)
  {
    var manualPage := FirstMatchingPage(pages, HasManualTitle);
    themes := ReportThemes(pages, manualPage);
  }

  /** The keyword test and the fallback of find_theme_pages, once the theme page
      (or its absence) is known. */
  method ReportThemes(pages: seq<string>, manualPage: Option<nat>) returns (themes: seq<ThemePage>)
    requires manualPage.Some? ==> manualPage.value < |pages|
    ensures themes == ThemesFrom(pages, manualPage)
  {
    var searched := if manualPage.None? then pages[..Min(8, |pages|)] else [pages[manualPage.value]];
    var combined := Upper(Join(searched, "\n"));
    var page := if manualPage.None? then 1 else manualPage.value + 1;
    themes := MatchThemes(combined, page);
    if themes == [] {
      themes := DefaultThemes;
    }
  }

  /** The loop of find_theme_pages over the three themes, in the fixed order. */
  method MatchThemes(combined: string, page: nat) returns (themes: seq<ThemePage>)
    ensures themes == MatchedThemes(KeywordHits(combined), page, 3)
  {
    themes := [];
    var k := 0;
    while k < |ThemeOrder|
      invariant 0 <= k <= 3
      invariant themes == MatchedThemes(KeywordHits(combined), page, k)
    {
      if AnyIn(ThemeKeywords(ThemeOrder[k]), combined) {
        themes := themes + [ThemePage(ThemeOrder[k], page)];
      }
      k := k + 1;
    }
  }

  lemma OrderRanks()
    ensures forall k :: 0 <= k < 3 ==> Rank(ThemeOrder[k]) == k
    ensures forall t :: ThemeOrder[Rank(t)] == t
  {
  }

  lemma {:induction false} MatchedThemesShape(hits: seq<bool>, page: nat, n: nat)
    requires n <= |hits| && n <= 3
    ensures |MatchedThemes(hits, page, n)| <= n
    ensures forall p :: p in MatchedThemes(hits, page, n) ==> Rank(p.theme) < n && p.page == page
    ensures var r := MatchedThemes(hits, page, n);
            forall i, j :: 0 <= i < j < |r| ==> Rank(r[i].theme) < Rank(r[j].theme)
    ensures forall k :: 0 <= k < n ==> (hits[k] <==> ThemePage(ThemeOrder[k], page) in MatchedThemes(hits, page, n))
    ensures (forall k :: 0 <= k < n ==> !hits[k]) ==> MatchedThemes(hits, page, n) == []
  {
    if n > 0 {
      MatchedThemesShape(hits, page, n - 1);
      OrderRanks();
    }
  }

  /** The reported themes: one to three, in the fixed order and each at most once. */
  lemma ThemesForHitsShape(hits: seq<bool>, page: nat)
    requires |hits| == 3
    ensures var r := ThemesForHits(hits, page);
            1 <= |r| <= 3 && forall i, j :: 0 <= i < j < |r| ==> Rank(r[i].theme) < Rank(r[j].theme)
    ensures forall p :: p in ThemesForHits(hits, page) ==> p.page == page || p.page == 1
  {
    MatchedThemesShape(hits, page, 3);
  }

  /** When a keyword was found, exactly the themes that were hit are reported,
      all on `page`; otherwise the three fixed themes on page 1. */
  lemma ThemesForHitsContents(hits: seq<bool>, page: nat)
    requires |hits| == 3
    ensures var r := ThemesForHits(hits, page);
            if hits[0] || hits[1] || hits[2] then
              (forall p :: p in r ==> p.page == page)
              && (forall k :: 0 <= k < 3 ==> (hits[k] <==> ThemePage(ThemeOrder[k], page) in r))
            else r == DefaultThemes
  {
    MatchedThemesShape(hits, page, 3);
    var matched := MatchedThemes(hits, page, 3);
    OrderRanks();
    if hits[0] || hits[1] || hits[2] {
      var k :| 0 <= k < 3 && hits[k];
      assert ThemePage(ThemeOrder[k], page) in matched;
    }
  }

  /** find_theme_pages reports one to three distinct themes in the fixed order,
      each on a page numbered from 1. */
  lemma DetectedThemesShape(pages: seq<string>)
    ensures 1 <= |DetectedThemes(pages)| <= 3
    ensures forall i, j :: 0 <= i < j < |DetectedThemes(pages)| ==>
              Rank(DetectedThemes(pages)[i].theme) < Rank(DetectedThemes(pages)[j].theme)
    ensures forall i :: 0 <= i < |DetectedThemes(pages)| ==> DetectedThemes(pages)[i].page >= 1
  {
    ThemesFromShape(pages, FirstHit(pages, HasManualTitle));
  }

  lemma ThemesFromShape(pages: seq<string>, manualPage: Option<nat>)
    requires manualPage.Some? ==> manualPage.value < |pages|
    ensures 1 <= |ThemesFrom(pages, manualPage)| <= 3
    ensures forall i, j :: 0 <= i < j < |ThemesFrom(pages, manualPage)| ==>
              Rank(ThemesFrom(pages, manualPage)[i].theme) < Rank(ThemesFrom(pages, manualPage)[j].theme)
    ensures forall i :: 0 <= i < |ThemesFrom(pages, manualPage)| ==> ThemesFrom(pages, manualPage)[i].page >= 1
  {
    var r := ThemesFrom(pages, manualPage);
    ThemesForHitsShape(KeywordHits(ThemeSearchText(pages, manualPage)), ThemePageNumber(manualPage));
    assert forall i :: 0 <= i < |r| ==> r[i] in r;
  }

  /** A theme page that names all three themes yields exactly the three fixed
      themes, in order, each reported on that page's 1-based number. */
  lemma AllThemesOnPage(pages: seq<string>, i: nat)
    requires i < |pages|
    requires var text := Upper(pages[i]);
             Contains(text, "DET SOCIALE") && Contains(text, "INDEKLIMA") && Contains(text, "MATERIALER")
    ensures ThemesFrom(pages, Some(i)) == [ThemePage(Social, i + 1), ThemePage(Indoor, i + 1), ThemePage(Materials, i + 1)]
  {
    var text := ThemeSearchText(pages, Some(i));
    assert text == Upper(pages[i]);
    assert ThemeKeywords(Indoor)[0] == "INDEKLIMA";
    assert Contains(text, ThemeKeywords(Social)[0]) && AnyIn(ThemeKeywords(Social), text);
    assert Contains(text, ThemeKeywords(Indoor)[0]) && AnyIn(ThemeKeywords(Indoor), text);
    assert Contains(text, ThemeKeywords(Materials)[0]) && AnyIn(ThemeKeywords(Materials), text);
    var hits := KeywordHits(text);
    assert hits == [true, true, true];
    var page := i + 1;
    assert MatchedThemes(hits, page, 1) == [ThemePage(Social, page)];
    assert MatchedThemes(hits, page, 2) == [ThemePage(Social, page), ThemePage(Indoor, page)];
  }
}
