/**
 * The driver of the manual parser (parse_manuals.py): assembling a manual
 * from its pages (parse_manual) and, for each PDF, choosing the manual key,
 * its metadata and the output file name (main).
 */
module ParseManuals {
  import opened Strings
  import opened Regex
  import opened Schema
  import opened TextNormalization
  import opened ThemeDetection
  import opened TaskBlocks

  // ---------------------------------------------------------------------
  // parse_manual
  // ---------------------------------------------------------------------

  /** The pages after clean_text. */
  function CleanPages(raw: seq<string>): (pages: seq<string>)
    ensures |pages| == |raw|
  {
    seq(|raw|, i requires 0 <= i < |raw| => CleanText(raw[i]))
  }

  /** The pages a theme is read from: at most 40, from 0-based index `start`
      on, cut off at the last page, joined by blank lines. */
  function ThemeWindow(pages: seq<string>, start: nat): string {
    Join(pages[Min(start, |pages|)..Min(start + 40, |pages|)], "\n\n")
  }

  /** The theme object built for the `index`-th detected theme, titled
      `title` and found on the 1-based page `page`. */
  function ThemeObject(pages: seq<string>, title: string, page: nat, index: nat, meta: ManualMeta,
                       findTasks: string -> seq<TaskMatch>): Theme
    requires "url_base" in meta
  {
    var startPage := page + 1;
    ThemeBlock(ThemeWindow(pages, startPage), title, meta, startPage, findTasks).(sortOrder := index + 1)
  }

  /** The titles of the detected themes, in order. */
  function ThemeTitles(found: seq<ThemePage>): (titles: seq<string>)
    ensures |titles| == |found|
  {
    seq(|found|, i requires 0 <= i < |found| => ThemeTitle(found[i].theme))
  }

  /** The metadata after parse_manual overwrote its description with the one
      read from the first page. */
  function DescribedMeta(firstPage: string, meta: ManualMeta): ManualMeta {
    meta["description" := ExtractDescription(firstPage)]
  }

  /** The theme objects for the detected themes, in order. */
  function ThemeObjects(pages: seq<string>, found: seq<ThemePage>, titles: seq<string>, meta: ManualMeta,
                        findTasks: string -> seq<TaskMatch>): (themes: seq<Theme>)
    requires "url_base" in meta && |titles| == |found|
    ensures |themes| == |found|
  {
    seq(|found|, i requires 0 <= i < |found| => ThemeObject(pages, titles[i], found[i].page, i, meta, findTasks))
  }

  /** What parse_manual returns for the extracted pages `raw`. */
  function ParsedManual(raw: seq<string>, meta: ManualMeta, timestamp: string,
                        findTasks: string -> seq<TaskMatch>): Manual
    requires |raw| >= 1 && "url_base" in meta
  {
    var pages := CleanPages(raw);
    var described := DescribedMeta(pages[0], meta);
    var found := DetectedThemes(pages);
    BuildJsonStructure(described, ThemeObjects(pages, found, ThemeTitles(found), described, findTasks), timestamp)
  }

  /** parse_manual: clean the pages, find the themes, take the description from
      the first page, build one theme block per theme and wrap them in the
      manual document. The first page is read unconditionally, so the source
      fails on a PDF without pages. */
  method ParseManual(raw: seq<string>, meta: ManualMeta, timestamp: string,
                     findTasks: string -> seq<TaskMatch>) returns (m: Manual)
    requires |raw| >= 1 && "url_base" in meta
    ensures m == ParsedManual(raw, meta, timestamp, findTasks)
  {
    var pages := CleanPages(raw);
    var themePages := FindThemePages(pages);
    var description := ExtractDescription(pages[0]);
    var manualMeta := meta["description" := description];
    var themes := BuildThemes(pages, themePages, ThemeTitles(themePages), manualMeta, findTasks);
    m := BuildJsonStructure(manualMeta, themes, timestamp);
  }

  /** The loop of parse_manual over the detected themes. */
  method BuildThemes(pages: seq<string>, themePages: seq<ThemePage>, titles: seq<string>, manualMeta: ManualMeta,
                     findTasks: string -> seq<TaskMatch>) returns (themes: seq<Theme>)
    requires "url_base" in manualMeta && |titles| == |themePages|
    ensures themes == ThemeObjects(pages, themePages, titles, manualMeta, findTasks)
  {
    ghost var all := ThemeObjects(pages, themePages, titles, manualMeta, findTasks);
    themes := [];
    var t := 0;
    while t < |themePages|
      invariant 0 <= t <= |themePages|
      invariant themes == all[..t]
    {
      var themeObj := BuildTheme(pages, titles[t], themePages[t].page, t, manualMeta, findTasks);
      assert themeObj == all[t];
      PrefixExtend(all, t);
      themes := themes + [themeObj];
      t := t + 1;
    }
    assert all[..t] == all;
  }

  /** One pass of parse_manual's loop: read the theme's window, build its block
      and overwrite its sort order. */
  method BuildTheme(pages: seq<string>, title: string, page: nat, t: nat, manualMeta: ManualMeta,
                    findTasks: string -> seq<TaskMatch>) returns (themeObj: Theme)
    requires "url_base" in manualMeta
    ensures themeObj == ThemeObject(pages, title, page, t, manualMeta, findTasks)
  {
    var startPage := page + 1;
    var chunk := ThemeWindow(pages, startPage);
    themeObj := ExtractTaskBlocks(chunk, title, manualMeta, startPage, findTasks);
    themeObj := themeObj.(sortOrder := t + 1);
  }

  /** A parsed manual has one version holding one theme per detected theme, in
      the detected order, the i-th with sort order i + 1 and the detected title;
      its description is the one extracted from the cleaned first page. */
  lemma ParsedManualShape(raw: seq<string>, meta: ManualMeta, timestamp: string,
                          findTasks: string -> seq<TaskMatch>)
    requires |raw| >= 1 && "url_base" in meta
    ensures var m := ParsedManual(raw, meta, timestamp, findTasks);
            var found := DetectedThemes(CleanPages(raw));
            |m.versions| == 1
            && |m.versions[0].themes| == |found|
            && 1 <= |found| <= 3
            && (forall i :: 0 <= i < |found| ==>
                  m.versions[0].themes[i].sortOrder == i + 1
                  && m.versions[0].themes[i].title == ThemeTitles(found)[i])
            && m.description == ExtractDescription(CleanText(raw[0]))
            && '\n' !in m.description && '>' !in m.description && '/' !in m.description
  {
    var pages := CleanPages(raw);
    DetectedThemesShape(pages);
    assert pages[0] == CleanText(raw[0]);
  }

  /** The window of a theme found on (1-based) page p starts at 0-based index
      p + 1 and holds at most 40 pages, all of them pages of the manual. */
  lemma ThemeWindowSpan(pages: seq<string>, start: nat)
    ensures var lo := Min(start, |pages|);
            var hi := Min(start + 40, |pages|);
            lo <= hi <= |pages| && hi - lo <= 40
            && ThemeWindow(pages, start) == Join(pages[lo..hi], "\n\n")
            && (start + 40 <= |pages| ==> hi - lo == 40)
            && (start >= |pages| ==> ThemeWindow(pages, start) == "")
  {
  }

  // ---------------------------------------------------------------------
  // main: manual keys, metadata and file names
  // ---------------------------------------------------------------------

  /** The four manual keys. */
  datatype ManualKey = Nybyg | SimpelSag | Renovering | Unknown

  function KeyName(k: ManualKey): string {
    match k
    case Nybyg => "NYBYG"
    case SimpelSag => "SIMPEL SAG"
    case Renovering => "RENOVERING"
    case Unknown => "UNKNOWN"
  }

  /** The key of a PDF file, from its upper-cased file stem: "NYBYG" first, then
      "SIMP" or "SAG", then "RENOV", and UNKNOWN otherwise. */
  function ClassifyStem(stem: string): (k: ManualKey)
    ensures var name := Upper(stem);
            (k == Nybyg <==> Contains(name, "NYBYG"))
            && (k == SimpelSag <==> !Contains(name, "NYBYG") && (Contains(name, "SIMP") || Contains(name, "SAG")))
            && (k == Renovering <==> !Contains(name, "NYBYG") && !Contains(name, "SIMP") && !Contains(name, "SAG")
                                     && Contains(name, "RENOV"))
  {
    var name := Upper(stem);
    if Contains(name, "NYBYG") then Nybyg
    else if Contains(name, "SIMP") || Contains(name, "SAG") then SimpelSag
    else if Contains(name, "RENOV") then Renovering
    else Unknown
  }

  lemma NybygName(t: string)
    requires t == "NYBYG"
    ensures Contains(t, "NYBYG")
  {
    ContainsAt(t, "NYBYG", 0);
  }

  lemma RenoveringName(t: string)
    requires t == "RENOVERING"
    ensures !Contains(t, "NYBYG") && !Contains(t, "SIMP") && !Contains(t, "SAG") && Contains(t, "RENOV")
  {
    MissingChar(t, "NYBYG", 'Y');
    MissingChar(t, "SIMP", 'S');
    MissingChar(t, "SAG", 'S');
    assert t[0..5] == "RENOV";
    ContainsAt(t, "RENOV", 0);
  }

  lemma UnknownName(t: string)
    requires t == "UNKNOWN"
    ensures !Contains(t, "NYBYG") && !Contains(t, "SIMP") && !Contains(t, "SAG") && !Contains(t, "RENOV")
  {
    MissingChar(t, "NYBYG", 'Y');
    MissingChar(t, "SIMP", 'S');
    MissingChar(t, "SAG", 'S');
    MissingChar(t, "RENOV", 'R');
  }

  /** A file whose stem is a key's own name is classified as that key, so the
      four tests never shadow one another on the key names. */
  lemma ClassifyKeyName(k: ManualKey)
    ensures ClassifyStem(KeyName(k)) == k
  {
    match k
    case Nybyg => NybygName(Upper(KeyName(k)));
    case SimpelSag => PrefixWithout(Upper(KeyName(k)), "SIMP", "NYBYG", 'Y');
    case Renovering => RenoveringName(Upper(KeyName(k)));
    case Unknown => UnknownName(Upper(KeyName(k)));
  }

  /** The tests shadow one another on other stems: a file named both a
      renovation and a simple case is taken for SIMPEL SAG, because "SAG" is
      tested before "RENOV". */
  lemma RenovationCaseShadowed(stem: string)
    requires stem == "Renovering-sag"
    ensures ClassifyStem(stem) == SimpelSag
  {
    UpperRenovationCase(stem);
    RenovationCaseWords(Upper(stem));
  }

  lemma UpperRenovationCase(stem: string)
    requires stem == "Renovering-sag"
    ensures Upper(stem) == "RENOVERING-SAG"
  {
  }

  lemma RenovationCaseWords(name: string)
    requires name == "RENOVERING-SAG"
    ensures !Contains(name, "NYBYG") && Contains(name, "SAG")
  {
    MissingChar(name, "NYBYG", 'Y');
    assert name[11..14] == "SAG";
    ContainsAt(name, "SAG", 11);
  }

  /** The id of a known manual. */
  function KeyId(k: ManualKey): (id: string)
    ensures id == "" <==> k == Unknown
  {
    match k
    case Nybyg => "f7a3e8b2-9c4d-4f1a-8e5c-2d6b9a1c7f3e"
    case SimpelSag => "f7a3b8e5-4c2d-4f1b-9e6a-3d8c7b2f1a5e"
    case Renovering => "2b9d4e7c-6a1f-4d3b-8c5e-9f2a7b4d1c6e"
    case Unknown => ""
  }

  const UrlPrefix: string := "https://storage.googleapis.com/custom-css/"

  /** Where a manual's PDF is published; a file of unknown key links to itself. */
  function KeyUrlBase(k: ManualKey, path: string): (url: string)
    ensures k == Unknown ==> url == "file://" + path
    ensures k != Unknown ==> |UrlPrefix| + |KeyId(k)| < |url| && url[..|UrlPrefix| + |KeyId(k)|] == UrlPrefix + KeyId(k)
  {
    match k
    case Nybyg => UrlPrefix + KeyId(k) + "/B%C3%A6redygtighedsmanual%20-%20Nybyg.pdf"
    case SimpelSag => UrlPrefix + KeyId(k) + "/B%C3%A6redygtighedsmanual%20-%20Simpel%20sag.pdf"
    case Renovering => UrlPrefix + KeyId(k) + "/B%C3%A6redygtighedsmanual%20-%20Renovering.pdf"
    case Unknown => "file://" + path
  }

  /** The manual_meta dictionary main builds for a key. */
  function ManualMetaFor(k: ManualKey, path: string): (meta: ManualMeta)
    ensures "url_base" in meta
  {
    var title := Title(KeyName(k));
    map["id" := KeyId(k), "name" := "BO-VEST " + title, "shortName" := title,
        "group" := "bovest", "description" := title, "url_base" := KeyUrlBase(k, path)]
  }

  /** `key.title()` for the four key names. */
  lemma KeyTitles(k: ManualKey)
    ensures Title(KeyName(k)) == match k
      case Nybyg => "Nybyg" case SimpelSag => "Simpel Sag"
      case Renovering => "Renovering" case Unknown => "Unknown"
  {
    match k
    case Nybyg => TitleOf("NYBYG", "Nybyg");
    case SimpelSag => TitleOf("SIMPEL SAG", "Simpel Sag");
    case Renovering => TitleOf("RENOVERING", "Renovering");
    case Unknown => TitleOf("UNKNOWN", "Unknown");
  }

  lemma TitleOf(s: string, t: string)
    requires s in {"NYBYG", "SIMPEL SAG", "RENOVERING", "UNKNOWN"}
    requires t == if s == "NYBYG" then "Nybyg" else if s == "SIMPEL SAG" then "Simpel Sag"
                   else if s == "RENOVERING" then "Renovering" else "Unknown"
    ensures Title(s) == t
  {
  }

  /** The metadata of a key: an unknown key has an empty id and a file URL for
      the PDF itself; a known key has its own non-empty id, and a URL under
      that id. The name is "BO-VEST" and the title-cased key, which is also the
      short name and the initial description; the group is "bovest". */
  lemma ManualMetaFields(k: ManualKey, path: string)
    ensures var meta := ManualMetaFor(k, path);
            meta["id"] == KeyId(k) && (k == Unknown <==> meta["id"] == "")
            && (k == Unknown ==> meta["url_base"] == "file://" + path)
            && (k != Unknown ==> meta["url_base"][..|UrlPrefix| + |meta["id"]|] == UrlPrefix + meta["id"])
            && meta["shortName"] == Title(KeyName(k))
            && meta["name"] == "BO-VEST " + meta["shortName"]
            && meta["description"] == meta["shortName"]
            && meta["group"] == "bovest"
            && meta.Keys == {"id", "name", "shortName", "group", "description", "url_base"}
  {
    var meta := ManualMetaFor(k, path);
    if k != Unknown {
      assert meta["url_base"][..|UrlPrefix| + |meta["id"]|] == UrlPrefix + meta["id"];
    }
  }

  /** The output file of a key: "bovest-", the lower-cased key with its spaces
      turned into hyphens, ".json". */
  function OutputFileName(k: ManualKey): (name: string)
    ensures |name| == |KeyName(k)| + 12 && ' ' !in name
    ensures name[..7] == "bovest-" && name[|name| - 5..] == ".json" && name[7..|name| - 5] == FileStem(k)
  {
    "bovest-" + FileStem(k) + ".json"
  }

  /** The key lower-cased, with its spaces turned into hyphens. */
  function FileStem(k: ManualKey): (stem: string)
    ensures |stem| == |KeyName(k)| && ' ' !in stem
    ensures forall i :: 0 <= i < |stem| ==>
              stem[i] == if KeyName(k)[i] == ' ' then '-' else LowerChar(KeyName(k)[i])
  {
    HyphenatedLower(KeyName(k));
    Replace(Lower(KeyName(k)), " ", "-")
  }

  lemma HyphenatedLower(name: string)
    ensures var r := Replace(Lower(name), " ", "-");
            |r| == |name| && ' ' !in r
            && forall i :: 0 <= i < |r| ==> r[i] == if name[i] == ' ' then '-' else LowerChar(name[i])
  {
    ReplaceChar(Lower(name), ' ', '-');
  }

  /** The four file stems, spelled out. */
  function SpelledStem(k: ManualKey): string {
    match k
    case Nybyg => "nybyg"
    case SimpelSag => "simpel-sag"
    case Renovering => "renovering"
    case Unknown => "unknown"
  }

  /** The output file names are bovest-nybyg.json, bovest-simpel-sag.json,
      bovest-renovering.json and bovest-unknown.json. */
  lemma OutputFileNames(k: ManualKey)
    ensures OutputFileName(k) == "bovest-" + SpelledStem(k) + ".json"
  {
    SpelledFileStem(KeyName(k), SpelledStem(k));
  }

  /** A spelling that is the name lower-cased with hyphens for spaces is the
      file stem of that name. */
  lemma SpelledFileStem(name: string, spelled: string)
    requires |name| == |spelled|
    requires forall i :: 0 <= i < |name| ==> spelled[i] == if name[i] == ' ' then '-' else LowerChar(name[i])
    ensures Replace(Lower(name), " ", "-") == spelled
  {
    HyphenatedLower(name);
  }

  /** Different keys are written to different files, and no file name holds a space. */
  lemma OutputFileNamesDistinct(k: ManualKey, l: ManualKey)
    ensures OutputFileName(k) == OutputFileName(l) <==> k == l
    ensures ' ' !in OutputFileName(k)
  {
    OutputFileNames(k);
    OutputFileNames(l);
    SpelledStemsDistinct(k, l);
    FramedName(SpelledStem(k), SpelledStem(l));
  }

  lemma SpelledStemsDistinct(k: ManualKey, l: ManualKey)
    ensures SpelledStem(k) == SpelledStem(l) <==> k == l
    ensures ' ' !in SpelledStem(k)
  {
    if k != l {
      assert SpelledStem(k)[0] != SpelledStem(l)[0];
    }
  }

  /** A file name "bovest-<stem>.json" determines its stem, and holds a space
      only when its stem does. */
  lemma FramedName(a: string, b: string)
    ensures "bovest-" + a + ".json" == "bovest-" + b + ".json" ==> a == b
    ensures ' ' !in a ==> ' ' !in "bovest-" + a + ".json"
  {
    var n, m := "bovest-" + a + ".json", "bovest-" + b + ".json";
    if n == m {
      assert a == n[7..|n| - 5] == m[7..|m| - 5] == b;
    }
  }

  /** A PDF as main sees it: its path, its file stem, the text of its pages and
      the moment its manual is built. */
  datatype PdfFile = PdfFile(path: string, stem: string, pages: seq<string>, timestamp: string)

  /** The file main writes for a PDF, and what it writes into it. */
  function ManualOutput(pdf: PdfFile, findTasks: string -> seq<TaskMatch>): (string, Manual)
    requires |pdf.pages| >= 1
  {
    var key := ClassifyStem(pdf.stem);
    (OutputFileName(key), ParsedManual(pdf.pages, ManualMetaFor(key, pdf.path), pdf.timestamp, findTasks))
  }

  /** parse_manual copies id, name, short name and group from the metadata it
      is given, and takes the description from the cleaned first page. */
  lemma ParsedManualFields(raw: seq<string>, meta: ManualMeta, timestamp: string,
                           findTasks: string -> seq<TaskMatch>)
    requires |raw| >= 1 && "url_base" in meta
    requires "id" in meta && "name" in meta && "shortName" in meta && "group" in meta
    ensures var m := ParsedManual(raw, meta, timestamp, findTasks);
            m.id == meta["id"] && m.name == meta["name"] && m.shortName == meta["shortName"]
            && m.group == meta["group"] && m.description == ExtractDescription(CleanText(raw[0]))
  {
    var pages := CleanPages(raw);
    assert pages[0] == CleanText(raw[0]);
    var described := DescribedMeta(pages[0], meta);
    var found := DetectedThemes(pages);
    BuildJsonFields(described, ThemeObjects(pages, found, ThemeTitles(found), described, findTasks), timestamp);
  }

  /** The manual main writes for a PDF carries its key's id, "BO-VEST " and the
      key's title as name, the title as short name, the group "bovest" and the
      description extracted from the first page; its file is the key's. */
  lemma ManualOutputFields(pdf: PdfFile, findTasks: string -> seq<TaskMatch>)
    requires |pdf.pages| >= 1
    ensures ManualOutput(pdf, findTasks).0 == OutputFileName(ClassifyStem(pdf.stem))
    ensures ManualOutput(pdf, findTasks).1.id == KeyId(ClassifyStem(pdf.stem))
    ensures ManualOutput(pdf, findTasks).1.shortName == Title(KeyName(ClassifyStem(pdf.stem)))
    ensures ManualOutput(pdf, findTasks).1.name == "BO-VEST " + Title(KeyName(ClassifyStem(pdf.stem)))
    ensures ManualOutput(pdf, findTasks).1.group == "bovest"
    ensures ManualOutput(pdf, findTasks).1.description == ExtractDescription(CleanText(pdf.pages[0]))
  {
    var k := ClassifyStem(pdf.stem);
    var meta := ManualMetaFor(k, pdf.path);
    ManualMetaFields(k, pdf.path);
    var m := ParsedManual(pdf.pages, meta, pdf.timestamp, findTasks);
    assert ManualOutput(pdf, findTasks) == (OutputFileName(k), m);
    ParsedManualFields(pdf.pages, meta, pdf.timestamp, findTasks);
  }

  /** What main writes, in order, for the PDFs it finds (a later write to the
      same file replaces an earlier one). */
  function ManualOutputs(pdfs: seq<PdfFile>, findTasks: string -> seq<TaskMatch>): (written: seq<(string, Manual)>)
    requires forall i :: 0 <= i < |pdfs| ==> |pdfs[i].pages| >= 1
    ensures |written| == |pdfs|
  {
    seq(|pdfs|, i requires 0 <= i < |pdfs| => ManualOutput(pdfs[i], findTasks))
  }

  /** How many PDFs main gets through before the first one without pages,
      where reading pages[0] raises IndexError and ends the run. */
  function FirstPageless(pdfs: seq<PdfFile>): (k: nat)
    ensures k <= |pdfs|
    ensures forall i :: 0 <= i < k ==> |pdfs[i].pages| >= 1
    ensures k < |pdfs| ==> pdfs[k].pages == []
    decreases |pdfs|
  {
    if pdfs == [] || pdfs[0].pages == [] then 0 else 1 + FirstPageless(pdfs[1..])
  }

  /** What a run of main leaves behind: the files written, in order, up to the
      first PDF without pages, and whether the run stopped there with an error. */
  function MainRun(pdfs: seq<PdfFile>, findTasks: string -> seq<TaskMatch>): (r: (seq<(string, Manual)>, bool))
    ensures |r.0| <= |pdfs|
    ensures r.1 <==> exists i :: 0 <= i < |pdfs| && pdfs[i].pages == []
    ensures !r.1 ==> |r.0| == |pdfs|
    ensures r.1 ==> |r.0| < |pdfs| && pdfs[|r.0|].pages == [] && forall i :: 0 <= i < |r.0| ==> |pdfs[i].pages| >= 1
    ensures forall i :: 0 <= i < |r.0| ==> |pdfs[i].pages| >= 1 && r.0[i] == ManualOutput(pdfs[i], findTasks)
  {
    var k := FirstPageless(pdfs);
    (ManualOutputs(pdfs[..k], findTasks), k < |pdfs|)
  }

  /** One pass of main's loop: classify the PDF, build its metadata, parse it,
      and name its output file. */
  method ProcessManual(pdf: PdfFile, findTasks: string -> seq<TaskMatch>) returns (out: (string, Manual))
    requires |pdf.pages| >= 1
    ensures out == ManualOutput(pdf, findTasks)
  {
    var key := ClassifyStem(pdf.stem);
    var manualMeta := ManualMetaFor(key, pdf.path);
    var data := ParseManual(pdf.pages, manualMeta, pdf.timestamp, findTasks);
    var outfile := OutputFileName(key);
    out := (outfile, data);
  }
}
