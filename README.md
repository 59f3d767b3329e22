# BO-VEST manual parser, modelled in Dafny

The BO-VEST manual parser turns the sustainability manuals of BO-VEST
(Nybyg, Simpel Sag, Renovering) from PDF into a JSON hierarchy:
manual → version → theme → criterion → task group → task → task item.
This project models the deterministic core between PDF text extraction and
file writing, and proves what it promises:

- **Text normalisation** (`clean_text`, `extract_description`), module
  `TextNormalization`. `re.sub` is modelled as a left-to-right scan with an
  anchored matcher per fixed pattern (module `Regex`).
- **Theme detection** (`code_from_title`, `find_manualen_page`,
  `find_theme_pages`), module `ThemeDetection`. The page scans are methods
  with loops, proved against the function that states their result.
- **Hierarchy assembly** (`extract_task_blocks`, `build_json_structure`),
  module `TaskBlocks`:
  - criteria are de-duplicated in first-seen order and capped at five;
  - tasks are capped at ten and zero-padded;
  - codes are numbered per level;
  - page numbers appear in each task's documentation.
- **The driver** (`parse_manual` and one pass of `main`), module
  `ParseManuals`. It covers:
  - the theme loop with its 40-page window and its sort-order overwrite;
  - the manual key taken from the file stem;
  - the manual metadata;
  - the output file name.
- Python's string operations the core relies on (`upper`, `lower`, `title`,
  `in`, `strip`, `split`, `join`, `str(int)`, `zfill`) are in module
  `Strings`. The JSON tree is the set of datatypes in module `Schema`.

Pages are an input `seq<string>`. The timestamp of `datetime.utcnow()` is a
parameter. The two patterns that are not fixed are parameters:
- `matchesTitle`: the title pattern built at utils.py:44-46;
- `findTasks`: the `re.findall` of utils.py:239, a function from the text
  chunk to its (number, title) pairs.

A theme found on 1-based page p gets the window of 0-based pages p + 1 to
p + 40 (`ThemeWindowSpan`). That is 1-based pages p + 2 onwards, exactly as
parse_manuals.py:63-64 computes it.

## Model

| member | source | states |
|---|---|---|
| TextNormalization.CleanText | utils.py:12-19 | empty input gives ""; otherwise the result has no '\r', no hyphen followed by a line break, no run of three line breaks, and no leading or trailing whitespace |
| TextNormalization.JoinedBreaks | utils.py:17 | after removing `-\n\s*`, no hyphen is followed by a line break |
| TextNormalization.CollapsedKeepsNoHyphenBreak | utils.py:17-18 | collapsing newline runs does not create a hyphen followed by a line break |
| TextNormalization.CollapsedNewlines | utils.py:18 | after `\n{2,}` → "\n\n", no three line breaks are in a row |
| TextNormalization.ExtractDescription | utils.py:58-100 | the description never contains '\n', '>' or '/' |
| TextNormalization.DenoisedChars | utils.py:64-71 | after replacing line breaks, undoubling letters and dropping `[>/]+`, no '\n', '>' or '/' is left |
| TextNormalization.DescriptionKeepsOut | utils.py:73-98 | a character absent from the denoised text and from "BO-VEST bæredygtighedsmanual" is absent from the description: sentence search, header/footer removal, space collapsing, strip and the final replace never add it |
| TextNormalization.DescriptionChars | utils.py:64-98 | the full chain of extract_description yields no '\n', '>' or '/' |
| ThemeDetection.CodeFromTitle | utils.py:21-30 | the code is one of "DS", "IE", "MA", "XX" |
| ThemeDetection.ThemeTitleCodes | utils.py:21-30 | the three fixed theme titles get DS, IE and MA respectively, so SOCIA is tested before INDE before MATER without shadowing |
| ThemeDetection.FirstHit | utils.py:48-53 | the index found holds a non-empty page the pattern accepts and no earlier non-empty page is accepted; none found means no non-empty page is accepted |
| ThemeDetection.FindManualenPage | utils.py:48-56 | returns -1 or a 1-based k ≤ number of pages; page k is non-empty and matches, no earlier non-empty page matches, and -1 exactly when no non-empty page matches |
| ThemeDetection.FirstMatchingPage | utils.py:113-118 | the loop with its `break` finds the first non-empty page with the manual heading, as FirstHit states it |
| ThemeDetection.FindThemePages | utils.py:102-151 | the whole of find_theme_pages equals DetectedThemes |
| ThemeDetection.ReportThemes | utils.py:120-148 | searches the manual page, or the first eight pages when there is none, and falls back to the three default themes, as ThemesFrom states it |
| ThemeDetection.MatchThemes | utils.py:135-139 | the loop over the keyword table appends, in table order, each theme one of whose keywords occurs |
| ThemeDetection.MatchedThemesShape | utils.py:135-139 | the matched themes are strictly in table order, all carry the given page, and a theme is in the result if and only if one of its keywords was hit |
| ThemeDetection.ThemesForHitsShape | utils.py:135-148 | after the fallback there are 1 to 3 themes, distinct and in table order, each on the given page or on page 1 |
| ThemeDetection.ThemesForHitsContents | utils.py:135-148 | with some hit, exactly the hit themes on the given page; with none, exactly the three defaults on page 1 |
| ThemeDetection.ThemesFromShape | utils.py:120-148 | for any manual-page choice: 1 to 3 themes, strictly in table order, every page ≥ 1 |
| ThemeDetection.DetectedThemesShape | utils.py:102-151 | find_theme_pages returns 1 to 3 distinct themes in the order Det Sociale, Indeklima/Energi/Miljø, Materialer, each with a page ≥ 1 |
| ThemeDetection.AllThemesOnPage | utils.py:124-139 | a manual page naming all three themes yields all three, each with that page's 1-based number |
| Regex.HyphenBreak | utils.py:17 | `-\n\s*` matches exactly at a hyphen followed by a line break, and takes all the whitespace after it |
| Regex.NewlineRun | utils.py:18 | `\n{2,}` matches exactly at two line breaks and takes the whole run of them |
| Regex.RepeatedWordChar | utils.py:68 | `(\w)\1+` matches exactly at a word character that is repeated, and takes the whole run of that character |
| Regex.AngleOrSlashRun | utils.py:71 | `[>/]+` takes the whole run of '>' and '/' |
| Regex.DescriptionSentence | utils.py:74 | a match starts with "bo" in any case, is long enough to hold "BOVEST", a space, the manual's name and a full stop, and ends at a full stop |
| Regex.DescriptionOpening | utils.py:74 | "BO-VEST ", any spelling of "bæredygtighedsmanual" that case-folds to it, text without a full stop, then a full stop: the whole sentence matches |
| Regex.DottedCapitalIDescription | utils.py:74 | "BO-VEST BÆREDYGTİGHEDSMANUAL x.", with a dotted capital I, matches all 31 characters, as re.IGNORECASE matches it |
| Regex.ManualHeader | utils.py:84 | a match starts with "bæredygtigheds" in any case and is at least 20 characters long, room for "manual" after it |
| Regex.DottedCapitalIEdition | utils.py:84 | the edition name "SİMPEL SAG", with a dotted capital I, matches in full, as re.IGNORECASE matches it |
| Regex.EditionFooter | utils.py:90 | a match starts with "tegnestuen" in any case, is at least 32 characters long, room for the three words and the year, and ends in four digits |
| Regex.SpaceRun | utils.py:97 | `\s{2,}` matches exactly at two whitespace characters and takes the whole run |
| Regex.ManualTitle | utils.py:110 | a match starts with "manualen" in any case, is at least 18 characters long, room for the three words, and ends in a j in either case |
| TaskBlocks.ThemeStyle | utils.py:159-181 | a code outside DS, IE, MA gets black and its lightened colour |
| TaskBlocks.SecondaryIsLighter | utils.py:168-181 | every secondary colour is the primary colour with each RGB component moved 10% of the way towards 255, rounded down |
| TaskBlocks.DetectCriteria | utils.py:192-208 | the line loop that collects possible_criteria computes Criteria: first-seen names of keyword lines, or the fallback criterion |
| TaskBlocks.FirstSeenMembers | utils.py:204-206 | a name is collected if and only if some line names it |
| TaskBlocks.FirstSeenDistinct | utils.py:205-206 | the collected names are pairwise distinct |
| TaskBlocks.FirstSeenGrows | utils.py:205-206 | what a prefix of the lines collects is a prefix of what all lines collect, so first-seen order is kept |
| TaskBlocks.CriteriaShape | utils.py:192-208 | criteria are never empty and pairwise distinct; other than the fallback, a name is a criterion if and only if a keyword line names it; with no keyword line the list is exactly the fallback |
| TaskBlocks.ChosenCriteria | utils.py:210 | between 1 and 5 criteria get an object |
| TaskBlocks.TaskMatches | utils.py:238-243 | every criterion gets between 1 and 10 tasks |
| TaskBlocks.BuildTasks | utils.py:243-303 | the task loop yields MakeTasks: one task per match, in order |
| TaskBlocks.BuildTask | utils.py:244-302 | one pass of the task loop builds MakeTask |
| TaskBlocks.TaskPages | utils.py:245-267 | task t has sort order t + 1, and start_page + t can be read back from its "Manual (side …)" text and from its URL |
| TaskBlocks.TaskCode | utils.py:244 | the task code has at least two characters; for a digit string it is that string zero-padded: still digits, same value, ending in the original |
| TaskBlocks.TaskItemCode | utils.py:274-301 | exactly one task item, coded task code + ".1", with three options whose values are 1, 2, 3; when the task number has no ".", the part of the item code before the first "." is the task code |
| TaskBlocks.ExtractTaskBlocks | utils.py:153-308 | extract_task_blocks equals ThemeBlock |
| TaskBlocks.BuildCriterion | utils.py:210-306 | one pass of the criterion loop builds CriterionBlock |
| TaskBlocks.ThemeBlockShape | utils.py:210-306 | the theme code is code_from_title of the title; 1 to 5 criteria, criterion c with sort order c + 1 and code theme code + str(c + 1); criterion codes are distinct; one task group coded criterion code + ".1" holding 1 to 10 tasks |
| TaskBlocks.SameTasksEverywhere | utils.py:238-243 | when the pattern finds tasks, every task group of a theme holds the same task list |
| TaskBlocks.BuildJsonStructure | utils.py:310-325 | exactly one version, "1.0.0", dated timestamp + "Z", holding the given themes unchanged |
| TaskBlocks.BuildJsonFields | utils.py:317-324 | a present id, name, shortName, description or group is copied from the metadata; a missing one of the first four becomes "", a missing group becomes "bovest" |
| ParseManuals.ParseManual | parse_manuals.py:52-69 | parse_manual equals ParsedManual for at least one page |
| ParseManuals.BuildThemes | parse_manuals.py:60-67 | the theme loop yields one theme object per detected theme, in order |
| ParseManuals.BuildTheme | parse_manuals.py:61-67 | one pass of the theme loop: the window, the theme block and the overwritten sort order |
| ParseManuals.ParsedManualShape | parse_manuals.py:52-69 | one version with as many themes as detected (1 to 3); theme i has sort order i + 1 and the detected title; the description is extract_description of the cleaned first page, free of '\n', '>' and '/' |
| ParseManuals.ParsedManualFields | parse_manuals.py:52-69 | the manual carries the metadata's id, name, shortName and group, and its description is extract_description of the cleaned first page |
| ParseManuals.ThemeWindowSpan | parse_manuals.py:63-64 | the window joins at most 40 pages, from 0-based index start, clipped to the page count; it is 40 pages when they exist and empty past the end |
| ParseManuals.ClassifyStem | parse_manuals.py:99-107 | on the upper-cased stem: NYBYG exactly when it contains "NYBYG"; SIMPEL SAG exactly when it does not and contains "SIMP" or "SAG"; RENOVERING exactly when it contains none of those and contains "RENOV"; UNKNOWN otherwise |
| ParseManuals.ClassifyKeyName | parse_manuals.py:99-107 | on the four key names themselves, each name is classified as its own key |
| ParseManuals.RenovationCaseShadowed | parse_manuals.py:102-104 | the earlier tests shadow later ones on other stems: "Renovering-sag" is classified SIMPEL SAG, because "SAG" is tested before "RENOV" |
| ParseManuals.KeyId | parse_manuals.py:83-109 | the id is empty exactly for UNKNOWN |
| ParseManuals.KeyUrlBase | parse_manuals.py:83-109 | UNKNOWN gets "file://" + path; a known key's url_base starts with the storage prefix followed by its id |
| ParseManuals.ManualMetaFor | parse_manuals.py:109-117 | the metadata always has a url_base |
| ParseManuals.KeyTitles | parse_manuals.py:112-115 | key.title() is "Nybyg", "Simpel Sag", "Renovering", "Unknown" |
| ParseManuals.ManualMetaFields | parse_manuals.py:83-117 | the id is the key's id from the table, empty exactly for UNKNOWN, whose url_base is "file://" + path; a known key's url_base starts with the storage prefix and its id; shortName is key.title(); name is "BO-VEST " + shortName; the description equals shortName; group is "bovest"; exactly the six keys |
| ParseManuals.FileStem | parse_manuals.py:120 | the stem has the key's length and no space; each character is the key's character lower-cased, or '-' where the key has a space |
| ParseManuals.OutputFileName | parse_manuals.py:120 | "bovest-", then the file stem, then ".json": 12 characters longer than the key, with no space |
| ParseManuals.SpelledFileStem | parse_manuals.py:120 | any spelling that is the name lower-cased with hyphens for spaces equals `name.lower().replace(' ', '-')` |
| ParseManuals.OutputFileNames | parse_manuals.py:120 | the files are bovest-nybyg.json, bovest-simpel-sag.json, bovest-renovering.json and bovest-unknown.json |
| ParseManuals.OutputFileNamesDistinct | parse_manuals.py:120 | two keys share an output file if and only if they are the same key, and no file name holds a space |
| ParseManuals.ManualOutputs | parse_manuals.py:98-122 | main writes one (file name, manual) pair per PDF |
| ParseManuals.ManualOutputFields | parse_manuals.py:98-121 | the manual written for a PDF is named after the PDF's key and carries that key's id, "BO-VEST " + key.title() as name, key.title() as shortName, group "bovest", and the description extracted from the PDF's cleaned first page |
| ParseManuals.FirstPageless | parse_manuals.py:57 | the PDFs before the returned index all have pages, and the PDF at that index, if any, has none |
| ParseManuals.MainRun | parse_manuals.py:98-122 | main writes, in order, the i-th PDF's (file name, manual) pair as ManualOutput gives it, until the first PDF without pages; the run ends in an error exactly when some PDF has no pages, and then that PDF comes right after the written ones; otherwise every PDF is written |
| ParseManuals.ProcessManual | parse_manuals.py:98-121 | one pass of main's loop: classify, build the metadata, parse and name the file, as ManualOutput states it |

## Left out

- PDF text extraction (pdfplumber / PyPDF2 and the import-time fallback): foreign library calls. Pages are an input.
- The file system and the command line are I/O and are left out:
  - `save_json`;
  - `mkdir` and `glob`;
  - the early return when no PDF is found;
  - `argparse`;
  - every `print`.
- `datetime.utcnow()`: a clock; its ISO text is the `timestamp` parameter.
- JSON serialisation: the tree is the datatypes of module `Schema`.
  - Fixed fields that never vary, such as `"type": "theme"`, are implied by the datatype constructor.
- The title pattern of find_manualen_page (utils.py:44-46) is the parameter `matchesTitle`. Building a regex from the title is not modelled.
- The task pattern (utils.py:239) is the parameter `findTasks`. Its result is not constrained, so the lemmas hold for any list of pairs.
- Python's Unicode tables are limited to Latin-1 for these operations:
  - upper- and lower-casing;
  - `title()`;
  - `\w` and `\d`.
  - Within Latin-1 these follow Python's tables, with ª and º counted as cased letters, as `title()` counts them.
  - 'ß' is left as it is by `upper()`, where Python writes "SS", and by `title()` at the start of a word, where Python writes "Ss".
- `re.IGNORECASE` folding is complete for the fixed patterns. Their letters are all Latin-1, and `Fold` also covers the nine characters outside Latin-1 that match a Latin-1 letter: İ, ı, ſ, the Kelvin sign, the Angstrom sign, Ÿ, ẞ, Μ and μ.
- `\s` and `strip()` use Python's full whitespace list.
- Python's `str.replace` with an empty pattern is excluded: `Replace` requires a non-empty pattern. The source never uses an empty one.
- A file's stem is given as a field of `PdfFile`, not computed from the path.
- The three detected themes are the datatype `ThemeKind`. Their titles enter the theme assembly as plain strings.
- ParseManual: a PDF without pages is excluded by its requires. Python raises IndexError at parse_manuals.py:57 for such a PDF. That error is modelled one level up, by MainRun: main stops at that PDF, and the files of the earlier PDFs stay written. The error itself is not a value the model returns.
- ManualOutputs: main's loop over the PDFs is the function ManualOutputs, and one pass of it is the method ProcessManual. The order of writes is the order of the list.
- CodeFromTitle: its contract states only the range of codes. The priority order is stated through the three fixed theme titles (ThemeTitleCodes), not for every title.
- ThemeStyle: its contract states only the default for codes outside the table. The table entries are related by SecondaryIsLighter.
  - lighten_color's multiplication by 0.1 in floating point is modelled as integer division by 10.
- ManualMetaFor: its contract states only that url_base is present. The field values are stated by ManualMetaFields and KeyTitles.
