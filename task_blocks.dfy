/**
 * Building one theme block — Theme → Criterion → Task Group → Task → Task
 * Item — from a chunk of manual text (extract_task_blocks, utils.py:152-304),
 * and the manual document around the themes (build_json_structure,
 * utils.py:306-325).
 */
module TaskBlocks {
  import opened Strings
  import opened Schema
  import opened ThemeDetection

  // ---------------------------------------------------------------------
  // Theme style
  // ---------------------------------------------------------------------

  /** The primary colour of a theme code ("#000000" for an unknown code) and
      the colour lighten_color derives from it: each RGB component moved 10%
      of the way towards 255, rounded down. */
  function ThemeStyle(themeCode: string): (s: Style)
    ensures themeCode !in {"DS", "IE", "MA"} ==> s == Style("#000000", "#191919")
  {
    if themeCode == "DS" then Style("#d96552", "#dc7463")
    else if themeCode == "IE" then Style("#81a38b", "#8dac96")
    else if themeCode == "MA" then Style("#2c484d", "#415a5e")
    else Style("#000000", "#191919")
  }

  /** The value of a lower-case hexadecimal digit. */
  function HexValue(c: char): nat {
    if '0' <= c <= '9' then c as nat - '0' as nat
    else if 'a' <= c <= 'f' then c as nat - 'a' as nat + 10
    else 0
  }

  /** The k-th RGB component of a colour written "#rrggbb". */
  function Component(color: string, k: nat): nat
    requires |color| == 7 && k < 3
  {
    16 * HexValue(color[1 + 2 * k]) + HexValue(color[2 + 2 * k])
  }

  /** lighten_color's step for one component: moved 10% of the way towards
      255, rounded down. */
  function Lighten(c: int): int {
    c + (255 - c) / 10
  }

  /** Each theme's secondary colour is its primary colour lightened component
      by component. */
  lemma SecondaryIsLighter(themeCode: string)
    ensures var s := ThemeStyle(themeCode);
            |s.primaryColor| == 7 && |s.secondaryColor| == 7
            && s.primaryColor[0] == '#' && s.secondaryColor[0] == '#'
            && forall k :: 0 <= k < 3 ==> Component(s.secondaryColor, k) == Lighten(Component(s.primaryColor, k))
  {
  }

  const ThemeOptions: ElementOptions := ElementOptions(true, true, true, None)
  const CriterionOptions: ElementOptions := ElementOptions(true, true, true, Some(":title:"))
  const TaskTextFormat: string := ":code: :title:"

  // ---------------------------------------------------------------------
  // Criteria detection
  // ---------------------------------------------------------------------

  /** The upper-case words that mark a line as naming a criterion. */
  const CriterionKeywords: seq<string> := ["LIVET MELLEM", "BYGNINGER", "ENERGI", "SUNDT BYGGERI", "MATERIALER"]

  /** The criterion used when no line names one. */
  const FallbackCriterion: string := "Livet Mellem Naboer"

  predicate IsCriterionLine(line: string) {
    AnyIn(CriterionKeywords, Upper(line))
  }

  /** The criterion a line names: the stripped line up to its first colon. */
  function CriterionName(line: string): string {
    Split(Strip(line), ':')[0]
  }

  /** The criterion a line names, if it names one. */
  function LineCriterion(line: string): Option<string> {
    if IsCriterionLine(line) then Some(CriterionName(line)) else None
  }

  function LineCriteria(lines: seq<string>): seq<Option<string>> {
    seq(|lines|, i requires 0 <= i < |lines| => LineCriterion(lines[i]))
  }

  /** The names in `names`, each once, in the order first seen. */
  function FirstSeen(names: seq<Option<string>>): seq<string>
    decreases |names|
  {
    if names == [] then []
    else
      var prev := FirstSeen(names[..|names| - 1]);
      match names[|names| - 1]
      case None => prev
      case Some(x) => if x in prev then prev else prev + [x]
  }

  /** possible_criteria: the criteria named in the text, or the fallback criterion. */
  function Criteria(text: string): seq<string> {
    var found := FirstSeen(LineCriteria(Split(text, '\n')));
    if found == [] then [FallbackCriterion] else found
  }

  /** The loop of extract_task_blocks that collects possible_criteria line by line. */
  method DetectCriteria(text: string) returns (criteria: seq<string>)
    ensures criteria == Criteria(text)
  {
    var lines := Split(text, '\n');
    ghost var names := LineCriteria(lines);
    criteria := [];
    var i := 0;
    while i < |lines|
      invariant 0 <= i <= |lines|
      invariant criteria == FirstSeen(names[..i])
    {
      var line := lines[i];
      assert names[..i + 1][..i] == names[..i];
      assert names[i] == LineCriterion(line);
      if AnyIn(CriterionKeywords, Upper(line)) {
        var crit := Split(Strip(line), ':')[0];
        if crit !in criteria {
          criteria := criteria + [crit];
        }
      }
      i := i + 1;
    }
    assert names[..|lines|] == names;
    if criteria == [] {
      criteria := [FallbackCriterion];
    }
  }

  /** A name is collected exactly when it occurs. */
  lemma {:induction false} FirstSeenMembers(names: seq<Option<string>>)
    ensures forall x :: x in FirstSeen(names) <==> Some(x) in names
    decreases |names|
  {
    if names != [] {
      var init := names[..|names| - 1];
      FirstSeenMembers(init);
      assert names == init + [names[|names| - 1]];
    }
  }

  /** No name is collected twice. */
  lemma {:induction false} FirstSeenDistinct(names: seq<Option<string>>)
    ensures forall i, j :: 0 <= i < j < |FirstSeen(names)| ==> FirstSeen(names)[i] != FirstSeen(names)[j]
    decreases |names|
  {
    if names != [] {
      var init := names[..|names| - 1];
      FirstSeenDistinct(init);
      var prev := FirstSeen(init);
      var r := FirstSeen(names);
      if r != prev {
        var x := names[|names| - 1].value;
        assert r == prev + [x] && x !in prev;
        forall i, j | 0 <= i < j < |r|
          ensures r[i] != r[j]
        {
          if j == |prev| {
            assert r[i] == prev[i] && prev[i] in prev;
          } else {
            assert r[i] == prev[i] && r[j] == prev[j];
          }
        }
      }
    }
  }

  /** Names are appended in the order first seen and never reordered: what any
      prefix yields is a prefix of what the whole yields. */
  lemma {:induction false} FirstSeenGrows(names: seq<Option<string>>, k: nat)
    requires k <= |names|
    ensures FirstSeen(names[..k]) <= FirstSeen(names)
    decreases |names| - k
  {
    if k < |names| {
      FirstSeenGrows(names, k + 1);
      assert names[..k + 1][..k] == names[..k];
    } else {
      assert names[..k] == names;
    }
  }

  /** possible_criteria is never empty and holds no duplicate. A criterion
      other than the fallback is in it exactly when a line of the text names
      it; the fallback stands alone when no line names a criterion. */
  lemma CriteriaShape(text: string)
    ensures var r := Criteria(text);
            |r| >= 1 && forall i, j :: 0 <= i < j < |r| ==> r[i] != r[j]
    ensures var names := LineCriteria(Split(text, '\n'));
            forall x :: x != FallbackCriterion ==> (x in Criteria(text) <==> Some(x) in names)
    ensures var names := LineCriteria(Split(text, '\n'));
            (forall x :: Some(x) !in names) ==> Criteria(text) == [FallbackCriterion]
  {
    var names := LineCriteria(Split(text, '\n'));
    FirstSeenMembers(names);
    FirstSeenDistinct(names);
    if FirstSeen(names) != [] {
      assert FirstSeen(names)[0] in FirstSeen(names);
    }
  }

  // ---------------------------------------------------------------------
  // Tasks
  // ---------------------------------------------------------------------

  /** A task found by the task pattern: its number and its title text. */
  type TaskMatch = (string, string)

  /** The task list of a criterion: what the task pattern finds in the text
      (`findTasks`, the pattern of utils.py:239), or one example task named
      after the criterion when it finds nothing; at most ten. */
  function TaskMatches(text: string, criterion: string, findTasks: string -> seq<TaskMatch>): (r: seq<TaskMatch>)
    ensures 1 <= |r| <= 10
  {
    var found := findTasks(text);
    var tasks := if found == [] then [("01", criterion + " - Eksempelopgave")] else found;
    tasks[..Min(10, |tasks|)]
  }

  /** The three answer options of every task item. */
  const SelectOptions: seq<SelectOption> := [
    SelectOption("option.0", "Der er etableret 1-2 typer af rumlige situationer...", 1),
    SelectOption("option.1", "I tillæg hertil er der attraktive og inviterende stueetager...", 2),
    SelectOption("option.2", "Derudover kan der identificeres mindst 3 invitationer...", 3)
  ]

  /** The documentation requirement attached to every task. */
  const DocumentationRequirement: string := "Planudsnit / fotodokumentation, og beskrivelser i tekst"

  /** The body of every task item. */
  const ItemBody: string := "<strong>Beskrivelse</strong>\n(Extracted description)"

  /** The task built from the t-th task match. */
  function MakeTask(m: TaskMatch, t: nat, startPage: int, urlBase: string): Task {
    var code := ZFill(m.0, 2);
    var page := startPage + t;
    var title := Strip(m.1);
    Task("count", code, title, title, t + 1,
         TaskOptions(TaskTextFormat, TaskTextFormat, false, TaskTextFormat),
         [PdfLink("Definition", "Manual (side " + IntToString(page) + ")", urlBase + "?page=" + IntToString(page)),
          PlainText("Dokumentationskrav", DocumentationRequirement)],
         [TaskItem(code + ".1", SelectOptions, false, ItemBody)])
  }

  function MakeTasks(matches: seq<TaskMatch>, startPage: int, urlBase: string): seq<Task> {
    seq(|matches|, t requires 0 <= t < |matches| => MakeTask(matches[t], t, startPage, urlBase))
  }

  /** The inner loop of extract_task_blocks, appending one task per match. */
  method BuildTasks(matches: seq<TaskMatch>, startPage: int, urlBase: string) returns (tasks: seq<Task>)
    ensures tasks == MakeTasks(matches, startPage, urlBase)
  {
    ghost var all := MakeTasks(matches, startPage, urlBase);
    tasks := [];
    var t := 0;
    while t < |matches|
      invariant 0 <= t <= |matches|
      invariant tasks == all[..t]
    {
      var task := BuildTask(matches[t], t, startPage, urlBase);
      assert task == all[t];
      PrefixExtend(all, t);
      tasks := tasks + [task];
      t := t + 1;
    }
    assert all[..t] == all;
  }

  /** One pass of the inner loop: the zero-padded code, the page of the task,
      its link into the PDF and its single task item. */
  method BuildTask(m: TaskMatch, t: nat, startPage: int, urlBase: string) returns (task: Task)
    ensures task == MakeTask(m, t, startPage, urlBase)
  {
    var (taskNum, taskTitle) := m;
    var taskCode := ZFill(taskNum, 2);
    var pageNumber := startPage + t;
    var pdfUrl := urlBase + "?page=" + IntToString(pageNumber);
    task := Task("count", taskCode, Strip(taskTitle), Strip(taskTitle), t + 1,
      TaskOptions(TaskTextFormat, TaskTextFormat, false, TaskTextFormat),
      [PdfLink("Definition", "Manual (side " + IntToString(pageNumber) + ")", pdfUrl),
       PlainText("Dokumentationskrav", DocumentationRequirement)],
      [TaskItem(taskCode + ".1", SelectOptions, false, ItemBody)]);
  }

  /** The number written between `prefix` and `suffix` in `s`, if that is what `s` is. */
  function NumberBetween(s: string, prefix: string, suffix: string): Option<nat> {
    if |prefix| + |suffix| <= |s| && s[..|prefix|] == prefix && s[|s| - |suffix|..] == suffix
       && AllDigits(s[|prefix|..|s| - |suffix|]) && |prefix| < |s| - |suffix|
    then Some(DecimalValue(s[|prefix|..|s| - |suffix|]))
    else None
  }

  lemma NumberBetweenRoundTrip(prefix: string, n: nat, suffix: string)
    ensures NumberBetween(prefix + NatToString(n) + suffix, prefix, suffix) == Some(n)
  {
    var s := prefix + NatToString(n) + suffix;
    assert s[..|prefix|] == prefix;
    assert s[|s| - |suffix|..] == suffix;
    assert s[|prefix|..|s| - |suffix|] == NatToString(n);
    DecimalRoundTrip(n);
  }

  /** Task t reads its page, start_page + t, back from both its documentation
      text and its PDF link; its sort order is t + 1. */
  lemma TaskPages(matches: seq<TaskMatch>, startPage: int, urlBase: string, t: nat)
    requires t < |matches| && startPage + t >= 0
    ensures var task := MakeTasks(matches, startPage, urlBase)[t];
            task.sortOrder == t + 1
            && NumberBetween(task.documentation[0].body, "Manual (side ", ")") == Some(startPage + t)
            && NumberBetween(task.documentation[0].url, urlBase + "?page=", "") == Some(startPage + t)
  {
    var page: nat := startPage + t;
    NumberBetweenRoundTrip("Manual (side ", page, ")");
    NumberBetweenRoundTrip(urlBase + "?page=", page, "");
    assert urlBase + "?page=" + NatToString(page) + "" == urlBase + "?page=" + NatToString(page);
  }

  /** A task's code is at least two characters long; for a number of digits it
      is that number zero-padded, with the same value. */
  lemma TaskCode(m: TaskMatch, t: nat, startPage: int, urlBase: string)
    ensures |MakeTask(m, t, startPage, urlBase).code| >= 2
    ensures |m.0| >= 1 && AllDigits(m.0) ==>
            var code := MakeTask(m, t, startPage, urlBase).code;
            AllDigits(code) && DecimalValue(code) == DecimalValue(m.0) && code[|code| - |m.0|..] == m.0
  {
    if |m.0| >= 1 && AllDigits(m.0) {
      ZFillDigits(m.0, 2);
    }
  }

  /** A task has one task item, coded with the task code and ".1", offering
      the values 1, 2 and 3. For a task number of digits, the item code splits
      at its first '.' into the task code. */
  lemma TaskItemCode(m: TaskMatch, t: nat, startPage: int, urlBase: string)
    ensures var task := MakeTask(m, t, startPage, urlBase);
            |task.items| == 1
            && task.items[0].code[..|task.code|] == task.code
            && task.items[0].code[|task.code|..] == ".1"
            && |task.items[0].selectOptions| == 3
            && (forall k :: 0 <= k < |task.items[0].selectOptions| ==> task.items[0].selectOptions[k].value == k + 1)
    ensures '.' !in m.0 ==>
            var task := MakeTask(m, t, startPage, urlBase);
            Split(task.items[0].code, '.')[0] == task.code
  {
    var code := ZFill(m.0, 2);
    if '.' !in m.0 {
      assert '.' !in code;
      var s := code + ".1";
      SplitHead(s, '.');
      assert forall k :: 0 <= k < |code| ==> s[k] == code[k] && s[k] != '.';
      assert s[|code|] == '.';
    }
  }

  // ---------------------------------------------------------------------
  // Criteria, task groups and the theme
  // ---------------------------------------------------------------------

  /** The criterion object for criterion number c (0-based), with its single
      task group. */
  function MakeCriterion(themeCode: string, criterion: string, c: nat, tasks: seq<Task>): Criterion {
    var critCode := themeCode + NatToString(c + 1);
    Criterion(critCode, criterion, criterion, c + 1, CriterionOptions,
              [TaskGroup(critCode + ".1", criterion, criterion, 1, tasks)])
  }

  /** The criteria that get an object: the first five. */
  function ChosenCriteria(text: string): (r: seq<string>)
    ensures 1 <= |r| <= 5
  {
    CriteriaShape(text);
    var all := Criteria(text);
    all[..Min(5, |all|)]
  }

  /** The criterion object for the c-th chosen criterion, with the tasks the
      text chunk yields for it. */
  function CriterionBlock(text: string, themeCode: string, criterion: string, c: nat, startPage: int,
                          urlBase: string, findTasks: string -> seq<TaskMatch>): Criterion {
    MakeCriterion(themeCode, criterion, c, MakeTasks(TaskMatches(text, criterion, findTasks), startPage, urlBase))
  }

  /** The criterion objects for the chosen criteria, in order. */
  function CriterionBlocks(text: string, themeCode: string, chosen: seq<string>, startPage: int,
                           urlBase: string, findTasks: string -> seq<TaskMatch>): (criteria: seq<Criterion>)
    ensures |criteria| == |chosen|
  {
    seq(|chosen|, c requires 0 <= c < |chosen| =>
      CriterionBlock(text, themeCode, chosen[c], c, startPage, urlBase, findTasks))
  }

  /** What extract_task_blocks returns. */
  function ThemeBlock(text: string, themeTitle: string, meta: ManualMeta, startPage: int,
                      findTasks: string -> seq<TaskMatch>): Theme
    requires "url_base" in meta
  {
    var themeCode := CodeFromTitle(themeTitle);
    var criteria := CriterionBlocks(text, themeCode, ChosenCriteria(text), startPage, meta["url_base"], findTasks);
    Theme(themeCode, themeTitle, themeTitle, ThemeStyle(themeCode), 1, ThemeOptions, criteria)
  }

  /** extract_task_blocks: one criterion object per chosen criterion, each with
      one task group holding the tasks found in the text chunk. */
  method ExtractTaskBlocks(text: string, themeTitle: string, meta: ManualMeta, startPage: int,
                           findTasks: string -> seq<TaskMatch>) returns (theme: Theme)
    requires "url_base" in meta
    ensures theme == ThemeBlock(text, themeTitle, meta, startPage, findTasks)
  {
    var themeCode := CodeFromTitle(themeTitle);
    var possible := DetectCriteria(text);
    var chosen := possible[..Min(5, |possible|)];
    assert chosen == ChosenCriteria(text);
    var urlBase := meta["url_base"];
    ghost var all := CriterionBlocks(text, themeCode, chosen, startPage, urlBase, findTasks);
    var items: seq<Criterion> := [];
    var c := 0;
    while c < |chosen|
      invariant 0 <= c <= |chosen|
      invariant items == all[..c]
    {
      var criterion := BuildCriterion(text, themeCode, chosen[c], c, startPage, urlBase, findTasks);
      assert criterion == all[c];
      PrefixExtend(all, c);
      items := items + [criterion];
      c := c + 1;
    }
    assert all[..c] == all;
    theme := Theme(themeCode, themeTitle, themeTitle, ThemeStyle(themeCode), 1, ThemeOptions, items);
  }

  /** One pass of extract_task_blocks' loop: the criterion code, the task
      matches (or the example task), at most ten tasks, one task group. */
  method BuildCriterion(text: string, themeCode: string, criterion: string, c: nat, startPage: int,
                        urlBase: string, findTasks: string -> seq<TaskMatch>) returns (crit: Criterion)
    ensures crit == CriterionBlock(text, themeCode, criterion, c, startPage, urlBase, findTasks)
  {
    var critCode := themeCode + NatToString(c + 1);
    var found := findTasks(text);
    if found == [] {
      found := [("01", criterion + " - Eksempelopgave")];
    }
    var tasks := BuildTasks(found[..Min(10, |found|)], startPage, urlBase);
    var group := TaskGroup(critCode + ".1", criterion, criterion, 1, tasks);
    crit := Criterion(critCode, criterion, criterion, c + 1, CriterionOptions, [group]);
  }

  /** A theme block has one to five criteria with distinct codes, numbered
      from 1 after the theme code; each has exactly one task group, coded with
      the criterion code and ".1", holding one to ten tasks. */
  lemma ThemeBlockShape(text: string, themeTitle: string, meta: ManualMeta, startPage: int,
                        findTasks: string -> seq<TaskMatch>)
    requires "url_base" in meta
    ensures var th := ThemeBlock(text, themeTitle, meta, startPage, findTasks);
            th.code == CodeFromTitle(themeTitle)
            && 1 <= |th.items| <= 5
            && (forall c :: 0 <= c < |th.items| ==>
                  th.items[c].sortOrder == c + 1
                  && th.items[c].code == th.code + NatToString(c + 1)
                  && |th.items[c].items| == 1
                  && th.items[c].items[0].code == th.items[c].code + ".1"
                  && 1 <= |th.items[c].items[0].items| <= 10)
            && (forall c, d :: 0 <= c < d < |th.items| ==> th.items[c].code != th.items[d].code)
  {
    var th := ThemeBlock(text, themeTitle, meta, startPage, findTasks);
    forall c, d | 0 <= c < d < |th.items|
      ensures th.items[c].code != th.items[d].code
    {
      assert NatToString(c + 1) == th.items[c].code[|th.code|..];
      assert NatToString(d + 1) == th.items[d].code[|th.code|..];
      DecimalInjective(c + 1, d + 1);
    }
  }

  /** The task list is computed from the text chunk alone: when the task
      pattern finds tasks, every task group of the theme holds the same tasks. */
  lemma SameTasksEverywhere(text: string, themeTitle: string, meta: ManualMeta, startPage: int,
                            findTasks: string -> seq<TaskMatch>)
    requires "url_base" in meta && findTasks(text) != []
    ensures var th := ThemeBlock(text, themeTitle, meta, startPage, findTasks);
            forall c :: 0 <= c < |th.items| ==> th.items[c].items[0].items == th.items[0].items[0].items
  {
  }

  // ---------------------------------------------------------------------
  // The manual document
  // ---------------------------------------------------------------------

  /** `manual_meta.get(key, default)`. */
  function Get(meta: ManualMeta, key: string, default: string): string {
    if key in meta then meta[key] else default
  }

  /** build_json_structure: the manual document with one version, "1.0.0",
      holding the themes; `timestamp` stands for datetime.utcnow().isoformat(). */
  function BuildJsonStructure(meta: ManualMeta, themes: seq<Theme>, timestamp: string): (m: Manual)
    ensures m.versions == [Version("1.0.0", timestamp + "Z", themes)]
  {
    Manual(Get(meta, "id", ""), Get(meta, "name", ""), Get(meta, "shortName", ""),
           Get(meta, "group", "bovest"), Get(meta, "description", ""),
           [Version("1.0.0", timestamp + "Z", themes)])
  }

  /** Each field of the manual is the metadata's value when present; missing
      fields default to the empty string, a missing group to "bovest". */
  lemma BuildJsonFields(meta: ManualMeta, themes: seq<Theme>, timestamp: string)
    ensures var m := BuildJsonStructure(meta, themes, timestamp);
            ("id" in meta ==> m.id == meta["id"]) && ("name" in meta ==> m.name == meta["name"])
            && ("shortName" in meta ==> m.shortName == meta["shortName"])
            && ("description" in meta ==> m.description == meta["description"])
            && ("group" in meta ==> m.group == meta["group"])
    ensures var m := BuildJsonStructure(meta, themes, timestamp);
            ("id" !in meta ==> m.id == "") && ("name" !in meta ==> m.name == "")
            && ("shortName" !in meta ==> m.shortName == "") && ("description" !in meta ==> m.description == "")
            && ("group" !in meta ==> m.group == "bovest")
  {
  }
}
