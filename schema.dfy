/**
 * The JSON document a manual becomes: Manual → Version → Theme → Criterion →
 * Task Group → Task → Task Item. Each object's "type" string ("theme",
 * "criterion", "task-group", "task", "task-item") is implied by its datatype.
 */
module Schema {
  import opened Strings

  /** The "options" object of a theme or a criterion. */
  datatype ElementOptions = ElementOptions(
    hideCodeInReport: bool,
    hideFromBreadcrumbs: bool,
    hideFromDocumentTree: bool,
    criteriaTreeElementTextFormat: Option<string>)

  /** The "options" object of a task. */
  datatype TaskOptions = TaskOptions(
    breadcrumbTextFormat: string,
    documentTreeFolderTextFormat: string,
    showCodeAsIndicatorTaskViewTitle: bool,
    criteriaTreeElementTextFormat: string)

  /** An entry of a task's "documentation" list: a link into the manual's PDF,
      or a plain text. `caption` is the JSON "label" key. */
  datatype Documentation =
    | PdfLink(caption: string, body: string, url: string)
    | PlainText(caption: string, body: string)

  /** One option of a "select-single" definition. */
  datatype SelectOption = SelectOption(id: string, text: string, value: int)

  datatype TaskItem = TaskItem(
    code: string,
    selectOptions: seq<SelectOption>,
    excludeFromTargets: bool,
    text: string)

  datatype Task = Task(
    valueCalculationStrategy: string,
    code: string,
    title: string,
    longFormTitle: string,
    sortOrder: int,
    options: TaskOptions,
    documentation: seq<Documentation>,
    items: seq<TaskItem>)

  datatype TaskGroup = TaskGroup(
    code: string,
    title: string,
    longFormTitle: string,
    sortOrder: int,
    items: seq<Task>)

  datatype Criterion = Criterion(
    code: string,
    title: string,
    longFormTitle: string,
    sortOrder: int,
    options: ElementOptions,
    items: seq<TaskGroup>)

  datatype Style = Style(primaryColor: string, secondaryColor: string)

  datatype Theme = Theme(
    code: string,
    title: string,
    longFormTitle: string,
    style: Style,
    sortOrder: int,
    options: ElementOptions,
    items: seq<Criterion>)

  datatype Version = Version(version: string, date: string, themes: seq<Theme>)

  datatype Manual = Manual(
    id: string,
    name: string,
    shortName: string,
    group: string,
    description: string,
    versions: seq<Version>)

  /** The metadata dictionary handed from parse_manuals.py to utils.py
      (id, name, shortName, group, description, url_base). */
  type ManualMeta = map<string, string>
}
