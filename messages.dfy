/**
 * The message tree that the external Gherkin parser (`@cucumber/gherkin`)
 * returns, reduced to exactly the fields the typed constructors read. It is
 * the input of the model: the parser itself is not part of it.
 */
module Messages {
  import opened Common

  /** A source position; cucumber marks `column` as optional. */
  datatype Location = Location(line: int, column: Option<int>)

  /** Cucumber's classification of a step keyword. */
  datatype StepKeywordType = Unknown | Context | Action | Outcome | Conjunction

  datatype GherkinDocument = GherkinDocument(
    uri: Option<string>,
    feature: Option<Feature>,
    comments: seq<Comment>)

  datatype Feature = Feature(
    location: Location,
    tags: seq<Tag>,
    language: string,
    keyword: string,
    name: string,
    description: string,
    children: seq<FeatureChild>)

  datatype Tag = Tag(location: Location, name: string, id: string)

  datatype Comment = Comment(location: Location, text: string)

  /** A child of a feature: any of a rule, a background or a scenario may be set. */
  datatype FeatureChild = FeatureChild(
    rule: Option<Rule>,
    background: Option<Background>,
    scenario: Option<Scenario>)

  datatype Rule = Rule(
    location: Location,
    tags: seq<Tag>,
    keyword: string,
    name: string,
    description: string,
    children: seq<RuleChild>,
    id: string)

  /** A child of a rule: a background or a scenario, never a nested rule. */
  datatype RuleChild = RuleChild(
    background: Option<Background>,
    scenario: Option<Scenario>)

  datatype Background = Background(
    location: Location,
    keyword: string,
    name: string,
    description: string,
    steps: seq<Step>,
    id: string)

  datatype Step = Step(
    location: Location,
    keyword: string,
    keywordType: Option<StepKeywordType>,
    text: string,
    docString: Option<DocString>,
    dataTable: Option<DataTable>,
    id: string)

  datatype Scenario = Scenario(
    location: Location,
    tags: seq<Tag>,
    keyword: string,
    name: string,
    description: string,
    steps: seq<Step>,
    examples: seq<Examples>,
    id: string)

  datatype Examples = Examples(
    location: Location,
    tags: seq<Tag>,
    keyword: string,
    name: string,
    description: string,
    tableHeader: Option<TableRow>,
    tableBody: seq<TableRow>,
    id: string)

  datatype TableRow = TableRow(location: Location, cells: seq<TableCell>, id: string)

  datatype TableCell = TableCell(location: Location, value: string)

  datatype DocString = DocString(
    location: Location,
    mediaType: Option<string>,
    content: string,
    delimiter: string)

  datatype DataTable = DataTable(location: Location, rows: seq<TableRow>)
}
