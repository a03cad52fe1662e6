/**
 * The typed Gherkin tree of src/GherkinAST/index.ts. Every `Typed*` class is
 * a datatype with the same fields as the message it wraps, except that child
 * nodes are typed nodes too. Its constructor is a `Build*` function: scalar
 * fields are copied, child arrays are mapped element by element in order, and
 * an optional child is built only when the message has one.
 *
 * Each `Typed*` class also `implements` its message interface, so a typed
 * node can be used wherever the message is expected. The `Untyped*` functions
 * model that view. Every builder promises that viewing its result as a message
 * gives back its input, and the `Rebuild*` lemmas prove the converse, so the
 * typed tree holds exactly the information of the message tree.
 */
module GherkinAst {
  import opened Common
  import M = Messages

  datatype TypedGherkinDocument = TypedGherkinDocument(
    uri: Option<string>,
    feature: Option<TypedFeature>,
    comments: seq<TypedComment>)

  datatype TypedFeature = TypedFeature(
    location: M.Location,
    tags: seq<TypedTag>,
    language: string,
    keyword: string,
    name: string,
    description: string,
    children: seq<TypedFeatureChild>)

  datatype TypedTag = TypedTag(location: M.Location, name: string, id: string)

  datatype TypedComment = TypedComment(location: M.Location, text: string)

  datatype TypedFeatureChild = TypedFeatureChild(
    rule: Option<TypedRule>,
    background: Option<TypedBackground>,
    scenario: Option<TypedScenario>)

  datatype TypedRule = TypedRule(
    location: M.Location,
    tags: seq<TypedTag>,
    keyword: string,
    name: string,
    description: string,
    children: seq<TypedRuleChild>,
    id: string)

  /** Has no `rule` field: a rule never nests inside a rule. */
  datatype TypedRuleChild = TypedRuleChild(
    background: Option<TypedBackground>,
    scenario: Option<TypedScenario>)

  datatype TypedBackground = TypedBackground(
    location: M.Location,
    keyword: string,
    name: string,
    description: string,
    steps: seq<TypedStep>,
    id: string)

  datatype TypedStep = TypedStep(
    location: M.Location,
    keyword: string,
    keywordType: Option<M.StepKeywordType>,
    text: string,
    docString: Option<TypedDocString>,
    dataTable: Option<TypedDataTable>,
    id: string)

  datatype TypedScenario = TypedScenario(
    location: M.Location,
    tags: seq<TypedTag>,
    keyword: string,
    name: string,
    description: string,
    steps: seq<TypedStep>,
    examples: seq<TypedExamples>,
    id: string)

  datatype TypedExamples = TypedExamples(
    location: M.Location,
    tags: seq<TypedTag>,
    keyword: string,
    name: string,
    description: string,
    tableHeader: Option<TypedTableRow>,
    tableBody: seq<TypedTableRow>,
    id: string)

  datatype TypedTableRow = TypedTableRow(location: M.Location, cells: seq<TypedTableCell>, id: string)

  datatype TypedTableCell = TypedTableCell(location: M.Location, value: string)

  datatype TypedDocString = TypedDocString(
    location: M.Location,
    mediaType: Option<string>,
    content: string,
    delimiter: string)

  datatype TypedDataTable = TypedDataTable(location: M.Location, rows: seq<TypedTableRow>)

  // ---------------------------------------------------------------------------
  // The message view of a typed node (`implements <Message>`)
  // ---------------------------------------------------------------------------

  function UntypedDocument(t: TypedGherkinDocument): M.GherkinDocument {
    M.GherkinDocument(
      t.uri,
      if t.feature.Some? then Some(UntypedFeature(t.feature.value)) else None,
      MapSeq(UntypedComment, t.comments))
  }

  function UntypedFeature(t: TypedFeature): M.Feature {
    M.Feature(t.location, MapSeq(UntypedTag, t.tags), t.language, t.keyword, t.name,
              t.description, MapSeq(UntypedFeatureChild, t.children))
  }

  function UntypedTag(t: TypedTag): M.Tag {
    M.Tag(t.location, t.name, t.id)
  }

  function UntypedComment(t: TypedComment): M.Comment {
    M.Comment(t.location, t.text)
  }

  function UntypedFeatureChild(t: TypedFeatureChild): M.FeatureChild {
    M.FeatureChild(
      if t.rule.Some? then Some(UntypedRule(t.rule.value)) else None,
      if t.background.Some? then Some(UntypedBackground(t.background.value)) else None,
      if t.scenario.Some? then Some(UntypedScenario(t.scenario.value)) else None)
  }

  function UntypedRule(t: TypedRule): M.Rule {
    M.Rule(t.location, MapSeq(UntypedTag, t.tags), t.keyword, t.name, t.description,
           MapSeq(UntypedRuleChild, t.children), t.id)
  }

  function UntypedRuleChild(t: TypedRuleChild): M.RuleChild {
    M.RuleChild(
      if t.background.Some? then Some(UntypedBackground(t.background.value)) else None,
      if t.scenario.Some? then Some(UntypedScenario(t.scenario.value)) else None)
  }

  function UntypedBackground(t: TypedBackground): M.Background {
    M.Background(t.location, t.keyword, t.name, t.description, MapSeq(UntypedStep, t.steps), t.id)
  }

  function UntypedStep(t: TypedStep): M.Step {
    M.Step(
      t.location, t.keyword, t.keywordType, t.text,
      if t.docString.Some? then Some(UntypedDocString(t.docString.value)) else None,
      if t.dataTable.Some? then Some(UntypedDataTable(t.dataTable.value)) else None,
      t.id)
  }

  function UntypedScenario(t: TypedScenario): M.Scenario {
    M.Scenario(t.location, MapSeq(UntypedTag, t.tags), t.keyword, t.name, t.description,
               MapSeq(UntypedStep, t.steps), MapSeq(UntypedExamples, t.examples), t.id)
  }

  function UntypedExamples(t: TypedExamples): M.Examples {
    M.Examples(
      t.location, MapSeq(UntypedTag, t.tags), t.keyword, t.name, t.description,
      if t.tableHeader.Some? then Some(UntypedTableRow(t.tableHeader.value)) else None,
      MapSeq(UntypedTableRow, t.tableBody), t.id)
  }

  function UntypedTableRow(t: TypedTableRow): M.TableRow {
    M.TableRow(t.location, MapSeq(UntypedTableCell, t.cells), t.id)
  }

  function UntypedTableCell(t: TypedTableCell): M.TableCell {
    M.TableCell(t.location, t.value)
  }

  function UntypedDocString(t: TypedDocString): M.DocString {
    M.DocString(t.location, t.mediaType, t.content, t.delimiter)
  }

  function UntypedDataTable(t: TypedDataTable): M.DataTable {
    M.DataTable(t.location, MapSeq(UntypedTableRow, t.rows))
  }

  // ---------------------------------------------------------------------------
  // The constructors (`new Typed*(originalNode)`)
  // ---------------------------------------------------------------------------

  function BuildDocument(d: M.GherkinDocument): (r: TypedGherkinDocument)
    ensures UntypedDocument(r) == d
    ensures r.feature.Some? <==> d.feature.Some?
    ensures d.feature.Some? ==> r.feature.value == BuildFeature(d.feature.value)
    ensures |r.comments| == |d.comments|
    ensures forall i :: 0 <= i < |d.comments| ==>
              r.comments[i].location == d.comments[i].location && r.comments[i].text == d.comments[i].text
  {
    var r := TypedGherkinDocument(
      d.uri,
      if d.feature.Some? then Some(BuildFeature(d.feature.value)) else None,
      MapSeq(BuildComment, d.comments));
    MapSeqInverse(BuildComment, UntypedComment, d.comments);
    r
  }

  function BuildFeature(f: M.Feature): (r: TypedFeature)
    ensures UntypedFeature(r) == f
    ensures |r.tags| == |f.tags| && |r.children| == |f.children|
  {
    var r := TypedFeature(
      f.location, MapSeq(BuildTag, f.tags), f.language, f.keyword, f.name,
      f.description, MapSeq(BuildFeatureChild, f.children));
    MapSeqInverse(BuildTag, UntypedTag, f.tags);
    MapSeqInverse(BuildFeatureChild, UntypedFeatureChild, f.children);
    r
  }

  function BuildTag(t: M.Tag): (r: TypedTag)
    ensures UntypedTag(r) == t
  {
    TypedTag(t.location, t.name, t.id)
  }

  function BuildComment(c: M.Comment): (r: TypedComment)
    ensures UntypedComment(r) == c
  {
    TypedComment(c.location, c.text)
  }

  function BuildFeatureChild(c: M.FeatureChild): (r: TypedFeatureChild)
    ensures UntypedFeatureChild(r) == c
    ensures r.rule.Some? <==> c.rule.Some?
    ensures r.background.Some? <==> c.background.Some?
    ensures r.scenario.Some? <==> c.scenario.Some?
  {
    TypedFeatureChild(
      if c.rule.Some? then Some(BuildRule(c.rule.value)) else None,
      if c.background.Some? then Some(BuildBackground(c.background.value)) else None,
      if c.scenario.Some? then Some(BuildScenario(c.scenario.value)) else None)
  }

  function BuildRule(r0: M.Rule): (r: TypedRule)
    ensures UntypedRule(r) == r0
    ensures |r.tags| == |r0.tags| && |r.children| == |r0.children|
  {
    var r := TypedRule(
      r0.location, MapSeq(BuildTag, r0.tags), r0.keyword, r0.name, r0.description,
      MapSeq(BuildRuleChild, r0.children), r0.id);
    MapSeqInverse(BuildTag, UntypedTag, r0.tags);
    MapSeqInverse(BuildRuleChild, UntypedRuleChild, r0.children);
    r
  }

  function BuildRuleChild(c: M.RuleChild): (r: TypedRuleChild)
    ensures UntypedRuleChild(r) == c
    ensures r.background.Some? <==> c.background.Some?
    ensures r.scenario.Some? <==> c.scenario.Some?
  {
    TypedRuleChild(
      if c.background.Some? then Some(BuildBackground(c.background.value)) else None,
      if c.scenario.Some? then Some(BuildScenario(c.scenario.value)) else None)
  }

  function BuildBackground(b: M.Background): (r: TypedBackground)
    ensures UntypedBackground(r) == b
    ensures |r.steps| == |b.steps|
  {
    var r := TypedBackground(b.location, b.keyword, b.name, b.description, MapSeq(BuildStep, b.steps), b.id);
    MapSeqInverse(BuildStep, UntypedStep, b.steps);
    r
  }

  function BuildStep(s: M.Step): (r: TypedStep)
    ensures UntypedStep(r) == s
    ensures r.docString.Some? <==> s.docString.Some?
    ensures r.dataTable.Some? <==> s.dataTable.Some?
  {
    TypedStep(
      s.location, s.keyword, s.keywordType, s.text,
      if s.docString.Some? then Some(BuildDocString(s.docString.value)) else None,
      if s.dataTable.Some? then Some(BuildDataTable(s.dataTable.value)) else None,
      s.id)
  }

  function BuildScenario(s: M.Scenario): (r: TypedScenario)
    ensures UntypedScenario(r) == s
    ensures |r.tags| == |s.tags| && |r.steps| == |s.steps| && |r.examples| == |s.examples|
  {
    var r := TypedScenario(
      s.location, MapSeq(BuildTag, s.tags), s.keyword, s.name, s.description,
      MapSeq(BuildStep, s.steps), MapSeq(BuildExamples, s.examples), s.id);
    MapSeqInverse(BuildTag, UntypedTag, s.tags);
    MapSeqInverse(BuildStep, UntypedStep, s.steps);
    MapSeqInverse(BuildExamples, UntypedExamples, s.examples);
    r
  }

  function BuildExamples(e: M.Examples): (r: TypedExamples)
    ensures UntypedExamples(r) == e
    ensures r.tableHeader.Some? <==> e.tableHeader.Some?
    ensures |r.tableBody| == |e.tableBody|
  {
    var r := TypedExamples(
      e.location, MapSeq(BuildTag, e.tags), e.keyword, e.name, e.description,
      if e.tableHeader.Some? then Some(BuildTableRow(e.tableHeader.value)) else None,
      MapSeq(BuildTableRow, e.tableBody), e.id);
    MapSeqInverse(BuildTag, UntypedTag, e.tags);
    MapSeqInverse(BuildTableRow, UntypedTableRow, e.tableBody);
    r
  }

  function BuildTableRow(row: M.TableRow): (r: TypedTableRow)
    ensures UntypedTableRow(r) == row
    ensures |r.cells| == |row.cells|
  {
    var r := TypedTableRow(row.location, MapSeq(BuildTableCell, row.cells), row.id);
    MapSeqInverse(BuildTableCell, UntypedTableCell, row.cells);
    r
  }

  function BuildTableCell(c: M.TableCell): (r: TypedTableCell)
    ensures UntypedTableCell(r) == c
  {
    TypedTableCell(c.location, c.value)
  }

  function BuildDocString(d: M.DocString): (r: TypedDocString)
    ensures UntypedDocString(r) == d
  {
    TypedDocString(d.location, d.mediaType, d.content, d.delimiter)
  }

  function BuildDataTable(t: M.DataTable): (r: TypedDataTable)
    ensures UntypedDataTable(r) == t
    ensures |r.rows| == |t.rows|
  {
    var r := TypedDataTable(t.location, MapSeq(BuildTableRow, t.rows));
    MapSeqInverse(BuildTableRow, UntypedTableRow, t.rows);
    r
  }

  // ---------------------------------------------------------------------------
  // Rebuilding: a typed node is the conversion of its own message view, so the
  // typed tree carries no information beyond the message it was built from.
  // ---------------------------------------------------------------------------

  lemma {:induction false} RebuildTableRow(t: TypedTableRow)
    ensures BuildTableRow(UntypedTableRow(t)) == t
  {
  }

  lemma {:induction false} RebuildTableRows(rows: seq<TypedTableRow>)
    ensures MapSeq(BuildTableRow, MapSeq(UntypedTableRow, rows)) == rows
  {
    forall i | 0 <= i < |rows| ensures BuildTableRow(UntypedTableRow(rows[i])) == rows[i] {
      RebuildTableRow(rows[i]);
    }
    MapSeqInverse(UntypedTableRow, BuildTableRow, rows);
  }

  lemma {:induction false} RebuildStep(t: TypedStep)
    ensures BuildStep(UntypedStep(t)) == t
  {
    if t.dataTable.Some? {
      RebuildTableRows(t.dataTable.value.rows);
    }
  }

  lemma {:induction false} RebuildSteps(steps: seq<TypedStep>)
    ensures MapSeq(BuildStep, MapSeq(UntypedStep, steps)) == steps
  {
    forall i | 0 <= i < |steps| ensures BuildStep(UntypedStep(steps[i])) == steps[i] {
      RebuildStep(steps[i]);
    }
    MapSeqInverse(UntypedStep, BuildStep, steps);
  }

  lemma {:induction false} RebuildBackground(t: TypedBackground)
    ensures BuildBackground(UntypedBackground(t)) == t
  {
    RebuildSteps(t.steps);
  }

  lemma {:induction false} RebuildExamples(t: TypedExamples)
    ensures BuildExamples(UntypedExamples(t)) == t
  {
    if t.tableHeader.Some? {
      RebuildTableRow(t.tableHeader.value);
    }
    RebuildTableRows(t.tableBody);
  }

  lemma {:induction false} RebuildScenario(t: TypedScenario)
    ensures BuildScenario(UntypedScenario(t)) == t
  {
    RebuildSteps(t.steps);
    forall i | 0 <= i < |t.examples| ensures BuildExamples(UntypedExamples(t.examples[i])) == t.examples[i] {
      RebuildExamples(t.examples[i]);
    }
    MapSeqInverse(UntypedExamples, BuildExamples, t.examples);
  }

  lemma {:induction false} RebuildRuleChild(t: TypedRuleChild)
    ensures BuildRuleChild(UntypedRuleChild(t)) == t
  {
    if t.background.Some? {
      RebuildBackground(t.background.value);
    }
    if t.scenario.Some? {
      RebuildScenario(t.scenario.value);
    }
  }

  lemma {:induction false} RebuildRule(t: TypedRule)
    ensures BuildRule(UntypedRule(t)) == t
  {
    forall i | 0 <= i < |t.children| ensures BuildRuleChild(UntypedRuleChild(t.children[i])) == t.children[i] {
      RebuildRuleChild(t.children[i]);
    }
    MapSeqInverse(UntypedRuleChild, BuildRuleChild, t.children);
  }

  lemma {:induction false} RebuildFeatureChild(t: TypedFeatureChild)
    ensures BuildFeatureChild(UntypedFeatureChild(t)) == t
  {
    if t.rule.Some? {
      RebuildRule(t.rule.value);
    }
    if t.background.Some? {
      RebuildBackground(t.background.value);
    }
    if t.scenario.Some? {
      RebuildScenario(t.scenario.value);
    }
  }

  lemma {:induction false} RebuildFeature(t: TypedFeature)
    ensures BuildFeature(UntypedFeature(t)) == t
  {
    forall i | 0 <= i < |t.children| ensures BuildFeatureChild(UntypedFeatureChild(t.children[i])) == t.children[i] {
      RebuildFeatureChild(t.children[i]);
    }
    MapSeqInverse(UntypedFeatureChild, BuildFeatureChild, t.children);
  }

  lemma {:induction false} RebuildDocument(t: TypedGherkinDocument)
    ensures BuildDocument(UntypedDocument(t)) == t
  {
    if t.feature.Some? {
      RebuildFeature(t.feature.value);
    }
    MapSeqInverse(UntypedComment, BuildComment, t.comments);
  }

  /** Two messages convert to the same typed tree only if they are equal. */
  lemma BuildDocumentInjective(a: M.GherkinDocument, b: M.GherkinDocument)
    requires BuildDocument(a) == BuildDocument(b)
    ensures a == b
  {
  }
}
