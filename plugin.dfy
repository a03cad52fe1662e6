/**
 * The prettier plugin of src/index.ts: its own copies of the typed
 * document and feature, the parser wrapper that drops comments, the
 * constant source locators, and the printer from a typed node to a
 * prettier document.
 *
 * The local tag and comment classes of that file are field-for-field the
 * ones of src/GherkinAST/index.ts, so `GherkinAst.TypedTag`,
 * `GherkinAst.TypedComment` and their builders stand for them here.
 */
module Plugin {
  import opened Common
  import opened PrettierDoc
  import opened JsString
  import M = Messages
  import A = GherkinAst

  datatype TypedGherkinDocument = TypedGherkinDocument(
    uri: Option<string>,
    feature: Option<TypedFeature>,
    comments: seq<A.TypedComment>)

  /** Unlike `GherkinAst.TypedFeature`, keeps the feature's children as plain messages. */
  datatype TypedFeature = TypedFeature(
    location: M.Location,
    tags: seq<A.TypedTag>,
    language: string,
    keyword: string,
    name: string,
    description: string,
    children: seq<M.FeatureChild>)

  /** The message view of a local typed document (`implements GherkinDocument`). */
  function UntypedDocument(t: TypedGherkinDocument): M.GherkinDocument {
    M.GherkinDocument(
      t.uri,
      if t.feature.Some? then Some(UntypedFeature(t.feature.value)) else None,
      MapSeq(A.UntypedComment, t.comments))
  }

  /** The message view of a local typed feature (`implements Feature`). */
  function UntypedFeature(t: TypedFeature): M.Feature {
    M.Feature(t.location, MapSeq(A.UntypedTag, t.tags), t.language, t.keyword, t.name,
              t.description, t.children)
  }

  function BuildDocument(d: M.GherkinDocument): (r: TypedGherkinDocument)
    ensures UntypedDocument(r) == d
    ensures r.feature.Some? <==> d.feature.Some?
    ensures |r.comments| == |d.comments|
  {
    var r := TypedGherkinDocument(
      d.uri,
      if d.feature.Some? then Some(BuildFeature(d.feature.value)) else None,
      MapSeq(A.BuildComment, d.comments));
    MapSeqInverse(A.BuildComment, A.UntypedComment, d.comments);
    r
  }

  function BuildFeature(f: M.Feature): (r: TypedFeature)
    ensures UntypedFeature(r) == f
    ensures r.children == f.children
    ensures |r.tags| == |f.tags|
  {
    var r := TypedFeature(
      f.location, MapSeq(A.BuildTag, f.tags), f.language, f.keyword, f.name,
      f.description, f.children);
    MapSeqInverse(A.BuildTag, A.UntypedTag, f.tags);
    r
  }

  /** Converting the message view of a local typed feature gives that feature back. */
  lemma RebuildFeature(t: TypedFeature)
    ensures BuildFeature(UntypedFeature(t)) == t
  {
    MapSeqInverse(A.UntypedTag, A.BuildTag, t.tags);
  }

  /** Converting the message view of a local typed document gives that document back. */
  lemma RebuildDocument(t: TypedGherkinDocument)
    ensures BuildDocument(UntypedDocument(t)) == t
  {
    if t.feature.Some? {
      RebuildFeature(t.feature.value);
    }
    MapSeqInverse(A.UntypedComment, A.BuildComment, t.comments);
  }

  /**
   * The local feature agrees with the feature of src/GherkinAST/index.ts in
   * every field but `children`, which it keeps unwrapped: they are the
   * message view of the other's typed children.
   */
  lemma LocalFeatureDiffersOnlyInChildren(f: M.Feature)
    ensures var local, typed := BuildFeature(f), A.BuildFeature(f);
      && local.location == typed.location && local.tags == typed.tags
      && local.language == typed.language && local.keyword == typed.keyword
      && local.name == typed.name && local.description == typed.description
      && local.children == MapSeq(A.UntypedFeatureChild, typed.children)
  {
  }

  // ---------------------------------------------------------------------------
  // The parser (`gherkinParser`)
  // ---------------------------------------------------------------------------

  /**
   * `parse`: the message document that the cucumber parser returned (a
   * parameter here) is converted with its comments replaced by `[]`.
   */
  function Parse(d: M.GherkinDocument): (r: TypedGherkinDocument)
    ensures r.comments == []
    ensures UntypedDocument(r) == d.(comments := [])
    ensures r.feature.Some? <==> d.feature.Some?
  {
    BuildDocument(d.(comments := []))
  }

  /** The nodes the printer can be handed. */
  datatype Node =
    | DocumentNode(document: TypedGherkinDocument)
    | FeatureNode(feature: TypedFeature)
    | TagNode(tag: A.TypedTag)
    | CommentNode(comment: A.TypedComment)
    | FeatureChildNode(child: M.FeatureChild)

  /** `locStart`: every node starts at offset 0. */
  function LocStart(n: Node): (r: int)
    ensures r == 0
  {
    0
  }

  /** `locEnd`: every node ends at offset 0. */
  function LocEnd(n: Node): (r: int)
    ensures r == 0
  {
    0
  }

  // ---------------------------------------------------------------------------
  // The printer (`gherkinAstPrinter.print`)
  // ---------------------------------------------------------------------------

  /** The error `print` throws. */
  datatype PrintError = UnhandledNoFeature

  /** How far a node is from the leaves the printer reaches; `print` recurses downwards. */
  function Depth(n: Node): nat {
    match n
    case DocumentNode(_) => 2
    case FeatureNode(_) => 1
    case _ => 0
  }

  /** The line heading a feature: always the literal `Feature: `, never the keyword. */
  function Heading(f: TypedFeature): string {
    "Feature: " + f.name
  }

  /** The indented block below the heading: a line break, then the trimmed description. */
  function DescriptionBlock(f: TypedFeature): Doc {
    Indent(Concat([Hardline, Text(Trim(f.description))]))
  }

  /**
   * `print`, with `path.call(print, 'feature')` and `path.map(print, 'tags')`
   * as direct recursive calls. Only a document without a feature fails.
   */
  function Print(n: Node): (r: Result<Doc, PrintError>)
    ensures r.Failure? <==> n.DocumentNode? && n.document.feature.None?
    ensures n.TagNode? ==> r == Ok(Text(n.tag.name))
    ensures n.CommentNode? || n.FeatureChildNode? ==> r == Ok(Text(""))
    decreases Depth(n)
  {
    match n
    case DocumentNode(d) =>
      if d.feature.Some? then
        var feature := Print(FeatureNode(d.feature.value));
        Ok(Concat([feature.value, Hardline]))
      else
        Failure(UnhandledNoFeature)
    case FeatureNode(f) =>
      var tags := seq(|f.tags|, i requires 0 <= i < |f.tags| => Print(TagNode(f.tags[i])).value);
      Ok(Concat([
        Join(Hardline, [Join(Concat([Hardline]), tags), Text(Heading(f))]),
        DescriptionBlock(f)
      ]))
    case TagNode(t) => Ok(Text(t.name))
    case _ => Ok(Text(""))
  }

  /** The tag names, each as text, in order. */
  function TagTexts(tags: seq<A.TypedTag>): (r: seq<Doc>)
    ensures |r| == |tags|
    ensures forall i :: 0 <= i < |tags| ==> r[i] == Text(tags[i].name)
  {
    MapSeq((t: A.TypedTag) => Text(t.name), tags)
  }

  /**
   * Read in order, a printed feature is its tag names separated by line
   * breaks, a line break, the heading, and the indented description block.
   */
  lemma FeatureLeaves(f: TypedFeature)
    ensures Print(FeatureNode(f)).Ok?
    ensures Leaves(Print(FeatureNode(f)).value)
            == Interleave(Hardline, TagTexts(f.tags)) + [Hardline, Text(Heading(f)), DescriptionBlock(f)]
  {
    var tags := TagTexts(f.tags);
    PrintedFeature(f);
    FeatureDocLeaves(Join(Concat([Hardline]), tags), Heading(f), DescriptionBlock(f));
    TagLinesLeaves(tags);
  }

  /** `print` of a feature, with the tags printed through the tag case. */
  lemma PrintedFeature(f: TypedFeature)
    ensures Print(FeatureNode(f))
            == Ok(Concat([Join(Hardline, [Join(Concat([Hardline]), TagTexts(f.tags)), Text(Heading(f))]),
                          DescriptionBlock(f)]))
  {
    var printed := seq(|f.tags|, i requires 0 <= i < |f.tags| => Print(TagNode(f.tags[i])).value);
    assert printed == TagTexts(f.tags);
  }

  /** The shape of a printed feature, read in order, around its tag block. */
  lemma FeatureDocLeaves(tagsDoc: Doc, heading: string, block: Doc)
    requires !block.Concat?
    ensures Leaves(Concat([Join(Hardline, [tagsDoc, Text(heading)]), block]))
            == Leaves(tagsDoc) + [Hardline, Text(heading), block]
  {
    var headingDoc := Join(Hardline, [tagsDoc, Text(heading)]);
    HeadingLeaves(tagsDoc, heading);
    LeavesOfPair(headingDoc, block);
    assert (Leaves(tagsDoc) + [Hardline, Text(heading)]) + [block]
        == Leaves(tagsDoc) + [Hardline, Text(heading), block];
  }

  /** Tags joined by `[hardline]` flatten to the tags with a line break between each two. */
  lemma TagLinesLeaves(tags: seq<Doc>)
    requires forall i :: 0 <= i < |tags| ==> !tags[i].Concat?
    ensures Leaves(Join(Concat([Hardline]), tags)) == Interleave(Hardline, tags)
  {
    assert Leaves(Concat([Hardline])) == [Hardline] by {
      assert LeavesOf([Hardline]) == Leaves(Hardline) + LeavesOf([]);
    }
    LeavesOfInterleave(Concat([Hardline]), Hardline, tags);
  }

  /** The tag block and the heading joined by a hardline flatten with one line break between them. */
  lemma HeadingLeaves(tagsDoc: Doc, heading: string)
    ensures Leaves(Join(Hardline, [tagsDoc, Text(heading)])) == Leaves(tagsDoc) + [Hardline, Text(heading)]
  {
    var parts := Interleave(Hardline, [tagsDoc, Text(heading)]);
    assert parts == [tagsDoc] + [Hardline, Text(heading)];
    LeavesOfAppend([tagsDoc], [Hardline, Text(heading)]);
    assert LeavesOf([tagsDoc]) == Leaves(tagsDoc) + LeavesOf([]);
    LeavesOfPair(Hardline, Text(heading));
  }

  /**
   * The heading always has a line break right before it, because the outer
   * `join` always has two elements: with no tags the printed feature starts
   * with an empty line.
   */
  lemma HeadingAfterLineBreak(f: TypedFeature)
    ensures Print(FeatureNode(f)).Ok?
    ensures var leaves := Leaves(Print(FeatureNode(f)).value);
      var k := if f.tags == [] then 1 else 2 * |f.tags|;
      |leaves| == k + 2 && leaves[k - 1] == Hardline && leaves[k] == Text(Heading(f))
    ensures f.tags == [] ==> Leaves(Print(FeatureNode(f)).value)[0] == Hardline
  {
    FeatureLeaves(f);
  }

  /**
   * A document with a feature prints as the printed feature followed by one
   * line break; read in order, that is the feature's leaves and a line break.
   */
  lemma DocumentLayout(d: TypedGherkinDocument)
    requires d.feature.Some?
    ensures Print(DocumentNode(d)) == Ok(Concat([Print(FeatureNode(d.feature.value)).value, Hardline]))
    ensures Leaves(Print(DocumentNode(d)).value) == Leaves(Print(FeatureNode(d.feature.value)).value) + [Hardline]
  {
    var feature := Print(FeatureNode(d.feature.value)).value;
    LeavesOfPair(feature, Hardline);
  }

  /**
   * Only a feature's tags, name and description reach the output: its
   * location, language, keyword and children never do.
   */
  lemma FeatureOutputIgnoresOtherFields(f: TypedFeature, g: TypedFeature)
    requires f.tags == g.tags && f.name == g.name && f.description == g.description
    ensures Print(FeatureNode(f)) == Print(FeatureNode(g))
  {
  }

  /** Parsing then printing a message document fails exactly when it has no feature. */
  lemma ParsedDocumentPrints(d: M.GherkinDocument)
    ensures Print(DocumentNode(Parse(d))).Ok? <==> d.feature.Some?
  {
  }
}
