# Gherkin prettier plugin: typed tree builder and early printer

This project models the core of a prettier plugin for Gherkin feature files, in Dafny.

- **The typed tree builder** (`src/GherkinAST/index.ts`) wraps every node of the cucumber
  message tree in a typed node. The tree runs Document → Feature → FeatureChild →
  Rule / Background / Scenario, then RuleChild → Background / Scenario, Scenario → Step /
  Examples, Step → DocString / DataTable, and tables → TableRow → TableCell, with tags and
  comments along the way. Each `Typed*` constructor copies scalar fields verbatim. It maps
  child arrays element by element, in order. It builds an optional child only when the
  message has one.
- **The plugin** (`src/index.ts`) has its own copies of the typed document and feature. It
  also holds the parse wrapper that drops every comment, the `locStart`/`locEnd` locators
  (always 0), and the printer. The printer turns a document, a feature or a tag into a
  prettier document and prints every other node as `''`.

Modules, one per concern:

- `Common` (`common.dfy`): `Option` (a TypeScript optional field), `Result` (a value or a
  thrown error) and `MapSeq` (`Array.prototype.map`).
- `Messages` (`messages.dfy`): the cucumber message tree. It is the input and holds exactly
  the fields the constructors read.
- `GherkinAst` (`gherkin_ast.dfy`): the `Typed*` datatypes and one `Build*` function per
  constructor. It also has the `Untyped*` functions. Each `Typed*` class `implements` its
  message interface, and these functions are that view of a typed node as its message.
  Every builder promises `Untyped(Build(x)) == x`, so nothing is lost: every scalar field is
  equal, every array has the same length and order, and every optional child is present
  exactly when it was. The `Rebuild*` lemmas prove `Build(Untyped(t)) == t`, so the typed
  tree holds nothing more either; `Plugin.RebuildFeature` and `Plugin.RebuildDocument` do the
  same for the local typed classes of `src/index.ts`.
- `PrettierDoc` (`prettier_doc.dfy`): the document builders the printer uses (`Text`,
  `Hardline`, `Concat` for a doc array, `Indent`) and `join`. `Leaves` lists a document's
  text, line breaks and indent scopes in reading order. Documents are never rendered.
- `JsString` (`js_string.dfy`): `String.prototype.trim` over an explicit set of white-space
  characters.
- `Plugin` (`plugin.dfy`): `src/index.ts`. Its local `TypedTag` and `TypedComment` classes
  are field-for-field those of `src/GherkinAST/index.ts`, so the model uses
  `GherkinAst.TypedTag` and `GherkinAst.TypedComment` for them. Its `TypedFeature` keeps the
  feature's children as plain messages, not wrapped (`src/index.ts:72`). The printer is one
  function over a `Node` sum type. Its recursive calls through `path.call` and `path.map` are
  direct calls, ranked by the node's depth.

This early printer uses the literal `Feature: ` heading rather than the feature's keyword.
It does not escape table cells or compute column widths, and it does not bind comments. It
never prints a feature's children, steps, examples or doc strings. The model follows the code.

## Model

| member | source | states |
|---|---|---|
| Common.MapSeq | src/GherkinAST/index.ts:59 | `xs.map(f)` has the length of `xs`, and its i-th element is `f` of the i-th element of `xs` |
| GherkinAst.BuildDocument | src/GherkinAST/index.ts:52-60 | the message view of the typed document is the original. It has a feature exactly when the original does, and that feature is the conversion of the original's. Its comments have the original's length and order, each with the same location and text |
| GherkinAst.BuildFeature | src/GherkinAST/index.ts:71-81 | location, language, keyword, name and description are copied. Tags and children keep the original's length and order, each the conversion of the original element |
| GherkinAst.BuildTag | src/GherkinAST/index.ts:88-94 | location, name and id are those of the original tag |
| GherkinAst.BuildComment | src/GherkinAST/index.ts:100-105 | location and text are those of the original comment |
| GherkinAst.BuildFeatureChild | src/GherkinAST/index.ts:116-127 | rule, background and scenario are each present exactly when present in the original, and each is its conversion |
| GherkinAst.BuildRule | src/GherkinAST/index.ts:139-149 | scalar fields are copied. Tags and rule children keep length and order |
| GherkinAst.BuildRuleChild | src/GherkinAST/index.ts:159-167 | background and scenario are each present exactly when present in the original. The type has no rule field |
| GherkinAst.BuildBackground | src/GherkinAST/index.ts:181-190 | keyword, name, description and id are copied. Steps keep length and order |
| GherkinAst.BuildStep | src/GherkinAST/index.ts:202-216 | keyword, keywordType, text and id are copied verbatim. It has a docString / dataTable exactly when the original does |
| GherkinAst.BuildScenario | src/GherkinAST/index.ts:232-243 | keyword, name, description and id are copied. Tags, steps and examples keep length and order |
| GherkinAst.BuildExamples | src/GherkinAST/index.ts:259-272 | it has a tableHeader exactly when the original does. The tableBody has the original's row count and order |
| GherkinAst.BuildTableRow | src/GherkinAST/index.ts:283-289 | cells keep count and order. Location and id are copied |
| GherkinAst.BuildTableCell | src/GherkinAST/index.ts:299-304 | the cell value is copied byte for byte, with no escaping |
| GherkinAst.BuildDocString | src/GherkinAST/index.ts:316-323 | content, delimiter and media type (present or not) are copied unchanged |
| GherkinAst.BuildDataTable | src/GherkinAST/index.ts:333-338 | rows keep count and order |
| GherkinAst.RebuildDocument | src/GherkinAST/index.ts:52-60 | converting the message view of any typed document gives that document back: the typed tree adds nothing to the message |
| GherkinAst.RebuildFeature | src/GherkinAST/index.ts:71-81 | the same, for a typed feature, down to every child |
| GherkinAst.RebuildFeatureChild | src/GherkinAST/index.ts:116-127 | the same, for a feature child |
| GherkinAst.RebuildRule | src/GherkinAST/index.ts:139-149 | the same, for a rule |
| GherkinAst.RebuildRuleChild | src/GherkinAST/index.ts:159-167 | the same, for a rule child |
| GherkinAst.RebuildBackground | src/GherkinAST/index.ts:181-190 | the same, for a background |
| GherkinAst.RebuildSteps | src/GherkinAST/index.ts:188 | the same, element by element, for an array of steps |
| GherkinAst.RebuildStep | src/GherkinAST/index.ts:202-216 | the same, for a step with its doc string and data table |
| GherkinAst.RebuildScenario | src/GherkinAST/index.ts:232-243 | the same, for a scenario |
| GherkinAst.RebuildExamples | src/GherkinAST/index.ts:259-272 | the same, for an examples block with header and body |
| GherkinAst.RebuildTableRow | src/GherkinAST/index.ts:283-289 | the same, for a table row |
| GherkinAst.RebuildTableRows | src/GherkinAST/index.ts:337 | the same, element by element, for an array of table rows |
| GherkinAst.BuildDocumentInjective | src/GherkinAST/index.ts:52-60 | two different message documents never convert to the same typed document |
| PrettierDoc.Interleave | src/index.ts:166-170 | `join(sep, docs)` puts the docs in order with `sep` between each two consecutive ones, and nothing at either end |
| JsString.Trim | src/index.ts:171 | `trim()` leaves neither end as white space. It removes only white space, and only from the ends. The result is empty exactly when the input is all white space |
| JsString.TrimIdempotent | src/index.ts:171 | trimming twice is trimming once |
| Plugin.BuildDocument | src/index.ts:43-51 | the local typed document's message view is the original, and it has a feature exactly when the original does |
| Plugin.BuildFeature | src/index.ts:63-73 | the local typed feature copies every field, and its children are the original children, unwrapped |
| Plugin.RebuildFeature | src/index.ts:63-73 | converting the message view of any local typed feature gives that feature back |
| Plugin.RebuildDocument | src/index.ts:43-51 | converting the message view of any local typed document gives that document back |
| Plugin.LocalFeatureDiffersOnlyInChildren | src/index.ts:72 | the local feature and the `src/GherkinAST/index.ts` feature agree on every field except children. The local children are the message view of the other's typed children |
| Plugin.Parse | src/index.ts:109-122 | the parsed document always has an empty comments list. Apart from that its message view is the parser's result, feature included |
| Plugin.LocStart | src/index.ts:124-125 | every node starts at 0 |
| Plugin.LocEnd | src/index.ts:134-135 | every node ends at 0 |
| Plugin.Print | src/index.ts:147-189 | printing fails exactly for a document without a feature. A tag prints as its name verbatim, and a comment or a raw feature child prints as `''` |
| Plugin.DocumentLayout | src/index.ts:157-160 | a document with a feature prints exactly as `[print(feature), hardline]`. Read in order, that is the feature's output followed by one line break |
| Plugin.FeatureLeaves | src/index.ts:164-172 | read in order, a printed feature is: the tag names separated by line breaks, a line break, `Feature: <name>`, then the indented block of a line break and the trimmed description |
| Plugin.PrintedFeature | src/index.ts:165-172 | a feature prints, without failing, as the tag names joined by `[hardline]`, joined by `hardline` with `Feature: <name>`, followed by the indented block of a line break and the trimmed description |
| Plugin.FeatureDocLeaves | src/index.ts:165-172 | read in order, the printed feature is its tag block, a line break, the heading and the indented block |
| Plugin.TagLinesLeaves | src/index.ts:168 | tags joined by `[hardline]` read as the tags with one line break between each two |
| Plugin.HeadingLeaves | src/index.ts:166-170 | the tag block and the heading joined by `hardline` read with exactly one line break between them |
| Plugin.HeadingAfterLineBreak | src/index.ts:166-170 | a line break always comes right before the heading, because the outer join always has two elements. With zero tags the printed feature starts with a line break |
| Plugin.FeatureOutputIgnoresOtherFields | src/index.ts:165-172 | a feature's location, language, keyword and children never affect its output. Only its tags, name and description do |
| Plugin.ParsedDocumentPrints | src/index.ts:118-121 | a parsed document prints successfully exactly when the parser's result has a feature |

## Left out

- Gherkin parsing (`GherkinParser`, `AstBuilder`, `GherkinClassicTokenMatcher`) and `IdGenerator.uuid()`. These are calls into an external library. The message document they produce is a parameter of `Plugin.Parse`.
- Prettier's rendering of documents, `printWidth`/`tabWidth`, and the `AstPath` mechanics. A document is a value here and is never rendered. `path.call` and `path.map` are direct calls.
- prettier's `hardline` is an atom here. In prettier it is a pair of a line break and a break-propagation marker, and the difference only shows when rendering.
- `console.log` / `console.error` output, and the unreachable code after `return 0` in `locStart`/`locEnd`. Both are side effects that change no result.
- The registration objects `languages` and `plugin`, including the default options. They are static configuration.
- Object identity. The typed nodes share `Location` objects with the messages, which is invisible in a value model. The empty abstract base `TypedGherkinNode` has no behaviour.
- `tests_config/run_spec.mjs` and `jest.config.mjs`: the repository's snapshot test runner and its configuration. They read files, run prettier and compare snapshots.
- The white-space set of `trim` is written out as ECMAScript's WhiteSpace and LineTerminator characters, with the Unicode space separators listed explicitly. No other Unicode data is modelled.
