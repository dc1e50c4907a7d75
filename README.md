# ripbug-ai-detector: the cross-file signature checker, in Dafny

ripbug-ai-detector looks at the JavaScript and TypeScript files a change touches and reports
calls that no longer fit the definitions they call. It also reports imports that no longer
find their export and change patterns typical of AI-written code. This project models the
checker's core and proves what each part promises:

- **Extractors.** The line-based parser (`SimpleParser`) reads definitions, parameters and
  calls with regular expressions, written here as hand-made scanners over `seq<char>`. Three
  syntax-tree extractors (`TreeSitterParser`, `AstParser` and the helpers in
  `EnhancedParser`) walk a syntax tree. The tree is an input datatype (`SyntaxTree.Node`):
  kind, text, field name, position and children. Ancestors are passed explicitly, and the
  grammar is not modelled.
- **The hybrid parser** (`EnhancedParser.EnhancedASTParser`) is a class with the source's
  mutable flags. It prefers the tree, falls back on the line-based parser, and reports which
  parser is in use.
- **Detectors.** `SignatureMismatch`, `StaleReference`, `ImportExport`, `BasicCrossFile`,
  `EnhancedSignature` and `FunctionSignature` each turn the definitions and calls of a set
  of files into issues. The file system is a map from path to contents and tree; a missing
  path is a read that throws. The decision rules are stated and proved as lemmas, such as
  "too few arguments is an error, too many a warning". The loops that apply them are
  methods proved against the functions that state those rules.
- **Aggregation.** `Analyzer.RippleAnalyzer` filters files by glob pattern, caps them and
  collects issues into a summary. `AccuracyTester.Tester` compares the line-based and the
  tree-based parser.
- **Side modules.** `SimpleAIPatterns` flags AI-like parameter lists. `UsageTracker.Tracker`
  keeps a monthly count with an event log capped at 100 entries. `AuthManager.Manager`
  classifies license keys and keeps the login.

`Wrappers`, `Seqs`, `Strings`, `Types`, `SyntaxTree` and `Detectors` hold shared types and
library operations (filtering, splitting, trimming, `indexOf`) with their proved properties.

Where the source's own comments or declarations disagree with its code, the model follows
the code:

- `getRecommendation` (src/analysis/accuracy-tester.ts:228-229) is commented as choosing the
  line-based parser when tree-sitter is much slower. Its ratio is line-based time over
  tree-sitter time, so the check fires when tree-sitter is the faster one.
- The `Issue.type` union (src/types/analysis.ts) omits `SignatureMismatch`, `StaleReference`
  and `MissingExport`, which the detectors emit. `Types.IssueKind` includes them.
- Other files name the analyzer `RipBugAnalyzer` or build it from a list of detectors. The
  model follows src/analysis/analyzer.ts: `RippleAnalyzer(config)`.
- The three tree parsers and the line-based parser each decide "optional" differently. Each
  module keeps its own rule, and the detectors recompute "required" themselves.

## Model

| member | source | states |
|---|---|---|
| SimpleParser.CallAt | src/analysis/simple-parser.ts:100 | a match of the call pattern names a non-empty word occurring where the match starts, and the search resumes past it, within the line |
| SimpleParser.CallAtSound | src/analysis/simple-parser.ts:100 | a match at `p` names the whole run of word characters starting at `p`, which optional white space and then `(` follow, and the search resumes right after that `(` |
| SimpleParser.CallAtComplete | src/analysis/simple-parser.ts:100 | conversely, word characters at `p`, then white space, then `(`, always make a match at `p` with that word as the name, resuming after the `(` |
| SimpleParser.CallMatches | src/analysis/simple-parser.ts:100-102 | every match of the global call pattern names a non-empty word occurring at its index |
| SimpleParser.Pieces | src/analysis/simple-parser.ts:139 | the trimmed pieces are one per `,`-separated piece |
| SimpleParser.ParseParameterNode | src/analysis/simple-parser.ts:262-304 | here a typed parameter with a default value is optional, and an untyped one is optional iff it has a default |
| SimpleParser.PieceParameters | src/analysis/simple-parser.ts:137-179 | the regular-expression branch gives at most one parameter per comma-separated piece |
| SimpleParser.ParseParametersSpec | src/analysis/simple-parser.ts:124-180 | blank text gives no parameters, and without a supplied content the regular-expression branch decides |
| SimpleParser.ParseParameters | src/analysis/simple-parser.ts:124-180 | `parseParameters` returns exactly that |
| SimpleParser.ParsePieces | src/analysis/simple-parser.ts:141-177 | the loop over the trimmed pieces keeps exactly the parameters the pieces give, in order, skipping empty ones |
| SimpleParser.HeadDefinition | src/analysis/simple-parser.ts:40-54 | a header match gives exactly one definition, at that file and 1-based line, an arrow function iff found by the arrow pattern, exported (async) iff the line contains `export` (`async`) |
| SimpleParser.DefinitionOfHead | src/analysis/simple-parser.ts:40-54 | one `if (match)` block records exactly that definition, its parameters parsed without a content |
| SimpleParser.DefinitionsOnLine | src/analysis/simple-parser.ts:36-72 | one iteration records the declaration, then the arrow function, of that line |
| SimpleParser.ExtractFunctions | src/analysis/simple-parser.ts:31-76 | the loop records each line's definitions, in line order |
| SimpleParser.CallsOnLine | src/analysis/simple-parser.ts:100-117 | the inner loop records exactly the line's non-built-in matches, in order |
| SimpleParser.ExtractFunctionCalls | src/analysis/simple-parser.ts:79-121 | `extractFunctionCalls` returns each line's calls, in line order |
| SimpleParser.CallsOfLines | src/analysis/simple-parser.ts:96-118 | the outer loop numbers the lines from 1 and concatenates their calls |
| SimpleParser.LineDefinitionsFacts | src/analysis/simple-parser.ts:44-71 | a definition found on a line records that file and line, and is exported (async) iff the line contains `export` (`async`) |
| SimpleParser.ExtractFunctionsFacts | src/analysis/simple-parser.ts:31-76 | every definition records its file and its 1-based line `k`, and is exported (async) iff line `k` contains `export` (`async`) |
| SimpleParser.LineCallsFacts | src/analysis/simple-parser.ts:102-117 | a call found on a line is not a built-in, names a word occurring at its column there, and has the trimmed line as context |
| SimpleParser.ExtractFunctionCallsFacts | src/analysis/simple-parser.ts:79-121 | every call is on its 1-based line `k`, is not a built-in, names a word occurring at its column on line `k`, and has that line, trimmed, as context |
| SimpleParser.ParsePieceClassification | src/analysis/simple-parser.ts:145-176 | in the regular-expression branch a typed parameter is optional iff it carries `?`, even with a default; an untyped one iff it has a default |
| TreeSitterParser.IsExported | src/analysis/tree-sitter-parser.ts:361-380 | the walk up finds an export statement iff the node or one of its ancestors is one |
| TreeSitterParser.ExportInChainCons | src/analysis/tree-sitter-parser.ts:361-380 | the node itself counts as well as its ancestors; for a node that is not an export statement the verdict equals the strict-ancestor one |
| TreeSitterParser.DefaultValueSpec | src/analysis/tree-sitter-parser.ts:234-241 | a default value is looked for only when the text contains ` = `, and is the trimmed rest of the text after the leftmost `=` at which the pattern matches, running to the end without a line break |
| TreeSitterParser.DefaultValueFound | src/analysis/tree-sitter-parser.ts:234-241 | conversely, a text containing ` = ` with an `=` followed by a non-empty rest free of line breaks always has a default value |
| TreeSitterParser.ExtractFirstIdentifier | src/analysis/tree-sitter-parser.ts:259-272 | an identifier gives its own text |
| TreeSitterParser.ExtractFirstIdentifierSpec | src/analysis/tree-sitter-parser.ts:259-272 | otherwise the result is the text of the earliest identifier child, and nothing iff no child is an identifier |
| TreeSitterParser.ParseTypedParameterSpec | src/analysis/tree-sitter-parser.ts:228-256 | a typed parameter is parsed iff the node has a child; it is optional iff the node is an `optional_parameter` or its text contains ` = `, so a parameter with a default is always optional; its type is the `type` child's text; a non-pattern name is the name node's text |
| TreeSitterParser.ParametersFacts | src/analysis/tree-sitter-parser.ts:206-225 | every bare identifier child gives a required untyped parameter of its name, and every parameter comes from an identifier or a typed-parameter child |
| TreeSitterParser.ParseParameters | src/analysis/tree-sitter-parser.ts:206-225 | the loop keeps exactly those parameters, in child order |
| TreeSitterParser.NodeFunctionsOf | src/analysis/tree-sitter-parser.ts:112-127 | what the traversal records at one node: a declaration, an arrow function or a method, parsed by its kind |
| TreeSitterParser.TraverseTree | src/analysis/tree-sitter-parser.ts:110-133 | the recursive traversal visits each node once, before its children, so the definitions come out in pre-order |
| TreeSitterParser.ExtractFunctions | src/analysis/tree-sitter-parser.ts:31-45 | `extractFunctions` returns the definitions of the tree in pre-order, or none when parsing throws |
| TreeSitterParser.NodeFunctionsFacts | src/analysis/tree-sitter-parser.ts:136-203 | a definition sits in the file at the node's 1-based line and 0-based column; an arrow function is recorded only for a declarator whose value is an `arrow_function`; a declaration is exported iff an ancestor is an export statement |
| TreeSitterParser.FunctionsFacts | src/analysis/tree-sitter-parser.ts:31-45 | every definition of a tree is in the file on a 1-based line |
| TreeSitterParser.ArgumentsSpec | src/analysis/tree-sitter-parser.ts:302-313 | one argument per child that is not `,`, `(` or `)`: its text, in order |
| TreeSitterParser.ParseArguments | src/analysis/tree-sitter-parser.ts:302-313 | the loop returns exactly those arguments |
| TreeSitterParser.FindFunctionCalls | src/analysis/tree-sitter-parser.ts:275-299 | the recursive traversal records the calls of a subtree in pre-order |
| TreeSitterParser.ExtractFunctionCalls | src/analysis/tree-sitter-parser.ts:48-77 | `extractFunctionCalls` returns the calls of the tree in pre-order, or none when parsing throws |
| TreeSitterParser.CallsFacts | src/analysis/tree-sitter-parser.ts:275-299 | every call is in the file on a 1-based line, with the trimmed text of that line as context |
| TreeSitterParser.FindImportsExports | src/analysis/tree-sitter-parser.ts:316-348 | the recursive traversal records the import and export entries of a subtree in pre-order |
| TreeSitterParser.ExtractImports | src/analysis/tree-sitter-parser.ts:80-107 | `extractImports` returns the entries of the tree in pre-order, or none when parsing throws |
| TreeSitterParser.NodeModuleRecordsSpec | src/analysis/tree-sitter-parser.ts:316-348 | an import entry is recorded iff an import statement has a `source` child, is default iff the statement has no `{`, and its source has no quotes; an export entry is recorded for every export statement, with an empty source |
| TreeSitterParser.ModuleRecordsFacts | src/analysis/tree-sitter-parser.ts:316-359 | every entry has an empty specifier list and a 1-based line, and exports have an empty source |
| AstParser.IsExported | src/analysis/ast-parser.ts:320-333 | the walk up from the parent finds an `export_statement` iff some strict ancestor is one |
| AstParser.ParentExportedImplies | src/analysis/ast-parser.ts:169 | asking the parent of an arrow function's declarator implies the declarator's own verdict, since exportedness only looks further up |
| AstParser.FieldText | src/analysis/ast-parser.ts:130-135 | a field's text is present iff the node has a child under that field |
| AstParser.ParseParameterSpec | src/analysis/ast-parser.ts:213-240 | a parameter node yields a parameter iff it has a child; it is optional iff the node is an `optional_parameter` or the name has a `?`, a name without `?` is kept and one with it loses exactly one character, and the type and default are present iff their field children are |
| AstParser.ParametersFacts | src/analysis/ast-parser.ts:199-210 | every parameter comes from a `required_parameter` or `optional_parameter` child (bare identifiers are dropped), and every such child with children yields its parameter |
| AstParser.ParseParameters | src/analysis/ast-parser.ts:199-210 | the loop keeps exactly those parameters, in child order |
| AstParser.NodeFunctionsOf | src/analysis/ast-parser.ts:32-47 | what the traversal records at one node: a declaration, an arrow function or a method, parsed by its kind |
| AstParser.TraverseFunctions | src/analysis/ast-parser.ts:30-53 | the recursive traversal records the definitions of a subtree in pre-order |
| AstParser.ExtractFunctions | src/analysis/ast-parser.ts:27-57 | `extractFunctions` returns the definitions of the tree in pre-order |
| AstParser.NodeFunctionsFacts | src/analysis/ast-parser.ts:129-196 | a definition sits in the file at the node's 1-based line and column; a method is always exported, a declaration or arrow function only under an export statement; it is an arrow function iff the node is a `variable_declarator` |
| AstParser.FunctionsFacts | src/analysis/ast-parser.ts:27-57 | every definition of a tree is in the file at a 1-based line and column |
| AstParser.ParseFunctionCallSpec | src/analysis/ast-parser.ts:243-277 | a call is recorded iff its callee is an identifier, or a member expression with a non-empty `property`, and carries that text as its name, the call's 1-based position and its text as context |
| AstParser.TraverseCalls | src/analysis/ast-parser.ts:75-84 | the recursive traversal records the calls of a subtree in pre-order |
| AstParser.ExtractFunctionCalls | src/analysis/ast-parser.ts:60-88 | `extractFunctionCalls` returns the calls of the tree in pre-order |
| AstParser.CallsFacts | src/analysis/ast-parser.ts:60-88 | every call of a tree is in the file, has a non-empty name and a 1-based position |
| AstParser.ParseImportStatement | src/analysis/ast-parser.ts:280-307 | the loop over the statement's children yields exactly the imports of its `import_specifier` children |
| AstParser.ImportStatementFacts | src/analysis/ast-parser.ts:280-307 | every import is a named, non-namespace, non-default import from a direct `import_specifier` child with a `name`, with a quote-free module path, at the statement's 1-based position |
| EnhancedParser.TypeAnnotation | src/analysis/ast-parser-enhanced.ts:597-600 | a type is found exactly when the node has a `type_annotation` child |
| EnhancedParser.TypedParameter | src/analysis/ast-parser-enhanced.ts:511-524 | a parameter is produced exactly when the node has an `identifier` child; it takes that child's text and the annotation, is optional exactly for an `optional_parameter`, and never has a default |
| EnhancedParser.ParseParameters | src/analysis/ast-parser-enhanced.ts:486-509 | the loop over the `formal_parameters` children yields the parameters of the specification, child by child |
| EnhancedParser.ParametersFacts | src/analysis/ast-parser-enhanced.ts:486-524 | no parameter read from a tree has a default value, and an optional one comes from an `optional_parameter` child |
| EnhancedParser.ArgChild | src/analysis/ast-parser-enhanced.ts:539-564 | one pass of the loop body is one step of the scanning state; the closing `)` leaves the arguments and the current text as they were |
| EnhancedParser.ParseArguments | src/analysis/ast-parser-enhanced.ts:527-575 | the loop with its three depth counters returns the argument texts of the specification, including the final non-blank one |
| EnhancedParser.ArgScanStops | src/analysis/ast-parser-enhanced.ts:545-547 | once the `)` returning to depth 0 is seen, the remaining children change nothing |
| EnhancedParser.ArgStepArgs | src/analysis/ast-parser-enhanced.ts:548-563 | one step keeps every collected argument non-empty and trimmed, and adds at most one argument, only at a `,` |
| EnhancedParser.ArgsTrimmedAppend | src/analysis/ast-parser-enhanced.ts:550-552 | appending a non-empty trimmed text keeps the arguments trimmed |
| EnhancedParser.ArgScanArgs | src/analysis/ast-parser-enhanced.ts:539-564 | after any number of children the arguments are non-empty trimmed texts, no more than the `,` children seen |
| EnhancedParser.ArgsAtEndFacts | src/analysis/ast-parser-enhanced.ts:566-569 | adding the last argument keeps the list trimmed and adds at most one |
| EnhancedParser.ArgumentsFacts | src/analysis/ast-parser-enhanced.ts:527-575 | every argument is a non-empty trimmed text, and there is at most one more argument than `,` children |
| EnhancedParser.NodeDefinitionsOf | src/analysis/ast-parser-enhanced.ts:216-232 | the definition recorded at one node is the one the declaration, arrow-function or method parser yields for its kind |
| EnhancedParser.WalkAST | src/analysis/ast-parser-enhanced.ts:213-242 | the recursive walk returns the definitions of the whole subtree in pre-order |
| EnhancedParser.NodeDefinitionsFacts | src/analysis/ast-parser-enhanced.ts:297-370 | a definition recorded at a node names the file, a 1-based line and a column |
| EnhancedParser.WalkFacts | src/analysis/ast-parser-enhanced.ts:213-242 | every definition found in a tree names the file, a 1-based line and a column |
| EnhancedParser.Traverse | src/analysis/ast-parser-enhanced.ts:266-291 | the traversal closure returns the calls of the whole subtree in pre-order |
| EnhancedParser.MakeCallFacts | src/analysis/ast-parser-enhanced.ts:388-402 | a call record names the file, a 1-based line whose trimmed text is its context, and an argument count equal to its argument texts |
| EnhancedParser.CallExpressionCallFacts | src/analysis/ast-parser-enhanced.ts:373-406 | a plain call yields such a call record of the file |
| EnhancedParser.MemberExpressionCallFacts | src/analysis/ast-parser-enhanced.ts:409-449 | a method call yields such a call record of the file |
| EnhancedParser.NewExpressionCallFacts | src/analysis/ast-parser-enhanced.ts:452-484 | a constructor call yields such a call record of the file |
| EnhancedParser.NodeCallsFacts | src/analysis/ast-parser-enhanced.ts:267-283 | every call recorded at one node is a call of the file |
| EnhancedParser.TreeCallsFacts | src/analysis/ast-parser-enhanced.ts:245-295 | every call found in a tree is a call of the file with a consistent argument count |
| EnhancedParser.AsCall | src/analysis/ast-parser-enhanced.ts:125-131 | a line-based call keeps its name, file, position and context and gets no arguments, a zero count and the function type |
| EnhancedParser.HybridFunctionsPolicy | src/analysis/ast-parser-enhanced.ts:47-90 | an error exactly when tree-sitter is on, parsing fails and there is no fallback; the tree's result when it found something or fallback is off; otherwise the line-based result |
| EnhancedParser.RegexCallsCarryNoArguments | src/analysis/ast-parser-enhanced.ts:112-131 | calls from the line-based parser carry no arguments, a zero count, the function type and the file |
| EnhancedParser.FallbackCallsFile | src/analysis/ast-parser-enhanced.ts:93-132 | with fallback on, call extraction never fails and every call names the file |
| EnhancedParser.EnhancedASTParser.constructor | src/analysis/ast-parser-enhanced.ts:23-44 | tree-sitter defaults to off, fallback to on, debug to off; a tree-sitter parser that cannot be built leaves tree-sitter off |
| EnhancedParser.EnhancedASTParser.ExtractFunctions | src/analysis/ast-parser-enhanced.ts:47-90 | returns the result of the hybrid policy for the parser's flags |
| EnhancedParser.EnhancedASTParser.ExtractFunctionCalls | src/analysis/ast-parser-enhanced.ts:93-132 | returns the tree's calls, the line-based calls on a failure with fallback, or the failure; the line-based calls when tree-sitter is off |
| EnhancedParser.EnhancedASTParser.GetParserStats | src/analysis/ast-parser-enhanced.ts:135-147 | reports the flags, and `regex` exactly when tree-sitter is off, `hybrid` exactly when on with fallback, `tree-sitter` exactly when on without |
| EnhancedParser.EnhancedASTParser.SetTreeSitterEnabled | src/analysis/ast-parser-enhanced.ts:150-164 | tree-sitter ends on exactly when enabled and a parser exists or can be built; the parser is built only when missing; fallback and debug stay |
| Detectors.ExtractFunctionNameSpec | src/detectors/signature-mismatch-detector.ts:156-164 | the base name of a call is the text after its last `.` (the whole name when there is none), so it never contains a `.` |
| SignatureMismatch.CreateAccessibleFunctionMap | src/detectors/signature-mismatch-detector.ts:49-63 | the loop builds exactly the map of the exported definitions grouped by name, in input order |
| SignatureMismatch.AccessibleFunctionMapSpec | src/detectors/signature-mismatch-detector.ts:49-72 | a name is a key iff some exported definition has it, and its entry is exactly the exported definitions of that name in input order |
| SignatureMismatch.FindRelevantDefinition | src/detectors/signature-mismatch-detector.ts:169-179 | no definition is chosen only for an empty list, and the chosen one is an element of the list |
| SignatureMismatch.FindRelevantDefinitionSpec | src/detectors/signature-mismatch-detector.ts:169-179 | precedence: the earliest definition in the calling file, else the earliest exported one, else the first |
| SignatureMismatch.CalculateExpectedArguments | src/detectors/signature-mismatch-detector.ts:184-194 | `0 <= required <= total == \|parameters\|`, `required + optional == total`, and `optional` counts the parameters that are optional or have a default |
| SignatureMismatch.DetectArgumentMismatch | src/detectors/signature-mismatch-detector.ts:199-216 | too-few/error iff `actual < required`, too-many/warning iff `required <= actual` and `actual > total`, and no mismatch iff `required <= actual <= total` |
| SignatureMismatch.DefinitionMismatch | src/detectors/signature-mismatch-detector.ts:184-216 | against one definition's counts, too few iff below the required count, too many iff above the parameter count, none in between |
| SignatureMismatch.ParameterText | src/detectors/signature-mismatch-detector.ts:280-286 | a parameter's text starts with its name, followed by `?` exactly when the parameter may be left out |
| SignatureMismatch.CreateSignatureMismatchIssue | src/detectors/signature-mismatch-detector.ts:221-275 | the issue has kind SignatureMismatch, the mismatch's severity, the call's file, line and column, confidence 0.95, the definition's name, and four suggestions, the first naming the count to add or remove |
| SignatureMismatch.CheckSignatureMismatchReports | src/detectors/signature-mismatch-detector.ts:106-151 | a call whose base name has no definitions in the map is never reported; otherwise it is reported iff the actual count (`argumentCount`, else the number of arguments) is below the relevant definition's required count or above its parameter count |
| SignatureMismatch.CheckSignatureMismatchIssue | src/detectors/signature-mismatch-detector.ts:106-151 | a reported issue sits at the call with confidence 0.95; it is an error whose first suggestion says to add `required - actual` (positive) arguments, or a warning whose first suggestion says to remove `actual - total` (positive) |
| SignatureMismatch.DetectIssuesFacts | src/detectors/signature-mismatch-detector.ts:23-44 | every issue of `detect` comes from an analysed file among `files`, with kind SignatureMismatch and confidence 0.95 |
| SignatureMismatch.CheckCalls | src/detectors/signature-mismatch-detector.ts:77-101 | the loop over a file's calls keeps exactly the issues of the calls that are reported, in call order |
| SignatureMismatch.SignatureMismatchDetector.constructor | src/detectors/signature-mismatch-detector.ts:9-15 | the detector owns a fresh parser with fallback on, debug off, and tree-sitter in use exactly when it loads |
| SignatureMismatch.SignatureMismatchDetector.AnalyzeFile | src/detectors/signature-mismatch-detector.ts:77-101 | a file's issues are those of its calls, taken from the parser in its current mode (none for an unreadable or non-JavaScript file) |
| SignatureMismatch.SignatureMismatchDetector.AnalyzeFiles | src/detectors/signature-mismatch-detector.ts:33-41 | the issues of the files are concatenated in file order |
| SignatureMismatch.SignatureMismatchDetector.Detect | src/detectors/signature-mismatch-detector.ts:23-44 | `detect` returns no issues without definitions, and otherwise each file's issues, in file order |
| StaleReference.CreateFunctionMap | src/detectors/stale-reference-detector.ts:49-60 | the loop builds exactly the map of every definition under its own name, in input order |
| StaleReference.FunctionMapSpec | src/detectors/stale-reference-detector.ts:49-60 | a name is a key iff some definition has it, and its entry is exactly the definitions of that name in input order, each once |
| StaleReference.FilterAccessibleFunctionsSpec | src/detectors/stale-reference-detector.ts:149-159 | the reachable definitions are an order-preserving sublist of the input, holding a definition iff it is in the input and in the calling file or exported |
| StaleReference.CreateStaleReferenceIssue | src/detectors/stale-reference-detector.ts:164-197 | the issue has kind StaleReference, severity error, confidence 0.9, the call's file, line and column, and names the base function |
| StaleReference.CheckForStaleReference | src/detectors/stale-reference-detector.ts:101-131 | a call is reported iff its base name has no definitions or none in the calling file or exported |
| StaleReference.CheckCallIssue | src/detectors/stale-reference-detector.ts:65-96 | a reported call is not a known global, and its issue is an error with confidence 0.9 at the call naming the base name |
| StaleReference.NoReachableDefinitionSpec | src/detectors/stale-reference-detector.ts:101-131 | against the map of all definitions, nothing is reachable iff every definition with that name is in another file and not exported |
| StaleReference.CheckCallSpec | src/detectors/stale-reference-detector.ts:80-87 | a call is reported iff its full name is not a known global and every definition with its base name is in another file and not exported |
| StaleReference.DetectIssuesFacts | src/detectors/stale-reference-detector.ts:23-44 | every issue of `detect` comes from a call, not to a known global, in an analysed file among `files`, sits at that call, and is an error with confidence 0.9 |
| StaleReference.CheckCalls | src/detectors/stale-reference-detector.ts:65-96 | the loop over a file's calls keeps exactly the issues of the reported calls, in call order |
| StaleReference.StaleReferenceDetector.constructor | src/detectors/stale-reference-detector.ts:9-15 | the detector owns a fresh parser with fallback on, debug off, and tree-sitter in use exactly when it loads |
| StaleReference.StaleReferenceDetector.AnalyzeFile | src/detectors/stale-reference-detector.ts:65-96 | a file's issues are those of its calls, taken from the parser in its current mode (none for an unreadable or non-JavaScript file) |
| StaleReference.StaleReferenceDetector.AnalyzeFiles | src/detectors/stale-reference-detector.ts:33-41 | the issues of the files are concatenated in file order, and a file that fails adds nothing |
| StaleReference.StaleReferenceDetector.Detect | src/detectors/stale-reference-detector.ts:23-44 | `detect` returns no issues without definitions, and otherwise each file's issues in file order, then call order |
| ImportExport.FromClauseAt | src/detectors/import-export-mismatch-detector.ts:86 | the `from '...'` part of the import pattern captures a non-empty module path |
| ImportExport.ImportAt | src/detectors/import-export-mismatch-detector.ts:86 | a match of the import pattern has a non-empty module path, and a `{ ... }` alternative a non-empty list |
| ImportExport.ImportedNames | src/detectors/import-export-mismatch-detector.ts:93 | a `{ ... }` list gives one name per `,`-separated piece |
| ImportExport.MatchImports | src/detectors/import-export-mismatch-detector.ts:88-127 | every import recorded for a line is against that file and line |
| ImportExport.MatchImportsFacts | src/detectors/import-export-mismatch-detector.ts:88-127 | no match records nothing; a `{ ... }` list records one non-default, non-namespace import per piece, trimmed, in order; `* as ns` or a default name records that single import with the matching flag; all carry the module path |
| ImportExport.ImportsOnLine | src/detectors/import-export-mismatch-detector.ts:85-128 | one iteration of the import loop records exactly the imports of that line |
| ImportExport.ExtractImportsFromFile | src/detectors/import-export-mismatch-detector.ts:78-132 | the loop records each line's imports, in line order |
| ImportExport.FileImportsFacts | src/detectors/import-export-mismatch-detector.ts:78-132 | every import of a file is recorded against it at a 1-based line number (`i + 1`) whose line matches the import pattern |
| ImportExport.NamedExportAt | src/detectors/import-export-mismatch-detector.ts:146 | the declaration-export pattern captures a non-empty word |
| ImportExport.DefaultExportAt | src/detectors/import-export-mismatch-detector.ts:158 | a match of the default-export pattern captures exactly one of the function name or the following word, non-empty |
| ImportExport.ExportListAt | src/detectors/import-export-mismatch-detector.ts:171 | the export-list pattern captures a non-empty text between the braces |
| ImportExport.NamedLineExport | src/detectors/import-export-mismatch-detector.ts:146-155 | a line gives at most one declaration export, at that file and line, not default |
| ImportExport.DefaultLineExport | src/detectors/import-export-mismatch-detector.ts:158-168 | a line gives at most one default export, at that file and line, and one exactly when the default-export pattern matches |
| ImportExport.DefaultLineExportName | src/detectors/import-export-mismatch-detector.ts:158-168 | a default export is named after the function of `export default function f`, else the word after `default`; the name is never empty, so the `'default'` fallback is never used |
| ImportExport.ListLineExports | src/detectors/import-export-mismatch-detector.ts:171-183 | the names of an export list are named exports at that file and line |
| ImportExport.LineExportsFacts | src/detectors/import-export-mismatch-detector.ts:142-184 | every export of a line is at that line, and only the default-export pattern gives a default export |
| ImportExport.ListExportsOnLine | src/detectors/import-export-mismatch-detector.ts:172-183 | the inner loop pushes exactly the export list's names |
| ImportExport.ExportsOnLine | src/detectors/import-export-mismatch-detector.ts:143-183 | one iteration of the export loop records exactly the line's declaration, default and listed exports, in that order |
| ImportExport.ExtractExportsFromFile | src/detectors/import-export-mismatch-detector.ts:137-187 | the loop records each line's exports, in line order |
| ImportExport.FileExportsFacts | src/detectors/import-export-mismatch-detector.ts:137-187 | every export of a file is recorded against it at a 1-based line number |
| ImportExport.CreateExportMap | src/detectors/import-export-mismatch-detector.ts:192-203 | the loop builds exactly the map of each file's exports |
| ImportExport.ExportMapSpec | src/detectors/import-export-mismatch-detector.ts:192-203 | a file is a key iff it exports something, and its entry is its exports in their original order |
| ImportExport.FindMatchingExportSpec | src/detectors/import-export-mismatch-detector.ts:247-261 | a default import is matched iff some export is default, whatever its name; any other import, namespace included, iff some named export has the identical name; the match has the import's kind and is the first matching export |
| ImportExport.Candidates | src/detectors/import-export-mismatch-detector.ts:273-287 | the candidates are the resolved path with each of `.ts`, `.js`, `.tsx`, `.jsx`, `/index.ts`, `/index.js` appended, in that order |
| ImportExport.ResolveModulePathSpec | src/detectors/import-export-mismatch-detector.ts:266-290 | a path not starting with `./` or `../` never resolves; a resolved path is in `allFiles` and is the first candidate that is; a relative path fails only when no candidate is in `allFiles` |
| ImportExport.CreateMismatchIssue | src/detectors/import-export-mismatch-detector.ts:295-325 | the issue has kind MissingExport, severity error, confidence 0.95, the import's file, line and column, lists the available exports, and has four suggestions, the first listing the exports or saying there are none |
| ImportExport.CheckImportMismatchReports | src/detectors/import-export-mismatch-detector.ts:208-242 | an import is reported iff its module does not resolve or no export of the resolved file matches it |
| ImportExport.CheckImportMismatchFacts | src/detectors/import-export-mismatch-detector.ts:208-242 | a report is a MissingExport error with confidence 0.95 at the import, listing the resolved file's export names; an unresolved module is reported as `Module '...' not found` |
| ImportExport.ExportsOfSpec | src/detectors/import-export-mismatch-detector.ts:192-203 | looking a file up in the export map gives that file's exports in source order, and none for a file that exports nothing |
| ImportExport.UnresolvedUnmatched | src/detectors/import-export-mismatch-detector.ts:216-223 | an import from a non-relative path is always reported, with an empty export list |
| ImportExport.ResolvedUnmatched | src/detectors/import-export-mismatch-detector.ts:226-237 | an import that resolves to a file is reported iff no export of that file matches it |
| ImportExport.ResolvedListedExports | src/detectors/import-export-mismatch-detector.ts:226-237 | the report on a resolved import lists the names of the target file's exports in source order |
| ImportExport.CheckInFacts | src/detectors/import-export-mismatch-detector.ts:208-242 | each report is a MissingExport error with confidence 0.95 at the import |
| ImportExport.CollectedImport | src/detectors/import-export-mismatch-detector.ts:47-73 | an import collected from the files comes from an analysed file among them |
| ImportExport.DetectIssuesFacts | src/detectors/import-export-mismatch-detector.ts:24-42 | every issue of `detect` is a MissingExport error with confidence 0.95 at an import of an analysed file among `files` |
| ImportExport.CheckImports | src/detectors/import-export-mismatch-detector.ts:33-39 | the loop over the imports keeps exactly the reports, in import order |
| ImportExport.ImportExportMismatchDetector.constructor | src/detectors/import-export-mismatch-detector.ts:10-16 | the detector owns a fresh parser with fallback on and debug off |
| ImportExport.ImportExportMismatchDetector.ExtractFromFile | src/detectors/import-export-mismatch-detector.ts:53-70 | one file adds its imports and exports, or nothing when it cannot be read or is not JavaScript |
| ImportExport.ImportExportMismatchDetector.ExtractImportsAndExports | src/detectors/import-export-mismatch-detector.ts:47-73 | the imports and exports of all files, concatenated in file order |
| ImportExport.ImportExportMismatchDetector.Detect | src/detectors/import-export-mismatch-detector.ts:24-42 | `detect` checks every import of the files against the exports of all of them, in file order, then line order |
| BasicCrossFile.IsCallToFunctionSpec | src/analysis/basic-cross-file-analyzer.ts:93-101 | for a function name without `.`, a call targets it iff the call's name equals it or ends with `.` and it, i.e. iff its base name is that name |
| BasicCrossFile.CallsInOtherFilesFacts | src/analysis/basic-cross-file-analyzer.ts:44-90 | every call site lies in an analysed file among `allFiles` other than the defining file, and is a call there targeting the function, with its line, column and argument count |
| BasicCrossFile.CompareSignaturesSpec | src/analysis/basic-cross-file-analyzer.ts:104-134 | missing-parameters iff `provided < required`, extra-parameters iff `provided > total`, no mismatch iff in between; the first is an error and the second a warning, so the two exclude each other |
| BasicCrossFile.CompareSignaturesAgrees | src/analysis/basic-cross-file-analyzer.ts:104-134 | this classification agrees with the signature-mismatch detector's: a mismatch exactly when it finds one, with the same severity and direction |
| BasicCrossFile.ArgNames | src/analysis/basic-cross-file-analyzer.ts:177-180 | the placeholder names are exactly `arg1` to `argn` |
| BasicCrossFile.GetSimpleSignatureSpec | src/analysis/basic-cross-file-analyzer.ts:177-180 | the simple signature is empty iff there are no arguments, `arg1` for one, and for more the signature of one fewer followed by `, argn`; so it runs from `arg1` to `argn` |
| BasicCrossFile.ParameterEntrySpec | src/analysis/basic-cross-file-analyzer.ts:183-188 | an entry starts with the name, has `?` right after it iff the parameter may be left out, and ends with its type or `any` |
| BasicCrossFile.MissingPlaceholdersSpec | src/analysis/basic-cross-file-analyzer.ts:197-211 | with arguments missing there is one placeholder per missing required parameter (`required - provided` of them), in order, each chosen by that parameter's type |
| BasicCrossFile.CreateIssueFacts | src/analysis/basic-cross-file-analyzer.ts:137-174 | the issue sits at the definition and names it, has the mismatch's severity and message, confidence 0.95, three suggestions, and exactly one affected file: the call site, carrying the first suggestion |
| BasicCrossFile.IssueForFacts | src/analysis/basic-cross-file-analyzer.ts:30-36 | the issue of a call site exists only for a mismatched count, sits at the definition and lists exactly that call site |
| BasicCrossFile.FunctionIssuesFacts | src/analysis/basic-cross-file-analyzer.ts:20-41 | a definition's issues come only from an exported definition, sit at it, and each lists one call site in another analysed file among `allFiles` |
| BasicCrossFile.BreakingChangesFacts | src/analysis/basic-cross-file-analyzer.ts:20-41 | every issue of `detectBreakingChanges` comes from an exported definition, sits at it, and lists one call site in another analysed file |
| BasicCrossFile.IssuesForSites | src/analysis/basic-cross-file-analyzer.ts:30-37 | the loop over one definition's call sites keeps exactly the issues of the mismatched ones, in order |
| BasicCrossFile.SitesInCalls | src/analysis/basic-cross-file-analyzer.ts:71-81 | the loop over one file's calls keeps exactly the calls targeting the function, as call sites, in order |
| BasicCrossFile.BasicCrossFileAnalyzer.constructor | src/analysis/basic-cross-file-analyzer.ts:11-17 | the analyzer owns a fresh parser with fallback on, debug off, and tree-sitter in use exactly when it loads |
| BasicCrossFile.BasicCrossFileAnalyzer.CallSitesInFile | src/analysis/basic-cross-file-analyzer.ts:59-87 | one file's call sites: none in the defining file or an unreadable or non-JavaScript file, else those of its calls |
| BasicCrossFile.BasicCrossFileAnalyzer.FindCallsInOtherFiles | src/analysis/basic-cross-file-analyzer.ts:44-90 | the call sites of all files, in file order, then call order |
| BasicCrossFile.BasicCrossFileAnalyzer.DetectBreakingChanges | src/analysis/basic-cross-file-analyzer.ts:20-41 | the issues of all definitions, in definition order, then call-site order |
| EnhancedSignature.DetermineChangeType | src/analysis/enhanced-signature-detector.ts:183-205 | fixed precedence: `options-parameter` gives parameter-added, else `complex-types` type-changed, else `destructuring-parameters` signature-restructured, else parameter-added; parameter-removed is never produced |
| EnhancedSignature.DetermineSeverity | src/analysis/enhanced-signature-detector.ts:338-351 | an error iff there is a breaking call, a warning iff there is none, whatever the confidence |
| EnhancedSignature.NumeralIsNumeric | src/analysis/enhanced-signature-detector.ts:318 | a decimal numeral is numeric for the `isNaN(Number(...))` test |
| EnhancedSignature.DigitsUntrimmed | src/analysis/enhanced-signature-detector.ts:318 | digits are not white space, so the numeric test's trimming leaves them alone |
| EnhancedSignature.InferArgType | src/analysis/enhanced-signature-detector.ts:328-335 | the inferred type is one of the six names, and `string` iff the argument starts with a quote |
| EnhancedSignature.InferredTypeIsCompatible | src/analysis/enhanced-signature-detector.ts:313-335 | an argument inferred as `string`, `number` or `boolean` is compatible with a parameter of exactly that type |
| EnhancedSignature.QuotedIsString | src/analysis/enhanced-signature-detector.ts:313-316 | an argument starting with a quote suits a `string` type |
| EnhancedSignature.NumericIsNumber | src/analysis/enhanced-signature-detector.ts:313-319 | an argument that `Number` reads as a number suits a `number` type |
| EnhancedSignature.BooleanLiteralIsBoolean | src/analysis/enhanced-signature-detector.ts:313-322 | `true` and `false` suit a `boolean` type |
| EnhancedSignature.TypeIssueOfSpec | src/analysis/enhanced-signature-detector.ts:299-335 | a parameter typed exactly `string`, `number` or `boolean` draws no issue from an argument inferred to be of that type, so an issue against such a type never reports it as the provided type; a type naming none of the three never draws an issue |
| EnhancedSignature.TypeIssuesUpToSound | src/analysis/enhanced-signature-detector.ts:295-306 | every issue the loop collects comes from the check of some position both lists have |
| EnhancedSignature.TypeIssuesUpToComplete | src/analysis/enhanced-signature-detector.ts:295-306 | every position both lists have whose check yields an issue has that issue collected |
| EnhancedSignature.TypeIssuesUpToLength | src/analysis/enhanced-signature-detector.ts:295-306 | the loop collects at most one issue per position |
| EnhancedSignature.TypeIssuesFacts | src/analysis/enhanced-signature-detector.ts:292-310 | at most `min(\|params\|, \|args\|)` issues, all warnings, each about a typed parameter whose argument does not fit, carrying the argument's inferred type; and no such parameter is missed |
| EnhancedSignature.AnalyzeTypeCompatibility | src/analysis/enhanced-signature-detector.ts:292-310 | the loop yields exactly those issues, in position order |
| EnhancedSignature.BreakingCallOfSpec | src/analysis/enhanced-signature-detector.ts:257-289 | a call site breaks iff it passes fewer arguments than there are required parameters (extra arguments are never reported); the record then has `missingParams` = the required parameters from position `provided` on, `expected - provided` of them, and the type issues of its arguments |
| EnhancedSignature.BreakingCallsFacts | src/analysis/enhanced-signature-detector.ts:257-289 | every breaking call comes from a call site with too few arguments, and every such call site has its breaking call |
| EnhancedSignature.ValidateCallCompatibility | src/analysis/enhanced-signature-detector.ts:257-289 | the loop keeps exactly the breaking calls, in call-site order |
| EnhancedSignature.MatchesFunctionExtendsBasic | src/analysis/enhanced-signature-detector.ts:217-221 | the enhanced matching (same name, `.name` suffix, or `name(` in the context) accepts every call the basic analyzer accepts |
| EnhancedSignature.CallSitesFacts | src/analysis/enhanced-signature-detector.ts:208-254 | every call site lies in a readable file among `allFiles` other than the defining one, and is a matching call there with its position, context and argument texts |
| EnhancedSignature.SitesInCalls | src/analysis/enhanced-signature-detector.ts:217-231 | the loop over a file's calls records exactly the matching calls, in order |
| EnhancedSignature.ChangeOfSpec | src/analysis/enhanced-signature-detector.ts:64-90 | a definition has a change iff it is likely changed and has a breaking call; the change is then an error carrying the analysis' confidence and patterns and the change type they determine |
| EnhancedSignature.EnhancedSignatureDetector.ChangeFor | src/analysis/enhanced-signature-detector.ts:64-90 | one pass of the loop yields the change of the specification for that definition |
| EnhancedSignature.SignatureChangesFacts | src/analysis/enhanced-signature-detector.ts:56-93 | every change is about one of the definitions, likely changed, an error, with at least one breaking call, each from another readable file and short of arguments |
| EnhancedSignature.SignatureChangesComplete | src/analysis/enhanced-signature-detector.ts:56-93 | every likely-changed definition with a breaking call is reported |
| EnhancedSignature.EnhancedSignatureDetector.constructor | src/analysis/enhanced-signature-detector.ts:46-53 | the detector owns a fresh parser with fallback and debug on, and tree-sitter in use exactly when it loads |
| EnhancedSignature.EnhancedSignatureDetector.CallSitesInFile | src/analysis/enhanced-signature-detector.ts:211-237 | one file's call sites: none in the defining file or an unreadable file, else its matching calls |
| EnhancedSignature.EnhancedSignatureDetector.FindCallSitesWithTreeSitter | src/analysis/enhanced-signature-detector.ts:208-254 | the call sites of all files, in file order, then call order |
| EnhancedSignature.EnhancedSignatureDetector.DetectSignatureChanges | src/analysis/enhanced-signature-detector.ts:56-93 | the changes of all definitions, exported or not, in definition order, with each definition's pattern analysis given |
| FunctionSignature.LooksLikeAIChangeMonotone | src/detectors/function-signature-detector.ts:112-128 | the heuristic is monotone: a definition whose parameters include all of another's looks like an AI edit whenever the other does |
| FunctionSignature.AppendedParameterKeepsAIChange | src/detectors/function-signature-detector.ts:112-128 | appending a parameter never takes the AI-edit verdict away, and the simulated old version looks like an AI edit only when the definition does |
| FunctionSignature.LooksLikeAIChangeCases | src/detectors/function-signature-detector.ts:112-128 | no parameters never looks like an AI edit; without an optional parameter, or without a typed one, the verdict is exactly the options-parameter test; a parameter named `options` always suffices |
| FunctionSignature.SimulateOldFunction | src/detectors/function-signature-detector.ts:131-139 | every field but the parameters is kept, the parameters lose exactly their last element, and an empty list stays empty |
| FunctionSignature.FunctionChangesSpec | src/detectors/function-signature-detector.ts:87-109 | a change is recorded exactly for the definitions that look like an AI edit, each against its simulated old version, as a parameter change |
| FunctionSignature.DetectFunctionChanges | src/detectors/function-signature-detector.ts:87-109 | the loop records exactly those changes, in definition order |
| FunctionSignature.SignatureEntrySpec | src/detectors/function-signature-detector.ts:185-195 | an entry starts with the name, is just the name iff the parameter has no type, is not optional and has no default, and ends with ` = default` when it has one |
| FunctionSignature.SimulatedSignatureExtends | src/detectors/function-signature-detector.ts:131-139 | with two or more parameters, the new signature is the simulated old one with `, ` and the last parameter's entry inserted before the `)` |
| FunctionSignature.GenerateCallSiteSuggestionSpec | src/detectors/function-signature-detector.ts:209-220 | only the last parameter's placeholder is suggested, and nothing for a definition without parameters |
| FunctionSignature.CallSitesFacts | src/detectors/function-signature-detector.ts:142-174 | every affected file is another analysed, parseable file among `allFiles` with a call of exactly the function's name at that position, and suggests the last parameter |
| FunctionSignature.AffectedInCalls | src/detectors/function-signature-detector.ts:156-166 | the loop over a file's calls records exactly the calls of that exact name, in order |
| FunctionSignature.CallSitesInFile | src/detectors/function-signature-detector.ts:145-171 | one file's call sites: none in the defining file or an unreadable, non-JavaScript or unparseable file, else its matching calls |
| FunctionSignature.FindCallSites | src/detectors/function-signature-detector.ts:142-174 | the call sites of all files, in file order, then call order |
| FunctionSignature.CreateIssueFacts | src/detectors/function-signature-detector.ts:60-77 | the issue is an error with confidence 0.9 at the new definition, under its name, with its old and new signatures and affected files, and its first suggestion counts the affected call sites |
| FunctionSignature.IssueForSpec | src/detectors/function-signature-detector.ts:56-81 | a change gets an issue iff its definition has call sites among the files searched, and it is the issue with those call sites |
| FunctionSignature.IssueOfChange | src/detectors/function-signature-detector.ts:57-80 | one iteration searches the change's call sites and makes the issue when there are any |
| FunctionSignature.IssuesOfChanges | src/detectors/function-signature-detector.ts:56-81 | the loop keeps exactly the issues of the changes with call sites, in change order |
| FunctionSignature.AnalyzeFile | src/detectors/function-signature-detector.ts:38-84 | `analyzeFile` with the list of files to search passed in: an error for an unreadable or unparseable file, nothing for a non-JavaScript one, else the issues of its changes |
| FunctionSignature.Detect | src/detectors/function-signature-detector.ts:21-35 | `detect` concatenates each file's issues in file order, skipping a file whose analysis throws |
| FunctionSignature.ChangeIssuesFacts | src/detectors/function-signature-detector.ts:56-81 | the issues of one file's changes are errors with confidence 0.9 in that file, each reporting a definition of the file that looks like an AI edit |
| FunctionSignature.DetectedFacts | src/detectors/function-signature-detector.ts:21-84 | every issue sits in an analysed file among `files`, at a definition there that looks like an AI edit, is an error with confidence 0.9, and lists that definition's call sites, of which there is at least one |
| FunctionSignature.DetectedComplete | src/detectors/function-signature-detector.ts:21-84 | a definition that looks like an AI edit, in an analysed file, with calls of its name in other analysed files, is reported |
| FunctionSignature.ChangeIssueComplete | src/detectors/function-signature-detector.ts:38-84 | the file-level half of the above: the file's issues include one reporting that definition |
| FunctionSignature.DetectedAsWrittenIsEmpty | src/detectors/function-signature-detector.ts:57 | as written, `detect` never reports anything: every file has no changes or throws on the unbound `files` |
| FunctionSignature.FilesScopeFinding | src/detectors/function-signature-detector.ts:57 | for an AI-looking definition called from another file, the corrected `detect` reports an issue and the as-written one reports nothing |
| Analyzer.NonSlashRunSpec | src/analysis/analyzer.ts:151 | a trailing `*` matches exactly a rest of the path without `/` |
| Analyzer.AnyRunSpec | src/analysis/analyzer.ts:150 | a trailing `**`, as intended, matches exactly a rest without line terminators, `/` included |
| Analyzer.AnyRunSkips | src/analysis/analyzer.ts:150 | an intended `**` can swallow any stretch without line terminators before the rest of the pattern matches |
| Analyzer.AsWrittenDoubleStarNeedsDot | src/analysis/analyzer.ts:149-155 | as written, a pattern starting with `**` matches only paths that start with a literal `.` |
| Analyzer.DoubleStarFinding | src/analysis/analyzer.ts:147-156 | `**/*.ts` on `src/a.ts` matches as intended and is rejected as written |
| Analyzer.Prefix | src/analysis/analyzer.ts:30 | `slice(0, maxFiles)` keeps a prefix, of length `maxFiles` capped by the list's length when `maxFiles` is not negative |
| Analyzer.EnabledRulesSpec | src/analysis/analyzer.ts:175-189 | the enabled rules are the three rule names whose flag is on, in the fixed order |
| Analyzer.SumBounds | src/analysis/analyzer.ts:166 | confidences in [0, 1] add up to between 0 and their number |
| Analyzer.OverallConfidenceBounds | src/analysis/analyzer.ts:159-172 | 0.95 without issues; with issues at most 0.99, and in [0, 0.99] when every confidence is in [0, 1] |
| Analyzer.ResultOfSpec | src/analysis/analyzer.ts:75-101 | errors and warnings add up to the issues, success holds exactly when no issue is an error, every analysed file is counted, and one AI detection is counted exactly when AI was detected |
| Analyzer.AIIssueOnlyWhenConfident | src/analysis/analyzer.ts:44-70 | an `ai-pattern-detected` issue is present exactly when AI detection is on and the detector says AI-generated with confidence above 0.7 |
| Analyzer.AnalysisFacts | src/analysis/analyzer.ts:19-102 | without valid files the result is the empty success of confidence 1; otherwise at most `maxFiles` valid files are analysed and the summary and success agree with the issues; as intended, on the intended `**` glob and the corrected `detect` |
| Analyzer.ValidFilesSpec | src/analysis/analyzer.ts:105-144 | a file is kept exactly when it was given, exists, is a JavaScript or TypeScript file, matches no exclude pattern and some include pattern, with `**` read as intended |
| Analyzer.RippleAnalyzer.constructor | src/analysis/analyzer.ts:12-16 | the analyzer keeps the configuration it is given |
| Analyzer.RippleAnalyzer.ShouldIncludeFile | src/analysis/analyzer.ts:126-144 | the two loops return true exactly when no exclude pattern matches and some include pattern does, with `**` read as intended |
| Analyzer.RippleAnalyzer.FilterValidFiles | src/analysis/analyzer.ts:105-123 | the loop keeps exactly the valid files, in order, with `**` read as intended |
| Analyzer.RippleAnalyzer.CalculateOverallConfidence | src/analysis/analyzer.ts:159-172 | returns the overall confidence of the specification: 0.95, or the capped average of the mean issue confidence and the AI confidence |
| Analyzer.RippleAnalyzer.CollectIssues | src/analysis/analyzer.ts:32-70 | the signature issues of the corrected `detect` when that rule is on, then the AI issue under its condition |
| Analyzer.RippleAnalyzer.Analyze | src/analysis/analyzer.ts:19-102 | returns the analysis of the specification, whose properties `AnalysisFacts` states; as intended, on the intended `**` glob and the corrected `detect` |
| AccuracyTester.FindSameNone | src/analysis/accuracy-tester.ts:135 | the search for a definition of the same name and line finds nothing exactly when none has both |
| AccuracyTester.MissedSpec | src/analysis/accuracy-tester.ts:133-141 | a definition is missed exactly when the other parser found it and this one has none of the same name and line |
| AccuracyTester.FindSameFirst | src/analysis/accuracy-tester.ts:147 | the search returns the first definition of the same name and line |
| AccuracyTester.ParameterDifferenceOfSpec | src/analysis/accuracy-tester.ts:147-159 | a difference is recorded for a line-based definition exactly when its first tree-sitter match has other parameter names, and records both name lists and the line |
| AccuracyTester.ParameterDifferencesSpec | src/analysis/accuracy-tester.ts:143-161 | the parameter differences are exactly those of the line-based definitions found by both parsers whose parameter names differ |
| AccuracyTester.ParameterDifferenceFor | src/analysis/accuracy-tester.ts:147-159 | one pass of the loop records the difference of the specification for that definition |
| AccuracyTester.FindDifferences | src/analysis/accuracy-tester.ts:132-168 | returns both missed lists and, from the loop, the parameter differences of the specification |
| AccuracyTester.Complexity | src/analysis/accuracy-tester.ts:171-198 | the complexity is in [0, 1], and 0 exactly when no feature is found |
| AccuracyTester.AssessComplexity | src/analysis/accuracy-tester.ts:171-198 | the accumulated score, capped at 1, is the complexity of the specification |
| AccuracyTester.AccuracyScoreFacts | src/analysis/accuracy-tester.ts:201-219 | the common definitions and those tree-sitter missed add up to the line-based ones; the score is in [0, 1], and 1 when both parsers found nothing |
| AccuracyTester.IdenticalResultsAgree | src/analysis/accuracy-tester.ts:132-219 | two equal results miss nothing and score 1 |
| AccuracyTester.RecommendationSpec | src/analysis/accuracy-tester.ts:222-250 | `regex` exactly when the speed ratio exceeds 3 and tree-sitter finds no more; `tree-sitter` whenever it finds more than 1.2 times as many, or else for complexity above 0.7; `hybrid` otherwise |
| AccuracyTester.ComparisonFacts | src/analysis/accuracy-tester.ts:52-87 | the scores are in [0, 1]; without tree-sitter nothing is missed and the score is 1; a file tree-sitter cannot parse has every line-based definition missed by tree-sitter |
| AccuracyTester.Tester.constructor | src/analysis/accuracy-tester.ts:42-49 | the tester's parser requests tree-sitter without fallback, and uses it when it loads |
| AccuracyTester.Tester.CompareAccuracy | src/analysis/accuracy-tester.ts:52-87 | returns the comparison of the specification for the parser's tree-sitter state |
| SimpleAIPatterns.DetectBasicPatternsSpec | src/detectors/simple-ai-patterns.ts:13-35 | the patterns are exactly those of the three the definition shows, in the fixed order, each once; the confidence is 0.7 exactly when one is found and 0 otherwise |
| SimpleAIPatterns.SuggestionsForPattern | src/detectors/simple-ai-patterns.ts:41-54 | each of the three patterns has exactly two suggestions |
| SimpleAIPatterns.GenerateAISuggestionsSpec | src/detectors/simple-ai-patterns.ts:38-57 | the suggestions are those of the known patterns the list includes, in the fixed order, two for each |
| SimpleAIPatterns.SuggestionsForDetected | src/detectors/simple-ai-patterns.ts:13-57 | a definition's own patterns get two suggestions each |
| SimpleAIPatterns.ConfidenceBoostSpec | src/detectors/simple-ai-patterns.ts:60-73 | likely AI-generated exactly when the boost is 0.1, which needs two of the three signs; the boost is positive exactly when the confidence is 0.7, and 0.05 exactly with one pattern |
| UsageTracker.InMonth | src/usage/usage-tracker.ts:36-42 | the record is brought to the current month; within the same month it is unchanged, and a new month clears the count and the events while the plan and key stay |
| UsageTracker.Recent | src/usage/usage-tracker.ts:94-96 | at most 100 events remain, all of them when there are no more than 100, and they are the most recent ones |
| UsageTracker.TrackedSpec | src/usage/usage-tracker.ts:67-99 | a validation adds one to the count of the month, or starts a new month at 1 with only the new event; the new event is the last of at most 100 kept; plan and key stay |
| UsageTracker.TrackedConsistent | src/usage/usage-tracker.ts:67-99 | tracking keeps at most 100 events and no more events than validations this month |
| UsageTracker.TrackedAllCount | src/usage/usage-tracker.ts:55-99 | n validations in the same month add n to the count, and a free plan can then validate exactly while fewer than ten are counted |
| UsageTracker.UsageOfSpec | src/usage/usage-tracker.ts:17-22 | only the free plan has a limit, ten, shown as 999999 otherwise; validation is allowed exactly on another plan or below ten |
| UsageTracker.WithPlanSpec | src/usage/usage-tracker.ts:102-109 | the plan changes, the key only when a non-empty one is given, and nothing else changes |
| UsageTracker.CountAIDetected | src/usage/usage-tracker.ts:130 | the AI detections are no more than the events |
| UsageTracker.StatsOf | src/usage/usage-tracker.ts:112-140 | one validation per event, at least as many as the AI detections; all zeros without events |
| UsageTracker.CountAIDetectedAll | src/usage/usage-tracker.ts:130 | the detections count every event exactly when all flagged AI, and none exactly when none did |
| UsageTracker.Tracker.constructor | src/usage/usage-tracker.ts:163-169 | a tracker without a saved record starts on the free plan in the current month with no validations and no events |
| UsageTracker.Tracker.GetUsage | src/usage/usage-tracker.ts:31-52 | the record is brought to the month and the report is its usage |
| UsageTracker.Tracker.CanValidate | src/usage/usage-tracker.ts:55-64 | true exactly on a plan other than free or with fewer than ten validations this month, after bringing the record to the month |
| UsageTracker.Tracker.TrackValidation | src/usage/usage-tracker.ts:67-99 | the new record is the tracked one of the specification, whose properties `TrackedSpec` states |
| UsageTracker.Tracker.UpdatePlan | src/usage/usage-tracker.ts:102-109 | the new record is the one with the new plan and, when non-empty, the new key |
| UsageTracker.Tracker.GetStats | src/usage/usage-tracker.ts:112-140 | returns the statistics of the record's events |
| AuthManager.PrefixesExtendKeyPrefix | src/auth/auth-manager.ts:147-176 | a key with the free or the pro prefix has the general prefix |
| AuthManager.ValidateLicenseKeySpec | src/auth/auth-manager.ts:143-191 | refused, with `Invalid license key`, exactly when the key has neither specific prefix and not the general one with more than ten characters; accepted keys have the general prefix and no usage; the pro plan exactly for a pro key that is not a free one, and exactly with no limit |
| AuthManager.LoginOutcomeSpec | src/auth/auth-manager.ts:55-84 | a login succeeds exactly for a well-formed key that validation accepts, with validation's result; every failure starts with `Login failed: `; a malformed key fails on its format |
| AuthManager.LengthTenGap | src/auth/auth-manager.ts:176-196 | a ten-character key with only the general prefix passes the format check and is still refused |
| AuthManager.LengthTenExample | src/auth/auth-manager.ts:176-196 | `rpl_abcdef` is such a key |
| AuthManager.Manager.constructor | src/auth/auth-manager.ts:47-52 | no credentials, and a fresh usage tracker on its default record |
| AuthManager.Manager.Login | src/auth/auth-manager.ts:55-84 | returns the login outcome; on success saves the key and user for 30 days and gives the usage record the key's plan and the key; on failure changes nothing |
| AuthManager.Manager.Logout | src/auth/auth-manager.ts:120-128 | the credentials are gone |
| AuthManager.Manager.GetStatus | src/auth/auth-manager.ts:87-117 | unauthenticated without credentials or with expired ones, which are removed; otherwise the key, the user and the usage of the record brought to the month |
| AuthManager.LoginThenStatus | src/auth/auth-manager.ts:55-117 | a successful login followed by a status request within 30 days reports that key and its plan |

## Left out

- The AI detector (src/detectors/ai-detector.ts) is not part of this model. Its verdict is an input (`Analyzer.AIResult`), and so is `analyzeSignaturePattern`'s pattern result in `EnhancedSignature`.
- Parsing: tree-sitter's grammars and `parseFile` are not modelled. A file's syntax tree is an input, and `None` stands for a parse that throws.
- File I/O is a map from path to contents (`Types.FileSystem`). `fs.readFile` failing is a missing key, and `exists` is membership.
- `path.relative`, `path.resolve` and `path.dirname` are modelled as plain string operations on `/`-separated paths. `getRelativePath` in `shouldIncludeFile` is taken as the identity.
- Clocks and randomness are parameters or are left out. This covers `Date.now()` issue ids, `timeMs`, ISO timestamps and `performance.now()` timings (`AccuracyTester.PerformanceMetrics` is an input). It also covers the usage tracker's current month, time stamp and next reset date, and the login clock, which is milliseconds rather than an ISO string.
- Persistence of the usage and auth records is not modelled: loading, saving, the home directory, `chmod` and the defaults-spread merge of a partial saved record. The records are fields of `UsageTracker.Tracker` and `AuthManager.Manager`.
- Console output and debug logging are not modelled, and nor is `generateReport` in the accuracy tester, whose output is `toFixed`-formatted text.
- Floating point: scores, confidences and averages are exact `real`s. `Math.round` is `Types.Round`; rounding error in the 1.2 factor, the sums and the averages is not modelled.
- Glob patterns in the analyzer: only `*` and `**` are special. Other regular-expression metacharacters in a pattern are taken literally.
- `Analyzer.ValidFilesSpec`, `Analyzer.RippleAnalyzer.ShouldIncludeFile` and `Analyzer.RippleAnalyzer.FilterValidFiles` use the intended `**` (`MatchesPattern`), not the written one (`MatchesPatternAsWritten`). So on the include pattern `**/*.ts` the model keeps `src/a.ts`, where the written analyzer keeps no file and returns the empty success. The written glob is shown only by `Analyzer.DoubleStarFinding` and `Analyzer.AsWrittenDoubleStarNeedsDot`.
- `Analyzer.RippleAnalyzer.CollectIssues`, `Analyzer.RippleAnalyzer.Analyze` and `Analyzer.AnalysisFacts` use the intended `**` and the corrected function-signature `detect` (`FunctionSignature.Detected`). The written `detect` never reports an issue (`FunctionSignature.DetectedAsWrittenIsEmpty`), so with that rule on the written analyzer gets no signature issues where the model can.
- `Analyzer.AIIssue`: when no file is analysed, the AI issue's file (`undefined` in the source) is the empty path.
- `ToLower` in `Strings` folds ASCII letters only.
- `AstParser` models `parseImportStatement` but not the `extractImports`/`extractExports` traversals around it. `parseExportStatement` always returns an empty list. `getLineContext` is the node's text.
- `SimpleParser`'s syntax-tree branch of `parseParameters` is modelled (`ParseParameterNode`, through the `ast` argument of `ParseParametersSpec`), but `extractFunctions` never passes the file content that branch needs, so in the extractor only the regular-expression branch is reached.
- `AuthManager`: `isAuthenticated` and `getLicenseKey` only read `getStatus` and are not modelled. Neither are the caught exceptions of `getStatus` and `logout`, which come from I/O. `UsageTracker`'s `clearUsage` only deletes the file.
- The command line, git integration, configuration loading and feature flags are not part of this model. `Analyzer.Config` holds the configuration fields the analyzer reads.
- `AuthManager.LengthTenGap` proves that a ten-character key with only the general prefix passes the format check and is then refused. It is not listed as a finding, because the source does not say which of the two bounds is meant.

## Findings

| source | as written | input that shows it | evidently intended | confidence | as-written member | corrected member |
|---|---|---|---|---|---|---|
| src/detectors/function-signature-detector.ts:57 | `analyzeFile` passes `files`, a name not in scope there, to `findCallSites`. Any change found in a file throws a ReferenceError, which `detect` catches, so that file yields no issues. | a file defining a function with an `options` parameter that another file calls | the file list given to `detect` is used to look for call sites | not executed | FunctionSignature.DetectedAsWrittenIsEmpty, FunctionSignature.FilesScopeFinding | FunctionSignature.DetectedComplete, FunctionSignature.DetectedFacts |
| src/analysis/analyzer.ts:149-152 | `**` becomes `.*`; the next replacement turns that `*` into `[^/]*`, and the last escapes the `.`. So `**` ends up as a literal dot followed by a run without `/`. | the pattern `**/*.ts` on the path `src/a.ts` | `**` matches any run of characters, `/` included | not executed | Analyzer.DoubleStarFinding, Analyzer.AsWrittenDoubleStarNeedsDot | Analyzer.AnyRunSpec, Analyzer.AnyRunSkips |
