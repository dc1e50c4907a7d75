/** The records of src/types/analysis.ts that the checker passes around, the call records the
    parsers produce, and the file system the detectors read. */
module Types {
  import opened Wrappers
  import opened Seqs
  import opened Strings
  import opened SyntaxTree

  /** A declared parameter. `typ` is the TypeScript annotation text, when there is one. */
  datatype Parameter = Parameter(name: string, typ: Option<string>, optional: bool, defaultValue: Option<string>)

  /** A function, arrow function or method definition found in a file. */
  datatype FunctionInfo = FunctionInfo(
    name: string,
    parameters: seq<Parameter>,
    returnType: Option<string>,
    file: string,
    line: int,
    column: int,
    isExported: bool,
    isAsync: bool,
    isArrow: bool)

  /** A call found by a line-based or syntax-tree scan, without its arguments. */
  datatype CallSite = CallSite(name: string, file: string, line: int, column: int, context: string)

  datatype CallType = FunctionCall | MethodCall | ConstructorCall

  /** A call with its argument texts, as the hybrid parser reports it. */
  datatype Call = Call(
    name: string,
    file: string,
    line: int,
    column: int,
    context: string,
    arguments: seq<string>,
    argumentCount: int,
    callType: CallType)

  datatype ImportInfo = ImportInfo(
    importName: string,
    modulePath: string,
    isDefault: bool,
    isNamespace: bool,
    file: string,
    line: int,
    column: int)

  datatype ExportInfo = ExportInfo(
    exportName: string,
    isDefault: bool,
    file: string,
    line: int,
    column: int,
    typ: Option<string>)

  datatype Severity = Error | Warning

  /** The `type` of an issue: the six kinds of the declared union, and the three kinds the
      newer detectors emit although the union does not list them. */
  datatype IssueKind =
    | FunctionSignatureChange
    | ImportExportMismatch
    | TypeMismatch
    | CascadingChange
    | TestBreak
    | AIPatternDetected
    | SignatureMismatch
    | StaleReference
    | MissingExport

  datatype AffectedFile = AffectedFile(path: string, line: int, column: Option<int>, context: string, suggestion: Option<string>)

  /** The open-ended `details` record: the declared optional fields, then the ones the
      detectors add beside them (argument counts, definition and call locations, `isDefault`). */
  datatype IssueDetails = IssueDetails(
    functionName: Option<string>,
    oldSignature: Option<string>,
    newSignature: Option<string>,
    affectedFiles: Option<seq<AffectedFile>>,
    importName: Option<string>,
    exportName: Option<string>,
    modulePath: Option<string>,
    availableExports: Option<seq<string>>,
    typeName: Option<string>,
    expectedType: Option<string>,
    actualType: Option<string>,
    aiPatterns: Option<seq<string>>,
    aiConfidence: Option<real>,
    breakingChangeType: Option<string>,
    treeSitterDetected: Option<bool>,
    context: Option<string>,
    codeSnippet: Option<string>,
    expectedArgs: Option<int>,
    actualArgs: Option<int>,
    totalParams: Option<int>,
    optionalParams: Option<int>,
    functionDefinition: Option<string>,
    parameterSignature: Option<string>,
    callSite: Option<string>,
    isDefault: Option<bool>)

  /** Details with every field absent; detectors fill in the fields they set. */
  function NoDetails(): IssueDetails
  {
    IssueDetails(None, None, None, None, None, None, None, None, None, None, None, None, None,
                 None, None, None, None, None, None, None, None, None, None, None, None)
  }

  /** A reported issue. The generated `id` (built from `Date.now()`) is not modelled. */
  datatype Issue = Issue(
    kind: IssueKind,
    severity: Severity,
    message: string,
    file: string,
    line: Option<int>,
    column: Option<int>,
    details: IssueDetails,
    suggestions: seq<string>,
    confidence: real)

  /** JavaScript truthiness of an optional string: defined and non-empty. */
  predicate Truthy(s: Option<string>)
  {
    s.Some? && s.value != ""
  }

  /** A parameter callers must supply: `!p.optional && !p.defaultValue`. */
  predicate IsRequired(p: Parameter)
  {
    !p.optional && !Truthy(p.defaultValue)
  }

  /** A parameter callers may leave out: optional, or with a default value. */
  predicate MayOmit(p: Parameter)
  {
    p.optional || Truthy(p.defaultValue)
  }

  /** The parameters callers must supply, in order
      (`parameters.filter(p => !p.optional && !p.defaultValue)`). */
  function RequiredParameters(parameters: seq<Parameter>): seq<Parameter>
  {
    Filter(parameters, IsRequired)
  }

  /** A file on disk: its text, and the syntax tree tree-sitter builds for it with the grammar
      its extension selects (`None` when parsing throws). */
  datatype SourceFile = SourceFile(content: string, syntax: Option<Node>)

  /** The files the analysis can read; reading a path outside the map throws. */
  type FileSystem = map<string, SourceFile>

  /** `path.extname`: the part of the last path segment from its last `.`, unless that dot
      begins the segment, in which case there is no extension. */
  function Extname(path: string): (r: string)
    ensures r == [] || (r[0] == '.' && EndsWith(path, r))
  {
    var slash := LastIndexOfChar(path, '/');
    var dot := LastIndexOfChar(path, '.');
    if dot <= slash + 1 then "" else path[dot..]
  }

  /** `FileUtils.getFileInfo(...).isJavaScript`: the extension is `.js`, `.jsx`, `.ts` or `.tsx`. */
  predicate IsJavaScriptPath(path: string)
  {
    Extname(path) in {".js", ".jsx", ".ts", ".tsx"}
  }

  /** `Math.min` on two numbers. */
  function MinReal(a: real, b: real): real
  {
    if a <= b then a else b
  }

  /** `Math.round`: the nearest integer, halves rounded up. */
  function Round(x: real): int
  {
    (x + 0.5).Floor
  }
}
