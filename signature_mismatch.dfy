/** The signature-mismatch detector (src/detectors/signature-mismatch-detector.ts): a call whose
    argument count the called exported function cannot accept is an issue, an error for too few
    arguments and a warning for too many. */
module SignatureMismatch {
  import opened Wrappers
  import opened Seqs
  import opened Strings
  import opened SyntaxTree
  import opened Types
  import opened EnhancedParser
  import opened Detectors

  function FunctionName(f: FunctionInfo): string
  {
    f.name
  }

  /** `isFunctionAccessible`: only exported functions count as callable across files. */
  predicate IsFunctionAccessible(f: FunctionInfo)
  {
    f.isExported
  }

  /** The definitions `createAccessibleFunctionMap` keeps. */
  predicate InAccessibleMap(f: FunctionInfo)
  {
    f.isExported || IsFunctionAccessible(f)
  }

  /** The map `createAccessibleFunctionMap` builds: the kept definitions grouped by name. */
  function AccessibleFunctionMap(functions: seq<FunctionInfo>): map<string, seq<FunctionInfo>>
  {
    GroupBy(Filter(functions, InAccessibleMap), FunctionName)
  }

  /** The exported definitions named `k`. */
  function ExportedNamed(k: string): FunctionInfo -> bool
  {
    (f: FunctionInfo) => f.isExported && f.name == k
  }

  /** `createAccessibleFunctionMap`: a `Map` filled in one pass over the definitions. */
  method CreateAccessibleFunctionMap(functions: seq<FunctionInfo>) returns (functionMap: map<string, seq<FunctionInfo>>)
    ensures functionMap == AccessibleFunctionMap(functions)
  {
    functionMap := map[];
    var i := 0;
    while i < |functions|
      invariant 0 <= i <= |functions|
      invariant functionMap == GroupBy(Filter(functions[..i], InAccessibleMap), FunctionName)
    {
      var func := functions[i];
      FilterStep(functions, i, InAccessibleMap);
      if func.isExported || IsFunctionAccessible(func) {
        ghost var before := functionMap;
        GroupBySnoc(Filter(functions[..i], InAccessibleMap), func, FunctionName);
        if func.name !in functionMap {
          functionMap := functionMap[func.name := []];
        }
        functionMap := functionMap[func.name := functionMap[func.name] + [func]];
        assert functionMap == before[func.name := (if func.name in before then before[func.name] else []) + [func]];
        assert Filter(functions[..i + 1], InAccessibleMap) == Filter(functions[..i], InAccessibleMap) + [func];
        assert functionMap == GroupBy(Filter(functions[..i + 1], InAccessibleMap), FunctionName);
      } else {
        assert Filter(functions[..i + 1], InAccessibleMap) == Filter(functions[..i], InAccessibleMap);
      }
      i := i + 1;
    }
    assert functions[..i] == functions;
  }

  /** The map has a key exactly for the names of exported definitions, and under each name
      holds exactly the exported definitions of that name, in input order. */
  lemma AccessibleFunctionMapSpec(functions: seq<FunctionInfo>, k: string)
    ensures k in AccessibleFunctionMap(functions) <==>
              exists i :: 0 <= i < |functions| && functions[i].isExported && functions[i].name == k
    ensures k in AccessibleFunctionMap(functions) ==>
              AccessibleFunctionMap(functions)[k] == Filter(functions, ExportedNamed(k))
  {
    var kept := Filter(functions, InAccessibleMap);
    GroupBySpec(kept, FunctionName, k);
    var named := (f: FunctionInfo) => f.name == k;
    WithKeyFilter(kept, FunctionName, k, named);
    FilterFilter(functions, InAccessibleMap, named, ExportedNamed(k));
    if exists i :: 0 <= i < |functions| && functions[i].isExported && functions[i].name == k {
      var i :| 0 <= i < |functions| && functions[i].isExported && functions[i].name == k;
      FilterMembership(functions, InAccessibleMap, functions[i]);
    }
    if exists i :: 0 <= i < |kept| && kept[i].name == k {
      var i :| 0 <= i < |kept| && kept[i].name == k;
      FilterMembership(functions, InAccessibleMap, kept[i]);
    }
  }

  /** `findRelevantDefinition`: the first definition in the calling file, else the first
      exported one, else the first one; `null` only for an empty list. */
  function FindRelevantDefinition(definitions: seq<FunctionInfo>, fromFile: string): (r: Option<FunctionInfo>)
    ensures r.Some? <==> definitions != []
    ensures r.Some? ==> r.value in definitions
  {
    var sameFile := (d: FunctionInfo) => d.file == fromFile;
    var exported := (d: FunctionInfo) => d.isExported;
    FirstIsEarliest(definitions, sameFile);
    FirstIsEarliest(definitions, exported);
    var sameFileDefinition := First(definitions, sameFile);
    if sameFileDefinition.Some? then sameFileDefinition
    else
      var exportedDefinition := First(definitions, exported);
      if exportedDefinition.Some? then exportedDefinition
      else if definitions == [] then None
      else Some(definitions[0])
  }

  /** The precedence of `findRelevantDefinition`, stated by position: the earliest definition
      in the calling file when there is one; otherwise the earliest exported one when there is
      one; otherwise the first definition. */
  lemma FindRelevantDefinitionSpec(definitions: seq<FunctionInfo>, fromFile: string)
    ensures var r := FindRelevantDefinition(definitions, fromFile);
      (exists i :: 0 <= i < |definitions| && definitions[i].file == fromFile) ==>
        exists k :: 0 <= k < |definitions| && r == Some(definitions[k]) && definitions[k].file == fromFile &&
          forall j :: 0 <= j < k ==> definitions[j].file != fromFile
    ensures var r := FindRelevantDefinition(definitions, fromFile);
      (forall i :: 0 <= i < |definitions| ==> definitions[i].file != fromFile) &&
      (exists i :: 0 <= i < |definitions| && definitions[i].isExported) ==>
        exists k :: 0 <= k < |definitions| && r == Some(definitions[k]) && definitions[k].isExported &&
          forall j :: 0 <= j < k ==> !definitions[j].isExported
    ensures var r := FindRelevantDefinition(definitions, fromFile);
      definitions != [] &&
      (forall i :: 0 <= i < |definitions| ==> definitions[i].file != fromFile && !definitions[i].isExported) ==>
        r == Some(definitions[0])
  {
    var sameFile := (d: FunctionInfo) => d.file == fromFile;
    var exported := (d: FunctionInfo) => d.isExported;
    FirstIsEarliest(definitions, sameFile);
    FirstIsEarliest(definitions, exported);
  }

  /** The argument counts a definition accepts. */
  datatype ExpectedArguments = ExpectedArguments(required: int, total: int, optional: int)

  /** `calculateExpectedArguments`: the required ones are at most all of them, and the rest
      are exactly the parameters that may be left out. */
  function CalculateExpectedArguments(func: FunctionInfo): (r: ExpectedArguments)
    ensures 0 <= r.required <= r.total == |func.parameters|
    ensures r.required + r.optional == r.total
    ensures r.optional == |Filter(func.parameters, MayOmit)|
  {
    FilterComplement(func.parameters, IsRequired, MayOmit);
    var required := |RequiredParameters(func.parameters)|;
    var total := |func.parameters|;
    ExpectedArguments(required, total, total - required)
  }

  datatype MismatchType = TooFew | TooMany

  datatype Mismatch = Mismatch(kind: MismatchType, severity: Severity)

  /** `detectArgumentMismatch`: too few arguments is an error, too many a warning. */
  function DetectArgumentMismatch(actualArgs: int, expected: ExpectedArguments): (r: Option<Mismatch>)
    ensures r == Some(Mismatch(TooFew, Error)) <==> actualArgs < expected.required
    ensures r == Some(Mismatch(TooMany, Warning)) <==> expected.required <= actualArgs && actualArgs > expected.total
    ensures r.None? <==> expected.required <= actualArgs <= expected.total
  {
    if actualArgs < expected.required then Some(Mismatch(TooFew, Error))
    else if actualArgs > expected.total then Some(Mismatch(TooMany, Warning))
    else None
  }

  /** Against a definition's own counts the two mismatches are exclusive: too few exactly
      below the required count, too many exactly above the total, and none in between. */
  lemma DefinitionMismatch(actualArgs: int, func: FunctionInfo)
    ensures var e := CalculateExpectedArguments(func);
      var m := DetectArgumentMismatch(actualArgs, e);
      (m.Some? && m.value.kind == TooFew <==> actualArgs < e.required) &&
      (m.Some? && m.value.kind == TooMany <==> actualArgs > |func.parameters|) &&
      (m.None? <==> e.required <= actualArgs <= |func.parameters|)
  {
  }

  /** `call.argumentCount || call.arguments.length`. */
  function ActualArguments(call: Call): int
  {
    if call.argumentCount != 0 then call.argumentCount else |call.arguments|
  }

  /** One parameter in `getParameterSignature`: the name, `?` when it may be left out, then
      `: type` when it has one. */
  function ParameterText(p: Parameter): (r: string)
    ensures StartsWith(r, p.name)
    ensures (|r| > |p.name| && r[|p.name|] == '?') <==> MayOmit(p)
  {
    p.name + (if p.optional || Truthy(p.defaultValue) then "?" else "") +
    (if Truthy(p.typ) then ": " + p.typ.value else "")
  }

  /** `getParameterSignature`: the parameter texts joined with `, `. */
  function GetParameterSignature(parameters: seq<Parameter>): string
  {
    Join(seq(|parameters|, i requires 0 <= i < |parameters| => ParameterText(parameters[i])), ", ")
  }

  /** `argument` or `arguments`, after a count. */
  function Arguments(n: int): string
  {
    if n != 1 then "arguments" else "argument"
  }

  /** The first suggestion: how many arguments to add or remove. */
  function CountSuggestion(actualArgs: int, expected: ExpectedArguments, kind: MismatchType): string
  {
    if kind == TooFew then "Add " + IntToString(expected.required - actualArgs) + " missing argument(s)"
    else "Remove " + IntToString(actualArgs - expected.total) + " extra argument(s)"
  }

  /** `createSignatureMismatchIssue`. */
  function CreateSignatureMismatchIssue(call: Call, func: FunctionInfo, actualArgs: int, expected: ExpectedArguments,
                                        mismatch: Mismatch, filePath: string): (r: Issue)
    ensures r.kind == SignatureMismatch && r.severity == mismatch.severity && r.file == filePath
    ensures r.line == Some(call.line) && r.column == Some(call.column) && r.confidence == 0.95
    ensures r.details.functionName == Some(func.name)
    ensures |r.suggestions| == 4 && r.suggestions[0] == CountSuggestion(actualArgs, expected, mismatch.kind)
  {
    var functionName := func.name;
    var message :=
      "Function '" + functionName + "' called with " + IntToString(actualArgs) + " " + Arguments(actualArgs) +
      (if mismatch.kind == TooFew then ", but expects " + IntToString(expected.required) + "."
       else ", but only accepts " + IntToString(expected.total) + ".");
    var signature := GetParameterSignature(func.parameters);
    var definition := func.file + ":" + IntToString(func.line);
    Issue(
      SignatureMismatch, mismatch.severity, message, filePath, Some(call.line), Some(call.column),
      NoDetails().(functionName := Some(functionName), expectedArgs := Some(expected.required),
                   actualArgs := Some(actualArgs), totalParams := Some(expected.total),
                   optionalParams := Some(expected.optional), codeSnippet := Some(call.context),
                   functionDefinition := Some(definition), parameterSignature := Some(signature)),
      [CountSuggestion(actualArgs, expected, mismatch.kind),
       "Function signature: " + functionName + "(" + signature + ")",
       "Check function definition at " + definition,
       "This may be an AI-generated call that doesn't match the function signature"],
      0.95)
  }

  /** `checkSignatureMismatch`: the issue for one call, if any. */
  function CheckSignatureMismatch(call: Call, functionMap: map<string, seq<FunctionInfo>>, filePath: string): Option<Issue>
  {
    var functionName := ExtractFunctionName(call.name);
    var actualArgs := ActualArguments(call);
    if functionName !in functionMap || functionMap[functionName] == [] then None
    else match FindRelevantDefinition(functionMap[functionName], filePath)
      case None => None
      case Some(definition) =>
        var expected := CalculateExpectedArguments(definition);
        match DetectArgumentMismatch(actualArgs, expected)
        case None => None
        case Some(mismatch) => Some(CreateSignatureMismatchIssue(call, definition, actualArgs, expected, mismatch, filePath))
  }

  /** A call is reported exactly when its base name has a definition in the map and the
      relevant one cannot take the call's argument count. */
  lemma CheckSignatureMismatchReports(call: Call, functionMap: map<string, seq<FunctionInfo>>, filePath: string)
    ensures var name := ExtractFunctionName(call.name);
      name !in functionMap || functionMap[name] == [] ==> CheckSignatureMismatch(call, functionMap, filePath).None?
    ensures var name := ExtractFunctionName(call.name);
      name in functionMap && functionMap[name] != [] ==>
        var def := FindRelevantDefinition(functionMap[name], filePath).value;
        var actual := ActualArguments(call);
        (CheckSignatureMismatch(call, functionMap, filePath).Some? <==>
           actual < |RequiredParameters(def.parameters)| || actual > |def.parameters|)
  {
  }

  /** A reported issue is an error for too few arguments and a warning for too many, sits at
      the call, and its first suggestion names the (positive) number of arguments to add or
      remove. */
  lemma CheckSignatureMismatchIssue(call: Call, functionMap: map<string, seq<FunctionInfo>>, filePath: string)
    requires CheckSignatureMismatch(call, functionMap, filePath).Some?
    ensures var name := ExtractFunctionName(call.name);
      name in functionMap && functionMap[name] != [] &&
      var def := FindRelevantDefinition(functionMap[name], filePath).value;
      var actual := ActualArguments(call);
      var required := |RequiredParameters(def.parameters)|;
      var total := |def.parameters|;
      var issue := CheckSignatureMismatch(call, functionMap, filePath).value;
      issue.kind == SignatureMismatch && issue.file == filePath && issue.confidence == 0.95 &&
      issue.line == Some(call.line) && issue.column == Some(call.column) &&
      issue.details.functionName == Some(def.name) &&
      (actual < required ==>
         issue.severity == Error && 0 < required - actual &&
         issue.suggestions[0] == "Add " + IntToString(required - actual) + " missing argument(s)") &&
      (actual > total ==>
         issue.severity == Warning && 0 < actual - total &&
         issue.suggestions[0] == "Remove " + IntToString(actual - total) + " extra argument(s)")
  {
    var name := ExtractFunctionName(call.name);
    var def := FindRelevantDefinition(functionMap[name], filePath).value;
    var actual := ActualArguments(call);
    var expected := CalculateExpectedArguments(def);
    var mismatch := DetectArgumentMismatch(actual, expected).value;
    var issue := CheckSignatureMismatch(call, functionMap, filePath).value;
    assert issue == CreateSignatureMismatchIssue(call, def, actual, expected, mismatch, filePath);
    assert issue.suggestions[0] == CountSuggestion(actual, expected, mismatch.kind);
    if actual < expected.required {
      assert mismatch == Mismatch(TooFew, Error);
    } else {
      assert mismatch == Mismatch(TooMany, Warning);
    }
  }

  /** The check applied to each call of `filePath`. */
  function CheckIn(functionMap: map<string, seq<FunctionInfo>>, filePath: string): Call -> Option<Issue>
  {
    (c: Call) => CheckSignatureMismatch(c, functionMap, filePath)
  }

  /** `analyzeFileForSignatureMismatches` with the parser's tree-sitter in use when `treeOn`. */
  function FileIssues(fs: FileSystem, filePath: string, treeOn: bool, functionMap: map<string, seq<FunctionInfo>>): seq<Issue>
  {
    if !IsAnalysedFile(fs, filePath) then []
    else FilterMap(FallbackCalls(treeOn, fs[filePath].content, filePath, fs[filePath].syntax), CheckIn(functionMap, filePath))
  }

  function FileIssuesOf(fs: FileSystem, treeOn: bool, functionMap: map<string, seq<FunctionInfo>>): string -> seq<Issue>
  {
    (f: string) => FileIssues(fs, f, treeOn, functionMap)
  }

  /** `detect(files, functions)`: nothing without definitions; otherwise each file's issues,
      in file order. */
  function DetectIssues(files: seq<string>, functions: Option<seq<FunctionInfo>>, fs: FileSystem, treeOn: bool): seq<Issue>
  {
    match functions
    case None => []
    case Some(defs) => FlatMap(files, FileIssuesOf(fs, treeOn, AccessibleFunctionMap(defs)))
  }

  /** Every issue the detector reports comes from a call in an analysed file among `files`
      to a name with an exported definition, and sits in that file. */
  lemma DetectIssuesFacts(files: seq<string>, defs: seq<FunctionInfo>, fs: FileSystem, treeOn: bool, issue: Issue)
    requires issue in DetectIssues(files, Some(defs), fs, treeOn)
    ensures issue.file in files && IsAnalysedFile(fs, issue.file)
    ensures issue.kind == SignatureMismatch && issue.confidence == 0.95
  {
    var m := AccessibleFunctionMap(defs);
    FlatMapMembership(files, FileIssuesOf(fs, treeOn, m), issue);
    var i :| 0 <= i < |files| && issue in FileIssues(fs, files[i], treeOn, m);
    var calls := FallbackCalls(treeOn, fs[files[i]].content, files[i], fs[files[i]].syntax);
    FilterMapMembership(calls, CheckIn(m, files[i]), issue);
    var j :| 0 <= j < |calls| && CheckSignatureMismatch(calls[j], m, files[i]) == Some(issue);
    CheckSignatureMismatchIssue(calls[j], m, files[i]);
  }

  /** The loop of `analyzeFileForSignatureMismatches` over a file's calls. */
  method CheckCalls(functionCalls: seq<Call>, functionMap: map<string, seq<FunctionInfo>>, filePath: string) returns (issues: seq<Issue>)
    ensures issues == FilterMap(functionCalls, CheckIn(functionMap, filePath))
  {
    issues := [];
    var i := 0;
    while i < |functionCalls|
      invariant 0 <= i <= |functionCalls|
      invariant issues == FilterMap(functionCalls[..i], CheckIn(functionMap, filePath))
    {
      var mismatchIssue := CheckSignatureMismatch(functionCalls[i], functionMap, filePath);
      FilterMapStep(functionCalls, i, CheckIn(functionMap, filePath));
      if mismatchIssue.Some? {
        issues := issues + [mismatchIssue.value];
      }
      i := i + 1;
    }
    assert functionCalls[..i] == functionCalls;
  }

  /** `SignatureMismatchDetector`, which owns a parser built with tree-sitter requested and
      fallback on. */
  class SignatureMismatchDetector {
    const parser: EnhancedASTParser

    /** `new SignatureMismatchDetector()`; `treeSitterLoads` says whether tree-sitter can be
        set up. */
    constructor(treeSitterLoads: bool)
      ensures fresh(parser) && parser.Valid() && parser.fallbackToRegex && !parser.debugMode
      ensures parser.useTreeSitter == treeSitterLoads
    {
      parser := new EnhancedASTParser(Some(true), Some(true), Some(false), treeSitterLoads);
    }

    /** `analyzeFileForSignatureMismatches`. */
    method AnalyzeFile(filePath: string, functionMap: map<string, seq<FunctionInfo>>, fs: FileSystem) returns (issues: seq<Issue>)
      requires parser.fallbackToRegex
      ensures issues == FileIssues(fs, filePath, parser.useTreeSitter && parser.hasTreeParser, functionMap)
    {
      issues := [];
      if !(filePath in fs && IsJavaScriptPath(filePath)) {
        return;
      }
      var extracted := parser.ExtractFunctionCalls(fs[filePath].content, filePath, fs[filePath].syntax);
      issues := CheckCalls(extracted.value, functionMap, filePath);
    }

    /** The loop of `detect` over the files, each analysed on its own. */
    method AnalyzeFiles(files: seq<string>, functionMap: map<string, seq<FunctionInfo>>, fs: FileSystem) returns (issues: seq<Issue>)
      requires parser.fallbackToRegex
      ensures issues == FlatMap(files, FileIssuesOf(fs, parser.useTreeSitter && parser.hasTreeParser, functionMap))
    {
      issues := [];
      var i := 0;
      while i < |files|
        invariant 0 <= i <= |files|
        invariant issues == FlatMap(files[..i], FileIssuesOf(fs, parser.useTreeSitter && parser.hasTreeParser, functionMap))
      {
        var fileIssues := AnalyzeFile(files[i], functionMap, fs);
        FlatMapStep(files, i, FileIssuesOf(fs, parser.useTreeSitter && parser.hasTreeParser, functionMap));
        issues := issues + fileIssues;
        i := i + 1;
      }
      assert files[..i] == files;
    }

    /** `detect(files, functions)`. */
    method Detect(files: seq<string>, functions: Option<seq<FunctionInfo>>, fs: FileSystem) returns (issues: seq<Issue>)
      requires parser.fallbackToRegex
      ensures issues == DetectIssues(files, functions, fs, parser.useTreeSitter && parser.hasTreeParser)
      ensures functions.None? ==> issues == []
    {
      if functions.None? {
        return [];
      }
      var functionMap := CreateAccessibleFunctionMap(functions.value);
      issues := AnalyzeFiles(files, functionMap, fs);
    }
  }
}
