/** The stale-reference detector (src/detectors/stale-reference-detector.ts): a call to a name
    with no definition the calling file can reach is an error. */
module StaleReference {
  import opened Wrappers
  import opened Seqs
  import opened Strings
  import opened SyntaxTree
  import opened Types
  import opened EnhancedParser
  import opened Detectors

  function FunctionName(f: FunctionInfo): string
  {
    f.name
  }

  /** The map `createFunctionMap` builds: every definition under its name. */
  function FunctionMap(functions: seq<FunctionInfo>): map<string, seq<FunctionInfo>>
  {
    GroupBy(functions, FunctionName)
  }

  /** The definitions named `k`. */
  function Named(k: string): FunctionInfo -> bool
  {
    (f: FunctionInfo) => f.name == k
  }

  /** `createFunctionMap`: a `Map` filled in one pass over the definitions. */
  method CreateFunctionMap(functions: seq<FunctionInfo>) returns (functionMap: map<string, seq<FunctionInfo>>)
    ensures functionMap == FunctionMap(functions)
  {
    functionMap := map[];
    var i := 0;
    while i < |functions|
      invariant 0 <= i <= |functions|
      invariant functionMap == GroupBy(functions[..i], FunctionName)
    {
      var func := functions[i];
      assert functions[..i + 1] == functions[..i] + [func];
      GroupBySnoc(functions[..i], func, FunctionName);
      if func.name !in functionMap {
        functionMap := functionMap[func.name := []];
      }
      functionMap := functionMap[func.name := functionMap[func.name] + [func]];
      i := i + 1;
    }
    assert functions[..i] == functions;
  }

  /** Every definition is placed once, under its own name, in input order: the map has a key
      exactly for the names that occur, holding exactly the definitions of that name. */
  lemma FunctionMapSpec(functions: seq<FunctionInfo>, k: string)
    ensures k in FunctionMap(functions) <==> exists i :: 0 <= i < |functions| && functions[i].name == k
    ensures k in FunctionMap(functions) ==> FunctionMap(functions)[k] == Filter(functions, Named(k))
  {
    GroupBySpec(functions, FunctionName, k);
    WithKeyFilter(functions, FunctionName, k, Named(k));
  }

  /** The names `analyzeFileForStaleReferences` never reports, compared with the call's full name. */
  const KnownGlobals: set<string> :=
    {"fetch", "console", "setTimeout", "clearTimeout", "Math", "Date", "Object", "Array", "Number", "String"}

  /** A definition the file `fromFile` can reach: one in that file, or an exported one. */
  predicate IsAccessibleFrom(func: FunctionInfo, fromFile: string)
  {
    if func.file == fromFile then true else func.isExported
  }

  function AccessibleFrom(fromFile: string): FunctionInfo -> bool
  {
    (f: FunctionInfo) => IsAccessibleFrom(f, fromFile)
  }

  /** `filterAccessibleFunctions`. */
  function FilterAccessibleFunctions(definitions: seq<FunctionInfo>, fromFile: string): seq<FunctionInfo>
  {
    Filter(definitions, AccessibleFrom(fromFile))
  }

  /** The reachable definitions are an order-preserving sublist of the input holding exactly
      the input's definitions in the same file or exported. */
  lemma FilterAccessibleFunctionsSpec(definitions: seq<FunctionInfo>, fromFile: string, f: FunctionInfo)
    ensures IsSubsequence(FilterAccessibleFunctions(definitions, fromFile), definitions)
    ensures f in FilterAccessibleFunctions(definitions, fromFile) <==>
              f in definitions && (f.file == fromFile || f.isExported)
  {
    FilterIsSubsequence(definitions, AccessibleFrom(fromFile));
    FilterMembership(definitions, AccessibleFrom(fromFile), f);
  }

  /** `createStaleReferenceIssue`. */
  function CreateStaleReferenceIssue(call: Call, functionName: string, filePath: string): (r: Issue)
    ensures r.kind == StaleReference && r.severity == Error && r.confidence == 0.9 && r.file == filePath
    ensures r.line == Some(call.line) && r.column == Some(call.column)
    ensures r.details.functionName == Some(functionName)
  {
    Issue(
      StaleReference, Error, "Function '" + functionName + "' is called but is no longer defined in scope.",
      filePath, Some(call.line), Some(call.column),
      NoDetails().(functionName := Some(functionName), context := Some(call.context), codeSnippet := Some(call.context),
                   callSite := Some(filePath + ":" + IntToString(call.line) + ":" + IntToString(call.column))),
      ["Verify that '" + functionName + "' is still defined and exported",
       "Check if the function was renamed or moved to a different file",
       "Ensure proper import statements if function is in another module",
       "This may be an AI-generated change that broke existing references"],
      0.9)
  }

  /** No definition of `name` the file `filePath` can reach: none at all, or none in that file
      or exported. */
  predicate NoReachableDefinition(name: string, definedFunctions: map<string, seq<FunctionInfo>>, filePath: string)
  {
    name !in definedFunctions || definedFunctions[name] == [] ||
    FilterAccessibleFunctions(definedFunctions[name], filePath) == []
  }

  /** `checkForStaleReference`: an issue when the base name has no definitions, or none the
      file can reach. */
  function CheckForStaleReference(call: Call, definedFunctions: map<string, seq<FunctionInfo>>, filePath: string): (r: Option<Issue>)
    ensures r.Some? <==> NoReachableDefinition(ExtractFunctionName(call.name), definedFunctions, filePath)
  {
    var functionName := ExtractFunctionName(call.name);
    if functionName !in definedFunctions || definedFunctions[functionName] == [] then
      Some(CreateStaleReferenceIssue(call, functionName, filePath))
    else if FilterAccessibleFunctions(definedFunctions[functionName], filePath) == [] then
      Some(CreateStaleReferenceIssue(call, functionName, filePath))
    else None
  }

  /** The body of `analyzeFileForStaleReferences`' loop: known globals are skipped. */
  function CheckCall(call: Call, definedFunctions: map<string, seq<FunctionInfo>>, filePath: string): Option<Issue>
  {
    if call.name in KnownGlobals then None else CheckForStaleReference(call, definedFunctions, filePath)
  }

  /** A reported call gets an error at the call naming its base name, with confidence 0.9. */
  lemma CheckCallIssue(call: Call, definedFunctions: map<string, seq<FunctionInfo>>, filePath: string)
    requires CheckCall(call, definedFunctions, filePath).Some?
    ensures var issue := CheckCall(call, definedFunctions, filePath).value;
      call.name !in KnownGlobals &&
      issue.kind == StaleReference && issue.severity == Error && issue.confidence == 0.9 &&
      issue.file == filePath && issue.line == Some(call.line) && issue.column == Some(call.column) &&
      issue.details.functionName == Some(ExtractFunctionName(call.name))
  {
  }

  /** Against the map of all definitions, no definition of `name` is reachable from `filePath`
      exactly when every definition with that name is in another file and not exported. */
  lemma NoReachableDefinitionSpec(name: string, functions: seq<FunctionInfo>, filePath: string)
    ensures NoReachableDefinition(name, FunctionMap(functions), filePath) <==>
      forall i :: 0 <= i < |functions| && functions[i].name == name ==>
        functions[i].file != filePath && !functions[i].isExported
  {
    var m := FunctionMap(functions);
    FunctionMapSpec(functions, name);
    if name in m {
      var accessible := FilterAccessibleFunctions(m[name], filePath);
      forall i | 0 <= i < |functions| && functions[i].name == name
        ensures functions[i] in m[name]
      {
        FilterMembership(functions, Named(name), functions[i]);
      }
      forall f: FunctionInfo | f in m[name]
        ensures f.name == name
      {
        FilterMembership(functions, Named(name), f);
      }
      if accessible != [] {
        var f := accessible[0];
        FilterAccessibleFunctionsSpec(m[name], filePath, f);
        var i :| 0 <= i < |functions| && functions[i] == f by {
          FilterMembership(functions, Named(name), f);
        }
      } else {
        forall i | 0 <= i < |functions| && functions[i].name == name
          ensures functions[i].file != filePath && !functions[i].isExported
        {
          FilterAccessibleFunctionsSpec(m[name], filePath, functions[i]);
        }
      }
    }
  }

  /** Against the map of all definitions, a call is reported exactly when its full name is not
      a known global and no definition with its base name is in the calling file or exported. */
  lemma CheckCallSpec(call: Call, functions: seq<FunctionInfo>, filePath: string)
    ensures var name := ExtractFunctionName(call.name);
      CheckCall(call, FunctionMap(functions), filePath).Some? <==>
        call.name !in KnownGlobals &&
        forall i :: 0 <= i < |functions| && functions[i].name == name ==>
          functions[i].file != filePath && !functions[i].isExported
  {
    NoReachableDefinitionSpec(ExtractFunctionName(call.name), functions, filePath);
  }

  function CheckIn(definedFunctions: map<string, seq<FunctionInfo>>, filePath: string): Call -> Option<Issue>
  {
    (c: Call) => CheckCall(c, definedFunctions, filePath)
  }

  /** `analyzeFileForStaleReferences` with the parser's tree-sitter in use when `treeOn`. */
  function FileIssues(fs: FileSystem, filePath: string, treeOn: bool, definedFunctions: map<string, seq<FunctionInfo>>): seq<Issue>
  {
    if !IsAnalysedFile(fs, filePath) then []
    else FilterMap(FallbackCalls(treeOn, fs[filePath].content, filePath, fs[filePath].syntax), CheckIn(definedFunctions, filePath))
  }

  function FileIssuesOf(fs: FileSystem, treeOn: bool, definedFunctions: map<string, seq<FunctionInfo>>): string -> seq<Issue>
  {
    (f: string) => FileIssues(fs, f, treeOn, definedFunctions)
  }

  /** `detect(files, functions)`: nothing without definitions; otherwise each file's issues,
      in file order, then call order. */
  function DetectIssues(files: seq<string>, functions: Option<seq<FunctionInfo>>, fs: FileSystem, treeOn: bool): seq<Issue>
  {
    match functions
    case None => []
    case Some(defs) => FlatMap(files, FileIssuesOf(fs, treeOn, FunctionMap(defs)))
  }

  /** Every issue comes from a call, not to a known global, in an analysed file among `files`,
      and is reported there as an error. */
  lemma DetectIssuesFacts(files: seq<string>, defs: seq<FunctionInfo>, fs: FileSystem, treeOn: bool, issue: Issue)
    requires issue in DetectIssues(files, Some(defs), fs, treeOn)
    ensures issue.file in files && IsAnalysedFile(fs, issue.file)
    ensures exists c :: c in FallbackCalls(treeOn, fs[issue.file].content, issue.file, fs[issue.file].syntax) &&
              c.name !in KnownGlobals && issue.line == Some(c.line) && issue.column == Some(c.column)
    ensures issue.kind == StaleReference && issue.severity == Error && issue.confidence == 0.9
  {
    var m := FunctionMap(defs);
    FlatMapMembership(files, FileIssuesOf(fs, treeOn, m), issue);
    var i :| 0 <= i < |files| && issue in FileIssues(fs, files[i], treeOn, m);
    var calls := FallbackCalls(treeOn, fs[files[i]].content, files[i], fs[files[i]].syntax);
    FilterMapMembership(calls, CheckIn(m, files[i]), issue);
    var j :| 0 <= j < |calls| && CheckCall(calls[j], m, files[i]) == Some(issue);
    CheckCallIssue(calls[j], m, files[i]);
    assert calls[j] in calls;
  }

  /** The loop of `analyzeFileForStaleReferences` over a file's calls. */
  method CheckCalls(functionCalls: seq<Call>, definedFunctions: map<string, seq<FunctionInfo>>, filePath: string) returns (issues: seq<Issue>)
    ensures issues == FilterMap(functionCalls, CheckIn(definedFunctions, filePath))
  {
    issues := [];
    var i := 0;
    while i < |functionCalls|
      invariant 0 <= i <= |functionCalls|
      invariant issues == FilterMap(functionCalls[..i], CheckIn(definedFunctions, filePath))
    {
      var call := functionCalls[i];
      FilterMapStep(functionCalls, i, CheckIn(definedFunctions, filePath));
      if call.name !in KnownGlobals {
        var staleIssue := CheckForStaleReference(call, definedFunctions, filePath);
        if staleIssue.Some? {
          issues := issues + [staleIssue.value];
        }
      }
      i := i + 1;
    }
    assert functionCalls[..i] == functionCalls;
  }

  /** `StaleReferenceDetector`, which owns a parser built with tree-sitter requested and
      fallback on. */
  class StaleReferenceDetector {
    const parser: EnhancedASTParser

    /** `new StaleReferenceDetector()`; `treeSitterLoads` says whether tree-sitter can be set up. */
    constructor(treeSitterLoads: bool)
      ensures fresh(parser) && parser.Valid() && parser.fallbackToRegex && !parser.debugMode
      ensures parser.useTreeSitter == treeSitterLoads
    {
      parser := new EnhancedASTParser(Some(true), Some(true), Some(false), treeSitterLoads);
    }

    /** `analyzeFileForStaleReferences`. */
    method AnalyzeFile(filePath: string, definedFunctions: map<string, seq<FunctionInfo>>, fs: FileSystem) returns (issues: seq<Issue>)
      requires parser.fallbackToRegex
      ensures issues == FileIssues(fs, filePath, parser.useTreeSitter && parser.hasTreeParser, definedFunctions)
    {
      issues := [];
      if !(filePath in fs && IsJavaScriptPath(filePath)) {
        return;
      }
      var extracted := parser.ExtractFunctionCalls(fs[filePath].content, filePath, fs[filePath].syntax);
      issues := CheckCalls(extracted.value, definedFunctions, filePath);
    }

    /** The loop of `detect` over the files; a file that cannot be read adds nothing. */
    method AnalyzeFiles(files: seq<string>, definedFunctions: map<string, seq<FunctionInfo>>, fs: FileSystem) returns (issues: seq<Issue>)
      requires parser.fallbackToRegex
      ensures issues == FlatMap(files, FileIssuesOf(fs, parser.useTreeSitter && parser.hasTreeParser, definedFunctions))
    {
      issues := [];
      var i := 0;
      while i < |files|
        invariant 0 <= i <= |files|
        invariant issues == FlatMap(files[..i], FileIssuesOf(fs, parser.useTreeSitter && parser.hasTreeParser, definedFunctions))
      {
        var fileIssues := AnalyzeFile(files[i], definedFunctions, fs);
        FlatMapStep(files, i, FileIssuesOf(fs, parser.useTreeSitter && parser.hasTreeParser, definedFunctions));
        issues := issues + fileIssues;
        i := i + 1;
      }
      assert files[..i] == files;
    }

    /** `detect(files, functions)`. */
    method Detect(files: seq<string>, functions: Option<seq<FunctionInfo>>, fs: FileSystem) returns (issues: seq<Issue>)
      requires parser.fallbackToRegex
      ensures issues == DetectIssues(files, functions, fs, parser.useTreeSitter && parser.hasTreeParser)
      ensures functions.None? ==> issues == []
    {
      if functions.None? {
        return [];
      }
      var definedFunctions := CreateFunctionMap(functions.value);
      issues := AnalyzeFiles(files, definedFunctions, fs);
    }
  }
}
