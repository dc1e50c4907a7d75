/** The basic cross-file analyzer (src/analysis/basic-cross-file-analyzer.ts): the calls to
    each exported definition found in the other files are compared with its parameter list,
    and each call with too few or too many arguments is reported at the definition. */
module BasicCrossFile {
  import opened Wrappers
  import opened Seqs
  import opened Strings
  import opened Types
  import opened EnhancedParser
  import opened Detectors
  import SignatureMismatch

  // ---------------------------------------------------------------------------------------
  // Finding the calls

  /** A call site as `findCallsInOtherFiles` records it. */
  datatype CallSiteInfo = CallSiteInfo(file: string, line: int, column: int, context: string, argumentCount: nat)

  /** `isCallToFunction`: the same name, or a method call `obj.name`. */
  predicate IsCallToFunction(callName: string, functionName: string)
  {
    callName == functionName || EndsWith(callName, "." + functionName)
  }

  /** For a function name without `.`, a call targets it exactly when the call's base name,
      as the other detectors reduce it, is that name. */
  lemma IsCallToFunctionSpec(callName: string, functionName: string)
    requires '.' !in functionName
    ensures IsCallToFunction(callName, functionName) <==> ExtractFunctionName(callName) == functionName
  {
    ExtractFunctionNameSpec(callName);
    var l := LastIndexOfChar(callName, '.');
    if callName == functionName {
      LastIndexBeforeBelow(callName, '.', |callName|, 0);
    } else if EndsWith(callName, "." + functionName) {
      var i := |callName| - |functionName| - 1;
      assert callName[i] == ("." + functionName)[0];
      forall k | i + 1 <= k < |callName|
        ensures callName[k] != '.'
      {
        assert callName[k] == ("." + functionName)[k - i] == functionName[k - i - 1];
      }
      LastIndexBeforeAtLeast(callName, '.', |callName|, i);
      LastIndexBeforeBelow(callName, '.', |callName|, i + 1);
      assert callName[i + 1..] == functionName;
    }
    if ExtractFunctionName(callName) == functionName && callName != functionName {
      assert callName[l..] == [callName[l]] + callName[l + 1..];
    }
  }

  /** The call site recorded for a call, when it calls `functionName`; the argument count is
      the number of argument texts. */
  function SiteOf(functionName: string): Call -> Option<CallSiteInfo>
  {
    (c: Call) =>
      if IsCallToFunction(c.name, functionName) then Some(CallSiteInfo(c.file, c.line, c.column, c.context, |c.arguments|))
      else None
  }

  /** The call sites of `func` in one file: none in its own file, or in a file that cannot be
      read or is not JavaScript. */
  function FileCallSites(func: FunctionInfo, fs: FileSystem, treeOn: bool, file: string): seq<CallSiteInfo>
  {
    if file == func.file || !IsAnalysedFile(fs, file) then []
    else FilterMap(FallbackCalls(treeOn, fs[file].content, file, fs[file].syntax), SiteOf(func.name))
  }

  function CallSitesIn(func: FunctionInfo, fs: FileSystem, treeOn: bool): string -> seq<CallSiteInfo>
  {
    (file: string) => FileCallSites(func, fs, treeOn, file)
  }

  /** What `findCallsInOtherFiles` returns: the call sites, in file order, then call order. */
  function CallsInOtherFiles(func: FunctionInfo, allFiles: seq<string>, fs: FileSystem, treeOn: bool): seq<CallSiteInfo>
  {
    FlatMap(allFiles, CallSitesIn(func, fs, treeOn))
  }

  /** Every call site lies in an analysed file among `allFiles` other than the defining one,
      and is a call there that targets the function, with its position and argument count. */
  lemma CallsInOtherFilesFacts(func: FunctionInfo, allFiles: seq<string>, fs: FileSystem, treeOn: bool, site: CallSiteInfo)
    requires site in CallsInOtherFiles(func, allFiles, fs, treeOn)
    ensures site.file in allFiles && site.file != func.file && IsAnalysedFile(fs, site.file)
    ensures exists c :: c in FallbackCalls(treeOn, fs[site.file].content, site.file, fs[site.file].syntax) &&
              IsCallToFunction(c.name, func.name) && c.line == site.line && c.column == site.column &&
              |c.arguments| == site.argumentCount
  {
    FlatMapMembership(allFiles, CallSitesIn(func, fs, treeOn), site);
    var i :| 0 <= i < |allFiles| && site in CallSitesIn(func, fs, treeOn)(allFiles[i]);
    var file := allFiles[i];
    var calls := FallbackCalls(treeOn, fs[file].content, file, fs[file].syntax);
    FilterMapMembership(calls, SiteOf(func.name), site);
    var j :| 0 <= j < |calls| && SiteOf(func.name)(calls[j]) == Some(site);
    FallbackCallsFile(treeOn, fs[file].content, file, fs[file].syntax, calls[j]);
  }

  // ---------------------------------------------------------------------------------------
  // Comparing a call with the definition

  datatype MismatchType = MissingParameters | ExtraParameters

  /** The mismatch `compareSignatures` reports. */
  datatype Mismatch = Mismatch(kind: MismatchType, message: string, severity: Severity)

  /** The `type` string of a mismatch. */
  function MismatchTypeName(kind: MismatchType): string
  {
    match kind
    case MissingParameters => "missing-parameters"
    case ExtraParameters => "extra-parameters"
  }

  /** `compareSignatures`: too few arguments for the required parameters is an error, more
      arguments than parameters a warning. */
  function CompareSignatures(func: FunctionInfo, providedArgs: nat): Option<Mismatch>
  {
    var required := |RequiredParameters(func.parameters)|;
    if providedArgs < required then
      Some(Mismatch(MissingParameters,
                    "Function call missing " + IntToString(required - providedArgs) + " required parameter(s): " + func.name + "()",
                    Error))
    else if providedArgs > |func.parameters| then
      Some(Mismatch(ExtraParameters,
                    "Function call has " + IntToString(providedArgs - |func.parameters|) + " extra parameter(s): " + func.name + "()",
                    Warning))
    else None
  }

  /** The two mismatches are exclusive: missing parameters (an error) exactly below the
      required count, extra parameters (a warning) exactly above the parameter count, and no
      mismatch in between. */
  lemma CompareSignaturesSpec(func: FunctionInfo, providedArgs: nat)
    ensures var r := CompareSignatures(func, providedArgs);
      var required := |RequiredParameters(func.parameters)|;
      (r.Some? && r.value.kind == MissingParameters <==> providedArgs < required) &&
      (r.Some? && r.value.kind == ExtraParameters <==> providedArgs > |func.parameters|) &&
      (r.None? <==> required <= providedArgs <= |func.parameters|) &&
      (r.Some? ==> r.value.severity == if r.value.kind == MissingParameters then Error else Warning)
  {
  }

  /** The analyzer and the signature-mismatch detector classify a count the same way: a
      mismatch exactly when the detector finds one, with the same severity. */
  lemma CompareSignaturesAgrees(func: FunctionInfo, providedArgs: nat)
    ensures var r := CompareSignatures(func, providedArgs);
      var d := SignatureMismatch.DetectArgumentMismatch(providedArgs, SignatureMismatch.CalculateExpectedArguments(func));
      (r.Some? <==> d.Some?) && (r.Some? ==> r.value.severity == d.value.severity) &&
      (r.Some? ==> (r.value.kind == MissingParameters <==> d.value.kind == SignatureMismatch.TooFew))
  {
    var e := SignatureMismatch.CalculateExpectedArguments(func);
    assert e.required == |RequiredParameters(func.parameters)| && e.total == |func.parameters|;
  }

  // ---------------------------------------------------------------------------------------
  // Signatures and suggestions

  /** `arg1`, ..., `argn`. */
  function ArgNames(n: nat): (r: seq<string>)
    ensures |r| == n && forall i :: 0 <= i < n ==> r[i] == "arg" + NatToString(i + 1)
  {
    if n == 0 then [] else ArgNames(n - 1) + ["arg" + NatToString(n)]
  }

  /** `getSimpleSignature`: the placeholder names of the call's arguments. */
  function GetSimpleSignature(argCount: nat): string
  {
    if argCount == 0 then "" else Join(ArgNames(argCount), ", ")
  }

  /** The simple signature is empty exactly for no arguments, `arg1` for one, and each
      further argument appends `, argn`; so it lists `arg1` first and `argn` last. */
  lemma GetSimpleSignatureSpec(argCount: nat)
    ensures GetSimpleSignature(argCount) == "" <==> argCount == 0
    ensures argCount == 1 ==> GetSimpleSignature(argCount) == "arg1"
    ensures argCount > 1 ==>
      GetSimpleSignature(argCount) == GetSimpleSignature(argCount - 1) + ", " + "arg" + NatToString(argCount)
    ensures argCount > 0 ==>
      StartsWith(GetSimpleSignature(argCount), "arg1") && EndsWith(GetSimpleSignature(argCount), "arg" + NatToString(argCount))
  {
    if argCount > 0 {
      FirstArgName(argCount);
      JoinEnds(ArgNames(argCount), ", ");
    }
    if argCount > 1 {
      GetSimpleSignatureStep(argCount);
    }
  }

  lemma GetSimpleSignatureStep(n: nat)
    requires n > 1
    ensures GetSimpleSignature(n) == GetSimpleSignature(n - 1) + ", " + "arg" + NatToString(n)
  {
    var last := "arg" + NatToString(n);
    assert ArgNames(n) == ArgNames(n - 1) + [last];
    JoinSnoc(ArgNames(n - 1), last, ", ");
  }

  lemma FirstArgName(n: nat)
    requires n > 0
    ensures ArgNames(n)[0] == "arg1"
  {
    assert NatToString(1) == ['1'];
  }

  /** One parameter in `getParameterSignature`: the name, `?` when it may be left out, then
      `: ` and the type, `any` when it has none. */
  function ParameterEntry(p: Parameter): string
  {
    p.name + (if p.optional || Truthy(p.defaultValue) then "?" else "") + ": " + (if Truthy(p.typ) then p.typ.value else "any")
  }

  /** An entry starts with the name, is marked `?` right after it exactly when the parameter
      may be left out, and ends with the type or `any`. */
  lemma ParameterEntrySpec(p: Parameter)
    ensures var r := ParameterEntry(p);
      StartsWith(r, p.name) && |r| > |p.name| && (r[|p.name|] == '?' <==> MayOmit(p)) &&
      EndsWith(r, if Truthy(p.typ) then p.typ.value else "any")
  {
    var r := ParameterEntry(p);
    var t := if Truthy(p.typ) then p.typ.value else "any";
    assert r == p.name + ((if MayOmit(p) then "?" else "") + ": " + t);
    assert r[|r| - |t|..] == t;
  }

  /** `getParameterSignature`. */
  function GetParameterSignature(parameters: seq<Parameter>): string
  {
    Join(Map(parameters, ParameterEntry), ", ")
  }

  /** The literal `generateSuggestion` proposes for a missing parameter of this type. */
  function Placeholder(p: Parameter): string
  {
    if p.typ == Some("string") then "''"
    else if p.typ == Some("number") then "0"
    else if p.typ == Some("boolean") then "false"
    else if Truthy(p.typ) && Contains(p.typ.value, "{}") then "{}"
    else if Truthy(p.typ) && Contains(p.typ.value, "[]") then "[]"
    else "undefined"
  }

  /** `requiredParams.slice(argumentCount).map(...)`. */
  function MissingPlaceholders(func: FunctionInfo, argumentCount: nat): seq<string>
  {
    var required := RequiredParameters(func.parameters);
    Map(if argumentCount <= |required| then required[argumentCount..] else [], Placeholder)
  }

  /** When arguments are missing there is one placeholder per missing required parameter, in
      order, each chosen by that parameter's type. */
  lemma MissingPlaceholdersSpec(func: FunctionInfo, argumentCount: nat)
    requires argumentCount < |RequiredParameters(func.parameters)|
    ensures var r := MissingPlaceholders(func, argumentCount);
      var required := RequiredParameters(func.parameters);
      |r| == |required| - argumentCount &&
      forall k :: 0 <= k < |r| ==> r[k] == Placeholder(required[argumentCount + k])
  {
  }

  /** `generateSuggestion`. The source's third answer, for a mismatch of any other type, is
      never reached: `compareSignatures` only produces the two types. */
  function GenerateSuggestion(func: FunctionInfo, argumentCount: nat, kind: MismatchType): string
  {
    match kind
    case MissingParameters => "Add missing parameter(s): " + Join(MissingPlaceholders(func, argumentCount), ", ")
    case ExtraParameters => "Remove extra parameters from the function call"
  }

  // ---------------------------------------------------------------------------------------
  // Issues

  /** `createIssue`: reported at the definition, with the call site as its only affected file. */
  function CreateIssue(func: FunctionInfo, site: CallSiteInfo, mismatch: Mismatch): Issue
  {
    var suggestion := GenerateSuggestion(func, site.argumentCount, mismatch.kind);
    Issue(
      FunctionSignatureChange, mismatch.severity, mismatch.message, func.file, Some(func.line), Some(func.column),
      NoDetails().(functionName := Some(func.name),
                   oldSignature := Some(func.name + "(" + GetSimpleSignature(site.argumentCount) + ")"),
                   newSignature := Some(func.name + "(" + GetParameterSignature(func.parameters) + ")"),
                   affectedFiles := Some([AffectedFile(site.file, site.line, Some(site.column), site.context, Some(suggestion))]),
                   context := Some("Breaking call in " + site.file + ":" + IntToString(site.line)),
                   breakingChangeType := Some(MismatchTypeName(mismatch.kind))),
      [suggestion,
       "Check if function signature was changed without updating callers",
       "Verify this is an AI-generated change that broke existing code"],
      0.95)
  }

  /** An issue sits at the definition, names it, has exactly one affected file (the call
      site, with the suggestion that is also the first of three), and confidence 0.95. */
  lemma CreateIssueFacts(func: FunctionInfo, site: CallSiteInfo, mismatch: Mismatch)
    ensures var r := CreateIssue(func, site, mismatch);
      r.kind == FunctionSignatureChange && r.severity == mismatch.severity && r.message == mismatch.message &&
      r.file == func.file && r.line == Some(func.line) && r.column == Some(func.column) && r.confidence == 0.95 &&
      r.details.functionName == Some(func.name) &&
      r.details.affectedFiles == Some([AffectedFile(site.file, site.line, Some(site.column), site.context, Some(r.suggestions[0]))]) &&
      |r.suggestions| == 3 && r.suggestions[0] == GenerateSuggestion(func, site.argumentCount, mismatch.kind) &&
      r.details.breakingChangeType == Some(MismatchTypeName(mismatch.kind))
  {
  }

  /** The issue for one call site of `func`, if its argument count does not fit. */
  function IssueFor(func: FunctionInfo): CallSiteInfo -> Option<Issue>
  {
    (site: CallSiteInfo) =>
      match CompareSignatures(func, site.argumentCount)
      case Some(mismatch) => Some(CreateIssue(func, site, mismatch))
      case None => None
  }

  /** The issues of one definition: none for a definition that is not exported. */
  function FunctionIssues(func: FunctionInfo, allFiles: seq<string>, fs: FileSystem, treeOn: bool): seq<Issue>
  {
    if !func.isExported then [] else FilterMap(CallsInOtherFiles(func, allFiles, fs, treeOn), IssueFor(func))
  }

  function IssuesOf(allFiles: seq<string>, fs: FileSystem, treeOn: bool): FunctionInfo -> seq<Issue>
  {
    (func: FunctionInfo) => FunctionIssues(func, allFiles, fs, treeOn)
  }

  /** What `detectBreakingChanges` returns: in definition order, then call-site order. */
  function BreakingChanges(functions: seq<FunctionInfo>, allFiles: seq<string>, fs: FileSystem, treeOn: bool): seq<Issue>
  {
    FlatMap(functions, IssuesOf(allFiles, fs, treeOn))
  }

  /** The issue of a call site is located at the definition and lists that call site. */
  lemma IssueForFacts(func: FunctionInfo, site: CallSiteInfo, issue: Issue)
    requires IssueFor(func)(site) == Some(issue)
    ensures issue.kind == FunctionSignatureChange && issue.confidence == 0.95
    ensures issue.file == func.file && issue.line == Some(func.line) && issue.column == Some(func.column)
    ensures issue.details.functionName == Some(func.name)
    ensures issue.details.affectedFiles.Some? && |issue.details.affectedFiles.value| == 1
    ensures issue.details.affectedFiles.value[0].path == site.file
    ensures CompareSignatures(func, site.argumentCount).Some?
  {
    CreateIssueFacts(func, site, CompareSignatures(func, site.argumentCount).value);
  }

  /** The issues of one definition: it is exported, and each issue is located at it and
      lists one call site, which lies in another analysed file among `allFiles`. */
  lemma FunctionIssuesFacts(func: FunctionInfo, allFiles: seq<string>, fs: FileSystem, treeOn: bool, issue: Issue)
    requires issue in FunctionIssues(func, allFiles, fs, treeOn)
    ensures func.isExported && issue.kind == FunctionSignatureChange && issue.confidence == 0.95
    ensures issue.file == func.file && issue.line == Some(func.line) && issue.column == Some(func.column)
    ensures issue.details.functionName == Some(func.name)
    ensures issue.details.affectedFiles.Some? && |issue.details.affectedFiles.value| == 1
    ensures var a := issue.details.affectedFiles.value[0];
      a.path in allFiles && a.path != func.file && IsAnalysedFile(fs, a.path)
  {
    var sites := CallsInOtherFiles(func, allFiles, fs, treeOn);
    FilterMapMembership(sites, IssueFor(func), issue);
    var j :| 0 <= j < |sites| && IssueFor(func)(sites[j]) == Some(issue);
    IssueForFacts(func, sites[j], issue);
    CallsInOtherFilesFacts(func, allFiles, fs, treeOn, sites[j]);
  }

  /** Every issue comes from an exported definition, is located at it, and lists one call
      site, which lies in another analysed file among `allFiles`. */
  lemma BreakingChangesFacts(functions: seq<FunctionInfo>, allFiles: seq<string>, fs: FileSystem, treeOn: bool, issue: Issue)
    requires issue in BreakingChanges(functions, allFiles, fs, treeOn)
    ensures issue.kind == FunctionSignatureChange && issue.confidence == 0.95
    ensures exists f :: f in functions && f.isExported && issue.file == f.file &&
              issue.line == Some(f.line) && issue.column == Some(f.column) && issue.details.functionName == Some(f.name)
    ensures issue.details.affectedFiles.Some? && |issue.details.affectedFiles.value| == 1
    ensures var a := issue.details.affectedFiles.value[0];
      a.path in allFiles && a.path != issue.file && IsAnalysedFile(fs, a.path)
  {
    FlatMapMembership(functions, IssuesOf(allFiles, fs, treeOn), issue);
    var i :| 0 <= i < |functions| && issue in IssuesOf(allFiles, fs, treeOn)(functions[i]);
    FunctionIssuesFacts(functions[i], allFiles, fs, treeOn, issue);
  }

  /** The loop of `detectBreakingChanges` over one definition's call sites. */
  method IssuesForSites(func: FunctionInfo, callSites: seq<CallSiteInfo>) returns (issues: seq<Issue>)
    ensures issues == FilterMap(callSites, IssueFor(func))
  {
    var check := IssueFor(func);
    issues := [];
    var i := 0;
    while i < |callSites|
      invariant 0 <= i <= |callSites|
      invariant issues == FilterMap(callSites[..i], check)
    {
      FilterMapStep(callSites, i, check);
      var issue := check(callSites[i]);
      if issue.Some? {
        issues := issues + [issue.value];
      }
      i := i + 1;
    }
    assert callSites[..i] == callSites;
  }

  /** The loop of `findCallsInOtherFiles` over one file's calls. */
  method SitesInCalls(func: FunctionInfo, calls: seq<Call>) returns (callSites: seq<CallSiteInfo>)
    ensures callSites == FilterMap(calls, SiteOf(func.name))
  {
    callSites := [];
    var i := 0;
    while i < |calls|
      invariant 0 <= i <= |calls|
      invariant callSites == FilterMap(calls[..i], SiteOf(func.name))
    {
      FilterMapStep(calls, i, SiteOf(func.name));
      var call := calls[i];
      if IsCallToFunction(call.name, func.name) {
        callSites := callSites + [CallSiteInfo(call.file, call.line, call.column, call.context, |call.arguments|)];
      }
      i := i + 1;
    }
    assert calls[..i] == calls;
  }

  /** `BasicCrossFileAnalyzer`, which owns a parser built with tree-sitter requested and
      fallback on. */
  class BasicCrossFileAnalyzer {
    const parser: EnhancedASTParser

    /** `new BasicCrossFileAnalyzer()`; `treeSitterLoads` says whether tree-sitter can be set up. */
    constructor(treeSitterLoads: bool)
      ensures fresh(parser) && parser.Valid() && parser.fallbackToRegex && !parser.debugMode
      ensures parser.useTreeSitter == treeSitterLoads
    {
      parser := new EnhancedASTParser(Some(true), Some(true), Some(false), treeSitterLoads);
    }

    /** One file of `findCallsInOtherFiles`' loop. */
    method CallSitesInFile(func: FunctionInfo, file: string, fs: FileSystem) returns (callSites: seq<CallSiteInfo>)
      requires parser.fallbackToRegex
      ensures callSites == CallSitesIn(func, fs, parser.useTreeSitter && parser.hasTreeParser)(file)
    {
      callSites := [];
      if file == func.file || !(file in fs && IsJavaScriptPath(file)) {
        return;
      }
      var extracted := parser.ExtractFunctionCalls(fs[file].content, file, fs[file].syntax);
      callSites := SitesInCalls(func, extracted.value);
    }

    /** `findCallsInOtherFiles`. */
    method FindCallsInOtherFiles(func: FunctionInfo, allFiles: seq<string>, fs: FileSystem) returns (callSites: seq<CallSiteInfo>)
      requires parser.fallbackToRegex
      ensures callSites == CallsInOtherFiles(func, allFiles, fs, parser.useTreeSitter && parser.hasTreeParser)
    {
      callSites := [];
      var i := 0;
      while i < |allFiles|
        invariant 0 <= i <= |allFiles|
        invariant callSites == FlatMap(allFiles[..i], CallSitesIn(func, fs, parser.useTreeSitter && parser.hasTreeParser))
      {
        FlatMapStep(allFiles, i, CallSitesIn(func, fs, parser.useTreeSitter && parser.hasTreeParser));
        var found := CallSitesInFile(func, allFiles[i], fs);
        callSites := callSites + found;
        i := i + 1;
      }
      assert allFiles[..i] == allFiles;
    }

    /** `detectBreakingChanges`. */
    method DetectBreakingChanges(functions: seq<FunctionInfo>, allFiles: seq<string>, fs: FileSystem) returns (issues: seq<Issue>)
      requires parser.fallbackToRegex
      ensures issues == BreakingChanges(functions, allFiles, fs, parser.useTreeSitter && parser.hasTreeParser)
    {
      issues := [];
      var i := 0;
      while i < |functions|
        invariant 0 <= i <= |functions|
        invariant issues == FlatMap(functions[..i], IssuesOf(allFiles, fs, parser.useTreeSitter && parser.hasTreeParser))
      {
        FlatMapStep(functions, i, IssuesOf(allFiles, fs, parser.useTreeSitter && parser.hasTreeParser));
        var func := functions[i];
        if func.isExported {
          var callSites := FindCallsInOtherFiles(func, allFiles, fs);
          var found := IssuesForSites(func, callSites);
          issues := issues + found;
        }
        i := i + 1;
      }
      assert functions[..i] == functions;
    }
  }
}
