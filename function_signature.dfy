/** The function-signature detector (src/detectors/function-signature-detector.ts). With no
    history to compare against, it takes a definition that looks like an AI edit (an options
    parameter, or optional and typed parameters) to have just gained its last parameter, and
    reports it when calls to it by name exist in other files. Files are read from a file
    system map; each file's syntax tree (from the plain extractor) is given. */
module FunctionSignature {
  import opened Wrappers
  import opened Seqs
  import opened Strings
  import opened Types
  import opened Detectors
  import AstParser

  // ---------------------------------------------------------------------------------------
  // The heuristic and the simulated old version

  /** Some parameter name, lower-cased, contains `option`, `config` or `setting`. */
  predicate HasOptionsParameter(parameters: seq<Parameter>)
  {
    exists i :: 0 <= i < |parameters| &&
      (Contains(ToLower(parameters[i].name), "option") || Contains(ToLower(parameters[i].name), "config") ||
       Contains(ToLower(parameters[i].name), "setting"))
  }

  /** `looksLikeAIChange`: an options parameter, or an optional parameter together with a
      typed one. */
  predicate LooksLikeAIChange(func: FunctionInfo)
  {
    HasOptionsParameter(func.parameters) ||
    ((exists i :: 0 <= i < |func.parameters| && func.parameters[i].optional) &&
     (exists i :: 0 <= i < |func.parameters| && Truthy(func.parameters[i].typ)))
  }

  /** The heuristic is monotone: a definition whose parameters include all of another's looks
      like an AI edit whenever the other does. */
  lemma LooksLikeAIChangeMonotone(func: FunctionInfo, more: seq<Parameter>)
    requires forall p :: p in func.parameters ==> p in more
    ensures LooksLikeAIChange(func) ==> LooksLikeAIChange(func.(parameters := more))
  {
    var ps := func.parameters;
    if HasOptionsParameter(ps) {
      var i :| 0 <= i < |ps| &&
        (Contains(ToLower(ps[i].name), "option") || Contains(ToLower(ps[i].name), "config") ||
         Contains(ToLower(ps[i].name), "setting"));
      assert ps[i] in ps;
      var j :| 0 <= j < |more| && more[j] == ps[i];
    } else if LooksLikeAIChange(func) {
      var i :| 0 <= i < |ps| && ps[i].optional;
      var k :| 0 <= k < |ps| && Truthy(ps[k].typ);
      assert ps[i] in ps && ps[k] in ps;
      var i' :| 0 <= i' < |more| && more[i'] == ps[i];
      var k' :| 0 <= k' < |more| && more[k'] == ps[k];
    }
  }

  /** Appending a parameter never takes the AI-edit verdict away; in particular the simulated
      old version looks like an AI edit only when the definition itself does. */
  lemma AppendedParameterKeepsAIChange(func: FunctionInfo, p: Parameter)
    ensures LooksLikeAIChange(func) ==> LooksLikeAIChange(func.(parameters := func.parameters + [p]))
    ensures LooksLikeAIChange(SimulateOldFunction(func)) ==> LooksLikeAIChange(func)
  {
    LooksLikeAIChangeMonotone(func, func.parameters + [p]);
    var prev := SimulateOldFunction(func);
    assert forall q :: q in prev.parameters ==> q in func.parameters;
    LooksLikeAIChangeMonotone(prev, func.parameters);
    assert prev.(parameters := func.parameters) == func;
  }

  /** Without parameters a definition never looks like an AI edit; without an optional
      parameter, or without a typed one, it does exactly when it has an options parameter;
      and a parameter named `options` is always enough. */
  lemma LooksLikeAIChangeCases(func: FunctionInfo)
    ensures func.parameters == [] ==> !LooksLikeAIChange(func)
    ensures (forall i :: 0 <= i < |func.parameters| ==> !func.parameters[i].optional) ==>
      (LooksLikeAIChange(func) <==> HasOptionsParameter(func.parameters))
    ensures (forall i :: 0 <= i < |func.parameters| ==> !Truthy(func.parameters[i].typ)) ==>
      (LooksLikeAIChange(func) <==> HasOptionsParameter(func.parameters))
    ensures (exists i :: 0 <= i < |func.parameters| && func.parameters[i].name == "options") ==> LooksLikeAIChange(func)
  {
    if exists i :: 0 <= i < |func.parameters| && func.parameters[i].name == "options" {
      var i :| 0 <= i < |func.parameters| && func.parameters[i].name == "options";
      var lower := ToLower("options");
      assert lower == "options";
      assert lower[0..6] == "option";
      assert Contains(ToLower(func.parameters[i].name), "option");
    }
  }

  /** `simulateOldFunction`: the definition without its last parameter. */
  function SimulateOldFunction(newFunc: FunctionInfo): (r: FunctionInfo)
    ensures r.(parameters := newFunc.parameters) == newFunc
    ensures newFunc.parameters == [] ==> r.parameters == []
    ensures newFunc.parameters != [] ==> r.parameters + [newFunc.parameters[|newFunc.parameters| - 1]] == newFunc.parameters
  {
    var n := |newFunc.parameters|;
    newFunc.(parameters := newFunc.parameters[..if n == 0 then 0 else n - 1])
  }

  datatype ChangeKind = Parameters | Name | Signature

  /** A detected change: the simulated old definition and the current one. */
  datatype FunctionChange = FunctionChange(oldFunction: FunctionInfo, newFunction: FunctionInfo, changeType: ChangeKind, details: string)

  const ChangeDetails: string := "Function parameters appear to have been modified"

  /** The change recorded for a definition, if it looks like an AI edit. */
  function ChangeFor(func: FunctionInfo): Option<FunctionChange>
  {
    if LooksLikeAIChange(func) then Some(FunctionChange(SimulateOldFunction(func), func, Parameters, ChangeDetails)) else None
  }

  /** What `detectFunctionChanges` returns. */
  function FunctionChanges(currentFunctions: seq<FunctionInfo>): seq<FunctionChange>
  {
    FilterMap(currentFunctions, ChangeFor)
  }

  /** A change is recorded exactly for each definition that looks like an AI edit, against
      its simulated old version, as a parameter change. */
  lemma FunctionChangesSpec(currentFunctions: seq<FunctionInfo>)
    ensures forall c :: c in FunctionChanges(currentFunctions) ==>
      c.newFunction in currentFunctions && LooksLikeAIChange(c.newFunction) &&
      c.oldFunction == SimulateOldFunction(c.newFunction) && c.changeType == Parameters
    ensures forall f :: f in currentFunctions && LooksLikeAIChange(f) ==>
      exists c :: c in FunctionChanges(currentFunctions) && c.newFunction == f
  {
    forall c | c in FunctionChanges(currentFunctions)
      ensures c.newFunction in currentFunctions && LooksLikeAIChange(c.newFunction) &&
        c.oldFunction == SimulateOldFunction(c.newFunction) && c.changeType == Parameters
    {
      FilterMapMembership(currentFunctions, ChangeFor, c);
    }
    forall f | f in currentFunctions && LooksLikeAIChange(f)
      ensures exists c :: c in FunctionChanges(currentFunctions) && c.newFunction == f
    {
      FilterMapMembership(currentFunctions, ChangeFor, ChangeFor(f).value);
    }
  }

  /** `detectFunctionChanges`. */
  method DetectFunctionChanges(currentFunctions: seq<FunctionInfo>, filePath: string) returns (changes: seq<FunctionChange>)
    ensures changes == FunctionChanges(currentFunctions)
  {
    changes := [];
    var i := 0;
    while i < |currentFunctions|
      invariant 0 <= i <= |currentFunctions|
      invariant changes == FilterMap(currentFunctions[..i], ChangeFor)
    {
      FilterMapStep(currentFunctions, i, ChangeFor);
      var func := currentFunctions[i];
      if LooksLikeAIChange(func) {
        var oldFunction := SimulateOldFunction(func);
        changes := changes + [FunctionChange(oldFunction, func, Parameters, ChangeDetails)];
      }
      i := i + 1;
    }
    assert currentFunctions[..i] == currentFunctions;
  }

  // ---------------------------------------------------------------------------------------
  // Signatures and suggestions

  /** One parameter in `getFunctionSignature`: `name[: type][?][ = default]`. */
  function SignatureEntry(p: Parameter): string
  {
    p.name + (if Truthy(p.typ) then ": " + p.typ.value else "") + (if p.optional then "?" else "") +
    (if Truthy(p.defaultValue) then " = " + p.defaultValue.value else "")
  }

  /** An entry starts with the name, and is just the name exactly when the parameter has no
      type, is not optional and has no default; a default comes last. */
  lemma SignatureEntrySpec(p: Parameter)
    ensures StartsWith(SignatureEntry(p), p.name)
    ensures SignatureEntry(p) == p.name <==> !Truthy(p.typ) && !p.optional && !Truthy(p.defaultValue)
    ensures Truthy(p.defaultValue) ==> EndsWith(SignatureEntry(p), " = " + p.defaultValue.value)
  {
    var rest := (if Truthy(p.typ) then ": " + p.typ.value else "") + (if p.optional then "?" else "") +
                (if Truthy(p.defaultValue) then " = " + p.defaultValue.value else "");
    assert SignatureEntry(p) == p.name + rest;
    if Truthy(p.defaultValue) {
      var d := " = " + p.defaultValue.value;
      var e := SignatureEntry(p);
      assert e[|e| - |d|..] == d;
    }
  }

  /** `getFunctionSignature`: `name(p1, ..., pn)`. */
  function GetFunctionSignature(func: FunctionInfo): string
  {
    func.name + "(" + Join(Map(func.parameters, SignatureEntry), ", ") + ")"
  }

  /** The signature of a definition with two or more parameters is that of its simulated old
      version with `, ` and the last parameter's entry inserted before the `)`. */
  lemma SimulatedSignatureExtends(func: FunctionInfo)
    requires |func.parameters| >= 2
    ensures var before := GetFunctionSignature(SimulateOldFunction(func));
      var last := SignatureEntry(func.parameters[|func.parameters| - 1]);
      GetFunctionSignature(func) == before[..|before| - 1] + ", " + last + ")"
  {
    var ps := func.parameters;
    var init := ps[..|ps| - 1];
    var entries := Map(init, SignatureEntry);
    assert Map(ps, SignatureEntry) == entries + [SignatureEntry(ps[|ps| - 1])];
    JoinSnoc(entries, SignatureEntry(ps[|ps| - 1]), ", ");
    var before := GetFunctionSignature(SimulateOldFunction(func));
    assert before == func.name + "(" + Join(entries, ", ") + ")";
    assert before[..|before| - 1] == func.name + "(" + Join(entries, ", ");
  }

  /** `createIssueMessage`. */
  function CreateIssueMessage(change: FunctionChange): string
  {
    "Function signature changed without updating callers: " + GetFunctionSignature(change.oldFunction) +
    " → " + GetFunctionSignature(change.newFunction)
  }

  /** `generateSuggestions`: the first names the number of affected call sites. */
  function GenerateSuggestions(change: FunctionChange, affectedFiles: seq<AffectedFile>): seq<string>
  {
    ["Update " + NatToString(|affectedFiles|) + " call sites to match new signature",
     "Add default values to new parameters to maintain compatibility",
     "Consider creating a wrapper function for backward compatibility"]
  }

  /** The placeholder `generateCallSiteSuggestion` proposes for a parameter: its default,
      `undefined` when optional, a literal of its primitive type, or `null`. */
  function CallSitePlaceholder(p: Parameter): string
  {
    if Truthy(p.defaultValue) then p.defaultValue.value
    else if p.optional then "undefined"
    else if p.typ == Some("string") then "''"
    else if p.typ == Some("number") then "0"
    else if p.typ == Some("boolean") then "false"
    else "null"
  }

  /** `newParams.slice(-1)`: the last placeholder, or none. */
  function LastOf(s: seq<string>): seq<string>
  {
    if s == [] then [] else s[|s| - 1..]
  }

  /** `generateCallSiteSuggestion`; the call's context is not used. */
  function GenerateCallSiteSuggestion(func: FunctionInfo, context: string): string
  {
    "Add missing parameters: " + Join(LastOf(Map(func.parameters, CallSitePlaceholder)), ", ")
  }

  /** Only the last parameter is suggested: the placeholder of the last parameter, or
      nothing for a definition without parameters. */
  lemma GenerateCallSiteSuggestionSpec(func: FunctionInfo, context: string)
    ensures func.parameters == [] ==> GenerateCallSiteSuggestion(func, context) == "Add missing parameters: "
    ensures func.parameters != [] ==>
      GenerateCallSiteSuggestion(func, context) ==
        "Add missing parameters: " + CallSitePlaceholder(func.parameters[|func.parameters| - 1])
  {
    var m := Map(func.parameters, CallSitePlaceholder);
    if m != [] {
      assert LastOf(m) == [m[|m| - 1]];
    }
  }

  // ---------------------------------------------------------------------------------------
  // Call sites

  /** The affected file recorded for a call in `file`, when it calls `func` by exactly its name. */
  function AffectedOf(func: FunctionInfo, file: string): CallSite -> Option<AffectedFile>
  {
    (call: CallSite) =>
      if call.name == func.name then
        Some(AffectedFile(file, call.line, Some(call.column), call.context, Some(GenerateCallSiteSuggestion(func, call.context))))
      else None
  }

  /** The call sites of `func` in one file: none in its own file, in a file that cannot be
      read, is not JavaScript, or fails to parse. */
  function FileCallSites(func: FunctionInfo, fs: FileSystem, file: string): seq<AffectedFile>
  {
    if file == func.file || !IsAnalysedFile(fs, file) || fs[file].syntax.None? then []
    else FilterMap(AstParser.Calls(fs[file].syntax.value, file), AffectedOf(func, file))
  }

  function CallSitesIn(func: FunctionInfo, fs: FileSystem): string -> seq<AffectedFile>
  {
    (file: string) => FileCallSites(func, fs, file)
  }

  /** What `findCallSites` returns, in file order, then call order. */
  function CallSites(func: FunctionInfo, allFiles: seq<string>, fs: FileSystem): seq<AffectedFile>
  {
    FlatMap(allFiles, CallSitesIn(func, fs))
  }

  /** Every affected file is another analysed file among `allFiles` with a call of exactly
      the function's name at that position, and suggests the last parameter. */
  lemma CallSitesFacts(func: FunctionInfo, allFiles: seq<string>, fs: FileSystem, a: AffectedFile)
    requires a in CallSites(func, allFiles, fs)
    ensures a.path in allFiles && a.path != func.file && IsAnalysedFile(fs, a.path) && fs[a.path].syntax.Some?
    ensures exists c :: c in AstParser.Calls(fs[a.path].syntax.value, a.path) && c.name == func.name &&
              a.line == c.line && a.column == Some(c.column) && a.context == c.context
    ensures a.suggestion == Some(GenerateCallSiteSuggestion(func, a.context))
  {
    FlatMapMembership(allFiles, CallSitesIn(func, fs), a);
    var i :| 0 <= i < |allFiles| && a in CallSitesIn(func, fs)(allFiles[i]);
    var file := allFiles[i];
    var calls := AstParser.Calls(fs[file].syntax.value, file);
    FilterMapMembership(calls, AffectedOf(func, file), a);
  }

  /** The loop over one file's calls. */
  method AffectedInCalls(func: FunctionInfo, file: string, calls: seq<CallSite>) returns (affected: seq<AffectedFile>)
    ensures affected == FilterMap(calls, AffectedOf(func, file))
  {
    affected := [];
    var i := 0;
    while i < |calls|
      invariant 0 <= i <= |calls|
      invariant affected == FilterMap(calls[..i], AffectedOf(func, file))
    {
      FilterMapStep(calls, i, AffectedOf(func, file));
      var call := calls[i];
      if call.name == func.name {
        affected := affected + [AffectedFile(file, call.line, Some(call.column), call.context,
                                             Some(GenerateCallSiteSuggestion(func, call.context)))];
      }
      i := i + 1;
    }
    assert calls[..i] == calls;
  }

  /** One file of `findCallSites`' loop. */
  method CallSitesInFile(func: FunctionInfo, file: string, fs: FileSystem) returns (affected: seq<AffectedFile>)
    ensures affected == CallSitesIn(func, fs)(file)
  {
    affected := [];
    if file == func.file || file !in fs || !IsJavaScriptPath(file) || fs[file].syntax.None? {
      return;
    }
    var calls := AstParser.ExtractFunctionCalls(fs[file].syntax.value, file);
    affected := AffectedInCalls(func, file, calls);
  }

  /** `findCallSites`. */
  method FindCallSites(func: FunctionInfo, allFiles: seq<string>, fs: FileSystem) returns (affected: seq<AffectedFile>)
    ensures affected == CallSites(func, allFiles, fs)
  {
    affected := [];
    var i := 0;
    while i < |allFiles|
      invariant 0 <= i <= |allFiles|
      invariant affected == FlatMap(allFiles[..i], CallSitesIn(func, fs))
    {
      FlatMapStep(allFiles, i, CallSitesIn(func, fs));
      var found := CallSitesInFile(func, allFiles[i], fs);
      affected := affected + found;
      i := i + 1;
    }
    assert allFiles[..i] == allFiles;
  }

  // ---------------------------------------------------------------------------------------
  // Issues

  /** The issue of a change with its affected files: an error at the new definition, with
      confidence 0.9. */
  function CreateIssue(filePath: string, change: FunctionChange, affectedFiles: seq<AffectedFile>): Issue
  {
    Issue(
      FunctionSignatureChange, Error, CreateIssueMessage(change), filePath,
      Some(change.newFunction.line), Some(change.newFunction.column),
      NoDetails().(functionName := Some(change.newFunction.name),
                   oldSignature := Some(GetFunctionSignature(change.oldFunction)),
                   newSignature := Some(GetFunctionSignature(change.newFunction)),
                   affectedFiles := Some(affectedFiles),
                   context := Some(change.details)),
      GenerateSuggestions(change, affectedFiles),
      0.9)
  }

  /** The issue of a change, when it has call sites among `files`. */
  function IssueFor(filePath: string, files: seq<string>, fs: FileSystem): FunctionChange -> Option<Issue>
  {
    (change: FunctionChange) =>
      var affectedFiles := CallSites(change.newFunction, files, fs);
      if |affectedFiles| > 0 then Some(CreateIssue(filePath, change, affectedFiles)) else None
  }

  /** The issue of a change is an error with confidence 0.9 at the new definition, under its
      name and with its old and new signatures, listing the affected files, and its first
      suggestion counts them. */
  lemma CreateIssueFacts(filePath: string, change: FunctionChange, affectedFiles: seq<AffectedFile>)
    ensures var r := CreateIssue(filePath, change, affectedFiles);
      r.kind == FunctionSignatureChange && r.severity == Error && r.confidence == 0.9 &&
      r.file == filePath && r.line == Some(change.newFunction.line) && r.column == Some(change.newFunction.column) &&
      r.details.functionName == Some(change.newFunction.name) &&
      r.details.oldSignature == Some(GetFunctionSignature(change.oldFunction)) &&
      r.details.newSignature == Some(GetFunctionSignature(change.newFunction)) &&
      r.details.affectedFiles == Some(affectedFiles) &&
      r.suggestions[0] == "Update " + NatToString(|affectedFiles|) + " call sites to match new signature"
  {
  }

  /** An issue is raised for a change exactly when the change's definition has call sites
      among `files`, and it is the issue of the change with those call sites. */
  lemma IssueForSpec(filePath: string, files: seq<string>, fs: FileSystem, change: FunctionChange)
    ensures var r := IssueFor(filePath, files, fs)(change);
      var affectedFiles := CallSites(change.newFunction, files, fs);
      (r.Some? <==> affectedFiles != []) &&
      (r.Some? ==> r.value == CreateIssue(filePath, change, affectedFiles))
  {
  }

  /** What `analyzeFile` returns once the list of files to search is passed in (the source
      leaves it unbound, see `AnalysisAsWritten`): an error when the file cannot be read or
      parsed, nothing for a file that is not JavaScript, and otherwise the issues of its
      changes that have call sites among `files`. */
  function Analysis(filePath: string, files: seq<string>, fs: FileSystem): Result<seq<Issue>>
  {
    if filePath !in fs then Err("ENOENT: no such file or directory")
    else if !IsJavaScriptPath(filePath) then Ok([])
    else match fs[filePath].syntax
      case None => Err("parse failed")
      case Some(root) => Ok(FilterMap(FunctionChanges(AstParser.Functions(root, filePath)), IssueFor(filePath, files, fs)))
  }

  /** One change of `analyzeFile`'s loop: its call sites are searched, and an issue is made
      when there are any. */
  method IssueOfChange(filePath: string, change: FunctionChange, files: seq<string>, fs: FileSystem)
    returns (issue: Option<Issue>)
    ensures issue == IssueFor(filePath, files, fs)(change)
  {
    var affectedFiles := FindCallSites(change.newFunction, files, fs);
    if |affectedFiles| > 0 {
      return Some(CreateIssue(filePath, change, affectedFiles));
    }
    return None;
  }

  /** The loop of `analyzeFile` over the changes. */
  method IssuesOfChanges(filePath: string, changes: seq<FunctionChange>, files: seq<string>, fs: FileSystem)
    returns (issues: seq<Issue>)
    ensures issues == FilterMap(changes, IssueFor(filePath, files, fs))
  {
    issues := [];
    var i := 0;
    while i < |changes|
      invariant 0 <= i <= |changes|
      invariant issues == FilterMap(changes[..i], IssueFor(filePath, files, fs))
    {
      FilterMapStep(changes, i, IssueFor(filePath, files, fs));
      var issue := IssueOfChange(filePath, changes[i], files, fs);
      if issue.Some? {
        issues := issues + [issue.value];
      }
      i := i + 1;
    }
    assert changes[..i] == changes;
  }

  /** `analyzeFile`, with the list of files to search passed in. */
  method AnalyzeFile(filePath: string, files: seq<string>, fs: FileSystem) returns (r: Result<seq<Issue>>)
    ensures r == Analysis(filePath, files, fs)
  {
    if filePath !in fs {
      return Err("ENOENT: no such file or directory");
    }
    if !IsJavaScriptPath(filePath) {
      return Ok([]);
    }
    if fs[filePath].syntax.None? {
      return Err("parse failed");
    }
    var currentFunctions := AstParser.ExtractFunctions(fs[filePath].syntax.value, filePath);
    var changes := DetectFunctionChanges(currentFunctions, filePath);
    var issues := IssuesOfChanges(filePath, changes, files, fs);
    return Ok(issues);
  }

  /** The issues one file contributes to `detect`: none when `analyzeFile` throws. */
  function FileIssues(files: seq<string>, fs: FileSystem): string -> seq<Issue>
  {
    (file: string) => match Analysis(file, files, fs) case Ok(issues) => issues case Err(_) => []
  }

  /** What `detect` returns, in file order, once `analyzeFile` uses the file list given to
      `detect`; as written it returns nothing (`DetectedAsWritten`). */
  function Detected(files: seq<string>, fs: FileSystem): seq<Issue>
  {
    FlatMap(files, FileIssues(files, fs))
  }

  /** `detect`: a file whose analysis throws is skipped. */
  method Detect(files: seq<string>, fs: FileSystem) returns (issues: seq<Issue>)
    ensures issues == Detected(files, fs)
  {
    issues := [];
    var i := 0;
    while i < |files|
      invariant 0 <= i <= |files|
      invariant issues == FlatMap(files[..i], FileIssues(files, fs))
    {
      FlatMapStep(files, i, FileIssues(files, fs));
      var r := AnalyzeFile(files[i], files, fs);
      if r.Ok? {
        issues := issues + r.value;
      }
      i := i + 1;
    }
    assert files[..i] == files;
  }

  /** `issue` reports definition `f`: at its position, under its name, listing its call
      sites among `files`, of which there is at least one. */
  predicate ReportsDefinition(issue: Issue, f: FunctionInfo, files: seq<string>, fs: FileSystem)
  {
    issue.line == Some(f.line) && issue.column == Some(f.column) && issue.details.functionName == Some(f.name) &&
    issue.details.affectedFiles == Some(CallSites(f, files, fs)) && CallSites(f, files, fs) != []
  }

  /** The issues of one file's changes are errors with confidence 0.9 in that file, each
      reporting a definition of the file that looks like an AI edit. */
  lemma ChangeIssuesFacts(file: string, files: seq<string>, fs: FileSystem, functions: seq<FunctionInfo>, issue: Issue)
    requires issue in FilterMap(FunctionChanges(functions), IssueFor(file, files, fs))
    ensures issue.file == file
    ensures issue.kind == FunctionSignatureChange && issue.severity == Error && issue.confidence == 0.9
    ensures exists f :: f in functions && LooksLikeAIChange(f) && ReportsDefinition(issue, f, files, fs)
  {
    var changes := FunctionChanges(functions);
    FilterMapMembership(changes, IssueFor(file, files, fs), issue);
    var j :| 0 <= j < |changes| && IssueFor(file, files, fs)(changes[j]) == Some(issue);
    IssueForSpec(file, files, fs, changes[j]);
    CreateIssueFacts(file, changes[j], CallSites(changes[j].newFunction, files, fs));
    FunctionChangesSpec(functions);
    assert changes[j] in changes;
    assert ReportsDefinition(issue, changes[j].newFunction, files, fs);
  }

  /** Every issue sits in one of the files, at a definition there that looks like an AI
      edit, is an error with confidence 0.9, and lists the calls of the definition's name in
      other analysed files among `files`, of which there is at least one. */
  lemma DetectedFacts(files: seq<string>, fs: FileSystem, issue: Issue)
    requires issue in Detected(files, fs)
    ensures issue.file in files && IsAnalysedFile(fs, issue.file) && fs[issue.file].syntax.Some?
    ensures issue.kind == FunctionSignatureChange && issue.severity == Error && issue.confidence == 0.9
    ensures exists f :: f in AstParser.Functions(fs[issue.file].syntax.value, issue.file) && LooksLikeAIChange(f) &&
                        ReportsDefinition(issue, f, files, fs)
  {
    FlatMapMembership(files, FileIssues(files, fs), issue);
    var i :| 0 <= i < |files| && issue in FileIssues(files, fs)(files[i]);
    var file := files[i];
    ChangeIssuesFacts(file, files, fs, AstParser.Functions(fs[file].syntax.value, file), issue);
  }

  /** Conversely, a definition that looks like an AI edit in an analysed file, with calls to
      its name in other analysed files, is reported. */
  lemma DetectedComplete(files: seq<string>, fs: FileSystem, file: string, f: FunctionInfo)
    requires file in files && IsAnalysedFile(fs, file) && fs[file].syntax.Some?
    requires f in AstParser.Functions(fs[file].syntax.value, file) && LooksLikeAIChange(f)
    requires CallSites(f, files, fs) != []
    ensures exists issue :: issue in Detected(files, fs) && issue.file == file && ReportsDefinition(issue, f, files, fs)
  {
    var issue := ChangeIssueComplete(file, files, fs, f);
    var i :| 0 <= i < |files| && files[i] == file;
    FlatMapMembership(files, FileIssues(files, fs), issue);
  }

  /** The file-level half of `DetectedComplete`. */
  lemma ChangeIssueComplete(file: string, files: seq<string>, fs: FileSystem, f: FunctionInfo) returns (issue: Issue)
    requires IsAnalysedFile(fs, file) && fs[file].syntax.Some?
    requires f in AstParser.Functions(fs[file].syntax.value, file) && LooksLikeAIChange(f)
    requires CallSites(f, files, fs) != []
    ensures issue in FileIssues(files, fs)(file) && issue.file == file && ReportsDefinition(issue, f, files, fs)
  {
    var functions := AstParser.Functions(fs[file].syntax.value, file);
    var change := ChangeFor(f).value;
    IssueForSpec(file, files, fs, change);
    issue := IssueFor(file, files, fs)(change).value;
    CreateIssueFacts(file, change, CallSites(f, files, fs));
    FilterMapMembership(functions, ChangeFor, change);
    FilterMapMembership(FunctionChanges(functions), IssueFor(file, files, fs), issue);
  }

  // ---------------------------------------------------------------------------------------
  // `analyzeFile` as written

  /** `analyzeFile` as the source has it: the loop over the changes reads `files`, which is
      not bound there, so the first change makes it throw a `ReferenceError`; only a file
      without changes gets through. */
  function AnalysisAsWritten(filePath: string, fs: FileSystem): Result<seq<Issue>>
  {
    if filePath !in fs then Err("ENOENT: no such file or directory")
    else if !IsJavaScriptPath(filePath) then Ok([])
    else match fs[filePath].syntax
      case None => Err("parse failed")
      case Some(root) =>
        if FunctionChanges(AstParser.Functions(root, filePath)) == [] then Ok([])
        else Err("ReferenceError: files is not defined")
  }

  function FileIssuesAsWritten(fs: FileSystem): string -> seq<Issue>
  {
    (file: string) => match AnalysisAsWritten(file, fs) case Ok(issues) => issues case Err(_) => []
  }

  /** `detect` over the as-written `analyzeFile`. */
  function DetectedAsWritten(files: seq<string>, fs: FileSystem): seq<Issue>
  {
    FlatMap(files, FileIssuesAsWritten(fs))
  }

  /** As written, `detect` never reports anything: every file either has no changes or
      throws, and `detect` swallows the error. */
  lemma DetectedAsWrittenIsEmpty(files: seq<string>, fs: FileSystem)
    ensures DetectedAsWritten(files, fs) == []
  {
    if DetectedAsWritten(files, fs) != [] {
      var issue := DetectedAsWritten(files, fs)[0];
      FlatMapMembership(files, FileIssuesAsWritten(fs), issue);
    }
  }

  /** The two versions part exactly where it matters: for a definition that looks like an
      AI edit and is called from another file, the corrected `detect` reports an issue and
      the as-written one reports nothing. */
  lemma FilesScopeFinding(files: seq<string>, fs: FileSystem, file: string, f: FunctionInfo)
    requires file in files && IsAnalysedFile(fs, file) && fs[file].syntax.Some?
    requires f in AstParser.Functions(fs[file].syntax.value, file) && LooksLikeAIChange(f)
    requires CallSites(f, files, fs) != []
    ensures Detected(files, fs) != [] && DetectedAsWritten(files, fs) == []
  {
    DetectedComplete(files, fs, file, f);
    DetectedAsWrittenIsEmpty(files, fs);
  }
}
