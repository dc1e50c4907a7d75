/** The enhanced signature detector (src/analysis/enhanced-signature-detector.ts): for each
    definition that its pattern score marks as likely changed by an AI assistant, the calls in
    other files are found with the hybrid parser, and the calls with fewer arguments than
    required parameters are reported as breaking, with a rough type check of the arguments
    they do pass. The pattern score itself is an input. */
module EnhancedSignature {
  import opened Wrappers
  import opened Seqs
  import opened Strings
  import opened Types
  import opened EnhancedParser
  import BasicCrossFile

  // ---------------------------------------------------------------------------------------
  // Records

  datatype ChangeType = ParameterAdded | ParameterRemoved | TypeChanged | SignatureRestructured

  /** What the pattern analysis of a definition concludes: whether it is likely changed, its
      (capped) confidence, and the names of the patterns it found. The change type is derived
      from the pattern names by `DetermineChangeType`; the reasoning texts are not modelled. */
  datatype SignatureAnalysis = SignatureAnalysis(isLikelyChanged: bool, confidence: real, aiPatterns: seq<string>)

  datatype TypeIssue = TypeIssue(parameterName: string, expectedType: string, providedType: string, severity: Severity)

  /** A call with fewer arguments than the definition requires. */
  datatype BreakingCall = BreakingCall(
    filePath: string,
    line: int,
    column: int,
    context: string,
    expectedArgs: nat,
    providedArgs: nat,
    missingParams: seq<Parameter>,
    typeIssues: seq<TypeIssue>)

  /** A reported change; `func` is the source's `function` field. */
  datatype SignatureChange = SignatureChange(
    func: FunctionInfo,
    changeType: ChangeType,
    breakingCalls: seq<BreakingCall>,
    confidence: real,
    severity: Severity,
    aiPatterns: seq<string>)

  /** A call site as `findCallSitesWithTreeSitter` records it, with its argument texts. */
  datatype TreeCallSite = TreeCallSite(filePath: string, line: int, column: int, context: string, arguments: seq<string>)

  // ---------------------------------------------------------------------------------------
  // Change type and severity

  /** `determineChangeType`: the first of `options-parameter`, `complex-types` and
      `destructuring-parameters` present decides; parameter addition is the default. The
      declared `parameter-removed` is never produced. */
  function DetermineChangeType(func: FunctionInfo, patterns: seq<string>): (r: ChangeType)
    ensures r != ParameterRemoved
    ensures "options-parameter" in patterns ==> r == ParameterAdded
    ensures "options-parameter" !in patterns && "complex-types" in patterns ==> r == TypeChanged
    ensures r == SignatureRestructured <==>
      "options-parameter" !in patterns && "complex-types" !in patterns && "destructuring-parameters" in patterns
    ensures r == ParameterAdded <==>
      "options-parameter" in patterns || ("complex-types" !in patterns && "destructuring-parameters" !in patterns)
  {
    if "options-parameter" in patterns then ParameterAdded
    else if "complex-types" in patterns then TypeChanged
    else if "destructuring-parameters" in patterns then SignatureRestructured
    else ParameterAdded
  }

  /** `determineSeverity`: an error exactly when there is a breaking call, whatever the
      confidence; a warning only when there is none. */
  function DetermineSeverity(analysis: SignatureAnalysis, breakingCalls: seq<BreakingCall>): (r: Severity)
    ensures r == Error <==> breakingCalls != []
    ensures r == Warning <==> breakingCalls == []
  {
    if analysis.confidence > 0.8 && |breakingCalls| > 0 then Error
    else if |breakingCalls| > 0 then Error
    else Warning
  }

  // ---------------------------------------------------------------------------------------
  // `Number(s)` is not NaN

  predicate AllDigits(s: string)
  {
    forall i :: 0 <= i < |s| ==> IsDigit(s[i])
  }

  predicate IsSign(c: char)
  {
    c == '+' || c == '-'
  }

  predicate IsHexDigit(c: char)
  {
    IsDigit(c) || 'a' <= c <= 'f' || 'A' <= c <= 'F'
  }

  /** Digits with at most one `.` and at least one digit: `1`, `1.`, `.5`, `1.5`. */
  predicate DecimalMantissa(m: string)
  {
    var dot := CharFrom(m, '.', 0);
    if dot == |m| then m != [] && AllDigits(m)
    else |m| > 1 && AllDigits(m[..dot]) && AllDigits(m[dot + 1..])
  }

  /** The first `e` or `E` at or after `i`, or `|s|`. */
  function ExponentMark(s: string, i: nat): (j: nat)
    requires i <= |s|
    ensures i <= j <= |s| && (j < |s| ==> s[j] == 'e' || s[j] == 'E')
    decreases |s| - i
  {
    if i == |s| || s[i] == 'e' || s[i] == 'E' then i else ExponentMark(s, i + 1)
  }

  /** An exponent's digits, with an optional sign. */
  predicate SignedInteger(x: string)
  {
    if x != [] && IsSign(x[0]) then |x| > 1 && AllDigits(x[1..]) else x != [] && AllDigits(x)
  }

  /** `Infinity`, or a mantissa with an optional exponent. */
  predicate UnsignedDecimal(u: string)
  {
    u == "Infinity" ||
    var e := ExponentMark(u, 0);
    DecimalMantissa(u[..e]) && (e == |u| || SignedInteger(u[e + 1..]))
  }

  /** `0x…`, `0o…` or `0b…` with at least one digit of that base. */
  predicate NonDecimalInteger(t: string)
  {
    |t| > 2 && t[0] == '0' &&
    ((t[1] in "xX" && forall i :: 2 <= i < |t| ==> IsHexDigit(t[i])) ||
     (t[1] in "oO" && forall i :: 2 <= i < |t| ==> '0' <= t[i] <= '7') ||
     (t[1] in "bB" && forall i :: 2 <= i < |t| ==> t[i] == '0' || t[i] == '1'))
  }

  /** `!isNaN(Number(s))`: after trimming, the text is empty (which converts to 0), a
      non-decimal integer, or a decimal literal with an optional sign. */
  predicate LooksNumeric(s: string)
  {
    var t := Trim(s);
    t == [] || NonDecimalInteger(t) || UnsignedDecimal(t) || (IsSign(t[0]) && UnsignedDecimal(t[1..]))
  }

  /** A decimal numeral such as `String(n)` produces is numeric. */
  lemma NumeralIsNumeric(n: nat)
    ensures LooksNumeric(NatToString(n))
  {
    DigitsAreNumeric(NatToString(n));
  }

  /** A non-empty run of digits is numeric. */
  lemma DigitsAreNumeric(s: string)
    requires s != [] && AllDigits(s)
    ensures LooksNumeric(s)
  {
    DigitsUntrimmed(s);
    var e := ExponentMark(s, 0);
    assert e == |s|;
    var dot := CharFrom(s, '.', 0);
    assert dot == |s|;
    assert s[..e] == s;
    assert UnsignedDecimal(s);
  }

  /** Digits are not white space, so trimming leaves them alone. */
  lemma DigitsUntrimmed(s: string)
    requires AllDigits(s)
    ensures Trim(s) == s
  {
    if s != [] {
      assert !IsSpace(s[0]) && !IsSpace(s[|s| - 1]);
    }
    assert TrimStart(s) == s;
  }

  // ---------------------------------------------------------------------------------------
  // Type compatibility

  /** `hasTypeIncompatibility`: a `string` type with an argument without quotes, a `number`
      type with an argument that is not numeric, or a `boolean` type with an argument other
      than `true` or `false`. */
  predicate HasTypeIncompatibility(expectedType: string, providedArg: string)
  {
    if Contains(expectedType, "string") && !Contains(providedArg, "\"") && !Contains(providedArg, "'") then true
    else if Contains(expectedType, "number") && !LooksNumeric(providedArg) then true
    else if Contains(expectedType, "boolean") && providedArg !in ["true", "false"] then true
    else false
  }

  /** `inferArgType`: a quote first means a string, then numbers, booleans, object and array
      literals; anything else is unknown. */
  function InferArgType(arg: string): (r: string)
    ensures r in {"string", "number", "boolean", "object", "array", "unknown"}
    ensures r == "string" <==> StartsWith(arg, "\"") || StartsWith(arg, "'")
  {
    if StartsWith(arg, "\"") || StartsWith(arg, "'") then "string"
    else if LooksNumeric(arg) then "number"
    else if arg in ["true", "false"] then "boolean"
    else if StartsWith(arg, "{") then "object"
    else if StartsWith(arg, "[") then "array"
    else "unknown"
  }

  /** The type check and the type inference agree: an argument whose inferred type is
      `string`, `number` or `boolean` is compatible with a parameter of exactly that type. */
  lemma InferredTypeIsCompatible(arg: string)
    ensures var t := InferArgType(arg);
      t in {"string", "number", "boolean"} ==> !HasTypeIncompatibility(t, arg)
  {
    var t := InferArgType(arg);
    if t == "string" {
      QuotedIsString(arg);
    } else if t == "number" {
      NumericIsNumber(arg);
    } else if t == "boolean" {
      BooleanLiteralIsBoolean(arg);
    }
  }

  /** A quoted argument suits a `string` type. */
  lemma QuotedIsString(arg: string)
    requires StartsWith(arg, "\"") || StartsWith(arg, "'")
    ensures !HasTypeIncompatibility("string", arg)
  {
    NotContained("string", "number");
    NotContained("string", "boolean");
    SelfContained("string");
    if StartsWith(arg, "\"") {
      assert OccursAt(arg, "\"", 0);
    } else {
      assert OccursAt(arg, "'", 0);
    }
  }

  /** A numeric argument suits a `number` type. */
  lemma NumericIsNumber(arg: string)
    requires LooksNumeric(arg)
    ensures !HasTypeIncompatibility("number", arg)
  {
    NotContained("number", "string");
    NotContained("number", "boolean");
  }

  /** `true` and `false` suit a `boolean` type. */
  lemma BooleanLiteralIsBoolean(arg: string)
    requires arg in ["true", "false"]
    ensures !HasTypeIncompatibility("boolean", arg)
  {
    NotContainedAnywhere("boolean", "string");
    NotContainedAnywhere("boolean", "number");
    SelfContained("boolean");
  }

  /** A type name shorter than or equal in length to another but different from it does not
      contain it. */
  lemma NotContained(s: string, t: string)
    requires |s| <= |t| && s != t
    ensures !Contains(s, t)
  {
    if |s| == |t| {
      assert s[0..|t|] == s;
    }
  }

  /** A text none of whose candidate positions holds the first character of `t` does not contain `t`. */
  lemma NotContainedAnywhere(s: string, t: string)
    requires t != [] && forall i :: 0 <= i && i + |t| <= |s| ==> s[i] != t[0]
    ensures !Contains(s, t)
  {
    forall i | 0 <= i && i + |t| <= |s|
      ensures !OccursAt(s, t, i)
    {
      assert s[i..i + |t|][0] == s[i];
    }
  }

  lemma SelfContained(s: string)
    ensures Contains(s, s)
  {
    assert s[0..|s|] == s;
  }

  /** The type issue for one parameter and the argument in its position, if any: only a
      parameter with a (non-empty) type can have one, and it is always a warning. */
  function TypeIssueOf(param: Parameter, arg: string): Option<TypeIssue>
  {
    if Truthy(param.typ) && HasTypeIncompatibility(param.typ.value, arg) then
      Some(TypeIssue(param.name, param.typ.value, InferArgType(arg), Warning))
    else None
  }

  /** A parameter typed exactly `string`, `number` or `boolean` draws no issue from an argument
      inferred to be of that type; so an issue against such a type never reports the expected
      type as the provided one, and a type naming none of the three never draws an issue. */
  lemma TypeIssueOfSpec(param: Parameter, arg: string)
    ensures param.typ == Some(InferArgType(arg)) && InferArgType(arg) in {"string", "number", "boolean"} ==>
      TypeIssueOf(param, arg) == None
    ensures TypeIssueOf(param, arg).Some? && TypeIssueOf(param, arg).value.expectedType in {"string", "number", "boolean"} ==>
      TypeIssueOf(param, arg).value.providedType != TypeIssueOf(param, arg).value.expectedType
    ensures TypeIssueOf(param, arg).Some? ==>
      var t := TypeIssueOf(param, arg).value.expectedType;
      Contains(t, "string") || Contains(t, "number") || Contains(t, "boolean")
  {
    InferredTypeIsCompatible(arg);
  }

  /** The issues `check` finds in the first `n` positions, in order; `analyzeTypeCompatibility`
      uses `TypeIssueOf`. */
  function TypeIssuesUpTo(check: (Parameter, string) -> Option<TypeIssue>, params: seq<Parameter>, args: seq<string>, n: nat): seq<TypeIssue>
    requires n <= |params| && n <= |args|
  {
    if n == 0 then [] else TypeIssuesUpTo(check, params, args, n - 1) + OptionToSeq(check(params[n - 1], args[n - 1]))
  }

  function Min(a: nat, b: nat): nat
  {
    if a < b then a else b
  }

  /** What `analyzeTypeCompatibility` returns: the positions both lists have are checked. */
  function TypeIssues(params: seq<Parameter>, args: seq<string>): seq<TypeIssue>
  {
    TypeIssuesUpTo(TypeIssueOf, params, args, Min(|params|, |args|))
  }

  /** Every issue found comes from some checked position. */
  lemma {:induction false} TypeIssuesUpToSound(check: (Parameter, string) -> Option<TypeIssue>, params: seq<Parameter>,
                                               args: seq<string>, n: nat, t: TypeIssue)
    requires n <= |params| && n <= |args| && t in TypeIssuesUpTo(check, params, args, n)
    ensures exists k :: 0 <= k < n && check(params[k], args[k]) == Some(t)
  {
    if t !in TypeIssuesUpTo(check, params, args, n - 1) {
      assert check(params[n - 1], args[n - 1]) == Some(t);
    } else {
      TypeIssuesUpToSound(check, params, args, n - 1, t);
    }
  }

  /** Every checked position with an issue has it among those found. */
  lemma {:induction false} TypeIssuesUpToComplete(check: (Parameter, string) -> Option<TypeIssue>, params: seq<Parameter>,
                                                  args: seq<string>, n: nat, k: nat)
    requires k < n <= |params| && n <= |args| && check(params[k], args[k]).Some?
    ensures check(params[k], args[k]).value in TypeIssuesUpTo(check, params, args, n)
  {
    if k < n - 1 {
      TypeIssuesUpToComplete(check, params, args, n - 1, k);
    }
  }

  /** At most one issue per checked position. */
  lemma {:induction false} TypeIssuesUpToLength(check: (Parameter, string) -> Option<TypeIssue>, params: seq<Parameter>,
                                                args: seq<string>, n: nat)
    requires n <= |params| && n <= |args|
    ensures |TypeIssuesUpTo(check, params, args, n)| <= n
  {
    if n > 0 {
      TypeIssuesUpToLength(check, params, args, n - 1);
    }
  }

  /** `t` is the issue of a typed parameter at position `k` whose argument does not fit. */
  predicate IssueAt(params: seq<Parameter>, args: seq<string>, k: int, t: TypeIssue)
  {
    0 <= k < |params| && k < |args| && Truthy(params[k].typ) && HasTypeIncompatibility(params[k].typ.value, args[k]) &&
    t == TypeIssue(params[k].name, params[k].typ.value, InferArgType(args[k]), Warning)
  }

  /** `analyzeTypeCompatibility` yields at most `min(|params|, |args|)` issues, all warnings,
      each about a typed parameter whose argument does not fit, with the argument's inferred
      type; and it misses no such parameter. */
  lemma TypeIssuesFacts(params: seq<Parameter>, args: seq<string>)
    ensures var r := TypeIssues(params, args);
      |r| <= |params| && |r| <= |args| &&
      (forall t :: t in r ==>
         t.severity == Warning &&
         exists k :: IssueAt(params, args, k, t)) &&
      (forall k :: 0 <= k < |params| && k < |args| && Truthy(params[k].typ) && HasTypeIncompatibility(params[k].typ.value, args[k]) ==>
         TypeIssue(params[k].name, params[k].typ.value, InferArgType(args[k]), Warning) in r)
  {
    var n := Min(|params|, |args|);
    TypeIssuesUpToLength(TypeIssueOf, params, args, n);
    forall t | t in TypeIssues(params, args)
      ensures t.severity == Warning && exists k :: IssueAt(params, args, k, t)
    {
      TypeIssuesUpToSound(TypeIssueOf, params, args, n, t);
      var k :| 0 <= k < n && TypeIssueOf(params[k], args[k]) == Some(t);
      assert IssueAt(params, args, k, t);
    }
    forall k | 0 <= k < |params| && k < |args| && Truthy(params[k].typ) && HasTypeIncompatibility(params[k].typ.value, args[k])
      ensures TypeIssue(params[k].name, params[k].typ.value, InferArgType(args[k]), Warning) in TypeIssues(params, args)
    {
      TypeIssuesUpToComplete(TypeIssueOf, params, args, n, k);
    }
  }

  /** `analyzeTypeCompatibility`. */
  method AnalyzeTypeCompatibility(expectedParams: seq<Parameter>, providedArgs: seq<string>) returns (typeIssues: seq<TypeIssue>)
    ensures typeIssues == TypeIssues(expectedParams, providedArgs)
  {
    typeIssues := [];
    var n := if |expectedParams| < |providedArgs| then |expectedParams| else |providedArgs|;
    var i := 0;
    while i < n
      invariant 0 <= i <= n
      invariant typeIssues == TypeIssuesUpTo(TypeIssueOf, expectedParams, providedArgs, i)
    {
      var param := expectedParams[i];
      var arg := providedArgs[i];
      if Truthy(param.typ) && HasTypeIncompatibility(param.typ.value, arg) {
        typeIssues := typeIssues + [TypeIssue(param.name, param.typ.value, InferArgType(arg), Warning)];
      }
      i := i + 1;
    }
  }

  // ---------------------------------------------------------------------------------------
  // Breaking calls

  /** The breaking call recorded for a call site, when it passes fewer arguments than there
      are required parameters: the required parameters from position `provided` on are missing. */
  function BreakingCallOf(func: FunctionInfo): TreeCallSite -> Option<BreakingCall>
  {
    (site: TreeCallSite) =>
      var required := RequiredParameters(func.parameters);
      if |site.arguments| < |required| then
        Some(BreakingCall(site.filePath, site.line, site.column, site.context, |required|, |site.arguments|,
                          required[|site.arguments|..], TypeIssues(func.parameters, site.arguments)))
      else None
  }

  /** What `validateCallCompatibility` returns. */
  function BreakingCalls(func: FunctionInfo, callSites: seq<TreeCallSite>): seq<BreakingCall>
  {
    FilterMap(callSites, BreakingCallOf(func))
  }

  /** A call site breaks exactly when it passes fewer arguments than there are required
      parameters (extra arguments are never reported); its record then lists the missing
      required parameters, `expected - provided` of them, and the type issues of its arguments. */
  lemma BreakingCallOfSpec(func: FunctionInfo, site: TreeCallSite)
    ensures var r := BreakingCallOf(func)(site);
      var required := RequiredParameters(func.parameters);
      (r.Some? <==> |site.arguments| < |required|) &&
      (r.Some? ==>
         r.value.filePath == site.filePath && r.value.line == site.line && r.value.column == site.column &&
         r.value.expectedArgs == |required| && r.value.providedArgs == |site.arguments| &&
         r.value.missingParams == required[|site.arguments|..] &&
         |r.value.missingParams| == r.value.expectedArgs - r.value.providedArgs &&
         r.value.typeIssues == TypeIssues(func.parameters, site.arguments))
  {
  }

  /** Every breaking call comes from a call site with too few arguments, and every such call
      site has its breaking call. */
  lemma BreakingCallsFacts(func: FunctionInfo, callSites: seq<TreeCallSite>)
    ensures forall b :: b in BreakingCalls(func, callSites) ==>
      b.providedArgs < b.expectedArgs == |RequiredParameters(func.parameters)| &&
      b.missingParams == RequiredParameters(func.parameters)[b.providedArgs..] &&
      exists i :: 0 <= i < |callSites| && callSites[i].filePath == b.filePath && callSites[i].line == b.line &&
        callSites[i].column == b.column && |callSites[i].arguments| == b.providedArgs
    ensures forall i :: 0 <= i < |callSites| && |callSites[i].arguments| < |RequiredParameters(func.parameters)| ==>
      BreakingCallOf(func)(callSites[i]).value in BreakingCalls(func, callSites)
  {
    var f := BreakingCallOf(func);
    forall b | b in BreakingCalls(func, callSites)
      ensures b.providedArgs < b.expectedArgs == |RequiredParameters(func.parameters)| &&
        b.missingParams == RequiredParameters(func.parameters)[b.providedArgs..] &&
        exists i :: 0 <= i < |callSites| && callSites[i].filePath == b.filePath && callSites[i].line == b.line &&
          callSites[i].column == b.column && |callSites[i].arguments| == b.providedArgs
    {
      FilterMapMembership(callSites, f, b);
      var i :| 0 <= i < |callSites| && f(callSites[i]) == Some(b);
      BreakingCallOfSpec(func, callSites[i]);
    }
    forall i | 0 <= i < |callSites| && |callSites[i].arguments| < |RequiredParameters(func.parameters)|
      ensures f(callSites[i]).value in BreakingCalls(func, callSites)
    {
      BreakingCallOfSpec(func, callSites[i]);
      FilterMapMembership(callSites, f, f(callSites[i]).value);
    }
  }

  /** `validateCallCompatibility`. */
  method ValidateCallCompatibility(func: FunctionInfo, callSites: seq<TreeCallSite>) returns (breakingCalls: seq<BreakingCall>)
    ensures breakingCalls == BreakingCalls(func, callSites)
  {
    var check := BreakingCallOf(func);
    breakingCalls := [];
    var i := 0;
    while i < |callSites|
      invariant 0 <= i <= |callSites|
      invariant breakingCalls == FilterMap(callSites[..i], check)
    {
      FilterMapStep(callSites, i, check);
      var callSite := callSites[i];
      var requiredParams := RequiredParameters(func.parameters);
      var providedArgs := |callSite.arguments|;
      var expectedArgs := |requiredParams|;
      if providedArgs < expectedArgs {
        var missingParams := requiredParams[providedArgs..];
        var typeIssues := AnalyzeTypeCompatibility(func.parameters, callSite.arguments);
        breakingCalls := breakingCalls + [BreakingCall(callSite.filePath, callSite.line, callSite.column, callSite.context,
                                                       expectedArgs, providedArgs, missingParams, typeIssues)];
      }
      i := i + 1;
    }
    assert callSites[..i] == callSites;
  }

  // ---------------------------------------------------------------------------------------
  // Call sites

  /** The enhanced matching: the same name, a method call `obj.name`, or a context that
      contains `name(`. */
  predicate MatchesFunction(call: Call, name: string)
  {
    call.name == name || EndsWith(call.name, "." + name) || Contains(call.context, name + "(")
  }

  /** The enhanced matching accepts every call the basic cross-file analyzer accepts. */
  lemma MatchesFunctionExtendsBasic(call: Call, name: string)
    ensures BasicCrossFile.IsCallToFunction(call.name, name) ==> MatchesFunction(call, name)
  {
  }

  /** The call site recorded for a call in `file`, when it matches `name`. */
  function SiteOf(file: string, name: string): Call -> Option<TreeCallSite>
  {
    (c: Call) =>
      if MatchesFunction(c, name) then Some(TreeCallSite(file, c.line, c.column, c.context, c.arguments)) else None
  }

  /** The call sites in one file: none in the defining file, or in a file that cannot be read. */
  function FileCallSites(func: FunctionInfo, fs: FileSystem, treeOn: bool, file: string): seq<TreeCallSite>
  {
    if file == func.file || file !in fs then []
    else FilterMap(FallbackCalls(treeOn, fs[file].content, file, fs[file].syntax), SiteOf(file, func.name))
  }

  function CallSitesIn(func: FunctionInfo, fs: FileSystem, treeOn: bool): string -> seq<TreeCallSite>
  {
    (file: string) => FileCallSites(func, fs, treeOn, file)
  }

  /** What `findCallSitesWithTreeSitter` returns, in file order, then call order. */
  function CallSitesWithTreeSitter(func: FunctionInfo, allFiles: seq<string>, fs: FileSystem, treeOn: bool): seq<TreeCallSite>
  {
    FlatMap(allFiles, CallSitesIn(func, fs, treeOn))
  }

  /** Every call site lies in a readable file among `allFiles` other than the defining one,
      and is a matching call there, with its position and argument texts. */
  lemma CallSitesFacts(func: FunctionInfo, allFiles: seq<string>, fs: FileSystem, treeOn: bool, site: TreeCallSite)
    requires site in CallSitesWithTreeSitter(func, allFiles, fs, treeOn)
    ensures site.filePath in allFiles && site.filePath != func.file && site.filePath in fs
    ensures exists c :: c in FallbackCalls(treeOn, fs[site.filePath].content, site.filePath, fs[site.filePath].syntax) &&
              MatchesFunction(c, func.name) && c.line == site.line && c.column == site.column &&
              c.context == site.context && c.arguments == site.arguments
  {
    FlatMapMembership(allFiles, CallSitesIn(func, fs, treeOn), site);
    var i :| 0 <= i < |allFiles| && site in CallSitesIn(func, fs, treeOn)(allFiles[i]);
    var file := allFiles[i];
    var calls := FallbackCalls(treeOn, fs[file].content, file, fs[file].syntax);
    FilterMapMembership(calls, SiteOf(file, func.name), site);
  }

  /** The loop over one file's calls. */
  method SitesInCalls(func: FunctionInfo, file: string, calls: seq<Call>) returns (callSites: seq<TreeCallSite>)
    ensures callSites == FilterMap(calls, SiteOf(file, func.name))
  {
    callSites := [];
    var i := 0;
    while i < |calls|
      invariant 0 <= i <= |calls|
      invariant callSites == FilterMap(calls[..i], SiteOf(file, func.name))
    {
      FilterMapStep(calls, i, SiteOf(file, func.name));
      var call := calls[i];
      if call.name == func.name || EndsWith(call.name, "." + func.name) || Contains(call.context, func.name + "(") {
        callSites := callSites + [TreeCallSite(file, call.line, call.column, call.context, call.arguments)];
      }
      i := i + 1;
    }
    assert calls[..i] == calls;
  }

  // ---------------------------------------------------------------------------------------
  // Changes

  /** The change recorded for a definition: only when it is likely changed and has at least
      one breaking call. */
  function ChangeOf(analyse: FunctionInfo -> SignatureAnalysis, allFiles: seq<string>, fs: FileSystem, treeOn: bool): FunctionInfo -> Option<SignatureChange>
  {
    (func: FunctionInfo) =>
      var analysis := analyse(func);
      if !analysis.isLikelyChanged then None
      else
        var breakingCalls := BreakingCalls(func, CallSitesWithTreeSitter(func, allFiles, fs, treeOn));
        if |breakingCalls| > 0 then
          Some(SignatureChange(func, DetermineChangeType(func, analysis.aiPatterns), breakingCalls, analysis.confidence,
                               DetermineSeverity(analysis, breakingCalls), analysis.aiPatterns))
        else None
  }

  /** What `detectSignatureChanges` returns, in definition order. Every definition is
      analysed, exported or not. */
  function SignatureChanges(currentFunctions: seq<FunctionInfo>, analyse: FunctionInfo -> SignatureAnalysis,
                            allFiles: seq<string>, fs: FileSystem, treeOn: bool): seq<SignatureChange>
  {
    FilterMap(currentFunctions, ChangeOf(analyse, allFiles, fs, treeOn))
  }

  /** A definition has a change exactly when it is likely changed and some call site in
      another file breaks; the change is then an error with the analysis' confidence and
      patterns and the change type they determine. */
  lemma ChangeOfSpec(analyse: FunctionInfo -> SignatureAnalysis, allFiles: seq<string>, fs: FileSystem, treeOn: bool, func: FunctionInfo)
    ensures var r := ChangeOf(analyse, allFiles, fs, treeOn)(func);
      var breakingCalls := BreakingCalls(func, CallSitesWithTreeSitter(func, allFiles, fs, treeOn));
      (r.Some? <==> analyse(func).isLikelyChanged && breakingCalls != []) &&
      (r.Some? ==>
         r.value.func == func && r.value.breakingCalls == breakingCalls && r.value.severity == Error &&
         r.value.confidence == analyse(func).confidence && r.value.aiPatterns == analyse(func).aiPatterns &&
         r.value.changeType == DetermineChangeType(func, analyse(func).aiPatterns))
  {
  }

  /** Every change is about one of the definitions, is an error, and lists at least one
      breaking call, each from another readable file and each short of arguments. */
  lemma SignatureChangesFacts(currentFunctions: seq<FunctionInfo>, analyse: FunctionInfo -> SignatureAnalysis,
                              allFiles: seq<string>, fs: FileSystem, treeOn: bool, change: SignatureChange)
    requires change in SignatureChanges(currentFunctions, analyse, allFiles, fs, treeOn)
    ensures change.func in currentFunctions && analyse(change.func).isLikelyChanged
    ensures change.severity == Error && change.breakingCalls != []
    ensures forall b :: b in change.breakingCalls ==>
      b.providedArgs < b.expectedArgs == |RequiredParameters(change.func.parameters)| &&
      b.filePath in allFiles && b.filePath != change.func.file && b.filePath in fs
  {
    var f := ChangeOf(analyse, allFiles, fs, treeOn);
    FilterMapMembership(currentFunctions, f, change);
    var i :| 0 <= i < |currentFunctions| && f(currentFunctions[i]) == Some(change);
    var func := currentFunctions[i];
    ChangeOfSpec(analyse, allFiles, fs, treeOn, func);
    var sites := CallSitesWithTreeSitter(func, allFiles, fs, treeOn);
    BreakingCallsFacts(func, sites);
    forall b | b in change.breakingCalls
      ensures b.filePath in allFiles && b.filePath != func.file && b.filePath in fs
    {
      var j :| 0 <= j < |sites| && sites[j].filePath == b.filePath && sites[j].line == b.line &&
        sites[j].column == b.column && |sites[j].arguments| == b.providedArgs;
      CallSitesFacts(func, allFiles, fs, treeOn, sites[j]);
    }
  }

  /** Every likely-changed definition with a breaking call is reported. */
  lemma SignatureChangesComplete(currentFunctions: seq<FunctionInfo>, analyse: FunctionInfo -> SignatureAnalysis,
                                 allFiles: seq<string>, fs: FileSystem, treeOn: bool, i: nat)
    requires i < |currentFunctions| && analyse(currentFunctions[i]).isLikelyChanged
    requires BreakingCalls(currentFunctions[i], CallSitesWithTreeSitter(currentFunctions[i], allFiles, fs, treeOn)) != []
    ensures exists change: SignatureChange :: change.func == currentFunctions[i] &&
                                              change in SignatureChanges(currentFunctions, analyse, allFiles, fs, treeOn)
  {
    var f := ChangeOf(analyse, allFiles, fs, treeOn);
    ChangeOfSpec(analyse, allFiles, fs, treeOn, currentFunctions[i]);
    FilterMapMembership(currentFunctions, f, f(currentFunctions[i]).value);
  }

  /** `EnhancedSignatureDetector`, which owns a parser built with tree-sitter requested,
      fallback on and debug output on. */
  class EnhancedSignatureDetector {
    const parser: EnhancedASTParser

    /** `new EnhancedSignatureDetector()`; `treeSitterLoads` says whether tree-sitter can be set up. */
    constructor(treeSitterLoads: bool)
      ensures fresh(parser) && parser.Valid() && parser.fallbackToRegex && parser.debugMode
      ensures parser.useTreeSitter == treeSitterLoads
    {
      parser := new EnhancedASTParser(Some(true), Some(true), Some(true), treeSitterLoads);
    }

    /** One file of `findCallSitesWithTreeSitter`' loop; a file that cannot be read is skipped. */
    method CallSitesInFile(func: FunctionInfo, file: string, fs: FileSystem) returns (callSites: seq<TreeCallSite>)
      requires parser.fallbackToRegex
      ensures callSites == CallSitesIn(func, fs, parser.useTreeSitter && parser.hasTreeParser)(file)
    {
      callSites := [];
      if file == func.file || file !in fs {
        return;
      }
      var calls := parser.ExtractFunctionCalls(fs[file].content, file, fs[file].syntax);
      callSites := SitesInCalls(func, file, calls.value);
    }

    /** `findCallSitesWithTreeSitter`. */
    method FindCallSitesWithTreeSitter(func: FunctionInfo, allFiles: seq<string>, fs: FileSystem) returns (callSites: seq<TreeCallSite>)
      requires parser.fallbackToRegex
      ensures callSites == CallSitesWithTreeSitter(func, allFiles, fs, parser.useTreeSitter && parser.hasTreeParser)
    {
      callSites := [];
      var i := 0;
      while i < |allFiles|
        invariant 0 <= i <= |allFiles|
        invariant callSites == FlatMap(allFiles[..i], CallSitesIn(func, fs, parser.useTreeSitter && parser.hasTreeParser))
      {
        FlatMapStep(allFiles, i, CallSitesIn(func, fs, parser.useTreeSitter && parser.hasTreeParser));
        var found := CallSitesInFile(func, allFiles[i], fs);
        callSites := callSites + found;
        i := i + 1;
      }
      assert allFiles[..i] == allFiles;
    }

    /** One definition of `detectSignatureChanges`' loop. */
    method ChangeFor(func: FunctionInfo, allFiles: seq<string>, fs: FileSystem, analyse: FunctionInfo -> SignatureAnalysis)
      returns (change: Option<SignatureChange>)
      requires parser.fallbackToRegex
      ensures change == ChangeOf(analyse, allFiles, fs, parser.useTreeSitter && parser.hasTreeParser)(func)
    {
      var potentialChange := analyse(func);
      if !potentialChange.isLikelyChanged {
        return None;
      }
      var callSites := FindCallSitesWithTreeSitter(func, allFiles, fs);
      var breakingCalls := ValidateCallCompatibility(func, callSites);
      if |breakingCalls| > 0 {
        change := Some(SignatureChange(func, DetermineChangeType(func, potentialChange.aiPatterns), breakingCalls,
                                       potentialChange.confidence, DetermineSeverity(potentialChange, breakingCalls),
                                       potentialChange.aiPatterns));
      } else {
        change := None;
      }
    }

    /** `detectSignatureChanges`, with each definition's pattern analysis given by `analyse`. */
    method DetectSignatureChanges(currentFunctions: seq<FunctionInfo>, allFiles: seq<string>, fs: FileSystem,
                                  analyse: FunctionInfo -> SignatureAnalysis) returns (changes: seq<SignatureChange>)
      requires parser.fallbackToRegex
      ensures changes == SignatureChanges(currentFunctions, analyse, allFiles, fs, parser.useTreeSitter && parser.hasTreeParser)
    {
      var treeOn := parser.useTreeSitter && parser.hasTreeParser;
      var record := ChangeOf(analyse, allFiles, fs, treeOn);
      changes := [];
      var i := 0;
      while i < |currentFunctions|
        invariant 0 <= i <= |currentFunctions|
        invariant changes == FilterMap(currentFunctions[..i], record)
      {
        FilterMapStep(currentFunctions, i, record);
        var change := ChangeFor(currentFunctions[i], allFiles, fs, analyse);
        if change.Some? {
          changes := changes + [change.value];
        }
        i := i + 1;
      }
      assert currentFunctions[..i] == currentFunctions;
    }
  }
}
