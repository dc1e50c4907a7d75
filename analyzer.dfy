/** The analysis driver (src/analysis/analyzer.ts): it keeps the files that exist, have a
    JavaScript or TypeScript extension and pass the configured glob patterns, analyses at
    most `maxFiles` of them with the function-signature detector, adds an issue for a
    confident AI-authorship verdict, and summarises. The AI detector's verdict is an input,
    and the clock readings behind `timeMs` and the timestamp are not modelled. Paths are
    taken to be relative to the working directory already. */
module Analyzer {
  import opened Wrappers
  import opened Seqs
  import opened Strings
  import opened Types
  import FunctionSignature

  // ---------------------------------------------------------------------------------------
  // Records

  /** The parts of the configuration the analyzer reads. */
  datatype Config = Config(
    includePatterns: seq<string>,
    excludePatterns: seq<string>,
    maxFiles: int,
    functionSignatureChange: bool,
    importExportMismatch: bool,
    typeMismatch: bool,
    aiDetection: bool)

  /** The AI detector's verdict: whether the changes look AI-generated, its confidence, the
      types of the patterns it found and its reasons. */
  datatype AIResult = AIResult(isAIGenerated: bool, confidence: real, patterns: seq<string>, reasoning: seq<string>)

  datatype Summary = Summary(filesAnalyzed: nat, errors: nat, warnings: nat, aiDetections: nat)

  datatype Metadata = Metadata(version: string, aiDetectionEnabled: bool, rulesUsed: seq<string>)

  datatype AnalysisResult = AnalysisResult(
    success: bool,
    confidence: real,
    aiGenerated: bool,
    issues: seq<Issue>,
    summary: Summary,
    metadata: Metadata)

  // ---------------------------------------------------------------------------------------
  // Glob patterns

  /** A piece of the regular expression a glob pattern becomes: a literal character,
      `[^/]*`, or `.*`. */
  datatype GlobToken = Lit(c: char) | NonSlashRun | AnyRun

  /** The regular expression a glob pattern is meant to become: `**` any run of characters,
      `*` a run without `/`, every other character itself. */
  function GlobTokens(p: string): seq<GlobToken>
    decreases |p|
  {
    if p == [] then []
    else if |p| >= 2 && p[0] == '*' && p[1] == '*' then [AnyRun] + GlobTokens(p[2..])
    else if p[0] == '*' then [NonSlashRun] + GlobTokens(p[1..])
    else [Lit(p[0])] + GlobTokens(p[1..])
  }

  /** The regular expression `matchesPattern` builds: `**` is first replaced by `.*`, whose
      `*` the second replacement turns into `[^/]*` and whose `.` the third escapes, so `**`
      ends up as a literal `.` followed by a run without `/`. */
  function GlobTokensAsWritten(p: string): seq<GlobToken>
    decreases |p|
  {
    if p == [] then []
    else if |p| >= 2 && p[0] == '*' && p[1] == '*' then [Lit('.'), NonSlashRun] + GlobTokensAsWritten(p[2..])
    else if p[0] == '*' then [NonSlashRun] + GlobTokensAsWritten(p[1..])
    else [Lit(p[0])] + GlobTokensAsWritten(p[1..])
  }

  /** `^tokens$` tested against `s` from `j`, the tokens from `i`: some way of consuming the
      rest of `s` exactly, as the backtracking matcher searches for. `.` does not match a line
      terminator; `[^/]` does. */
  predicate MatchesFrom(tokens: seq<GlobToken>, i: nat, s: string, j: nat)
    requires i <= |tokens| && j <= |s|
    decreases |tokens| - i, |s| - j
  {
    if i == |tokens| then j == |s|
    else match tokens[i]
      case Lit(c) => j < |s| && s[j] == c && MatchesFrom(tokens, i + 1, s, j + 1)
      case NonSlashRun => MatchesFrom(tokens, i + 1, s, j) || (j < |s| && s[j] != '/' && MatchesFrom(tokens, i, s, j + 1))
      case AnyRun => MatchesFrom(tokens, i + 1, s, j) || (j < |s| && !IsLineTerminator(s[j]) && MatchesFrom(tokens, i, s, j + 1))
  }

  /** `matchesPattern(filePath, pattern)` as intended. */
  predicate MatchesPattern(filePath: string, pattern: string)
  {
    MatchesFrom(GlobTokens(pattern), 0, filePath, 0)
  }

  /** `matchesPattern(filePath, pattern)` as written. */
  predicate MatchesPatternAsWritten(filePath: string, pattern: string)
  {
    MatchesFrom(GlobTokensAsWritten(pattern), 0, filePath, 0)
  }

  /** A last `*` matches exactly a rest without `/`. */
  lemma {:induction false} NonSlashRunSpec(tokens: seq<GlobToken>, s: string, j: nat)
    requires tokens == [NonSlashRun] && j <= |s|
    ensures MatchesFrom(tokens, 0, s, j) <==> forall k :: j <= k < |s| ==> s[k] != '/'
    decreases |s| - j
  {
    if j < |s| {
      NonSlashRunSpec(tokens, s, j + 1);
    }
  }

  /** A last `**` matches exactly a rest without line terminators, `/` included. */
  lemma {:induction false} AnyRunSpec(tokens: seq<GlobToken>, s: string, j: nat)
    requires tokens == [AnyRun] && j <= |s|
    ensures MatchesFrom(tokens, 0, s, j) <==> forall k :: j <= k < |s| ==> !IsLineTerminator(s[k])
    decreases |s| - j
  {
    if j < |s| {
      AnyRunSpec(tokens, s, j + 1);
    }
  }

  /** `**` can swallow any stretch without line terminators before the rest matches. */
  lemma {:induction false} AnyRunSkips(tokens: seq<GlobToken>, i: nat, s: string, j: nat, m: nat)
    requires i < |tokens| && tokens[i] == AnyRun && j <= m <= |s|
    requires forall k :: j <= k < m ==> !IsLineTerminator(s[k])
    requires MatchesFrom(tokens, i + 1, s, m)
    ensures MatchesFrom(tokens, i, s, j)
    decreases m - j
  {
    if j < m {
      AnyRunSkips(tokens, i, s, j + 1, m);
    }
  }

  /** As written, a pattern that starts with `**` only matches paths that start with `.`. */
  lemma AsWrittenDoubleStarNeedsDot(filePath: string, rest: string)
    ensures MatchesPatternAsWritten(filePath, "**" + rest) ==> filePath != [] && filePath[0] == '.'
  {
    var p := "**" + rest;
    assert p[2..] == rest;
    assert GlobTokensAsWritten(p) == [Lit('.'), NonSlashRun] + GlobTokensAsWritten(rest);
  }

  /** A pattern of a double star, a slash, a star and `.ts`, on `src/a.ts`: intended to match, and rejected as written. */
  lemma DoubleStarFinding()
    ensures MatchesPattern("src/a.ts", "**/*.ts")
    ensures !MatchesPatternAsWritten("src/a.ts", "**/*.ts")
  {
    var p := "**/*.ts";
    var s := "src/a.ts";
    var t := [AnyRun, Lit('/'), NonSlashRun, Lit('.'), Lit('t'), Lit('s')];
    assert p[2..] == "/*.ts" && p[2..][1..] == "*.ts" && p[2..][1..][1..] == ".ts";
    assert GlobTokens(".ts") == [Lit('.'), Lit('t'), Lit('s')];
    assert GlobTokens(p) == t;
    assert MatchesFrom(t, 6, s, 8);
    assert MatchesFrom(t, 3, s, 5);
    assert MatchesFrom(t, 2, s, 4);
    assert MatchesFrom(t, 1, s, 3);
    AnyRunSkips(t, 0, s, 0, 3);
    AsWrittenDoubleStarNeedsDot(s, "/*.ts");
  }

  /** Some pattern of `patterns` matches the path, with `**` read as intended. */
  predicate AnyMatches(filePath: string, patterns: seq<string>)
  {
    exists k :: 0 <= k < |patterns| && MatchesPattern(filePath, patterns[k])
  }

  /** `shouldIncludeFile` with the intended `**` (`MatchesPattern`, not
      `MatchesPatternAsWritten`): no exclude pattern matches and some include pattern does. */
  predicate ShouldInclude(config: Config, filePath: string)
  {
    !AnyMatches(filePath, config.excludePatterns) && AnyMatches(filePath, config.includePatterns)
  }

  /** `exists` and `isSupportedFile` hold and the patterns admit the file. */
  predicate IsValidFile(config: Config, fs: FileSystem, file: string)
  {
    file in fs && IsJavaScriptPath(file) && ShouldInclude(config, file)
  }

  function ValidFileTest(config: Config, fs: FileSystem): string -> bool
  {
    (file: string) => IsValidFile(config, fs, file)
  }

  /** What `filterValidFiles` returns. */
  function ValidFiles(config: Config, files: seq<string>, fs: FileSystem): seq<string>
  {
    Filter(files, ValidFileTest(config, fs))
  }

  /** `validFiles.slice(0, maxFiles)`: a negative end counts from the back. */
  function Prefix(s: seq<string>, end: int): (r: seq<string>)
    ensures end >= 0 ==> |r| == if end < |s| then end else |s|
    ensures |r| <= |s| && r == s[..|r|]
  {
    if end >= 0 then s[..if end < |s| then end else |s|]
    else s[..if |s| + end > 0 then |s| + end else 0]
  }

  // ---------------------------------------------------------------------------------------
  // Rules, confidence and the AI issue

  const AllRules: seq<string> := ["function-signature-change", "import-export-mismatch", "type-mismatch"]

  /** Whether the rule of each name in `AllRules` is enabled. */
  function RuleEnabled(config: Config): string -> bool
  {
    (rule: string) =>
      (rule == "function-signature-change" && config.functionSignatureChange) ||
      (rule == "import-export-mismatch" && config.importExportMismatch) ||
      (rule == "type-mismatch" && config.typeMismatch)
  }

  /** `getEnabledRules`. */
  function EnabledRules(config: Config): seq<string>
  {
    (if config.functionSignatureChange then ["function-signature-change"] else []) +
    (if config.importExportMismatch then ["import-export-mismatch"] else []) +
    (if config.typeMismatch then ["type-mismatch"] else [])
  }

  /** The enabled rules are the rules of `AllRules` that are enabled, in that order. */
  lemma EnabledRulesSpec(config: Config)
    ensures EnabledRules(config) == Filter(AllRules, RuleEnabled(config))
  {
    var f := RuleEnabled(config);
    assert AllRules[..2] == ["function-signature-change", "import-export-mismatch"];
    assert AllRules[..2][..1] == ["function-signature-change"];
    assert Filter(AllRules[..2][..1], f) == (if config.functionSignatureChange then ["function-signature-change"] else []);
  }

  function ConfidenceOf(issue: Issue): real
  {
    issue.confidence
  }

  /** The sum of `values`, added from the left (`reduce((sum, conf) => sum + conf, 0)`). */
  function Sum(values: seq<real>): real
  {
    if values == [] then 0.0 else Sum(values[..|values| - 1]) + values[|values| - 1]
  }

  /** Values in [0, 1] have a sum between 0 and their number. */
  lemma {:induction false} SumBounds(values: seq<real>)
    requires forall k :: 0 <= k < |values| ==> 0.0 <= values[k] <= 1.0
    ensures 0.0 <= Sum(values) <= |values| as real
  {
    if values != [] {
      SumBounds(values[..|values| - 1]);
    }
  }

  /** `calculateOverallConfidence`: 0.95 without issues, otherwise the mean of the issue
      confidences and the AI confidence, averaged and capped at 0.99. */
  function OverallConfidence(issues: seq<Issue>, aiConfidence: real): real
  {
    if issues == [] then 0.95
    else MinReal((Sum(Map(issues, ConfidenceOf)) / |issues| as real + aiConfidence) / 2.0, 0.99)
  }

  /** The mean of `n` values whose sum lies between 0 and `n` lies in [0, 1]. */
  lemma MeanBounds(sum: real, n: real)
    requires 0.0 < n && 0.0 <= sum <= n
    ensures 0.0 <= sum / n <= 1.0
  {
    assert sum / n * n == sum;
  }

  /** With issues, the overall confidence never exceeds 0.99, and when every confidence is in
      [0, 1] it is in [0, 0.99]. */
  lemma OverallConfidenceBounds(issues: seq<Issue>, aiConfidence: real)
    ensures issues == [] ==> OverallConfidence(issues, aiConfidence) == 0.95
    ensures issues != [] ==> OverallConfidence(issues, aiConfidence) <= 0.99
    ensures (forall k :: 0 <= k < |issues| ==> 0.0 <= issues[k].confidence <= 1.0) && 0.0 <= aiConfidence <= 1.0 ==>
      0.0 <= OverallConfidence(issues, aiConfidence) <= 0.99
  {
    if issues != [] && (forall k :: 0 <= k < |issues| ==> 0.0 <= issues[k].confidence <= 1.0) && 0.0 <= aiConfidence {
      var values := Map(issues, ConfidenceOf);
      SumBounds(values);
      MeanBounds(Sum(values), |issues| as real);
    }
  }

  /** The issue for a confident AI verdict, at the first analysed file (the empty path when
      there is none). */
  function AIIssue(filesToAnalyze: seq<string>, ai: AIResult): Issue
  {
    Issue(
      AIPatternDetected, Warning,
      "AI-generated changes detected (" + IntToString(Round(ai.confidence * 100.0)) + "% confidence)",
      if filesToAnalyze != [] then filesToAnalyze[0] else "", None, None,
      NoDetails().(aiPatterns := Some(ai.patterns), aiConfidence := Some(ai.confidence),
                   context := Some(Join(ai.reasoning, "; "))),
      ["Review changes carefully before committing",
       "Test all affected functionality",
       "Consider running additional validation"],
      ai.confidence)
  }

  // ---------------------------------------------------------------------------------------
  // The analysis

  predicate IsError(issue: Issue)
  {
    issue.severity == Error
  }

  predicate IsWarning(issue: Issue)
  {
    issue.severity == Warning
  }

  function CountErrors(issues: seq<Issue>): nat
  {
    |Filter(issues, IsError)|
  }

  function CountWarnings(issues: seq<Issue>): nat
  {
    |Filter(issues, IsWarning)|
  }

  /** `createEmptyResult`. */
  function EmptyResult(config: Config): AnalysisResult
  {
    AnalysisResult(true, 1.0, false, [], Summary(0, 0, 0, 0), Metadata("1.0.0", config.aiDetection, EnabledRules(config)))
  }

  /** The issues of an analysis: the function-signature issues of the corrected `detect`
      (`FunctionSignature.Detected`; as written it reports none, see
      `FunctionSignature.DetectedAsWrittenIsEmpty`) when that rule is on, then the AI issue when
      the detector is on, says AI-generated, and is more than 0.7 confident. */
  function AnalysisIssues(config: Config, filesToAnalyze: seq<string>, fs: FileSystem, ai: AIResult): seq<Issue>
  {
    (if config.functionSignatureChange then FunctionSignature.Detected(filesToAnalyze, fs) else []) +
    (if config.aiDetection && ai.isAIGenerated && ai.confidence > 0.7 then [AIIssue(filesToAnalyze, ai)] else [])
  }

  /** The result of an analysis of the files to analyze, once there are valid files. */
  function ResultOf(config: Config, filesToAnalyze: seq<string>, issues: seq<Issue>, aiGenerated: bool, aiConfidence: real): AnalysisResult
  {
    AnalysisResult(
      CountErrors(issues) == 0, OverallConfidence(issues, aiConfidence), aiGenerated, issues,
      Summary(|filesToAnalyze|, CountErrors(issues), CountWarnings(issues), if aiGenerated then 1 else 0),
      Metadata("1.0.0", config.aiDetection, EnabledRules(config)))
  }

  /** What `analyze` returns. */
  function Analysis(config: Config, files: seq<string>, fs: FileSystem, ai: AIResult): AnalysisResult
  {
    var validFiles := ValidFiles(config, files, fs);
    if validFiles == [] then EmptyResult(config)
    else
      var filesToAnalyze := Prefix(validFiles, config.maxFiles);
      ResultOf(config, filesToAnalyze, AnalysisIssues(config, filesToAnalyze, fs, ai),
               config.aiDetection && ai.isAIGenerated, if config.aiDetection then ai.confidence else 0.0)
  }

  /** The summary of a result counts every issue once: errors and warnings add up to the
      issues, and the result succeeds exactly when no issue is an error. */
  lemma ResultOfSpec(config: Config, filesToAnalyze: seq<string>, issues: seq<Issue>, aiGenerated: bool, aiConfidence: real)
    ensures var r := ResultOf(config, filesToAnalyze, issues, aiGenerated, aiConfidence);
      r.summary.errors + r.summary.warnings == |issues| &&
      (r.success <==> forall k :: 0 <= k < |issues| ==> issues[k].severity != Error) &&
      r.summary.filesAnalyzed == |filesToAnalyze| && r.issues == issues &&
      (r.aiGenerated <==> r.summary.aiDetections == 1)
  {
    FilterComplement(issues, IsError, IsWarning);
    if CountErrors(issues) != 0 {
      var e := Filter(issues, IsError)[0];
      FilterMembership(issues, IsError, e);
    } else {
      forall k | 0 <= k < |issues|
        ensures issues[k].severity != Error
      {
        FilterMembership(issues, IsError, issues[k]);
      }
    }
  }

  /** Only the AI verdict adds an issue of kind `ai-pattern-detected`, and only when the
      detector is on and more than 0.7 confident of AI authorship. */
  lemma AIIssueOnlyWhenConfident(config: Config, filesToAnalyze: seq<string>, fs: FileSystem, ai: AIResult)
    ensures var issues := AnalysisIssues(config, filesToAnalyze, fs, ai);
      (exists k :: 0 <= k < |issues| && issues[k].kind == AIPatternDetected) <==>
      config.aiDetection && ai.isAIGenerated && ai.confidence > 0.7
  {
    var issues := AnalysisIssues(config, filesToAnalyze, fs, ai);
    var fnIssues := if config.functionSignatureChange then FunctionSignature.Detected(filesToAnalyze, fs) else [];
    if config.aiDetection && ai.isAIGenerated && ai.confidence > 0.7 {
      assert issues[|fnIssues|].kind == AIPatternDetected;
    }
    forall k | 0 <= k < |fnIssues|
      ensures issues[k].kind != AIPatternDetected
    {
      assert issues[k] == fnIssues[k];
      FunctionSignature.DetectedFacts(filesToAnalyze, fs, fnIssues[k]);
    }
  }

  /** Without valid files, the result is the empty one; otherwise at most `maxFiles` files, a
      prefix of the valid ones, are analysed, the issues are those of `AnalysisIssues`, every
      one is counted as an error or a warning, and the analysis succeeds exactly when none is
      an error. */
  lemma AnalysisFacts(config: Config, files: seq<string>, fs: FileSystem, ai: AIResult)
    ensures var r := Analysis(config, files, fs, ai);
      var validFiles := ValidFiles(config, files, fs);
      (validFiles == [] ==> r.success && r.confidence == 1.0 && r.issues == [] && r.summary == Summary(0, 0, 0, 0)) &&
      (validFiles != [] ==>
         var filesToAnalyze := Prefix(validFiles, config.maxFiles);
         r.issues == AnalysisIssues(config, filesToAnalyze, fs, ai) &&
         r.summary.errors + r.summary.warnings == |r.issues| &&
         (r.success <==> forall k :: 0 <= k < |r.issues| ==> r.issues[k].severity != Error) &&
         (config.maxFiles >= 0 ==>
            r.summary.filesAnalyzed == if config.maxFiles < |validFiles| then config.maxFiles else |validFiles|))
  {
    var validFiles := ValidFiles(config, files, fs);
    if validFiles != [] {
      var filesToAnalyze := Prefix(validFiles, config.maxFiles);
      ResultOfSpec(config, filesToAnalyze, AnalysisIssues(config, filesToAnalyze, fs, ai),
                   config.aiDetection && ai.isAIGenerated, if config.aiDetection then ai.confidence else 0.0);
    }
  }

  /** Every analysed file is a valid file: it exists, has a JavaScript or TypeScript
      extension, matches an include pattern and no exclude pattern. */
  lemma ValidFilesSpec(config: Config, files: seq<string>, fs: FileSystem, file: string)
    ensures file in ValidFiles(config, files, fs) <==>
      file in files && file in fs && IsJavaScriptPath(file) &&
      !AnyMatches(file, config.excludePatterns) && AnyMatches(file, config.includePatterns)
  {
    FilterMembership(files, ValidFileTest(config, fs), file);
  }

  // ---------------------------------------------------------------------------------------
  // The analyzer object

  /** `RippleAnalyzer`: the configuration it was built with; its detectors hold no state. */
  class RippleAnalyzer {
    const config: Config

    constructor(config: Config)
      ensures this.config == config
    {
      this.config := config;
    }

    /** `shouldIncludeFile` with the intended `**`: the exclude patterns are tried first. */
    method ShouldIncludeFile(file: string) returns (r: bool)
      ensures r <==> ShouldInclude(config, file)
    {
      var i := 0;
      while i < |config.excludePatterns|
        invariant 0 <= i <= |config.excludePatterns|
        invariant forall k :: 0 <= k < i ==> !MatchesPattern(file, config.excludePatterns[k])
      {
        if MatchesPattern(file, config.excludePatterns[i]) {
          return false;
        }
        i := i + 1;
      }
      i := 0;
      while i < |config.includePatterns|
        invariant 0 <= i <= |config.includePatterns|
        invariant forall k :: 0 <= k < i ==> !MatchesPattern(file, config.includePatterns[k])
      {
        if MatchesPattern(file, config.includePatterns[i]) {
          return true;
        }
        i := i + 1;
      }
      return false;
    }

    /** `filterValidFiles`. */
    method FilterValidFiles(files: seq<string>, fs: FileSystem) returns (validFiles: seq<string>)
      ensures validFiles == ValidFiles(config, files, fs)
    {
      validFiles := [];
      var i := 0;
      while i < |files|
        invariant 0 <= i <= |files|
        invariant validFiles == Filter(files[..i], ValidFileTest(config, fs))
      {
        FilterStep(files, i, ValidFileTest(config, fs));
        var file := files[i];
        if file in fs && IsJavaScriptPath(file) {
          var included := ShouldIncludeFile(file);
          if included {
            validFiles := validFiles + [file];
          }
        }
        i := i + 1;
      }
      assert files[..i] == files;
    }

    /** `calculateOverallConfidence`. */
    method CalculateOverallConfidence(issues: seq<Issue>, aiConfidence: real) returns (r: real)
      ensures r == OverallConfidence(issues, aiConfidence)
    {
      if |issues| == 0 {
        return 0.95;
      }
      var issueConfidences := Map(issues, ConfidenceOf);
      var sum := 0.0;
      var i := 0;
      while i < |issueConfidences|
        invariant 0 <= i <= |issueConfidences|
        invariant sum == Sum(issueConfidences[..i])
      {
        assert issueConfidences[..i + 1][..i] == issueConfidences[..i];
        sum := sum + issueConfidences[i];
        i := i + 1;
      }
      assert issueConfidences[..i] == issueConfidences;
      var avgIssueConfidence := sum / |issueConfidences| as real;
      var combinedConfidence := (avgIssueConfidence + aiConfidence) / 2.0;
      return MinReal(combinedConfidence, 0.99);
    }

    /** The issues `analyze` collects from the detectors. */
    method CollectIssues(filesToAnalyze: seq<string>, fs: FileSystem, ai: AIResult) returns (issues: seq<Issue>)
      ensures issues == AnalysisIssues(config, filesToAnalyze, fs, ai)
    {
      issues := [];
      if config.functionSignatureChange {
        var functionIssues := FunctionSignature.Detect(filesToAnalyze, fs);
        issues := issues + functionIssues;
      }
      if config.aiDetection && ai.isAIGenerated && ai.confidence > 0.7 {
        issues := issues + [AIIssue(filesToAnalyze, ai)];
      }
    }

    /** `analyze`. */
    method Analyze(files: seq<string>, fs: FileSystem, ai: AIResult) returns (r: AnalysisResult)
      ensures r == Analysis(config, files, fs, ai)
    {
      var validFiles := FilterValidFiles(files, fs);
      if |validFiles| == 0 {
        return EmptyResult(config);
      }
      var filesToAnalyze := Prefix(validFiles, config.maxFiles);
      var issues := CollectIssues(filesToAnalyze, fs, ai);
      var aiGenerated := config.aiDetection && ai.isAIGenerated;
      var aiConfidence := if config.aiDetection then ai.confidence else 0.0;
      var overallConfidence := CalculateOverallConfidence(issues, aiConfidence);
      var errors := CountErrors(issues);
      r := AnalysisResult(
        errors == 0, overallConfidence, aiGenerated, issues,
        Summary(|filesToAnalyze|, errors, CountWarnings(issues), if aiGenerated then 1 else 0),
        Metadata("1.0.0", config.aiDetection, EnabledRules(config)));
    }
  }
}
