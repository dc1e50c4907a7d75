/** The parser comparison (src/analysis/accuracy-tester.ts): the definitions the line-based
    parser finds in a file are compared with those tree-sitter finds, by name and line. The
    timings are inputs; the file's syntax tree is an input as everywhere else. */
module AccuracyTester {
  import opened Wrappers
  import opened Seqs
  import opened Strings
  import opened SyntaxTree
  import opened Types
  import SimpleParser
  import EnhancedParser

  // ---------------------------------------------------------------------------------------
  // Records

  datatype ParameterDifference = ParameterDifference(
    functionName: string,
    regexParams: seq<string>,
    treeParams: seq<string>,
    line: int)

  datatype Difference = Difference(
    missedByRegex: seq<FunctionInfo>,
    missedByTree: seq<FunctionInfo>,
    parameterDifferences: seq<ParameterDifference>)

  /** The measured times and their quotient, which JavaScript may make infinite. */
  datatype PerformanceMetrics = PerformanceMetrics(regexTimeMs: real, treeTimeMs: real, speedRatio: real)

  datatype Recommendation = Regex | TreeSitter | Hybrid

  datatype ComparisonResult = ComparisonResult(
    regexCount: nat,
    treeCount: nat,
    differences: Difference,
    complexityScore: real,
    recommendation: Recommendation,
    performanceMetrics: PerformanceMetrics,
    accuracyScore: real)

  // ---------------------------------------------------------------------------------------
  // Differences

  /** Two definitions are the same when they have the same name and line. */
  predicate SameDefinition(a: FunctionInfo, b: FunctionInfo)
  {
    a.name == b.name && a.line == b.line
  }

  function SameAs(f: FunctionInfo): FunctionInfo -> bool
  {
    (g: FunctionInfo) => SameDefinition(g, f)
  }

  /** `found.find(g => g.name === f.name && g.line === f.line)`. */
  function FindSame(found: seq<FunctionInfo>, f: FunctionInfo): Option<FunctionInfo>
  {
    First(found, SameAs(f))
  }

  function FoundIn(found: seq<FunctionInfo>): FunctionInfo -> bool
  {
    (f: FunctionInfo) => FindSame(found, f).Some?
  }

  function MissingFrom(found: seq<FunctionInfo>): FunctionInfo -> bool
  {
    (f: FunctionInfo) => FindSame(found, f).None?
  }

  /** The definitions of `others` that `found` has no definition of the same name and line for. */
  function Missed(found: seq<FunctionInfo>, others: seq<FunctionInfo>): seq<FunctionInfo>
  {
    Filter(others, MissingFrom(found))
  }

  function NameOf(p: Parameter): string
  {
    p.name
  }

  function ParamNames(f: FunctionInfo): seq<string>
  {
    Map(f.parameters, NameOf)
  }

  /** The difference recorded for a line-based definition: against the first tree-sitter
      definition of the same name and line, when their parameter names differ. */
  function ParameterDifferenceOf(treeFunctions: seq<FunctionInfo>): FunctionInfo -> Option<ParameterDifference>
  {
    (regexFunc: FunctionInfo) =>
      match FindSame(treeFunctions, regexFunc)
      case None => None
      case Some(treeFunc) =>
        if ParamNames(regexFunc) != ParamNames(treeFunc)
        then Some(ParameterDifference(regexFunc.name, ParamNames(regexFunc), ParamNames(treeFunc), regexFunc.line))
        else None
  }

  /** What `findDifferences` returns. */
  function Differences(regexFunctions: seq<FunctionInfo>, treeFunctions: seq<FunctionInfo>): Difference
  {
    Difference(
      Missed(regexFunctions, treeFunctions),
      Missed(treeFunctions, regexFunctions),
      FilterMap(regexFunctions, ParameterDifferenceOf(treeFunctions)))
  }

  /** `FindSame` finds nothing exactly when no definition has the same name and line. */
  lemma FindSameNone(found: seq<FunctionInfo>, f: FunctionInfo)
    ensures FindSame(found, f).None? <==> forall k :: 0 <= k < |found| ==> !SameDefinition(found[k], f)
  {
    FirstIsEarliest(found, SameAs(f));
  }

  /** A definition is missed exactly when it was found by the other parser and this one has
      no definition of the same name and line. */
  lemma MissedSpec(found: seq<FunctionInfo>, others: seq<FunctionInfo>, f: FunctionInfo)
    ensures f in Missed(found, others) <==>
      f in others && forall k :: 0 <= k < |found| ==> !SameDefinition(found[k], f)
  {
    FilterMembership(others, MissingFrom(found), f);
    FindSameNone(found, f);
  }

  /** The first definition of `found` with the name and line of `f`, at position `j`. */
  predicate FirstSameAt(found: seq<FunctionInfo>, f: FunctionInfo, j: int)
  {
    0 <= j < |found| && SameDefinition(found[j], f) && forall k :: 0 <= k < j ==> !SameDefinition(found[k], f)
  }

  /** The first same definition is unique. */
  lemma FirstSameUnique(found: seq<FunctionInfo>, f: FunctionInfo, j: int, j': int)
    requires FirstSameAt(found, f, j) && FirstSameAt(found, f, j')
    ensures j == j'
  {
  }

  /** `FindSame` returns the first same definition when there is one. */
  lemma FindSameFirst(found: seq<FunctionInfo>, f: FunctionInfo) returns (j: int)
    requires FindSame(found, f).Some?
    ensures FirstSameAt(found, f, j) && FindSame(found, f).value == found[j]
  {
    FirstIsEarliest(found, SameAs(f));
    var k :| 0 <= k < |found| && found[k] == FindSame(found, f).value && forall i :: 0 <= i < k ==> !SameAs(f)(found[i]);
    j := k;
  }

  /** The difference a line-based definition and a tree-sitter definition at position `j`
      give. */
  predicate DiffersAt(regexFunc: FunctionInfo, treeFunctions: seq<FunctionInfo>, j: int, d: ParameterDifference)
  {
    FirstSameAt(treeFunctions, regexFunc, j) && ParamNames(regexFunc) != ParamNames(treeFunctions[j]) &&
    d == ParameterDifference(regexFunc.name, ParamNames(regexFunc), ParamNames(treeFunctions[j]), regexFunc.line)
  }

  /** A parameter difference is recorded exactly for a line-based definition whose first
      tree-sitter definition of the same name and line has other parameter names. */
  lemma ParameterDifferenceOfSpec(treeFunctions: seq<FunctionInfo>, regexFunc: FunctionInfo, d: ParameterDifference)
    ensures ParameterDifferenceOf(treeFunctions)(regexFunc) == Some(d) <==>
      exists j :: DiffersAt(regexFunc, treeFunctions, j, d)
  {
    if FindSame(treeFunctions, regexFunc).Some? {
      var j := FindSameFirst(treeFunctions, regexFunc);
      if ParameterDifferenceOf(treeFunctions)(regexFunc) == Some(d) {
        assert DiffersAt(regexFunc, treeFunctions, j, d);
      }
      forall j' | DiffersAt(regexFunc, treeFunctions, j', d)
        ensures j' == j
      {
        FirstSameUnique(treeFunctions, regexFunc, j, j');
      }
    } else {
      FindSameNone(treeFunctions, regexFunc);
    }
  }

  /** The parameter differences are those of the line-based definitions found by both parsers
      whose parameter names differ, and no others. */
  lemma ParameterDifferencesSpec(regexFunctions: seq<FunctionInfo>, treeFunctions: seq<FunctionInfo>, d: ParameterDifference)
    ensures d in Differences(regexFunctions, treeFunctions).parameterDifferences <==>
      exists i, j :: 0 <= i < |regexFunctions| && DiffersAt(regexFunctions[i], treeFunctions, j, d)
  {
    FilterMapMembership(regexFunctions, ParameterDifferenceOf(treeFunctions), d);
    if d in Differences(regexFunctions, treeFunctions).parameterDifferences {
      var i :| 0 <= i < |regexFunctions| && ParameterDifferenceOf(treeFunctions)(regexFunctions[i]) == Some(d);
      ParameterDifferenceOfSpec(treeFunctions, regexFunctions[i], d);
    }
    if exists i, j :: 0 <= i < |regexFunctions| && DiffersAt(regexFunctions[i], treeFunctions, j, d) {
      var i, j :| 0 <= i < |regexFunctions| && DiffersAt(regexFunctions[i], treeFunctions, j, d);
      ParameterDifferenceOfSpec(treeFunctions, regexFunctions[i], d);
    }
  }

  /** The parameter difference, if any, of one line-based definition. */
  method ParameterDifferenceFor(regexFunc: FunctionInfo, treeFunctions: seq<FunctionInfo>) returns (r: Option<ParameterDifference>)
    ensures r == ParameterDifferenceOf(treeFunctions)(regexFunc)
  {
    var treeFunc := FindSame(treeFunctions, regexFunc);
    if treeFunc.Some? {
      var regexParams := ParamNames(regexFunc);
      var treeParams := ParamNames(treeFunc.value);
      if regexParams != treeParams {
        return Some(ParameterDifference(regexFunc.name, regexParams, treeParams, regexFunc.line));
      }
    }
    return None;
  }

  /** `findDifferences`. */
  method FindDifferences(regexFunctions: seq<FunctionInfo>, treeFunctions: seq<FunctionInfo>) returns (d: Difference)
    ensures d == Differences(regexFunctions, treeFunctions)
  {
    var missedByRegex := Missed(regexFunctions, treeFunctions);
    var missedByTree := Missed(treeFunctions, regexFunctions);
    var parameterDifferences: seq<ParameterDifference> := [];
    var i := 0;
    while i < |regexFunctions|
      invariant 0 <= i <= |regexFunctions|
      invariant parameterDifferences == FilterMap(regexFunctions[..i], ParameterDifferenceOf(treeFunctions))
    {
      FilterMapStep(regexFunctions, i, ParameterDifferenceOf(treeFunctions));
      var diff := ParameterDifferenceFor(regexFunctions[i], treeFunctions);
      if diff.Some? {
        parameterDifferences := parameterDifferences + [diff.value];
      }
      i := i + 1;
    }
    assert regexFunctions[..i] == regexFunctions;
    d := Difference(missedByRegex, missedByTree, parameterDifferences);
  }

  // ---------------------------------------------------------------------------------------
  // Complexity

  predicate ImportAt(s: string, p: nat)
  {
    OccursAt(s, "import ", p)
  }

  predicate FromAt(s: string, q: nat)
  {
    OccursAt(s, " from", q)
  }

  /** The stretch `[i, e)` of `s` holds `import `, then anything, then ` from`. */
  predicate SegmentHasImport(s: string, i: nat, e: nat)
  {
    exists p: nat, q: nat :: i <= p && p + 7 <= q && q + 5 <= e && ImportAt(s, p) && FromAt(s, q)
  }

  /** The matches of `/import .* from/g` from position `i`, which starts a line. Since `.`
      stops at a line terminator and the greedy `.*` runs to the last ` from` of the line,
      every line holds at most one match, and holds one exactly when it has an `import `
      with a ` from` after it. */
  function ImportCountFrom(s: string, i: nat): nat
    requires i <= |s|
    decreases |s| - i
  {
    if i == |s| then 0
    else
      var e := LineEnd(s, i);
      (if SegmentHasImport(s, i, e) then 1 else 0) + (if e == |s| then 0 else ImportCountFrom(s, e + 1))
  }

  /** `/\{[^}]{50,}\}/` matches: a `{`, at least 50 characters other than `}`, then `}`. */
  predicate HasLongBraceBlock(s: string)
  {
    exists i: nat, j: nat :: i + 50 < j < |s| && s[i] == '{' && s[j] == '}' && NoCloseBraceBetween(s, i, j)
  }

  predicate NoCloseBraceBetween(s: string, i: nat, j: nat)
    requires j <= |s|
  {
    forall k :: i < k < j ==> s[k] != '}'
  }

  /** The TypeScript features: interfaces, type aliases, generics. */
  function TypeScriptScore(content: string): real
  {
    (if Contains(content, "interface ") then 0.2 else 0.0) +
    (if Contains(content, "type ") then 0.15 else 0.0) +
    (if Contains(content, "<") && Contains(content, ">") then 0.2 else 0.0)
  }

  /** The complex patterns: destructuring or spreads, async code, large object literals. */
  function PatternScore(content: string): real
  {
    (if Contains(content, "destructur") || Contains(content, "...") then 0.2 else 0.0) +
    (if Contains(content, "async ") || Contains(content, "await ") then 0.1 else 0.0) +
    (if HasLongBraceBlock(content) then 0.3 else 0.0)
  }

  /** The object-oriented features: classes, inheritance. */
  function ObjectScore(content: string): real
  {
    (if Contains(content, "class ") then 0.15 else 0.0) +
    (if Contains(content, "extends ") || Contains(content, "implements ") then 0.1 else 0.0)
  }

  /** The file size (lines between `\n`) and the number of imports. */
  function SizeScore(content: string): real
  {
    var lines := |Split(content, '\n')|;
    (if lines > 100 then 0.1 else 0.0) +
    (if lines > 300 then 0.1 else 0.0) +
    (if ImportCountFrom(content, 0) > 5 then 0.1 else 0.0)
  }

  /** The sum `assessComplexity` accumulates before it is capped at 1. */
  function ComplexityScore(content: string): real
  {
    TypeScriptScore(content) + PatternScore(content) + ObjectScore(content) + SizeScore(content)
  }

  /** What `assessComplexity` returns: a score in [0, 1], 0 exactly when no feature is found. */
  function Complexity(content: string): (r: real)
    ensures 0.0 <= r <= 1.0
    ensures r == 0.0 <==> ComplexityScore(content) == 0.0
  {
    MinReal(ComplexityScore(content), 1.0)
  }

  /** `assessComplexity`. */
  method AssessComplexity(content: string) returns (r: real)
    ensures r == Complexity(content)
  {
    var score := 0.0;
    if Contains(content, "interface ") { score := score + 0.2; }
    if Contains(content, "type ") { score := score + 0.15; }
    if Contains(content, "<") && Contains(content, ">") { score := score + 0.2; }
    assert score == TypeScriptScore(content);
    if Contains(content, "destructur") || Contains(content, "...") { score := score + 0.2; }
    if Contains(content, "async ") || Contains(content, "await ") { score := score + 0.1; }
    if HasLongBraceBlock(content) { score := score + 0.3; }
    assert score == TypeScriptScore(content) + PatternScore(content);
    if Contains(content, "class ") { score := score + 0.15; }
    if Contains(content, "extends ") || Contains(content, "implements ") { score := score + 0.1; }
    assert score == TypeScriptScore(content) + PatternScore(content) + ObjectScore(content);
    var lines := |Split(content, '\n')|;
    if lines > 100 { score := score + 0.1; }
    if lines > 300 { score := score + 0.1; }
    var importCount := ImportCountFrom(content, 0);
    if importCount > 5 { score := score + 0.1; }
    return MinReal(score, 1.0);
  }

  // ---------------------------------------------------------------------------------------
  // Accuracy and recommendation

  /** The line-based definitions tree-sitter also found. */
  function CommonCount(regexFunctions: seq<FunctionInfo>, treeFunctions: seq<FunctionInfo>): nat
  {
    |Filter(regexFunctions, FoundIn(treeFunctions))|
  }

  /** `calculateAccuracyScore`. */
  function AccuracyScore(regexFunctions: seq<FunctionInfo>, treeFunctions: seq<FunctionInfo>, complexity: real): real
  {
    if |regexFunctions| == 0 && |treeFunctions| == 0 then 1.0
    else
      var totalFunctions := if |regexFunctions| >= |treeFunctions| then |regexFunctions| else |treeFunctions|;
      var baseAccuracy := CommonCount(regexFunctions, treeFunctions) as real / totalFunctions as real;
      if complexity > 0.5 && |treeFunctions| > |regexFunctions| then MinReal(1.0, baseAccuracy + 0.1)
      else baseAccuracy
  }

  /** A share of a total lies in [0, 1]. */
  lemma ShareBounds(part: nat, total: nat)
    requires 0 < total && part <= total
    ensures 0.0 <= part as real / total as real <= 1.0
  {
    assert part as real / total as real * total as real == part as real;
  }

  /** The common definitions are the line-based ones tree-sitter did not miss; the score is
      in [0, 1], and 1 when both parsers found nothing. */
  lemma AccuracyScoreFacts(regexFunctions: seq<FunctionInfo>, treeFunctions: seq<FunctionInfo>, complexity: real)
    ensures CommonCount(regexFunctions, treeFunctions) + |Missed(treeFunctions, regexFunctions)| == |regexFunctions|
    ensures 0.0 <= AccuracyScore(regexFunctions, treeFunctions, complexity) <= 1.0
    ensures regexFunctions == [] && treeFunctions == [] ==> AccuracyScore(regexFunctions, treeFunctions, complexity) == 1.0
  {
    FilterComplement(regexFunctions, FoundIn(treeFunctions), MissingFrom(treeFunctions));
    if |regexFunctions| != 0 || |treeFunctions| != 0 {
      var totalFunctions := if |regexFunctions| >= |treeFunctions| then |regexFunctions| else |treeFunctions|;
      ShareBounds(CommonCount(regexFunctions, treeFunctions), totalFunctions);
    }
  }

  /** When both parsers find the same definitions, neither misses one and the score is 1. */
  lemma IdenticalResultsAgree(functions: seq<FunctionInfo>, complexity: real)
    ensures Missed(functions, functions) == []
    ensures AccuracyScore(functions, functions, complexity) == 1.0
  {
    FoundInThemselves(functions);
    FilterAll(functions, FoundIn(functions));
    FilterNone(functions, MissingFrom(functions));
    if functions != [] {
      assert CommonCount(functions, functions) == |functions|;
      WholeShare(|functions|);
    }
  }

  /** A whole total is a share of 1. */
  lemma WholeShare(total: nat)
    requires 0 < total
    ensures total as real / total as real == 1.0
  {
  }

  /** Every definition has a definition of its own name and line among its own list. */
  lemma FoundInThemselves(functions: seq<FunctionInfo>)
    ensures forall k :: 0 <= k < |functions| ==> FoundIn(functions)(functions[k]) && !MissingFrom(functions)(functions[k])
  {
    forall k | 0 <= k < |functions|
      ensures FindSame(functions, functions[k]).Some?
    {
      FindSameNone(functions, functions[k]);
      assert SameDefinition(functions[k], functions[k]);
    }
  }

  /** `getRecommendation`, from the two counts, the speed ratio and the complexity. */
  function RecommendationFor(regexCount: nat, treeCount: nat, speedRatio: real, complexity: real): Recommendation
  {
    if speedRatio > 3.0 && treeCount <= regexCount then Regex
    else if treeCount as real > regexCount as real * 1.2 then TreeSitter
    else if complexity > 0.7 then TreeSitter
    else if complexity < 0.3 && speedRatio < 2.0 then Hybrid
    else Hybrid
  }

  /** The checks are made in a fixed order: the line-based parser only when the speed ratio
      (line-based time over tree-sitter time) exceeds 3 and tree-sitter finds no more, that is
      when tree-sitter is the faster one; tree-sitter whenever it finds more than
      1.2 times as many definitions, whatever the timing, or otherwise for complex files;
      hybrid in every other case. */
  lemma RecommendationSpec(regexCount: nat, treeCount: nat, speedRatio: real, complexity: real)
    ensures var r := RecommendationFor(regexCount, treeCount, speedRatio, complexity);
      (r == Regex <==> speedRatio > 3.0 && treeCount <= regexCount) &&
      (treeCount as real > regexCount as real * 1.2 ==> r == TreeSitter) &&
      (r == TreeSitter <==> !(speedRatio > 3.0 && treeCount <= regexCount) &&
                             (treeCount as real > regexCount as real * 1.2 || complexity > 0.7)) &&
      (r == Hybrid <==> !(speedRatio > 3.0 && treeCount <= regexCount) &&
                         treeCount as real <= regexCount as real * 1.2 && complexity <= 0.7)
  {
    if treeCount as real > regexCount as real * 1.2 {
      assert treeCount > regexCount;
    }
  }

  // ---------------------------------------------------------------------------------------
  // The comparison

  /** The tree-sitter result of a comparison: the definitions, or none when parsing throws. */
  function TreeFunctions(treeSitterOn: bool, content: string, filePath: string, syntax: Option<Node>): seq<FunctionInfo>
  {
    match EnhancedParser.HybridFunctions(treeSitterOn, false, content, filePath, syntax)
    case Ok(functions) => functions
    case Err(_) => []
  }

  /** What `compareAccuracy` returns, with tree-sitter in use (`treeSitterOn`) or not. */
  function Comparison(content: string, filePath: string, syntax: Option<Node>, treeSitterOn: bool, timing: PerformanceMetrics): ComparisonResult
  {
    var regexFunctions := SimpleParser.ExtractFunctionsSpec(content, filePath);
    var treeFunctions := TreeFunctions(treeSitterOn, content, filePath, syntax);
    var complexity := Complexity(content);
    ComparisonResult(
      |regexFunctions|, |treeFunctions|, Differences(regexFunctions, treeFunctions), complexity,
      RecommendationFor(|regexFunctions|, |treeFunctions|, timing.speedRatio, complexity), timing,
      AccuracyScore(regexFunctions, treeFunctions, complexity))
  }

  /** Every comparison scores in [0, 1]; without tree-sitter both sides are the line-based
      parser's, so nothing is missed and the score is 1; and a file tree-sitter cannot parse
      leaves every line-based definition missed by tree-sitter. */
  lemma ComparisonFacts(content: string, filePath: string, syntax: Option<Node>, treeSitterOn: bool, timing: PerformanceMetrics)
    ensures var r := Comparison(content, filePath, syntax, treeSitterOn, timing);
      0.0 <= r.accuracyScore <= 1.0 && 0.0 <= r.complexityScore <= 1.0 &&
      (!treeSitterOn ==> r.differences.missedByRegex == [] && r.differences.missedByTree == [] &&
                         r.accuracyScore == 1.0) &&
      (treeSitterOn && syntax.None? ==>
         r.treeCount == 0 && r.differences.missedByTree == SimpleParser.ExtractFunctionsSpec(content, filePath))
  {
    var regexFunctions := SimpleParser.ExtractFunctionsSpec(content, filePath);
    var treeFunctions := TreeFunctions(treeSitterOn, content, filePath, syntax);
    AccuracyScoreFacts(regexFunctions, treeFunctions, Complexity(content));
    if !treeSitterOn {
      IdenticalResultsAgree(regexFunctions, Complexity(content));
    }
    if treeSitterOn && syntax.None? {
      FilterAll(regexFunctions, MissingFrom([]));
    }
  }

  /** `AccuracyTester`: the tree-sitter parser it owns never falls back on the line-based one. */
  class Tester {
    const enhancedParser: EnhancedParser.EnhancedASTParser

    ghost predicate Valid()
      reads this, enhancedParser
    {
      enhancedParser.Valid() && !enhancedParser.fallbackToRegex
    }

    /** `new AccuracyTester()`: tree-sitter is requested; it is in use when it loads. */
    constructor(treeSitterLoads: bool)
      ensures Valid() && fresh(enhancedParser)
      ensures enhancedParser.useTreeSitter == treeSitterLoads
    {
      enhancedParser := new EnhancedParser.EnhancedASTParser(Some(true), Some(false), Some(false), treeSitterLoads);
    }

    /** `compareAccuracy`, given the file's tree and the measured times. */
    method CompareAccuracy(content: string, filePath: string, syntax: Option<Node>, timing: PerformanceMetrics)
      returns (r: ComparisonResult)
      requires Valid()
      ensures r == Comparison(content, filePath, syntax, enhancedParser.useTreeSitter, timing)
    {
      var regexFunctions := SimpleParser.ExtractFunctions(content, filePath);
      var parsed := enhancedParser.ExtractFunctions(content, filePath, syntax);
      var treeFunctions := if parsed.Ok? then parsed.value else [];
      var differences := FindDifferences(regexFunctions, treeFunctions);
      var complexityScore := AssessComplexity(content);
      var accuracyScore := AccuracyScore(regexFunctions, treeFunctions, complexityScore);
      var recommendation := RecommendationFor(|regexFunctions|, |treeFunctions|, timing.speedRatio, complexityScore);
      r := ComparisonResult(|regexFunctions|, |treeFunctions|, differences, complexityScore, recommendation, timing, accuracyScore);
    }
  }
}
