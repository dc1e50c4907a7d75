/** The per-definition AI pattern check (src/detectors/simple-ai-patterns.ts): three signs in a
    definition's parameter list, the suggestions for each sign, and the confidence they add. */
module SimpleAIPatterns {
  import opened Wrappers
  import opened Seqs
  import opened Strings
  import opened Types

  datatype AIPatternResult = AIPatternResult(patterns: seq<string>, confidence: real)

  const OptionsParameter: string := "options-parameter"
  const ComplexTypes: string := "complex-types"
  const HighParameterCount: string := "high-parameter-count"

  /** The patterns, in the order they are checked. */
  const AllPatterns: seq<string> := [OptionsParameter, ComplexTypes, HighParameterCount]

  /** Some parameter name contains `option`, in any case. */
  predicate HasOptionsParameter(func: FunctionInfo)
  {
    exists k :: 0 <= k < |func.parameters| && Contains(ToLower(func.parameters[k].name), "option")
  }

  /** Some parameter type contains `{`. */
  predicate HasComplexType(func: FunctionInfo)
  {
    exists k :: 0 <= k < |func.parameters| && func.parameters[k].typ.Some? && Contains(func.parameters[k].typ.value, "{")
  }

  /** Whether the definition shows the pattern of each name in `AllPatterns`. */
  function Shows(func: FunctionInfo): string -> bool
  {
    (pattern: string) =>
      (pattern == OptionsParameter && HasOptionsParameter(func)) ||
      (pattern == ComplexTypes && HasComplexType(func)) ||
      (pattern == HighParameterCount && |func.parameters| > 3)
  }

  /** `detectBasicPatterns`. */
  function DetectBasicPatterns(func: FunctionInfo): AIPatternResult
  {
    var patterns :=
      (if HasOptionsParameter(func) then [OptionsParameter] else []) +
      (if HasComplexType(func) then [ComplexTypes] else []) +
      (if |func.parameters| > 3 then [HighParameterCount] else []);
    AIPatternResult(patterns, if |patterns| > 0 then 0.7 else 0.0)
  }

  /** Filtering the three patterns keeps those that pass, in order. */
  lemma FilterAllPatterns(p: string -> bool)
    ensures Filter(AllPatterns, p) ==
      (if p(OptionsParameter) then [OptionsParameter] else []) +
      (if p(ComplexTypes) then [ComplexTypes] else []) +
      (if p(HighParameterCount) then [HighParameterCount] else [])
  {
    assert AllPatterns[..2] == [OptionsParameter, ComplexTypes];
    assert AllPatterns[..2][..1] == [OptionsParameter];
    assert Filter(AllPatterns[..2][..1], p) == (if p(OptionsParameter) then [OptionsParameter] else []);
  }

  /** The patterns found are the patterns of `AllPatterns` the definition shows, in that order,
      each once; the confidence is 0.7 exactly when one is found. */
  lemma DetectBasicPatternsSpec(func: FunctionInfo)
    ensures DetectBasicPatterns(func).patterns == Filter(AllPatterns, Shows(func))
    ensures DetectBasicPatterns(func).confidence == 0.7 <==> DetectBasicPatterns(func).patterns != []
    ensures DetectBasicPatterns(func).confidence == 0.0 <==> DetectBasicPatterns(func).patterns == []
  {
    FilterAllPatterns(Shows(func));
  }

  const OptionsSuggestion1: string := "AI-generated options parameter detected - verify it's necessary"
  const OptionsSuggestion2: string := "Consider making options parameter optional with default value {}"
  const TypesSuggestion1: string := "Complex TypeScript types detected - typical AI pattern"
  const TypesSuggestion2: string := "Consider simplifying types for better maintainability"
  const CountSuggestion1: string := "High parameter count suggests AI-generated change"
  const CountSuggestion2: string := "Consider refactoring to use options object pattern"

  /** The two suggestions for each pattern. */
  function SuggestionsFor(pattern: string): seq<string>
  {
    if pattern == OptionsParameter then [OptionsSuggestion1, OptionsSuggestion2]
    else if pattern == ComplexTypes then [TypesSuggestion1, TypesSuggestion2]
    else if pattern == HighParameterCount then [CountSuggestion1, CountSuggestion2]
    else []
  }

  function Includes(patterns: seq<string>): string -> bool
  {
    (pattern: string) => pattern in patterns
  }

  /** `generateAISuggestions`: the suggestions of each recognised pattern the list includes, in
      the fixed order, whatever the list's own order or repetitions. */
  function GenerateAISuggestions(patterns: seq<string>): seq<string>
  {
    (if OptionsParameter in patterns then SuggestionsFor(OptionsParameter) else []) +
    (if ComplexTypes in patterns then SuggestionsFor(ComplexTypes) else []) +
    (if HighParameterCount in patterns then SuggestionsFor(HighParameterCount) else [])
  }

  /** The three pattern names differ. */
  lemma PatternsDistinct()
    ensures OptionsParameter != ComplexTypes && OptionsParameter != HighParameterCount && ComplexTypes != HighParameterCount
  {
    assert |OptionsParameter| == 17 && |ComplexTypes| == 13 && |HighParameterCount| == 20;
  }

  /** Each pattern has its two suggestions. */
  lemma SuggestionsForPattern(pattern: string)
    requires pattern in AllPatterns
    ensures |SuggestionsFor(pattern)| == 2
    ensures FlatMap([pattern], SuggestionsFor) == SuggestionsFor(pattern)
  {
    assert [pattern][..0] == [];
  }

  /** Two suggestions for every recognised pattern the list includes, in the fixed order. */
  lemma GenerateAISuggestionsSpec(patterns: seq<string>)
    ensures GenerateAISuggestions(patterns) == FlatMap(Filter(AllPatterns, Includes(patterns)), SuggestionsFor)
    ensures |GenerateAISuggestions(patterns)| == 2 * |Filter(AllPatterns, Includes(patterns))|
  {
    FilterAllPatterns(Includes(patterns));
    var a := if OptionsParameter in patterns then [OptionsParameter] else [];
    var b := if ComplexTypes in patterns then [ComplexTypes] else [];
    var c := if HighParameterCount in patterns then [HighParameterCount] else [];
    FlatMapAppend(a + b, c, SuggestionsFor);
    FlatMapAppend(a, b, SuggestionsFor);
    SuggestionsForPattern(OptionsParameter);
    SuggestionsForPattern(ComplexTypes);
    SuggestionsForPattern(HighParameterCount);
  }

  /** The suggestions for a definition's own patterns: two for each pattern it shows. */
  lemma SuggestionsForDetected(func: FunctionInfo)
    ensures |GenerateAISuggestions(DetectBasicPatterns(func).patterns)| == 2 * |DetectBasicPatterns(func).patterns|
  {
    var patterns := DetectBasicPatterns(func).patterns;
    GenerateAISuggestionsSpec(patterns);
    FilterAllPatterns(Includes(patterns));
    PatternsDistinct();
  }

  /** `isLikelyAIGenerated`. */
  predicate IsLikelyAIGenerated(func: FunctionInfo)
  {
    |DetectBasicPatterns(func).patterns| >= 2
  }

  /** `getConfidenceBoost`. */
  function ConfidenceBoost(func: FunctionInfo): real
  {
    var count := |DetectBasicPatterns(func).patterns|;
    if count >= 2 then 0.1 else if count == 1 then 0.05 else 0.0
  }

  /** A likely AI-generated definition shows at least two of the three signs and gets the full
      boost; the boost is positive exactly when the confidence is 0.7. */
  lemma ConfidenceBoostSpec(func: FunctionInfo)
    ensures IsLikelyAIGenerated(func) <==> ConfidenceBoost(func) == 0.1
    ensures IsLikelyAIGenerated(func) ==>
      (HasOptionsParameter(func) && HasComplexType(func)) ||
      (HasOptionsParameter(func) && |func.parameters| > 3) ||
      (HasComplexType(func) && |func.parameters| > 3)
    ensures ConfidenceBoost(func) > 0.0 <==> DetectBasicPatterns(func).confidence == 0.7
    ensures ConfidenceBoost(func) == 0.05 <==> |DetectBasicPatterns(func).patterns| == 1
  {
  }
}
