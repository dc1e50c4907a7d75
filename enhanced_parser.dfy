/** src/analysis/ast-parser-enhanced.ts: the hybrid parser that tries tree-sitter first and
    falls back to the line-based parser, and the syntax-tree extractor behind it. Loading the
    grammars and parsing are inputs: whether the tree-sitter parser can be constructed is a
    boolean, and the tree of a file is `Some(root)`, or `None` when parsing throws. */
module EnhancedParser {
  import opened Wrappers
  import opened Seqs
  import opened Strings
  import opened SyntaxTree
  import opened Types
  import SimpleParser

  // ---------------------------------------------------------------------------------------
  // Parameters

  /** `extractTypeAnnotation`: the `type_annotation` child's text without its first `:`, trimmed. */
  function TypeAnnotation(n: Node): (r: Option<string>)
    ensures r.Some? <==> FindChildByType(n, "type_annotation").Some?
  {
    match FindChildByType(n, "type_annotation")
    case Some(t) => Some(Trim(ReplaceFirst(t.text, ":", "")))
    case None => None
  }

  /** `parseTypedParameter`: named by its first `identifier` child; optional exactly when the
      node is an `optional_parameter`; no default value is ever recorded. */
  function TypedParameter(n: Node): (r: Option<Parameter>)
    ensures r.Some? <==> FindChildByType(n, "identifier").Some?
    ensures r.Some? ==> r.value.optional == (n.kind == "optional_parameter") && r.value.defaultValue.None?
    ensures r.Some? ==> r.value.name == FindChildByType(n, "identifier").value.text && r.value.typ == TypeAnnotation(n)
  {
    match FindChildByType(n, "identifier")
    case Some(name) => Some(Parameter(name.text, TypeAnnotation(n), n.kind == "optional_parameter", None))
    case None => None
  }

  /** What one child of `formal_parameters` contributes: a bare identifier is a required
      parameter, a typed one is parsed, anything else (punctuation, patterns) is skipped. */
  function ParameterOf(c: Node): Option<Parameter>
  {
    if c.kind == "identifier" then Some(Parameter(c.text, None, false, None))
    else if c.kind == "required_parameter" || c.kind == "optional_parameter" then TypedParameter(c)
    else None
  }

  /** The parameters of a function-like node: those of its first `formal_parameters` child. */
  function Parameters(n: Node): seq<Parameter>
  {
    match FindChildByType(n, "formal_parameters")
    case Some(ps) => FilterMap(ps.children, ParameterOf)
    case None => []
  }

  /** `parseParameters`. */
  method ParseParameters(n: Node) returns (parameters: seq<Parameter>)
    ensures parameters == Parameters(n)
  {
    parameters := [];
    var paramsNode := FindChildByType(n, "formal_parameters");
    if paramsNode.None? {
      return;
    }
    var children := paramsNode.value.children;
    var i := 0;
    while i < |children|
      invariant 0 <= i <= |children|
      invariant parameters == FilterMap(children[..i], ParameterOf)
    {
      FilterMapStep(children, i, ParameterOf);
      var child := children[i];
      if child.kind == "identifier" {
        parameters := parameters + [Parameter(child.text, None, false, None)];
      } else if child.kind == "required_parameter" || child.kind == "optional_parameter" {
        var param := TypedParameter(child);
        if param.Some? {
          parameters := parameters + [param.value];
        }
      }
      i := i + 1;
    }
    assert children[..i] == children;
  }

  /** No parameter found in a syntax tree has a default value, and only an
      `optional_parameter` child yields an optional one. */
  lemma ParametersFacts(n: Node, p: Parameter)
    requires p in Parameters(n)
    ensures p.defaultValue.None?
    ensures p.optional ==> exists c :: c in FindChildByType(n, "formal_parameters").value.children && c.kind == "optional_parameter"
  {
    var ps := FindChildByType(n, "formal_parameters").value;
    FilterMapMembership(ps.children, ParameterOf, p);
    var i :| 0 <= i < |ps.children| && ParameterOf(ps.children[i]) == Some(p);
    assert ps.children[i] in ps.children;
  }

  // ---------------------------------------------------------------------------------------
  // Arguments

  /** The state of `parseArguments`' loop: the arguments so far, the text of the current one,
      the three depth counters, and whether the closing `)` has been reached. */
  datatype ArgScan = ArgScan(args: seq<string>, current: string, paren: int, bracket: int, brace: int, stopped: bool)

  /** Appending a child's text to the current argument, counting `[`, `]`, `{` and `}` once
      each when the text contains them. */
  function Track(st: ArgScan, text: string): ArgScan
  {
    st.(bracket := st.bracket + (if '[' in text then 1 else 0) - (if ']' in text then 1 else 0),
        brace := st.brace + (if '{' in text then 1 else 0) - (if '}' in text then 1 else 0),
        current := st.current + text)
  }

  /** One iteration of the loop over the children of `arguments`. The opening `(` of depth 1
      is skipped, the `)` that returns to depth 0 ends the loop, and a `,` at paren depth 1
      with no open bracket or brace ends the current argument. */
  function ArgStep(st: ArgScan, child: Node): ArgScan
  {
    if st.stopped then st
    else if child.kind == "(" then
      var s := st.(paren := st.paren + 1);
      if s.paren == 1 then s else Track(s, child.text)
    else if child.kind == ")" then
      var s := st.(paren := st.paren - 1);
      if s.paren == 0 then s.(stopped := true) else Track(s, child.text)
    else if child.kind == "," && st.paren == 1 && st.bracket == 0 && st.brace == 0 then
      if Trim(st.current) != "" then st.(args := st.args + [Trim(st.current)], current := "") else st
    else Track(st, child.text)
  }

  /** The loop state after the first `n` children. */
  function ArgScanOf(cs: seq<Node>, n: nat): ArgScan
    requires n <= |cs|
  {
    if n == 0 then ArgScan([], "", 0, 0, 0, false) else ArgStep(ArgScanOf(cs, n - 1), cs[n - 1])
  }

  /** The arguments once the loop is over: the last one is added when it is not blank. */
  function ArgsAtEnd(st: ArgScan): seq<string>
  {
    if Trim(st.current) != "" then st.args + [Trim(st.current)] else st.args
  }

  /** The argument texts of a call-like node: those of its first `arguments` child. */
  function Arguments(n: Node): seq<string>
  {
    match FindChildByType(n, "arguments")
    case Some(a) => ArgsAtEnd(ArgScanOf(a.children, |a.children|))
    case None => []
  }

  /** One pass of the loop body of `parseArguments` over `child`, on the loop's variables. */
  method ArgChild(child: Node, args: seq<string>, currentArg: string, parenDepth: int, bracketDepth: int, braceDepth: int)
    returns (next: ArgScan)
    ensures next == ArgStep(ArgScan(args, currentArg, parenDepth, bracketDepth, braceDepth, false), child)
    ensures next.stopped ==> next.args == args && next.current == currentArg
  {
    var text := child.text;
    if child.kind == "(" {
      if parenDepth + 1 == 1 {
        return ArgScan(args, currentArg, 1, bracketDepth, braceDepth, false);
      }
      next := ArgScan(args, currentArg, parenDepth + 1, bracketDepth, braceDepth, false);
    } else if child.kind == ")" {
      if parenDepth - 1 == 0 {
        return ArgScan(args, currentArg, 0, bracketDepth, braceDepth, true);
      }
      next := ArgScan(args, currentArg, parenDepth - 1, bracketDepth, braceDepth, false);
    } else if child.kind == "," && parenDepth == 1 && bracketDepth == 0 && braceDepth == 0 {
      if Trim(currentArg) != "" {
        return ArgScan(args + [Trim(currentArg)], "", parenDepth, bracketDepth, braceDepth, false);
      }
      return ArgScan(args, currentArg, parenDepth, bracketDepth, braceDepth, false);
    } else {
      next := ArgScan(args, currentArg, parenDepth, bracketDepth, braceDepth, false);
    }
    next := next.(bracket := next.bracket + (if '[' in text then 1 else 0) - (if ']' in text then 1 else 0),
                  brace := next.brace + (if '{' in text then 1 else 0) - (if '}' in text then 1 else 0),
                  current := next.current + text);
  }

  /** `parseArguments`. */
  method ParseArguments(n: Node) returns (args: seq<string>)
    ensures args == Arguments(n)
  {
    args := [];
    var argsNode := FindChildByType(n, "arguments");
    if argsNode.None? {
      return;
    }
    var children := argsNode.value.children;
    var currentArg := "";
    var parenDepth, bracketDepth, braceDepth := 0, 0, 0;
    var i := 0;
    while i < |children|
      invariant 0 <= i <= |children|
      invariant ArgScanOf(children, i) == ArgScan(args, currentArg, parenDepth, bracketDepth, braceDepth, false)
    {
      var next := ArgChild(children[i], args, currentArg, parenDepth, bracketDepth, braceDepth);
      i := i + 1;
      if next.stopped {
        ArgScanStops(children, i, |children|);
        break;
      }
      args, currentArg, parenDepth, bracketDepth, braceDepth := next.args, next.current, next.paren, next.bracket, next.brace;
    }
    assert ArgScanOf(children, |children|).args == args && ArgScanOf(children, |children|).current == currentArg;
    if Trim(currentArg) != "" {
      args := args + [Trim(currentArg)];
    }
  }

  /** Once the closing `)` is reached, the remaining children change nothing. */
  lemma {:induction false} ArgScanStops(cs: seq<Node>, n: nat, m: nat)
    requires n <= m <= |cs| && ArgScanOf(cs, n).stopped
    ensures ArgScanOf(cs, m) == ArgScanOf(cs, n)
    decreases m
  {
    if m > n {
      ArgScanStops(cs, n, m - 1);
    }
  }

  /** The number of `,` children among the first `n`. */
  function CommaCount(cs: seq<Node>, n: nat): nat
    requires n <= |cs|
  {
    if n == 0 then 0 else CommaCount(cs, n - 1) + (if cs[n - 1].kind == "," then 1 else 0)
  }

  /** The collected arguments are non-empty trimmed texts. */
  predicate ArgsTrimmed(args: seq<string>)
  {
    forall k :: 0 <= k < |args| ==> args[k] != "" && Trim(args[k]) == args[k]
  }

  /** One step keeps the collected arguments trimmed and adds at most one, and only at a `,`. */
  lemma ArgStepArgs(st: ArgScan, child: Node)
    requires ArgsTrimmed(st.args)
    ensures ArgsTrimmed(ArgStep(st, child).args)
    ensures |ArgStep(st, child).args| <= |st.args| + (if child.kind == "," then 1 else 0)
  {
    if !st.stopped && child.kind == "," && st.paren == 1 && st.bracket == 0 && st.brace == 0 {
      var a := Trim(st.current);
      if a != "" {
        assert ArgStep(st, child) == st.(args := st.args + [a], current := "");
        TrimSpec(st.current);
        ArgsTrimmedAppend(st.args, a);
      }
    }
  }

  lemma ArgsTrimmedAppend(args: seq<string>, a: string)
    requires ArgsTrimmed(args) && a != "" && Trim(a) == a
    ensures ArgsTrimmed(args + [a])
  {
  }

  /** Every argument collected so far is non-empty and trimmed, and each was ended by its own
      `,` child. */
  lemma {:induction false} ArgScanArgs(cs: seq<Node>, n: nat)
    requires n <= |cs|
    ensures ArgsTrimmed(ArgScanOf(cs, n).args)
    ensures |ArgScanOf(cs, n).args| <= CommaCount(cs, n)
  {
    if n > 0 {
      ArgScanArgs(cs, n - 1);
      ArgStepArgs(ArgScanOf(cs, n - 1), cs[n - 1]);
    }
  }

  /** Adding the last argument keeps the list trimmed and adds at most one. */
  lemma ArgsAtEndFacts(st: ArgScan)
    requires ArgsTrimmed(st.args)
    ensures ArgsTrimmed(ArgsAtEnd(st)) && |ArgsAtEnd(st)| <= |st.args| + 1
  {
    if Trim(st.current) != "" {
      TrimSpec(st.current);
      ArgsTrimmedAppend(st.args, Trim(st.current));
    }
  }

  /** `parseArguments` yields only non-empty trimmed texts, at most one more than the `,`
      children of the `arguments` node. */
  lemma ArgumentsFacts(n: Node)
    requires FindChildByType(n, "arguments").Some?
    ensures ArgsTrimmed(Arguments(n))
    ensures |Arguments(n)| <= CommaCount(FindChildByType(n, "arguments").value.children, |FindChildByType(n, "arguments").value.children|) + 1
  {
    var cs := FindChildByType(n, "arguments").value.children;
    ArgScanArgs(cs, |cs|);
    ArgsAtEndFacts(ArgScanOf(cs, |cs|));
  }


  // ---------------------------------------------------------------------------------------
  // Definitions

  /** `isExported`: the node exists and its text contains `export`. */
  predicate IsExported(n: Option<Node>)
  {
    n.Some? && Contains(n.value.text, "export")
  }

  /** `isAsync`: the node exists and its text contains `async`. */
  predicate IsAsync(n: Option<Node>)
  {
    n.Some? && Contains(n.value.text, "async")
  }

  /** `parseFunctionDeclaration`: named by the first `identifier` child. */
  function FunctionDeclaration(n: Node, path: string): Option<FunctionInfo>
  {
    match FindChildByType(n, "identifier")
    case Some(name) =>
      Some(FunctionInfo(name.text, Parameters(n), None, path, n.row + 1, n.column,
                        IsExported(Some(n)), IsAsync(Some(n)), false))
    case None => None
  }

  /** `parseArrowFunction` on a `variable_declarator`: needs an `identifier` and an
      `arrow_function` child; exported when the declarator's parent text says so. */
  function ArrowFunction(n: Node, ancestors: seq<Node>, path: string): Option<FunctionInfo>
  {
    var name := FindChildByType(n, "identifier");
    var value := FindChildByType(n, "arrow_function");
    if name.None? || value.None? then None
    else
      Some(FunctionInfo(name.value.text, Parameters(value.value), None, path, n.row + 1, n.column,
                        IsExported(Parent(ancestors)), IsAsync(value), true))
  }

  /** `parseMethodDefinition`: named by a `property_identifier` child, else an `identifier`. */
  function MethodDefinition(n: Node, ancestors: seq<Node>, path: string): Option<FunctionInfo>
  {
    match OrElse(FindChildByType(n, "property_identifier"), FindChildByType(n, "identifier"))
    case Some(name) =>
      Some(FunctionInfo(name.text, Parameters(n), None, path, n.row + 1, n.column,
                        IsExported(Parent(ancestors)), IsAsync(Some(n)), false))
    case None => None
  }

  /** What `walkAST` records for one node, before visiting its children. */
  function NodeDefinitions(n: Node, ancestors: seq<Node>, path: string): seq<FunctionInfo>
  {
    (if n.kind == "function_declaration" then OptionToSeq(FunctionDeclaration(n, path)) else []) +
    (if n.kind == "variable_declarator" then OptionToSeq(ArrowFunction(n, ancestors, path)) else []) +
    (if n.kind == "method_definition" then OptionToSeq(MethodDefinition(n, ancestors, path)) else [])
  }

  /** `NodeDefinitions` as the visit of a tree walk. */
  function DefinitionsAt(path: string): (Node, seq<Node>) -> seq<FunctionInfo>
  {
    (m: Node, a: seq<Node>) => NodeDefinitions(m, a, path)
  }

  /** The definitions in the subtree of `n` (whose ancestors are `ancestors`, nearest first),
      in pre-order. */
  function Walk(n: Node, ancestors: seq<Node>, path: string): seq<FunctionInfo>
  {
    PreOrder(n, ancestors, DefinitionsAt(path))
  }

  /** The definition, if any, that `walkAST` records at one node. */
  method NodeDefinitionsOf(n: Node, ancestors: seq<Node>, path: string) returns (functions: seq<FunctionInfo>)
    ensures functions == DefinitionsAt(path)(n, ancestors)
  {
    functions := [];
    if n.kind == "function_declaration" {
      var f := FunctionDeclaration(n, path);
      if f.Some? { functions := functions + [f.value]; }
    }
    if n.kind == "variable_declarator" {
      var f := ArrowFunction(n, ancestors, path);
      if f.Some? { functions := functions + [f.value]; }
    }
    if n.kind == "method_definition" {
      var f := MethodDefinition(n, ancestors, path);
      if f.Some? { functions := functions + [f.value]; }
    }
  }

  /** `walkAST`. */
  method WalkAST(n: Node, ancestors: seq<Node>, path: string) returns (functions: seq<FunctionInfo>)
    ensures functions == Walk(n, ancestors, path)
    decreases n
  {
    functions := NodeDefinitionsOf(n, ancestors, path);
    var i := 0;
    while i < |n.children|
      invariant 0 <= i <= |n.children|
      invariant functions + PreOrderFrom(n, ancestors, DefinitionsAt(path), i) == Walk(n, ancestors, path)
    {
      PreOrderFromStep(n, ancestors, DefinitionsAt(path), functions, i);
      var found := WalkAST(n.children[i], [n] + ancestors, path);
      functions := functions + found;
      i := i + 1;
    }
  }

  /** A definition recorded at one node records the file, a 1-based line and a column. */
  lemma NodeDefinitionsFacts(n: Node, ancestors: seq<Node>, path: string, f: FunctionInfo)
    requires f in NodeDefinitions(n, ancestors, path)
    ensures f.file == path && f.line >= 1 && f.column >= 0
  {
  }

  /** Every definition found in a tree records the file, a 1-based line and a column. */
  lemma WalkFacts(n: Node, ancestors: seq<Node>, path: string)
    ensures forall k :: 0 <= k < |Walk(n, ancestors, path)| ==>
              Walk(n, ancestors, path)[k].file == path && Walk(n, ancestors, path)[k].line >= 1 && Walk(n, ancestors, path)[k].column >= 0
  {
    var p := (f: FunctionInfo) => f.file == path && f.line >= 1 && f.column >= 0;
    forall m: Node, a: seq<Node>, k | 0 <= k < |DefinitionsAt(path)(m, a)|
      ensures p(DefinitionsAt(path)(m, a)[k])
    {
      NodeDefinitionsFacts(m, a, path, DefinitionsAt(path)(m, a)[k]);
    }
    PreOrderAll(n, ancestors, DefinitionsAt(path), p);
  }

  // ---------------------------------------------------------------------------------------
  // Calls

  /** A call of file `path` with text `content`: on a 1-based line whose trimmed text is its
      context, with as many arguments as its argument count says. */
  predicate CallFromFile(c: Call, path: string, content: string)
  {
    c.file == path && c.line >= 1 && c.context == Trim(LineAt(content, c.line - 1)) && c.argumentCount == |c.arguments|
  }

  /** A call record whose argument count is the number of argument texts. */
  function MakeCall(name: string, path: string, at: Node, content: string, args: seq<string>, callType: CallType): Call
  {
    Call(name, path, at.row + 1, at.column, Trim(LineAt(content, at.row)), args, |args|, callType)
  }

  /** `parseCallExpression`: the callee is the first `identifier` child, else the first
      `member_expression` child, whose whole text becomes the name. */
  function CallExpressionCall(n: Node, path: string, content: string): Option<Call>
  {
    match OrElse(FindChildByType(n, "identifier"), FindChildByType(n, "member_expression"))
    case Some(callee) => Some(MakeCall(callee.text, path, n, content, Arguments(n), FunctionCall))
    case None => None
  }

  /** `parseMemberCall`: a member expression inside some `call_expression` ancestor names a
      method call by its `property_identifier`; position and arguments are the ancestor's. */
  function MemberExpressionCall(n: Node, ancestors: seq<Node>, path: string, content: string): Option<Call>
  {
    match NearestOfKind(ancestors, "call_expression")
    case None => None
    case Some(call) =>
      match FindChildByType(n, "property_identifier")
      case Some(property) => Some(MakeCall(property.text, path, call, content, Arguments(call), MethodCall))
      case None => None
  }

  /** `parseConstructorCall`: `new C(...)` named by its first `identifier` child. */
  function NewExpressionCall(n: Node, path: string, content: string): Option<Call>
  {
    match FindChildByType(n, "identifier")
    case Some(name) => Some(MakeCall(name.text, path, n, content, Arguments(n), ConstructorCall))
    case None => None
  }

  /** What the traversal of `extractCallsFromAST` records for one node. */
  function NodeCalls(n: Node, ancestors: seq<Node>, path: string, content: string): seq<Call>
  {
    (if n.kind == "call_expression" then OptionToSeq(CallExpressionCall(n, path, content)) else []) +
    (if n.kind == "member_expression" then OptionToSeq(MemberExpressionCall(n, ancestors, path, content)) else []) +
    (if n.kind == "new_expression" then OptionToSeq(NewExpressionCall(n, path, content)) else [])
  }

  /** `NodeCalls` as the visit of a tree walk. */
  function CallsAt(path: string, content: string): (Node, seq<Node>) -> seq<Call>
  {
    (m: Node, a: seq<Node>) => NodeCalls(m, a, path, content)
  }

  /** The calls in the subtree of `n`, in pre-order. */
  function TreeCalls(n: Node, ancestors: seq<Node>, path: string, content: string): seq<Call>
  {
    PreOrder(n, ancestors, CallsAt(path, content))
  }

  /** The `traverse` closure of `extractCallsFromAST`. */
  method Traverse(n: Node, ancestors: seq<Node>, path: string, content: string) returns (calls: seq<Call>)
    ensures calls == TreeCalls(n, ancestors, path, content)
    decreases n
  {
    calls := [];
    if n.kind == "call_expression" {
      var call := CallExpressionCall(n, path, content);
      if call.Some? { calls := calls + [call.value]; }
    }
    if n.kind == "member_expression" {
      var memberCall := MemberExpressionCall(n, ancestors, path, content);
      if memberCall.Some? { calls := calls + [memberCall.value]; }
    }
    if n.kind == "new_expression" {
      var constructorCall := NewExpressionCall(n, path, content);
      if constructorCall.Some? { calls := calls + [constructorCall.value]; }
    }
    assert calls == CallsAt(path, content)(n, ancestors);
    var i := 0;
    while i < |n.children|
      invariant 0 <= i <= |n.children|
      invariant calls + PreOrderFrom(n, ancestors, CallsAt(path, content), i) == TreeCalls(n, ancestors, path, content)
    {
      PreOrderFromStep(n, ancestors, CallsAt(path, content), calls, i);
      var found := Traverse(n.children[i], [n] + ancestors, path, content);
      calls := calls + found;
      i := i + 1;
    }
  }

  /** Whatever its arguments, a call record built at a node is a call of the file. */
  lemma MakeCallFacts(name: string, path: string, at: Node, content: string, args: seq<string>, callType: CallType)
    ensures CallFromFile(MakeCall(name, path, at, content, args, callType), path, content)
  {
  }

  lemma CallExpressionCallFacts(n: Node, path: string, content: string)
    ensures CallExpressionCall(n, path, content).Some? ==> CallFromFile(CallExpressionCall(n, path, content).value, path, content)
  {
    match OrElse(FindChildByType(n, "identifier"), FindChildByType(n, "member_expression"))
    case Some(callee) => MakeCallFacts(callee.text, path, n, content, Arguments(n), FunctionCall);
    case None =>
  }

  lemma MemberExpressionCallFacts(n: Node, ancestors: seq<Node>, path: string, content: string)
    ensures MemberExpressionCall(n, ancestors, path, content).Some? ==>
              CallFromFile(MemberExpressionCall(n, ancestors, path, content).value, path, content)
  {
    match NearestOfKind(ancestors, "call_expression")
    case None =>
    case Some(call) =>
      match FindChildByType(n, "property_identifier")
      case Some(property) => MakeCallFacts(property.text, path, call, content, Arguments(call), MethodCall);
      case None =>
  }

  lemma NewExpressionCallFacts(n: Node, path: string, content: string)
    ensures NewExpressionCall(n, path, content).Some? ==> CallFromFile(NewExpressionCall(n, path, content).value, path, content)
  {
    match FindChildByType(n, "identifier")
    case Some(name) => MakeCallFacts(name.text, path, n, content, Arguments(n), ConstructorCall);
    case None =>
  }

  /** A call recorded at one node records the file, a 1-based line whose trimmed text is its
      context, and as many arguments as its argument count says. */
  lemma NodeCallsFacts(n: Node, ancestors: seq<Node>, path: string, content: string, c: Call)
    requires c in NodeCalls(n, ancestors, path, content)
    ensures CallFromFile(c, path, content)
  {
    CallExpressionCallFacts(n, path, content);
    MemberExpressionCallFacts(n, ancestors, path, content);
    NewExpressionCallFacts(n, path, content);
  }

  /** Every call found in a tree records the file, a 1-based line whose trimmed text is its
      context, and as many arguments as its argument count says. */
  lemma TreeCallsFacts(n: Node, ancestors: seq<Node>, path: string, content: string)
    ensures forall k :: 0 <= k < |TreeCalls(n, ancestors, path, content)| ==>
              CallFromFile(TreeCalls(n, ancestors, path, content)[k], path, content)
  {
    var visit := CallsAt(path, content);
    var p := (c: Call) => CallFromFile(c, path, content);
    forall m: Node, a: seq<Node>, k | 0 <= k < |visit(m, a)|
      ensures p(visit(m, a)[k])
    {
      NodeCallsFacts(m, a, path, content, visit(m, a)[k]);
    }
    PreOrderAll(n, ancestors, visit, p);
  }

  // ---------------------------------------------------------------------------------------
  // The hybrid parser

  /** The error `TreeSitterParser` throws when parsing fails; the underlying message is not modelled. */
  const ParseFailure: string := "Tree-sitter parsing failed"
  const CallExtractionFailure: string := "Tree-sitter call extraction failed"

  /** A line-based call record as the hybrid parser reports it: no argument texts. */
  function AsCall(c: CallSite): (r: Call)
    ensures r.arguments == [] && r.argumentCount == 0 && r.callType == FunctionCall
    ensures r.name == c.name && r.file == c.file && r.line == c.line && r.column == c.column && r.context == c.context
  {
    Call(c.name, c.file, c.line, c.column, c.context, [], 0, FunctionCall)
  }

  /** The line-based parser's calls, widened to call records. */
  function RegexCalls(content: string, path: string): seq<Call>
  {
    var cs := SimpleParser.ExtractFunctionCallsSpec(content, path);
    seq(|cs|, i requires 0 <= i < |cs| => AsCall(cs[i]))
  }

  /** `extractFunctions` with tree-sitter in use (`treeOn`) or not, given the file's tree. */
  function HybridFunctions(treeOn: bool, fallback: bool, content: string, path: string, syntax: Option<Node>): Result<seq<FunctionInfo>>
  {
    var regex := SimpleParser.ExtractFunctionsSpec(content, path);
    if !treeOn then Ok(regex)
    else match syntax
      case Some(root) =>
        var found := Walk(root, [], path);
        if |found| > 0 then Ok(found) else if fallback then Ok(regex) else Ok(found)
      case None => if fallback then Ok(regex) else Err(ParseFailure)
  }

  /** `extractFunctionCalls`: no fallback when tree-sitter finds nothing, only when it throws. */
  function HybridCalls(treeOn: bool, fallback: bool, content: string, path: string, syntax: Option<Node>): Result<seq<Call>>
  {
    if !treeOn then Ok(RegexCalls(content, path))
    else match syntax
      case Some(root) => Ok(TreeCalls(root, [], path, content))
      case None => if fallback then Ok(RegexCalls(content, path)) else Err(CallExtractionFailure)
  }

  /** `extractFunctionCalls` of a parser that falls back on the line-based parser, as every
      detector builds it: it never throws. */
  function FallbackCalls(treeOn: bool, content: string, path: string, syntax: Option<Node>): seq<Call>
  {
    HybridCalls(treeOn, true, content, path, syntax).value
  }

  /** The fallback policy of `extractFunctions`: the result is the line-based one, the tree's,
      or an error. The tree's result is kept only when tree-sitter is on and it either found
      something or may not fall back; an error needs tree-sitter on, a failed parse and no fallback. */
  lemma HybridFunctionsPolicy(treeOn: bool, fallback: bool, content: string, path: string, syntax: Option<Node>)
    ensures var r := HybridFunctions(treeOn, fallback, content, path, syntax);
      (r.Err? <==> treeOn && syntax.None? && !fallback) &&
      (treeOn && syntax.Some? && |Walk(syntax.value, [], path)| > 0 ==> r == Ok(Walk(syntax.value, [], path))) &&
      (treeOn && syntax.Some? && Walk(syntax.value, [], path) == [] && !fallback ==> r == Ok([])) &&
      ((!treeOn || (fallback && (syntax.None? || Walk(syntax.value, [], path) == []))) ==>
         r == Ok(SimpleParser.ExtractFunctionsSpec(content, path)))
  {
  }

  /** Calls that come from the line-based parser never carry arguments. */
  lemma RegexCallsCarryNoArguments(content: string, path: string, c: Call)
    requires c in RegexCalls(content, path)
    ensures c.arguments == [] && c.argumentCount == 0 && c.callType == FunctionCall && c.file == path
  {
    var cs := SimpleParser.ExtractFunctionCallsSpec(content, path);
    var i :| 0 <= i < |cs| && RegexCalls(content, path)[i] == c;
    var _ := SimpleParser.ExtractFunctionCallsFacts(content, path, cs[i]);
  }

  /** Every call a detector's parser reports for a file is recorded against that file. */
  lemma FallbackCallsFile(treeOn: bool, content: string, path: string, syntax: Option<Node>, c: Call)
    requires c in FallbackCalls(treeOn, content, path, syntax)
    ensures c.file == path
  {
    if treeOn && syntax.Some? {
      TreeCallsFacts(syntax.value, [], path, content);
    } else {
      RegexCallsCarryNoArguments(content, path, c);
    }
  }

  /** What `getParserStats` reports as the parser in use. */
  datatype ParserType = TreeSitterOnly | RegexOnly | Hybrid

  datatype ParserStats = ParserStats(usingTreeSitter: bool, fallbackEnabled: bool, parserType: ParserType)

  /** `EnhancedASTParser`. `hasTreeParser` says whether the tree-sitter parser object exists. */
  class EnhancedASTParser {
    var useTreeSitter: bool
    var fallbackToRegex: bool
    var debugMode: bool
    var hasTreeParser: bool

    /** Tree-sitter is only ever in use with a parser object to use. */
    ghost predicate Valid()
      reads this
    {
      useTreeSitter ==> hasTreeParser
    }

    /** `new EnhancedASTParser(config)`: the three flags default to off, on and off; when
        tree-sitter is requested but cannot be constructed (`treeSitterLoads` false), it stays off. */
    constructor(enableTreeSitter: Option<bool>, fallback: Option<bool>, debug: Option<bool>, treeSitterLoads: bool)
      ensures Valid()
      ensures fallbackToRegex == (fallback.None? || fallback.value)
      ensures debugMode == (debug.Some? && debug.value)
      ensures hasTreeParser == (enableTreeSitter == Some(true) && treeSitterLoads)
      ensures useTreeSitter == (enableTreeSitter == Some(true) && treeSitterLoads)
    {
      var enabled := enableTreeSitter.Some? && enableTreeSitter.value;
      fallbackToRegex := if fallback.Some? then fallback.value else true;
      debugMode := debug.Some? && debug.value;
      if enabled && treeSitterLoads {
        useTreeSitter, hasTreeParser := true, true;
      } else {
        useTreeSitter, hasTreeParser := false, false;
      }
    }

    /** `extractFunctions`, given the file's tree (`None` when parsing throws). */
    method ExtractFunctions(content: string, filePath: string, syntax: Option<Node>) returns (r: Result<seq<FunctionInfo>>)
      ensures r == HybridFunctions(useTreeSitter && hasTreeParser, fallbackToRegex, content, filePath, syntax)
    {
      if useTreeSitter && hasTreeParser {
        if syntax.Some? {
          var treeFunctions := WalkAST(syntax.value, [], filePath);
          if |treeFunctions| > 0 {
            return Ok(treeFunctions);
          }
          if fallbackToRegex {
            var functions := SimpleParser.ExtractFunctions(content, filePath);
            return Ok(functions);
          }
          return Ok(treeFunctions);
        } else {
          if fallbackToRegex {
            var functions := SimpleParser.ExtractFunctions(content, filePath);
            return Ok(functions);
          }
          return Err(ParseFailure);
        }
      }
      var functions := SimpleParser.ExtractFunctions(content, filePath);
      return Ok(functions);
    }

    /** The line-based calls with empty argument lists. */
    static method RegexCallsOf(content: string, filePath: string) returns (calls: seq<Call>)
      ensures calls == RegexCalls(content, filePath)
    {
      var simpleCalls := SimpleParser.ExtractFunctionCalls(content, filePath);
      calls := [];
      var i := 0;
      while i < |simpleCalls|
        invariant 0 <= i <= |simpleCalls|
        invariant |calls| == i && forall k :: 0 <= k < i ==> calls[k] == AsCall(simpleCalls[k])
      {
        calls := calls + [AsCall(simpleCalls[i])];
        i := i + 1;
      }
    }

    /** `extractFunctionCalls`, given the file's tree. */
    method ExtractFunctionCalls(content: string, filePath: string, syntax: Option<Node>) returns (r: Result<seq<Call>>)
      ensures r == HybridCalls(useTreeSitter && hasTreeParser, fallbackToRegex, content, filePath, syntax)
    {
      if useTreeSitter && hasTreeParser {
        if syntax.Some? {
          var calls := Traverse(syntax.value, [], filePath, content);
          return Ok(calls);
        }
        if fallbackToRegex {
          var calls := RegexCallsOf(content, filePath);
          return Ok(calls);
        }
        return Err(CallExtractionFailure);
      }
      var calls := RegexCallsOf(content, filePath);
      return Ok(calls);
    }

    /** `getParserStats`: `regex` exactly when tree-sitter is off, `hybrid` exactly when it is
        on with fallback, `tree-sitter` exactly when it is on without. */
    function GetParserStats(): (r: ParserStats)
      reads this
      ensures r.usingTreeSitter == useTreeSitter && r.fallbackEnabled == fallbackToRegex
      ensures r.parserType == RegexOnly <==> !useTreeSitter
      ensures r.parserType == Hybrid <==> useTreeSitter && fallbackToRegex
      ensures r.parserType == TreeSitterOnly <==> useTreeSitter && !fallbackToRegex
    {
      ParserStats(useTreeSitter, fallbackToRegex,
                  if useTreeSitter then (if fallbackToRegex then Hybrid else TreeSitterOnly) else RegexOnly)
    }

    /** `setTreeSitterEnabled(enabled)`: creates the tree-sitter parser when it is missing;
        when that fails (`treeSitterLoads` false) tree-sitter is left off. */
    method SetTreeSitterEnabled(enabled: bool, treeSitterLoads: bool)
      requires Valid()
      modifies this
      ensures Valid()
      ensures hasTreeParser == (old(hasTreeParser) || (enabled && treeSitterLoads))
      ensures useTreeSitter == (enabled && (old(hasTreeParser) || treeSitterLoads))
      ensures fallbackToRegex == old(fallbackToRegex) && debugMode == old(debugMode)
    {
      useTreeSitter := enabled;
      if enabled && !hasTreeParser {
        if treeSitterLoads {
          hasTreeParser := true;
        } else {
          useTreeSitter := false;
        }
      }
    }
  }
}
