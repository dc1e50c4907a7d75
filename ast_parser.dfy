/** src/analysis/ast-parser.ts: the plain syntax-tree extractor the function-signature
    detector uses. Its `ASTParser` object holds only the two grammar parsers; parsing is an
    input, so a file's tree is given. Unlike the hybrid parser's extractor, it reads nodes by
    field name, reports 1-based columns, and decides exportedness from the ancestors. */
module AstParser {
  import opened Wrappers
  import opened Seqs
  import opened Strings
  import opened SyntaxTree
  import opened Types

  // ---------------------------------------------------------------------------------------
  // Exportedness

  /** Some node among `ancestors` is an `export_statement`. */
  predicate HasExportAncestor(ancestors: seq<Node>)
  {
    exists i :: 0 <= i < |ancestors| && ancestors[i].kind == "export_statement"
  }

  /** `isExported(node)`, given the ancestors of `node`, nearest first: the walk up from the
      parent finds an `export_statement`, so only strict ancestors count. */
  method IsExported(ancestors: seq<Node>) returns (r: bool)
    ensures r <==> HasExportAncestor(ancestors)
  {
    var i := 0;
    while i < |ancestors|
      invariant 0 <= i <= |ancestors|
      invariant forall k :: 0 <= k < i ==> ancestors[k].kind != "export_statement"
    {
      if ancestors[i].kind == "export_statement" {
        return true;
      }
      i := i + 1;
    }
    return false;
  }

  /** `isExported(node.parent)` for a node with these ancestors: false without a parent,
      otherwise the parent's strict ancestors decide. */
  predicate ParentExported(ancestors: seq<Node>)
  {
    ancestors != [] && HasExportAncestor(ancestors[1..])
  }

  /** The parent's verdict implies the node's own: exportedness only looks further up. */
  lemma ParentExportedImplies(ancestors: seq<Node>)
    ensures ParentExported(ancestors) ==> HasExportAncestor(ancestors)
  {
    if ParentExported(ancestors) {
      var i :| 0 <= i < |ancestors[1..]| && ancestors[1..][i].kind == "export_statement";
      assert ancestors[i + 1].kind == "export_statement";
    }
  }

  // ---------------------------------------------------------------------------------------
  // Parameters

  /** The text of the child under field `f`, if there is one. */
  function FieldText(n: Node, f: string): (r: Option<string>)
    ensures r.Some? <==> ChildForFieldName(n, f).Some?
  {
    match ChildForFieldName(n, f)
    case Some(c) => Some(c.text)
    case None => None
  }

  /** `parseParameter`: named by the `pattern` child, else the first child; optional when
      the node is an `optional_parameter` or the name has a `?`, whose first occurrence is
      removed; the `type` and `value` children give the type and the default. */
  function ParseParameter(n: Node): Option<Parameter>
  {
    match OrElse(ChildForFieldName(n, "pattern"), FirstChild(n))
    case None => None
    case Some(nameNode) =>
      var name := nameNode.text;
      Some(Parameter(ReplaceFirst(name, "?", ""), FieldText(n, "type"),
                     n.kind == "optional_parameter" || Contains(name, "?"), FieldText(n, "value")))
  }

  /** A parameter node yields a parameter exactly when it has a child. Its optional flag is
      set exactly for an `optional_parameter` or a name with `?`; a name without `?` is kept
      as it is, and otherwise loses exactly one character. */
  lemma ParseParameterSpec(n: Node)
    ensures var r := ParseParameter(n);
      (r.Some? <==> n.children != []) &&
      (r.Some? ==>
         var nameNode := OrElse(ChildForFieldName(n, "pattern"), FirstChild(n)).value;
         nameNode in n.children &&
         (r.value.optional <==> n.kind == "optional_parameter" || Contains(nameNode.text, "?")) &&
         (!Contains(nameNode.text, "?") ==> r.value.name == nameNode.text) &&
         (Contains(nameNode.text, "?") ==> |r.value.name| == |nameNode.text| - 1) &&
         (r.value.typ.Some? <==> ChildForFieldName(n, "type").Some?) &&
         (r.value.defaultValue.Some? <==> ChildForFieldName(n, "value").Some?))
  {
    if n.children != [] {
      assert n.children[0] in n.children;
    }
  }

  predicate IsParameterNode(c: Node)
  {
    c.kind == "required_parameter" || c.kind == "optional_parameter"
  }

  /** What one child of the parameter list contributes: only `required_parameter` and
      `optional_parameter` children are parsed, so bare identifiers are dropped. */
  function ParameterOf(c: Node): Option<Parameter>
  {
    if IsParameterNode(c) then ParseParameter(c) else None
  }

  /** What `parseParameters` returns for a parameter-list node. */
  function Parameters(parametersNode: Node): seq<Parameter>
  {
    FilterMap(parametersNode.children, ParameterOf)
  }

  /** Every parameter comes from a `required_parameter` or `optional_parameter` child, and
      every such child with children of its own yields its parameter. */
  lemma ParametersFacts(parametersNode: Node)
    ensures forall p :: p in Parameters(parametersNode) ==>
      exists i :: 0 <= i < |parametersNode.children| && IsParameterNode(parametersNode.children[i]) &&
        ParseParameter(parametersNode.children[i]) == Some(p)
    ensures forall i ::
      (0 <= i < |parametersNode.children| && IsParameterNode(parametersNode.children[i]) && parametersNode.children[i].children != []) ==>
        ParseParameter(parametersNode.children[i]).value in Parameters(parametersNode)
  {
    var cs := parametersNode.children;
    forall p | p in Parameters(parametersNode)
      ensures exists i :: 0 <= i < |cs| && IsParameterNode(cs[i]) && ParseParameter(cs[i]) == Some(p)
    {
      FilterMapMembership(cs, ParameterOf, p);
    }
    forall i | 0 <= i < |cs| && IsParameterNode(cs[i]) && cs[i].children != []
      ensures ParseParameter(cs[i]).value in Parameters(parametersNode)
    {
      ParseParameterSpec(cs[i]);
      FilterMapMembership(cs, ParameterOf, ParseParameter(cs[i]).value);
    }
  }

  /** `parseParameters`. */
  method ParseParameters(parametersNode: Node) returns (parameters: seq<Parameter>)
    ensures parameters == Parameters(parametersNode)
  {
    var children := parametersNode.children;
    parameters := [];
    var i := 0;
    while i < |children|
      invariant 0 <= i <= |children|
      invariant parameters == FilterMap(children[..i], ParameterOf)
    {
      FilterMapStep(children, i, ParameterOf);
      var child := children[i];
      if child.kind == "required_parameter" || child.kind == "optional_parameter" {
        var param := ParseParameter(child);
        if param.Some? {
          parameters := parameters + [param.value];
        }
      }
      i := i + 1;
    }
    assert children[..i] == children;
  }

  // ---------------------------------------------------------------------------------------
  // Definitions

  /** `parseFunctionDeclaration`: needs `name` and `parameters` children; async when the
      text starts with `async `; exported when a strict ancestor is an export statement. */
  function FunctionDeclaration(n: Node, ancestors: seq<Node>, path: string): Option<FunctionInfo>
  {
    var name := ChildForFieldName(n, "name");
    var params := ChildForFieldName(n, "parameters");
    if name.None? || params.None? then None
    else
      Some(FunctionInfo(name.value.text, Parameters(params.value), None, path, n.row + 1, n.column + 1,
                        HasExportAncestor(ancestors), StartsWith(n.text, "async "), false))
  }

  /** `parseArrowFunction` on a `variable_declarator`: needs a `name` child and a `value`
      child that is an `arrow_function`, whose `parameters` child (if any) gives the
      parameters; exportedness is asked of the declarator's parent. */
  function ArrowFunction(n: Node, ancestors: seq<Node>, path: string): Option<FunctionInfo>
  {
    var name := ChildForFieldName(n, "name");
    var value := ChildForFieldName(n, "value");
    if name.None? || value.None? || value.value.kind != "arrow_function" then None
    else
      var params := ChildForFieldName(value.value, "parameters");
      Some(FunctionInfo(name.value.text, if params.Some? then Parameters(params.value) else [], None, path,
                        n.row + 1, n.column + 1, ParentExported(ancestors), StartsWith(value.value.text, "async "), true))
  }

  /** `parseMethodDefinition`: always marked exported; async when the text contains `async `. */
  function MethodDefinition(n: Node, path: string): Option<FunctionInfo>
  {
    var name := ChildForFieldName(n, "name");
    var params := ChildForFieldName(n, "parameters");
    if name.None? || params.None? then None
    else
      Some(FunctionInfo(name.value.text, Parameters(params.value), None, path, n.row + 1, n.column + 1,
                        true, Contains(n.text, "async "), false))
  }

  /** What `extractFunctions`' traversal records at one node, before its children. */
  function NodeFunctions(n: Node, ancestors: seq<Node>, path: string): seq<FunctionInfo>
  {
    (if n.kind == "function_declaration" then OptionToSeq(FunctionDeclaration(n, ancestors, path)) else []) +
    (if n.kind == "variable_declarator" then OptionToSeq(ArrowFunction(n, ancestors, path)) else []) +
    (if n.kind == "method_definition" then OptionToSeq(MethodDefinition(n, path)) else [])
  }

  function FunctionsAt(path: string): (Node, seq<Node>) -> seq<FunctionInfo>
  {
    (m: Node, a: seq<Node>) => NodeFunctions(m, a, path)
  }

  /** What `extractFunctions` returns for a tree: the definitions in pre-order. */
  function Functions(root: Node, path: string): seq<FunctionInfo>
  {
    PreOrder(root, [], FunctionsAt(path))
  }

  /** The definition, if any, that `traverseTree` records at one node. */
  method NodeFunctionsOf(n: Node, ancestors: seq<Node>, path: string) returns (functions: seq<FunctionInfo>)
    ensures functions == FunctionsAt(path)(n, ancestors)
  {
    functions := [];
    if n.kind == "function_declaration" {
      var f := FunctionDeclaration(n, ancestors, path);
      if f.Some? { functions := functions + [f.value]; }
    }
    if n.kind == "variable_declarator" {
      var f := ArrowFunction(n, ancestors, path);
      if f.Some? { functions := functions + [f.value]; }
    }
    if n.kind == "method_definition" {
      var f := MethodDefinition(n, path);
      if f.Some? { functions := functions + [f.value]; }
    }
  }

  /** The traversal of `extractFunctions` below `n`. */
  method TraverseFunctions(n: Node, ancestors: seq<Node>, path: string) returns (functions: seq<FunctionInfo>)
    ensures functions == PreOrder(n, ancestors, FunctionsAt(path))
    decreases n
  {
    functions := NodeFunctionsOf(n, ancestors, path);
    var i := 0;
    while i < |n.children|
      invariant 0 <= i <= |n.children|
      invariant functions + PreOrderFrom(n, ancestors, FunctionsAt(path), i) == PreOrder(n, ancestors, FunctionsAt(path))
    {
      PreOrderFromStep(n, ancestors, FunctionsAt(path), functions, i);
      var found := TraverseFunctions(n.children[i], [n] + ancestors, path);
      functions := functions + found;
      i := i + 1;
    }
  }

  /** `extractFunctions`. */
  method ExtractFunctions(root: Node, filePath: string) returns (functions: seq<FunctionInfo>)
    ensures functions == Functions(root, filePath)
  {
    functions := TraverseFunctions(root, [], filePath);
  }

  /** A definition recorded at a node is in the file, at the node's 1-based line and column;
      a method is always exported, and an arrow function or declaration only under an export
      statement. */
  lemma NodeFunctionsFacts(n: Node, ancestors: seq<Node>, path: string, f: FunctionInfo)
    requires f in NodeFunctions(n, ancestors, path)
    ensures f.file == path && f.line == n.row + 1 && f.column == n.column + 1 && f.line >= 1 && f.column >= 1
    ensures n.kind == "method_definition" ==> f.isExported
    ensures n.kind != "method_definition" && f.isExported ==> HasExportAncestor(ancestors)
    ensures f.isArrow <==> n.kind == "variable_declarator"
  {
    ParentExportedImplies(ancestors);
  }

  /** Every definition found in a tree is recorded in the file with 1-based line and column. */
  lemma FunctionsFacts(root: Node, path: string)
    ensures forall k :: 0 <= k < |Functions(root, path)| ==>
      Functions(root, path)[k].file == path && Functions(root, path)[k].line >= 1 && Functions(root, path)[k].column >= 1
  {
    var p := (f: FunctionInfo) => f.file == path && f.line >= 1 && f.column >= 1;
    forall m: Node, a: seq<Node>, k | 0 <= k < |FunctionsAt(path)(m, a)|
      ensures p(FunctionsAt(path)(m, a)[k])
    {
      NodeFunctionsFacts(m, a, path, FunctionsAt(path)(m, a)[k]);
    }
    PreOrderAll(root, [], FunctionsAt(path), p);
  }

  // ---------------------------------------------------------------------------------------
  // Calls

  /** The callee's name: an identifier's text, a member expression's `property` text, or
      empty for anything else. */
  function CalleeName(callee: Node): string
  {
    if callee.kind == "identifier" then callee.text
    else if callee.kind == "member_expression" then
      match FieldText(callee, "property")
      case Some(t) => t
      case None => ""
    else ""
  }

  /** `parseFunctionCall` on a `call_expression`: the call's context is its own text. */
  function ParseFunctionCall(n: Node, path: string): Option<CallSite>
  {
    match ChildForFieldName(n, "function")
    case None => None
    case Some(callee) =>
      var name := CalleeName(callee);
      if name == "" then None else Some(CallSite(name, path, n.row + 1, n.column + 1, n.text))
  }

  /** A call is recorded exactly when the callee is an identifier with text or a member
      expression with a non-empty `property`, and carries that name; its position is the
      call's, 1-based, and its context the call's text. */
  lemma ParseFunctionCallSpec(n: Node, path: string)
    ensures var r := ParseFunctionCall(n, path);
      var callee := ChildForFieldName(n, "function");
      (r.Some? <==> callee.Some? && (callee.value.kind == "identifier" || callee.value.kind == "member_expression") &&
                    CalleeName(callee.value) != "") &&
      (r.Some? && callee.value.kind == "identifier" ==> r.value.name == callee.value.text) &&
      (r.Some? && callee.value.kind == "member_expression" ==> r.value.name == ChildForFieldName(callee.value, "property").value.text) &&
      (r.Some? ==> r.value.file == path && r.value.line == n.row + 1 && r.value.column == n.column + 1 && r.value.context == n.text)
  {
  }

  function NodeCalls(n: Node, path: string): seq<CallSite>
  {
    if n.kind == "call_expression" then OptionToSeq(ParseFunctionCall(n, path)) else []
  }

  function CallsAt(path: string): (Node, seq<Node>) -> seq<CallSite>
  {
    (m: Node, a: seq<Node>) => NodeCalls(m, path)
  }

  /** What `extractFunctionCalls` returns for a tree: the calls in pre-order. */
  function Calls(root: Node, path: string): seq<CallSite>
  {
    PreOrder(root, [], CallsAt(path))
  }

  /** The traversal of `extractFunctionCalls` below `n`. */
  method TraverseCalls(n: Node, ancestors: seq<Node>, path: string) returns (calls: seq<CallSite>)
    ensures calls == PreOrder(n, ancestors, CallsAt(path))
    decreases n
  {
    calls := [];
    if n.kind == "call_expression" {
      var call := ParseFunctionCall(n, path);
      if call.Some? { calls := calls + [call.value]; }
    }
    assert calls == CallsAt(path)(n, ancestors);
    var i := 0;
    while i < |n.children|
      invariant 0 <= i <= |n.children|
      invariant calls + PreOrderFrom(n, ancestors, CallsAt(path), i) == PreOrder(n, ancestors, CallsAt(path))
    {
      PreOrderFromStep(n, ancestors, CallsAt(path), calls, i);
      var found := TraverseCalls(n.children[i], [n] + ancestors, path);
      calls := calls + found;
      i := i + 1;
    }
  }

  /** `extractFunctionCalls`. */
  method ExtractFunctionCalls(root: Node, filePath: string) returns (calls: seq<CallSite>)
    ensures calls == Calls(root, filePath)
  {
    calls := TraverseCalls(root, [], filePath);
  }

  /** Every call found in a tree is recorded in the file, with a name and 1-based position. */
  lemma CallsFacts(root: Node, path: string)
    ensures forall k :: 0 <= k < |Calls(root, path)| ==>
      Calls(root, path)[k].file == path && Calls(root, path)[k].name != "" &&
      Calls(root, path)[k].line >= 1 && Calls(root, path)[k].column >= 1
  {
    var p := (c: CallSite) => c.file == path && c.name != "" && c.line >= 1 && c.column >= 1;
    forall m: Node, a: seq<Node>, k | 0 <= k < |CallsAt(path)(m, a)|
      ensures p(CallsAt(path)(m, a)[k])
    {
      ParseFunctionCallSpec(m, path);
    }
    PreOrderAll(root, [], CallsAt(path), p);
  }

  // ---------------------------------------------------------------------------------------
  // Imports

  predicate IsNotQuote(c: char)
  {
    c != '\'' && c != '"'
  }

  /** The import of one direct child of an import statement: only an `import_specifier`
      with a `name` child, never a default or namespace import. */
  function SpecifierImport(modulePath: string, statement: Node, path: string): Node -> Option<ImportInfo>
  {
    (c: Node) =>
      if c.kind == "import_specifier" then
        match FieldText(c, "name")
        case Some(name) => Some(ImportInfo(name, modulePath, false, false, path, statement.row + 1, statement.column + 1))
        case None => None
      else None
  }

  /** `parseImportStatement`: nothing without a `source` child; otherwise the module path is
      the source text without quotes, and only direct `import_specifier` children count. */
  function ImportStatement(n: Node, path: string): seq<ImportInfo>
  {
    match ChildForFieldName(n, "source")
    case None => []
    case Some(source) => FilterMap(n.children, SpecifierImport(Filter(source.text, IsNotQuote), n, path))
  }

  /** `parseImportStatement`. */
  method ParseImportStatement(n: Node, path: string) returns (imports: seq<ImportInfo>)
    ensures imports == ImportStatement(n, path)
  {
    imports := [];
    var sourceNode := ChildForFieldName(n, "source");
    if sourceNode.None? {
      return;
    }
    var modulePath := Filter(sourceNode.value.text, IsNotQuote);
    var specifier := SpecifierImport(modulePath, n, path);
    var i := 0;
    while i < |n.children|
      invariant 0 <= i <= |n.children|
      invariant imports == FilterMap(n.children[..i], specifier)
    {
      FilterMapStep(n.children, i, specifier);
      var child := n.children[i];
      if child.kind == "import_specifier" {
        var nameNode := ChildForFieldName(child, "name");
        if nameNode.Some? {
          imports := imports + [ImportInfo(nameNode.value.text, modulePath, false, false, path, n.row + 1, n.column + 1)];
        }
      }
      i := i + 1;
    }
    assert n.children[..i] == n.children;
  }

  /** Every import of a statement is a named, non-namespace import from a direct
      `import_specifier` child, with a module path free of quotes, at the statement's
      1-based position. */
  lemma ImportStatementFacts(n: Node, path: string, imp: ImportInfo)
    requires imp in ImportStatement(n, path)
    ensures !imp.isDefault && !imp.isNamespace && imp.file == path
    ensures imp.line == n.row + 1 && imp.column == n.column + 1
    ensures '\'' !in imp.modulePath && '"' !in imp.modulePath
    ensures exists c :: c in n.children && c.kind == "import_specifier" && FieldText(c, "name") == Some(imp.importName)
  {
    var source := ChildForFieldName(n, "source").value;
    var modulePath := Filter(source.text, IsNotQuote);
    var f := SpecifierImport(modulePath, n, path);
    FilterMapMembership(n.children, f, imp);
    var i :| 0 <= i < |n.children| && f(n.children[i]) == Some(imp);
    assert n.children[i] in n.children;
    FilterMembership(source.text, IsNotQuote, '\'');
    FilterMembership(source.text, IsNotQuote, '"');
  }
}
