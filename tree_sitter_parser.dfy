/** src/analysis/tree-sitter-parser.ts: the syntax-tree extractor the accuracy comparison
    runs against the line-based parser. Its object holds only the two grammar parsers, so it
    is a module here; the tree of a file is an input, `None` standing for a parse that
    throws, which each extractor catches and answers with an empty list. It reports 0-based
    columns, and counts a node as exported when the node itself or one of its ancestors is an
    export statement. */
module TreeSitterParser {
  import opened Wrappers
  import opened Seqs
  import opened Strings
  import opened SyntaxTree
  import opened Types
  import AstParser
  import SimpleParser

  // ---------------------------------------------------------------------------------------
  // Exportedness

  /** Some node of `chain` (a node, then its ancestors nearest first) is an export statement. */
  predicate ExportInChain(chain: seq<Node>)
  {
    exists i :: 0 <= i < |chain| && chain[i].kind == "export_statement"
  }

  /** `isExported(node)`, given the node followed by its ancestors (empty for `null`): the walk
      up checks each node and its parent. */
  method IsExported(chain: seq<Node>) returns (r: bool)
    ensures r <==> ExportInChain(chain)
  {
    var i := 0;
    while i < |chain|
      invariant 0 <= i <= |chain|
      invariant forall k :: 0 <= k < i ==> chain[k].kind != "export_statement"
    {
      if chain[i].kind == "export_statement" {
        return true;
      }
      if i + 1 < |chain| && chain[i + 1].kind == "export_statement" {
        return true;
      }
      i := i + 1;
    }
    return false;
  }

  /** The node counts with its ancestors; for a node that is not itself an export statement,
      the verdict is the same as that of the plain extractor, which only looks at strict
      ancestors. */
  lemma ExportInChainCons(n: Node, ancestors: seq<Node>)
    ensures ExportInChain([n] + ancestors) <==> n.kind == "export_statement" || ExportInChain(ancestors)
    ensures n.kind != "export_statement" ==>
      (ExportInChain([n] + ancestors) <==> AstParser.HasExportAncestor(ancestors))
  {
    var chain := [n] + ancestors;
    if ExportInChain(chain) && n.kind != "export_statement" {
      var i :| 0 <= i < |chain| && chain[i].kind == "export_statement";
      assert ancestors[i - 1] == chain[i];
    }
    if ExportInChain(ancestors) {
      var i :| 0 <= i < |ancestors| && ancestors[i].kind == "export_statement";
      assert chain[i + 1] == ancestors[i];
    }
    if n.kind == "export_statement" {
      assert chain[0] == n;
    }
  }

  // ---------------------------------------------------------------------------------------
  // Parameters

  /** `=\s*(.+)$` attempted at `q`: the trimmed text after the `=` when the rest of the text
      is a single line. */
  function DefaultValueAt(s: string, q: nat): Option<string>
  {
    if q < |s| && s[q] == '=' then SimpleParser.SpacesThenRestToEnd(s, q + 1) else None
  }

  /** The default value of a parameter node's text: looked for only when the text contains
      ` = `, then the leftmost match of `=\s*(.+)$`, trimmed. */
  function DefaultValue(text: string): Option<string>
  {
    if Contains(text, " = ") then Leftmost(text, 0, DefaultValueAt) else None
  }

  /** A default value is the trimmed rest of the text after the leftmost `=` at which the
      pattern matches, a rest that runs to the end of the text without a line break. */
  lemma DefaultValueSpec(text: string)
    ensures DefaultValue(text).Some? ==> Contains(text, " = ")
    ensures DefaultValue(text).Some? ==>
      exists q :: 0 <= q < |text| && text[q] == '=' && LineEnd(text, SpaceRunEnd(text, q + 1)) == |text| &&
        DefaultValue(text).value == Trim(text[SpaceRunEnd(text, q + 1)..]) &&
        (forall j :: 0 <= j < q ==> DefaultValueAt(text, j).None?)
  {
    if DefaultValue(text).Some? {
      var q := LeftmostOrigin(text, 0, DefaultValueAt);
      var w := SpaceRunEnd(text, q + 1);
      if w == |text| {
        assert text[w..] == [];
        assert LineEnd(text, w) == |text|;
      }
    }
  }

  /** Conversely, a text containing ` = ` with an `=` followed by a non-empty rest free of line
      breaks always has a default value. */
  lemma DefaultValueFound(text: string, q: nat)
    requires Contains(text, " = ")
    requires q + 1 < |text| && text[q] == '='
    requires forall k :: q < k < |text| ==> !IsLineTerminator(text[k])
    ensures DefaultValue(text).Some?
  {
    var w := SpaceRunEnd(text, q + 1);
    if w < |text| {
      LineEndNone(text, w);
    }
    LeftmostFinds(text, 0, DefaultValueAt, q);
  }

  /** `extractFirstIdentifier`: an identifier's own text, else the text of the first direct
      child that is an identifier, else nothing. */
  function ExtractFirstIdentifier(n: Node): (r: Option<string>)
    ensures n.kind == "identifier" ==> r == Some(n.text)
  {
    if n.kind == "identifier" then Some(n.text)
    else match FindChildByType(n, "identifier")
      case Some(c) => Some(c.text)
      case None => None
  }

  /** For a node that is not an identifier, the result is the text of the earliest identifier
      child, and there is none exactly when no child is an identifier. */
  lemma ExtractFirstIdentifierSpec(n: Node)
    requires n.kind != "identifier"
    ensures ExtractFirstIdentifier(n).None? <==> forall i :: 0 <= i < |n.children| ==> n.children[i].kind != "identifier"
    ensures ExtractFirstIdentifier(n).Some? ==>
      exists i :: 0 <= i < |n.children| && n.children[i].kind == "identifier" &&
        ExtractFirstIdentifier(n).value == n.children[i].text &&
        forall j :: 0 <= j < i ==> n.children[j].kind != "identifier"
  {
    var p := (c: Node) => c.kind == "identifier";
    FirstIsEarliest(n.children, p);
  }

  predicate IsPattern(n: Node)
  {
    n.kind == "object_pattern" || n.kind == "array_pattern"
  }

  /** The name of a typed parameter: for a destructuring pattern, its first identifier when
      that is a non-empty text, else the whole pattern's text; otherwise the name node's text. */
  function ParameterName(nameNode: Node): (r: string)
  {
    if IsPattern(nameNode) then
      match ExtractFirstIdentifier(nameNode)
      case Some(t) => if t != "" then t else nameNode.text
      case None => nameNode.text
    else nameNode.text
  }

  /** `parseTypedParameter`: named by the `pattern` child, else the first child; optional when
      the node is an `optional_parameter` or its text contains ` = `. */
  function ParseTypedParameter(n: Node): Option<Parameter>
  {
    match OrElse(ChildForFieldName(n, "pattern"), FirstChild(n))
    case None => None
    case Some(nameNode) =>
      Some(Parameter(ParameterName(nameNode), AstParser.FieldText(n, "type"),
                     n.kind == "optional_parameter" || Contains(n.text, " = "), DefaultValue(n.text)))
  }

  /** A typed parameter is parsed exactly when the node has a child. It is optional exactly
      for an `optional_parameter` or a text with ` = `, so a parameter with a default is
      always optional; its type is the `type` child's text; a name that is not a pattern is
      the name node's text. */
  lemma ParseTypedParameterSpec(n: Node)
    ensures var r := ParseTypedParameter(n);
      (r.Some? <==> n.children != []) &&
      (r.Some? ==>
         var nameNode := OrElse(ChildForFieldName(n, "pattern"), FirstChild(n)).value;
         nameNode in n.children &&
         (r.value.optional <==> n.kind == "optional_parameter" || Contains(n.text, " = ")) &&
         (r.value.defaultValue.Some? ==> r.value.optional) &&
         (r.value.typ.Some? <==> ChildForFieldName(n, "type").Some?) &&
         (r.value.typ.Some? ==> r.value.typ.value == ChildForFieldName(n, "type").value.text) &&
         (!IsPattern(nameNode) ==> r.value.name == nameNode.text))
  {
    if n.children != [] {
      assert n.children[0] in n.children;
    }
    DefaultValueSpec(n.text);
  }

  /** What one child of a parameter list contributes: a bare identifier is a required
      untyped parameter, a typed parameter node is parsed, anything else is skipped. */
  function ParameterOf(c: Node): Option<Parameter>
  {
    if c.kind == "identifier" then Some(Parameter(c.text, None, false, None))
    else if c.kind == "required_parameter" || c.kind == "optional_parameter" then ParseTypedParameter(c)
    else None
  }

  /** What `parseParameters` returns for a parameter-list node. */
  function Parameters(paramsNode: Node): seq<Parameter>
  {
    FilterMap(paramsNode.children, ParameterOf)
  }

  /** Every bare identifier child gives a required parameter of its name, and every parameter
      comes from an identifier or a typed parameter child. */
  lemma ParametersFacts(paramsNode: Node)
    ensures forall i :: 0 <= i < |paramsNode.children| && paramsNode.children[i].kind == "identifier" ==>
      Parameter(paramsNode.children[i].text, None, false, None) in Parameters(paramsNode)
    ensures forall p :: p in Parameters(paramsNode) ==>
      exists i :: 0 <= i < |paramsNode.children| && ParameterOf(paramsNode.children[i]) == Some(p) &&
        paramsNode.children[i].kind in ["identifier", "required_parameter", "optional_parameter"]
  {
    var cs := paramsNode.children;
    forall i | 0 <= i < |cs| && cs[i].kind == "identifier"
      ensures Parameter(cs[i].text, None, false, None) in Parameters(paramsNode)
    {
      FilterMapMembership(cs, ParameterOf, Parameter(cs[i].text, None, false, None));
    }
    forall p | p in Parameters(paramsNode)
      ensures exists i :: (0 <= i < |cs| && ParameterOf(cs[i]) == Some(p) &&
                           cs[i].kind in ["identifier", "required_parameter", "optional_parameter"])
    {
      FilterMapMembership(cs, ParameterOf, p);
    }
  }

  /** `parseParameters`. */
  method ParseParameters(paramsNode: Node) returns (parameters: seq<Parameter>)
    ensures parameters == Parameters(paramsNode)
  {
    var children := paramsNode.children;
    parameters := [];
    var i := 0;
    while i < |children|
      invariant 0 <= i <= |children|
      invariant parameters == FilterMap(children[..i], ParameterOf)
    {
      FilterMapStep(children, i, ParameterOf);
      var child := children[i];
      if child.kind == "identifier" {
        parameters := parameters + [Parameter(child.text, None, false, None)];
      } else if child.kind == "required_parameter" || child.kind == "optional_parameter" {
        var param := ParseTypedParameter(child);
        if param.Some? {
          parameters := parameters + [param.value];
        }
      }
      i := i + 1;
    }
    assert children[..i] == children;
  }

  // ---------------------------------------------------------------------------------------
  // Definitions

  /** `parseFunctionDeclaration`: needs `name` and `parameters` children; exported when the
      node or an ancestor is an export statement; async when its text contains `async`. */
  function FunctionDeclaration(n: Node, ancestors: seq<Node>, path: string): Option<FunctionInfo>
  {
    var name := ChildForFieldName(n, "name");
    var params := ChildForFieldName(n, "parameters");
    if name.None? || params.None? then None
    else
      Some(FunctionInfo(name.value.text, Parameters(params.value), None, path, n.row + 1, n.column,
                        ExportInChain([n] + ancestors), Contains(n.text, "async"), false))
  }

  /** `parseArrowFunction` on a `variable_declarator`: needs a `name` child and a `value`
      child that is an `arrow_function`, whose `parameters` child (if any) gives the
      parameters; exportedness is asked of the declarator's parent. */
  function ArrowFunction(n: Node, ancestors: seq<Node>, path: string): Option<FunctionInfo>
  {
    var name := ChildForFieldName(n, "name");
    var value := ChildForFieldName(n, "value");
    if name.None? || value.None? || value.value.kind != "arrow_function" then None
    else
      var params := ChildForFieldName(value.value, "parameters");
      Some(FunctionInfo(name.value.text, if params.Some? then Parameters(params.value) else [], None, path,
                        n.row + 1, n.column, ExportInChain(ancestors), Contains(value.value.text, "async"), true))
  }

  /** `parseMethodDefinition`: exportedness is asked of the method's parent. */
  function MethodDefinition(n: Node, ancestors: seq<Node>, path: string): Option<FunctionInfo>
  {
    var name := ChildForFieldName(n, "name");
    var params := ChildForFieldName(n, "parameters");
    if name.None? || params.None? then None
    else
      Some(FunctionInfo(name.value.text, Parameters(params.value), None, path, n.row + 1, n.column,
                        ExportInChain(ancestors), Contains(n.text, "async"), false))
  }

  /** What `traverseTree` records at one node, before its children. */
  function NodeFunctions(n: Node, ancestors: seq<Node>, path: string): seq<FunctionInfo>
  {
    (if n.kind == "function_declaration" then OptionToSeq(FunctionDeclaration(n, ancestors, path)) else []) +
    (if n.kind == "variable_declarator" then OptionToSeq(ArrowFunction(n, ancestors, path)) else []) +
    (if n.kind == "method_definition" then OptionToSeq(MethodDefinition(n, ancestors, path)) else [])
  }

  function FunctionsAt(path: string): (Node, seq<Node>) -> seq<FunctionInfo>
  {
    (m: Node, a: seq<Node>) => NodeFunctions(m, a, path)
  }

  /** What `extractFunctions` returns: the definitions in pre-order, or none when the parse
      throws. */
  function Functions(syntax: Option<Node>, path: string): seq<FunctionInfo>
  {
    match syntax
    case None => []
    case Some(root) => PreOrder(root, [], FunctionsAt(path))
  }

  /** The definition, if any, that `traverseTree` records at one node. */
  method NodeFunctionsOf(n: Node, ancestors: seq<Node>, path: string) returns (functions: seq<FunctionInfo>)
    ensures functions == FunctionsAt(path)(n, ancestors)
  {
    functions := [];
    if n.kind == "function_declaration" {
      var f := FunctionDeclaration(n, ancestors, path);
      if f.Some? { functions := functions + [f.value]; }
    }
    if n.kind == "variable_declarator" {
      var f := ArrowFunction(n, ancestors, path);
      if f.Some? { functions := functions + [f.value]; }
    }
    if n.kind == "method_definition" {
      var f := MethodDefinition(n, ancestors, path);
      if f.Some? { functions := functions + [f.value]; }
    }
  }

  /** `traverseTree` below `n`. */
  method TraverseTree(n: Node, ancestors: seq<Node>, path: string) returns (functions: seq<FunctionInfo>)
    ensures functions == PreOrder(n, ancestors, FunctionsAt(path))
    decreases n
  {
    functions := NodeFunctionsOf(n, ancestors, path);
    var i := 0;
    while i < |n.children|
      invariant 0 <= i <= |n.children|
      invariant functions + PreOrderFrom(n, ancestors, FunctionsAt(path), i) == PreOrder(n, ancestors, FunctionsAt(path))
    {
      PreOrderFromStep(n, ancestors, FunctionsAt(path), functions, i);
      var found := TraverseTree(n.children[i], [n] + ancestors, path);
      functions := functions + found;
      i := i + 1;
    }
  }

  /** `extractFunctions`. */
  method ExtractFunctions(syntax: Option<Node>, filePath: string) returns (functions: seq<FunctionInfo>)
    ensures functions == Functions(syntax, filePath)
  {
    if syntax.None? {
      return [];
    }
    functions := TraverseTree(syntax.value, [], filePath);
  }

  /** A definition recorded at a node is in the file, at the node's 1-based line and 0-based
      column; an arrow function is recorded only for a declarator whose value is an
      `arrow_function`; a declaration is exported exactly when an ancestor is an export
      statement. */
  lemma NodeFunctionsFacts(n: Node, ancestors: seq<Node>, path: string, f: FunctionInfo)
    requires f in NodeFunctions(n, ancestors, path)
    ensures f.file == path && f.line == n.row + 1 && f.column == n.column
    ensures f.isArrow <==> n.kind == "variable_declarator"
    ensures f.isArrow ==> ChildForFieldName(n, "value").Some? && ChildForFieldName(n, "value").value.kind == "arrow_function"
    ensures n.kind == "function_declaration" ==> (f.isExported <==> AstParser.HasExportAncestor(ancestors))
  {
    ExportInChainCons(n, ancestors);
  }

  /** Every definition found in a tree is recorded in the file, on a 1-based line. */
  lemma FunctionsFacts(syntax: Option<Node>, path: string)
    ensures forall k :: 0 <= k < |Functions(syntax, path)| ==>
      Functions(syntax, path)[k].file == path && Functions(syntax, path)[k].line >= 1 && Functions(syntax, path)[k].column >= 0
  {
    if syntax.Some? {
      var p := (f: FunctionInfo) => f.file == path && f.line >= 1 && f.column >= 0;
      forall m: Node, a: seq<Node>, k | 0 <= k < |FunctionsAt(path)(m, a)|
        ensures p(FunctionsAt(path)(m, a)[k])
      {
        NodeFunctionsFacts(m, a, path, FunctionsAt(path)(m, a)[k]);
      }
      PreOrderAll(syntax.value, [], FunctionsAt(path), p);
    }
  }

  // ---------------------------------------------------------------------------------------
  // Calls

  /** A call as `extractFunctionCalls` records it. */
  datatype CallRecord = CallRecord(name: string, file: string, line: int, column: int, context: string, arguments: seq<string>)

  predicate IsArgumentNode(c: Node)
  {
    c.kind != "," && c.kind != "(" && c.kind != ")"
  }

  function ArgumentOf(c: Node): Option<string>
  {
    if IsArgumentNode(c) then Some(c.text) else None
  }

  /** What `parseArguments` returns for an argument-list node. */
  function Arguments(argsNode: Node): seq<string>
  {
    FilterMap(argsNode.children, ArgumentOf)
  }

  function TextOf(c: Node): string
  {
    c.text
  }

  /** The texts of the children that are not punctuation, in order. */
  function ArgumentTexts(children: seq<Node>): seq<string>
  {
    Map(Filter(children, IsArgumentNode), TextOf)
  }

  /** One argument per child that is not `,`, `(` or `)`: its text, in order. */
  lemma {:induction false} ArgumentsSpec(children: seq<Node>)
    ensures FilterMap(children, ArgumentOf) == ArgumentTexts(children)
  {
    if children != [] {
      var init := children[..|children| - 1];
      var last := children[|children| - 1];
      ArgumentsSpec(init);
      var kept := Filter(init, IsArgumentNode);
      if IsArgumentNode(last) {
        assert Filter(children, IsArgumentNode) == kept + [last];
        assert (kept + [last])[..|kept|] == kept;
        assert Map(kept + [last], TextOf) == Map(kept, TextOf) + [TextOf(last)];
      } else {
        assert Filter(children, IsArgumentNode) == kept;
      }
    }
  }

  /** `parseArguments`. */
  method ParseArguments(argsNode: Node) returns (args: seq<string>)
    ensures args == Arguments(argsNode)
  {
    var children := argsNode.children;
    args := [];
    var i := 0;
    while i < |children|
      invariant 0 <= i <= |children|
      invariant args == FilterMap(children[..i], ArgumentOf)
    {
      FilterMapStep(children, i, ArgumentOf);
      var child := children[i];
      if child.kind != "," && child.kind != "(" && child.kind != ")" {
        args := args + [child.text];
      }
      i := i + 1;
    }
    assert children[..i] == children;
  }

  /** The call recorded at a `call_expression` with a `function` child: named by that
      child's text, with the trimmed source line as context. */
  function CallOf(n: Node, path: string, content: string): Option<CallRecord>
  {
    match ChildForFieldName(n, "function")
    case None => None
    case Some(funcNode) =>
      var argsNode := ChildForFieldName(n, "arguments");
      Some(CallRecord(funcNode.text, path, n.row + 1, n.column, Trim(LineAt(content, n.row)),
                      if argsNode.Some? then Arguments(argsNode.value) else []))
  }

  function NodeCalls(n: Node, path: string, content: string): seq<CallRecord>
  {
    if n.kind == "call_expression" then OptionToSeq(CallOf(n, path, content)) else []
  }

  function CallsAt(path: string, content: string): (Node, seq<Node>) -> seq<CallRecord>
  {
    (m: Node, a: seq<Node>) => NodeCalls(m, path, content)
  }

  /** What `extractFunctionCalls` returns: the calls in pre-order, or none when the parse
      throws. */
  function Calls(syntax: Option<Node>, content: string, path: string): seq<CallRecord>
  {
    match syntax
    case None => []
    case Some(root) => PreOrder(root, [], CallsAt(path, content))
  }

  /** `findFunctionCalls` below `n`. */
  method FindFunctionCalls(n: Node, ancestors: seq<Node>, content: string, path: string) returns (calls: seq<CallRecord>)
    ensures calls == PreOrder(n, ancestors, CallsAt(path, content))
    decreases n
  {
    calls := [];
    if n.kind == "call_expression" {
      var funcNode := ChildForFieldName(n, "function");
      if funcNode.Some? {
        var argsNode := ChildForFieldName(n, "arguments");
        var args := [];
        if argsNode.Some? {
          args := ParseArguments(argsNode.value);
        }
        calls := [CallRecord(funcNode.value.text, path, n.row + 1, n.column, Trim(LineAt(content, n.row)), args)];
      }
    }
    assert calls == CallsAt(path, content)(n, ancestors);
    var i := 0;
    while i < |n.children|
      invariant 0 <= i <= |n.children|
      invariant calls + PreOrderFrom(n, ancestors, CallsAt(path, content), i) == PreOrder(n, ancestors, CallsAt(path, content))
    {
      PreOrderFromStep(n, ancestors, CallsAt(path, content), calls, i);
      var found := FindFunctionCalls(n.children[i], [n] + ancestors, content, path);
      calls := calls + found;
      i := i + 1;
    }
  }

  /** `extractFunctionCalls`. */
  method ExtractFunctionCalls(syntax: Option<Node>, content: string, filePath: string) returns (calls: seq<CallRecord>)
    ensures calls == Calls(syntax, content, filePath)
  {
    if syntax.None? {
      return [];
    }
    calls := FindFunctionCalls(syntax.value, [], content, filePath);
  }

  /** Every call found is recorded in the file on a 1-based line, with the trimmed text of
      that line as its context. */
  lemma CallsFacts(syntax: Option<Node>, content: string, path: string)
    ensures forall k :: 0 <= k < |Calls(syntax, content, path)| ==>
      Calls(syntax, content, path)[k].file == path && Calls(syntax, content, path)[k].line >= 1 &&
      Calls(syntax, content, path)[k].context == Trim(LineAt(content, Calls(syntax, content, path)[k].line - 1))
  {
    if syntax.Some? {
      var p := (c: CallRecord) => c.file == path && c.line >= 1 && c.context == Trim(LineAt(content, c.line - 1));
      forall m: Node, a: seq<Node>, k | 0 <= k < |CallsAt(path, content)(m, a)|
        ensures p(CallsAt(path, content)(m, a)[k])
      {
      }
      PreOrderAll(syntax.value, [], CallsAt(path, content), p);
    }
  }

  // ---------------------------------------------------------------------------------------
  // Imports and exports

  datatype RecordKind = ImportRecord | ExportRecord

  /** An entry of `extractImports`. */
  datatype ModuleRecord = ModuleRecord(kind: RecordKind, source: string, specifiers: seq<string>, line: int, isDefault: bool)

  /** What `findImportsExports` records at one node: an import statement with a `source`
      child gives an import from the unquoted source, default exactly when the statement has
      no `{`; an export statement gives an export with an empty source, default when its
      text contains `export default`. Specifier lists are always empty. */
  function NodeModuleRecords(n: Node): seq<ModuleRecord>
  {
    (if n.kind == "import_statement" then
       match ChildForFieldName(n, "source")
       case Some(source) =>
         [ModuleRecord(ImportRecord, Filter(source.text, AstParser.IsNotQuote), [], n.row + 1, !Contains(n.text, "{"))]
       case None => []
     else []) +
    (if n.kind == "export_statement" then
       [ModuleRecord(ExportRecord, "", [], n.row + 1, Contains(n.text, "export default"))]
     else [])
  }

  function ModuleRecordsAt(): (Node, seq<Node>) -> seq<ModuleRecord>
  {
    (m: Node, a: seq<Node>) => NodeModuleRecords(m)
  }

  /** What `extractImports` returns: the records in pre-order, or none when the parse throws. */
  function ModuleRecords(syntax: Option<Node>): seq<ModuleRecord>
  {
    match syntax
    case None => []
    case Some(root) => PreOrder(root, [], ModuleRecordsAt())
  }

  /** `findImportsExports` below `n`. */
  method FindImportsExports(n: Node, ancestors: seq<Node>) returns (records: seq<ModuleRecord>)
    ensures records == PreOrder(n, ancestors, ModuleRecordsAt())
    decreases n
  {
    records := [];
    if n.kind == "import_statement" {
      var sourceNode := ChildForFieldName(n, "source");
      if sourceNode.Some? {
        records := records + [ModuleRecord(ImportRecord, Filter(sourceNode.value.text, AstParser.IsNotQuote), [],
                                           n.row + 1, !Contains(n.text, "{"))];
      }
    }
    if n.kind == "export_statement" {
      records := records + [ModuleRecord(ExportRecord, "", [], n.row + 1, Contains(n.text, "export default"))];
    }
    assert records == ModuleRecordsAt()(n, ancestors);
    var i := 0;
    while i < |n.children|
      invariant 0 <= i <= |n.children|
      invariant records + PreOrderFrom(n, ancestors, ModuleRecordsAt(), i) == PreOrder(n, ancestors, ModuleRecordsAt())
    {
      PreOrderFromStep(n, ancestors, ModuleRecordsAt(), records, i);
      var found := FindImportsExports(n.children[i], [n] + ancestors);
      records := records + found;
      i := i + 1;
    }
  }

  /** `extractImports`. */
  method ExtractImports(syntax: Option<Node>) returns (records: seq<ModuleRecord>)
    ensures records == ModuleRecords(syntax)
  {
    if syntax.None? {
      return [];
    }
    records := FindImportsExports(syntax.value, []);
  }

  /** At one node: an import is recorded exactly for an import statement with a `source`
      child, is default exactly when the statement has no `{`, and its source has no quotes;
      an export is recorded exactly for an export statement, with an empty source. */
  lemma NodeModuleRecordsSpec(n: Node)
    ensures var r := NodeModuleRecords(n);
      (n.kind == "import_statement" ==>
         (r != [] <==> ChildForFieldName(n, "source").Some?) &&
         (r != [] ==> |r| == 1 && r[0].kind == ImportRecord && (r[0].isDefault <==> !Contains(n.text, "{")) &&
                      '\'' !in r[0].source && '"' !in r[0].source)) &&
      (n.kind == "export_statement" ==> |r| == 1 && r[0].kind == ExportRecord && r[0].source == "") &&
      (n.kind != "import_statement" && n.kind != "export_statement" ==> r == [])
  {
    if n.kind == "import_statement" && ChildForFieldName(n, "source").Some? {
      var text := ChildForFieldName(n, "source").value.text;
      FilterMembership(text, AstParser.IsNotQuote, '\'');
      FilterMembership(text, AstParser.IsNotQuote, '"');
    }
  }

  /** Every record has an empty specifier list and a 1-based line; exports have an empty
      source. */
  lemma ModuleRecordsFacts(syntax: Option<Node>)
    ensures forall k :: 0 <= k < |ModuleRecords(syntax)| ==>
      ModuleRecords(syntax)[k].specifiers == [] && ModuleRecords(syntax)[k].line >= 1 &&
      (ModuleRecords(syntax)[k].kind == ExportRecord ==> ModuleRecords(syntax)[k].source == "")
  {
    if syntax.Some? {
      var p := (r: ModuleRecord) => r.specifiers == [] && r.line >= 1 && (r.kind == ExportRecord ==> r.source == "");
      forall m: Node, a: seq<Node>, k | 0 <= k < |ModuleRecordsAt()(m, a)|
        ensures p(ModuleRecordsAt()(m, a)[k])
      {
      }
      PreOrderAll(syntax.value, [], ModuleRecordsAt(), p);
    }
  }
}
