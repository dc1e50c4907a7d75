/** The line-based parser of src/analysis/simple-parser.ts: function and arrow-function
    definitions, call sites and parameter lists found by regular expressions, one line at a
    time. Each regular expression is written as a scanner that returns what JavaScript's
    leftmost, greedy, backtracking matcher captures. */
module SimpleParser {
  import opened Wrappers
  import opened Seqs
  import opened Strings
  import opened SyntaxTree
  import opened Types

  /** The captures of a typed-parameter pattern: name, `?` mark, type text, default text. */
  datatype TypedParam = TypedParam(name: string, mark: bool, typ: string, defaultValue: Option<string>)

  /** `\s*(.+)` started at `i`, trimmed: after the white space, the rest of the line. When
      only white space remains, the matcher gives one white-space character back to `.+`,
      which trims to the empty string. */
  function SpacesThenRest(s: string, i: nat): Option<string>
    requires i <= |s|
  {
    var w := SpaceRunEnd(s, i);
    if w < |s| && !IsLineTerminator(s[w]) then Some(Trim(s[w..LineEnd(s, w)]))
    else if exists k :: i <= k < w && !IsLineTerminator(s[k]) then Some("")
    else None
  }

  /** `\s*(.+)$` started at `i`, trimmed: as `SpacesThenRest`, but `.+` must reach the end. */
  function SpacesThenRestToEnd(s: string, i: nat): Option<string>
    requires i <= |s|
  {
    var w := SpaceRunEnd(s, i);
    if w < |s| && LineEnd(s, w) == |s| then Some(Trim(s[w..]))
    else if w == |s| && w > i && !IsLineTerminator(s[w - 1]) then Some("")
    else None
  }

  /** `function\s+(\w+)\s*\(([^)]*)\)` with `function` at `q`: the name and the parameter text.
      The optional `(?:export\s+)?` prefix only moves the start of the match, never the
      `function` keyword it uses, so the leftmost match is the leftmost keyword that works. */
  function FunctionHeadAt(line: string, q: nat): Option<(string, string)>
  {
    if !OccursAt(line, "function", q) then None
    else
      var a := q + 8;
      var b := SpaceRunEnd(line, a);
      var c := WordRunEnd(line, b);
      var d := SpaceRunEnd(line, c);
      if b == a || c == b || d == |line| || line[d] != '(' then None
      else
        var e := CharFrom(line, ')', d + 1);
        if e == |line| then None else Some((line[b..c], line[d + 1..e]))
  }

  /** `const\s+(\w+)\s*=\s*(?:async\s*)?\(([^)]*)\)\s*=>` with `const` at `q`. */
  function ArrowHeadAt(line: string, q: nat): Option<(string, string)>
  {
    if !OccursAt(line, "const", q) then None
    else
      var a := q + 5;
      var b := SpaceRunEnd(line, a);
      var c := WordRunEnd(line, b);
      var d := SpaceRunEnd(line, c);
      if b == a || c == b || d == |line| || line[d] != '=' then None
      else
        var f := SpaceRunEnd(line, d + 1);
        var open := if OccursAt(line, "async", f) then SpaceRunEnd(line, f + 5) else f;
        if open == |line| || line[open] != '(' then None
        else
          var e := CharFrom(line, ')', open + 1);
          if e == |line| then None
          else
            var g := SpaceRunEnd(line, e + 1);
            if OccursAt(line, "=>", g) then Some((line[b..c], line[open + 1..e])) else None
  }

  /** `line.match(/(?:export\s+)?function\s+(\w+)\s*\(([^)]*)\)/)`. */
  function FunctionMatch(line: string): Option<(string, string)>
  {
    Leftmost(line, 0, FunctionHeadAt)
  }

  /** `line.match(/(?:export\s+)?const\s+(\w+)\s*=\s*(?:async\s*)?\(([^)]*)\)\s*=>/)`. */
  function ArrowMatch(line: string): Option<(string, string)>
  {
    Leftmost(line, 0, ArrowHeadAt)
  }

  /** `(\w+)\s*\(` attempted at `p`: the name and the position after the `(`. */
  function CallAt(line: string, p: nat): (r: Option<(string, nat)>)
    ensures r.Some? ==> p < r.value.1 <= |line| && r.value.0 != "" && OccursAt(line, r.value.0, p)
  {
    if p >= |line| || !IsWordChar(line[p]) then None
    else
      var c := WordRunEnd(line, p);
      var d := SpaceRunEnd(line, c);
      if d < |line| && line[d] == '(' then Some((line[p..c], d + 1)) else None
  }

  /** A match of `(\w+)\s*\(` at `p` names the whole run of word characters starting there,
      which white space and then `(` follow, and the search resumes right after that `(`. */
  lemma CallAtSound(line: string, p: nat)
    ensures CallAt(line, p).Some? ==>
      var name := CallAt(line, p).value.0;
      var next := CallAt(line, p).value.1;
      var e := p + |name|;
      name != "" && e < next <= |line| && name == line[p..e] &&
      (forall k :: p <= k < e ==> IsWordChar(line[k])) && !IsWordChar(line[e]) &&
      (forall k :: e <= k < next - 1 ==> IsSpace(line[k])) && line[next - 1] == '('
  {
    if CallAt(line, p).Some? {
      var c := WordRunEnd(line, p);
      var d := SpaceRunEnd(line, c);
      forall k | p <= k < c
        ensures IsWordChar(line[k])
      {
        WordRunEndAll(line, p, k);
      }
      forall k | c <= k < d
        ensures IsSpace(line[k])
      {
        SpaceRunEndAll(line, c, k);
      }
    }
  }

  /** Conversely, a run of word characters at `p`, then white space, then `(`, is a match at
      `p`: the word cannot be cut shorter, since a word character is neither white space nor
      `(`. */
  lemma CallAtComplete(line: string, p: nat, e: nat, d: nat)
    requires p < e <= d < |line| && line[d] == '('
    requires forall k :: p <= k < e ==> IsWordChar(line[k])
    requires forall k :: e <= k < d ==> IsSpace(line[k])
    ensures CallAt(line, p) == Some((line[p..e], d + 1))
  {
    WordRunEndAtLeast(line, p, e);
    var c := WordRunEnd(line, p);
    assert !IsWordChar(line[e]) by {
      if e < d {
        assert IsSpace(line[e]);
      }
    }
    if c > e {
      WordRunEndAll(line, p, e);
    }
    SpaceRunEndAtLeast(line, e, d);
    if SpaceRunEnd(line, e) > d {
      SpaceRunEndAll(line, e, d);
    }
  }

  /** `line.matchAll(/(\w+)\s*\(/g)` from `from`: each match's name and index, in order,
      the search resuming after each match. */
  function CallMatches(line: string, from: nat): (r: seq<(string, nat)>)
    ensures forall k :: 0 <= k < |r| ==> r[k].0 != "" && OccursAt(line, r[k].0, r[k].1)
    decreases |line| - from
  {
    if from >= |line| then []
    else match CallAt(line, from)
      case Some(m) => [(m.0, from)] + CallMatches(line, m.1)
      case None => CallMatches(line, from + 1)
  }

  /** `(\w+)(\?)?:\s*([^=]+)(?:=(.+))?` attempted at `s`; the type and default are trimmed. */
  function TypedAt(p: string, s: nat): Option<TypedParam>
  {
    if s >= |p| || !IsWordChar(p[s]) then None
    else
      var e := WordRunEnd(p, s);
      var mark := e < |p| && p[e] == '?';
      var c := if mark then e + 1 else e;
      if c == |p| || p[c] != ':' then None
      else
        var a := c + 1;
        var eq := CharFrom(p, '=', a);
        if eq == a then None
        else
          var dflt := if eq + 1 < |p| && !IsLineTerminator(p[eq + 1])
                      then Some(Trim(p[eq + 1..LineEnd(p, eq + 1)])) else None;
          Some(TypedParam(p[s..e], mark, Trim(p[a..eq]), dflt))
  }

  /** `(\w+)\s*=\s*(.+)` attempted at `s`: the name and the trimmed value. */
  function DefaultAt(p: string, s: nat): Option<(string, string)>
  {
    if s >= |p| || !IsWordChar(p[s]) then None
    else
      var e := WordRunEnd(p, s);
      var b := SpaceRunEnd(p, e);
      if b == |p| || p[b] != '=' then None
      else match SpacesThenRest(p, b + 1)
        case Some(v) => Some((p[s..e], v))
        case None => None
  }

  /** `(\w+)` attempted at `s`. */
  function WordAt(p: string, s: nat): Option<string>
  {
    if s >= |p| || !IsWordChar(p[s]) then None else Some(p[s..WordRunEnd(p, s)])
  }

  /** One trimmed comma-separated piece of a parameter list, classified as the regex branch of
      `parseParameters` does: typed (`name?: type = default`), defaulted (`name = value`),
      or bare. A typed parameter is optional only when it carries `?`. */
  function ParsePiece(piece: string): Option<Parameter>
  {
    if piece == "" then None
    else match Leftmost(piece, 0, TypedAt)
      case Some(m) => Some(Parameter(m.name, Some(m.typ), m.mark, m.defaultValue))
      case None =>
        match Leftmost(piece, 0, DefaultAt)
        case Some(nv) => Some(Parameter(nv.0, None, true, Some(nv.1)))
        case None =>
          match Leftmost(piece, 0, WordAt)
          case Some(n) => Some(Parameter(n, None, false, None))
          case None => None
  }

  /** `paramsStr.split(',').map(p => p.trim())`. */
  function Pieces(paramsStr: string): (r: seq<string>)
    ensures |r| == |Split(paramsStr, ',')|
  {
    var parts := Split(paramsStr, ',');
    seq(|parts|, i requires 0 <= i < |parts| => Trim(parts[i]))
  }

  /** `^(\w+)(\?)?:\s*([^=]+)(?:\s*=\s*(.+))?$` on a trimmed parameter node text. */
  function TypedNodeMatch(t: string): Option<TypedParam>
  {
    var e := WordRunEnd(t, 0);
    var mark := e < |t| && t[e] == '?';
    var c := if mark then e + 1 else e;
    if e == 0 || c == |t| || t[c] != ':' then None
    else
      var a := c + 1;
      var eq := CharFrom(t, '=', a);
      if eq == a then None
      else if eq == |t| then Some(TypedParam(t[..e], mark, Trim(t[a..]), None))
      else match SpacesThenRestToEnd(t, eq + 1)
        case Some(v) => Some(TypedParam(t[..e], mark, Trim(t[a..eq]), Some(v)))
        case None => None
  }

  /** `^(\w+)\s*=\s*(.+)$`. */
  function DefaultNodeMatch(t: string): Option<(string, string)>
  {
    var e := WordRunEnd(t, 0);
    var b := SpaceRunEnd(t, e);
    if e == 0 || b == |t| || t[b] != '=' then None
    else match SpacesThenRestToEnd(t, b + 1)
      case Some(v) => Some((t[..e], v))
      case None => None
  }

  /** `parseParameterNode`: a parameter node's trimmed text, matched by anchored patterns.
      Here a typed parameter with a default value is optional. */
  function ParseParameterNode(text: string): (r: Option<Parameter>)
    ensures r.Some? && r.value.typ.Some? && Truthy(r.value.defaultValue) ==> r.value.optional
    ensures r.Some? && r.value.typ.None? ==> (r.value.optional <==> r.value.defaultValue.Some?)
  {
    if text == "" then None
    else
      var t := Trim(text);
      match TypedNodeMatch(t)
      case Some(m) => Some(Parameter(m.name, Some(m.typ), m.mark || Truthy(m.defaultValue), m.defaultValue))
      case None =>
        match DefaultNodeMatch(t)
        case Some(nv) => Some(Parameter(nv.0, None, true, Some(nv.1)))
        case None =>
          var e := WordRunEnd(t, 0);
          if e > 0 && e == |t| then Some(Parameter(t, None, false, None)) else None
  }

  /** `extractParametersFromNode`: the parameters of a `formal_parameters` node, skipping
      punctuation children. */
  function NodeParameters(n: Node): seq<Parameter>
  {
    FilterMap(n.children, (c: Node) => if c.kind in {"(", ")", ","} then None else ParseParameterNode(c.text))
  }

  /** `findFunctionParameters`: the parameters of every function declaration and arrow
      function in the tree, in pre-order. */
  function TreeParameters(n: Node): seq<Parameter>
    decreases n, 1
  {
    var own :=
      if n.kind == "function_declaration" || n.kind == "arrow_function" then
        match FindChildByType(n, "formal_parameters")
        case Some(ps) => NodeParameters(ps)
        case None => []
      else [];
    own + TreeParametersFrom(n, 0)
  }

  function TreeParametersFrom(n: Node, i: nat): seq<Parameter>
    decreases n, 0, |n.children| - i
  {
    if i >= |n.children| then [] else TreeParameters(n.children[i]) + TreeParametersFrom(n, i + 1)
  }

  /** The regular-expression branch of `parseParameters`: blank text gives no parameters,
      otherwise each comma-separated piece gives one at most. */
  function PieceParameters(paramsStr: string): (r: seq<Parameter>)
    ensures |r| <= |Split(paramsStr, ',')|
  {
    if Trim(paramsStr) == "" then [] else FilterMap(Pieces(paramsStr), ParsePiece)
  }

  /** `parseParameters(paramsStr, content, isTypeScript)`: `ast` is the tree of `content` when a
      content is supplied and parses (the syntax-tree branch), `None` otherwise. Blank text
      gives no parameters; otherwise one parameter at most per comma-separated piece. */
  function ParseParametersSpec(paramsStr: string, ast: Option<Node>): (r: seq<Parameter>)
    ensures Trim(paramsStr) == "" ==> r == []
    ensures ast.None? ==> r == PieceParameters(paramsStr)
  {
    if Trim(paramsStr) == "" then []
    else if ast.Some? && |TreeParameters(ast.value)| > 0 then TreeParameters(ast.value)
    else PieceParameters(paramsStr)
  }

  method ParseParameters(paramsStr: string, ast: Option<Node>) returns (parameters: seq<Parameter>)
    ensures parameters == ParseParametersSpec(paramsStr, ast)
  {
    if Trim(paramsStr) == "" {
      return [];
    }
    if ast.Some? {
      var astParams := TreeParameters(ast.value);
      if |astParams| > 0 {
        return astParams;
      }
    }
    parameters := ParsePieces(Pieces(paramsStr));
  }

  /** The loop of the regular-expression branch of `parseParameters` over the trimmed pieces. */
  method ParsePieces(params: seq<string>) returns (parameters: seq<Parameter>)
    ensures parameters == FilterMap(params, ParsePiece)
  {
    parameters := [];
    var k := 0;
    while k < |params|
      invariant 0 <= k <= |params|
      invariant parameters == FilterMap(params[..k], ParsePiece)
    {
      FilterMapStep(params, k, ParsePiece);
      var param := ParsePiece(params[k]);
      if param.Some? {
        parameters := parameters + [param.value];
      }
      k := k + 1;
    }
    assert params[..k] == params;
  }


  /** The definition a header match on a line (1-based `lineNo`) becomes: a declaration found
      by the first pattern, or an arrow function (`isArrow`) found by the second. Its column
      is where the line's first `function` (or `const`) starts, and it is exported (async)
      exactly when the line contains `export` (`async`) anywhere. */
  function HeadDefinition(head: Option<(string, string)>, line: string, lineNo: int, path: string, isArrow: bool): (r: seq<FunctionInfo>)
    ensures |r| == (if head.Some? then 1 else 0)
    ensures forall f :: f in r ==>
              (f.file == path && f.line == lineNo && f.isArrow == isArrow &&
               f.isExported == Contains(line, "export") && f.isAsync == Contains(line, "async"))
  {
    match head
    case Some(m) =>
      [FunctionInfo(m.0, PieceParameters(m.1), None, path, lineNo, IndexOf(line, if isArrow then "const" else "function"),
                    Contains(line, "export"), Contains(line, "async"), isArrow)]
    case None => []
  }

  function LineDefinitions(line: string, lineNo: int, path: string): seq<FunctionInfo>
  {
    HeadDefinition(FunctionMatch(line), line, lineNo, path, false) + HeadDefinition(ArrowMatch(line), line, lineNo, path, true)
  }

  /** The definitions a line yields, as a function of the line and its 1-based number. */
  function DefinitionsOn(path: string): (string, nat) -> seq<FunctionInfo>
  {
    (line: string, lineNo: nat) => LineDefinitions(line, lineNo, path)
  }

  function ExtractFunctionsSpec(content: string, filePath: string): seq<FunctionInfo>
  {
    var lines := Split(content, '\n');
    Numbered(lines, |lines|, DefinitionsOn(filePath))
  }

  /** One of the two `if (match)` blocks of `extractFunctions`' loop body: the parameter list
      of a header match is parsed without a content. */
  method DefinitionOfHead(head: Option<(string, string)>, line: string, lineNo: nat, filePath: string, isArrow: bool)
    returns (found: seq<FunctionInfo>)
    ensures found == HeadDefinition(head, line, lineNo, filePath, isArrow)
  {
    found := [];
    if head.Some? {
      var parameters := ParseParameters(head.value.1, None);
      found := [FunctionInfo(head.value.0, parameters, None, filePath, lineNo,
                             IndexOf(line, if isArrow then "const" else "function"),
                             Contains(line, "export"), Contains(line, "async"), isArrow)];
    }
  }

  /** The body of `extractFunctions`' loop for one line: the declaration, then the arrow
      function. */
  method DefinitionsOnLine(line: string, lineNo: nat, filePath: string) returns (found: seq<FunctionInfo>)
    ensures found == LineDefinitions(line, lineNo, filePath)
  {
    var declared := DefinitionOfHead(FunctionMatch(line), line, lineNo, filePath, false);
    var arrow := DefinitionOfHead(ArrowMatch(line), line, lineNo, filePath, true);
    found := declared + arrow;
  }

  /** `extractFunctions`: never supplies a content, so the parameter lists always take the
      regular-expression branch. */
  method ExtractFunctions(content: string, filePath: string) returns (functions: seq<FunctionInfo>)
    ensures functions == ExtractFunctionsSpec(content, filePath)
  {
    var lines := Split(content, '\n');
    functions := [];
    var i := 0;
    while i < |lines|
      invariant 0 <= i <= |lines|
      invariant functions == Numbered(lines, i, DefinitionsOn(filePath))
    {
      var found := DefinitionsOnLine(lines[i], i + 1, filePath);
      NumberedStep(lines, i, DefinitionsOn(filePath));
      functions := functions + found;
      i := i + 1;
    }
  }

  /** The names `extractFunctionCalls` skips as keywords and built-ins. */
  const Builtins: set<string> := {
    "console", "require", "import", "export", "if", "for", "while",
    "return", "throw", "try", "catch", "new", "typeof", "instanceof",
    "parseInt", "parseFloat", "isNaN", "isFinite", "encodeURIComponent",
    "decodeURIComponent", "setTimeout", "setInterval", "clearTimeout",
    "clearInterval", "JSON", "Object", "Array", "String", "Number",
    "Boolean", "Date", "Math", "RegExp", "Error", "Promise"}

  predicate IsBuiltinFunction(name: string)
  {
    name in Builtins
  }

  /** The call a pattern match on line `lineNo` becomes, unless its name is a built-in. */
  function MatchToCall(path: string, lineNo: int, context: string): ((string, nat)) -> Option<CallSite>
  {
    (m: (string, nat)) => if IsBuiltinFunction(m.0) then None else Some(CallSite(m.0, path, lineNo, m.1, context))
  }

  function LineCalls(line: string, lineNo: int, path: string): seq<CallSite>
  {
    FilterMap(CallMatches(line, 0), MatchToCall(path, lineNo, Trim(line)))
  }

  /** The calls a line yields, as a function of the line and its 1-based number. */
  function CallsOn(path: string): (string, nat) -> seq<CallSite>
  {
    (line: string, lineNo: nat) => LineCalls(line, lineNo, path)
  }

  function ExtractFunctionCallsSpec(content: string, filePath: string): seq<CallSite>
  {
    var lines := Split(content, '\n');
    Numbered(lines, |lines|, CallsOn(filePath))
  }

  /** The inner loop of `extractFunctionCalls`: the matches on one line, built-ins skipped. */
  method CallsOnLine(line: string, lineNo: nat, filePath: string) returns (calls: seq<CallSite>)
    ensures calls == LineCalls(line, lineNo, filePath)
  {
    var matches := CallMatches(line, 0);
    var context := Trim(line);
    ghost var toCall := MatchToCall(filePath, lineNo, context);
    calls := [];
    var j := 0;
    while j < |matches|
      invariant 0 <= j <= |matches|
      invariant calls == FilterMap(matches[..j], toCall)
    {
      FilterMapStep(matches, j, toCall);
      var m := matches[j];
      if !IsBuiltinFunction(m.0) {
        calls := calls + [CallSite(m.0, filePath, lineNo, m.1, context)];
      }
      j := j + 1;
    }
    assert matches[..j] == matches;
  }

  method ExtractFunctionCalls(content: string, filePath: string) returns (calls: seq<CallSite>)
    ensures calls == ExtractFunctionCallsSpec(content, filePath)
  {
    calls := CallsOfLines(Split(content, '\n'), filePath);
  }

  /** The loop of `extractFunctionCalls` over the lines of a file, numbering them from 1. */
  method CallsOfLines(lines: seq<string>, filePath: string) returns (calls: seq<CallSite>)
    ensures calls == Numbered(lines, |lines|, CallsOn(filePath))
  {
    calls := [];
    var i := 0;
    while i < |lines|
      invariant 0 <= i <= |lines|
      invariant calls == Numbered(lines, i, CallsOn(filePath))
    {
      var found := CallsOnLine(lines[i], i + 1, filePath);
      assert CallsOn(filePath)(lines[i], i + 1) == found;
      calls := calls + found;
      i := i + 1;
    }
  }


  /** A definition found on one line records that line. */
  lemma LineDefinitionsFacts(line: string, lineNo: int, path: string, f: FunctionInfo)
    requires f in LineDefinitions(line, lineNo, path)
    ensures f.file == path && f.line == lineNo
    ensures f.isExported == Contains(line, "export") && f.isAsync == Contains(line, "async")
  {
  }

  /** Every definition `extractFunctions` reports records its file and its 1-based line `k`,
      and is exported (async) exactly when line `k` contains `export` (`async`). */
  lemma ExtractFunctionsFacts(content: string, path: string, f: FunctionInfo) returns (k: nat)
    requires f in ExtractFunctionsSpec(content, path)
    ensures 1 <= k <= |Split(content, '\n')| && f.file == path && f.line == k
    ensures f.isExported == Contains(Split(content, '\n')[k - 1], "export")
    ensures f.isAsync == Contains(Split(content, '\n')[k - 1], "async")
  {
    var lines := Split(content, '\n');
    k := NumberedOrigin(lines, |lines|, DefinitionsOn(path), f);
    LineDefinitionsFacts(lines[k - 1], k, path, f);
  }

  /** A call found on one line names a non-built-in word occurring at its column there. */
  lemma LineCallsFacts(line: string, lineNo: int, path: string, c: CallSite)
    requires c in LineCalls(line, lineNo, path)
    ensures c.file == path && c.line == lineNo && !IsBuiltinFunction(c.name)
    ensures c.context == Trim(line) && c.column >= 0 && OccursAt(line, c.name, c.column)
  {
    var ms := CallMatches(line, 0);
    var toCall := MatchToCall(path, lineNo, Trim(line));
    FilterMapMembership(ms, toCall, c);
    var k :| 0 <= k < |ms| && toCall(ms[k]) == Some(c);
  }

  /** Every call `extractFunctionCalls` reports is on its 1-based line `k`, names a word that
      is not a built-in and occurs at its column there, and has that line, trimmed, as context. */
  lemma ExtractFunctionCallsFacts(content: string, path: string, c: CallSite) returns (k: nat)
    requires c in ExtractFunctionCallsSpec(content, path)
    ensures 1 <= k <= |Split(content, '\n')| && c.file == path && c.line == k && !IsBuiltinFunction(c.name)
    ensures c.context == Trim(Split(content, '\n')[k - 1])
    ensures c.column >= 0 && OccursAt(Split(content, '\n')[k - 1], c.name, c.column)
  {
    var lines := Split(content, '\n');
    k := NumberedOrigin(lines, |lines|, CallsOn(path), c);
    LineCallsFacts(lines[k - 1], k, path, c);
  }

  /** In the regular-expression branch a typed parameter is optional exactly when it carries
      `?`, even when it has a default value; an untyped one is optional exactly when it has a
      default value. */
  lemma ParsePieceClassification(piece: string)
    requires ParsePiece(piece).Some?
    ensures ParsePiece(piece).value.typ.Some? ==>
      Leftmost(piece, 0, TypedAt).Some? && (ParsePiece(piece).value.optional <==> Leftmost(piece, 0, TypedAt).value.mark)
    ensures ParsePiece(piece).value.typ.None? ==>
      (ParsePiece(piece).value.optional <==> ParsePiece(piece).value.defaultValue.Some?)
  {
  }
}
