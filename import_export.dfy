/** The import/export mismatch detector (src/detectors/import-export-mismatch-detector.ts):
    every import of a relative module must resolve to a file among the analysed ones and name
    something that file exports. Imports and exports are found one line at a time by regular
    expressions, written here as scanners. */
module ImportExport {
  import opened Wrappers
  import opened Seqs
  import opened Strings
  import opened Types
  import opened EnhancedParser
  import opened Detectors

  // ---------------------------------------------------------------------------------------
  // Scanning imports

  predicate IsQuote(c: char)
  {
    c == '\'' || c == '"'
  }

  /** The first quote at or after `i`, or `|s|`: where `[^'"]+` started at `i` stops. */
  function QuoteFrom(s: string, i: nat): (j: nat)
    requires i <= |s|
    ensures i <= j <= |s| && (j < |s| ==> IsQuote(s[j]))
    decreases |s| - i
  {
    if i == |s| || IsQuote(s[i]) then i else QuoteFrom(s, i + 1)
  }

  /** `\s+from\s+['"]([^'"]+)['"]` attempted at `i`: the module path between the quotes
      (the two quotes need not be the same character). */
  function FromClauseAt(line: string, i: nat): (r: Option<string>)
    requires i <= |line|
    ensures r.Some? ==> r.value != []
  {
    var a := SpaceRunEnd(line, i);
    if a == i || !OccursAt(line, "from", a) then None
    else
      var b := SpaceRunEnd(line, a + 4);
      if b == a + 4 || b == |line| || !IsQuote(line[b]) then None
      else
        var e := QuoteFrom(line, b + 1);
        if e == |line| || e == b + 1 then None else Some(line[b + 1..e])
  }

  /** Which of the three alternatives of the import pattern matched, with its capture. */
  datatype ImportClause =
    | NamedImports(list: string)     // `{ a, b }`: the text between the braces
    | NamespaceImport(name: string)  // `* as ns`
    | DefaultImport(name: string)    // `name`

  datatype ImportMatch = ImportMatch(clause: ImportClause, modulePath: string)

  /** `import\s+(?:{([^}]+)}|\*\s+as\s+(\w+)|(\w+))\s+from\s+['"]([^'"]+)['"]` attempted at
      `p`. Each alternative begins with a character the others cannot begin with, and every
      repetition is followed by a character it cannot consume, so no backtracking ever
      changes what a successful attempt captures. */
  function ImportAt(line: string, p: nat): (r: Option<ImportMatch>)
    ensures r.Some? ==> r.value.modulePath != []
    ensures r.Some? && r.value.clause.NamedImports? ==> r.value.clause.list != []
  {
    if !OccursAt(line, "import", p) then None
    else
      var q := SpaceRunEnd(line, p + 6);
      if q == p + 6 || q == |line| then None
      else if line[q] == '{' then
        var e := CharFrom(line, '}', q + 1);
        if e == |line| || e == q + 1 then None
        else match FromClauseAt(line, e + 1)
          case Some(m) => Some(ImportMatch(NamedImports(line[q + 1..e]), m))
          case None => None
      else if line[q] == '*' then
        var a := SpaceRunEnd(line, q + 1);
        if a == q + 1 || !OccursAt(line, "as", a) then None
        else
          var b := SpaceRunEnd(line, a + 2);
          var c := WordRunEnd(line, b);
          if b == a + 2 || c == b then None
          else match FromClauseAt(line, c)
            case Some(m) => Some(ImportMatch(NamespaceImport(line[b..c]), m))
            case None => None
      else
        var c := WordRunEnd(line, q);
        if c == q then None
        else match FromClauseAt(line, c)
          case Some(m) => Some(ImportMatch(DefaultImport(line[q..c]), m))
          case None => None
  }

  /** `line.match(<import pattern>)`. */
  function ImportMatchOf(line: string): Option<ImportMatch>
  {
    Leftmost(line, 0, ImportAt)
  }

  /** The names of a `{ ... }` import list: split on `,`, each trimmed. */
  function ImportedNames(list: string): (r: seq<string>)
    ensures |r| == |Split(list, ',')|
  {
    Map(Split(list, ','), Trim)
  }

  /** The import of one name of a `{ ... }` list; its column is where the name first
      occurs in the line. */
  function NamedImport(line: string, lineNo: int, path: string, modulePath: string): string -> ImportInfo
  {
    (name: string) => ImportInfo(name, modulePath, false, false, path, lineNo, IndexOf(line, name))
  }

  /** The imports the body of `extractImportsFromFile`' loop records for a line whose match
      of the import pattern is `m`; the column is where the name first occurs in the line. */
  function MatchImports(m: Option<ImportMatch>, line: string, lineNo: int, path: string): (r: seq<ImportInfo>)
    ensures forall imp :: imp in r ==> imp.file == path && imp.line == lineNo
  {
    match m
    case None => []
    case Some(m) =>
      match m.clause
      case NamedImports(list) => Map(ImportedNames(list), NamedImport(line, lineNo, path, m.modulePath))
      case NamespaceImport(name) => [ImportInfo(name, m.modulePath, false, true, path, lineNo, IndexOf(line, name))]
      case DefaultImport(name) => [ImportInfo(name, m.modulePath, true, false, path, lineNo, IndexOf(line, name))]
  }

  /** No match yields nothing; a `{ ... }` list yields one named import per `,`-separated
      name, trimmed, in order; `* as ns` or a default name yields that single import. All of
      them carry the statement's module path. */
  lemma MatchImportsFacts(m: Option<ImportMatch>, line: string, lineNo: int, path: string)
    ensures m.None? ==> MatchImports(m, line, lineNo, path) == []
    ensures m.Some? ==>
      var r := MatchImports(m, line, lineNo, path);
      (forall imp :: imp in r ==> imp.modulePath == m.value.modulePath) &&
      (m.value.clause.NamedImports? ==>
        var names := Split(m.value.clause.list, ',');
        |r| == |names| &&
        forall k :: 0 <= k < |r| ==> r[k].importName == Trim(names[k]) && !r[k].isDefault && !r[k].isNamespace) &&
      (!m.value.clause.NamedImports? ==>
        |r| == 1 && r[0].importName == m.value.clause.name &&
        r[0].isDefault == m.value.clause.DefaultImport? && r[0].isNamespace == m.value.clause.NamespaceImport?)
  {
    if m.Some? && m.value.clause.NamedImports? {
      var r := MatchImports(m, line, lineNo, path);
      forall imp | imp in r
        ensures imp.modulePath == m.value.modulePath
      {
        var k :| 0 <= k < |r| && r[k] == imp;
      }
    }
  }

  /** The imports found on one line. */
  function LineImports(line: string, lineNo: int, path: string): seq<ImportInfo>
  {
    MatchImports(ImportMatchOf(line), line, lineNo, path)
  }

  function ImportsOn(path: string): (string, nat) -> seq<ImportInfo>
  {
    (line: string, lineNo: nat) => LineImports(line, lineNo, path)
  }

  /** What `extractImportsFromFile` returns: each line's imports, in line order. */
  function FileImports(content: string, path: string): seq<ImportInfo>
  {
    var lines := Split(content, '\n');
    Numbered(lines, |lines|, ImportsOn(path))
  }

  /** The body of `extractImportsFromFile`' loop for one line. */
  method ImportsOnLine(line: string, lineNo: nat, filePath: string) returns (found: seq<ImportInfo>)
    ensures found == LineImports(line, lineNo, filePath)
  {
    found := [];
    var importMatch := ImportMatchOf(line);
    if importMatch.Some? {
      var m := importMatch.value;
      match m.clause
      case NamedImports(list) =>
        var names := ImportedNames(list);
        var k := 0;
        while k < |names|
          invariant 0 <= k <= |names|
          invariant found == Map(names[..k], NamedImport(line, lineNo, filePath, m.modulePath))
        {
          MapStep(names, k, NamedImport(line, lineNo, filePath, m.modulePath));
          found := found + [ImportInfo(names[k], m.modulePath, false, false, filePath, lineNo, IndexOf(line, names[k]))];
          k := k + 1;
        }
        assert names[..k] == names;
      case NamespaceImport(name) =>
        found := [ImportInfo(name, m.modulePath, false, true, filePath, lineNo, IndexOf(line, name))];
      case DefaultImport(name) =>
        found := [ImportInfo(name, m.modulePath, true, false, filePath, lineNo, IndexOf(line, name))];
    }
  }

  /** `extractImportsFromFile`. */
  method ExtractImportsFromFile(content: string, filePath: string) returns (imports: seq<ImportInfo>)
    ensures imports == FileImports(content, filePath)
  {
    var lines := Split(content, '\n');
    imports := [];
    var i := 0;
    while i < |lines|
      invariant 0 <= i <= |lines|
      invariant imports == Numbered(lines, i, ImportsOn(filePath))
    {
      var found := ImportsOnLine(lines[i], i + 1, filePath);
      NumberedStep(lines, i, ImportsOn(filePath));
      imports := imports + found;
      i := i + 1;
    }
  }

  /** Every import of a file is recorded against that file, at the 1-based number of the
      line it was found on, and comes from an import statement on that line. */
  lemma FileImportsFacts(content: string, path: string, imp: ImportInfo) returns (k: nat)
    requires imp in FileImports(content, path)
    ensures 1 <= k <= |Split(content, '\n')| && imp.line == k && imp.file == path
    ensures ImportMatchOf(Split(content, '\n')[k - 1]).Some?
  {
    var lines := Split(content, '\n');
    k := NumberedOrigin(lines, |lines|, ImportsOn(path), imp);
    MatchImportsFacts(ImportMatchOf(lines[k - 1]), lines[k - 1], k, path);
  }

  // ---------------------------------------------------------------------------------------
  // Scanning exports

  /** The length of the keyword of `(?:function|const|let|var|class)` at `q`, or 0. The
      keywords differ in their first two characters, so at most one of them occurs at `q`. */
  function DeclarationKeywordAt(line: string, q: nat): (k: nat)
    ensures k == 0 || q + k <= |line|
  {
    if OccursAt(line, "function", q) then 8
    else if OccursAt(line, "const", q) then 5
    else if OccursAt(line, "let", q) then 3
    else if OccursAt(line, "var", q) then 3
    else if OccursAt(line, "class", q) then 5
    else 0
  }

  /** `export\s+(?:function|const|let|var|class)\s+(\w+)` attempted at `p`: the name. */
  function NamedExportAt(line: string, p: nat): (r: Option<string>)
    ensures r.Some? ==> r.value != [] && forall k :: 0 <= k < |r.value| ==> IsWordChar(r.value[k])
  {
    if !OccursAt(line, "export", p) then None
    else
      var q := SpaceRunEnd(line, p + 6);
      var k := DeclarationKeywordAt(line, q);
      if q == p + 6 || k == 0 then None
      else
        var b := SpaceRunEnd(line, q + k);
        var c := WordRunEnd(line, b);
        if b == q + k || c == b then None
        else
          assert forall j :: b <= j < c ==> IsWordChar(line[j]) by {
            forall j | b <= j < c ensures IsWordChar(line[j]) { WordRunEndAll(line, b, j); }
          }
          Some(line[b..c])
  }

  /** The two captures of the default-export pattern: the name after `function`, or the
      word right after `default`. */
  datatype DefaultExportMatch = DefaultExportMatch(functionName: Option<string>, word: Option<string>)

  /** `function\s+(\w+)` attempted at `b`. */
  function FunctionNameAt(line: string, b: nat): (r: Option<string>)
    ensures r.Some? ==> r.value != []
  {
    if !OccursAt(line, "function", b) then None
    else
      var a := SpaceRunEnd(line, b + 8);
      var c := WordRunEnd(line, a);
      if a == b + 8 || c == a then None else Some(line[a..c])
  }

  /** `export\s+default\s+(?:function\s+(\w+)|(\w+))` attempted at `p`. When the first
      alternative fails (`export default function() {}`), the second takes the word at the
      same place, `function` included. */
  function DefaultExportAt(line: string, p: nat): (r: Option<DefaultExportMatch>)
    ensures r.Some? ==> (r.value.functionName.Some? && r.value.functionName.value != [] && r.value.word.None?) ||
                        (r.value.functionName.None? && r.value.word.Some? && r.value.word.value != [])
  {
    if !OccursAt(line, "export", p) then None
    else
      var q := SpaceRunEnd(line, p + 6);
      if q == p + 6 || !OccursAt(line, "default", q) then None
      else
        var b := SpaceRunEnd(line, q + 7);
        if b == q + 7 then None
        else match FunctionNameAt(line, b)
          case Some(name) => Some(DefaultExportMatch(Some(name), None))
          case None =>
            var c := WordRunEnd(line, b);
            if c == b then None else Some(DefaultExportMatch(None, Some(line[b..c])))
  }

  /** `export\s+{([^}]+)}` attempted at `p`: the text between the braces. */
  function ExportListAt(line: string, p: nat): (r: Option<string>)
    ensures r.Some? ==> r.value != []
  {
    if !OccursAt(line, "export", p) then None
    else
      var q := SpaceRunEnd(line, p + 6);
      if q == p + 6 || q == |line| || line[q] != '{' then None
      else
        var e := CharFrom(line, '}', q + 1);
        if e == |line| || e == q + 1 then None else Some(line[q + 1..e])
  }

  /** `defaultExportMatch[1] || defaultExportMatch[2] || 'default'`. */
  function DefaultExportName(m: DefaultExportMatch): string
  {
    if Truthy(m.functionName) then m.functionName.value
    else if Truthy(m.word) then m.word.value
    else "default"
  }

  /** The export the declaration pattern finds on a line, if any. */
  function NamedLineExport(line: string, lineNo: int, path: string): (r: seq<ExportInfo>)
    ensures |r| <= 1 && forall e :: e in r ==> e.file == path && e.line == lineNo && !e.isDefault
  {
    match Leftmost(line, 0, NamedExportAt)
    case Some(name) => [ExportInfo(name, false, path, lineNo, IndexOf(line, name), None)]
    case None => []
  }

  /** The export the default-export pattern finds on a line, if any. */
  function DefaultLineExport(line: string, lineNo: int, path: string): (r: seq<ExportInfo>)
    ensures |r| <= 1 && forall e :: e in r ==> e.file == path && e.line == lineNo && e.isDefault
    ensures r != [] <==> Leftmost(line, 0, DefaultExportAt).Some?
  {
    match Leftmost(line, 0, DefaultExportAt)
    case Some(m) => [ExportInfo(DefaultExportName(m), true, path, lineNo, IndexOf(line, "default"), None)]
    case None => []
  }

  /** A default export is named after the function (`export default function f`) or the
      word following `default` (`export default x`); the `'default'` fallback is never
      reached, since a match always captures a non-empty word. */
  lemma DefaultLineExportName(line: string, lineNo: int, path: string)
    requires DefaultLineExport(line, lineNo, path) != []
    ensures var m := Leftmost(line, 0, DefaultExportAt).value;
      var name := DefaultLineExport(line, lineNo, path)[0].exportName;
      name != [] &&
      (m.functionName.Some? ==> name == m.functionName.value) &&
      (m.functionName.None? ==> m.word.Some? && name == m.word.value)
  {
    var k := LeftmostOrigin(line, 0, DefaultExportAt);
  }

  /** The export of one name of an `export { ... }` list. */
  function ListedExport(line: string, lineNo: int, path: string): string -> ExportInfo
  {
    (name: string) => ExportInfo(name, false, path, lineNo, IndexOf(line, name), None)
  }

  /** The exports of an `export { ... }` list on a line: one named export per
      comma-separated, trimmed name. */
  function ListLineExports(line: string, lineNo: int, path: string): (r: seq<ExportInfo>)
    ensures forall e :: e in r ==> e.file == path && e.line == lineNo && !e.isDefault
  {
    match Leftmost(line, 0, ExportListAt)
    case Some(list) => Map(ImportedNames(list), ListedExport(line, lineNo, path))
    case None => []
  }

  /** The exports the body of `extractExportsFromFile`' loop records for one line: the
      declaration, then the default export, then the names of an export list. */
  function LineExports(line: string, lineNo: int, path: string): seq<ExportInfo>
  {
    NamedLineExport(line, lineNo, path) + DefaultLineExport(line, lineNo, path) + ListLineExports(line, lineNo, path)
  }

  /** Every export of a line is recorded at that line, and only the default-export pattern
      yields a default export. */
  lemma LineExportsFacts(line: string, lineNo: int, path: string, e: ExportInfo)
    requires e in LineExports(line, lineNo, path)
    ensures e.file == path && e.line == lineNo
    ensures e.isDefault ==> e == DefaultLineExport(line, lineNo, path)[0]
  {
  }

  function ExportsOn(path: string): (string, nat) -> seq<ExportInfo>
  {
    (line: string, lineNo: nat) => LineExports(line, lineNo, path)
  }

  /** What `extractExportsFromFile` returns: each line's exports, in line order. */
  function FileExports(content: string, path: string): seq<ExportInfo>
  {
    var lines := Split(content, '\n');
    Numbered(lines, |lines|, ExportsOn(path))
  }

  /** The names of an export list, pushed one by one. */
  method ListExportsOnLine(line: string, lineNo: nat, filePath: string) returns (found: seq<ExportInfo>)
    ensures found == ListLineExports(line, lineNo, filePath)
  {
    found := [];
    var exportListMatch := Leftmost(line, 0, ExportListAt);
    if exportListMatch.Some? {
      var names := ImportedNames(exportListMatch.value);
      var k := 0;
      while k < |names|
        invariant 0 <= k <= |names|
        invariant found == Map(names[..k], ListedExport(line, lineNo, filePath))
      {
        MapStep(names, k, ListedExport(line, lineNo, filePath));
        found := found + [ExportInfo(names[k], false, filePath, lineNo, IndexOf(line, names[k]), None)];
        k := k + 1;
      }
      assert names[..k] == names;
    }
  }

  /** The body of `extractExportsFromFile`' loop for one line. */
  method ExportsOnLine(line: string, lineNo: nat, filePath: string) returns (found: seq<ExportInfo>)
    ensures found == LineExports(line, lineNo, filePath)
  {
    found := [];
    var namedExportMatch := Leftmost(line, 0, NamedExportAt);
    if namedExportMatch.Some? {
      found := found + [ExportInfo(namedExportMatch.value, false, filePath, lineNo, IndexOf(line, namedExportMatch.value), None)];
    }
    assert found == NamedLineExport(line, lineNo, filePath);
    var defaultExportMatch := Leftmost(line, 0, DefaultExportAt);
    if defaultExportMatch.Some? {
      var name := DefaultExportName(defaultExportMatch.value);
      found := found + [ExportInfo(name, true, filePath, lineNo, IndexOf(line, "default"), None)];
    }
    assert found == NamedLineExport(line, lineNo, filePath) + DefaultLineExport(line, lineNo, filePath);
    var listed := ListExportsOnLine(line, lineNo, filePath);
    found := found + listed;
  }

  /** `extractExportsFromFile`. */
  method ExtractExportsFromFile(content: string, filePath: string) returns (exports: seq<ExportInfo>)
    ensures exports == FileExports(content, filePath)
  {
    var lines := Split(content, '\n');
    exports := [];
    var i := 0;
    while i < |lines|
      invariant 0 <= i <= |lines|
      invariant exports == Numbered(lines, i, ExportsOn(filePath))
    {
      var found := ExportsOnLine(lines[i], i + 1, filePath);
      NumberedStep(lines, i, ExportsOn(filePath));
      exports := exports + found;
      i := i + 1;
    }
  }

  /** Every export of a file is recorded against that file, at the 1-based number of the
      line it was found on, under a non-empty name. */
  lemma FileExportsFacts(content: string, path: string, e: ExportInfo) returns (k: nat)
    requires e in FileExports(content, path)
    ensures 1 <= k <= |Split(content, '\n')| && e.line == k && e.file == path
  {
    var lines := Split(content, '\n');
    k := NumberedOrigin(lines, |lines|, ExportsOn(path), e);
    LineExportsFacts(lines[k - 1], k, path, e);
  }

  // ---------------------------------------------------------------------------------------
  // Matching

  function ExportFile(e: ExportInfo): string
  {
    e.file
  }

  function InFile(file: string): ExportInfo -> bool
  {
    (e: ExportInfo) => e.file == file
  }

  /** The map `createExportMap` builds: the exports of each file, under its path. */
  function ExportMap(exports: seq<ExportInfo>): map<string, seq<ExportInfo>>
  {
    GroupBy(exports, ExportFile)
  }

  /** `createExportMap`. */
  method CreateExportMap(exports: seq<ExportInfo>) returns (exportMap: map<string, seq<ExportInfo>>)
    ensures exportMap == ExportMap(exports)
  {
    exportMap := map[];
    var i := 0;
    while i < |exports|
      invariant 0 <= i <= |exports|
      invariant exportMap == GroupBy(exports[..i], ExportFile)
    {
      var exportInfo := exports[i];
      assert exports[..i + 1] == exports[..i] + [exportInfo];
      GroupBySnoc(exports[..i], exportInfo, ExportFile);
      if exportInfo.file !in exportMap {
        exportMap := exportMap[exportInfo.file := []];
      }
      exportMap := exportMap[exportInfo.file := exportMap[exportInfo.file] + [exportInfo]];
      i := i + 1;
    }
    assert exports[..i] == exports;
  }

  /** The map has a key exactly for the files that export something, holding that file's
      exports in their original order. */
  lemma ExportMapSpec(exports: seq<ExportInfo>, file: string)
    ensures file in ExportMap(exports) <==> exists i :: 0 <= i < |exports| && exports[i].file == file
    ensures file in ExportMap(exports) ==> ExportMap(exports)[file] == Filter(exports, InFile(file))
  {
    GroupBySpec(exports, ExportFile, file);
    WithKeyFilter(exports, ExportFile, file, InFile(file));
  }

  /** The test `findMatchingExport` applies to each export. */
  predicate Matches(importInfo: ImportInfo, e: ExportInfo)
  {
    (importInfo.isDefault && e.isDefault) ||
    (!importInfo.isDefault && !e.isDefault && importInfo.importName == e.exportName)
  }

  function MatchesImport(importInfo: ImportInfo): ExportInfo -> bool
  {
    (e: ExportInfo) => Matches(importInfo, e)
  }

  /** `findMatchingExport`: the first export the import matches. */
  function FindMatchingExport(importInfo: ImportInfo, availableExports: seq<ExportInfo>): Option<ExportInfo>
  {
    First(availableExports, MatchesImport(importInfo))
  }

  /** A default import is satisfied by any default export, whatever its name; any other
      import, namespace imports included, only by a named export of the identical name; and
      the export found is the first such one. */
  lemma FindMatchingExportSpec(importInfo: ImportInfo, availableExports: seq<ExportInfo>)
    ensures var r := FindMatchingExport(importInfo, availableExports);
      importInfo.isDefault ==> (r.Some? <==> exists i :: 0 <= i < |availableExports| && availableExports[i].isDefault)
    ensures var r := FindMatchingExport(importInfo, availableExports);
      !importInfo.isDefault ==>
        (r.Some? <==> exists i :: 0 <= i < |availableExports| && !availableExports[i].isDefault &&
                                  availableExports[i].exportName == importInfo.importName)
    ensures var r := FindMatchingExport(importInfo, availableExports);
      r.Some? ==> r.value.isDefault == importInfo.isDefault &&
                  (!importInfo.isDefault ==> r.value.exportName == importInfo.importName) &&
                  exists k :: 0 <= k < |availableExports| && availableExports[k] == r.value &&
                    forall j :: 0 <= j < k ==> !Matches(importInfo, availableExports[j])
  {
    FirstIsEarliest(availableExports, MatchesImport(importInfo));
  }

  // ---------------------------------------------------------------------------------------
  // Resolving module paths

  /** `path.dirname` on `/`-separated paths. */
  function Dirname(p: string): string
  {
    var slash := LastIndexOfChar(p, '/');
    if slash < 0 then "." else if slash == 0 then "/" else p[..slash]
  }

  /** `path.resolve(dir, rel)` as a plain join: leading `./` segments are dropped and each
      leading `../` moves to the parent directory. */
  function Resolve(dir: string, rel: string): string
    decreases |rel|
  {
    if StartsWith(rel, "./") then Resolve(dir, rel[2..])
    else if StartsWith(rel, "../") then Resolve(Dirname(dir), rel[3..])
    else dir + "/" + rel
  }

  /** The suffixes `resolveModulePath` tries, in order. */
  const CandidateSuffixes: seq<string> := [".ts", ".js", ".tsx", ".jsx", "/index.ts", "/index.js"]

  function Candidates(resolved: string): (r: seq<string>)
    ensures |r| == |CandidateSuffixes| && forall k :: 0 <= k < |r| ==> r[k] == resolved + CandidateSuffixes[k]
  {
    Map(CandidateSuffixes, (suffix: string) => resolved + suffix)
  }

  predicate IsRelative(modulePath: string)
  {
    StartsWith(modulePath, "./") || StartsWith(modulePath, "../")
  }

  function InFiles(allFiles: seq<string>): string -> bool
  {
    (candidate: string) => candidate in allFiles
  }

  /** `resolveModulePath`: the first candidate that is one of `allFiles`. */
  function ResolveModulePath(modulePath: string, fromFile: string, allFiles: seq<string>): Option<string>
  {
    if IsRelative(modulePath) then First(Candidates(Resolve(Dirname(fromFile), modulePath)), InFiles(allFiles))
    else None
  }

  /** A path not starting with `./` or `../` never resolves; a resolved path is one of
      `allFiles`, namely the first suffixed candidate that is; and nothing resolves only when
      no candidate is among `allFiles`. */
  lemma ResolveModulePathSpec(modulePath: string, fromFile: string, allFiles: seq<string>)
    ensures !IsRelative(modulePath) ==> ResolveModulePath(modulePath, fromFile, allFiles).None?
    ensures var r := ResolveModulePath(modulePath, fromFile, allFiles);
      var resolved := Resolve(Dirname(fromFile), modulePath);
      r.Some? ==> r.value in allFiles &&
                  exists k :: 0 <= k < |CandidateSuffixes| && r.value == resolved + CandidateSuffixes[k] &&
                    forall j :: 0 <= j < k ==> resolved + CandidateSuffixes[j] !in allFiles
    ensures var r := ResolveModulePath(modulePath, fromFile, allFiles);
      var resolved := Resolve(Dirname(fromFile), modulePath);
      IsRelative(modulePath) && r.None? ==> forall k :: 0 <= k < |CandidateSuffixes| ==> resolved + CandidateSuffixes[k] !in allFiles
  {
    var resolved := Resolve(Dirname(fromFile), modulePath);
    FirstIsEarliest(Candidates(resolved), InFiles(allFiles));
  }

  // ---------------------------------------------------------------------------------------
  // Issues

  function ExportName(e: ExportInfo): string
  {
    e.exportName
  }

  /** `createMismatchIssue`. */
  function CreateMismatchIssue(importInfo: ImportInfo, message: string, availableExports: seq<string>): (r: Issue)
    ensures r.kind == MissingExport && r.severity == Error && r.confidence == 0.95 && r.message == message
    ensures r.file == importInfo.file && r.line == Some(importInfo.line) && r.column == Some(importInfo.column)
    ensures r.details.availableExports == Some(availableExports) && r.details.importName == Some(importInfo.importName)
    ensures |r.suggestions| == 4 &&
            r.suggestions[0] == if availableExports != [] then "Available exports: " + Join(availableExports, ", ")
                                else "No exports found in target module"
  {
    Issue(
      MissingExport, Error, message, importInfo.file, Some(importInfo.line), Some(importInfo.column),
      NoDetails().(importName := Some(importInfo.importName), modulePath := Some(importInfo.modulePath),
                   availableExports := Some(availableExports),
                   context := Some("Import statement at " + importInfo.file + ":" + IntToString(importInfo.line)),
                   isDefault := Some(importInfo.isDefault)),
      [if |availableExports| > 0 then "Available exports: " + Join(availableExports, ", ")
       else "No exports found in target module",
       "Check if '" + importInfo.importName + "' was renamed or removed",
       "Verify the module path is correct",
       "This may be an AI-generated import that doesn't match the actual exports"],
      0.95)
  }

  /** `exportMap.get(resolvedPath) || []`. */
  function ExportsOf(exportMap: map<string, seq<ExportInfo>>, resolved: string): seq<ExportInfo>
  {
    if resolved in exportMap then exportMap[resolved] else []
  }

  /** The import is reported: its module does not resolve, or the resolved file exports
      nothing it matches. */
  predicate Unmatched(importInfo: ImportInfo, exportMap: map<string, seq<ExportInfo>>, allFiles: seq<string>)
  {
    match ResolveModulePath(importInfo.modulePath, importInfo.file, allFiles)
    case None => true
    case Some(resolved) => FindMatchingExport(importInfo, ExportsOf(exportMap, resolved)).None?
  }

  /** The export names a report lists: none for an unresolved module, otherwise every export
      of the resolved file. */
  function ListedExports(importInfo: ImportInfo, exportMap: map<string, seq<ExportInfo>>, allFiles: seq<string>): seq<string>
  {
    match ResolveModulePath(importInfo.modulePath, importInfo.file, allFiles)
    case None => []
    case Some(resolved) => Map(ExportsOf(exportMap, resolved), ExportName)
  }

  /** `checkImportMismatch`. */
  function CheckImportMismatch(importInfo: ImportInfo, exportMap: map<string, seq<ExportInfo>>, allFiles: seq<string>): Option<Issue>
  {
    match ResolveModulePath(importInfo.modulePath, importInfo.file, allFiles)
    case None =>
      Some(CreateMismatchIssue(importInfo, "Module '" + importInfo.modulePath + "' not found", []))
    case Some(resolved) =>
      var availableExports := ExportsOf(exportMap, resolved);
      if FindMatchingExport(importInfo, availableExports).None? then
        var availableNames := Map(availableExports, ExportName);
        Some(CreateMismatchIssue(
          importInfo,
          "Function '" + importInfo.importName + "' is imported but not exported from '" + importInfo.modulePath + "'.",
          availableNames))
      else None
  }

  /** An import is reported exactly when it is unmatched. */
  lemma CheckImportMismatchReports(importInfo: ImportInfo, exportMap: map<string, seq<ExportInfo>>, allFiles: seq<string>)
    ensures CheckImportMismatch(importInfo, exportMap, allFiles).Some? <==> Unmatched(importInfo, exportMap, allFiles)
  {
  }

  /** A report is a `MissingExport` error with confidence 0.95 at the import, listing the
      exports of the resolved file; for a module that does not resolve it says so. */
  lemma CheckImportMismatchFacts(importInfo: ImportInfo, exportMap: map<string, seq<ExportInfo>>, allFiles: seq<string>)
    requires CheckImportMismatch(importInfo, exportMap, allFiles).Some?
    ensures var issue := CheckImportMismatch(importInfo, exportMap, allFiles).value;
      issue.kind == MissingExport && issue.severity == Error && issue.confidence == 0.95 &&
      issue.file == importInfo.file && issue.line == Some(importInfo.line) && issue.column == Some(importInfo.column) &&
      issue.details.availableExports == Some(ListedExports(importInfo, exportMap, allFiles))
    ensures ResolveModulePath(importInfo.modulePath, importInfo.file, allFiles).None? ==>
      CheckImportMismatch(importInfo, exportMap, allFiles).value.message == "Module '" + importInfo.modulePath + "' not found"
  {
  }

  /** Looking a file up in the map of all exports gives that file's exports in source order,
      and none for a file that exports nothing. */
  lemma ExportsOfSpec(exports: seq<ExportInfo>, file: string)
    ensures ExportsOf(ExportMap(exports), file) == Filter(exports, InFile(file))
  {
    ExportMapSpec(exports, file);
    if file !in ExportMap(exports) {
      FilterNone(exports, InFile(file));
    }
  }

  /** An import of a module path that is not relative is unmatched, with no exports to list. */
  lemma UnresolvedUnmatched(importInfo: ImportInfo, exportMap: map<string, seq<ExportInfo>>, allFiles: seq<string>)
    requires !IsRelative(importInfo.modulePath)
    ensures Unmatched(importInfo, exportMap, allFiles) && ListedExports(importInfo, exportMap, allFiles) == []
  {
    ResolveModulePathSpec(importInfo.modulePath, importInfo.file, allFiles);
  }

  /** Against the map of all exports, an import whose module resolves to `target` is
      unmatched exactly when no export of `target` matches it. */
  lemma ResolvedUnmatched(importInfo: ImportInfo, exports: seq<ExportInfo>, allFiles: seq<string>, target: string)
    requires ResolveModulePath(importInfo.modulePath, importInfo.file, allFiles) == Some(target)
    ensures Unmatched(importInfo, ExportMap(exports), allFiles) <==>
              forall i :: 0 <= i < |exports| && exports[i].file == target ==> !Matches(importInfo, exports[i])
  {
    var available := ExportsOf(ExportMap(exports), target);
    ExportsOfSpec(exports, target);
    FirstIsEarliest(available, MatchesImport(importInfo));
    forall i | 0 <= i < |exports| && exports[i].file == target
      ensures exports[i] in available
    {
      FilterMembership(exports, InFile(target), exports[i]);
    }
    forall e: ExportInfo | e in available
      ensures e in exports && e.file == target
    {
      FilterMembership(exports, InFile(target), e);
    }
  }

  /** Against the map of all exports, a report on an import whose module resolves to
      `target` lists the names of `target`'s exports in source order. */
  lemma ResolvedListedExports(importInfo: ImportInfo, exports: seq<ExportInfo>, allFiles: seq<string>, target: string)
    requires ResolveModulePath(importInfo.modulePath, importInfo.file, allFiles) == Some(target)
    ensures ListedExports(importInfo, ExportMap(exports), allFiles) == Map(Filter(exports, InFile(target)), ExportName)
  {
    ExportsOfSpec(exports, target);
  }

  function CheckIn(exportMap: map<string, seq<ExportInfo>>, allFiles: seq<string>): ImportInfo -> Option<Issue>
  {
    (importInfo: ImportInfo) => CheckImportMismatch(importInfo, exportMap, allFiles)
  }

  /** The imports of one of the files: none when it cannot be read or is not JavaScript. */
  function AnalysedImports(fs: FileSystem, file: string): seq<ImportInfo>
  {
    if IsAnalysedFile(fs, file) then FileImports(fs[file].content, file) else []
  }

  function AnalysedExports(fs: FileSystem, file: string): seq<ExportInfo>
  {
    if IsAnalysedFile(fs, file) then FileExports(fs[file].content, file) else []
  }

  function ImportsIn(fs: FileSystem): string -> seq<ImportInfo>
  {
    (file: string) => AnalysedImports(fs, file)
  }

  function ExportsIn(fs: FileSystem): string -> seq<ExportInfo>
  {
    (file: string) => AnalysedExports(fs, file)
  }

  /** `detect(files)`: every import of the analysed files is checked against the exports
      of all of them, in file order, then line order. */
  function DetectIssues(files: seq<string>, fs: FileSystem): seq<Issue>
  {
    var imports := FlatMap(files, ImportsIn(fs));
    var exports := FlatMap(files, ExportsIn(fs));
    FilterMap(imports, CheckIn(ExportMap(exports), files))
  }

  /** What one check reports is a `MissingExport` error with confidence 0.95 at the import. */
  lemma CheckInFacts(exportMap: map<string, seq<ExportInfo>>, allFiles: seq<string>, importInfo: ImportInfo, issue: Issue)
    requires CheckIn(exportMap, allFiles)(importInfo) == Some(issue)
    ensures issue.kind == MissingExport && issue.severity == Error && issue.confidence == 0.95
    ensures issue.file == importInfo.file && issue.line == Some(importInfo.line) && issue.column == Some(importInfo.column)
  {
    CheckImportMismatchFacts(importInfo, exportMap, allFiles);
  }

  /** An import collected from the files comes from an analysed file among them, and is
      recorded against it. */
  lemma CollectedImport(files: seq<string>, fs: FileSystem, imp: ImportInfo)
    requires imp in FlatMap(files, ImportsIn(fs))
    ensures imp.file in files && IsAnalysedFile(fs, imp.file) && imp in AnalysedImports(fs, imp.file)
  {
    FlatMapMembership(files, ImportsIn(fs), imp);
    var i :| 0 <= i < |files| && imp in ImportsIn(fs)(files[i]);
    var k := FileImportsFacts(fs[files[i]].content, files[i], imp);
  }

  /** Every issue is a `MissingExport` error with confidence 0.95, reported at an import of
      one of the analysed files. */
  lemma DetectIssuesFacts(files: seq<string>, fs: FileSystem, issue: Issue)
    requires issue in DetectIssues(files, fs)
    ensures issue.kind == MissingExport && issue.severity == Error && issue.confidence == 0.95
    ensures issue.file in files && IsAnalysedFile(fs, issue.file)
    ensures exists imp :: imp in AnalysedImports(fs, issue.file) &&
              issue.line == Some(imp.line) && issue.column == Some(imp.column)
  {
    var imports := FlatMap(files, ImportsIn(fs));
    var check := CheckIn(ExportMap(FlatMap(files, ExportsIn(fs))), files);
    FilterMapMembership(imports, check, issue);
    var j :| 0 <= j < |imports| && check(imports[j]) == Some(issue);
    CheckInFacts(ExportMap(FlatMap(files, ExportsIn(fs))), files, imports[j], issue);
    CollectedImport(files, fs, imports[j]);
  }

  /** The loop of `detect` over the imports. */
  method CheckImports(imports: seq<ImportInfo>, exportMap: map<string, seq<ExportInfo>>, files: seq<string>) returns (issues: seq<Issue>)
    ensures issues == FilterMap(imports, CheckIn(exportMap, files))
  {
    var check := CheckIn(exportMap, files);
    issues := [];
    var i := 0;
    while i < |imports|
      invariant 0 <= i <= |imports|
      invariant issues == FilterMap(imports[..i], check)
    {
      FilterMapStep(imports, i, check);
      var mismatchIssue := check(imports[i]);
      if mismatchIssue.Some? {
        issues := issues + [mismatchIssue.value];
      }
      i := i + 1;
    }
    assert imports[..i] == imports;
  }

  /** `ImportExportMismatchDetector`, which builds a parser it never uses. */
  class ImportExportMismatchDetector {
    const parser: EnhancedASTParser

    /** `new ImportExportMismatchDetector()`; `treeSitterLoads` says whether tree-sitter can be set up. */
    constructor(treeSitterLoads: bool)
      ensures fresh(parser) && parser.Valid() && parser.fallbackToRegex && !parser.debugMode
    {
      parser := new EnhancedASTParser(Some(true), Some(true), Some(false), treeSitterLoads);
    }

    /** One file of `extractImportsAndExports`' loop: a file that cannot be read, or is not
        JavaScript, contributes nothing. */
    method ExtractFromFile(file: string, fs: FileSystem) returns (imports: seq<ImportInfo>, exports: seq<ExportInfo>)
      ensures imports == ImportsIn(fs)(file) && exports == ExportsIn(fs)(file)
    {
      imports, exports := [], [];
      if file in fs && IsJavaScriptPath(file) {
        imports := ExtractImportsFromFile(fs[file].content, file);
        exports := ExtractExportsFromFile(fs[file].content, file);
      }
    }

    /** `extractImportsAndExports`. */
    method ExtractImportsAndExports(allFiles: seq<string>, fs: FileSystem) returns (imports: seq<ImportInfo>, exports: seq<ExportInfo>)
      ensures imports == FlatMap(allFiles, ImportsIn(fs)) && exports == FlatMap(allFiles, ExportsIn(fs))
    {
      imports := [];
      exports := [];
      var i := 0;
      while i < |allFiles|
        invariant 0 <= i <= |allFiles|
        invariant imports == FlatMap(allFiles[..i], ImportsIn(fs)) && exports == FlatMap(allFiles[..i], ExportsIn(fs))
      {
        FlatMapStep(allFiles, i, ImportsIn(fs));
        FlatMapStep(allFiles, i, ExportsIn(fs));
        var fileImports, fileExports := ExtractFromFile(allFiles[i], fs);
        imports := imports + fileImports;
        exports := exports + fileExports;
        i := i + 1;
      }
      assert allFiles[..i] == allFiles;
    }

    /** `detect(files)`; the `functions` argument is ignored. */
    method Detect(files: seq<string>, fs: FileSystem) returns (issues: seq<Issue>)
      ensures issues == DetectIssues(files, fs)
    {
      var imports, exports := ExtractImportsAndExports(files, fs);
      var exportMap := CreateExportMap(exports);
      issues := CheckImports(imports, exportMap, files);
    }
  }
}
