/** What the detectors of src/detectors share: which files they analyse, and how they reduce
    a call's name to the function it calls. */
module Detectors {
  import opened Strings
  import opened Types

  /** A file a detector analyses: `getFileInfo` can read it (otherwise it throws and the
      detector skips the file) and it has a JavaScript or TypeScript extension. */
  predicate IsAnalysedFile(fs: FileSystem, path: string)
  {
    path in fs && IsJavaScriptPath(path)
  }

  /** `extractFunctionName`: for a name with a `.` (`obj.method`), the last `.`-separated piece. */
  function ExtractFunctionName(callName: string): string
  {
    if Contains(callName, ".") then
      var parts := Split(callName, '.');
      parts[|parts| - 1]
    else callName
  }

  /** The base name is exactly the text after the last `.` (all of the name when there is
      none), so it never contains a `.`. */
  lemma ExtractFunctionNameSpec(callName: string)
    ensures '.' !in ExtractFunctionName(callName)
    ensures ExtractFunctionName(callName) == callName[LastIndexOfChar(callName, '.') + 1..]
  {
    ContainsChar(callName, '.');
    if Contains(callName, ".") {
      assert "." == ['.'];
      SplitJoin(callName, '.');
      SplitFromLast(callName, '.', 0);
    } else {
      assert "." == ['.'];
      LastIndexBeforeBelow(callName, '.', |callName|, 0);
    }
  }
}
