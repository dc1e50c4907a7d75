/** The JavaScript string operations the checker relies on (`indexOf`, `includes`,
    `startsWith`, `endsWith`, `trim`, `split`, `join`, `replace` of a literal, `toLowerCase`),
    and the character classes of JavaScript regular expressions (`\w`, `\s`, `\d`, `.`). */
module Strings {
  import opened Wrappers

  /** `\w`: an ASCII letter, digit or underscore. */
  predicate IsWordChar(c: char)
  {
    'a' <= c <= 'z' || 'A' <= c <= 'Z' || '0' <= c <= '9' || c == '_'
  }

  predicate IsDigit(c: char)
  {
    '0' <= c <= '9'
  }

  /** A line terminator, the characters that `.` in a regular expression does not match. */
  predicate IsLineTerminator(c: char)
  {
    c == '\n' || c == '\r' || c == '\U{2028}' || c == '\U{2029}'
  }

  /** `\s`, and the characters `trim` removes: white space and line terminators. */
  predicate IsSpace(c: char)
  {
    c == ' ' || c == '\t' || c == '\U{000B}' || c == '\U{000C}' || c == '\U{00A0}' ||
    c == '\U{1680}' || ('\U{2000}' <= c <= '\U{200A}') || c == '\U{202F}' ||
    c == '\U{205F}' || c == '\U{3000}' || c == '\U{FEFF}' || IsLineTerminator(c)
  }

  predicate StartsWith(s: string, prefix: string)
  {
    |prefix| <= |s| && s[..|prefix|] == prefix
  }

  predicate EndsWith(s: string, suffix: string)
  {
    |suffix| <= |s| && s[|s| - |suffix|..] == suffix
  }

  /** `t` occurs in `s` starting at position `i`. */
  predicate OccursAt(s: string, t: string, i: nat)
  {
    i + |t| <= |s| && s[i..i + |t|] == t
  }

  /** `s.indexOf(t, from)`: the first position at or after `from` where `t` occurs, or -1. */
  function IndexOfFrom(s: string, t: string, from: nat): (r: int)
    ensures r == -1 || (from <= r && OccursAt(s, t, r))
    decreases |s| - from
  {
    if from + |t| > |s| then -1
    else if s[from..from + |t|] == t then from
    else IndexOfFrom(s, t, from + 1)
  }

  /** `indexOf` finds the first occurrence: there is none before the position it returns. */
  lemma {:induction false} IndexOfFromFirst(s: string, t: string, from: nat, i: nat)
    requires from <= i && (IndexOfFrom(s, t, from) == -1 || i < IndexOfFrom(s, t, from))
    ensures !OccursAt(s, t, i)
    decreases |s| - from
  {
    if from + |t| <= |s| && s[from..from + |t|] != t && from < i {
      IndexOfFromFirst(s, t, from + 1, i);
    }
  }

  /** `s.indexOf(t)`. */
  function IndexOf(s: string, t: string): int
  {
    IndexOfFrom(s, t, 0)
  }

  /** The first match at or after `from` of a pattern whose match attempt at a start
      position is `at`: the leftmost match of an unanchored regular expression. */
  function Leftmost<T>(s: string, from: nat, at: (string, nat) -> Option<T>): Option<T>
    decreases |s| + 1 - from
  {
    if from > |s| then None
    else match at(s, from)
      case Some(m) => Some(m)
      case None => Leftmost(s, from + 1, at)
  }

  /** A leftmost match is the match attempt at some position from `from` on, and every
      attempt before that position fails. */
  lemma {:induction false} LeftmostOrigin<T>(s: string, from: nat, at: (string, nat) -> Option<T>) returns (k: nat)
    requires Leftmost(s, from, at).Some?
    ensures from <= k <= |s| && at(s, k) == Leftmost(s, from, at)
    ensures forall j :: from <= j < k ==> at(s, j).None?
    decreases |s| + 1 - from
  {
    if at(s, from).Some? {
      k := from;
    } else {
      k := LeftmostOrigin(s, from + 1, at);
    }
  }

  /** An attempt that succeeds at some position from `from` on makes the search succeed. */
  lemma {:induction false} LeftmostFinds<T>(s: string, from: nat, at: (string, nat) -> Option<T>, k: nat)
    requires from <= k <= |s| && at(s, k).Some?
    ensures Leftmost(s, from, at).Some?
    decreases k - from
  {
    if from < k && at(s, from).None? {
      LeftmostFinds(s, from + 1, at, k);
    }
  }

  /** `s.includes(t)`. */
  predicate Contains(s: string, t: string)
  {
    IndexOf(s, t) >= 0
  }

  /** The position of the last `c` before position `j` of `s`, or -1. */
  function LastIndexBefore(s: string, c: char, j: nat): (r: int)
    requires j <= |s|
    ensures -1 <= r < j && (r >= 0 ==> s[r] == c)
  {
    if j == 0 then -1 else if s[j - 1] == c then j - 1 else LastIndexBefore(s, c, j - 1)
  }

  /** The position of the last `c` in `s`, or -1 (`lastIndexOf` of one character). */
  function LastIndexOfChar(s: string, c: char): (r: int)
    ensures -1 <= r < |s| && (r >= 0 ==> s[r] == c)
  {
    LastIndexBefore(s, c, |s|)
  }

  /** No `c` follows the position `LastIndexBefore` returns. */
  lemma {:induction false} LastIndexBeforeLast(s: string, c: char, j: nat, k: nat)
    requires j <= |s| && LastIndexBefore(s, c, j) < k < j
    ensures s[k] != c
  {
    if s[j - 1] != c && k < j - 1 {
      LastIndexBeforeLast(s, c, j - 1, k);
    }
  }

  /** A `c` before position `j` bounds the last one from below. */
  lemma {:induction false} LastIndexBeforeAtLeast(s: string, c: char, j: nat, k: nat)
    requires k < j <= |s| && s[k] == c
    ensures LastIndexBefore(s, c, j) >= k
  {
    if s[j - 1] != c {
      LastIndexBeforeAtLeast(s, c, j - 1, k);
    }
  }

  /** When no `c` lies in `[i, j)`, the last `c` before `j` lies before `i`. */
  lemma {:induction false} LastIndexBeforeBelow(s: string, c: char, j: nat, i: nat)
    requires i <= j <= |s| && forall k :: i <= k < j ==> s[k] != c
    ensures LastIndexBefore(s, c, j) < i
  {
    if i < j {
      LastIndexBeforeBelow(s, c, j - 1, i);
    }
  }

  /** Searching for a one-character string finds it exactly when the character occurs. */
  lemma ContainsChar(s: string, c: char)
    ensures Contains(s, [c]) <==> c in s
  {
    var r := IndexOf(s, [c]);
    if r >= 0 {
      assert s[r] == s[r..r + 1][0];
    } else {
      forall i | 0 <= i < |s|
        ensures s[i] != c
      {
        IndexOfFromFirst(s, [c], 0, i);
        assert s[i..i + 1] == [s[i]];
      }
    }
  }

  /** The end of the run of `\s` characters that starts at `i`. */
  function SpaceRunEnd(s: string, i: nat): (j: nat)
    requires i <= |s|
    ensures i <= j <= |s| && (j == |s| || !IsSpace(s[j]))
    decreases |s| - i
  {
    if i < |s| && IsSpace(s[i]) then SpaceRunEnd(s, i + 1) else i
  }

  /** The end of the run of `\w` characters that starts at `i`. */
  function WordRunEnd(s: string, i: nat): (j: nat)
    requires i <= |s|
    ensures i <= j <= |s| && (j == |s| || !IsWordChar(s[j]))
    decreases |s| - i
  {
    if i < |s| && IsWordChar(s[i]) then WordRunEnd(s, i + 1) else i
  }

  /** Every character of a `\w` run is a word character. */
  lemma {:induction false} WordRunEndAll(s: string, i: nat, k: nat)
    requires i <= |s| && i <= k < WordRunEnd(s, i)
    ensures IsWordChar(s[k])
    decreases |s| - i
  {
    if i < k {
      WordRunEndAll(s, i + 1, k);
    }
  }

  /** A `\w` run starting at `i` reaches at least as far as any stretch of word characters. */
  lemma {:induction false} WordRunEndAtLeast(s: string, i: nat, e: nat)
    requires i <= e <= |s| && forall k :: i <= k < e ==> IsWordChar(s[k])
    ensures e <= WordRunEnd(s, i)
    decreases |s| - i
  {
    if i < e {
      WordRunEndAtLeast(s, i + 1, e);
    }
  }

  /** Every character of a `\s` run is white space. */
  lemma {:induction false} SpaceRunEndAll(s: string, i: nat, k: nat)
    requires i <= |s| && i <= k < SpaceRunEnd(s, i)
    ensures IsSpace(s[k])
    decreases |s| - i
  {
    if i < k {
      SpaceRunEndAll(s, i + 1, k);
    }
  }

  /** A `\s` run starting at `i` reaches at least as far as any stretch of white space. */
  lemma {:induction false} SpaceRunEndAtLeast(s: string, i: nat, e: nat)
    requires i <= e <= |s| && forall k :: i <= k < e ==> IsSpace(s[k])
    ensures e <= SpaceRunEnd(s, i)
    decreases |s| - i
  {
    if i < e {
      SpaceRunEndAtLeast(s, i + 1, e);
    }
  }

  /** The first position at or after `i` holding `c`, or `|s|` when there is none. */
  function CharFrom(s: string, c: char, i: nat): (j: nat)
    requires i <= |s|
    ensures i <= j <= |s| && (j < |s| ==> s[j] == c)
    decreases |s| - i
  {
    if i == |s| || s[i] == c then i else CharFrom(s, c, i + 1)
  }

  /** No `c` comes before the position `CharFrom` returns. */
  lemma {:induction false} CharFromFirst(s: string, c: char, i: nat, k: nat)
    requires i <= |s| && i <= k < CharFrom(s, c, i)
    ensures s[k] != c
    decreases |s| - i
  {
    if i < k {
      CharFromFirst(s, c, i + 1, k);
    }
  }

  /** The first line terminator at or after `i`, or `|s|`: where a `.+` started at `i` stops. */
  function LineEnd(s: string, i: nat): (j: nat)
    requires i <= |s|
    ensures i <= j <= |s| && (j < |s| ==> IsLineTerminator(s[j]))
    decreases |s| - i
  {
    if i == |s| || IsLineTerminator(s[i]) then i else LineEnd(s, i + 1)
  }

  /** Without a line terminator from `i` on, `.+` runs to the end. */
  lemma {:induction false} LineEndNone(s: string, i: nat)
    requires i <= |s| && forall k :: i <= k < |s| ==> !IsLineTerminator(s[k])
    ensures LineEnd(s, i) == |s|
    decreases |s| - i
  {
    if i < |s| {
      LineEndNone(s, i + 1);
    }
  }


  /** The start of the run of `\s` characters that ends at `j`. */
  function SpaceRunStart(s: string, j: nat): (i: nat)
    requires j <= |s|
    ensures i <= j && (i == 0 || !IsSpace(s[i - 1]))
  {
    if j > 0 && IsSpace(s[j - 1]) then SpaceRunStart(s, j - 1) else j
  }

  /** `s.trimStart()`. */
  function TrimStart(s: string): (r: string)
    ensures |r| <= |s| && r == s[|s| - |r|..]
    ensures r == [] || !IsSpace(r[0])
  {
    s[SpaceRunEnd(s, 0)..]
  }

  /** `s.trimEnd()`. */
  function TrimEnd(s: string): (r: string)
    ensures |r| <= |s| && r == s[..|r|]
    ensures r == [] || !IsSpace(r[|r| - 1])
  {
    s[..SpaceRunStart(s, |s|)]
  }

  /** `s.trim()`. */
  function Trim(s: string): string
  {
    TrimEnd(TrimStart(s))
  }

  /** `trim` leaves no white space at either end and is idempotent. */
  lemma TrimSpec(s: string)
    ensures Trim(s) == [] || (!IsSpace(Trim(s)[0]) && !IsSpace(Trim(s)[|Trim(s)| - 1]))
    ensures Trim(Trim(s)) == Trim(s)
  {
    var a := TrimStart(s);
    var t := Trim(s);
    if t != [] {
      assert t[0] == a[0];
      assert SpaceRunEnd(t, 0) == 0;
      assert TrimStart(t) == t;
      assert SpaceRunStart(t, |t|) == |t|;
    } else {
      assert TrimStart(t) == [];
    }
  }

  /** The pieces of `s[i..]` between occurrences of `sep`. */
  function SplitFrom(s: string, sep: char, i: nat): (r: seq<string>)
    requires i <= |s|
    ensures |r| >= 1
    decreases |s| - i
  {
    var j := CharFrom(s, sep, i);
    if j == |s| then [s[i..]] else [s[i..j]] + SplitFrom(s, sep, j + 1)
  }

  /** The pieces of `s` between occurrences of `sep` (`s.split(sep)` for a one-character
      separator): always at least one piece, possibly empty. */
  function Split(s: string, sep: char): (r: seq<string>)
    ensures |r| >= 1
  {
    SplitFrom(s, sep, 0)
  }

  /** `parts.join(sep)`. */
  function Join(parts: seq<string>, sep: string): string
  {
    if parts == [] then ""
    else if |parts| == 1 then parts[0]
    else parts[0] + sep + Join(parts[1..], sep)
  }

  /** A join starts with the first part and ends with the last. */
  lemma {:induction false} JoinEnds(parts: seq<string>, sep: string)
    requires parts != []
    ensures StartsWith(Join(parts, sep), parts[0]) && EndsWith(Join(parts, sep), parts[|parts| - 1])
  {
    if |parts| > 1 {
      JoinEnds(parts[1..], sep);
      var rest := Join(parts[1..], sep);
      var j := parts[0] + sep + rest;
      assert j[..|parts[0]|] == parts[0];
      assert j[|j| - |parts[|parts| - 1]|..] == rest[|rest| - |parts[|parts| - 1]|..];
    }
  }

  /** Joining one more part appends the separator and that part. */
  lemma {:induction false} JoinSnoc(parts: seq<string>, x: string, sep: string)
    requires parts != []
    ensures Join(parts + [x], sep) == Join(parts, sep) + sep + x
  {
    if |parts| > 1 {
      assert (parts + [x])[1..] == parts[1..] + [x];
      JoinSnoc(parts[1..], x, sep);
    }
  }

  lemma {:induction false} SplitFromJoin(s: string, sep: char, i: nat)
    requires i <= |s|
    ensures forall k :: 0 <= k < |SplitFrom(s, sep, i)| ==> sep !in SplitFrom(s, sep, i)[k]
    ensures Join(SplitFrom(s, sep, i), [sep]) == s[i..]
    decreases |s| - i
  {
    var j := CharFrom(s, sep, i);
    forall k | i <= k < j
      ensures s[k] != sep
    {
      CharFromFirst(s, sep, i, k);
    }
    assert sep !in s[i..j];
    if j < |s| {
      SplitFromJoin(s, sep, j + 1);
      var r := SplitFrom(s, sep, i);
      assert r[1..] == SplitFrom(s, sep, j + 1);
      assert s[i..] == s[i..j] + [sep] + s[j + 1..];
    }
  }

  /** Splitting loses nothing: the pieces contain no separator and join back to `s`. */
  lemma SplitJoin(s: string, sep: char)
    ensures forall k :: 0 <= k < |Split(s, sep)| ==> sep !in Split(s, sep)[k]
    ensures Join(Split(s, sep), [sep]) == s
  {
    SplitFromJoin(s, sep, 0);
  }

  /** The last piece of a split is what follows the last separator (or all of `s[i..]`). */
  lemma {:induction false} SplitFromLast(s: string, sep: char, i: nat)
    requires i <= |s|
    ensures var r := SplitFrom(s, sep, i);
      var l := LastIndexOfChar(s, sep);
      r[|r| - 1] == s[if l + 1 > i then l + 1 else i..]
    decreases |s| - i
  {
    var j := CharFrom(s, sep, i);
    if j == |s| {
      forall k | i <= k < |s|
        ensures s[k] != sep
      {
        CharFromFirst(s, sep, i, k);
      }
      LastIndexBeforeBelow(s, sep, |s|, i);
    } else {
      SplitFromLast(s, sep, j + 1);
      LastIndexBeforeAtLeast(s, sep, |s|, j);
    }
  }

  /** `s.split('\n')[row] || ''`: line `row` (0-based) of `s`, or empty past the last line. */
  function LineAt(s: string, row: nat): string
  {
    var lines := Split(s, '\n');
    if row < |lines| then lines[row] else ""
  }

  /** `s.replace(t, u)` with a literal pattern: only the first occurrence is replaced. */
  function ReplaceFirst(s: string, t: string, u: string): (r: string)
    ensures !Contains(s, t) ==> r == s
    ensures Contains(s, t) ==> r == s[..IndexOf(s, t)] + u + s[IndexOf(s, t) + |t|..]
  {
    var i := IndexOf(s, t);
    if i < 0 then s else s[..i] + u + s[i + |t|..]
  }

  /** `c.toLowerCase()` on an ASCII character. */
  function LowerChar(c: char): char
  {
    if 'A' <= c <= 'Z' then (c as int + 32) as char else c
  }

  /** The ASCII letters of `s` in lower case (`toLowerCase` on ASCII text). */
  function ToLower(s: string): (r: string)
    ensures |r| == |s|
    ensures forall i :: 0 <= i < |s| ==> r[i] == LowerChar(s[i])
  {
    seq(|s|, i requires 0 <= i < |s| => LowerChar(s[i]))
  }

  /** The decimal digits of `n`, without leading zeros (`String(n)` for a natural number). */
  function NatToString(n: nat): (r: string)
    ensures |r| >= 1 && forall i :: 0 <= i < |r| ==> IsDigit(r[i])
    decreases n
  {
    var d := ['0' + (n % 10) as char];
    if n < 10 then d else NatToString(n / 10) + d
  }

  /** `String(i)` for an integer. */
  function IntToString(i: int): (r: string)
    ensures r != ""
  {
    if i < 0 then "-" + NatToString(-i) else NatToString(i)
  }
}
