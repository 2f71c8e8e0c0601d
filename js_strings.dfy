/**
 * The JavaScript string operations the core relies on, written out over `seq<char>`:
 * `split` on one character, `trim`, `startsWith`/`endsWith`, `indexOf`/`includes`,
 * `replace` of the first occurrence of a literal, `toUpperCase` on ASCII letters, and
 * Node's POSIX `path.basename`.
 */
module JsStrings {
  import opened Wrappers

  /** The characters `String.prototype.trim` removes, besides U+2000 to U+200A: ECMAScript WhiteSpace and LineTerminator. */
  const WhitespaceChars: set<char> := {
    '\t', '\n', '\U{000B}', '\U{000C}', '\r', ' ', '\U{00A0}', '\U{1680}',
    '\U{2028}', '\U{2029}', '\U{202F}', '\U{205F}', '\U{3000}', '\U{FEFF}'
  }

  predicate IsWhitespace(c: char) {
    c in WhitespaceChars || '\U{2000}' <= c <= '\U{200A}'
  }

  predicate IsBlank(s: string) {
    forall i :: 0 <= i < |s| ==> IsWhitespace(s[i])
  }

  function TrimStart(s: string): string {
    if |s| > 0 && IsWhitespace(s[0]) then TrimStart(s[1..]) else s
  }

  function TrimEnd(s: string): string {
    if |s| > 0 && IsWhitespace(s[|s| - 1]) then TrimEnd(s[..|s| - 1]) else s
  }

  /** `trimStart` drops a whitespace prefix and stops at the first other character. */
  lemma {:induction false} TrimStartIsSuffix(s: string)
    ensures var r := TrimStart(s);
      && |r| <= |s| && r == s[|s| - |r|..]
      && (forall i :: 0 <= i < |s| - |r| ==> IsWhitespace(s[i]))
      && (r == [] || !IsWhitespace(r[0]))
    decreases |s|
  {
    if |s| > 0 && IsWhitespace(s[0]) {
      TrimStartIsSuffix(s[1..]);
    }
  }

  /** `trimEnd` drops a whitespace suffix and stops at the last other character. */
  lemma {:induction false} TrimEndIsPrefix(s: string)
    ensures var r := TrimEnd(s);
      && |r| <= |s| && r == s[..|r|]
      && (forall i :: |r| <= i < |s| ==> IsWhitespace(s[i]))
      && (r == [] || !IsWhitespace(r[|r| - 1]))
    decreases |s|
  {
    if |s| > 0 && IsWhitespace(s[|s| - 1]) {
      TrimEndIsPrefix(s[..|s| - 1]);
    }
  }

  /** `String.prototype.trim`. */
  function Trim(s: string): string {
    TrimEnd(TrimStart(s))
  }

  /** `trim` removes whitespace at both ends and nothing else: what is left is an infix of `s`. */
  lemma TrimIsInfix(s: string) returns (k: nat)
    ensures Trim(s) == [] || (!IsWhitespace(Trim(s)[0]) && !IsWhitespace(Trim(s)[|Trim(s)| - 1]))
    ensures k + |Trim(s)| <= |s| && Trim(s) == s[k..k + |Trim(s)|]
    ensures forall i :: 0 <= i < k ==> IsWhitespace(s[i])
    ensures forall i :: k + |Trim(s)| <= i < |s| ==> IsWhitespace(s[i])
  {
    var t := TrimStart(s);
    var r := TrimEnd(t);
    TrimStartIsSuffix(s);
    TrimEndIsPrefix(t);
    assert Trim(s) == r;
    k := |s| - |t|;
    assert t == s[k..];
    assert r == t[..|r|];
    assert r == s[k..k + |r|];
    if r != [] {
      assert r[0] == t[0];
    }
    forall i | k + |r| <= i < |s|
      ensures IsWhitespace(s[i])
    {
      assert s[i] == t[i - k];
    }
  }

  /** A string trims to "" exactly when it is made of whitespace only. */
  lemma TrimEmptyIffBlank(s: string)
    ensures Trim(s) == "" <==> IsBlank(s)
  {
    var k := TrimIsInfix(s);
  }

  /** Every character of `s` that is not whitespace lies inside `Trim(s)`. */
  lemma NonWhitespaceInTrim(s: string, i: nat)
    requires i < |s| && !IsWhitespace(s[i])
    ensures s[i] in Trim(s)
  {
    var k := TrimIsInfix(s);
    assert k <= i < k + |Trim(s)|;
    assert Trim(s)[i - k] == s[i];
  }

  /** `String.prototype.split` with a one-character separator. */
  function Split(s: string, sep: char): (parts: seq<string>)
    ensures |parts| >= 1
    ensures forall p :: p in parts ==> sep !in p
    decreases |s|
  {
    if |s| == 0 then [""]
    else
      var rest := Split(s[1..], sep);
      if s[0] == sep then [""] + rest
      else [[s[0]] + rest[0]] + rest[1..]
  }

  /** `Array.prototype.join` with a one-character separator. */
  function Join(parts: seq<string>, sep: char): string
  {
    if |parts| == 0 then ""
    else if |parts| == 1 then parts[0]
    else parts[0] + [sep] + Join(parts[1..], sep)
  }

  /** Joining the pieces of a split gives back the string. */
  lemma {:induction false} JoinSplit(s: string, sep: char)
    ensures Join(Split(s, sep), sep) == s
  {
    if |s| > 0 {
      var rest := Split(s[1..], sep);
      JoinSplit(s[1..], sep);
      if s[0] == sep {
        assert s == [sep] + s[1..];
      } else if |rest| == 1 {
        assert s == [s[0]] + s[1..];
      } else {
        assert [[s[0]] + rest[0]] + rest[1..] == [[s[0]] + rest[0]] + rest[1..];
        assert Join(rest, sep) == rest[0] + [sep] + Join(rest[1..], sep);
        assert s == [s[0]] + s[1..];
      }
    }
  }

  /** A string without the separator is a single piece. */
  lemma {:induction false} SplitNoSeparator(s: string, sep: char)
    requires sep !in s
    ensures Split(s, sep) == [s]
  {
    if |s| > 0 {
      SplitNoSeparator(s[1..], sep);
      assert [s[0]] + s[1..] == s;
    }
  }

  /** Splitting `head + [sep] + tail`, where `head` has no separator, yields `head` then the pieces of `tail`. */
  lemma {:induction false} SplitAfterHead(head: string, sep: char, tail: string)
    requires sep !in head
    ensures Split(head + [sep] + tail, sep) == [head] + Split(tail, sep)
    decreases |head|
  {
    var s := head + [sep] + tail;
    if |head| == 0 {
      assert s[1..] == tail;
    } else {
      assert s[1..] == head[1..] + [sep] + tail;
      SplitAfterHead(head[1..], sep, tail);
      assert [head[0]] + head[1..] == head;
    }
  }

  /** Splitting a join of separator-free pieces gives back the pieces. */
  lemma {:induction false} SplitJoin(parts: seq<string>, sep: char)
    requires |parts| >= 1
    requires forall p :: p in parts ==> sep !in p
    ensures Split(Join(parts, sep), sep) == parts
  {
    if |parts| == 1 {
      SplitNoSeparator(parts[0], sep);
    } else {
      SplitJoin(parts[1..], sep);
      SplitAfterHead(parts[0], sep, Join(parts[1..], sep));
      assert [parts[0]] + parts[1..] == parts;
    }
  }

  /** Joining two non-empty runs of pieces joins their joins. */
  lemma {:induction false} JoinAppend(xs: seq<string>, ys: seq<string>, sep: char)
    requires |xs| >= 1 && |ys| >= 1
    ensures Join(xs + ys, sep) == Join(xs, sep) + [sep] + Join(ys, sep)
  {
    if |xs| == 1 {
      assert (xs + ys)[1..] == ys;
    } else {
      assert (xs + ys)[1..] == xs[1..] + ys;
      JoinAppend(xs[1..], ys, sep);
    }
  }

  /** `n` separators in front of a string split off as `n` empty pieces. */
  lemma {:induction false} SplitLeadingSeparators(n: nat, sep: char, rest: string)
    ensures Split(seq(n, _ => sep) + rest, sep) == seq(n, _ => "") + Split(rest, sep)
  {
    if n == 0 {
      assert seq(n, _ => sep) + rest == rest;
      assert seq(n, _ => "") + Split(rest, sep) == Split(rest, sep);
    } else {
      var s := seq(n, _ => sep) + rest;
      assert s[0] == sep;
      assert s[1..] == seq(n - 1, _ => sep) + rest;
      SplitLeadingSeparators(n - 1, sep, rest);
      assert Split(s, sep) == [""] + Split(s[1..], sep);
      assert [""] + seq(n - 1, _ => "") == seq(n, _ => "");
    }
  }

  /** Every character of every piece satisfies `P` when every character of `s` does. */
  lemma {:induction false} SplitKeepsCharacterClass(s: string, sep: char, P: char -> bool)
    requires forall i :: 0 <= i < |s| ==> P(s[i])
    ensures forall p, i :: p in Split(s, sep) && 0 <= i < |p| ==> P(p[i])
    decreases |s|
  {
    if |s| > 0 {
      SplitKeepsCharacterClass(s[1..], sep, P);
    }
  }

  predicate StartsWith(s: string, prefix: string) {
    |prefix| <= |s| && s[..|prefix|] == prefix
  }

  predicate EndsWith(s: string, suffix: string) {
    |suffix| <= |s| && s[|s| - |suffix|..] == suffix
  }

  predicate OccursAt(s: string, sub: string, i: nat) {
    i + |sub| <= |s| && s[i..i + |sub|] == sub
  }

  /** `String.prototype.indexOf(sub, from)`: the leftmost occurrence at or after `from`. */
  function IndexOfFrom(s: string, sub: string, from: nat): (r: Option<nat>)
    ensures r.Some? ==> from <= r.value && OccursAt(s, sub, r.value)
    ensures r.Some? ==> forall i :: from <= i < r.value ==> !OccursAt(s, sub, i)
    ensures r.None? ==> forall i :: from <= i ==> !OccursAt(s, sub, i)
    decreases |s| - from
  {
    if from + |sub| > |s| then None
    else if s[from..from + |sub|] == sub then Some(from)
    else IndexOfFrom(s, sub, from + 1)
  }

  function IndexOf(s: string, sub: string): Option<nat> {
    IndexOfFrom(s, sub, 0)
  }

  /** `String.prototype.includes`. */
  predicate Includes(s: string, sub: string) {
    IndexOf(s, sub).Some?
  }

  /** `s.replace(pattern, replacement)` with a literal pattern: only the first occurrence is replaced. */
  function ReplaceFirst(s: string, pattern: string, replacement: string): (r: string)
    ensures (forall i: nat :: !OccursAt(s, pattern, i)) ==> r == s
    ensures forall i: nat :: OccursAt(s, pattern, i) && (forall k :: 0 <= k < i ==> !OccursAt(s, pattern, k)) ==>
      r == s[..i] + replacement + s[i + |pattern|..]
  {
    match IndexOf(s, pattern)
    case None => s
    case Some(i) => s[..i] + replacement + s[i + |pattern|..]
  }

  /** Removing the first ".json" from a name that contains it only as its extension leaves the stem. */
  lemma ReplaceJsonExtension(stem: string)
    requires IndexOf(stem + ".json", ".json") == Some(|stem|)
    ensures ReplaceFirst(stem + ".json", ".json", "") == stem
  {
    var s := stem + ".json";
    assert s[..|stem|] == stem;
    assert s[|stem| + 5..] == "";
  }

  function StripTrailingSlashes(p: string): (r: string)
    ensures |r| <= |p| && r == p[..|r|]
    ensures r == [] || r[|r| - 1] != '/'
    ensures forall i :: |r| <= i < |p| ==> p[i] == '/'
  {
    if |p| > 0 && p[|p| - 1] == '/' then StripTrailingSlashes(p[..|p| - 1]) else p
  }

  function LastSegment(p: string): (r: string)
    ensures '/' !in r
    ensures |r| <= |p| && r == p[|p| - |r|..]
    ensures |r| < |p| ==> p[|p| - |r| - 1] == '/'
  {
    if |p| == 0 || p[|p| - 1] == '/' then ""
    else LastSegment(p[..|p| - 1]) + [p[|p| - 1]]
  }

  /**
   * `r` is the `/`-free segment of `p` that ends at `n`, where `p[n..]` is the run of
   * trailing slashes: it reaches back to the slash before it, or to the start.
   */
  predicate SegmentBeforeTrailingSlashes(p: string, r: string, n: nat) {
    && |r| <= n <= |p|
    && (forall i :: n <= i < |p| ==> p[i] == '/')
    && (n > 0 ==> p[n - 1] != '/')
    && r == p[n - |r|..n] && '/' !in r
    && (|r| < n ==> p[n - |r| - 1] == '/')
  }

  /** Node's POSIX `path.basename`: the last segment, ignoring trailing separators. */
  function Basename(p: string): (r: string)
    ensures '/' !in r
    ensures exists n: nat :: SegmentBeforeTrailingSlashes(p, r, n)
  {
    var stripped := StripTrailingSlashes(p);
    var r := LastSegment(stripped);
    assert SegmentBeforeTrailingSlashes(p, r, |stripped|);
    r
  }

  /** A path made of a directory and a plain file name has that file name as its basename. */
  lemma {:induction false} BasenameOfJoin(dir: string, file: string)
    requires file != "" && '/' !in file
    ensures Basename(dir + "/" + file) == file
  {
    var p := dir + "/" + file;
    assert StripTrailingSlashes(p) == p;
    LastSegmentOfSuffix(dir + "/", file);
  }

  lemma {:induction false} LastSegmentOfSuffix(head: string, file: string)
    requires '/' !in file
    requires |head| > 0 && head[|head| - 1] == '/'
    ensures LastSegment(head + file) == file
    decreases |file|
  {
    if |file| == 0 {
      assert head + file == head;
    } else {
      var p := head + file;
      assert p[..|p| - 1] == head + file[..|file| - 1];
      LastSegmentOfSuffix(head, file[..|file| - 1]);
      assert file[..|file| - 1] + [file[|file| - 1]] == file;
    }
  }

  function UpperChar(c: char): char {
    if 'a' <= c <= 'z' then (c as int - 32) as char else c
  }

  /** `String.prototype.toUpperCase`, on ASCII letters. */
  function ToUpperCase(s: string): (r: string)
    ensures |r| == |s|
    ensures forall i :: 0 <= i < |s| ==> r[i] == UpperChar(s[i])
  {
    seq(|s|, i requires 0 <= i < |s| => UpperChar(s[i]))
  }
}
