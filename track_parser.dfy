/**
 * The custom-track grammar (app/utils/track-parser.js). A track is text such as
 * `DE(1.0) Pause (2s) VN(0.8)`; each non-blank line is cut at single spaces into tokens,
 * and each token yields at most one instruction: `Pause` followed by a `(<digits>s)` token
 * is a pause, a token starting with `DE` or `VN` is speech with an optional `(<speed>)`,
 * anything else is ignored. A `Pause` that is the last token of its line makes the source
 * read `.match` of `undefined`, which throws; here that is `Err(PauseWithoutDuration)`.
 *
 * `ParsedLine` and `ParsedTrack` are the specification; the methods `ParseLine` and
 * `ParseTrack` follow the source's loops and are proved to compute them.
 */
module TrackParser {
  import opened Wrappers
  import opened JsStrings
  import opened Json
  import opened Media

  /** The TypeError raised by `parts[i+1].match(...)` when `Pause` ends a line. */
  datatype ParseError = PauseWithoutDuration

  predicate IsDigit(c: char) {
    '0' <= c <= '9'
  }

  predicate IsSpeedChar(c: char) {
    IsDigit(c) || c == '.'
  }

  // ---------------------------------------------------------------------------------------
  // The two regular expressions: /\((\d+)s\)/ and /\(([\d\.]+)\)/
  // ---------------------------------------------------------------------------------------

  /** The length of the longest run of characters satisfying `P` that starts at `from`. */
  function RunLength(s: string, from: nat, P: char -> bool): (n: nat)
    requires from <= |s|
    ensures from + n <= |s|
    decreases |s| - from
  {
    if from < |s| && P(s[from]) then 1 + RunLength(s, from + 1, P) else 0
  }

  /** The run is made of `P` characters and cannot be extended. */
  lemma {:induction false} RunLengthIsMaximal(s: string, from: nat, P: char -> bool)
    requires from <= |s|
    ensures var n := RunLength(s, from, P);
      && (forall i :: from <= i < from + n ==> P(s[i]))
      && (from + n < |s| ==> !P(s[from + n]))
    decreases |s| - from
  {
    if from < |s| && P(s[from]) {
      RunLengthIsMaximal(s, from + 1, P);
    }
  }

  /**
   * The group captured by `\((C+)CLOSE` when the match starts at `p`, where `C` is the class
   * `P` and `CLOSE` begins with a character outside `P`: only the longest run can be followed
   * by `CLOSE` (see `OnlyLongestRunCloses`), so backtracking never finds another match.
   */
  function GroupAt(s: string, p: nat, P: char -> bool, close: string): Option<string>
    requires p <= |s|
  {
    if p < |s| && s[p] == '(' then
      var n := RunLength(s, p + 1, P);
      if n > 0 && StartsWith(s[p + 1 + n..], close) then Some(s[p + 1..p + 1 + n]) else None
    else None
  }

  /** A shorter run of `P` characters cannot be followed by `close` when `close` starts outside `P`. */
  lemma {:induction false} OnlyLongestRunCloses(s: string, p: nat, P: char -> bool, close: string, m: nat)
    requires p < |s| && 0 < m && p + 1 + m <= |s|
    requires |close| > 0 && !P(close[0])
    requires forall i :: p + 1 <= i < p + 1 + m ==> P(s[i])
    requires StartsWith(s[p + 1 + m..], close)
    ensures m == RunLength(s, p + 1, P)
  {
    RunLengthIsMaximal(s, p + 1, P);
  }

  /** The leftmost position at or after `from` where the pattern matches. */
  function FirstMatchFrom(s: string, from: nat, P: char -> bool, close: string): (r: Option<nat>)
    requires from <= |s|
    ensures r.Some? ==> from <= r.value < |s|
    decreases |s| - from
  {
    if from == |s| then None
    else if GroupAt(s, from, P, close).Some? then Some(from)
    else FirstMatchFrom(s, from + 1, P, close)
  }

  /** `FirstMatchFrom` finds a match, and no match lies before the one it finds. */
  lemma {:induction false} FirstMatchIsLeftmost(s: string, from: nat, P: char -> bool, close: string)
    requires from <= |s|
    ensures var r := FirstMatchFrom(s, from, P, close);
      && (r.Some? ==> GroupAt(s, r.value, P, close).Some?)
      && (forall q :: from <= q < (if r.Some? then r.value else |s|) ==> GroupAt(s, q, P, close).None?)
    decreases |s| - from
  {
    if from < |s| && GroupAt(s, from, P, close).None? {
      FirstMatchIsLeftmost(s, from + 1, P, close);
    }
  }

  /** `s.match(regex)`: the group of the leftmost match, if any. */
  function FirstGroup(s: string, P: char -> bool, close: string): Option<string> {
    match FirstMatchFrom(s, 0, P, close)
    case None => None
    case Some(p) => GroupAt(s, p, P, close)
  }

  /** A string without `(` has no match. */
  lemma NoParenNoMatch(s: string, P: char -> bool, close: string)
    requires '(' !in s
    ensures FirstGroup(s, P, close).None?
  {
    FirstMatchIsLeftmost(s, 0, P, close);
  }

  // ---------------------------------------------------------------------------------------
  // parseInt and parseFloat on the captured groups
  // ---------------------------------------------------------------------------------------

  function DigitValue(c: char): nat {
    if IsDigit(c) then c as int - '0' as int else 0
  }

  /** `parseInt(ds, 10)` of a string of decimal digits. */
  function DigitsValue(ds: string): nat {
    if |ds| == 0 then 0 else DigitsValue(ds[..|ds| - 1]) * 10 + DigitValue(ds[|ds| - 1])
  }

  /** `n` divided by ten `places` times: `n` read as the digits after a decimal point. */
  function Shifted(n: nat, places: nat): real {
    if places == 0 then n as real else Shifted(n, places - 1) / 10.0
  }

  /** The value of the digits after a decimal point: the first in tenths, the next in hundredths, and so on. */
  function Decimals(ds: string): real {
    Shifted(DigitsValue(ds), |ds|)
  }

  /** The number written `whole.fraction`. */
  function DecimalNumber(whole: string, fraction: string): real {
    DigitsValue(whole) as real + Decimals(fraction)
  }

  /**
   * `parseFloat` of a string of digits and dots: the longest prefix of the form
   * `digits[.digits]` or `.digits`; NaN when there is none (`"."`, `".."`).
   */
  function ParseFloat(g: string): JsNumber {
    var k := RunLength(g, 0, IsDigit);
    if k < |g| && g[k] == '.' then
      var m := RunLength(g, k + 1, IsDigit);
      if k == 0 && m == 0 then NaN
      else Finite(DecimalNumber(g[..k], g[k + 1..k + 1 + m]))
    else if k == 0 then NaN
    else Finite(DigitsValue(g[..k]) as real)
  }

  /** A run of exactly `n` characters of `P` starting at `from` has length `n`. */
  lemma {:induction false} RunOf(s: string, from: nat, n: nat, P: char -> bool)
    requires from + n <= |s|
    requires forall i :: from <= i < from + n ==> P(s[i])
    requires from + n < |s| ==> !P(s[from + n])
    ensures RunLength(s, from, P) == n
    decreases n
  {
    if n > 0 {
      RunOf(s, from + 1, n - 1, P);
    }
  }

  /** `parseFloat` of a group whose leading run `whole` of digits is followed by a point and a run `fraction` of digits. */
  lemma ParseFloatPoint(g: string, whole: string, fraction: string)
    requires 0 < |whole| < |g| && g[|whole|] == '.' && |whole| + 1 + |fraction| <= |g|
    requires RunLength(g, 0, IsDigit) == |whole| && RunLength(g, |whole| + 1, IsDigit) == |fraction|
    requires g[..|whole|] == whole && g[|whole| + 1..|whole| + 1 + |fraction|] == fraction
    ensures ParseFloat(g) == Finite(DecimalNumber(whole, fraction))
  {
  }

  /** `parseFloat("<a>.<b>")` for digit strings `a` and `b`, `a` not empty: a plus b tenths, hundredths, and so on. */
  lemma ParseFloatDecimal(a: string, b: string)
    requires |a| > 0 && forall i :: 0 <= i < |a| ==> IsDigit(a[i])
    requires forall i :: 0 <= i < |b| ==> IsDigit(b[i])
    ensures ParseFloat(a + "." + b) == Finite(DecimalNumber(a, b))
  {
    var g := a + "." + b;
    assert g[|a|] == '.';
    assert forall i :: 0 <= i < |a| ==> g[i] == a[i];
    RunOf(g, 0, |a|, IsDigit);
    assert forall i :: |a| + 1 <= i < |g| ==> g[i] == b[i - |a| - 1];
    RunOf(g, |a| + 1, |b|, IsDigit);
    assert g[..|a|] == a;
    assert g[|a| + 1..|a| + 1 + |b|] == b;
    ParseFloatPoint(g, a, b);
  }

  /** The seconds of a `(<digits>s)` duration token, matched anywhere in the token. */
  function DurationIn(token: string): Option<nat> {
    match FirstGroup(token, IsDigit, "s)")
    case None => None
    case Some(ds) => Some(DigitsValue(ds))
  }

  /** `(<digits>s)` holds a duration of that many seconds. */
  lemma DurationOfDigits(ds: string)
    requires |ds| > 0 && forall i :: 0 <= i < |ds| ==> IsDigit(ds[i])
    ensures DurationIn("(" + ds + "s)") == Some(DigitsValue(ds))
  {
    var t := "(" + ds + "s)";
    RunOf(t, 1, |ds|, IsDigit);
    assert t[1 + |ds|..] == "s)";
    assert t[1..1 + |ds|] == ds;
    assert GroupAt(t, 0, IsDigit, "s)") == Some(ds);
  }

  /** The speed of a speech token: its first `(<digits and dots>)` group, or 1.0. */
  function SpeedIn(token: string): JsNumber {
    match FirstGroup(token, IsSpeedChar, ")")
    case None => Finite(1.0)
    case Some(g) => ParseFloat(g)
  }

  // ---------------------------------------------------------------------------------------
  // Specification of parseLine and parseTrack
  // ---------------------------------------------------------------------------------------

  function Prepend(xs: seq<Instruction>, r: Result<seq<Instruction>, ParseError>): Result<seq<Instruction>, ParseError> {
    match r
    case Ok(ys) => Ok(xs + ys)
    case Err(e) => Err(e)
  }

  lemma PrependNothing(r: Result<seq<Instruction>, ParseError>)
    ensures Prepend([], r) == r
  {
    if r.Ok? {
      assert [] + r.value == r.value;
    }
  }

  lemma PrependTwice(xs: seq<Instruction>, ys: seq<Instruction>, r: Result<seq<Instruction>, ParseError>)
    ensures Prepend(xs, Prepend(ys, r)) == Prepend(xs + ys, r)
  {
    if r.Ok? {
      assert xs + (ys + r.value) == (xs + ys) + r.value;
    }
  }

  predicate WholeSeconds(xs: seq<Instruction>) {
    forall k :: 0 <= k < |xs| && xs[k].Pause? ==> xs[k].duration % 1000 == 0
  }

  lemma WholeThousands(n: nat)
    ensures (n * 1000) % 1000 == 0
  {
  }

  /** What one token yields and the index of the token parsing resumes at. */
  datatype Advance = Advance(emitted: seq<Instruction>, next: nat)

  /**
   * One turn of `parseLine`'s loop on the tokens from the current one on: `Pause` takes the
   * following token as its duration when that token holds one, a token starting with `DE`
   * or `VN` is speech at the speed in its parentheses, any other token is skipped. Only a
   * `Pause` in last position fails. The result's `next` counts the tokens the turn consumes.
   */
  function Turn(rest: seq<string>): (r: Result<Advance, ParseError>)
    requires |rest| > 0
    ensures r.Ok? ==> 0 < r.value.next <= |rest|
  {
    var part := Trim(rest[0]);
    if part == "Pause" then
      if |rest| == 1 then Err(PauseWithoutDuration)
      else match DurationIn(rest[1])
        case Some(seconds) => Ok(Advance([Pause(seconds * 1000)], 2))
        case None => Ok(Advance([], 1))
    else if StartsWith(part, "DE") || StartsWith(part, "VN") then
      var language := if part[..2] == "DE" then DE else VN;
      Ok(Advance([Speech(language, SpeedIn(part))], 1))
    else Ok(Advance([], 1))
  }

  /** The turn at token `i`, with `next` the index parsing resumes at. */
  function Step(parts: seq<string>, i: nat): (r: Result<Advance, ParseError>)
    requires i < |parts|
    ensures r.Ok? ==> i < r.value.next <= |parts|
  {
    match Turn(parts[i..])
    case Err(e) => Err(e)
    case Ok(a) => Ok(Advance(a.emitted, i + a.next))
  }

  /**
   * A step fails only on a `Pause` in last position; it yields at most one instruction, a
   * pause of whole seconds; and it skips two tokens only for a pause with a duration.
   */
  lemma StepFacts(parts: seq<string>, i: nat)
    requires i < |parts|
    ensures Step(parts, i).Err? <==> Trim(parts[i]) == "Pause" && i + 1 == |parts|
    ensures Step(parts, i).Ok? ==> |Step(parts, i).value.emitted| <= 1
    ensures Step(parts, i).Ok? ==> WholeSeconds(Step(parts, i).value.emitted)
    ensures Step(parts, i).Ok? && Step(parts, i).value.next == i + 2 ==>
      Trim(parts[i]) == "Pause" && DurationIn(parts[i + 1]).Some?
  {
    if Trim(parts[i]) == "Pause" && i + 1 < |parts| && DurationIn(parts[i + 1]).Some? {
      WholeThousands(DurationIn(parts[i + 1]).value);
    }
  }

  /** The instructions of the tokens `parts[i..]`. */
  function ParseParts(parts: seq<string>, i: nat): Result<seq<Instruction>, ParseError>
    requires i <= |parts|
    decreases |parts| - i
  {
    if i == |parts| then Ok([])
    else match Step(parts, i)
      case Err(e) => Err(e)
      case Ok(a) => Prepend(a.emitted, ParseParts(parts, a.next))
  }

  /** `ParseParts` from a token before the end: that token's step, then the rest. */
  lemma PartsStep(parts: seq<string>, i: nat)
    requires i < |parts|
    ensures ParseParts(parts, i) ==
      match Step(parts, i)
      case Err(e) => Err(e)
      case Ok(a) => Prepend(a.emitted, ParseParts(parts, a.next))
  {
  }

  /** What `parseLine` returns (or throws) for one line. */
  function ParsedLine(line: string): Result<seq<Instruction>, ParseError> {
    ParseParts(Split(line, ' '), 0)
  }

  /** The lines left by `filter(line => line.trim() !== '')`. */
  function NonBlank(lines: seq<string>): (r: seq<string>)
    ensures |r| <= |lines|
    ensures forall l :: l in r ==> l in lines && Trim(l) != ""
  {
    if |lines| == 0 then []
    else (if Trim(lines[0]) != "" then [lines[0]] else []) + NonBlank(lines[1..])
  }

  /** The concatenation, in order, of the instructions of each line; the first failing line fails it all. */
  function ParseLines(lines: seq<string>): Result<seq<Instruction>, ParseError> {
    if |lines| == 0 then Ok([])
    else match ParsedLine(lines[0])
      case Err(e) => Err(e)
      case Ok(xs) => Prepend(xs, ParseLines(lines[1..]))
  }

  /** What `parseTrack` returns (or throws) for a track string. */
  function ParsedTrack(track: string): Result<seq<Instruction>, ParseError> {
    ParseLines(NonBlank(Split(track, '\n')))
  }

  /** One step of `ParseLines` from the `k`-th line. */
  lemma LinesStep(lines: seq<string>, k: nat)
    requires k < |lines|
    ensures ParseLines(lines[k..]) ==
      match ParsedLine(lines[k])
      case Err(e) => Err(e)
      case Ok(xs) => Prepend(xs, ParseLines(lines[k + 1..]))
  {
    assert lines[k..][1..] == lines[k + 1..];
  }

  // ---------------------------------------------------------------------------------------
  // The source's loops
  // ---------------------------------------------------------------------------------------

  /** A `Pause` token before the last one: a pause when the next token holds a duration, otherwise nothing. */
  lemma StepOnPause(parts: seq<string>, i: nat)
    requires i + 1 < |parts| && Trim(parts[i]) == "Pause"
    ensures DurationIn(parts[i + 1]).Some? ==>
      Step(parts, i) == Ok(Advance([Pause(DurationIn(parts[i + 1]).value * 1000)], i + 2))
    ensures DurationIn(parts[i + 1]).None? ==> Step(parts, i) == Ok(Advance([], i + 1))
  {
  }

  /** A token that is not `Pause`: speech when it starts with a language tag, otherwise nothing. */
  lemma StepOnOther(parts: seq<string>, i: nat)
    requires i < |parts| && Trim(parts[i]) != "Pause"
    ensures var part := Trim(parts[i]);
      if StartsWith(part, "DE") || StartsWith(part, "VN") then
        Step(parts, i) == Ok(Advance([Speech(if part[..2] == "DE" then DE else VN, SpeedIn(part))], i + 1))
      else Step(parts, i) == Ok(Advance([], i + 1))
  {
  }

  /** One turn of the loop, seen from the instructions collected so far. */
  lemma PartsTurn(parts: seq<string>, i: nat, xs: seq<Instruction>, emitted: seq<Instruction>, next: nat)
    requires i < |parts| && Step(parts, i) == Ok(Advance(emitted, next))
    ensures Prepend(xs, ParseParts(parts, i)) == Prepend(xs + emitted, ParseParts(parts, next))
  {
    PartsStep(parts, i);
    PrependTwice(xs, emitted, ParseParts(parts, next));
  }

  /** A successful turn: what it emits, then the rest of the line from where it resumes. */
  lemma PartsAdvance(parts: seq<string>, i: nat, emitted: seq<Instruction>, next: nat)
    requires i < |parts| && Step(parts, i) == Ok(Advance(emitted, next))
    ensures ParseParts(parts, i) == Prepend(emitted, ParseParts(parts, next))
  {
    PartsStep(parts, i);
  }

  /** A failing turn fails the rest of the line. */
  lemma PartsFail(parts: seq<string>, i: nat)
    requires i < |parts| && Step(parts, i).Err?
    ensures ParseParts(parts, i) == Err(Step(parts, i).error)
  {
  }

  /** One turn of `parseLine`'s loop: the instructions of the `i`-th token and where the loop goes on. */
  method ReadToken(parts: seq<string>, i: nat) returns (r: Result<Advance, ParseError>)
    requires i < |parts|
    ensures r == Step(parts, i)
  {
    var part := Trim(parts[i]);
    if part == "Pause" {
      if i + 1 == |parts| {
        return Err(PauseWithoutDuration);
      }
      StepOnPause(parts, i);
      var seconds := DurationIn(parts[i + 1]);
      if seconds.Some? {
        return Ok(Advance([Pause(seconds.value * 1000)], i + 2));
      }
      return Ok(Advance([], i + 1));
    }
    StepOnOther(parts, i);
    if StartsWith(part, "DE") || StartsWith(part, "VN") {
      var language := if part[..2] == "DE" then DE else VN;
      return Ok(Advance([Speech(language, SpeedIn(part))], i + 1));
    }
    return Ok(Advance([], i + 1));
  }

  /** `TrackParser.parseLine`: walks the tokens with an index it bumps past a pause's duration. */
  method ParseLine(line: string) returns (r: Result<seq<Instruction>, ParseError>)
    ensures r == ParsedLine(line)
  {
    var parts := Split(line, ' ');
    var instructions: seq<Instruction> := [];
    var i := 0;
    PrependNothing(ParseParts(parts, 0));
    while i < |parts|
      invariant i <= |parts|
      invariant ParseParts(parts, 0) == Prepend(instructions, ParseParts(parts, i))
    {
      var step := ReadToken(parts, i);
      if step.Err? {
        PartsFail(parts, i);
        return Err(step.error);
      }
      PartsTurn(parts, i, instructions, step.value.emitted, step.value.next);
      instructions := instructions + step.value.emitted;
      i := step.value.next;
    }
    assert instructions + [] == instructions;
    return Ok(instructions);
  }

  /** `TrackParser.parseTrack`: parses the non-blank lines in order and appends their instructions. */
  method ParseTrack(track: string) returns (r: Result<seq<Instruction>, ParseError>)
    ensures r == ParsedTrack(track)
  {
    var lines := NonBlank(Split(track, '\n'));
    var instructions: seq<Instruction> := [];
    assert lines[0..] == lines;
    PrependNothing(ParseLines(lines));
    for k := 0 to |lines|
      invariant ParseLines(lines) == Prepend(instructions, ParseLines(lines[k..]))
    {
      LinesStep(lines, k);
      var lineInstructions := ParseLine(lines[k]);
      if lineInstructions.Err? {
        return Err(lineInstructions.error);
      }
      PrependTwice(instructions, lineInstructions.value, ParseLines(lines[k + 1..]));
      instructions := instructions + lineInstructions.value;
    }
    assert instructions + [] == instructions;
    return Ok(instructions);
  }

  // ---------------------------------------------------------------------------------------
  // Properties
  // ---------------------------------------------------------------------------------------

  /** Each token yields at most one instruction. */
  lemma {:induction false} PartsBound(parts: seq<string>, i: nat)
    requires i <= |parts|
    ensures ParseParts(parts, i).Ok? ==> |ParseParts(parts, i).value| <= |parts| - i
    decreases |parts| - i
  {
    if i < |parts| && Step(parts, i).Ok? {
      StepFacts(parts, i);
      PartsBound(parts, Step(parts, i).value.next);
    }
  }

  /** A line yields no more instructions than it has space-separated tokens. */
  lemma LineBound(line: string)
    ensures ParsedLine(line).Ok? ==> |ParsedLine(line).value| <= |Split(line, ' ')|
  {
    PartsBound(Split(line, ' '), 0);
  }

  lemma AppendWholeSeconds(xs: seq<Instruction>, ys: seq<Instruction>)
    requires WholeSeconds(xs) && WholeSeconds(ys)
    ensures WholeSeconds(xs + ys)
  {
    forall k | 0 <= k < |xs + ys| && (xs + ys)[k].Pause?
      ensures (xs + ys)[k].duration % 1000 == 0
    {
      if k >= |xs| {
        assert (xs + ys)[k] == ys[k - |xs|];
      }
    }
  }

  lemma {:induction false} PartsWholeSeconds(parts: seq<string>, i: nat)
    requires i <= |parts|
    ensures ParseParts(parts, i).Ok? ==> WholeSeconds(ParseParts(parts, i).value)
    decreases |parts| - i
  {
    if i < |parts| && Step(parts, i).Ok? {
      var a := Step(parts, i).value;
      StepFacts(parts, i);
      PartsWholeSeconds(parts, a.next);
      if ParseParts(parts, a.next).Ok? {
        AppendWholeSeconds(a.emitted, ParseParts(parts, a.next).value);
      }
    }
  }

  lemma {:induction false} LinesWholeSeconds(lines: seq<string>)
    ensures ParseLines(lines).Ok? ==> WholeSeconds(ParseLines(lines).value)
  {
    if |lines| > 0 && ParsedLine(lines[0]).Ok? {
      PartsWholeSeconds(Split(lines[0], ' '), 0);
      LinesWholeSeconds(lines[1..]);
    }
  }

  /** Every pause of a parsed track lasts a whole number of seconds, in milliseconds. */
  lemma TrackPausesAreWholeSeconds(track: string)
    ensures ParsedTrack(track).Ok? ==> WholeSeconds(ParsedTrack(track).value)
  {
    LinesWholeSeconds(NonBlank(Split(track, '\n')));
  }

  /** A token that trims to "" is skipped. */
  lemma StepOnBlank(parts: seq<string>, i: nat)
    requires i < |parts| && Trim(parts[i]) == ""
    ensures Step(parts, i) == Ok(Advance([], i + 1))
  {
  }

  /** Tokens that trim to "" are skipped without yielding anything. */
  lemma {:induction false} BlankTokensYieldNothing(parts: seq<string>, i: nat, j: nat)
    requires i <= j <= |parts|
    requires forall k :: i <= k < j ==> Trim(parts[k]) == ""
    ensures ParseParts(parts, i) == ParseParts(parts, j)
    decreases j - i
  {
    if i < j {
      StepOnBlank(parts, i);
      PartsAdvance(parts, i, [], i + 1);
      BlankTokensYieldNothing(parts, i + 1, j);
      PrependNothing(ParseParts(parts, i + 1));
    }
  }

  /** Parsing from a token depends only on the tokens from there on. */
  lemma {:induction false} PartsSame(p: seq<string>, i: nat, q: seq<string>, k: nat)
    requires i <= |p| && k <= |q| && p[i..] == q[k..]
    ensures ParseParts(p, i) == ParseParts(q, k)
    decreases |p| - i
  {
    assert |p| - i == |q| - k;
    if i < |p| {
      var t := Turn(p[i..]);
      assert Step(p, i) == (match t case Err(e) => Err(e) case Ok(a) => Ok(Advance(a.emitted, i + a.next)));
      assert Step(q, k) == (match t case Err(e) => Err(e) case Ok(a) => Ok(Advance(a.emitted, k + a.next)));
      if t.Err? {
        PartsFail(p, i);
        PartsFail(q, k);
      } else {
        var a := t.value;
        PartsAdvance(p, i, a.emitted, i + a.next);
        PartsAdvance(q, k, a.emitted, k + a.next);
        assert p[i + a.next..] == p[i..][a.next..];
        assert q[k + a.next..] == q[k..][a.next..];
        PartsSame(p, i + a.next, q, k + a.next);
      }
    }
  }

  /** Parsing from a token does not depend on the tokens before it. */
  lemma PartsShift(pre: seq<string>, parts: seq<string>, j: nat)
    requires j <= |parts|
    ensures ParseParts(pre + parts, |pre| + j) == ParseParts(parts, j)
  {
    assert (pre + parts)[|pre| + j..] == parts[j..];
    PartsSame(pre + parts, |pre| + j, parts, j);
  }

  /** Spaces in front of a line change nothing: they split off as empty tokens. */
  lemma IndentedLine(n: nat, line: string)
    ensures ParsedLine(seq(n, _ => ' ') + line) == ParsedLine(line)
  {
    var blanks: seq<string> := seq(n, _ => "");
    var parts := Split(line, ' ');
    SplitLeadingSeparators(n, ' ', line);
    forall k | 0 <= k < n
      ensures Trim((blanks + parts)[k]) == ""
    {
      assert (blanks + parts)[k] == "";
    }
    BlankTokensYieldNothing(blanks + parts, 0, n);
    PartsShift(blanks, parts, 0);
  }

  /** A line of whitespace only yields no instruction, so dropping blank lines changes nothing. */
  lemma BlankLineYieldsNothing(line: string)
    requires IsBlank(line)
    ensures ParsedLine(line) == Ok([])
  {
    var parts := Split(line, ' ');
    SplitKeepsCharacterClass(line, ' ', IsWhitespace);
    forall k | 0 <= k < |parts| ensures Trim(parts[k]) == "" {
      TrimEmptyIffBlank(parts[k]);
    }
    BlankTokensYieldNothing(parts, 0, |parts|);
  }

  /** Dropping one blank line from the front changes nothing. */
  lemma BlankHead(lines: seq<string>)
    requires |lines| > 0 && IsBlank(lines[0])
    ensures ParseLines(lines) == ParseLines(lines[1..])
  {
    BlankLineYieldsNothing(lines[0]);
    PrependNothing(ParseLines(lines[1..]));
  }

  lemma {:induction false} NonBlankParsesAlike(lines: seq<string>)
    ensures ParseLines(NonBlank(lines)) == ParseLines(lines)
  {
    if |lines| > 0 {
      NonBlankParsesAlike(lines[1..]);
      TrimEmptyIffBlank(lines[0]);
      if IsBlank(lines[0]) {
        assert NonBlank(lines) == NonBlank(lines[1..]);
        BlankHead(lines);
      } else {
        var r := NonBlank(lines);
        assert r == [lines[0]] + NonBlank(lines[1..]);
        assert r[0] == lines[0] && r[1..] == NonBlank(lines[1..]);
      }
    }
  }

  /** Parsing a track is parsing every one of its lines, blank or not, and concatenating in order. */
  lemma TrackIsAllLines(track: string)
    ensures ParsedTrack(track) == ParseLines(Split(track, '\n'))
  {
    NonBlankParsesAlike(Split(track, '\n'));
  }

  /** A line followed by the rest of a track: its instructions come first, then those of the rest. */
  lemma TrackOfFirstLineAndRest(line: string, rest: string)
    requires '\n' !in line
    ensures ParsedTrack(line + "\n" + rest) ==
      match ParsedLine(line)
      case Err(e) => Err(e)
      case Ok(xs) => Prepend(xs, ParsedTrack(rest))
  {
    TrackIsAllLines(line + "\n" + rest);
    TrackIsAllLines(rest);
    SplitAfterHead(line, '\n', rest);
    assert ([line] + Split(rest, '\n'))[1..] == Split(rest, '\n');
  }

  lemma PauseTokenHasNoMatch(t: string)
    requires Trim(t) == "Pause"
    ensures DurationIn(t).None?
  {
    if '(' in t {
      var i :| 0 <= i < |t| && t[i] == '(';
      NonWhitespaceInTrim(t, i);
    }
    NoParenNoMatch(t, IsDigit, "s)");
  }

  /** When the last token is `Pause`, no step from an earlier token can jump past it. */
  lemma StepBeforeTrailingPause(parts: seq<string>, i: nat)
    requires i < |parts| && Trim(parts[|parts| - 1]) == "Pause" && Step(parts, i).Ok?
    ensures Step(parts, i).value.next < |parts|
  {
    StepFacts(parts, i);
    if i + 2 == |parts| {
      PauseTokenHasNoMatch(parts[i + 1]);
    }
  }

  lemma {:induction false} TrailingPauseFromAnyIndex(parts: seq<string>, i: nat)
    requires i < |parts| && Trim(parts[|parts| - 1]) == "Pause"
    ensures ParseParts(parts, i).Err?
    decreases |parts| - i
  {
    if Step(parts, i).Ok? {
      StepBeforeTrailingPause(parts, i);
      TrailingPauseFromAnyIndex(parts, Step(parts, i).value.next);
    }
  }

  /**
   * A line whose last token is `Pause` always fails: no earlier `Pause` can take it as its
   * duration, so the parser reaches it and reads past the end of the tokens.
   */
  lemma TrailingPauseFails(line: string)
    requires Trim(Split(line, ' ')[|Split(line, ' ')| - 1]) == "Pause"
    ensures ParsedLine(line).Err?
  {
    TrailingPauseFromAnyIndex(Split(line, ' '), 0);
  }
}
