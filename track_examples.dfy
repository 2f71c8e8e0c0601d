/**
 * Worked examples of the track grammar: the tracks and lines of the parser's own test suite
 * (app/tests/utils/track-parser.test.js), plus `Pause DE` (a `Pause` whose next token is no
 * duration) and `DE Pause` (a `Pause` that ends its line).
 */
module TrackExamples {
  import opened Wrappers
  import opened JsStrings
  import opened Json
  import opened Media
  import opened TrackParser

  // ---------------------------------------------------------------------------------------
  // Single tokens
  // ---------------------------------------------------------------------------------------

  /** A speech token: it trims to itself and starts with its language's tag. */
  predicate SpeechToken(t: string, language: Language) {
    Trim(t) == t && StartsWith(t, Tag(language))
  }

  function DecimalOf(digit: char, tenth: char): real {
    (digit as int - '0' as int) as real + (tenth as int - '0' as int) as real / 10.0
  }

  /** The speed pattern of `DE(d.t)` or `VN(d.t)` captures `d.t`. */
  lemma SpeedGroup(t: string, language: Language, digit: char, tenth: char)
    requires t == Tag(language) + ['(', digit, '.', tenth, ')'] && IsDigit(digit) && IsDigit(tenth)
    ensures FirstGroup(t, IsSpeedChar, ")") == Some([digit, '.', tenth])
  {
    assert RunLength(t, 6, IsSpeedChar) == 0;
    assert RunLength(t, 5, IsSpeedChar) == 1;
    assert RunLength(t, 4, IsSpeedChar) == 2;
    assert RunLength(t, 3, IsSpeedChar) == 3;
    assert StartsWith(t[6..], ")");
    assert GroupAt(t, 0, IsSpeedChar, ")").None?;
    assert GroupAt(t, 1, IsSpeedChar, ")").None?;
    assert GroupAt(t, 2, IsSpeedChar, ")") == Some(t[3..6]);
    assert FirstMatchFrom(t, 2, IsSpeedChar, ")") == Some(2);
    assert FirstMatchFrom(t, 1, IsSpeedChar, ")") == Some(2);
    assert t[3..6] == [digit, '.', tenth];
  }

  /** `parseFloat("d.t")` is d.t. */
  lemma DecimalGroup(digit: char, tenth: char)
    requires IsDigit(digit) && IsDigit(tenth)
    ensures ParseFloat([digit, '.', tenth]) == Finite(DecimalOf(digit, tenth))
  {
    assert [digit] + "." + [tenth] == [digit, '.', tenth];
    ParseFloatDecimal([digit], [tenth]);
    assert DigitsValue([digit]) == digit as int - '0' as int by {
      assert [digit][..0] == [];
    }
    assert Decimals([tenth]) == (tenth as int - '0' as int) as real / 10.0 by {
      assert [tenth][..0] == [];
      assert DigitsValue([tenth]) == tenth as int - '0' as int;
      assert Shifted(DigitsValue([tenth]), 0) == DigitsValue([tenth]) as real;
    }
  }

  /** `DE(d.t)` or `VN(d.t)`: speech at speed d.t. */
  lemma SpeedToken(t: string, language: Language, digit: char, tenth: char)
    requires t == Tag(language) + ['(', digit, '.', tenth, ')'] && IsDigit(digit) && IsDigit(tenth)
    ensures SpeechToken(t, language) && SpeedIn(t) == Finite(DecimalOf(digit, tenth))
  {
    assert t[..2] == Tag(language);
    SpeedGroup(t, language, digit, tenth);
    DecimalGroup(digit, tenth);
  }

  /** A bare `DE` or `VN`: speech at the default speed 1.0. */
  lemma BareToken(t: string, language: Language)
    requires t == Tag(language)
    ensures SpeechToken(t, language) && SpeedIn(t) == Finite(1.0)
  {
    NoParenNoMatch(t, IsSpeedChar, ")");
  }

  /** `(<d>s)`: a duration of d seconds. */
  lemma DurationToken(t: string, d: char)
    requires t == ['(', d, 's', ')'] && IsDigit(d)
    ensures DurationIn(t) == Some(d as int - '0' as int)
  {
    assert RunLength(t, 2, IsDigit) == 0;
    assert RunLength(t, 1, IsDigit) == 1;
    assert t[2..] == "s)";
    assert StartsWith(t[2..], "s)");
    assert t[1..2] == [d];
    assert GroupAt(t, 0, IsDigit, "s)") == Some([d]);
    assert FirstMatchFrom(t, 0, IsDigit, "s)") == Some(0);
    assert FirstGroup(t, IsDigit, "s)") == Some([d]);
    assert [d][..0] == [];
    assert DigitsValue([d]) == d as int - '0' as int;
  }

  lemma PauseToken(t: string)
    requires t == "Pause"
    ensures Trim(t) == "Pause"
  {
  }

  // ---------------------------------------------------------------------------------------
  // Token sequences
  // ---------------------------------------------------------------------------------------

  /** A speech token at `i`: one instruction in its language, then the rest. */
  lemma SpeechStep(parts: seq<string>, i: nat, language: Language)
    requires i < |parts| && SpeechToken(parts[i], language)
    ensures ParseParts(parts, i) == Prepend([Speech(language, SpeedIn(parts[i]))], ParseParts(parts, i + 1))
  {
    assert Trim(parts[i]) == parts[i];
    assert parts[i][0] != 'P';
    StepOnOther(parts, i);
    PartsStep(parts, i);
  }

  /** `Pause` at `i` followed by a duration token: one pause, then the rest after the duration. */
  lemma PauseStep(parts: seq<string>, i: nat, seconds: nat)
    requires i + 1 < |parts| && Trim(parts[i]) == "Pause" && DurationIn(parts[i + 1]) == Some(seconds)
    ensures ParseParts(parts, i) == Prepend([Pause(seconds * 1000)], ParseParts(parts, i + 2))
  {
    StepOnPause(parts, i);
    PartsStep(parts, i);
  }

  lemma TwoSpeeches(words: seq<string>, first: Language, second: Language)
    requires |words| == 2 && SpeechToken(words[0], first) && SpeechToken(words[1], second)
    ensures ParseParts(words, 0) == Ok([Speech(first, SpeedIn(words[0])), Speech(second, SpeedIn(words[1]))])
  {
    var a, b := Speech(first, SpeedIn(words[0])), Speech(second, SpeedIn(words[1]));
    assert ParseParts(words, 2) == Ok([]);
    SpeechStep(words, 1, second);
    assert [b] + [] == [b];
    SpeechStep(words, 0, first);
    assert [a] + [b] == [a, b];
  }

  lemma OnePause(words: seq<string>, seconds: nat)
    requires |words| == 2 && Trim(words[0]) == "Pause" && DurationIn(words[1]) == Some(seconds)
    ensures ParseParts(words, 0) == Ok([Pause(seconds * 1000)])
  {
    assert ParseParts(words, 2) == Ok([]);
    PauseStep(words, 0, seconds);
    assert [Pause(seconds * 1000)] + [] == [Pause(seconds * 1000)];
  }

  /** A speech token in last position is the last instruction. */
  lemma LastSpeech(words: seq<string>, i: nat, language: Language)
    requires i + 1 == |words| && SpeechToken(words[i], language)
    ensures ParseParts(words, i) == Ok([Speech(language, SpeedIn(words[i]))])
  {
    var b := Speech(language, SpeedIn(words[i]));
    SpeechStep(words, i, language);
    assert ParseParts(words, i + 1) == Ok([]);
    assert [b] + [] == [b];
  }

  lemma SpeechPauseSpeech(words: seq<string>, first: Language, seconds: nat, last: Language)
    requires |words| == 4 && SpeechToken(words[0], first) && Trim(words[1]) == "Pause"
    requires DurationIn(words[2]) == Some(seconds) && SpeechToken(words[3], last)
    ensures ParseParts(words, 0) ==
      Ok([Speech(first, SpeedIn(words[0])), Pause(seconds * 1000), Speech(last, SpeedIn(words[3]))])
  {
    var a, p, b := Speech(first, SpeedIn(words[0])), Pause(seconds * 1000), Speech(last, SpeedIn(words[3]));
    LastSpeech(words, 3, last);
    PauseStep(words, 1, seconds);
    assert [p] + [b] == [p, b];
    SpeechStep(words, 0, first);
    assert [a] + [p, b] == [a, p, b];
  }

  // ---------------------------------------------------------------------------------------
  // From text to tokens
  // ---------------------------------------------------------------------------------------

  /** A line whose tokens are `words` parses as those tokens. */
  lemma LineOfWords(line: string, words: seq<string>)
    requires |words| >= 1 && (forall w :: w in words ==> ' ' !in w) && Join(words, ' ') == line
    ensures ParsedLine(line) == ParseParts(words, 0)
  {
    SplitJoin(words, ' ');
  }

  /** A character that is in no piece and is not the separator is not in the join. */
  lemma {:induction false} JoinKeepsOut(parts: seq<string>, sep: char, c: char)
    requires c != sep && forall w :: w in parts ==> c !in w
    ensures c !in Join(parts, sep)
  {
    if |parts| > 1 {
      JoinKeepsOut(parts[1..], sep, c);
    }
  }

  /** A track without line breaks parses as its only line, blank or not. */
  lemma LastLine(line: string)
    requires '\n' !in line
    ensures ParsedTrack(line) == ParsedLine(line)
  {
    TrackIsAllLines(line);
    SplitNoSeparator(line, '\n');
    assert [line][1..] == [];
    if ParsedLine(line).Ok? {
      assert ParsedLine(line).value + [] == ParsedLine(line).value;
    }
  }

  /** A one-line track made of `words` parses as those tokens. */
  lemma OneLineOfWords(track: string, words: seq<string>)
    requires |words| >= 1 && (forall w :: w in words ==> ' ' !in w && '\n' !in w) && Join(words, ' ') == track
    ensures ParsedTrack(track) == ParseParts(words, 0)
  {
    JoinKeepsOut(words, ' ', '\n');
    LineOfWords(track, words);
    LastLine(track);
  }

  /** A line without line breaks followed by a track: the line's instructions come first. */
  lemma LineThenTrack(line: string, rest: string, xs: seq<Instruction>, ys: seq<Instruction>)
    requires '\n' !in line && ParsedLine(line) == Ok(xs) && ParsedTrack(rest) == Ok(ys)
    ensures ParsedTrack(line + "\n" + rest) == Ok(xs + ys)
  {
    TrackOfFirstLineAndRest(line, rest);
  }

  /** Three lines without line breaks parse as their instructions in line order. */
  lemma ThreeLineTrack(l1: string, l2: string, l3: string, xs1: seq<Instruction>, xs2: seq<Instruction>, xs3: seq<Instruction>)
    requires '\n' !in l1 && '\n' !in l2 && '\n' !in l3
    requires ParsedLine(l1) == Ok(xs1) && ParsedLine(l2) == Ok(xs2) && ParsedLine(l3) == Ok(xs3)
    ensures ParsedTrack(l1 + "\n" + (l2 + "\n" + l3)) == Ok(xs1 + (xs2 + xs3))
  {
    LastLine(l3);
    LineThenTrack(l2, l3, xs2, xs3);
    LineThenTrack(l1, l2 + "\n" + l3, xs1, xs2 + xs3);
  }

  /** Indenting a line adds no line break. */
  lemma IndentKeepsOutBreaks(n: nat, line: string)
    requires '\n' !in line
    ensures '\n' !in seq(n, _ => ' ') + line
  {
    var indented := seq(n, _ => ' ') + line;
    assert forall k :: 0 <= k < |indented| ==> indented[k] == ' ' || indented[k] in line;
  }

  /** An indented line has no line break and parses as the line itself. */
  lemma IndentedLineOf(n: nat, line: string, xs: seq<Instruction>)
    requires '\n' !in line && ParsedLine(line) == Ok(xs)
    ensures '\n' !in seq(n, _ => ' ') + line && ParsedLine(seq(n, _ => ' ') + line) == Ok(xs)
  {
    IndentedLine(n, line);
    IndentKeepsOutBreaks(n, line);
  }

  /** A line that yields nothing between two lines adds nothing to the track. */
  lemma EmptyLineBetween(l1: string, l2: string, l3: string, xs1: seq<Instruction>, xs3: seq<Instruction>)
    requires '\n' !in l1 && '\n' !in l2 && '\n' !in l3 && ParsedLine(l2) == Ok([])
    requires ParsedLine(l1) == Ok(xs1) && ParsedLine(l3) == Ok(xs3)
    ensures ParsedTrack(l1 + "\n" + (l2 + "\n" + l3)) == Ok(xs1 + xs3)
  {
    ThreeLineTrack(l1, l2, l3, xs1, [], xs3);
    assert [] + xs3 == xs3;
  }

  /**
   * The shape of the blank-line test: a line, a blank line, then an indented line. The blank
   * line adds nothing and the indentation changes nothing.
   */
  lemma LineBlankIndentedLine(l1: string, blank: string, l3: string, n: nat, xs1: seq<Instruction>, xs3: seq<Instruction>)
    requires '\n' !in l1 && '\n' !in blank && '\n' !in l3 && IsBlank(blank)
    requires ParsedLine(l1) == Ok(xs1) && ParsedLine(l3) == Ok(xs3)
    ensures ParsedTrack(l1 + "\n" + (blank + "\n" + (seq(n, _ => ' ') + l3))) == Ok(xs1 + xs3)
  {
    IndentedLineOf(n, l3, xs3);
    BlankLineYieldsNothing(blank);
    EmptyLineBetween(l1, blank, seq(n, _ => ' ') + l3, xs1, xs3);
  }

  /**
   * The shape of the multi-line test: a line and two lines indented alike, in that order.
   */
  lemma LineAndIndentedLines(l1: string, l2: string, l3: string, n: nat, xs1: seq<Instruction>, xs2: seq<Instruction>, xs3: seq<Instruction>)
    requires '\n' !in l1 && '\n' !in l2 && '\n' !in l3
    requires ParsedLine(l1) == Ok(xs1) && ParsedLine(l2) == Ok(xs2) && ParsedLine(l3) == Ok(xs3)
    ensures ParsedTrack(l1 + "\n" + ((seq(n, _ => ' ') + l2) + "\n" + (seq(n, _ => ' ') + l3))) == Ok(xs1 + (xs2 + xs3))
  {
    IndentedLineOf(n, l2, xs2);
    IndentedLineOf(n, l3, xs3);
    ThreeLineTrack(l1, seq(n, _ => ' ') + l2, seq(n, _ => ' ') + l3, xs1, xs2, xs3);
  }

  // ---------------------------------------------------------------------------------------
  // The test suite's lines
  // ---------------------------------------------------------------------------------------

  /** `DE(a.b) VN(c.d)`: two speech instructions at those speeds. */
  lemma TwoSpeechLine(line: string, w0: string, w1: string)
    requires |w0| == 7 && w0 == "DE" + ['(', w0[3], '.', w0[5], ')'] && IsDigit(w0[3]) && IsDigit(w0[5])
    requires |w1| == 7 && w1 == "VN" + ['(', w1[3], '.', w1[5], ')'] && IsDigit(w1[3]) && IsDigit(w1[5])
    requires line == w0 + " " + w1
    ensures ParsedLine(line) ==
      Ok([Speech(DE, Finite(DecimalOf(w0[3], w0[5]))), Speech(VN, Finite(DecimalOf(w1[3], w1[5])))])
  {
    var words := [w0, w1];
    assert Join(words[1..], ' ') == w1;
    assert ' ' !in w0 && ' ' !in w1;
    LineOfWords(line, words);
    SpeedToken(w0, DE, w0[3], w0[5]);
    SpeedToken(w1, VN, w1[3], w1[5]);
    TwoSpeeches(words, DE, VN);
  }

  /** `DE(1.5) VN(0.7)`: two speech instructions at their own speeds. */
  lemma SpeechLine(line: string)
    requires line == "DE(1.5) VN(0.7)"
    ensures ParsedLine(line) == Ok([Speech(DE, Finite(1.5)), Speech(VN, Finite(0.7))])
  {
    TwoSpeechLine(line, "DE(1.5)", "VN(0.7)");
  }

  /** `Pause (<d>s)`: one pause of d seconds. */
  lemma PauseDigitLine(line: string, d: char)
    requires IsDigit(d) && line == "Pause " + ['(', d, 's', ')']
    ensures ParsedLine(line) == Ok([Pause((d as int - '0' as int) * 1000)])
  {
    var words := ["Pause", ['(', d, 's', ')']];
    assert Join(words[1..], ' ') == words[1];
    LineOfWords(line, words);
    PauseToken(words[0]);
    DurationToken(words[1], d);
    OnePause(words, d as int - '0' as int);
  }

  /** `Pause (5s)`: one pause of 5000 ms. */
  lemma PauseLine(line: string)
    requires line == "Pause (5s)"
    ensures ParsedLine(line) == Ok([Pause(5000)])
  {
    PauseDigitLine(line, '5');
  }

  /** `DE VN`: speech without parentheses runs at the default speed 1.0. */
  lemma BareSpeechLine(line: string)
    requires line == "DE VN"
    ensures ParsedLine(line) == Ok([Speech(DE, Finite(1.0)), Speech(VN, Finite(1.0))])
  {
    var words := ["DE", "VN"];
    assert Join(words[1..], ' ') == "VN";
    LineOfWords(line, words);
    BareToken(words[0], DE);
    BareToken(words[1], VN);
    TwoSpeeches(words, DE, VN);
  }

  /** `Pause DE`: the token after `Pause` is no duration, so it is parsed on its own. */
  lemma PauseWithoutDurationLine(line: string)
    requires line == "Pause DE"
    ensures ParsedLine(line) == Ok([Speech(DE, Finite(1.0))])
  {
    var words := ["Pause", "DE"];
    assert Join(words[1..], ' ') == "DE";
    LineOfWords(line, words);
    PauseToken(words[0]);
    BareToken(words[1], DE);
    NoParenNoMatch(words[1], IsDigit, "s)");
    assert ParseParts(words, 2) == Ok([]);
    SpeechStep(words, 1, DE);
    assert [Speech(DE, Finite(1.0))] + [] == [Speech(DE, Finite(1.0))];
    assert Step(words, 0) == Ok(Advance([], 1));
    PrependNothing(ParseParts(words, 1));
  }

  /** `DE Pause`: the line ends in `Pause`, so parsing fails. */
  lemma TrailingPauseLine(line: string)
    requires line == "DE Pause"
    ensures ParsedLine(line) == Err(PauseWithoutDuration)
  {
    var words := ["DE", "Pause"];
    assert Join(words[1..], ' ') == "Pause";
    LineOfWords(line, words);
    PauseToken(words[1]);
    BareToken(words[0], DE);
    assert ParseParts(words, 1) == Err(PauseWithoutDuration);
    SpeechStep(words, 0, DE);
  }

  /** A line that is one speech token. */
  lemma OneToken(line: string, language: Language)
    requires SpeechToken(line, language) && ' ' !in line
    ensures ParsedLine(line) == Ok([Speech(language, SpeedIn(line))])
  {
    SplitNoSeparator(line, ' ');
    assert ParseParts([line], 1) == Ok([]);
    SpeechStep([line], 0, language);
    assert [Speech(language, SpeedIn(line))] + [] == [Speech(language, SpeedIn(line))];
  }

  // ---------------------------------------------------------------------------------------
  // The test suite's first track
  // ---------------------------------------------------------------------------------------

  lemma TokenDE10(t: string)
    requires t == "DE(1.0)"
    ensures SpeechToken(t, DE) && SpeedIn(t) == Finite(1.0)
  {
    SpeedToken(t, DE, '1', '0');
  }

  lemma TokenVN08(t: string)
    requires t == "VN(0.8)"
    ensures SpeechToken(t, VN) && SpeedIn(t) == Finite(0.8)
  {
    SpeedToken(t, VN, '0', '8');
  }

  lemma SimpleWordsParse(words: seq<string>)
    requires words == ["DE(1.0)", "Pause", "(2s)", "VN(0.8)"]
    ensures ParseParts(words, 0) == Ok([Speech(DE, Finite(1.0)), Pause(2000), Speech(VN, Finite(0.8))])
  {
    TokenDE10(words[0]);
    PauseToken(words[1]);
    DurationToken(words[2], '2');
    TokenVN08(words[3]);
    SpeechPauseSpeech(words, DE, 2, VN);
  }

  lemma SimpleWordsJoin(words: seq<string>, track: string)
    requires words == ["DE(1.0)", "Pause", "(2s)", "VN(0.8)"]
    requires track == "DE(1.0) Pause (2s) VN(0.8)"
    ensures Join(words, ' ') == track && (forall w :: w in words ==> ' ' !in w && '\n' !in w)
  {
    var j3 := Join(words[3..], ' ');
    assert j3 == "VN(0.8)";
    assert words[2..][1..] == words[3..];
    var j2 := Join(words[2..], ' ');
    assert j2 == "(2s)" + " " + j3;
    assert words[1..][1..] == words[2..];
    var j1 := Join(words[1..], ' ');
    assert j1 == "Pause" + " " + j2;
    assert Join(words, ' ') == "DE(1.0)" + " " + j1;
  }

  /** `DE(1.0) Pause (2s) VN(0.8)`: speech, a two-second pause, speech. */
  lemma SimpleTrack(track: string)
    requires track == "DE(1.0) Pause (2s) VN(0.8)"
    ensures ParsedTrack(track) == Ok([Speech(DE, Finite(1.0)), Pause(2000), Speech(VN, Finite(0.8))])
  {
    var words := ["DE(1.0)", "Pause", "(2s)", "VN(0.8)"];
    SimpleWordsJoin(words, track);
    OneLineOfWords(track, words);
    SimpleWordsParse(words);
  }
}
