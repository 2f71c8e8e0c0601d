# Vocabulary trainer core, modelled in Dafny

The system is a German–Vietnamese vocabulary trainer. It is an Express server with a browser front end. Its core is modelled here as follows.

- **Track parser** (`TrackParser`). A track is a text program of instructions such as `DE(1.0) Pause (2s) VN(0.8)`. Lines are split on `\n` and tokens on single spaces. `Pause` takes the next token's `(<digits>s)` as its duration in milliseconds. A token starting with `DE` or `VN` is speech at the speed in its first `(<digits and dots>)` group, or at 1.0. Any other token is skipped. A `Pause` as the last token of a line throws, because the source reads past the end of the tokens. `parseLine` and `parseTrack` are loop methods proved against the recursive functions `ParsedLine` and `ParsedTrack`. `TrackExamples` proves the test suite's cases on the model.
- **Speech service** (`TtsService`). `TTSService` is a class whose setters change its language code, speaking rate and voice and return the same instance. `GenerateSpeech` caches synthesised files by their parameters. The speech provider is a parameter, a predicate that says whether a request for a key succeeds. The class records every request sent to it and the set of cached keys.
- **Speech routes** (`TtsLists`, `TtsRoutes`):
  - the list index (`/lists`) and list details (`/list/:filename`), with the database and the vocabulary directory as parameters;
  - `/generate-word`, `/generate/:filename` and `/generate-track`, as methods on the shared service, each proved equal to a pure specification of its response and of the service's new state.
- **Vocabulary routes** (`VocabularyRoutes`). These are the validation and the status codes of save, list, get, update and delete. The database operations are function parameters whose results are `Result` values.
- **Import utility** (`ImportUtil`). This imports JSON files into the list store.
  - The store is a map from list names to entries. It may be unavailable, with a message.
  - `Importer.ImportDirectory` imports a directory's `.json` files in listing order, as a loop proved against `ImportDirectorySpec`.
- **Browser audio player** (`AudioPlayer`). `AudioPlayerManager` is a class over:
  - its cache of audio URLs;
  - a list cursor (`currentPlayIndex`);
  - a track cursor (`currentTrackIndex`, `currentSequenceIndex`).

  Each callback-driven step returns the action it starts: play, wait, play then wait, complete, or nothing. The run of steps is proved to play exactly the cached words, and every track item, in order.

`Json` models the JavaScript values the core inspects. It covers truthiness, `||`, and property reads that throw on `null` and `undefined`. `JsStrings` models the string built-ins the core calls (`trim`, `split`, `indexOf`, `replace` with a literal pattern, `path.basename`, `toUpperCase`). `Media` holds the shared records (instructions, speech keys, track items).

## Model

| member | source | states |
|---|---|---|
| JsStrings.TrimIsInfix | app/utils/track-parser.js:30 | `trim` leaves an infix of the string whose ends are not whitespace, having removed only whitespace |
| JsStrings.TrimEmptyIffBlank | app/utils/track-parser.js:9 | a string trims to `''` exactly when it is whitespace only (the blank-line filter) |
| JsStrings.NonWhitespaceInTrim | app/routes/vocabulary.js:16-21 | every non-whitespace character survives `trim` |
| JsStrings.TrimStartIsSuffix | app/utils/track-parser.js:30 | the leading-whitespace part of `trim` drops a whitespace prefix and stops at the first other character |
| JsStrings.TrimEndIsPrefix | app/utils/track-parser.js:30 | the trailing-whitespace part of `trim` drops a whitespace suffix and stops at the last other character |
| JsStrings.Split | app/utils/track-parser.js:26 | `split(' ')` yields at least one piece, and no piece contains the separator |
| JsStrings.JoinSplit | app/utils/track-parser.js:26 | joining the pieces of a split gives back the string |
| JsStrings.SplitJoin | app/utils/track-parser.js:9 | splitting a join of separator-free pieces gives back the pieces |
| JsStrings.SplitNoSeparator | app/utils/track-parser.js:9 | a string without the separator is one piece |
| JsStrings.SplitAfterHead | app/utils/track-parser.js:9 | splitting `head + sep + tail` yields `head`, then the pieces of `tail` |
| JsStrings.JoinAppend | app/utils/track-parser.js:9 | joining two runs of pieces joins their joins with a separator |
| JsStrings.SplitLeadingSeparators | app/utils/track-parser.js:26 | n leading spaces split off as n empty tokens |
| JsStrings.SplitKeepsCharacterClass | app/utils/track-parser.js:26 | a property every character of the string has is had by every character of every piece |
| JsStrings.IndexOfFrom | app/routes/tts.js:68 | `indexOf` finds an occurrence at or after the start, and none lies before it; nothing is found only when there is no occurrence |
| JsStrings.ReplaceFirst | app/routes/tts.js:68 | a literal `replace` with an occurrence at `i` and none before it gives the text before `i`, the replacement, then the text after that occurrence; with no occurrence anywhere it gives the string back |
| JsStrings.ReplaceJsonExtension | app/routes/tts.js:39 | `name.json` with no other `.json` becomes `name` |
| JsStrings.StripTrailingSlashes | app/database/utils/import-util.js:55-56 | the result is a prefix of the path that does not end in `/`, and every character removed is a `/` |
| JsStrings.LastSegment | app/database/utils/import-util.js:55-56 | the last segment is a suffix without `/`, preceded by `/` when it is not the whole path |
| JsStrings.Basename | app/database/utils/import-util.js:55-56 | `path.basename` is the `/`-free segment that ends where the trailing slashes begin and starts just after the `/` before it, or at the start |
| JsStrings.BasenameOfJoin | app/database/utils/import-util.js:118-119 | the basename of `dir + '/' + file` is `file` for a plain file name |
| JsStrings.LastSegmentOfSuffix | app/database/utils/import-util.js:118-119 | the last segment of `head + '/' + file` is `file` |
| JsStrings.ToUpperCase | app/services/tts-service.js:103 | upper-casing keeps the length and maps each character by itself |
| Json.Or | app/routes/tts.js:87-88 | `a \|\| b` is `a` when `a` is truthy, else `b` |
| Json.Property | app/routes/tts.js:86-89 | a property read throws exactly on `null` and `undefined`, and reads `length` of arrays and strings |
| TrackParser.RunLength | app/utils/track-parser.js:43 | the run stays inside the string |
| TrackParser.RunLengthIsMaximal | app/utils/track-parser.js:43 | the counted run is made of the class's characters and cannot be extended |
| TrackParser.OnlyLongestRunCloses | app/utils/track-parser.js:34-44 | only the longest run can be followed by the closing part, so backtracking finds no other match |
| TrackParser.FirstMatchFrom | app/utils/track-parser.js:34-44 | a reported match position lies at or after the start and inside the token |
| TrackParser.FirstMatchIsLeftmost | app/utils/track-parser.js:34-44 | `match` reports the leftmost match, and reports nothing only when there is no match |
| TrackParser.NoParenNoMatch | app/utils/track-parser.js:44 | a token without `(` has no speed group, so its speed is 1.0 |
| TrackParser.ParseFloatDecimal | app/utils/track-parser.js:43-44 | `parseFloat` of digits, a dot and digits is the whole part plus the decimals after the point |
| TrackParser.DurationOfDigits | app/utils/track-parser.js:34-36 | a `(<digits>s)` token holds a duration of that many seconds |
| TrackParser.PrependTwice | app/utils/track-parser.js:14 | appending two instruction runs in turn is appending their concatenation |
| TrackParser.Turn | app/utils/track-parser.js:30-51 | one turn of the loop consumes at least one and at most the remaining tokens |
| TrackParser.Step | app/utils/track-parser.js:30-51 | a successful turn moves the index forward and stays within the tokens |
| TrackParser.StepFacts | app/utils/track-parser.js:32-51 | one token fails only as a trailing `Pause`, yields at most one instruction, pauses are whole seconds, and two tokens are consumed only by a pause with a duration |
| TrackParser.PartsStep | app/utils/track-parser.js:29-52 | parsing from a token is that token's step, then the rest |
| TrackParser.NonBlank | app/utils/track-parser.js:9 | the filter keeps only lines of the input that do not trim to `''`, never more lines than given |
| TrackParser.LinesStep | app/utils/track-parser.js:12-15 | parsing lines is the first line's instructions, then the rest's |
| TrackParser.ReadToken | app/utils/track-parser.js:30-51 | the body of one loop turn, including the index bump past a duration, computes exactly the turn `Step` specifies, and throws on a trailing `Pause` |
| TrackParser.ParseLine | app/utils/track-parser.js:25-55 | the loop with its index bump returns (or throws) what `ParsedLine` specifies |
| TrackParser.ParseTrack | app/utils/track-parser.js:8-18 | the loop over non-blank lines returns (or throws) what `ParsedTrack` specifies |
| TrackParser.PartsBound | app/utils/track-parser.js:29-52 | tokens yield at most one instruction each |
| TrackParser.LineBound | app/utils/track-parser.js:25-55 | a line yields no more instructions than it has tokens |
| TrackParser.AppendWholeSeconds | app/utils/track-parser.js:14 | concatenating whole-second pause runs keeps whole seconds |
| TrackParser.PartsWholeSeconds | app/utils/track-parser.js:36-37 | every pause a line yields is a multiple of 1000 ms |
| TrackParser.LinesWholeSeconds | app/utils/track-parser.js:12-15 | every pause from a run of lines is a multiple of 1000 ms |
| TrackParser.TrackPausesAreWholeSeconds | app/utils/track-parser.js:36-37 | every pause of a parsed track is a multiple of 1000 ms |
| TrackParser.StepOnBlank | app/utils/track-parser.js:30-40 | a token that trims to `''` is skipped without output |
| TrackParser.BlankTokensYieldNothing | app/utils/track-parser.js:29-52 | a run of blank tokens adds nothing |
| TrackParser.PartsSame | app/utils/track-parser.js:29-52 | parsing from a token yields the same result for any two token lists that agree from that token on |
| TrackParser.PartsShift | app/utils/track-parser.js:29-52 | parsing from a token does not depend on earlier tokens |
| TrackParser.IndentedLine | app/utils/track-parser.js:26-30 | leading spaces change nothing, which is why the test's indented lines parse |
| TrackParser.BlankLineYieldsNothing | app/utils/track-parser.js:9 | a whitespace-only line yields nothing, so the blank-line filter changes no result |
| TrackParser.BlankHead | app/utils/track-parser.js:9 | dropping a blank first line changes nothing |
| TrackParser.NonBlankParsesAlike | app/utils/track-parser.js:9-17 | parsing the filtered lines equals parsing all lines |
| TrackParser.TrackIsAllLines | app/utils/track-parser.js:8-18 | a track's instructions are all its lines' instructions in order |
| TrackParser.TrackOfFirstLineAndRest | app/utils/track-parser.js:8-18 | a line then a track gives the line's instructions first |
| TrackParser.PauseTokenHasNoMatch | app/utils/track-parser.js:34-35 | `Pause` itself holds no duration |
| TrackParser.StepBeforeTrailingPause | app/utils/track-parser.js:32-39 | no step before a trailing `Pause` can jump past it |
| TrackParser.TrailingPauseFromAnyIndex | app/utils/track-parser.js:29-52 | parsing from any token of a line ending in `Pause` fails |
| TrackParser.TrailingPauseFails | app/utils/track-parser.js:32-34 | a line whose last token is `Pause` always throws |
| TrackExamples.SpeedToken | app/utils/track-parser.js:40-44 | `DE(d.t)` / `VN(d.t)` is speech at d.t |
| TrackExamples.BareToken | app/utils/track-parser.js:44 | bare `DE` / `VN` is speech at 1.0 |
| TrackExamples.DurationToken | app/utils/track-parser.js:34-37 | `(<d>s)` is d seconds |
| TrackExamples.PauseToken | app/utils/track-parser.js:32-34 | `Pause` is the pause keyword and no speech token |
| TrackExamples.SpeechStep | app/utils/track-parser.js:40-50 | a speech token yields one instruction, then the rest |
| TrackExamples.PauseStep | app/utils/track-parser.js:32-39 | `Pause` plus a duration yields one pause and skips the duration token |
| TrackExamples.TwoSpeeches | app/utils/track-parser.js:29-52 | two speech tokens yield two speech instructions in order |
| TrackExamples.OnePause | app/utils/track-parser.js:32-39 | `Pause` and a duration yield one pause |
| TrackExamples.SpeechPauseSpeech | app/utils/track-parser.js:29-52 | speech, pause, speech tokens yield the three instructions in order |
| TrackExamples.LineOfWords | app/utils/track-parser.js:26 | a line that is a space-join of tokens parses as those tokens |
| TrackExamples.JoinKeepsOut | app/utils/track-parser.js:9 | a character found in no piece and differing from the separator is not in the join |
| TrackExamples.LastLine | app/utils/track-parser.js:9 | a track without line breaks is its only line |
| TrackExamples.OneLineOfWords | app/utils/track-parser.js:8-18 | a one-line track of tokens parses as those tokens |
| TrackExamples.LineThenTrack | app/utils/track-parser.js:8-18 | a line then a track: the line's instructions come first |
| TrackExamples.ThreeLineTrack | app/tests/utils/track-parser.test.js:15-22 | three lines parse as their instructions in line order |
| TrackExamples.IndentKeepsOutBreaks | app/tests/utils/track-parser.test.js:15-22 | indenting adds no line break |
| TrackExamples.IndentedLineOf | app/tests/utils/track-parser.test.js:15-22 | an indented line parses as the line itself |
| TrackExamples.EmptyLineBetween | app/tests/utils/track-parser.test.js:24-31 | an empty middle line adds nothing |
| TrackExamples.LineBlankIndentedLine | app/tests/utils/track-parser.test.js:24-31 | the shape of the empty-lines test: the blank line and indentation change nothing |
| TrackExamples.LineAndIndentedLines | app/tests/utils/track-parser.test.js:15-22 | the shape of the multi-line test: all instructions in order |
| TrackExamples.TwoSpeechLine | app/tests/utils/track-parser.test.js:35-41 | `DE(a.b) VN(c.d)` is two speech instructions at those speeds |
| TrackExamples.SpeechLine | app/tests/utils/track-parser.test.js:35-41 | `DE(1.5) VN(0.7)` parses as in the test |
| TrackExamples.PauseDigitLine | app/tests/utils/track-parser.test.js:43-48 | `Pause (<d>s)` is one pause of d seconds |
| TrackExamples.PauseLine | app/tests/utils/track-parser.test.js:43-48 | `Pause (5s)` is one pause of 5000 ms |
| TrackExamples.BareSpeechLine | app/tests/utils/track-parser.test.js:50-57 | `DE VN` is two speech instructions at 1.0 |
| TrackExamples.PauseWithoutDurationLine | app/utils/track-parser.js:32-39 | in `Pause DE`, the pause yields nothing and `DE` is parsed on its own |
| TrackExamples.TrailingPauseLine | app/utils/track-parser.js:32-34 | `DE Pause` throws |
| TrackExamples.OneToken | app/utils/track-parser.js:25-55 | a line that is one speech token is one instruction |
| TrackExamples.TokenDE10 | app/tests/utils/track-parser.test.js:5-13 | `DE(1.0)` is German at 1.0 |
| TrackExamples.TokenVN08 | app/tests/utils/track-parser.test.js:5-13 | `VN(0.8)` is Vietnamese at 0.8 |
| TrackExamples.SimpleWordsParse | app/tests/utils/track-parser.test.js:5-13 | the tokens of the simple track parse as in the test |
| TrackExamples.SimpleWordsJoin | app/tests/utils/track-parser.test.js:5-13 | the simple track is the space-join of its tokens |
| TrackExamples.SimpleTrack | app/tests/utils/track-parser.test.js:5-13 | `DE(1.0) Pause (2s) VN(0.8)` is speech, a 2000 ms pause, speech |
| TtsService.LanguageTable | app/services/tts-service.js:64-77 | the supported names map to `de-DE` or `vi-VN` |
| TtsService.Code | app/services/tts-service.js:64-77 | an instruction's tag (`DE`, `VN`) is a supported name whose code is the language's code |
| TtsService.SelectLanguageOutcome | app/services/tts-service.js:62-83 | a supported name selects its code, and anything else keeps the current language |
| TtsService.NamesAndCodes | app/tests/services/tts-service.test.js:48-74 | each accepted name (`DE`, `deutsch`, `VN`, `vietnamesisch`) and each code (`de-DE`, `vi-VN`) selects its code |
| TtsService.SelectLanguageIdempotent | app/services/tts-service.js:62-83 | setting the same language twice is setting it once |
| TtsService.InstructionLanguage | app/routes/tts.js:222-223 | a parsed instruction's language always selects its own code |
| TtsService.ClampRate | app/services/tts-service.js:87-98 | a finite rate ends in [0.25, 4.0], equal to the input when inside; NaN stays NaN |
| TtsService.ClampRateNearest | app/services/tts-service.js:89-92 | clamping moves to the nearest bound and is monotone |
| TtsService.ClampRateIdempotent | app/services/tts-service.js:87-98 | clamping twice is clamping once |
| TtsService.SelectVoice | app/services/tts-service.js:101-110 | the voice becomes the upper-cased request when that is FEMALE, MALE or NEUTRAL, and otherwise stays |
| TtsService.UpperCaseIdempotent | app/services/tts-service.js:103 | upper-casing twice is upper-casing once |
| TtsService.SelectVoiceRule | app/services/tts-service.js:101-110 | a request that spells MALE, FEMALE or NEUTRAL in any case selects that voice; any other request keeps the current voice |
| TtsService.SelectVoiceIgnoresCase | app/services/tts-service.js:101-110 | a name and its upper-case form select the same voice |
| TtsService.SelectVoiceExamples | app/tests/services/tts-service.test.js:95-106 | `female` selects FEMALE, and an unknown voice keeps the current one |
| TtsService.Synthesize | app/services/tts-service.js:122-182 | a cached key is returned without a request; otherwise exactly one request is sent, and success caches the key |
| TtsService.RepeatedRequestCallsOnce | app/tests/services/tts-service.test.js:128-139 | two identical requests reach the provider once and get the same file |
| TtsService.FailureIsRetried | app/services/tts-service.js:163-181 | a failed request is not cached, so asking again sends another request |
| TtsService.CachedStaysCached | app/services/tts-service.js:131-141 | a cached key stays cached whatever else is synthesised |
| TtsService.TTSService.constructor | app/services/tts-service.js:7-21 | defaults `de-DE`, rate 1.0, NEUTRAL, with the existing files cached and no requests sent |
| TtsService.TTSService.SetLanguage | app/services/tts-service.js:62-83 | only the language changes, to `SelectLanguage`, and the instance is returned |
| TtsService.TTSService.SetSpeed | app/services/tts-service.js:87-98 | only the rate changes, to `ClampRate`, and the instance is returned |
| TtsService.TTSService.SetVoice | app/services/tts-service.js:101-110 | only the voice changes, to `SelectVoice`, and the instance is returned |
| TtsService.TTSService.GenerateSpeech | app/services/tts-service.js:122-182 | result and new cache/request log are `Synthesize` of the old state |
| TtsService.ConfigureAndGenerate | app/routes/tts.js:110-114 | the setter chain then `generateSpeech` on one instance |
| TtsLists.Fallback | app/routes/tts.js:87-88 | `e.DE \|\| e.deutsch \|\| ''` throws exactly on a null or undefined entry |
| TtsLists.FallbackChoice | app/routes/tts.js:87-88 | the first truthy of the two properties wins, else `''` |
| TtsLists.NormalizeEntry | app/routes/tts.js:86-89 | normalising an entry throws exactly on a null or undefined entry |
| TtsLists.NormalizeAllSpec | app/routes/tts.js:86-88 | `map` fails exactly on a null entry and otherwise normalises every entry in place |
| TtsLists.KeepCompleteMembership | app/routes/tts.js:89 | a pair is kept exactly when both sides are truthy, and never more pairs than given |
| TtsLists.KeepCompleteAppend | app/routes/tts.js:89 | the filter keeps relative order |
| TtsLists.NormalizeFileSpec | app/routes/tts.js:86-89 | only an array can be mapped; its result is the filtered normalised entries |
| TtsLists.FindList | app/routes/tts.js:71 | `findOne` returns a stored list with that name, and nothing exactly when there is none |
| TtsLists.FindIn | app/routes/tts.js:80-85 | the content found is a directory file's with that name, and nothing exactly when no file has it |
| TtsLists.FindFile | app/routes/tts.js:80-83 | nothing exactly when the directory is missing or has no file of that name |
| TtsLists.ListDetailsOutcome | app/routes/tts.js:66-98 | database first, then 404 for a missing file, 500 for a parse or normalise failure, else the filtered pairs |
| TtsLists.ListNameOfJsonFile | app/routes/tts.js:68 | `stem.json` is looked up as `stem` |
| TtsLists.Names | app/routes/tts.js:30 | one name per stored list, in order |
| TtsLists.DbInfos | app/routes/tts.js:51-55 | one row per stored list: `name.json`, `name`, from the database |
| TtsLists.FileInfosMembership | app/routes/tts.js:34-46 | a file row is a `.json` file under its list name that no database list has |
| TtsLists.FileInfosAppend | app/routes/tts.js:35-46 | file rows keep the listing order |
| TtsLists.AllListsShape | app/routes/tts.js:26-63 | 500 on a database failure; otherwise database rows first, then file rows |
| TtsRoutes.VoiceArg | app/routes/tts.js:192-226 | the voice is `FEMALE` when absent and the request's string when it is one; `toUpperCase` of anything else throws |
| TtsRoutes.SpeakMatches | app/routes/tts.js:222-234 | a spoken word has the key of the chain's settings and is cached |
| TtsRoutes.SpeakSucceeds | app/routes/tts.js:222-234 | a string text with an always-answering provider is spoken |
| TtsRoutes.ResolveInstructionMatches | app/routes/tts.js:212-235 | a pause keeps its duration; speech speaks the entry's text for its language at its speed |
| TtsRoutes.ResolveSequenceMatches | app/routes/tts.js:212-236 | one item per instruction, in order, all cached |
| TtsRoutes.ResolveEntriesMatch | app/routes/tts.js:205-239 | one entry per vocabulary entry, indexed by position |
| TtsRoutes.ResolveSequenceSucceeds | app/routes/tts.js:212-236 | every instruction resolves when the texts are present and the provider answers |
| TtsRoutes.ResolveEntriesSucceed | app/routes/tts.js:205-239 | the whole vocabulary resolves under the same conditions |
| TtsRoutes.GenerateTrackBadRequest | app/routes/tts.js:194-196 | 400 exactly for missing input, before the service is touched |
| TtsRoutes.GenerateTrackResult | app/routes/tts.js:190-249 | a 200 means a string track that parses, an array vocabulary, and matching cached entries |
| TtsRoutes.GenerateTrackSucceeds | app/routes/tts.js:190-249 | good input with an answering provider gets 200 |
| TtsRoutes.SequenceFailureSticks | app/routes/tts.js:245-248 | the first failing instruction fails the request |
| TtsRoutes.EntriesFailureSticks | app/routes/tts.js:245-248 | the first failing entry fails the request |
| TtsRoutes.SpeakOn | app/routes/tts.js:222-226 | the setter chain on the shared service is `Speak` |
| TtsRoutes.ResolveOne | app/routes/tts.js:213-235 | one instruction on the service is `ResolveInstruction` |
| TtsRoutes.ResolveEntrySequence | app/routes/tts.js:212-236 | the inner loop is `ResolveSequence` |
| TtsRoutes.ResolveVocabulary | app/routes/tts.js:205-239 | the outer loop is `ResolveEntries` |
| TtsRoutes.GenerateTrack | app/routes/tts.js:190-249 | the handler's response and service state are `GenerateTrackSpec` |
| TtsRoutes.SpeakPairMatches | app/routes/tts.js:147-170 | a generated pair speaks DE then VN with the request's speed and voice, both cached |
| TtsRoutes.PairsMatchGrow | app/routes/tts.js:145-171 | matching pairs survive a growing cache |
| TtsRoutes.SpeakPairsMatch | app/routes/tts.js:145-171 | every generated pair matches its normalised entry, in order |
| TtsRoutes.SpeakPairsSucceed | app/routes/tts.js:145-171 | string pairs with an answering provider all succeed |
| TtsRoutes.GenerateListNotFound | app/routes/tts.js:131-133 | 404 exactly when the file is missing |
| TtsRoutes.GenerateListResult | app/routes/tts.js:126-182 | a 200 carries the list name and one matching entry per complete pair |
| TtsRoutes.GenerateListSucceeds | app/routes/tts.js:126-182 | a present, well-formed file with an answering provider gets 200 |
| TtsRoutes.PairsFailureSticks | app/routes/tts.js:179-181 | the first failing pair fails the request |
| TtsRoutes.SpeakPairOn | app/routes/tts.js:147-170 | one pair on the shared service is `SpeakPair` |
| TtsRoutes.SpeakPairsStep | app/routes/tts.js:145-171 | the fold over pairs is one pair, then the rest |
| TtsRoutes.SpeakAllPairs | app/routes/tts.js:145-171 | the loop is `SpeakPairs` |
| TtsRoutes.GenerateList | app/routes/tts.js:126-182 | the handler's response and service state are `GenerateListSpec` |
| TtsRoutes.LanguageArg | app/routes/tts.js:103-111 | the language default `de-DE`; the code is the requested one's or the current one |
| TtsRoutes.GenerateWordOutcome | app/routes/tts.js:101-123 | 400 exactly for a falsy text, with no change; a 200 names the cached key of text, language, clamped speed (default 0.8) and voice; a good request with an answering provider gets 200 |
| TtsRoutes.GenerateWord | app/routes/tts.js:101-123 | the handler's response and service state are `GenerateWordSpec` |
| VocabularyRoutes.ValidNameMeaning | app/routes/vocabulary.js:16-21 | a name is accepted exactly when it is a string with a non-whitespace character |
| VocabularyRoutes.ValidEntryMeaning | app/routes/vocabulary.js:31-38 | an entry is accepted exactly when it is an object with truthy `DE` and `VN` |
| VocabularyRoutes.ScanEntries | app/routes/vocabulary.js:31-38 | the `for...of` loop stops with the entry error exactly when some entry is not a truthy object with truthy `DE` and `VN`, and passes otherwise |
| VocabularyRoutes.CheckVocabulary | app/routes/vocabulary.js:23-38 | 400 for a missing or empty array, then for an invalid entry |
| VocabularyRoutes.SaveOutcome | app/routes/vocabulary.js:11-67 | 400 exactly for an invalid request (name first, then vocabulary); otherwise the trimmed name is stored and the outcome is 200, 409 or 500 |
| VocabularyRoutes.SaveRejectsBeforeDatabase | app/routes/vocabulary.js:16-38 | an invalid request never reaches the database |
| VocabularyRoutes.GetAllLists | app/routes/vocabulary.js:73-90 | the stored lists, or 500 on a database error |
| VocabularyRoutes.NamedRoutesOutcome | app/routes/vocabulary.js:96-226 | get, update and delete: 400 for a blank name, 404 for a missing list, 500 on a database error, otherwise 200 |
| VocabularyRoutes.UpdateValidatesLikeSave | app/routes/vocabulary.js:141-173 | update validates the vocabulary the same way save does |
| ImportUtil.PickField | app/database/utils/import-util.js:35-49 | `e.DE !== undefined ? e.DE : e.deutsch`, throwing on a null entry |
| ImportUtil.NormalizeImportEntry | app/database/utils/import-util.js:32-52 | a missing German or Vietnamese side is an error, German first |
| ImportUtil.ImportEntryFields | app/database/utils/import-util.js:32-52 | a normalised entry carries exactly the picked values |
| ImportUtil.NormalizeImportSpec | app/database/utils/import-util.js:32-52 | succeeds exactly when every entry does, pointwise and in order; otherwise fails with the first failing entry's error |
| ImportUtil.CreateList | app/database/utils/import-util.js:59-67 | a new name is stored; an existing name fails with the duplicate marker and no change |
| ImportUtil.UpdateList | app/database/utils/import-util.js:68-81 | the list is replaced under its name |
| ImportUtil.ImportFileOutcome | app/database/utils/import-util.js:22-90 | fails exactly on a read/parse error, a non-array, a bad entry or a store outage, with no change; otherwise creates or refreshes the list under its name with the normalised entries |
| ImportUtil.ImportFileKeepsLists | app/database/utils/import-util.js:22-90 | no list is removed, no list but the file's is added, and every other list keeps its vocabulary |
| ImportUtil.ImportListNameOfJsonFile | app/database/utils/import-util.js:55-56 | `dir/stem.json` is imported as `stem` |
| ImportUtil.JsonFiles | app/database/utils/import-util.js:105-107 | exactly the `.json` entries of the listing |
| ImportUtil.JsonFilesAppend | app/database/utils/import-util.js:105-107 | the filter keeps listing order: filtering a concatenation is concatenating the filtered parts |
| ImportUtil.ImportFilesTags | app/database/utils/import-util.js:117-124 | one result per file, tagged with its name, in order |
| ImportUtil.ImportFilesKeepLists | app/database/utils/import-util.js:117-124 | importing the files one after the other removes no list, and every successfully imported list is in the final store |
| ImportUtil.ImportDirectoryOutcome | app/database/utils/import-util.js:97-134 | a missing directory or no `.json` file is a directory error, with no change; otherwise one tagged result per `.json` file |
| ImportUtil.Importer.constructor | app/database/utils/import-util.js:97-134 | the importer starts on the given store |
| ImportUtil.Importer.ImportDirectory | app/database/utils/import-util.js:97-134 | the loop's results and new store are `ImportDirectorySpec` |
| AudioPlayer.SeparatorPosition | app/public/js/audio-player.js:31-33 | where two `_`-joined keys are equal, the shorter suffix is preceded by `_` in the longer |
| AudioPlayer.SplitAtLastSeparator | app/public/js/audio-player.js:31-33 | a key ending in a `_`-free voice determines the voice and the rest |
| AudioPlayer.CacheKeyInjective | app/public/js/audio-player.js:31-33 | keys of `_`-free speed and voice, and a `_`-free language, determine text, language, speed and voice |
| AudioPlayer.WithEntriesKeys | app/public/js/audio-player.js:41-60 | exactly the entries' DE and VN keys are added |
| AudioPlayer.WithEntriesLastWins | app/public/js/audio-player.js:41-60 | an entry's key holds the last writer's URL, VN after DE |
| AudioPlayer.WithEntriesAppend | app/public/js/audio-player.js:41-60 | adding two batches is adding their concatenation |
| AudioPlayer.Delay | app/public/js/audio-player.js:161-166 | 1000 ms after Vietnamese, 500 ms after German |
| AudioPlayer.WordKeysOrder | app/public/js/audio-player.js:130-144 | two cache keys per entry in table order: its German word's, then its Vietnamese word's |
| AudioPlayer.NextPlayable | app/public/js/audio-player.js:146-151 | the cursor moves forward to the first position with cached audio, or the end |
| AudioPlayer.NextPlayableSkipsMisses | app/public/js/audio-player.js:146-151 | all positions skipped lack audio |
| AudioPlayer.ListRunPlaysCachedWords | app/public/js/audio-player.js:127-167 | a run of `playNext` steps plays exactly the cached words, in order, each with its delay |
| AudioPlayer.NextPosition | app/public/js/audio-player.js:229-237 | the track cursor moves past exhausted sequences, forward only |
| AudioPlayer.NextPositionSkipsExhausted | app/public/js/audio-player.js:231-237 | every skipped entry has no remaining item |
| AudioPlayer.EntryCues | app/public/js/audio-player.js:239-260 | one cue per item of an entry, in order |
| AudioPlayer.TrackRunFrom | app/public/js/audio-player.js:219-261 | from an item, the run is that entry's remaining cues, then the later entries' |
| AudioPlayer.TrackRunItem | app/public/js/audio-player.js:239-260 | one step at an item cues it and moves to the next |
| AudioPlayer.TrackRunFromNext | app/public/js/audio-player.js:231-237 | from an exhausted entry, the run is the later entries' |
| AudioPlayer.TrackRunPlaysEveryItem | app/public/js/audio-player.js:219-261 | a track run plays every item of every entry in order, highlighting its entry |
| AudioPlayer.AudioPlayerManager.constructor | app/public/js/audio-player.js:5-11 | an empty cache, stopped cursors, no vocabulary and no track |
| AudioPlayer.AudioPlayerManager.SetVocabulary | app/public/js/audio-player.js:17-21 | only the vocabulary changes, and the cache is kept |
| AudioPlayer.AudioPlayerManager.AddGeneratedAudio | app/public/js/audio-player.js:41-60 | the cache becomes `WithEntries` of the old cache |
| AudioPlayer.AudioPlayerManager.PlayWord | app/public/js/audio-player.js:72-89 | a hit plays the cached URL with no generation; a miss generates once and caches under the same key |
| AudioPlayer.AudioPlayerManager.StopPlayback | app/public/js/audio-player.js:174-177 | only the playing flag is cleared |
| AudioPlayer.AudioPlayerManager.PlayNext | app/public/js/audio-player.js:127-167 | idle when stopped; otherwise skips misses, then completes at the end or highlights and plays the word, as `ListStep` states |
| AudioPlayer.AudioPlayerManager.StartPlayback | app/public/js/audio-player.js:112-120 | nothing on an empty table; otherwise the cursor starts at 0 with the given speed and voice |
| AudioPlayer.AudioPlayerManager.ListOnDone | app/public/js/audio-player.js:161-166 | while playing, the timer bumps the cursor and takes the next `ListStep`; while stopped, it bumps the cursor and changes nothing else |
| AudioPlayer.AudioPlayerManager.SetTrack | app/public/js/audio-player.js:193-198 | the new track, with the cursor at its start and playback stopped |
| AudioPlayer.AudioPlayerManager.StopTrackPlayback | app/public/js/audio-player.js:266-269 | only the track flag is cleared |
| AudioPlayer.AudioPlayerManager.PlayNextTrackItem | app/public/js/audio-player.js:219-261 | idle when stopped; otherwise skips exhausted entries, then completes or highlights and waits or plays |
| AudioPlayer.AudioPlayerManager.StartTrackPlayback | app/public/js/audio-player.js:205-212 | nothing on an empty track; otherwise the cursor starts at (0, 0) |
| AudioPlayer.AudioPlayerManager.TrackOnDone | app/public/js/audio-player.js:246-259 | while playing, the timer or `onended` bumps the sequence cursor and moves to the next item or completes; while stopped, it bumps the sequence cursor and changes nothing else |

## Left out

- File system, database, network and the Google Text-to-Speech client are parameters: directory listings and file contents, database results, and a provider predicate saying whether a request succeeds. Paths, the key file and its loading, and the audio bytes are not modelled.
- The MD5 digest of the cache file name (RFC 1321) is not modelled. A cached file is identified by its parameters (`SpeechKey`), which is the digest's input. Hash collisions are therefore out of scope.
- `generateSpeech`'s optional output file name is left out, because the routes never pass it.
- Numbers are real numbers or NaN, not IEEE doubles. `parseFloat` is modelled on the digit-and-dot strings the speed pattern captures. Number-to-string conversion in the player's cache keys is left to the caller, which passes speed and voice as strings.
- `TtsService.SelectLanguage`: `in` also accepts names inherited from `Object.prototype` (such as `toString`). The model treats only the table's own names as supported.
- `TtsRoutes.LanguageArg`: a non-string language (an array such as `["DE"]`, which `in` coerces to `"DE"`) keeps the current language in the model.
- `JsStrings.ToUpperCase` maps ASCII letters only. Other scripts are unchanged in the model.
- `TtsRoutes.GenerateWordSpec`: a request speed is modelled as a number or absent. Strings and other JSON values that `setSpeed` would coerce are not modelled.
- `TtsRoutes.GenerateList` and `TtsRoutes.GenerateListSpec`: the request speed of `/generate/:filename` is likewise a number or absent. A string or `null` speed, which `setSpeed` receives as is (`null` clamps to 0.25, `"2"` compares as 2), is not modelled.
- Every handler runs alone against the one shared `TTSService`. Requests that interleave at an `await` are not modelled: another request's setter can change the language, speed or voice between a request's setters and its `generateSpeech`, and two concurrent identical misses can both reach the provider. `TtsService.RepeatedRequestCallsOnce` therefore holds for requests that follow one another.
- `TtsService.Synthesize`: the provider is deterministic per key. A provider that answers the same request differently over time is not modelled.
- The `fromDB` field is absent on file rows in the list index. The model writes it as false.
- `ImportUtil.JoinPath` is `dir + "/" + file`. The normalisation `path.join` applies (doubled or trailing slashes, `..`) is not modelled.
- The player's `null` vocabulary and `undefined` track before the first setter are modelled as empty sequences.
- `AudioPlayer.AudioPlayerManager.PlayWord`: a rejected `generate` callback and the audio element's play errors are not modelled.
- The player's audio element, its `onended` events and timers are the environment. Each callback-driven step is a method that returns the action it starts. `onHighlight` calls are recorded in a ghost sequence, and `onComplete` is the `Complete` action. List and track playback share one audio element in the source; their interplay is not modelled.
- Error message texts of the 500 responses and of the import results are reduced to their kind. The exception is the duplicate marker `existiert bereits` and the database error prefix, which decide status codes.
- `ImportUtil.ImportFile`: the created document's `_id` is not part of the result.
- `ImportUtil.UpdateList`: the `updatedAt` timestamp is not modelled.
- The database used by the vocabulary routes is reached only through its function parameters. Its internals (MongoDB, the `vocabularyModel` module) are not part of this model.
- The multi-line, empty-lines and mixed test cases of the track parser are proved for the general shape of those tracks (`TrackExamples.LineAndIndentedLines`, `TrackExamples.LineBlankIndentedLine`, `TrackExamples.SpeechPauseSpeech`). The exact literal strings are not evaluated.
- Server start-up, static file serving, logging and the remaining front-end scripts are outside the core.
