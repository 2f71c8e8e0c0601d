/**
 * The speech routes (app/routes/tts.js) that sit on the parser and the service: the
 * `/generate-track` resolver, which binds each parsed instruction to each vocabulary entry
 * and asks the service for its audio; the `/generate/:filename` loop over a vocabulary file;
 * the normalisation of vocabulary files; and the `/lists` merge of database and file lists.
 *
 * Request bodies are JSON values. The service is the route module's single shared instance,
 * so its settings and cache carry over from request to request, and a request that fails
 * half-way keeps the settings it had changed.
 */
module TtsRoutes {
  import opened Wrappers
  import opened JsStrings
  import opened Json
  import opened Media
  import opened TrackParser
  import opened TtsService
  import opened TtsLists

  /** Why a handler answered 500: a thrown TypeError, a parse error, or a provider failure. */
  datatype Failure = TypeFailure | ParseFailure | ProviderFailure

  /** A result together with the service state it leaves behind. */
  datatype Resolved<T> = Resolved(value: Result<T, Failure>, state: ServiceState)

  /** The `voice` of a request body, `'FEMALE'` when absent; `toUpperCase` throws on anything but a string. */
  function VoiceArg(voice: JsValue): (r: Result<string, TypeError>)
    ensures r.Ok? <==> voice.Undefined? || voice.Str?
    ensures voice.Undefined? ==> r == Ok("FEMALE")
    ensures voice.Str? ==> r == Ok(voice.s)
  {
    match voice
    case Undefined => Ok("FEMALE")
    case Str(s) => Ok(s)
    case Null => Err(CannotReadProperty("toUpperCase"))
    case _ => Err(NotAFunction("toUpperCase"))
  }

  // ---------------------------------------------------------------------------------------
  // /generate-track: specification
  // ---------------------------------------------------------------------------------------

  /**
   * The setter chain `setLanguage(l).setSpeed(speed).setVoice(voice).generateSpeech(text)` as
   * the handlers use it for one word. Each step can throw and keeps the settings already
   * changed: `toUpperCase` on a voice that is not a string, and `text.substring` (in the
   * cache log line) on a text that is not a string.
   */
  function Speak(st: ServiceState, text: JsValue, l: Language, speed: JsNumber,
                 voice: Result<string, TypeError>, provider: SpeechKey -> bool): Resolved<Word>
  {
    var st1 := st.(language := SelectLanguage(st.language, Tag(l)), rate := ClampRate(speed));
    match voice
    case Err(_) => Resolved(Err(TypeFailure), st1)
    case Ok(v) =>
      var st2 := st1.(voice := SelectVoice(st1.voice, v));
      if !text.Str? then Resolved(Err(TypeFailure), st2)
      else
        var (audio, st3) := Synthesize(st2, text.s, provider);
        match audio
        case Err(_) => Resolved(Err(ProviderFailure), st3)
        case Ok(a) => Resolved(Ok(Word(text.s, a)), st3)
  }

  /**
   * What a spoken word promises: its text is the string it was given, and its audio is the
   * file cached under that text, the language's code and the clamped speed; a voice
   * argument that names a valid voice in any case is the voice it was spoken with.
   */
  predicate WordMatches(text: JsValue, l: Language, speed: JsNumber, voice: Result<string, TypeError>, w: Word) {
    && text == Str(w.text)
    && w.audio.key.text == w.text
    && w.audio.key.language == Code(l)
    && w.audio.key.rate == ClampRate(speed)
    && (voice.Ok? && ValidVoice(ToUpperCase(voice.value)) ==> w.audio.key.voice == ToUpperCase(voice.value))
  }

  /** The cache only grows, a spoken word's file is in it, and a valid voice stays valid. */
  lemma SpeakMatches(st: ServiceState, text: JsValue, l: Language, speed: JsNumber,
                     voice: Result<string, TypeError>, provider: SpeechKey -> bool)
    ensures var r := Speak(st, text, l, speed, voice, provider);
      && st.files <= r.state.files
      && (ValidVoice(st.voice) ==> ValidVoice(r.state.voice))
      && (r.value.Ok? ==> WordMatches(text, l, speed, voice, r.value.value) && r.value.value.audio.key in r.state.files)
      && (r.value.Ok? && ValidVoice(st.voice) ==> ValidVoice(r.value.value.audio.key.voice))
  {
    InstructionLanguage(st.language, l);
  }

  /** Every string is spoken when the provider answers every request and the voice is a string. */
  lemma SpeakSucceeds(st: ServiceState, s: string, l: Language, speed: JsNumber, v: string, provider: SpeechKey -> bool)
    requires forall key :: provider(key)
    ensures Speak(st, Str(s), l, speed, Ok(v), provider).value.Ok?
  {
  }

  /**
   * One instruction for one entry. A pause is copied. A speech instruction reads the entry's
   * text for its language (`entry.DE` or `entry.VN`) and speaks it.
   */
  function ResolveInstruction(st: ServiceState, entry: JsValue, voice: Result<string, TypeError>,
                              ins: Instruction, provider: SpeechKey -> bool): Resolved<TrackItem>
  {
    match ins
    case Pause(d) => Resolved(Ok(PauseItem(d)), st)
    case Speech(l, speed) =>
      match Property(entry, Tag(l))
      case Err(_) => Resolved(Err(TypeFailure), st)
      case Ok(text) =>
        var w := Speak(st, text, l, speed, voice, provider);
        match w.value
        case Err(e) => Resolved(Err(e), w.state)
        case Ok(word) => Resolved(Ok(SpeechItem(word.text, l, speed, word.audio)), w.state)
  }

  /** The sequence of one entry: the instructions in order, stopping at the first failure. */
  function ResolveSequence(st: ServiceState, entry: JsValue, voice: Result<string, TypeError>,
                           ins: seq<Instruction>, provider: SpeechKey -> bool): Resolved<seq<TrackItem>>
    decreases |ins|
  {
    if |ins| == 0 then Resolved(Ok([]), st)
    else
      var prev := ResolveSequence(st, entry, voice, ins[..|ins| - 1], provider);
      match prev.value
      case Err(_) => prev
      case Ok(items) =>
        var next := ResolveInstruction(prev.state, entry, voice, ins[|ins| - 1], provider);
        match next.value
        case Err(e) => Resolved(Err(e), next.state)
        case Ok(item) => Resolved(Ok(items + [item]), next.state)
  }

  /** The track entries of a vocabulary, in order, each indexed by its position. */
  function ResolveEntries(st: ServiceState, vocab: seq<JsValue>, voice: Result<string, TypeError>,
                          ins: seq<Instruction>, provider: SpeechKey -> bool): Resolved<seq<TrackEntry>>
    decreases |vocab|
  {
    if |vocab| == 0 then Resolved(Ok([]), st)
    else
      var prev := ResolveEntries(st, vocab[..|vocab| - 1], voice, ins, provider);
      match prev.value
      case Err(_) => prev
      case Ok(entries) =>
        var next := ResolveSequence(prev.state, vocab[|vocab| - 1], voice, ins, provider);
        match next.value
        case Err(e) => Resolved(Err(e), next.state)
        case Ok(items) => Resolved(Ok(entries + [TrackEntry(|vocab| - 1, items)]), next.state)
  }

  datatype TrackResponse = TrackBadRequest | TrackServerError | TrackOk(name: JsValue, entries: seq<TrackEntry>)

  /** `!track || !vocabulary || vocabulary.length === 0`. */
  predicate MissingTrackInput(track: JsValue, vocabulary: JsValue) {
    !Truthy(track) || !Truthy(vocabulary) || Property(vocabulary, "length") == Ok(Num(0.0))
  }

  /**
   * The `/generate-track` handler. Missing input is refused before anything else; then the
   * track is parsed once (only a string has `split`), the vocabulary is walked (only an array
   * has `entries()`), and the one instruction list is applied to every entry.
   */
  function GenerateTrackSpec(st: ServiceState, track: JsValue, vocabulary: JsValue, listName: JsValue,
                             voice: JsValue, provider: SpeechKey -> bool): (TrackResponse, ServiceState)
  {
    if MissingTrackInput(track, vocabulary) then (TrackBadRequest, st)
    else if !track.Str? then (TrackServerError, st)
    else match ParsedTrack(track.s)
      case Err(_) => (TrackServerError, st)
      case Ok(ins) =>
        if !vocabulary.Arr? then (TrackServerError, st)
        else
          var r := ResolveEntries(st, vocabulary.items, VoiceArg(voice), ins, provider);
          match r.value
          case Err(_) => (TrackServerError, r.state)
          case Ok(entries) => (TrackOk(listName, entries), r.state)
  }

  // ---------------------------------------------------------------------------------------
  // /generate-track: what a response promises
  // ---------------------------------------------------------------------------------------

  /**
   * One item for one instruction: a pause keeps its duration; a speech item keeps the
   * language and speed and speaks the entry's text for that language.
   */
  predicate ItemMatches(entry: JsValue, voice: Result<string, TypeError>, ins: Instruction, item: TrackItem) {
    match ins
    case Pause(d) => item == PauseItem(d)
    case Speech(l, speed) =>
      && item.SpeechItem? && item.language == l && item.speed == speed
      && Property(entry, Tag(l)).Ok?
      && WordMatches(Property(entry, Tag(l)).value, l, speed, voice, Word(item.text, item.audio))
  }

  /** One item per instruction, in the instructions' order. */
  predicate SequenceMatches(entry: JsValue, voice: Result<string, TypeError>, ins: seq<Instruction>, items: seq<TrackItem>) {
    |items| == |ins| && forall i :: 0 <= i < |ins| ==> ItemMatches(entry, voice, ins[i], items[i])
  }

  /** One track entry per vocabulary entry, in order, indexed by position, all from the same instructions. */
  predicate EntriesMatch(vocab: seq<JsValue>, voice: Result<string, TypeError>, ins: seq<Instruction>, entries: seq<TrackEntry>) {
    && |entries| == |vocab|
    && forall k :: 0 <= k < |vocab| ==> entries[k].index == k && SequenceMatches(vocab[k], voice, ins, entries[k].sequence)
  }

  /** Every spoken item's file is in the cache. */
  predicate Cached(items: seq<TrackItem>, files: set<SpeechKey>) {
    forall i :: 0 <= i < |items| && items[i].SpeechItem? ==> items[i].audio.key in files
  }

  /** Every speech instruction of `ins` finds a string for its language in `entry`. */
  predicate SpokenTextsPresent(entry: JsValue, ins: seq<Instruction>) {
    forall i :: 0 <= i < |ins| && ins[i].Speech? ==>
      Property(entry, Tag(ins[i].language)).Ok? && Property(entry, Tag(ins[i].language)).value.Str?
  }

  lemma ResolveInstructionMatches(st: ServiceState, entry: JsValue, voice: Result<string, TypeError>,
                                  ins: Instruction, provider: SpeechKey -> bool)
    ensures var r := ResolveInstruction(st, entry, voice, ins, provider);
      && st.files <= r.state.files
      && (ValidVoice(st.voice) ==> ValidVoice(r.state.voice))
      && (r.value.Ok? ==> ItemMatches(entry, voice, ins, r.value.value) && Cached([r.value.value], r.state.files))
  {
    match ins
    case Pause(_) =>
    case Speech(l, speed) =>
      if Property(entry, Tag(l)).Ok? {
        SpeakMatches(st, Property(entry, Tag(l)).value, l, speed, voice, provider);
      }
  }

  lemma {:induction false} ResolveSequenceMatches(st: ServiceState, entry: JsValue, voice: Result<string, TypeError>,
                                                  ins: seq<Instruction>, provider: SpeechKey -> bool)
    ensures var r := ResolveSequence(st, entry, voice, ins, provider);
      && st.files <= r.state.files
      && (ValidVoice(st.voice) ==> ValidVoice(r.state.voice))
      && (r.value.Ok? ==> SequenceMatches(entry, voice, ins, r.value.value) && Cached(r.value.value, r.state.files))
    decreases |ins|
  {
    if |ins| > 0 {
      var prev := ResolveSequence(st, entry, voice, ins[..|ins| - 1], provider);
      ResolveSequenceMatches(st, entry, voice, ins[..|ins| - 1], provider);
      if prev.value.Ok? {
        ResolveInstructionMatches(prev.state, entry, voice, ins[|ins| - 1], provider);
      }
    }
  }

  lemma {:induction false} ResolveEntriesMatch(st: ServiceState, vocab: seq<JsValue>, voice: Result<string, TypeError>,
                                               ins: seq<Instruction>, provider: SpeechKey -> bool)
    ensures var r := ResolveEntries(st, vocab, voice, ins, provider);
      && st.files <= r.state.files
      && (ValidVoice(st.voice) ==> ValidVoice(r.state.voice))
      && (r.value.Ok? ==> EntriesMatch(vocab, voice, ins, r.value.value)
                          && forall k :: 0 <= k < |r.value.value| ==> Cached(r.value.value[k].sequence, r.state.files))
    decreases |vocab|
  {
    if |vocab| > 0 {
      var init := vocab[..|vocab| - 1];
      var prev := ResolveEntries(st, init, voice, ins, provider);
      ResolveEntriesMatch(st, init, voice, ins, provider);
      if prev.value.Ok? {
        var next := ResolveSequence(prev.state, vocab[|vocab| - 1], voice, ins, provider);
        ResolveSequenceMatches(prev.state, vocab[|vocab| - 1], voice, ins, provider);
        if next.value.Ok? {
          var entries := prev.value.value + [TrackEntry(|vocab| - 1, next.value.value)];
          assert ResolveEntries(st, vocab, voice, ins, provider) == Resolved(Ok(entries), next.state);
          forall k | 0 <= k < |vocab|
            ensures entries[k].index == k && SequenceMatches(vocab[k], voice, ins, entries[k].sequence)
            ensures Cached(entries[k].sequence, next.state.files)
          {
            if k < |init| {
              assert vocab[k] == init[k];
              assert entries[k] == prev.value.value[k];
            }
          }
        }
      }
    }
  }

  /** With a provider that always answers and a string voice, a sequence fails only for a missing text. */
  lemma {:induction false} ResolveSequenceSucceeds(st: ServiceState, entry: JsValue, v: string,
                                                   ins: seq<Instruction>, provider: SpeechKey -> bool)
    requires forall key :: provider(key)
    requires SpokenTextsPresent(entry, ins)
    ensures ResolveSequence(st, entry, Ok(v), ins, provider).value.Ok?
    decreases |ins|
  {
    if |ins| > 0 {
      var prev := ResolveSequence(st, entry, Ok(v), ins[..|ins| - 1], provider);
      ResolveSequenceSucceeds(st, entry, v, ins[..|ins| - 1], provider);
      match ins[|ins| - 1]
      case Pause(_) =>
      case Speech(l, speed) =>
        SpeakSucceeds(prev.state, Property(entry, Tag(l)).value.s, l, speed, v, provider);
    }
  }

  lemma {:induction false} ResolveEntriesSucceed(st: ServiceState, vocab: seq<JsValue>, v: string,
                                                 ins: seq<Instruction>, provider: SpeechKey -> bool)
    requires forall key :: provider(key)
    requires forall k :: 0 <= k < |vocab| ==> SpokenTextsPresent(vocab[k], ins)
    ensures ResolveEntries(st, vocab, Ok(v), ins, provider).value.Ok?
    decreases |vocab|
  {
    if |vocab| > 0 {
      var prev := ResolveEntries(st, vocab[..|vocab| - 1], Ok(v), ins, provider);
      ResolveEntriesSucceed(st, vocab[..|vocab| - 1], v, ins, provider);
      ResolveSequenceSucceeds(prev.state, vocab[|vocab| - 1], v, ins, provider);
    }
  }

  /** 400 exactly for missing input, decided before the track is parsed or the service is touched. */
  lemma GenerateTrackBadRequest(st: ServiceState, track: JsValue, vocabulary: JsValue, listName: JsValue,
                                voice: JsValue, provider: SpeechKey -> bool)
    ensures var (response, st') := GenerateTrackSpec(st, track, vocabulary, listName, voice, provider);
      && (response == TrackBadRequest <==> MissingTrackInput(track, vocabulary))
      && (response == TrackBadRequest ==> st' == st)
  {
  }

  /**
   * A successful response carries the request's list name and, for the one parsed
   * instruction list, one entry per vocabulary item whose sequence follows the instructions;
   * every file it names is cached.
   */
  lemma GenerateTrackResult(st: ServiceState, track: JsValue, vocabulary: JsValue, listName: JsValue,
                            voice: JsValue, provider: SpeechKey -> bool)
    requires GenerateTrackSpec(st, track, vocabulary, listName, voice, provider).0.TrackOk?
    ensures track.Str? && ParsedTrack(track.s).Ok? && vocabulary.Arr?
    ensures var (response, st') := GenerateTrackSpec(st, track, vocabulary, listName, voice, provider);
      && response.name == listName
      && EntriesMatch(vocabulary.items, VoiceArg(voice), ParsedTrack(track.s).value, response.entries)
      && forall k :: 0 <= k < |response.entries| ==> Cached(response.entries[k].sequence, st'.files)
  {
    ResolveEntriesMatch(st, vocabulary.items, VoiceArg(voice), ParsedTrack(track.s).value, provider);
  }

  /**
   * A track that parses, over a vocabulary whose entries hold a string for every language the
   * track speaks, succeeds when the provider answers and the voice is a string or absent.
   */
  lemma GenerateTrackSucceeds(st: ServiceState, s: string, items: seq<JsValue>, listName: JsValue,
                              voice: JsValue, provider: SpeechKey -> bool)
    requires !MissingTrackInput(Str(s), Arr(items)) && ParsedTrack(s).Ok?
    requires voice.Undefined? || voice.Str?
    requires forall key :: provider(key)
    requires forall k :: 0 <= k < |items| ==> SpokenTextsPresent(items[k], ParsedTrack(s).value)
    ensures GenerateTrackSpec(st, Str(s), Arr(items), listName, voice, provider).0.TrackOk?
  {
    ResolveEntriesSucceed(st, items, VoiceArg(voice).value, ParsedTrack(s).value, provider);
  }

  // ---------------------------------------------------------------------------------------
  // /generate-track: the handler's loops
  // ---------------------------------------------------------------------------------------

  /** A failure on a prefix of the instructions is the failure of the whole sequence. */
  lemma {:induction false} SequenceFailureSticks(st: ServiceState, entry: JsValue, voice: Result<string, TypeError>,
                                                 ins: seq<Instruction>, j: nat, provider: SpeechKey -> bool)
    requires j <= |ins| && ResolveSequence(st, entry, voice, ins[..j], provider).value.Err?
    ensures ResolveSequence(st, entry, voice, ins, provider) == ResolveSequence(st, entry, voice, ins[..j], provider)
    decreases |ins| - j
  {
    if j < |ins| {
      assert ins[..j + 1][..j] == ins[..j];
      SequenceFailureSticks(st, entry, voice, ins, j + 1, provider);
    } else {
      assert ins[..j] == ins;
    }
  }

  /** A failure on a prefix of the vocabulary is the failure of the whole request. */
  lemma {:induction false} EntriesFailureSticks(st: ServiceState, vocab: seq<JsValue>, voice: Result<string, TypeError>,
                                                ins: seq<Instruction>, k: nat, provider: SpeechKey -> bool)
    requires k <= |vocab| && ResolveEntries(st, vocab[..k], voice, ins, provider).value.Err?
    ensures ResolveEntries(st, vocab, voice, ins, provider) == ResolveEntries(st, vocab[..k], voice, ins, provider)
    decreases |vocab| - k
  {
    if k < |vocab| {
      assert vocab[..k + 1][..k] == vocab[..k];
      EntriesFailureSticks(st, vocab, voice, ins, k + 1, provider);
    } else {
      assert vocab[..k] == vocab;
    }
  }

  /** One word through the setter chain of the shared service. */
  method SpeakOn(svc: TTSService, text: JsValue, l: Language, speed: JsNumber, voice: Result<string, TypeError>,
                 provider: SpeechKey -> bool) returns (r: Result<Word, Failure>)
    modifies svc
    ensures Resolved(r, svc.State()) == Speak(old(svc.State()), text, l, speed, voice, provider)
  {
    var s := svc.SetLanguage(Tag(l));
    s := s.SetSpeed(speed);
    if voice.Err? {
      return Err(TypeFailure);
    }
    s := s.SetVoice(voice.value);
    if !text.Str? {
      return Err(TypeFailure);
    }
    var audio := s.GenerateSpeech(text.s, provider);
    if audio.Err? {
      return Err(ProviderFailure);
    }
    r := Ok(Word(text.s, audio.value));
  }

  /** One instruction for one entry, on the shared service. */
  method ResolveOne(svc: TTSService, entry: JsValue, voice: Result<string, TypeError>, ins: Instruction,
                    provider: SpeechKey -> bool) returns (r: Result<TrackItem, Failure>)
    modifies svc
    ensures Resolved(r, svc.State()) == ResolveInstruction(old(svc.State()), entry, voice, ins, provider)
  {
    match ins {
      case Pause(d) =>
        r := Ok(PauseItem(d));
      case Speech(l, speed) =>
        var text := Property(entry, Tag(l));
        if text.Err? {
          return Err(TypeFailure);
        }
        var word := SpeakOn(svc, text.value, l, speed, voice, provider);
        if word.Err? {
          return Err(word.error);
        }
        r := Ok(SpeechItem(word.value.text, l, speed, word.value.audio));
    }
  }

  /** The inner loop: every instruction for one entry. */
  method ResolveEntrySequence(svc: TTSService, entry: JsValue, voice: Result<string, TypeError>,
                              instructions: seq<Instruction>, provider: SpeechKey -> bool)
    returns (r: Result<seq<TrackItem>, Failure>)
    modifies svc
    ensures Resolved(r, svc.State()) == ResolveSequence(old(svc.State()), entry, voice, instructions, provider)
  {
    ghost var st0 := svc.State();
    var sequence: seq<TrackItem> := [];
    for j := 0 to |instructions|
      invariant ResolveSequence(st0, entry, voice, instructions[..j], provider) == Resolved(Ok(sequence), svc.State())
    {
      assert instructions[..j + 1][..j] == instructions[..j];
      var item := ResolveOne(svc, entry, voice, instructions[j], provider);
      if item.Err? {
        SequenceFailureSticks(st0, entry, voice, instructions, j + 1, provider);
        return Err(item.error);
      }
      sequence := sequence + [item.value];
    }
    assert instructions[..|instructions|] == instructions;
    r := Ok(sequence);
  }

  /** The outer loop: one track entry per vocabulary entry, in order. */
  method ResolveVocabulary(svc: TTSService, vocab: seq<JsValue>, voice: Result<string, TypeError>,
                           instructions: seq<Instruction>, provider: SpeechKey -> bool)
    returns (r: Result<seq<TrackEntry>, Failure>)
    modifies svc
    ensures Resolved(r, svc.State()) == ResolveEntries(old(svc.State()), vocab, voice, instructions, provider)
  {
    ghost var st0 := svc.State();
    var results: seq<TrackEntry> := [];
    for k := 0 to |vocab|
      invariant ResolveEntries(st0, vocab[..k], voice, instructions, provider) == Resolved(Ok(results), svc.State())
    {
      assert vocab[..k + 1][..k] == vocab[..k];
      var sequence := ResolveEntrySequence(svc, vocab[k], voice, instructions, provider);
      if sequence.Err? {
        EntriesFailureSticks(st0, vocab, voice, instructions, k + 1, provider);
        return Err(sequence.error);
      }
      results := results + [TrackEntry(k, sequence.value)];
    }
    assert vocab[..|vocab|] == vocab;
    r := Ok(results);
  }

  /** The `/generate-track` handler, on the shared service. */
  method GenerateTrack(svc: TTSService, track: JsValue, vocabulary: JsValue, listName: JsValue, voice: JsValue,
                       provider: SpeechKey -> bool) returns (response: TrackResponse)
    modifies svc
    ensures (response, svc.State()) == GenerateTrackSpec(old(svc.State()), track, vocabulary, listName, voice, provider)
  {
    if MissingTrackInput(track, vocabulary) {
      return TrackBadRequest;
    }
    if !track.Str? {
      return TrackServerError;
    }
    var instructions := ParseTrack(track.s);
    if instructions.Err? || !vocabulary.Arr? {
      return TrackServerError;
    }
    var entries := ResolveVocabulary(svc, vocabulary.items, VoiceArg(voice), instructions.value, provider);
    if entries.Err? {
      return TrackServerError;
    }
    response := TrackOk(listName, entries.value);
  }

  // ---------------------------------------------------------------------------------------
  // /generate/:filename: specification
  // ---------------------------------------------------------------------------------------

  datatype GenerateResponse =
    | GenerateNotFound
    | GenerateServerError
    | GenerateOk(name: string, entries: seq<GeneratedEntry>)

  /** The speed a request without one gets (`speed = 0.8`). */
  const DefaultListSpeed: JsNumber := Finite(0.8)

  /** One pair: its German word, then its Vietnamese word, each through the setter chain. */
  function SpeakPair(st: ServiceState, index: nat, pair: VocabPair, speed: JsNumber,
                     voice: Result<string, TypeError>, provider: SpeechKey -> bool): Resolved<GeneratedEntry>
  {
    var de := Speak(st, pair.DE, DE, speed, voice, provider);
    match de.value
    case Err(e) => Resolved(Err(e), de.state)
    case Ok(german) =>
      var vn := Speak(de.state, pair.VN, VN, speed, voice, provider);
      match vn.value
      case Err(e) => Resolved(Err(e), vn.state)
      case Ok(vietnamese) => Resolved(Ok(GeneratedEntry(index, german, vietnamese)), vn.state)
  }

  /** Every pair in order, each indexed by its position, stopping at the first failure. */
  function SpeakPairs(st: ServiceState, pairs: seq<VocabPair>, speed: JsNumber,
                      voice: Result<string, TypeError>, provider: SpeechKey -> bool): Resolved<seq<GeneratedEntry>>
    decreases |pairs|
  {
    if |pairs| == 0 then Resolved(Ok([]), st)
    else
      var prev := SpeakPairs(st, pairs[..|pairs| - 1], speed, voice, provider);
      match prev.value
      case Err(_) => prev
      case Ok(entries) =>
        var next := SpeakPair(prev.state, |pairs| - 1, pairs[|pairs| - 1], speed, voice, provider);
        match next.value
        case Err(e) => Resolved(Err(e), next.state)
        case Ok(entry) => Resolved(Ok(entries + [entry]), next.state)
  }

  /**
   * The `/generate/:filename` handler. It reads the file only (a list kept in the database
   * alone is not found here), normalises it like `/list/:filename`, and speaks every pair.
   */
  function GenerateListSpec(st: ServiceState, filename: string, dir: Option<seq<VocabFile>>, speed: Option<JsNumber>,
                            voice: JsValue, provider: SpeechKey -> bool): (GenerateResponse, ServiceState)
  {
    match FindFile(dir, filename)
    case None => (GenerateNotFound, st)
    case Some(Malformed) => (GenerateServerError, st)
    case Some(Parsed(v)) =>
      match NormalizeFile(v)
      case Err(_) => (GenerateServerError, st)
      case Ok(pairs) =>
        var r := SpeakPairs(st, pairs, speed.GetOr(DefaultListSpeed), VoiceArg(voice), provider);
        match r.value
        case Err(_) => (GenerateServerError, r.state)
        case Ok(entries) => (GenerateOk(ListName(filename), entries), r.state)
  }

  // ---------------------------------------------------------------------------------------
  // /generate/:filename: what a response promises
  // ---------------------------------------------------------------------------------------

  /**
   * A generated entry for the pair at `index`: both words are the pair's texts, spoken in
   * their languages, and both files are cached.
   */
  predicate PairMatches(index: nat, pair: VocabPair, speed: JsNumber, voice: Result<string, TypeError>,
                        files: set<SpeechKey>, e: GeneratedEntry) {
    && e.index == index
    && WordMatches(pair.DE, DE, speed, voice, e.DE) && e.DE.audio.key in files
    && WordMatches(pair.VN, VN, speed, voice, e.VN) && e.VN.audio.key in files
  }

  /** One entry per pair, in order. */
  predicate PairsMatch(pairs: seq<VocabPair>, speed: JsNumber, voice: Result<string, TypeError>,
                       files: set<SpeechKey>, entries: seq<GeneratedEntry>) {
    |entries| == |pairs| && forall k :: 0 <= k < |pairs| ==> PairMatches(k, pairs[k], speed, voice, files, entries[k])
  }

  lemma SpeakPairMatches(st: ServiceState, index: nat, pair: VocabPair, speed: JsNumber,
                         voice: Result<string, TypeError>, provider: SpeechKey -> bool)
    ensures var r := SpeakPair(st, index, pair, speed, voice, provider);
      && st.files <= r.state.files
      && (ValidVoice(st.voice) ==> ValidVoice(r.state.voice))
      && (r.value.Ok? ==> PairMatches(index, pair, speed, voice, r.state.files, r.value.value))
  {
    var de := Speak(st, pair.DE, DE, speed, voice, provider);
    SpeakMatches(st, pair.DE, DE, speed, voice, provider);
    if de.value.Ok? {
      SpeakMatches(de.state, pair.VN, VN, speed, voice, provider);
    }
  }

  /** A match against a smaller cache is a match against a larger one. */
  lemma PairsMatchGrow(pairs: seq<VocabPair>, speed: JsNumber, voice: Result<string, TypeError>,
                       files: set<SpeechKey>, more: set<SpeechKey>, entries: seq<GeneratedEntry>)
    requires files <= more && PairsMatch(pairs, speed, voice, files, entries)
    ensures PairsMatch(pairs, speed, voice, more, entries)
  {
  }

  lemma {:induction false} SpeakPairsMatch(st: ServiceState, pairs: seq<VocabPair>, speed: JsNumber,
                                           voice: Result<string, TypeError>, provider: SpeechKey -> bool)
    ensures var r := SpeakPairs(st, pairs, speed, voice, provider);
      && st.files <= r.state.files
      && (ValidVoice(st.voice) ==> ValidVoice(r.state.voice))
      && (r.value.Ok? ==> PairsMatch(pairs, speed, voice, r.state.files, r.value.value))
    decreases |pairs|
  {
    if |pairs| > 0 {
      var init := pairs[..|pairs| - 1];
      var prev := SpeakPairs(st, init, speed, voice, provider);
      SpeakPairsMatch(st, init, speed, voice, provider);
      if prev.value.Ok? {
        var next := SpeakPair(prev.state, |pairs| - 1, pairs[|pairs| - 1], speed, voice, provider);
        SpeakPairMatches(prev.state, |pairs| - 1, pairs[|pairs| - 1], speed, voice, provider);
        if next.value.Ok? {
          var entries := prev.value.value + [next.value.value];
          assert SpeakPairs(st, pairs, speed, voice, provider) == Resolved(Ok(entries), next.state);
          PairsMatchGrow(init, speed, voice, prev.state.files, next.state.files, prev.value.value);
          forall k | 0 <= k < |pairs|
            ensures PairMatches(k, pairs[k], speed, voice, next.state.files, entries[k])
          {
            if k < |init| {
              assert pairs[k] == init[k];
              assert entries[k] == prev.value.value[k];
            }
          }
        }
      }
    }
  }

  /** With a provider that always answers and a string voice, pairs of strings are all spoken. */
  lemma {:induction false} SpeakPairsSucceed(st: ServiceState, pairs: seq<VocabPair>, speed: JsNumber, v: string,
                                             provider: SpeechKey -> bool)
    requires forall key :: provider(key)
    requires forall k :: 0 <= k < |pairs| ==> pairs[k].DE.Str? && pairs[k].VN.Str?
    ensures SpeakPairs(st, pairs, speed, Ok(v), provider).value.Ok?
    decreases |pairs|
  {
    if |pairs| > 0 {
      var prev := SpeakPairs(st, pairs[..|pairs| - 1], speed, Ok(v), provider);
      SpeakPairsSucceed(st, pairs[..|pairs| - 1], speed, v, provider);
      var pair := pairs[|pairs| - 1];
      SpeakSucceeds(prev.state, pair.DE.s, DE, speed, v, provider);
      var de := Speak(prev.state, pair.DE, DE, speed, Ok(v), provider);
      SpeakSucceeds(de.state, pair.VN.s, VN, speed, v, provider);
    }
  }

  /** 404 exactly when the directory has no such file, before the service is touched. */
  lemma GenerateListNotFound(st: ServiceState, filename: string, dir: Option<seq<VocabFile>>, speed: Option<JsNumber>,
                             voice: JsValue, provider: SpeechKey -> bool)
    ensures var (response, st') := GenerateListSpec(st, filename, dir, speed, voice, provider);
      && (response == GenerateNotFound <==> dir.None? || forall f :: f in dir.value ==> f.name != filename)
      && (response == GenerateNotFound ==> st' == st)
  {
  }

  /**
   * A successful response is named after the file's list name and holds one entry per
   * complete pair of the file, in order and indexed by position, each word spoken at the
   * request's speed (0.8 when absent) and cached.
   */
  lemma GenerateListResult(st: ServiceState, filename: string, dir: Option<seq<VocabFile>>, speed: Option<JsNumber>,
                           voice: JsValue, provider: SpeechKey -> bool)
    requires GenerateListSpec(st, filename, dir, speed, voice, provider).0.GenerateOk?
    ensures FindFile(dir, filename).Some? && FindFile(dir, filename).value.Parsed?
    ensures NormalizeFile(FindFile(dir, filename).value.value).Ok?
    ensures var (response, st') := GenerateListSpec(st, filename, dir, speed, voice, provider);
      var pairs := NormalizeFile(FindFile(dir, filename).value.value).value;
      && response.name == ListName(filename)
      && PairsMatch(pairs, speed.GetOr(DefaultListSpeed), VoiceArg(voice), st'.files, response.entries)
  {
    var pairs := NormalizeFile(FindFile(dir, filename).value.value).value;
    SpeakPairsMatch(st, pairs, speed.GetOr(DefaultListSpeed), VoiceArg(voice), provider);
  }

  /**
   * A file of pairs whose texts are strings is spoken in full when the provider answers and
   * the voice is a string or absent.
   */
  lemma GenerateListSucceeds(st: ServiceState, filename: string, dir: Option<seq<VocabFile>>, speed: Option<JsNumber>,
                             voice: JsValue, provider: SpeechKey -> bool, v: JsValue)
    requires FindFile(dir, filename) == Some(Parsed(v)) && NormalizeFile(v).Ok?
    requires forall p :: p in NormalizeFile(v).value ==> p.DE.Str? && p.VN.Str?
    requires voice.Undefined? || voice.Str?
    requires forall key :: provider(key)
    ensures GenerateListSpec(st, filename, dir, speed, voice, provider).0.GenerateOk?
  {
    var pairs := NormalizeFile(v).value;
    assert forall k :: 0 <= k < |pairs| ==> pairs[k] in pairs;
    SpeakPairsSucceed(st, pairs, speed.GetOr(DefaultListSpeed), VoiceArg(voice).value, provider);
  }

  // ---------------------------------------------------------------------------------------
  // /generate/:filename: the handler's loop
  // ---------------------------------------------------------------------------------------

  /** A failure on a prefix of the pairs is the failure of the whole request. */
  lemma {:induction false} PairsFailureSticks(st: ServiceState, pairs: seq<VocabPair>, speed: JsNumber,
                                              voice: Result<string, TypeError>, k: nat, provider: SpeechKey -> bool)
    requires k <= |pairs| && SpeakPairs(st, pairs[..k], speed, voice, provider).value.Err?
    ensures SpeakPairs(st, pairs, speed, voice, provider) == SpeakPairs(st, pairs[..k], speed, voice, provider)
    decreases |pairs| - k
  {
    if k < |pairs| {
      assert pairs[..k + 1][..k] == pairs[..k];
      PairsFailureSticks(st, pairs, speed, voice, k + 1, provider);
    } else {
      assert pairs[..k] == pairs;
    }
  }

  /** One pair on the shared service: German first, then Vietnamese. */
  method SpeakPairOn(svc: TTSService, index: nat, pair: VocabPair, speed: JsNumber, voice: Result<string, TypeError>,
                     provider: SpeechKey -> bool) returns (r: Result<GeneratedEntry, Failure>)
    modifies svc
    ensures Resolved(r, svc.State()) == SpeakPair(old(svc.State()), index, pair, speed, voice, provider)
  {
    var german := SpeakOn(svc, pair.DE, DE, speed, voice, provider);
    if german.Err? {
      return Err(german.error);
    }
    var vietnamese := SpeakOn(svc, pair.VN, VN, speed, voice, provider);
    if vietnamese.Err? {
      return Err(vietnamese.error);
    }
    r := Ok(GeneratedEntry(index, german.value, vietnamese.value));
  }

  /** One more pair: its entry is appended, or its failure is the failure of the whole request. */
  lemma SpeakPairsStep(st0: ServiceState, pairs: seq<VocabPair>, k: nat, speed: JsNumber, voice: Result<string, TypeError>,
                       provider: SpeechKey -> bool, results: seq<GeneratedEntry>, r: Result<GeneratedEntry, Failure>,
                       st: ServiceState)
    requires k < |pairs|
    requires SpeakPairs(st0, pairs[..k], speed, voice, provider).value == Ok(results)
    requires SpeakPair(SpeakPairs(st0, pairs[..k], speed, voice, provider).state, k, pairs[k], speed, voice, provider) == Resolved(r, st)
    ensures r.Ok? ==> SpeakPairs(st0, pairs[..k + 1], speed, voice, provider) == Resolved(Ok(results + [r.value]), st)
    ensures r.Err? ==> SpeakPairs(st0, pairs, speed, voice, provider) == Resolved(Err(r.error), st)
  {
    assert pairs[..k + 1][..k] == pairs[..k];
    if r.Err? {
      PairsFailureSticks(st0, pairs, speed, voice, k + 1, provider);
    }
  }

  /** The loop over the normalised pairs. */
  method SpeakAllPairs(svc: TTSService, pairs: seq<VocabPair>, speed: JsNumber, voice: Result<string, TypeError>,
                       provider: SpeechKey -> bool) returns (r: Result<seq<GeneratedEntry>, Failure>)
    modifies svc
    ensures Resolved(r, svc.State()) == SpeakPairs(old(svc.State()), pairs, speed, voice, provider)
  {
    ghost var st0 := svc.State();
    var results: seq<GeneratedEntry> := [];
    for index := 0 to |pairs|
      invariant SpeakPairs(st0, pairs[..index], speed, voice, provider) == Resolved(Ok(results), svc.State())
    {
      var entry := SpeakPairOn(svc, index, pairs[index], speed, voice, provider);
      SpeakPairsStep(st0, pairs, index, speed, voice, provider, results, entry, svc.State());
      if entry.Err? {
        return Err(entry.error);
      }
      results := results + [entry.value];
    }
    assert pairs[..|pairs|] == pairs;
    r := Ok(results);
  }

  /** The `/generate/:filename` handler, on the shared service. */
  method GenerateList(svc: TTSService, filename: string, dir: Option<seq<VocabFile>>, speed: Option<JsNumber>,
                      voice: JsValue, provider: SpeechKey -> bool) returns (response: GenerateResponse)
    modifies svc
    ensures (response, svc.State()) == GenerateListSpec(old(svc.State()), filename, dir, speed, voice, provider)
  {
    var content := FindFile(dir, filename);
    if content.None? {
      return GenerateNotFound;
    }
    if content.value.Malformed? {
      return GenerateServerError;
    }
    var pairs := NormalizeFile(content.value.value);
    if pairs.Err? {
      return GenerateServerError;
    }
    var entries := SpeakAllPairs(svc, pairs.value, speed.GetOr(DefaultListSpeed), VoiceArg(voice), provider);
    if entries.Err? {
      return GenerateServerError;
    }
    response := GenerateOk(ListName(filename), entries.value);
  }

  // ---------------------------------------------------------------------------------------
  // /generate-word and /generate-freitext
  // ---------------------------------------------------------------------------------------

  /** The response of `/generate-word` and `/generate-freitext`, whose handlers are the same code. */
  datatype WordResponse = WordBadRequest | WordServerError | WordOk(audio: AudioRef)

  /** The language after `setLanguage(language)` with the request's `language`, `'de-DE'` when absent. */
  function LanguageArg(current: string, language: JsValue): (r: string)
    ensures r == "de-DE" || r == "vi-VN" || r == current
    ensures language.Undefined? ==> r == "de-DE"
    ensures language.Str? ==> r == SelectLanguage(current, language.s)
  {
    match language
    case Undefined => SelectLanguage(current, DefaultLanguage)
    case Str(s) => SelectLanguage(current, s)
    case _ => current
  }

  /** The speed a single-word request without one gets (`speed = 0.8`). */
  const DefaultWordSpeed: JsNumber := Finite(0.8)

  /**
   * The single-word handler: 400 for a falsy `text`, before the service is touched;
   * otherwise the setter chain with the request's language, speed and voice, and the
   * word's file.
   */
  function GenerateWordSpec(st: ServiceState, text: JsValue, language: JsValue, speed: Option<JsNumber>,
                            voice: JsValue, provider: SpeechKey -> bool): (WordResponse, ServiceState)
  {
    if !Truthy(text) then (WordBadRequest, st)
    else
      var st1 := st.(language := LanguageArg(st.language, language), rate := ClampRate(speed.GetOr(DefaultWordSpeed)));
      match VoiceArg(voice)
      case Err(_) => (WordServerError, st1)
      case Ok(v) =>
        var st2 := st1.(voice := SelectVoice(st1.voice, v));
        if !text.Str? then (WordServerError, st2)
        else
          var (audio, st3) := Synthesize(st2, text.s, provider);
          match audio
          case Err(_) => (WordServerError, st3)
          case Ok(a) => (WordOk(a), st3)
  }

  /**
   * 400 exactly for a falsy text, with the service untouched. A file comes back only for a
   * string text, and it is the cached file of that text under the requested language (or
   * the current one when the name is unknown), the clamped speed (0.8 when absent) and the
   * voice `setVoice` chose; with a provider that answers, a non-empty string text and a
   * string or absent voice always get their file.
   */
  lemma GenerateWordOutcome(st: ServiceState, text: JsValue, language: JsValue, speed: Option<JsNumber>,
                            voice: JsValue, provider: SpeechKey -> bool)
    ensures var (response, st') := GenerateWordSpec(st, text, language, speed, voice, provider);
      && (response == WordBadRequest <==> !Truthy(text))
      && (response == WordBadRequest ==> st' == st)
      && st.files <= st'.files
      && (response.WordOk? ==>
            && text.Str? && VoiceArg(voice).Ok?
            && response.audio.key == SpeechKey(text.s, LanguageArg(st.language, language),
                                               ClampRate(speed.GetOr(DefaultWordSpeed)),
                                               SelectVoice(st.voice, VoiceArg(voice).value))
            && response.audio.key in st'.files)
      && ((forall key :: provider(key)) && text.Str? && text.s != "" && (voice.Undefined? || voice.Str?) ==> response.WordOk?)
  {
  }

  /** `/generate-word` on the route module's shared service. */
  method GenerateWord(svc: TTSService, text: JsValue, language: JsValue, speed: Option<JsNumber>, voice: JsValue,
                      provider: SpeechKey -> bool) returns (response: WordResponse)
    modifies svc
    ensures (response, svc.State()) == GenerateWordSpec(old(svc.State()), text, language, speed, voice, provider)
  {
    if !Truthy(text) {
      return WordBadRequest;
    }
    var requested := match language
      case Undefined => DefaultLanguage
      case Str(s) => s
      case _ => "";
    if language.Undefined? || language.Str? {
      var _ := svc.SetLanguage(requested);
    }
    var _ := svc.SetSpeed(speed.GetOr(DefaultWordSpeed));
    assert svc.State() == old(svc.State()).(language := LanguageArg(old(svc.language), language),
                                             rate := ClampRate(speed.GetOr(DefaultWordSpeed)));
    match VoiceArg(voice) {
      case Err(_) =>
        return WordServerError;
      case Ok(v) =>
        var _ := svc.SetVoice(v);
    }
    if !text.Str? {
      return WordServerError;
    }
    var audio := svc.GenerateSpeech(text.s, provider);
    match audio {
      case Err(_) =>
        response := WordServerError;
      case Ok(a) =>
        response := WordOk(a);
    }
  }
}
