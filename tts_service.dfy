/**
 * The text-to-speech service (app/services/tts-service.js): three settings changed by fluent
 * setters, and a file cache of synthesised speech keyed by the text and the settings. The
 * cache is the set of keys whose `tts_<digest>.mp3` file exists in the audio directory; the
 * speech provider is an opaque function that either answers or fails.
 */
module TtsService {
  import opened Wrappers
  import opened JsStrings
  import opened Json
  import opened Media

  const DefaultLanguage: string := "de-DE"
  const DefaultRate: JsNumber := Finite(1.0)
  const DefaultVoice: string := "NEUTRAL"

  const MinRate: real := 0.25
  const MaxRate: real := 4.0

  // ---------------------------------------------------------------------------------------
  // The three settings
  // ---------------------------------------------------------------------------------------

  /** The `supportedLanguages` table: language names and the codes they stand for. */
  function LanguageTable(name: string): (r: Option<string>)
    ensures r.Some? ==> r.value == "de-DE" || r.value == "vi-VN"
  {
    if name == "DE" || name == "deutsch" then Some("de-DE")
    else if name == "VN" || name == "vietnamesisch" then Some("vi-VN")
    else None
  }

  /** The language code the service uses after `setLanguage(requested)`. */
  function SelectLanguage(current: string, requested: string): string {
    match LanguageTable(requested)
    case Some(code) => code
    case None => if requested == "de-DE" || requested == "vi-VN" then requested else current
  }

  /** The language code of a parsed speech instruction's language. */
  function Code(l: Language): (r: string)
    ensures LanguageTable(Tag(l)) == Some(r)
  {
    match l
    case DE => "de-DE"
    case VN => "vi-VN"
  }

  /**
   * `setLanguage` ends on one of the two supported codes or keeps the current one, and it
   * keeps the current one exactly when the name is neither in the table nor a code.
   */
  lemma SelectLanguageOutcome(current: string, requested: string)
    ensures var r := SelectLanguage(current, requested);
      && (r == "de-DE" || r == "vi-VN" || r == current)
      && (LanguageTable(requested).None? && requested != "de-DE" && requested != "vi-VN" <==>
          forall other :: SelectLanguage(other, requested) == other)
  {
    if LanguageTable(requested).Some? || requested == "de-DE" || requested == "vi-VN" {
      var other := if SelectLanguage(current, requested) == "x" then "y" else "x";
      assert SelectLanguage(other, requested) != other;
    }
  }

  /** Each accepted name selects the same code whatever the current language is. */
  lemma NamesAndCodes(current: string)
    ensures SelectLanguage(current, "DE") == "de-DE" && SelectLanguage(current, "deutsch") == "de-DE"
    ensures SelectLanguage(current, "VN") == "vi-VN" && SelectLanguage(current, "vietnamesisch") == "vi-VN"
    ensures SelectLanguage(current, "de-DE") == "de-DE" && SelectLanguage(current, "vi-VN") == "vi-VN"
  {
  }

  /** Setting the same language twice is setting it once. */
  lemma SelectLanguageIdempotent(current: string, requested: string)
    ensures SelectLanguage(SelectLanguage(current, requested), requested) == SelectLanguage(current, requested)
  {
  }

  /** A parsed instruction's language always selects its own code. */
  lemma InstructionLanguage(current: string, l: Language)
    ensures SelectLanguage(current, Tag(l)) == Code(l)
  {
  }

  /**
   * The speaking rate after `setSpeed(speed)`: clamped to [0.25, 4.0]. NaN passes both
   * comparisons and comes back from `parseFloat` unchanged.
   */
  function ClampRate(speed: JsNumber): (r: JsNumber)
    ensures speed.NaN? <==> r.NaN?
    ensures r.Finite? ==> MinRate <= r.value <= MaxRate
    ensures speed.Finite? && MinRate <= speed.value <= MaxRate ==> r == speed
  {
    match speed
    case NaN => NaN
    case Finite(v) => if v < MinRate then Finite(MinRate) else if v > MaxRate then Finite(MaxRate) else speed
  }

  /** Clamping moves a rate to the nearest bound and keeps its order relative to other rates. */
  lemma ClampRateNearest(a: real, b: real)
    requires a <= b
    ensures ClampRate(Finite(a)).value <= ClampRate(Finite(b)).value
    ensures a < MinRate ==> ClampRate(Finite(a)) == Finite(MinRate)
    ensures a > MaxRate ==> ClampRate(Finite(a)) == Finite(MaxRate)
  {
  }

  lemma ClampRateIdempotent(speed: JsNumber)
    ensures ClampRate(ClampRate(speed)) == ClampRate(speed)
  {
  }

  predicate ValidVoice(v: string) {
    v == "MALE" || v == "FEMALE" || v == "NEUTRAL"
  }

  /** The voice after `setVoice(requested)`: the upper-cased name if it is a valid voice. */
  function SelectVoice(current: string, requested: string): (r: string)
    ensures ValidVoice(ToUpperCase(requested)) ==> r == ToUpperCase(requested)
    ensures !ValidVoice(ToUpperCase(requested)) ==> r == current
    ensures ValidVoice(current) ==> ValidVoice(r)
  {
    var upper := ToUpperCase(requested);
    if ValidVoice(upper) then upper else current
  }

  lemma {:induction false} UpperCaseIdempotent(s: string)
    ensures ToUpperCase(ToUpperCase(s)) == ToUpperCase(s)
  {
    var u := ToUpperCase(s);
    assert forall i :: 0 <= i < |u| ==> UpperChar(u[i]) == u[i];
  }

  /** `setVoice` ignores case: a name and its upper-case form select the same voice. */
  lemma SelectVoiceIgnoresCase(current: string, requested: string)
    ensures SelectVoice(current, ToUpperCase(requested)) == SelectVoice(current, requested)
  {
    UpperCaseIdempotent(requested);
  }

  /** `a` and `b` spell the same word up to the case of their letters. */
  predicate SameLetters(a: string, b: string) {
    |a| == |b| && forall i :: 0 <= i < |a| ==> UpperChar(a[i]) == UpperChar(b[i])
  }

  /**
   * The rule of `setVoice` for every request: a request that spells MALE, FEMALE or NEUTRAL
   * in any case selects that voice, and any other request keeps the current voice.
   */
  lemma SelectVoiceRule(current: string, requested: string, voice: string)
    requires ValidVoice(voice)
    ensures SameLetters(requested, voice) ==> SelectVoice(current, requested) == voice
    ensures (forall v :: ValidVoice(v) ==> !SameLetters(requested, v)) ==> SelectVoice(current, requested) == current
  {
    var upper := ToUpperCase(requested);
    if SameLetters(requested, voice) {
      assert forall i :: 0 <= i < |voice| ==> UpperChar(voice[i]) == voice[i];
      assert upper == voice;
    }
    if ValidVoice(upper) {
      assert forall i :: 0 <= i < |upper| ==> UpperChar(upper[i]) == upper[i];
      assert SameLetters(requested, upper);
    }
  }

  /** `female` selects FEMALE; an unknown name keeps the current voice. */
  lemma SelectVoiceExamples(current: string, female: string, invalid: string)
    requires female == "female" && invalid == "INVALID"
    ensures SelectVoice(current, female) == "FEMALE"
    ensures SelectVoice(current, invalid) == current
  {
    assert ToUpperCase(female) == "FEMALE";
    assert ToUpperCase(invalid) == "INVALID";
  }

  // ---------------------------------------------------------------------------------------
  // The cache decision of generateSpeech
  // ---------------------------------------------------------------------------------------

  /** The error the provider's failed request raises; `generateSpeech` rethrows it. */
  datatype ProviderError = RequestFailed

  /**
   * A snapshot of the service: its settings, the cached files (as their keys) and the
   * requests sent to the provider so far, oldest first.
   */
  datatype ServiceState = ServiceState(language: string, rate: JsNumber, voice: string,
                                       files: set<SpeechKey>, requests: seq<SpeechKey>)

  /** The parameters the file of `text` is cached under with the current settings. */
  function KeyOf(st: ServiceState, text: string): SpeechKey {
    SpeechKey(text, st.language, st.rate, st.voice)
  }

  /**
   * `generateSpeech(text)`: a cached key is answered from its file without a request; a
   * missing one sends exactly one request, and only a successful answer is written to the
   * cache. `provider(key)` says whether the provider answers a request for `key`.
   */
  function Synthesize(st: ServiceState, text: string, provider: SpeechKey -> bool): (o: (Result<AudioRef, ProviderError>, ServiceState))
    ensures var key := KeyOf(st, text);
      && o.1.language == st.language && o.1.rate == st.rate && o.1.voice == st.voice
      && (o.0.Ok? ==> o.0.value == AudioFile(key) && key in o.1.files)
      && (o.0.Err? <==> key !in st.files && !provider(key))
      && (key in st.files ==> o.1 == st)
      && (key !in st.files ==> o.1.requests == st.requests + [key])
      && o.1.files == (if o.0.Ok? then st.files + {key} else st.files)
  {
    var key := KeyOf(st, text);
    if key in st.files then (Ok(AudioFile(key)), st)
    else
      var sent := st.(requests := st.requests + [key]);
      if provider(key) then (Ok(AudioFile(key)), sent.(files := st.files + {key}))
      else (Err(RequestFailed), sent)
  }

  /** A repeated identical request reaches the provider once in total, and gets the same file. */
  lemma RepeatedRequestCallsOnce(st: ServiceState, text: string, provider: SpeechKey -> bool)
    requires Synthesize(st, text, provider).0.Ok?
    ensures var (r1, st1) := Synthesize(st, text, provider);
      var (r2, st2) := Synthesize(st1, text, provider);
      && r2 == r1 && st2 == st1
      && |st2.requests| <= |st.requests| + 1
  {
  }

  /** A failed request is not cached: asking again sends another request. */
  lemma FailureIsRetried(st: ServiceState, text: string, provider: SpeechKey -> bool)
    requires Synthesize(st, text, provider).0.Err?
    ensures var (_, st1) := Synthesize(st, text, provider);
      Synthesize(st1, text, provider).1.requests == st.requests + [KeyOf(st, text), KeyOf(st, text)]
  {
  }

  /** Once a key is cached it stays cached, whatever else is synthesised. */
  lemma CachedStaysCached(st: ServiceState, text: string, provider: SpeechKey -> bool, key: SpeechKey)
    requires key in st.files
    ensures key in Synthesize(st, text, provider).1.files
  {
  }

  // ---------------------------------------------------------------------------------------
  // The service object
  // ---------------------------------------------------------------------------------------

  class TTSService {
    var language: string
    var speakingRate: JsNumber
    var voice: string
    /** The keys whose files exist in the audio directory. */
    var files: set<SpeechKey>
    /** The requests sent to the provider, oldest first. */
    ghost var requests: seq<SpeechKey>

    ghost function State(): ServiceState
      reads this
    {
      ServiceState(language, speakingRate, voice, files, requests)
    }

    /**
     * A service with the default settings over an audio directory that already holds the
     * files of `existing` (the directory outlives the service).
     */
    constructor(existing: set<SpeechKey>)
      ensures language == DefaultLanguage && speakingRate == DefaultRate && voice == DefaultVoice
      ensures files == existing && requests == []
    {
      language := DefaultLanguage;
      speakingRate := DefaultRate;
      voice := DefaultVoice;
      files := existing;
      requests := [];
    }

    method SetLanguage(requested: string) returns (self: TTSService)
      modifies this
      ensures self == this
      ensures State() == old(State()).(language := SelectLanguage(old(language), requested))
    {
      self := this;
      match LanguageTable(requested) {
        case Some(code) =>
          language := code;
        case None =>
          if requested == "de-DE" || requested == "vi-VN" {
            language := requested;
          }
      }
    }

    method SetSpeed(speed: JsNumber) returns (self: TTSService)
      modifies this
      ensures self == this
      ensures State() == old(State()).(rate := ClampRate(speed))
    {
      if speed.Finite? && speed.value < MinRate {
        speakingRate := Finite(MinRate);
      } else if speed.Finite? && speed.value > MaxRate {
        speakingRate := Finite(MaxRate);
      } else {
        speakingRate := speed;
      }
      self := this;
    }

    method SetVoice(requested: string) returns (self: TTSService)
      modifies this
      ensures self == this
      ensures State() == old(State()).(voice := SelectVoice(old(voice), requested))
    {
      var upper := ToUpperCase(requested);
      if ValidVoice(upper) {
        voice := upper;
      }
      self := this;
    }

    method GenerateSpeech(text: string, provider: SpeechKey -> bool) returns (r: Result<AudioRef, ProviderError>)
      modifies this
      ensures (r, State()) == Synthesize(old(State()), text, provider)
    {
      var key := SpeechKey(text, language, speakingRate, voice);
      if key in files {
        return Ok(AudioFile(key));
      }
      requests := requests + [key];
      if provider(key) {
        files := files + {key};
        r := Ok(AudioFile(key));
      } else {
        r := Err(RequestFailed);
      }
    }
  }

  /** Only the setters' own fields change, and the same instance comes back for chaining. */
  method ConfigureAndGenerate(svc: TTSService, language: string, speed: JsNumber, voice: string, text: string,
                              provider: SpeechKey -> bool) returns (r: Result<AudioRef, ProviderError>)
    modifies svc
    ensures var st := old(svc.State()).(language := SelectLanguage(old(svc.language), language),
                                        rate := ClampRate(speed),
                                        voice := SelectVoice(old(svc.voice), voice));
      (r, svc.State()) == Synthesize(st, text, provider)
  {
    var s1 := svc.SetLanguage(language);
    var s2 := s1.SetSpeed(speed);
    var s3 := s2.SetVoice(voice);
    r := s3.GenerateSpeech(text, provider);
  }
}
