/**
 * Value types shared by the parser, the server-side resolver and the browser player:
 * parsed track instructions, the parameter set a speech file is cached under, and the
 * resolved track and word entries the server sends to the browser.
 */
module Media {
  import opened Json

  datatype Language = DE | VN

  /** The language tag as the source writes it (`'DE'` or `'VN'`). */
  function Tag(l: Language): string {
    match l
    case DE => "DE"
    case VN => "VN"
  }

  /** One parsed track instruction; a pause's duration is in milliseconds. */
  datatype Instruction = Speech(language: Language, speed: JsNumber) | Pause(duration: nat)

  /** The parameters a synthesised file is cached under: text, language code, speaking rate, voice. */
  datatype SpeechKey = SpeechKey(text: string, language: string, rate: JsNumber, voice: string)

  /**
   * The audio URL `/audio/tts_<digest>.mp3` the server hands out for a cached file, where the
   * digest is the MD5 of the key's parameter string; the model keeps the key itself.
   */
  datatype AudioRef = AudioFile(key: SpeechKey)

  /** One item of a resolved track sequence. */
  datatype TrackItem =
    | PauseItem(duration: nat)
    | SpeechItem(text: string, language: Language, speed: JsNumber, audio: AudioRef)

  /** The resolved track of one vocabulary entry. */
  datatype TrackEntry = TrackEntry(index: nat, sequence: seq<TrackItem>)

  /** One side of a generated vocabulary entry: the text and its audio URL. */
  datatype Word = Word(text: string, audio: AudioRef)

  /** A vocabulary entry with audio for both languages. */
  datatype GeneratedEntry = GeneratedEntry(index: nat, DE: Word, VN: Word)
}
