/**
 * The browser's audio player (app/public/js/audio-player.js): a cache from
 * `text_language_speed_voice` keys to audio URLs, and two playback cursors, one over the
 * words of a vocabulary list and one over the items of a generated track.
 *
 * The `<audio>` element and the timers are the environment. A step of a cursor runs until
 * it needs an external event and returns what it asks the environment to do (an `Action`);
 * the environment answers by calling `ListOnDone` or `TrackOnDone`, which stand for the
 * `onended` handler and the `setTimeout` callback. Highlight calls are kept in a ghost log.
 * The `onHighlight` and `onComplete` callbacks are taken to be given.
 */
module AudioPlayer {

  /** What a playback step asks of the environment. */
  datatype Action =
    | Idle                                 // nothing: the cursor is stopped or was never started
    | Complete                             // `onComplete()` after stopping
    | PlayThenWait(url: string, ms: nat)   // play `url`; when it ends, wait `ms`, then call back
    | Play(url: string)                    // play `url`; when it ends, call back
    | Wait(ms: nat)                        // call back after `ms`

  // ---------------------------------------------------------------------------------------
  // The audio cache
  // ---------------------------------------------------------------------------------------

  /** `${text}_${language}_${speed}_${voice}`, with the speed as the string it prints as. */
  function CacheKey(text: string, language: string, speed: string, voice: string): string {
    text + "_" + language + "_" + speed + "_" + voice
  }

  /** Two strings joined by `_` split back at the last `_` when the right part has none. */
  lemma {:induction false} SplitAtLastSeparator(a: string, b: string, c: string, d: string)
    requires '_' !in b && '_' !in d
    requires a + "_" + b == c + "_" + d
    ensures a == c && b == d
  {
    var s := a + "_" + b;
    SeparatorPosition(a, b, c, d);
    SeparatorPosition(c, d, a, b);
    assert b == s[|s| - |b|..];
    assert d == s[|s| - |d|..];
    assert a == s[..|a|];
    assert c == s[..|c|];
  }

  /** Where the left part's separator falls when the right parts differ in length. */
  lemma SeparatorPosition(a: string, b: string, c: string, d: string)
    requires a + "_" + b == c + "_" + d
    ensures |b| < |d| ==> d[|d| - |b| - 1] == '_'
  {
    if |b| < |d| {
      assert (c + "_" + d)[|a|] == d[|d| - |b| - 1];
    }
  }

  /**
   * Keys are distinct for distinct words as long as language, speed and voice hold no `_`
   * (the player's languages are `DE`/`VN`, voices `MALE`/`FEMALE`/`NEUTRAL`); the text may
   * hold any character.
   */
  lemma CacheKeyInjective(t1: string, l1: string, s1: string, v1: string, t2: string, l2: string, s2: string, v2: string)
    requires '_' !in l1 && '_' !in s1 && '_' !in v1 && '_' !in l2 && '_' !in s2 && '_' !in v2
    requires CacheKey(t1, l1, s1, v1) == CacheKey(t2, l2, s2, v2)
    ensures t1 == t2 && l1 == l2 && s1 == s2 && v1 == v2
  {
    SplitAtLastSeparator(t1 + "_" + l1 + "_" + s1, v1, t2 + "_" + l2 + "_" + s2, v2);
    SplitAtLastSeparator(t1 + "_" + l1, s1, t2 + "_" + l2, s2);
    SplitAtLastSeparator(t1, l1, t2, l2);
  }

  /** `if (this.generatedAudio[key])`: a stored URL counts only when it is not empty. */
  predicate Hit(cache: map<string, string>, key: string) {
    key in cache && cache[key] != ""
  }

  /** One side of an entry of a generate response: `{text, audio}`. */
  datatype AudioWord = AudioWord(text: string, audio: string)

  /** One entry of a generate response: `{DE: {text, audio}, VN: {text, audio}}`. */
  datatype AudioEntry = AudioEntry(DE: AudioWord, VN: AudioWord)

  function GermanKey(e: AudioEntry, speed: string, voice: string): string {
    CacheKey(e.DE.text, "DE", speed, voice)
  }

  function VietnameseKey(e: AudioEntry, speed: string, voice: string): string {
    CacheKey(e.VN.text, "VN", speed, voice)
  }

  /** The cache after `addGeneratedAudio(entries, speed, voice)`: each entry writes its German key, then its Vietnamese key. */
  function WithEntries(cache: map<string, string>, entries: seq<AudioEntry>, speed: string, voice: string): map<string, string>
    decreases |entries|
  {
    if |entries| == 0 then cache
    else
      var e := entries[|entries| - 1];
      WithEntries(cache, entries[..|entries| - 1], speed, voice)
        [GermanKey(e, speed, voice) := e.DE.audio][VietnameseKey(e, speed, voice) := e.VN.audio]
  }

  /** Some entry of `entries` writes `key`. */
  predicate Written(entries: seq<AudioEntry>, speed: string, voice: string, key: string) {
    exists j :: 0 <= j < |entries| && (key == GermanKey(entries[j], speed, voice) || key == VietnameseKey(entries[j], speed, voice))
  }

  /** Exactly the entries' keys are added, and every other key keeps its URL. */
  lemma {:induction false} WithEntriesKeys(cache: map<string, string>, entries: seq<AudioEntry>, speed: string, voice: string)
    ensures forall key :: key in WithEntries(cache, entries, speed, voice) <==> key in cache || Written(entries, speed, voice, key)
    ensures forall key :: key in cache && !Written(entries, speed, voice, key) ==> WithEntries(cache, entries, speed, voice)[key] == cache[key]
    decreases |entries|
  {
    if |entries| > 0 {
      var init := entries[..|entries| - 1];
      WithEntriesKeys(cache, init, speed, voice);
      forall key
        ensures Written(entries, speed, voice, key) <==>
                Written(init, speed, voice, key)
                || key == GermanKey(entries[|entries| - 1], speed, voice)
                || key == VietnameseKey(entries[|entries| - 1], speed, voice)
      {
        if Written(entries, speed, voice, key) {
          var j :| 0 <= j < |entries| && (key == GermanKey(entries[j], speed, voice) || key == VietnameseKey(entries[j], speed, voice));
          if j < |entries| - 1 {
            assert entries[j] == init[j];
          }
        }
        if Written(init, speed, voice, key) {
          var j :| 0 <= j < |init| && (key == GermanKey(init[j], speed, voice) || key == VietnameseKey(init[j], speed, voice));
          assert init[j] == entries[j];
        }
      }
    }
  }

  /**
   * Later entries overwrite earlier ones: a key holds the URL of the last entry that writes
   * it, the Vietnamese URL when that entry writes the key for both languages.
   */
  lemma {:induction false} WithEntriesLastWins(cache: map<string, string>, entries: seq<AudioEntry>, speed: string,
                                               voice: string, i: nat, key: string)
    requires i < |entries|
    requires key == GermanKey(entries[i], speed, voice) || key == VietnameseKey(entries[i], speed, voice)
    requires forall j :: i < j < |entries| ==>
               key != GermanKey(entries[j], speed, voice) && key != VietnameseKey(entries[j], speed, voice)
    ensures key in WithEntries(cache, entries, speed, voice)
    ensures WithEntries(cache, entries, speed, voice)[key] ==
              if key == VietnameseKey(entries[i], speed, voice) then entries[i].VN.audio else entries[i].DE.audio
    decreases |entries|
  {
    if i < |entries| - 1 {
      var init := entries[..|entries| - 1];
      assert init[i] == entries[i];
      forall j | i < j < |init|
        ensures key != GermanKey(init[j], speed, voice) && key != VietnameseKey(init[j], speed, voice)
      {
        assert init[j] == entries[j];
      }
      WithEntriesLastWins(cache, init, speed, voice, i, key);
    }
  }

  /** Adding entries in two batches is adding them in one. */
  lemma {:induction false} WithEntriesAppend(cache: map<string, string>, xs: seq<AudioEntry>, ys: seq<AudioEntry>,
                                             speed: string, voice: string)
    ensures WithEntries(cache, xs + ys, speed, voice) == WithEntries(WithEntries(cache, xs, speed, voice), ys, speed, voice)
    decreases |ys|
  {
    if |ys| == 0 {
      assert xs + ys == xs;
    } else {
      assert (xs + ys)[..|xs + ys| - 1] == xs + ys[..|ys| - 1];
      WithEntriesAppend(cache, xs, ys[..|ys| - 1], speed, voice);
    }
  }

  // ---------------------------------------------------------------------------------------
  // List playback: a cursor over 2·|vocabulary| word positions
  // ---------------------------------------------------------------------------------------

  /** One row of the vocabulary table. */
  datatype VocabEntry = VocabEntry(DE: string, VN: string)

  /** Position `i` is entry ⌊i/2⌋: its German word at even positions, its Vietnamese word at odd ones. */
  function SlotLanguage(i: nat): string {
    if i % 2 == 1 then "VN" else "DE"
  }

  function SlotText(vocab: seq<VocabEntry>, i: nat): string
    requires i < 2 * |vocab|
  {
    if i % 2 == 1 then vocab[i / 2].VN else vocab[i / 2].DE
  }

  /** The pause after a played word: longer after a Vietnamese word. */
  function Delay(i: nat): (ms: nat)
    ensures SlotLanguage(i) == "VN" ==> ms == 1000
    ensures SlotLanguage(i) == "DE" ==> ms == 500
  {
    if i % 2 == 1 then 1000 else 500
  }

  function SlotKey(vocab: seq<VocabEntry>, speed: string, voice: string, i: nat): string
    requires i < 2 * |vocab|
  {
    CacheKey(SlotText(vocab, i), SlotLanguage(i), speed, voice)
  }

  /** The cache keys of all word positions of a table, in playing order. */
  function WordKeys(vocab: seq<VocabEntry>, speed: string, voice: string): (keys: seq<string>)
    ensures |keys| == 2 * |vocab|
  {
    seq(2 * |vocab|, i requires 0 <= i < 2 * |vocab| => SlotKey(vocab, speed, voice, i))
  }

  /** Each entry has two keys in a row: its German word's, then its Vietnamese word's. */
  lemma WordKeysOrder(vocab: seq<VocabEntry>, speed: string, voice: string)
    ensures var keys := WordKeys(vocab, speed, voice);
      forall k :: 0 <= k < |vocab| ==>
        keys[2 * k] == CacheKey(vocab[k].DE, "DE", speed, voice) && keys[2 * k + 1] == CacheKey(vocab[k].VN, "VN", speed, voice)
  {
    var keys := WordKeys(vocab, speed, voice);
    forall k | 0 <= k < |vocab|
      ensures keys[2 * k] == CacheKey(vocab[k].DE, "DE", speed, voice)
      ensures keys[2 * k + 1] == CacheKey(vocab[k].VN, "VN", speed, voice)
    {
      assert (2 * k) / 2 == k && (2 * k + 1) / 2 == k && (2 * k + 1) % 2 == 1 && (2 * k) % 2 == 0;
    }
  }

  predicate Playable(cache: map<string, string>, keys: seq<string>, i: nat) {
    i < |keys| && Hit(cache, keys[i])
  }

  /** The first position at or after `i` with a cached URL, or the first position past the end. */
  function NextPlayable(cache: map<string, string>, keys: seq<string>, i: nat): (j: nat)
    ensures i <= j
    ensures j < |keys| ==> Playable(cache, keys, j)
    decreases |keys| - i
  {
    if i >= |keys| || Playable(cache, keys, i) then i
    else NextPlayable(cache, keys, i + 1)
  }

  /** The positions skipped on the way are exactly misses, and the search stops at the end at the latest. */
  lemma {:induction false} NextPlayableSkipsMisses(cache: map<string, string>, keys: seq<string>, i: nat)
    ensures var j := NextPlayable(cache, keys, i);
      && (forall m :: i <= m < j ==> m < |keys| && !Playable(cache, keys, m))
      && (i < |keys| ==> j <= |keys|)
    decreases |keys| - i
  {
    if i < |keys| && !Playable(cache, keys, i) {
      NextPlayableSkipsMisses(cache, keys, i + 1);
    }
  }

  /** One `playNext` from position `i`: the action and where the cursor stops. */
  function ListStep(cache: map<string, string>, keys: seq<string>, i: nat): (Action, nat) {
    var j := NextPlayable(cache, keys, i);
    if j >= |keys| then (Complete, j)
    else (PlayThenWait(cache[keys[j]], Delay(j)), j)
  }

  /** The actions of a list playback from position `i` to the end, each next step taken after the previous action. */
  function ListRun(cache: map<string, string>, keys: seq<string>, i: nat): seq<Action>
    decreases |keys| - i
  {
    var (action, j) := ListStep(cache, keys, i);
    if action == Complete then [Complete]
    else [action] + ListRun(cache, keys, j + 1)
  }

  /** The reference: every cached word from position `i` on, in order, with its pause, then completion. */
  function CachedWords(cache: map<string, string>, keys: seq<string>, i: nat): seq<Action>
    decreases |keys| - i
  {
    if i >= |keys| then [Complete]
    else if Playable(cache, keys, i) then [PlayThenWait(cache[keys[i]], Delay(i))] + CachedWords(cache, keys, i + 1)
    else CachedWords(cache, keys, i + 1)
  }

  /** A list playback left to run plays every cached word once, in table order, and then completes. */
  lemma {:induction false} ListRunPlaysCachedWords(cache: map<string, string>, keys: seq<string>, i: nat)
    ensures ListRun(cache, keys, i) == CachedWords(cache, keys, i)
    decreases |keys| - i
  {
    if i < |keys| {
      ListRunPlaysCachedWords(cache, keys, i + 1);
      if !Playable(cache, keys, i) {
        assert NextPlayable(cache, keys, i) == NextPlayable(cache, keys, i + 1);
      }
    }
  }

  // ---------------------------------------------------------------------------------------
  // Track playback: a (trackIndex, sequenceIndex) cursor over nested sequences
  // ---------------------------------------------------------------------------------------

  /** One item of a track entry's sequence as the browser receives it. */
  datatype SequenceItem = PauseStep(duration: nat) | SpeechStep(audio: string)

  function ItemAction(item: SequenceItem): Action {
    match item
    case PauseStep(d) => Wait(d)
    case SpeechStep(url) => Play(url)
  }

  /** `(a, b)` comes strictly before `(c, d)` in lexicographic order. */
  predicate Before(a: nat, b: nat, c: nat, d: nat) {
    a < c || (a == c && b < d)
  }

  /**
   * Where `playNextTrackItem` stops from `(t, s)`: it moves past exhausted sequences, to the
   * start of the next entry each time, until it finds an item or runs past the last entry.
   */
  function NextPosition(tracks: seq<seq<SequenceItem>>, t: nat, s: nat): (p: (nat, nat))
    ensures p == (t, s) || Before(t, s, p.0, p.1)
    ensures p.0 < |tracks| ==> p.1 < |tracks[p.0]|
    ensures t < |tracks| ==> p.0 <= |tracks|
    decreases |tracks| - t
  {
    if t >= |tracks| || s < |tracks[t]| then (t, s)
    else NextPosition(tracks, t + 1, 0)
  }

  /** The entries skipped on the way are exhausted: the current one from `s` on, the later ones entirely. */
  lemma {:induction false} NextPositionSkipsExhausted(tracks: seq<seq<SequenceItem>>, t: nat, s: nat)
    ensures var p := NextPosition(tracks, t, s);
      && (p.0 > t ==> s >= |tracks[t]| && p.1 == 0)
      && (forall m :: t < m < p.0 ==> m < |tracks| && |tracks[m]| == 0)
    decreases |tracks| - t
  {
    if t < |tracks| && s >= |tracks[t]| {
      NextPositionSkipsExhausted(tracks, t + 1, 0);
    }
  }

  /** One highlighted action: the entry highlighted and what is done for the item. */
  datatype Cue = Cue(entry: nat, action: Action)

  /** The cues of a track played from `(t, s)` to the end, each next step taken after the previous action. */
  function TrackRun(tracks: seq<seq<SequenceItem>>, t: nat, s: nat): seq<Cue>
    decreases |tracks| - t, (if t < |tracks| then |tracks[t]| else 0) - s
  {
    var p := NextPosition(tracks, t, s);
    if p.0 >= |tracks| then []
    else [Cue(p.0, ItemAction(tracks[p.0][p.1]))] + TrackRun(tracks, p.0, p.1 + 1)
  }

  /** The reference: an entry's items, each highlighting the entry. */
  function EntryCues(t: nat, items: seq<SequenceItem>): (r: seq<Cue>)
    ensures |r| == |items|
    ensures forall i :: 0 <= i < |items| ==> r[i] == Cue(t, ItemAction(items[i]))
  {
    if |items| == 0 then [] else [Cue(t, ItemAction(items[0]))] + EntryCues(t, items[1..])
  }

  /** The reference: the entries' cues from entry `t` on, concatenated in order. */
  function FlatCues(tracks: seq<seq<SequenceItem>>, t: nat): seq<Cue>
    decreases |tracks| - t
  {
    if t >= |tracks| then [] else EntryCues(t, tracks[t]) + FlatCues(tracks, t + 1)
  }

  /** From the middle of an entry, the rest of that entry's items come first, then the later entries. */
  lemma {:induction false} TrackRunFrom(tracks: seq<seq<SequenceItem>>, t: nat, s: nat)
    requires t < |tracks| && s <= |tracks[t]|
    ensures TrackRun(tracks, t, s) == EntryCues(t, tracks[t][s..]) + FlatCues(tracks, t + 1)
    decreases |tracks| - t, 0, |tracks[t]| - s
  {
    if s < |tracks[t]| {
      TrackRunFrom(tracks, t, s + 1);
      TrackRunItem(tracks, t, s);
      EntryCuesFrom(t, tracks[t], s);
    } else {
      assert EntryCues(t, tracks[t][s..]) == [];
      TrackRunSkip(tracks, t, s);
      TrackRunFromNext(tracks, t + 1);
      assert [] + FlatCues(tracks, t + 1) == FlatCues(tracks, t + 1);
    }
  }

  /** The cues of an entry's items from the `s`-th on: that item's cue, then the later ones. */
  lemma EntryCuesFrom(t: nat, items: seq<SequenceItem>, s: nat)
    requires s < |items|
    ensures EntryCues(t, items[s..]) == [Cue(t, ItemAction(items[s]))] + EntryCues(t, items[s + 1..])
  {
    assert items[s..][1..] == items[s + 1..];
  }

  /** An exhausted entry is skipped: the run goes on from the start of the next one. */
  lemma TrackRunSkip(tracks: seq<seq<SequenceItem>>, t: nat, s: nat)
    requires t < |tracks| && s >= |tracks[t]|
    ensures TrackRun(tracks, t, s) == TrackRun(tracks, t + 1, 0)
  {
  }

  /** An item left in the current entry is the next cue. */
  lemma TrackRunItem(tracks: seq<seq<SequenceItem>>, t: nat, s: nat)
    requires t < |tracks| && s < |tracks[t]|
    ensures TrackRun(tracks, t, s) == [Cue(t, ItemAction(tracks[t][s]))] + TrackRun(tracks, t, s + 1)
  {
  }

  /** From the start of entry `t` (or past the end), the run is the flat list of the remaining entries. */
  lemma {:induction false} TrackRunFromNext(tracks: seq<seq<SequenceItem>>, t: nat)
    ensures TrackRun(tracks, t, 0) == FlatCues(tracks, t)
    decreases |tracks| - t, 1
  {
    if t < |tracks| {
      TrackRunFrom(tracks, t, 0);
      assert tracks[t][0..] == tracks[t];
    }
  }

  /**
   * A track left to run from its start performs every item of every entry exactly once, in
   * order, highlighting the item's entry, and then completes.
   */
  lemma TrackRunPlaysEveryItem(tracks: seq<seq<SequenceItem>>)
    ensures TrackRun(tracks, 0, 0) == FlatCues(tracks, 0)
  {
    TrackRunFromNext(tracks, 0);
  }

  // ---------------------------------------------------------------------------------------
  // The player object
  // ---------------------------------------------------------------------------------------

  class AudioPlayerManager {
    /** `generatedAudio`: cache key to audio URL. */
    var generatedAudio: map<string, string>
    var isPlaying: bool
    var currentPlayIndex: nat
    /** The vocabulary table; `null` before the first `setVocabulary` is the empty table. */
    var vocabulary: seq<VocabEntry>
    var currentSpeed: string
    var currentVoice: string
    /** The sequences of the track's entries; `undefined` before the first `setTrack` is the empty track. */
    var trackEntries: seq<seq<SequenceItem>>
    var currentTrackIndex: nat
    var currentSequenceIndex: nat
    var isPlayingTrack: bool
    /** The arguments of the `onHighlight` calls so far. */
    ghost var highlights: seq<nat>
    /** The keys the generate callback of `playWord` was called for so far. */
    ghost var generated: seq<string>

    constructor()
      ensures generatedAudio == map[] && !isPlaying && currentPlayIndex == 0 && vocabulary == []
      ensures trackEntries == [] && !isPlayingTrack && highlights == [] && generated == []
    {
      generatedAudio := map[];
      isPlaying := false;
      currentPlayIndex := 0;
      vocabulary := [];
      currentSpeed := "";
      currentVoice := "";
      trackEntries := [];
      currentTrackIndex := 0;
      currentSequenceIndex := 0;
      isPlayingTrack := false;
      highlights := [];
      generated := [];
    }

    /** Replaces the vocabulary and keeps the cache, so cached audio is reused for the new list. */
    method SetVocabulary(v: seq<VocabEntry>)
      modifies this
      ensures vocabulary == v
      ensures generatedAudio == old(generatedAudio) && isPlaying == old(isPlaying) && currentPlayIndex == old(currentPlayIndex)
      ensures currentSpeed == old(currentSpeed) && currentVoice == old(currentVoice) && highlights == old(highlights)
      ensures trackEntries == old(trackEntries) && currentTrackIndex == old(currentTrackIndex)
      ensures currentSequenceIndex == old(currentSequenceIndex) && isPlayingTrack == old(isPlayingTrack)
      ensures generated == old(generated)
    {
      vocabulary := v;
    }

    /** `addGeneratedAudio(entries, speed, voice)`. */
    method AddGeneratedAudio(entries: seq<AudioEntry>, speed: string, voice: string)
      modifies this
      ensures generatedAudio == WithEntries(old(generatedAudio), entries, speed, voice)
      ensures isPlaying == old(isPlaying) && currentPlayIndex == old(currentPlayIndex) && vocabulary == old(vocabulary)
      ensures currentSpeed == old(currentSpeed) && currentVoice == old(currentVoice) && highlights == old(highlights)
      ensures trackEntries == old(trackEntries) && currentTrackIndex == old(currentTrackIndex)
      ensures currentSequenceIndex == old(currentSequenceIndex) && isPlayingTrack == old(isPlayingTrack)
      ensures generated == old(generated)
    {
      for k := 0 to |entries|
        invariant generatedAudio == WithEntries(old(generatedAudio), entries[..k], speed, voice)
        invariant isPlaying == old(isPlaying) && currentPlayIndex == old(currentPlayIndex) && vocabulary == old(vocabulary)
        invariant currentSpeed == old(currentSpeed) && currentVoice == old(currentVoice) && highlights == old(highlights)
        invariant trackEntries == old(trackEntries) && currentTrackIndex == old(currentTrackIndex)
        invariant currentSequenceIndex == old(currentSequenceIndex) && isPlayingTrack == old(isPlayingTrack)
        invariant generated == old(generated)
      {
        assert entries[..k + 1][..k] == entries[..k];
        var e := entries[k];
        generatedAudio := generatedAudio[CacheKey(e.DE.text, "DE", speed, voice) := e.DE.audio];
        generatedAudio := generatedAudio[CacheKey(e.VN.text, "VN", speed, voice) := e.VN.audio];
      }
      assert entries[..|entries|] == entries;
    }

    /**
     * `playWord`: a cached URL is played without calling `generate`; a miss calls it once
     * and caches its URL under the same key.
     */
    method PlayWord(text: string, language: string, speed: string, voice: string,
                    generate: (string, string, string, string) -> string) returns (action: Action)
      modifies this
      ensures var key := CacheKey(text, language, speed, voice);
        if Hit(old(generatedAudio), key) then
          && action == Play(old(generatedAudio)[key])
          && generatedAudio == old(generatedAudio) && generated == old(generated)
        else
          && action == Play(generate(text, language, speed, voice))
          && generatedAudio == old(generatedAudio)[key := generate(text, language, speed, voice)]
          && generated == old(generated) + [key]
      ensures isPlaying == old(isPlaying) && currentPlayIndex == old(currentPlayIndex) && vocabulary == old(vocabulary)
      ensures currentSpeed == old(currentSpeed) && currentVoice == old(currentVoice) && highlights == old(highlights)
      ensures trackEntries == old(trackEntries) && currentTrackIndex == old(currentTrackIndex)
      ensures currentSequenceIndex == old(currentSequenceIndex) && isPlayingTrack == old(isPlayingTrack)
    {
      var key := CacheKey(text, language, speed, voice);
      var url: string;
      if key in generatedAudio && generatedAudio[key] != "" {
        url := generatedAudio[key];
      } else {
        url := generate(text, language, speed, voice);
        generated := generated + [key];
        generatedAudio := generatedAudio[key := url];
      }
      action := Play(url);
    }

    /** `stopPlayback`: only the flag is cleared. */
    method StopPlayback()
      modifies this
      ensures !isPlaying
      ensures generatedAudio == old(generatedAudio) && currentPlayIndex == old(currentPlayIndex) && vocabulary == old(vocabulary)
      ensures currentSpeed == old(currentSpeed) && currentVoice == old(currentVoice) && highlights == old(highlights)
      ensures trackEntries == old(trackEntries) && currentTrackIndex == old(currentTrackIndex)
      ensures currentSequenceIndex == old(currentSequenceIndex) && isPlayingTrack == old(isPlayingTrack)
      ensures generated == old(generated)
    {
      isPlaying := false;
    }

    /**
     * `playNext`: nothing while stopped; otherwise the cursor moves past the positions without
     * cached audio, then either stops and completes at the end, or highlights the word's
     * entry and plays it with its pause.
     */
    method PlayNext() returns (action: Action)
      modifies this
      ensures !old(isPlaying) ==> action == Idle && unchanged(this)
      ensures old(isPlaying) ==>
        && (action, currentPlayIndex) == ListStep(generatedAudio, WordKeys(vocabulary, currentSpeed, currentVoice), old(currentPlayIndex))
        && isPlaying == (action != Complete)
        && highlights == old(highlights) + (if action == Complete then [] else [currentPlayIndex / 2])
      ensures generatedAudio == old(generatedAudio) && vocabulary == old(vocabulary)
      ensures currentSpeed == old(currentSpeed) && currentVoice == old(currentVoice)
      ensures trackEntries == old(trackEntries) && currentTrackIndex == old(currentTrackIndex)
      ensures currentSequenceIndex == old(currentSequenceIndex) && isPlayingTrack == old(isPlayingTrack)
      ensures generated == old(generated)
    {
      if !isPlaying {
        return Idle;
      }
      ghost var keys := WordKeys(vocabulary, currentSpeed, currentVoice);
      var i := currentPlayIndex;
      while i < 2 * |vocabulary| && !Hit(generatedAudio, SlotKey(vocabulary, currentSpeed, currentVoice, i))
        invariant old(currentPlayIndex) <= i
        invariant NextPlayable(generatedAudio, keys, i) == NextPlayable(generatedAudio, keys, old(currentPlayIndex))
        decreases 2 * |vocabulary| - i
      {
        assert keys[i] == SlotKey(vocabulary, currentSpeed, currentVoice, i);
        i := i + 1;
      }
      assert NextPlayable(generatedAudio, keys, i) == i by {
        if i < 2 * |vocabulary| {
          assert keys[i] == SlotKey(vocabulary, currentSpeed, currentVoice, i);
        }
      }
      currentPlayIndex := i;
      if i >= 2 * |vocabulary| {
        StopPlayback();
        return Complete;
      }
      highlights := highlights + [i / 2];
      var key := SlotKey(vocabulary, currentSpeed, currentVoice, i);
      action := PlayThenWait(generatedAudio[key], if i % 2 == 1 then 1000 else 500);
    }

    /** `startPlayback`: nothing on an empty table; otherwise the cursor starts at 0 with the given speed and voice. */
    method StartPlayback(speed: string, voice: string) returns (action: Action)
      modifies this
      ensures |old(vocabulary)| == 0 ==> action == Idle && unchanged(this)
      ensures |old(vocabulary)| > 0 ==>
        && currentSpeed == speed && currentVoice == voice
        && (action, currentPlayIndex) == ListStep(generatedAudio, WordKeys(vocabulary, speed, voice), 0)
        && isPlaying == (action != Complete)
        && highlights == old(highlights) + (if action == Complete then [] else [currentPlayIndex / 2])
      ensures generatedAudio == old(generatedAudio) && vocabulary == old(vocabulary)
      ensures trackEntries == old(trackEntries) && currentTrackIndex == old(currentTrackIndex)
      ensures currentSequenceIndex == old(currentSequenceIndex) && isPlayingTrack == old(isPlayingTrack)
      ensures generated == old(generated)
    {
      if |vocabulary| == 0 {
        return Idle;
      }
      isPlaying := true;
      currentPlayIndex := 0;
      currentSpeed := speed;
      currentVoice := voice;
      action := PlayNext();
    }

    /**
     * The timer after a played word: the cursor moves on and steps. The increment happens
     * even when playback was stopped meanwhile, as in the source.
     */
    method ListOnDone() returns (action: Action)
      modifies this
      ensures !old(isPlaying) ==>
        action == Idle && currentPlayIndex == old(currentPlayIndex) + 1 && !isPlaying && highlights == old(highlights)
      ensures old(isPlaying) ==>
        && (action, currentPlayIndex) == ListStep(generatedAudio, WordKeys(vocabulary, currentSpeed, currentVoice), old(currentPlayIndex) + 1)
        && isPlaying == (action != Complete)
        && highlights == old(highlights) + (if action == Complete then [] else [currentPlayIndex / 2])
      ensures generatedAudio == old(generatedAudio) && vocabulary == old(vocabulary)
      ensures currentSpeed == old(currentSpeed) && currentVoice == old(currentVoice)
      ensures trackEntries == old(trackEntries) && currentTrackIndex == old(currentTrackIndex)
      ensures currentSequenceIndex == old(currentSequenceIndex) && isPlayingTrack == old(isPlayingTrack)
      ensures generated == old(generated)
    {
      currentPlayIndex := currentPlayIndex + 1;
      action := PlayNext();
    }

    /** `setTrack`: a new track, the cursor at its start, track playback stopped. */
    method SetTrack(entries: seq<seq<SequenceItem>>)
      modifies this
      ensures trackEntries == entries && currentTrackIndex == 0 && currentSequenceIndex == 0 && !isPlayingTrack
      ensures generatedAudio == old(generatedAudio) && isPlaying == old(isPlaying) && currentPlayIndex == old(currentPlayIndex)
      ensures vocabulary == old(vocabulary) && currentSpeed == old(currentSpeed) && currentVoice == old(currentVoice)
      ensures highlights == old(highlights) && generated == old(generated)
    {
      trackEntries := entries;
      currentTrackIndex := 0;
      currentSequenceIndex := 0;
      isPlayingTrack := false;
    }

    /** `stopTrackPlayback`: only the flag is cleared. */
    method StopTrackPlayback()
      modifies this
      ensures !isPlayingTrack
      ensures trackEntries == old(trackEntries) && currentTrackIndex == old(currentTrackIndex)
      ensures currentSequenceIndex == old(currentSequenceIndex)
      ensures generatedAudio == old(generatedAudio) && isPlaying == old(isPlaying) && currentPlayIndex == old(currentPlayIndex)
      ensures vocabulary == old(vocabulary) && currentSpeed == old(currentSpeed) && currentVoice == old(currentVoice)
      ensures highlights == old(highlights) && generated == old(generated)
    {
      isPlayingTrack := false;
    }

    /**
     * `playNextTrackItem`: nothing while stopped; otherwise the cursor moves past exhausted
     * sequences, then either stops and completes past the last entry, or highlights the
     * entry and waits out its pause or plays its speech.
     */
    method PlayNextTrackItem() returns (action: Action)
      modifies this
      ensures !old(isPlayingTrack) ==> action == Idle && unchanged(this)
      ensures old(isPlayingTrack) ==>
        var p := NextPosition(trackEntries, old(currentTrackIndex), old(currentSequenceIndex));
        && (currentTrackIndex, currentSequenceIndex) == p
        && (p.0 >= |trackEntries| ==> action == Complete && !isPlayingTrack && highlights == old(highlights))
        && (p.0 < |trackEntries| ==>
              && action == ItemAction(trackEntries[p.0][p.1]) && isPlayingTrack
              && highlights == old(highlights) + [p.0])
      ensures trackEntries == old(trackEntries)
      ensures generatedAudio == old(generatedAudio) && isPlaying == old(isPlaying) && currentPlayIndex == old(currentPlayIndex)
      ensures vocabulary == old(vocabulary) && currentSpeed == old(currentSpeed) && currentVoice == old(currentVoice)
      ensures generated == old(generated)
    {
      if !isPlayingTrack {
        return Idle;
      }
      while currentTrackIndex < |trackEntries| && currentSequenceIndex >= |trackEntries[currentTrackIndex]|
        invariant NextPosition(trackEntries, currentTrackIndex, currentSequenceIndex)
               == NextPosition(trackEntries, old(currentTrackIndex), old(currentSequenceIndex))
        invariant isPlayingTrack && highlights == old(highlights) && trackEntries == old(trackEntries)
        invariant generatedAudio == old(generatedAudio) && isPlaying == old(isPlaying) && currentPlayIndex == old(currentPlayIndex)
        invariant vocabulary == old(vocabulary) && currentSpeed == old(currentSpeed) && currentVoice == old(currentVoice)
        invariant generated == old(generated)
        decreases |trackEntries| - currentTrackIndex
      {
        currentTrackIndex := currentTrackIndex + 1;
        currentSequenceIndex := 0;
      }
      if currentTrackIndex >= |trackEntries| {
        StopTrackPlayback();
        return Complete;
      }
      highlights := highlights + [currentTrackIndex];
      match trackEntries[currentTrackIndex][currentSequenceIndex] {
        case PauseStep(d) => action := Wait(d);
        case SpeechStep(url) => action := Play(url);
      }
    }

    /** `startTrackPlayback`: nothing on an empty track; otherwise the cursor starts at `(0, 0)`. */
    method StartTrackPlayback() returns (action: Action)
      modifies this
      ensures |old(trackEntries)| == 0 ==> action == Idle && unchanged(this)
      ensures |old(trackEntries)| > 0 ==>
        var p := NextPosition(trackEntries, 0, 0);
        && (currentTrackIndex, currentSequenceIndex) == p
        && (p.0 >= |trackEntries| ==> action == Complete && !isPlayingTrack && highlights == old(highlights))
        && (p.0 < |trackEntries| ==>
              && action == ItemAction(trackEntries[p.0][p.1]) && isPlayingTrack
              && highlights == old(highlights) + [p.0])
      ensures trackEntries == old(trackEntries)
      ensures generatedAudio == old(generatedAudio) && isPlaying == old(isPlaying) && currentPlayIndex == old(currentPlayIndex)
      ensures vocabulary == old(vocabulary) && currentSpeed == old(currentSpeed) && currentVoice == old(currentVoice)
      ensures generated == old(generated)
    {
      if |trackEntries| == 0 {
        return Idle;
      }
      isPlayingTrack := true;
      currentTrackIndex := 0;
      currentSequenceIndex := 0;
      action := PlayNextTrackItem();
    }

    /**
     * The timer after a pause or the `onended` of a speech item: the cursor moves to the next
     * item and steps. The increment happens even when playback was stopped meanwhile.
     */
    method TrackOnDone() returns (action: Action)
      modifies this
      ensures !old(isPlayingTrack) ==>
        && action == Idle && currentSequenceIndex == old(currentSequenceIndex) + 1
        && currentTrackIndex == old(currentTrackIndex) && !isPlayingTrack && highlights == old(highlights)
      ensures old(isPlayingTrack) ==>
        var p := NextPosition(trackEntries, old(currentTrackIndex), old(currentSequenceIndex) + 1);
        && (currentTrackIndex, currentSequenceIndex) == p
        && Before(old(currentTrackIndex), old(currentSequenceIndex), p.0, p.1)
        && (p.0 >= |trackEntries| ==> action == Complete && !isPlayingTrack && highlights == old(highlights))
        && (p.0 < |trackEntries| ==>
              && action == ItemAction(trackEntries[p.0][p.1]) && isPlayingTrack
              && highlights == old(highlights) + [p.0])
      ensures trackEntries == old(trackEntries)
      ensures generatedAudio == old(generatedAudio) && isPlaying == old(isPlaying) && currentPlayIndex == old(currentPlayIndex)
      ensures vocabulary == old(vocabulary) && currentSpeed == old(currentSpeed) && currentVoice == old(currentVoice)
      ensures generated == old(generated)
    {
      currentSequenceIndex := currentSequenceIndex + 1;
      action := PlayNextTrackItem();
    }
  }
}
