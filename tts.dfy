/** `TTSManager` (tts_manager.py): speech synthesis through the OpenAI audio API and playback of
    the resulting temporary file. The playback thread, the lock and the mixer's polling loop are
    taken one step at a time: `PlayAudio` is the whole run of the thread that `TextToSpeech`
    starts. The temporary files that exist and the mixer's loaded file are part of the state. */
module Tts {
  import opened Wrappers
  import opened Text

  /** `TTSManager.voice_mapping` */
  const VOICE_MAPPING: map<string, string> := map[
    "ChatGPT" := "nova",
    "Claude" := "alloy",
    "Gemini" := "onyx",
    "Grok" := "shimmer",
    "Perplexity" := "echo",
    "default" := "nova"
  ]

  const TTS_MODEL := "tts-1"

  /** `voice_mapping.get(model_name, voice_mapping['default'])` */
  function Voice(modelName: string): (v: string)
    ensures modelName in VOICE_MAPPING ==> v == VOICE_MAPPING[modelName]
    ensures modelName !in VOICE_MAPPING ==> v == "nova"
  {
    if modelName in VOICE_MAPPING then VOICE_MAPPING[modelName] else VOICE_MAPPING["default"]
  }

  /** The five backends speak with five different voices; any other name gets the default one. */
  lemma DistinctVoices()
    ensures var names := ["ChatGPT", "Claude", "Gemini", "Grok", "Perplexity"];
            forall i, j | 0 <= i < j < |names| :: Voice(names[i]) != Voice(names[j])
    ensures Voice("ChatGPT") == "nova" && Voice("Claude") == "alloy" && Voice("Gemini") == "onyx"
            && Voice("Grok") == "shimmer" && Voice("Perplexity") == "echo"
  {
  }

  /** `TTSManager._load_api_key`: the file's contents without surrounding whitespace. */
  function LoadApiKey(filepath: string, files: map<string, string>): (r: Result<string>)
    ensures r.Success? <==> filepath in files
    ensures r.Success? ==> r.value == Strip(files[filepath])
    ensures r.Failure? ==> r.error == "API key file not found at " + filepath
  {
    if filepath in files then Success(Strip(files[filepath])) else Failure("API key file not found at " + filepath)
  }

  const AUDIO_DIR_PREFIX := "/tmp/tts_"
  const AUDIO_SUFFIX := ".mp3"

  /** `Path("/tmp") / f"tts_{os.getpid()}_{int(time.time()*1000)}.mp3"`; the process id and the
      clock in milliseconds are parameters. */
  function AudioPath(pid: nat, millis: nat): (p: string)
    ensures AUDIO_DIR_PREFIX <= p && p[|p| - |AUDIO_SUFFIX|..] == AUDIO_SUFFIX
  {
    AUDIO_DIR_PREFIX + NatToString(pid) + "_" + NatToString(millis) + AUDIO_SUFFIX
  }

  /** One process never reuses a file name for two different clock readings. */
  lemma AudioPathsDiffer(pid: nat, m1: nat, m2: nat)
    requires m1 != m2
    ensures AudioPath(pid, m1) != AudioPath(pid, m2)
  {
    if AudioPath(pid, m1) == AudioPath(pid, m2) {
      var k := |AUDIO_DIR_PREFIX + NatToString(pid) + "_"|;
      var a, b := NatToString(m1), NatToString(m2);
      var p1, p2 := AudioPath(pid, m1), AudioPath(pid, m2);
      assert p1 == (AUDIO_DIR_PREFIX + NatToString(pid) + "_") + a + AUDIO_SUFFIX;
      assert p2 == (AUDIO_DIR_PREFIX + NatToString(pid) + "_") + b + AUDIO_SUFFIX;
      assert |a| == |b|;
      assert a == p1[k..k + |a|];
      assert b == p2[k..k + |b|];
      NatToStringInjective(m1, m2);
    }
  }

  /** A request to the speech API: `audio.speech.create(model=..., voice=..., input=...)`. */
  datatype SpeechCall = SpeechCall(model: string, voice: string, input: string)

  /** How the streamed synthesis ended. */
  datatype Synthesis = Streamed | SynthesisFailed(error: string)

  /** The manager's fields together with the part of the world it acts on: the temporary files that
      exist, the file loaded into the mixer, the files the mixer has started to play and the
      speech requests sent. `playbackFor` stands for `current_thread`: the file whose playback
      thread was started last. */
  datatype TtsState = TtsState(
    isPlaying: bool,
    currentAudioPath: Option<string>,
    playbackFor: Option<string>,
    files: set<string>,
    loaded: Option<string>,
    played: seq<string>,
    requests: seq<SpeechCall>)

  /** `stop_playback` */
  function Stopped(s: TtsState): TtsState
  {
    if !s.isPlaying then s
    else
      var files := if s.currentAudioPath.Some? then s.files - {s.currentAudioPath.value} else s.files;
      s.(isPlaying := false, loaded := None, files := files, currentAudioPath := None)
  }

  /** `text_to_speech` with the given output file and synthesis outcome. */
  function Spoken(s: TtsState, text: string, modelName: string, path: string, outcome: Synthesis): TtsState
  {
    var t := Stopped(s);
    var t' := t.(requests := t.requests + [SpeechCall(TTS_MODEL, Voice(modelName), text)]);
    match outcome
    case Streamed => t'.(files := t'.files + {path}, currentAudioPath := Some(path), playbackFor := Some(path))
    case SynthesisFailed(_) => t'.(files := t'.files - {path})
  }

  /** `_play_audio(path)`, run to its end: the file is played only if nothing is playing and the
      mixer can load it (it exists); the cleanup then always runs. */
  function PlayedOut(s: TtsState, path: string): TtsState
  {
    var starts := !s.isPlaying && path in s.files;
    var played := if starts then s.played + [path] else s.played;
    s.(isPlaying := false, loaded := None, files := s.files - {path}, currentAudioPath := None, played := played)
  }

  /** Stopping while nothing plays changes nothing; in particular a stale `current_audio_path` is kept. */
  lemma StopWhenIdle(s: TtsState)
    requires !s.isPlaying
    ensures Stopped(s) == s
  {
  }

  /** Stopping while playing ends the playback, forgets the current file and deletes it, and
      touches nothing else. */
  lemma StopWhenPlaying(s: TtsState)
    requires s.isPlaying
    ensures var t := Stopped(s);
            && !t.isPlaying && t.currentAudioPath == None && t.loaded == None
            && (s.currentAudioPath.Some? ==> s.currentAudioPath.value !in t.files)
            && t.files <= s.files
            && (forall f | f in s.files && Some(f) != s.currentAudioPath :: f in t.files)
            && t.played == s.played && t.requests == s.requests && t.playbackFor == s.playbackFor
  {
  }

  /** Stopping twice is stopping once. */
  lemma StopIdempotent(s: TtsState)
    ensures Stopped(Stopped(s)) == Stopped(s)
  {
  }

  /** `text_to_speech` stops any playback before anything else: speaking over a playing state is
      speaking over the stopped one, and nothing is playing right after the call. */
  lemma SpeakStopsFirst(s: TtsState, text: string, modelName: string, path: string, outcome: Synthesis)
    ensures Spoken(s, text, modelName, path, outcome) == Spoken(Stopped(s), text, modelName, path, outcome)
    ensures !Spoken(s, text, modelName, path, outcome).isPlaying
    ensures Spoken(s, text, modelName, path, outcome).played == s.played
    ensures Spoken(s, text, modelName, path, outcome).requests
            == s.requests + [SpeechCall(TTS_MODEL, Voice(modelName), text)]
  {
    StopIdempotent(s);
  }

  /** A failed synthesis leaves no file behind and starts no playback. */
  lemma FailedSynthesisPlaysNothing(s: TtsState, text: string, modelName: string, path: string, e: string)
    ensures var t := Spoken(s, text, modelName, path, SynthesisFailed(e));
            && path !in t.files
            && t.playbackFor == s.playbackFor
            && t.currentAudioPath == Stopped(s).currentAudioPath
  {
  }

  /** A successful synthesis leaves the new file current and its playback started. */
  lemma StreamedStartsPlayback(s: TtsState, text: string, modelName: string, path: string)
    ensures var t := Spoken(s, text, modelName, path, Streamed);
            path in t.files && t.currentAudioPath == Some(path) && t.playbackFor == Some(path)
  {
  }

  /** Whatever happened during playback, its cleanup leaves nothing playing, no current file and
      the played file deleted; the file is played exactly when nothing else was playing. */
  lemma PlaybackCleansUp(s: TtsState, path: string)
    ensures var t := PlayedOut(s, path);
            && !t.isPlaying && t.currentAudioPath == None && t.loaded == None && path !in t.files
            && (|t.played| == |s.played| + 1 <==> !s.isPlaying && path in s.files)
  {
  }

  /** A synthesized file that is played right away is gone afterwards, and was played. */
  lemma SpeakThenPlay(s: TtsState, text: string, modelName: string, path: string)
    ensures var t := PlayedOut(Spoken(s, text, modelName, path, Streamed), path);
            && t.played == s.played + [path]
            && path !in t.files
            && !t.isPlaying
  {
  }

  class TtsManager {
    var isPlaying: bool
    var currentAudioPath: Option<string>
    var playbackFor: Option<string>
    var files: set<string>
    var loaded: Option<string>
    var played: seq<string>
    var requests: seq<SpeechCall>

    function State(): TtsState
      reads this
    {
      TtsState(isPlaying, currentAudioPath, playbackFor, files, loaded, played, requests)
    }

    /** `TTSManager.__init__`, once the key has been loaded: nothing plays, no thread, no file. */
    constructor (files: set<string>)
      ensures State() == TtsState(false, None, None, files, None, [], [])
    {
      isPlaying := false;
      currentAudioPath := None;
      playbackFor := None;
      this.files := files;
      loaded := None;
      played := [];
      requests := [];
    }

    /** `TTSManager.stop_playback` */
    method StopPlayback()
      modifies this
      ensures State() == Stopped(old(State()))
    {
      if isPlaying {
        isPlaying := false;
        loaded := None;
        if currentAudioPath.Some? && currentAudioPath.value in files {
          files := files - {currentAudioPath.value};
        }
        currentAudioPath := None;
      }
    }

    /** `TTSManager.text_to_speech`. The language is not used. `synthesize(voice, text)` is the
        streamed API call writing `outputPath`. */
    method TextToSpeech(text: string, language: string, modelName: string, pid: nat, millis: nat,
                        synthesize: (string, string) -> Synthesis)
      modifies this
      ensures var voice := Voice(modelName);
              State() == Spoken(old(State()), text, modelName, AudioPath(pid, millis), synthesize(voice, text))
    {
      StopPlayback();
      var outputPath := AudioPath(pid, millis);
      var voice := Voice(modelName);
      requests := requests + [SpeechCall(TTS_MODEL, voice, text)];
      var outcome := synthesize(voice, text);
      match outcome {
        case Streamed =>
          files := files + {outputPath};
          currentAudioPath := Some(outputPath);
          playbackFor := Some(outputPath);
        case SynthesisFailed(_) =>
          if outputPath in files {
            files := files - {outputPath};
          }
      }
    }

    /** `TTSManager._play_audio(audio_path)`, the body of the playback thread, run to its end. */
    method PlayAudio(audioPath: string)
      modifies this
      ensures State() == PlayedOut(old(State()), audioPath)
    {
      if !isPlaying {
        if audioPath in files {
          loaded := Some(audioPath);
          isPlaying := true;
          played := played + [audioPath];
        }
      }
      isPlaying := false;
      loaded := None;
      if audioPath in files {
        files := files - {audioPath};
      }
      currentAudioPath := None;
    }
  }
}
