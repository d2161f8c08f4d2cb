/**
 * `AudioEmotionAnalyzer`: scores an audio file by the seven emotions. The
 * file is transcribed (Whisper, or a simulated transcript when the
 * AssemblyAI key is "dummy"), and the transcript is scored by one
 * chat-completions call; with both keys "dummy" fixed scores come back.
 *
 * The file and the transcription call are one parameter, `whisper`: the
 * transcribed text, or None when opening the file or the call raises.
 */
module AudioEmotionAnalyzer {
  import opened Py
  import opened EmotionScores

  /** The fixed scores returned when both keys are "dummy". */
  function DummyScores(): Scores {
    map["joy" := 0.7, "sadness" := 0.1, "anger" := 0.1, "fear" := 0.05,
        "surprise" := 0.05, "disgust" := 0.0, "neutral" := 0.0]
  }

  /** The dummy scores name the seven emotions, each in [0, 1], summing to 1. */
  lemma DummyScoresAreDistribution()
    ensures DummyScores().Keys == {"joy", "sadness", "anger", "fear", "surprise", "disgust", "neutral"}
    ensures forall l <- DummyScores() :: 0.0 <= DummyScores()[l] <= 1.0
    ensures Total(DummyScores(), ["joy", "sadness", "anger", "fear", "surprise", "disgust", "neutral"]) == 1.0
  {
  }

  /** The transcript made up when the AssemblyAI key is "dummy". */
  const SimulatedTranscript: string := "I'm really excited about this project. It's going to be amazing!"

  /** The transcript used when transcription raises. */
  const FallbackTranscript: string := "Error transcribing audio. Using fallback text for analysis."

  /** The prefix of the user message that carries the transcript. */
  const TranscriptPrefix: string := "Audio transcript: "

  class AudioEmotionAnalyzer {
    /** The AssemblyAI key. */
    const apiKey: Option<string>
    const openaiApiKey: Option<string>
    /** Whether an OpenAI client was created: for every OpenAI key except "dummy". */
    const hasClient: bool

    constructor (apiKey: Option<string>, openaiApiKey: Option<string>, env: map<string, string>)
      ensures this.apiKey == Or(apiKey, EnvGet(env, "ASSEMBLYAI_API_KEY"))
      ensures this.openaiApiKey == Or(openaiApiKey, EnvGet(env, "OPENAI_API_KEY"))
      ensures hasClient <==> this.openaiApiKey != Some("dummy")
    {
      this.apiKey := Or(apiKey, EnvGet(env, "ASSEMBLYAI_API_KEY"));
      this.openaiApiKey := Or(openaiApiKey, EnvGet(env, "OPENAI_API_KEY"));
      this.hasClient := Or(openaiApiKey, EnvGet(env, "OPENAI_API_KEY")) != Some("dummy");
    }

    /**
     * `_transcribe_audio`: the simulated transcript for the AssemblyAI key
     * "dummy"; otherwise Whisper's text, or the fallback text when there is
     * no client or the call raises. The transcript is empty only when
     * Whisper itself returned an empty text.
     */
    function Transcribe(whisper: Option<string>): (t: string)
      reads this
      ensures apiKey == Some("dummy") ==> t == SimulatedTranscript
      ensures apiKey != Some("dummy") && hasClient && whisper.Some? ==> t == whisper.value
      ensures apiKey != Some("dummy") && (!hasClient || whisper.None?) ==> t == FallbackTranscript
      ensures t == [] <==> apiKey != Some("dummy") && hasClient && whisper == Some([])
    {
      if apiKey == Some("dummy") then SimulatedTranscript
      else if !hasClient then FallbackTranscript
      else match whisper
        case None => FallbackTranscript
        case Some(text) => text
    }

    /**
     * `analyze(audio_path)`: the dummy scores without any call when both keys
     * are "dummy"; the neutral fallback without a call for an empty
     * transcript; AttributeError when there is no client to call; otherwise
     * one call on the transcript, answered as `Answers` describes.
     */
    method Analyze(whisper: Option<string>, reply: ChatReply, parse: string -> Option<real>)
      returns (r: Result<Scores>, request: Option<string>)
      ensures apiKey == Some("dummy") && openaiApiKey == Some("dummy") ==> r == Ok(DummyScores()) && request == None
      ensures !(apiKey == Some("dummy") && openaiApiKey == Some("dummy")) && Transcribe(whisper) == [] ==>
                r == Ok(NeutralFallback()) && request == None
      ensures !(apiKey == Some("dummy") && openaiApiKey == Some("dummy")) && Transcribe(whisper) != [] && !hasClient ==>
                r == Err(AttributeError) && request == None
      ensures !(apiKey == Some("dummy") && openaiApiKey == Some("dummy")) && Transcribe(whisper) != [] && hasClient ==>
                request == Some(TranscriptPrefix + Transcribe(whisper)) && Answers(reply, parse, r)
      // With the AssemblyAI key "dummy" and a client, the simulated transcript is what is scored.
      ensures apiKey == Some("dummy") && openaiApiKey != Some("dummy") && hasClient ==>
                request == Some(TranscriptPrefix + SimulatedTranscript) && Answers(reply, parse, r)
      // Without a client and with any other AssemblyAI key, transcription falls back and scoring fails.
      ensures apiKey != Some("dummy") && !hasClient ==> Transcribe(whisper) == FallbackTranscript && r == Err(AttributeError)
    {
      if apiKey == Some("dummy") && openaiApiKey == Some("dummy") {
        return Ok(DummyScores()), None;
      }
      var transcript := Transcribe(whisper);
      if transcript == [] {
        return Ok(NeutralFallback()), None;
      }
      if !hasClient {
        return Err(AttributeError), None;
      }
      request := Some(TranscriptPrefix + transcript);
      r := ReadReply(reply, parse);
    }
  }
}
