/**
 * `TextEmotionAnalyzer`: scores a list of texts (comments or a transcript)
 * by the seven emotions, through one chat-completions call on the texts
 * joined by newlines, or with fixed scores when the API key is "dummy".
 *
 * The process environment and the chat call's outcome are parameters;
 * `Analyze` also returns the user message it would send, None when it
 * sends nothing.
 */
module TextEmotionAnalyzer {
  import opened Py
  import opened EmotionScores

  /** The fixed scores returned with the key "dummy". */
  function DummyScores(): Scores {
    map["joy" := 0.8, "sadness" := 0.1, "anger" := 0.05, "fear" := 0.03, "surprise" := 0.02]
  }

  /** The dummy scores name five emotions, each in [0, 1], summing to 1. */
  lemma DummyScoresAreDistribution()
    ensures DummyScores().Keys == {"joy", "sadness", "anger", "fear", "surprise"}
    ensures forall l <- DummyScores() :: 0.0 <= DummyScores()[l] <= 1.0
    ensures Total(DummyScores(), ["joy", "sadness", "anger", "fear", "surprise"]) == 1.0
  {
  }

  class TextEmotionAnalyzer {
    const apiKey: Option<string>
    const modelName: string
    /** Whether an OpenAI client was created: for every key except "dummy". */
    const hasClient: bool

    constructor (apiKey: Option<string>, modelName: string, env: map<string, string>)
      ensures this.apiKey == Or(apiKey, EnvGet(env, "OPENAI_API_KEY"))
      ensures this.modelName == modelName
      ensures hasClient <==> this.apiKey != Some("dummy")
    {
      this.apiKey := Or(apiKey, EnvGet(env, "OPENAI_API_KEY"));
      this.modelName := modelName;
      this.hasClient := Or(apiKey, EnvGet(env, "OPENAI_API_KEY")) != Some("dummy");
    }

    /**
     * `analyze(texts)`: the dummy scores without any call for the key
     * "dummy"; otherwise one call whose user message is the texts joined by
     * newlines, answered as `Answers` describes.
     */
    method Analyze(texts: seq<string>, reply: ChatReply, parse: string -> Option<real>)
      returns (r: Result<Scores>, request: Option<string>)
      requires hasClient <==> apiKey != Some("dummy")
      ensures apiKey == Some("dummy") ==> r == Ok(DummyScores()) && request == None
      ensures apiKey != Some("dummy") ==> request == Some(Join(texts, "\n")) && Answers(reply, parse, r)
    {
      if apiKey == Some("dummy") {
        return Ok(DummyScores()), None;
      }
      var combinedText := Join(texts, "\n");
      request := Some(combinedText);
      r := ReadReply(reply, parse);
    }
  }

  /** The user message keeps every text, in order, as long as no text holds a newline itself. */
  lemma RequestKeepsTexts(texts: seq<string>)
    requires texts != [] && forall t <- texts :: '\n' !in t
    ensures Split(Join(texts, "\n"), "\n") == texts
  {
    SplitJoin(texts, '\n');
  }
}
