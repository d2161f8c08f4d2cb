/**
 * `EmotionScores`: what both emotion analyzers do with the answer of the
 * chat-completions call that scores a text. The answer is decoded as JSON,
 * every value of the decoded object is converted with `float`, and an
 * answer that cannot be decoded is replaced by a neutral fallback.
 *
 * The call itself is a parameter: its possible outcomes are a `ChatReply`.
 * The call asks for JSON mode (`response_format` `json_object`), so a
 * decoded answer is an object; its entries are given in document order.
 */
module EmotionScores {
  import opened Py

  /** Emotion label to confidence score. */
  type Scores = map<string, real>

  /** The outcome of `client.chat.completions.create(...)` and of decoding its first choice. */
  datatype ChatReply =
    | CallFailed                                   // the client call raises
    | NoChoices                                    // `choices[0]` raises IndexError
    | NoContent                                    // `message.content` is None: `json.loads` raises TypeError
    | NotJson                                      // the content is not JSON: JSONDecodeError
    | JsonObject(entries: seq<(string, Value)>)    // the decoded object

  /** The scores returned when the answer cannot be read: all weight on neutral. */
  function NeutralFallback(): Scores {
    map["joy" := 0.0, "sadness" := 0.0, "anger" := 0.0, "fear" := 0.0,
        "surprise" := 0.0, "disgust" := 0.0, "neutral" := 1.0]
  }

  /** The sum of the scores of the given labels. */
  function Total(s: Scores, labels: seq<string>): real
    requires forall l <- labels :: l in s
  {
    if labels == [] then 0.0 else s[labels[0]] + Total(s, labels[1..])
  }

  /** The fallback scores the seven emotions, each in [0, 1], summing to 1. */
  lemma NeutralFallbackIsDistribution()
    ensures NeutralFallback().Keys == {"joy", "sadness", "anger", "fear", "surprise", "disgust", "neutral"}
    ensures forall l <- NeutralFallback() :: 0.0 <= NeutralFallback()[l] <= 1.0
    ensures Total(NeutralFallback(), ["joy", "sadness", "anger", "fear", "surprise", "disgust", "neutral"]) == 1.0
  {
  }

  /** `for key in result: result[key] = float(result[key])`: the first value that does not convert ends it. */
  function Coerced(entries: seq<(string, Value)>, parse: string -> Option<real>): Result<Scores>
    decreases |entries|
  {
    if entries == [] then Ok(map[])
    else match Coerced(entries[..|entries| - 1], parse)
      case Err(e) => Err(e)
      case Ok(m) =>
        match Float(entries[|entries| - 1].1, parse)
        case Err(e) => Err(e)
        case Ok(x) => Ok(m[entries[|entries| - 1].0 := x])
  }

  /** A failure within the first `n` entries is the failure of the whole loop. */
  lemma {:induction false} CoercedFailure(entries: seq<(string, Value)>, n: nat, parse: string -> Option<real>)
    requires n <= |entries| && Coerced(entries[..n], parse).Err?
    ensures Coerced(entries, parse) == Coerced(entries[..n], parse)
    decreases |entries|
  {
    if n < |entries| {
      var w := entries[..|entries| - 1];
      assert w[..n] == entries[..n];
      CoercedFailure(w, n, parse);
    } else {
      assert entries[..n] == entries;
    }
  }

  /**
   * The conversion succeeds exactly when every value converts; the scores
   * then carry exactly the object's keys, each with its converted value;
   * otherwise the error is that of the first value, in document order,
   * that does not convert (TypeError or ValueError, neither of which the
   * analyzers catch).
   */
  lemma {:induction false} CoercedSpec(entries: seq<(string, Value)>, parse: string -> Option<real>)
    ensures var r := Coerced(entries, parse);
      (r.Ok? <==> forall i :: 0 <= i < |entries| ==> Float(entries[i].1, parse).Ok?)
      && (r.Ok? ==> forall k :: k in r.value <==> k in Keys(entries))
      && (r.Ok? && DistinctKeys(entries) ==>
            forall i :: 0 <= i < |entries| ==> r.value[entries[i].0] == Float(entries[i].1, parse).value)
      && (r.Err? ==> r.error == TypeError || r.error == ValueError)
      && (r.Err? ==>
            exists i :: 0 <= i < |entries| && Float(entries[i].1, parse).Err?
              && r.error == Float(entries[i].1, parse).error
              && forall j :: 0 <= j < i ==> Float(entries[j].1, parse).Ok?)
    decreases |entries|
  {
    if entries != [] {
      var w, last := entries[..|entries| - 1], entries[|entries| - 1];
      assert forall i :: 0 <= i < |w| ==> entries[i] == w[i];
      CoercedSpec(w, parse);
      assert Keys(entries) == Keys(w) + [last.0];
      if Coerced(w, parse).Ok? && Float(last.1, parse).Err? {
        assert Float(entries[|w|].1, parse).Err?;
      }
    }
  }

  /**
   * An answer whose values are all JSON numbers, under distinct keys, is
   * returned as it is: the same keys, each with its own number.
   */
  lemma NumbersKept(entries: seq<(string, Value)>, parse: string -> Option<real>)
    requires forall i :: 0 <= i < |entries| ==> entries[i].1.Num?
    requires DistinctKeys(entries)
    ensures Coerced(entries, parse).Ok?
    ensures forall k :: k in Coerced(entries, parse).value <==> k in Keys(entries)
    ensures forall i :: 0 <= i < |entries| ==> Coerced(entries, parse).value[entries[i].0] == entries[i].1.n
  {
    CoercedSpec(entries, parse);
  }

  /** The loop that converts every value of the decoded object. */
  method Coerce(entries: seq<(string, Value)>, parse: string -> Option<real>) returns (r: Result<Scores>)
    ensures r == Coerced(entries, parse)
  {
    var result: Scores := map[];
    for i := 0 to |entries|
      invariant Coerced(entries[..i], parse) == Ok(result)
    {
      assert entries[..i + 1][..i] == entries[..i];
      var (key, value) := entries[i];
      var x := Float(value, parse);
      if x.Err? {
        CoercedFailure(entries, i + 1, parse);
        return Err(x.error);
      }
      result := result[key := x.value];
    }
    assert entries[..|entries|] == entries;
    return Ok(result);
  }

  /**
   * How an analyzer answers once the chat call has been made: the call's
   * own exception and a missing content escape; an empty choice list or a
   * non-JSON content give the neutral fallback; a decoded object is
   * converted value by value.
   */
  predicate Answers(reply: ChatReply, parse: string -> Option<real>, r: Result<Scores>) {
    match reply
    case CallFailed => r == Err(ApiError)
    case NoChoices => r == Ok(NeutralFallback())
    case NotJson => r == Ok(NeutralFallback())
    case NoContent => r == Err(TypeError)
    case JsonObject(entries) => r == Coerced(entries, parse)
  }

  /** The reply handling at the end of both `analyze` methods. */
  method ReadReply(reply: ChatReply, parse: string -> Option<real>) returns (r: Result<Scores>)
    ensures Answers(reply, parse, r)
  {
    match reply {
      case CallFailed => r := Err(ApiError);
      case NoChoices => r := Ok(NeutralFallback());
      case NotJson => r := Ok(NeutralFallback());
      case NoContent => r := Err(TypeError);
      case JsonObject(entries) => r := Coerce(entries, parse);
    }
  }
}
