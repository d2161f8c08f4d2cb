/**
 * `InsightGenerator`: turns correlation metrics into insights and insights
 * into PR hooks, guided by brand guidelines split into paragraph chunks.
 *
 * Offline (no OpenAI client) both operations return a prefix of canned
 * texts; live, one chat-completions call answers and its JSON is cut to
 * the requested length, with a two-line template when it cannot be read.
 * Vector search is modelled by whether it came up (`vectorSearchReady`,
 * the libraries installed and their start-up raising nothing) and by the
 * matches it returns (a parameter); the guideline retrieval modelled in
 * full is the offline one.
 */
module InsightGenerator {
  import opened Py

  // ---------------------------------------------------------------------
  // Guideline chunks

  /** The paragraph separator of the guidelines text. */
  const ParagraphBreak: string := "\n\n"

  /**
   * The chunks kept from the first paragraphs: each paragraph stripped of
   * its white-space border, blank ones dropped, in order.
   */
  function Chunks(paragraphs: seq<string>): seq<string>
    decreases |paragraphs|
  {
    if paragraphs == [] then []
    else
      var chunk := Strip(paragraphs[|paragraphs| - 1]);
      if chunk != [] then Chunks(paragraphs[..|paragraphs| - 1]) + [chunk]
      else Chunks(paragraphs[..|paragraphs| - 1])
  }

  /** `_parse_guidelines`: the loop that collects the stripped non-blank paragraphs. */
  method ParseGuidelines(guidelines: string) returns (chunks: seq<string>)
    ensures chunks == Chunks(Split(guidelines, ParagraphBreak))
  {
    var paragraphs := Split(guidelines, ParagraphBreak);
    chunks := [];
    for i := 0 to |paragraphs|
      invariant chunks == Chunks(paragraphs[..i])
    {
      assert paragraphs[..i + 1][..i] == paragraphs[..i];
      var para := paragraphs[i];
      if Strip(para) != [] {
        chunks := chunks + [Strip(para)];
      }
    }
    assert paragraphs[..|paragraphs|] == paragraphs;
  }

  /** Every chunk is non-empty, starts and ends with a non-space character, and is its own strip. */
  lemma {:induction false} ChunksAreClean(paragraphs: seq<string>)
    ensures forall c <- Chunks(paragraphs) :: c != [] && !IsSpace(c[0]) && !IsSpace(c[|c| - 1]) && Strip(c) == c
    decreases |paragraphs|
  {
    if paragraphs != [] {
      var p := paragraphs[|paragraphs| - 1];
      ChunksAreClean(paragraphs[..|paragraphs| - 1]);
      var c := Strip(p);
      if c != [] {
        StripMeetsSpec(p);
        StripIdempotent(p);
      }
    }
  }

  /** Every chunk comes from a non-blank paragraph. */
  lemma {:induction false} ChunkHasParagraph(paragraphs: seq<string>, c: string)
    requires c in Chunks(paragraphs)
    ensures exists j :: 0 <= j < |paragraphs| && !AllSpace(paragraphs[j]) && c == Strip(paragraphs[j])
    decreases |paragraphs|
  {
    var n := |paragraphs| - 1;
    var init := paragraphs[..n];
    StripEmptyIffAllSpace(paragraphs[n]);
    if c in Chunks(init) {
      ChunkHasParagraph(init, c);
      var j :| 0 <= j < |init| && !AllSpace(init[j]) && c == Strip(init[j]);
      assert paragraphs[j] == init[j];
    } else {
      assert !AllSpace(paragraphs[n]) && c == Strip(paragraphs[n]);
    }
  }

  /** Every paragraph with a non-empty strip leaves that strip among the chunks. */
  lemma {:induction false} ParagraphHasChunk(paragraphs: seq<string>, j: nat)
    requires j < |paragraphs| && Strip(paragraphs[j]) != []
    ensures Strip(paragraphs[j]) in Chunks(paragraphs)
    decreases |paragraphs|
  {
    var n := |paragraphs| - 1;
    var init := paragraphs[..n];
    var last := Strip(paragraphs[n]);
    assert Chunks(paragraphs) == if last != [] then Chunks(init) + [last] else Chunks(init);
    if j < n {
      assert init[j] == paragraphs[j];
      ParagraphHasChunk(init, j);
    }
  }

  /** A text is a chunk exactly when it is the strip of some non-blank paragraph. */
  lemma ChunksAreParagraphs(paragraphs: seq<string>, c: string)
    ensures c in Chunks(paragraphs) <==>
              exists j :: 0 <= j < |paragraphs| && !AllSpace(paragraphs[j]) && c == Strip(paragraphs[j])
  {
    if c in Chunks(paragraphs) {
      ChunkHasParagraph(paragraphs, c);
    }
    if exists j :: 0 <= j < |paragraphs| && !AllSpace(paragraphs[j]) && c == Strip(paragraphs[j]) {
      var j :| 0 <= j < |paragraphs| && !AllSpace(paragraphs[j]) && c == Strip(paragraphs[j]);
      StripEmptyIffAllSpace(paragraphs[j]);
      ParagraphHasChunk(paragraphs, j);
    }
  }

  /** There are never more chunks than paragraphs. */
  lemma {:induction false} ChunksAtMostParagraphs(paragraphs: seq<string>)
    ensures |Chunks(paragraphs)| <= |paragraphs|
    decreases |paragraphs|
  {
    if paragraphs != [] {
      ChunksAtMostParagraphs(paragraphs[..|paragraphs| - 1]);
    }
  }

  /** No blank line (two newlines in a row) inside `s`. */
  predicate NoBlankLine(s: string) {
    forall i :: 0 <= i < |s| - 1 ==> !(s[i] == '\n' && s[i + 1] == '\n')
  }

  /** A paragraph without a blank line, not ending in a newline, is cut off whole. */
  lemma SplitParagraph(a: string, b: string)
    requires NoBlankLine(a) && (a != [] ==> a[|a| - 1] != '\n')
    ensures Split(a + ParagraphBreak + b, ParagraphBreak) == [a] + Split(b, ParagraphBreak)
  {
    var s := a + ParagraphBreak + b;
    forall i | 0 <= i < |a| ensures !OccursAt(s, ParagraphBreak, i) {
      assert s[i..i + 2][0] == s[i] && s[i..i + 2][1] == s[i + 1];
      assert s[i] == a[i];
      if i + 1 < |a| {
        assert s[i + 1] == a[i + 1];
      }
    }
    SplitAt(a, ParagraphBreak, b);
  }

  /** A paragraph without a blank line is the whole split. */
  lemma LastParagraph(a: string)
    requires NoBlankLine(a)
    ensures Split(a, ParagraphBreak) == [a]
  {
    forall i | 0 <= i < |a| ensures !OccursAt(a, ParagraphBreak, i) {
      if i + 2 <= |a| {
        assert a[i..i + 2][0] == a[i] && a[i..i + 2][1] == a[i + 1];
      }
    }
    SplitNone(a, ParagraphBreak);
  }

  /** A one-line text is a single chunk, itself. */
  lemma SingleParagraphExample()
    ensures Chunks(Split("Test guidelines", ParagraphBreak)) == ["Test guidelines"]
  {
    var s := "Test guidelines";
    NoNewlineNoBlankLine(s);
    LastParagraph(s);
    assert s == "" + s + "";
    StripOf("", s, "");
    assert [s][..0] == [];
  }

  /** A text without a newline has no blank line. */
  lemma NoNewlineNoBlankLine(s: string)
    requires forall i :: 0 <= i < |s| ==> s[i] != '\n'
    ensures NoBlankLine(s)
  {
  }

  /** Chunking a paragraph list paragraph by paragraph from the front gives the same chunks. */
  lemma {:induction false} ChunksPrepend(p: string, paragraphs: seq<string>)
    ensures Chunks([p] + paragraphs) == (if Strip(p) != [] then [Strip(p)] else []) + Chunks(paragraphs)
    decreases |paragraphs|
  {
    var ps := [p] + paragraphs;
    if paragraphs == [] {
      assert ps[..0] == [];
    } else {
      var n := |paragraphs| - 1;
      assert ps[..|ps| - 1] == [p] + paragraphs[..n];
      assert ps[|ps| - 1] == paragraphs[n];
      ChunksPrepend(p, paragraphs[..n]);
    }
  }

  /** Three paragraphs separated by blank lines give their three strips, in order. */
  lemma ThreeChunks(p1: string, p2: string, p3: string)
    requires NoBlankLine(p1) && NoBlankLine(p2) && NoBlankLine(p3)
    requires p1 != [] && p1[|p1| - 1] != '\n' && p2 != [] && p2[|p2| - 1] != '\n'
    requires Strip(p1) != [] && Strip(p2) != [] && Strip(p3) != []
    ensures Chunks(Split(p1 + ParagraphBreak + p2 + ParagraphBreak + p3, ParagraphBreak)) == [Strip(p1), Strip(p2), Strip(p3)]
  {
    SplitParagraph(p2, p3);
    SplitParagraph(p1, p2 + ParagraphBreak + p3);
    LastParagraph(p3);
    assert p1 + ParagraphBreak + p2 + ParagraphBreak + p3 == p1 + ParagraphBreak + (p2 + ParagraphBreak + p3);
    ChunksPrepend(p3, []);
    ChunksPrepend(p2, [p3]);
    ChunksPrepend(p1, [p2] + [p3]);
  }

  /** The first paragraph of the three-paragraph example: a newline, an indent, the text. */
  lemma FirstParagraphFacts()
    ensures NoBlankLine("\n    Paragraph 1") && Strip("\n    Paragraph 1") == "Paragraph 1"
  {
    assert "\n    Paragraph 1" == "" + "\n" + "    Paragraph 1";
    NewlineBetweenNoBlankLine("", "    Paragraph 1");
    assert "\n    Paragraph 1" == "\n    " + "Paragraph 1" + "";
    StripOf("\n    ", "Paragraph 1", "");
  }

  /** The second paragraph of the three-paragraph example: an indent, the text. */
  lemma SecondParagraphFacts()
    ensures NoBlankLine("    Paragraph 2") && Strip("    Paragraph 2") == "Paragraph 2"
  {
    NoNewlineNoBlankLine("    Paragraph 2");
    assert "    Paragraph 2" == "    " + "Paragraph 2" + "";
    StripOf("    ", "Paragraph 2", "");
  }

  /** The last paragraph of the three-paragraph example: an indent, the text, a newline, an indent. */
  lemma ThirdParagraphFacts()
    ensures NoBlankLine("    Paragraph 3\n    ") && Strip("    Paragraph 3\n    ") == "Paragraph 3"
  {
    assert "    Paragraph 3\n    " == "    Paragraph 3" + "\n" + "    ";
    NewlineBetweenNoBlankLine("    Paragraph 3", "    ");
    assert "    Paragraph 3\n    " == "    " + "Paragraph 3" + "\n    ";
    StripOf("    ", "Paragraph 3", "\n    ");
  }

  /** Three indented paragraphs separated by blank lines give three chunks, in order. */
  lemma ThreeParagraphsExample()
    ensures Chunks(Split("\n    Paragraph 1" + "\n\n" + "    Paragraph 2" + "\n\n" + "    Paragraph 3\n    ", ParagraphBreak))
         == ["Paragraph 1", "Paragraph 2", "Paragraph 3"]
  {
    FirstParagraphFacts();
    SecondParagraphFacts();
    ThirdParagraphFacts();
    ThreeChunks("\n    Paragraph 1", "    Paragraph 2", "    Paragraph 3\n    ");
  }

  /** Two lines without newlines, joined by one newline, hold no blank line. */
  lemma NewlineBetweenNoBlankLine(t: string, u: string)
    requires forall i :: 0 <= i < |t| ==> t[i] != '\n'
    requires forall i :: 0 <= i < |u| ==> u[i] != '\n'
    ensures NoBlankLine(t + "\n" + u)
  {
    var s := t + "\n" + u;
    forall i | 0 <= i < |s| - 1 ensures !(s[i] == '\n' && s[i + 1] == '\n') {
      if i < |t| {
        assert s[i] == t[i];
      } else {
        assert s[i + 1] == u[i - |t|];
      }
    }
  }

  /** `lstrip` stops at the first non-space character. */
  lemma {:induction false} StripLeftAt(s: string, i: nat)
    requires i < |s| && AllSpace(s[..i]) && !IsSpace(s[i])
    ensures StripLeft(s) == s[i..]
    decreases i
  {
    if i > 0 {
      assert s[..i][0] == s[0];
      assert s[1..][..i - 1] == s[1..i];
      assert forall k :: 0 <= k < i - 1 ==> s[1..i][k] == s[..i][k + 1];
      StripLeftAt(s[1..], i - 1);
      assert s[1..][i - 1..] == s[i..];
    }
  }

  /** `rstrip` stops at the last non-space character. */
  lemma {:induction false} StripRightAt(s: string, j: nat)
    requires 0 < j <= |s| && AllSpace(s[j..]) && !IsSpace(s[j - 1])
    ensures StripRight(s) == s[..j]
    decreases |s| - j
  {
    if j < |s| {
      var t := s[..|s| - 1];
      assert s[j..][|s| - 1 - j] == s[|s| - 1];
      assert forall k :: 0 <= k < |t| - j ==> t[j..][k] == s[j..][k];
      StripRightAt(t, j);
      assert t[..j] == s[..j];
    }
  }

  /** A white-space border around a core that starts and ends with a non-space character is stripped off. */
  lemma StripOf(lead: string, core: string, trail: string)
    requires AllSpace(lead) && AllSpace(trail) && core != [] && !IsSpace(core[0]) && !IsSpace(core[|core| - 1])
    ensures Strip(lead + core + trail) == core
  {
    var s := lead + core + trail;
    assert s[..|lead|] == lead && s[|lead|] == core[0];
    StripLeftAt(s, |lead|);
    var l := s[|lead|..];
    assert l == core + trail;
    assert l[|core|..] == trail && l[|core| - 1] == core[|core| - 1];
    StripRightAt(l, |core|);
    assert l[..|core|] == core;
  }

  // ---------------------------------------------------------------------
  // Generator

  /** Python's `min` on two integers. */
  function Min(a: int, b: int): int {
    if a <= b then a else b
  }

  /** A list of strings as JSON values. */
  function Strs(xs: seq<string>): (vs: seq<Value>)
    ensures |vs| == |xs| && forall i :: 0 <= i < |xs| ==> vs[i] == Str(xs[i])
  {
    seq(|xs|, i requires 0 <= i < |xs| => Str(xs[i]))
  }

  /** The insights returned without a client. */
  const CannedInsights: seq<string> := [
    "Videos with high joy scores receive 25% more likes than average.",
    "Content with surprise elements generates 40% more comments.",
    "Neutral content performs better for long-term viewer retention."
  ]

  /** The PR hooks returned without a client. */
  const CannedHooks: seq<string> := [
    "Discover the emotional secret behind our most engaging content",
    "How we increased engagement by 40% with one simple emotional trigger"
  ]

  /** The insights used when the answer cannot be read, naming the first correlation. */
  function InsightTemplate(firstKey: string): seq<string> {
    ["Correlation analysis shows interesting patterns in " + firstKey + ".",
     "There appears to be a relationship between emotions and engagement metrics."]
  }

  /** The hooks used when the answer cannot be read, quoting the start of the first insight. */
  function HookTemplate(firstInsight: string): seq<string> {
    ["New data reveals surprising connection in " + Take(firstInsight, 20) + "...",
     "How our content strategy revealed unexpected audience preferences"]
  }

  /** The outcome of `client.chat.completions.create(...)` and of `json.loads` on its first choice. */
  datatype Completion =
    | CallFailed          // the client call raises; it is outside the handler
    | Unreadable          // no choice, no content or no JSON: caught by `except Exception`
    | Decoded(result: Value)

  /**
   * `result.get(key, [])[:n]` on a decoded answer: None when it raises (the
   * answer is not an object, or the value under `key` cannot be sliced).
   * The `isinstance(result, list)` fallback never applies: a list answer has
   * no `get` and raises first.
   */
  function CutAnswer(result: Value, key: string, n: int): (r: Option<Value>)
    ensures !result.Obj? ==> r == None
    ensures result.Obj? && key !in result.fields ==> r == Some(Arr([]))
    ensures result.Obj? && key in result.fields && result.fields[key].Arr? ==>
              r.Some? && r.value.Arr? && r.value.items <= result.fields[key].items
              && (0 <= n ==> |r.value.items| == Min(n, |result.fields[key].items|))
    ensures result.Obj? && key in result.fields && result.fields[key].Str? ==>
              r.Some? && r.value.Str? && r.value.s <= result.fields[key].s
              && (0 <= n ==> |r.value.s| == Min(n, |result.fields[key].s|))
    ensures result.Obj? && key in result.fields && !result.fields[key].Arr? && !result.fields[key].Str? ==> r == None
  {
    match Get(result, key, Arr([]))
    case Err(_) => None
    case Ok(v) =>
      match v
      case Arr(items) => Some(Arr(Take(items, n)))
      case Str(text) => Some(Str(Take(text, n)))
      case _ => None
  }

  class InsightGenerator {
    const pineconeApiKey: Option<string>
    const openaiApiKey: Option<string>
    const pineconeIndexName: string
    const pineconeEnvironment: string
    const brandGuidelines: string
    const guidelineChunks: seq<string>
    /** Whether an embedder and an index are in place. */
    const hasIndex: bool
    /** Whether an OpenAI client was created. */
    const hasClient: bool

    /**
     * `__init__`: keys from the arguments or the environment, the chunks of
     * the guidelines, vector search only with a real Pinecone key (and when
     * it comes up), and a client only with a real OpenAI key.
     */
    constructor (brandGuidelines: string, pineconeApiKey: Option<string>, openaiApiKey: Option<string>,
                 pineconeIndexName: string, pineconeEnvironment: string, env: map<string, string>,
                 vectorSearchReady: bool)
      ensures this.pineconeApiKey == Or(pineconeApiKey, EnvGet(env, "PINECONE_API_KEY"))
      ensures this.openaiApiKey == Or(openaiApiKey, EnvGet(env, "OPENAI_API_KEY"))
      ensures this.pineconeIndexName == pineconeIndexName
      ensures pineconeEnvironment != "" ==> this.pineconeEnvironment == pineconeEnvironment
      ensures pineconeEnvironment == "" && "PINECONE_ENVIRONMENT" in env ==> this.pineconeEnvironment == env["PINECONE_ENVIRONMENT"]
      ensures pineconeEnvironment == "" && "PINECONE_ENVIRONMENT" !in env ==> this.pineconeEnvironment == "gcp-starter"
      ensures this.brandGuidelines == brandGuidelines
      ensures guidelineChunks == Chunks(Split(brandGuidelines, ParagraphBreak))
      ensures hasIndex <==> vectorSearchReady && Truthy(this.pineconeApiKey) && this.pineconeApiKey != Some("dummy")
      ensures hasClient <==> Truthy(this.openaiApiKey) && this.openaiApiKey != Some("dummy")
    {
      var pineconeKey := Or(pineconeApiKey, EnvGet(env, "PINECONE_API_KEY"));
      var openaiKey := Or(openaiApiKey, EnvGet(env, "OPENAI_API_KEY"));
      this.pineconeApiKey := pineconeKey;
      this.openaiApiKey := openaiKey;
      this.pineconeIndexName := pineconeIndexName;
      this.pineconeEnvironment :=
        if pineconeEnvironment != "" then pineconeEnvironment
        else if "PINECONE_ENVIRONMENT" in env then env["PINECONE_ENVIRONMENT"] else "gcp-starter";
      this.brandGuidelines := brandGuidelines;
      var chunks := ParseGuidelines(brandGuidelines);
      this.guidelineChunks := chunks;
      this.hasIndex := vectorSearchReady && Truthy(pineconeKey) && pineconeKey != Some("dummy");
      this.hasClient := Truthy(openaiKey) && openaiKey != Some("dummy");
    }

    /**
     * `_search_relevant_guidelines(query, top_k)`: without vector search, the
     * first `min(top_k, len(chunks))` chunks (a negative `top_k` drops that
     * many from the end, as Python slicing does); with it, the matches found.
     */
    function RelevantGuidelines(topK: int, liveMatches: seq<string>): (r: seq<string>)
      reads this
      ensures !hasIndex ==> r <= guidelineChunks
      ensures !hasIndex && 0 <= topK ==> |r| == Min(topK, |guidelineChunks|)
      ensures !hasIndex && topK < 0 ==> |r| == (if |guidelineChunks| + topK > 0 then |guidelineChunks| + topK else 0)
      ensures hasIndex ==> r == liveMatches
    {
      if !hasIndex then
        if guidelineChunks != [] then Take(guidelineChunks, Min(topK, |guidelineChunks|)) else []
      else liveMatches
    }

    /**
     * `generate(correlations, n_insights)`: offline, the first `n` canned
     * insights; live, the `"insights"` of the answer cut to `n`, or the
     * template when the answer cannot be read or cut. The template names the
     * first correlation, so with no correlations it raises IndexError.
     */
    function Generate(correlations: seq<(string, real)>, n: int, completion: Completion): (r: Result<Value>)
      reads this
      ensures !hasClient ==> r.Ok? && r.value.Arr? && r.value.items <= Strs(CannedInsights)
                             && (0 <= n ==> |r.value.items| == Min(n, 3))
      ensures hasClient && completion.CallFailed? ==> r == Err(ApiError)
      ensures hasClient && completion.Decoded? && CutAnswer(completion.result, "insights", n).Some? ==>
                r == Ok(CutAnswer(completion.result, "insights", n).value)
      ensures hasClient && (completion.Unreadable? || (completion.Decoded? && CutAnswer(completion.result, "insights", n).None?)) ==>
                (correlations == [] ==> r == Err(IndexError))
                && (correlations != [] ==> r.Ok? && r.value.Arr? && r.value.items <= Strs(InsightTemplate(correlations[0].0)))
    {
      if !hasClient then Ok(Arr(Strs(Take(CannedInsights, n))))
      else match completion
        case CallFailed => Err(ApiError)
        case Unreadable => InsightFallback(correlations, n)
        case Decoded(result) =>
          match CutAnswer(result, "insights", n)
          case Some(insights) => Ok(insights)
          case None => InsightFallback(correlations, n)
    }

    /**
     * `suggest_pr_hooks(insights, n_hooks)`: offline, the first `n` canned
     * hooks; live, the `"hooks"` of the answer cut to `n`, or the template
     * when the answer cannot be read or cut. The template quotes the first
     * insight, so with no insights it raises IndexError.
     */
    function SuggestPrHooks(insights: seq<string>, n: int, completion: Completion): (r: Result<Value>)
      reads this
      ensures !hasClient ==> r.Ok? && r.value.Arr? && r.value.items <= Strs(CannedHooks)
                             && (0 <= n ==> |r.value.items| == Min(n, 2))
      ensures hasClient && completion.CallFailed? ==> r == Err(ApiError)
      ensures hasClient && completion.Decoded? && CutAnswer(completion.result, "hooks", n).Some? ==>
                r == Ok(CutAnswer(completion.result, "hooks", n).value)
      ensures hasClient && (completion.Unreadable? || (completion.Decoded? && CutAnswer(completion.result, "hooks", n).None?)) ==>
                (insights == [] ==> r == Err(IndexError))
                && (insights != [] ==> r.Ok? && r.value.Arr? && r.value.items <= Strs(HookTemplate(insights[0])))
    {
      if !hasClient then Ok(Arr(Strs(Take(CannedHooks, n))))
      else match completion
        case CallFailed => Err(ApiError)
        case Unreadable => HookFallback(insights, n)
        case Decoded(result) =>
          match CutAnswer(result, "hooks", n)
          case Some(hooks) => Ok(hooks)
          case None => HookFallback(insights, n)
    }
  }

  /** The `except` branch of `generate`. */
  function InsightFallback(correlations: seq<(string, real)>, n: int): (r: Result<Value>)
    ensures correlations == [] <==> r == Err(IndexError)
    ensures r.Ok? ==> r.value.Arr? && r.value.items <= Strs(InsightTemplate(correlations[0].0))
                      && (0 <= n ==> |r.value.items| == Min(n, 2))
  {
    if correlations == [] then Err(IndexError)
    else Ok(Arr(Strs(Take(InsightTemplate(correlations[0].0), n))))
  }

  /** The `except` branch of `suggest_pr_hooks`. */
  function HookFallback(insights: seq<string>, n: int): (r: Result<Value>)
    ensures insights == [] <==> r == Err(IndexError)
    ensures r.Ok? ==> r.value.Arr? && r.value.items <= Strs(HookTemplate(insights[0]))
                      && (0 <= n ==> |r.value.items| == Min(n, 2))
  {
    if insights == [] then Err(IndexError)
    else Ok(Arr(Strs(Take(HookTemplate(insights[0]), n))))
  }

  /**
   * Offline retrieval only hands out chunks of the guidelines: each one
   * non-empty, already stripped, and the strip of a non-blank paragraph.
   */
  lemma RetrievedAreChunks(g: InsightGenerator, topK: int, liveMatches: seq<string>)
    requires !g.hasIndex && g.guidelineChunks == Chunks(Split(g.brandGuidelines, ParagraphBreak))
    ensures forall c <- g.RelevantGuidelines(topK, liveMatches) ::
              c != [] && Strip(c) == c
              && exists p <- Split(g.brandGuidelines, ParagraphBreak) :: !AllSpace(p) && c == Strip(p)
  {
    var paragraphs := Split(g.brandGuidelines, ParagraphBreak);
    ChunksAreClean(paragraphs);
    forall c <- g.RelevantGuidelines(topK, liveMatches)
      ensures exists p <- paragraphs :: !AllSpace(p) && c == Strip(p)
    {
      ChunkHasParagraph(paragraphs, c);
      var j :| 0 <= j < |paragraphs| && !AllSpace(paragraphs[j]) && c == Strip(paragraphs[j]);
      assert paragraphs[j] in paragraphs;
    }
  }

  /**
   * A live answer that is a bare JSON list is not used: `.get` raises on it
   * and the template comes back, whatever the list holds.
   */
  lemma ListAnswerGivesTemplate(g: InsightGenerator, correlations: seq<(string, real)>, n: int, items: seq<Value>)
    requires g.hasClient && correlations != [] && 0 < n
    ensures g.Generate(correlations, n, Decoded(Arr(items))).Ok?
    ensures g.Generate(correlations, n, Decoded(Arr(items))).value.Arr?
    ensures g.Generate(correlations, n, Decoded(Arr(items))).value.items[0]
         == Str("Correlation analysis shows interesting patterns in " + correlations[0].0 + ".")
  {
    var r := g.Generate(correlations, n, Decoded(Arr(items)));
    assert r.value.items[0] == Strs(InsightTemplate(correlations[0].0))[0];
  }

  /** The mocked insights answer of the repository's tests comes back as it is, cut to the two asked for. */
  lemma MockedInsightsExample(g: InsightGenerator, correlations: seq<(string, real)>)
    requires g.hasClient
    ensures g.Generate(correlations, 2, Decoded(Obj(map["insights" := Arr([Str("Mocked insight 1"), Str("Mocked insight 2")])])))
         == Ok(Arr([Str("Mocked insight 1"), Str("Mocked insight 2")]))
  {
    var items := [Str("Mocked insight 1"), Str("Mocked insight 2")];
    var answer := Obj(map["insights" := Arr(items)]);
    assert CutAnswer(answer, "insights", 2) == Some(Arr(Take(items, 2)));
    assert Take(items, 2) == items;
  }

  /** The mocked hooks answer of the repository's tests comes back as it is, cut to the two asked for. */
  lemma MockedHooksExample(g: InsightGenerator, insights: seq<string>)
    requires g.hasClient
    ensures g.SuggestPrHooks(insights, 2, Decoded(Obj(map["hooks" := Arr([Str("Mocked PR hook 1"), Str("Mocked PR hook 2")])])))
         == Ok(Arr([Str("Mocked PR hook 1"), Str("Mocked PR hook 2")]))
  {
    var items := [Str("Mocked PR hook 1"), Str("Mocked PR hook 2")];
    var answer := Obj(map["hooks" := Arr(items)]);
    assert CutAnswer(answer, "hooks", 2) == Some(Arr(Take(items, 2)));
    assert Take(items, 2) == items;
  }

  /** With the key "dummy", or no key at all, there is no client and the canned texts come back. */
  lemma DummyKeyIsOffline(openaiApiKey: Option<string>, env: map<string, string>)
    requires openaiApiKey == Some("dummy") || (openaiApiKey == None && "OPENAI_API_KEY" !in env)
    ensures var key := Or(openaiApiKey, EnvGet(env, "OPENAI_API_KEY"));
      !(Truthy(key) && key != Some("dummy"))
  {
  }
}
