# cooper-mvp core, modelled in Dafny

cooper-mvp is a pipeline for marketing analysis. It works in five steps:

1. Pick TikTok videos for a topic (`VideoFinder`).
2. Scrape their comments and engagement counters through Apify or a webhook service (`Scraper`).
3. Score the comments and the audio transcript by seven emotions with a chat-completions model (`TextEmotionAnalyzer`, `AudioEmotionAnalyzer`).
4. Relate the averaged emotion scores to the averaged counters (`Correlator`).
5. Turn those metrics into insights and PR hooks, guided by brand-guideline chunks (`InsightGenerator`).

This project models those six classes. Each file follows the form of its source:

- `video_finder.dfy`: the fixed topic table and its lookup.
- `scraper.dfy`:
  - the result parser, with its JSON round trip;
  - the `Scraper` class, whose polling loop is a method proved against a polling function over the sequence of HTTP replies and the elapsed time.
- `correlator.dfy`:
  - every loop of `compute` as a method proved against a specification function;
  - lemmas that state what each metric is, that keys are distinct, how comment ratios depend on the comment count, and how missing counters and unlisted emotions behave.
- `emotion_scores.dfy`: how both analyzers read the model's answer. It covers the `float` loop over the decoded object and the neutral fallback.
- `text_emotion_analyzer.dfy` and `audio_emotion_analyzer.dfy`: the analyzer classes. They cover the dummy keys, the transcript choice and the request that is sent.
- `insight_generator.dfy`:
  - the paragraph chunking of the guidelines (a loop proved against a function, with lemmas that characterise the chunks);
  - the offline retrieval;
  - `generate` and `suggest_pr_hooks`, with their canned, live and template answers.
- `py.dfy`: the Python semantics the core relies on:
  - JSON values;
  - `dict.get`, `float`, slicing with negative bounds;
  - `str.strip`, `str.split`, `str.join`;
  - `or` on optional strings;
  - `os.environ.get`.

Several things outside the code become parameters:

- The network, the OpenAI and Whisper calls, the process environment and the wall clock. The clock is integer ticks, and each request's latency is a parameter.
- `float(str)`, as `parse`.
- `round(x, 2)`, as `round2`.

Floating-point numbers are exact reals.

Three behaviours of the code are kept as written:

- A failed status GET ends `get_result` with RequestError instead of being retried. `_check_status` wraps the HTTP error in `RequestError`, which is not an `httpx.HTTPError`, so the loop's handler does not catch it. Only a failed dataset fetch is retried.
- Every failure of `_parse_result` leaves as TypeError, not as the ValidationError its docstring promises. Both handlers call pydantic's `ValidationError` with a single message, and that class cannot be constructed this way. A malformed item therefore ends `get_result` with TypeError (`Scraper.ParseResult`).
- `generate` and `suggest_pr_hooks` never use a bare JSON list answer. `.get` raises on a list before the `isinstance(result, list)` test is reached, so the template is returned (`InsightGenerator.ListAnswerGivesTemplate`).

## Model

| member | source | states |
|---|---|---|
| VideoFinder.GetVideos | src/video_finder.py:36-46 | The list is non-empty exactly for the topics "cooking" and "fitness" (exact key match); any other topic gives the empty list |
| VideoFinder.TableShape | src/video_finder.py:9-34 | Each known topic has 10 URLs, and the i-th is `https://www.tiktok.com/<topic>/video<i>` |
| VideoFinder.AllUrlsDistinct | src/video_finder.py:9-34 | No URL appears twice in the table, within a topic or across the two topics |
| Scraper.Scraper.constructor | src/scraper.py:31-53 | Stores the token, task id, webhook URL, poll interval and timeout as given |
| Scraper.Scraper.StartScrape | src/scraper.py:55-83 | Webhook mode returns `job_id` of the reply (None when absent); Apify mode returns `data.id`. An HTTP failure gives RequestError, a body that is not JSON gives JSONDecodeError, and a non-object gives AttributeError |
| Scraper.JobIdRoundTrip | src/scraper.py:69-81 | The id placed where each mode reads it is the id returned |
| Scraper.Scraper.Examine | src/scraper.py:104-120 | A non-object status gives AttributeError. In webhook mode the job is Completed, carrying the document itself, exactly when `status` is "completed"; any other status keeps polling. In Apify mode a non-object `data` gives AttributeError; otherwise the job is Succeeded, with run id `data.id` (None when absent), exactly when `data.status` is "SUCCEEDED"; any other status, "FAILED" included, keeps polling |
| Scraper.ParseVideo | src/scraper.py:16-19 | A record is built exactly from an object with a string `url`, a list of string `comments` and an object `metadata`, and it carries those three values. A non-object item fails with TypeError; an object missing or mistyping a field fails with ValidationError |
| Scraper.ParseResult | src/scraper.py:154-170 | Succeeds exactly when the document is an object whose `items` (an empty list when absent) parse, and then returns those records. Every failure leaves as TypeError, because constructing `ValidationError` from a message raises it |
| Scraper.ParseItemsFails | src/scraper.py:165-166 | A list of items parses as its comprehension does. Any other value gets through only as an empty dict or an empty string and otherwise fails with TypeError. Failures before the handlers are TypeError or ValidationError |
| Scraper.ParseAllSpec | src/scraper.py:166 | Parsing the item list succeeds exactly when every item validates. The records are then one per item, in order. Otherwise the error is that of the first item that fails |
| Scraper.VideoRoundTrip | src/scraper.py:16-19 | Parsing the JSON of a record gives back the record |
| Scraper.RecordsRoundTrip | src/scraper.py:165-166 | Parsing a list of records' JSON gives back the records, in order |
| Scraper.Scraper.GetResult | src/scraper.py:85-127 | The polling loop returns the result, the requests sent and the final clock that the polling function `Poll` defines over the replies and latencies |
| Scraper.PollBounds | src/scraper.py:97-127 | Every request is sent before the timeout. The result is TimeoutError exactly when the clock reached the timeout. With latencies bounded by M, a timed-out run ends before timeout + interval + M |
| Scraper.PendingTimesOut | src/scraper.py:99-127 | If the job never finishes, the loop only sends status GETs to the status URL and ends in TimeoutError |
| Scraper.DatasetFailureRetried | src/scraper.py:109-124 | A failed dataset fetch after SUCCEEDED is swallowed: the loop sleeps and polls again |
| Scraper.SampleItemsParse | tests/test_scraper.py:32-48 | The sample items of the tests parse into two records with the expected URLs |
| Scraper.MissingFieldsFail | tests/test_scraper.py:183-195 | An item with only a `url` fails validation, and `_parse_result` raises (TypeError, as the handlers fail) |
| Scraper.ApifyPollsUntilSuccess | tests/test_scraper.py:92-133 | RUNNING, RUNNING, SUCCEEDED, then the dataset: four requests and the two sample records |
| Scraper.WebhookPollsUntilCompleted | tests/test_scraper.py:135-165 | running, then completed with items: two status GETs to `<webhook>/status/<id>` and the two records |
| Scraper.CompletedItemsParse | tests/test_scraper.py:135-165 | The completed status document of the webhook test parses into the two sample records |
| Scraper.ApifyTimesOut | tests/test_scraper.py:167-181 | A job that stays RUNNING ends in TimeoutError |
| Scraper.PrependTwice | src/scraper.py:99-124 | Requests logged in two rounds are the concatenation of both rounds' requests |
| Correlator.MergeScores | src/correlator.py:39-43 | The merge loop yields, per emotion, the mean of the text and audio scores (0.0 when absent) |
| Correlator.SumCounters | src/correlator.py:53-56 | The summing loop returns the per-counter totals, or the first `float` failure, in video and counter order |
| Correlator.Average | src/correlator.py:59-60 | Each total is divided by the number of videos |
| Correlator.EmitVsEntries | src/correlator.py:63-71 | The nested loop emits the 28 `<emotion>_vs_<field>` entries in emotion-major order |
| Correlator.CountComments | src/correlator.py:74 | The count is the total number of comments over all videos |
| Correlator.EmitRatioEntries | src/correlator.py:75-79 | Appends one `<emotion>_comment_ratio` entry per emotion after the `_vs_` entries |
| Correlator.Compute | src/correlator.py:18-81 | `compute` returns `Correlate` of its inputs, whose properties are the lemmas below |
| Correlator.NoVideosNoMetrics | src/correlator.py:47-50 | No videos give no metrics, whatever the scores |
| Correlator.TotalsSpec | src/correlator.py:53-56 | Summing succeeds exactly when every present counter of every video converts. Each total is then the sum over the videos of that counter (0 when absent). Otherwise the error is that of the first failing (video, counter) |
| Correlator.TotalsFailure | src/correlator.py:53-56 | A conversion failure among the first n videos ends the whole summation with that failure |
| Correlator.AddFieldsSpec | src/correlator.py:54-56 | One video's counters are added field by field, and the first one that does not convert is the error |
| Correlator.CorrelateVs | src/correlator.py:39-71 | Entry 4i+k is `<emotion i>_vs_<field k>`. Its value is round2 of 100 times the averaged score over the field mean, or 0.0 when the mean is not positive |
| Correlator.CorrelateRatio | src/correlator.py:74-79 | With comments, entry 28+i is `<emotion i>_comment_ratio`, valued round2 of 100 times the averaged score over the comment count |
| Correlator.CorrelateNoRatio | src/correlator.py:74-79 | Without comments, no `_comment_ratio` key exists |
| Correlator.CorrelateKeys | src/correlator.py:63-79 | All result keys are distinct. There are 28 of them, plus 7 when there are comments |
| Correlator.AssembleDistinct | src/correlator.py:63-79 | The `_vs_` and ratio keys written into the results dict never collide |
| Correlator.VsKeyInjective | src/correlator.py:69 | Distinct (emotion, field) pairs give distinct `_vs_` keys |
| Correlator.RatioKeyInjective | src/correlator.py:77 | Distinct emotions give distinct ratio keys |
| Correlator.RatioKeyNotVsKey | src/correlator.py:69-77 | No ratio key equals a `_vs_` key |
| Correlator.EmotionNames | src/correlator.py:10-13 | The seven emotion names are distinct and contain no underscore |
| Correlator.FieldNames | src/correlator.py:14-16 | The four counter names are distinct |
| Correlator.AbsentFieldScoresZero | src/correlator.py:55-71 | A counter that no video carries scores 0.0 against every emotion |
| Correlator.OnlyListedEmotionsMatter | src/correlator.py:39-43 | Scores under labels other than the seven emotions never change the result |
| Correlator.MissingMetadataExample | tests/test_correlator.py:77-103 | One video with only `likes`: `joy_vs_likes` is computed and `joy_vs_comments` is 0.0 |
| EmotionScores.CoercedSpec | src/text_emotion_analyzer.py:76-81 | The `float` loop succeeds exactly when every value converts. The scores then carry exactly the object's keys, each with its converted value. Otherwise the error is TypeError or ValueError of the first value that fails |
| EmotionScores.CoercedFailure | src/text_emotion_analyzer.py:79-80 | A failure among the first n entries is the failure of the whole loop |
| EmotionScores.NumbersKept | src/text_emotion_analyzer.py:77-81 | An answer of numbers under distinct keys comes back as it is |
| EmotionScores.Coerce | src/audio_emotion_analyzer.py:121-126 | The conversion loop computes `Coerced` |
| EmotionScores.ReadReply | src/text_emotion_analyzer.py:76-92 | A call failure escapes. No choice or non-JSON content gives the neutral fallback. A missing content escapes as TypeError. A decoded object is converted value by value |
| EmotionScores.NeutralFallbackIsDistribution | src/text_emotion_analyzer.py:82-92 | The fallback names the seven emotions, and its scores lie in [0,1] and sum to 1 |
| TextEmotionAnalyzer.TextEmotionAnalyzer.constructor | src/text_emotion_analyzer.py:7-22 | The key is the argument or else `OPENAI_API_KEY`. A client exists for every key except "dummy" |
| TextEmotionAnalyzer.TextEmotionAnalyzer.Analyze | src/text_emotion_analyzer.py:24-92 | With the key "dummy": fixed scores and no call. Otherwise one call whose user message is the texts joined by newlines, answered as `ReadReply` states |
| TextEmotionAnalyzer.RequestKeepsTexts | src/text_emotion_analyzer.py:46 | The joined message splits back into the texts when none contains a newline |
| TextEmotionAnalyzer.DummyScoresAreDistribution | src/text_emotion_analyzer.py:36-43 | The dummy scores name five emotions, and their scores lie in [0,1] and sum to 1 |
| AudioEmotionAnalyzer.AudioEmotionAnalyzer.constructor | src/audio_emotion_analyzer.py:9-25 | The two keys come from the arguments or the environment. A client exists for every OpenAI key except "dummy" |
| AudioEmotionAnalyzer.AudioEmotionAnalyzer.Transcribe | src/audio_emotion_analyzer.py:27-53 | AssemblyAI key "dummy" gives the simulated transcript. Otherwise Whisper's text, or the fallback text without a client or when the call raises. The transcript is empty only when Whisper returned an empty text |
| AudioEmotionAnalyzer.AudioEmotionAnalyzer.Analyze | src/audio_emotion_analyzer.py:55-137 | Both keys "dummy" give fixed scores. An empty transcript gives the neutral fallback without a call. No client gives AttributeError. Otherwise one call on "Audio transcript: " + transcript. With the AssemblyAI key "dummy" and a client, the simulated transcript is what is scored. Without a client and with another AssemblyAI key, the fallback transcript is made and scoring fails with AttributeError |
| AudioEmotionAnalyzer.DummyScoresAreDistribution | src/audio_emotion_analyzer.py:67-76 | The dummy scores name the seven emotions, and their scores lie in [0,1] and sum to 1 |
| InsightGenerator.ParseGuidelines | src/insight_generator.py:95-114 | The loop returns the chunks of the paragraphs split at blank lines |
| InsightGenerator.ChunksAreClean | src/insight_generator.py:110-112 | Every chunk is non-empty, its first and last characters are not white space, and it is its own strip |
| InsightGenerator.ChunkHasParagraph | src/insight_generator.py:110-112 | Every chunk is the strip of a non-blank paragraph |
| InsightGenerator.ParagraphHasChunk | src/insight_generator.py:110-112 | Every paragraph with a non-empty strip contributes that strip |
| InsightGenerator.ChunksAreParagraphs | src/insight_generator.py:107-112 | A text is a chunk exactly when it is the strip of some non-blank paragraph |
| InsightGenerator.ChunksAtMostParagraphs | src/insight_generator.py:107-112 | There are never more chunks than paragraphs |
| InsightGenerator.ChunksPrepend | src/insight_generator.py:110-112 | Chunking from the front gives the same chunks as the loop |
| InsightGenerator.SingleParagraphExample | tests/test_insight_generator.py:36-48 | "Test guidelines" is one chunk, itself |
| InsightGenerator.ThreeParagraphsExample | tests/test_insight_generator.py:61-80 | Three indented paragraphs separated by blank lines give "Paragraph 1", "Paragraph 2", "Paragraph 3" |
| InsightGenerator.InsightGenerator.constructor | src/insight_generator.py:21-93 | Keys come from the arguments or the environment, and the environment falls back to "gcp-starter". The chunks are those of the guidelines. Vector search needs a truthy, non-dummy Pinecone key. A client needs a truthy, non-dummy OpenAI key |
| InsightGenerator.DummyKeyIsOffline | src/insight_generator.py:90-93 | The key "dummy", or no key at all, gives no client |
| InsightGenerator.InsightGenerator.RelevantGuidelines | src/insight_generator.py:144-175 | Without vector search: a prefix of the chunks of length min(top_k, #chunks), with Python's negative-bound slicing. With it: the matches found |
| InsightGenerator.RetrievedAreChunks | src/insight_generator.py:156-157 | Offline retrieval returns only stripped non-empty strips of non-blank paragraphs |
| InsightGenerator.CutAnswer | src/insight_generator.py:248-254 | `result.get(key, [])[:n]`. A non-object raises. A missing key gives []. A list or string gives a prefix of length min(n, len). Any other value raises |
| InsightGenerator.InsightGenerator.Generate | src/insight_generator.py:177-262 | Offline: a prefix of the three canned insights of length min(n, 3). A failed call escapes. A readable answer is cut to n. Otherwise the template naming the first correlation, or IndexError with no correlations |
| InsightGenerator.InsightFallback | src/insight_generator.py:257-262 | IndexError exactly when there are no correlations. Otherwise a prefix of the two template lines, of length min(n, 2) |
| InsightGenerator.ListAnswerGivesTemplate | src/insight_generator.py:248-253 | An answer that is a bare JSON list is never used; the template comes back |
| InsightGenerator.MockedInsightsExample | tests/test_insight_generator.py:137-213 | The mocked insights answer comes back as it is |
| InsightGenerator.InsightGenerator.SuggestPrHooks | src/insight_generator.py:264-344 | Offline: a prefix of the two canned hooks of length min(n, 2). A failed call escapes. A readable answer is cut to n. Otherwise the template quoting the first 20 characters of the first insight, or IndexError with no insights |
| InsightGenerator.HookFallback | src/insight_generator.py:339-344 | IndexError exactly when there are no insights. Otherwise a prefix of the two template lines, of length min(n, 2) |
| InsightGenerator.MockedHooksExample | tests/test_insight_generator.py:137-213 | The mocked hooks answer comes back as it is |
| Py.Or | src/text_emotion_analyzer.py:15 | `a or b` on optional strings: a when it is truthy, else b |
| Py.EnvGet | src/text_emotion_analyzer.py:15 | `os.environ.get`: present exactly when the name is in the environment, with its value |
| Py.Get | src/scraper.py:165 | `dict.get(key, default)`: the value or the default on an object; AttributeError otherwise |
| Py.Float | src/correlator.py:55 | `float(v)`: numbers as they are, booleans as 1/0, strings through `parse`. Null, lists and objects give TypeError; only TypeError or ValueError occur |
| Py.SliceEnd | src/insight_generator.py:157 | The end of `s[:n]` lies within s, with Python's meaning for negative n |
| Py.Take | src/insight_generator.py:256 | `s[:n]` is a prefix of s of length min(n, len(s)) for n >= 0, and of length max(len(s) + n, 0) for negative n |
| Py.StripLeftSpec | src/insight_generator.py:111 | `lstrip` drops exactly the leading white space |
| Py.StripRightSpec | src/insight_generator.py:111 | `rstrip` drops exactly the trailing white space |
| Py.StripMeetsSpec | src/insight_generator.py:111 | `strip` drops exactly the white-space border |
| Py.StripEmptyIffAllSpace | src/insight_generator.py:111 | The strip is empty exactly when the text is all white space |
| Py.StripIdempotent | src/insight_generator.py:112 | Stripping twice is stripping once |
| Py.StripNoBorder | src/insight_generator.py:112 | A text with no white-space border is its own strip |
| Py.Split | src/insight_generator.py:107 | `str.split(sep)` yields at least one part |
| Py.JoinSplit | src/insight_generator.py:107 | Joining the parts of a split with the separator gives back the text |
| Py.SplitAt | src/insight_generator.py:107 | A text whose first separator follows `a` splits into `a` and the split of the rest |
| Py.SplitNone | src/insight_generator.py:107 | A text without the separator is one part |
| Py.SplitJoin | src/text_emotion_analyzer.py:46 | Joining parts without the separator character and splitting again gives the parts |
| Py.Keys | src/correlator.py:69-77 | The keys of an ordered dict, in order |
| Py.Lookup | src/correlator.py:69-77 | A lookup finds a value exactly for a present key |
| Py.PutFresh | src/correlator.py:69-77 | Assigning a new key appends the entry at the end, as dict insertion order does |
| Py.LookupAt | src/correlator.py:69-77 | With distinct keys, each entry's key finds that entry's value |

## Left out

- `app.py`, the package `__init__.py` files and the API layer are not part of this model.
- Network I/O is left out: the HTTP client, the request bodies (`ScrapeConfig.model_dump`) and headers. Each HTTP reply is a parameter, and the model records only the request's kind, URL and send time.
- `time.time` and `time.sleep` are left out. Time is integer ticks, and each round's request latency is a parameter.
- Scraper.Poll: requires a positive poll interval. With an interval of 0 the source still ends because the wall clock advances, which integer ticks do not capture.
- The chat-completions and Whisper calls are left out: prompts, model names, temperature and `response_format`. Their outcomes are the parameters `ChatReply`, `Completion` and `whisper`. A decoded answer of the analyzers is always a JSON object because JSON mode is requested.
- The audio file itself is left out; the transcription outcome is a parameter.
- Pinecone and SentenceTransformer are left out: `_add_guidelines_to_index`, the live branch of `_search_relevant_guidelines` and the printed initialisation error. Vector search coming up is the parameter `vectorSearchReady`, and its matches are the parameter `liveMatches`.
- `round(x, 2)` and `float(str)` are the parameters `round2` and `parse`. Floating point is exact real arithmetic, so rounding error and division by tiny means are not modelled.
- The insertion order of the emotion-score dicts is left out: the analyzers' scores are unordered maps. The correlator's result keeps its order.
- Duplicate keys in a JSON answer are left out (the last value wins in Python); lemmas that need it require distinct keys.
- ParseVideo: follows pydantic 2 validation of JSON input, where a field must already have its declared type. pydantic 1 would also coerce, for example, a number `url` into a string; that coercion is not modelled.
- OpenAI client construction raising on a missing key is left out: a client is assumed to exist whenever the source creates one.
- TextEmotionAnalyzer.TextEmotionAnalyzer.Analyze: requires the object's `hasClient` to agree with its key, which the constructor guarantees. The model name is stored but only passed to the left-out call.
- The tests that mutate `webhook_url` or `_timeout` on an existing scraper are modelled as separately constructed scrapers.
