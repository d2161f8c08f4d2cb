/**
 * `Scraper`: starts a TikTok scrape job, either through an n8n webhook or
 * directly through Apify, polls the job until it finishes or a deadline
 * passes, and validates the returned items into `VideoData` records.
 *
 * The network is a parameter. Every HTTP exchange is a `Reply`, and the
 * replies to the GET requests of one `get_result` call are an oracle
 * `replies: nat -> Reply` indexed by the order in which the requests are
 * sent. Time is counted in whole ticks from the start of the call. One
 * iteration of the polling loop costs `latency(round)` ticks of network time
 * plus the `pollInterval` ticks of its sleep.
 */
module Scraper {
  import opened Py

  /** One scraped video: its URL, its comment texts and free-form metadata. */
  datatype VideoData = VideoData(url: string, comments: seq<string>, metadata: map<string, Value>)

  /** One HTTP exchange as the scraper sees it. */
  datatype Reply =
    | HttpFailure        // an httpx.HTTPError: a transport error or a 4xx/5xx status
    | Body(json: Value)  // a successful response whose body decodes as JSON
    | NotJson            // a successful response whose body is not JSON

  /** A GET request issued by `get_result`, with the tick at which its loop iteration began. */
  datatype Request =
    | StatusGet(url: string, at: int)
    | DatasetGet(runId: Value, at: int)

  /** What one `get_result` call ends with: its result, the GETs it sent, and the clock. */
  datatype Outcome = Outcome(result: Result<seq<VideoData>>, requests: seq<Request>, clock: int)

  /** What one status document says about the job. */
  datatype Status =
    | Pending                  // keep polling
    | Completed(raw: Value)    // webhook: the status document itself carries the items
    | Succeeded(runId: Value)  // Apify: the items are in the run's dataset
    | Broken(e: Error)         // the document cannot be read

  function Prepend(reqs: seq<Request>, o: Outcome): Outcome {
    Outcome(o.result, reqs + o.requests, o.clock)
  }

  lemma PrependTwice(a: seq<Request>, b: seq<Request>, o: Outcome)
    ensures Prepend(a, Prepend(b, o)) == Prepend(a + b, o)
  {
    assert a + (b + o.requests) == (a + b) + o.requests;
  }

  // ---------------------------------------------------------------------
  // Validating the result items

  /**
   * `VideoData(**item)`: a dict with a string `url`, a list of string
   * `comments` and a dict `metadata` (other keys ignored). An item that is
   * not a mapping fails at `**` with TypeError; a mapping with a missing or
   * mistyped field fails pydantic's validation.
   */
  function ParseVideo(item: Value): (r: Result<VideoData>)
    ensures r.Ok? <==>
      item.Obj? && "url" in item.fields && item.fields["url"].Str?
      && "comments" in item.fields && item.fields["comments"].Arr?
      && (forall c <- item.fields["comments"].items :: c.Str?)
      && "metadata" in item.fields && item.fields["metadata"].Obj?
    ensures r.Ok? ==>
      r.value.url == item.fields["url"].s
      && |r.value.comments| == |item.fields["comments"].items|
      && (forall i :: 0 <= i < |r.value.comments| ==> Str(r.value.comments[i]) == item.fields["comments"].items[i])
      && r.value.metadata == item.fields["metadata"].fields
    ensures !item.Obj? ==> r == Err(TypeError)
    ensures item.Obj? && r.Err? ==> r.error == ValidationError
  {
    match item
    case Obj(m) =>
      if "url" in m && m["url"].Str?
        && "comments" in m && m["comments"].Arr? && (forall c <- m["comments"].items :: c.Str?)
        && "metadata" in m && m["metadata"].Obj?
      then
        var cs := m["comments"].items;
        assert forall i :: 0 <= i < |cs| ==> cs[i] in cs;
        Ok(VideoData(m["url"].s, seq(|cs|, i requires 0 <= i < |cs| => cs[i].s), m["metadata"].fields))
      else Err(ValidationError)
    case _ => Err(TypeError)
  }

  /** The JSON form of a record, as its fields are written in a dataset item. */
  function VideoJson(v: VideoData): Value {
    Obj(map[
      "url" := Str(v.url),
      "comments" := Arr(seq(|v.comments|, i requires 0 <= i < |v.comments| => Str(v.comments[i]))),
      "metadata" := Obj(v.metadata)])
  }

  /** The list comprehension over a JSON array: all items validate, or the first failure is raised. */
  function ParseAll(xs: seq<Value>): (r: Result<seq<VideoData>>)
    decreases |xs|
  {
    if xs == [] then Ok([])
    else match ParseVideo(xs[0])
      case Err(e) => Err(e)
      case Ok(v) =>
        match ParseAll(xs[1..])
        case Err(e) => Err(e)
        case Ok(vs) => Ok([v] + vs)
  }

  /**
   * Iterating over `items`: a list yields its elements; a dict yields its
   * string keys and a string its characters, neither of which is a mapping,
   * so only an empty one gets through; anything else is not iterable.
   */
  function ParseItems(items: Value): Result<seq<VideoData>> {
    match items
    case Arr(xs) => ParseAll(xs)
    case Obj(m) => if |m| == 0 then Ok([]) else Err(TypeError)
    case Str(s) => if s == "" then Ok([]) else Err(TypeError)
    case _ => Err(TypeError)
  }

  /** The `items` value `_parse_result` reads from a dict, an empty list when absent. */
  function ItemsOf(raw: Value): Value
    requires raw.Obj?
  {
    if "items" in raw.fields then raw.fields["items"] else Arr([])
  }

  /**
   * `_parse_result(raw)`: the records of the items under `"items"`. Both
   * handlers try to raise pydantic's `ValidationError` from a message, which
   * that class does not accept, so every failure leaves as TypeError.
   */
  function ParseResult(raw: Value): (r: Result<seq<VideoData>>)
    ensures r.Ok? <==> raw.Obj? && ParseItems(ItemsOf(raw)).Ok?
    ensures r.Ok? ==> r == ParseItems(ItemsOf(raw))
    ensures r.Err? ==> r.error == TypeError
  {
    match Get(raw, "items", Arr([]))
    case Err(_) => Err(TypeError)
    case Ok(items) =>
      match ParseItems(items)
      case Err(_) => Err(TypeError)
      case Ok(vs) => Ok(vs)
  }

  /**
   * What iterating `items` raises before the handlers: an array fails as its
   * comprehension does; any other value gets through only when it is an
   * empty dict or string, and fails with TypeError otherwise.
   */
  lemma ParseItemsFails(items: Value)
    ensures items.Arr? ==> ParseItems(items) == ParseAll(items.items)
    ensures !items.Arr? ==> (ParseItems(items).Ok? <==> items == Obj(map[]) || items == Str(""))
    ensures !items.Arr? && ParseItems(items).Err? ==> ParseItems(items).error == TypeError
    ensures ParseItems(items).Err? ==> ParseItems(items).error == TypeError || ParseItems(items).error == ValidationError
  {
    if items.Arr? {
      ParseAllSpec(items.items);
    } else if items.Obj? && |items.fields| == 0 {
      assert items.fields == map[];
    }
  }

  /**
   * The list comprehension validates every item, keeps their order, and
   * fails exactly when one item fails, with the error of the first one.
   */
  lemma {:induction false} ParseAllSpec(xs: seq<Value>)
    ensures ParseAll(xs).Ok? <==> forall i :: 0 <= i < |xs| ==> ParseVideo(xs[i]).Ok?
    ensures ParseAll(xs).Ok? ==>
      |ParseAll(xs).value| == |xs| &&
      forall i :: 0 <= i < |xs| ==> ParseAll(xs).value[i] == ParseVideo(xs[i]).value
    ensures ParseAll(xs).Err? ==>
      exists i :: 0 <= i < |xs| && ParseVideo(xs[i]).Err? && ParseAll(xs).error == ParseVideo(xs[i]).error
        && forall j :: 0 <= j < i ==> ParseVideo(xs[j]).Ok?
    decreases |xs|
  {
    if xs != [] {
      ParseAllSpec(xs[1..]);
      assert forall i :: 1 <= i < |xs| ==> xs[i] == xs[1..][i - 1];
      if ParseVideo(xs[0]).Ok? && ParseAll(xs[1..]).Err? {
        var i :| 0 <= i < |xs[1..]| && ParseVideo(xs[1..][i]).Err? && ParseAll(xs[1..]).error == ParseVideo(xs[1..][i]).error
                 && forall j :: 0 <= j < i ==> ParseVideo(xs[1..][j]).Ok?;
        assert ParseVideo(xs[i + 1]).Err?;
      }
    }
  }

  /** Every record survives its JSON form unchanged. */
  lemma VideoRoundTrip(v: VideoData)
    ensures ParseVideo(VideoJson(v)) == Ok(v)
  {
    var m := VideoJson(v).fields;
    var cs := m["comments"].items;
    assert forall c <- cs :: c.Str?;
    var back := seq(|cs|, i requires 0 <= i < |cs| => cs[i].s);
    assert back == v.comments;
  }

  /** A list of records survives its JSON form, in order. */
  lemma RecordsRoundTrip(vs: seq<VideoData>)
    ensures ParseItems(Arr(seq(|vs|, i requires 0 <= i < |vs| => VideoJson(vs[i])))) == Ok(vs)
  {
    var xs := seq(|vs|, i requires 0 <= i < |vs| => VideoJson(vs[i]));
    forall i | 0 <= i < |xs| ensures ParseVideo(xs[i]) == Ok(vs[i]) {
      VideoRoundTrip(vs[i]);
    }
    ParseAllSpec(xs);
    assert ParseAll(xs).value == vs;
  }

  // ---------------------------------------------------------------------
  // The scraper

  class Scraper {
    const apifyToken: string
    const actorTaskId: string
    const webhookUrl: Option<string>
    const pollInterval: int
    const timeout: int

    constructor (apifyToken: string, actorTaskId: string, webhookUrl: Option<string>, pollInterval: int, timeout: int)
      ensures this.apifyToken == apifyToken && this.actorTaskId == actorTaskId
      ensures this.webhookUrl == webhookUrl
      ensures this.pollInterval == pollInterval && this.timeout == timeout
    {
      this.apifyToken := apifyToken;
      this.actorTaskId := actorTaskId;
      this.webhookUrl := webhookUrl;
      this.pollInterval := pollInterval;
      this.timeout := timeout;
    }

    /** The webhook is used whenever its URL is neither None nor empty. */
    predicate UsesWebhook() {
      Truthy(webhookUrl)
    }

    /** The URL that `start_scrape` posts the configuration to. */
    function StartUrl(): string {
      if UsesWebhook() then webhookUrl.value
      else "https://api.apify.com/v2/actor-tasks/" + actorTaskId + "/runs?token=" + apifyToken
    }

    /** The URL that `_check_status` reads. */
    function StatusUrl(jobId: string): string {
      if UsesWebhook() then webhookUrl.value + "/status/" + jobId
      else "https://api.apify.com/v2/actor-runs/" + jobId + "?token=" + apifyToken
    }

    /**
     * `start_scrape`, given the reply to its POST: the job id is `job_id` of
     * the webhook's reply or `data.id` of Apify's, None (here `Null`) when
     * absent. A failed POST becomes RequestError; a body that is not JSON or
     * not a dict makes the error of `.json()` or `.get` escape as it is.
     */
    function StartScrape(reply: Reply): (r: Result<Value>)
      ensures reply.HttpFailure? ==> r == Err(RequestError)
      ensures reply.NotJson? ==> r == Err(JSONDecodeError)
      ensures reply.Body? && !reply.json.Obj? ==> r == Err(AttributeError)
      ensures reply.Body? && reply.json.Obj? && UsesWebhook() ==>
        r == Ok(if "job_id" in reply.json.fields then reply.json.fields["job_id"] else Null)
      ensures reply.Body? && reply.json.Obj? && !UsesWebhook() && "data" !in reply.json.fields ==> r == Ok(Null)
      ensures reply.Body? && reply.json.Obj? && !UsesWebhook() && "data" in reply.json.fields ==>
        var d := reply.json.fields["data"];
        r == (if !d.Obj? then Err(AttributeError) else if "id" in d.fields then Ok(d.fields["id"]) else Ok(Null))
    {
      match reply
      case HttpFailure => Err(RequestError)
      case NotJson => Err(JSONDecodeError)
      case Body(data) =>
        if UsesWebhook() then Get(data, "job_id", Null)
        else
          match Get(data, "data", Obj(map[]))
          case Err(e) => Err(e)
          case Ok(inner) => Get(inner, "id", Null)
    }

    /**
     * What a status document says: in webhook mode the job is done when
     * `status` is exactly "completed"; in Apify mode when `data.status` is
     * exactly "SUCCEEDED". Any other status, "FAILED" included, keeps the
     * loop polling; `.get` on a non-dict raises AttributeError.
     */
    function Examine(data: Value): (st: Status)
      ensures !data.Obj? ==> st == Broken(AttributeError)
      ensures st.Broken? ==> st.e == AttributeError
      ensures st.Completed? ==> UsesWebhook() && st.raw == data
      ensures st.Succeeded? ==> !UsesWebhook()
      ensures UsesWebhook() && data.Obj? ==>
        (st.Completed? <==> "status" in data.fields && data.fields["status"] == Str("completed"))
        && (!st.Completed? ==> st == Pending)
      ensures !UsesWebhook() && data.Obj? ==>
        var inner := if "data" in data.fields then data.fields["data"] else Obj(map[]);
        (!inner.Obj? ==> st == Broken(AttributeError))
        && (inner.Obj? ==>
              (st.Succeeded? <==> "status" in inner.fields && inner.fields["status"] == Str("SUCCEEDED"))
              && (!st.Succeeded? ==> st == Pending)
              && (st.Succeeded? ==> st.runId == if "id" in inner.fields then inner.fields["id"] else Null))
    {
      if UsesWebhook() then
        match Get(data, "status", Null)
        case Err(e) => Broken(e)
        case Ok(status) => if status == Str("completed") then Completed(data) else Pending
      else
        match Get(data, "data", Obj(map[]))
        case Err(e) => Broken(e)
        case Ok(inner) =>
          match Get(inner, "status", Null)
          case Err(e) => Broken(e)
          case Ok(status) =>
            if status == Str("SUCCEEDED") then Succeeded(Get(inner, "id", Null).value) else Pending
    }

    /**
     * The polling loop of `get_result` from an iteration that starts at tick
     * `elapsed`, having sent `sent` GETs in `round` earlier iterations.
     * A status GET that fails leaves the loop as RequestError, because
     * `_check_status` re-raises it as an exception the loop does not catch;
     * only a failed dataset GET is retried after a sleep.
     */
    function Poll(jobId: string, replies: nat -> Reply, latency: nat -> nat, round: nat, sent: nat, elapsed: int): Outcome
      requires pollInterval > 0
      decreases timeout - elapsed
    {
      if elapsed >= timeout then Outcome(Err(TimeoutError), [], elapsed)
      else
        var status := StatusGet(StatusUrl(jobId), elapsed);
        var next := elapsed + latency(round) + pollInterval;
        match replies(sent)
        case HttpFailure => Outcome(Err(RequestError), [status], elapsed)
        case NotJson => Outcome(Err(JSONDecodeError), [status], elapsed)
        case Body(data) =>
          match Examine(data)
          case Broken(e) => Outcome(Err(e), [status], elapsed)
          case Completed(raw) => Outcome(ParseResult(raw), [status], elapsed)
          case Pending => Prepend([status], Poll(jobId, replies, latency, round + 1, sent + 1, next))
          case Succeeded(runId) =>
            var fetch := DatasetGet(runId, elapsed);
            match replies(sent + 1)
            case HttpFailure => Prepend([status, fetch], Poll(jobId, replies, latency, round + 1, sent + 2, next))
            case NotJson => Outcome(Err(JSONDecodeError), [status, fetch], elapsed)
            case Body(items) => Outcome(ParseResult(Obj(map["items" := items])), [status, fetch], elapsed)
    }

    /** `get_result(job_id)`: poll until the job finishes, fails or the deadline passes. */
    method GetResult(jobId: string, replies: nat -> Reply, latency: nat -> nat)
      returns (result: Result<seq<VideoData>>, requests: seq<Request>, clock: int)
      requires pollInterval > 0
      ensures Outcome(result, requests, clock) == Poll(jobId, replies, latency, 0, 0, 0)
    {
      var elapsed := 0;
      var round, sent := 0, 0;
      requests := [];
      while elapsed < timeout
        invariant Prepend(requests, Poll(jobId, replies, latency, round, sent, elapsed))
               == Poll(jobId, replies, latency, 0, 0, 0)
        decreases timeout - elapsed
      {
        ghost var done, here := requests, Poll(jobId, replies, latency, round, sent, elapsed);
        var status := StatusGet(StatusUrl(jobId), elapsed);
        var next := elapsed + latency(round) + pollInterval;
        var reply := replies(sent);
        if reply.HttpFailure? {
          return Err(RequestError), requests + [status], elapsed;
        } else if reply.NotJson? {
          return Err(JSONDecodeError), requests + [status], elapsed;
        }
        var st := Examine(reply.json);
        if st.Broken? {
          return Err(st.e), requests + [status], elapsed;
        } else if st.Completed? {
          return ParseResult(st.raw), requests + [status], elapsed;
        } else if st.Succeeded? {
          var fetch := DatasetGet(st.runId, elapsed);
          var items := replies(sent + 1);
          if items.NotJson? {
            return Err(JSONDecodeError), requests + [status, fetch], elapsed;
          } else if items.Body? {
            return ParseResult(Obj(map["items" := items.json])), requests + [status, fetch], elapsed;
          }
          assert here == Prepend([status, fetch], Poll(jobId, replies, latency, round + 1, sent + 2, next));
          PrependTwice(done, [status, fetch], Poll(jobId, replies, latency, round + 1, sent + 2, next));
          requests, sent := requests + [status, fetch], sent + 2;
        } else {
          assert here == Prepend([status], Poll(jobId, replies, latency, round + 1, sent + 1, next));
          PrependTwice(done, [status], Poll(jobId, replies, latency, round + 1, sent + 1, next));
          requests, sent := requests + [status], sent + 1;
        }
        elapsed, round := next, round + 1;
      }
      result, clock := Err(TimeoutError), elapsed;
    }
  }

  // ---------------------------------------------------------------------
  // Properties of starting and polling a job

  /** The job id the service puts in its reply is the one `start_scrape` returns, whatever else the reply holds. */
  lemma JobIdRoundTrip(s: Scraper, id: string, rest: map<string, Value>)
    ensures s.UsesWebhook() ==>
      s.StartScrape(Body(Obj(rest["job_id" := Str(id)]))) == Ok(Str(id))
    ensures !s.UsesWebhook() ==>
      s.StartScrape(Body(Obj(rest["data" := Obj(rest["id" := Str(id)])]))) == Ok(Str(id))
  {
  }

  /**
   * Whatever the replies and the network time: every GET is sent in an
   * iteration that began before the deadline, a TimeoutError is raised
   * exactly when the clock has reached the deadline, and with every
   * latency at most `maxLatency` a timeout is raised less than one
   * iteration after the deadline.
   */
  lemma {:induction false} PollBounds(s: Scraper, jobId: string, replies: nat -> Reply, latency: nat -> nat,
                                      round: nat, sent: nat, elapsed: int, maxLatency: nat)
    requires s.pollInterval > 0
    ensures var o := s.Poll(jobId, replies, latency, round, sent, elapsed);
      (forall k :: 0 <= k < |o.requests| ==> elapsed <= o.requests[k].at < s.timeout)
      && (o.result == Err(TimeoutError) <==> o.clock >= s.timeout)
      && o.clock >= elapsed
      && (elapsed < s.timeout && (forall k :: latency(k) <= maxLatency) && o.result == Err(TimeoutError)
          ==> o.clock < s.timeout + s.pollInterval + maxLatency)
    decreases s.timeout - elapsed
  {
    var o := s.Poll(jobId, replies, latency, round, sent, elapsed);
    if elapsed < s.timeout {
      var next := elapsed + latency(round) + s.pollInterval;
      if replies(sent).Body? {
        var st := s.Examine(replies(sent).json);
        if st.Pending? {
          PollBounds(s, jobId, replies, latency, round + 1, sent + 1, next, maxLatency);
        } else if st.Succeeded? && replies(sent + 1).HttpFailure? {
          PollBounds(s, jobId, replies, latency, round + 1, sent + 2, next, maxLatency);
        }
      }
    }
  }

  /** A job that never leaves the pending state ends in TimeoutError, after status GETs only. */
  lemma {:induction false} PendingTimesOut(s: Scraper, jobId: string, replies: nat -> Reply, latency: nat -> nat,
                                           round: nat, sent: nat, elapsed: int)
    requires s.pollInterval > 0
    requires forall n :: replies(n).Body? && s.Examine(replies(n).json) == Pending
    ensures var o := s.Poll(jobId, replies, latency, round, sent, elapsed);
      o.result == Err(TimeoutError)
      && forall k :: 0 <= k < |o.requests| ==> o.requests[k].StatusGet? && o.requests[k].url == s.StatusUrl(jobId)
    decreases s.timeout - elapsed
  {
    if elapsed < s.timeout {
      PendingTimesOut(s, jobId, replies, latency, round + 1, sent + 1, elapsed + latency(round) + s.pollInterval);
    }
  }

  /** A failed dataset GET costs one sleep and the loop polls the status again. */
  lemma DatasetFailureRetried(s: Scraper, jobId: string, replies: nat -> Reply, latency: nat -> nat,
                              round: nat, sent: nat, elapsed: int)
    requires s.pollInterval > 0 && elapsed < s.timeout
    requires replies(sent).Body? && s.Examine(replies(sent).json).Succeeded?
    requires replies(sent + 1) == HttpFailure
    ensures var next := elapsed + latency(round) + s.pollInterval;
      s.Poll(jobId, replies, latency, round, sent, elapsed)
      == Prepend([StatusGet(s.StatusUrl(jobId), elapsed), DatasetGet(s.Examine(replies(sent).json).runId, elapsed)],
                 s.Poll(jobId, replies, latency, round + 1, sent + 2, next))
  {
  }

  // ---------------------------------------------------------------------
  // The scenarios of the repository's tests

  function SampleItem(n: string, c1: string, c2: string, duration: real): Value {
    Obj(map[
      "url" := Str("https://example.com/video" + n),
      "comments" := Arr([Str(c1), Str(c2)]),
      "metadata" := Obj(map["duration" := Num(duration), "title" := Str("Test Video " + n)])])
  }

  function SampleItems(): Value {
    Arr([SampleItem("1", "Great video!", "Nice content", 120.0), SampleItem("2", "Awesome!", "Very informative", 180.0)])
  }

  function RunStatus(status: string): Value {
    Obj(map["data" := Obj(map["status" := Str(status), "id" := Str("test_job_id")])])
  }

  lemma SampleItemsParse()
    ensures var r := ParseItems(SampleItems());
      r.Ok? && |r.value| == 2
      && r.value[0].url == "https://example.com/video1" && r.value[1].url == "https://example.com/video2"
  {
    var xs := SampleItems().items;
    assert ParseVideo(xs[0]).Ok? && ParseVideo(xs[1]).Ok?;
    ParseAllSpec(xs);
  }

  /** The invalid item of the tests, with a `url` only, fails validation, and the parse leaves as TypeError. */
  lemma MissingFieldsFail()
    ensures ParseVideo(Obj(map["url" := Str("https://example.com/video1")])) == Err(ValidationError)
    ensures ParseResult(Obj(map["items" := Arr([Obj(map["url" := Str("https://example.com/video1")])])])) == Err(TypeError)
  {
    var items := Arr([Obj(map["url" := Str("https://example.com/video1")])]);
    assert Get(Obj(map["items" := items]), "items", Arr([])) == Ok(items);
    assert ParseItems(items) == Err(ValidationError);
  }

  /** Two RUNNING polls, a SUCCEEDED poll and the dataset GET: four GETs and the two sample videos. */
  lemma ApifyPollsUntilSuccess(s: Scraper, replies: nat -> Reply, latency: nat -> nat)
    requires !s.UsesWebhook() && s.pollInterval == 1 && s.timeout == 5
    requires forall k :: latency(k) == 0
    requires replies(0) == Body(RunStatus("RUNNING")) && replies(1) == Body(RunStatus("RUNNING"))
    requires replies(2) == Body(RunStatus("SUCCEEDED"))
    requires replies(3) == Body(SampleItems())
    ensures var o := s.Poll("test_job_id", replies, latency, 0, 0, 0);
      |o.requests| == 4 && o.result.Ok? && |o.result.value| == 2
      && o.result.value[0].url == "https://example.com/video1"
      && o.result.value[1].url == "https://example.com/video2"
  {
    var p2 := s.Poll("test_job_id", replies, latency, 2, 2, 2);
    assert s.Examine(RunStatus("SUCCEEDED")) == Succeeded(Str("test_job_id"));
    assert Get(Obj(map["items" := SampleItems()]), "items", Arr([])) == Ok(SampleItems());
    SampleItemsParse();
    assert |p2.requests| == 2 && p2.result == ParseItems(SampleItems());
    assert s.Examine(RunStatus("RUNNING")) == Pending;
    var p1 := s.Poll("test_job_id", replies, latency, 1, 1, 1);
    assert p1 == Prepend([StatusGet(s.StatusUrl("test_job_id"), 1)], p2);
  }

  /** A status document carrying the sample items parses as those items. */
  lemma CompletedItemsParse(done: Value)
    requires done == Obj(map["status" := Str("completed"), "items" := SampleItems()])
    ensures ParseResult(done) == ParseItems(SampleItems())
    ensures ParseResult(done).Ok? && |ParseResult(done).value| == 2
    ensures ParseResult(done).value[0].url == "https://example.com/video1"
    ensures ParseResult(done).value[1].url == "https://example.com/video2"
  {
    assert Get(done, "items", Arr([])) == Ok(SampleItems());
    SampleItemsParse();
  }

  /** A "running" poll then a "completed" one carrying the items: two GETs to the status URL. */
  lemma WebhookPollsUntilCompleted(s: Scraper, replies: nat -> Reply, latency: nat -> nat)
    requires s.webhookUrl == Some("https://example.com/webhook") && s.pollInterval == 1 && s.timeout == 5
    requires forall k :: latency(k) == 0
    requires replies(0) == Body(Obj(map["status" := Str("running")]))
    requires replies(1) == Body(Obj(map["status" := Str("completed"), "items" := SampleItems()]))
    ensures var o := s.Poll("webhook_job_id", replies, latency, 0, 0, 0);
      |o.requests| == 2 && o.requests[0].StatusGet?
      && o.requests[0].url == "https://example.com/webhook/status/webhook_job_id"
      && o.result.Ok? && |o.result.value| == 2
      && o.result.value[0].url == "https://example.com/video1"
      && o.result.value[1].url == "https://example.com/video2"
  {
    var done := Obj(map["status" := Str("completed"), "items" := SampleItems()]);
    var url := s.StatusUrl("webhook_job_id");
    assert url == "https://example.com/webhook/status/webhook_job_id";
    var p1 := s.Poll("webhook_job_id", replies, latency, 1, 1, 1);
    assert p1 == Outcome(ParseResult(done), [StatusGet(url, 1)], 1) by {
      assert s.Examine(done) == Completed(done);
    }
    assert s.Poll("webhook_job_id", replies, latency, 0, 0, 0) == Prepend([StatusGet(url, 0)], p1) by {
      assert s.Examine(Obj(map["status" := Str("running")])) == Pending;
    }
    CompletedItemsParse(done);
  }

  /** A job stuck in RUNNING with a two-tick deadline ends in TimeoutError. */
  lemma ApifyTimesOut(s: Scraper, replies: nat -> Reply, latency: nat -> nat)
    requires !s.UsesWebhook() && s.pollInterval == 1 && s.timeout == 2
    requires forall n :: replies(n) == Body(Obj(map["data" := Obj(map["status" := Str("RUNNING")])]))
    ensures s.Poll("test_job_id", replies, latency, 0, 0, 0).result == Err(TimeoutError)
  {
    assert s.Examine(Obj(map["data" := Obj(map["status" := Str("RUNNING")])])) == Pending;
    PendingTimesOut(s, "test_job_id", replies, latency, 0, 0, 0);
  }
}
