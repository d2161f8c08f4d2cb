/**
 * `Correlator`: averages the text and audio emotion scores, averages four
 * engagement counters over the scraped videos, and reports for every
 * (emotion, counter) pair the emotion score as a percentage of the mean
 * counter, plus, when the videos carry comments, every emotion score as a
 * percentage of the comment count.
 *
 * The result is a Python dict, whose insertion order later code relies on,
 * so it is an ordered list of entries here. Floating-point arithmetic is
 * exact real arithmetic; `round(x, 2)` is the parameter `round2` and
 * `float(s)` of a string is the parameter `parse`.
 */
module Correlator {
  import opened Py
  import Scraper

  type VideoData = Scraper.VideoData

  /** Emotion scores by label. */
  type Scores = map<string, real>

  /** An insertion-ordered dict of named metrics. */
  type Metrics = seq<(string, real)>

  /** The emotions correlated, in the order their metrics are emitted. */
  const Emotions: seq<string> := ["joy", "sadness", "anger", "fear", "surprise", "disgust", "neutral"]

  /** The engagement counters read from each video's metadata, in order. */
  const MetadataFields: seq<string> := ["likes", "comments", "shares", "views"]

  /** `scores.get(e, 0.0)`. */
  function Score(scores: Scores, e: string): real {
    if e in scores then scores[e] else 0.0
  }

  /** `combined_scores`: per listed emotion, the plain average of its text and audio scores. */
  function Combined(text: Scores, audio: Scores): (c: seq<real>)
    ensures |c| == |Emotions|
  {
    seq(|Emotions|, i requires 0 <= i < |Emotions| => (Score(text, Emotions[i]) + Score(audio, Emotions[i])) / 2.0)
  }

  // ---------------------------------------------------------------------
  // Summing the engagement counters

  /** What video `v` adds to counter `k`: `float` of the value when the key is present, else nothing. */
  function Contribution(v: VideoData, k: nat, parse: string -> Option<real>): Result<real>
    requires k < |MetadataFields|
  {
    if MetadataFields[k] in v.metadata then Float(v.metadata[MetadataFields[k]], parse) else Ok(0.0)
  }

  /** The inner loop over the counters, from counter `k` on, for one video. */
  function AddFields(sums: seq<real>, v: VideoData, k: nat, parse: string -> Option<real>): (r: Result<seq<real>>)
    requires |sums| == |MetadataFields| && k <= |MetadataFields|
    ensures r.Ok? ==> |r.value| == |MetadataFields|
    decreases |MetadataFields| - k
  {
    if k == |MetadataFields| then Ok(sums)
    else match Contribution(v, k, parse)
      case Err(e) => Err(e)
      case Ok(x) => AddFields(sums[k := sums[k] + x], v, k + 1, parse)
  }

  /** The nested loop over videos and counters; the first `float` that fails ends it. */
  function Totals(videos: seq<VideoData>, parse: string -> Option<real>): (r: Result<seq<real>>)
    ensures r.Ok? ==> |r.value| == |MetadataFields|
    decreases |videos|
  {
    if videos == [] then Ok(seq(|MetadataFields|, _ => 0.0))
    else match Totals(videos[..|videos| - 1], parse)
      case Err(e) => Err(e)
      case Ok(sums) => AddFields(sums, videos[|videos| - 1], 0, parse)
  }

  /** The amount counter `k` of one video is worth once it converts. */
  function Amount(v: VideoData, k: nat, parse: string -> Option<real>): real
    requires k < |MetadataFields|
  {
    match Contribution(v, k, parse)
    case Ok(x) => x
    case Err(_) => 0.0
  }

  /** Reference definition: the sum of counter `k` over the videos. */
  function FieldSum(videos: seq<VideoData>, k: nat, parse: string -> Option<real>): real
    requires k < |MetadataFields|
    decreases |videos|
  {
    if videos == [] then 0.0
    else FieldSum(videos[..|videos| - 1], k, parse) + Amount(videos[|videos| - 1], k, parse)
  }

  /** `sum(len(video.comments) for video in video_data)`. */
  function CommentCount(videos: seq<VideoData>): nat
    decreases |videos|
  {
    if videos == [] then 0 else CommentCount(videos[..|videos| - 1]) + |videos[|videos| - 1].comments|
  }

  // ---------------------------------------------------------------------
  // The metrics

  function VsKey(i: nat, k: nat): string
    requires i < |Emotions| && k < |MetadataFields|
  {
    Emotions[i] + "_vs_" + MetadataFields[k]
  }

  function RatioKey(i: nat): string
    requires i < |Emotions|
  {
    Emotions[i] + "_comment_ratio"
  }

  /** An emotion score as a percentage of a mean counter; 0.0 when the mean is not positive. */
  function VsValue(score: real, mean: real, round2: real -> real): real {
    if mean > 0.0 then round2(score / mean * 100.0) else 0.0
  }

  /** The 28 `<emotion>_vs_<field>` entries, emotion-major. */
  function VsEntries(c: seq<real>, means: seq<real>, round2: real -> real): (m: Metrics)
    requires |c| == |Emotions| && |means| == |MetadataFields|
    ensures |m| == |Emotions| * |MetadataFields|
  {
    seq(|Emotions| * |MetadataFields|, j requires 0 <= j < |Emotions| * |MetadataFields| =>
      (VsKey(j / 4, j % 4), VsValue(c[j / 4], means[j % 4], round2)))
  }

  /** An emotion score as a percentage of the comment count. */
  function RatioValue(score: real, count: nat, round2: real -> real): real
    requires count > 0
  {
    round2(score * 100.0 / count as real)
  }

  /** The 7 `<emotion>_comment_ratio` entries. */
  function RatioEntries(c: seq<real>, count: nat, round2: real -> real): (m: Metrics)
    requires |c| == |Emotions| && count > 0
    ensures |m| == |Emotions|
  {
    seq(|Emotions|, i requires 0 <= i < |Emotions| => (RatioKey(i), RatioValue(c[i], count, round2)))
  }

  /** A total divided by the number of videos. */
  function Mean(total: real, count: nat): real
    requires count > 0
  {
    total / count as real
  }

  /** The mean of every counter over the videos. */
  function Means(totals: seq<real>, count: nat): (means: seq<real>)
    requires |totals| == |MetadataFields| && count > 0
    ensures |means| == |MetadataFields|
  {
    seq(|MetadataFields|, k requires 0 <= k < |MetadataFields| => Mean(totals[k], count))
  }

  /** What `compute` returns: no metrics without videos, the first conversion error, or the metrics. */
  function Correlate(videos: seq<VideoData>, text: Scores, audio: Scores,
                     parse: string -> Option<real>, round2: real -> real): Result<Metrics>
  {
    if videos == [] then Ok([])
    else match Totals(videos, parse)
      case Err(e) => Err(e)
      case Ok(totals) =>
        var c := Combined(text, audio);
        var count := CommentCount(videos);
        Ok(Assemble(c, Means(totals, |videos|), count, round2))
  }

  /** The `_vs_` entries, followed by the ratio entries when there are comments. */
  function Assemble(c: seq<real>, means: seq<real>, count: nat, round2: real -> real): Metrics
    requires |c| == |Emotions| && |means| == |MetadataFields|
  {
    VsEntries(c, means, round2) + (if count > 0 then RatioEntries(c, count, round2) else [])
  }

  // ---------------------------------------------------------------------
  // The metric names are pairwise distinct

  predicate NoUnderscore(s: string) {
    forall j :: 0 <= j < |s| ==> s[j] != '_'
  }

  lemma EmotionNames()
    ensures forall i :: 0 <= i < |Emotions| ==> NoUnderscore(Emotions[i])
    ensures forall i, j :: 0 <= i < j < |Emotions| ==> Emotions[i] != Emotions[j]
  {
  }

  lemma FieldNames()
    ensures forall k, l :: 0 <= k < l < |MetadataFields| ==> MetadataFields[k] != MetadataFields[l]
  {
  }

  /** The index of the first underscore, or the length when there is none. */
  function FirstUnderscore(s: string): nat
    decreases |s|
  {
    if s == [] || s[0] == '_' then 0 else 1 + FirstUnderscore(s[1..])
  }

  lemma {:induction false} FirstUnderscoreAfter(a: string, x: string)
    requires NoUnderscore(a) && |x| > 0 && x[0] == '_'
    ensures FirstUnderscore(a + x) == |a|
    decreases |a|
  {
    if a != [] {
      assert (a + x)[1..] == a[1..] + x;
      FirstUnderscoreAfter(a[1..], x);
    }
  }

  /** A word without underscores is recovered from the front of `word + suffix` when the suffix starts with one. */
  lemma CutAtUnderscore(a: string, x: string, b: string, y: string)
    requires NoUnderscore(a) && NoUnderscore(b)
    requires |x| > 0 && x[0] == '_' && |y| > 0 && y[0] == '_'
    requires a + x == b + y
    ensures a == b && x == y
  {
    FirstUnderscoreAfter(a, x);
    FirstUnderscoreAfter(b, y);
    assert a == (a + x)[..|a|];
    assert b == (b + y)[..|b|];
    assert x == (a + x)[|a|..];
    assert y == (b + y)[|b|..];
  }

  lemma VsKeyInjective(i: nat, k: nat, i2: nat, k2: nat)
    requires i < |Emotions| && k < |MetadataFields| && i2 < |Emotions| && k2 < |MetadataFields|
    ensures VsKey(i, k) == VsKey(i2, k2) ==> i == i2 && k == k2
  {
    if VsKey(i, k) == VsKey(i2, k2) {
      EmotionNames();
      FieldNames();
      var x, y := "_vs_" + MetadataFields[k], "_vs_" + MetadataFields[k2];
      assert VsKey(i, k) == Emotions[i] + x;
      assert VsKey(i2, k2) == Emotions[i2] + y;
      CutAtUnderscore(Emotions[i], x, Emotions[i2], y);
      assert MetadataFields[k] == x[4..] && MetadataFields[k2] == y[4..];
    }
  }

  lemma RatioKeyInjective(i: nat, i2: nat)
    requires i < |Emotions| && i2 < |Emotions|
    ensures RatioKey(i) == RatioKey(i2) ==> i == i2
  {
    if RatioKey(i) == RatioKey(i2) {
      EmotionNames();
      CutAtUnderscore(Emotions[i], "_comment_ratio", Emotions[i2], "_comment_ratio");
    }
  }

  lemma RatioKeyNotVsKey(i: nat, i2: nat, k: nat)
    requires i < |Emotions| && i2 < |Emotions| && k < |MetadataFields|
    ensures RatioKey(i) != VsKey(i2, k)
  {
    EmotionNames();
    var y := "_vs_" + MetadataFields[k];
    var r, v := RatioKey(i), VsKey(i2, k);
    assert v == Emotions[i2] + y;
    FirstUnderscoreAfter(Emotions[i], "_comment_ratio");
    FirstUnderscoreAfter(Emotions[i2], y);
    if |Emotions[i]| == |Emotions[i2]| {
      assert r[|Emotions[i]| + 1] == 'c';
      assert v[|Emotions[i2]| + 1] == 'v';
    }
  }

  lemma VsEntryAt(c: seq<real>, means: seq<real>, round2: real -> real, i: nat, k: nat)
    requires |c| == |Emotions| && |means| == |MetadataFields| && i < |Emotions| && k < |MetadataFields|
    ensures VsEntries(c, means, round2)[4 * i + k] == (VsKey(i, k), VsValue(c[i], means[k], round2))
  {
    assert (4 * i + k) / 4 == i && (4 * i + k) % 4 == k;
  }

  /** The `<emotion>_vs_<field>` entries carry pairwise distinct names, and the i-th name is new when it is assigned. */
  lemma VsEntriesFresh(c: seq<real>, means: seq<real>, round2: real -> real, n: nat)
    requires |c| == |Emotions| && |means| == |MetadataFields| && n < |Emotions| * |MetadataFields|
    ensures var vs := VsEntries(c, means, round2);
      vs[n].0 !in Keys(vs[..n])
  {
    var vs := VsEntries(c, means, round2);
    forall j | 0 <= j < n ensures vs[j].0 != vs[n].0 {
      VsKeyInjective(j / 4, j % 4, n / 4, n % 4);
    }
  }

  lemma RatioEntriesFresh(c: seq<real>, means: seq<real>, count: nat, round2: real -> real, n: nat)
    requires |c| == |Emotions| && |means| == |MetadataFields| && count > 0 && n < |Emotions|
    ensures var vs, rs := VsEntries(c, means, round2), RatioEntries(c, count, round2);
      rs[n].0 !in Keys(vs + rs[..n])
  {
    var vs, rs := VsEntries(c, means, round2), RatioEntries(c, count, round2);
    forall j | 0 <= j < |vs| + n ensures (vs + rs[..n])[j].0 != rs[n].0 {
      if j < |vs| {
        RatioKeyNotVsKey(n, j / 4, j % 4);
      } else {
        RatioKeyInjective(j - |vs|, n);
      }
    }
  }

  /** An error in the first `n` videos is the error of the whole nested loop. */
  lemma {:induction false} TotalsFailure(videos: seq<VideoData>, n: nat, parse: string -> Option<real>)
    requires n <= |videos| && Totals(videos[..n], parse).Err?
    ensures Totals(videos, parse) == Totals(videos[..n], parse)
    decreases |videos|
  {
    if n < |videos| {
      var w := videos[..|videos| - 1];
      assert w[..n] == videos[..n];
      TotalsFailure(w, n, parse);
    } else {
      assert videos[..n] == videos;
    }
  }

  // ---------------------------------------------------------------------
  // compute(), one method per loop of the source

  /** The loop that fills `combined_scores`. */
  method MergeScores(text: Scores, audio: Scores) returns (combined: seq<real>)
    ensures combined == Combined(text, audio)
  {
    combined := [];
    for i := 0 to |Emotions|
      invariant combined == Combined(text, audio)[..i]
    {
      var emotion := Emotions[i];
      var textValue := if emotion in text then text[emotion] else 0.0;
      var audioValue := if emotion in audio then audio[emotion] else 0.0;
      combined := combined + [(textValue + audioValue) / 2.0];
    }
  }

  /** The nested loop that adds every present counter of every video into `metadata_values`. */
  method SumCounters(videos: seq<VideoData>, parse: string -> Option<real>) returns (r: Result<seq<real>>)
    ensures r == Totals(videos, parse)
  {
    var sums := seq(|MetadataFields|, _ => 0.0);
    for v := 0 to |videos|
      invariant Totals(videos[..v], parse) == Ok(sums)
    {
      var video := videos[v];
      ghost var start := sums;
      assert videos[..v + 1][..v] == videos[..v];
      for k := 0 to |MetadataFields|
        invariant |sums| == |MetadataFields|
        invariant AddFields(sums, video, k, parse) == AddFields(start, video, 0, parse)
      {
        var field := MetadataFields[k];
        if field in video.metadata {
          var x := Float(video.metadata[field], parse);
          if x.Err? {
            TotalsFailure(videos, v + 1, parse);
            return Err(x.error);
          }
          sums := sums[k := sums[k] + x.value];
        } else {
          assert sums[k := sums[k] + 0.0] == sums;
        }
      }
    }
    assert videos[..|videos|] == videos;
    return Ok(sums);
  }

  /** The loop that divides every sum by the number of videos. */
  method Average(totals: seq<real>, count: nat) returns (means: seq<real>)
    requires |totals| == |MetadataFields| && count > 0
    ensures means == Means(totals, count)
  {
    means := totals;
    for k := 0 to |MetadataFields|
      invariant |means| == |MetadataFields|
      invariant forall l :: 0 <= l < k ==> means[l] == Mean(totals[l], count)
      invariant forall l :: k <= l < |MetadataFields| ==> means[l] == totals[l]
    {
      means := means[k := means[k] / count as real];
    }
  }

  /** The nested loop that assigns `results[f"{emotion}_vs_{field}"]`. */
  method EmitVsEntries(combined: seq<real>, means: seq<real>, round2: real -> real) returns (results: Metrics)
    requires |combined| == |Emotions| && |means| == |MetadataFields|
    ensures results == VsEntries(combined, means, round2)
  {
    ghost var vs := VsEntries(combined, means, round2);
    results := [];
    for i := 0 to |Emotions|
      invariant results == vs[..4 * i]
    {
      for k := 0 to |MetadataFields|
        invariant results == vs[..4 * i + k]
      {
        var key := Emotions[i] + "_vs_" + MetadataFields[k];
        var value := if means[k] > 0.0 then round2(combined[i] / means[k] * 100.0) else 0.0;
        VsEntryAt(combined, means, round2, i, k);
        VsEntriesFresh(combined, means, round2, 4 * i + k);
        PutFresh(results, key, value);
        results := Put(results, key, value);
        assert results == vs[..4 * i + k + 1];
      }
    }
  }

  /** `sum(len(video.comments) for video in video_data)`. */
  method CountComments(videos: seq<VideoData>) returns (count: nat)
    ensures count == CommentCount(videos)
  {
    count := 0;
    for v := 0 to |videos|
      invariant count == CommentCount(videos[..v])
    {
      assert videos[..v + 1][..v] == videos[..v];
      count := count + |videos[v].comments|;
    }
    assert videos[..|videos|] == videos;
  }

  /** The loop that assigns `results[f"{emotion}_comment_ratio"]` after the other entries. */
  method EmitRatioEntries(results: Metrics, combined: seq<real>, means: seq<real>, count: nat, round2: real -> real)
    returns (out: Metrics)
    requires |combined| == |Emotions| && |means| == |MetadataFields| && count > 0
    requires results == VsEntries(combined, means, round2)
    ensures out == results + RatioEntries(combined, count, round2)
  {
    ghost var rs := RatioEntries(combined, count, round2);
    out := results;
    for i := 0 to |Emotions|
      invariant out == results + rs[..i]
    {
      var key := Emotions[i] + "_comment_ratio";
      var value := round2(combined[i] * 100.0 / count as real);
      assert rs[i] == (key, value);
      RatioEntriesFresh(combined, means, count, round2, i);
      PutFresh(out, key, value);
      out := Put(out, key, value);
      assert results + rs[..i + 1] == results + rs[..i] + [rs[i]];
    }
    assert rs[..|Emotions|] == rs;
  }

  /** `compute(video_data, text_scores, audio_scores)`. */
  method Compute(videos: seq<VideoData>, text: Scores, audio: Scores,
                 parse: string -> Option<real>, round2: real -> real) returns (r: Result<Metrics>)
    ensures r == Correlate(videos, text, audio, parse, round2)
  {
    var combined := MergeScores(text, audio);
    if |videos| == 0 {
      return Ok([]);
    }
    var totals := SumCounters(videos, parse);
    if totals.Err? {
      return Err(totals.error);
    }
    var means := Average(totals.value, |videos|);
    var results := EmitVsEntries(combined, means, round2);
    var commentCount := CountComments(videos);
    if commentCount > 0 {
      results := EmitRatioEntries(results, combined, means, commentCount, round2);
    } else {
      assert results + [] == results;
    }
    return Ok(results);
  }

  // ---------------------------------------------------------------------
  // What compute() returns

  /** Counter `k` of video `i` is the first `float` conversion, in loop order, that fails. */
  predicate FirstFailure(videos: seq<VideoData>, i: nat, k: nat, parse: string -> Option<real>) {
    i < |videos| && k < |MetadataFields| && Contribution(videos[i], k, parse).Err?
    && (forall i2, k2 :: 0 <= i2 < i && 0 <= k2 < |MetadataFields| ==> Contribution(videos[i2], k2, parse).Ok?)
    && (forall k2 :: 0 <= k2 < k ==> Contribution(videos[i], k2, parse).Ok?)
  }

  lemma {:induction false} AddFieldsSpec(sums: seq<real>, v: VideoData, k: nat, parse: string -> Option<real>)
    requires |sums| == |MetadataFields| && k <= |MetadataFields|
    ensures var r := AddFields(sums, v, k, parse);
      (r.Ok? <==> forall l :: k <= l < |MetadataFields| ==> Contribution(v, l, parse).Ok?)
      && (r.Ok? ==> forall l :: 0 <= l < |MetadataFields| ==>
            r.value[l] == if l < k then sums[l] else sums[l] + Amount(v, l, parse))
      && (r.Err? ==> exists l :: (k <= l < |MetadataFields| && Contribution(v, l, parse).Err?
            && r.error == Contribution(v, l, parse).error
            && forall l2 :: k <= l2 < l ==> Contribution(v, l2, parse).Ok?))
    decreases |MetadataFields| - k
  {
    if k < |MetadataFields| {
      match Contribution(v, k, parse)
      case Err(e) =>
      case Ok(x) =>
        AddFieldsSpec(sums[k := sums[k] + x], v, k + 1, parse);
    }
  }

  /**
   * The nested loop succeeds exactly when every present counter converts;
   * it then holds the reference sums; otherwise it fails with the error of
   * the first conversion that fails in loop order (video by video, counter
   * by counter).
   */
  lemma {:induction false} TotalsSpec(videos: seq<VideoData>, parse: string -> Option<real>)
    ensures var r := Totals(videos, parse);
      (r.Ok? <==> forall i, k :: 0 <= i < |videos| && 0 <= k < |MetadataFields| ==> Contribution(videos[i], k, parse).Ok?)
      && (r.Ok? ==> forall k :: 0 <= k < |MetadataFields| ==> r.value[k] == FieldSum(videos, k, parse))
      && (r.Err? ==> exists i: nat, k: nat :: FirstFailure(videos, i, k, parse) && r.error == Contribution(videos[i], k, parse).error)
    decreases |videos|
  {
    if videos != [] {
      var w, last := videos[..|videos| - 1], videos[|videos| - 1];
      assert forall i :: 0 <= i < |w| ==> videos[i] == w[i];
      TotalsSpec(w, parse);
      match Totals(w, parse)
      case Err(e) =>
        var i: nat, k: nat :| FirstFailure(w, i, k, parse) && e == Contribution(w[i], k, parse).error;
        assert FirstFailure(videos, i, k, parse);
      case Ok(sums) =>
        AddFieldsSpec(sums, last, 0, parse);
        var r := AddFields(sums, last, 0, parse);
        if r.Err? {
          var l :| 0 <= l < |MetadataFields| && Contribution(last, l, parse).Err? && r.error == Contribution(last, l, parse).error
            && forall l2 :: 0 <= l2 < l ==> Contribution(last, l2, parse).Ok?;
          assert FirstFailure(videos, |w|, l, parse);
        }
    }
  }

  lemma AssembleDistinct(c: seq<real>, means: seq<real>, count: nat, round2: real -> real)
    requires |c| == |Emotions| && |means| == |MetadataFields|
    ensures DistinctKeys(Assemble(c, means, count, round2))
  {
    var vs := VsEntries(c, means, round2);
    var rs := if count > 0 then RatioEntries(c, count, round2) else [];
    var r := vs + rs;
    forall a, b | 0 <= a < b < |r| ensures r[a].0 != r[b].0 {
      if b < |vs| {
        VsEntriesFresh(c, means, round2, b);
        assert r[a].0 == Keys(vs[..b])[a];
      } else {
        RatioEntriesFresh(c, means, count, round2, b - |vs|);
        assert r[..b] == vs + rs[..b - |vs|];
        assert r[a].0 == Keys(vs + rs[..b - |vs|])[a];
      }
    }
  }

  /**
   * For a non-empty video list that converts, the result holds 28 entries,
   * plus 7 when the videos carry comments, under pairwise distinct names.
   */
  lemma CorrelateKeys(videos: seq<VideoData>, text: Scores, audio: Scores,
                      parse: string -> Option<real>, round2: real -> real)
    requires videos != [] && Correlate(videos, text, audio, parse, round2).Ok?
    ensures var r := Correlate(videos, text, audio, parse, round2).value;
      DistinctKeys(r)
      && |r| == |Emotions| * |MetadataFields| + (if CommentCount(videos) > 0 then |Emotions| else 0)
  {
    var totals := Totals(videos, parse).value;
    AssembleDistinct(Combined(text, audio), Means(totals, |videos|), CommentCount(videos), round2);
  }

  lemma AssembleRatioAbsent(c: seq<real>, means: seq<real>, round2: real -> real, i: nat)
    requires |c| == |Emotions| && |means| == |MetadataFields| && i < |Emotions|
    ensures RatioKey(i) !in Keys(Assemble(c, means, 0, round2))
  {
    var r := Assemble(c, means, 0, round2);
    forall j | 0 <= j < |r| ensures r[j].0 != RatioKey(i) {
      RatioKeyNotVsKey(i, j / 4, j % 4);
    }
  }

  lemma TotalsValue(videos: seq<VideoData>, parse: string -> Option<real>, k: nat)
    requires k < |MetadataFields| && Totals(videos, parse).Ok?
    ensures Totals(videos, parse).value[k] == FieldSum(videos, k, parse)
  {
    TotalsSpec(videos, parse);
  }

  /**
   * Entry `4 * i + k` is `<emotion i>_vs_<field k>`: the averaged emotion
   * score as a percentage of the field's mean over the videos, or 0.0 when
   * that mean is not positive.
   */
  lemma CorrelateVs(videos: seq<VideoData>, text: Scores, audio: Scores,
                    parse: string -> Option<real>, round2: real -> real, i: nat, k: nat)
    requires videos != [] && Correlate(videos, text, audio, parse, round2).Ok?
    requires i < |Emotions| && k < |MetadataFields|
    ensures var r := Correlate(videos, text, audio, parse, round2).value;
      4 * i + k < |r|
      && r[4 * i + k] == (VsKey(i, k), VsValue((Score(text, Emotions[i]) + Score(audio, Emotions[i])) / 2.0,
                                               Mean(FieldSum(videos, k, parse), |videos|), round2))
  {
    var totals := Totals(videos, parse).value;
    var c, means, count := Combined(text, audio), Means(totals, |videos|), CommentCount(videos);
    assert Correlate(videos, text, audio, parse, round2).value == Assemble(c, means, count, round2);
    TotalsValue(videos, parse, k);
    VsEntryAt(c, means, round2, i, k);
  }

  /**
   * With comments, entry `28 + i` is `<emotion i>_comment_ratio`: the
   * averaged score as a percentage of the comment count.
   */
  lemma CorrelateRatio(videos: seq<VideoData>, text: Scores, audio: Scores,
                       parse: string -> Option<real>, round2: real -> real, i: nat)
    requires videos != [] && Correlate(videos, text, audio, parse, round2).Ok?
    requires i < |Emotions| && CommentCount(videos) > 0
    ensures var r := Correlate(videos, text, audio, parse, round2).value;
      |Emotions| * |MetadataFields| + i < |r|
      && r[|Emotions| * |MetadataFields| + i]
         == (RatioKey(i), RatioValue((Score(text, Emotions[i]) + Score(audio, Emotions[i])) / 2.0, CommentCount(videos), round2))
  {
    var totals := Totals(videos, parse).value;
    var c, means, count := Combined(text, audio), Means(totals, |videos|), CommentCount(videos);
    var r := Assemble(c, means, count, round2);
    assert Correlate(videos, text, audio, parse, round2).value == r;
    assert r[|Emotions| * |MetadataFields| + i] == RatioEntries(c, count, round2)[i];
    assert RatioEntries(c, count, round2)[i] == (RatioKey(i), RatioValue(c[i], count, round2));
    assert c[i] == (Score(text, Emotions[i]) + Score(audio, Emotions[i])) / 2.0;
  }

  /** Without comments no `<emotion>_comment_ratio` entry exists. */
  lemma CorrelateNoRatio(videos: seq<VideoData>, text: Scores, audio: Scores,
                         parse: string -> Option<real>, round2: real -> real, i: nat)
    requires videos != [] && Correlate(videos, text, audio, parse, round2).Ok?
    requires i < |Emotions| && CommentCount(videos) == 0
    ensures RatioKey(i) !in Keys(Correlate(videos, text, audio, parse, round2).value)
  {
    var totals := Totals(videos, parse).value;
    var c, means := Combined(text, audio), Means(totals, |videos|);
    assert Correlate(videos, text, audio, parse, round2).value == Assemble(c, means, 0, round2);
    AssembleRatioAbsent(c, means, round2, i);
  }

  lemma {:induction false} FieldSumAbsent(videos: seq<VideoData>, k: nat, parse: string -> Option<real>)
    requires k < |MetadataFields|
    requires forall j :: 0 <= j < |videos| ==> MetadataFields[k] !in videos[j].metadata
    ensures FieldSum(videos, k, parse) == 0.0
    decreases |videos|
  {
    if videos != [] {
      FieldSumAbsent(videos[..|videos| - 1], k, parse);
    }
  }

  /** A counter that no video carries correlates as 0.0 with every emotion. */
  lemma AbsentFieldScoresZero(videos: seq<VideoData>, text: Scores, audio: Scores,
                              parse: string -> Option<real>, round2: real -> real, k: nat)
    requires k < |MetadataFields| && videos != []
    requires forall j :: 0 <= j < |videos| ==> MetadataFields[k] !in videos[j].metadata
    requires Correlate(videos, text, audio, parse, round2).Ok?
    ensures var r := Correlate(videos, text, audio, parse, round2).value;
      forall i :: 0 <= i < |Emotions| ==> 4 * i + k < |r| && r[4 * i + k] == (VsKey(i, k), 0.0)
  {
    FieldSumAbsent(videos, k, parse);
    forall i | 0 <= i < |Emotions|
      ensures Correlate(videos, text, audio, parse, round2).value[4 * i + k] == (VsKey(i, k), 0.0)
    {
      CorrelateVs(videos, text, audio, parse, round2, i, k);
    }
  }

  /** Scores for labels outside the seven emotions never influence the result. */
  lemma OnlyListedEmotionsMatter(videos: seq<VideoData>, text: Scores, audio: Scores,
                                 parse: string -> Option<real>, round2: real -> real)
    ensures var listed := set e | e in Emotions;
      Correlate(videos, text, audio, parse, round2)
      == Correlate(videos, map e | e in text && e in listed :: text[e], map e | e in audio && e in listed :: audio[e],
                   parse, round2)
  {
    var listed := set e | e in Emotions;
    var text', audio' := map e | e in text && e in listed :: text[e], map e | e in audio && e in listed :: audio[e];
    assert Combined(text, audio) == Combined(text', audio');
  }

  /** Without videos there are no metrics, whatever the emotion scores. */
  lemma NoVideosNoMetrics(text: Scores, audio: Scores, parse: string -> Option<real>, round2: real -> real)
    ensures Correlate([], text, audio, parse, round2) == Ok([])
  {
  }

  /** One video with only `likes`: `joy_vs_likes` is computed and `joy_vs_comments` is 0.0. */
  lemma MissingMetadataExample(parse: string -> Option<real>, round2: real -> real)
    ensures var videos := [Scraper.VideoData("https://example.com/video1", ["Test comment"], map["likes" := Num(100.0)])];
      var r := Correlate(videos, map["joy" := 0.5], map["joy" := 0.5], parse, round2);
      r.Ok? && r.value[0] == ("joy_vs_likes", round2(0.5)) && r.value[1] == ("joy_vs_comments", 0.0)
  {
    var videos := [Scraper.VideoData("https://example.com/video1", ["Test comment"], map["likes" := Num(100.0)])];
    TotalsSpec(videos, parse);
    assert forall k :: 0 <= k < |MetadataFields| ==> Contribution(videos[0], k, parse).Ok?;
    assert FieldSum(videos, 0, parse) == 100.0;
    assert FieldSum(videos, 1, parse) == 0.0;
    CorrelateVs(videos, map["joy" := 0.5], map["joy" := 0.5], parse, round2, 0, 0);
    CorrelateVs(videos, map["joy" := 0.5], map["joy" := 0.5], parse, round2, 0, 1);
    assert VsKey(0, 0) == "joy_vs_likes" && VsKey(0, 1) == "joy_vs_comments";
  }
}
