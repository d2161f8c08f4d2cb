/**
 * `VideoFinder`: a constant table from topic to ten TikTok URLs, built once
 * when the finder is created and read with an exact-match lookup.
 */
module VideoFinder {

  /** The table `_video_mapping` built by `VideoFinder.__init__`. */
  function Mapping(): map<string, seq<string>> {
    map[
      "cooking" := [
        "https://www.tiktok.com/cooking/video1",
        "https://www.tiktok.com/cooking/video2",
        "https://www.tiktok.com/cooking/video3",
        "https://www.tiktok.com/cooking/video4",
        "https://www.tiktok.com/cooking/video5",
        "https://www.tiktok.com/cooking/video6",
        "https://www.tiktok.com/cooking/video7",
        "https://www.tiktok.com/cooking/video8",
        "https://www.tiktok.com/cooking/video9",
        "https://www.tiktok.com/cooking/video10"
      ],
      "fitness" := [
        "https://www.tiktok.com/fitness/video1",
        "https://www.tiktok.com/fitness/video2",
        "https://www.tiktok.com/fitness/video3",
        "https://www.tiktok.com/fitness/video4",
        "https://www.tiktok.com/fitness/video5",
        "https://www.tiktok.com/fitness/video6",
        "https://www.tiktok.com/fitness/video7",
        "https://www.tiktok.com/fitness/video8",
        "https://www.tiktok.com/fitness/video9",
        "https://www.tiktok.com/fitness/video10"
      ]
    ]
  }

  /** `get_videos(topic)`, i.e. `self._video_mapping.get(topic, [])`. */
  function GetVideos(topic: string): (urls: seq<string>)
    ensures urls != [] <==> topic == "cooking" || topic == "fitness"
  {
    if topic in Mapping() then Mapping()[topic] else []
  }

  // ---------------------------------------------------------------------
  // The shape of the table

  /** Decimal rendering of a natural number, as `str(i)` gives it. */
  function Decimal(i: nat): (d: string)
    ensures |d| >= 1
    ensures i < 10 <==> |d| == 1
    decreases i
  {
    if i < 10 then ['0' + i as char] else Decimal(i / 10) + ['0' + (i % 10) as char]
  }

  /** Different numbers have different decimal renderings. */
  lemma {:induction false} DecimalInjective(i: nat, j: nat)
    requires Decimal(i) == Decimal(j)
    ensures i == j
    decreases i
  {
    if i >= 10 && j >= 10 {
      var di, dj := Decimal(i), Decimal(j);
      assert di[|di| - 1] == '0' + (i % 10) as char;
      assert dj[|dj| - 1] == '0' + (j % 10) as char;
      assert Decimal(i / 10) == di[..|di| - 1] == dj[..|dj| - 1] == Decimal(j / 10);
      DecimalInjective(i / 10, j / 10);
    } else if i < 10 && j < 10 {
      assert Decimal(i)[0] == Decimal(j)[0];
    }
  }

  /** The i-th URL of a topic (counting from 1) as the table spells it. */
  function VideoUrl(topic: string, i: nat): string {
    "https://www.tiktok.com/" + topic + "/video" + Decimal(i)
  }

  /** Both known topics map to exactly ten URLs, the i-th being `VideoUrl(topic, i)`. */
  lemma TableShape(topic: string)
    requires topic == "cooking" || topic == "fitness"
    ensures |GetVideos(topic)| == 10
    ensures forall i :: 1 <= i <= 10 ==> GetVideos(topic)[i - 1] == VideoUrl(topic, i)
  {
    var urls := GetVideos(topic);
    forall i | 1 <= i <= 10 ensures urls[i - 1] == VideoUrl(topic, i) {
      if i == 10 {
        assert Decimal(10) == "10";
      } else {
        assert Decimal(i) == ['0' + i as char];
        if topic == "cooking" {
          CookingAt(i);
        } else {
          FitnessAt(i);
        }
      }
    }
  }

  lemma CookingAt(i: nat)
    requires 1 <= i <= 9
    ensures Mapping()["cooking"][i - 1] == "https://www.tiktok.com/cooking/video" + ['0' + i as char]
  {
  }

  lemma FitnessAt(i: nat)
    requires 1 <= i <= 9
    ensures Mapping()["fitness"][i - 1] == "https://www.tiktok.com/fitness/video" + ['0' + i as char]
  {
  }

  /** A URL of a seven-letter topic determines the topic and the index. */
  lemma {:induction false} VideoUrlInjective(t: string, i: nat, u: string, j: nat)
    requires |t| == 7 && |u| == 7
    requires VideoUrl(t, i) == VideoUrl(u, j)
    ensures t == u && i == j
  {
    var a, b := VideoUrl(t, i), VideoUrl(u, j);
    assert a[23..30] == t && b[23..30] == u;
    assert a[36..] == Decimal(i) && b[36..] == Decimal(j);
    DecimalInjective(i, j);
  }

  /** The twenty URLs of the table are pairwise distinct. */
  lemma AllUrlsDistinct(t: string, u: string, i: nat, j: nat)
    requires t in {"cooking", "fitness"} && u in {"cooking", "fitness"}
    requires i < 10 && j < 10
    requires t != u || i != j
    ensures GetVideos(t)[i] != GetVideos(u)[j]
  {
    TableShape(t);
    TableShape(u);
    if GetVideos(t)[i] == GetVideos(u)[j] {
      assert VideoUrl(t, i + 1) == VideoUrl(u, j + 1);
      VideoUrlInjective(t, i + 1, u, j + 1);
      assert false;
    }
  }
}
