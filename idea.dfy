/**
 * The records the three analyzers pass around: a web-search hit, the market-potential block
 * and the product-idea analysis itself (the dictionary that `mock_ai_analysis`, the rule
 * engine and a parsed LLM reply all produce), together with the one template shape every
 * generator uses to name the topic: the topic between single quotes.
 */
module Idea {
  import opened Wrappers
  import opened Text
  import opened Scoring

  /** One `{"title": ..., "url": ...}` search hit. */
  datatype SearchResult = SearchResult(title: string, url: string)

  /** The `market_potential` dictionary. */
  datatype MarketPotential = MarketPotential(marketSize: string, growthStage: string,
                                             competitiveAdvantage: string, revenueModel: string)

  /**
   * The analysis dictionary. `eventTimeline` is present only in the dictionaries that
   * `mock_ai_analysis` builds; the rule engine of weibo_analyzer_v2.py and the LLM replies
   * carry no such key.
   */
  datatype Analysis = Analysis(
    name: string,
    eventTimeline: Option<string>,
    coreFeatures: seq<string>,
    painPoints: seq<string>,
    targetUsers: string,
    innovationPoints: seq<string>,
    potential: MarketPotential,
    scores: ScoreSet)

  /** `'{topic}'`: the topic between ASCII single quotes, as the templates interpolate it. */
  function Quote(topic: string): (r: string)
    ensures |r| == |topic| + 2 && r[0] == '\'' && r[|r| - 1] == '\''
    ensures r[1..|r| - 1] == topic
  {
    "'" + topic + "'"
  }

  /** A template line `pre + '{topic}' + post`: it names the topic, quoted. */
  function Mention(pre: string, topic: string, post: string): (r: string)
    ensures StartsWith(r, pre) && EndsWith(r, post)
    ensures OccursAt(r, Quote(topic), |pre|) && Contains(r, Quote(topic))
  {
    var r := pre + Quote(topic) + post;
    assert r[..|pre|] == pre;
    assert r[|r| - |post|..] == post;
    assert r[|pre|..|pre| + |Quote(topic)|] == Quote(topic);
    ContainsWitness(r, Quote(topic), |pre|);
    r
  }

  /** A template line determines the topic it was filled with. */
  lemma MentionInjective(pre: string, t1: string, t2: string, post: string)
    ensures Mention(pre, t1, post) == Mention(pre, t2, post) ==> t1 == t2
  {
    var m1, m2 := Mention(pre, t1, post), Mention(pre, t2, post);
    if m1 == m2 {
      assert |t1| == |t2|;
      assert m1[|pre| + 1..|pre| + 1 + |t1|] == t1;
      assert m2[|pre| + 1..|pre| + 1 + |t2|] == t2;
    }
  }

  /**
   * A core-feature line `title - description`; the report's `format_feature_item` splits
   * each feature at its first " - " into a bold title and the rest.
   */
  function Feature(title: string, description: string): (r: string)
    ensures StartsWith(r, title + " - ") && EndsWith(r, description)
    ensures OccursAt(r, " - ", |title|) && Contains(r, " - ")
  {
    var r := title + " - " + description;
    assert r[..|title| + 3] == title + " - ";
    assert r[|r| - |description|..] == description;
    assert r[|title|..|title| + 3] == " - ";
    r
  }

  /** Two feature lines with the same title are equal only if their descriptions are. */
  lemma FeatureInjective(title: string, d1: string, d2: string)
    ensures Feature(title, d1) == Feature(title, d2) ==> d1 == d2
  {
    if Feature(title, d1) == Feature(title, d2) {
      assert Feature(title, d1)[|title| + 3..] == d1;
      assert Feature(title, d2)[|title| + 3..] == d2;
    }
  }

  /**
   * The first index from `i` on where `w` occurs in `s`, the search behind Python's
   * `w in s` and `s.split(w, 1)`.
   */
  function FindFrom(s: string, w: string, i: nat): (r: Option<nat>)
    requires i <= |s|
    ensures r.Some? ==> i <= r.value <= |s| && OccursAt(s, w, r.value)
    ensures r.Some? ==> forall k :: i <= k < r.value ==> !OccursAt(s, w, k)
    ensures r.None? ==> forall k :: i <= k <= |s| ==> !OccursAt(s, w, k)
    decreases |s| - i
  {
    if OccursAt(s, w, i) then Some(i)
    else if i == |s| then None
    else FindFrom(s, w, i + 1)
  }

  /**
   * The split `format_feature_item` performs before rendering a feature: at the first
   * " - ", into a title (shown bold) and the rest; `None` when there is no " - ".
   */
  function SplitFeature(f: string): (r: Option<(string, string)>)
    ensures r.Some? <==> Contains(f, " - ")
    ensures r.Some? ==> f == r.value.0 + " - " + r.value.1
    ensures r.Some? ==> forall k :: 0 <= k < |r.value.0| ==> !OccursAt(f, " - ", k)
  {
    match FindFrom(f, " - ", 0)
    case None => None
    case Some(p) =>
      assert f == f[..p] + " - " + f[p + 3..];
      Some((f[..p], f[p + 3..]))
  }

  /**
   * Round trip: a feature line whose title has no space comes apart into exactly the title
   * and the description it was built from.
   */
  lemma FeatureSplits(title: string, description: string)
    requires ' ' !in title
    ensures SplitFeature(Feature(title, description)) == Some((title, description))
  {
    var f := Feature(title, description);
    forall k | 0 <= k < |title| ensures !OccursAt(f, " - ", k) {
      assert f[k] == title[k];
    }
    var r := SplitFeature(f).value;
    assert |r.0| == |title|;
    assert r.0 == f[..|title|] == title;
    assert r.1 == f[|title| + 3..] == description;
  }
}
