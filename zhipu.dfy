/**
 * weibo_analyzer_v2.py: the analyzer that asks the Zhipu model (`ZhipuProductAnalyzer`) and,
 * on any failure, falls back to its own rule engine, and the data of that script's own
 * report, whose ordering, buckets and file numbering repeat those of weibo_hot_analyzer.py.
 */
module ZhipuAnalyzer {
  import opened Wrappers
  import opened Text
  import opened Scoring
  import opened Idea
  import opened LlmReply
  import opened Report

  // ---------------------------------------------------------------------------
  // Search results in the prompt
  // ---------------------------------------------------------------------------

  const NoResults: string := "（暂无搜索结果）"

  /** One prompt line, `f"- {r['title']}"`. */
  function Bullet(r: SearchResult): (line: string)
    ensures StartsWith(line, "- ") && EndsWith(line, r.title)
  {
    var line := "- " + r.title;
    assert line[..2] == "- ";
    assert line[|line| - |r.title|..] == r.title;
    line
  }

  /** The list comprehension over the results, in order. */
  function Bullets(rs: seq<SearchResult>): (lines: seq<string>)
    ensures |lines| == |rs|
    ensures forall k :: 0 <= k < |rs| ==> lines[k] == Bullet(rs[k])
  {
    if rs == [] then [] else [Bullet(rs[0])] + Bullets(rs[1..])
  }

  /**
   * `_format_search_results`: the placeholder when there are no results, otherwise one
   * bullet line per result, for the first three, joined by newlines.
   */
  function FormatSearchResults(rs: seq<SearchResult>): (r: string)
    ensures rs == [] <==> r == NoResults
    ensures rs != [] ==> r == Join("\n", Bullets(Take(rs, 3))) && StartsWith(r, Bullet(rs[0]))
  {
    if rs == [] then NoResults
    else
      var lines := Bullets(Take(rs, 3));
      JoinStartsWith("\n", lines);
      var r := Join("\n", lines);
      assert r[0] == '-' && NoResults[0] == '（';
      r
  }

  /** Results after the third never reach the prompt. */
  lemma FormatIgnoresRest(rs: seq<SearchResult>, more: seq<SearchResult>)
    requires |rs| >= 3
    ensures FormatSearchResults(rs + more) == FormatSearchResults(rs)
  {
    assert Take(rs + more, 3) == Take(rs, 3);
  }

  /** Exactly the first `min(3, n)` titles reach the prompt, as bullet lines in their order. */
  lemma FormatLines(rs: seq<SearchResult>)
    requires rs != []
    ensures |Bullets(Take(rs, 3))| == if |rs| < 3 then |rs| else 3
    ensures forall k :: 0 <= k < |Bullets(Take(rs, 3))| ==> Bullets(Take(rs, 3))[k] == "- " + rs[k].title
  {
  }

  // ---------------------------------------------------------------------------
  // The rule engine
  // ---------------------------------------------------------------------------

  /** `f"「{topic[:8]}」智能助手"` */
  function RuleName(topic: string): (r: string)
    ensures StartsWith(r, "「" + Take(topic, 8) + "」") && EndsWith(r, "智能助手")
  {
    var r := "「" + Take(topic, 8) + "」" + "智能助手";
    assert r[..|Take(topic, 8)| + 2] == "「" + Take(topic, 8) + "」";
    assert r[|r| - 4..] == "智能助手";
    r
  }

  function RuleFeatures(topic: string): (r: seq<string>)
    ensures |r| == 5 && r[0] == Mention("实时追踪", topic, "相关动态")
  {
    [Mention("实时追踪", topic, "相关动态"), "AI智能分析与推荐", "个性化内容定制",
     "社交互动分享", "数据可视化展示"]
  }

  function RulePainPoints(topic: string): (r: seq<string>)
    ensures |r| == 5 && r[0] == Mention("关于", topic, "的信息分散")
  {
    [Mention("关于", topic, "的信息分散"), "缺乏专业深度分析", "个性化推荐不足", "互动体验差",
     "数据不直观"]
  }

  function RuleInnovations(topic: string): (r: seq<string>)
    ensures |r| == 5 && r[0] == Mention("针对", topic, "的专业分析")
  {
    [Mention("针对", topic, "的专业分析"), "AI智能推荐", "多维度数据融合", "实时追踪",
     "社交化协作"]
  }

  function RuleMarket(topic: string): (r: MarketPotential)
    ensures r.marketSize == Mention("基于", topic, "的垂直市场")
  {
    MarketPotential(Mention("基于", topic, "的垂直市场"), "成长期", "专业壁垒", "会员+增值服务")
  }

  /**
   * The rule engine's scores: the six draws in their ranges, and `total`, `interest_score`
   * and `utility_score` left at 0.
   */
  function RuleScores(d: Draws): (s: ScoreSet)
    ensures SubScoresInRange(s)
    ensures s.total == 0 && s.interest == 0 && s.utility == 0
  {
    ScoreSet(0, 0, 0, RandInt(d.innovation, 15, 30), RandInt(d.painPoint, 15, 25),
             RandInt(d.potential, 10, 15), RandInt(d.social, 5, 10),
             RandInt(d.practicality, 5, 10), RandInt(d.feasibility, 5, 10))
  }

  /** Every in-range choice of the six sub-scores is one the engine can draw. */
  lemma RuleScoresOnto(s: ScoreSet)
    requires SubScoresInRange(s) && s.total == 0 && s.interest == 0 && s.utility == 0
    ensures RuleScores(Draws(s.innovation - 15, s.painPoint - 15, s.potential - 10,
                             s.social - 5, s.practicality - 5, s.feasibility - 5)) == s
  {
    RandIntOnto(15, 30, s.innovation);
    RandIntOnto(15, 25, s.painPoint);
    RandIntOnto(10, 15, s.potential);
    RandIntOnto(5, 10, s.social);
    RandIntOnto(5, 10, s.practicality);
    RandIntOnto(5, 10, s.feasibility);
  }

  /** `_rule_based_analysis`: the search results are passed in but not read. */
  function RuleBasedAnalysis(topic: string, d: Draws): (a: Analysis)
    ensures a.name == RuleName(topic) && a.eventTimeline.None?
    ensures |a.coreFeatures| == 5 && |a.painPoints| == 5 && |a.innovationPoints| == 5
    ensures Contains(a.coreFeatures[0], Quote(topic)) && Contains(a.painPoints[0], Quote(topic))
    ensures Contains(a.targetUsers, Quote(topic)) && Contains(a.innovationPoints[0], Quote(topic))
    ensures Contains(a.potential.marketSize, Quote(topic))
    ensures SubScoresInRange(a.scores) && a.scores.total == 0
  {
    Analysis(RuleName(topic), None, RuleFeatures(topic), RulePainPoints(topic),
             Mention("关注", topic, "的用户群体"), RuleInnovations(topic), RuleMarket(topic),
             RuleScores(d))
  }

  /**
   * A topic the rule engine analysed lands in the report's lowest bucket and sorts below every
   * topic with a positive total: its stored total is 0, while its sub-scores add up to at
   * least 55, so the stored sums disagree with the sub-scores.
   */
  lemma RuleBasedIsAverage(topic: string, d: Draws)
    ensures BucketOf(RuleBasedAnalysis(topic, d).scores.total) == Average
    ensures !TotalsConsistent(RuleBasedAnalysis(topic, d).scores)
  {
  }

  // ---------------------------------------------------------------------------
  // analyze_product_idea
  // ---------------------------------------------------------------------------

  /**
   * `ZhipuProductAnalyzer.analyze_product_idea`: the model's accepted reply, or the rule
   * engine's analysis after any failure. No failure escapes.
   */
  function AnalyzeProductIdea(topic: string, reply: Reply, parse: string -> Option<ParsedReply>,
                              d: Draws): (a: Analysis)
    ensures Interpret(reply, parse).Some? ==> a == Interpret(reply, parse).value
    ensures Interpret(reply, parse).None? ==> a == RuleBasedAnalysis(topic, d)
  {
    match Interpret(reply, parse)
    case Some(a) => a
    case None => RuleBasedAnalysis(topic, d)
  }

  /** A failed call always yields the rule engine's analysis, with its total of 0. */
  lemma FailedCallFallsBack(topic: string, parse: string -> Option<ParsedReply>, d: Draws)
    ensures AnalyzeProductIdea(topic, CallFailed, parse, d) == RuleBasedAnalysis(topic, d)
    ensures AnalyzeProductIdea(topic, CallFailed, parse, d).scores.total == 0
  {
  }

  /** An accepted reply's totals are the sums of its sub-scores; a fallback's total is 0. */
  lemma AnalysisTotals(topic: string, reply: Reply, parse: string -> Option<ParsedReply>, d: Draws)
    ensures var a := AnalyzeProductIdea(topic, reply, parse, d);
            TotalsConsistent(a.scores) || (a.scores.total == 0 && SubScoresInRange(a.scores))
  {
  }

  // ---------------------------------------------------------------------------
  // The report of weibo_analyzer_v2.py
  // ---------------------------------------------------------------------------

  /** What one topic's card shows in this script's report. */
  datatype V2Card = V2Card(topic: string, total: int, name: string, features: seq<string>,
                           targetUsers: string, interest: int, utility: int)

  function V2CardOf(row: Row): (c: V2Card)
    ensures c.topic == row.topic && c.total == Total(row)
    ensures c.features == Take(row.analysis.coreFeatures, 5)
  {
    var s := row.analysis.scores;
    V2Card(row.topic, s.total, row.analysis.name, Take(row.analysis.coreFeatures, 5),
           row.analysis.targetUsers, s.interest, s.utility)
  }

  datatype V2Report = V2Report(fileName: string, excellent: nat, good: nat, average: nat,
                               cards: seq<V2Card>)

  /**
   * The file number as this script computes it inline: 1 when the glob finds nothing,
   * otherwise one past the largest parsed suffix, or 1 when none parses.
   */
  method InlineFileNumber(date: string, names: seq<string>) returns (n: nat)
    requires AllDigits(date)
    ensures n == NextNumber(names, date)
  {
    var existing := false;
    var numbers: seq<nat> := [];
    var i := 0;
    while i < |names|
      invariant 0 <= i <= |names|
      invariant numbers == Suffixes(names[..i], date)
      invariant !existing ==> numbers == []
    {
      assert names[..i + 1][..i] == names[..i];
      if GlobMatches(names[i], date) {
        existing := true;
        var m := ParseSuffix(names[i], date);
        if m.Some? {
          numbers := numbers + [m.value];
        }
      }
      i := i + 1;
    }
    assert names[..|names|] == names;
    if existing {
      n := if numbers != [] then Max(numbers) + 1 else 1;
    } else {
      n := 1;
    }
  }

  /** The card loop of this script's report. */
  method BuildCards(sorted: seq<Row>) returns (cards: seq<V2Card>)
    ensures |cards| == |sorted|
    ensures forall i :: 0 <= i < |sorted| ==> cards[i] == V2CardOf(sorted[i])
  {
    cards := [];
    for i := 0 to |sorted|
      invariant |cards| == i
      invariant forall k :: 0 <= k < i ==> cards[k] == V2CardOf(sorted[k])
    {
      cards := cards + [V2CardOf(sorted[i])];
    }
  }

  /** `generate_html_report` of this script, without the markup and the file write. */
  method GenerateHtmlReport(rows: seq<Row>, date: string, names: seq<string>) returns (r: V2Report)
    requires AllDigits(date)
    ensures r.fileName == FileName(date, NextNumber(names, date)) && r.fileName !in names
    ensures r.excellent == Count(rows, Excellent) && r.good == Count(rows, Good)
    ensures r.average == Count(rows, Average)
    ensures r.excellent + r.good + r.average == |rows|
    ensures |r.cards| == |rows| == |SortByTotal(rows)|
    ensures forall i :: 0 <= i < |r.cards| ==> r.cards[i] == V2CardOf(SortByTotal(rows)[i])
    ensures forall i, j :: 0 <= i < j < |r.cards| ==> r.cards[i].total >= r.cards[j].total
  {
    var sorted := SortByTotal(rows);
    SortedReportFacts(rows);
    var excellent, good, average := Count(sorted, Excellent), Count(sorted, Good), Count(sorted, Average);
    var fileNumber := InlineFileNumber(date, names);
    NextFileNameFresh(names, date);
    var cards := BuildCards(sorted);
    r := V2Report(FileName(date, fileNumber), excellent, good, average, cards);
  }
}
