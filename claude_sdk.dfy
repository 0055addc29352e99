/**
 * weibo_analyzer_sdk.py: the analyzer that asks a Claude model (`ClaudeProductAnalyzer`),
 * falls back to `mock_ai_analysis` of weibo_hot_analyzer.py on any failure, and the
 * module-level dispatch that decides whether the model is asked at all.
 */
module ClaudeSdk {
  import opened Wrappers
  import opened Text
  import opened Scoring
  import opened Idea
  import opened LlmReply
  import Synthesizer

  // ---------------------------------------------------------------------------
  // The analysis context
  // ---------------------------------------------------------------------------

  /** The fixed opening of the context, with the topic under its heading. */
  function ContextHeader(topic: string): (r: string)
    ensures Contains(r, topic)
  {
    var pre := "## 热搜话题\n";
    var r := pre + topic + "\n\n## 话题分析\n请分析这个热搜话题背后反映的用户需求、市场趋势和社会情绪。\n\n## 背景信息\n";
    assert r[|pre|..|pre| + |topic|] == topic;
    ContainsWitness(r, topic, |pre|);
    r
  }

  const ResultsHeading: string := "### 相关新闻/讨论\n"
  const NoResultsNote: string := "（暂无搜索结果，请基于话题名称本身进行分析）"

  /** The line `f"{i}. {r['title']}\n"` for the result numbered `n`. */
  function NumberedLine(n: nat, title: string): (r: string)
    ensures StartsWith(r, NatToString(n) + ". ")
  {
    var r := NatToString(n) + ". " + title + "\n";
    assert r[..|NatToString(n)| + 2] == NatToString(n) + ". ";
    r
  }

  /** The lines for `rs`, numbered from 1 in their order. */
  function NumberedLines(rs: seq<SearchResult>): string
    decreases |rs|
  {
    if rs == [] then ""
    else NumberedLines(rs[..|rs| - 1]) + NumberedLine(|rs|, rs[|rs| - 1].title)
  }

  /** The context `_build_context` returns. */
  function Context(topic: string, rs: seq<SearchResult>): string {
    ContextHeader(topic)
    + if rs != [] then ResultsHeading + NumberedLines(Take(rs, 5)) else NoResultsNote
  }

  /** `_build_context`, appending one line per listed result. */
  method BuildContext(topic: string, rs: seq<SearchResult>) returns (context: string)
    ensures context == Context(topic, rs)
  {
    context := ContextHeader(topic);
    if rs != [] {
      context := context + ResultsHeading;
      var listed := Take(rs, 5);
      var i := 0;
      while i < |listed|
        invariant 0 <= i <= |listed|
        invariant context == ContextHeader(topic) + ResultsHeading + NumberedLines(listed[..i])
      {
        assert listed[..i + 1][..i] == listed[..i];
        context := context + NumberedLine(i + 1, listed[i].title);
        i := i + 1;
      }
      assert listed[..|listed|] == listed;
    } else {
      context := context + NoResultsNote;
    }
  }

  /** The `k`-th result, for `k` below the number listed, appears numbered `k + 1`. */
  lemma {:induction false} NumberedLinesList(rs: seq<SearchResult>, k: nat)
    requires k < |rs|
    ensures Contains(NumberedLines(rs), NumberedLine(k + 1, rs[k].title))
    decreases |rs|
  {
    var line := NumberedLine(k + 1, rs[k].title);
    var init := rs[..|rs| - 1];
    if k == |rs| - 1 {
      assert line == NumberedLine(|rs|, rs[|rs| - 1].title);
      ContainsWitness(line, line, 0);
      ContainsInConcat(NumberedLines(init), line, line);
    } else {
      NumberedLinesList(init, k);
      assert init[k] == rs[k];
      ContainsInPrefix(NumberedLines(init), NumberedLine(|rs|, rs[|rs| - 1].title), line);
    }
  }

  /** With results, the context lists each of the first five, numbered in order. */
  lemma ContextListsResults(topic: string, rs: seq<SearchResult>, k: nat)
    requires k < |rs| && k < 5
    ensures Contains(Context(topic, rs), NumberedLine(k + 1, rs[k].title))
  {
    var listed := Take(rs, 5);
    NumberedLinesList(listed, k);
    ContainsInConcat(ResultsHeading, NumberedLines(listed), NumberedLine(k + 1, rs[k].title));
    ContainsInConcat(ContextHeader(topic), ResultsHeading + NumberedLines(listed),
                     NumberedLine(k + 1, rs[k].title));
    assert Context(topic, rs) == ContextHeader(topic) + (ResultsHeading + NumberedLines(listed));
  }

  /** Without results, the context still names the topic and closes with the note that there are none. */
  lemma ContextWithoutResults(topic: string)
    ensures Context(topic, []) == ContextHeader(topic) + NoResultsNote
    ensures Contains(Context(topic, []), topic)
  {
    ContainsInPrefix(ContextHeader(topic), NoResultsNote, topic);
  }

  /** Results after the fifth never reach the context. */
  lemma ContextIgnoresRest(topic: string, rs: seq<SearchResult>, more: seq<SearchResult>)
    requires |rs| >= 5
    ensures Context(topic, rs + more) == Context(topic, rs)
  {
    assert Take(rs + more, 5) == Take(rs, 5);
  }

  // ---------------------------------------------------------------------------
  // The braces of the prompt template
  // ---------------------------------------------------------------------------

  /**
   * The text a stretch of an f-string without replacement fields stands for: "{{" and "}}"
   * stand for one brace each. `None` where the stretch is not plain literal text: a single
   * "}" is a syntax error, and a single "{" would open a replacement field.
   */
  function FStringLiteral(t: string): (r: Option<string>)
    ensures r.Some? ==> |r.value| <= |t|
    decreases |t|
  {
    if t == [] then Some([])
    else if t[0] == '{' || t[0] == '}' then
      if |t| >= 2 && t[1] == t[0] then
        match FStringLiteral(t[2..])
        case Some(u) => Some([t[0]] + u)
        case None => None
      else None
    else
      match FStringLiteral(t[1..])
      case Some(u) => Some([t[0]] + u)
      case None => None
  }

  /** How literal text has to be written inside an f-string: every brace doubled. */
  function Escape(u: string): (t: string)
    ensures |t| >= |u|
  {
    if u == [] then []
    else if u[0] == '{' || u[0] == '}' then [u[0], u[0]] + Escape(u[1..])
    else [u[0]] + Escape(u[1..])
  }

  /** Round trip: escaped text reads back as the text itself. */
  lemma {:induction false} EscapeRoundTrip(u: string)
    ensures FStringLiteral(Escape(u)) == Some(u)
  {
    if u != [] {
      EscapeRoundTrip(u[1..]);
      var t := Escape(u);
      assert u == [u[0]] + u[1..];
      if u[0] == '{' || u[0] == '}' {
        assert t[2..] == Escape(u[1..]);
      } else {
        assert t[1..] == Escape(u[1..]);
      }
    }
  }

  /**
   * The end of the JSON skeleton in the prompt as written: the `scores` object is closed
   * with "}}", but the outer object with a single "}".
   */
  const PromptTailAsWritten: string := "}}\n}"

  /** As written, the prompt template is rejected, so the module does not compile. */
  lemma PromptTailRejected()
    ensures FStringLiteral(PromptTailAsWritten).None?
  {
    assert PromptTailAsWritten[3..] == "}";
    assert FStringLiteral(PromptTailAsWritten[3..]).None?;
    assert PromptTailAsWritten[2..] == "\n}";
  }

  /** Corrected: both objects closed with a doubled brace. */
  const PromptTail: string := "}}\n}}"

  /** The corrected template closes both objects of the skeleton it shows the model. */
  lemma PromptTailAccepted()
    ensures FStringLiteral(PromptTail) == Some("}\n}")
    ensures PromptTail == Escape("}\n}")
  {
    EscapeRoundTrip("}\n}");
    assert "}\n}"[1..] == "\n}" && "\n}"[1..] == "}" && "}"[1..] == "";
    assert Escape("}\n}") == "}}" + ("\n" + ("}}" + ""));
    assert PromptTail == "}}" + ("\n" + ("}}" + ""));
  }

  // ---------------------------------------------------------------------------
  // Analysis, fallback and dispatch
  // ---------------------------------------------------------------------------

  /** `_fallback_analysis`: the rule engine of weibo_hot_analyzer.py. */
  function FallbackAnalysis(topic: string, rs: seq<SearchResult>, d: Draws): (a: Analysis)
    ensures Synthesizer.MockShaped(topic, a)
  {
    Synthesizer.MockAiAnalysis(topic, rs, d)
  }

  /** `ClaudeProductAnalyzer.analyze_product_idea`: the accepted reply, or the fallback. */
  function AnalyzeWithClaude(topic: string, rs: seq<SearchResult>, reply: Reply,
                             parse: string -> Option<ParsedReply>, d: Draws): (a: Analysis)
    ensures Interpret(reply, parse).Some? ==> a == Interpret(reply, parse).value
    ensures Interpret(reply, parse).None? ==> a == FallbackAnalysis(topic, rs, d)
  {
    match Interpret(reply, parse)
    case Some(a) => a
    case None => FallbackAnalysis(topic, rs, d)
  }

  /**
   * Unlike the rule engine of weibo_analyzer_v2.py, both paths here leave totals that are the
   * sums of the sub-scores; after a failure the sub-scores are also in range.
   */
  lemma ClaudeTotalsConsistent(topic: string, rs: seq<SearchResult>, reply: Reply,
                               parse: string -> Option<ParsedReply>, d: Draws)
    ensures TotalsConsistent(AnalyzeWithClaude(topic, rs, reply, parse, d).scores)
    ensures Interpret(reply, parse).None? ==>
              SubScoresInRange(AnalyzeWithClaude(topic, rs, reply, parse, d).scores)
  {
  }

  /** The configuration and environment the dispatch consults. */
  datatype Setup = Setup(useClaudeSdk: bool, claudeAvailable: bool, apiKey: Option<string>,
                         clientBuilds: bool)

  /**
   * `ClaudeProductAnalyzer()` succeeds: the package is there, the key is set and not empty,
   * and the client constructor (a foreign call) does not raise.
   */
  predicate ConstructorSucceeds(s: Setup) {
    s.claudeAvailable && s.apiKey.Some? && s.apiKey.value != "" && s.clientBuilds
  }

  /**
   * The module-level `analyze_product_idea`: the model is asked only when the configuration
   * enables it and the package is available; a constructor that raises, or a disabled SDK,
   * leads straight to the rule engine.
   */
  function AnalyzeProductIdea(s: Setup, topic: string, rs: seq<SearchResult>, reply: Reply,
                              parse: string -> Option<ParsedReply>, d: Draws): (a: Analysis)
    ensures !(s.useClaudeSdk && s.claudeAvailable) ==> a == Synthesizer.MockAiAnalysis(topic, rs, d)
    ensures !ConstructorSucceeds(s) ==> a == Synthesizer.MockAiAnalysis(topic, rs, d)
    ensures s.useClaudeSdk && ConstructorSucceeds(s) ==> a == AnalyzeWithClaude(topic, rs, reply, parse, d)
  {
    if s.useClaudeSdk && s.claudeAvailable then
      if ConstructorSucceeds(s) then AnalyzeWithClaude(topic, rs, reply, parse, d)
      else Synthesizer.MockAiAnalysis(topic, rs, d)
    else Synthesizer.MockAiAnalysis(topic, rs, d)
  }

  /**
   * Whatever the setup, a reply that fails gives the same analysis as a disabled SDK, and a
   * result other than the rule engine's is an accepted reply from an enabled, constructed client.
   */
  lemma DispatchPrecedence(s: Setup, topic: string, rs: seq<SearchResult>, reply: Reply,
                           parse: string -> Option<ParsedReply>, d: Draws)
    ensures Interpret(reply, parse).None? ==>
              AnalyzeProductIdea(s, topic, rs, reply, parse, d) == Synthesizer.MockAiAnalysis(topic, rs, d)
    ensures AnalyzeProductIdea(s, topic, rs, reply, parse, d) != Synthesizer.MockAiAnalysis(topic, rs, d) ==>
              s.useClaudeSdk && ConstructorSucceeds(s) && Interpret(reply, parse).Some?
    ensures TotalsConsistent(AnalyzeProductIdea(s, topic, rs, reply, parse, d).scores)
  {
  }
}
