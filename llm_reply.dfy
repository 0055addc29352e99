/**
 * What weibo_analyzer_v2.py and weibo_analyzer_sdk.py do with a language model's reply
 * (`analyze_product_idea` in both): strip a Markdown code fence, parse the rest as JSON, and
 * overwrite the three derived scores with the sums of the six sub-scores the reply supplied.
 * The call itself and `json.loads` are foreign: the reply is an input, and the parser is a
 * parameter that yields the keys the analyzers read, or `None` where parsing fails.
 */
module LlmReply {
  import opened Wrappers
  import opened Text
  import opened Scoring
  import opened Idea

  // ---------------------------------------------------------------------------
  // Code fences
  // ---------------------------------------------------------------------------

  /** "```" starts at index `i` of `s`: `s[i:].startswith("```")`, character by character. */
  predicate FenceAt(s: string, i: int) {
    0 <= i && i + 3 <= |s| && s[i] == '`' && s[i + 1] == '`' && s[i + 2] == '`'
  }

  /** `s.startswith("```json")` */
  predicate OpensJson(s: string) {
    FenceAt(s, 0) && 7 <= |s| && s[3] == 'j' && s[4] == 's' && s[5] == 'o' && s[6] == 'n'
  }

  /** The character-wise tests are the source's `startswith` and `endswith`. */
  lemma FenceTests(s: string)
    ensures FenceAt(s, 0) <==> StartsWith(s, "```")
    ensures OpensJson(s) <==> StartsWith(s, "```json")
    ensures FenceAt(s, |s| - 3) <==> EndsWith(s, "```")
  {
    if StartsWith(s, "```") {
      assert s[..3][1] == s[1] && s[..3][2] == s[2];
    }
    if StartsWith(s, "```json") {
      assert s[..7][4] == s[4] && s[..7][6] == s[6];
    }
    if EndsWith(s, "```") {
      assert s[|s| - 3..][1] == s[|s| - 2];
    }
  }

  /**
   * How many leading characters the fence removal drops: 7 for "```json", then 3 more if
   * what is left still begins with "```".
   */
  function LeadLength(s: string): (n: nat)
    ensures n <= |s|
  {
    var a := if OpensJson(s) then 7 else 0;
    a + if FenceAt(s, a) then 3 else 0
  }

  /** 3 if the text after the leading fence ends with "```", else 0. */
  function TrailLength(s: string): (n: nat)
    ensures LeadLength(s) + n <= |s|
  {
    if LeadLength(s) + 3 <= |s| && FenceAt(s, |s| - 3) then 3 else 0
  }

  /** The text handed to the JSON parser: the slice between the fences, whitespace-stripped. */
  function Unfenced(s: string): string {
    Strip(s[LeadLength(s)..|s| - TrailLength(s)])
  }

  lemma UnfencedSlice(s: string, start: nat, end: nat)
    requires start == LeadLength(s) && end == |s| - TrailLength(s)
    ensures Unfenced(s) == Strip(s[start..end])
  {
  }

  /**
   * The five reassignments of `result_text` before `json.loads`, with the `startswith` and
   * `endswith` tests written character by character (`FenceTests`).
   */
  method StripCodeFence(resultText: string) returns (r: string)
    ensures r == Unfenced(resultText)
  {
    // r is always the slice resultText[start..end]
    ghost var start, end := 0, |resultText|;
    r := resultText;
    if OpensJson(r) {
      r, start := r[7..], 7;
    }
    assert r == resultText[start..end];
    if FenceAt(r, 0) {
      assert r[..3] == resultText[start..start + 3];
      r, start := r[3..], start + 3;
    }
    assert start == LeadLength(resultText);
    if FenceAt(r, |r| - 3) {
      assert r[|r| - 3..] == resultText[end - 3..];
      r, end := r[..|r| - 3], end - 3;
    } else {
      assert |r| >= 3 ==> r[|r| - 3..] == resultText[end - 3..];
    }
    assert end == |resultText| - TrailLength(resultText);
    assert r == resultText[start..end];
    UnfencedSlice(resultText, start, end);
    r := Strip(r);
  }

  /** Round trip: a payload wrapped in a "```json" fence comes back whitespace-stripped. */
  lemma FenceRoundTrip(p: string)
    requires !StartsWith(p, "```")
    ensures Unfenced("```json" + p + "```") == Strip(p)
  {
    var s := "```json" + p + "```";
    FenceTests(p);
    assert OpensJson(s);
    if FenceAt(s, 7) {
      // p is shorter than the fence and made of backticks, so the text after the
      // first fence is the second one followed by p
      assert |p| < 3;
      assert s[10..] == p by {
        forall k | 0 <= k < |p| ensures s[10 + k] == p[k] {
          assert s[7 + k] == p[k];
          assert s[10 + k] == '`';
        }
      }
      assert LeadLength(s) == 10 && TrailLength(s) == 0;
      assert s[10..|s|] == p;
    } else {
      assert LeadLength(s) == 7 && TrailLength(s) == 3;
      assert s[7..|s| - 3] == p;
    }
  }

  /** The same for a bare "```" fence, whenever the payload does not itself begin with "json". */
  lemma PlainFenceRoundTrip(p: string)
    requires !StartsWith(p, "json")
    ensures Unfenced("```" + p + "```") == Strip(p)
  {
    var s := "```" + p + "```";
    assert LeadLength(s) == 3 && TrailLength(s) == 3;
    assert s[3..|s| - 3] == p;
  }

  /** Text with no fence at either end is only whitespace-stripped. */
  lemma PlainOnlyStripped(s: string)
    requires !StartsWith(s, "```") && !EndsWith(s, "```")
    ensures Unfenced(s) == Strip(s)
  {
    FenceTests(s);
    assert LeadLength(s) == 0 && TrailLength(s) == 0;
    assert s[0..|s|] == s;
  }

  // ---------------------------------------------------------------------------
  // The parsed reply and the recomputed totals
  // ---------------------------------------------------------------------------

  /** The outcome of `client.messages.create(...)` and `response.content[0].text`. */
  datatype Reply = CallFailed | Replied(text: string)

  /** The reply's `scores` object; a key the reply left out is `None`. */
  datatype RawScores = RawScores(innovation: Option<int>, painPoint: Option<int>,
                                 potential: Option<int>, social: Option<int>,
                                 practicality: Option<int>, feasibility: Option<int>,
                                 total: Option<int>, interest: Option<int>, utility: Option<int>)

  /** The parsed JSON object, as far as the analyzers and the report read it. */
  datatype ParsedReply = ParsedReply(name: Option<string>, coreFeatures: seq<string>,
                                     painPoints: seq<string>, targetUsers: string,
                                     innovationPoints: seq<string>, potential: MarketPotential,
                                     scores: Option<RawScores>)

  /** All six sub-scores are present: summing them raises no `KeyError`. */
  predicate HasSubScores(r: RawScores) {
    r.innovation.Some? && r.painPoint.Some? && r.potential.Some? && r.social.Some?
    && r.practicality.Some? && r.feasibility.Some?
  }

  /** Every key read inside the `try` block is present: `scores`, its six sub-scores and `name`. */
  predicate Complete(p: ParsedReply) {
    p.name.Some? && p.scores.Some? && HasSubScores(p.scores.value)
  }

  /**
   * The scores after `scores["total"]`, `scores["interest_score"]` and
   * `scores["utility_score"]` are overwritten: the supplied sub-scores, unclamped, and their sums.
   */
  function Recomputed(r: RawScores): (s: ScoreSet)
    requires HasSubScores(r)
    ensures TotalsConsistent(s)
    ensures s.innovation == r.innovation.value && s.painPoint == r.painPoint.value
    ensures s.potential == r.potential.value && s.social == r.social.value
    ensures s.practicality == r.practicality.value && s.feasibility == r.feasibility.value
  {
    var interest := r.innovation.value + r.painPoint.value + r.potential.value + r.social.value;
    var utility := r.practicality.value + r.feasibility.value;
    ScoreSet(interest + utility, interest, utility, r.innovation.value, r.painPoint.value,
             r.potential.value, r.social.value, r.practicality.value, r.feasibility.value)
  }

  /** The analysis returned after a successful parse, or `None` where a key is missing. */
  function Accept(p: ParsedReply): (r: Option<Analysis>)
    ensures r.Some? <==> Complete(p)
    ensures r.Some? ==> r.value.scores == Recomputed(p.scores.value)
    ensures r.Some? ==> r.value.name == p.name.value && r.value.eventTimeline.None?
    ensures r.Some? ==> r.value.coreFeatures == p.coreFeatures && r.value.painPoints == p.painPoints
    ensures r.Some? ==> r.value.innovationPoints == p.innovationPoints && r.value.targetUsers == p.targetUsers
    ensures r.Some? ==> r.value.potential == p.potential
  {
    if Complete(p) then
      Some(Analysis(p.name.value, None, p.coreFeatures, p.painPoints, p.targetUsers,
                    p.innovationPoints, p.potential, Recomputed(p.scores.value)))
    else None
  }

  /** Whatever totals the reply supplied, the accepted analysis is the same. */
  lemma AcceptIgnoresSuppliedTotals(p: ParsedReply, total: Option<int>, interest: Option<int>,
                                    utility: Option<int>)
    requires p.scores.Some?
    ensures Accept(p.(scores := Some(p.scores.value.(total := total, interest := interest,
                                                     utility := utility)))) == Accept(p)
  {
  }

  /**
   * The body of the `try` block: `None` stands for every exception it raises (a failed call,
   * a `JSONDecodeError`, a missing key), each of which the analyzers answer with their fallback.
   */
  function Interpret(reply: Reply, parse: string -> Option<ParsedReply>): (r: Option<Analysis>)
    ensures r.Some? <==> reply.Replied? && parse(Unfenced(reply.text)).Some?
                         && Complete(parse(Unfenced(reply.text)).value)
    ensures r.Some? ==> TotalsConsistent(r.value.scores)
  {
    match reply
    case CallFailed => None
    case Replied(text) =>
      match parse(Unfenced(text))
      case None => None
      case Some(p) => Accept(p)
  }

  /** The `try` block step by step: fence removal, parsing, and the recomputation of the totals. */
  method ReadReply(reply: Reply, parse: string -> Option<ParsedReply>) returns (r: Option<Analysis>)
    ensures r == Interpret(reply, parse)
  {
    if reply.CallFailed? {
      return None;
    }
    var text := StripCodeFence(reply.text);
    var parsed := parse(text);
    if parsed.None? {
      return None;
    }
    var p := parsed.value;
    if p.scores.None? || !HasSubScores(p.scores.value) {
      return None;
    }
    var scores := Recomputed(p.scores.value);
    if p.name.None? {
      return None;
    }
    r := Some(Analysis(p.name.value, None, p.coreFeatures, p.painPoints, p.targetUsers,
                       p.innovationPoints, p.potential, scores));
  }

  /**
   * The derived scores of an accepted reply follow the rubric's sums, but nothing bounds the
   * sub-scores: a reply's out-of-range score is kept as it is.
   */
  lemma AcceptKeepsOutOfRange(p: ParsedReply)
    requires Complete(p) && p.scores.value.innovation.value > 30
    ensures Accept(p).Some? && !SubScoresInRange(Accept(p).value.scores)
  {
  }
}
