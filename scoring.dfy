/**
 * The scoring rubric of `calculate_scores` (weibo_hot_analyzer.py): six sub-scores drawn
 * from fixed integer ranges, the "interest" sum of the first four, the "utility" sum of the
 * last two, and their total.
 *
 * The generator behind the draws (`random.seed(hash(topic))` followed by `random.randint`)
 * is not modelled: Python salts its string hash per process, so the model takes the six
 * raw outputs of the generator as an input and maps each into its range the way a uniform
 * draw over `lo..hi` must land.
 */
module Scoring {

  /** `random.randint(lo, hi)`, given the generator's raw output for this draw. */
  function RandInt(raw: int, lo: int, hi: int): (r: int)
    requires lo <= hi
    ensures lo <= r <= hi
  {
    lo + raw % (hi - lo + 1)
  }

  /** Every value of the range can be drawn, so the model does not narrow `randint`. */
  lemma RandIntOnto(lo: int, hi: int, v: int)
    requires lo <= v <= hi
    ensures RandInt(v - lo, lo, hi) == v
  {
    assert (v - lo) % (hi - lo + 1) == v - lo;
  }

  /** The generator's raw outputs for the six draws, in the order the source draws them. */
  datatype Draws = Draws(innovation: int, painPoint: int, potential: int, social: int,
                         practicality: int, feasibility: int)

  /** The `scores` dictionary: the six sub-scores and the three derived ones. */
  datatype ScoreSet = ScoreSet(total: int, interest: int, utility: int,
                               innovation: int, painPoint: int, potential: int, social: int,
                               practicality: int, feasibility: int)

  /** Each sub-score lies in the range the rubric gives it. */
  predicate SubScoresInRange(s: ScoreSet) {
    && 15 <= s.innovation <= 30
    && 15 <= s.painPoint <= 25
    && 10 <= s.potential <= 15
    && 5 <= s.social <= 10
    && 5 <= s.practicality <= 10
    && 5 <= s.feasibility <= 10
  }

  /** The derived scores are the sums of the sub-scores (the rubric's invariant). */
  predicate TotalsConsistent(s: ScoreSet) {
    && s.interest == s.innovation + s.painPoint + s.potential + s.social
    && s.utility == s.practicality + s.feasibility
    && s.total == s.interest + s.utility
  }

  /**
   * The ranges of the sums follow from the sub-score ranges: interest reaches at most 80 and
   * utility at most 20, but the smallest draws give an interest of 45 and a total of 55.
   */
  lemma DerivedBounds(s: ScoreSet)
    requires SubScoresInRange(s) && TotalsConsistent(s)
    ensures 45 <= s.interest <= 80 && 10 <= s.utility <= 20 && 55 <= s.total <= 100
  {
  }

  /**
   * `calculate_scores`. Python's `round(x, 1)` of the integer total is that integer.
   */
  function CalculateScores(d: Draws): (s: ScoreSet)
    ensures SubScoresInRange(s) && TotalsConsistent(s)
    ensures 45 <= s.interest <= 80 && 10 <= s.utility <= 20 && 55 <= s.total <= 100
  {
    var innovation := RandInt(d.innovation, 15, 30);
    var painPoint := RandInt(d.painPoint, 15, 25);
    var potential := RandInt(d.potential, 10, 15);
    var social := RandInt(d.social, 5, 10);
    var interest := innovation + painPoint + potential + social;
    var practicality := RandInt(d.practicality, 5, 10);
    var feasibility := RandInt(d.feasibility, 5, 10);
    var utility := practicality + feasibility;
    ScoreSet(interest + utility, interest, utility,
             innovation, painPoint, potential, social, practicality, feasibility)
  }

  /** Conversely, every score set the rubric allows is the outcome of some six draws. */
  lemma CalculateScoresOnto(s: ScoreSet)
    requires SubScoresInRange(s) && TotalsConsistent(s)
    ensures CalculateScores(Draws(s.innovation - 15, s.painPoint - 15, s.potential - 10,
                                  s.social - 5, s.practicality - 5, s.feasibility - 5)) == s
  {
    var d := Draws(s.innovation - 15, s.painPoint - 15, s.potential - 10,
                   s.social - 5, s.practicality - 5, s.feasibility - 5);
    RandIntOnto(15, 30, s.innovation);
    RandIntOnto(15, 25, s.painPoint);
    RandIntOnto(10, 15, s.potential);
    RandIntOnto(5, 10, s.social);
    RandIntOnto(5, 10, s.practicality);
    RandIntOnto(5, 10, s.feasibility);
    var c := CalculateScores(d);
    assert c.innovation == s.innovation && c.painPoint == s.painPoint && c.potential == s.potential;
    assert c.social == s.social && c.practicality == s.practicality && c.feasibility == s.feasibility;
  }
}
