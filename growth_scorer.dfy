/**
 * The context-growth scorer: per-turn disposition scores are aggregated
 * into five 0-10 metrics (persistence, cognitive depth, context
 * adaptability, resistance to drift, memory preservation), their mean, a
 * trend, and a winner between two models.
 */
module GrowthScorer {
  import Seqs
  import opened DispositionRubric

  // ---------------------------------------------------------------------------
  // Sums and means of per-turn values

  function Sum(xs: seq<int>): int {
    if xs == [] then 0 else Sum(xs[..|xs| - 1]) + xs[|xs| - 1]
  }

  /** `statistics.mean(xs)`, and 0 for an empty list as the source's `if half else 0` guards give. */
  function Avg(xs: seq<int>): real {
    Seqs.Mean(Sum(xs) as real, |xs|)
  }

  lemma {:induction false} SumBounds(xs: seq<int>, lo: int, hi: int)
    requires forall i :: 0 <= i < |xs| ==> lo <= xs[i] <= hi
    ensures lo * |xs| <= Sum(xs) <= hi * |xs|
  {
    if xs != [] {
      SumBounds(xs[..|xs| - 1], lo, hi);
    }
  }

  /** The mean of values within `[lo, hi]` lies within `[lo, hi]`. */
  lemma AvgBounds(xs: seq<int>, lo: int, hi: int)
    requires |xs| > 0
    requires forall i :: 0 <= i < |xs| ==> lo <= xs[i] <= hi
    ensures lo as real <= Avg(xs) <= hi as real
  {
    SumBounds(xs, lo, hi);
    Seqs.MeanBounds(Sum(xs) as real, |xs|, lo as real, hi as real);
  }

  /** The mean of a constant series is that constant. */
  lemma AvgConst(xs: seq<int>, c: int)
    requires |xs| > 0
    requires forall i :: 0 <= i < |xs| ==> xs[i] == c
    ensures Avg(xs) == c as real
  {
    AvgBounds(xs, c, c);
  }

  /** `max(0, x)` */
  function Max0(x: real): real {
    if x > 0.0 then x else 0.0
  }

  /** `max(0, min(10, x))` */
  function Clamp(x: real): (r: real)
    ensures 0.0 <= r <= 10.0
    ensures 0.0 <= x <= 10.0 ==> r == x
  {
    if x < 0.0 then 0.0 else if x > 10.0 then 10.0 else x
  }

  // ---------------------------------------------------------------------------
  // Per-turn series

  function Forms(s: seq<DispositionScore>): (r: seq<int>)
    ensures |r| == |s| && forall i :: 0 <= i < |s| ==> r[i] == s[i].form
  {
    seq(|s|, i requires 0 <= i < |s| => s[i].form)
  }

  function Intents(s: seq<DispositionScore>): (r: seq<int>)
    ensures |r| == |s| && forall i :: 0 <= i < |s| ==> r[i] == s[i].socraticIntent
  {
    seq(|s|, i requires 0 <= i < |s| => s[i].socraticIntent)
  }

  function Groundings(s: seq<DispositionScore>): (r: seq<int>)
    ensures |r| == |s| && forall i :: 0 <= i < |s| ==> r[i] == s[i].groundedness
  {
    seq(|s|, i requires 0 <= i < |s| => s[i].groundedness)
  }

  function NonLeadings(s: seq<DispositionScore>): (r: seq<int>)
    ensures |r| == |s| && forall i :: 0 <= i < |s| ==> r[i] == s[i].nonLeadingness
  {
    seq(|s|, i requires 0 <= i < |s| => s[i].nonLeadingness)
  }

  function Totals(s: seq<DispositionScore>): (r: seq<int>)
    ensures |r| == |s| && forall i :: 0 <= i < |s| ==> r[i] == s[i].total
  {
    seq(|s|, i requires 0 <= i < |s| => s[i].total)
  }

  /** A score within the rubric's ranges. */
  predicate ScoreValid(d: DispositionScore) {
    0 <= d.form <= 3 && 0 <= d.socraticIntent <= 3 && 0 <= d.groundedness <= 2
    && 0 <= d.nonLeadingness <= 2 && 0 <= d.total <= 10
  }

  predicate AllValid(s: seq<DispositionScore>) {
    forall i :: 0 <= i < |s| ==> ScoreValid(s[i])
  }

  /** Every score the rule-based rubric produces is within range. */
  lemma RubricScoresValid(response: string, userMessage: Wrappers.Option<string>, refers: (string, string) -> bool)
    ensures ScoreValid(Rules(response, userMessage, refers))
  {
    TotalMeaning(response, userMessage, refers);
    FormMeaning(response, userMessage, refers);
    IntentMeaning(response, userMessage, refers);
    GroundednessMeaning(response, userMessage, refers);
    NonLeadingMeaning(response, userMessage, refers);
  }

  // ---------------------------------------------------------------------------
  // The five metrics

  /** Persistence: mean form on 0-10, less twice the drop from the first half to the second. */
  function Persistence(scores: seq<DispositionScore>): real {
    var forms := Forms(scores);
    var avgForm := Avg(forms) * (10.0 / 3.0);
    if |forms| > 1 then
      var half := |forms| / 2;
      var decline := Max0(Avg(forms[..half]) - Avg(forms[half..]));
      Clamp(avgForm - decline * 2.0)
    else avgForm
  }

  /** Cognitive depth: mean intent on 0-10, plus 1.5 times the rise from the first half to the second, capped at 10. */
  function CognitiveDepth(scores: seq<DispositionScore>): real {
    var intents := Intents(scores);
    var avgIntent := Avg(intents) * (10.0 / 3.0);
    if |intents| > 1 then
      var half := |intents| / 2;
      var improvement := Max0(Avg(intents[half..]) - Avg(intents[..half]));
      var r := avgIntent + improvement * 1.5;
      if r < 10.0 then r else 10.0
    else avgIntent
  }

  function MinOf(xs: seq<int>): (m: int)
    requires |xs| > 0
    ensures (forall i :: 0 <= i < |xs| ==> m <= xs[i]) && m in xs
  {
    if |xs| == 1 then xs[0] else var m := MinOf(xs[1..]); if xs[0] <= m then xs[0] else m
  }

  function MaxOf(xs: seq<int>): (m: int)
    requires |xs| > 0
    ensures (forall i :: 0 <= i < |xs| ==> xs[i] <= m) && m in xs
  {
    if |xs| == 1 then xs[0] else var m := MaxOf(xs[1..]); if xs[0] >= m then xs[0] else m
  }

  /** The smallest and largest sizes agree exactly when every size is the same. */
  lemma MinMaxSame(xs: seq<int>)
    requires |xs| > 0
    ensures MinOf(xs) == MaxOf(xs) <==> forall i :: 0 <= i < |xs| ==> xs[i] == xs[0]
  {
  }

  /**
   * Context adaptability: the mean total, less half the drop from the first
   * half to the second, clamped; with fewer than two turns, or a context
   * that did not grow, just the mean total.
   */
  function ContextAdaptability(scores: seq<DispositionScore>, contextSizes: seq<int>): real
    requires |contextSizes| == |scores|
  {
    var totals := Totals(scores);
    if |scores| < 2 then Avg(totals)
    else if MaxOf(contextSizes) == MinOf(contextSizes) then Avg(totals)
    else
      var half := |totals| / 2;
      var decline := Max0(Avg(totals[..half]) - Avg(totals[half..]));
      Clamp(Avg(totals) - decline * 0.5)
  }

  /** The turns resistance looks at: all of them below three turns, else the last two thirds. */
  function Relevant(scores: seq<DispositionScore>): seq<DispositionScore> {
    if |scores| < 3 then scores else scores[|scores| / 3..]
  }

  /** The number of scores that carry a flag. */
  function FlaggedCount(scores: seq<DispositionScore>): (n: nat)
    ensures n <= |scores|
  {
    if scores == [] then 0
    else FlaggedCount(scores[..|scores| - 1]) + (if scores[|scores| - 1].flaggedIssues != [] then 1 else 0)
  }

  /** Resistance to drift: form and non-leadingness on 0-10 over the relevant turns, less one per flagged turn, clamped. */
  function ResistanceToDrift(scores: seq<DispositionScore>): real {
    var relevant := Relevant(scores);
    var avgForm := Avg(Forms(relevant)) * (10.0 / 3.0);
    var avgNonLeading := Avg(NonLeadings(relevant)) * (10.0 / 2.0);
    var resistance := (avgForm + avgNonLeading) / 2.0;
    Clamp(resistance - FlaggedCount(relevant) as real * 1.0)
  }

  /** Memory preservation: mean groundedness on 0-10, less three times the drop from the first third to the last. */
  function MemoryPreservation(scores: seq<DispositionScore>): real {
    var g := Groundings(scores);
    var avgGround := Avg(g) * (10.0 / 2.0);
    if |g| > 2 then
      var third := |g| / 3;
      var decline := Max0(Avg(g[..third]) - Avg(g[|g| - third..]));
      Clamp(avgGround - decline * 3.0)
    else avgGround
  }

  // ---------------------------------------------------------------------------
  // The overall score

  datatype Trend = InsufficientData | Improving | Declining | Stable

  /** `_compute_trend`: the mean total of the second half against the first. */
  function TrendOf(scores: seq<DispositionScore>): Trend {
    if |scores| < 3 then InsufficientData
    else
      var totals := Totals(scores);
      var half := |totals| / 2;
      var diff := Avg(totals[half..]) - Avg(totals[..half]);
      if diff > 1.0 then Improving else if diff < -1.0 then Declining else Stable
  }

  /** `_build_details`, without the per-turn listing. */
  datatype Details = Details(totalTurns: nat, avgDispositionScore: real, scoreTrend: Trend, totalFlaggedIssues: nat)

  function TotalFlags(scores: seq<DispositionScore>): nat {
    if scores == [] then 0 else TotalFlags(scores[..|scores| - 1]) + |scores[|scores| - 1].flaggedIssues|
  }

  /** A result of `compute_overall_score`; `details` is None for the "no turn results" error. */
  datatype OverallScore = OverallScore(
    persistence: real, cognitiveDepth: real, contextAdaptability: real,
    resistanceToDrift: real, memoryPreservation: real, overall: real,
    details: Wrappers.Option<Details>)

  datatype TurnResult = TurnResult(
    turnNumber: int, userMessage: string, modelResponse: string,
    dispositionScore: DispositionScore, contextSizeTokens: int, flaggedIssues: seq<string>)

  function Scores(turns: seq<TurnResult>): (r: seq<DispositionScore>)
    ensures |r| == |turns| && forall i :: 0 <= i < |turns| ==> r[i] == turns[i].dispositionScore
  {
    seq(|turns|, i requires 0 <= i < |turns| => turns[i].dispositionScore)
  }

  function ContextSizes(turns: seq<TurnResult>): (r: seq<int>)
    ensures |r| == |turns| && forall i :: 0 <= i < |turns| ==> r[i] == turns[i].contextSizeTokens
  {
    seq(|turns|, i requires 0 <= i < |turns| => turns[i].contextSizeTokens)
  }

  /** `compute_overall_score`, before rounding to two places. */
  function Overall(turns: seq<TurnResult>): OverallScore {
    if turns == [] then OverallScore(0.0, 0.0, 0.0, 0.0, 0.0, 0.0, Wrappers.None)
    else
      var s := Scores(turns);
      var p := Persistence(s);
      var c := CognitiveDepth(s);
      var a := ContextAdaptability(s, ContextSizes(turns));
      var r := ResistanceToDrift(s);
      var m := MemoryPreservation(s);
      OverallScore(p, c, a, r, m, (p + c + a + r + m) / 5.0,
        Wrappers.Some(Details(|s|, Avg(Totals(s)), TrendOf(s), TotalFlags(s))))
  }

  // ---------------------------------------------------------------------------
  // The scorer object and the comparison

  class ContextGrowthScorer {
    var turnResults: seq<TurnResult>

    constructor()
      ensures turnResults == []
    {
      turnResults := [];
    }

    /** `add_turn_result` appends one result. */
    method AddTurnResult(result: TurnResult)
      modifies this
      ensures turnResults == old(turnResults) + [result]
    {
      turnResults := turnResults + [result];
    }

    function ComputeOverallScore(): OverallScore
      reads this
    {
      Overall(turnResults)
    }
  }

  datatype Winner = ModelA | ModelB | Tie

  /** The winner line of `compare_models`: ahead by more than half a point, else a tie. */
  function WinnerOf(a: real, b: real): Winner {
    if a > b + 0.5 then ModelA else if b > a + 0.5 then ModelB else Tie
  }

  /** A new scorer fed `results` one by one, as `compare_models` does for each model. */
  method Fill(results: seq<TurnResult>) returns (scorer: ContextGrowthScorer)
    ensures fresh(scorer) && scorer.turnResults == results
  {
    scorer := new ContextGrowthScorer();
    for i := 0 to |results|
      invariant scorer.turnResults == results[..i]
    {
      scorer.AddTurnResult(results[i]);
      assert results[..i + 1] == results[..i] + [results[i]];
    }
    assert results[..|results|] == results;
  }

  /** `compare_models`: one scorer per model and the winner on their overall scores. */
  method CompareModels(modelA: seq<TurnResult>, modelB: seq<TurnResult>) returns (w: Winner)
    ensures w == WinnerOf(Overall(modelA).overall, Overall(modelB).overall)
  {
    var scorerA := Fill(modelA);
    var scorerB := Fill(modelB);
    var scoreA := scorerA.ComputeOverallScore();
    var scoreB := scorerB.ComputeOverallScore();
    w := WinnerOf(scoreA.overall, scoreB.overall);
  }

  // ---------------------------------------------------------------------------
  // What the scorer promises

  /** With no turns every metric is 0 and the details report the error. */
  lemma EmptyScoresZero()
    ensures var o := Overall([]);
      o.persistence == o.cognitiveDepth == o.contextAdaptability == o.resistanceToDrift
        == o.memoryPreservation == o.overall == 0.0
      && o.details.None?
  {
  }

  /** Persistence lies in 0-10: clamped from two turns on, and in range for in-range form scores. */
  lemma PersistenceInRange(scores: seq<DispositionScore>)
    requires |scores| > 1 || (|scores| > 0 && AllValid(scores))
    ensures 0.0 <= Persistence(scores) <= 10.0
  {
    if |scores| == 1 {
      AvgBounds(Forms(scores), 0, 3);
    }
  }

  /** Cognitive depth is at most 10 from two turns on, and in 0-10 for in-range scores. */
  lemma CognitiveDepthInRange(scores: seq<DispositionScore>)
    requires |scores| > 0
    ensures |scores| > 1 ==> CognitiveDepth(scores) <= 10.0
    ensures AllValid(scores) ==> 0.0 <= CognitiveDepth(scores) <= 10.0
  {
    if AllValid(scores) {
      AvgBounds(Intents(scores), 0, 3);
    }
  }

  /** Context adaptability lies in 0-10 for in-range totals. */
  lemma ContextAdaptabilityInRange(scores: seq<DispositionScore>, contextSizes: seq<int>)
    requires |scores| > 0 && |contextSizes| == |scores| && AllValid(scores)
    ensures 0.0 <= ContextAdaptability(scores, contextSizes) <= 10.0
  {
    AvgBounds(Totals(scores), 0, 10);
  }

  /** Resistance to drift is clamped to 0-10 whatever the scores. */
  lemma ResistanceInRange(scores: seq<DispositionScore>)
    ensures 0.0 <= ResistanceToDrift(scores) <= 10.0
  {
  }

  /** Memory preservation lies in 0-10: clamped from three turns on, and in range for in-range groundedness. */
  lemma MemoryPreservationInRange(scores: seq<DispositionScore>)
    requires |scores| > 2 || (|scores| > 0 && AllValid(scores))
    ensures 0.0 <= MemoryPreservation(scores) <= 10.0
  {
    if |scores| <= 2 {
      AvgBounds(Groundings(scores), 0, 2);
    }
  }

  /** For in-range scores the overall score, the mean of the five metrics, lies in 0-10 and between the smallest and largest metric. */
  lemma OverallInRange(turns: seq<TurnResult>)
    requires AllValid(Scores(turns))
    ensures var o := Overall(turns);
      && 0.0 <= o.overall <= 10.0
      && (turns != [] ==> o.overall * 5.0 == o.persistence + o.cognitiveDepth + o.contextAdaptability + o.resistanceToDrift + o.memoryPreservation)
  {
    if turns != [] {
      var s := Scores(turns);
      PersistenceInRange(s);
      CognitiveDepthInRange(s);
      ContextAdaptabilityInRange(s, ContextSizes(turns));
      ResistanceInRange(s);
      MemoryPreservationInRange(s);
    }
  }

  /** A constant series splits into constant halves. */
  lemma ConstParts(xs: seq<int>, c: int, k: int)
    requires 0 <= k <= |xs|
    requires forall i :: 0 <= i < |xs| ==> xs[i] == c
    ensures forall i :: 0 <= i < |xs[..k]| ==> xs[..k][i] == c
    ensures forall i :: 0 <= i < |xs[k..]| ==> xs[k..][i] == c
  {
  }

  /** A model whose form score never changes is not penalised: persistence is that score on 0-10. */
  lemma SteadyFormNotPenalised(scores: seq<DispositionScore>, f: int)
    requires |scores| > 0 && 0 <= f <= 3
    requires forall i :: 0 <= i < |scores| ==> scores[i].form == f
    ensures Persistence(scores) == f as real * (10.0 / 3.0)
  {
    var forms := Forms(scores);
    AvgConst(forms, f);
    if |forms| > 1 {
      var half := |forms| / 2;
      ConstParts(forms, f, half);
      AvgConst(forms[..half], f);
      AvgConst(forms[half..], f);
    }
  }

  /** A model whose groundedness never changes is not penalised: memory preservation is that score on 0-10. */
  lemma SteadyGroundingNotPenalised(scores: seq<DispositionScore>, g: int)
    requires |scores| > 0 && 0 <= g <= 2
    requires forall i :: 0 <= i < |scores| ==> scores[i].groundedness == g
    ensures MemoryPreservation(scores) == g as real * (10.0 / 2.0)
  {
    var gs := Groundings(scores);
    AvgConst(gs, g);
    if |gs| > 2 {
      var third := |gs| / 3;
      ConstParts(gs, g, third);
      ConstParts(gs, g, |gs| - third);
      AvgConst(gs[..third], g);
      AvgConst(gs[|gs| - third..], g);
    }
  }

  /** Constant totals over three or more turns are a stable trend; fewer turns are insufficient data. */
  lemma SteadyTotalsStable(scores: seq<DispositionScore>, t: int)
    requires forall i :: 0 <= i < |scores| ==> scores[i].total == t
    ensures |scores| < 3 <==> TrendOf(scores) == InsufficientData
    ensures |scores| >= 3 ==> TrendOf(scores) == Stable
  {
    if |scores| >= 3 {
      var totals := Totals(scores);
      var half := |totals| / 2;
      ConstParts(totals, t, half);
      AvgConst(totals[..half], t);
      AvgConst(totals[half..], t);
    }
  }

  /** The winner rule is symmetric, and a tie means the overall scores are within half a point. */
  lemma WinnerRule(a: real, b: real)
    ensures WinnerOf(a, b) == Tie <==> -0.5 <= a - b <= 0.5
    ensures WinnerOf(a, b) == ModelA <==> WinnerOf(b, a) == ModelB
    ensures WinnerOf(a, b) == Tie <==> WinnerOf(b, a) == Tie
  {
  }

  /** Resistance's count of flagged turns never exceeds the flags reported in the details. */
  lemma {:induction false} FlaggedTurnsWithinTotal(scores: seq<DispositionScore>)
    ensures FlaggedCount(scores) <= TotalFlags(scores)
  {
    if scores != [] {
      FlaggedTurnsWithinTotal(scores[..|scores| - 1]);
    }
  }
}
