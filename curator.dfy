/**
 * The curator Lambda: run metrics computed from a run's JUDGE# rows, the
 * RUN#<id>/SUMMARY row, and the read-modify-write weekly per-model aggregate.
 */
module Curator {
  import opened Wrappers
  import Seqs
  import Sorting

  /** A JUDGE# row as the curator reads it; `None` marks an absent attribute, for which `.get` supplies a default. */
  datatype JudgeRow = JudgeRow(turnIndex: int, overallScore: Option<real>, hasQuestion: Option<bool>, isOpenEnded: Option<bool>)

  /** A TURN# row as the curator reads it. */
  datatype TurnRow = TurnRow(turnIndex: int, inputTokens: Option<int>, outputTokens: Option<int>)

  /** The metrics `compute_metrics` returns (the scores before `round(..., 2)`). */
  datatype Metrics = Metrics(
    turnCount: nat,
    overallScore: real,
    complianceRate: real,
    halfLife: int,
    violationRate: real,
    openEndedRate: real,
    totalInputTokens: int,
    totalOutputTokens: int)

  /** The RUN#META attributes the curator needs. */
  datatype RunMeta = RunMeta(
    manifestId: string,
    modelId: string,
    scenarioId: string,
    dimension: Option<string>,
    vector: Option<string>,
    createdAt: string)

  datatype Summary = Summary(
    runId: string,
    manifestId: string,
    modelId: string,
    scenarioId: string,
    dimension: string,
    createdAt: string,
    curatedAt: string,
    metrics: Metrics)

  datatype CurateError = RunNotFound(runId: string) | NoTurnData(runId: string)

  const ComplianceThreshold: real := 0.5

  function Score(j: JudgeRow): real { j.overallScore.GetOr(0.0) }
  predicate IsCompliant(j: JudgeRow) { Score(j) >= ComplianceThreshold }
  predicate AsksQuestion(j: JudgeRow) { j.hasQuestion.GetOr(false) }
  predicate OpenEnded(j: JudgeRow) { j.isOpenEnded.GetOr(false) }
  function InputTokens(t: TurnRow): int { t.inputTokens.GetOr(0) }
  function OutputTokens(t: TurnRow): int { t.outputTokens.GetOr(0) }

  /** The turn index of the first judge, in list order, whose score is below the threshold. */
  function FirstNonCompliant(js: seq<JudgeRow>): Option<int> {
    if js == [] then None
    else
      var before := FirstNonCompliant(js[..|js| - 1]);
      if before.Some? || IsCompliant(js[|js| - 1]) then before else Some(js[|js| - 1].turnIndex)
  }

  /** The metrics of a run, as `compute_metrics` defines them. */
  function MetricsOf(turns: seq<TurnRow>, judges: seq<JudgeRow>): Metrics {
    var n := |judges|;
    Metrics(
      |turns|,
      Seqs.Mean(Seqs.SumReal(judges, Score), n),
      Seqs.Mean(Seqs.Count(judges, IsCompliant) as real, n),
      FirstNonCompliant(judges).GetOr(|turns|),
      if n == 0 then 0.0 else 1.0 - Seqs.Count(judges, AsksQuestion) as real / n as real,
      Seqs.Mean(Seqs.Count(judges, OpenEnded) as real, n),
      Seqs.SumInt(turns, InputTokens),
      Seqs.SumInt(turns, OutputTokens))
  }

  /** `compute_metrics`: one pass over the judges for the scores, the compliant count and the half-life. */
  method ComputeMetrics(turns: seq<TurnRow>, judges: seq<JudgeRow>) returns (m: Metrics)
    ensures m == MetricsOf(turns, judges)
  {
    var total := 0.0;
    var compliant := 0;
    var halfLife: Option<int> := None;
    var i := 0;
    while i < |judges|
      invariant 0 <= i <= |judges|
      invariant total == Seqs.SumReal(judges[..i], Score)
      invariant compliant == Seqs.Count(judges[..i], IsCompliant)
      invariant halfLife == FirstNonCompliant(judges[..i])
    {
      assert judges[..i + 1][..i] == judges[..i];
      var score := Score(judges[i]);
      total := total + score;
      if score >= ComplianceThreshold {
        compliant := compliant + 1;
      } else if halfLife.None? {
        halfLife := Some(judges[i].turnIndex);
      }
      i := i + 1;
    }
    assert judges[..i] == judges;
    var n := |judges|;
    var overall := if n > 0 then total / n as real else 0.0;
    var compliance := if n > 0 then compliant as real / n as real else 0.0;
    var questions := Seqs.Count(judges, AsksQuestion);
    var openEnded := Seqs.Count(judges, OpenEnded);
    var violation := if n > 0 then 1.0 - questions as real / n as real else 0.0;
    var openRate := if n > 0 then openEnded as real / n as real else 0.0;
    m := Metrics(|turns|, overall, compliance, if halfLife.Some? then halfLife.value else |turns|,
                 violation, openRate, Seqs.SumInt(turns, InputTokens), Seqs.SumInt(turns, OutputTokens));
  }

  /** Judge `k` is below the threshold and every judge before it is compliant. */
  predicate FirstFailureAt(js: seq<JudgeRow>, k: int) {
    0 <= k < |js| && !IsCompliant(js[k]) && forall i :: 0 <= i < k ==> IsCompliant(js[i])
  }

  /** The half-life is absent exactly when every judge is compliant, and otherwise is the turn of the first failing judge. */
  lemma {:induction false} FirstNonCompliantIsFirstFailure(js: seq<JudgeRow>)
    ensures FirstNonCompliant(js).None? <==> forall i :: 0 <= i < |js| ==> IsCompliant(js[i])
    ensures FirstNonCompliant(js).Some? ==>
      exists k :: FirstFailureAt(js, k) && FirstNonCompliant(js).value == js[k].turnIndex
  {
    if js != [] {
      var init := js[..|js| - 1];
      assert forall i :: 0 <= i < |init| ==> init[i] == js[i];
      FirstNonCompliantIsFirstFailure(init);
      if FirstNonCompliant(init).Some? {
        var k :| FirstFailureAt(init, k) && FirstNonCompliant(init).value == init[k].turnIndex;
        assert FirstFailureAt(js, k);
      } else if !IsCompliant(js[|js| - 1]) {
        assert FirstFailureAt(js, |js| - 1);
      }
    }
  }

  /** compliance_rate, violation_rate and open_ended_rate all lie in [0, 1]. */
  lemma RatesInUnit(turns: seq<TurnRow>, judges: seq<JudgeRow>)
    ensures 0.0 <= MetricsOf(turns, judges).complianceRate <= 1.0
    ensures 0.0 <= MetricsOf(turns, judges).violationRate <= 1.0
    ensures 0.0 <= MetricsOf(turns, judges).openEndedRate <= 1.0
  {
    var n := |judges|;
    Seqs.RateInUnit(Seqs.Count(judges, IsCompliant), n);
    Seqs.RateInUnit(Seqs.Count(judges, AsksQuestion), n);
    Seqs.RateInUnit(Seqs.Count(judges, OpenEnded), n);
  }

  /** compliance_rate is 1.0 exactly when every judge is compliant, and 0.0 exactly when none is. */
  lemma ComplianceExtremes(turns: seq<TurnRow>, judges: seq<JudgeRow>)
    requires judges != []
    ensures MetricsOf(turns, judges).complianceRate == 1.0 <==> forall i :: 0 <= i < |judges| ==> IsCompliant(judges[i])
    ensures MetricsOf(turns, judges).complianceRate == 0.0 <==> forall i :: 0 <= i < |judges| ==> !IsCompliant(judges[i])
  {
    var n := |judges|;
    var c := Seqs.Count(judges, IsCompliant);
    Seqs.CountAll(judges, IsCompliant);
    Seqs.CountNone(judges, IsCompliant);
    Seqs.RateInUnit(c, n);
  }

  /** With every score in [0, 1] (the scale the judge writes), overall_score lies in [0, 1]. */
  lemma OverallScoreInUnit(turns: seq<TurnRow>, judges: seq<JudgeRow>)
    requires forall i :: 0 <= i < |judges| ==> 0.0 <= Score(judges[i]) <= 1.0
    ensures 0.0 <= MetricsOf(turns, judges).overallScore <= 1.0
  {
    if judges != [] {
      Seqs.SumRealBounds(judges, Score, 0.0, 1.0);
      Seqs.MeanBounds(Seqs.SumReal(judges, Score), |judges|, 0.0, 1.0);
    }
  }

  predicate TurnLe(a: TurnRow, b: TurnRow) { a.turnIndex <= b.turnIndex }
  predicate JudgeLe(a: JudgeRow, b: JudgeRow) { a.turnIndex <= b.turnIndex }

  /** `sorted(items, key=lambda x: x["turn_index"])` for the two row kinds. */
  function SortTurns(ts: seq<TurnRow>): seq<TurnRow> { Sorting.SortBy(ts, TurnLe) }
  function SortJudges(js: seq<JudgeRow>): seq<JudgeRow> { Sorting.SortBy(js, JudgeLe) }

  /** `dimension or vector or "unknown"` as the summary stores it. */
  function DimensionOf(meta: RunMeta): string {
    if meta.dimension.Some? && meta.dimension.value != [] then meta.dimension.value
    else meta.vector.GetOr("unknown")
  }

  /**
   * `curate_run` without its writes: the run must exist and have at least one
   * turn and one judge; the metrics are taken over the rows sorted by turn index.
   */
  function Curate(runId: string, meta: Option<RunMeta>, turnItems: seq<TurnRow>, judgeItems: seq<JudgeRow>, curatedAt: string)
    : (r: Result<Summary, CurateError>)
    ensures r.Err? <==> meta.None? || turnItems == [] || judgeItems == []
    ensures meta.None? ==> r == Err(RunNotFound(runId))
    ensures r.Ok? ==> r.value.runId == runId && r.value.metrics.turnCount == |turnItems|
  {
    if meta.None? then Err(RunNotFound(runId))
    else if turnItems == [] || judgeItems == [] then Err(NoTurnData(runId))
    else
      var m := meta.value;
      var turns := SortTurns(turnItems);
      Ok(Summary(runId, m.manifestId, m.modelId, m.scenarioId, DimensionOf(m), m.createdAt, curatedAt,
                 MetricsOf(turns, SortJudges(judgeItems))))
  }

  /**
   * However the rows arrive, a curated run's half-life is the smallest turn
   * index among the judges below the threshold, and the run length when there is none.
   */
  lemma HalfLifeIsEarliestFailingTurn(runId: string, meta: Option<RunMeta>, turnItems: seq<TurnRow>, judgeItems: seq<JudgeRow>, curatedAt: string)
    requires Curate(runId, meta, turnItems, judgeItems, curatedAt).Ok?
    ensures var h := Curate(runId, meta, turnItems, judgeItems, curatedAt).value.metrics.halfLife;
      ((forall j :: j in judgeItems ==> IsCompliant(j)) ==> h == |turnItems|)
      && ((exists j :: j in judgeItems && !IsCompliant(j)) ==>
            (exists j :: j in judgeItems && !IsCompliant(j) && h == j.turnIndex)
            && forall j :: j in judgeItems && !IsCompliant(j) ==> h <= j.turnIndex)
  {
    var js := SortJudges(judgeItems);
    assert Sorting.Total(JudgeLe) && Sorting.Transitive(JudgeLe);
    Sorting.SortBySorted(judgeItems, JudgeLe);
    assert |SortTurns(turnItems)| == |turnItems|;
    EarliestFailingOfSorted(js, judgeItems, |turnItems|);
  }

  /** In judges sorted by turn, the first failing one has the smallest turn index of all failing ones. */
  lemma EarliestFailingOfSorted(js: seq<JudgeRow>, judgeItems: seq<JudgeRow>, n: nat)
    requires multiset(js) == multiset(judgeItems) && Sorting.SortedBy(js, JudgeLe)
    ensures var h := FirstNonCompliant(js).GetOr(n);
      ((forall j :: j in judgeItems ==> IsCompliant(j)) ==> h == n)
      && ((exists j :: j in judgeItems && !IsCompliant(j)) ==>
            (exists j :: j in judgeItems && !IsCompliant(j) && h == j.turnIndex)
            && forall j :: j in judgeItems && !IsCompliant(j) ==> h <= j.turnIndex)
  {
    FirstNonCompliantIsFirstFailure(js);
    var h := FirstNonCompliant(js).GetOr(n);
    if forall j :: j in judgeItems ==> IsCompliant(j) {
      forall i | 0 <= i < |js| ensures IsCompliant(js[i]) {
        assert js[i] in multiset(judgeItems);
      }
    }
    if exists j :: j in judgeItems && !IsCompliant(j) {
      var j :| j in judgeItems && !IsCompliant(j);
      assert j in multiset(js);
      var p :| 0 <= p < |js| && js[p] == j;
      assert FirstNonCompliant(js).Some?;
      var k :| FirstFailureAt(js, k) && FirstNonCompliant(js).value == js[k].turnIndex;
      assert js[k] in multiset(judgeItems);
      forall j' | j' in judgeItems && !IsCompliant(j') ensures h <= j'.turnIndex {
        assert j' in multiset(js);
        var q :| 0 <= q < |js| && js[q] == j';
        assert k <= q;
        if k < q { assert JudgeLe(js[k], js[q]); }
      }
    }
  }

  /** The row update_weekly_aggregate writes under WEEK#<week>#MODEL#<model>. */
  datatype WeeklyRow = WeeklyRow(
    week: string,
    modelId: string,
    runCount: nat,
    totalScore: real,
    meanScore: real,
    totalCompliance: real,
    meanCompliance: real)

  function WeekKey(isoWeek: string, modelId: string): string {
    "WEEK#" + isoWeek + "#MODEL#" + modelId
  }

  /** One read-modify-write: the row read (None if absent or unreadable) with one more run's scores added. */
  function Fold(existing: Option<WeeklyRow>, week: string, modelId: string, overall: real, compliance: real): WeeklyRow {
    var count := (if existing.Some? then existing.value.runCount else 0) + 1;
    var totalScore := (if existing.Some? then existing.value.totalScore else 0.0) + overall;
    var totalCompliance := (if existing.Some? then existing.value.totalCompliance else 0.0) + compliance;
    WeeklyRow(week, modelId, count, totalScore, totalScore / count as real, totalCompliance, totalCompliance / count as real)
  }

  /** The row after folding the (overall, compliance) pairs `ss`, in order, onto `start`. */
  function FoldAll(start: Option<WeeklyRow>, week: string, modelId: string, ss: seq<(real, real)>): Option<WeeklyRow> {
    if ss == [] then start
    else Some(Fold(FoldAll(start, week, modelId, ss[..|ss| - 1]), week, modelId, ss[|ss| - 1].0, ss[|ss| - 1].1))
  }

  function OverallOf(s: (real, real)): real { s.0 }
  function ComplianceOf(s: (real, real)): real { s.1 }

  /**
   * Starting from no row, folding n summaries gives run_count n, totals that
   * are the sums, and means that are the means of the folded summaries.
   */
  lemma {:induction false} FoldAllFromNothing(week: string, modelId: string, ss: seq<(real, real)>)
    requires ss != []
    ensures FoldAll(None, week, modelId, ss).Some?
    ensures var r := FoldAll(None, week, modelId, ss).value;
      r.runCount == |ss|
      && r.totalScore == Seqs.SumReal(ss, OverallOf) && r.meanScore == Seqs.Mean(r.totalScore, |ss|)
      && r.totalCompliance == Seqs.SumReal(ss, ComplianceOf) && r.meanCompliance == Seqs.Mean(r.totalCompliance, |ss|)
  {
    if |ss| > 1 {
      FoldAllFromNothing(week, modelId, ss[..|ss| - 1]);
    }
  }

  /** Nothing marks a summary as already folded: delivering the same summary twice counts it twice. */
  lemma FoldTwiceCountsTwice(existing: Option<WeeklyRow>, week: string, modelId: string, overall: real, compliance: real)
    ensures var once := Fold(existing, week, modelId, overall, compliance);
      var twice := Fold(Some(once), week, modelId, overall, compliance);
      twice.runCount == once.runCount + 1
      && twice.totalScore == once.totalScore + overall
      && twice.totalCompliance == once.totalCompliance + compliance
  {
  }

  /** The curator's rows: RUN#<id>/SUMMARY keyed by run id, and WEEK#…/SUMMARY keyed by partition key. */
  class CuratorTables {
    var summaries: map<string, Summary>
    var weekly: map<string, WeeklyRow>

    constructor ()
      ensures summaries == map[] && weekly == map[]
    {
      summaries := map[];
      weekly := map[];
    }

    /**
     * `update_weekly_aggregate`: `readOk` is false when `get_item` raised, in
     * which case the row is rebuilt as if it did not exist.
     */
    method UpdateWeeklyAggregate(isoWeek: string, modelId: string, overall: real, compliance: real, readOk: bool)
      modifies this
      ensures summaries == old(summaries)
      ensures var key := WeekKey(isoWeek, modelId);
        var existing := if readOk && key in old(weekly) then Some(old(weekly)[key]) else None;
        weekly == old(weekly)[key := Fold(existing, isoWeek, modelId, overall, compliance)]
    {
      var key := WeekKey(isoWeek, modelId);
      var existing: Option<WeeklyRow> := None;
      if readOk && key in weekly {
        existing := Some(weekly[key]);
      }
      weekly := weekly[key := Fold(existing, isoWeek, modelId, overall, compliance)];
    }

    /**
     * `curate_run`: on an error nothing is written; otherwise the summary row
     * is put and the weekly aggregate for the run's week and model is folded.
     */
    method CurateRun(runId: string, meta: Option<RunMeta>, turnItems: seq<TurnRow>, judgeItems: seq<JudgeRow>,
                     curatedAt: string, isoWeekOf: string -> string, readOk: bool)
      returns (r: Result<Summary, CurateError>)
      modifies this
      ensures r == Curate(runId, meta, turnItems, judgeItems, curatedAt)
      ensures r.Err? ==> summaries == old(summaries) && weekly == old(weekly)
      ensures r.Ok? ==> summaries == old(summaries)[runId := r.value]
      ensures r.Ok? ==>
        var key := WeekKey(isoWeekOf(r.value.createdAt), r.value.modelId);
        var existing := if readOk && key in old(weekly) then Some(old(weekly)[key]) else None;
        weekly == old(weekly)[key := Fold(existing, isoWeekOf(r.value.createdAt), r.value.modelId,
                                          r.value.metrics.overallScore, r.value.metrics.complianceRate)]
    {
      if meta.None? {
        return Err(RunNotFound(runId));
      }
      if turnItems == [] || judgeItems == [] {
        return Err(NoTurnData(runId));
      }
      var m := meta.value;
      var metrics := ComputeMetrics(SortTurns(turnItems), SortJudges(judgeItems));
      var summary := Summary(runId, m.manifestId, m.modelId, m.scenarioId, DimensionOf(m), m.createdAt, curatedAt, metrics);
      summaries := summaries[runId := summary];
      UpdateWeeklyAggregate(isoWeekOf(m.createdAt), m.modelId, metrics.overallScore, metrics.complianceRate, readOk);
      r := Ok(summary);
    }
  }
}
