/**
 * `GET /api/model-comparison` of the read API: every run SUMMARY item is
 * grouped by model, each counted run contributes the three metrics of its
 * first judge record (read from the raw-data bucket), and the per-model
 * averages are turned into conciseness, question rate, Socratic direction and
 * their mean, ranked best first.
 */
module ModelComparison {
  import opened Wrappers
  import opened Json
  import opened Http
  import Store
  import Text
  import Sorting
  import Seqs

  /** Python's `s.replace(t, u)`: every leftmost, non-overlapping occurrence of `t`. */
  function ReplaceAll(s: string, t: string, u: string): string
    requires t != []
    decreases |s|
  {
    if |s| < |t| then s
    else if s[..|t|] == t then u + ReplaceAll(s[|t|..], t, u)
    else [s[0]] + ReplaceAll(s[1..], t, u)
  }

  lemma {:induction false} ReplaceAbsent(s: string, t: string, u: string)
    requires t != [] && !Text.Contains(s, t)
    ensures ReplaceAll(s, t, u) == s
    decreases |s|
  {
    if |s| >= |t| {
      assert !Text.OccursAt(s, t, 0);
      if Text.Contains(s[1..], t) {
        var i :| 0 <= i <= |s[1..]| - |t| && Text.OccursAt(s[1..], t, i);
        assert s[i + 1..i + 1 + |t|] == s[1..][i..i + |t|];
        assert Text.OccursAt(s, t, i + 1);
      }
      ReplaceAbsent(s[1..], t, u);
    }
  }

  /** The handler gets a run's id back from its partition key, as long as the id does not itself contain "RUN#". */
  lemma RunIdFromPk(runId: string)
    requires !Text.Contains(runId, "RUN#")
    ensures ReplaceAll(Store.RunPk(runId), "RUN#", "") == runId
  {
    var pk := Store.RunPk(runId);
    assert pk[..4] == "RUN#" && pk[4..] == runId;
    ReplaceAbsent(runId, "RUN#", "");
  }

  /** What one judged run contributes: its token count (any JSON value), whether it ended on a question, and its Socratic-direction score. */
  datatype JudgeScores = JudgeScores(tokenCount: Json, endsWithQuestion: bool, socratic: real)

  /**
   * Reading `raw/runs/<run>/judge_000.json`: a missing object, a document or
   * "scores" that is not a dict, or a directionally_socratic that `float()`
   * refuses all end in the handler's `continue`, here `None`.
   */
  function LoadJudgeScores(blobs: map<string, Json>, runId: string, parseReal: string -> Option<real>): (r: Option<JudgeScores>)
    ensures r.Some? ==> Store.JudgeBlobKey(runId, 0) in blobs && blobs[Store.JudgeBlobKey(runId, 0)].JObj?
  {
    var key := Store.JudgeBlobKey(runId, 0);
    if key !in blobs || !blobs[key].JObj? then None
    else
      var scores := GetOr(blobs[key], "scores", JObj(map[]));
      if !scores.JObj? then None
      else
        var tokens := GetOr(scores, "token_count", JNum(0.0));
        var ends := Truthy(GetOr(scores, "ends_with_socratic_question", JBool(false)));
        match ToFloat(GetOr(scores, "directionally_socratic", JNum(0.0)), parseReal)
        case Err(_) => None
        case Ok(d) => Some(JudgeScores(tokens, ends, d))
  }

  /** How the first loop treats one SUMMARY item. */
  datatype Disposition = Fails(error: string) | Skipped | Counted(modelId: Json, runId: string)

  /**
   * A run is skipped when it has no model id, no run id, or an overall score
   * below 0.01 (a failed run); a PK that is not a string, an overall score
   * `float()` refuses, or a model id Python cannot hash fails the request.
   */
  function Classify(item: Store.Item, parseReal: string -> Option<real>): (d: Disposition)
    ensures d.Counted? ==> Truthy(d.modelId) && d.runId != [] && !d.modelId.JArr? && !d.modelId.JObj?
    ensures d.Counted? ==> "overall_score" !in item || ToFloat(item["overall_score"], parseReal).Ok?
  {
    var modelId := if "model_id" in item then item["model_id"] else JNull;
    var pk := if "PK" in item then item["PK"] else JStr("");
    if !pk.JStr? then Fails("AttributeError: no attribute 'replace'")
    else
      var runId := ReplaceAll(pk.s, "RUN#", "");
      match ToFloat(if "overall_score" in item then item["overall_score"] else JNum(0.0), parseReal)
      case Err(e) => Fails(e)
      case Ok(overall) =>
        if !Truthy(modelId) || runId == [] || overall < 0.01 then Skipped
        else if modelId.JArr? || modelId.JObj? then Fails("TypeError: unhashable type")
        else Counted(modelId, runId)
  }

  /** The per-model lists and counters of the handler; the list of overall scores it also keeps is never read, so it is left out. */
  datatype Stats = Stats(tokenCounts: seq<Json>, questions: nat, runs: nat, socraticTotal: real)

  datatype Entry = Entry(modelId: Json, stats: Stats)

  /** Where a model's entry sits, if it has one. */
  function IndexOfModel(entries: seq<Entry>, m: Json): (r: Option<nat>)
    ensures r.Some? ==> r.value < |entries| && entries[r.value].modelId == m
    ensures r.None? ==> forall i :: 0 <= i < |entries| ==> entries[i].modelId != m
  {
    if entries == [] then None
    else if entries[|entries| - 1].modelId == m then Some(|entries| - 1)
    else IndexOfModel(entries[..|entries| - 1], m)
  }

  function AddRun(s: Stats, j: JudgeScores): Stats {
    Stats(s.tokenCounts + [j.tokenCount], s.questions + (if j.endsWithQuestion then 1 else 0), s.runs + 1, s.socraticTotal + j.socratic)
  }

  /** One pass of the first loop: a counted run's model gets an entry (in first-seen order) and, when its judge record loads, the run's metrics. */
  function Step(entries: seq<Entry>, item: Store.Item, blobs: map<string, Json>, parseReal: string -> Option<real>): Result<seq<Entry>, string> {
    match Classify(item, parseReal)
    case Fails(e) => Err(e)
    case Skipped => Ok(entries)
    case Counted(m, runId) =>
      var found := IndexOfModel(entries, m);
      var es := if found.Some? then entries else entries + [Entry(m, Stats([], 0, 0, 0.0))];
      var k := if found.Some? then found.value else |entries|;
      match LoadJudgeScores(blobs, runId, parseReal)
      case None => Ok(es)
      case Some(j) => Ok(es[k := Entry(m, AddRun(es[k].stats, j))])
  }

  function StepOver(blobs: map<string, Json>, parseReal: string -> Option<real>): (seq<Entry>, Store.Item) -> Result<seq<Entry>, string> {
    (entries, item) => Step(entries, item, blobs, parseReal)
  }

  /** The first loop over the scanned SUMMARY items. */
  function Aggregate(items: seq<Store.Item>, blobs: map<string, Json>, parseReal: string -> Option<real>): Result<seq<Entry>, string> {
    Seqs.FoldResult(items, [], StepOver(blobs, parseReal))
  }

  /** Every entry has one token count per counted run and no more questions than runs, and no model has two entries. */
  predicate WellFormed(entries: seq<Entry>) {
    (forall i :: 0 <= i < |entries| ==>
      |entries[i].stats.tokenCounts| == entries[i].stats.runs && entries[i].stats.questions <= entries[i].stats.runs)
    && (forall i, j :: 0 <= i < j < |entries| ==> entries[i].modelId != entries[j].modelId)
  }

  lemma StepWellFormed(entries: seq<Entry>, item: Store.Item, blobs: map<string, Json>, parseReal: string -> Option<real>)
    requires WellFormed(entries)
    requires Step(entries, item, blobs, parseReal).Ok?
    ensures WellFormed(Step(entries, item, blobs, parseReal).value)
  {
    var d := Classify(item, parseReal);
    if d.Counted? {
      var found := IndexOfModel(entries, d.modelId);
      var es := if found.Some? then entries else entries + [Entry(d.modelId, Stats([], 0, 0, 0.0))];
      assert WellFormed(es);
    }
  }

  /** The first loop keeps its lists in step with its counters and gives every model one entry. */
  lemma {:induction false} AggregateWellFormed(items: seq<Store.Item>, blobs: map<string, Json>, parseReal: string -> Option<real>)
    requires Aggregate(items, blobs, parseReal).Ok?
    ensures WellFormed(Aggregate(items, blobs, parseReal).value)
  {
    if items != [] {
      var front := items[..|items| - 1];
      AggregateWellFormed(front, blobs, parseReal);
      StepWellFormed(Aggregate(front, blobs, parseReal).value, items[|items| - 1], blobs, parseReal);
    }
  }

  function TotalRuns(entries: seq<Entry>): nat {
    if entries == [] then 0 else TotalRuns(entries[..|entries| - 1]) + entries[|entries| - 1].stats.runs
  }

  lemma {:induction false} TotalRunsUpdate(entries: seq<Entry>, k: nat, e: Entry)
    requires k < |entries|
    ensures TotalRuns(entries[k := e]) + entries[k].stats.runs == TotalRuns(entries) + e.stats.runs
  {
    var n := |entries| - 1;
    var front := entries[..n];
    assert entries[k := e][..n] == if k < n then front[k := e] else front;
    if k < n {
      TotalRunsUpdate(front, k, e);
    }
  }

  /** A run counts toward its model exactly when it is not skipped and its judge record loads. */
  predicate Judged(item: Store.Item, blobs: map<string, Json>, parseReal: string -> Option<real>) {
    var d := Classify(item, parseReal);
    d.Counted? && LoadJudgeScores(blobs, d.runId, parseReal).Some?
  }

  function JudgedIn(blobs: map<string, Json>, parseReal: string -> Option<real>): Store.Item -> bool {
    item => Judged(item, blobs, parseReal)
  }

  lemma StepRuns(entries: seq<Entry>, item: Store.Item, blobs: map<string, Json>, parseReal: string -> Option<real>)
    requires Step(entries, item, blobs, parseReal).Ok?
    ensures TotalRuns(Step(entries, item, blobs, parseReal).value) == TotalRuns(entries) + if Judged(item, blobs, parseReal) then 1 else 0
  {
    var d := Classify(item, parseReal);
    if d.Counted? {
      var found := IndexOfModel(entries, d.modelId);
      var es := if found.Some? then entries else entries + [Entry(d.modelId, Stats([], 0, 0, 0.0))];
      var k := if found.Some? then found.value else |entries|;
      assert TotalRuns(es) == TotalRuns(entries) by {
        if found.None? { assert es[..|es| - 1] == entries; }
      }
      var j := LoadJudgeScores(blobs, d.runId, parseReal);
      if j.Some? {
        TotalRunsUpdate(es, k, Entry(d.modelId, AddRun(es[k].stats, j.value)));
      }
    }
  }

  /** The runs the models end up with are exactly the judged runs among the items: every skipped or unreadable run is left out, none is counted twice. */
  lemma {:induction false} AggregateCountsJudgedRuns(items: seq<Store.Item>, blobs: map<string, Json>, parseReal: string -> Option<real>)
    requires Aggregate(items, blobs, parseReal).Ok?
    ensures TotalRuns(Aggregate(items, blobs, parseReal).value) == Seqs.Count(items, JudgedIn(blobs, parseReal))
  {
    if items != [] {
      var front := items[..|items| - 1];
      AggregateCountsJudgedRuns(front, blobs, parseReal);
      StepRuns(Aggregate(front, blobs, parseReal).value, items[|items| - 1], blobs, parseReal);
    }
  }

  /** Failed runs (overall below 0.01) and runs without a model or run id leave the aggregate as it was, wherever they come. */
  lemma {:induction false} SkippedRunsIgnored(items: seq<Store.Item>, skipped: seq<Store.Item>, blobs: map<string, Json>, parseReal: string -> Option<real>)
    requires forall i :: 0 <= i < |skipped| ==> Classify(skipped[i], parseReal).Skipped?
    ensures Aggregate(items + skipped, blobs, parseReal) == Aggregate(items, blobs, parseReal)
  {
    if skipped == [] {
      assert items + skipped == items;
    } else {
      var front := skipped[..|skipped| - 1];
      assert (items + skipped)[..|items + skipped| - 1] == items + front;
      SkippedRunsIgnored(items, front, blobs, parseReal);
    }
  }

  /** A model's row as the second loop builds it. */
  datatype ModelRow = ModelRow(modelId: Json, overall: real, conciseness: real, endsWithQuestion: real, directionallySocratic: real, runCount: nat)

  /** Conciseness on a 0-10 scale from the mean token count: 5 when too terse, 10 in the ideal band, then 1 point off per 20 tokens. */
  function Conciseness(avgTokens: real): (c: real)
    ensures 0.0 <= c <= 10.0
  {
    if avgTokens < 40.0 then 5.0
    else if avgTokens <= 100.0 then 10.0
    else
      var penalised := 10.0 - (avgTokens - 100.0) / 20.0;
      if penalised < 0.0 then 0.0 else penalised
  }

  /** Full marks exactly in the ideal band of 40 to 100 tokens. */
  lemma ConcisenessIdealBand(avgTokens: real)
    ensures Conciseness(avgTokens) == 10.0 <==> 40.0 <= avgTokens <= 100.0
  {
  }

  /** From 40 tokens on, more tokens never score higher. */
  lemma ConcisenessNonIncreasing(a: real, b: real)
    requires 40.0 <= a <= b
    ensures Conciseness(b) <= Conciseness(a)
  {
  }

  /** Zero exactly from 300 tokens on. */
  lemma ConcisenessZero(avgTokens: real)
    ensures Conciseness(avgTokens) == 0.0 <==> avgTokens >= 300.0
  {
  }

  /** Python's `sum(xs)`: numbers and booleans add, anything else is a TypeError. */
  function PySum(xs: seq<Json>): Result<real, string> {
    if xs == [] then Ok(0.0)
    else
      match PySum(xs[..|xs| - 1])
      case Err(e) => Err(e)
      case Ok(total) =>
        match xs[|xs| - 1]
        case JNum(n) => Ok(total + n)
        case JBool(b) => Ok(total + if b then 1.0 else 0.0)
        case _ => Err("TypeError: unsupported operand type(s) for +")
  }

  /** The metrics of a model with at least one judged run; `round(..., 2)` is left out. */
  function RowOf(e: Entry): Result<ModelRow, string> {
    match PySum(e.stats.tokenCounts)
    case Err(err) => Err(err)
    case Ok(total) =>
      var c := Conciseness(Seqs.Mean(total, |e.stats.tokenCounts|));
      var q := Seqs.Mean(e.stats.questions as real, e.stats.runs) * 10.0;
      var d := Seqs.Mean(e.stats.socraticTotal, e.stats.runs) * 10.0;
      Ok(ModelRow(e.modelId, (c + q + d) / 3.0, c, q, d, e.stats.runs))
  }

  /** One pass of the second loop: models without a judged run are left out. */
  function RowStep(rows: seq<ModelRow>, e: Entry): Result<seq<ModelRow>, string> {
    if e.stats.runs == 0 then Ok(rows)
    else
      match RowOf(e)
      case Err(err) => Err(err)
      case Ok(row) => Ok(rows + [row])
  }

  function Rows(entries: seq<Entry>): Result<seq<ModelRow>, string> {
    Seqs.FoldResult(entries, [], RowStep)
  }

  predicate RowInRange(r: ModelRow) {
    r.runCount >= 1 && 0.0 <= r.conciseness <= 10.0 && 0.0 <= r.endsWithQuestion <= 10.0
  }

  /** Every reported model has at least one run, and its conciseness and question rate lie on the 0-10 scale. */
  lemma {:induction false} RowsInRange(entries: seq<Entry>)
    requires WellFormed(entries)
    requires Rows(entries).Ok?
    ensures forall i :: 0 <= i < |Rows(entries).value| ==> RowInRange(Rows(entries).value[i])
  {
    if entries != [] {
      var front := entries[..|entries| - 1];
      var e := entries[|entries| - 1];
      assert WellFormed(front);
      RowsInRange(front);
      if e.stats.runs > 0 {
        Seqs.RateInUnit(e.stats.questions, e.stats.runs);
      }
    }
  }

  /** The second loop reports a model only for an entry with a run, so there are no more rows than runs. */
  lemma {:induction false} RowsAtMostRuns(entries: seq<Entry>)
    requires Rows(entries).Ok?
    ensures |Rows(entries).value| <= TotalRuns(entries)
  {
    if entries != [] {
      var front := entries[..|entries| - 1];
      var e := entries[|entries| - 1];
      assert Rows(front).Ok?;
      RowsAtMostRuns(front);
      assert Rows(entries) == RowStep(Rows(front).value, e);
    }
  }

  /** `key=lambda x: x["overall"], reverse=True`. */
  predicate RankLe(a: ModelRow, b: ModelRow) {
    a.overall >= b.overall
  }

  function Ranked(rows: seq<ModelRow>): seq<ModelRow> {
    Sorting.SortBy(rows, RankLe)
  }

  /** The ranking holds the same rows, best overall first, and its head (the winner) scores at least as well as every model. */
  lemma RankedOrder(rows: seq<ModelRow>)
    ensures multiset(Ranked(rows)) == multiset(rows)
    ensures Sorting.SortedBy(Ranked(rows), RankLe)
    ensures Ranked(rows) != [] ==> forall i :: 0 <= i < |rows| ==> rows[i].overall <= Ranked(rows)[0].overall
  {
    assert Sorting.Total(RankLe) && Sorting.Transitive(RankLe);
    Sorting.SortBySorted(rows, RankLe);
    var r := Ranked(rows);
    forall i | 0 <= i < |rows| && r != [] ensures rows[i].overall <= r[0].overall {
      assert rows[i] in multiset(r);
      var k :| 0 <= k < |r| && r[k] == rows[i];
      if k > 0 { assert RankLe(r[0], r[k]); }
    }
  }

  /** The ranked rows, or the error that makes the handler answer 500. */
  function Comparison(items: seq<Store.Item>, blobs: map<string, Json>, parseReal: string -> Option<real>): Result<seq<ModelRow>, string> {
    match Aggregate(items, blobs, parseReal)
    case Err(e) => Err(e)
    case Ok(entries) =>
      match Rows(entries)
      case Err(e) => Err(e)
      case Ok(rows) => Ok(Ranked(rows))
  }

  /** What the handler promises of a successful comparison: ranked best first, every model in range, and no more models than judged runs. */
  lemma ComparisonMeaning(items: seq<Store.Item>, blobs: map<string, Json>, parseReal: string -> Option<real>)
    requires Comparison(items, blobs, parseReal).Ok?
    ensures Sorting.SortedBy(Comparison(items, blobs, parseReal).value, RankLe)
    ensures forall r :: r in Comparison(items, blobs, parseReal).value ==> RowInRange(r)
    ensures |Comparison(items, blobs, parseReal).value| <= Seqs.Count(items, JudgedIn(blobs, parseReal))
  {
    var entries := Aggregate(items, blobs, parseReal).value;
    var rows := Rows(entries).value;
    AggregateWellFormed(items, blobs, parseReal);
    RowsInRange(entries);
    RankedOrder(rows);
    RowsAtMostRuns(entries);
    AggregateCountsJudgedRuns(items, blobs, parseReal);
    forall r | r in Ranked(rows) ensures RowInRange(r) {
      assert r in multiset(rows);
    }
  }

  function RowJson(r: ModelRow): Json {
    JObj(map[
      "model_id" := r.modelId,
      "overall" := JNum(r.overall),
      "conciseness" := JNum(r.conciseness),
      "ends_with_question" := JNum(r.endsWithQuestion),
      "directionally_socratic" := JNum(r.directionallySocratic),
      "run_count" := JNum(r.runCount as real)])
  }

  /** The response: the ranked models and the winner (the first of them, or null). */
  function ComparisonResponse(items: seq<Store.Item>, blobs: map<string, Json>, parseReal: string -> Option<real>): Response {
    match Comparison(items, blobs, parseReal)
    case Err(e) => ErrorResponse(500, "Failed to load model comparison: " + e)
    case Ok(ranked) =>
      SuccessResponse(JObj(map[
        "models" := JArr(seq(|ranked|, i requires 0 <= i < |ranked| => RowJson(ranked[i]))),
        "winner" := if ranked == [] then JNull else RowJson(ranked[0])]))
  }

  /** The comparison either succeeds or fails as a whole with 500. */
  lemma ComparisonStatus(items: seq<Store.Item>, blobs: map<string, Json>, parseReal: string -> Option<real>)
    ensures ComparisonResponse(items, blobs, parseReal).statusCode == 200 <==> Comparison(items, blobs, parseReal).Ok?
    ensures ComparisonResponse(items, blobs, parseReal).statusCode in {200, 500}
  {
  }

  /** `get_model_comparison`: the two loops of the handler, then the ranking. */
  method GetModelComparison(items: seq<Store.Item>, blobs: map<string, Json>, parseReal: string -> Option<real>) returns (resp: Response)
    ensures resp == ComparisonResponse(items, blobs, parseReal)
  {
    var entries: seq<Entry> := [];
    var i := 0;
    while i < |items|
      invariant 0 <= i <= |items|
      invariant Aggregate(items[..i], blobs, parseReal) == Ok(entries)
    {
      assert items[..i + 1][..i] == items[..i];
      var next := Step(entries, items[i], blobs, parseReal);
      if next.Err? {
        Seqs.FoldResultErrStays(items, i + 1, [], StepOver(blobs, parseReal));
        return ErrorResponse(500, "Failed to load model comparison: " + next.error);
      }
      entries := next.value;
      i := i + 1;
    }
    assert items[..i] == items;
    var rows: seq<ModelRow> := [];
    var j := 0;
    while j < |entries|
      invariant 0 <= j <= |entries|
      invariant Rows(entries[..j]) == Ok(rows)
    {
      assert entries[..j + 1][..j] == entries[..j];
      var e := entries[j];
      if e.stats.runs != 0 {
        var row := RowOf(e);
        if row.Err? {
          Seqs.FoldResultErrStays(entries, j + 1, [], RowStep);
          return ErrorResponse(500, "Failed to load model comparison: " + row.error);
        }
        rows := rows + [row.value];
      }
      j := j + 1;
    }
    assert entries[..j] == entries;
    var ranked := Ranked(rows);
    resp := SuccessResponse(JObj(map[
      "models" := JArr(seq(|ranked|, k requires 0 <= k < |ranked| => RowJson(ranked[k]))),
      "winner" := if ranked == [] then JNull else RowJson(ranked[0])]));
  }
}
