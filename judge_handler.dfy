/**
 * The Judge Lambda: for each queued (run, turn) it loads the turn bundle,
 * scores the tutor's reply, writes the judgement to the bucket and the table,
 * and announces `run.judged` once every turn of the run has a judgement.
 */
module JudgeHandler {
  import opened Wrappers
  import opened Json
  import Text
  import JudgeLib
  import opened Store
  import Seqs

  /** What `judge_turn_job` returns. */
  datatype JobSummary = JobSummary(runId: string, turnIndex: nat, overallScore: real, heuristics: JudgeLib.Heuristics)

  /** The heuristics dict as stored. */
  function HeuristicsJson(h: JudgeLib.Heuristics): Json {
    JObj(map[
      "has_question" := JBool(h.hasQuestion),
      "question_count" := JNum(h.questionCount as real),
      "word_count" := JNum(h.wordCount as real),
      "is_open_ended" := JBool(h.isOpenEnded)])
  }

  function ErrorJson(e: Option<string>): Json {
    match e
    case None => JNull
    case Some(s) => JStr(s)
  }

  /**
   * The turn's reply and the scores computed from it: the reply is the
   * bundle's "ai" string (a missing or non-string value raises), and
   * `vectorScores` is `compute_vector_scores` on the reply and the bundle's
   * "output_tokens", whose result is then stamped with the turn index.
   */
  function Evaluate(bundle: Json, job: JudgeJob, vectorScores: (string, Json) -> JudgeLib.JudgeResult)
    : (r: Result<(JudgeLib.Heuristics, JudgeLib.JudgeResult), string>)
    ensures r.Ok? <==> bundle.JObj? && "ai" in bundle.fields && bundle.fields["ai"].JStr?
    ensures r.Ok? ==> r.value.0 == JudgeLib.ComputeHeuristicScores(bundle.fields["ai"].s)
    ensures r.Ok? ==> r.value.1.turnIndex == job.turnIndex
  {
    var aiField :- Field(bundle, "ai");
    var ai :- AsString(aiField);
    var result := vectorScores(ai, GetOr(bundle, "output_tokens", JNull));
    Ok((JudgeLib.ComputeHeuristicScores(ai), result.(turnIndex := job.turnIndex)))
  }

  /**
   * The overall score written to the table: the scores (empty when falsy)
   * must be a dict; a dict-valued "overall" is the old 0-100 judge format
   * and its "score" is divided by 100, any other value is taken as already
   * on the 0-1 scale; a missing "overall" is 0.
   */
  function StoredOverall(scores: Json, parseReal: string -> Option<real>): (r: Result<real, string>)
    ensures !Truthy(scores) ==> r == Ok(0.0)
    ensures Truthy(scores) && !scores.JObj? ==> r.Err?
    ensures scores.JObj? && "overall" !in scores.fields ==> r == Ok(0.0)
  {
    var s := if Truthy(scores) then scores else JObj(map[]);
    var overall :- DictGet(s, "overall", JNum(0.0));
    if overall.JObj? then
      var x :- ToFloat(GetOr(overall, "score", JNum(0.0)), parseReal);
      Ok(x / 100.0)
    else ToFloat(overall, parseReal)
  }

  /**
   * The score the table stores and the score the judgement reports
   * (`JudgeResult.overall_score`, which the handler returns) agree on a flat
   * "overall" and differ by a factor of 100 on the dict format.
   */
  lemma StoredOverallScale(r: JudgeLib.JudgeResult, parseReal: string -> Option<real>)
    requires !JudgeLib.HasError(r) && r.scores.JObj? && "overall" in r.scores.fields
    ensures JudgeLib.OverallScore(r, parseReal).Ok? <==> StoredOverall(r.scores, parseReal).Ok?
    ensures r.scores.fields["overall"].JObj? && JudgeLib.OverallScore(r, parseReal).Ok? ==>
      StoredOverall(r.scores, parseReal).value == JudgeLib.OverallScore(r, parseReal).value / 100.0
    ensures !r.scores.fields["overall"].JObj? && JudgeLib.OverallScore(r, parseReal).Ok? ==>
      StoredOverall(r.scores, parseReal).value == JudgeLib.OverallScore(r, parseReal).value
  {
    assert Truthy(r.scores);
  }

  /** The full judgement written to the bucket. */
  function JudgeJson(job: JudgeJob, h: JudgeLib.Heuristics, jr: JudgeLib.JudgeResult, judgedAt: string): Json {
    JObj(map[
      "run_id" := JStr(job.runId),
      "turn_index" := JNum(job.turnIndex as real),
      "scores" := jr.scores,
      "heuristics" := HeuristicsJson(h),
      "judge_model" := JStr(jr.judgeModelId),
      "latency_ms" := JNum(jr.latencyMs),
      "error" := ErrorJson(jr.error),
      "judged_at" := JStr(judgedAt)])
  }

  /** The compact judgement row stored under RUN#<run>/JUDGE#<turn>. */
  function JudgeItem(job: JudgeJob, h: JudgeLib.Heuristics, jr: JudgeLib.JudgeResult, overall: real, judgedAt: string): Item {
    map[
      "run_id" := JStr(job.runId),
      "turn_index" := JNum(job.turnIndex as real),
      "s3_key" := JStr(JudgeBlobKey(job.runId, job.turnIndex)),
      "overall_score" := JNum(overall),
      "has_question" := JBool(h.hasQuestion),
      "is_open_ended" := JBool(h.isOpenEnded),
      "judge_model" := JStr(jr.judgeModelId),
      "error" := ErrorJson(jr.error),
      "judged_at" := JStr(judgedAt)]
  }

  /** `check_all_turns_judged`: the run has TURN rows and as many JUDGE rows. */
  predicate AllTurnsJudged(items: map<Key, Item>, runId: string) {
    var turns := |KeysUnder(items, RunPk(runId), "TURN#")|;
    turns > 0 && turns == |KeysUnder(items, RunPk(runId), "JUDGE#")|
  }

  function RunJudged(runId: string, judgedAt: string): Event {
    Event("socratic.judge", "run.judged", JObj(map["run_id" := JStr(runId), "judged_at" := JStr(judgedAt)]))
  }

  /**
   * When every JUDGE row of a run belongs to one of its turns, the count
   * comparison means exactly that the run has turns and each has been judged.
   */
  lemma AllTurnsJudgedMeansEveryTurn(items: map<Key, Item>, runId: string, turns: set<nat>, judged: set<nat>)
    requires KeysUnder(items, RunPk(runId), "TURN#") == RowKeys(runId, turns, false)
    requires KeysUnder(items, RunPk(runId), "JUDGE#") == RowKeys(runId, judged, true)
    requires judged <= turns
    ensures AllTurnsJudged(items, runId) <==> turns != {} && judged == turns
  {
    RowKeysCount(runId, turns, false);
    RowKeysCount(runId, judged, true);
    assert turns == judged + (turns - judged);
    assert |turns| == |judged| + |turns - judged|;
  }

  /** Writing a JUDGE row never changes which TURN rows a run has. */
  lemma JudgeWriteKeepsTurns(items: map<Key, Item>, runId: string, i: nat, item: Item)
    ensures KeysUnder(items[Key(RunPk(runId), JudgeSk(i)) := item], RunPk(runId), "TURN#")
         == KeysUnder(items, RunPk(runId), "TURN#")
  {
    SortKeysDistinct(i, i);
  }

  /** Judging a turn again overwrites its JUDGE row: the count the completion check uses does not grow. */
  lemma RejudgeKeepsJudgeCount(items: map<Key, Item>, runId: string, i: nat, item: Item)
    requires Key(RunPk(runId), JudgeSk(i)) in items
    ensures KeysUnder(items[Key(RunPk(runId), JudgeSk(i)) := item], RunPk(runId), "JUDGE#")
         == KeysUnder(items, RunPk(runId), "JUDGE#")
  {
    SortKeysDistinct(i, i);
  }

  /** What one judge job leaves behind: the table, the bucket, the events it emitted, and its outcome. */
  datatype JobEffect = JobEffect(items: map<Key, Item>, blobs: map<string, Json>, emitted: seq<Event>, result: Result<JobSummary, string>)

  /**
   * `judge_turn_job` on the table `items` and the bucket `blobs`. A missing
   * turn bundle or a bundle without a string "ai" raises before anything is
   * written; a stored overall score that does not convert raises after the
   * judgement reached the bucket but before the row; otherwise the row is
   * put, `run.judged` is emitted when the completion check then holds, and
   * the reported score may still fail to convert. `parseReal` is Python's
   * `float` on strings and `now` the timestamp used for `judged_at`.
   */
  function JudgeJobSpec(items: map<Key, Item>, blobs: map<string, Json>, job: JudgeJob,
                        vectorScores: (string, Json) -> JudgeLib.JudgeResult,
                        parseReal: string -> Option<real>, now: string): (e: JobEffect)
    ensures e.result.Ok? ==> e.result.value.runId == job.runId && e.result.value.turnIndex == job.turnIndex
  {
    var bundleKey := TurnBlobKey(job.runId, job.turnIndex);
    if bundleKey !in blobs then JobEffect(items, blobs, [], Err("NoSuchKey: " + bundleKey))
    else match Evaluate(blobs[bundleKey], job, vectorScores)
    case Err(e) => JobEffect(items, blobs, [], Err(e))
    case Ok((h, jr)) => Judged(items, blobs, job, h, jr, parseReal, now)
  }

  /** The rest of a judge job once the reply has been read and scored (`h`, `jr`). */
  function Judged(items: map<Key, Item>, blobs: map<string, Json>, job: JudgeJob,
                  h: JudgeLib.Heuristics, jr: JudgeLib.JudgeResult,
                  parseReal: string -> Option<real>, now: string): (e: JobEffect)
    ensures e.result.Ok? ==> e.result.value.runId == job.runId && e.result.value.turnIndex == job.turnIndex
  {
    var blobs' := blobs[JudgeBlobKey(job.runId, job.turnIndex) := JudgeJson(job, h, jr, now)];
    match StoredOverall(jr.scores, parseReal)
    case Err(e) => JobEffect(items, blobs', [], Err(e))
    case Ok(overall) =>
      var items' := items[Key(RunPk(job.runId), JudgeSk(job.turnIndex)) := JudgeItem(job, h, jr, overall, now)];
      var emitted := if AllTurnsJudged(items', job.runId) then [RunJudged(job.runId, now)] else [];
      match JudgeLib.OverallScore(jr, parseReal)
      case Err(e) => JobEffect(items', blobs', emitted, Err(e))
      case Ok(score) => JobEffect(items', blobs', emitted, Ok(JobSummary(job.runId, job.turnIndex, score, h)))
  }

  /** A bundle that is missing or has no string reply: the job fails and writes nothing. */
  lemma JudgeJobBadBundle(items: map<Key, Item>, blobs: map<string, Json>, job: JudgeJob,
                          vectorScores: (string, Json) -> JudgeLib.JudgeResult,
                          parseReal: string -> Option<real>, now: string)
    requires var bundleKey := TurnBlobKey(job.runId, job.turnIndex);
      bundleKey !in blobs || Evaluate(blobs[bundleKey], job, vectorScores).Err?
    ensures var e := JudgeJobSpec(items, blobs, job, vectorScores, parseReal, now);
      e.result.Err? && e.items == items && e.blobs == blobs && e.emitted == []
  {
  }

  /** A readable bundle: what happens next is `Judged` on the reply's heuristics and scores. */
  lemma JudgeJobReadsBundle(items: map<Key, Item>, blobs: map<string, Json>, job: JudgeJob,
                            vectorScores: (string, Json) -> JudgeLib.JudgeResult,
                            parseReal: string -> Option<real>, now: string)
    requires var bundleKey := TurnBlobKey(job.runId, job.turnIndex);
      bundleKey in blobs && Evaluate(blobs[bundleKey], job, vectorScores).Ok?
    ensures var (h, jr) := Evaluate(blobs[TurnBlobKey(job.runId, job.turnIndex)], job, vectorScores).value;
      JudgeJobSpec(items, blobs, job, vectorScores, parseReal, now) == Judged(items, blobs, job, h, jr, parseReal, now)
  {
  }

  /**
   * After scoring, the judgement goes to the bucket under the turn's judge
   * key; the JUDGE row carrying the stored score is put exactly when that
   * score converts, and the table is otherwise unchanged; the summary
   * reports the judgement's own overall score.
   */
  lemma JudgedWrites(items: map<Key, Item>, blobs: map<string, Json>, job: JudgeJob,
                     h: JudgeLib.Heuristics, jr: JudgeLib.JudgeResult,
                     parseReal: string -> Option<real>, now: string)
    ensures var e := Judged(items, blobs, job, h, jr, parseReal, now);
      var overall := StoredOverall(jr.scores, parseReal);
      e.blobs == blobs[JudgeBlobKey(job.runId, job.turnIndex) := JudgeJson(job, h, jr, now)]
      && (overall.Err? ==> e.result.Err? && e.items == items && e.emitted == [])
      && (overall.Ok? ==> e.items == items[Key(RunPk(job.runId), JudgeSk(job.turnIndex)) := JudgeItem(job, h, jr, overall.value, now)])
      && (e.result.Ok? <==> overall.Ok? && JudgeLib.OverallScore(jr, parseReal).Ok?)
      && (e.result.Ok? ==> e.result.value.heuristics == h && e.result.value.overallScore == JudgeLib.OverallScore(jr, parseReal).value)
  {
  }

  /** `run.judged` goes out at most once per job, and exactly when the job put its row and that row completes the run. */
  lemma JudgedEmits(items: map<Key, Item>, blobs: map<string, Json>, job: JudgeJob,
                    h: JudgeLib.Heuristics, jr: JudgeLib.JudgeResult,
                    parseReal: string -> Option<real>, now: string)
    ensures var e := Judged(items, blobs, job, h, jr, parseReal, now);
      (e.emitted == [] || e.emitted == [RunJudged(job.runId, now)])
      && (e.emitted != [] <==> StoredOverall(jr.scores, parseReal).Ok? && AllTurnsJudged(e.items, job.runId))
  {
  }

  /**
   * `judge_turn_job` on the backend: the table, the bucket and the event
   * bus end as `JudgeJobSpec` says; the queue is untouched.
   */
  method JudgeTurnJob(b: Backend, job: JudgeJob, vectorScores: (string, Json) -> JudgeLib.JudgeResult,
                      parseReal: string -> Option<real>, now: string)
    returns (r: Result<JobSummary, string>)
    modifies b
    ensures var e := JudgeJobSpec(old(b.items), old(b.blobs), job, vectorScores, parseReal, now);
      b.items == e.items && b.blobs == e.blobs && b.events == old(b.events) + e.emitted && r == e.result
    ensures r.Ok? ==> r.value.runId == job.runId && r.value.turnIndex == job.turnIndex
    ensures b.judgeQueue == old(b.judgeQueue)
  {
    var bundleKey := TurnBlobKey(job.runId, job.turnIndex);
    if bundleKey !in b.blobs {
      return Err("NoSuchKey: " + bundleKey);
    }
    var evaluated := Evaluate(b.blobs[bundleKey], job, vectorScores);
    if evaluated.Err? {
      return Err(evaluated.error);
    }
    var (h, jr) := evaluated.value;
    b.PutBlob(JudgeBlobKey(job.runId, job.turnIndex), JudgeJson(job, h, jr, now));
    var overall := StoredOverall(jr.scores, parseReal);
    if overall.Err? {
      return Err(overall.error);
    }
    b.PutItem(Key(RunPk(job.runId), JudgeSk(job.turnIndex)), JudgeItem(job, h, jr, overall.value, now));
    if AllTurnsJudged(b.items, job.runId) {
      b.PutEvent(RunJudged(job.runId, now));
    }
    var reported := JudgeLib.OverallScore(jr, parseReal);
    if reported.Err? {
      return Err(reported.error);
    }
    r := Ok(JobSummary(job.runId, job.turnIndex, reported.value, h));
  }

  /** One summary per job, in job order, each naming its job's run and turn. */
  predicate SummariesFor(done: seq<JobSummary>, jobs: seq<JudgeJob>, n: nat) {
    |done| == n <= |jobs| && forall i :: 0 <= i < n ==> done[i].runId == jobs[i].runId && done[i].turnIndex == jobs[i].turnIndex
  }

  lemma SummariesForAppend(done: seq<JobSummary>, jobs: seq<JudgeJob>, n: nat, s: JobSummary)
    requires SummariesFor(done, jobs, n) && n < |jobs| && s.runId == jobs[n].runId && s.turnIndex == jobs[n].turnIndex
    ensures SummariesFor(done + [s], jobs, n + 1)
  {
  }

  /** What a batch of judge jobs leaves behind: the table, the bucket, the events emitted, and the summaries or the error raised. */
  datatype BatchEffect = BatchEffect(items: map<Key, Item>, blobs: map<string, Json>, emitted: seq<Event>, result: Result<seq<JobSummary>, string>)

  /** One judge job as a step from a table and a bucket. */
  type JobStep = (map<Key, Item>, map<string, Json>, JudgeJob) -> JobEffect

  /** `judge_turn_job` with the scorer, the float parser and the clock fixed. */
  function JudgeStep(vectorScores: (string, Json) -> JudgeLib.JudgeResult, parseReal: string -> Option<real>, now: string): JobStep {
    (items: map<Key, Item>, blobs: map<string, Json>, job: JudgeJob) => JudgeJobSpec(items, blobs, job, vectorScores, parseReal, now)
  }

  /**
   * The jobs run in order from the table `items` and the bucket `blobs`, each
   * with the effect `step` gives it; the first job that fails ends the batch
   * with its error, the effects of the jobs before it (and its own partial
   * writes) staying in place.
   */
  function BatchFrom(items: map<Key, Item>, blobs: map<string, Json>, jobs: seq<JudgeJob>, step: JobStep): BatchEffect
    decreases |jobs|
  {
    if jobs == [] then BatchEffect(items, blobs, [], Ok([]))
    else
      var first := step(items, blobs, jobs[0]);
      match first.result
      case Err(msg) => BatchEffect(first.items, first.blobs, first.emitted, Err(msg))
      case Ok(s) =>
        var rest := BatchFrom(first.items, first.blobs, jobs[1..], step);
        BatchEffect(rest.items, rest.blobs, first.emitted + rest.emitted,
                    match rest.result case Ok(ss) => Ok([s] + ss) case Err(m) => Err(m))
  }

  /** `lambda_handler` on the table `items` and the bucket `blobs`: `judge_turn_job` run over the batch. */
  function JudgeBatchSpec(items: map<Key, Item>, blobs: map<string, Json>, jobs: seq<JudgeJob>,
                          vectorScores: (string, Json) -> JudgeLib.JudgeResult,
                          parseReal: string -> Option<real>, now: string): BatchEffect
  {
    BatchFrom(items, blobs, jobs, JudgeStep(vectorScores, parseReal, now))
  }

  /** The handler is triggered with a batch of one message: its effect is exactly that job's. */
  lemma JudgeBatchOfOne(items: map<Key, Item>, blobs: map<string, Json>, job: JudgeJob,
                        vectorScores: (string, Json) -> JudgeLib.JudgeResult,
                        parseReal: string -> Option<real>, now: string)
    ensures var e := JudgeJobSpec(items, blobs, job, vectorScores, parseReal, now);
      var b := JudgeBatchSpec(items, blobs, [job], vectorScores, parseReal, now);
      b.items == e.items && b.blobs == e.blobs && b.emitted == e.emitted
      && (e.result.Ok? ==> b.result == Ok([e.result.value]))
      && (e.result.Err? ==> b.result == Err(e.result.error))
  {
    var step := JudgeStep(vectorScores, parseReal, now);
    assert step(items, blobs, job) == JudgeJobSpec(items, blobs, job, vectorScores, parseReal, now);
    BatchOfOne(items, blobs, job, step);
  }

  lemma BatchOfOne(items: map<Key, Item>, blobs: map<string, Json>, job: JudgeJob, step: JobStep)
    ensures var e := step(items, blobs, job);
      var b := BatchFrom(items, blobs, [job], step);
      b.items == e.items && b.blobs == e.blobs && b.emitted == e.emitted
      && (e.result.Ok? ==> b.result == Ok([e.result.value]))
      && (e.result.Err? ==> b.result == Err(e.result.error))
  {
    assert [job][1..] == [];
    var e := step(items, blobs, job);
    if e.result.Ok? {
      assert [e.result.value] + [] == [e.result.value];
    }
  }

  /** A step whose every summary names the job it ran. */
  ghost predicate NamesItsJob(step: JobStep) {
    forall items, blobs, job :: step(items, blobs, job).result.Ok? ==>
      step(items, blobs, job).result.value.runId == job.runId && step(items, blobs, job).result.value.turnIndex == job.turnIndex
  }

  /** A successful batch reports one summary per job, in job order, each naming its job's run and turn. */
  lemma JudgeBatchSummaries(items: map<Key, Item>, blobs: map<string, Json>, jobs: seq<JudgeJob>,
                            vectorScores: (string, Json) -> JudgeLib.JudgeResult,
                            parseReal: string -> Option<real>, now: string)
    ensures var e := JudgeBatchSpec(items, blobs, jobs, vectorScores, parseReal, now);
      e.result.Ok? ==> SummariesFor(e.result.value, jobs, |jobs|)
  {
    var step := JudgeStep(vectorScores, parseReal, now);
    forall items', blobs', job | step(items', blobs', job).result.Ok?
      ensures step(items', blobs', job).result.value.runId == job.runId && step(items', blobs', job).result.value.turnIndex == job.turnIndex
    {
      assert step(items', blobs', job) == JudgeJobSpec(items', blobs', job, vectorScores, parseReal, now);
    }
    BatchSummaries(items, blobs, jobs, step);
  }

  lemma {:induction false} BatchSummaries(items: map<Key, Item>, blobs: map<string, Json>, jobs: seq<JudgeJob>, step: JobStep)
    requires NamesItsJob(step)
    ensures var e := BatchFrom(items, blobs, jobs, step);
      e.result.Ok? ==> SummariesFor(e.result.value, jobs, |jobs|)
    decreases |jobs|
  {
    if jobs != [] {
      var first := step(items, blobs, jobs[0]);
      if first.result.Ok? {
        BatchSummaries(first.items, first.blobs, jobs[1..], step);
        var rest := BatchFrom(first.items, first.blobs, jobs[1..], step);
        if rest.result.Ok? {
          var all := [first.result.value] + rest.result.value;
          forall i | 0 <= i < |jobs|
            ensures all[i].runId == jobs[i].runId && all[i].turnIndex == jobs[i].turnIndex
          {
            if i > 0 {
              assert all[i] == rest.result.value[i - 1] && jobs[i] == jobs[1..][i - 1];
            }
          }
        }
      }
    }
  }

  /** The summaries of the jobs already judged in front of what the rest of the batch reports. */
  function Prefixed(done: seq<JobSummary>, r: Result<seq<JobSummary>, string>): Result<seq<JobSummary>, string> {
    match r
    case Ok(ss) => Ok(done + ss)
    case Err(m) => Err(m)
  }

  /** The whole batch's effect is what the jobs done so far left (`events`, `done`) followed by the effect of the rest. */
  predicate Remains(whole: BatchEffect, rest: BatchEffect, events0: seq<Event>, events: seq<Event>, done: seq<JobSummary>) {
    whole.items == rest.items && whole.blobs == rest.blobs && events0 + whole.emitted == events + rest.emitted
    && whole.result == Prefixed(done, rest.result)
  }

  /** A job that succeeds moves the split point past it. */
  lemma RemainsStep(whole: BatchEffect, items: map<Key, Item>, blobs: map<string, Json>, events0: seq<Event>, events: seq<Event>,
                    done: seq<JobSummary>, jobs: seq<JudgeJob>, n: nat, step: JobStep)
    requires n < |jobs|
    requires Remains(whole, BatchFrom(items, blobs, jobs[n..], step), events0, events, done)
    requires step(items, blobs, jobs[n]).result.Ok?
    ensures var first := step(items, blobs, jobs[n]);
      Remains(whole, BatchFrom(first.items, first.blobs, jobs[n + 1..], step), events0, events + first.emitted, done + [first.result.value])
  {
    assert jobs[n..][0] == jobs[n] && jobs[n..][1..] == jobs[n + 1..];
    var first := step(items, blobs, jobs[n]);
    var rest := BatchFrom(first.items, first.blobs, jobs[n + 1..], step);
    Seqs.Assoc(events, first.emitted, rest.emitted);
    if rest.result.Ok? {
      Seqs.Assoc(done, [first.result.value], rest.result.value);
    }
  }

  /** A job that fails is where the batch ends, with its error. */
  lemma RemainsFail(whole: BatchEffect, items: map<Key, Item>, blobs: map<string, Json>, events0: seq<Event>, events: seq<Event>,
                    done: seq<JobSummary>, jobs: seq<JudgeJob>, n: nat, step: JobStep)
    requires n < |jobs|
    requires Remains(whole, BatchFrom(items, blobs, jobs[n..], step), events0, events, done)
    requires step(items, blobs, jobs[n]).result.Err?
    ensures var first := step(items, blobs, jobs[n]);
      whole.items == first.items && whole.blobs == first.blobs && events0 + whole.emitted == events + first.emitted
      && whole.result == Err(first.result.error)
  {
    assert jobs[n..][0] == jobs[n];
  }

  /**
   * `lambda_handler`: the jobs are judged in order and the first failure is
   * re-raised, leaving the effects of the jobs before it in place; the table,
   * the bucket and the event bus end as `JudgeBatchSpec` says.
   */
  method HandleJudgeBatch(b: Backend, jobs: seq<JudgeJob>, vectorScores: (string, Json) -> JudgeLib.JudgeResult,
                          parseReal: string -> Option<real>, now: string)
    returns (r: Result<seq<JobSummary>, string>, processed: nat)
    modifies b
    ensures var e := JudgeBatchSpec(old(b.items), old(b.blobs), jobs, vectorScores, parseReal, now);
      b.items == e.items && b.blobs == e.blobs && b.events == old(b.events) + e.emitted && r == e.result
    ensures b.judgeQueue == old(b.judgeQueue)
    ensures r.Ok? ==> processed == |jobs| && |r.value| == |jobs|
    ensures r.Ok? ==> SummariesFor(r.value, jobs, |jobs|)
    ensures r.Err? ==> processed < |jobs|
  {
    ghost var step := JudgeStep(vectorScores, parseReal, now);
    ghost var whole := BatchFrom(b.items, b.blobs, jobs, step);
    var done: seq<JobSummary> := [];
    processed := 0;
    assert jobs[0..] == jobs;
    assert whole.result.Ok? ==> done + whole.result.value == whole.result.value;
    while processed < |jobs|
      invariant processed <= |jobs|
      invariant SummariesFor(done, jobs, processed)
      invariant b.judgeQueue == old(b.judgeQueue)
      invariant Remains(whole, BatchFrom(b.items, b.blobs, jobs[processed..], step), old(b.events), b.events, done)
    {
      ghost var items0, blobs0, evs := b.items, b.blobs, b.events;
      assert step(items0, blobs0, jobs[processed]) == JudgeJobSpec(items0, blobs0, jobs[processed], vectorScores, parseReal, now);
      var one := JudgeTurnJob(b, jobs[processed], vectorScores, parseReal, now);
      if one.Err? {
        RemainsFail(whole, items0, blobs0, old(b.events), evs, done, jobs, processed, step);
        return Err(one.error), processed;
      }
      RemainsStep(whole, items0, blobs0, old(b.events), evs, done, jobs, processed, step);
      SummariesForAppend(done, jobs, processed, one.value);
      done := done + [one.value];
      processed := processed + 1;
    }
    assert jobs[processed..] == [];
    assert done + [] == done;
    r := Ok(done);
  }
}
