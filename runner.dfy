/**
 * The Runner Lambda: for a queued run it writes the run row ("running"),
 * plays the dialogue, stores each turn (bundle in the bucket, TURN row in
 * the table), queues one judge job per turn, and finally marks the run
 * "completed" — or "failed" with the error when the dialogue raised.
 */
module Runner {
  import opened Wrappers
  import opened Json
  import Text
  import Models
  import Dialogue
  import JudgeLib
  import opened Store
  import Seqs

  /** The fields of a run job the runner reads; absent optional fields take their defaults. */
  datatype RunJob = RunJob(runId: string, scenarioId: string, manifestId: string, modelId: string, provider: string,
                           maxTokens: Option<int>, temperature: Option<real>, maxTurns: Option<int>)

  /** What `process_run` returns. */
  datatype RunSummary = RunSummary(runId: string, status: string, turnCount: nat)

  /** The model configuration of a run: the job's model and provider, 200 tokens and temperature 0.7 by default. */
  function ConfigOf(job: RunJob): (c: Models.ModelConfig)
    ensures c.modelId == job.modelId && c.provider == job.provider
    ensures c.maxTokens == (if job.maxTokens.Some? then job.maxTokens.value else Models.DefaultMaxTokens)
    ensures c.temperature == (if job.temperature.Some? then job.temperature.value else Models.DefaultTemperature)
  {
    Models.ModelConfig(job.modelId, job.provider, job.maxTokens.GetOr(200), job.temperature.GetOr(0.7))
  }

  /** The job's turn limit, 5 by default. */
  function MaxTurns(job: RunJob): int { job.maxTurns.GetOr(5) }

  const Running: string := "running"
  const Completed: string := "completed"
  const Failed: string := "failed"

  /** The run row `create_run_item` puts (its key is RUN#<run>/META). */
  function RunItem(job: RunJob, scenario: Dialogue.Scenario, createdAt: string): Item {
    map[
      "run_id" := JStr(job.runId),
      "manifest_id" := JStr(job.manifestId),
      "model_id" := JStr(job.modelId),
      "scenario_id" := JStr(job.scenarioId),
      "vector" := JStr(scenario.vector),
      "status" := JStr(Running),
      "created_at" := JStr(createdAt),
      "GSI1PK" := JStr("MODEL#" + job.modelId),
      "GSI1SK" := JStr(RunPk(job.runId)),
      "GSI2PK" := JStr("MANIFEST#" + job.manifestId),
      "GSI2SK" := JStr(RunPk(job.runId))]
  }

  /** The attributes `update_run_status` sets; the error only when it is non-empty. */
  function StatusUpdate(status: string, turnCount: nat, updatedAt: string, error: string): Item {
    var base := map["status" := JStr(status), "turn_count" := JNum(turnCount as real), "updated_at" := JStr(updatedAt)];
    if error != [] then base["error" := JStr(error)] else base
  }

  /** Python's `int(x)` on a float: truncation toward zero. */
  function Truncate(x: real): (n: int)
    ensures x >= 0.0 ==> 0.0 <= n as real <= x < n as real + 1.0
    ensures x < 0.0 ==> n as real - 1.0 < x <= n as real <= 0.0
  {
    if x >= 0.0 then x.Floor else -((-x).Floor)
  }

  /** The full turn bundle `save_turn` writes to the bucket. */
  function TurnBundle(job: RunJob, scenario: Dialogue.Scenario, t: Dialogue.Turn, timestamp: string): Json {
    JObj(map[
      "run_id" := JStr(job.runId),
      "turn_index" := JNum(t.turnIndex as real),
      "scenario_id" := JStr(job.scenarioId),
      "vector" := JStr(scenario.vector),
      "persona" := JStr(scenario.persona),
      "student" := JStr(t.student),
      "ai" := JStr(t.ai),
      "latency_ms" := JNum(t.latencyMs),
      "input_tokens" := JNum(t.inputTokens as real),
      "output_tokens" := JNum(t.outputTokens as real),
      "timestamp" := JStr(timestamp)])
  }

  /** The compact TURN row `save_turn` puts. */
  function TurnItem(runId: string, t: Dialogue.Turn): Item {
    map[
      "run_id" := JStr(runId),
      "turn_index" := JNum(t.turnIndex as real),
      "s3_key" := JStr(TurnBlobKey(runId, t.turnIndex)),
      "latency_ms" := JNum(Truncate(t.latencyMs) as real),
      "input_tokens" := JNum(t.inputTokens as real),
      "output_tokens" := JNum(t.outputTokens as real),
      "has_question" := JBool('?' in t.ai),
      "word_count" := JNum(|Text.Words(t.ai)| as real)]
  }

  /** The table after a row built by `row` has been put under each turn's TURN key, in turn order. */
  function SaveRows(items: map<Key, Item>, runId: string, turns: seq<Dialogue.Turn>, row: Dialogue.Turn -> Item): map<Key, Item> {
    if turns == [] then items
    else
      var last := turns[|turns| - 1];
      SaveRows(items, runId, turns[..|turns| - 1], row)[Key(RunPk(runId), TurnSk(last.turnIndex)) := row(last)]
  }

  function TurnRow(runId: string): Dialogue.Turn -> Item {
    (t: Dialogue.Turn) => TurnItem(runId, t)
  }

  /** The bucket after a bundle built by `bundle` has been written under each turn's key, in turn order. */
  function SaveBundles(blobs: map<string, Json>, runId: string, turns: seq<Dialogue.Turn>, bundle: Dialogue.Turn -> Json): map<string, Json> {
    if turns == [] then blobs
    else
      var last := turns[|turns| - 1];
      SaveBundles(blobs, runId, turns[..|turns| - 1], bundle)[TurnBlobKey(runId, last.turnIndex) := bundle(last)]
  }

  function BundleOf(job: RunJob, scenario: Dialogue.Scenario, timestamp: string): Dialogue.Turn -> Json {
    (t: Dialogue.Turn) => TurnBundle(job, scenario, t, timestamp)
  }

  /** The judge jobs queued for `turns`, in order. */
  function JudgeJobsFor(runId: string, turns: seq<Dialogue.Turn>): (jobs: seq<JudgeJob>)
    ensures |jobs| == |turns|
  {
    if turns == [] then [] else JudgeJobsFor(runId, turns[..|turns| - 1]) + [JudgeJob(runId, turns[|turns| - 1].turnIndex)]
  }

  /** One judge job per turn, in turn order, naming the run and that turn. */
  lemma {:induction false} JudgeJobsForTurns(runId: string, turns: seq<Dialogue.Turn>)
    ensures forall i :: 0 <= i < |turns| ==> JudgeJobsFor(runId, turns)[i] == JudgeJob(runId, turns[i].turnIndex)
  {
    if turns != [] {
      var init := turns[..|turns| - 1];
      JudgeJobsForTurns(runId, init);
      assert forall i :: 0 <= i < |init| ==> init[i] == turns[i];
    }
  }

  /** For turns numbered 0..n-1, saving them adds exactly the keys of their n TURN rows to the table. */
  lemma {:induction false} SavedTurnKeys(items: map<Key, Item>, runId: string, turns: seq<Dialogue.Turn>, row: Dialogue.Turn -> Item)
    requires forall i :: 0 <= i < |turns| ==> turns[i].turnIndex == i
    ensures SaveRows(items, runId, turns, row).Keys == items.Keys + RowKeys(runId, Indices(|turns|), false)
  {
    if turns != [] {
      var n := |turns| - 1;
      var init := turns[..n];
      assert forall i :: 0 <= i < |init| ==> init[i] == turns[i];
      SavedTurnKeys(items, runId, init, row);
      RowKeysStep(runId, n, false);
    }
  }

  /** Each saved turn's row is the one built from it. */
  lemma {:induction false} SavedTurnValue(items: map<Key, Item>, runId: string, turns: seq<Dialogue.Turn>, row: Dialogue.Turn -> Item, i: nat)
    requires forall j :: 0 <= j < |turns| ==> turns[j].turnIndex == j
    requires i < |turns|
    ensures Key(RunPk(runId), TurnSk(i)) in SaveRows(items, runId, turns, row)
    ensures SaveRows(items, runId, turns, row)[Key(RunPk(runId), TurnSk(i))] == row(turns[i])
    decreases |turns|
  {
    var n := |turns| - 1;
    var init := turns[..n];
    var kn := RowKey(runId, n, false);
    assert turns[n].turnIndex == n;
    assert SaveRows(items, runId, turns, row) == SaveRows(items, runId, init, row)[kn := row(turns[n])];
    if i < n {
      assert forall j :: 0 <= j < |init| ==> init[j] == turns[j];
      SavedTurnValue(items, runId, init, row, i);
      RowKeyDistinct(runId, i, n, false);
    }
  }

  lemma SavedTurnValues(items: map<Key, Item>, runId: string, turns: seq<Dialogue.Turn>, row: Dialogue.Turn -> Item)
    requires forall i :: 0 <= i < |turns| ==> turns[i].turnIndex == i
    ensures forall i :: 0 <= i < |turns| ==>
      Key(RunPk(runId), TurnSk(i)) in SaveRows(items, runId, turns, row)
      && SaveRows(items, runId, turns, row)[Key(RunPk(runId), TurnSk(i))] == row(turns[i])
  {
    forall i | 0 <= i < |turns|
      ensures Key(RunPk(runId), TurnSk(i)) in SaveRows(items, runId, turns, row)
      ensures SaveRows(items, runId, turns, row)[Key(RunPk(runId), TurnSk(i))] == row(turns[i])
    {
      SavedTurnValue(items, runId, turns, row, i);
    }
  }

  /** Rows under keys that are not the saved turns' keys are untouched. */
  lemma {:induction false} SavedTurnsKeepOthers(items: map<Key, Item>, runId: string, turns: seq<Dialogue.Turn>, row: Dialogue.Turn -> Item, k: Key)
    requires forall i :: 0 <= i < |turns| ==> turns[i].turnIndex == i
    requires k in items && k !in RowKeys(runId, Indices(|turns|), false)
    ensures k in SaveRows(items, runId, turns, row) && SaveRows(items, runId, turns, row)[k] == items[k]
  {
    if turns != [] {
      var n := |turns| - 1;
      var init := turns[..n];
      assert forall i :: 0 <= i < |init| ==> init[i] == turns[i];
      RowKeysStep(runId, n, false);
      assert turns[n].turnIndex == n && k != RowKey(runId, n, false);
      SavedTurnsKeepOthers(items, runId, init, row, k);
    }
  }

  /** The new keys are all TURN rows of the run: saving adds exactly them to the run's TURN partition. */
  lemma SavedTurnRows(items: map<Key, Item>, runId: string, turns: seq<Dialogue.Turn>, row: Dialogue.Turn -> Item)
    requires forall i :: 0 <= i < |turns| ==> turns[i].turnIndex == i
    ensures KeysUnder(SaveRows(items, runId, turns, row), RunPk(runId), "TURN#")
         == KeysUnder(items, RunPk(runId), "TURN#") + RowKeys(runId, Indices(|turns|), false)
  {
    SavedTurnKeys(items, runId, turns, row);
    forall i: nat | i < |turns|
      ensures Text.StartsWith(TurnSk(i), "TURN#")
    {
      SortKeysDistinct(i, i);
    }
  }

  /** A fresh run (no TURN rows yet) ends up with exactly one TURN row per turn. */
  lemma OneTurnRowPerTurn(items: map<Key, Item>, runId: string, turns: seq<Dialogue.Turn>, row: Dialogue.Turn -> Item)
    requires forall i :: 0 <= i < |turns| ==> turns[i].turnIndex == i
    requires KeysUnder(items, RunPk(runId), "TURN#") == {}
    ensures |KeysUnder(SaveRows(items, runId, turns, row), RunPk(runId), "TURN#")| == |turns|
  {
    SavedTurnRows(items, runId, turns, row);
    RowKeysCount(runId, Indices(|turns|), false);
    IndicesCount(|turns|);
  }



  /** The run row's key is never a TURN row's key. */
  lemma MetaIsNoTurnRow(runId: string, i: nat)
    ensures Key(RunPk(runId), MetaSk) != Key(RunPk(runId), TurnSk(i))
  {
    assert TurnSk(i)[0] == 'T';
  }

  /**
   * The TURN row's `has_question` is the judge's `has_question`, and its
   * word count is zero exactly when the judge's is, although the judge
   * counts the words of the stripped reply.
   */
  lemma TurnRowAgreesWithHeuristics(runId: string, t: Dialogue.Turn)
    ensures var h := JudgeLib.ComputeHeuristicScores(t.ai);
      TurnItem(runId, t)["has_question"] == JBool(h.hasQuestion)
      && (TurnItem(runId, t)["word_count"] == JNum(0.0) <==> h.wordCount == 0)
  {
  }

  /**
   * After the final status update the run row keeps what `create_run_item`
   * wrote except for the updated attributes: the new status and turn count,
   * and the error exactly when one was given.
   */
  lemma FinalRunRow(items: map<Key, Item>, job: RunJob, scenario: Dialogue.Scenario, createdAt: string,
                    status: string, turnCount: nat, updatedAt: string, error: string)
    requires Key(RunPk(job.runId), MetaSk) in items && items[Key(RunPk(job.runId), MetaSk)] == RunItem(job, scenario, createdAt)
    ensures var row := Merge(items, Key(RunPk(job.runId), MetaSk), StatusUpdate(status, turnCount, updatedAt, error))[Key(RunPk(job.runId), MetaSk)];
      row["status"] == JStr(status) && row["turn_count"] == JNum(turnCount as real)
      && row["created_at"] == JStr(createdAt) && row["manifest_id"] == JStr(job.manifestId)
      && ("error" in row <==> error != [])
  {
    var update := StatusUpdate(status, turnCount, updatedAt, error);
    assert "status" in update && "turn_count" in update;
    assert "created_at" !in update && "manifest_id" !in update;
    assert "created_at" in RunItem(job, scenario, createdAt) && "manifest_id" in RunItem(job, scenario, createdAt);
    assert "error" !in RunItem(job, scenario, createdAt);
  }

  /** Without canned student replies, as in the Lambda, a run plays at most one turn. */
  lemma LambdaRunsPlayAtMostOneTurn(scenario: Dialogue.Scenario, job: RunJob,
                                    invoke: (Models.ModelConfig, string) -> Result<Models.Response, Models.InvokeError>,
                                    prompts: Dialogue.Prompts)
    requires Dialogue.DialogueSpec(Dialogue.AsWritten, scenario, ConfigOf(job), MaxTurns(job), [], invoke, prompts).Ok?
    ensures |Dialogue.DialogueSpec(Dialogue.AsWritten, scenario, ConfigOf(job), MaxTurns(job), [], invoke, prompts).value| <= 1
    ensures MaxTurns(job) > 0 ==> |Dialogue.DialogueSpec(Dialogue.AsWritten, scenario, ConfigOf(job), MaxTurns(job), [], invoke, prompts).value| == 1
  {
    Dialogue.DialogueShape(Dialogue.AsWritten, scenario, ConfigOf(job), MaxTurns(job), [], invoke, prompts);
  }

  /** `save_turn`: the bundle, then the TURN row. */
  method SaveTurn(b: Backend, job: RunJob, scenario: Dialogue.Scenario, t: Dialogue.Turn, timestamp: string)
    modifies b
    ensures b.blobs == old(b.blobs)[TurnBlobKey(job.runId, t.turnIndex) := BundleOf(job, scenario, timestamp)(t)]
    ensures b.items == old(b.items)[Key(RunPk(job.runId), TurnSk(t.turnIndex)) := TurnRow(job.runId)(t)]
    ensures b.judgeQueue == old(b.judgeQueue) && b.events == old(b.events)
  {
    b.PutBlob(TurnBlobKey(job.runId, t.turnIndex), TurnBundle(job, scenario, t, timestamp));
    b.PutItem(Key(RunPk(job.runId), TurnSk(t.turnIndex)), TurnItem(job.runId, t));
  }

  /** One more iteration of the saving loop puts turn i's row, bundle and judge job after those of the turns before it. */
  lemma SaveStep(items: map<Key, Item>, blobs: map<string, Json>, runId: string, row: Dialogue.Turn -> Item,
                 bundle: Dialogue.Turn -> Json, turns: seq<Dialogue.Turn>, i: nat)
    requires i < |turns|
    ensures SaveRows(items, runId, turns[..i + 1], row)
         == SaveRows(items, runId, turns[..i], row)[Key(RunPk(runId), TurnSk(turns[i].turnIndex)) := row(turns[i])]
    ensures SaveBundles(blobs, runId, turns[..i + 1], bundle)
         == SaveBundles(blobs, runId, turns[..i], bundle)[TurnBlobKey(runId, turns[i].turnIndex) := bundle(turns[i])]
    ensures JudgeJobsFor(runId, turns[..i + 1]) == JudgeJobsFor(runId, turns[..i]) + [JudgeJob(runId, turns[i].turnIndex)]
  {
    assert turns[..i + 1][..i] == turns[..i];
  }

  /** One iteration of that loop: turn i is saved and its judge job queued after those of the turns before it. */
  method SaveAndEnqueueNext(b: Backend, job: RunJob, scenario: Dialogue.Scenario, turns: seq<Dialogue.Turn>, i: nat, timestamp: string,
                            ghost items0: map<Key, Item>, ghost blobs0: map<string, Json>, ghost queue0: seq<JudgeJob>)
    requires i < |turns|
    requires b.items == SaveRows(items0, job.runId, turns[..i], TurnRow(job.runId))
    requires b.blobs == SaveBundles(blobs0, job.runId, turns[..i], BundleOf(job, scenario, timestamp))
    requires b.judgeQueue == queue0 + JudgeJobsFor(job.runId, turns[..i])
    modifies b
    ensures b.items == SaveRows(items0, job.runId, turns[..i + 1], TurnRow(job.runId))
    ensures b.blobs == SaveBundles(blobs0, job.runId, turns[..i + 1], BundleOf(job, scenario, timestamp))
    ensures b.judgeQueue == queue0 + JudgeJobsFor(job.runId, turns[..i + 1])
    ensures b.events == old(b.events)
  {
    SaveStep(items0, blobs0, job.runId, TurnRow(job.runId), BundleOf(job, scenario, timestamp), turns, i);
    SaveTurn(b, job, scenario, turns[i], timestamp);
    ghost var items1 := b.items;
    ghost var blobs1 := b.blobs;
    assert items1 == SaveRows(items0, job.runId, turns[..i + 1], TurnRow(job.runId));
    assert blobs1 == SaveBundles(blobs0, job.runId, turns[..i + 1], BundleOf(job, scenario, timestamp));
    Seqs.AppendOne(queue0, JudgeJobsFor(job.runId, turns[..i]), JudgeJob(job.runId, turns[i].turnIndex));
    b.SendJudgeJob(JudgeJob(job.runId, turns[i].turnIndex));
  }

  /** The loop of `process_run` over the played turns: save each, then queue its judge job. */
  method SaveAndEnqueue(b: Backend, job: RunJob, scenario: Dialogue.Scenario, turns: seq<Dialogue.Turn>, timestamp: string)
    modifies b
    ensures b.items == SaveRows(old(b.items), job.runId, turns, TurnRow(job.runId))
    ensures b.blobs == SaveBundles(old(b.blobs), job.runId, turns, BundleOf(job, scenario, timestamp))
    ensures b.judgeQueue == old(b.judgeQueue) + JudgeJobsFor(job.runId, turns)
    ensures b.events == old(b.events)
  {
    var i := 0;
    while i < |turns|
      invariant i <= |turns|
      invariant b.items == SaveRows(old(b.items), job.runId, turns[..i], TurnRow(job.runId))
      invariant b.blobs == SaveBundles(old(b.blobs), job.runId, turns[..i], BundleOf(job, scenario, timestamp))
      invariant b.judgeQueue == old(b.judgeQueue) + JudgeJobsFor(job.runId, turns[..i])
      invariant b.events == old(b.events)
    {
      SaveAndEnqueueNext(b, job, scenario, turns, i, timestamp, old(b.items), old(b.blobs), old(b.judgeQueue));
      i := i + 1;
    }
    assert turns[..i] == turns;
  }

  /**
   * `process_run`. A missing scenario raises before any write. Otherwise
   * the run row is put with status "running"; a dialogue that raises
   * marks the run "failed" with turn count 0 and the error text, and the
   * error propagates; a dialogue that succeeds has its turns saved and
   * queued for judging and the run marked "completed" with its turn count.
   * `scenario` is what `get_scenario` found, `now` the clock's reading and
   * `durationMs` the dialogue's measured duration; the Lambda passes no
   * canned student replies.
   */
  method ProcessRun(b: Backend, job: RunJob, scenario: Option<Dialogue.Scenario>,
                    invoke: (Models.ModelConfig, string) -> Result<Models.Response, Models.InvokeError>,
                    prompts: Dialogue.Prompts, now: string, durationMs: real)
    returns (r: Result<RunSummary, string>)
    modifies b
    ensures b.events == old(b.events)
    ensures scenario.None? ==>
      r == Err("Scenario not found: " + job.scenarioId)
      && b.items == old(b.items) && b.blobs == old(b.blobs) && b.judgeQueue == old(b.judgeQueue)
    ensures scenario.Some? ==>
      var meta := Key(RunPk(job.runId), MetaSk);
      var started := old(b.items)[meta := RunItem(job, scenario.value, now)];
      var d := Dialogue.DialogueSpec(Dialogue.AsWritten, scenario.value, ConfigOf(job), MaxTurns(job), [], invoke, prompts);
      (d.Err? ==>
         r == Err(Models.ErrorText(d.error))
         && b.items == Merge(started, meta, StatusUpdate(Failed, 0, now, Models.ErrorText(d.error)))
         && b.blobs == old(b.blobs) && b.judgeQueue == old(b.judgeQueue))
      && (d.Ok? ==>
         r == Ok(RunSummary(job.runId, Completed, |d.value|))
         && b.items == Merge(SaveRows(started, job.runId, d.value, TurnRow(job.runId)), meta, StatusUpdate(Completed, |d.value|, now, ""))
         && b.blobs == SaveBundles(old(b.blobs), job.runId, d.value, BundleOf(job, scenario.value, now))
         && b.judgeQueue == old(b.judgeQueue) + JudgeJobsFor(job.runId, d.value))
  {
    if scenario.None? {
      return Err("Scenario not found: " + job.scenarioId);
    }
    var sc := scenario.value;
    var config := ConfigOf(job);
    var meta := Key(RunPk(job.runId), MetaSk);
    b.PutItem(meta, RunItem(job, sc, now));
    var result := Dialogue.RunDialogue(Dialogue.AsWritten, sc, config, MaxTurns(job), [], invoke, prompts, durationMs);
    if result.Err? {
      var text := Models.ErrorText(result.error);
      b.UpdateItem(meta, StatusUpdate(Failed, 0, now, text));
      return Err(text);
    }
    var turns := result.value.turns;
    SaveAndEnqueue(b, job, sc, turns, now);
    b.UpdateItem(meta, StatusUpdate(Completed, |turns|, now, ""));
    r := Ok(RunSummary(job.runId, Completed, |turns|));
  }
}
