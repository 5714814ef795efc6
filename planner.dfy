/**
 * The planner Lambda: it loads the active benchmark configuration, derives a
 * manifest id from it, saves the manifest once, builds one run job per model
 * and scenario, and sends the jobs to the dialogue-jobs queue in batches.
 * The configuration is the parsed `artifacts/config.json` object; the SHA-256
 * hex digest of its canonical JSON, today's date, the ULID generator and the
 * queue's replies are parameters.
 */
module Planner {
  import opened Wrappers
  import opened Json
  import Text
  import Models
  import opened Store
  import Seqs

  /** One dialogue job as the planner writes it; the values it copies out of the configuration stay JSON. */
  datatype PlannedJob = PlannedJob(
    runId: string, manifestId: string, modelId: Json, modelName: Json, provider: string,
    temperature: Json, maxTokens: Json, scenarioId: Json, scenarioName: Json, maxTurns: Json, judgeModel: Json)

  /** Python's `s[:n]`. */
  function Take(s: string, n: nat): (r: string)
    ensures |r| == if |s| < n then |s| else n
    ensures Text.StartsWith(s, r)
  {
    if |s| <= n then s else s[..n]
  }

  /** `generate_manifest_id`: "M-", the UTC date, "-", and the first 12 hex digits of the configuration's digest. */
  function ManifestId(config: Json, date: string, digest: Json -> string): string {
    "M-" + date + "-" + Take(digest(config), 12)
  }

  /**
   * With dates of a fixed width, the id gives back both its date and its hash
   * part: two ids are equal exactly when their dates and hash prefixes are.
   */
  lemma ManifestIdInjective(c1: Json, d1: string, c2: Json, d2: string, digest: Json -> string)
    requires |d1| == |d2|
    ensures ManifestId(c1, d1, digest) == ManifestId(c2, d2, digest)
        <==> d1 == d2 && Take(digest(c1), 12) == Take(digest(c2), 12)
  {
    var a := ManifestId(c1, d1, digest);
    var b := ManifestId(c2, d2, digest);
    if a == b {
      assert d1 == a[2..2 + |d1|] == b[2..2 + |d2|] == d2;
      assert Take(digest(c1), 12) == a[3 + |d1|..] == b[3 + |d2|..] == Take(digest(c2), 12);
    }
  }

  /** `for x in v`: a list yields its items; a string its characters and a dict its keys, which are all strings. */
  function Elements(v: Json): Result<seq<Json>, string> {
    match v
    case JArr(xs) => Ok(xs)
    case JStr(s) => Ok(seq(|s|, i requires 0 <= i < |s| => JStr([s[i]])))
    // Every use the planner makes of an element fails the same way on any string,
    // so the keys' order and text do not matter here, only their number.
    case JObj(m) => Ok(seq(|m|, _ => JStr("")))
    case _ => Err("TypeError: object is not iterable")
  }

  /** `"." in model_id` and then `model_id.split(".")[0]`, or "unknown". */
  function ProviderOf(modelId: Json): (r: Result<string, string>)
    ensures modelId.JStr? ==> r == Ok(Models.ProviderPrefix(modelId.s))
  {
    match modelId
    case JStr(s) => Ok(Models.ProviderPrefix(s))
    case JArr(xs) => if JStr(".") in xs then Err("AttributeError: 'list' object has no attribute 'split'") else Ok("unknown")
    case JObj(m) => if "." in m then Err("AttributeError: 'dict' object has no attribute 'split'") else Ok("unknown")
    case _ => Err("TypeError: argument is not iterable")
  }

  /** The job for one model and one scenario, with its fields read in the order the source reads them. */
  function JobFor(manifestId: string, config: Json, model: Json, scenario: Json, runId: string): Result<PlannedJob, string> {
    var modelId :- Field(model, "model_id");
    var provider :- ProviderOf(modelId);
    var params :- Field(config, "parameters");
    var temperature :- DictGet(params, "temperature", JNum(0.7));
    var scenarioId :- Field(scenario, "id");
    Ok(PlannedJob(runId, manifestId, modelId, GetOr(model, "name", modelId), provider,
                  temperature, GetOr(params, "max_tokens", JNum(500.0)),
                  scenarioId, GetOr(scenario, "name", scenarioId), GetOr(scenario, "max_turns", JNum(5.0)),
                  GetOr(params, "judge_model", JNull)))
  }

  /** Builds the job of one model for a scenario, given the job's number in the run. */
  type Builder = (Json, nat) -> Result<PlannedJob, string>

  /** The job of `model` for a scenario, when it is the k-th job of the run. */
  function JobBuilder(manifestId: string, config: Json, model: Json, runId: nat -> string): Builder {
    (scenario: Json, k: nat) => JobFor(manifestId, config, model, scenario, runId(k))
  }

  function ModelBuilder(manifestId: string, config: Json, runId: nat -> string): Json -> Builder {
    (model: Json) => JobBuilder(manifestId, config, model, runId)
  }

  /** The jobs of one model for the first `j` scenarios, numbered from `base`; the first error ends the row. */
  function RowJobs(build: Builder, scenarios: seq<Json>, base: nat, j: nat): Result<seq<PlannedJob>, string>
    requires j <= |scenarios|
  {
    if j == 0 then Ok([])
    else
      var init :- RowJobs(build, scenarios, base, j - 1);
      var job :- build(scenarios[j - 1], base + j - 1);
      Ok(init + [job])
  }

  /** The jobs of the first `i` models, model after model. */
  function GridJobs(builder: Json -> Builder, models: seq<Json>, scenarios: seq<Json>, i: nat): Result<seq<PlannedJob>, string>
    requires i <= |models|
  {
    if i == 0 then Ok([])
    else
      var init :- GridJobs(builder, models, scenarios, i - 1);
      var row :- RowJobs(builder(models[i - 1]), scenarios, |init|, |scenarios|);
      Ok(init + row)
  }

  /** `generate_run_jobs`: every model with every scenario; the scenarios are read only when there is a model. */
  function RunJobs(manifestId: string, config: Json, runId: nat -> string): Result<seq<PlannedJob>, string> {
    var modelsValue :- Field(config, "models");
    var models :- Elements(modelsValue);
    if models == [] then Ok([])
    else
      var scenariosValue :- Field(config, "scenarios");
      var scenarios :- Elements(scenariosValue);
      GridJobs(ModelBuilder(manifestId, config, runId), models, scenarios, |models|)
  }

  /** Whether the job for a model and a scenario can be built; the ids play no part in it. */
  predicate Buildable(config: Json, model: Json, scenario: Json) {
    JobFor("", config, model, scenario, "").Ok?
  }

  lemma BuildableAnyIds(manifestId: string, config: Json, model: Json, scenario: Json, runId: string)
    ensures JobFor(manifestId, config, model, scenario, runId).Ok? <==> Buildable(config, model, scenario)
  {
  }

  lemma {:induction false} RowJobsLength(build: Builder, scenarios: seq<Json>, base: nat, j: nat)
    requires j <= |scenarios|
    ensures var r := RowJobs(build, scenarios, base, j); r.Ok? ==> |r.value| == j
  {
    if j > 0 {
      RowJobsLength(build, scenarios, base, j - 1);
    }
  }

  /** A row succeeds exactly when every job in it does, and then holds those jobs in scenario order. */
  lemma {:induction false} RowJobsShape(build: Builder, scenarios: seq<Json>, base: nat, j: nat)
    requires j <= |scenarios|
    ensures var r := RowJobs(build, scenarios, base, j);
      (r.Ok? <==> forall t :: 0 <= t < j ==> build(scenarios[t], base + t).Ok?)
      && (r.Ok? ==>
            |r.value| == j
            && forall t :: 0 <= t < j ==> r.value[t] == build(scenarios[t], base + t).value)
  {
    if j > 0 {
      RowJobsShape(build, scenarios, base, j - 1);
    }
  }

  /** Rows before row `i` end before it starts. */
  lemma {:induction false} RowsBefore(a: nat, i: nat, n: nat, c: nat)
    requires a < i && c < n
    ensures a * n + c < i * n
    decreases i
  {
    if a < i - 1 {
      RowsBefore(a, i - 1, n, c);
    }
  }

  lemma {:induction false} GridJobsLength(builder: Json -> Builder, models: seq<Json>, scenarios: seq<Json>, i: nat)
    requires i <= |models|
    ensures var r := GridJobs(builder, models, scenarios, i); r.Ok? ==> |r.value| == i * |scenarios|
  {
    if i > 0 {
      GridJobsLength(builder, models, scenarios, i - 1);
      var init := GridJobs(builder, models, scenarios, i - 1);
      if init.Ok? {
        RowJobsLength(builder(models[i - 1]), scenarios, |init.value|, |scenarios|);
        assert (i - 1) * |scenarios| + |scenarios| == i * |scenarios|;
      }
    }
  }

  /** The first `i` models give jobs exactly when every job of theirs can be built. */
  lemma {:induction false} GridJobsOk(builder: Json -> Builder, models: seq<Json>, scenarios: seq<Json>, i: nat)
    requires i <= |models|
    ensures GridJobs(builder, models, scenarios, i).Ok?
        <==> forall a, c :: 0 <= a < i && 0 <= c < |scenarios| ==> builder(models[a])(scenarios[c], a * |scenarios| + c).Ok?
  {
    if i > 0 {
      var n := |scenarios|;
      GridJobsOk(builder, models, scenarios, i - 1);
      GridJobsLength(builder, models, scenarios, i - 1);
      var init := GridJobs(builder, models, scenarios, i - 1);
      if init.Ok? {
        RowJobsShape(builder(models[i - 1]), scenarios, (i - 1) * n, n);
      }
    }
  }

  /** Job number a·|scenarios| + c is model a with scenario c: the jobs come out model-major. */
  lemma {:induction false} GridJobsCell(builder: Json -> Builder, models: seq<Json>, scenarios: seq<Json>, i: nat, a: nat, c: nat)
    requires i <= |models| && a < i && c < |scenarios|
    requires GridJobs(builder, models, scenarios, i).Ok?
    ensures var r := GridJobs(builder, models, scenarios, i).value;
      var job := builder(models[a])(scenarios[c], a * |scenarios| + c);
      a * |scenarios| + c < |r| && job.Ok? && r[a * |scenarios| + c] == job.value
    decreases i
  {
    var n := |scenarios|;
    var init := GridJobs(builder, models, scenarios, i - 1);
    GridJobsLength(builder, models, scenarios, i - 1);
    var base := (i - 1) * n;
    var row := RowJobs(builder(models[i - 1]), scenarios, base, n);
    var r := init.value + row.value;
    assert GridJobs(builder, models, scenarios, i).value == r;
    RowJobsShape(builder(models[i - 1]), scenarios, base, n);
    if a < i - 1 {
      RowsBefore(a, i - 1, n, c);
      GridJobsCell(builder, models, scenarios, i - 1, a, c);
      assert r[a * n + c] == init.value[a * n + c];
    } else {
      assert a * n + c == base + c;
      assert r[base + c] == row.value[c];
    }
  }

  /** An error stops a row: the later scenarios of that model are never reached. */
  lemma {:induction false} RowJobsErrStays(build: Builder, scenarios: seq<Json>, base: nat, j: nat, n: nat)
    requires j <= n <= |scenarios|
    requires RowJobs(build, scenarios, base, j).Err?
    ensures RowJobs(build, scenarios, base, n) == RowJobs(build, scenarios, base, j)
    decreases n
  {
    if n > j {
      RowJobsErrStays(build, scenarios, base, j, n - 1);
    }
  }

  /** An error stops the grid: the later models are never reached. */
  lemma {:induction false} GridJobsErrStays(builder: Json -> Builder, models: seq<Json>, scenarios: seq<Json>, i: nat, n: nat)
    requires i <= n <= |models|
    requires GridJobs(builder, models, scenarios, i).Err?
    ensures GridJobs(builder, models, scenarios, n) == GridJobs(builder, models, scenarios, i)
    decreases n
  {
    if n > i {
      GridJobsErrStays(builder, models, scenarios, i, n - 1);
    }
  }

  /** The inner loop of `generate_run_jobs`: append the jobs of one model, one scenario after another. */
  method AppendModelJobs(build: Builder, scenarios: seq<Json>, jobs0: seq<PlannedJob>)
    returns (r: Result<seq<PlannedJob>, string>)
    ensures var row := RowJobs(build, scenarios, |jobs0|, |scenarios|);
      r == if row.Ok? then Ok(jobs0 + row.value) else Err(row.error)
  {
    var jobs := jobs0;
    var j := 0;
    while j < |scenarios|
      invariant 0 <= j <= |scenarios|
      invariant RowJobs(build, scenarios, |jobs0|, j).Ok?
      invariant jobs == jobs0 + RowJobs(build, scenarios, |jobs0|, j).value
      invariant |jobs| == |jobs0| + j
    {
      RowJobsLength(build, scenarios, |jobs0|, j);
      var job := build(scenarios[j], |jobs|);
      if job.Err? {
        RowJobsErrStays(build, scenarios, |jobs0|, j + 1, |scenarios|);
        return Err(job.error);
      }
      jobs := jobs + [job.value];
      j := j + 1;
    }
    return Ok(jobs);
  }

  /**
   * `generate_run_jobs`: for each model, for each scenario, append the job;
   * the k-th job appended takes run id `runId(k)`. An exception ends the loops.
   */
  method GenerateRunJobs(manifestId: string, config: Json, runId: nat -> string) returns (r: Result<seq<PlannedJob>, string>)
    ensures r == RunJobs(manifestId, config, runId)
  {
    var modelsValue :- Field(config, "models");
    var models :- Elements(modelsValue);
    var jobs: seq<PlannedJob> := [];
    var scenarios: seq<Json> := [];
    var i := 0;
    while i < |models|
      invariant 0 <= i <= |models|
      invariant i > 0 ==> Field(config, "scenarios").Ok? && Elements(Field(config, "scenarios").value) == Ok(scenarios)
      invariant GridJobs(ModelBuilder(manifestId, config, runId), models, scenarios, i) == Ok(jobs)
    {
      if i == 0 {
        // The source evaluates config["scenarios"] afresh for every model; it is the same value each time.
        var scenariosValue :- Field(config, "scenarios");
        scenarios :- Elements(scenariosValue);
      }
      var next := AppendModelJobs(JobBuilder(manifestId, config, models[i], runId), scenarios, jobs);
      if next.Err? {
        GridJobsErrStays(ModelBuilder(manifestId, config, runId), models, scenarios, i + 1, |models|);
        return Err(next.error);
      }
      jobs := next.value;
      i := i + 1;
    }
    return Ok(jobs);
  }

  /** Job generation succeeds exactly when every model and scenario give a job, and then yields |models|·|scenarios| jobs. */
  lemma JobMatrix(manifestId: string, config: Json, runId: nat -> string, models: seq<Json>, scenarios: seq<Json>)
    requires Field(config, "models").Ok? && Elements(Field(config, "models").value) == Ok(models) && models != []
    requires Field(config, "scenarios").Ok? && Elements(Field(config, "scenarios").value) == Ok(scenarios)
    ensures var r := RunJobs(manifestId, config, runId);
      (r.Ok? <==> forall a, c :: 0 <= a < |models| && 0 <= c < |scenarios| ==> Buildable(config, models[a], scenarios[c]))
      && (r.Ok? ==> |r.value| == |models| * |scenarios|)
  {
    var builder := ModelBuilder(manifestId, config, runId);
    GridJobsOk(builder, models, scenarios, |models|);
    GridJobsLength(builder, models, scenarios, |models|);
    forall a, c | 0 <= a < |models| && 0 <= c < |scenarios|
      ensures builder(models[a])(scenarios[c], a * |scenarios| + c).Ok? <==> Buildable(config, models[a], scenarios[c])
    {
      BuildableAnyIds(manifestId, config, models[a], scenarios[c], runId(a * |scenarios| + c));
    }
  }

  /** The job for model a and scenario c sits at position a·|scenarios| + c, numbered and filled from that model and scenario. */
  lemma JobAtCell(manifestId: string, config: Json, runId: nat -> string, models: seq<Json>, scenarios: seq<Json>, a: nat, c: nat)
    requires Field(config, "models").Ok? && Elements(Field(config, "models").value) == Ok(models)
    requires Field(config, "scenarios").Ok? && Elements(Field(config, "scenarios").value) == Ok(scenarios)
    requires a < |models| && c < |scenarios|
    requires RunJobs(manifestId, config, runId).Ok?
    ensures var jobs := RunJobs(manifestId, config, runId).value;
      var k := a * |scenarios| + c;
      k < |jobs| && jobs[k].runId == runId(k) && jobs[k].manifestId == manifestId
      && Field(models[a], "model_id").Ok? && jobs[k].modelId == Field(models[a], "model_id").value
      && Field(scenarios[c], "id").Ok? && jobs[k].scenarioId == Field(scenarios[c], "id").value
      && (jobs[k].modelId.JStr? ==> jobs[k].provider == Models.ProviderPrefix(jobs[k].modelId.s))
  {
    GridJobsCell(ModelBuilder(manifestId, config, runId), models, scenarios, |models|, a, c);
  }

  /** With no models there are no jobs, whatever the scenarios are. */
  lemma NoModelsNoJobs(manifestId: string, config: Json, runId: nat -> string)
    requires Field(config, "models").Ok? && Elements(Field(config, "models").value) == Ok([])
    ensures RunJobs(manifestId, config, runId) == Ok([])
  {
  }

  /** `send_message_batch` takes at most this many entries. */
  const BatchSize: nat := 10

  /** Where the batch that starts at job i ends: `jobs[i : i + 10]`. */
  function BatchEnd(jobs: seq<PlannedJob>, i: nat): (e: nat)
    requires i < |jobs|
    ensures i < e <= |jobs| && e - i <= BatchSize
    ensures e < |jobs| ==> e == i + BatchSize
  {
    if i + BatchSize < |jobs| then i + BatchSize else |jobs|
  }

  /** The batches `enqueue_jobs` sends from job i on, for i = 0, 10, 20, ... */
  function BatchesFrom(jobs: seq<PlannedJob>, i: nat): seq<seq<PlannedJob>>
    decreases |jobs| - i
  {
    if i >= |jobs| then [] else [jobs[i..BatchEnd(jobs, i)]] + BatchesFrom(jobs, i + BatchSize)
  }

  function Batches(jobs: seq<PlannedJob>): seq<seq<PlannedJob>> {
    BatchesFrom(jobs, 0)
  }

  function Flatten(bs: seq<seq<PlannedJob>>): seq<PlannedJob> {
    if bs == [] then [] else bs[0] + Flatten(bs[1..])
  }

  lemma {:induction false} BatchesFromFlatten(jobs: seq<PlannedJob>, i: nat)
    requires i <= |jobs|
    ensures Flatten(BatchesFrom(jobs, i)) == jobs[i..]
    decreases |jobs| - i
  {
    if i < |jobs| {
      var e := BatchEnd(jobs, i);
      var later := BatchesFrom(jobs, i + BatchSize);
      if e < |jobs| {
        BatchesFromFlatten(jobs, i + BatchSize);
        assert Flatten(later) == jobs[e..];
      } else {
        assert later == [];
      }
      assert BatchesFrom(jobs, i)[1..] == later;
      assert jobs[i..e] + jobs[e..] == jobs[i..];
    }
  }

  lemma {:induction false} BatchesFromSizes(jobs: seq<PlannedJob>, i: nat)
    ensures forall b :: b in BatchesFrom(jobs, i) ==> 0 < |b| <= BatchSize
    ensures i <= |jobs| ==> |BatchesFrom(jobs, i)| == (|jobs| - i + BatchSize - 1) / BatchSize
    decreases |jobs| - i
  {
    if i < |jobs| {
      BatchesFromSizes(jobs, i + BatchSize);
    }
  }

  /** The batches are non-empty, hold at most ten jobs each, and put together give back the jobs in order. */
  lemma BatchesPartition(jobs: seq<PlannedJob>)
    ensures Flatten(Batches(jobs)) == jobs
    ensures forall b :: b in Batches(jobs) ==> 0 < |b| <= BatchSize
    ensures |Batches(jobs)| == (|jobs| + BatchSize - 1) / BatchSize
  {
    BatchesFromFlatten(jobs, 0);
    BatchesFromSizes(jobs, 0);
  }

  /**
   * What the queue answers to one batch: an exception, or the entry ids
   * (positions in the batch) it lists as Successful and as Failed.
   */
  datatype BatchReply = Raised(message: string) | Replied(successful: seq<nat>, failed: seq<nat>)

  /** The `len(response.get("Successful", []))` that `enqueue_jobs` adds up. */
  function SuccessCount(reply: BatchReply): nat {
    if reply.Replied? then |reply.successful| else 0
  }

  /** The entries of a batch that the reply lists as Successful, in the reply's order. */
  function Delivered(batch: seq<PlannedJob>, ids: seq<nat>): seq<PlannedJob> {
    if ids == [] then []
    else
      (if ids[0] < |batch| then [batch[ids[0]]] else []) + Delivered(batch, ids[1..])
  }

  /** What a batch adds to the queue. */
  function BatchDelivered(batch: seq<PlannedJob>, reply: BatchReply): seq<PlannedJob> {
    if reply.Replied? then Delivered(batch, reply.successful) else []
  }

  /** The messages the batches from job i on add to the queue; `reply(i)` answers the batch that starts at job i. */
  function DeliveredFrom(jobs: seq<PlannedJob>, reply: nat -> BatchReply, i: nat): seq<PlannedJob>
    decreases |jobs| - i
  {
    if i >= |jobs| then []
    else BatchDelivered(jobs[i..BatchEnd(jobs, i)], reply(i)) + DeliveredFrom(jobs, reply, i + BatchSize)
  }

  /** The sum of the Successful counts of the batches from job i on. */
  function SucceededFrom(jobs: seq<PlannedJob>, reply: nat -> BatchReply, i: nat): nat
    decreases |jobs| - i
  {
    if i >= |jobs| then 0 else SuccessCount(reply(i)) + SucceededFrom(jobs, reply, i + BatchSize)
  }

  /** A reply as the queue service gives it: Successful names distinct entries of the batch. */
  predicate WellFormedReply(batch: seq<PlannedJob>, reply: BatchReply) {
    reply.Replied? ==>
      (forall k :: 0 <= k < |reply.successful| ==> reply.successful[k] < |batch|)
      && (forall k, l :: 0 <= k < l < |reply.successful| ==> reply.successful[k] != reply.successful[l])
  }

  /** Every batch from job i on gets a well-formed reply. */
  predicate RepliesWellFormed(jobs: seq<PlannedJob>, reply: nat -> BatchReply, i: nat)
    decreases |jobs| - i
  {
    i < |jobs| ==> WellFormedReply(jobs[i..BatchEnd(jobs, i)], reply(i)) && RepliesWellFormed(jobs, reply, i + BatchSize)
  }

  /** Distinct positions below n number at most n. */
  lemma {:induction false} DistinctBelow(ids: seq<nat>, n: nat)
    requires forall k :: 0 <= k < |ids| ==> ids[k] < n
    requires forall k, l :: 0 <= k < l < |ids| ==> ids[k] != ids[l]
    ensures |ids| <= n
    decreases n
  {
    if ids != [] {
      // Drop the largest position n - 1 if it occurs; every other id is below n - 1.
      assert ids[0] < n;
      var rest := RemoveValue(ids, n - 1);
      DistinctBelow(rest, n - 1);
    }
  }

  /** `ids` with every occurrence of `v` removed: it loses at most one element when the ids are distinct. */
  function RemoveValue(ids: seq<nat>, v: nat): (r: seq<nat>)
    requires forall k, l :: 0 <= k < l < |ids| ==> ids[k] != ids[l]
    ensures |r| + 1 >= |ids|
    ensures forall k :: 0 <= k < |r| ==> r[k] != v && r[k] in ids
    ensures forall k, l :: 0 <= k < l < |r| ==> r[k] != r[l]
  {
    if ids == [] then []
    else if ids[0] == v then
      assert forall k :: 0 <= k < |ids[1..]| ==> ids[1..][k] != v;
      ids[1..]
    else
      var rest := RemoveValue(ids[1..], v);
      assert ids[0] !in ids[1..];
      [ids[0]] + rest
  }

  /** Every listed id inside the batch delivers its entry. */
  lemma {:induction false} DeliveredAll(batch: seq<PlannedJob>, ids: seq<nat>)
    requires forall k :: 0 <= k < |ids| ==> ids[k] < |batch|
    ensures Delivered(batch, ids) == seq(|ids|, k requires 0 <= k < |ids| => batch[ids[k]])
  {
    if ids != [] {
      DeliveredAll(batch, ids[1..]);
    }
  }

  /**
   * With well-formed replies, the count `enqueue_jobs` returns is the number
   * of messages it put on the queue, and at most the number of jobs.
   */
  lemma {:induction false} SucceededAtMostJobs(jobs: seq<PlannedJob>, reply: nat -> BatchReply, i: nat)
    requires i <= |jobs|
    requires RepliesWellFormed(jobs, reply, i)
    ensures SucceededFrom(jobs, reply, i) <= |jobs| - i
    ensures |DeliveredFrom(jobs, reply, i)| == SucceededFrom(jobs, reply, i)
    decreases |jobs| - i
  {
    if i < |jobs| {
      var e := BatchEnd(jobs, i);
      var r := reply(i);
      if r.Replied? {
        DistinctBelow(r.successful, e - i);
        DeliveredAll(jobs[i..e], r.successful);
      }
      if e < |jobs| {
        SucceededAtMostJobs(jobs, reply, i + BatchSize);
      }
    }
  }

  lemma {:induction false} DeliveredFromBatch(batch: seq<PlannedJob>, ids: seq<nat>)
    ensures forall m :: m in Delivered(batch, ids) ==> m in batch
  {
    if ids != [] {
      DeliveredFromBatch(batch, ids[1..]);
    }
  }

  /** Every message put on the queue is one of the jobs. */
  lemma {:induction false} DeliveredAreJobs(jobs: seq<PlannedJob>, reply: nat -> BatchReply, i: nat)
    ensures forall m :: m in DeliveredFrom(jobs, reply, i) ==> m in jobs
    decreases |jobs| - i
  {
    if i < |jobs| {
      DeliveredAreJobs(jobs, reply, i + BatchSize);
      if reply(i).Replied? {
        var batch := jobs[i..BatchEnd(jobs, i)];
        DeliveredFromBatch(batch, reply(i).successful);
        assert forall m :: m in batch ==> m in jobs;
      }
    }
  }

  /** The dialogue-jobs queue. */
  class DialogueQueue {
    /** The messages on the queue. */
    var messages: seq<PlannedJob>
    /** The entries of each `send_message_batch` call, in order. */
    var sent: seq<seq<PlannedJob>>

    constructor()
      ensures messages == [] && sent == []
    {
      messages := [];
      sent := [];
    }

    /** `send_message_batch`: the entries the reply lists as Successful join the queue. */
    method SendMessageBatch(entries: seq<PlannedJob>, reply: BatchReply)
      modifies this
      ensures sent == old(sent) + [entries]
      ensures messages == old(messages) + BatchDelivered(entries, reply)
    {
      sent := sent + [entries];
      messages := messages + BatchDelivered(entries, reply);
    }
  }

  /**
   * `enqueue_jobs`: send the jobs ten at a time and add up the Successful
   * counts. A batch whose call raises adds nothing, and the loop goes on.
   */
  method EnqueueJobs(q: DialogueQueue, jobs: seq<PlannedJob>, reply: nat -> BatchReply) returns (enqueued: nat)
    modifies q
    ensures q.sent == old(q.sent) + Batches(jobs)
    ensures q.messages == old(q.messages) + DeliveredFrom(jobs, reply, 0)
    ensures enqueued == SucceededFrom(jobs, reply, 0)
  {
    enqueued := 0;
    var i := 0;
    while i < |jobs|
      invariant q.sent + BatchesFrom(jobs, i) == old(q.sent) + Batches(jobs)
      invariant q.messages + DeliveredFrom(jobs, reply, i) == old(q.messages) + DeliveredFrom(jobs, reply, 0)
      invariant enqueued + SucceededFrom(jobs, reply, i) == SucceededFrom(jobs, reply, 0)
      decreases |jobs| - i
    {
      var batch := jobs[i..BatchEnd(jobs, i)];
      var r := reply(i);
      ghost var added := BatchDelivered(batch, r);
      ghost var later := DeliveredFrom(jobs, reply, i + BatchSize);
      assert DeliveredFrom(jobs, reply, i) == added + later;
      assert BatchesFrom(jobs, i) == [batch] + BatchesFrom(jobs, i + BatchSize);
      Seqs.Assoc(q.sent, [batch], BatchesFrom(jobs, i + BatchSize));
      Seqs.Assoc(q.messages, added, later);
      q.SendMessageBatch(batch, r);
      enqueued := enqueued + SuccessCount(r);
      i := i + BatchSize;
    }
  }

  /** `len(x)` on a list, dict or string; anything else is a TypeError. */
  function Len(v: Json): Result<nat, string> {
    match v
    case JArr(xs) => Ok(|xs|)
    case JObj(m) => Ok(|m|)
    case JStr(t) => Ok(|t|)
    case _ => Err("TypeError: object has no len()")
  }

  function ManifestKey(manifestId: string): Key {
    Key("MANIFEST#" + manifestId, MetaSk)
  }

  function ManifestBlobKey(manifestId: string): string {
    "manifests/" + manifestId + ".json"
  }

  /** `create_manifest`: the document written to the bucket. */
  function ManifestDoc(manifestId: string, config: Json, createdAt: string): Json {
    JObj(map["manifest_id" := JStr(manifestId), "created_at" := JStr(createdAt), "config" := config, "version" := JStr("1.0")])
  }

  /** The table row of a manifest; counting the models and the scenarios can fail. */
  function ManifestItem(manifestId: string, config: Json, createdAt: string): Result<Item, string> {
    var models :- Field(config, "models");
    var modelCount :- Len(models);
    var scenarios :- Field(config, "scenarios");
    var scenarioCount :- Len(scenarios);
    Ok(map["PK" := JStr("MANIFEST#" + manifestId), "SK" := JStr(MetaSk), "manifest_id" := JStr(manifestId),
           "created_at" := JStr(createdAt), "s3_key" := JStr(ManifestBlobKey(manifestId)),
           "model_count" := JNum(modelCount as real), "scenario_count" := JNum(scenarioCount as real)])
  }

  /** `existing.get("Item")` is truthy: the table holds a non-empty row under the manifest's key. */
  predicate ManifestSaved(items: map<Key, Item>, manifestId: string) {
    ManifestKey(manifestId) in items && items[ManifestKey(manifestId)] != map[]
  }

  /**
   * The table and the bucket after `save_manifest`: unchanged when the row is
   * already there; otherwise the document is in the bucket, and the row is in
   * the table unless counting the models or scenarios failed.
   */
  function ManifestWrites(items: map<Key, Item>, blobs: map<string, Json>, manifestId: string, config: Json,
                          createdAt: string, readFails: bool): (w: (map<Key, Item>, map<string, Json>))
    ensures !readFails && ManifestSaved(items, manifestId) ==> w == (items, blobs)
    ensures !(!readFails && ManifestSaved(items, manifestId)) ==>
      ManifestBlobKey(manifestId) in w.1 && w.1[ManifestBlobKey(manifestId)] == ManifestDoc(manifestId, config, createdAt)
      && (forall k :: k in blobs && k != ManifestBlobKey(manifestId) ==> k in w.1 && w.1[k] == blobs[k])
      && (forall k :: k in items && k != ManifestKey(manifestId) ==> k in w.0 && w.0[k] == items[k])
      && (ManifestItem(manifestId, config, createdAt).Ok? ==>
            ManifestKey(manifestId) in w.0 && w.0[ManifestKey(manifestId)] == ManifestItem(manifestId, config, createdAt).value
            && ManifestSaved(w.0, manifestId))
      && (ManifestItem(manifestId, config, createdAt).Err? ==> w.0 == items)
  {
    if !readFails && ManifestSaved(items, manifestId) then (items, blobs)
    else
      var blobs' := blobs[ManifestBlobKey(manifestId) := ManifestDoc(manifestId, config, createdAt)];
      match ManifestItem(manifestId, config, createdAt)
      case Ok(item) =>
        assert "PK" in item;
        (items[ManifestKey(manifestId) := item], blobs')
      case Err(_) => (items, blobs')
  }

  /**
   * `save_manifest`: skip when the manifest's row is already there; otherwise
   * write the document to the bucket and then the row to the table. A failing
   * `get_item` (`readFails`) is only logged, and the save goes ahead.
   */
  method SaveManifest(b: Backend, manifestId: string, config: Json, createdAt: string, readFails: bool) returns (r: Result<(), string>)
    modifies b
    ensures !readFails && ManifestSaved(old(b.items), manifestId) ==> r.Ok? && b.items == old(b.items) && b.blobs == old(b.blobs)
    ensures !(!readFails && ManifestSaved(old(b.items), manifestId)) ==>
      b.blobs == old(b.blobs)[ManifestBlobKey(manifestId) := ManifestDoc(manifestId, config, createdAt)]
      && var item := ManifestItem(manifestId, config, createdAt);
         (item.Ok? ==> r.Ok? && b.items == old(b.items)[ManifestKey(manifestId) := item.value])
         && (item.Err? ==> r == Err(item.error) && b.items == old(b.items))
    ensures r.Ok? ==> ManifestSaved(b.items, manifestId)
    ensures (b.items, b.blobs) == ManifestWrites(old(b.items), old(b.blobs), manifestId, config, createdAt, readFails)
    ensures b.judgeQueue == old(b.judgeQueue) && b.events == old(b.events)
  {
    if !readFails && ManifestSaved(b.items, manifestId) {
      return Ok(());
    }
    b.PutBlob(ManifestBlobKey(manifestId), ManifestDoc(manifestId, config, createdAt));
    var item := ManifestItem(manifestId, config, createdAt);
    if item.Err? {
      return Err(item.error);
    }
    assert "PK" in item.value;
    b.PutItem(ManifestKey(manifestId), item.value);
    return Ok(());
  }

  /** The configuration `get_default_config` returns when the bucket has none. */
  function DefaultConfig(): Json {
    JObj(map[
      "models" := JArr([
        JObj(map["model_id" := JStr("anthropic.claude-3-5-sonnet-20241022-v2:0"), "provider" := JStr("anthropic"),
                 "temperature" := JNum(0.7), "max_tokens" := JNum(200.0)]),
        JObj(map["model_id" := JStr("anthropic.claude-3-5-haiku-20241022-v1:0"), "provider" := JStr("anthropic"),
                 "temperature" := JNum(0.7), "max_tokens" := JNum(200.0)])]),
      "scenarios" := JArr([
        JStr("EL-ETH-UTIL-DEON-01"), JStr("EL-CIV-FREE-HARM-01"), JStr("MAI-BIO-CRISPR-01"),
        JStr("MAI-ECO-INFL-01"), JStr("APO-PHY-HEAT-TEMP-01"), JStr("APO-BIO-GENE-DETERM-01")]),
      "parameters" := JObj(map["max_turns" := JNum(5.0), "judge_model" := JStr("anthropic.claude-3-5-sonnet-20240620-v1:0")])])
  }

  /**
   * The default configuration lists its scenarios as bare strings, but job
   * generation reads `scenario["id"]`: with no stored configuration the
   * planner raises before it enqueues anything.
   */
  lemma DefaultConfigHasNoJobs(manifestId: string, runId: nat -> string)
    ensures RunJobs(manifestId, DefaultConfig(), runId).Err?
  {
    var config := DefaultConfig();
    var models := config.fields["models"].items;
    var scenarios := config.fields["scenarios"].items;
    assert Elements(Field(config, "models").value) == Ok(models);
    assert Elements(Field(config, "scenarios").value) == Ok(scenarios);
    BareScenarioNoJobs(manifestId, config, runId, models, scenarios);
  }

  /** A scenario given as a bare string has no `id` to read: job generation fails. */
  lemma BareScenarioNoJobs(manifestId: string, config: Json, runId: nat -> string, models: seq<Json>, scenarios: seq<Json>)
    requires Field(config, "models").Ok? && Elements(Field(config, "models").value) == Ok(models) && models != []
    requires Field(config, "scenarios").Ok? && Elements(Field(config, "scenarios").value) == Ok(scenarios)
    requires scenarios != [] && scenarios[0].JStr?
    ensures RunJobs(manifestId, config, runId).Err?
  {
    assert !Buildable(config, models[0], scenarios[0]);
    JobMatrix(manifestId, config, runId, models, scenarios);
  }

  const ConfigBlobKey: string := "artifacts/config.json"

  /** `len(config.get(name, []))`, which the loading message evaluates. */
  function ConfigCount(config: Json, name: string): Result<nat, string> {
    var v :- DictGet(config, name, JArr([]));
    Len(v)
  }

  /**
   * `load_config`: the stored configuration, or the default one when the
   * bucket has none. Logging the model and scenario counts raises for a
   * stored document that is not an object, or whose "models" or "scenarios"
   * has no length.
   */
  function LoadConfig(blobs: map<string, Json>): (r: Result<Json, string>)
    ensures ConfigBlobKey !in blobs ==> r == Ok(DefaultConfig())
    ensures ConfigBlobKey in blobs ==>
      (r.Ok? <==> ConfigCount(blobs[ConfigBlobKey], "models").Ok? && ConfigCount(blobs[ConfigBlobKey], "scenarios").Ok?)
    ensures ConfigBlobKey in blobs && r.Ok? ==> r.value == blobs[ConfigBlobKey] && r.value.JObj?
  {
    if ConfigBlobKey !in blobs then Ok(DefaultConfig())
    else
      var config := blobs[ConfigBlobKey];
      var _ :- ConfigCount(config, "models");
      var _ :- ConfigCount(config, "scenarios");
      Ok(config)
  }

  /** A stored configuration that is not an object is refused before anything is written. */
  lemma ConfigNotAnObject(blobs: map<string, Json>)
    requires ConfigBlobKey in blobs && !blobs[ConfigBlobKey].JObj?
    ensures LoadConfig(blobs).Err?
  {
    assert ConfigCount(blobs[ConfigBlobKey], "models").Err?;
  }

  /** A "models" or "scenarios" entry without a length (a number, a boolean, null) is refused too. */
  lemma ConfigCountWithoutLength(blobs: map<string, Json>, name: string)
    requires ConfigBlobKey in blobs && blobs[ConfigBlobKey].JObj?
    requires name == "models" || name == "scenarios"
    requires name in blobs[ConfigBlobKey].fields
    requires var v := blobs[ConfigBlobKey].fields[name]; v.JNull? || v.JBool? || v.JNum?
    ensures LoadConfig(blobs).Err?
  {
    assert ConfigCount(blobs[ConfigBlobKey], name).Err?;
  }

  /** What the handler returns. */
  datatype PlanResult = PlanResult(manifestId: string, totalJobs: nat, enqueued: nat, timestamp: string)

  /**
   * `lambda_handler`: load the configuration, derive the manifest id, save the
   * manifest, generate the jobs and enqueue them. A configuration that fails
   * to load ends the run before anything is written; an exception from saving
   * or from job generation ends it before anything is enqueued.
   */
  method Plan(b: Backend, q: DialogueQueue, date: string, digest: Json -> string, now: string, readFails: bool,
              runId: nat -> string, reply: nat -> BatchReply) returns (r: Result<PlanResult, string>)
    modifies b, q
    ensures var loaded := LoadConfig(old(b.blobs));
      loaded.Err? ==>
        r == Err(loaded.error) && b.items == old(b.items) && b.blobs == old(b.blobs)
        && q.sent == old(q.sent) && q.messages == old(q.messages)
    ensures var loaded := LoadConfig(old(b.blobs));
      loaded.Ok? ==>
        var config := loaded.value;
        var manifestId := ManifestId(config, date, digest);
        var jobs := RunJobs(manifestId, config, runId);
        (b.items, b.blobs) == ManifestWrites(old(b.items), old(b.blobs), manifestId, config, now, readFails)
        && (r.Ok? ==>
              jobs.Ok?
              && r.value == PlanResult(manifestId, |jobs.value|, SucceededFrom(jobs.value, reply, 0), now)
              && ManifestSaved(b.items, manifestId)
              && q.sent == old(q.sent) + Batches(jobs.value)
              && q.messages == old(q.messages) + DeliveredFrom(jobs.value, reply, 0))
        && (r.Err? ==> q.sent == old(q.sent) && q.messages == old(q.messages))
        && var skipped := !readFails && ManifestSaved(old(b.items), manifestId);
           var item := ManifestItem(manifestId, config, now);
           var saveFails := !skipped && item.Err?;
           (r.Ok? <==> !saveFails && jobs.Ok?)
           && (saveFails ==> r == Err(item.error))
           && (!saveFails && jobs.Err? ==> r == Err(jobs.error))
    ensures ConfigBlobKey !in old(b.blobs) ==> r.Err?
    ensures b.judgeQueue == old(b.judgeQueue) && b.events == old(b.events)
  {
    var loaded := LoadConfig(b.blobs);
    if loaded.Err? {
      return Err(loaded.error);
    }
    var config := loaded.value;
    var manifestId := ManifestId(config, date, digest);
    var saved := SaveManifest(b, manifestId, config, now, readFails);
    if saved.Err? {
      return Err(saved.error);
    }
    var jobs := GenerateRunJobs(manifestId, config, runId);
    if ConfigBlobKey !in old(b.blobs) {
      DefaultConfigHasNoJobs(manifestId, runId);
    }
    if jobs.Err? {
      return Err(jobs.error);
    }
    var enqueued := EnqueueJobs(q, jobs.value, reply);
    return Ok(PlanResult(manifestId, |jobs.value|, enqueued, now));
  }
}
