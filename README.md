# A verified model of the Socratic tutoring benchmark

This project models, in Dafny, the core of a benchmark that measures how well
language models tutor in the Socratic style (asking guiding questions instead of
handing out answers). It covers the serverless pipeline and the logic of the
earlier experiment phases:

- **Serverless pipeline.** The planner lambda reads the benchmark configuration,
  expands it into one job per model and scenario, and sends the jobs to the
  dialogue queue in batches. The runner lambda plays a dialogue with the tutor
  model. It stores each turn as a row in the DynamoDB table and as an object in
  the raw-data S3 bucket, and it queues one judge job per turn. The judge lambda
  scores each turn and writes its JUDGE row. Once every turn is judged, it
  summarises the run and puts a completion event on the bus. The curator lambda
  folds run summaries into weekly tables. The read API serves runs, turns and
  model comparisons.
- **Shared library** (`socratic_bench`): model invocation with retries, the
  dialogue loop, the judge's verdict parsing, and the environment settings.
- **Archived code.** The phase-3 batch dialogue runner and its record schemas.
  Also the old lambdas' shared utilities.
- **Phase 1 (model selection).** Scenario generation, the Bedrock call wrapper,
  context expansion, the disposition rubric, the Socratic answer evaluator, and
  the context-growth scorer.
- **Phase 2 (research experiment).** The DynamoDB record builders and queries
  for sessions, assessments and learning gains.

AWS storage is modelled as values:

- The table is a map from (partition key, sort key) to items.
- The bucket is a map from object keys to parsed JSON.
- The queue and the event bus are sequences.

Each lambda's state changes through `Store.Backend`, a class whose methods say
which of these they change. Model calls, clocks, identifiers and hashing are
parameters of the functions that use them. Each stateful operation is a method
proved against a specification function. Lemmas state what the benchmark
promises of those functions: ordering, counting, idempotence, error paths and
"nothing else changes".

Long texts (prompts, scripted student lines, scenario descriptions) are
written as concatenations of shorter literals. The value is the same string;
the verifier handles short literals far more cheaply than one long literal.

## Model

| member | source | states |
|---|---|---|
| Store.SortKeysDistinct | serverless/lambdas/runner/handler.py:185-190 | distinct turns get distinct zero-padded TURN# and JUDGE# sort keys, and no TURN# key is a JUDGE# key |
| Store.RowKeyDistinct | serverless/lambdas/judge/handler.py:168-173 | distinct turns of a run have distinct rows of either kind |
| Store.RowKeysCount | serverless/lambdas/judge/handler.py:200-203 | a run's rows for a set of turns number exactly as many as the turns |
| Store.IndicesCount | serverless/lambdas/judge/handler.py:200-203 | the turn indices 0..n-1 number exactly n |
| Store.Merge | serverless/lambdas/runner/handler.py:235-240 | update_item sets the named attributes, keeps the item's other attributes and every other item, and creates a missing item |
| Store.Backend.PutItem | serverless/lambdas/runner/handler.py:185-198 | put_item replaces what was stored under the key and changes nothing else |
| Store.Backend.UpdateItem | serverless/lambdas/runner/handler.py:235-240 | update_item merges the attributes into the stored item and changes nothing else |
| Store.Backend.PutBlob | serverless/lambdas/runner/handler.py:176-183 | put_object replaces the object under the key and changes nothing else |
| Store.Backend.SendJudgeJob | serverless/lambdas/runner/handler.py:210-213 | send_message appends one job to the queue and changes nothing else |
| Store.Backend.PutEvent | serverless/lambdas/judge/handler.py:221-230 | put_events appends one event to the bus and changes nothing else |
| Curator.CuratorTables.CurateRun | serverless/lambdas/curator/handler.py:65-112 | a missing RUN#META row or no TURN/JUDGE rows is an error and writes nothing; otherwise the SUMMARY row is stored under the run id and the weekly row for the run's week and model gains one run |
| Curator.Curate | serverless/lambdas/curator/handler.py:76-101 | fails exactly when the run is missing or has no turns or no judges, with RunNotFound for a missing run; a curated summary carries the run id and turn_count equal to the number of TURN rows |
| Curator.ComputeMetrics | serverless/lambdas/curator/handler.py:161-211 | the single pass over the judges yields the mean score, the compliance rate, the first failing turn (else the turn count), the violation and open-ended rates and the token totals |
| Curator.FirstNonCompliantIsFirstFailure | serverless/lambdas/curator/handler.py:179-186 | half_life stays unset exactly when every judge reaches 0.5; otherwise it is the turn index of the first judge, in order, below 0.5 |
| Curator.RatesInUnit | serverless/lambdas/curator/handler.py:188-196 | compliance_rate, violation_rate and open_ended_rate each lie in [0, 1] |
| Curator.ComplianceExtremes | serverless/lambdas/curator/handler.py:183-189 | compliance_rate is 1.0 exactly when every judge is compliant and 0.0 exactly when none is |
| Curator.OverallScoreInUnit | serverless/lambdas/curator/handler.py:180-188 | when each judge score is in [0, 1], so is overall_score |
| Curator.HalfLifeIsEarliestFailingTurn | serverless/lambdas/curator/handler.py:125-158 | whatever order the rows come back in, the curated half-life is the smallest turn index among failing judges, or the turn count when none fails |
| Curator.EarliestFailingOfSorted | serverless/lambdas/curator/handler.py:179-206 | in judges sorted by turn index, the first failing judge has the smallest turn index of all failing judges |
| Sorting.SortByStable | serverless/lambdas/curator/handler.py:140-157 | `sorted` is stable: the rows whose keys compare equal come out in the order the query returned them |
| Curator.CuratorTables.UpdateWeeklyAggregate | serverless/lambdas/curator/handler.py:275-330 | the WEEK#…#MODEL#… row is replaced by the row read (or none, when absent or when the read raised) with one more run folded in; summaries are untouched |
| Curator.FoldAllFromNothing | serverless/lambdas/curator/handler.py:299-306 | folding n runs onto no row gives run_count n, totals equal to the sums and means equal to the sums over n |
| Curator.FoldTwiceCountsTwice | serverless/lambdas/curator/handler.py:292-325 | the aggregate keeps no record of which runs it has seen: folding the same summary twice counts it twice |
| JudgeLib.OverallScore | serverless/lib/socratic_bench/judge.py:39-46 | an errored or empty result scores 0, as does a dict with no "overall"; a non-dict score set raises |
| JudgeLib.OverallScoreShapes | serverless/lib/socratic_bench/judge.py:42-46 | both shapes the judge reports in, {"overall": {"score": x}} and {"overall": x}, score x |
| JudgeLib.StripFenceOfJsonBlock | serverless/lib/socratic_bench/judge.py:97-102 | a reply fenced as a ```json block yields the block's body when the body neither starts nor ends with a backtick |
| JudgeLib.StripFenceOfBareBlock | serverless/lib/socratic_bench/judge.py:97-102 | a reply fenced as a bare ``` block yields its body when the body has no "json" tag to lose |
| JudgeLib.JudgeConfig | serverless/lib/socratic_bench/judge.py:85-91 | every judge call uses the anthropic provider, 400 tokens and temperature 0.3 |
| JudgeLib.Judge | serverless/lib/socratic_bench/judge.py:84-120 | the result carries the turn index and the judge model; it has no error exactly when the call succeeds and the fence-stripped reply parses as JSON, in which case the scores are that JSON; a failure leaves empty scores and zero latency |
| JudgeLib.JudgeTurn | serverless/lib/socratic_bench/judge.py:49-120 | the judgement of one turn is reported at that turn's index |
| JudgeLib.JudgeTranscript | serverless/lib/socratic_bench/judge.py:123-188 | the transcript judgement is reported at turn index -1 |
| JudgeLib.FailedJudgementScoresZero | serverless/lib/socratic_bench/judge.py:113-120 | a judgement that failed for any reason scores 0 overall |
| JudgeLib.ComputeHeuristicScores | serverless/lib/socratic_bench/judge.py:191-217 | question_count counts the '?' characters; has_question holds exactly when there is one; word_count is 0 exactly for blank text; is_open_ended holds exactly when there is a '?' and none of the yes/no keywords occurs in the lowercased, stripped text |
| JudgeLib.KeywordInsideWordClosesQuestion | serverless/lib/socratic_bench/judge.py:206-211 | the keyword test matches substrings, so the "no" in "Now what?" marks that open question as closed |
| JudgeHandler.Evaluate | serverless/lambdas/judge/handler.py:75-94 | succeeds exactly when the bundle is a dict with a string "ai"; the heuristics are computed from that reply and the judge result is stamped with the job's turn index |
| JudgeHandler.StoredOverall | serverless/lambdas/judge/handler.py:155-165 | falsy scores store 0; truthy scores that are not a dict raise; a dict without "overall" stores 0 |
| JudgeHandler.StoredOverallScale | serverless/lambdas/judge/handler.py:156-165 | the stored score and the reported JudgeResult.overall_score convert together; they agree on a flat "overall" and the stored one is the reported one divided by 100 on the dict format |
| JudgeHandler.AllTurnsJudgedMeansEveryTurn | serverless/lambdas/judge/handler.py:187-207 | when every JUDGE row belongs to a turn of the run, the count comparison holds exactly when the run has turns and every turn has been judged |
| JudgeHandler.JudgeWriteKeepsTurns | serverless/lambdas/judge/handler.py:168-182 | putting a JUDGE row leaves the run's set of TURN rows unchanged |
| JudgeHandler.RejudgeKeepsJudgeCount | serverless/lambdas/judge/handler.py:168-182 | judging a turn again overwrites its JUDGE row, so the JUDGE count does not grow |
| JudgeHandler.JudgeJobSpec | serverless/lambdas/judge/handler.py:61-108 | a job that returns a summary reports its own run id and turn index |
| JudgeHandler.Judged | serverless/lambdas/judge/handler.py:96-108 | after scoring, a returned summary reports the job's run id and turn index |
| JudgeHandler.JudgeJobBadBundle | serverless/lambdas/judge/handler.py:74-78 | a missing bundle, or one with no string reply, fails the job and writes nothing to the table, the bucket or the bus |
| JudgeHandler.JudgeJobReadsBundle | serverless/lambdas/judge/handler.py:74-97 | with a readable bundle, the job continues with the heuristics and scores computed from its reply |
| JudgeHandler.JudgedWrites | serverless/lambdas/judge/handler.py:121-184 | the full judgement always reaches the bucket under the turn's judge key; the JUDGE row with the stored score is put exactly when that score converts, otherwise the table is unchanged and nothing is emitted; the summary carries the heuristics and the judgement's own overall score |
| JudgeHandler.JudgedEmits | serverless/lambdas/judge/handler.py:99-101 | run.judged goes out at most once per job, and exactly when the row was put and the completion check then holds |
| JudgeHandler.JudgeTurnJob | serverless/lambdas/judge/handler.py:61-108 | the table, bucket and bus end as JudgeJobSpec says and the queue is untouched; a summary reports the job's run and turn |
| JudgeHandler.HandleJudgeBatch | serverless/lambdas/judge/handler.py:36-58 | the table, the bucket and the emitted events become those of judging the jobs one after another, stopping at the first failure, which is re-raised before the remaining jobs; on success there is one summary per job, in job order, each for its job's run and turn |
| JudgeHandler.JudgeBatchOfOne | serverless/lambdas/judge/handler.py:44-54 | a batch of one job has exactly the effect of judging that job: the same rows, objects and events, and its summary or its error |
| JudgeHandler.JudgeBatchSummaries | serverless/lambdas/judge/handler.py:44-54 | a batch that succeeds reports one summary per job, in job order, each naming its job's run and turn |
| Models.ProviderPrefix | serverless/lib/socratic_bench/models.py:140-142 | with no "." in the id the provider is "unknown"; otherwise it is the dot-free part the id starts with, followed by "." |
| Models.FromDict | serverless/lib/socratic_bench/models.py:112-149 | the model id is kept; the provider comes from the capabilities entry, else from the data's "provider", else from the id's prefix; max_tokens and temperature default to 200 and 0.7 |
| Models.FromDictDefaults | serverless/lib/socratic_bench/models.py:130-149 | a bare model id with no capabilities entry gets its prefix as provider, 200 tokens and temperature 0.7 |
| Models.ParseProviderName | serverless/lib/socratic_bench/models.py:328-393 | a provider name selects a branch exactly when it is that provider's name |
| Models.BuildRequestBody | serverless/lib/socratic_bench/models.py:303-393 | a body is built exactly for the nine known providers (any other raises ValueError); each body carries the prompt, read back the way that provider expects it, and the configured token limit |
| Models.UnwrapMistral | serverless/lib/socratic_bench/models.py:344 | the Mistral [INST] wrapping can be removed again to give back the prompt |
| Models.ExtractText | serverless/lib/socratic_bench/models.py:395-446 | an unknown provider raises ValueError |
| Models.ExtractTextOfReply | serverless/lib/socratic_bench/models.py:395-446 | for every provider, a well-formed reply carrying a text reads back as that text, stripped |
| Models.ReadsReply | serverless/lib/socratic_bench/models.py:422-444 | every provider's branch finds the text where that provider's reply puts it |
| Models.ExtractTextDeepSeekNull | serverless/lib/socratic_bench/models.py:439-442 | a DeepSeek reply whose content is null reads as the empty text |
| Models.ExtractUsage | serverless/lib/socratic_bench/models.py:448-509 | meta, mistral, ai21 and any unknown provider report zero tokens |
| Models.ExtractUsageOfReply | serverless/lib/socratic_bench/models.py:476-509 | for every provider that reports usage, counts stored under its own field names read back as those counts |
| Models.UsageFromCounts | serverless/lib/socratic_bench/models.py:476-509 | two whole-number counts under two distinct field names read back unchanged |
| Models.Invoke | serverless/lib/socratic_bench/models.py:199-301 | the returned reply or raised error is InvokeSpec's, and the back-off sleeps are 2, 4, 8, … seconds, exactly one fewer than the attempts made (InvokeAttempts), and none when no attempt is made |
| Models.RetryLoop | serverless/lib/socratic_bench/models.py:245-301 | the loop's outcome is RetryFrom from attempt 0; the sleeps double from 2 and number fewer than max_retries |
| Models.AttemptsMade | serverless/lib/socratic_bench/models.py:245-301 | the loop from attempt k makes between 1 and max_retries - k attempts while k < max_retries, and none once k reaches it |
| Models.InvokeSpec | serverless/lib/socratic_bench/models.py:199-301 | specification of `invoke`: a body that cannot be built is the ValueError, otherwise the retry loop from attempt 0; SuccessIsFirstNonRetriedAttempt, AllClientErrorsReRaiseLast and RuntimeErrorIffNoAttempts state its outcomes |
| Models.AttemptsNeverExhaustAlone | serverless/lib/socratic_bench/models.py:246-293 | no single attempt ends the call with the loop's own RuntimeError |
| Models.NotExhaustedFrom | serverless/lib/socratic_bench/models.py:245-297 | once an attempt is made, the loop ends by a return or a raise inside it, never after it |
| Models.RuntimeErrorIffNoAttempts | serverless/lib/socratic_bench/models.py:245-301 | the RuntimeError after the loop is raised exactly when max_retries ≤ 0, so no attempt is made at all |
| Models.AllClientErrorsFrom | serverless/lib/socratic_bench/models.py:289-297 | when every attempt from k on hits a ClientError, the loop raises the last one |
| Models.AllClientErrorsReRaiseLast | serverless/lib/socratic_bench/models.py:289-293 | when every attempt hits a ClientError, invoke re-raises the last attempt's error |
| Models.SuccessFrom | serverless/lib/socratic_bench/models.py:245-297 | a successful loop from attempt k returns the reply of an attempt whose predecessors all hit a ClientError |
| Models.SuccessIsFirstNonRetriedAttempt | serverless/lib/socratic_bench/models.py:242-297 | a successful invoke built its body and returns the reply of an attempt within max_retries, every earlier attempt having hit a ClientError |
| EnvUtils.RequireEnv | serverless/lib/socratic_bench/env_utils.py:16-38 | succeeds exactly when the variable is set, with its value; otherwise raises the "is not set" error naming the variable |
| EnvUtils.GetEnv | serverless/lib/socratic_bench/env_utils.py:41-55 | the variable's value when set, the default otherwise |
| EnvUtils.EmptyValueIsSet | serverless/lib/socratic_bench/env_utils.py:32-38 | an empty value is returned, not treated as unset |
| EnvUtils.MissingExactly | serverless/lib/socratic_bench/env_utils.py:82-93 | the missing list holds every unset required name and no set name |
| EnvUtils.PresentExactly | serverless/lib/socratic_bench/env_utils.py:82-87 | the value map holds exactly the set required names, each with its value |
| EnvUtils.ValidateLambdaEnv | serverless/lib/socratic_bench/env_utils.py:58-95 | the loop returns the value map when nothing is missing, and otherwise raises the error listing the missing names in order |
| EnvUtils.ValidateSucceedsIff | serverless/lib/socratic_bench/env_utils.py:89-95 | validation succeeds exactly when every required name is set |
| EnvUtils.ValidateResult | serverless/lib/socratic_bench/env_utils.py:79-95 | after a successful validation the map's keys are exactly the required names, each with its value |
| EnvUtils.ValidateNothing | serverless/lib/socratic_bench/env_utils.py:79-95 | an empty list of names validates to an empty map |
| Dialogue.TurnCount | serverless/lib/socratic_bench/dialogue.py:102-141 | a dialogue that never fails plays no turn for a non-positive max_turns, otherwise at least one, at most one more than the canned replies, and never more than max_turns |
| Dialogue.Exchanges | serverless/lib/socratic_bench/dialogue.py:111-113 | the history holds two messages per played turn |
| Dialogue.FollowupMessagesReplayDialogue | serverless/lib/socratic_bench/dialogue.py:111-119 | the intended follow-up messages replay the dialogue: 2i+1 entries alternating student and tutor, entry 2j turn j's utterance, entry 2j+1 the tutor's reply to it, and last the new utterance |
| Dialogue.ExchangesReplay | serverless/lib/socratic_bench/dialogue.py:111-113 | in the intended history, roles alternate starting with the student, and each turn's utterance is followed by its own reply |
| Dialogue.AsWrittenHistory | serverless/lib/socratic_bench/dialogue.py:111-113 | the history as the code accumulates it also has two messages per turn, but pairs each reply with the next turn's utterance |
| Dialogue.AsWrittenLosesOpeningUtterance | serverless/lib/socratic_bench/dialogue.py:111-119 | as written, turn 1's follow-up messages are [new utterance, first reply, new utterance]; no student message is the opening utterance, so they differ from the intended replay |
| Dialogue.HistoryOf | serverless/lib/socratic_bench/dialogue.py:111-113 | the history a follow-up prompt sees holds two messages per earlier turn, in either style |
| Dialogue.FollowupOf | serverless/lib/socratic_bench/dialogue.py:114-118 | the follow-up messages are the as-written ones (`AsWrittenFollowupMessages`) for the as-written style and the intended replay (`FollowupMessages`) for the intended one |
| Dialogue.PromptAt | serverless/lib/socratic_bench/dialogue.py:102-118 | specification of the prompt a turn sends: the first-turn prompt on the opening utterance, then the follow-up prompt on FollowupOf; DialogueShape states what the replies to it are |
| Dialogue.DialogueSpec | serverless/lib/socratic_bench/dialogue.py:72-150 | specification of `run_dialogue`'s turns under a history style; DialogueShape, TotalsOfDialogue and StylesAgreeWithoutReplies state its properties |
| Dialogue.StylesAgreeWithoutReplies | serverless/lib/socratic_bench/dialogue.py:102-141 | with no canned replies (as the runner Lambda calls it) at most the first-turn prompt is sent, so the as-written and intended dialogues are equal |
| Dialogue.DialogueFromWellFormed | serverless/lib/socratic_bench/dialogue.py:102-141 | continuing from well-formed turns, a successful dialogue keeps those turns as its prefix and stays well-formed: each turn's reply is the model's answer to the prompt sent under the chosen history style, the as-written one included |
| Dialogue.DialogueShape | serverless/lib/socratic_bench/dialogue.py:102-141 | a successful dialogue has min(max_turns, replies + 1) turns (none for a non-positive limit), numbered 0..n-1; turn 0 answers the scenario prompt and turn i the i-th canned reply, each with the model's answer to the prompt that turn sends, under either history style: as written (`AsWrittenHistory`, what dialogue.py:111-118 sends) or intended |
| Dialogue.RunDialogue | serverless/lib/socratic_bench/dialogue.py:72-150 | the loop, which appends the current utterance (as written) or the previous turn's own utterance (intended) with the previous reply before each follow-up, succeeds exactly when DialogueSpec of the same style does, returns the first failed call's error otherwise, and on success returns the specified turns |
| Dialogue.TotalsAddUp | serverless/lib/socratic_bench/dialogue.py:58-69 | one more turn adds one to total_turns and its tokens to the token totals |
| Dialogue.TotalsOfDialogue | serverless/lib/socratic_bench/dialogue.py:58-141 | a successful dialogue's total_turns is its turn count, and its token totals are non-negative when every call reports non-negative usage |
| Runner.ConfigOf | serverless/lambdas/runner/handler.py:81-86 | the run's model configuration takes the job's model and provider, and its token limit and temperature default to 200 and 0.7 |
| Runner.Truncate | serverless/lambdas/runner/handler.py:192 | `int(latency_ms)` truncates toward zero, for negative as well as positive values |
| Runner.JudgeJobsFor | serverless/lambdas/runner/handler.py:103-105 | one judge job is queued per played turn |
| Runner.JudgeJobsForTurns | serverless/lambdas/runner/handler.py:103-105 | the i-th queued judge job names the run and the i-th turn's index |
| Runner.SavedTurnKeys | serverless/lambdas/runner/handler.py:184-198 | saving turns numbered 0..n-1 adds exactly the keys of their n TURN rows to the table |
| Runner.SavedTurnValue | serverless/lambdas/runner/handler.py:184-198 | each saved turn's TURN#nnn row is the row built from that turn |
| Runner.SavedTurnValues | serverless/lambdas/runner/handler.py:103-104 | every saved turn's row is the one built from it |
| Runner.SavedTurnsKeepOthers | serverless/lambdas/runner/handler.py:184-198 | rows under keys other than the saved turns' keys are untouched |
| Runner.SavedTurnRows | serverless/lambdas/runner/handler.py:184-198 | saving adds exactly the saved turns' keys to the run's TURN# rows |
| Runner.OneTurnRowPerTurn | serverless/lambdas/runner/handler.py:103-105 | a run with no TURN rows yet ends with exactly one TURN row per played turn, the count the judge's completion check compares against |
| Runner.MetaIsNoTurnRow | serverless/lambdas/runner/handler.py:126-188 | the run's META row and its TURN rows never share a key |
| Runner.TurnRowAgreesWithHeuristics | serverless/lambdas/runner/handler.py:195-196 | the TURN row's has_question equals the judge heuristic's, and its word count is 0 exactly when the heuristic's is, although the heuristic counts the stripped reply |
| Runner.FinalRunRow | serverless/lambdas/runner/handler.py:216-242 | after the status update the run row has the new status and turn count, keeps created_at and manifest_id, and has an error attribute exactly when an error was given |
| Runner.LambdaRunsPlayAtMostOneTurn | serverless/lambdas/runner/handler.py:95-100 | with no canned student replies, as the Lambda calls it, a successful dialogue has at most one turn, and exactly one when max_turns is positive |
| Runner.SaveTurn | serverless/lambdas/runner/handler.py:146-200 | the turn bundle is put under turn_nnn.json and the TURN#nnn row under the run; queue and events are untouched |
| Runner.SaveStep | serverless/lambdas/runner/handler.py:103-105 | one more iteration puts turn i's row, bundle and judge job after those of the turns before it |
| Runner.SaveAndEnqueueNext | serverless/lambdas/runner/handler.py:103-105 | after iteration i the table, bucket and queue hold the rows, bundles and judge jobs of turns 0..i |
| Runner.SaveAndEnqueue | serverless/lambdas/runner/handler.py:103-105 | after the loop the table, bucket and queue hold every played turn's row, bundle and judge job, in turn order; no event is sent |
| Runner.ProcessRun | serverless/lambdas/runner/handler.py:62-119 | a missing scenario raises before any write; otherwise the run row is put as "running"; a failed dialogue marks it "failed" with turn count 0 and the error and re-raises; a successful one saves and queues every turn and marks the run "completed" with its turn count |
| Planner.Take | serverless/lambdas/planner/handler.py:133 | the slice s[:n] has length min(len(s), n) and is a prefix of s |
| Planner.ManifestId | serverless/lambdas/planner/handler.py:125-137 | specification of `generate_manifest_id`: "M-", the date, "-" and the first 12 characters of the configuration's digest; ManifestIdInjective states that ids tell dates and digest prefixes apart |
| Planner.RunJobs | serverless/lambdas/planner/handler.py:190-223 | specification of `generate_run_jobs`: every model crossed with every scenario, model-major, or the first error; JobMatrix, JobAtCell and NoModelsNoJobs state its properties |
| Planner.ManifestIdInjective | serverless/lambdas/planner/handler.py:125-137 | with dates of one width, two manifest ids are equal exactly when their dates and their 12-digit hash prefixes are |
| Planner.ProviderOf | serverless/lambdas/planner/handler.py:204-205 | a string model id's provider is the part before its first "." when it has one, and "unknown" otherwise |
| Planner.BuildableAnyIds | serverless/lambdas/planner/handler.py:201-219 | whether a job can be built depends on the configuration, the model and the scenario, never on the manifest or run id |
| Planner.RowJobsLength | serverless/lambdas/planner/handler.py:199-220 | one model's row has one job per scenario |
| Planner.RowJobsShape | serverless/lambdas/planner/handler.py:199-220 | a model's row succeeds exactly when every one of its jobs can be built, and then holds them in scenario order |
| Planner.GridJobsLength | serverless/lambdas/planner/handler.py:198-220 | the first i models give i jobs per scenario |
| Planner.GridJobsOk | serverless/lambdas/planner/handler.py:198-220 | the first i models give jobs exactly when every job of theirs can be built |
| Planner.GridJobsCell | serverless/lambdas/planner/handler.py:198-220 | job number a times the number of scenarios plus c is built from model a and scenario c, so the jobs come out model-major |
| Planner.RowJobsErrStays | serverless/lambdas/planner/handler.py:198-220 | the first error in a model's row is the row's outcome, because later scenarios are never reached |
| Planner.GridJobsErrStays | serverless/lambdas/planner/handler.py:198-220 | the first error ends job generation, because later models are never reached |
| Planner.AppendModelJobs | serverless/lambdas/planner/handler.py:199-220 | the inner loop appends the model's row to the jobs so far, or fails with the row's first error |
| Planner.GenerateRunJobs | serverless/lambdas/planner/handler.py:190-223 | the nested loops compute exactly RunJobs: every model crossed with every scenario |
| Planner.JobMatrix | serverless/lambdas/planner/handler.py:190-223 | with at least one model, generation succeeds exactly when every (model, scenario) job can be built, and then yields models times scenarios jobs |
| Planner.JobAtCell | serverless/lambdas/planner/handler.py:201-219 | the job at a times the number of scenarios plus c has that position's run id, the manifest id, model a's model_id, scenario c's id, and the provider prefix of the model id |
| Planner.NoModelsNoJobs | serverless/lambdas/planner/handler.py:198 | with no models there are no jobs, whatever the scenarios are |
| Planner.BatchEnd | serverless/lambdas/planner/handler.py:236-237 | the batch starting at job i is non-empty, holds at most 10 jobs, and is full unless it is the last one |
| Planner.BatchesFromFlatten | serverless/lambdas/planner/handler.py:236-237 | the batches from job i on, put together, are jobs[i:] |
| Planner.BatchesFromSizes | serverless/lambdas/planner/handler.py:236-237 | every batch from job i on holds 1 to 10 jobs, and there are ⌈(n - i)/10⌉ of them |
| Planner.BatchesPartition | serverless/lambdas/planner/handler.py:234-237 | the batches are non-empty, hold at most 10 jobs each, number ⌈n/10⌉, and put together give back the jobs in order |
| Planner.SucceededAtMostJobs | serverless/lambdas/planner/handler.py:260-265 | with well-formed replies, the count returned equals the number of messages put on the queue and is at most the number of jobs |
| Planner.DeliveredAreJobs | serverless/lambdas/planner/handler.py:252-263 | every message put on the queue is one of the jobs |
| Planner.DialogueQueue.SendMessageBatch | serverless/lambdas/planner/handler.py:260-263 | the batch is recorded as sent and the entries listed as Successful join the queue |
| Planner.EnqueueJobs | serverless/lambdas/planner/handler.py:226-276 | the batches sent are the 10-job batches in order, the queue gains the delivered entries of each, a raising batch is skipped, and the count is the sum of the Successful counts |
| Planner.SaveManifest | serverless/lambdas/planner/handler.py:150-187 | the new table and bucket are exactly ManifestWrites of the old ones: an existing non-empty manifest row skips the save; otherwise (also when the read raised) the document goes to the bucket and then the row to the table, unless counting the models or scenarios raises first; a successful save leaves the row in place |
| Planner.ManifestWrites | serverless/lambdas/planner/handler.py:150-187 | with a readable existing manifest row nothing is written; otherwise the manifest document is stored under its object key with every other object kept, every other row is kept, and the manifest row is written exactly when it can be built |
| Planner.LoadConfig | serverless/lambdas/planner/handler.py:72-90 | without a stored configuration the defaults are used; a stored configuration loads exactly when its models and its scenarios can both be counted for the log line, and it is then the stored object itself |
| Planner.ConfigNotAnObject | serverless/lambdas/planner/handler.py:80-84 | a stored configuration that is not a JSON object fails to load (its `.get` raises) |
| Planner.ConfigCountWithoutLength | serverless/lambdas/planner/handler.py:80-84 | a "models" or "scenarios" entry that is null, a boolean or a number fails to load (its `len` raises) |
| Planner.DefaultConfigHasNoJobs | serverless/lambdas/planner/handler.py:93-122 | the default configuration lists its scenarios as bare strings, so reading scenario["id"] when the jobs are built raises and no job is generated |
| Planner.BareScenarioNoJobs | serverless/lambdas/planner/handler.py:198-215 | with at least one model, a bare-string first scenario makes job generation fail |
| Planner.Plan | serverless/lambdas/planner/handler.py:35-90 | a configuration that fails to load ends the run with its error and the table, bucket and queue unchanged; otherwise the table and bucket become ManifestWrites of the loaded configuration, and the run succeeds exactly when the save does not fail (the row was already there, or it could be built) and RunJobs succeeds, with the save's error, else the job error, when it fails; on success the jobs are RunJobs of it, the queue got exactly the batches and delivered entries, and the result reports the job count and the Successful count; an error after the save enqueues nothing; with no stored configuration the run fails |
| Api.ScenarioName | serverless/lambdas/api/handler.py:36-42 | the friendly name is one of the known names or the id itself |
| Api.BaseIdOfPieces | serverless/lambdas/api/handler.py:41 | with two or more dash-separated pieces, the base id is the first two joined by a dash |
| Api.BaseIdOfLong | serverless/lambdas/api/handler.py:41 | an id with at least two dashes has the text before its second dash as its base |
| Api.BaseIdPrefix | serverless/lambdas/api/handler.py:41 | the base id is a prefix of the id |
| Api.BaseIdDashes | serverless/lambdas/api/handler.py:41 | the base id holds at most one dash |
| Api.BaseIdShort | serverless/lambdas/api/handler.py:41 | an id with at most one dash is its own base |
| Api.ScenarioNameOfVariant | serverless/lambdas/api/handler.py:28-42 | a variant such as "APO-PHY-HEAT-TEMP-01" gets the name of the known scenario it extends |
| Api.VariantIsNotKnown | serverless/lambdas/api/handler.py:29-33 | a known id followed by a dash and more text is not itself a known id |
| Api.ScenarioNameFallback | serverless/lambdas/api/handler.py:38-42 | an unknown id whose base is unknown too comes back unchanged |
| Api.RouteOf | serverless/lambdas/api/handler.py:62-92 | the path reaches the 404 branch exactly when it is none of the six fixed paths and neither a /runs/…/summary nor a /runs/…/turns path |
| Api.RunPathsRoute | serverless/lambdas/api/handler.py:66-74 | the paths built for a run reach the run-summary and run-turns endpoints |
| Api.Clamp | serverless/lambdas/api/handler.py:197 | a slice bound resolved against the list length never exceeds the length |
| Api.PageLength | serverless/lambdas/api/handler.py:197 | a page holds at most limit turns, exactly limit while the turns last, and none past the end |
| Api.PagesConcatenate | serverless/lambdas/api/handler.py:197 | two consecutive pages are the page that spans both, so paging loses and repeats nothing |
| Api.PagesCover | serverless/lambdas/api/handler.py:197 | k pages of limit turns from offset 0 are the first k·limit turns in order |
| Api.TurnKeys | serverless/lambdas/api/handler.py:191-194 | the sort keys pair each turn row with its own turn_index, in order |
| Api.TurnItemsAreTurns | serverless/lambdas/api/handler.py:192 | the filter keeps exactly the queried rows whose SK starts with "TURN#" |
| Api.SliceSorted | serverless/lambdas/api/handler.py:191-197 | a slice of a sorted list is sorted |
| Api.SliceWithin | serverless/lambdas/api/handler.py:197 | every element of a slice is an element of the list |
| Api.TurnsPageTotal | serverless/lambdas/api/handler.py:228 | the total reported is the number of TURN rows the query returned |
| Api.TurnsPageSorted | serverless/lambdas/api/handler.py:191-197 | the page is ordered by turn index |
| Api.TurnsPageRows | serverless/lambdas/api/handler.py:191-197 | every row on the page is a TURN row the query returned |
| Api.GetRunTurns | serverless/lambdas/api/handler.py:171-234 | no run id gives 400; rows that cannot be read or ordered give 500; with the handler's plain `json.dumps` (:596-605), a page whose headers carry a number read from the table (a Decimal) is also a 500, with the TypeError's message; otherwise, and always with a Decimal-aware encoder, 200 with the total number of TURN rows and one header per turn on the page |
| Api.StandardEncoderFailsOnTurns | serverless/lambdas/api/handler.py:191-234 | with plain `json.dumps`, every non-empty page of a run with two or more turns is a 500 "Object of type Decimal is not JSON serializable", and the Decimal-aware encoder answers 200 for the same request |
| Api.RunnerTurnFailsToList | serverless/lambdas/api/handler.py:183-234 | the TURN row the runner writes (runner/handler.py:184-198), listed with the default offset and limit, is a 500 with plain `json.dumps` and a 200 with the Decimal-aware encoder |
| Api.IntParam | serverless/lambdas/api/handler.py:72-73 | a missing parameter takes its default; a present one is accepted exactly when it parses as an integer |
| Api.TurnsEndpoint | serverless/lambdas/api/handler.py:70-96 | the turns endpoint answers 200, 400 or 500; a bad offset is a 500 with int()'s message; parsed parameters go to get_run_turns with the same encoder |
| Api.LambdaHandler | serverless/lambdas/api/handler.py:45-96 | an event without httpMethod or path raises before the try; a non-GET gets 405; an unknown path 404; the turns path gets the turns endpoint with plain `json.dumps`; the model-comparison path gets that endpoint's response |
| Api.TurnsWithoutRunId | serverless/lambdas/api/handler.py:178-179 | a turns request without a run id gets 400 whenever its paging parameters parse |
| Api.HandlerStatus | serverless/lambdas/api/handler.py:58-96 | every request that reaches the try gets 200, 400, 404, 405 or 500 |
| ModelComparison.ReplaceAbsent | serverless/lambdas/api/handler.py:444 | replacing text that does not occur leaves the string unchanged |
| ModelComparison.RunIdFromPk | serverless/lambdas/api/handler.py:444 | the run id is recovered from its RUN# partition key when the id does not itself contain "RUN#" |
| ModelComparison.LoadJudgeScores | serverless/lambdas/api/handler.py:459-475 | a run's judge metrics load only from a dict stored under its judge_000.json key |
| ModelComparison.Classify | serverless/lambdas/api/handler.py:443-448 | a counted run has a truthy, hashable model id and a non-empty run id, and its overall score (if any) converts |
| ModelComparison.IndexOfModel | serverless/lambdas/api/handler.py:450 | a model's entry, when found, is at an index holding that model; when not found no entry holds it |
| ModelComparison.StepWellFormed | serverless/lambdas/api/handler.py:442-479 | one pass of the first loop keeps one token count per counted run, no more questions than runs, and one entry per model |
| ModelComparison.AggregateWellFormed | serverless/lambdas/api/handler.py:440-479 | the first loop keeps its lists in step with its counters and gives every model one entry |
| ModelComparison.TotalRunsUpdate | serverless/lambdas/api/handler.py:473 | replacing one model's entry changes the run total by the difference of the two entries' run counts |
| ModelComparison.StepRuns | serverless/lambdas/api/handler.py:442-479 | one pass adds one to the run total exactly when the item is judged (not skipped, and its judge record loads) |
| ModelComparison.AggregateCountsJudgedRuns | serverless/lambdas/api/handler.py:440-479 | the runs the models end with are exactly the judged runs among the items: skipped and unreadable runs are left out and none is counted twice |
| ModelComparison.SkippedRunsIgnored | serverless/lambdas/api/handler.py:447-448 | failed runs (overall below 0.01) and runs without a model or run id leave the aggregate as it was |
| ModelComparison.Conciseness | serverless/lambdas/api/handler.py:489-496 | conciseness lies in [0, 10] |
| ModelComparison.ConcisenessIdealBand | serverless/lambdas/api/handler.py:490-493 | conciseness is 10 exactly for a mean of 40 to 100 tokens |
| ModelComparison.ConcisenessNonIncreasing | serverless/lambdas/api/handler.py:492-496 | from 40 tokens on, more tokens never score higher |
| ModelComparison.ConcisenessZero | serverless/lambdas/api/handler.py:494-496 | conciseness is 0 exactly from 300 tokens on |
| ModelComparison.RowsInRange | serverless/lambdas/api/handler.py:482-517 | every reported model has at least one run, and its conciseness and question rate lie in [0, 10] |
| ModelComparison.RankedOrder | serverless/lambdas/api/handler.py:519-521 | the ranking holds the same rows, best overall first, and its head, the winner, scores at least as well as every model |
| ModelComparison.RowsAtMostRuns | serverless/lambdas/api/handler.py:482-517 | the second loop reports a model only when it has a run, so there are no more rows than runs in the aggregate |
| ModelComparison.Comparison | serverless/lambdas/api/handler.py:434-522 | specification of the ranked comparison or the error that becomes a 500; ComparisonMeaning and ComparisonStatus state its properties |
| ModelComparison.ComparisonMeaning | serverless/lambdas/api/handler.py:434-522 | a successful comparison is ranked best first, every model is in range, and there are no more models than judged runs |
| ModelComparison.ComparisonStatus | serverless/lambdas/api/handler.py:434-524 | the endpoint answers 200 exactly when the comparison succeeds and 500 otherwise |
| ModelComparison.GetModelComparison | serverless/lambdas/api/handler.py:424-524 | the handler's two loops and its ranking produce exactly the specified response |
| OldUtils.ParsePk | archive/lambdas-old/shared/utils.py:49-60 | the type has no '#'; a key without '#' is all type with an empty id; otherwise the key is type, '#', id |
| OldUtils.BuildPkSk | archive/lambdas-old/shared/utils.py:33-46 | specification of `build_pk_sk`: the key `TYPE#id` with the sort key, METADATA by default; ParseBuiltKey and BuildParsedKey state the round trip |
| OldUtils.S3Key | archive/lambdas-old/shared/utils.py:68-70 | specification of `s3_key`: the parts joined by '/'; S3KeySplits states the round trip |
| OldUtils.TruncateText | archive/lambdas-old/shared/utils.py:73-77 | specification of `truncate_text` with its default of 280; TruncateMeaning and TruncateBelowThree state its behaviour |
| OldUtils.ParseBuiltKey | archive/lambdas-old/shared/utils.py:33-60 | parsing a built partition key gives back the type and id, even when the id holds a '#'; the sort key defaults to METADATA |
| OldUtils.BuildParsedKey | archive/lambdas-old/shared/utils.py:33-60 | every key holding a '#' is rebuilt exactly from its parsed type and id |
| OldUtils.S3Path | archive/lambdas-old/shared/utils.py:63-65 | the path is "s3://", the bucket and "/", followed by the object key |
| OldUtils.S3KeySplits | archive/lambdas-old/shared/utils.py:68-70 | splitting a key at '/' gives back its parts when no part holds a '/' |
| OldUtils.Head | archive/lambdas-old/shared/utils.py:77 | Python's prefix slice: a negative stop counts from the end, and the length is clamped to the string |
| OldUtils.TruncateMeaning | archive/lambdas-old/shared/utils.py:73-77 | text within the limit is unchanged; longer text is cut to exactly the limit, keeps its head and ends in "..." |
| OldUtils.TruncateBelowThree | archive/lambdas-old/shared/utils.py:73-77 | with a limit below 3 the result can be longer than the limit |
| Phase3Schemas.PhaseValue | archive/phase3-batch-architecture/schemas/models.py:25-31 | every phase's value is "P" followed by one character |
| Phase3Schemas.WeightedScore | archive/phase3-batch-architecture/schemas/models.py:81-84 | the 0.2/0.3/0.5 weighted score of parts on the 0-10 scale stays on that scale |
| Phase3Schemas.WeightedScoreIsAverage | archive/phase3-batch-architecture/schemas/models.py:81-84 | the weights sum to one (equal parts give that part back), and raising any part never lowers the score |
| Phase3Schemas.CsdOverall | archive/phase3-batch-architecture/schemas/models.py:164-175 | the weighted CSD score of valid subscores stays on the 0-10 scale |
| Phase3Schemas.CsdOverallUniform | archive/phase3-batch-architecture/schemas/models.py:164-175 | the eight CSD weights sum to one: eight equal subscores give that score back |
| Phase3Schemas.TurnScore | archive/phase3-batch-architecture/schemas/models.py:226-236 | the turn score of a valid turn stays on the 0-10 scale |
| Phase3Schemas.TurnScoreGate | archive/phase3-batch-architecture/schemas/models.py:226-236 | without CSD the score is the judge's (else the heuristic's); below 7 the CSD score can only lower it; from 7 on it is the mean of the two |
| Phase3Schemas.ExtendNewMeaning | archive/phase3-batch-architecture/schemas/models.py:242-244 | extending keeps the list in front, holds exactly the old and the new violations, and adds no duplicate |
| Phase3Schemas.TurnViolationsMeaning | archive/phase3-batch-architecture/schemas/models.py:240-245 | a turn lists its heuristic violations first, then exactly the judge's violations it lacked, and nothing else |
| Phase3Schemas.ContentHashIgnoresOrder | archive/phase3-batch-architecture/schemas/models.py:358-372 | the content hash does not depend on the order of the models or the temperatures |
| Phase3Schemas.ValidateManifestId | archive/phase3-batch-architecture/schemas/models.py:337-381 | an accepted manifest id is returned unchanged and starts with "manifest_" |
| Phase3Schemas.PatternImpliesPrefix | archive/phase3-batch-architecture/schemas/models.py:337-381 | every id the field pattern admits starts with "manifest_", so the validator's own check never fails |
| Phase3Schemas.ValidateManifestIdIff | archive/phase3-batch-architecture/schemas/models.py:337-381 | ids are accepted exactly when they match "manifest_", 8 digits, "_", 8 lower-case hex digits |
| Phase3Schemas.ManifestIdFromParts | archive/phase3-batch-architecture/schemas/models.py:337 | every id built from an 8-digit date and an 8-digit hex hash is accepted |
| Phase3Schemas.DurationMinutes | archive/phase3-batch-architecture/schemas/models.py:321-324 | the duration in minutes times 60 is the duration in seconds |
| Phase3Schemas.Field | archive/phase3-batch-architecture/schemas/models.py:449-454 | reading one score from every expert fails exactly when some expert lacks it, and otherwise gives that expert's value, in order |
| Phase3Schemas.FieldWithin | archive/phase3-batch-architecture/schemas/models.py:449-454 | every value read for one score is within the bounds every expert keeps |
| Phase3Schemas.FieldMeanWithin | archive/phase3-batch-architecture/schemas/models.py:449-454 | the mean of one score over the experts lies within those bounds |
| Phase3Schemas.ConsensusWithin | archive/phase3-batch-architecture/schemas/models.py:443-455 | when every expert scores within [lo, hi], so do the three consensus scores |
| DialogueRunner.ScoreReply | archive/phase3-batch-architecture/runners/dialogue_runner.py:202-274 | the rule-based scorer, run rule after rule, returns exactly the specified heuristic result |
| DialogueRunner.HeuristicForm | archive/phase3-batch-architecture/runners/dialogue_runner.py:214-223 | form is 9 exactly for one question mark and 3 exactly for none; a closed question is flagged exactly when there is none, a multi-question exactly when there are several |
| DialogueRunner.HeuristicPurity | archive/phase3-batch-architecture/runners/dialogue_runner.py:225-240 | directive language (any listed phrase, case-insensitively) drops purity from 9 to 4 and is flagged as advice leakage, and only then |
| DialogueRunner.HeuristicSubstance | archive/phase3-batch-architecture/runners/dialogue_runner.py:242-251 | replies under 20 characters score 5, longer ones 8.5 with a question word and 7 without |
| DialogueRunner.HeuristicMeta | archive/phase3-batch-architecture/runners/dialogue_runner.py:253-258 | a meta violation is flagged exactly on every eighth turn whose reply has no meta word |
| DialogueRunner.HeuristicConfidence | archive/phase3-batch-architecture/runners/dialogue_runner.py:260-266 | confidence is 0.9 with violations and 0.85 without: the 0.6 branch can never be reached |
| DialogueRunner.HeuristicValidAlways | archive/phase3-batch-architecture/runners/dialogue_runner.py:202-274 | every rule-based result meets the result type's field bounds and flags at most three violations |
| DialogueRunner.UserResponse | archive/phase3-batch-architecture/runners/dialogue_runner.py:276-289 | the student's line is one of the six scripted lines |
| DialogueRunner.UserResponsePeriodic | archive/phase3-batch-architecture/runners/dialogue_runner.py:276-289 | the scripted lines repeat every six turns |
| DialogueRunner.ObjectKeyMeaning | archive/phase3-batch-architecture/runners/dialogue_runner.py:291-294 | the object key depends only on the date part of the timestamp, is a raw/dt= key ending in .jsonl, and tells runs apart by their id |
| DialogueRunner.LoadSeed | archive/phase3-batch-architecture/runners/dialogue_runner.py:89-97 | the loader returns a seed with the requested id whose opening message fits the 10000-character field |
| DialogueRunner.SimulateNext | archive/phase3-batch-architecture/runners/dialogue_runner.py:139-190 | turn n is one step from where turn n - 1 left the dialogue |
| DialogueRunner.SimulateStops | archive/phase3-batch-architecture/runners/dialogue_runner.py:149-153 | once a turn fails, later turns change nothing |
| DialogueRunner.StepGoing | archive/phase3-batch-architecture/runners/dialogue_runner.py:142-190 | a successful turn adds the reply's tokens to the window, records one turn with the student's message and the reply's score, and extends the conversation by the reply and the message the policy sends, while the policy's recorded message becomes the next turn's message |
| DialogueRunner.SimulateRecords | archive/phase3-batch-architecture/runners/dialogue_runner.py:139-190 | while the dialogue goes on, one turn is recorded per round, numbered from 1, each scored by the rules, with a running token total that never falls |
| DialogueRunner.SimulateHistory | archive/phase3-batch-architecture/runners/dialogue_runner.py:132-190 | for a policy that sends what it records, the conversation is the system prompt followed by each recorded student message and reply in order, ending with the next student message |
| DialogueRunner.Runner.constructor | archive/phase3-batch-architecture/runners/dialogue_runner.py:29-65 | a new runner holds the loaded seed, no turns, and either the as-written policy (the scripted line is sent, the pressure-suffixed line recorded) with the hard-coded placeholder version tags (AsWrittenTags), or the corrected policy with the configuration's own tags |
| DialogueRunner.Runner.WriteTurns | archive/phase3-batch-architecture/runners/dialogue_runner.py:296-311 | the turns so far replace the run's object under its key, and nothing else changes |
| DialogueRunner.Runner.PlayTurn | archive/phase3-batch-architecture/runners/dialogue_runner.py:142-190 | one pass of the loop: the runner's state becomes the specified step under its policy, the conversation gaining the message the policy sends, and a model error writes the turns so far |
| DialogueRunner.Runner.Run | archive/phase3-batch-architecture/runners/dialogue_runner.py:116-200 | the loop plays the specified simulation of up to max_turns turns; a model error writes what was recorded and re-raises, a record that fails validation raises with nothing written, otherwise all turns are written and summarised |
| DialogueRunner.UserMessagesFit | archive/phase3-batch-architecture/runners/dialogue_runner.py:276-289 | every scripted student line, with or without the pressure line, fits the 10000-character field |
| DialogueRunner.UserMessageBefore | archive/phase3-batch-architecture/runners/dialogue_runner.py:136-190 | when the opening and every scripted answer fit the 10000-character field, so does the student message of every turn |
| DialogueRunner.RunCompletes | archive/phase3-batch-architecture/runners/dialogue_runner.py:139-180 | with real version tags, a run of at most 200 turns against an answering model records every turn, whichever message is sent to the model |
| DialogueRunner.AsWrittenPressureUnsent | archive/phase3-batch-architecture/runners/dialogue_runner.py:183-190 | as written, after a pressure turn (a positive multiple of 5 in phases P2 and P3) the conversation ends with the scripted line while the message recorded for the next turn is that line with the pressure text added, and the two differ |
| DialogueRunner.PressureReachesModel | archive/phase3-batch-architecture/runners/dialogue_runner.py:183-190 | with the pressure text added before the message joins the conversation, the message the model is sent on a pressure turn is the one the next turn records, pressure included |
| DialogueRunner.AsWrittenRunRejected | archive/phase3-batch-architecture/runners/dialogue_runner.py:162-178 | as written, the hard-coded "sha256:placeholder" version tags fail the record's 64-hex-digit pattern, so the first turn's record is rejected and no run records a turn |
| DialogueRunner.AsWrittenTags | archive/phase3-batch-architecture/runners/dialogue_runner.py:112-167 | the as-written runner's settings carry the placeholder system-prompt and rubric tags, neither a valid version tag, and keep the run, phase, model and seed |
| DialogueRunner.AsWrittenRunnerRecordsNothing | archive/phase3-batch-architecture/runners/dialogue_runner.py:162-178 | a runner built as written, with its own tags and policy, records no turn once the model answers: its first record is rejected |
| GenerateScenarios.PreviousQa | phase1-model-selection/generate_scenarios.py:139-144 | the previous exchanges are a prefix of the segment's sample, and with two samples the n-th question carries n - 1 of them |
| GenerateScenarios.IndexDecomposes | phase1-model-selection/generate_scenarios.py:136-138 | the position of a profile, segment and question inside the tables is inside the list and gives that triple back |
| GenerateScenarios.IndexCovers | phase1-model-selection/generate_scenarios.py:136-138 | every position below the total is the position of a triple inside the tables |
| GenerateScenarios.IndexInRange | phase1-model-selection/generate_scenarios.py:136-138 | every position below the total names a profile and a segment inside the tables |
| GenerateScenarios.ScenarioAtTriple | phase1-model-selection/generate_scenarios.py:136-152 | the scenario for a profile, a segment and a question number sits at that triple's position and holds that profile, segment and number |
| GenerateScenarios.AllScenarios | phase1-model-selection/generate_scenarios.py:130-157 | there are profiles x segments x 3 scenarios, the scenario at each position being the one its triple gives |
| GenerateScenarios.Generate | phase1-model-selection/generate_scenarios.py:130-157 | the three nested loops append exactly all the scenarios, in profile, segment, question order |
| GenerateScenarios.FixedTables | phase1-model-selection/generate_scenarios.py:17-128 | the study's tables hold ten profiles and four segments, each segment with two sample exchanges |
| GenerateScenarios.ScenarioIds | phase1-model-selection/generate_scenarios.py:134-155 | each scenario is numbered one past its position, as a zero-padded three-digit id below 1000, and distinct positions get distinct ids |
| GenerateScenarios.PreviousQaCount | phase1-model-selection/generate_scenarios.py:138-151 | the scenario for the n-th question carries the first n - 1 sample exchanges of its segment |
| GenerateScenarios.GenerateTestScenarios | phase1-model-selection/generate_scenarios.py:130-157 | over the study's tables the generator produces 10 x 4 x 3 = 120 scenarios, each the one its position gives |
| BedrockUtils.InferenceProfileId | phase1-model-selection/socratic_eval/bedrock_utils.py:66-114 | a listed model is called through its "us." profile, any other id as it is |
| BedrockUtils.ListedIdsDoNotStartWithU | phase1-model-selection/socratic_eval/bedrock_utils.py:72-109 | no listed id is empty or starts with 'u', so no profile id is itself listed |
| BedrockUtils.InferenceProfileIdIdempotent | phase1-model-selection/socratic_eval/bedrock_utils.py:66-114 | mapping an id twice gives the same as mapping it once |
| BedrockUtils.FirstRoute | phase1-model-selection/socratic_eval/bedrock_utils.py:44-61 | the branch taken is the first whose provider name occurs in the id, and none is taken exactly when no name occurs |
| BedrockUtils.Dispatch | phase1-model-selection/socratic_eval/bedrock_utils.py:43-63 | a provider is chosen exactly when one of the nine providers' names occurs in the id, it is the first in the source's order, and otherwise the call raises ValueError naming the id |
| BedrockUtils.CallBedrockModel | phase1-model-selection/socratic_eval/bedrock_utils.py:22-63 | the provider is chosen from the id as given and is called with the inference profile id; an unknown provider is the ValueError |
| BedrockUtils.AnthropicComesFirst | phase1-model-selection/socratic_eval/bedrock_utils.py:44-45 | any id naming Anthropic goes to the Anthropic reader, whatever else it names |
| BedrockUtils.NovaGoesToAmazon | phase1-model-selection/socratic_eval/bedrock_utils.py:50-51 | an id naming Nova goes to the Amazon reader unless Anthropic, Meta or Mistral is named in it |
| BedrockUtils.ListedModelCall | phase1-model-selection/socratic_eval/bedrock_utils.py:40-45 | a listed Anthropic model is called through its "us." profile id |
| ContextExpanderModel.EstimateTokens | phase1-model-selection/socratic_eval/context_growth/context_expander.py:40-46 | the estimate is the number of whole four-character blocks in the text |
| ContextExpanderModel.PromptParts | phase1-model-selection/socratic_eval/context_growth/context_expander.py:109-116 | the prompt's parts start with the system prompt |
| ContextExpanderModel.NewTurn | phase1-model-selection/socratic_eval/context_growth/context_expander.py:67-95 | specification of the entry `add_turn` appends; AddTurnMeaning and PiledTextEndsWithMessage state its user text |
| ContextExpanderModel.Prompt | phase1-model-selection/socratic_eval/context_growth/context_expander.py:97-118 | specification of `build_prompt`: the parts joined by newlines; PromptWithoutHistory and PromptExtends state its properties |
| ContextExpanderModel.ContextExpander.constructor | phase1-model-selection/socratic_eval/context_growth/context_expander.py:25-38 | a new expander keeps its strategy and starts with no history and no distractors |
| ContextExpanderModel.ContextExpander.AddTurn | phase1-model-selection/socratic_eval/context_growth/context_expander.py:67-95 | the history grows by exactly the new turn, and the distractor list grows only when distractors pile up |
| ContextExpanderModel.ContextExpander.GetCurrentContextSize | phase1-model-selection/socratic_eval/context_growth/context_expander.py:48-65 | the two loops compute the specified context size: the system texts' estimates plus the user and assistant texts' estimates |
| ContextExpanderModel.ContextExpander.BuildPrompt | phase1-model-selection/socratic_eval/context_growth/context_expander.py:97-118 | the loop builds the specified prompt |
| ContextExpanderModel.ContextExpander.GetContextStats | phase1-model-selection/socratic_eval/context_growth/context_expander.py:120-128 | the stats report the number of turns, the context size, the number of distractors and the strategy |
| ContextExpanderModel.AddTurnMeaning | phase1-model-selection/socratic_eval/context_growth/context_expander.py:82-95 | with the cumulative strategy and a non-empty distractor, the list grows by that distractor and the user text is every distractor then the message, joined by blank lines; otherwise list and message stay as they are; the reply is recorded exactly when it is non-empty |
| ContextExpanderModel.PiledTextEndsWithMessage | phase1-model-selection/socratic_eval/context_growth/context_expander.py:86 | the piled-up user text is the joined distractors, a blank line, then the message |
| ContextExpanderModel.ContextGrowsByTurn | phase1-model-selection/socratic_eval/context_growth/context_expander.py:48-65 | a new turn adds exactly its own fields' estimates to the context size |
| ContextExpanderModel.PromptWithoutHistory | phase1-model-selection/socratic_eval/context_growth/context_expander.py:109-118 | without the history the prompt is the system prompt alone |
| ContextExpanderModel.PromptExtends | phase1-model-selection/socratic_eval/context_growth/context_expander.py:109-118 | a turn with a user message and a reply extends the prompt by exactly its "User:" and "Assistant:" pieces |
| DispositionRubric.AnyContainsIff | phase1-model-selection/socratic_eval/context_growth/disposition_rubric.py:118-121 | the scan reports a phrase exactly when one of the phrases occurs in the text |
| DispositionRubric.OneSentence | phase1-model-selection/socratic_eval/context_growth/disposition_rubric.py:103-131 | a text without '.' gives advice or information exactly when it holds an advisory phrase or is one long statement |
| DispositionRubric.QuestionIsNotAdvice | phase1-model-selection/socratic_eval/context_growth/disposition_rubric.py:103-131 | a single question without an advisory phrase carries no advice or information |
| DispositionRubric.StatementIsInfo | phase1-model-selection/socratic_eval/context_growth/disposition_rubric.py:123-129 | a single statement of more than 20 characters not ending in '?' counts as information |
| DispositionRubric.PhraseIssues | phase1-model-selection/socratic_eval/context_growth/disposition_rubric.py:139-141 | at most one issue per leading phrase, and none exactly when no leading phrase occurs |
| DispositionRubric.LeadingIssues | phase1-model-selection/socratic_eval/context_growth/disposition_rubric.py:134-153 | at most one issue per leading phrase plus two, and none exactly when no leading phrase, value judgment or embedded answer occurs |
| DispositionRubric.FormPoints | phase1-model-selection/socratic_eval/context_growth/disposition_rubric.py:226-232 | a reply earns at most one point per form criterion |
| DispositionRubric.IntentHits | phase1-model-selection/socratic_eval/context_growth/disposition_rubric.py:245-257 | a reply earns at most one point per intent category |
| DispositionRubric.ScoreForm | phase1-model-selection/socratic_eval/context_growth/disposition_rubric.py:225-239 | the loop over the form criteria and the purity override compute the specified form score and purity verdict |
| DispositionRubric.ScoreIntent | phase1-model-selection/socratic_eval/context_growth/disposition_rubric.py:241-262 | the loop over the intent categories, stopping at a category's first matching pattern, and the yes/no penalty compute the specified intent score |
| DispositionRubric.ScoreGroundedness | phase1-model-selection/socratic_eval/context_growth/disposition_rubric.py:264-295 | the groundedness steps compute the specified score |
| DispositionRubric.EvaluateWithRules | phase1-model-selection/socratic_eval/context_growth/disposition_rubric.py:210-348 | the rule-based evaluation returns exactly the specified four scores, their flags and their sum |
| DispositionRubric.Rules | phase1-model-selection/socratic_eval/context_growth/disposition_rubric.py:210-348 | specification of `_evaluate_with_rules`: the four scores, their flags and their sum; FormMeaning, IntentMeaning, GroundednessMeaning, NonLeadingMeaning and TotalMeaning state what each part means |
| DispositionRubric.FormPointsCount | phase1-model-selection/socratic_eval/context_growth/disposition_rubric.py:38-54 | the form score before the override is one point for each of: ends with '?', a single '?', nothing declarative |
| DispositionRubric.FormMeaning | phase1-model-selection/socratic_eval/context_growth/disposition_rubric.py:225-239 | form lies in 0..3, is 0 exactly when the reply gives advice or information, and is 3 exactly for one '?', at the end, with nothing declarative |
| DispositionRubric.FlagsMeaning | phase1-model-selection/socratic_eval/context_growth/disposition_rubric.py:234-308 | the purity flag leads exactly when raised, the closed-question flag is present exactly when raised, and the leading issues close the list |
| DispositionRubric.LeadingIssuesAreNotPurity | phase1-model-selection/socratic_eval/context_growth/disposition_rubric.py:134-153 | the leading-language issues never include the purity or closed-question flags |
| DispositionRubric.PhraseIssuesShape | phase1-model-selection/socratic_eval/context_growth/disposition_rubric.py:139-141 | every phrase issue is a leading-phrase flag |
| DispositionRubric.PurityFlagged | phase1-model-selection/socratic_eval/context_growth/disposition_rubric.py:234-239 | the reply is flagged for purity exactly when it gives advice or information, and that flag comes first |
| DispositionRubric.IntentHitsCount | phase1-model-selection/socratic_eval/context_growth/disposition_rubric.py:56-89 | the intent points are one for each of the definition, assumption and consequence categories that some pattern matches |
| DispositionRubric.IntentMeaning | phase1-model-selection/socratic_eval/context_growth/disposition_rubric.py:241-262 | intent lies in 0..3: one point per matching category, less one (never below 0) for a yes/no opener, which is flagged exactly then |
| DispositionRubric.GroundednessMeaning | phase1-model-selection/socratic_eval/context_growth/disposition_rubric.py:264-295 | groundedness lies in 0..2, is 0 without a user message, and for a reply of more than 30 characters is 2 with a reference to the user and 1 without |
| DispositionRubric.NonLeadingMeaning | phase1-model-selection/socratic_eval/context_growth/disposition_rubric.py:297-309 | non-leadingness is 2 or 0, is 0 exactly when leading issues are found, and those issues close the flags |
| DispositionRubric.TotalMeaning | phase1-model-selection/socratic_eval/context_growth/disposition_rubric.py:311-317 | the total is the sum of the four parts and lies in 0..10 |
| DispositionRubric.FormInRange | phase1-model-selection/socratic_eval/context_growth/disposition_rubric.py:225-239 | the form score lies in 0..3 |
| DispositionRubric.IntentInRange | phase1-model-selection/socratic_eval/context_growth/disposition_rubric.py:241-262 | the intent score lies in 0..3 |
| AnswerEvaluator.ReadEvaluation | phase1-model-selection/socratic_eval/context_growth/socratic_answer_evaluator.py:144-148 | the evaluation is read exactly when the reply parses to an object holding the three fields and the directional score converts, and then holds those fields' values |
| AnswerEvaluator.JudgeAnswer | phase1-model-selection/socratic_eval/context_growth/socratic_answer_evaluator.py:134-155 | specification of the judge call with its fallback: the reply, unfenced, read as the three fields, or on any exception the fallback values; FencedReplyParsed, UnfencedUnchanged and FailedJudgeFallsBack state its properties |
| AnswerEvaluator.Evaluate | phase1-model-selection/socratic_eval/context_growth/socratic_answer_evaluator.py:108-179 | specification of `evaluate_socratic_answer`: the verdict, the verbosity and question-ending scores and their weighted composite; EvaluateRaisesOnlyOnZeroThreshold, CompositeInRange and PerfectAnswer state its properties |
| AnswerEvaluator.Fallback | phase1-model-selection/socratic_eval/context_growth/socratic_answer_evaluator.py:150-155 | a failed judge call gives a false verdict, directional 0.5, and an explanation starting "AI evaluation failed: " |
| AnswerEvaluator.VerbosityScore | phase1-model-selection/socratic_eval/context_growth/socratic_answer_evaluator.py:157-159 | the verbosity score fails exactly for a zero threshold (the uncaught division by zero) and is otherwise never negative |
| AnswerEvaluator.QuestionEndingScore | phase1-model-selection/socratic_eval/context_growth/socratic_answer_evaluator.py:161-162 | the question-ending score is 1 exactly when the verdict is truthy, and 0 otherwise |
| AnswerEvaluator.DefaultWeightsSumToOne | phase1-model-selection/socratic_eval/context_growth/socratic_answer_evaluator.py:108-115 | the default weights 0.50, 0.35 and 0.15 add up to one |
| AnswerEvaluator.VerbosityMeaning | phase1-model-selection/socratic_eval/context_growth/socratic_answer_evaluator.py:157-159 | with a positive threshold the verbosity score lies in [0, 1], is 1 exactly for an empty answer and 0 exactly from the threshold on |
| AnswerEvaluator.VerbosityMonotone | phase1-model-selection/socratic_eval/context_growth/socratic_answer_evaluator.py:157-159 | a longer answer never scores better on verbosity |
| AnswerEvaluator.CompositeInRange | phase1-model-selection/socratic_eval/context_growth/socratic_answer_evaluator.py:164-169 | under the default weights a directional score in [0, 1] keeps the composite in [0, 1] |
| AnswerEvaluator.FailedJudgeFallsBack | phase1-model-selection/socratic_eval/context_growth/socratic_answer_evaluator.py:131-169 | when the judge call fails the evaluation still succeeds, with a false verdict, directional 0.5, question-ending 0 and a composite of 0.25 plus the weighted verbosity |
| AnswerEvaluator.EvaluateRaisesOnlyOnZeroThreshold | phase1-model-selection/socratic_eval/context_growth/socratic_answer_evaluator.py:108-179 | the evaluation raises exactly when the threshold is zero; a failing judge never makes it raise |
| AnswerEvaluator.FencedReplyParsed | phase1-model-selection/socratic_eval/context_growth/socratic_answer_evaluator.py:138-144 | a reply fenced as a json code block is parsed from the block's body |
| AnswerEvaluator.UnfencedUnchanged | phase1-model-selection/socratic_eval/context_growth/socratic_answer_evaluator.py:138-142 | a reply that does not start with a backtick is left as it is |
| AnswerEvaluator.PerfectAnswer | phase1-model-selection/socratic_eval/context_growth/socratic_answer_evaluator.py:157-169 | an empty answer judged fully Socratic and ending with a question scores the full 1.0 |
| GrowthScorer.Clamp | phase1-model-selection/socratic_eval/context_growth/scorer.py:147 | the clamped value lies in 0..10 and a value already in 0..10 is unchanged |
| GrowthScorer.RubricScoresValid | phase1-model-selection/socratic_eval/context_growth/disposition_rubric.py:225-317 | every score the rule-based rubric produces has form and intent in 0..3, groundedness and non-leadingness in 0..2, and a total in 0..10 |
| GrowthScorer.MinMaxSame | phase1-model-selection/socratic_eval/context_growth/scorer.py:198-203 | the smallest and largest context sizes agree exactly when every turn has the same size |
| GrowthScorer.FlaggedCount | phase1-model-selection/socratic_eval/context_growth/scorer.py:247 | the number of flagged turns is at most the number of turns |
| GrowthScorer.ContextGrowthScorer.constructor | phase1-model-selection/socratic_eval/context_growth/scorer.py:53-54 | a new scorer holds no turn results |
| GrowthScorer.ContextGrowthScorer.AddTurnResult | phase1-model-selection/socratic_eval/context_growth/scorer.py:56-58 | one result is appended and nothing else changes |
| GrowthScorer.Fill | phase1-model-selection/socratic_eval/context_growth/scorer.py:408-414 | a new scorer fed the results one by one holds exactly those results, in order |
| GrowthScorer.CompareModels | phase1-model-selection/socratic_eval/context_growth/scorer.py:408-471 | the winner is the model ahead by more than half a point on the overall score of its own scorer, else a tie |
| GrowthScorer.Overall | phase1-model-selection/socratic_eval/context_growth/scorer.py:60-120 | specification of `compute_overall_score` before rounding: the five metrics and their mean, all 0 with no turns; OverallInRange and EmptyScoresZero state its properties |
| GrowthScorer.Persistence | phase1-model-selection/socratic_eval/context_growth/scorer.py:122-149 | specification of persistence: mean form on 0-10 less twice the drop from the first half to the second; PersistenceInRange and SteadyFormNotPenalised state its properties |
| GrowthScorer.CognitiveDepth | phase1-model-selection/socratic_eval/context_growth/scorer.py:151-177 | specification of cognitive depth: mean intent on 0-10 plus 1.5 times the rise from the first half to the second, capped at 10; CognitiveDepthInRange states its range |
| GrowthScorer.ContextAdaptability | phase1-model-selection/socratic_eval/context_growth/scorer.py:179-217 | specification of context adaptability: the mean total adjusted by the change per unit of context growth, clamped; ContextAdaptabilityInRange states its range |
| GrowthScorer.ResistanceToDrift | phase1-model-selection/socratic_eval/context_growth/scorer.py:219-250 | specification of resistance to drift: form and non-leadingness on 0-10, less one per flagged turn, clamped; ResistanceInRange and FlaggedTurnsWithinTotal state its properties |
| GrowthScorer.MemoryPreservation | phase1-model-selection/socratic_eval/context_growth/scorer.py:252-280 | specification of memory preservation: mean groundedness on 0-10 less three times the drop from the first third to the last; MemoryPreservationInRange and SteadyGroundingNotPenalised state its properties |
| GrowthScorer.EmptyScoresZero | phase1-model-selection/socratic_eval/context_growth/scorer.py:68-69 | with no turns every metric and the overall score are 0, and no details are built |
| GrowthScorer.PersistenceInRange | phase1-model-selection/socratic_eval/context_growth/scorer.py:122-149 | persistence lies in 0..10: it is clamped from two turns on, and a single in-range form score stays in range |
| GrowthScorer.CognitiveDepthInRange | phase1-model-selection/socratic_eval/context_growth/scorer.py:151-177 | cognitive depth is at most 10 from two turns on, and lies in 0..10 for in-range intent scores |
| GrowthScorer.ContextAdaptabilityInRange | phase1-model-selection/socratic_eval/context_growth/scorer.py:179-217 | context adaptability lies in 0..10 for in-range totals, also when the context never grows |
| GrowthScorer.ResistanceInRange | phase1-model-selection/socratic_eval/context_growth/scorer.py:219-250 | resistance to drift is clamped to 0..10 whatever the scores |
| GrowthScorer.MemoryPreservationInRange | phase1-model-selection/socratic_eval/context_growth/scorer.py:252-280 | memory preservation lies in 0..10: clamped from three turns on, and in range for in-range groundedness |
| GrowthScorer.OverallInRange | phase1-model-selection/socratic_eval/context_growth/scorer.py:101-110 | for in-range scores the overall score lies in 0..10 and is the mean of the five metrics |
| GrowthScorer.SteadyFormNotPenalised | phase1-model-selection/socratic_eval/context_growth/scorer.py:122-149 | a model whose form never changes is not penalised: persistence is that form scaled to 0..10 |
| GrowthScorer.SteadyGroundingNotPenalised | phase1-model-selection/socratic_eval/context_growth/scorer.py:252-280 | a model whose groundedness never changes is not penalised: memory preservation is that groundedness scaled to 0..10 |
| GrowthScorer.SteadyTotalsStable | phase1-model-selection/socratic_eval/context_growth/scorer.py:306-326 | constant totals are a stable trend from three turns on, and fewer than three turns are exactly the insufficient-data case |
| GrowthScorer.WinnerRule | phase1-model-selection/socratic_eval/context_growth/scorer.py:462-471 | a tie means the overall scores are within half a point, and swapping the models swaps the winner |
| GrowthScorer.FlaggedTurnsWithinTotal | phase1-model-selection/socratic_eval/context_growth/scorer.py:247-303 | the flagged turns counted for resistance never exceed the flags reported in the details |
| ResearchItems.FloatsToDecimalShape | phase2-research-experiment/dynamodb_helpers.py:56-64 | converting floats keeps every key and list length and every number's value, and leaves no float behind |
| ResearchItems.DecimalsToFloatShape | phase2-research-experiment/dynamodb_helpers.py:67-75 | converting Decimals keeps every key and list length and every number's value, and leaves no Decimal behind |
| ResearchItems.FloatsToDecimalFixes | phase2-research-experiment/dynamodb_helpers.py:56-64 | an item with no float in it is written unchanged |
| ResearchItems.DecimalsToFloatFixes | phase2-research-experiment/dynamodb_helpers.py:67-75 | an item with no Decimal in it is read unchanged |
| ResearchItems.ConversionsIdempotent | phase2-research-experiment/dynamodb_helpers.py:56-75 | converting twice is converting once, in either direction |
| ResearchItems.WriteThenRead | phase2-research-experiment/dynamodb_helpers.py:56-75 | an item with no Decimals in it, converted for writing and back, is the item it was |
| ResearchItems.ReadThenWrite | phase2-research-experiment/dynamodb_helpers.py:56-75 | an item with no floats in it, converted for reading and back, is the item it was |
| ResearchItems.Get | phase2-research-experiment/dynamodb_helpers.py:285 | indexing succeeds exactly when the item is a dict holding the key, and gives that key's value |
| ResearchDb.ConditionCode | phase2-research-experiment/dynamodb_helpers.py:186-196 | a code is made exactly when the location, the interval and the intervention are all known; otherwise the first unknown lookup raises KeyError |
| ResearchDb.CodeTablesInvert | phase2-research-experiment/dynamodb_helpers.py:187-194 | each code table is one-to-one, and every location and interval code is two characters wide and every intervention code one |
| ResearchDb.ConditionCodeRoundTrip | phase2-research-experiment/dynamodb_helpers.py:186-196 | every condition code has the form "L?-I?-?" and reads back as the condition it was made from |
| ResearchDb.ConditionCodeInjective | phase2-research-experiment/dynamodb_helpers.py:186-196 | different conditions never share a code |
| ResearchDb.Lookup | phase2-research-experiment/dynamodb_helpers.py:285 | a lookup succeeds exactly when the item is a dict holding the key, and then gives that key's value |
| ResearchDb.KindOf | phase2-research-experiment/dynamodb_helpers.py:287-299 | an item is filed as an intervention exactly when its sort key starts with INTERVENTION#, and as an assessment of the type after the first '#' exactly when it starts with ASSESSMENT# |
| ResearchDb.OrganizeStep | phase2-research-experiment/dynamodb_helpers.py:283-299 | each item is converted, has a sort key, and is filed by that key on top of the items before it |
| ResearchDb.OrganizeErrStays | phase2-research-experiment/dynamodb_helpers.py:283-299 | once an item fails to route, the later items change nothing: the loop has raised |
| ResearchDb.GetSession | phase2-research-experiment/dynamodb_helpers.py:260-304 | the routing loop and the sort return exactly the specified session, or none for an empty query |
| ResearchDb.OrganizeInterventions | phase2-research-experiment/dynamodb_helpers.py:293-294 | the organized session holds exactly the intervention items, in query order |
| ResearchDb.SessionInterventions | phase2-research-experiment/dynamodb_helpers.py:301-302 | the session's interventions are a permutation of the intervention items, sorted by timestamp |
| ResearchDb.TimestampOrder | phase2-research-experiment/dynamodb_helpers.py:302 | ordering by timestamp is total and transitive |
| ResearchDb.SessionFoundIffItems | phase2-research-experiment/dynamodb_helpers.py:269-271 | no session is returned exactly when the query returned no items |
| ResearchDb.OrganizeAssessments | phase2-research-experiment/dynamodb_helpers.py:295-297 | the session holds one assessment per type its items name, and the item kept under a type is an assessment of that type |
| ResearchDb.FileAssessment | phase2-research-experiment/dynamodb_helpers.py:295-297 | filing one item adds its type to the assessments exactly when it is an assessment, and every kept item keeps its type |
| ResearchDb.StatusClauses | phase2-research-experiment/dynamodb_helpers.py:313-314 | one clause per status update, in order, each setting that completion flag |
| ResearchDb.ExpressionValues | phase2-research-experiment/dynamodb_helpers.py:311-315 | the values hold ":now" and a ":key" entry for every updated key |
| ResearchDb.UpdateSessionStatus | phase2-research-experiment/dynamodb_helpers.py:306-326 | the loop builds exactly the specified update request |
| ResearchDb.StatusExpressionEndsWithUpdatedAt | phase2-research-experiment/dynamodb_helpers.py:317-324 | the expression is "SET ", the flag clauses joined by ", ", then the update time's clause, which always comes last |
| ResearchDb.ExpressionValuesKeys | phase2-research-experiment/dynamodb_helpers.py:311-315 | the values hold nothing but ":now" and the ":key" entries of the updated keys |
| ResearchDb.ExpressionValuesLastWins | phase2-research-experiment/dynamodb_helpers.py:313-315 | a key's value is the one given with its last occurrence |
| ResearchDb.ExpressionValuesNow | phase2-research-experiment/dynamodb_helpers.py:311-315 | ":now" holds the update time unless one of the keys is "now" itself |
| ResearchDb.StatusKey | phase2-research-experiment/dynamodb_helpers.py:604 | the status key is the one the source builds for every type but the final assessment, which gets the session's final_assessment_completed flag |
| ResearchDb.StatusKeyIsACompletionFlag | phase2-research-experiment/dynamodb_helpers.py:229-237 | with the final assessment mapped to final_assessment_completed, every assessment type sets one of the session's own completion flags, baseline and midpoint both setting baseline_completed |
| ResearchDb.AssessmentStatusUpdateSets | phase2-research-experiment/dynamodb_helpers.py:603-605 | as written, recording an assessment updates the session's METADATA row, setting the flag `<type>_completed` (`baseline_completed` for a midpoint) to true and stamping the update time; the corrected update agrees except for the final assessment, where it sets `final_assessment_completed` |
| ResearchDb.NormalizedGain | phase2-research-experiment/dynamodb_helpers.py:713-718 | below a baseline of 100 the normalized gain is the gain made over the gain possible; otherwise it is 0 |
| ResearchDb.SessionGain | phase2-research-experiment/dynamodb_helpers.py:705-727 | a session contributes nothing exactly when it lacks a truthy baseline or final assessment; otherwise its gain is consistent with its two scores |
| ResearchDb.GainsErrStays | phase2-research-experiment/dynamodb_helpers.py:698-727 | once a session raises, the later sessions change nothing |
| ResearchDb.CalculateLearningGains | phase2-research-experiment/dynamodb_helpers.py:687-751 | the loop over the condition's sessions and the averages return exactly the specified summary |
| ResearchDb.LearningGains | phase2-research-experiment/dynamodb_helpers.py:687-751 | specification of `calculate_learning_gains` on the condition's rows; LearningGainsConsistent, NoSummaryIffNoGains and AverageGainIsDifferenceOfAverages state its properties |
| ResearchDb.GainOfConsistent | phase2-research-experiment/dynamodb_helpers.py:709-727 | a session's reported gain is its final score minus its baseline, with the matching normalized gain |
| ResearchDb.GainsConsistent | phase2-research-experiment/dynamodb_helpers.py:696-727 | at most one gain is reported per session, and every reported gain is consistent |
| ResearchDb.LearningGainsConsistent | phase2-research-experiment/dynamodb_helpers.py:729-751 | a summary reports between one session and the number of sessions, n equals the number of individual gains, and each gain is consistent |
| ResearchDb.AverageGainIsDifferenceOfAverages | phase2-research-experiment/dynamodb_helpers.py:733-737 | the average absolute gain is the average final score minus the average baseline score |
| ResearchDb.NoSummaryIffNoGains | phase2-research-experiment/dynamodb_helpers.py:729-730 | there is no summary exactly when no session had both a baseline and a final assessment |
| ResearchDb.NormalizedGainInUnit | phase2-research-experiment/dynamodb_helpers.py:713-718 | with scores between 0 and 100, a baseline below 100 and no lost ground, the normalized gain lies in [0, 1], and is 1 exactly for a perfect final |
| ResearchDb.AverageNormalizedGainInUnit | phase2-research-experiment/dynamodb_helpers.py:737 | when every session improved within the scale, the average normalized gain lies in [0, 1] |
| ResearchDb.AsWrittenFinalFlagMissing | phase2-research-experiment/dynamodb_helpers.py:604 | as written, recording the final assessment sets final_completed, which is not one of the session's completion flags |

## Left out

- AWS calls (DynamoDB, S3, SQS, EventBridge, Bedrock) are not made: the table, bucket, queue and bus are fields of `Store.Backend`, and model calls are the parameters `call`, `invoke` and `llm`, because their behaviour is outside the code modelled.
- The model-capabilities file that `load_model_capabilities` reads is the parameter `caps`, because it is file I/O.
- Clocks, ULIDs, uuids, content hashing (`digest`), S3 presigning (`sign`) and run durations are parameters, because they are nondeterministic or cryptographic.
- Planner.Plan and Runner.ProcessRun: one `now` parameter stands for every clock read of the call, so the manifest's created_at (planner/handler.py:144) and the result timestamp (:65) are the same instant, and likewise the runner's timestamps, whereas the source reads the clock separately each time.
- `round(...)` and Decimal arithmetic are not modelled: scores are reals, and the float/Decimal conversions are exact, because floating-point rounding is out of scope. Where a Decimal changes behaviour, in the read API's `json.dumps` of turn headers, it is modelled: Api.HoldsNumber marks the values read back from the table that hold one.
- Models.TokenCount: a token count that is not a whole number (null, a float, a string) is an error in the model, whereas `_extract_usage` (models.py:476-504) returns it unchanged; such counts are outside the model because the dialogue sums the counts as integers.
- Integer and float parsing (`int()`, `float()`) are the parameters `parseInt` and `parseReal`, because Python's number syntax is not modelled.
- `compute_vector_scores` and the tutor and judge prompt builders are not part of this model; they are parameters of the judge and the dialogue loop.
- The runner's record loop over the SQS batch is not modelled separately: each record is one `Runner.ProcessRun`, and partial batch failures are not modelled.
- The API endpoints for weekly data, run summaries, time series, latest rankings, cost analysis and detailed results are one opaque parameter `others`; only routing, the turns endpoint and the model comparison are modelled.
- `materialize_run_json`, `materialize_weekly_json` and the secondary-index attributes written beside items are not modelled, because nothing in the modelled reads depends on them.
- The curator's ISO week of a timestamp is the parameter `isoWeekOf`, because it is calendar arithmetic.
- Planner.Elements: iterating a JSON object yields placeholder strings instead of its keys, because every use of such an element then fails the same way whatever the key text.
- The docstring example of `evaluate_response_disposition` (phase1-model-selection/socratic_eval/context_growth/disposition_rubric.py:444-452) announces 9/10 for its sample question, but the rules score that question 3+1+2+2 = 8 (the rules reach 10 at most); the model follows the rules.
- OldUtils.TruncateBelowThree: `truncate_text` with a maximum below 3 returns more than the maximum, as written; the lemma states that behaviour.
- The `DynamoDBEncoder` of the old utilities is not modelled, because it is JSON serialisation of Decimal values (as written it names `decimal.Decimal` without importing `decimal`).
- Turn indices are 0-based throughout the serverless code, and the model keeps them so.
- The production runner plays at most one turn per run, because no simulated student replies are supplied (`Runner.LambdaRunsPlayAtMostOneTurn`).
- ResearchDb.Timestamp: an intervention timestamp that is not a string is an error, whereas Python would also sort timestamps that are all numbers.
- ResearchDb.Score: a score still held as a Decimal is treated as a non-number; it cannot occur, because every queried item is first converted to floats.
- The phase-2 record builders `create_student`, `update_student_session_count`, `record_location_verification`, `record_dynamic_intervention`, `record_static_intervention` and `create_session`, and the index queries `get_sessions_by_*` and `get_interventions_by_type`, are not modelled: they only assemble items and pass them to the table.
- DialogueRunner.LoadSeed returns one fixed seed scenario, because the archived runner reads the seed file, which is I/O.
- Api.TurnsEndpoint: a non-numeric `turn_index` is an error (the TypeError of comparing it with numbers), even when every index is a string, in which case Python would sort them.
- The expectations of the judge's unit tests are not encoded; the verdict parsing keeps the source's substring semantics.
- The phase-1 `DistractorGenerator` and `ComplexityBuilder` make random choices and are not modelled.
- The groundedness reference check `_extract_user_references` is the parameter `refers`, because it is heuristic text matching.
- Explanation texts and report formatting (`generate_report`, `format_score_report`, the per-turn list of `_build_details`) are not modelled.
- Lambda concurrency, at-least-once message delivery and retries by AWS, the CDK infrastructure, dashboards and command-line scripts are not modelled.
- BedrockUtils.CallBedrockModel: the per-provider request and response formats are the parameter `call`.
- Text.Lower: only ASCII letters are lower-cased, whereas Python's `str.lower` maps every Unicode cased letter, because Unicode case tables are out of scope.
- DispositionRubric.OpensWith: the regular expression word boundary `\b` is approximated by an ASCII word-character test, whereas Python's `re` also counts non-ASCII letters and digits as word characters.
- Phase3Schemas.IsDigit: the `\d` of the id and date patterns accepts only ASCII digits, whereas Python's `re` also accepts other Unicode decimal digits.
- The rubric's LLM path (`use_llm_judge=True`, `_evaluate_with_llm`) is not modelled, because it is a model call whose reply is not specified; only the rule-based evaluation is.
- BedrockUtils.CallBedrockModel: the defaults `max_tokens=500` and `temperature=0.7` are not modelled, because they only travel into the provider request, which is the parameter `call`.
- Error texts: where the source returns or records `str(e)`, the model gives Python's text for the KeyErrors and ValueErrors it raises itself (`'SK'`, `'turn_index'`, `'profile_arn'`, `Unknown provider: p`); other built-in exceptions (TypeError, AttributeError, the JSON helpers' failures) are written "Type: detail", because Python's exact messages depend on the interpreter version.
- ResearchDb.ConditionCode: an unknown interval's KeyError names `interval_minutes` instead of Python's text of the float value, because float formatting is not modelled.
- JudgeHandler.JudgeItem: `overall_score` is stored as a number, whereas the source stores `str(overall_score)`; every reader of it applies `float()`, so no modelled result differs.

## Findings

| source | as written | input that shows it | evidently intended | confidence | as-written member | corrected member |
|---|---|---|---|---|---|---|
| serverless/lib/socratic_bench/dialogue.py:111-113 | before each follow-up turn the history gets the NEW student utterance paired with the previous AI reply | two turns: the history for turn 1 is [student u1, ai a0, student u1], and u0 never appears | each earlier exchange appears once, in order: [student u0, ai a0], then the new utterance | not executed | Dialogue.AsWrittenLosesOpeningUtterance | Dialogue.FollowupMessagesReplayDialogue |
| archive/phase3-batch-architecture/runners/dialogue_runner.py:183-190 | the pressure sentence is appended to `user_message` after that message has been added to the conversation | phase P2, turn 5: the model never receives the pressure sentence | the pressure sentence is part of the student message the model receives | not executed | DialogueRunner.AsWrittenPressureUnsent | DialogueRunner.PressureReachesModel |
| archive/phase3-batch-architecture/runners/dialogue_runner.py:162-178 | every Turn is built with system_prompt_version "soc-1.2@sha256:placeholder", which fails the field's pattern (a 64-hex-digit digest) | any run: the first Turn raises a validation error and no turn is written | the prompt version comes from the run's configuration and matches the pattern | not executed | DialogueRunner.AsWrittenRunRejected | DialogueRunner.RunCompletes |
| serverless/lambdas/api/handler.py:211-234 | the turn headers copy `turn_index` and the metrics from the queried rows, which the table resource returns as `decimal.Decimal`, and `success_response` serialises them with plain `json.dumps` (:596-605) | one TURN row as the runner writes it (turn_index 0), GET /runs/r/turns: TypeError inside the try, so 500 "Failed to load turns: Object of type Decimal is not JSON serializable" | 200 with the page of headers, the numbers serialised as numbers | not executed | Api.RunnerTurnFailsToList | Api.GetRunTurns |
| phase2-research-experiment/dynamodb_helpers.py:604 | recording the final assessment sets `final_completed`, but the session's flag is `final_assessment_completed` | record_assessment with type 'final': the session's final flag stays False | the final assessment sets `final_assessment_completed` | not executed | ResearchDb.AsWrittenFinalFlagMissing | ResearchDb.StatusKeyIsACompletionFlag |
