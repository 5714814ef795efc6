/**
 * The judge library of the serverless package: the result of judging a turn
 * (or a whole transcript) with an LLM judge, its overall score, the
 * code-fence handling of the judge's reply, and the heuristic scores
 * computed from the tutor's text alone.
 */
module JudgeLib {
  import opened Wrappers
  import opened Json
  import Text
  import Models

  /** `JudgeResult`: the parsed scores, or empty scores and the error's text when judging failed. */
  datatype JudgeResult = JudgeResult(turnIndex: int, scores: Json, judgeModelId: string, latencyMs: real, error: Option<string>)

  /** `if self.error`: an error string counts only when it is non-empty. */
  predicate HasError(r: JudgeResult) {
    r.error.Some? && r.error.value != []
  }

  /**
   * `JudgeResult.overall_score`: 0 for an errored or empty result; otherwise
   * the `score` field of a dict-valued `overall`, or `overall` itself, as a
   * float. `parseReal` is Python's `float` on strings.
   */
  function OverallScore(r: JudgeResult, parseReal: string -> Option<real>): (s: Result<real, string>)
    ensures HasError(r) || !Truthy(r.scores) ==> s == Ok(0.0)
    ensures !HasError(r) && r.scores.JObj? && Truthy(r.scores) && "overall" !in r.scores.fields ==> s == Ok(0.0)
    ensures !HasError(r) && Truthy(r.scores) && !r.scores.JObj? ==> s.Err?
  {
    if HasError(r) || !Truthy(r.scores) then Ok(0.0)
    else
      var overall :- DictGet(r.scores, "overall", JObj(map[]));
      if overall.JObj? then ToFloat(GetOr(overall, "score", JNum(0.0)), parseReal)
      else ToFloat(overall, parseReal)
  }

  /** The two shapes a judge reports its overall score in: `{"overall": {"score": x}}` and `{"overall": x}`. */
  lemma OverallScoreShapes(turnIndex: int, id: string, latency: real, x: real, parseReal: string -> Option<real>)
    ensures OverallScore(JudgeResult(turnIndex, JObj(map["overall" := JObj(map["score" := JNum(x)])]), id, latency, None), parseReal) == Ok(x)
    ensures OverallScore(JudgeResult(turnIndex, JObj(map["overall" := JNum(x)]), id, latency, None), parseReal) == Ok(x)
  {
    var inner := JObj(map["score" := JNum(x)]);
    assert "overall" in map["overall" := inner];
    assert "score" in inner.fields;
    assert "overall" in map["overall" := JNum(x)];
  }

  predicate IsBacktick(c: char) { c == '`' }

  /** The fence handling before `json.loads`: strip backticks, then a leading "json" tag (in any case). */
  function StripFence(raw: string): string {
    if Text.StartsWith(raw, "```") then
      var t := Text.StripBy(raw, IsBacktick);
      if Text.StartsWith(Text.Lower(t), "json") then t[4..] else t
    else raw
  }

  /** A reply fenced as a ```json block gives back the block's body, provided the body neither starts nor ends with a backtick. */
  lemma StripFenceOfJsonBlock(body: string)
    requires body == [] || (body[0] != '`' && body[|body| - 1] != '`')
    ensures StripFence("```json" + body + "```") == body
  {
    var inner := "json" + body;
    var raw := "```json" + body + "```";
    assert raw == "```" + inner + "```";
    assert raw[..3] == "```";
    assert inner[|inner| - 1] != '`' by {
      if body == [] { assert inner == "json"; } else { assert inner[|inner| - 1] == body[|body| - 1]; }
    }
    Text.StripByFrame("```", inner, "```", IsBacktick);
    LowerStartsWithJson(body);
    assert inner[4..] == body;
  }

  lemma LowerStartsWithJson(body: string)
    ensures Text.StartsWith(Text.Lower("json" + body), "json")
  {
    var l := Text.Lower("json" + body);
    assert l[0] == 'j' && l[1] == 's' && l[2] == 'o' && l[3] == 'n';
    assert l[..4] == "json";
  }

  /** A reply fenced as a bare ``` block gives back its body when the body has no "json" tag to lose. */
  lemma StripFenceOfBareBlock(body: string)
    requires body != [] && body[0] != '`' && body[|body| - 1] != '`'
    requires !Text.StartsWith(Text.Lower(body), "json")
    ensures StripFence("```" + body + "```") == body
  {
    Text.StripByFrame("```", body, "```", IsBacktick);
  }

  /** Model id, provider, token limit and temperature of every judge call. */
  function JudgeConfig(judgeModelId: string): (c: Models.ModelConfig)
    ensures c.provider == "anthropic" && c.maxTokens == 400 && c.temperature == 0.3
  {
    Models.ModelConfig(judgeModelId, "anthropic", 400, 0.3)
  }

  const DefaultTurnJudge: string := "anthropic.claude-3-5-sonnet-20240620-v1:0"
  const DefaultTranscriptJudge: string := "anthropic.claude-3-5-sonnet-20241022-v2:0"

  /**
   * The shared body of `judge_turn` and `judge_transcript`: call the judge,
   * strip a code fence, parse the JSON; any failure becomes an errored result
   * with empty scores and zero latency instead of an exception. `invoke` is
   * the Bedrock client's `invoke`, `parseJson` Python's `json.loads`.
   */
  function Judge(
    turnIndex: int, prompt: string, judgeModelId: string,
    invoke: (Models.ModelConfig, string) -> Result<Models.Response, Models.InvokeError>,
    parseJson: string -> Result<Json, string>): (r: JudgeResult)
    ensures r.turnIndex == turnIndex && r.judgeModelId == judgeModelId
    ensures r.error.None? <==> (invoke(JudgeConfig(judgeModelId), prompt).Ok?
      && parseJson(StripFence(invoke(JudgeConfig(judgeModelId), prompt).value.text)).Ok?)
    ensures r.error.None? ==> r.scores == parseJson(StripFence(invoke(JudgeConfig(judgeModelId), prompt).value.text)).value
    ensures r.error.Some? ==> r.scores == JObj(map[]) && r.latencyMs == 0.0
  {
    match invoke(JudgeConfig(judgeModelId), prompt)
    case Err(e) => JudgeResult(turnIndex, JObj(map[]), judgeModelId, 0.0, Some(Models.ErrorText(e)))
    case Ok(response) =>
      match parseJson(StripFence(response.text))
      case Err(e) => JudgeResult(turnIndex, JObj(map[]), judgeModelId, 0.0, Some(e))
      case Ok(scores) => JudgeResult(turnIndex, scores, judgeModelId, response.latencyMs, None)
  }

  /** `judge_turn`: the judgement of one turn; `prompt` is the turn-judge prompt built from the turn. */
  function JudgeTurn(
    turnIndex: int, prompt: string, judgeModelId: string,
    invoke: (Models.ModelConfig, string) -> Result<Models.Response, Models.InvokeError>,
    parseJson: string -> Result<Json, string>): (r: JudgeResult)
    ensures r.turnIndex == turnIndex
  {
    Judge(turnIndex, prompt, judgeModelId, invoke, parseJson)
  }

  /** `judge_transcript`: the judgement of a whole transcript, reported at turn index -1. */
  function JudgeTranscript(
    prompt: string, judgeModelId: string,
    invoke: (Models.ModelConfig, string) -> Result<Models.Response, Models.InvokeError>,
    parseJson: string -> Result<Json, string>): (r: JudgeResult)
    ensures r.turnIndex == -1
  {
    Judge(-1, prompt, judgeModelId, invoke, parseJson)
  }

  /** A judgement that failed, for whatever reason, scores 0 overall. */
  lemma FailedJudgementScoresZero(
    turnIndex: int, prompt: string, judgeModelId: string,
    invoke: (Models.ModelConfig, string) -> Result<Models.Response, Models.InvokeError>,
    parseJson: string -> Result<Json, string>, parseReal: string -> Option<real>)
    requires Judge(turnIndex, prompt, judgeModelId, invoke, parseJson).error.Some?
    ensures OverallScore(Judge(turnIndex, prompt, judgeModelId, invoke, parseJson), parseReal) == Ok(0.0)
  {
  }

  /** `compute_heuristic_scores`. */
  datatype Heuristics = Heuristics(hasQuestion: bool, questionCount: nat, wordCount: nat, isOpenEnded: bool)

  const YesNoKeywords: seq<string> := ["yes", "no", "is it", "are you", "do you", "did you", "can you"]

  /** Some yes/no keyword occurs, as a substring, in `lowered`. */
  predicate HasYesNoKeyword(lowered: string) {
    exists k :: 0 <= k < |YesNoKeywords| && Text.Contains(lowered, YesNoKeywords[k])
  }

  /**
   * `compute_heuristic_scores`: question marks, whitespace-separated words,
   * and "open-ended" meaning a question with no yes/no keyword anywhere in
   * the lowercased text.
   */
  function ComputeHeuristicScores(ai: string): (h: Heuristics)
    ensures h.questionCount == multiset(ai)['?']
    ensures h.hasQuestion <==> '?' in ai
    ensures h.wordCount == 0 <==> Text.AllSpace(ai)
    ensures h.isOpenEnded <==> '?' in ai && !HasYesNoKeyword(Text.Lower(Text.Strip(ai)))
  {
    var text := Text.Strip(ai);
    var questionCount := Text.CountChar(text, '?');
    Text.StripKeepsCount(ai, '?');
    Text.WordsAreTokens(text);
    assert Text.AllSpace(text) <==> text == [] by {
      if text != [] { assert !Text.IsSpace(text[0]); }
    }
    var isOpenEnded := questionCount > 0 && !HasYesNoKeyword(Text.Lower(text));
    Heuristics(questionCount > 0, questionCount, |Text.Words(text)|, isOpenEnded)
  }

  /** The keyword test looks for substrings, not words: the "no" of "now" makes this open question count as closed. */
  lemma KeywordInsideWordClosesQuestion()
    ensures !ComputeHeuristicScores("Now what?").isOpenEnded
  {
    NowWhatIsStripped();
    NowWhatHasNo();
  }

  lemma NowWhatIsStripped()
    ensures Text.Strip("Now what?") == "Now what?"
  {
    Text.StripByFrame("", "Now what?", "", Text.IsSpace);
    assert [] + "Now what?" + [] == "Now what?";
  }

  lemma NowWhatHasNo()
    ensures HasYesNoKeyword(Text.Lower("Now what?"))
  {
    var lowered := Text.Lower("Now what?");
    assert lowered[0] == 'n' && lowered[1] == 'o';
    assert lowered[0..2] == "no";
    assert Text.OccursAt(lowered, YesNoKeywords[1], 0);
  }
}
