/**
 * The Socratic answer quality evaluator of the context-growth study: an AI
 * judge decides whether a reply ends with a Socratic question and how
 * Socratic its direction is, the token count gives a verbosity score, and a
 * weighted sum of the three is the composite score. A judge call that fails
 * in any way falls back to conservative values instead of raising.
 */
module AnswerEvaluator {
  import opened Wrappers
  import opened Json
  import JudgeLib
  import Text

  const DefaultVerbosityThreshold: int := 200

  /** Weights of directional socraticism, question ending and verbosity in the composite. */
  datatype Weights = Weights(directional: real, questionEnding: real, verbosity: real)

  const DefaultWeights: Weights := Weights(0.50, 0.35, 0.15)

  /** What the judge returned, once parsed: the question-ending verdict and the explanation as the JSON values they were. */
  datatype AiEval = AiEval(ends: Json, directional: real, explanation: Json)

  datatype SocraticAnswerScore = SocraticAnswerScore(
    verbosityTokens: int,
    endsWithSocraticQuestion: Json,
    directionalSocraticism: real,
    compositeScore: real,
    verbosityScore: real,
    questionEndingScore: real,
    explanation: Json)

  /**
   * The body of the try block after the judge replied: strip a code fence,
   * then read the reply. `parseJson` is `json.loads`, `parseReal` Python's
   * float parser.
   */
  function ParseEvaluation(raw: string, parseJson: string -> Result<Json, string>,
                           parseReal: string -> Option<real>): Result<AiEval, string>
  {
    ReadEvaluation(Text.Strip(JudgeLib.StripFence(raw)), parseJson, parseReal)
  }

  /**
   * Parse the unfenced reply as JSON, read the three fields and convert the
   * directional score with `float`; a missing field, a value that is not an
   * object or a score that does not convert is an error.
   */
  function ReadEvaluation(text: string, parseJson: string -> Result<Json, string>,
                          parseReal: string -> Option<real>): (r: Result<AiEval, string>)
    ensures r.Ok? <==>
      (var j := parseJson(text);
       && j.Ok? && j.value.JObj?
       && "ends_with_socratic_question" in j.value.fields
       && "directional_socraticism" in j.value.fields
       && "explanation" in j.value.fields
       && ToFloat(j.value.fields["directional_socraticism"], parseReal).Ok?)
    ensures r.Ok? ==>
      (var j := parseJson(text).value;
       && r.value.ends == j.fields["ends_with_socratic_question"]
       && r.value.directional == ToFloat(j.fields["directional_socraticism"], parseReal).value
       && r.value.explanation == j.fields["explanation"])
  {
    var j :- parseJson(text);
    var ends :- Field(j, "ends_with_socratic_question");
    var d :- Field(j, "directional_socraticism");
    var directional :- ToFloat(d, parseReal);
    var explanation :- Field(j, "explanation");
    Ok(AiEval(ends, directional, explanation))
  }

  /** The values used when the judge call or its parsing raised `e`. */
  function Fallback(e: string): (r: AiEval)
    ensures r.ends == JBool(false) && r.directional == 0.5
    ensures r.explanation.JStr? && Text.StartsWith(r.explanation.s, "AI evaluation failed: ")
  {
    var msg := "AI evaluation failed: " + e + ". Using fallback values.";
    assert msg[..22] == "AI evaluation failed: ";
    AiEval(JBool(false), 0.5, JStr(msg))
  }

  /**
   * The try/except around the judge: `invoke` is the Bedrock call on the
   * prompt, giving the stripped reply text or the exception it raised.
   */
  function JudgeAnswer(prompt: string, invoke: string -> Result<string, string>,
                       parseJson: string -> Result<Json, string>,
                       parseReal: string -> Option<real>): AiEval
  {
    match invoke(prompt)
    case Err(e) => Fallback(e)
    case Ok(raw) =>
      match ParseEvaluation(raw, parseJson, parseReal)
      case Ok(ev) => ev
      case Err(e) => Fallback(e)
  }

  /**
   * `max(0, 1 - tokens / threshold)`; a zero threshold is Python's
   * ZeroDivisionError, which the evaluator does not catch.
   */
  function VerbosityScore(tokens: int, threshold: int): (r: Result<real, string>)
    ensures r.Err? <==> threshold == 0
    ensures r.Ok? ==> r.value >= 0.0
  {
    if threshold == 0 then Err("ZeroDivisionError: division by zero")
    else
      var v := 1.0 - tokens as real / threshold as real;
      Ok(if v > 0.0 then v else 0.0)
  }

  /** 1.0 when the judge's verdict is truthy, 0.0 otherwise. */
  function QuestionEndingScore(ends: Json): (r: real)
    ensures r == 1.0 || r == 0.0
    ensures r == 1.0 <==> Truthy(ends)
  {
    if Truthy(ends) then 1.0 else 0.0
  }

  function Composite(directional: real, questionEnding: real, verbosity: real, w: Weights): real {
    directional * w.directional + questionEnding * w.questionEnding + verbosity * w.verbosity
  }

  /**
   * `evaluate_socratic_answer`: the judge's verdict (or the fallback), the
   * verbosity and question-ending scores, and their weighted composite.
   * `prompt` is the evaluator prompt with the response filled in.
   */
  function Evaluate(response: string, tokenCount: int, threshold: int, w: Weights,
                    prompt: string -> string, invoke: string -> Result<string, string>,
                    parseJson: string -> Result<Json, string>,
                    parseReal: string -> Option<real>): Result<SocraticAnswerScore, string>
  {
    var ev := JudgeAnswer(prompt(response), invoke, parseJson, parseReal);
    var verbosity :- VerbosityScore(tokenCount, threshold);
    var qe := QuestionEndingScore(ev.ends);
    Ok(SocraticAnswerScore(tokenCount, ev.ends, ev.directional,
                           Composite(ev.directional, qe, verbosity, w),
                           verbosity, qe, ev.explanation))
  }

  /** The default weights add up to one, so the composite is a weighted average. */
  lemma DefaultWeightsSumToOne()
    ensures DefaultWeights.directional + DefaultWeights.questionEnding + DefaultWeights.verbosity == 1.0
  {
  }

  /** With a positive threshold and a non-negative count the verbosity score lies in [0, 1]: 1 for an empty answer, 0 from the threshold on. */
  lemma VerbosityMeaning(tokens: int, threshold: int)
    requires tokens >= 0 && threshold > 0
    ensures var v := VerbosityScore(tokens, threshold).value; 0.0 <= v <= 1.0
    ensures VerbosityScore(tokens, threshold).value == 1.0 <==> tokens == 0
    ensures VerbosityScore(tokens, threshold).value == 0.0 <==> tokens >= threshold
  {
    var q := tokens as real / threshold as real;
    assert q >= 0.0;
    assert q == 0.0 <==> tokens == 0;
    assert q >= 1.0 <==> tokens >= threshold by {
      assert q * threshold as real == tokens as real;
    }
  }

  /** A longer answer never scores better on verbosity. */
  lemma VerbosityMonotone(t1: int, t2: int, threshold: int)
    requires t1 <= t2 && threshold > 0
    ensures VerbosityScore(t2, threshold).value <= VerbosityScore(t1, threshold).value
  {
    assert t1 as real / threshold as real <= t2 as real / threshold as real;
  }

  /** Under the default weights, a directional score in [0, 1] keeps the composite in [0, 1]. */
  lemma CompositeInRange(directional: real, ends: Json, tokens: int, threshold: int)
    requires 0.0 <= directional <= 1.0 && tokens >= 0 && threshold > 0
    ensures var c := Composite(directional, QuestionEndingScore(ends), VerbosityScore(tokens, threshold).value, DefaultWeights);
            0.0 <= c <= 1.0
  {
    VerbosityMeaning(tokens, threshold);
  }

  /** A failed judge call gives a false verdict, directional 0.5 and a composite of 0.25 plus the weighted verbosity. */
  lemma FailedJudgeFallsBack(response: string, tokens: int, threshold: int,
                             prompt: string -> string, invoke: string -> Result<string, string>,
                             parseJson: string -> Result<Json, string>,
                             parseReal: string -> Option<real>)
    requires invoke(prompt(response)).Err? && threshold != 0
    ensures var s := Evaluate(response, tokens, threshold, DefaultWeights, prompt, invoke, parseJson, parseReal);
            && s.Ok?
            && s.value.endsWithSocraticQuestion == JBool(false)
            && s.value.directionalSocraticism == 0.5
            && s.value.questionEndingScore == 0.0
            && s.value.compositeScore == 0.25 + 0.15 * VerbosityScore(tokens, threshold).value
  {
  }

  /** Only a zero threshold makes the evaluation raise; a failing judge never does. */
  lemma EvaluateRaisesOnlyOnZeroThreshold(response: string, tokens: int, threshold: int, w: Weights,
                                          prompt: string -> string, invoke: string -> Result<string, string>,
                                          parseJson: string -> Result<Json, string>,
                                          parseReal: string -> Option<real>)
    ensures Evaluate(response, tokens, threshold, w, prompt, invoke, parseJson, parseReal).Err? <==> threshold == 0
  {
  }

  /** A reply fenced as a ```json block is parsed from the block's body. */
  lemma FencedReplyParsed(body: string, parseJson: string -> Result<Json, string>,
                          parseReal: string -> Option<real>)
    requires body == [] || (body[0] != '`' && body[|body| - 1] != '`')
    ensures ParseEvaluation("```json" + body + "```", parseJson, parseReal)
         == ParseEvaluation(body, parseJson, parseReal)
  {
    JudgeLib.StripFenceOfJsonBlock(body);
    UnfencedUnchanged(body);
  }

  lemma UnfencedUnchanged(body: string)
    requires body == [] || body[0] != '`'
    ensures JudgeLib.StripFence(body) == body
  {
    if |body| >= 3 {
      assert body[..3][0] == body[0];
    }
  }

  /** A concise answer that ends with a Socratic question and is judged fully Socratic scores the full 1.0. */
  lemma PerfectAnswer(directional: real, threshold: int)
    requires directional == 1.0 && threshold > 0
    ensures Composite(directional, QuestionEndingScore(JBool(true)), VerbosityScore(0, threshold).value, DefaultWeights) == 1.0
  {
  }
}
