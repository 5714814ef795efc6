/**
 * The dialogue engine shared by the CLI and the runner Lambda: a bounded
 * loop of tutor turns, the first answering the scenario's opening student
 * utterance and each later one answering the next canned student reply
 * with the conversation so far. The two prompt builders are not part of
 * this model and are parameters.
 */
module Dialogue {
  import opened Wrappers
  import Models
  import Seqs

  /** The scenario fields the dialogue reads. */
  datatype Scenario = Scenario(id: string, vector: string, persona: string, prompt: string)

  datatype Role = Student | Ai

  /** One `{"role": ..., "content": ...}` history entry. */
  datatype Message = Message(role: Role, content: string)

  /** `DialogueTurn`. */
  datatype Turn = Turn(turnIndex: nat, student: string, ai: string, latencyMs: real, inputTokens: int, outputTokens: int)

  /** `socratic_tutor_prompt(vector, persona, utterance)` and `socratic_tutor_followup_prompt(vector, persona, messages)`. */
  datatype Prompts = Prompts(first: (string, string, string) -> string, followup: (string, string, seq<Message>) -> string)

  /** `DialogueResult`; the duration comes from the clock and is a parameter of the run. */
  datatype DialogueResult = DialogueResult(scenario: Scenario, config: Models.ModelConfig, turns: seq<Turn>, totalDurationMs: real)

  /**
   * How many turns a dialogue that never fails has: none when `max_turns`
   * is not positive, and otherwise one more than there are canned replies,
   * capped by `max_turns`.
   */
  function TurnCount(maxTurns: int, responses: seq<string>): (n: nat)
    ensures n <= |responses| + 1
    ensures maxTurns > 0 ==> n >= 1
    ensures n as int <= maxTurns || n == 0
    ensures responses == [] ==> n <= 1
  {
    if maxTurns <= 0 then 0
    else if maxTurns < |responses| + 1 then maxTurns
    else |responses| + 1
  }

  /** The student's utterance at turn `i`: the scenario's prompt, then the canned replies in order. */
  function Utterance(scenario: Scenario, responses: seq<string>, i: nat): string
    requires i <= |responses|
  {
    if i == 0 then scenario.prompt else responses[i - 1]
  }

  /** The conversation so far, each turn as its student utterance followed by the tutor's reply. */
  function Exchanges(turns: seq<Turn>): (h: seq<Message>)
    ensures |h| == 2 * |turns|
  {
    if turns == [] then []
    else Exchanges(turns[..|turns| - 1]) + [Message(Student, turns[|turns| - 1].student), Message(Ai, turns[|turns| - 1].ai)]
  }

  /** The messages the follow-up prompt is built from: the conversation so far, then the new utterance. */
  function FollowupMessages(turns: seq<Turn>, utterance: string): seq<Message> {
    Exchanges(turns) + [Message(Student, utterance)]
  }

  /**
   * The follow-up prompt replays the dialogue faithfully: 2i+1 entries,
   * student and tutor alternating, entry 2j the student utterance of turn
   * j and entry 2j+1 the tutor's reply to it, and last the new utterance.
   */
  lemma {:induction false} FollowupMessagesReplayDialogue(turns: seq<Turn>, utterance: string)
    ensures var m := FollowupMessages(turns, utterance);
      |m| == 2 * |turns| + 1
      && (forall k :: 0 <= k < |m| ==> (m[k].role == Student <==> k % 2 == 0))
      && (forall j :: 0 <= j < |turns| ==> m[2 * j].content == turns[j].student && m[2 * j + 1].content == turns[j].ai)
      && m[2 * |turns|].content == utterance
  {
    ExchangesReplay(turns);
  }

  lemma {:induction false} ExchangesReplay(turns: seq<Turn>)
    ensures var h := Exchanges(turns);
      (forall k :: 0 <= k < |h| ==> (h[k].role == Student <==> k % 2 == 0))
      && (forall j :: 0 <= j < |turns| ==> h[2 * j].content == turns[j].student && h[2 * j + 1].content == turns[j].ai)
  {
    if turns != [] {
      var init := turns[..|turns| - 1];
      ExchangesReplay(init);
      assert forall j :: 0 <= j < |init| ==> init[j] == turns[j];
    }
  }

  /**
   * The history exactly as `run_dialogue` accumulates it (dialogue.py,
   * lines 112-113): on entering turn k it appends the CURRENT student
   * utterance, which already is turn k's, followed by the reply of turn
   * k-1. `next` is the utterance of the turn about to be played.
   */
  function AsWrittenHistory(turns: seq<Turn>, next: string): (h: seq<Message>)
    ensures |h| == 2 * |turns|
  {
    if turns == [] then []
    else AsWrittenHistory(turns[..|turns| - 1], turns[|turns| - 1].student) + [Message(Student, next), Message(Ai, turns[|turns| - 1].ai)]
  }

  /** The follow-up messages as `run_dialogue` builds them (line 118). */
  function AsWrittenFollowupMessages(turns: seq<Turn>, utterance: string): seq<Message> {
    AsWrittenHistory(turns, utterance) + [Message(Student, utterance)]
  }

  /**
   * As written, the follow-up prompt of turn 1 never contains the opening
   * utterance the tutor's first reply answered: it holds the new utterance
   * twice around that reply, so whenever the two utterances differ the
   * tutor sees a reply paired with the wrong question.
   */
  lemma AsWrittenLosesOpeningUtterance(t0: Turn, u1: string)
    requires t0.student != u1
    ensures AsWrittenFollowupMessages([t0], u1) == [Message(Student, u1), Message(Ai, t0.ai), Message(Student, u1)]
    ensures forall k :: 0 <= k < 3 && AsWrittenFollowupMessages([t0], u1)[k].role == Student ==>
      AsWrittenFollowupMessages([t0], u1)[k].content != t0.student
    ensures AsWrittenFollowupMessages([t0], u1) != FollowupMessages([t0], u1)
  {
    assert [t0][..0] == [];
    var m := AsWrittenFollowupMessages([t0], u1);
    assert m == [Message(Student, u1), Message(Ai, t0.ai), Message(Student, u1)];
    assert FollowupMessages([t0], u1)[0].content == t0.student;
  }

  /**
   * Which history the follow-up prompts are built from: the one
   * `run_dialogue` accumulates as written (`AsWrittenHistory`) or the
   * intended one, each utterance followed by its own reply (`Exchanges`).
   */
  datatype HistoryStyle = AsWritten | Intended

  /** The conversation so far as the follow-up prompt of the turn after `turns` sees it. */
  function HistoryOf(style: HistoryStyle, turns: seq<Turn>, utterance: string): (h: seq<Message>)
    ensures |h| == 2 * |turns|
  {
    match style
    case AsWritten => AsWrittenHistory(turns, utterance)
    case Intended => Exchanges(turns)
  }

  /** The messages the follow-up prompt of the turn after `turns` is built from. */
  function FollowupOf(style: HistoryStyle, turns: seq<Turn>, utterance: string): (m: seq<Message>)
    ensures style == AsWritten ==> m == AsWrittenFollowupMessages(turns, utterance)
    ensures style == Intended ==> m == FollowupMessages(turns, utterance)
  {
    HistoryOf(style, turns, utterance) + [Message(Student, utterance)]
  }

  /** The prompt of the turn played after `turns`. */
  function PromptAt(style: HistoryStyle, scenario: Scenario, prompts: Prompts, turns: seq<Turn>, utterance: string): string {
    if turns == [] then prompts.first(scenario.vector, scenario.persona, utterance)
    else prompts.followup(scenario.vector, scenario.persona, FollowupOf(style, turns, utterance))
  }

  /**
   * The dialogue from the point where `turns` have been played: each turn
   * invokes the model on its prompt; a failed call ends the dialogue with
   * that error, and no turns are returned.
   */
  function DialogueFrom(style: HistoryStyle, scenario: Scenario, config: Models.ModelConfig, maxTurns: int, responses: seq<string>,
                        invoke: (Models.ModelConfig, string) -> Result<Models.Response, Models.InvokeError>,
                        prompts: Prompts, turns: seq<Turn>): Result<seq<Turn>, Models.InvokeError>
    requires |turns| <= TurnCount(maxTurns, responses)
    decreases TurnCount(maxTurns, responses) - |turns|
  {
    if |turns| == TurnCount(maxTurns, responses) then Ok(turns)
    else
      var u := Utterance(scenario, responses, |turns|);
      match invoke(config, PromptAt(style, scenario, prompts, turns, u))
      case Err(e) => Err(e)
      case Ok(resp) =>
        DialogueFrom(style, scenario, config, maxTurns, responses, invoke, prompts,
                     turns + [Turn(|turns|, u, resp.text, resp.latencyMs, resp.inputTokens, resp.outputTokens)])
  }

  /** The turns of a whole dialogue. */
  function DialogueSpec(style: HistoryStyle, scenario: Scenario, config: Models.ModelConfig, maxTurns: int, responses: seq<string>,
                        invoke: (Models.ModelConfig, string) -> Result<Models.Response, Models.InvokeError>,
                        prompts: Prompts): Result<seq<Turn>, Models.InvokeError>
  {
    DialogueFrom(style, scenario, config, maxTurns, responses, invoke, prompts, [])
  }

  /** Turns played so far are numbered 0, 1, ... and each carries its scheduled utterance and its prompt's reply. */
  ghost predicate WellFormed(style: HistoryStyle, scenario: Scenario, config: Models.ModelConfig, responses: seq<string>,
                             invoke: (Models.ModelConfig, string) -> Result<Models.Response, Models.InvokeError>,
                             prompts: Prompts, turns: seq<Turn>)
  {
    |turns| <= |responses| + 1
    && forall i :: 0 <= i < |turns| ==>
         turns[i].turnIndex == i
         && turns[i].student == Utterance(scenario, responses, i)
         && var r := invoke(config, PromptAt(style, scenario, prompts, turns[..i], turns[i].student));
            r.Ok? && turns[i].ai == r.value.text && turns[i].inputTokens == r.value.inputTokens
            && turns[i].outputTokens == r.value.outputTokens
  }

  lemma {:induction false} DialogueFromWellFormed(style: HistoryStyle, scenario: Scenario, config: Models.ModelConfig, maxTurns: int, responses: seq<string>,
                                                  invoke: (Models.ModelConfig, string) -> Result<Models.Response, Models.InvokeError>,
                                                  prompts: Prompts, turns: seq<Turn>)
    requires |turns| <= TurnCount(maxTurns, responses)
    requires WellFormed(style, scenario, config, responses, invoke, prompts, turns)
    requires DialogueFrom(style, scenario, config, maxTurns, responses, invoke, prompts, turns).Ok?
    ensures var r := DialogueFrom(style, scenario, config, maxTurns, responses, invoke, prompts, turns).value;
      |r| == TurnCount(maxTurns, responses) && turns <= r && WellFormed(style, scenario, config, responses, invoke, prompts, r)
    decreases TurnCount(maxTurns, responses) - |turns|
  {
    if |turns| < TurnCount(maxTurns, responses) {
      var u := Utterance(scenario, responses, |turns|);
      var resp := invoke(config, PromptAt(style, scenario, prompts, turns, u)).value;
      var next := turns + [Turn(|turns|, u, resp.text, resp.latencyMs, resp.inputTokens, resp.outputTokens)];
      assert next[..|turns|] == turns;
      forall i | 0 <= i < |turns|
        ensures next[..i] == turns[..i] && next[i] == turns[i]
      {
      }
      assert WellFormed(style, scenario, config, responses, invoke, prompts, next);
      DialogueFromWellFormed(style, scenario, config, maxTurns, responses, invoke, prompts, next);
    }
  }

  /**
   * A dialogue that succeeds has min(max_turns, replies + 1) turns (none
   * for a non-positive limit), numbered 0..n-1 in order; turn 0 answers the
   * scenario's prompt and turn i > 0 the i-th canned reply; each reply is
   * the model's answer to the prompt that turn sends, built from the
   * history of the given style.
   */
  lemma DialogueShape(style: HistoryStyle, scenario: Scenario, config: Models.ModelConfig, maxTurns: int, responses: seq<string>,
                      invoke: (Models.ModelConfig, string) -> Result<Models.Response, Models.InvokeError>,
                      prompts: Prompts)
    requires DialogueSpec(style, scenario, config, maxTurns, responses, invoke, prompts).Ok?
    ensures var turns := DialogueSpec(style, scenario, config, maxTurns, responses, invoke, prompts).value;
      |turns| == TurnCount(maxTurns, responses)
      && WellFormed(style, scenario, config, responses, invoke, prompts, turns)
  {
    DialogueFromWellFormed(style, scenario, config, maxTurns, responses, invoke, prompts, []);
  }

  /**
   * Without canned replies at most one turn is played, and its prompt is
   * the first-turn prompt, so the two history styles give the same
   * dialogue: the as-written history only matters from turn 1 on.
   */
  lemma {:induction false} StylesAgreeWithoutReplies(scenario: Scenario, config: Models.ModelConfig, maxTurns: int,
                                                     invoke: (Models.ModelConfig, string) -> Result<Models.Response, Models.InvokeError>,
                                                     prompts: Prompts)
    ensures DialogueSpec(AsWritten, scenario, config, maxTurns, [], invoke, prompts)
         == DialogueSpec(Intended, scenario, config, maxTurns, [], invoke, prompts)
  {
    var n := TurnCount(maxTurns, []);
    if n == 1 {
      var u := Utterance(scenario, [], 0);
      assert PromptAt(AsWritten, scenario, prompts, [], u) == PromptAt(Intended, scenario, prompts, [], u);
      match invoke(config, PromptAt(Intended, scenario, prompts, [], u))
      case Err(e) =>
      case Ok(resp) =>
        var one := [Turn(0, u, resp.text, resp.latencyMs, resp.inputTokens, resp.outputTokens)];
        assert [] + one == one;
        assert DialogueSpec(AsWritten, scenario, config, maxTurns, [], invoke, prompts)
            == DialogueFrom(AsWritten, scenario, config, maxTurns, [], invoke, prompts, one) == Ok(one);
        assert DialogueSpec(Intended, scenario, config, maxTurns, [], invoke, prompts)
            == DialogueFrom(Intended, scenario, config, maxTurns, [], invoke, prompts, one) == Ok(one);
    }
  }

  /**
   * `run_dialogue`: the loop plays turns until `max_turns` or until the
   * canned replies run out; a failed model call propagates. Entering turn
   * k > 0 it appends a student entry and turn k-1's reply to the history:
   * as written (lines 112-113) the student entry is the CURRENT utterance;
   * in the intended style it is turn k-1's own. `durationMs` is the
   * clock's reading.
   */
  method RunDialogue(style: HistoryStyle, scenario: Scenario, config: Models.ModelConfig, maxTurns: int, responses: seq<string>,
                     invoke: (Models.ModelConfig, string) -> Result<Models.Response, Models.InvokeError>,
                     prompts: Prompts, durationMs: real)
    returns (r: Result<DialogueResult, Models.InvokeError>)
    ensures var spec := DialogueSpec(style, scenario, config, maxTurns, responses, invoke, prompts);
      (r.Ok? <==> spec.Ok?)
      && (r.Err? ==> r.error == spec.error)
      && (r.Ok? ==> r.value == DialogueResult(scenario, config, spec.value, durationMs))
  {
    var turns: seq<Turn> := [];
    var history: seq<Message> := [];
    var utterance := scenario.prompt;
    var turnIdx := 0;
    while turnIdx < maxTurns
      invariant |turns| == turnIdx <= TurnCount(maxTurns, responses)
      invariant turnIdx <= |responses|
      invariant utterance == Utterance(scenario, responses, turnIdx)
      invariant turnIdx == 0 ==> history == []
      invariant turnIdx > 0 ==> history == HistoryOf(style, turns[..turnIdx - 1], turns[turnIdx - 1].student)
      invariant DialogueFrom(style, scenario, config, maxTurns, responses, invoke, prompts, turns)
             == DialogueSpec(style, scenario, config, maxTurns, responses, invoke, prompts)
      decreases maxTurns - turnIdx
    {
      var prompt;
      if turnIdx == 0 {
        prompt := prompts.first(scenario.vector, scenario.persona, utterance);
      } else {
        var last := turns[turnIdx - 1];
        var said := if style == AsWritten then utterance else last.student;
        history := history + [Message(Student, said), Message(Ai, last.ai)];
        assert turns == turns[..turnIdx - 1] + [last];
        assert history == HistoryOf(style, turns, utterance);
        prompt := prompts.followup(scenario.vector, scenario.persona, history + [Message(Student, utterance)]);
      }
      var response := invoke(config, prompt);
      if response.Err? {
        return Err(response.error);
      }
      var turn := Turn(turnIdx, utterance, response.value.text, response.value.latencyMs,
                       response.value.inputTokens, response.value.outputTokens);
      assert (turns + [turn])[..|turns|] == turns;
      turns := turns + [turn];
      if turnIdx < |responses| {
        utterance := responses[turnIdx];
      } else {
        break;
      }
      turnIdx := turnIdx + 1;
    }
    r := Ok(DialogueResult(scenario, config, turns, durationMs));
  }

  /** The totals of `DialogueResult.to_dict`. */
  datatype Totals = Totals(totalTurns: nat, totalInputTokens: int, totalOutputTokens: int)

  function InputTokens(t: Turn): int { t.inputTokens }
  function OutputTokens(t: Turn): int { t.outputTokens }

  function TotalsOf(result: DialogueResult): Totals {
    Totals(|result.turns|, Seqs.SumInt(result.turns, InputTokens), Seqs.SumInt(result.turns, OutputTokens))
  }

  /** Playing one more turn adds one to the turn total and that turn's tokens to the token totals. */
  lemma TotalsAddUp(result: DialogueResult, t: Turn)
    ensures var after := TotalsOf(result.(turns := result.turns + [t]));
      var before := TotalsOf(result);
      after == Totals(before.totalTurns + 1, before.totalInputTokens + t.inputTokens, before.totalOutputTokens + t.outputTokens)
  {
    assert (result.turns + [t])[..|result.turns|] == result.turns;
  }

  /** A successful dialogue's total turns is its turn count, and its token totals are non-negative when every call reports non-negative usage. */
  lemma TotalsOfDialogue(style: HistoryStyle, scenario: Scenario, config: Models.ModelConfig, maxTurns: int, responses: seq<string>,
                         invoke: (Models.ModelConfig, string) -> Result<Models.Response, Models.InvokeError>,
                         prompts: Prompts, durationMs: real)
    requires DialogueSpec(style, scenario, config, maxTurns, responses, invoke, prompts).Ok?
    requires forall c, p :: invoke(c, p).Ok? ==> invoke(c, p).value.inputTokens >= 0 && invoke(c, p).value.outputTokens >= 0
    ensures var totals := TotalsOf(DialogueResult(scenario, config, DialogueSpec(style, scenario, config, maxTurns, responses, invoke, prompts).value, durationMs));
      totals.totalTurns == TurnCount(maxTurns, responses) && totals.totalInputTokens >= 0 && totals.totalOutputTokens >= 0
  {
    var turns := DialogueSpec(style, scenario, config, maxTurns, responses, invoke, prompts).value;
    DialogueShape(style, scenario, config, maxTurns, responses, invoke, prompts);
    Seqs.SumIntNonNegative(turns, InputTokens);
    Seqs.SumIntNonNegative(turns, OutputTokens);
  }
}
