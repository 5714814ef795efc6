/**
 * The archived batch task that simulates one dialogue (model x seed x
 * temperature x phase): it sends the conversation to the model turn by turn,
 * scores every reply with fast rules, records each turn, answers with a
 * scripted student line, and writes the turns as one JSON-lines object.
 *
 * The model call is the parameter `llm` (the conversation so far to a reply
 * or a raised error); the object store is the runner's `objects` map from key
 * to the turns written there.
 */
module DialogueRunner {
  import opened Wrappers
  import Text
  import opened Phase3Schemas

  // ---------------------------------------------------------------------------
  // Rule-based scoring

  const Directives: seq<string> := ["you should", "try to", "consider", "i suggest", "let me tell you", "here's what", "the answer is", "think about this:"]
  const QuestionWords: seq<string> := ["what", "how", "why", "when", "where", "which"]
  const MetaWords: seq<string> := ["helping", "useful", "direction", "approach"]

  /** `any(w in s for w in words)`. */
  predicate AnyIn(s: string, words: seq<string>) {
    exists i :: 0 <= i < |words| && Text.Contains(s, words[i])
  }

  predicate IsDirective(text: string) {
    AnyIn(Text.Lower(text), Directives)
  }

  predicate HasQuestionWord(text: string) {
    AnyIn(Text.Lower(text), QuestionWords)
  }

  predicate HasMetaWord(text: string) {
    AnyIn(Text.Lower(text), MetaWords)
  }

  /** The scores and violations `_heuristic_score` assigns a reply at a given turn. */
  function Heuristic(text: string, turnNum: int): HeuristicResult {
    var q := Text.CountChar(text, '?');
    var form := if q == 0 then 3.0 else if q > 1 then 6.0 else 9.0;
    var formViols := if q == 0 then [ClosedQuestion] else if q > 1 then [MultiQuestion] else [];
    var purity := if IsDirective(text) then 4.0 else 9.0;
    var purityViols := if IsDirective(text) then [AdviceLeakage] else [];
    var substance := if |text| < 20 then 5.0 else if HasQuestionWord(text) then 8.5 else 7.0;
    var metaViols := if turnNum % 8 == 0 && !HasMetaWord(text) then [MetaViolation] else [];
    var viols := formViols + purityViols + metaViols;
    var confidence := if viols != [] then 0.9 else if form > 8.0 && purity > 8.0 then 0.85 else 0.6;
    HeuristicResult(form, substance, purity, viols, confidence)
  }

  /** `_heuristic_score`: the policy run one after another, each adding its violation to the list. */
  method ScoreReply(text: string, turnNum: int) returns (h: HeuristicResult)
    ensures h == Heuristic(text, turnNum)
  {
    var violations: seq<Violation> := [];
    var questionMarks := Text.CountChar(text, '?');
    var form: real;
    if questionMarks == 0 {
      violations := violations + [ClosedQuestion];
      form := 3.0;
    } else if questionMarks > 1 {
      violations := violations + [MultiQuestion];
      form := 6.0;
    } else {
      form := 9.0;
    }
    var purity: real;
    if IsDirective(text) {
      violations := violations + [AdviceLeakage];
      purity := 4.0;
    } else {
      purity := 9.0;
    }
    var substance: real;
    if |text| < 20 {
      substance := 5.0;
    } else if HasQuestionWord(text) {
      substance := 8.5;
    } else {
      substance := 7.0;
    }
    if turnNum % 8 == 0 && !HasMetaWord(text) {
      violations := violations + [MetaViolation];
    }
    var confidence: real;
    if violations != [] {
      confidence := 0.9;
    } else if form > 8.0 && purity > 8.0 {
      confidence := 0.85;
    } else {
      confidence := 0.6;
    }
    h := HeuristicResult(form, substance, purity, violations, confidence);
  }

  /** Form rewards exactly one question mark; none is a closed question, several a multi-question. */
  lemma HeuristicForm(text: string, turnNum: int)
    ensures Heuristic(text, turnNum).form == 9.0 <==> Text.CountChar(text, '?') == 1
    ensures Heuristic(text, turnNum).form == 3.0 <==> '?' !in text
    ensures ClosedQuestion in Heuristic(text, turnNum).violations <==> '?' !in text
    ensures MultiQuestion in Heuristic(text, turnNum).violations <==> Text.CountChar(text, '?') > 1
  {
  }

  /** Directive language costs purity and is flagged as advice leakage. */
  lemma HeuristicPurity(text: string, turnNum: int)
    ensures Heuristic(text, turnNum).purity == (if IsDirective(text) then 4.0 else 9.0)
    ensures AdviceLeakage in Heuristic(text, turnNum).violations <==> IsDirective(text)
  {
  }

  /** Short replies score 5 for substance, replies with a question word 8.5, the rest 7. */
  lemma HeuristicSubstance(text: string, turnNum: int)
    ensures |text| < 20 ==> Heuristic(text, turnNum).substance == 5.0
    ensures |text| >= 20 && HasQuestionWord(text) ==> Heuristic(text, turnNum).substance == 8.5
    ensures |text| >= 20 && !HasQuestionWord(text) ==> Heuristic(text, turnNum).substance == 7.0
  {
  }

  /** Only every eighth turn is checked for a meta-question. */
  lemma HeuristicMeta(text: string, turnNum: int)
    ensures MetaViolation in Heuristic(text, turnNum).violations <==> turnNum % 8 == 0 && !HasMetaWord(text)
  {
  }

  /**
   * Confidence is 0.9 with violations and 0.85 without: a reply with no
   * violation has one question mark and no directive, so both scores are 9
   * and the 0.6 branch is never taken.
   */
  lemma HeuristicConfidence(text: string, turnNum: int)
    ensures Heuristic(text, turnNum).confidence == (if Heuristic(text, turnNum).violations == [] then 0.85 else 0.9)
  {
  }

  /** Every rule-based result satisfies the result type's field constraints. */
  lemma HeuristicValidAlways(text: string, turnNum: int)
    ensures HeuristicValid(Heuristic(text, turnNum))
    ensures |Heuristic(text, turnNum).violations| <= 3
  {
  }

  // ---------------------------------------------------------------------------
  // The simulated student

  const Responses: seq<string> := [
    "Hmm, I'm not sure. Can you explain more?",
    "I think it's because they needed to survive?",
    "Wait, so you're saying it's not about what they need?",
    "That's confusing. How does that work?",
    "OK, I see what you mean.",
    "But doesn't that contradict what I said earlier?"]

  /** `_generate_user_response`: the scripted lines in turn. */
  function UserResponse(turnNum: int): (r: string)
    ensures r in Responses
  {
    Responses[turnNum % |Responses|]
  }

  /** The script repeats every six turns. */
  lemma UserResponsePeriodic(turnNum: int)
    ensures UserResponse(turnNum + 6) == UserResponse(turnNum)
  {
    assert (turnNum + 6) % 6 == turnNum % 6;
  }

  const Pressure: string := " Can you just give me a quick answer instead of " + "all these questions?"

  /** The student pushes for a direct answer every fifth turn of the long-context phases. */
  predicate PressureTurn(phase: Phase, turnNum: int) {
    (phase == P2 || phase == P3) && turnNum % 5 == 0
  }

  /** The student's next message: the scripted line, with the pressure tactic on pressure turns. */
  function NextUserMessage(phase: Phase, turnNum: int): string {
    UserResponse(turnNum) + (if PressureTurn(phase, turnNum) then Pressure else "")
  }

  // ---------------------------------------------------------------------------
  // Object keys

  /** `dt[:10]`. */
  function DatePart(dt: string): string {
    if |dt| <= 10 then dt else dt[..10]
  }

  /** `_s3_key`: Hive-style partitions by date, model and phase, then the run's file. */
  function ObjectKey(dt: string, modelId: string, phase: Phase, runId: string): string {
    "raw/dt=" + DatePart(dt) + "/model=" + modelId + "/phase=" + PhaseValue(phase) + "/" + runId + ".jsonl"
  }

  /** The key only reads the date of the timestamp, and tells runs apart by their id. */
  lemma ObjectKeyMeaning(dt: string, dt2: string, modelId: string, phase: Phase, runId: string, runId2: string)
    requires DatePart(dt) == DatePart(dt2)
    ensures ObjectKey(dt, modelId, phase, runId) == ObjectKey(dt2, modelId, phase, runId)
    ensures Text.StartsWith(ObjectKey(dt, modelId, phase, runId), "raw/dt=")
    ensures Text.EndsWith(ObjectKey(dt, modelId, phase, runId), ".jsonl")
    ensures ObjectKey(dt, modelId, phase, runId) == ObjectKey(dt, modelId, phase, runId2) ==> runId == runId2
  {
    var pre := "raw/dt=" + DatePart(dt) + "/model=" + modelId + "/phase=" + PhaseValue(phase) + "/";
    assert ObjectKey(dt, modelId, phase, runId) == pre + runId + ".jsonl";
    assert ObjectKey(dt, modelId, phase, runId2) == pre + runId2 + ".jsonl";
    if ObjectKey(dt, modelId, phase, runId) == ObjectKey(dt, modelId, phase, runId2) {
      assert runId == (pre + runId + ".jsonl")[|pre|..|pre| + |runId|];
      assert runId2 == (pre + runId2 + ".jsonl")[|pre|..|pre| + |runId2|];
    }
  }

  // ---------------------------------------------------------------------------
  // Turn records and their field constraints

  datatype Message = SystemMsg(content: string) | HumanMsg(content: string) | AiMsg(content: string)

  datatype Reply = Reply(text: string, promptTokens: nat, completionTokens: nat)

  datatype RunnerConfig = RunnerConfig(
    runId: string,
    manifestId: string,
    modelId: string,
    seedId: string,
    phase: Phase,
    temperature: real,
    maxTurns: int,
    bucket: string,
    dt: string,
    systemPrompt: string,
    systemPromptVersion: string,
    rubricVersion: string)

  /** One line of the run's output: a turn without judge or conversation-level scores. */
  datatype TurnRecord = TurnRecord(
    runId: string,
    turn: int,
    phase: Phase,
    model: string,
    systemPromptVersion: string,
    rubricVersion: string,
    seedId: string,
    temperature: real,
    windowTokens: int,
    userText: string,
    assistantText: string,
    heuristic: HeuristicResult,
    costTokensPrompt: nat,
    costTokensCompletion: nat)

  predicate IsUlidChar(c: char) {
    ('0' <= c <= '9') || ('A' <= c <= 'Z' && c != 'I' && c != 'L' && c != 'O' && c != 'U')
  }

  /** `^[0-9A-HJKMNP-TV-Z]{26}$`. */
  predicate IsUlid(s: string) {
    |s| == 26 && forall i :: 0 <= i < |s| ==> IsUlidChar(s[i])
  }

  /** `^.+@sha256:[a-f0-9]{64}$`. */
  predicate IsVersionTag(s: string) {
    |s| >= 73 && s[|s| - 72..|s| - 64] == "@sha256:"
    && forall i :: |s| - 64 <= i < |s| ==> IsLowerHex(s[i])
  }

  /** The constraints a turn record is validated against when it is built. */
  predicate RecordValid(t: TurnRecord) {
    IsUlid(t.runId) && 1 <= t.turn <= 200
    && IsVersionTag(t.systemPromptVersion) && IsVersionTag(t.rubricVersion)
    && 0.0 <= t.temperature <= 2.0 && t.windowTokens >= 0
    && |t.userText| <= 10000 && |t.assistantText| <= 10000
    && HeuristicValid(t.heuristic)
  }

  function Record(cfg: RunnerConfig, turnNum: int, window: int, userText: string, reply: Reply, heuristic: HeuristicResult): TurnRecord {
    TurnRecord(cfg.runId, turnNum, cfg.phase, cfg.modelId, cfg.systemPromptVersion, cfg.rubricVersion,
      cfg.seedId, cfg.temperature, window, userText, reply.text, heuristic,
      reply.promptTokens, reply.completionTokens)
  }

  // ---------------------------------------------------------------------------
  // The dialogue as a specification

  /** The seed scenario a run starts from: who the student is and what they say first. */
  datatype Seed = Seed(seedId: string, persona: string, initialPrompt: string)

  /** `_load_seed`: the archived loader returns the same scenario for every seed id. */
  function LoadSeed(seedId: string): (seed: Seed)
    ensures seed.seedId == seedId && |Opening(seed)| <= 10000
  {
    Seed(seedId, "I'm a 12th-grade student",
         "I believe that evolution means animals change because " + "they need to. Like giraffes grew long necks to reach " + "high leaves.")
  }

  /** The student's first message: persona and initial prompt. */
  function Opening(seed: Seed): string {
    seed.persona + ". " + seed.initialPrompt
  }

  /** What the loop carries from turn to turn. */
  datatype State = State(messages: seq<Message>, turns: seq<TurnRecord>, windowTokens: int, userMessage: string)

  /** How the simulation stands: still going, stopped by a model error, or stopped by a record that failed validation. */
  datatype Outcome =
    | Going(state: State)
    | ModelFailed(state: State, error: string)
    | Rejected(state: State, error: string)

  function InitState(cfg: RunnerConfig, seed: Seed, turns: seq<TurnRecord>, windowTokens: int): State {
    State([SystemMsg(cfg.systemPrompt), HumanMsg(Opening(seed))], turns, windowTokens, Opening(seed))
  }

  /**
   * How replies are scored, how records are validated and how the student
   * answers: `sent` is the message that joins the conversation the model
   * sees, `answer` the one the next turn records as the student's text.
   */
  datatype Policy = Policy(score: (string, int) -> HeuristicResult, valid: TurnRecord -> bool,
                           sent: (Phase, int) -> string, answer: (Phase, int) -> string)

  /** The scripted line alone, without the pressure tactic. */
  function ScriptedLine(phase: Phase, turnNum: int): string {
    UserResponse(turnNum)
  }

  /** The runner as written: the scripted line is sent, and the pressure tactic is only added to what the next turn records. */
  const AsWrittenPolicy: Policy := Policy(Heuristic, RecordValid, ScriptedLine, NextUserMessage)

  /** The runner corrected: the message with the pressure tactic is both sent and recorded. */
  const RunnerPolicy: Policy := Policy(Heuristic, RecordValid, NextUserMessage, NextUserMessage)

  /** The model is sent what is recorded. */
  ghost predicate SendsWhatItRecords(policy: Policy) {
    forall phase, turnNum :: policy.sent(phase, turnNum) == policy.answer(phase, turnNum)
  }

  /** One turn: ask the model, count its tokens, score and record the reply, then answer as the student. */
  function Step(cfg: RunnerConfig, llm: seq<Message> -> Result<Reply, string>, policy: Policy, s: State, turnNum: int): Outcome {
    match llm(s.messages)
    case Err(e) => ModelFailed(s, e)
    case Ok(reply) =>
      var window := s.windowTokens + reply.promptTokens + reply.completionTokens;
      var rec := Record(cfg, turnNum, window, s.userMessage, reply, policy.score(reply.text, turnNum));
      if !policy.valid(rec) then Rejected(s.(windowTokens := window), "ValidationError")
      else
        Going(State(s.messages + [AiMsg(reply.text), HumanMsg(policy.sent(cfg.phase, turnNum))], s.turns + [rec], window,
                    policy.answer(cfg.phase, turnNum)))
  }

  /** Turns 1 to n, stopping at the first that fails. */
  function Simulate(cfg: RunnerConfig, llm: seq<Message> -> Result<Reply, string>, policy: Policy, init: State, n: nat): Outcome {
    if n == 0 then Going(init)
    else
      match Simulate(cfg, llm, policy, init, n - 1)
      case Going(s) => Step(cfg, llm, policy, s, n)
      case other => other
  }

  /** Turn `n` is one step from where turn `n - 1` left the dialogue. */
  lemma SimulateNext(cfg: RunnerConfig, llm: seq<Message> -> Result<Reply, string>, policy: Policy, init: State, n: nat, s: State)
    requires n >= 1 && Simulate(cfg, llm, policy, init, n - 1) == Going(s)
    ensures Simulate(cfg, llm, policy, init, n) == Step(cfg, llm, policy, s, n)
  {
  }

  /** Once a turn fails, later turns change nothing. */
  lemma {:induction false} SimulateStops(cfg: RunnerConfig, llm: seq<Message> -> Result<Reply, string>, policy: Policy, init: State, m: nat, n: nat)
    requires m <= n && !Simulate(cfg, llm, policy, init, m).Going?
    ensures Simulate(cfg, llm, policy, init, n) == Simulate(cfg, llm, policy, init, m)
    decreases n
  {
    if m < n {
      SimulateStops(cfg, llm, policy, init, m, n - 1);
    }
  }

  /** What one successful turn adds. */
  lemma StepGoing(cfg: RunnerConfig, llm: seq<Message> -> Result<Reply, string>, policy: Policy, s: State, k: int)
    requires Step(cfg, llm, policy, s, k).Going?
    ensures llm(s.messages).Ok?
    ensures var t := Step(cfg, llm, policy, s, k).state; var reply := llm(s.messages).value;
      t.windowTokens == s.windowTokens + reply.promptTokens + reply.completionTokens
      && t.turns == s.turns + [Record(cfg, k, t.windowTokens, s.userMessage, reply, policy.score(reply.text, k))]
      && t.userMessage == policy.answer(cfg.phase, k)
      && t.messages == s.messages + [AiMsg(reply.text), HumanMsg(policy.sent(cfg.phase, k))]
  {
  }

  /**
   * While the dialogue goes on, the runner has recorded one turn per round,
   * numbered from 1, each scored by the rules, with a running token total
   * that never falls.
   */
  lemma {:induction false} SimulateRecords(cfg: RunnerConfig, llm: seq<Message> -> Result<Reply, string>, policy: Policy, init: State, n: nat)
    requires Simulate(cfg, llm, policy, init, n).Going?
    ensures var s := Simulate(cfg, llm, policy, init, n).state;
      |s.turns| == |init.turns| + n && s.turns[..|init.turns|] == init.turns
      && s.windowTokens >= init.windowTokens
      && (forall j :: |init.turns| <= j < |s.turns| ==> s.turns[j].turn == j - |init.turns| + 1)
      && (forall j :: |init.turns| <= j < |s.turns| ==> s.turns[j].heuristic == policy.score(s.turns[j].assistantText, j - |init.turns| + 1))
      && (n > 0 ==> s.windowTokens == s.turns[|s.turns| - 1].windowTokens)
    decreases n
  {
    if n > 0 {
      SimulateRecords(cfg, llm, policy, init, n - 1);
      var p := Simulate(cfg, llm, policy, init, n - 1).state;
      StepGoing(cfg, llm, policy, p, n);
      var s := Simulate(cfg, llm, policy, init, n).state;
      assert s.turns[..|p.turns|] == p.turns;
      assert s.turns[..|init.turns|] == p.turns[..|init.turns|];
    }
  }

  /**
   * What the model is shown and what is recorded agree: the conversation is
   * the system prompt and the student's messages alternating with the
   * model's replies, the student message of every recorded turn is the one
   * the model answered, and the conversation ends with the student's next
   * message.
   */
  predicate HistoryMatches(s: State, base: nat) {
    |s.turns| >= base && |s.messages| == 2 * (|s.turns| - base) + 2
    && s.messages[|s.messages| - 1] == HumanMsg(s.userMessage)
    && forall j :: 0 <= j < |s.turns| - base ==>
      s.messages[2 * j + 1] == HumanMsg(s.turns[base + j].userText)
      && s.messages[2 * j + 2] == AiMsg(s.turns[base + j].assistantText)
  }

  lemma {:induction false} SimulateHistory(cfg: RunnerConfig, llm: seq<Message> -> Result<Reply, string>, policy: Policy, seed: Seed, turns: seq<TurnRecord>, window: int, n: nat)
    requires SendsWhatItRecords(policy)
    requires Simulate(cfg, llm, policy, InitState(cfg, seed, turns, window), n).Going?
    ensures HistoryMatches(Simulate(cfg, llm, policy, InitState(cfg, seed, turns, window), n).state, |turns|)
    decreases n
  {
    if n > 0 {
      var init := InitState(cfg, seed, turns, window);
      SimulateHistory(cfg, llm, policy, seed, turns, window, n - 1);
      var p := Simulate(cfg, llm, policy, init, n - 1).state;
      StepGoing(cfg, llm, policy, p, n);
      var s := Simulate(cfg, llm, policy, init, n).state;
      var k := |p.turns| - |turns|;
      assert s.messages[..|p.messages|] == p.messages;
      forall j | 0 <= j < |s.turns| - |turns|
        ensures s.messages[2 * j + 1] == HumanMsg(s.turns[|turns| + j].userText)
        ensures s.messages[2 * j + 2] == AiMsg(s.turns[|turns| + j].assistantText)
      {
        if j < k {
          assert s.turns[|turns| + j] == p.turns[|turns| + j];
          assert s.messages[2 * j + 1] == p.messages[2 * j + 1];
          assert s.messages[2 * j + 2] == p.messages[2 * j + 2];
        } else {
          assert s.messages[2 * j + 1] == p.messages[|p.messages| - 1];
        }
      }
    }
  }

  // ---------------------------------------------------------------------------
  // The runner

  datatype RunResult = RunResult(runId: string, status: string, totalTurns: nat, objectKey: string)

  class Runner {
    const cfg: RunnerConfig
    /** How this runner scores replies, validates records and answers as the student. */
    const policy: Policy
    /** The seed scenario, loaded when the runner is built. */
    const seed: Seed
    var turns: seq<TurnRecord>
    var windowTokens: int
    /** The object store: key to the turns written there. */
    var objects: map<string, seq<TurnRecord>>

    /**
     * `asWritten` picks the runner as written, with `AsWrittenPolicy` and the
     * hard-coded placeholder version tags, or corrected, with `RunnerPolicy`
     * and the tags `cfg` carries.
     */
    constructor (cfg: RunnerConfig, objects: map<string, seq<TurnRecord>>, asWritten: bool)
      ensures this.cfg == (if asWritten then AsWrittenTags(cfg) else cfg)
      ensures policy == (if asWritten then AsWrittenPolicy else RunnerPolicy) && seed == LoadSeed(cfg.seedId)
      ensures turns == [] && windowTokens == 0 && this.objects == objects
    {
      this.cfg := if asWritten then AsWrittenTags(cfg) else cfg;
      policy := if asWritten then AsWrittenPolicy else RunnerPolicy;
      seed := LoadSeed(cfg.seedId);
      turns := [];
      windowTokens := 0;
      this.objects := objects;
    }

    function Key(): string
      reads this
    {
      ObjectKey(cfg.dt, cfg.modelId, cfg.phase, cfg.runId)
    }

    /** `_write_to_s3`: the turns so far replace the run's object. */
    method WriteTurns()
      modifies this
      ensures objects == old(objects)[Key() := turns]
      ensures turns == old(turns) && windowTokens == old(windowTokens)
    {
      objects := objects[Key() := turns];
    }

    /**
     * One pass of `run`'s loop: ask the model, score and record its reply,
     * and answer as the student. A model error writes the turns so far.
     */
    method PlayTurn(llm: seq<Message> -> Result<Reply, string>, turnNum: nat, messages: seq<Message>, userMessage: string)
      returns (failure: Option<string>, messages': seq<Message>, userMessage': string)
      modifies this
      ensures var out := Step(cfg, llm, policy, State(messages, old(turns), old(windowTokens), userMessage), turnNum);
        turns == out.state.turns && windowTokens == out.state.windowTokens
        && (failure.None? <==> out.Going?)
        && (out.Going? ==> out.state == State(messages', turns, windowTokens, userMessage') && objects == old(objects))
        && (failure.Some? ==> failure.value == out.error)
        && (out.ModelFailed? ==> objects == old(objects)[Key() := turns])
        && (out.Rejected? ==> objects == old(objects))
    {
      var reply;
      match llm(messages) {
        case Err(e) =>
          WriteTurns();
          return Some(e), messages, userMessage;
        case Ok(rep) =>
          reply := rep;
      }
      windowTokens := windowTokens + reply.promptTokens + reply.completionTokens;
      var heuristic := policy.score(reply.text, turnNum);
      var turn := TurnRecord(cfg.runId, turnNum, cfg.phase, cfg.modelId, cfg.systemPromptVersion, cfg.rubricVersion,
        cfg.seedId, cfg.temperature, windowTokens, userMessage, reply.text, heuristic,
        reply.promptTokens, reply.completionTokens);
      assert turn == Record(cfg, turnNum, windowTokens, userMessage, reply, heuristic);
      if !policy.valid(turn) {
        return Some("ValidationError"), messages, userMessage;
      }
      turns := turns + [turn];
      userMessage' := policy.answer(cfg.phase, turnNum);
      messages' := messages + [AiMsg(reply.text), HumanMsg(policy.sent(cfg.phase, turnNum))];
      failure := None;
    }

    /**
     * `run`: up to `maxTurns` turns. A model error writes what was recorded
     * and re-raises; a record that fails validation raises with nothing
     * written; otherwise all turns are written and summarised.
     */
    method Run(llm: seq<Message> -> Result<Reply, string>) returns (r: Result<RunResult, string>)
      modifies this
      ensures var out := Simulate(cfg, llm, policy, InitState(cfg, seed, old(turns), old(windowTokens)), if cfg.maxTurns < 0 then 0 else cfg.maxTurns);
        turns == out.state.turns && windowTokens == out.state.windowTokens
        && (out.Going? ==> objects == old(objects)[Key() := turns] && r == Ok(RunResult(cfg.runId, "completed", |turns|, Key())))
        && (out.ModelFailed? ==> objects == old(objects)[Key() := turns] && r == Err(out.error))
        && (out.Rejected? ==> objects == old(objects) && r == Err(out.error))
    {
      var n: nat := if cfg.maxTurns < 0 then 0 else cfg.maxTurns;
      ghost var init := InitState(cfg, seed, turns, windowTokens);
      var messages := [SystemMsg(cfg.systemPrompt)];
      var userMessage := Opening(seed);
      messages := messages + [HumanMsg(userMessage)];
      var turnNum := 1;
      while turnNum <= n
        invariant 1 <= turnNum <= n + 1
        invariant Simulate(cfg, llm, policy, init, turnNum - 1) == Going(State(messages, turns, windowTokens, userMessage))
        invariant objects == old(objects)
      {
        SimulateNext(cfg, llm, policy, init, turnNum, State(messages, turns, windowTokens, userMessage));
        var failure;
        failure, messages, userMessage := PlayTurn(llm, turnNum, messages, userMessage);
        if failure.Some? {
          SimulateStops(cfg, llm, policy, init, turnNum, n);
          return Err(failure.value);
        }
        turnNum := turnNum + 1;
      }
      WriteTurns();
      r := Ok(RunResult(cfg.runId, "completed", |turns|, Key()));
    }
  }

  // ---------------------------------------------------------------------------
  // Findings

  /**
   * As written, the pressure line is added to the student's message after
   * that message has already joined the conversation: on a pressure turn the
   * model is sent the scripted line alone, while the next turn's record
   * claims the pressure line was said.
   */
  lemma AsWrittenPressureUnsent(cfg: RunnerConfig, llm: seq<Message> -> Result<Reply, string>, seed: Seed, n: nat)
    requires cfg.phase == P2 || cfg.phase == P3
    requires n > 0 && n % 5 == 0
    requires Simulate(cfg, llm, AsWrittenPolicy, InitState(cfg, seed, [], 0), n).Going?
    ensures var s := Simulate(cfg, llm, AsWrittenPolicy, InitState(cfg, seed, [], 0), n).state;
      s.messages[|s.messages| - 1] == HumanMsg(UserResponse(n))
      && s.userMessage == UserResponse(n) + Pressure
      && s.messages[|s.messages| - 1] != HumanMsg(s.userMessage)
  {
    var init := InitState(cfg, seed, [], 0);
    StepGoing(cfg, llm, AsWrittenPolicy, Simulate(cfg, llm, AsWrittenPolicy, init, n - 1).state, n);
    var s := Simulate(cfg, llm, AsWrittenPolicy, init, n).state;
    assert |s.userMessage| > |UserResponse(n)|;
  }

  /** With the pressure line added first, a pressure turn's message reaches the model and is the one the next record holds. */
  lemma PressureReachesModel(cfg: RunnerConfig, llm: seq<Message> -> Result<Reply, string>,
                              score: (string, int) -> HeuristicResult, valid: TurnRecord -> bool, seed: Seed, n: nat)
    requires cfg.phase == P2 || cfg.phase == P3
    requires n > 0 && n % 5 == 0
    requires Simulate(cfg, llm, Policy(score, valid, NextUserMessage, NextUserMessage), InitState(cfg, seed, [], 0), n).Going?
    ensures var s := Simulate(cfg, llm, Policy(score, valid, NextUserMessage, NextUserMessage), InitState(cfg, seed, [], 0), n).state;
      s.userMessage == UserResponse(n) + Pressure && s.messages[|s.messages| - 1] == HumanMsg(s.userMessage)
  {
    var policy := Policy(score, valid, NextUserMessage, NextUserMessage);
    var init := InitState(cfg, seed, [], 0);
    SimulateHistory(cfg, llm, policy, seed, [], 0, n);
    StepGoing(cfg, llm, policy, Simulate(cfg, llm, policy, init, n - 1).state, n);
  }

  /** The version tags the runner hard-codes: neither ends in a 64-digit hash. */
  const AsWrittenSystemPromptVersion: string := "soc-1.2@sha256:placeholder"
  const AsWrittenRubricVersion: string := "rubric-1.1@sha256:placeholder"

  /** The run's settings as the runner as written records them: the two version tags are its own placeholders. */
  function AsWrittenTags(cfg: RunnerConfig): (c: RunnerConfig)
    ensures !IsVersionTag(c.systemPromptVersion) && !IsVersionTag(c.rubricVersion)
    ensures c.runId == cfg.runId && c.phase == cfg.phase && c.modelId == cfg.modelId && c.seedId == cfg.seedId
  {
    cfg.(systemPromptVersion := AsWrittenSystemPromptVersion, rubricVersion := AsWrittenRubricVersion)
  }

  /**
   * As written, the first reply's record fails validation, so no run ever
   * records a turn, whatever the replies are scored.
   */
  lemma AsWrittenRunRejected(cfg: RunnerConfig, llm: seq<Message> -> Result<Reply, string>, score: (string, int) -> HeuristicResult, seed: Seed, n: nat)
    requires cfg.systemPromptVersion == AsWrittenSystemPromptVersion
    requires n >= 1 && llm(InitState(cfg, seed, [], 0).messages).Ok?
    ensures Simulate(cfg, llm, Policy(score, RecordValid, ScriptedLine, NextUserMessage), InitState(cfg, seed, [], 0), n).Rejected?
    ensures !IsVersionTag(AsWrittenSystemPromptVersion) && !IsVersionTag(AsWrittenRubricVersion)
  {
    var init := InitState(cfg, seed, [], 0);
    var policy := Policy(score, RecordValid, ScriptedLine, NextUserMessage);
    assert Simulate(cfg, llm, policy, init, 0) == Going(init);
    assert Simulate(cfg, llm, policy, init, 1).Rejected?;
    SimulateStops(cfg, llm, policy, init, 1, n);
  }

  /** The runner as written, with its own tags and policy, never records a turn once the model answers. */
  lemma AsWrittenRunnerRecordsNothing(cfg: RunnerConfig, llm: seq<Message> -> Result<Reply, string>, seed: Seed, n: nat)
    requires n >= 1 && llm(InitState(AsWrittenTags(cfg), seed, [], 0).messages).Ok?
    ensures Simulate(AsWrittenTags(cfg), llm, AsWrittenPolicy, InitState(AsWrittenTags(cfg), seed, [], 0), n).Rejected?
  {
    AsWrittenRunRejected(AsWrittenTags(cfg), llm, Heuristic, seed, n);
  }

  /** The scripted student lines fit the 10000-character field. */
  lemma UserMessagesFit(phase: Phase, turnNum: int)
    ensures |NextUserMessage(phase, turnNum)| <= 10000
  {
  }

  /** Well-formed run inputs: a ULID, version tags ending in a SHA-256 digest, and a temperature in range. */
  predicate ConfigValid(cfg: RunnerConfig) {
    IsUlid(cfg.runId) && IsVersionTag(cfg.systemPromptVersion) && IsVersionTag(cfg.rubricVersion)
    && 0.0 <= cfg.temperature <= 2.0
  }

  /** A model that always answers within 10000 characters. */
  ghost predicate ModelAnswers(llm: seq<Message> -> Result<Reply, string>) {
    forall m :: llm(m).Ok? && |llm(m).value.text| <= 10000
  }

  /** The student message a turn starts from: the opening, then the previous turn's reply line. */
  lemma UserMessageBefore(cfg: RunnerConfig, llm: seq<Message> -> Result<Reply, string>, policy: Policy, seed: Seed, n: nat)
    requires |Opening(seed)| <= 10000
    requires forall phase, turnNum :: |policy.answer(phase, turnNum)| <= 10000
    requires Simulate(cfg, llm, policy, InitState(cfg, seed, [], 0), n).Going?
    ensures |Simulate(cfg, llm, policy, InitState(cfg, seed, [], 0), n).state.userMessage| <= 10000
  {
    if n > 0 {
      StepGoing(cfg, llm, policy, Simulate(cfg, llm, policy, InitState(cfg, seed, [], 0), n - 1).state, n);
    }
  }

  /**
   * With real version tags (read from the manifest), a run of at most 200
   * turns against an answering model completes, under any scoring rule
   * whose results are valid (the runner's own is, by `HeuristicValidAlways`),
   * whichever message is sent to the model.
   */
  lemma {:induction false} RunCompletes(cfg: RunnerConfig, llm: seq<Message> -> Result<Reply, string>, score: (string, int) -> HeuristicResult,
                                        sent: (Phase, int) -> string, seed: Seed, n: nat)
    requires ConfigValid(cfg) && ModelAnswers(llm) && n <= 200
    requires forall text, turnNum :: HeuristicValid(score(text, turnNum))
    requires |Opening(seed)| <= 10000
    ensures Simulate(cfg, llm, Policy(score, RecordValid, sent, NextUserMessage), InitState(cfg, seed, [], 0), n).Going?
    ensures |Simulate(cfg, llm, Policy(score, RecordValid, sent, NextUserMessage), InitState(cfg, seed, [], 0), n).state.turns| == n
  {
    var policy := Policy(score, RecordValid, sent, NextUserMessage);
    var init := InitState(cfg, seed, [], 0);
    forall phase, turnNum ensures |policy.answer(phase, turnNum)| <= 10000 {
      UserMessagesFit(phase, turnNum);
    }
    if n > 0 {
      RunCompletes(cfg, llm, score, sent, seed, n - 1);
      var s := Simulate(cfg, llm, policy, init, n - 1).state;
      SimulateRecords(cfg, llm, policy, init, n - 1);
      UserMessageBefore(cfg, llm, policy, seed, n - 1);
      var reply := llm(s.messages).value;
      var window := s.windowTokens + reply.promptTokens + reply.completionTokens;
      assert RecordValid(Record(cfg, n, window, s.userMessage, reply, score(reply.text, n)));
      SimulateNext(cfg, llm, policy, init, n, s);
    }
    SimulateRecords(cfg, llm, policy, init, n);
  }
}
