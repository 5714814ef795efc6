/**
 * The context expander of the context-growth tests: a conversation history
 * that grows turn by turn, with distractor text piled in front of each user
 * message under the cumulative-distractor strategy, a rough token count, and
 * the prompt built from the history.
 */
module ContextExpanderModel {
  import opened Wrappers
  import Text

  /** A history entry, a dictionary with optional "system", "user" and "assistant" keys. */
  datatype HistoryTurn = HistoryTurn(system: Option<string>, user: Option<string>, assistant: Option<string>)

  /** Context statistics as `get_context_stats` reports them. */
  datatype ContextStats = ContextStats(totalTurns: nat, estimatedTokens: nat, distractorsAdded: nat, strategy: string)

  const CumulativeDistractor: string := "cumulative_distractor"

  /** `estimate_tokens`: one token per four characters, rounded down. */
  function EstimateTokens(text: string): (n: nat)
    ensures 4 * n <= |text| < 4 * n + 4
  {
    |text| / 4
  }

  /** A Python string argument that is truthy: present and not empty. */
  predicate Truthy(s: Option<string>) {
    s.Some? && s.value != []
  }

  /** The estimate of an optional field, 0 when the key is absent. */
  function FieldTokens(f: Option<string>): nat {
    if f.Some? then EstimateTokens(f.value) else 0
  }

  /** The system-prompt tokens of the history. */
  function SystemTokens(h: seq<HistoryTurn>): nat {
    if h == [] then 0 else SystemTokens(h[..|h| - 1]) + FieldTokens(h[|h| - 1].system)
  }

  /** The user and assistant tokens of the history. */
  function DialogueTokens(h: seq<HistoryTurn>): nat {
    if h == [] then 0
    else DialogueTokens(h[..|h| - 1]) + FieldTokens(h[|h| - 1].user) + FieldTokens(h[|h| - 1].assistant)
  }

  /** The estimated size of the whole context. */
  function ContextSize(h: seq<HistoryTurn>): nat {
    SystemTokens(h) + DialogueTokens(h)
  }

  /** Whether a turn under `strategy` with this distractor piles distractors up. */
  predicate Piles(strategy: string, distractorText: Option<string>) {
    strategy == CumulativeDistractor && Truthy(distractorText)
  }

  /** The distractor list after a turn. */
  function NextDistractors(strategy: string, distractors: seq<string>, distractorText: Option<string>): seq<string> {
    if Piles(strategy, distractorText) then distractors + [distractorText.value] else distractors
  }

  /** The entry a turn adds: the user text (behind every distractor so far when they pile up) and the reply if any. */
  function NewTurn(strategy: string, distractors: seq<string>, userMessage: string,
                   assistantResponse: Option<string>, distractorText: Option<string>): HistoryTurn
  {
    var user :=
      if Piles(strategy, distractorText) then Text.Join(distractors + [distractorText.value] + [userMessage], "\n\n")
      else userMessage;
    HistoryTurn(None, Some(user), if Truthy(assistantResponse) then assistantResponse else None)
  }

  /** The prompt pieces of one turn. */
  function TurnParts(t: HistoryTurn): seq<string> {
    (if t.user.Some? then ["\n\nUser: " + t.user.value] else [])
    + (if t.assistant.Some? then ["\n\nAssistant: " + t.assistant.value] else [])
  }

  /** The system prompt followed by the pieces of every turn. */
  function PromptParts(systemPrompt: string, h: seq<HistoryTurn>): (r: seq<string>)
    ensures |r| > 0 && r[0] == systemPrompt
  {
    if h == [] then [systemPrompt] else PromptParts(systemPrompt, h[..|h| - 1]) + TurnParts(h[|h| - 1])
  }

  /** `build_prompt`: the pieces joined by newlines. */
  function Prompt(systemPrompt: string, h: seq<HistoryTurn>, includeHistory: bool): string {
    Text.Join(PromptParts(systemPrompt, if includeHistory then h else []), "\n")
  }

  class ContextExpander {
    const strategy: string
    var conversationHistory: seq<HistoryTurn>
    var distractorsAdded: seq<string>

    /** `ContextExpander(strategy="cumulative_distractor")`. */
    constructor(strategy: string := CumulativeDistractor)
      ensures this.strategy == strategy && conversationHistory == [] && distractorsAdded == []
    {
      this.strategy := strategy;
      conversationHistory := [];
      distractorsAdded := [];
    }

    /** `add_turn`: one entry more, and one distractor more when they pile up. */
    method AddTurn(userMessage: string, assistantResponse: Option<string>, distractorText: Option<string>)
      modifies this
      ensures distractorsAdded == NextDistractors(strategy, old(distractorsAdded), distractorText)
      ensures conversationHistory == old(conversationHistory)
        + [NewTurn(strategy, old(distractorsAdded), userMessage, assistantResponse, distractorText)]
    {
      var modifiedUser;
      if strategy == CumulativeDistractor && distractorText.Some? && distractorText.value != [] {
        distractorsAdded := distractorsAdded + [distractorText.value];
        modifiedUser := Text.Join(distractorsAdded + [userMessage], "\n\n");
      } else {
        modifiedUser := userMessage;
      }
      var turn := HistoryTurn(None, Some(modifiedUser), None);
      if assistantResponse.Some? && assistantResponse.value != [] {
        turn := turn.(assistant := assistantResponse);
      }
      conversationHistory := conversationHistory + [turn];
    }

    /** `get_current_context_size`: the system prompts first, then the user and assistant texts. */
    method GetCurrentContextSize() returns (total: nat)
      ensures total == ContextSize(conversationHistory)
    {
      var h := conversationHistory;
      total := 0;
      for i := 0 to |h|
        invariant total == SystemTokens(h[..i])
      {
        if h[i].system.Some? {
          total := total + EstimateTokens(h[i].system.value);
        }
        assert h[..i + 1][..i] == h[..i];
      }
      assert h[..|h|] == h;
      for i := 0 to |h|
        invariant total == SystemTokens(h) + DialogueTokens(h[..i])
      {
        if h[i].user.Some? {
          total := total + EstimateTokens(h[i].user.value);
        }
        if h[i].assistant.Some? {
          total := total + EstimateTokens(h[i].assistant.value);
        }
        assert h[..i + 1][..i] == h[..i];
      }
      assert h[..|h|] == h;
    }

    /** `build_prompt`: the system prompt, then the turns when asked for. */
    method BuildPrompt(systemPrompt: string, includeHistory: bool) returns (r: string)
      ensures r == Prompt(systemPrompt, conversationHistory, includeHistory)
    {
      var parts := [systemPrompt];
      if includeHistory {
        var h := conversationHistory;
        for i := 0 to |h|
          invariant parts == PromptParts(systemPrompt, h[..i])
        {
          if h[i].user.Some? {
            parts := parts + ["\n\nUser: " + h[i].user.value];
          }
          if h[i].assistant.Some? {
            parts := parts + ["\n\nAssistant: " + h[i].assistant.value];
          }
          assert h[..i + 1][..i] == h[..i];
        }
        assert h[..|h|] == h;
      }
      r := Text.Join(parts, "\n");
    }

    /** `get_context_stats` */
    function GetContextStats(): (s: ContextStats)
      reads this
      ensures s.totalTurns == |conversationHistory| && s.estimatedTokens == ContextSize(conversationHistory)
      ensures s.distractorsAdded == |distractorsAdded| && s.strategy == strategy
    {
      ContextStats(|conversationHistory|, ContextSize(conversationHistory), |distractorsAdded|, strategy)
    }
  }

  // ---------------------------------------------------------------------------
  // What the expander promises

  /**
   * A turn that piles up adds its distractor to the list, and its user text
   * is every distractor so far then the message, separated by blank lines;
   * any other turn keeps the list and the message as they are.
   */
  lemma AddTurnMeaning(strategy: string, distractors: seq<string>, userMessage: string,
                       assistantResponse: Option<string>, distractorText: Option<string>)
    ensures var t := NewTurn(strategy, distractors, userMessage, assistantResponse, distractorText);
      var next := NextDistractors(strategy, distractors, distractorText);
      && (Piles(strategy, distractorText) ==>
            |next| == |distractors| + 1 && next[..|distractors|] == distractors
            && t.user == Some(Text.Join(next + [userMessage], "\n\n")))
      && (!Piles(strategy, distractorText) ==> next == distractors && t.user == Some(userMessage))
      && t.system.None?
      && (t.assistant.Some? <==> Truthy(assistantResponse))
  {
  }

  /** Piling up: the user text ends with the message, after the joined distractors and a blank line. */
  lemma PiledTextEndsWithMessage(distractors: seq<string>, userMessage: string)
    requires |distractors| > 0
    ensures Text.Join(distractors + [userMessage], "\n\n") == Text.Join(distractors, "\n\n") + "\n\n" + userMessage
  {
    Text.JoinSnoc(distractors, userMessage, "\n\n");
  }

  /** A new turn adds its own estimate to the context size. */
  lemma {:induction false} ContextGrowsByTurn(h: seq<HistoryTurn>, t: HistoryTurn)
    ensures ContextSize(h + [t]) == ContextSize(h) + FieldTokens(t.system) + FieldTokens(t.user) + FieldTokens(t.assistant)
  {
    assert (h + [t])[..|h|] == h;
  }

  /** Without the history the prompt is the system prompt alone. */
  lemma PromptWithoutHistory(systemPrompt: string, h: seq<HistoryTurn>)
    ensures Prompt(systemPrompt, h, false) == systemPrompt
  {
  }

  /** A turn with a user message and a reply extends the prompt by exactly its two pieces. */
  lemma PromptExtends(systemPrompt: string, h: seq<HistoryTurn>, user: string, reply: string)
    ensures Prompt(systemPrompt, h + [HistoryTurn(None, Some(user), Some(reply))], true)
      == Prompt(systemPrompt, h, true) + "\n" + "\n\nUser: " + user + "\n" + "\n\nAssistant: " + reply
  {
    var t := HistoryTurn(None, Some(user), Some(reply));
    var parts := PromptParts(systemPrompt, h);
    assert (h + [t])[..|h|] == h;
    assert PromptParts(systemPrompt, h + [t]) == parts + ["\n\nUser: " + user] + ["\n\nAssistant: " + reply];
    Text.JoinSnoc(parts, "\n\nUser: " + user, "\n");
    Text.JoinSnoc(parts + ["\n\nUser: " + user], "\n\nAssistant: " + reply, "\n");
  }
}
