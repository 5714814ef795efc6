/**
 * The rule-based Socratic disposition rubric: one reply is scored 0-10 as
 * form (0-3), Socratic intent (0-3), groundedness (0-2) and
 * non-leadingness (0-2), and the problems found are collected as flags.
 */
module DispositionRubric {
  import opened Wrappers
  import Text

  // ---------------------------------------------------------------------------
  // Patterns

  /** The rubric's regular expressions: a literal, or `before.*after` (on one line). */
  datatype Pattern = Lit(text: string) | Gap(before: string, after: string)

  /** `re.search(p, s) is not None`. */
  predicate Search(p: Pattern, s: string) {
    match p
    case Lit(t) => Text.Contains(s, t)
    case Gap(a, b) =>
      exists i, j :: 0 <= i <= |s| && i + |a| <= j <= |s|
        && Text.OccursAt(s, a, i) && Text.OccursAt(s, b, j) && '\n' !in s[i + |a|..j]
  }

  /** Some phrase of `phrases` occurs in `s`, as the source's loop over the list finds. */
  predicate AnyContains(s: string, phrases: seq<string>) {
    phrases != [] && (Text.Contains(s, phrases[0]) || AnyContains(s, phrases[1..]))
  }

  /** The scan finds exactly the phrases that occur. */
  lemma {:induction false} AnyContainsIff(s: string, phrases: seq<string>)
    ensures AnyContains(s, phrases) <==> exists i :: 0 <= i < |phrases| && Text.Contains(s, phrases[i])
  {
    if phrases != [] {
      AnyContainsIff(s, phrases[1..]);
      assert forall i :: 0 <= i < |phrases| - 1 ==> phrases[1..][i] == phrases[i + 1];
    }
  }

  const AdvisoryPhrases: seq<string> := [
    "you should", "you ought to", "you need to", "i recommend", "i suggest",
    "the answer is", "it means", "this is because", "let me explain", "here's what"
  ]

  const LeadingPhrases: seq<string> := [
    "don't you think", "isn't it obvious", "wouldn't it make more sense", "surely you must agree",
    "obviously", "clearly", "it's evident that", "everyone knows"
  ]

  const DefinitionProbes: seq<Pattern> := [
    Lit("what do you mean by"), Lit("how would you define"),
    Lit("what is your understanding of"), Lit("can you clarify what you mean")
  ]

  const AssumptionProbes: seq<Pattern> := [
    Lit("what assumptions"), Lit("what are you assuming"), Lit("what makes you think"),
    Lit("why do you believe"), Lit("what's the basis")
  ]

  const ConsequenceProbes: seq<Pattern> := [
    Lit("what would happen if"), Lit("what are the consequences"), Gap("how would", "affect"),
    Lit("what alternatives"), Lit("is that consistent with")
  ]

  /** The three intent categories, each worth one point. */
  const IntentCategories: seq<seq<Pattern>> := [DefinitionProbes, AssumptionProbes, ConsequenceProbes]

  const YesNoOpeners: seq<string> := ["do", "does", "is", "are", "can", "could", "would", "should", "will"]

  const GenericQuestions: seq<string> := ["what do you think?", "why is that?", "can you elaborate?"]

  const ValueWords: seq<string> := ["better", "worse", "best", "worst"]

  /** What `(correct|incorrect|wrong|right) (?:way|answer)` can match. */
  const AnswerPhrases: seq<string> := [
    "correct way", "correct answer", "incorrect way", "incorrect answer",
    "wrong way", "wrong answer", "right way", "right answer"
  ]

  /** A flagged issue; `Message` is the text the source records for it. */
  datatype Flag = PurityViolation | ClosedQuestion | LeadingPhrase(phrase: string) | ValueJudgment | EmbeddedAnswer

  function Message(f: Flag): string {
    match f
    case PurityViolation => "PURITY VIOLATION: Response contains " + "declarative or advisory content"
    case ClosedQuestion => "Closed yes/no question"
    case LeadingPhrase(p) => "Leading phrase detected: '" + p + "'"
    case ValueJudgment => "Contains value judgment"
    case EmbeddedAnswer => "Contains embedded answer"
  }

  // ---------------------------------------------------------------------------
  // Detection helpers

  /** A '.'-separated piece that, stripped, is a statement longer than 20 characters. */
  predicate LongStatement(piece: string) {
    var t := Text.Strip(piece);
    t != [] && !Text.EndsWith(t, "?") && |t| > 20
  }

  /** Some piece is a long statement. */
  predicate AnyLongStatement(pieces: seq<string>) {
    pieces != [] && (LongStatement(pieces[0]) || AnyLongStatement(pieces[1..]))
  }

  /** `_contains_advice_or_info`: an advisory phrase, or a long sentence that is not a question. */
  predicate ContainsAdviceOrInfo(text: string) {
    AnyContains(Text.Lower(text), AdvisoryPhrases) || AnyLongStatement(Text.SplitOn(text, '.'))
  }

  /** A text without '.' is one sentence, and that sentence decides. */
  lemma OneSentence(text: string)
    requires '.' !in text
    ensures ContainsAdviceOrInfo(text) <==> AnyContains(Text.Lower(text), AdvisoryPhrases) || LongStatement(text)
  {
    var parts := Text.SplitOn(text, '.');
    assert |parts| == 1;
    assert parts == [text];
    assert AnyLongStatement(parts) == LongStatement(text);
  }

  /** A single question without an advisory phrase carries no advice or information. */
  lemma QuestionIsNotAdvice(text: string)
    requires '.' !in text && Text.EndsWith(Text.Strip(text), "?")
    requires !AnyContains(Text.Lower(text), AdvisoryPhrases)
    ensures !ContainsAdviceOrInfo(text)
  {
    OneSentence(text);
  }

  /** A single long statement is flagged as information. */
  lemma StatementIsInfo(text: string)
    requires '.' !in text && !Text.EndsWith(Text.Strip(text), "?") && |Text.Strip(text)| > 20
    ensures ContainsAdviceOrInfo(text)
  {
    OneSentence(text);
  }

  /** One issue per leading phrase found, in the order of the list. */
  function PhraseIssues(lower: string, phrases: seq<string>): (r: seq<Flag>)
    ensures |r| <= |phrases|
    ensures r == [] <==> !AnyContains(lower, phrases)
  {
    if phrases == [] then []
    else
      var rest := PhraseIssues(lower, phrases[1..]);
      (if Text.Contains(lower, phrases[0]) then [LeadingPhrase(phrases[0])] else []) + rest
  }

  /** `(better|worse|best|worst)` */
  predicate HasValueJudgment(lower: string) {
    AnyContains(lower, ValueWords)
  }

  /** `(correct|incorrect|wrong|right) (?:way|answer)` */
  predicate HasEmbeddedAnswer(lower: string) {
    AnyContains(lower, AnswerPhrases)
  }

  /** `_check_leading_language`: the leading phrases found, then the value judgment, then the embedded answer. */
  function LeadingIssues(text: string): (r: seq<Flag>)
    ensures |r| <= |LeadingPhrases| + 2
    ensures r == [] <==>
      !AnyContains(Text.Lower(text), LeadingPhrases) && !HasValueJudgment(Text.Lower(text)) && !HasEmbeddedAnswer(Text.Lower(text))
  {
    var lower := Text.Lower(text);
    PhraseIssues(lower, LeadingPhrases)
    + (if HasValueJudgment(lower) then [ValueJudgment] else [])
    + (if HasEmbeddedAnswer(lower) then [EmbeddedAnswer] else [])
  }

  // ---------------------------------------------------------------------------
  // Scoring rules

  /** The form criteria, one point each. */
  datatype FormCriterion = EndsWithQuestion | SingleQuestion | NoDeclaratives

  const FormCriteria: seq<FormCriterion> := [EndsWithQuestion, SingleQuestion, NoDeclaratives]

  predicate Passes(c: FormCriterion, text: string) {
    match c
    case EndsWithQuestion => Text.EndsWith(Text.Strip(text), "?")
    case SingleQuestion => Text.CountChar(text, '?') == 1
    case NoDeclaratives => !ContainsAdviceOrInfo(text)
  }

  /** The points of the criteria in `cs` that `text` passes. */
  function FormPoints(cs: seq<FormCriterion>, text: string): (n: nat)
    ensures n <= |cs|
  {
    if cs == [] then 0 else FormPoints(cs[..|cs| - 1], text) + (if Passes(cs[|cs| - 1], text) then 1 else 0)
  }

  /** Some pattern of the category matches. */
  predicate Probes(lower: string, category: seq<Pattern>) {
    category != [] && (Search(category[0], lower) || Probes(lower, category[1..]))
  }

  /** The number of categories in `cats` that match: each counts once, however many of its patterns match. */
  function IntentHits(lower: string, cats: seq<seq<Pattern>>): (n: nat)
    ensures n <= |cats|
  {
    if cats == [] then 0 else IntentHits(lower, cats[..|cats| - 1]) + (if Probes(lower, cats[|cats| - 1]) then 1 else 0)
  }

  predicate IsWordChar(c: char) {
    'a' <= c <= 'z' || 'A' <= c <= 'Z' || '0' <= c <= '9' || c == '_'
  }

  /** `s` opens with the word `w`, followed by a word boundary. */
  predicate OpensWith(s: string, w: string) {
    Text.StartsWith(s, w) && (|s| == |w| || !IsWordChar(s[|w|]))
  }

  /** `^(do|does|is|are|can|could|would|should|will)\b` */
  predicate YesNoOpener(lower: string) {
    OpensWithAny(lower, YesNoOpeners)
  }

  predicate OpensWithAny(s: string, words: seq<string>) {
    words != [] && (OpensWith(s, words[0]) || OpensWithAny(s, words[1..]))
  }

  /** One of the three stock questions, and nothing else. */
  predicate IsGeneric(lower: string) {
    Text.Strip(lower) in GenericQuestions
  }

  /** Groundedness: nothing without a (non-empty) user message; else a point for referring to it and one for not being generic. */
  function Groundedness(response: string, lower: string, userMessage: Option<string>, refers: (string, string) -> bool): int {
    if userMessage.None? || userMessage.value == [] then 0
    else
      (if refers(response, userMessage.value) then 1 else 0)
      + (if !IsGeneric(lower) || |response| > 30 then 1 else 0)
  }

  /** A score as `_evaluate_with_rules` returns it, without the explanation text. */
  datatype DispositionScore = DispositionScore(
    form: int, socraticIntent: int, groundedness: int, nonLeadingness: int, total: int,
    flaggedIssues: seq<Flag>)

  /** Form: the criteria passed, or 0 when the reply gives advice or information. */
  function FormScore(response: string): int {
    if ContainsAdviceOrInfo(response) then 0 else FormPoints(FormCriteria, response)
  }

  /** Socratic intent: the categories probed, less one (never below 0) for a yes/no opener. */
  function IntentScore(lower: string): int {
    var hits := IntentHits(lower, IntentCategories);
    if YesNoOpener(lower) then (if hits - 1 > 0 then hits - 1 else 0) else hits
  }

  /** Non-leadingness: full marks only when no leading issue was found. */
  function NonLeadingness(issues: seq<Flag>): int {
    if issues == [] then 2 else 0
  }

  /** The flags in the order they are raised: purity violation, closed question, then the leading issues. */
  function Flags(advice: bool, closed: bool, issues: seq<Flag>): seq<Flag> {
    (if advice then [PurityViolation] else []) + (if closed then [ClosedQuestion] else []) + issues
  }

  /** The whole rule-based score; `refers` says whether the reply refers to the user's message. */
  function Rules(response: string, userMessage: Option<string>, refers: (string, string) -> bool): DispositionScore {
    var lower := Text.Lower(response);
    var form := FormScore(response);
    var intent := IntentScore(lower);
    var grounded := Groundedness(response, lower, userMessage, refers);
    var nonLeading := NonLeadingness(LeadingIssues(response));
    DispositionScore(
      form, intent, grounded, nonLeading, form + intent + grounded + nonLeading,
      Flags(ContainsAdviceOrInfo(response), YesNoOpener(lower), LeadingIssues(response)))
  }

  /** Step 1 of `_evaluate_with_rules`: the form criteria, then the purity override. */
  method ScoreForm(response: string) returns (form: int, advice: bool)
    ensures form == FormScore(response) && advice == ContainsAdviceOrInfo(response)
  {
    form := 0;
    var k := 0;
    while k < |FormCriteria|
      invariant 0 <= k <= |FormCriteria|
      invariant form == FormPoints(FormCriteria[..k], response)
    {
      if Passes(FormCriteria[k], response) {
        form := form + 1;
      }
      assert FormCriteria[..k + 1][..k] == FormCriteria[..k];
      k := k + 1;
    }
    assert FormCriteria[..k] == FormCriteria;
    advice := ContainsAdviceOrInfo(response);
    if advice {
      form := 0;
    }
  }

  /** Step 2: one point per category with a matching pattern, then the yes/no penalty. */
  method ScoreIntent(lower: string) returns (intent: int, closed: bool)
    ensures intent == IntentScore(lower) && closed == YesNoOpener(lower)
  {
    intent := 0;
    var c := 0;
    while c < |IntentCategories|
      invariant 0 <= c <= |IntentCategories|
      invariant intent == IntentHits(lower, IntentCategories[..c])
    {
      var patterns := IntentCategories[c];
      assert IntentCategories[..c + 1][..c] == IntentCategories[..c];
      var matched := false;
      var j := 0;
      while j < |patterns|
        invariant 0 <= j <= |patterns|
        invariant !matched && intent == IntentHits(lower, IntentCategories[..c])
        invariant Probes(lower, patterns) == Probes(lower, patterns[j..])
      {
        assert patterns[j..][1..] == patterns[j + 1..];
        if Search(patterns[j], lower) {
          intent := intent + 1;
          matched := true;
          break;
        }
        j := j + 1;
      }
      c := c + 1;
    }
    assert IntentCategories[..c] == IntentCategories;
    closed := YesNoOpener(lower);
    if closed {
      intent := if intent - 1 > 0 then intent - 1 else 0;
    }
  }

  /** Step 3: groundedness, only when there is a user message. */
  method ScoreGroundedness(response: string, lower: string, userMessage: Option<string>, refers: (string, string) -> bool)
    returns (grounded: int)
    ensures grounded == Groundedness(response, lower, userMessage, refers)
  {
    grounded := 0;
    if userMessage.Some? && userMessage.value != [] {
      if refers(response, userMessage.value) {
        grounded := grounded + 1;
      }
      var isGeneric := IsGeneric(lower);
      if !isGeneric || |response| > 30 {
        grounded := grounded + 1;
      }
    }
  }

  /** `_evaluate_with_rules`: the four parts in the source's order, the flags as they are raised, and their sum. */
  method EvaluateWithRules(response: string, userMessage: Option<string>, refers: (string, string) -> bool)
    returns (score: DispositionScore)
    ensures score == Rules(response, userMessage, refers)
  {
    var flagged: seq<Flag> := [];
    var form, advice := ScoreForm(response);
    if advice {
      flagged := flagged + [PurityViolation];
    }
    ghost var raised: seq<Flag> := if advice then [PurityViolation] else [];
    assert flagged == raised;
    var lower := Text.Lower(response);
    var intent, closed := ScoreIntent(lower);
    if closed {
      flagged := flagged + [ClosedQuestion];
    }
    assert flagged == raised + (if closed then [ClosedQuestion] else []);
    raised := flagged;
    var grounded := ScoreGroundedness(response, lower, userMessage, refers);
    var issues := LeadingIssues(response);
    var nonLeading;
    if issues == [] {
      nonLeading := 2;
    } else {
      nonLeading := 0;
      flagged := flagged + issues;
    }
    assert flagged == raised + issues;
    assert flagged == Flags(advice, closed, issues);
    score := DispositionScore(form, intent, grounded, nonLeading, form + intent + grounded + nonLeading, flagged);
  }

  // ---------------------------------------------------------------------------
  // What the rubric promises

  /** The three form criteria, one point each. */
  lemma FormPointsCount(text: string)
    ensures FormPoints(FormCriteria, text)
      == (if Passes(EndsWithQuestion, text) then 1 else 0)
       + (if Passes(SingleQuestion, text) then 1 else 0)
       + (if Passes(NoDeclaratives, text) then 1 else 0)
  {
    var cs := FormCriteria;
    assert cs[..|cs| - 1] == [EndsWithQuestion, SingleQuestion];
    assert [EndsWithQuestion, SingleQuestion][..1] == [EndsWithQuestion];
    assert [EndsWithQuestion][..0] == [];
    assert FormPoints([EndsWithQuestion], text) == (if Passes(EndsWithQuestion, text) then 1 else 0);
    assert FormPoints([EndsWithQuestion, SingleQuestion], text)
      == FormPoints([EndsWithQuestion], text) + (if Passes(SingleQuestion, text) then 1 else 0);
  }

  /**
   * Form lies in 0..3 and is 0 exactly when the reply gives advice or
   * information; full marks mean one question mark, at the end, and nothing
   * declarative.
   */
  lemma FormMeaning(response: string, userMessage: Option<string>, refers: (string, string) -> bool)
    ensures var s := Rules(response, userMessage, refers);
      && 0 <= s.form <= 3
      && (s.form == 0 <==> ContainsAdviceOrInfo(response))
      && (s.form == 3 <==>
            Text.EndsWith(Text.Strip(response), "?") && Text.CountChar(response, '?') == 1
            && !ContainsAdviceOrInfo(response))
  {
    FormPointsCount(response);
  }

  /** The purity flag leads exactly when it was raised, and the closed-question flag is present exactly when raised. */
  lemma FlagsMeaning(advice: bool, closed: bool, issues: seq<Flag>)
    requires PurityViolation !in issues && ClosedQuestion !in issues
    ensures var f := Flags(advice, closed, issues);
      && (advice <==> |f| > 0 && f[0] == PurityViolation)
      && (closed <==> ClosedQuestion in f)
      && |issues| <= |f| && f[|f| - |issues|..] == issues
  {
    var f := Flags(advice, closed, issues);
    if !advice && |f| > 0 {
      assert f[0] == (if closed then ClosedQuestion else issues[0]);
    }
    if !closed {
      assert f == (if advice then [PurityViolation] else []) + issues;
    }
  }

  /** The leading-language issues never include the purity or closed-question flags. */
  lemma LeadingIssuesAreNotPurity(response: string)
    ensures PurityViolation !in LeadingIssues(response)
    ensures ClosedQuestion !in LeadingIssues(response)
  {
    PhraseIssuesShape(Text.Lower(response), LeadingPhrases);
  }

  /** Phrase issues are all leading-phrase flags. */
  lemma {:induction false} PhraseIssuesShape(lower: string, phrases: seq<string>)
    ensures forall x :: x in PhraseIssues(lower, phrases) ==> x.LeadingPhrase?
  {
    if phrases != [] {
      PhraseIssuesShape(lower, phrases[1..]);
    }
  }

  /** The reply was flagged for purity exactly when it gives advice or information, and that flag comes first. */
  lemma PurityFlagged(response: string, userMessage: Option<string>, refers: (string, string) -> bool)
    ensures var s := Rules(response, userMessage, refers);
      ContainsAdviceOrInfo(response) <==> |s.flaggedIssues| > 0 && s.flaggedIssues[0] == PurityViolation
  {
    LeadingIssuesAreNotPurity(response);
    FlagsMeaning(ContainsAdviceOrInfo(response), YesNoOpener(Text.Lower(response)), LeadingIssues(response));
  }

  /** The intent points are the number of categories probed, each once. */
  lemma IntentHitsCount(lower: string)
    ensures IntentHits(lower, IntentCategories)
      == (if Probes(lower, DefinitionProbes) then 1 else 0)
       + (if Probes(lower, AssumptionProbes) then 1 else 0)
       + (if Probes(lower, ConsequenceProbes) then 1 else 0)
  {
    var cs := IntentCategories;
    assert cs[..|cs| - 1] == [DefinitionProbes, AssumptionProbes];
    assert [DefinitionProbes, AssumptionProbes][..1] == [DefinitionProbes];
    assert [DefinitionProbes][..0] == [];
    assert IntentHits(lower, [DefinitionProbes]) == (if Probes(lower, DefinitionProbes) then 1 else 0);
    assert IntentHits(lower, [DefinitionProbes, AssumptionProbes])
      == IntentHits(lower, [DefinitionProbes]) + (if Probes(lower, AssumptionProbes) then 1 else 0);
  }

  /**
   * Socratic intent lies in 0..3: one point per category that some pattern
   * matches, counted once, less one (never below 0) for a yes/no opener,
   * which is then flagged.
   */
  lemma IntentMeaning(response: string, userMessage: Option<string>, refers: (string, string) -> bool)
    ensures var s := Rules(response, userMessage, refers);
      var lower := Text.Lower(response);
      var hits := IntentHits(lower, IntentCategories);
      && 0 <= s.socraticIntent <= 3
      && (!YesNoOpener(lower) ==> s.socraticIntent == hits)
      && (YesNoOpener(lower) ==> s.socraticIntent == (if hits >= 1 then hits - 1 else 0))
      && (YesNoOpener(lower) <==> ClosedQuestion in s.flaggedIssues)
  {
    LeadingIssuesAreNotPurity(response);
    FlagsMeaning(ContainsAdviceOrInfo(response), YesNoOpener(Text.Lower(response)), LeadingIssues(response));
  }

  /** Groundedness lies in 0..2 and is 0 when there is no user message to refer to. */
  lemma GroundednessMeaning(response: string, userMessage: Option<string>, refers: (string, string) -> bool)
    ensures var s := Rules(response, userMessage, refers);
      && 0 <= s.groundedness <= 2
      && (userMessage.None? || userMessage.value == [] ==> s.groundedness == 0)
      && (userMessage.Some? && userMessage.value != [] && |response| > 30 ==>
            s.groundedness == (if refers(response, userMessage.value) then 2 else 1))
  {
  }

  /** Non-leadingness is 2 or 0, and 0 exactly when leading issues were found, which close the flags. */
  lemma NonLeadingMeaning(response: string, userMessage: Option<string>, refers: (string, string) -> bool)
    ensures var s := Rules(response, userMessage, refers);
      var issues := LeadingIssues(response);
      && (s.nonLeadingness == 0 || s.nonLeadingness == 2)
      && (s.nonLeadingness == 0 <==> issues != [])
      && |issues| <= |s.flaggedIssues|
      && s.flaggedIssues[|s.flaggedIssues| - |issues|..] == issues
  {
    LeadingIssuesAreNotPurity(response);
    FlagsMeaning(ContainsAdviceOrInfo(response), YesNoOpener(Text.Lower(response)), LeadingIssues(response));
  }

  /** The total is the sum of the parts and lies in 0..10. */
  lemma TotalMeaning(response: string, userMessage: Option<string>, refers: (string, string) -> bool)
    ensures var s := Rules(response, userMessage, refers);
      && s.total == s.form + s.socraticIntent + s.groundedness + s.nonLeadingness
      && 0 <= s.total <= 10
  {
    var lower := Text.Lower(response);
    FormInRange(response);
    IntentInRange(lower);
  }

  lemma FormInRange(response: string)
    ensures 0 <= FormScore(response) <= 3
  {
    FormPointsCount(response);
  }

  lemma IntentInRange(lower: string)
    ensures 0 <= IntentScore(lower) <= 3
  {
  }
}
