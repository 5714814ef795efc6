/**
 * The record types of the archived batch architecture: heuristic and judge
 * scores, the eight conversation-level (CSD) subscores, a turn's final score
 * and violations, the content hash of a run manifest and its id check, and
 * the two small derived values of run summaries and calibration items.
 * Field constraints that the validation library enforces on construction are
 * stated as `Valid` predicates.
 */
module Phase3Schemas {
  import opened Wrappers
  import Text
  import Sorting
  import Seqs

  /** The context-window test phases. */
  datatype Phase = P0 | P1 | P2 | P3

  function PhaseValue(p: Phase): (r: string)
    ensures |r| == 2 && r[0] == 'P'
  {
    match p
    case P0 => "P0"
    case P1 => "P1"
    case P2 => "P2"
    case P3 => "P3"
  }

  datatype Violation =
    | LeadingQuestion
    | MultiQuestion
    | AdviceLeakage
    | ClosedQuestion
    | Lecturing
    | OffTopic
    | MetaViolation

  predicate InScale(x: real) {
    0.0 <= x <= 10.0
  }

  // ---------------------------------------------------------------------------
  // Heuristic and judge scores

  datatype HeuristicResult = HeuristicResult(form: real, substance: real, purity: real, violations: seq<Violation>, confidence: real)

  datatype JudgeResult = JudgeResult(form: real, substance: real, purity: real, violations: seq<Violation>, rationale: string, confidence: real, modelUsed: string)

  predicate HeuristicValid(h: HeuristicResult) {
    InScale(h.form) && InScale(h.substance) && InScale(h.purity) && 0.0 <= h.confidence <= 1.0
  }

  predicate JudgeValid(j: JudgeResult) {
    InScale(j.form) && InScale(j.substance) && InScale(j.purity) && 0.0 <= j.confidence <= 1.0 && |j.rationale| <= 5000
  }

  /** The weighted score both result types compute: purity counts most. */
  function WeightedScore(form: real, substance: real, purity: real): (r: real)
    ensures InScale(form) && InScale(substance) && InScale(purity) ==> InScale(r)
  {
    form * 0.2 + substance * 0.3 + purity * 0.5
  }

  function HeuristicScore(h: HeuristicResult): real {
    WeightedScore(h.form, h.substance, h.purity)
  }

  function JudgeScore(j: JudgeResult): real {
    WeightedScore(j.form, j.substance, j.purity)
  }

  /** The weights sum to one, so equal parts score that part; raising any part never lowers the score. */
  lemma WeightedScoreIsAverage(x: real, f1: real, s1: real, p1: real, f2: real, s2: real, p2: real)
    ensures WeightedScore(x, x, x) == x
    ensures f1 <= f2 && s1 <= s2 && p1 <= p2 ==> WeightedScore(f1, s1, p1) <= WeightedScore(f2, s2, p2)
  {
  }

  // ---------------------------------------------------------------------------
  // Conversation-level subscores

  datatype CsdSubscores = CsdSubscores(cr: real, st: real, rhd: real, ap: real, nvt: real, tc: real, ch: real, ma: real)

  predicate CsdValid(c: CsdSubscores) {
    InScale(c.cr) && InScale(c.st) && InScale(c.rhd) && InScale(c.ap)
    && InScale(c.nvt) && InScale(c.tc) && InScale(c.ch) && InScale(c.ma)
  }

  /** The weighted CSD score; its weights sum to one, so it stays on the 0-10 scale. */
  function CsdOverall(c: CsdSubscores): (r: real)
    ensures CsdValid(c) ==> InScale(r)
  {
    0.20 * c.cr + 0.20 * c.st + 0.15 * c.rhd + 0.15 * c.ap
    + 0.10 * c.nvt + 0.10 * c.tc + 0.05 * c.ch + 0.05 * c.ma
  }

  /** Eight equal subscores give that score back. */
  lemma CsdOverallUniform(x: real)
    ensures CsdOverall(CsdSubscores(x, x, x, x, x, x, x, x)) == x
  {
  }

  // ---------------------------------------------------------------------------
  // Turns

  /** The scoring parts of a turn. */
  datatype Turn = Turn(heuristic: HeuristicResult, judge: Option<JudgeResult>, csd: Option<CsdSubscores>)

  predicate TurnValid(t: Turn) {
    HeuristicValid(t.heuristic)
    && (t.judge.Some? ==> JudgeValid(t.judge.value))
    && (t.csd.Some? ==> CsdValid(t.csd.value))
  }

  /** The judge's score when the turn was judged, otherwise the heuristic's. */
  function BaseScore(t: Turn): real {
    if t.judge.Some? then JudgeScore(t.judge.value) else HeuristicScore(t.heuristic)
  }

  /** `Turn.score`: below 7 the CSD score can only pull the score down; from 7 on the two are averaged. */
  function TurnScore(t: Turn): (r: real)
    ensures TurnValid(t) ==> InScale(r)
  {
    var base := BaseScore(t);
    if t.csd.Some? then
      var csd := CsdOverall(t.csd.value);
      if base < 7.0 then (if base <= csd then base else csd) else (base + csd) / 2.0
    else base
  }

  /** Without CSD the score is the base score; with it, a failing base is capped, and a passing base moves halfway towards the CSD score. */
  lemma TurnScoreGate(t: Turn)
    ensures t.csd.None? ==> TurnScore(t) == BaseScore(t)
    ensures t.csd.Some? && BaseScore(t) < 7.0 ==> TurnScore(t) <= BaseScore(t) && TurnScore(t) <= CsdOverall(t.csd.value)
    ensures t.csd.Some? && BaseScore(t) >= 7.0 ==>
      TurnScore(t) - CsdOverall(t.csd.value) == BaseScore(t) - TurnScore(t)
  {
  }

  /**
   * `viols.extend(v for v in judge if v not in viols)`: the generator is read
   * while the list grows, so a violation the judge lists twice is added once.
   */
  function ExtendNew(viols: seq<Violation>, more: seq<Violation>): seq<Violation>
    decreases |more|
  {
    if more == [] then viols
    else ExtendNew(viols + (if more[0] in viols then [] else [more[0]]), more[1..])
  }

  /** `Turn.violations`. */
  function TurnViolations(t: Turn): seq<Violation> {
    if t.judge.Some? then ExtendNew(t.heuristic.violations, t.judge.value.violations) else t.heuristic.violations
  }

  predicate NoDuplicates<T(==)>(s: seq<T>) {
    forall i, j :: 0 <= i < j < |s| ==> s[i] != s[j]
  }

  /** The extension keeps the list in front, holds exactly the old and the new violations, and adds each new one once. */
  lemma {:induction false} ExtendNewMeaning(viols: seq<Violation>, more: seq<Violation>)
    ensures |ExtendNew(viols, more)| >= |viols| && ExtendNew(viols, more)[..|viols|] == viols
    ensures forall v :: v in ExtendNew(viols, more) <==> v in viols || v in more
    ensures NoDuplicates(viols) ==> NoDuplicates(ExtendNew(viols, more))
    decreases |more|
  {
    if more != [] {
      var next := viols + (if more[0] in viols then [] else [more[0]]);
      ExtendNewMeaning(next, more[1..]);
      assert ExtendNew(viols, more)[..|viols|] == ExtendNew(viols, more)[..|next|][..|viols|];
      assert more == [more[0]] + more[1..];
      forall v | v in more[1..] ensures v in more { }
    }
  }

  /** A turn lists its heuristic violations first, then every judge violation it did not already have, and nothing else. */
  lemma TurnViolationsMeaning(t: Turn)
    ensures |TurnViolations(t)| >= |t.heuristic.violations|
    ensures TurnViolations(t)[..|t.heuristic.violations|] == t.heuristic.violations
    ensures forall v :: v in TurnViolations(t) <==>
      v in t.heuristic.violations || (t.judge.Some? && v in t.judge.value.violations)
  {
    if t.judge.Some? {
      ExtendNewMeaning(t.heuristic.violations, t.judge.value.violations);
    }
  }

  // ---------------------------------------------------------------------------
  // Run manifests

  /** The config fields that enter a manifest's hash. */
  datatype ManifestConfig = ManifestConfig(
    models: seq<string>,
    temperatures: seq<real>,
    seedsVersion: string,
    rubricVersion: string,
    systemPromptVersion: string,
    judgePromptVersion: string,
    phasesVersion: string,
    maxTurns: int,
    judgeModel: string)

  predicate RealLe(a: real, b: real) {
    a <= b
  }

  /** The hashed document: the same fields with the model and temperature lists sorted. */
  function HashedContent(m: ManifestConfig): ManifestConfig {
    m.(models := Sorting.SortBy(m.models, Sorting.StrLe), temperatures := Sorting.SortBy(m.temperatures, RealLe))
  }

  /** `content_hash`: the first 8 hex digits of the SHA-256 of the canonical JSON, both given by `digest`. */
  function ContentHash(m: ManifestConfig, digest: ManifestConfig -> string): string {
    var h := digest(HashedContent(m));
    if |h| <= 8 then h else h[..8]
  }

  /** Listing the models or the temperatures in another order does not change the hash. */
  lemma ContentHashIgnoresOrder(m: ManifestConfig, n: ManifestConfig, digest: ManifestConfig -> string)
    requires multiset(m.models) == multiset(n.models) && multiset(m.temperatures) == multiset(n.temperatures)
    requires m.(models := n.models, temperatures := n.temperatures) == n
    ensures ContentHash(m, digest) == ContentHash(n, digest)
  {
    Sorting.StrLeIsTotalOrder();
    assert Sorting.Total(RealLe) && Sorting.Transitive(RealLe) && Sorting.Antisymmetric(RealLe);
    Sorting.SortByIgnoresInputOrder(m.models, n.models, Sorting.StrLe);
    Sorting.SortByIgnoresInputOrder(m.temperatures, n.temperatures, RealLe);
  }

  predicate IsDigit(c: char) {
    '0' <= c <= '9'
  }

  predicate IsLowerHex(c: char) {
    IsDigit(c) || 'a' <= c <= 'f'
  }

  /** The field pattern `^manifest_\d{8}_[a-f0-9]{8}$` (digits taken as ASCII digits). */
  predicate ManifestIdPattern(v: string) {
    |v| == 26 && v[..9] == "manifest_" && v[17] == '_'
    && (forall i :: 9 <= i < 17 ==> IsDigit(v[i]))
    && (forall i :: 18 <= i < 26 ==> IsLowerHex(v[i]))
  }

  /** The field check, then `validate_manifest_id`, which only re-checks the prefix. */
  function ValidateManifestId(v: string): (r: Result<string, string>)
    ensures r.Ok? ==> r.value == v && Text.StartsWith(v, "manifest_")
  {
    if !ManifestIdPattern(v) then Err("string does not match pattern")
    else if !Text.StartsWith(v, "manifest_") then Err("manifest_id must start with 'manifest_'")
    else Ok(v)
  }

  /** The prefix check can never fail: every id the pattern admits already starts with "manifest_". */
  lemma PatternImpliesPrefix(v: string)
    requires ManifestIdPattern(v)
    ensures Text.StartsWith(v, "manifest_")
  {
  }

  /** Ids are accepted exactly when they match the pattern. */
  lemma ValidateManifestIdIff(v: string)
    ensures ValidateManifestId(v).Ok? <==> ManifestIdPattern(v)
  {
    if ManifestIdPattern(v) { PatternImpliesPrefix(v); }
  }

  /** An id made of "manifest_", an 8-digit date, "_" and an 8-digit hex hash is accepted. */
  lemma ManifestIdFromParts(date: string, hash: string)
    requires |date| == 8 && forall i :: 0 <= i < 8 ==> IsDigit(date[i])
    requires |hash| == 8 && forall i :: 0 <= i < 8 ==> IsLowerHex(hash[i])
    ensures ValidateManifestId("manifest_" + date + "_" + hash) == Ok("manifest_" + date + "_" + hash)
  {
    var v := "manifest_" + date + "_" + hash;
    assert forall i :: 9 <= i < 17 ==> v[i] == date[i - 9];
    assert forall i :: 18 <= i < 26 ==> v[i] == hash[i - 18];
    assert v[..9] == "manifest_";
    PatternImpliesPrefix(v);
  }

  // ---------------------------------------------------------------------------
  // Run summaries and calibration items

  /** `RunSummary.duration_minutes`. */
  function DurationMinutes(seconds: real): (r: real)
    ensures r * 60.0 == seconds
  {
    seconds / 60.0
  }

  /** An expert label: score name to score; a label without one of the three names makes the average raise. */
  type Label = map<string, real>

  datatype Consensus = Consensus(form: real, substance: real, purity: real)

  function Field(labels: seq<Label>, name: string): (r: Option<seq<real>>)
    ensures r.Some? ==> |r.value| == |labels| && forall i :: 0 <= i < |labels| ==> name in labels[i] && r.value[i] == labels[i][name]
    ensures r.None? ==> exists i :: 0 <= i < |labels| && name !in labels[i]
  {
    if labels == [] then Some([])
    else
      match Field(labels[..|labels| - 1], name)
      case None => None
      case Some(xs) =>
        if name in labels[|labels| - 1] then Some(xs + [labels[|labels| - 1][name]]) else None
  }

  function Id(x: real): real { x }

  /** `consensus_score`: the mean of each score over the experts, or zeros when there are none. */
  function ConsensusScore(labels: seq<Label>): Result<Consensus, string> {
    if labels == [] then Ok(Consensus(0.0, 0.0, 0.0))
    else
      match (Field(labels, "form"), Field(labels, "substance"), Field(labels, "purity"))
      case (Some(f), Some(s), Some(p)) =>
        Ok(Consensus(
          Seqs.Mean(Seqs.SumReal(f, Id), |labels|),
          Seqs.Mean(Seqs.SumReal(s, Id), |labels|),
          Seqs.Mean(Seqs.SumReal(p, Id), |labels|)))
      case _ => Err("KeyError")
  }

  /** Each value read for one score is one expert's score. */
  lemma FieldWithin(labels: seq<Label>, name: string, lo: real, hi: real)
    requires Field(labels, name).Some?
    requires forall i, k :: 0 <= i < |labels| && k in labels[i] ==> lo <= labels[i][k] <= hi
    ensures forall i :: 0 <= i < |Field(labels, name).value| ==> lo <= Id(Field(labels, name).value[i]) <= hi
  {
  }

  /** The mean of one score over the experts lies within the bounds every expert keeps. */
  lemma FieldMeanWithin(labels: seq<Label>, name: string, lo: real, hi: real)
    requires labels != [] && Field(labels, name).Some?
    requires forall i, k :: 0 <= i < |labels| && k in labels[i] ==> lo <= labels[i][k] <= hi
    ensures lo <= Seqs.Mean(Seqs.SumReal(Field(labels, name).value, Id), |labels|) <= hi
  {
    var xs := Field(labels, name).value;
    FieldWithin(labels, name, lo, hi);
    MeanWithin(xs, |labels|, lo, hi);
  }

  /** The mean of `n` values within `[lo, hi]` lies within `[lo, hi]`. */
  lemma MeanWithin(xs: seq<real>, n: nat, lo: real, hi: real)
    requires n == |xs| > 0
    requires forall i :: 0 <= i < |xs| ==> lo <= Id(xs[i]) <= hi
    ensures lo <= Seqs.Mean(Seqs.SumReal(xs, Id), n) <= hi
  {
    Seqs.SumRealBounds(xs, Id, lo, hi);
    Seqs.MeanBounds(Seqs.SumReal(xs, Id), n, lo, hi);
  }

  /** When every expert scores within [lo, hi], so does the consensus. */
  lemma ConsensusWithin(labels: seq<Label>, lo: real, hi: real)
    requires labels != []
    requires ConsensusScore(labels).Ok?
    requires forall i, k :: 0 <= i < |labels| && k in labels[i] ==> lo <= labels[i][k] <= hi
    ensures lo <= ConsensusScore(labels).value.form <= hi
    ensures lo <= ConsensusScore(labels).value.substance <= hi
    ensures lo <= ConsensusScore(labels).value.purity <= hi
  {
    FieldMeanWithin(labels, "form", lo, hi);
    FieldMeanWithin(labels, "substance", lo, hi);
    FieldMeanWithin(labels, "purity", lo, hi);
  }
}
