/**
 * The session side of the research experiment's single-table DynamoDB store:
 * the condition code a new session is filed under, the reassembly of a
 * session from the items under its partition key, the completion-status
 * update, the status flag an assessment sets, and the learning gains of one
 * experimental condition. The table itself is a parameter: a query is the
 * list of items it returned, and a write is the request it would send.
 */
module ResearchDb {
  import opened Wrappers
  import opened ResearchItems
  import Text
  import Sorting
  import Seqs

  // ---------------------------------------------------------------------
  // Condition codes
  // ---------------------------------------------------------------------

  const LocationCodes: map<string, string> :=
    map["on-site" := "L1", "learning-space" := "L2", "classroom" := "L3", "home" := "L4"]
  const IntervalCodes: map<real, string> := map[2.5 := "I1", 5.0 := "I2", 10.0 := "I3"]
  const InterventionCodes: map<string, string> := map["static" := "S", "dynamic" := "D"]

  /**
   * The condition code of `create_session`: location, interval and
   * intervention codes joined by '-'; the three lookups happen in that order
   * and an unknown value raises KeyError.
   */
  function ConditionCode(location: string, interval: real, intervention: string): (r: Result<string, string>)
    ensures r.Ok? <==> location in LocationCodes && interval in IntervalCodes && intervention in InterventionCodes
    ensures location !in LocationCodes ==> r == Err("KeyError: " + location)
    ensures location in LocationCodes && interval !in IntervalCodes ==> r == Err("KeyError: interval_minutes")
  {
    if location !in LocationCodes then Err("KeyError: " + location)
    else if interval !in IntervalCodes then Err("KeyError: interval_minutes")
    else if intervention !in InterventionCodes then Err("KeyError: " + intervention)
    else Ok(LocationCodes[location] + "-" + IntervalCodes[interval] + "-" + InterventionCodes[intervention])
  }

  /** The three tables read backwards. */
  const LocationOfCode: map<string, string> :=
    map["L1" := "on-site", "L2" := "learning-space", "L3" := "classroom", "L4" := "home"]
  const IntervalOfCode: map<string, real> := map["I1" := 2.5, "I2" := 5.0, "I3" := 10.0]
  const InterventionOfCode: map<string, string> := map["S" := "static", "D" := "dynamic"]

  /** Reads a condition code back into its location, interval and intervention. */
  function ParseConditionCode(code: string): Option<(string, real, string)> {
    if |code| == 7 && code[2] == '-' && code[5] == '-'
       && code[..2] in LocationOfCode && code[3..5] in IntervalOfCode && code[6..] in InterventionOfCode
    then Some((LocationOfCode[code[..2]], IntervalOfCode[code[3..5]], InterventionOfCode[code[6..]]))
    else None
  }

  /** The backward tables are the inverses of the code tables, and every code has the width the layout relies on. */
  lemma CodeTablesInvert()
    ensures forall l :: l in LocationCodes ==> |LocationCodes[l]| == 2 && LocationCodes[l] in LocationOfCode && LocationOfCode[LocationCodes[l]] == l
    ensures forall x :: x in IntervalCodes ==> |IntervalCodes[x]| == 2 && IntervalCodes[x] in IntervalOfCode && IntervalOfCode[IntervalCodes[x]] == x
    ensures forall v :: v in InterventionCodes ==> |InterventionCodes[v]| == 1 && InterventionCodes[v] in InterventionOfCode && InterventionOfCode[InterventionCodes[v]] == v
  {
  }

  /** Every condition code reads back as the condition it was made from, and has the form "L?-I?-?". */
  lemma ConditionCodeRoundTrip(location: string, interval: real, intervention: string)
    requires ConditionCode(location, interval, intervention).Ok?
    ensures var code := ConditionCode(location, interval, intervention).value;
            && |code| == 7 && code[0] == 'L' && code[2] == '-' && code[3] == 'I' && code[5] == '-'
            && ParseConditionCode(code) == Some((location, interval, intervention))
  {
    CodeTablesInvert();
    var a, b, c := LocationCodes[location], IntervalCodes[interval], InterventionCodes[intervention];
    var code := a + "-" + b + "-" + c;
    assert code[..2] == a && code[3..5] == b && code[6..] == c;
  }

  /** Different conditions never share a code. */
  lemma ConditionCodeInjective(l1: string, i1: real, v1: string, l2: string, i2: real, v2: string)
    requires ConditionCode(l1, i1, v1).Ok? && ConditionCode(l1, i1, v1) == ConditionCode(l2, i2, v2)
    ensures l1 == l2 && i1 == i2 && v1 == v2
  {
    ConditionCodeRoundTrip(l1, i1, v1);
    ConditionCodeRoundTrip(l2, i2, v2);
  }

  // ---------------------------------------------------------------------
  // get_session
  // ---------------------------------------------------------------------

  /** A session reassembled from its items, one slot per kind of item. */
  datatype SessionData = SessionData(
    metadata: Option<Item>,
    locationVerification: Option<Item>,
    contentDelivery: Option<Item>,
    interventions: seq<Item>,
    assessments: map<string, Item>,
    postSurvey: Option<Item>)

  const NoSessionData: SessionData := SessionData(None, None, None, [], map[], None)

  /** `d[key]`: a TypeError on anything but a dict, a KeyError for a missing key. */
  function Lookup(v: Item, key: string): (r: Result<Item, string>)
    ensures r.Ok? <==> Get(v, key).Some?
    ensures r.Ok? ==> r.value == Get(v, key).value
  {
    if !v.Dict? then Err("TypeError: not subscriptable")
    else if key !in v.fields then Err("KeyError: " + key)
    else Ok(v.fields[key])
  }

  /**
   * `item['SK']` as the routing uses it: it is compared with strings and then
   * `startswith` is called on it, which raises for anything but a string.
   */
  function SortKey(item: Item): Result<string, string> {
    var sk :- Lookup(item, "SK");
    if sk.Str? then Ok(sk.s) else Err("AttributeError: SK has no startswith")
  }

  const InterventionPrefix: string := "INTERVENTION#"
  const AssessmentPrefix: string := "ASSESSMENT#"

  /** `sk.split('#')[1]` of an assessment's sort key: the text between its first and second '#'. */
  function AssessmentType(sk: string): string
    requires Text.StartsWith(sk, AssessmentPrefix)
  {
    assert sk[10] == '#' by { assert sk[..11][10] == sk[10]; }
    assert '#' in sk;
    Text.SplitOn(sk, '#')[1]
  }

  /** Where the if/elif chain sends an item, by its sort key. */
  datatype Kind = Metadata | LocationVerification | ContentDelivery | Intervention
                | Assessment(assessmentType: string) | PostSurvey | Unrouted

  /** The tests of the if/elif chain in their order. */
  function KindOf(sk: string): (k: Kind)
    ensures k == Intervention <==> Text.StartsWith(sk, InterventionPrefix)
    ensures k.Assessment? <==> Text.StartsWith(sk, AssessmentPrefix)
    ensures k.Assessment? ==> k.assessmentType == AssessmentType(sk)
  {
    assert Text.StartsWith(sk, InterventionPrefix) ==> sk[0] == 'I' by {
      if Text.StartsWith(sk, InterventionPrefix) { assert sk[..13][0] == sk[0]; }
    }
    assert Text.StartsWith(sk, AssessmentPrefix) ==> sk[0] == 'A' by {
      if Text.StartsWith(sk, AssessmentPrefix) { assert sk[..11][0] == sk[0]; }
    }
    if sk == "METADATA" then Metadata
    else if sk == "LOCATION_VERIFICATION" then LocationVerification
    else if sk == "CONTENT_DELIVERY" then ContentDelivery
    else if Text.StartsWith(sk, InterventionPrefix) then Intervention
    else if Text.StartsWith(sk, AssessmentPrefix) then Assessment(AssessmentType(sk))
    else if sk == "POST_SURVEY" then PostSurvey
    else Unrouted
  }

  /** The branch bodies: where one item goes in the session. */
  function File(data: SessionData, item: Item, kind: Kind): SessionData {
    match kind
    case Metadata => data.(metadata := Some(item))
    case LocationVerification => data.(locationVerification := Some(item))
    case ContentDelivery => data.(contentDelivery := Some(item))
    case Intervention => data.(interventions := data.interventions + [item])
    case Assessment(t) => data.(assessments := data.assessments[t := item])
    case PostSurvey => data.(postSurvey := Some(item))
    case Unrouted => data
  }

  /** The loop over the queried items, each converted back to floats; an item without a string SK raises. */
  function Organize(items: seq<Item>): Result<SessionData, string> {
    if items == [] then Ok(NoSessionData)
    else
      var data :- Organize(items[..|items| - 1]);
      var item := DecimalsToFloat(items[|items| - 1]);
      var sk :- SortKey(item);
      Ok(File(data, item, KindOf(sk)))
  }

  /** `x['intervention_metadata']['timestamp']`, the sort key of the interventions. */
  function Timestamp(item: Item): Result<string, string> {
    var meta :- Lookup(item, "intervention_metadata");
    var t :- Lookup(meta, "timestamp");
    if t.Str? then Ok(t.s) else Err("TypeError: timestamp is not a string")
  }

  /** The timestamp once it is known to be there. */
  function TimestampText(item: Item): string {
    match Timestamp(item)
    case Ok(t) => t
    case Err(_) => ""
  }

  /** Interventions ordered by their timestamps as Python orders strings. */
  predicate TimestampLe(a: Item, b: Item) {
    Sorting.StrLe(TimestampText(a), TimestampText(b))
  }

  /** `get_session` on the items its query returned: None for no items, otherwise the organized session with its interventions sorted. */
  function SessionFromItems(items: seq<Item>): Result<Option<SessionData>, string> {
    if items == [] then Ok(None)
    else
      var data :- Organize(items);
      if exists i :: 0 <= i < |data.interventions| && Timestamp(data.interventions[i]).Err? then
        Err("KeyError: intervention_metadata.timestamp")
      else
        Ok(Some(data.(interventions := Sorting.SortBy(data.interventions, TimestampLe))))
  }

  /** One more item: the items before it organized, it has a string sort key, and it is filed by that key. */
  lemma OrganizeStep(items: seq<Item>)
    requires items != [] && Organize(items).Ok?
    ensures var front, item := items[..|items| - 1], DecimalsToFloat(items[|items| - 1]);
            && Organize(front).Ok? && SortKey(item).Ok?
            && Organize(items).value == File(Organize(front).value, item, KindOf(SortKey(item).value))
  {
  }

  /** Once an item fails to route, the later items change nothing: the loop has raised. */
  lemma {:induction false} OrganizeErrStays(items: seq<Item>, n: nat)
    requires n <= |items| && Organize(items[..n]).Err?
    ensures Organize(items) == Organize(items[..n])
    decreases |items|
  {
    if n < |items| {
      var front := items[..|items| - 1];
      assert front[..n] == items[..n];
      OrganizeErrStays(front, n);
    } else {
      assert items[..n] == items;
    }
  }

  /** `get_session`: the routing loop and the sort, given the items the query returned. */
  method GetSession(items: seq<Item>) returns (r: Result<Option<SessionData>, string>)
    ensures r == SessionFromItems(items)
  {
    if |items| == 0 {
      return Ok(None);
    }
    var data := NoSessionData;
    for i := 0 to |items|
      invariant Organize(items[..i]) == Ok(data)
    {
      assert items[..i + 1][..i] == items[..i];
      var item := DecimalsToFloat(items[i]);
      var sk := SortKey(item);
      if sk.Err? {
        OrganizeErrStays(items, i + 1);
        return Err(sk.error);
      }
      data := File(data, item, KindOf(sk.value));
    }
    assert items[..|items|] == items;
    for j := 0 to |data.interventions|
      invariant forall k :: 0 <= k < j ==> Timestamp(data.interventions[k]).Ok?
    {
      if Timestamp(data.interventions[j]).Err? {
        return Err("KeyError: intervention_metadata.timestamp");
      }
    }
    r := Ok(Some(data.(interventions := Sorting.SortBy(data.interventions, TimestampLe))));
  }

  /** The converted item whose sort key starts with the intervention prefix. */
  predicate IsIntervention(item: Item) {
    SortKey(item).Ok? && Text.StartsWith(SortKey(item).value, InterventionPrefix)
  }

  /** The intervention items among `items`, converted, in query order. */
  function Interventions(items: seq<Item>): seq<Item> {
    if items == [] then []
    else
      var item := DecimalsToFloat(items[|items| - 1]);
      Interventions(items[..|items| - 1]) + (if IsIntervention(item) then [item] else [])
  }

  /** The organized session holds exactly the intervention items, in query order. */
  lemma {:induction false} OrganizeInterventions(items: seq<Item>)
    requires Organize(items).Ok?
    ensures Organize(items).value.interventions == Interventions(items)
    decreases |items|
  {
    if items != [] {
      OrganizeStep(items);
      OrganizeInterventions(items[..|items| - 1]);
    }
  }

  /** The session's interventions are the intervention items sorted by timestamp: ordered, and a permutation of them. */
  lemma SessionInterventions(items: seq<Item>)
    requires SessionFromItems(items).Ok? && SessionFromItems(items).value.Some?
    ensures var s := SessionFromItems(items).value.value.interventions;
            && multiset(s) == multiset(Interventions(items))
            && Sorting.SortedBy(s, TimestampLe)
  {
    OrganizeInterventions(items);
    TimestampOrder();
    Sorting.SortBySorted(Organize(items).value.interventions, TimestampLe);
  }

  /** Ordering by timestamp is total and transitive, so the sort puts every pair in order. */
  lemma TimestampOrder()
    ensures Sorting.Total(TimestampLe) && Sorting.Transitive(TimestampLe)
  {
    forall a, b ensures TimestampLe(a, b) || TimestampLe(b, a) {
      Sorting.StrLeTotalAt(TimestampText(a), TimestampText(b));
    }
    forall a, b, c | TimestampLe(a, b) && TimestampLe(b, c) ensures TimestampLe(a, c) {
      Sorting.StrLeTransitiveAt(TimestampText(a), TimestampText(b), TimestampText(c));
    }
  }

  /** A session is found exactly when the query returned some item and none of them raised. */
  lemma SessionFoundIffItems(items: seq<Item>)
    ensures SessionFromItems(items) == Ok(None) <==> items == []
  {
  }

  /** The converted item is an assessment of type `t`. */
  predicate IsAssessmentOf(item: Item, t: string) {
    SortKey(item).Ok? && Text.StartsWith(SortKey(item).value, AssessmentPrefix) && AssessmentType(SortKey(item).value) == t
  }

  /** The assessment types named by the assessment items among `items`. */
  function AssessmentTypes(items: seq<Item>): set<string> {
    if items == [] then {}
    else
      var item := DecimalsToFloat(items[|items| - 1]);
      var sk := SortKey(item);
      AssessmentTypes(items[..|items| - 1])
        + (if sk.Ok? && Text.StartsWith(sk.value, AssessmentPrefix) then {AssessmentType(sk.value)} else {})
  }

  /** The session holds one assessment per type named by its items, and the item kept under a type is an assessment of that type. */
  lemma {:induction false} OrganizeAssessments(items: seq<Item>)
    requires Organize(items).Ok?
    ensures Organize(items).value.assessments.Keys == AssessmentTypes(items)
    ensures forall t :: t in Organize(items).value.assessments ==> IsAssessmentOf(Organize(items).value.assessments[t], t)
    decreases |items|
  {
    if items != [] {
      var front, item := items[..|items| - 1], DecimalsToFloat(items[|items| - 1]);
      OrganizeStep(items);
      OrganizeAssessments(front);
      FileAssessment(Organize(front).value, item, SortKey(item).value, AssessmentTypes(front));
    }
  }

  /** Filing one item adds its type to the assessments exactly when it is an assessment, and keeps each kept item's type. */
  lemma FileAssessment(data: SessionData, item: Item, sk: string, types: set<string>)
    requires data.assessments.Keys == types
    requires forall t :: t in data.assessments ==> IsAssessmentOf(data.assessments[t], t)
    requires SortKey(item) == Ok(sk)
    ensures var d := File(data, item, KindOf(sk));
            && d.assessments.Keys == types + (if Text.StartsWith(sk, AssessmentPrefix) then {AssessmentType(sk)} else {})
            && forall t :: t in d.assessments ==> IsAssessmentOf(d.assessments[t], t)
  {
  }

  // ---------------------------------------------------------------------
  // update_session_status
  // ---------------------------------------------------------------------

  /** The update_item request: the key of the session's metadata item, the SET expression and its values. */
  datatype UpdateRequest = UpdateRequest(pk: string, sk: string, updateExpression: string, values: Item)

  function StatusClause(key: string): string {
    "completion_status." + key + " = :" + key
  }

  const UpdatedAtClause: string := "metadata.updated_at = :now"

  /** The clauses appended in the loop, one per status update in order. */
  function StatusClauses(updates: seq<(string, Item)>): (r: seq<string>)
    ensures |r| == |updates|
    ensures forall i :: 0 <= i < |updates| ==> r[i] == StatusClause(updates[i].0)
  {
    if updates == [] then []
    else StatusClauses(updates[..|updates| - 1]) + [StatusClause(updates[|updates| - 1].0)]
  }

  /** The expression values: ":now" first, then ":key" for each update, a later key overwriting an earlier one. */
  function ExpressionValues(updates: seq<(string, Item)>, timestamp: string): (m: map<string, Item>)
    ensures ":now" in m
    ensures forall i :: 0 <= i < |updates| ==> ":" + updates[i].0 in m
  {
    if updates == [] then map[":now" := Str(timestamp)]
    else
      var (k, v) := updates[|updates| - 1];
      ExpressionValues(updates[..|updates| - 1], timestamp)[":" + k := v]
  }

  /** The request `update_session_status` sends for the given updates at the given time. */
  function StatusUpdate(sessionId: string, updates: seq<(string, Item)>, timestamp: string): UpdateRequest {
    UpdateRequest("SESSION#" + sessionId, "METADATA",
                  "SET " + Text.Join(StatusClauses(updates) + [UpdatedAtClause], ", "),
                  FloatsToDecimal(Dict(ExpressionValues(updates, timestamp))))
  }

  /** `update_session_status`: the loop that builds the clauses and the values, then the request. */
  method UpdateSessionStatus(sessionId: string, updates: seq<(string, Item)>, timestamp: string)
    returns (request: UpdateRequest)
    ensures request == StatusUpdate(sessionId, updates, timestamp)
  {
    var clauses: seq<string> := [];
    var values := map[":now" := Str(timestamp)];
    for i := 0 to |updates|
      invariant clauses == StatusClauses(updates[..i])
      invariant values == ExpressionValues(updates[..i], timestamp)
    {
      assert updates[..i + 1][..i] == updates[..i];
      var (k, v) := updates[i];
      clauses := clauses + ["completion_status." + k + " = :" + k];
      values := values[":" + k := v];
    }
    assert updates[..|updates|] == updates;
    clauses := clauses + ["metadata.updated_at = :now"];
    request := UpdateRequest("SESSION#" + sessionId, "METADATA", "SET " + Text.Join(clauses, ", "),
                             FloatsToDecimal(Dict(values)));
  }

  /** The expression sets each given flag and then the update time, which always comes last. */
  lemma StatusExpressionEndsWithUpdatedAt(sessionId: string, updates: seq<(string, Item)>, timestamp: string)
    ensures var e := StatusUpdate(sessionId, updates, timestamp).updateExpression;
            && Text.StartsWith(e, "SET ")
            && e == "SET " + (if updates == [] then "" else Text.Join(StatusClauses(updates), ", ") + ", ") + UpdatedAtClause
  {
    var e := StatusUpdate(sessionId, updates, timestamp).updateExpression;
    if updates != [] {
      Text.JoinSnoc(StatusClauses(updates), UpdatedAtClause, ", ");
    } else {
      assert StatusClauses(updates) + [UpdatedAtClause] == [UpdatedAtClause];
      assert "SET " + "" + UpdatedAtClause == "SET " + UpdatedAtClause;
    }
    assert e[..4] == "SET ";
  }

  /** A colon in front keeps different keys apart. */
  lemma ColonKeysDiffer(a: string, b: string)
    requires a != b
    ensures ":" + a != ":" + b
  {
    assert (":" + a)[1..] == a && (":" + b)[1..] == b;
  }

  /** The values hold nothing but ":now" and ":key" for the updated keys. */
  lemma {:induction false} ExpressionValuesKeys(updates: seq<(string, Item)>, timestamp: string)
    ensures forall k :: k in ExpressionValues(updates, timestamp) ==>
      k == ":now" || exists i :: 0 <= i < |updates| && k == ":" + updates[i].0
    decreases |updates|
  {
    if updates != [] {
      var front := updates[..|updates| - 1];
      ExpressionValuesKeys(front, timestamp);
      assert forall i :: 0 <= i < |front| ==> front[i] == updates[i];
    }
  }

  /** A key's value is the one given with its last occurrence. */
  lemma {:induction false} ExpressionValuesLastWins(updates: seq<(string, Item)>, timestamp: string, i: nat)
    requires i < |updates|
    requires forall j :: i < j < |updates| ==> updates[j].0 != updates[i].0
    ensures ExpressionValues(updates, timestamp)[":" + updates[i].0] == updates[i].1
    decreases |updates|
  {
    var n := |updates| - 1;
    if i < n {
      var front := updates[..n];
      assert front[i] == updates[i];
      assert forall j :: i < j < |front| ==> front[j] == updates[j];
      ExpressionValuesLastWins(front, timestamp, i);
      ColonKeysDiffer(updates[n].0, updates[i].0);
    }
  }

  /** ":now" holds the update time unless one of the keys is "now" itself. */
  lemma {:induction false} ExpressionValuesNow(updates: seq<(string, Item)>, timestamp: string)
    requires forall i :: 0 <= i < |updates| ==> updates[i].0 != "now"
    ensures ExpressionValues(updates, timestamp)[":now"] == Str(timestamp)
    decreases |updates|
  {
    if updates != [] {
      var n := |updates| - 1;
      var front := updates[..n];
      assert forall i :: 0 <= i < |front| ==> front[i] == updates[i];
      ExpressionValuesNow(front, timestamp);
      ColonKeysDiffer(updates[n].0, "now");
    }
  }

  // ---------------------------------------------------------------------
  // The status flag an assessment sets
  // ---------------------------------------------------------------------

  /** The completion flags a new session starts with. */
  const CompletionStatusKeys: set<string> := {
    "completed", "location_verified", "baseline_completed", "content_completed",
    "interventions_completed", "final_assessment_completed", "post_survey_completed"
  }

  /** `record_assessment`'s status key as written: "<type>_completed", except that a midpoint marks the baseline. */
  function StatusKeyAsWritten(assessmentType: string): string {
    if assessmentType != "midpoint" then assessmentType + "_completed" else "baseline_completed"
  }

  /** As written, recording the final assessment sets a flag the session record does not have. */
  lemma AsWrittenFinalFlagMissing()
    ensures StatusKeyAsWritten("final") == "final_completed"
    ensures StatusKeyAsWritten("final") !in CompletionStatusKeys
  {
    assert "final_completed"[..6] == "final_";
  }

  /** The status key with the final assessment mapped to the flag the session record has. */
  function StatusKey(assessmentType: string): (r: string)
    ensures assessmentType != "final" ==> r == StatusKeyAsWritten(assessmentType)
  {
    if assessmentType == "final" then "final_assessment_completed" else StatusKeyAsWritten(assessmentType)
  }

  /** Each assessment of the study sets one of the session's own completion flags. */
  lemma StatusKeyIsACompletionFlag(assessmentType: string)
    requires assessmentType in {"baseline", "midpoint", "final"}
    ensures StatusKey(assessmentType) in CompletionStatusKeys
    ensures assessmentType != "final" ==> StatusKey(assessmentType) == "baseline_completed"
  {
    assert "baseline" + "_completed" == "baseline_completed";
  }

  /** The status update `record_assessment` sends after writing the assessment, as written. */
  function AssessmentStatusUpdateAsWritten(sessionId: string, assessmentType: string, timestamp: string): UpdateRequest {
    StatusUpdate(sessionId, [(StatusKeyAsWritten(assessmentType), Bool(true))], timestamp)
  }

  /** The same update with the corrected key. */
  function AssessmentStatusUpdate(sessionId: string, assessmentType: string, timestamp: string): UpdateRequest {
    StatusUpdate(sessionId, [(StatusKey(assessmentType), Bool(true))], timestamp)
  }

  /** Setting one flag: the session's metadata row gets the flag set to true and the update time stamped. */
  lemma FlagUpdateSets(sessionId: string, key: string, timestamp: string)
    ensures var req := StatusUpdate(sessionId, [(key, Bool(true))], timestamp);
            && req.pk == "SESSION#" + sessionId && req.sk == "METADATA"
            && req.updateExpression == "SET " + StatusClause(key) + ", " + UpdatedAtClause
            && req.values == Dict(map[":now" := Str(timestamp), ":" + key := Bool(true)])
  {
    var u := [(key, Bool(true))];
    assert u[..0] == [];
    assert StatusClauses(u) == [StatusClause(key)];
    Text.JoinSnoc([StatusClause(key)], UpdatedAtClause, ", ");
    var m := ExpressionValues(u, timestamp);
    assert m == ExpressionValues([], timestamp)[":" + key := Bool(true)];
    FloatsToDecimalFixes(Dict(m));
  }

  /**
   * Recording an assessment sets "<type>_completed" (the baseline's flag for
   * a midpoint) to true and stamps the update time; the corrected update
   * differs only for the final assessment, whose flag it names as the session
   * record does.
   */
  lemma AssessmentStatusUpdateSets(sessionId: string, assessmentType: string, timestamp: string)
    ensures var req := AssessmentStatusUpdateAsWritten(sessionId, assessmentType, timestamp);
            var key := StatusKeyAsWritten(assessmentType);
            && req.pk == "SESSION#" + sessionId && req.sk == "METADATA"
            && req.updateExpression == "SET " + StatusClause(key) + ", " + UpdatedAtClause
            && req.values == Dict(map[":now" := Str(timestamp), ":" + key := Bool(true)])
    ensures assessmentType != "final" ==>
            AssessmentStatusUpdate(sessionId, assessmentType, timestamp) == AssessmentStatusUpdateAsWritten(sessionId, assessmentType, timestamp)
    ensures var req := AssessmentStatusUpdate(sessionId, "final", timestamp);
            req.values == Dict(map[":now" := Str(timestamp), ":final_assessment_completed" := Bool(true)])
  {
    FlagUpdateSets(sessionId, StatusKeyAsWritten(assessmentType), timestamp);
    FlagUpdateSets(sessionId, StatusKey("final"), timestamp);
    assert ":" + StatusKey("final") == ":final_assessment_completed";
  }

  // ---------------------------------------------------------------------
  // calculate_learning_gains
  // ---------------------------------------------------------------------

  /** One session's gain: the scores, their difference, and the normalized gain. */
  datatype Gain = Gain(sessionId: Item, studentId: Item, baseline: real, final: real,
                       absoluteGain: real, normalizedGain: real)

  datatype GainSummary = GainSummary(
    location: string, interval: real, intervention: string,
    n: nat, avgBaseline: real, avgFinal: real, avgAbsoluteGain: real, avgNormalizedGain: real,
    individualGains: seq<Gain>)

  /** The share of the possible improvement that was made; 0 when the baseline left no room. */
  function NormalizedGain(baseline: real, final: real): (g: real)
    ensures baseline < 100.0 ==> g * (100.0 - baseline) == final - baseline
    ensures baseline >= 100.0 ==> g == 0.0
  {
    if baseline < 100.0 then (final - baseline) / (100.0 - baseline) else 0.0
  }

  /** `a['assessment_results']['score_percentage']` as a number; anything else cannot be subtracted. */
  function Score(assessment: Item): Result<real, string> {
    var results :- Lookup(assessment, "assessment_results");
    var s :- Lookup(results, "score_percentage");
    match s
    case Int(i) => Ok(i as real)
    case Float(x) => Ok(x)
    case Bool(b) => Ok(if b then 1.0 else 0.0)
    case _ => Err("TypeError: score_percentage is not a number")
  }

  /**
   * The loop body for one session of the condition: `row` is the session's
   * item from the condition index, `query` what the partition query returns
   * for a session id.
   */
  function GainOf(row: Item, query: Item -> seq<Item>): Result<Option<Gain>, string> {
    var sessionId :- Lookup(row, "session_id");
    var data :- SessionFromItems(query(sessionId));
    if data.None? then Ok(None) else SessionGain(row, sessionId, data.value.assessments)
  }

  /**
   * The gain of a found session: a session without both a baseline and a
   * final assessment contributes nothing; otherwise its gain is the
   * difference of the two scores, or the error reading them raised.
   */
  function SessionGain(row: Item, sessionId: Item, a: map<string, Item>): (r: Result<Option<Gain>, string>)
    ensures r == Ok(None) <==> !("baseline" in a && Truthy(a["baseline"]) && "final" in a && Truthy(a["final"]))
    ensures r.Ok? && r.value.Some? ==>
      && Consistent(r.value.value) && r.value.value.sessionId == sessionId
      && Score(a["baseline"]) == Ok(r.value.value.baseline) && Score(a["final"]) == Ok(r.value.value.final)
  {
    if "baseline" in a && Truthy(a["baseline"]) && "final" in a && Truthy(a["final"]) then
      var b :- Score(a["baseline"]);
      var f :- Score(a["final"]);
      var studentId :- Lookup(row, "student_id");
      Ok(Some(Gain(sessionId, studentId, b, f, f - b, NormalizedGain(b, f))))
    else Ok(None)
  }

  /** The gains of the rows in order; the first row that raises ends the loop. */
  function Gains(rows: seq<Item>, query: Item -> seq<Item>): Result<seq<Gain>, string> {
    if rows == [] then Ok([])
    else
      var front :- Gains(rows[..|rows| - 1], query);
      var g :- GainOf(rows[|rows| - 1], query);
      Ok(if g.Some? then front + [g.value] else front)
  }

  function BaselineOf(g: Gain): real { g.baseline }
  function FinalOf(g: Gain): real { g.final }
  function AbsoluteOf(g: Gain): real { g.absoluteGain }
  function NormalizedOf(g: Gain): real { g.normalizedGain }

  /** The statistics over the gains: None when there are none, else their count and averages. */
  function Summarize(location: string, interval: real, intervention: string, gains: seq<Gain>): Option<GainSummary> {
    if gains == [] then None
    else
      var n := |gains|;
      Some(GainSummary(location, interval, intervention, n,
                       Seqs.SumReal(gains, BaselineOf) / n as real,
                       Seqs.SumReal(gains, FinalOf) / n as real,
                       Seqs.SumReal(gains, AbsoluteOf) / n as real,
                       Seqs.SumReal(gains, NormalizedOf) / n as real,
                       gains))
  }

  /** `calculate_learning_gains` on the condition's rows. */
  function LearningGains(location: string, interval: real, intervention: string,
                         rows: seq<Item>, query: Item -> seq<Item>): Result<Option<GainSummary>, string> {
    var gains :- Gains(rows, query);
    Ok(Summarize(location, interval, intervention, gains))
  }

  lemma {:induction false} GainsErrStays(rows: seq<Item>, n: nat, query: Item -> seq<Item>)
    requires n <= |rows| && Gains(rows[..n], query).Err?
    ensures Gains(rows, query) == Gains(rows[..n], query)
    decreases |rows|
  {
    if n < |rows| {
      var front := rows[..|rows| - 1];
      assert front[..n] == rows[..n];
      GainsErrStays(front, n, query);
    } else {
      assert rows[..n] == rows;
    }
  }

  /** `calculate_learning_gains`: the loop over the condition's sessions, then the averages. */
  method CalculateLearningGains(location: string, interval: real, intervention: string,
                                rows: seq<Item>, query: Item -> seq<Item>)
    returns (r: Result<Option<GainSummary>, string>)
    ensures r == LearningGains(location, interval, intervention, rows, query)
  {
    var gains: seq<Gain> := [];
    for i := 0 to |rows|
      invariant Gains(rows[..i], query) == Ok(gains)
    {
      assert rows[..i + 1][..i] == rows[..i];
      var g := GainOf(rows[i], query);
      if g.Err? {
        GainsErrStays(rows, i + 1, query);
        return Err(g.error);
      }
      if g.value.Some? {
        gains := gains + [g.value.value];
      }
    }
    assert rows[..|rows|] == rows;
    r := Ok(Summarize(location, interval, intervention, gains));
  }

  /** Each gain is the difference of its scores, with the matching normalized gain. */
  predicate Consistent(g: Gain) {
    g.absoluteGain == g.final - g.baseline && g.normalizedGain == NormalizedGain(g.baseline, g.final)
  }

  /** A session's gain is the difference of its scores, with the matching normalized gain. */
  lemma GainOfConsistent(row: Item, query: Item -> seq<Item>)
    requires GainOf(row, query).Ok? && GainOf(row, query).value.Some?
    ensures Consistent(GainOf(row, query).value.value)
  {
  }

  /** Every gain reported is consistent, and there is at most one per row. */
  lemma {:induction false} GainsConsistent(rows: seq<Item>, query: Item -> seq<Item>)
    requires Gains(rows, query).Ok?
    ensures |Gains(rows, query).value| <= |rows|
    ensures forall i :: 0 <= i < |Gains(rows, query).value| ==> Consistent(Gains(rows, query).value[i])
    decreases |rows|
  {
    if rows != [] {
      GainsConsistent(rows[..|rows| - 1], query);
      var g := GainOf(rows[|rows| - 1], query);
      if g.value.Some? { GainOfConsistent(rows[|rows| - 1], query); }
    }
  }

  lemma {:induction false} SumOfDifferences(gains: seq<Gain>)
    requires forall i :: 0 <= i < |gains| ==> Consistent(gains[i])
    ensures Seqs.SumReal(gains, AbsoluteOf) == Seqs.SumReal(gains, FinalOf) - Seqs.SumReal(gains, BaselineOf)
    decreases |gains|
  {
    if gains != [] {
      var front := gains[..|gains| - 1];
      assert forall i :: 0 <= i < |front| ==> front[i] == gains[i];
      SumOfDifferences(front);
    }
  }

  lemma DivideDifference(a: real, b: real, n: real)
    requires n > 0.0
    ensures (a - b) / n == a / n - b / n
  {
  }

  /** The reported sessions number at most the rows, and each one's gains agree with its scores. */
  lemma LearningGainsConsistent(location: string, interval: real, intervention: string,
                                rows: seq<Item>, query: Item -> seq<Item>)
    requires LearningGains(location, interval, intervention, rows, query).Ok?
    requires LearningGains(location, interval, intervention, rows, query).value.Some?
    ensures var s := LearningGains(location, interval, intervention, rows, query).value.value;
            && 0 < s.n <= |rows| && s.n == |s.individualGains|
            && forall i :: 0 <= i < |s.individualGains| ==> Consistent(s.individualGains[i])
  {
    GainsConsistent(rows, query);
  }

  /** Over consistent gains, the average gain is the average final score minus the average baseline score. */
  lemma AverageGainIsDifferenceOfAverages(location: string, interval: real, intervention: string, gains: seq<Gain>)
    requires forall i :: 0 <= i < |gains| ==> Consistent(gains[i])
    requires Summarize(location, interval, intervention, gains).Some?
    ensures var s := Summarize(location, interval, intervention, gains).value;
            s.avgAbsoluteGain == s.avgFinal - s.avgBaseline
  {
    SumOfDifferences(gains);
    DivideDifference(Seqs.SumReal(gains, FinalOf), Seqs.SumReal(gains, BaselineOf), |gains| as real);
  }

  /** No summary exactly when no session had both a baseline and a final assessment. */
  lemma NoSummaryIffNoGains(location: string, interval: real, intervention: string,
                            rows: seq<Item>, query: Item -> seq<Item>)
    ensures LearningGains(location, interval, intervention, rows, query) == Ok(None) <==> Gains(rows, query) == Ok([])
  {
  }

  /** With scores between 0 and 100, a baseline below 100 and no lost ground, the normalized gain lies in [0, 1], and is 1 only for a perfect final. */
  lemma NormalizedGainInUnit(baseline: real, final: real)
    requires 0.0 <= baseline < 100.0 && baseline <= final <= 100.0
    ensures 0.0 <= NormalizedGain(baseline, final) <= 1.0
    ensures NormalizedGain(baseline, final) == 1.0 <==> final == 100.0
  {
    Seqs.RatioInUnit(final - baseline, 100.0 - baseline);
  }

  /** When every session improved within the scale, the average normalized gain lies in [0, 1]. */
  lemma AverageNormalizedGainInUnit(location: string, interval: real, intervention: string, gains: seq<Gain>)
    requires forall i :: 0 <= i < |gains| ==> Consistent(gains[i])
    requires forall i :: 0 <= i < |gains| ==> 0.0 <= gains[i].baseline < 100.0 && gains[i].baseline <= gains[i].final <= 100.0
    requires Summarize(location, interval, intervention, gains).Some?
    ensures 0.0 <= Summarize(location, interval, intervention, gains).value.avgNormalizedGain <= 1.0
  {
    forall i | 0 <= i < |gains| ensures 0.0 <= NormalizedOf(gains[i]) <= 1.0 {
      NormalizedGainInUnit(gains[i].baseline, gains[i].final);
    }
    Seqs.SumRealBounds(gains, NormalizedOf, 0.0, 1.0);
    Seqs.MeanBounds(Seqs.SumReal(gains, NormalizedOf), |gains|, 0.0, 1.0);
  }
}
