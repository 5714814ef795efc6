/**
 * The read API Lambda behind the dashboard: friendly scenario names, the
 * routing of API Gateway proxy events, and the paged turn headers of a run.
 * The weekly, summary, timeseries, rankings, cost and detailed-results
 * endpoints are reached through the routing but answered by `others`.
 */
module Api {
  import opened Wrappers
  import opened Json
  import opened Http
  import Store
  import Text
  import Sorting
  import ModelComparison
  import Dialogue
  import Runner

  // ---------------------------------------------------------------------------
  // Scenario names

  const ScenarioNames: map<string, string> := map[
    "EL-ETH" := "Ethical Dilemma",
    "MAI-BIO" := "Vague Concept",
    "APO-PHY" := "Educational Challenge"]

  /** The first two dash-separated segments of an id (`"-".join(id.split("-")[:2])`), or "" for "". */
  function BaseId(id: string): string {
    if id == [] then []
    else
      var parts := Text.SplitOn(id, '-');
      Text.Join(parts[..if |parts| < 2 then |parts| else 2], "-")
  }

  /** `get_scenario_name`: a known id's name, else the name of its known base, else the id itself. */
  function ScenarioName(id: string): (r: string)
    ensures r in ScenarioNames.Values || r == id
  {
    if id in ScenarioNames then ScenarioNames[id]
    else
      var base := BaseId(id);
      if base in ScenarioNames then ScenarioNames[base] else id
  }

  lemma JoinTwo(a: string, b: string, sep: string)
    ensures Text.Join([a, b], sep) == a + sep + b
  {
    assert [a, b][1..] == [b];
  }

  lemma SplitTwo(a: string, b: string, suffix: string)
    requires '-' !in a && '-' !in b
    ensures Text.SplitOn(a + ['-'] + (b + ['-'] + suffix), '-') == [a] + ([b] + Text.SplitOn(suffix, '-'))
  {
    Text.SplitOnFirst(a, '-', b + ['-'] + suffix);
    Text.SplitOnFirst(b, '-', suffix);
  }

  /** With two or more pieces, the base is the first two joined by a dash. */
  lemma BaseIdOfPieces(id: string)
    requires |Text.SplitOn(id, '-')| >= 2
    ensures BaseId(id) == Text.SplitOn(id, '-')[0] + "-" + Text.SplitOn(id, '-')[1]
  {
    var parts := Text.SplitOn(id, '-');
    assert parts[..2] == [parts[0], parts[1]];
    JoinTwo(parts[0], parts[1], "-");
  }

  /** An id with at least two dashes has the text before its second dash as its base. */
  lemma BaseIdOfLong(a: string, b: string, suffix: string)
    requires '-' !in a && '-' !in b
    ensures BaseId(a + "-" + b + "-" + suffix) == a + "-" + b
  {
    var id := a + "-" + b + "-" + suffix;
    assert id == a + ['-'] + (b + ['-'] + suffix);
    SplitTwo(a, b, suffix);
    BaseIdOfPieces(id);
  }

  /** A join of two or more pieces starts with the join of the first two. */
  lemma JoinStartsWithFirstTwo(parts: seq<string>, sep: string)
    requires |parts| >= 2
    ensures Text.StartsWith(Text.Join(parts, sep), parts[0] + sep + parts[1])
  {
    var rest := parts[1..];
    assert Text.Join(parts, sep) == parts[0] + sep + Text.Join(rest, sep);
    if |rest| > 1 {
      assert Text.Join(rest, sep) == parts[1] + sep + Text.Join(rest[1..], sep);
    }
    var head := parts[0] + sep + parts[1];
    assert Text.Join(parts, sep)[..|head|] == head;
  }

  /** The base of an id is a prefix of it. */
  lemma BaseIdPrefix(id: string)
    ensures Text.StartsWith(id, BaseId(id))
  {
    if id != [] {
      var parts := Text.SplitOn(id, '-');
      if |parts| >= 2 {
        JoinTwo(parts[0], parts[1], "-");
        assert parts[..2] == [parts[0], parts[1]];
        JoinStartsWithFirstTwo(parts, "-");
      } else {
        assert parts[..|parts|] == parts;
      }
    }
  }

  /** The base of an id has at most one dash. */
  lemma BaseIdDashes(id: string)
    ensures Text.CountChar(BaseId(id), '-') <= 1
  {
    if id != [] {
      FirstTwoDashes(Text.SplitOn(id, '-'));
    }
  }

  /** Joining at most two dash-free parts with a dash gives at most one dash. */
  lemma FirstTwoDashes(parts: seq<string>)
    requires parts != [] && forall p :: p in parts ==> '-' !in p
    ensures Text.CountChar(Text.Join(parts[..if |parts| < 2 then |parts| else 2], "-"), '-') <= 1
  {
    if |parts| >= 2 {
      JoinTwo(parts[0], parts[1], "-");
      assert parts[..2] == [parts[0], parts[1]];
      assert parts[0] in parts && parts[1] in parts;
      OneDash(parts[0], parts[1]);
    } else {
      assert parts[..|parts|] == [parts[0]];
      assert parts[0] in parts;
    }
  }

  /** Two dash-free parts joined by a dash hold exactly one dash. */
  lemma OneDash(a: string, b: string)
    requires '-' !in a && '-' !in b
    ensures Text.CountChar(a + "-" + b, '-') == 1
  {
    assert multiset(a + "-" + b) == multiset(a) + multiset{'-'} + multiset(b);
  }

  /** An id with at most one dash is its own base. */
  lemma BaseIdShort(id: string)
    requires Text.CountChar(id, '-') <= 1
    ensures BaseId(id) == id
  {
    if id != [] {
      var parts := Text.SplitOn(id, '-');
      assert parts[..|parts|] == parts;
    }
  }

  /** A variant id such as "APO-PHY-HEAT-TEMP-01" gets the name of the known scenario it extends. */
  lemma ScenarioNameOfVariant(known: string, suffix: string)
    requires known in ScenarioNames
    ensures ScenarioName(known + "-" + suffix) == ScenarioNames[known]
  {
    var a := if known == "EL-ETH" then "EL" else if known == "MAI-BIO" then "MAI" else "APO";
    var b := if known == "EL-ETH" then "ETH" else if known == "MAI-BIO" then "BIO" else "PHY";
    assert known == a + "-" + b;
    BaseIdOfLong(a, b, suffix);
    var id := known + "-" + suffix;
    assert id == a + "-" + b + "-" + suffix;
    VariantIsNotKnown(known, suffix);
  }

  /** A known id with a dash and more text after it is not itself a known id (the known ids differ in their first letter). */
  lemma VariantIsNotKnown(known: string, suffix: string)
    requires known in ScenarioNames
    ensures known + "-" + suffix !in ScenarioNames
  {
    var id := known + "-" + suffix;
    assert id[0] == known[0] && |id| > |known|;
    assert ScenarioNames.Keys == {"EL-ETH", "MAI-BIO", "APO-PHY"};
    assert forall k :: k in ScenarioNames && k[0] == known[0] ==> k == known;
  }

  /** An unknown id whose base is unknown too comes back unchanged. */
  lemma ScenarioNameFallback(id: string)
    requires id !in ScenarioNames && BaseId(id) !in ScenarioNames
    ensures ScenarioName(id) == id
  {
  }

  // ---------------------------------------------------------------------------
  // Routing

  datatype Endpoint =
    | Weekly
    | RunSummary
    | RunTurns
    | Timeseries
    | LatestRankings
    | CostAnalysis
    | ModelComparisonEndpoint
    | DetailedResults

  predicate IsRunPath(path: string, tail: string) {
    Text.StartsWith(path, "/runs/") && Text.EndsWith(path, tail)
  }

  /** The if/elif chain of `lambda_handler` on the path; `None` is the 404 branch. */
  function RouteOf(path: string): (r: Option<Endpoint>)
    ensures r.None? <==>
      path !in {"/weekly", "/api/timeseries", "/api/latest-rankings", "/api/cost-analysis", "/api/model-comparison", "/api/detailed-results"}
      && !IsRunPath(path, "/summary") && !IsRunPath(path, "/turns")
  {
    if path == "/weekly" then Some(Weekly)
    else if IsRunPath(path, "/summary") then Some(RunSummary)
    else if IsRunPath(path, "/turns") then Some(RunTurns)
    else if path == "/api/timeseries" then Some(Timeseries)
    else if path == "/api/latest-rankings" then Some(LatestRankings)
    else if path == "/api/cost-analysis" then Some(CostAnalysis)
    else if path == "/api/model-comparison" then Some(ModelComparisonEndpoint)
    else if path == "/api/detailed-results" then Some(DetailedResults)
    else None
  }

  /** The paths the dashboard builds for a run reach the run endpoints. */
  lemma RunPathsRoute(runId: string)
    ensures RouteOf("/runs/" + runId + "/summary") == Some(RunSummary)
    ensures RouteOf("/runs/" + runId + "/turns") == Some(RunTurns)
  {
    var s := "/runs/" + runId + "/summary";
    var t := "/runs/" + runId + "/turns";
    assert s[..6] == "/runs/" && s[|s| - 8..] == "/summary";
    assert t[..6] == "/runs/" && t[|t| - 6..] == "/turns";
    assert s[1] == 'r' && t[1] == 'r';
    assert !Text.EndsWith(t, "/summary") by {
      if |t| >= 8 { assert t[|t| - 1] == 's' && "/summary"[7] == 'y'; }
    }
  }

  // ---------------------------------------------------------------------------
  // Turn headers

  /**
   * Python's `s[lo:hi]` for integer bounds: a negative bound counts from the
   * end, bounds are clamped to the sequence, and crossed bounds give [].
   */
  function Clamp(i: int, n: nat): (r: nat)
    ensures r <= n
  {
    if i < 0 then (if i + n < 0 then 0 else i + n)
    else if i > n then n
    else i
  }

  function PySlice<T>(s: seq<T>, lo: int, hi: int): seq<T> {
    var a := Clamp(lo, |s|);
    var b := Clamp(hi, |s|);
    if a < b then s[a..b] else []
  }

  /** A page never holds more than `limit` turns, and holds exactly `limit` while the turns last. */
  lemma PageLength<T>(s: seq<T>, offset: nat, limit: nat)
    ensures |PySlice(s, offset, offset + limit)| <= limit
    ensures offset + limit <= |s| ==> |PySlice(s, offset, offset + limit)| == limit
    ensures offset >= |s| ==> PySlice(s, offset, offset + limit) == []
  {
  }

  /** Two consecutive pages are the page that spans both: paging through loses and repeats nothing. */
  lemma PagesConcatenate<T>(s: seq<T>, offset: nat, l1: nat, l2: nat)
    ensures PySlice(s, offset, offset + l1) + PySlice(s, offset + l1, offset + l1 + l2) == PySlice(s, offset, offset + l1 + l2)
  {
    var n := |s|;
    var a := Clamp(offset, n);
    var b := Clamp(offset + l1, n);
    var c := Clamp(offset + l1 + l2, n);
    if a < b && b < c {
      assert s[a..b] + s[b..c] == s[a..c];
    }
  }

  /** Pages of `limit` from offset 0 cover the first `k * limit` turns in order. */
  lemma {:induction false} PagesCover<T>(s: seq<T>, limit: nat, k: nat)
    ensures PagesFrom(s, limit, k) == PySlice(s, 0, k * limit)
  {
    if k > 0 {
      PagesCover(s, limit, k - 1);
      PagesConcatenate(s, 0, (k - 1) * limit, limit);
      assert (k - 1) * limit + limit == k * limit;
    }
  }

  /** The first `k` pages of `limit` turns, fetched one after another. */
  function PagesFrom<T>(s: seq<T>, limit: nat, k: nat): seq<T> {
    if k == 0 then [] else PagesFrom(s, limit, k - 1) + PySlice(s, (k - 1) * limit, (k - 1) * limit + limit)
  }

  /** A queried row keyed by its turn index. */
  datatype TurnRow = TurnRow(index: Json, item: Store.Item)

  /** `[item for item in items if item["SK"].startswith("TURN#")]`. */
  function TurnItems(items: seq<Store.Item>): Result<seq<Store.Item>, string> {
    if items == [] then Ok([])
    else
      match TurnItems(items[..|items| - 1])
      case Err(e) => Err(e)
      case Ok(turns) =>
        var item := items[|items| - 1];
        if "SK" !in item then Err("'SK'")
        else if !item["SK"].JStr? then Err("AttributeError: no attribute 'startswith'")
        else if Text.StartsWith(item["SK"].s, "TURN#") then Ok(turns + [item])
        else Ok(turns)
  }

  /** The sort keys `x["turn_index"]`, in the order of the turns. */
  function TurnKeys(turns: seq<Store.Item>): (r: Result<seq<TurnRow>, string>)
    ensures r.Ok? ==> |r.value| == |turns| && forall i :: 0 <= i < |turns| ==> r.value[i].item == turns[i]
  {
    if turns == [] then Ok([])
    else
      match TurnKeys(turns[..|turns| - 1])
      case Err(e) => Err(e)
      case Ok(rows) =>
        var item := turns[|turns| - 1];
        if "turn_index" !in item then Err("'turn_index'")
        else Ok(rows + [TurnRow(item["turn_index"], item)])
  }

  /** The numeric value of a sort key; keys that are not numbers never reach a comparison. */
  function IndexKey(r: TurnRow): real {
    if r.index.JNum? then r.index.n else 0.0
  }

  predicate IndexLe(a: TurnRow, b: TurnRow) {
    IndexKey(a) <= IndexKey(b)
  }

  /** `sorted(turns, key=turn_index)` for numeric indices; comparing indices that are not numbers is refused. */
  function SortedTurns(items: seq<Store.Item>): Result<seq<TurnRow>, string> {
    match TurnItems(items)
    case Err(e) => Err(e)
    case Ok(turns) =>
      match TurnKeys(turns)
      case Err(e) => Err(e)
      case Ok(rows) =>
        if |rows| >= 2 && exists i :: 0 <= i < |rows| && !rows[i].index.JNum? then
          Err("TypeError: '<' not supported between instances")
        else Ok(Sorting.SortBy(rows, IndexLe))
  }

  /** The turns of the run sorted by index, and the page `[offset, offset + limit)` of them. */
  function TurnsPage(items: seq<Store.Item>, offset: int, limit: int): Result<(nat, seq<TurnRow>), string> {
    match SortedTurns(items)
    case Err(e) => Err(e)
    case Ok(turns) => Ok((|turns|, PySlice(turns, offset, offset + limit)))
  }

  lemma TurnItemsAreTurns(items: seq<Store.Item>)
    requires TurnItems(items).Ok?
    ensures forall t: Store.Item :: t in TurnItems(items).value ==> t in items && "SK" in t && t["SK"].JStr? && Text.StartsWith(t["SK"].s, "TURN#")
    ensures forall t: Store.Item :: t in items && "SK" in t && t["SK"].JStr? && Text.StartsWith(t["SK"].s, "TURN#") ==> t in TurnItems(items).value
  {
    if items != [] {
      TurnItemsAreTurns(items[..|items| - 1]);
      assert items == items[..|items| - 1] + [items[|items| - 1]];
    }
  }

  /** A slice of an ordered sequence is ordered. */
  lemma SliceSorted<T>(s: seq<T>, lo: int, hi: int, le: (T, T) -> bool)
    requires Sorting.SortedBy(s, le)
    ensures Sorting.SortedBy(PySlice(s, lo, hi), le)
  {
    var a := Clamp(lo, |s|);
    var b := Clamp(hi, |s|);
    if a < b {
      var p := s[a..b];
      forall i, j | 0 <= i < j < |p| ensures le(p[i], p[j]) {
        assert p[i] == s[a + i] && p[j] == s[a + j];
      }
    }
  }

  lemma SliceWithin<T>(s: seq<T>, lo: int, hi: int)
    ensures forall x :: x in PySlice(s, lo, hi) ==> x in s
  {
    var a := Clamp(lo, |s|);
    var b := Clamp(hi, |s|);
    if a < b {
      forall x | x in s[a..b] ensures x in s {
        var i :| 0 <= i < b - a && s[a..b][i] == x;
        assert s[a + i] == x;
      }
    }
  }

  /** The total reported is the number of TURN rows the query returned. */
  lemma TurnsPageTotal(items: seq<Store.Item>, offset: int, limit: int)
    requires TurnsPage(items, offset, limit).Ok?
    ensures TurnsPage(items, offset, limit).value.0 == |TurnItems(items).value|
  {
  }

  /** The page is ordered by turn index. */
  lemma TurnsPageSorted(items: seq<Store.Item>, offset: int, limit: int)
    requires TurnsPage(items, offset, limit).Ok?
    ensures Sorting.SortedBy(TurnsPage(items, offset, limit).value.1, IndexLe)
  {
    var rows := TurnKeys(TurnItems(items).value).value;
    assert Sorting.Total(IndexLe) && Sorting.Transitive(IndexLe);
    Sorting.SortBySorted(rows, IndexLe);
    SliceSorted(Sorting.SortBy(rows, IndexLe), offset, offset + limit, IndexLe);
  }

  /** Every row on the page is a TURN row the query returned. */
  lemma TurnsPageRows(items: seq<Store.Item>, offset: int, limit: int)
    requires TurnsPage(items, offset, limit).Ok?
    ensures forall r :: r in TurnsPage(items, offset, limit).value.1 ==>
      r.item in items && "SK" in r.item && r.item["SK"].JStr? && Text.StartsWith(r.item["SK"].s, "TURN#")
  {
    var turns := TurnItems(items).value;
    var rows := TurnKeys(turns).value;
    var sorted := Sorting.SortBy(rows, IndexLe);
    TurnItemsAreTurns(items);
    SliceWithin(sorted, offset, offset + limit);
    forall r | r in PySlice(sorted, offset, offset + limit)
      ensures r.item in items && "SK" in r.item && r.item["SK"].JStr? && Text.StartsWith(r.item["SK"].s, "TURN#")
    {
      assert r in multiset(rows);
      var k :| 0 <= k < |rows| && rows[k] == r;
      assert r.item == turns[k] && turns[k] in turns;
    }
  }

  /** A turn's header: the stored metrics with their defaults, and a signed URL when the row has an S3 key. */
  function TurnHeader(r: TurnRow, sign: Json -> string): Json {
    var t := JObj(r.item);
    var key := GetOr(t, "s3_key", JNull);
    JObj(map[
      "turn_index" := r.index,
      "latency_ms" := GetOr(t, "latency_ms", JNum(0.0)),
      "input_tokens" := GetOr(t, "input_tokens", JNum(0.0)),
      "output_tokens" := GetOr(t, "output_tokens", JNum(0.0)),
      "has_question" := GetOr(t, "has_question", JBool(false)),
      "word_count" := GetOr(t, "word_count", JNum(0.0)),
      "s3_url" := if Truthy(key) then JStr(sign(key)) else JNull])
  }

  /**
   * Whether a value read back from the table holds a number. The table
   * resource returns every stored number as a `decimal.Decimal`, so such a
   * value holds one.
   */
  predicate HoldsNumber(j: Json) {
    match j
    case JNum(_) => true
    case JArr(a) => exists i :: 0 <= i < |a| && HoldsNumber(a[i])
    case JObj(m) => exists k :: k in m && HoldsNumber(m[k])
    case _ => false
  }

  /** The header fields copied from the stored row when it has them; the defaults in their place are plain ints. */
  const StoredMetrics: seq<string> := ["latency_ms", "input_tokens", "output_tokens", "has_question", "word_count"]

  /** Whether the header of `r` carries a Decimal: its turn index, or a metric the row stores, holds a number. */
  predicate HeaderHoldsDecimal(r: TurnRow) {
    HoldsNumber(r.index) || exists k :: k in StoredMetrics && k in r.item && HoldsNumber(r.item[k])
  }

  predicate PageHoldsDecimal(page: seq<TurnRow>) {
    exists i :: 0 <= i < |page| && HeaderHoldsDecimal(page[i])
  }

  /**
   * How the response body is serialised: the standard `json.dumps` the
   * handler calls, which refuses a Decimal with a TypeError, or an encoder
   * that turns Decimals into numbers, as the curator's does.
   */
  datatype Encoder = StandardEncoder | DecimalEncoder

  const DecimalFailure: string := "Failed to load turns: Object of type Decimal is not JSON serializable"

  /**
   * `get_run_turns` over the items the TURN# query returned: 400 without a
   * run id, 500 when the rows cannot be read or ordered, otherwise the page
   * of headers and the total number of turns. With the standard encoder,
   * `success_response` raises inside the `try` on a page whose headers carry
   * a Decimal, and that is a 500 too.
   */
  function GetRunTurns(enc: Encoder, runId: Option<string>, offset: int, limit: int, items: seq<Store.Item>, sign: Json -> string): (resp: Response)
    ensures resp.statusCode in {200, 400, 500}
    ensures resp.statusCode == 400 <==> runId.None? || runId.value == []
    ensures resp.statusCode == 500 <==>
      runId.Some? && runId.value != [] && (TurnsPage(items, offset, limit).Err? || (enc == StandardEncoder && PageHoldsDecimal(TurnsPage(items, offset, limit).value.1)))
    ensures enc == StandardEncoder && resp.statusCode == 500 && TurnsPage(items, offset, limit).Ok? ==> resp == ErrorResponse(500, DecimalFailure)
    ensures resp.statusCode == 200 ==>
      resp.body.JObj? && "total" in resp.body.fields && "turns" in resp.body.fields
      && resp.body.fields["total"] == JNum(|TurnItems(items).value| as real)
      && resp.body.fields["turns"].JArr?
      && |resp.body.fields["turns"].items| == |TurnsPage(items, offset, limit).value.1|
  {
    if runId.None? || runId.value == [] then ErrorResponse(400, "run_id required")
    else
      match TurnsPage(items, offset, limit)
      case Err(e) => ErrorResponse(500, "Failed to load turns: " + e)
      case Ok(p) =>
        var page := p.1;
        if enc == StandardEncoder && PageHoldsDecimal(page) then ErrorResponse(500, DecimalFailure)
        else
          SuccessResponse(JObj(map[
            "run_id" := JStr(runId.value),
            "offset" := JNum(offset as real),
            "limit" := JNum(limit as real),
            "total" := JNum(p.0 as real),
            "turns" := JArr(seq(|page|, i requires 0 <= i < |page| => TurnHeader(page[i], sign)))]))
  }

  /**
   * With the standard encoder, every non-empty page of a run with two or
   * more turns is a 500: ordering them needs numeric indices, and a numeric
   * index read back from the table is a Decimal. The Decimal-aware encoder
   * answers 200 for the same request.
   */
  lemma StandardEncoderFailsOnTurns(runId: string, offset: int, limit: int, items: seq<Store.Item>, sign: Json -> string)
    requires runId != [] && TurnsPage(items, offset, limit).Ok?
    requires |TurnItems(items).value| >= 2 && TurnsPage(items, offset, limit).value.1 != []
    ensures GetRunTurns(StandardEncoder, Some(runId), offset, limit, items, sign) == ErrorResponse(500, DecimalFailure)
    ensures GetRunTurns(DecimalEncoder, Some(runId), offset, limit, items, sign).statusCode == 200
  {
    var rows := TurnKeys(TurnItems(items).value).value;
    var sorted := Sorting.SortBy(rows, IndexLe);
    var page := TurnsPage(items, offset, limit).value.1;
    SliceWithin(sorted, offset, offset + limit);
    var first := page[0];
    assert first in sorted;
    assert first in multiset(rows);
    var k :| 0 <= k < |rows| && rows[k] == first;
    assert first.index.JNum?;
    assert HeaderHoldsDecimal(page[0]);
  }

  /**
   * The TURN row the runner writes for a turn, listed with the handler's
   * default paging: the standard encoder answers 500, the Decimal-aware one
   * 200 with the one header.
   */
  lemma RunnerTurnFailsToList(runId: string, t: Dialogue.Turn, sign: Json -> string)
    requires runId != [] && t.turnIndex == 0
    ensures var row := Runner.TurnItem(runId, t)["PK" := JStr(Store.RunPk(runId))]["SK" := JStr(Store.TurnSk(0))];
      GetRunTurns(StandardEncoder, Some(runId), 0, 10, [row], sign) == ErrorResponse(500, DecimalFailure)
      && GetRunTurns(DecimalEncoder, Some(runId), 0, 10, [row], sign).statusCode == 200
  {
    var row := Runner.TurnItem(runId, t)["PK" := JStr(Store.RunPk(runId))]["SK" := JStr(Store.TurnSk(0))];
    var none: seq<Store.Item> := [];
    assert [row][..0] == none;
    var sk := Store.TurnSk(0);
    assert sk[..5] == "TURN#";
    assert row["SK"] == JStr(sk) && Text.StartsWith(sk, "TURN#");
    assert TurnItems([row][..0]) == Ok(none);
    assert none + [row] == [row];
    assert TurnItems([row]) == Ok([row]);
    var rows := [TurnRow(row["turn_index"], row)];
    var noRows: seq<TurnRow> := [];
    assert "turn_index" in row;
    assert TurnKeys([row][..0]) == Ok(noRows);
    assert noRows + rows == rows;
    assert TurnKeys([row]) == Ok(rows);
    assert Sorting.SortBy(rows, IndexLe) == rows;
    assert TurnsPage([row], 0, 10) == Ok((1, rows));
    assert HeaderHoldsDecimal(rows[0]);
  }

  // ---------------------------------------------------------------------------
  // The handler

  /** The parts of an API Gateway proxy event the handler reads; a null parameter object is an empty map. */
  datatype Event = Event(
    httpMethod: Option<string>,
    path: Option<string>,
    queryStringParameters: map<string, string>,
    pathParameters: map<string, string>)

  /** `int(params.get(name, default))`; `parseInt` is Python's `int()` on a string. */
  function IntParam(query: map<string, string>, name: string, default: int, parseInt: string -> Option<int>): (r: Result<int, string>)
    ensures name !in query ==> r == Ok(default)
    ensures name in query ==> (r.Ok? <==> parseInt(query[name]).Some?)
  {
    if name !in query then Ok(default)
    else
      match parseInt(query[name])
      case Some(v) => Ok(v)
      case None => Err("invalid literal for int() with base 10: '" + query[name] + "'")
  }

  /** What the endpoints read besides the event. */
  datatype Sources = Sources(
    turnItems: seq<Store.Item>,
    sign: Json -> string,
    summaries: seq<Store.Item>,
    blobs: map<string, Json>,
    parseInt: string -> Option<int>,
    parseReal: string -> Option<real>,
    others: Endpoint -> Response)

  /** The turns endpoint: the query parameters are parsed first, and a bad one is a 500. */
  function TurnsEndpoint(enc: Encoder, ev: Event, src: Sources): (resp: Response)
    ensures resp.statusCode in {200, 400, 500}
    ensures IntParam(ev.queryStringParameters, "offset", 0, src.parseInt).Err? ==>
      resp == ErrorResponse(500, IntParam(ev.queryStringParameters, "offset", 0, src.parseInt).error)
    ensures IntParam(ev.queryStringParameters, "offset", 0, src.parseInt).Ok? && IntParam(ev.queryStringParameters, "limit", 10, src.parseInt).Ok? ==>
      resp == GetRunTurns(enc, if "run_id" in ev.pathParameters then Some(ev.pathParameters["run_id"]) else None,
        IntParam(ev.queryStringParameters, "offset", 0, src.parseInt).value, IntParam(ev.queryStringParameters, "limit", 10, src.parseInt).value, src.turnItems, src.sign)
  {
    match IntParam(ev.queryStringParameters, "offset", 0, src.parseInt)
    case Err(e) => ErrorResponse(500, e)
    case Ok(offset) =>
      match IntParam(ev.queryStringParameters, "limit", 10, src.parseInt)
      case Err(e) => ErrorResponse(500, e)
      case Ok(limit) =>
        var runId := if "run_id" in ev.pathParameters then Some(ev.pathParameters["run_id"]) else None;
        GetRunTurns(enc, runId, offset, limit, src.turnItems, src.sign)
  }

  /**
   * `lambda_handler`. Logging the request reads `httpMethod` and `path`
   * before the `try`, so an event without them makes the invocation raise
   * (`Err`); the defaults of the later `event.get` calls never apply.
   */
  function LambdaHandler(ev: Event, src: Sources): (r: Result<Response, string>)
    ensures r.Err? <==> ev.httpMethod.None? || ev.path.None?
    ensures r.Ok? && ev.httpMethod.value != "GET" ==> r.value == ErrorResponse(405, "Method not allowed")
    ensures r.Ok? && ev.httpMethod.value == "GET" && RouteOf(ev.path.value).None? ==> r.value == ErrorResponse(404, "Not found")
    ensures r.Ok? && ev.httpMethod.value == "GET" && RouteOf(ev.path.value) == Some(RunTurns) ==> r.value == TurnsEndpoint(StandardEncoder, ev, src)
    ensures r.Ok? && ev.httpMethod.value == "GET" && RouteOf(ev.path.value) == Some(ModelComparisonEndpoint) ==>
      r.value == ModelComparison.ComparisonResponse(src.summaries, src.blobs, src.parseReal)
  {
    if ev.httpMethod.None? then Err("KeyError: 'httpMethod'")
    else if ev.path.None? then Err("KeyError: 'path'")
    else if ev.httpMethod.value != "GET" then Ok(ErrorResponse(405, "Method not allowed"))
    else
      match RouteOf(ev.path.value)
      case None => Ok(ErrorResponse(404, "Not found"))
      case Some(RunTurns) => Ok(TurnsEndpoint(StandardEncoder, ev, src))
      case Some(ModelComparisonEndpoint) => Ok(ModelComparison.ComparisonResponse(src.summaries, src.blobs, src.parseReal))
      case Some(e) => Ok(src.others(e))
  }

  /** A turns request without a run id is refused with 400, whatever the paging parameters, as long as they parse. */
  lemma TurnsWithoutRunId(ev: Event, src: Sources)
    requires ev.httpMethod == Some("GET") && ev.path.Some? && RouteOf(ev.path.value) == Some(RunTurns)
    requires "run_id" !in ev.pathParameters || ev.pathParameters["run_id"] == []
    requires IntParam(ev.queryStringParameters, "offset", 0, src.parseInt).Ok?
    requires IntParam(ev.queryStringParameters, "limit", 10, src.parseInt).Ok?
    ensures LambdaHandler(ev, src).Ok? && LambdaHandler(ev, src).value.statusCode == 400
  {
  }

  /** Every request that reaches the handler's `try` gets one of the handler's status codes. */
  lemma HandlerStatus(ev: Event, src: Sources)
    requires LambdaHandler(ev, src).Ok?
    requires forall e :: src.others(e).statusCode in {200, 404, 500}
    ensures LambdaHandler(ev, src).value.statusCode in {200, 400, 404, 405, 500}
  {
    if ev.httpMethod.value == "GET" && RouteOf(ev.path.value) == Some(ModelComparisonEndpoint) {
      ModelComparison.ComparisonStatus(src.summaries, src.blobs, src.parseReal);
    }
  }
}
