/**
 * The storage the Lambda handlers share: the single DynamoDB table (items
 * under a partition key and a sort key), the raw-data S3 bucket (parsed JSON
 * objects under their keys), the judge-jobs SQS queue and the EventBridge
 * bus. Each is a field of `Backend`, and each AWS call the handlers make is a
 * method that changes that field and nothing else.
 */
module Store {
  import opened Json
  import Text

  /** A DynamoDB primary key. */
  datatype Key = Key(pk: string, sk: string)

  /** A DynamoDB item: attribute name to value. */
  type Item = map<string, Json>

  /** An EventBridge entry: source, detail type and the detail document. */
  datatype Event = Event(source: string, detailType: string, detail: Json)

  /** A message on the judge-jobs queue: which turn of which run to judge. */
  datatype JudgeJob = JudgeJob(runId: string, turnIndex: nat)

  function RunPk(runId: string): string { "RUN#" + runId }

  const MetaSk: string := "META"

  function TurnSk(i: nat): string { "TURN#" + Text.Pad3(i) }

  function JudgeSk(i: nat): string { "JUDGE#" + Text.Pad3(i) }

  function TurnBlobKey(runId: string, i: nat): string {
    "raw/runs/" + runId + "/turn_" + Text.Pad3(i) + ".json"
  }

  function JudgeBlobKey(runId: string, i: nat): string {
    "raw/runs/" + runId + "/judge_" + Text.Pad3(i) + ".json"
  }

  /** Distinct turns get distinct TURN and JUDGE sort keys, and no TURN key is a JUDGE key. */
  lemma SortKeysDistinct(a: nat, b: nat)
    ensures TurnSk(a) == TurnSk(b) ==> a == b
    ensures JudgeSk(a) == JudgeSk(b) ==> a == b
    ensures Text.StartsWith(TurnSk(a), "TURN#") && !Text.StartsWith(TurnSk(a), "JUDGE#")
    ensures Text.StartsWith(JudgeSk(a), "JUDGE#") && !Text.StartsWith(JudgeSk(a), "TURN#")
  {
    if TurnSk(a) == TurnSk(b) {
      assert Text.Pad3(a) == TurnSk(a)[5..] == TurnSk(b)[5..] == Text.Pad3(b);
      Text.Pad3Injective(a, b);
    }
    if JudgeSk(a) == JudgeSk(b) {
      assert Text.Pad3(a) == JudgeSk(a)[6..] == JudgeSk(b)[6..] == Text.Pad3(b);
      Text.Pad3Injective(a, b);
    }
    assert TurnSk(a)[..5] == "TURN#";
    assert JudgeSk(a)[..6] == "JUDGE#";
    assert TurnSk(a)[0] != JudgeSk(a)[0];
  }

  /** The keys a `query` on partition `pk` returns whose sort key starts with `prefix`. */
  function KeysUnder(items: map<Key, Item>, pk: string, prefix: string): set<Key> {
    set k | k in items && k.pk == pk && Text.StartsWith(k.sk, prefix)
  }

  /** The key of turn `i`'s TURN row (or, with `judge`, its JUDGE row) in a run's partition. */
  function RowKey(runId: string, i: nat, judge: bool): Key {
    Key(RunPk(runId), if judge then JudgeSk(i) else TurnSk(i))
  }

  /** Distinct turns have distinct rows of either kind. */
  lemma RowKeyDistinct(runId: string, a: nat, b: nat, judge: bool)
    requires a != b
    ensures RowKey(runId, a, judge) != RowKey(runId, b, judge)
  {
    SortKeysDistinct(a, b);
  }

  /** The keys of the TURN rows (or, with `judge`, the JUDGE rows) of the given turns of a run. */
  function RowKeys(runId: string, turns: set<nat>, judge: bool): set<Key> {
    set i | i in turns :: RowKey(runId, i, judge)
  }

  lemma {:induction false} RowKeysCount(runId: string, turns: set<nat>, judge: bool)
    ensures |RowKeys(runId, turns, judge)| == |turns|
    decreases turns
  {
    if turns != {} {
      var x :| x in turns;
      var rest := turns - {x};
      var k := RowKey(runId, x, judge);
      assert RowKeys(runId, turns, judge) == RowKeys(runId, rest, judge) + {k};
      forall i | i in rest
        ensures RowKey(runId, i, judge) != k
      {
        RowKeyDistinct(runId, i, x, judge);
      }
      assert k !in RowKeys(runId, rest, judge);
      RowKeysCount(runId, rest, judge);
    }
  }

  /** The indices 0..n-1. */
  function Indices(n: nat): (s: set<nat>)
    ensures forall i: nat :: i in s <==> i < n
  {
    if n == 0 then {} else Indices(n - 1) + {n - 1}
  }

  lemma {:induction false} IndicesCount(n: nat)
    ensures |Indices(n)| == n
  {
    if n > 0 {
      var below := Indices(n - 1);
      assert Indices(n) == below + {n - 1} && n - 1 !in below;
      IndicesCount(n - 1);
      assert |below + {n - 1}| == |below| + 1;
    }
  }
  /** Adding turn n to the turns 0..n-1 adds exactly turn n's key. */
  lemma RowKeysStep(runId: string, n: nat, judge: bool)
    ensures RowKeys(runId, Indices(n + 1), judge) == RowKeys(runId, Indices(n), judge) + {RowKey(runId, n, judge)}
  {
    assert Indices(n + 1) == Indices(n) + {n};
  }

  /** `update_item` with a SET expression: merge into the stored item, creating it when absent. */
  function Merge(items: map<Key, Item>, k: Key, attrs: Item): (r: map<Key, Item>)
    ensures k in r && r.Keys == items.Keys + {k}
    ensures forall a :: a in attrs ==> a in r[k] && r[k][a] == attrs[a]
    ensures k in items ==> forall a :: a in items[k] && a !in attrs ==> a in r[k] && r[k][a] == items[k][a]
    ensures k !in items ==> r[k].Keys == attrs.Keys
    ensures forall o :: o in items && o != k ==> o in r && r[o] == items[o]
  {
    items[k := (if k in items then items[k] else map[]) + attrs]
  }

  /** The AWS resources the handlers read and write. */
  class Backend {
    /** The DynamoDB table. */
    var items: map<Key, Item>
    /** The raw-data bucket, each object parsed. */
    var blobs: map<string, Json>
    /** The judge-jobs queue, oldest message first. */
    var judgeQueue: seq<JudgeJob>
    /** Events put on the bus, oldest first. */
    var events: seq<Event>

    constructor(items0: map<Key, Item>, blobs0: map<string, Json>)
      ensures items == items0 && blobs == blobs0 && judgeQueue == [] && events == []
    {
      items := items0;
      blobs := blobs0;
      judgeQueue := [];
      events := [];
    }

    /** `put_item`: replaces whatever was stored under the key. */
    method PutItem(k: Key, item: Item)
      modifies this
      ensures items == old(items)[k := item]
      ensures blobs == old(blobs) && judgeQueue == old(judgeQueue) && events == old(events)
    {
      items := items[k := item];
    }

    /** `update_item` with SET: the named attributes change, the others stay; a missing item is created. */
    method UpdateItem(k: Key, attrs: Item)
      modifies this
      ensures items == Merge(old(items), k, attrs)
      ensures blobs == old(blobs) && judgeQueue == old(judgeQueue) && events == old(events)
    {
      items := Merge(items, k, attrs);
    }

    /** `put_object`. */
    method PutBlob(key: string, body: Json)
      modifies this
      ensures blobs == old(blobs)[key := body]
      ensures items == old(items) && judgeQueue == old(judgeQueue) && events == old(events)
    {
      blobs := blobs[key := body];
    }

    /** `send_message` to the judge-jobs queue. */
    method SendJudgeJob(job: JudgeJob)
      modifies this
      ensures judgeQueue == old(judgeQueue) + [job]
      ensures items == old(items) && blobs == old(blobs) && events == old(events)
    {
      judgeQueue := judgeQueue + [job];
    }

    /** `put_events` with one entry. */
    method PutEvent(e: Event)
      modifies this
      ensures events == old(events) + [e]
      ensures items == old(items) && blobs == old(blobs) && judgeQueue == old(judgeQueue)
    {
      events := events + [e];
    }
  }
}
