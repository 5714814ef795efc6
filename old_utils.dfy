/**
 * The shared helpers of the archived Lambda functions: table keys made of an
 * entity type and id, object-store keys and paths, and text truncation.
 */
module OldUtils {
  import opened Wrappers
  import Text

  // ---------------------------------------------------------------------------
  // Table keys

  const DefaultSortKey: string := "METADATA"

  /** `build_pk_sk`: the partition key `TYPE#id` with the given sort key. */
  function BuildPkSk(entityType: string, entityId: string, sortKey: string := DefaultSortKey): (string, string) {
    (entityType + "#" + entityId, sortKey)
  }

  /** `parse_pk`: split at the first '#'; a key without one has an empty id. */
  function ParsePk(pk: string): (r: (string, string))
    ensures '#' !in r.0
    ensures '#' !in pk ==> r == (pk, "")
    ensures '#' in pk ==> pk == r.0 + "#" + r.1
  {
    var (head, tail) := Text.SplitOnce(pk, '#');
    (head, if tail.Some? then tail.value else "")
  }

  /** Parsing a built key gives back the type and id, even when the id itself holds a '#'. */
  lemma ParseBuiltKey(entityType: string, entityId: string, sortKey: string)
    requires '#' !in entityType
    ensures ParsePk(BuildPkSk(entityType, entityId, sortKey).0) == (entityType, entityId)
    ensures BuildPkSk(entityType, entityId).1 == "METADATA"
  {
    var pk := BuildPkSk(entityType, entityId, sortKey).0;
    var r := ParsePk(pk);
    assert pk[|entityType|] == '#';
    assert '#' in pk;
    SplitAtFirst(entityType, entityId, r.0, r.1, '#');
  }

  /** A string cut at the first `c` in two ways is cut at the same place. */
  lemma SplitAtFirst(a: string, b: string, x: string, y: string, c: char)
    requires c !in a && c !in x
    requires a + [c] + b == x + [c] + y
    ensures a == x && b == y
  {
    var s := a + [c] + b;
    IndexAfter(a, b, c);
    IndexAfter(x, y, c);
    assert a == s[..|a|] && x == s[..|x|];
    assert b == s[|a| + 1..] && y == s[|x| + 1..];
  }

  /** Every key holding a '#' is the key built from its parsed type and id. */
  lemma BuildParsedKey(pk: string)
    requires '#' in pk
    ensures BuildPkSk(ParsePk(pk).0, ParsePk(pk).1).0 == pk
  {
  }

  // ---------------------------------------------------------------------------
  // Object-store keys

  /** `s3_key`: the parts joined with '/'. */
  function S3Key(parts: seq<string>): string {
    Text.Join(parts, "/")
  }

  /** `s3_path`: the key under the bucket's URL. */
  function S3Path(bucket: string, parts: seq<string>): (r: string)
    ensures Text.StartsWith(r, "s3://" + bucket + "/")
    ensures r[|"s3://" + bucket + "/"|..] == S3Key(parts)
  {
    var prefix := "s3://" + bucket + "/";
    assert (prefix + S3Key(parts))[..|prefix|] == prefix;
    prefix + S3Key(parts)
  }

  /** The first `c` of `a + [c] + b` is the one after `a` when `a` has none. */
  lemma IndexAfter(a: string, b: string, c: char)
    requires c !in a
    ensures Text.IndexOf(a + [c] + b, c) == Some(|a|)
  {
    var s := a + [c] + b;
    assert s[..|a|] == a;
    Text.IndexOfFirst(s, c, |a|);
  }

  /** Splitting a key at '/' gives back its parts, when no part holds a '/'. */
  lemma {:induction false} S3KeySplits(parts: seq<string>)
    requires |parts| >= 1
    requires forall i :: 0 <= i < |parts| ==> '/' !in parts[i]
    ensures Text.SplitOn(S3Key(parts), '/') == parts
    decreases |parts|
  {
    if |parts| > 1 {
      var rest := parts[1..];
      S3KeySplits(rest);
      assert S3Key(parts) == parts[0] + ['/'] + S3Key(rest);
      Text.SplitOnFirst(parts[0], '/', S3Key(rest));
      assert parts == [parts[0]] + rest;
    } else {
      assert '/' !in parts[0];
    }
  }

  // ---------------------------------------------------------------------------
  // Text

  /** Python's `s[:stop]`: a negative stop counts from the end. */
  function Head(s: string, stop: int): (r: string)
    ensures |r| == (if stop >= 0 then (if stop <= |s| then stop else |s|) else (if |s| + stop >= 0 then |s| + stop else 0))
    ensures r == s[..|r|]
  {
    if stop >= 0 then (if stop <= |s| then s[..stop] else s)
    else if |s| + stop >= 0 then s[..|s| + stop] else []
  }

  /** `truncate_text`. */
  function TruncateText(text: string, maxLength: int := 280): string {
    if |text| <= maxLength then text else Head(text, maxLength - 3) + "..."
  }

  /** Text that fits is returned unchanged; longer text is cut to exactly `maxLength`, ending in "...". */
  lemma TruncateMeaning(text: string, maxLength: int)
    ensures |text| <= maxLength ==> TruncateText(text, maxLength) == text
    ensures |text| > maxLength >= 3 ==>
      |TruncateText(text, maxLength)| == maxLength
      && Text.EndsWith(TruncateText(text, maxLength), "...")
      && TruncateText(text, maxLength)[..maxLength - 3] == text[..maxLength - 3]
  {
    if |text| > maxLength >= 3 {
      var r := TruncateText(text, maxLength);
      assert r == text[..maxLength - 3] + "...";
      assert r[..maxLength - 3] == text[..maxLength - 3];
    }
  }

  /**
   * Below 3 the limit is not kept: the negative slice bound counts from the
   * end, so the result can be longer than `maxLength`.
   */
  lemma TruncateBelowThree(text: string, maxLength: int)
    requires maxLength < 3 && |text| > maxLength
    ensures |TruncateText(text, maxLength)| == (if |text| + maxLength - 3 >= 0 then |text| + maxLength else 3)
    ensures |text| >= 3 ==> |TruncateText(text, maxLength)| > maxLength
  {
  }
}
