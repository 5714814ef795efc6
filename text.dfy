/**
 * Python string operations the pipeline relies on, over `string` (= `seq<char>`):
 * `strip`, `split`, `lower` (ASCII letters only), `in`, `count`, `startswith`,
 * `endswith`, `sep.join`, `str(n)` and the `{n:03d}` zero padding.
 */
module Text {
  import opened Wrappers

  /** The characters Python's `str.isspace()` accepts; `strip()` and `split()` without arguments remove exactly these. */
  predicate IsSpace(c: char) {
    c == ' ' || ('\t' <= c <= '\r') || ('\U{1c}' <= c <= '\U{1f}') || c == '\U{85}' || c == '\U{a0}'
    || c == '\U{1680}' || ('\U{2000}' <= c <= '\U{200a}') || c == '\U{2028}' || c == '\U{2029}'
    || c == '\U{202f}' || c == '\U{205f}' || c == '\U{3000}'
  }

  /** Python's `s.lstrip(chars)`, where `drop` says which characters are in `chars`. */
  function LStripBy(s: string, drop: char -> bool): (r: string)
    ensures |r| <= |s| && r == s[|s| - |r|..]
    ensures r == [] || !drop(r[0])
    ensures forall i :: 0 <= i < |s| - |r| ==> drop(s[i])
  {
    if |s| > 0 && drop(s[0]) then
      var r := LStripBy(s[1..], drop);
      assert forall i :: 1 <= i < |s| - |r| ==> s[i] == s[1..][i - 1];
      r
    else s
  }

  /** Python's `s.rstrip(chars)`. */
  function RStripBy(s: string, drop: char -> bool): (r: string)
    ensures |r| <= |s| && r == s[..|r|]
    ensures r == [] || !drop(r[|r| - 1])
    ensures forall i :: |r| <= i < |s| ==> drop(s[i])
  {
    if |s| > 0 && drop(s[|s| - 1]) then
      var r := RStripBy(s[..|s| - 1], drop);
      assert forall i :: |r| <= i < |s| - 1 ==> s[i] == s[..|s| - 1][i];
      r
    else s
  }

  /** Python's `s.strip(chars)`: the middle slice of `s` left once the dropped characters are removed at both ends. */
  function StripBy(s: string, drop: char -> bool): (r: string)
    ensures r == [] || (!drop(r[0]) && !drop(r[|r| - 1]))
    ensures exists i :: StrippedAt(s, r, i, drop)
    ensures r == [] <==> forall k :: 0 <= k < |s| ==> drop(s[k])
  {
    var t := LStripBy(s, drop);
    var r := RStripBy(t, drop);
    StripBySlice(s, t, r, drop);
    assert r != [] ==> r[0] == s[|s| - |t|];
    r
  }

  /** Stripping the left, then the right, leaves a slice of `s` with only dropped characters around it. */
  lemma StripBySlice(s: string, t: string, r: string, drop: char -> bool)
    requires |t| <= |s| && t == s[|s| - |t|..] && forall k :: 0 <= k < |s| - |t| ==> drop(s[k])
    requires t == [] || !drop(t[0])
    requires |r| <= |t| && r == t[..|r|] && forall k :: |r| <= k < |t| ==> drop(t[k])
    ensures StrippedAt(s, r, |s| - |t|, drop)
    ensures r != [] ==> !drop(r[0])
  {
    var i := |s| - |t|;
    assert t == s[i..];
    assert s[i..i + |r|] == t[..|r|];
    forall k | i + |r| <= k < |s| ensures drop(s[k]) {
      assert s[k] == t[k - i];
    }
    if r != [] {
      assert r[0] == t[0];
    }
  }

  /** `r` is the slice of `s` starting at `i`, and everything of `s` outside it is dropped. */
  predicate StrippedAt(s: string, r: string, i: int, drop: char -> bool) {
    0 <= i <= |s| - |r| && r == s[i..i + |r|]
    && (forall k :: 0 <= k < i ==> drop(s[k])) && (forall k :: i + |r| <= k < |s| ==> drop(s[k]))
  }

  /** Python's `s.strip()`. */
  function Strip(s: string): string {
    StripBy(s, IsSpace)
  }

  /** Length of the run of non-whitespace characters that opens `t`. */
  function WordLen(t: string): (n: nat)
    ensures n <= |t|
    ensures forall i :: 0 <= i < n ==> !IsSpace(t[i])
    ensures n == |t| || IsSpace(t[n])
  {
    if t == [] || IsSpace(t[0]) then 0 else 1 + WordLen(t[1..])
  }

  /** Python's `s.split()`: the maximal runs of non-whitespace characters, in order. */
  function Words(s: string): seq<string>
    decreases |s|
  {
    var t := LStripBy(s, IsSpace);
    if t == [] then []
    else
      var n := WordLen(t);
      [t[..n]] + Words(t[n..])
  }

  /** Every token of `split()` is a non-empty run without whitespace, and there are none exactly when `s` is all whitespace. */
  lemma {:induction false} WordsAreTokens(s: string)
    ensures AllWords(Words(s))
    ensures Words(s) == [] <==> AllSpace(s)
    decreases |s|
  {
    var t := LStripBy(s, IsSpace);
    if t != [] {
      assert s[|s| - |t|] == t[0];
      var n := WordLen(t);
      var w := t[..n];
      assert IsWord(w);
      WordsAreTokens(t[n..]);
      assert ([w] + Words(t[n..]))[1..] == Words(t[n..]);
    }
  }

  predicate AllSpace(s: string) {
    forall i :: 0 <= i < |s| ==> IsSpace(s[i])
  }

  /** A token of `split()`: non-empty and free of whitespace. */
  predicate IsWord(w: string) {
    w != [] && forall i :: 0 <= i < |w| ==> !IsSpace(w[i])
  }

  predicate AllWords(ws: seq<string>) {
    ws == [] || (IsWord(ws[0]) && AllWords(ws[1..]))
  }

  /** The non-whitespace characters of `s`, in order. */
  function NonSpace(s: string): string {
    if s == [] then [] else (if IsSpace(s[0]) then [] else [s[0]]) + NonSpace(s[1..])
  }

  function Concat(ws: seq<string>): string {
    if ws == [] then [] else ws[0] + Concat(ws[1..])
  }

  lemma {:induction false} NonSpaceAppend(a: string, b: string)
    ensures NonSpace(a + b) == NonSpace(a) + NonSpace(b)
  {
    if a != [] {
      assert (a + b)[1..] == a[1..] + b;
      NonSpaceAppend(a[1..], b);
    } else {
      assert a + b == b;
    }
  }

  lemma {:induction false} NonSpaceOfSpaces(a: string)
    requires forall i :: 0 <= i < |a| ==> IsSpace(a[i])
    ensures NonSpace(a) == []
  {
    if a != [] { NonSpaceOfSpaces(a[1..]); }
  }

  lemma {:induction false} NonSpaceOfWord(a: string)
    requires forall i :: 0 <= i < |a| ==> !IsSpace(a[i])
    ensures NonSpace(a) == a
  {
    if a != [] { NonSpaceOfWord(a[1..]); }
  }

  /** The tokens of `s.split()`, put back together, are exactly the non-whitespace characters of `s`. */
  lemma NonSpaceLStrip(s: string)
    ensures NonSpace(s) == NonSpace(LStripBy(s, IsSpace))
  {
    var t := LStripBy(s, IsSpace);
    var k := |s| - |t|;
    assert s == s[..k] + t;
    NonSpaceAppend(s[..k], t);
    NonSpaceOfSpaces(s[..k]);
  }

  lemma NonSpaceSplitWord(t: string, n: nat)
    requires n <= |t| && forall i :: 0 <= i < n ==> !IsSpace(t[i])
    ensures NonSpace(t) == t[..n] + NonSpace(t[n..])
  {
    assert t == t[..n] + t[n..];
    NonSpaceAppend(t[..n], t[n..]);
    NonSpaceOfWord(t[..n]);
  }

  lemma ConcatCons(a: string, rest: seq<string>)
    ensures Concat([a] + rest) == a + Concat(rest)
  {
    assert ([a] + rest)[1..] == rest;
  }

  lemma {:induction false} WordsCoverNonSpace(s: string)
    ensures Concat(Words(s)) == NonSpace(s)
    decreases |s|
  {
    var t := LStripBy(s, IsSpace);
    NonSpaceLStrip(s);
    if t != [] {
      var n := WordLen(t);
      NonSpaceSplitWord(t, n);
      WordsCoverNonSpace(t[n..]);
      assert Words(s) == [t[..n]] + Words(t[n..]);
      ConcatCons(t[..n], Words(t[n..]));
    } else {
      assert Words(s) == [];
    }
  }

  /** Python's `c.lower()` on ASCII letters; other characters are left as they are. */
  function LowerChar(c: char): char {
    if 'A' <= c <= 'Z' then (c as int + 32) as char else c
  }

  /** Stripping a frame of dropped characters from around `s` gives back `s` when `s` neither starts nor ends with one. */
  lemma StripByFrame(p: string, s: string, q: string, drop: char -> bool)
    requires forall i :: 0 <= i < |p| ==> drop(p[i])
    requires forall i :: 0 <= i < |q| ==> drop(q[i])
    requires s != [] && !drop(s[0]) && !drop(s[|s| - 1])
    ensures StripBy(p + s + q, drop) == s
  {
    var x := p + s + q;
    var r := StripBy(x, drop);
    var i :| StrippedAt(x, r, i, drop);
    FramedAt(p, s, q, drop, r, i);
  }

  /** The only way to strip `p + s + q` is to cut at the frame. */
  lemma FramedAt(p: string, s: string, q: string, drop: char -> bool, r: string, i: int)
    requires forall i :: 0 <= i < |p| ==> drop(p[i])
    requires forall i :: 0 <= i < |q| ==> drop(q[i])
    requires s != [] && !drop(s[0]) && !drop(s[|s| - 1])
    requires StrippedAt(p + s + q, r, i, drop) && (r == [] || (!drop(r[0]) && !drop(r[|r| - 1])))
    ensures r == s
  {
    var x := p + s + q;
    assert forall k :: 0 <= k < |p| ==> x[k] == p[k];
    assert forall k :: |p| + |s| <= k < |x| ==> x[k] == q[k - |p| - |s|];
    assert x[|p|] == s[0] && x[|p| + |s| - 1] == s[|s| - 1];
    assert r != [];
    assert r[0] == x[i] && r[|r| - 1] == x[i + |r| - 1];
    assert i == |p|;
    assert i + |r| == |p| + |s|;
    assert x[|p|..|p| + |s|] == s;
  }

  /** Stripping keeps every non-whitespace character: its count in `Strip(s)` equals its count in `s`. */
  lemma StripKeepsCount(s: string, c: char)
    requires !IsSpace(c)
    ensures multiset(Strip(s))[c] == multiset(s)[c]
  {
    var r := Strip(s);
    var i :| StrippedAt(s, r, i, IsSpace);
    KeepsCountAt(s, c, r, i);
  }

  /** Cutting only whitespace from both ends keeps the count of a non-whitespace character. */
  lemma KeepsCountAt(s: string, c: char, r: string, i: int)
    requires !IsSpace(c) && StrippedAt(s, r, i, IsSpace)
    ensures multiset(r)[c] == multiset(s)[c]
  {
    var pre, post := s[..i], s[i + |r|..];
    assert s[i..] == r + post;
    assert s == pre + s[i..];
    assert AllSpace(pre) by { assert forall k :: 0 <= k < |pre| ==> pre[k] == s[k]; }
    assert AllSpace(post) by { assert forall k :: 0 <= k < |post| ==> post[k] == s[i + |r| + k]; }
    NoCharInSpaces(pre, c);
    NoCharInSpaces(post, c);
  }

  lemma NoCharInSpaces(a: string, c: char)
    requires AllSpace(a) && !IsSpace(c)
    ensures multiset(a)[c] == 0
  {
    assert forall k :: 0 <= k < |a| ==> a[k] != c;
  }

  lemma StripEmpty()
    ensures Strip([]) == []
  {
  }

  /** Python's `s.lower()`, restricted to ASCII case mapping. */
  function Lower(s: string): (r: string)
    ensures |r| == |s| && forall i :: 0 <= i < |s| ==> r[i] == LowerChar(s[i])
  {
    seq(|s|, i requires 0 <= i < |s| => LowerChar(s[i]))
  }

  /** Python's `t in s` for strings. */
  predicate Contains(s: string, t: string) {
    exists i :: 0 <= i <= |s| - |t| && OccursAt(s, t, i)
  }

  predicate OccursAt(s: string, t: string, i: int) {
    0 <= i <= |s| - |t| && s[i..i + |t|] == t
  }

  lemma ContainsChar(s: string, c: char)
    ensures Contains(s, [c]) <==> c in s
  {
    if c in s {
      var i :| 0 <= i < |s| && s[i] == c;
      assert s[i..i + 1] == [c];
      assert OccursAt(s, [c], i);
    }
    if Contains(s, [c]) {
      var i :| 0 <= i <= |s| - 1 && OccursAt(s, [c], i);
      assert s[i] == s[i..i + 1][0];
    }
  }

  /** Python's `s.startswith(p)`. */
  predicate StartsWith(s: string, p: string) {
    |p| <= |s| && s[..|p|] == p
  }

  /** Python's `s.endswith(p)`. */
  predicate EndsWith(s: string, p: string) {
    |p| <= |s| && s[|s| - |p|..] == p
  }

  /** Python's `s.count(c)` for a one-character argument. */
  function CountChar(s: string, c: char): (n: nat)
    ensures n == multiset(s)[c]
    ensures n > 0 <==> c in s
  {
    if s == [] then 0
    else
      assert s == s[..|s| - 1] + [s[|s| - 1]];
      CountChar(s[..|s| - 1], c) + (if s[|s| - 1] == c then 1 else 0)
  }

  /** The first position of `c` in `s`, as Python's `s.find(c)` reports it. */
  function IndexOf(s: string, c: char): (r: Option<nat>)
    ensures r.None? <==> c !in s
    ensures r.Some? ==> r.value < |s| && s[r.value] == c && c !in s[..r.value]
  {
    if s == [] then None
    else if s[0] == c then Some(0)
    else match IndexOf(s[1..], c)
      case None => None
      case Some(i) =>
        assert s[..i + 1] == [s[0]] + s[1..][..i];
        Some(i + 1)
  }

  /** `find` reports `k` when `s[k]` is the first occurrence. */
  lemma {:induction false} IndexOfFirst(s: string, c: char, k: nat)
    requires k < |s| && s[k] == c && c !in s[..k]
    ensures IndexOf(s, c) == Some(k)
  {
    if k > 0 {
      assert s[0] == s[..k][0];
      assert s[1..][..k - 1] == s[1..k];
      assert s[..k] == [s[0]] + s[1..k];
      IndexOfFirst(s[1..], c, k - 1);
    }
  }

  /** Splitting at a first separator that ends a separator-free piece. */
  lemma SplitOnFirst(a: string, c: char, rest: string)
    requires c !in a
    ensures SplitOn(a + [c] + rest, c) == [a] + SplitOn(rest, c)
  {
    var s := a + [c] + rest;
    assert s[..|a|] == a;
    IndexOfFirst(s, c, |a|);
    assert s[|a| + 1..] == rest;
  }

  /** Python's `sep.join(parts)`. */
  function Join(parts: seq<string>, sep: string): string {
    if |parts| == 0 then [] else if |parts| == 1 then parts[0] else parts[0] + sep + Join(parts[1..], sep)
  }

  /** Joining one more part adds the separator and that part at the end. */
  lemma {:induction false} JoinSnoc(parts: seq<string>, x: string, sep: string)
    requires |parts| > 0
    ensures Join(parts + [x], sep) == Join(parts, sep) + sep + x
    decreases |parts|
  {
    if |parts| > 1 {
      JoinSnoc(parts[1..], x, sep);
      assert (parts + [x])[1..] == parts[1..] + [x];
    }
  }

  /** Python's `s.split(c)` for a one-character separator: the pieces between the separators, which join back to `s`. */
  function SplitOn(s: string, c: char): (parts: seq<string>)
    ensures |parts| == CountChar(s, c) + 1
    ensures forall p :: p in parts ==> c !in p
    ensures Join(parts, [c]) == s
    decreases |s|
  {
    match IndexOf(s, c)
    case None => [s]
    case Some(i) =>
      var rest := SplitOn(s[i + 1..], c);
      assert s == s[..i] + [c] + s[i + 1..];
      assert multiset(s)[c] == multiset(s[..i])[c] + 1 + multiset(s[i + 1..])[c];
      assert ([s[..i]] + rest)[1..] == rest;
      [s[..i]] + rest
  }

  /** Python's `s.split(c, 1)`: the text before the first `c` and, if there is one, the text after it. */
  function SplitOnce(s: string, c: char): (r: (string, Option<string>))
    ensures c !in r.0
    ensures r.1.None? ==> r.0 == s && c !in s
    ensures r.1.Some? ==> s == r.0 + [c] + r.1.value
  {
    match IndexOf(s, c)
    case None => (s, None)
    case Some(i) =>
      assert s == s[..i] + [c] + s[i + 1..];
      (s[..i], Some(s[i + 1..]))
  }

  predicate IsDigits(s: string) {
    forall i :: 0 <= i < |s| ==> '0' <= s[i] <= '9'
  }

  function DigitChar(d: nat): (c: char)
    requires d < 10
    ensures '0' <= c <= '9' && c as int - '0' as int == d
  {
    (d + '0' as int) as char
  }

  /** Python's `str(n)` for a non-negative integer: decimal digits without leading zeros. */
  function NatToString(n: nat): (r: string)
    ensures |r| >= 1 && IsDigits(r)
    ensures |r| > 1 ==> r[0] != '0'
    ensures n < 10 ==> |r| == 1
    ensures n < 100 ==> |r| <= 2
    ensures n < 1000 ==> |r| <= 3
    decreases n
  {
    if n < 10 then [DigitChar(n)] else NatToString(n / 10) + [DigitChar(n % 10)]
  }

  /** The value of a string of decimal digits (Python's `int(s)` on such a string). */
  function ParseNat(s: string): nat
    requires IsDigits(s)
  {
    if s == [] then 0 else ParseNat(s[..|s| - 1]) * 10 + (s[|s| - 1] as int - '0' as int)
  }

  lemma {:induction false} ParseNatToString(n: nat)
    ensures ParseNat(NatToString(n)) == n
    decreases n
  {
    if n >= 10 {
      var r := NatToString(n);
      assert r[..|r| - 1] == NatToString(n / 10);
      ParseNatToString(n / 10);
    }
  }

  function Zeros(k: nat): (r: string)
    ensures |r| == k && IsDigits(r)
  {
    seq(k, _ => '0')
  }

  lemma {:induction false} ParseNatLeadingZeros(k: nat, s: string)
    requires IsDigits(s)
    ensures ParseNat(Zeros(k) + s) == ParseNat(s)
    decreases |s|
  {
    if s == [] {
      ParseNatZeros(k);
      assert Zeros(k) + s == Zeros(k);
    } else {
      var z := Zeros(k) + s;
      assert z[..|z| - 1] == Zeros(k) + s[..|s| - 1];
      ParseNatLeadingZeros(k, s[..|s| - 1]);
    }
  }

  lemma {:induction false} ParseNatZeros(k: nat)
    ensures ParseNat(Zeros(k)) == 0
  {
    if k > 0 {
      assert Zeros(k)[..k - 1] == Zeros(k - 1);
      ParseNatZeros(k - 1);
    }
  }

  /** Python's `f"{n:03d}"`: at least three digits, zero-padded on the left. */
  function Pad3(n: nat): (r: string)
    ensures IsDigits(r) && |r| >= 3
    ensures n < 1000 ==> |r| == 3
  {
    var d := NatToString(n);
    if |d| >= 3 then d else Zeros(3 - |d|) + d
  }

  /** Reading back a zero-padded number gives the number: the padding loses nothing. */
  lemma Pad3RoundTrip(n: nat)
    ensures ParseNat(Pad3(n)) == n
  {
    var d := NatToString(n);
    ParseNatToString(n);
    if |d| < 3 { ParseNatLeadingZeros(3 - |d|, d); }
  }

  /** Distinct numbers get distinct padded forms, so keys built from them never collide. */
  lemma Pad3Injective(a: nat, b: nat)
    requires Pad3(a) == Pad3(b)
    ensures a == b
  {
    Pad3RoundTrip(a);
    Pad3RoundTrip(b);
  }
}
