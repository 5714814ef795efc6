/**
 * Items of the research experiment's DynamoDB table as the helpers see them,
 * and the two conversions applied on the way in and out: floats become
 * Decimals before a write (DynamoDB refuses floats), Decimals become floats
 * after a read. Both walk dicts and lists and change nothing but numbers.
 */
module ResearchItems {
  import opened Wrappers

  datatype Item =
    | Null
    | Bool(b: bool)
    | Int(i: int)
    | Float(x: real)
    | Dec(d: real)
    | Str(s: string)
    | List(items: seq<Item>)
    | Dict(fields: map<string, Item>)

  /** `convert_floats_to_decimal`: every float, at any depth, becomes the Decimal of the same value. */
  function FloatsToDecimal(v: Item): Item {
    match v
    case Float(x) => Dec(x)
    case List(items) => List(seq(|items|, i requires 0 <= i < |items| => FloatsToDecimal(items[i])))
    case Dict(m) => Dict(map k | k in m :: FloatsToDecimal(m[k]))
    case _ => v
  }

  /** `convert_decimal_to_float`: every Decimal, at any depth, becomes the float of the same value. */
  function DecimalsToFloat(v: Item): Item {
    match v
    case Dec(d) => Float(d)
    case List(items) => List(seq(|items|, i requires 0 <= i < |items| => DecimalsToFloat(items[i])))
    case Dict(m) => Dict(map k | k in m :: DecimalsToFloat(m[k]))
    case _ => v
  }

  predicate IsNumber(v: Item) { v.Float? || v.Dec? }

  function NumberValue(v: Item): real
    requires IsNumber(v)
  {
    if v.Float? then v.x else v.d
  }

  /**
   * `a` and `b` have the same dict keys and list lengths at every depth, and
   * agree everywhere except that a float may stand where the other has a
   * Decimal of the same value.
   */
  predicate SameShape(a: Item, b: Item) {
    match a
    case List(xs) =>
      b.List? && |xs| == |b.items| && forall i :: 0 <= i < |xs| ==> SameShape(xs[i], b.items[i])
    case Dict(m) =>
      b.Dict? && m.Keys == b.fields.Keys && forall k :: k in m ==> SameShape(m[k], b.fields[k])
    case Float(x) => IsNumber(b) && NumberValue(b) == x
    case Dec(d) => IsNumber(b) && NumberValue(b) == d
    case _ => a == b
  }

  /** No float occurs anywhere in `v`. */
  predicate NoFloats(v: Item) {
    match v
    case Float(_) => false
    case List(xs) => forall i :: 0 <= i < |xs| ==> NoFloats(xs[i])
    case Dict(m) => forall k :: k in m ==> NoFloats(m[k])
    case _ => true
  }

  /** No Decimal occurs anywhere in `v`. */
  predicate NoDecimals(v: Item) {
    match v
    case Dec(_) => false
    case List(xs) => forall i :: 0 <= i < |xs| ==> NoDecimals(xs[i])
    case Dict(m) => forall k :: k in m ==> NoDecimals(m[k])
    case _ => true
  }

  /** Converting floats keeps every key and every list length, and leaves no float behind. */
  lemma {:induction false} FloatsToDecimalShape(v: Item)
    ensures SameShape(v, FloatsToDecimal(v)) && NoFloats(FloatsToDecimal(v))
    decreases v
  {
    match v
    case List(xs) =>
      forall i | 0 <= i < |xs| ensures SameShape(xs[i], FloatsToDecimal(v).items[i]) && NoFloats(FloatsToDecimal(v).items[i]) {
        FloatsToDecimalShape(xs[i]);
      }
    case Dict(m) =>
      forall k | k in m ensures SameShape(m[k], FloatsToDecimal(v).fields[k]) && NoFloats(FloatsToDecimal(v).fields[k]) {
        FloatsToDecimalShape(m[k]);
      }
    case _ =>
  }

  /** Converting Decimals keeps every key and every list length, and leaves no Decimal behind. */
  lemma {:induction false} DecimalsToFloatShape(v: Item)
    ensures SameShape(v, DecimalsToFloat(v)) && NoDecimals(DecimalsToFloat(v))
    decreases v
  {
    match v
    case List(xs) =>
      forall i | 0 <= i < |xs| ensures SameShape(xs[i], DecimalsToFloat(v).items[i]) && NoDecimals(DecimalsToFloat(v).items[i]) {
        DecimalsToFloatShape(xs[i]);
      }
    case Dict(m) =>
      forall k | k in m ensures SameShape(m[k], DecimalsToFloat(v).fields[k]) && NoDecimals(DecimalsToFloat(v).fields[k]) {
        DecimalsToFloatShape(m[k]);
      }
    case _ =>
  }

  /** An item with no float in it is written unchanged. */
  lemma {:induction false} FloatsToDecimalFixes(v: Item)
    requires NoFloats(v)
    ensures FloatsToDecimal(v) == v
    decreases v
  {
    match v
    case List(xs) =>
      forall i | 0 <= i < |xs| ensures FloatsToDecimal(xs[i]) == xs[i] { FloatsToDecimalFixes(xs[i]); }
      assert FloatsToDecimal(v).items == xs;
    case Dict(m) =>
      forall k | k in m ensures FloatsToDecimal(m[k]) == m[k] { FloatsToDecimalFixes(m[k]); }
      assert FloatsToDecimal(v).fields == m;
    case _ =>
  }

  /** An item with no Decimal in it is read unchanged. */
  lemma {:induction false} DecimalsToFloatFixes(v: Item)
    requires NoDecimals(v)
    ensures DecimalsToFloat(v) == v
    decreases v
  {
    match v
    case List(xs) =>
      forall i | 0 <= i < |xs| ensures DecimalsToFloat(xs[i]) == xs[i] { DecimalsToFloatFixes(xs[i]); }
      assert DecimalsToFloat(v).items == xs;
    case Dict(m) =>
      forall k | k in m ensures DecimalsToFloat(m[k]) == m[k] { DecimalsToFloatFixes(m[k]); }
      assert DecimalsToFloat(v).fields == m;
    case _ =>
  }

  /** Converting twice is converting once. */
  lemma ConversionsIdempotent(v: Item)
    ensures FloatsToDecimal(FloatsToDecimal(v)) == FloatsToDecimal(v)
    ensures DecimalsToFloat(DecimalsToFloat(v)) == DecimalsToFloat(v)
  {
    FloatsToDecimalShape(v);
    FloatsToDecimalFixes(FloatsToDecimal(v));
    DecimalsToFloatShape(v);
    DecimalsToFloatFixes(DecimalsToFloat(v));
  }

  /** An item written from Python objects (no Decimals in it) reads back as it was written. */
  lemma {:induction false} WriteThenRead(v: Item)
    requires NoDecimals(v)
    ensures DecimalsToFloat(FloatsToDecimal(v)) == v
    decreases v
  {
    match v
    case List(xs) =>
      forall i | 0 <= i < |xs| ensures DecimalsToFloat(FloatsToDecimal(xs[i])) == xs[i] { WriteThenRead(xs[i]); }
      assert DecimalsToFloat(FloatsToDecimal(v)).items == xs;
    case Dict(m) =>
      forall k | k in m ensures DecimalsToFloat(FloatsToDecimal(m[k])) == m[k] { WriteThenRead(m[k]); }
      assert DecimalsToFloat(FloatsToDecimal(v)).fields == m;
    case _ =>
  }

  /** An item read from the table (no floats in it) is written back as it was read. */
  lemma {:induction false} ReadThenWrite(v: Item)
    requires NoFloats(v)
    ensures FloatsToDecimal(DecimalsToFloat(v)) == v
    decreases v
  {
    match v
    case List(xs) =>
      forall i | 0 <= i < |xs| ensures FloatsToDecimal(DecimalsToFloat(xs[i])) == xs[i] { ReadThenWrite(xs[i]); }
      assert FloatsToDecimal(DecimalsToFloat(v)).items == xs;
    case Dict(m) =>
      forall k | k in m ensures FloatsToDecimal(DecimalsToFloat(m[k])) == m[k] { ReadThenWrite(m[k]); }
      assert FloatsToDecimal(DecimalsToFloat(v)).fields == m;
    case _ =>
  }

  /** `d[key]` on a dict; any other item, or a missing key, is an error. */
  function Get(v: Item, key: string): (r: Option<Item>)
    ensures r.Some? <==> v.Dict? && key in v.fields
    ensures r.Some? ==> r.value == v.fields[key]
  {
    if v.Dict? && key in v.fields then Some(v.fields[key]) else None
  }

  /** Python truthiness of an item. */
  predicate Truthy(v: Item) {
    match v
    case Null => false
    case Bool(b) => b
    case Int(i) => i != 0
    case Float(x) => x != 0.0
    case Dec(d) => d != 0.0
    case Str(s) => s != []
    case List(xs) => xs != []
    case Dict(m) => m != map[]
  }
}
