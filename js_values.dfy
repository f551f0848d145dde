/** The JavaScript values the matcher inspects, with the few pieces of the
    language's semantics it relies on: `typeof`, truthy objects, strict
    equality, `Map.prototype.get` and property access by string key. */
module JsValues {

  datatype Option<T> = None | Some(value: T)

  /** A runtime value. Numbers are integers plus an explicit NaN; objects are
      compared structurally, which is how the model stands in for identity. */
  datatype Value =
    | Undefined
    | Null
    | Bool(b: bool)
    | Num(n: int)
    | NaN
    | Str(s: string)
    | Arr(elems: seq<Value>)
    | Obj(props: map<string, Value>)
    | MapV(entries: map<Value, Value>)
    | SetV(members: set<Value>)

  predicate IsPrimitive(v: Value) {
    v.Undefined? || v.Null? || v.Bool? || v.Num? || v.NaN? || v.Str?
  }

  /** Values a literal pattern or a Map-pattern key may be. */
  type Primitive = v: Value | IsPrimitive(v) witness Undefined

  /** The `typeof` operator; note that `typeof null` is "object". */
  function TypeOf(v: Value): string {
    match v
    case Undefined => "undefined"
    case Null => "object"
    case Bool(_) => "boolean"
    case Num(_) => "number"
    case NaN => "number"
    case Str(_) => "string"
    case _ => "object"
  }

  /** `Boolean(value && typeof value === 'object')`: a non-null object. */
  predicate IsObject(v: Value) {
    v.Arr? || v.Obj? || v.MapV? || v.SetV?
  }

  /** `Array.isArray`. */
  predicate IsArray(v: Value) {
    v.Arr?
  }

  /** `isObject` is the source's `value && typeof value === 'object'`: the
      values `typeof` calls objects, less the falsy null. */
  lemma IsObjectMeansTypeofObject(v: Value)
    ensures IsObject(v) <==> TypeOf(v) == "object" && !v.Null?
  {
  }

  /** Every array is an object in the sense of `isObject`. */
  lemma ArraysAreObjects(v: Value)
    ensures IsArray(v) ==> IsObject(v) && TypeOf(v) == "object"
  {
  }

  /** `===` between a value and a primitive: NaN is unequal to everything. */
  predicate StrictEquals(v: Value, lit: Primitive) {
    v == lit && !lit.NaN?
  }

  /** `Map.prototype.get`: a missing key reads as undefined. */
  function MapGet(m: map<Value, Value>, k: Value): Value {
    if k in m then m[k] else Undefined
  }

  function DigitChar(d: nat): (c: char)
    requires d < 10
    ensures '0' <= c <= '9'
  {
    (('0' as int) + d) as char
  }

  function DigitValue(c: char): nat
    requires '0' <= c <= '9'
  {
    (c as int) - ('0' as int)
  }

  /** The decimal string of an array index: the keys `Object.keys` lists for
      an array, "0", "1", ... */
  function IndexKey(i: nat): string
    decreases i
  {
    if i < 10 then [DigitChar(i)] else IndexKey(i / 10) + [DigitChar(i % 10)]
  }

  predicate AllDigits(k: string) {
    forall j :: 0 <= j < |k| ==> '0' <= k[j] <= '9'
  }

  /** A canonical index string: digits only, no leading zero except "0". */
  predicate IsCanonicalIndex(k: string) {
    |k| > 0 && AllDigits(k) && (|k| > 1 ==> k[0] != '0')
  }

  function DigitsValue(k: string): nat
    requires AllDigits(k)
  {
    if |k| == 0 then 0 else 10 * DigitsValue(k[..|k| - 1]) + DigitValue(k[|k| - 1])
  }

  /** The array index a property key denotes, if any. */
  function ParseIndex(k: string): Option<nat> {
    if IsCanonicalIndex(k) then Some(DigitsValue(k)) else None
  }

  /** `value[k]` on an object value: own properties of a plain object, the
      elements and `length` of an array, the `size` of a Map or Set. */
  function Prop(v: Value, k: string): Value
    requires IsObject(v)
  {
    match v
    case Obj(props) => if k in props then props[k] else Undefined
    case Arr(elems) =>
      if k == "length" then Num(|elems|)
      else (match ParseIndex(k)
            case Some(i) => if i < |elems| then elems[i] else Undefined
            case None => Undefined)
    case MapV(entries) => if k == "size" then Num(|entries|) else Undefined
    case SetV(members) => if k == "size" then Num(|members|) else Undefined
  }

  lemma {:induction false} IndexKeyCanonical(i: nat)
    ensures IsCanonicalIndex(IndexKey(i))
    ensures DigitsValue(IndexKey(i)) == i
    decreases i
  {
    if i >= 10 {
      IndexKeyCanonical(i / 10);
      var pre := IndexKey(i / 10);
      var k := IndexKey(i);
      assert k == pre + [DigitChar(i % 10)];
      assert k[..|k| - 1] == pre;
      assert k[0] == pre[0];
    }
  }

  /** Reading an index key back gives the index. */
  lemma ParseIndexKey(i: nat)
    ensures ParseIndex(IndexKey(i)) == Some(i)
  {
    IndexKeyCanonical(i);
  }

  lemma {:induction false} CanonicalValuePositive(k: string)
    requires IsCanonicalIndex(k) && k[0] != '0'
    ensures DigitsValue(k) >= 1
    ensures |k| > 1 ==> DigitsValue(k) >= 10
    decreases |k|
  {
    if |k| > 1 {
      var pre := k[..|k| - 1];
      assert pre[0] == k[0];
      CanonicalValuePositive(pre);
    }
  }

  /** An index string is the key of the index it denotes: the two encodings
      are inverse to each other. */
  lemma {:induction false} IndexKeyOfParse(k: string)
    requires IsCanonicalIndex(k)
    ensures IndexKey(DigitsValue(k)) == k
    decreases |k|
  {
    if |k| > 1 {
      var pre := k[..|k| - 1];
      assert pre[0] == k[0];
      CanonicalValuePositive(k);
      CanonicalValuePositive(pre);
      IndexKeyOfParse(pre);
      var d := DigitValue(k[|k| - 1]);
      assert DigitChar(d) == k[|k| - 1];
      assert DigitsValue(k) / 10 == DigitsValue(pre);
      assert DigitsValue(k) % 10 == d;
      assert k == pre + [k[|k| - 1]];
    } else {
      assert DigitChar(DigitValue(k[0])) == k[0];
    }
  }

  /** A property read with an index key on an array gives that element:
      `value[i]` and `value["i"]` agree. */
  lemma PropIndex(elems: seq<Value>, i: nat)
    requires i < |elems|
    ensures Prop(Arr(elems), IndexKey(i)) == elems[i]
  {
    ParseIndexKey(i);
    IndexKeyCanonical(i);
    assert IndexKey(i)[0] != 'l';
  }
}
