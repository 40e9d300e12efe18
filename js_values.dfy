/** JavaScript values as the dashboard's components see them after `response.json()`.

    An object is an ordered list of fields, in the order `Object.keys` reports them (the
    engine puts integer-like keys first; the list is taken as already in that order).
    Property access (`v[k]`), `Object.keys`, truthiness and `typeof v === "object"` are
    modelled for objects, arrays and strings; inherited prototype properties are not. */
module JsValues {

  datatype Option<+T> = None | Some(value: T) {
    function GetOr(default: T): T {
      match this
      case Some(v) => v
      case None => default
    }
  }

  datatype Json =
    | JNull
    | JBool(b: bool)
    | JNum(n: real)
    | JStr(s: string)
    | JArr(items: seq<Json>)
    | JObj(fields: seq<(string, Json)>)

  /** JavaScript truthiness: null, false, 0, "" are falsy; objects and arrays never are. */
  predicate Truthy(v: Json) {
    match v
    case JNull => false
    case JBool(b) => b
    case JNum(n) => n != 0.0
    case JStr(s) => s != ""
    case JArr(_) => true
    case JObj(_) => true
  }

  /** Truthiness of a property read, where a missing property is `undefined`. */
  predicate Present(v: Option<Json>) {
    v.Some? && Truthy(v.value)
  }

  /** `typeof v === "object"`: true for null, arrays and objects. */
  predicate TypeofObject(v: Json) {
    v.JNull? || v.JArr? || v.JObj?
  }

  predicate IsDigit(c: char) {
    '0' <= c <= '9'
  }

  function DigitChar(d: nat): (c: char)
    requires d < 10
    ensures IsDigit(c)
  {
    ['0', '1', '2', '3', '4', '5', '6', '7', '8', '9'][d]
  }

  /** Decimal spelling of an array index, as `Object.keys` produces it. */
  function NatToString(n: nat): (r: string)
    ensures |r| > 0
    ensures forall i :: 0 <= i < |r| ==> IsDigit(r[i])
    ensures r[0] == '0' <==> n == 0
  {
    if n < 10 then [DigitChar(n)] else NatToString(n / 10) + [DigitChar(n % 10)]
  }

  function DigitValue(c: char): nat
    requires IsDigit(c)
  {
    c as int - '0' as int
  }

  function DigitsValue(s: string): nat
    requires forall i :: 0 <= i < |s| ==> IsDigit(s[i])
  {
    if s == [] then 0
    else DigitsValue(s[..|s| - 1]) * 10 + DigitValue(s[|s| - 1])
  }

  /** The array index a property name denotes: a non-empty digit string without a leading zero. */
  function ParseIndex(k: string): Option<nat> {
    if |k| > 0 && (forall i :: 0 <= i < |k| ==> IsDigit(k[i])) && (k[0] != '0' || |k| == 1)
    then Some(DigitsValue(k))
    else None
  }

  lemma {:induction false} DigitsValueOfNatToString(n: nat)
    ensures DigitsValue(NatToString(n)) == n
  {
    var s := NatToString(n);
    if n < 10 {
      assert s[..|s| - 1] == [];
      assert DigitValue(DigitChar(n)) == n;
    } else {
      var p := NatToString(n / 10);
      assert s[..|s| - 1] == p;
      DigitsValueOfNatToString(n / 10);
      assert DigitValue(DigitChar(n % 10)) == n % 10;
    }
  }

  /** Index keys read back as the index they were printed from. */
  lemma IndexKeyRoundTrip(n: nat)
    ensures ParseIndex(NatToString(n)) == Some(n)
  {
    DigitsValueOfNatToString(n);
  }

  function IndexKeys(len: nat): (r: seq<string>)
    ensures |r| == len
    ensures forall i :: 0 <= i < len ==> r[i] == NatToString(i)
  {
    seq(len, i requires 0 <= i => NatToString(i))
  }

  function FieldKeys<V>(fields: seq<(string, V)>): (r: seq<string>)
    ensures |r| == |fields|
    ensures forall i :: 0 <= i < |fields| ==> r[i] == fields[i].0
  {
    if fields == [] then [] else [fields[0].0] + FieldKeys(fields[1..])
  }

  /** `Object.keys(v)`. Every call site in the components guards against null first. */
  function Keys(v: Json): seq<string> {
    match v
    case JObj(fields) => FieldKeys(fields)
    case JArr(items) => IndexKeys(|items|)
    case JStr(s) => IndexKeys(|s|)
    case _ => []
  }

  /** First field named `k` (a parsed JSON object has each key once). */
  function Lookup(fields: seq<(string, Json)>, k: string): (r: Option<Json>)
    ensures r.Some? <==> k in FieldKeys(fields)
    ensures r.Some? ==> exists i :: 0 <= i < |fields| && fields[i] == (k, r.value)
  {
    if fields == [] then None
    else if fields[0].0 == k then Some(fields[0].1)
    else Lookup(fields[1..], k)
  }

  /** `v[k]`, with `None` for `undefined`. */
  function Get(v: Json, k: string): Option<Json> {
    match v
    case JObj(fields) => Lookup(fields, k)
    case JArr(items) =>
      var i := ParseIndex(k);
      if i.Some? && i.value < |items| then Some(items[i.value]) else None
    case JStr(s) =>
      var i := ParseIndex(k);
      if i.Some? && i.value < |s| then Some(JStr([s[i.value]])) else None
    case _ => None
  }

  /** Every key `Object.keys` reports can be read back. */
  lemma KeysAreReadable(v: Json, i: nat)
    requires i < |Keys(v)|
    ensures Get(v, Keys(v)[i]).Some?
  {
    match v
    case JObj(fields) =>
    case JArr(items) => IndexKeyRoundTrip(i);
    case JStr(s) => IndexKeyRoundTrip(i);
  }

  /** `obj[k] = v` on a plain object: overwrite the field in place, or append a new one. */
  function SetField(fields: seq<(string, Json)>, k: string, v: Json): (r: seq<(string, Json)>)
    ensures k in FieldKeys(fields) ==> FieldKeys(r) == FieldKeys(fields)
    ensures k !in FieldKeys(fields) ==> FieldKeys(r) == FieldKeys(fields) + [k]
  {
    if fields == [] then [(k, v)]
    else if fields[0].0 == k then [(k, v)] + fields[1..]
    else [fields[0]] + SetField(fields[1..], k, v)
  }

  /** After `obj[k] = v`, reading `k` gives `v` and every other property reads as before. */
  lemma {:induction false} SetFieldLookup(fields: seq<(string, Json)>, k: string, v: Json, k': string)
    ensures Lookup(SetField(fields, k, v), k') == if k' == k then Some(v) else Lookup(fields, k')
  {
    if fields != [] && fields[0].0 != k {
      SetFieldLookup(fields[1..], k, v, k');
      assert SetField(fields, k, v)[1..] == SetField(fields[1..], k, v);
    }
  }

  /** `s.filter(x => x !== drop)`. */
  function Without(s: seq<string>, drop: string): (r: seq<string>)
    ensures |r| <= |s|
    ensures forall x :: x in r <==> x in s && x != drop
  {
    if s == [] then []
    else if s[0] == drop then Without(s[1..], drop)
    else [s[0]] + Without(s[1..], drop)
  }

  lemma {:induction false} WithoutAppend(a: seq<string>, b: seq<string>, drop: string)
    ensures Without(a + b, drop) == Without(a, drop) + Without(b, drop)
  {
    if a == [] {
      assert a + b == b;
    } else {
      assert (a + b)[1..] == a[1..] + b;
      WithoutAppend(a[1..], b, drop);
    }
  }

  /** Filtering keeps the survivors in their original relative order. */
  lemma {:induction false} WithoutKeepsOrder(s: seq<string>, drop: string, i: nat, j: nat)
    requires i < j < |s| && s[i] != drop && s[j] != drop
    ensures exists p, q :: 0 <= p < q < |Without(s, drop)| &&
              Without(s, drop)[p] == s[i] && Without(s, drop)[q] == s[j]
  {
    var pre, mid, post := s[..i], s[i..j], s[j..];
    assert s == pre + mid + post;
    WithoutAppend(pre + mid, post, drop);
    WithoutAppend(pre, mid, drop);
    assert mid == [s[i]] + mid[1..];
    assert post == [s[j]] + post[1..];
    var w1, w2, w3 := Without(pre, drop), Without(mid, drop), Without(post, drop);
    assert w2 == [s[i]] + Without(mid[1..], drop);
    assert w3 == [s[j]] + Without(post[1..], drop);
    var w := Without(s, drop);
    assert w == w1 + w2 + w3;
    assert w[|w1|] == s[i];
    assert w[|w1| + |w2|] == s[j];
  }
}
