/**
 * The dynamically typed values the application passes around without a
 * schema (the `answers` payload of a log, the `data` of a submission), with
 * the JavaScript operations the code applies to them: truthiness, `typeof`,
 * property lookup with optional chaining, and `Object.entries`.
 */
module JsValue {
  import opened Wrappers
  import JsString

  /** A JSON-like value. Numbers are reals (NaN is not modelled). */
  datatype Json =
    | JNull
    | JBool(b: bool)
    | JNum(n: real)
    | JStr(s: string)
    | JArr(elems: seq<Json>)
    | JObj(entries: seq<(string, Json)>)

  /** JavaScript truthiness of a present value: null, false, 0 and "" are falsy. */
  predicate Truthy(v: Json)
  {
    match v
    case JNull => false
    case JBool(b) => b
    case JNum(n) => n != 0.0
    case JStr(s) => s != ""
    case _ => true
  }

  /** Truthiness of a possibly undefined value (`undefined` is falsy). */
  predicate TruthyOpt(v: Option<Json>)
  {
    v.Some? && Truthy(v.value)
  }

  /** `typeof v === 'object'`: null, arrays and objects. */
  predicate IsObjectType(v: Json)
  {
    v.JNull? || v.JArr? || v.JObj?
  }

  /** The value of the first entry named `key`, if any. */
  function Lookup(es: seq<(string, Json)>, key: string): (r: Option<Json>)
    ensures r.Some? <==> exists i :: 0 <= i < |es| && es[i].0 == key
    ensures r.Some? ==> exists i :: 0 <= i < |es| && es[i] == (key, r.value)
                          && forall j :: 0 <= j < i ==> es[j].0 != key
  {
    if es == [] then None
    else if es[0].0 == key then Some(es[0].1)
    else
      var r := Lookup(es[1..], key);
      assert forall j :: 1 <= j < |es| ==> es[j] == es[1..][j - 1];
      r
  }

  /** Looking up in a concatenation finds the first part's entry before the second's. */
  lemma {:induction false} LookupAppend(a: seq<(string, Json)>, b: seq<(string, Json)>, key: string)
    ensures Lookup(a + b, key) == if Lookup(a, key).Some? then Lookup(a, key) else Lookup(b, key)
    decreases |a|
  {
    if a == [] {
      assert a + b == b;
    } else {
      LookupAppend(a[1..], b, key);
      assert (a + b)[0] == a[0];
      assert (a + b)[1..] == a[1..] + b;
    }
  }

  /**
   * `v[key]` for a property name `key`. Only objects have own named
   * properties here: the names the application queries (`items`,
   * `location`, `horometer`, `severity`, `lat`, `lng`, `<key>_comment`)
   * are never array indices nor `length`, so on every other value the
   * lookup gives `undefined`.
   */
  function Get(v: Json, key: string): (r: Option<Json>)
    ensures !v.JObj? ==> r == None
    ensures v.JObj? ==> r == Lookup(v.entries, key)
  {
    match v
    case JObj(es) => Lookup(es, key)
    case _ => None
  }

  /** `v?.key`: undefined and null give undefined. */
  function GetOpt(v: Option<Json>, key: string): (r: Option<Json>)
    ensures v == None ==> r == None
    ensures v.Some? ==> r == Get(v.value, key)
  {
    if v.Some? then Get(v.value, key) else None
  }

  /**
   * `Object.entries(v)`: the entries of an object, index/element pairs of an
   * array, index/character pairs of a string, and nothing for the other
   * primitives.
   */
  function Entries(v: Json): (r: seq<(string, Json)>)
    ensures v.JObj? ==> r == v.entries
    ensures v.JArr? ==> |r| == |v.elems| && forall i :: 0 <= i < |r| ==> r[i] == (JsString.NatToString(i), v.elems[i])
    ensures v.JNull? || v.JBool? || v.JNum? ==> r == []
  {
    match v
    case JObj(es) => es
    case JArr(xs) => seq(|xs|, i requires 0 <= i < |xs| => (JsString.NatToString(i), xs[i]))
    case JStr(s) => seq(|s|, i requires 0 <= i < |s| => (JsString.NatToString(i), JStr([s[i]])))
    case _ => []
  }
}
