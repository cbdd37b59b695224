/**
 * JSON values as the job submissions, payloads and results carry them,
 * with the few JavaScript operations the service applies to them:
 * truthiness, property access, `Object.keys` and conversion to a string.
 */
module Json {
  import opened Wrappers

  /** A JSON value. Numbers are integers here; an object keeps its entries
      in key order. `JSON.parse` never builds an object with a repeated key,
      so a value whose entries repeat a key stands for no JavaScript object. */
  datatype Json =
    | JNull
    | JBool(b: bool)
    | JNum(n: int)
    | JStr(s: string)
    | JArr(items: seq<Json>)
    | JObj(entries: seq<(string, Json)>)

  /** JavaScript truthiness: null, false, 0 and "" are falsy; every array
      and every object, even an empty one, is truthy. */
  predicate Truthy(v: Json) {
    match v
    case JNull => false
    case JBool(b) => b
    case JNum(n) => n != 0
    case JStr(s) => s != ""
    case _ => true
  }

  /** The keys of an object's entries, in order. */
  function Keys(entries: seq<(string, Json)>): (ks: seq<string>)
    ensures |ks| == |entries|
    ensures forall i :: 0 <= i < |entries| ==> ks[i] == entries[i].0
  {
    seq(|entries|, i requires 0 <= i < |entries| => entries[i].0)
  }

  /** The value of the first entry named `name`, if any. */
  function Lookup(entries: seq<(string, Json)>, name: string): (r: Option<Json>)
    ensures r.Some? <==> name in Keys(entries)
    ensures r.Some? ==> (name, r.value) in entries
  {
    if |entries| == 0 then None
    else if entries[0].0 == name then Some(entries[0].1)
    else
      assert Keys(entries) == [entries[0].0] + Keys(entries[1..]);
      Lookup(entries[1..], name)
  }

  /** `v.name` on a value that is not null: an object's own entry, and
      `undefined` (None) for a missing key or a value of any other kind. */
  function Property(v: Json, name: string): (r: Option<Json>)
    ensures r.Some? <==> v.JObj? && name in Keys(v.entries)
    ensures r.Some? ==> (name, r.value) in v.entries
  {
    if v.JObj? then Lookup(v.entries, name) else None
  }

  /** Decimal digits of a natural number, as JavaScript's `String(n)`. */
  function NatToDecimal(n: nat): (s: string)
    ensures |s| >= 1
    ensures forall i :: 0 <= i < |s| ==> '0' <= s[i] <= '9'
    ensures s[0] == '0' <==> n == 0
  {
    var digit := ('0' as int + n % 10) as char;
    if n < 10 then [digit] else NatToDecimal(n / 10) + [digit]
  }

  /** The number a string of decimal digits denotes. */
  function DecimalValue(s: string): int
  {
    if |s| == 0 then 0 else 10 * DecimalValue(s[..|s| - 1]) + (s[|s| - 1] as int - '0' as int)
  }

  /** Reading the digits back gives the number: distinct indices get distinct names. */
  lemma {:induction false} DecimalRoundTrip(n: nat)
    ensures DecimalValue(NatToDecimal(n)) == n
  {
    var s := NatToDecimal(n);
    if n >= 10 {
      DecimalRoundTrip(n / 10);
      assert s[..|s| - 1] == NatToDecimal(n / 10);
    }
  }

  /** The index names `"0"`, `"1"`, ... that `Object.keys` lists for an
      array or a string of length `n`. */
  function IndexKeys(n: nat): (ks: seq<string>)
    ensures |ks| == n
    ensures forall i :: 0 <= i < n ==> DecimalValue(ks[i]) == i
  {
    var ks := seq(n, i requires 0 <= i < n => NatToDecimal(i));
    assert forall i :: 0 <= i < n ==> DecimalValue(ks[i]) == i by {
      forall i | 0 <= i < n ensures DecimalValue(ks[i]) == i {
        DecimalRoundTrip(i);
      }
    }
    ks
  }

  const NullToObject := "Cannot convert undefined or null to object"

  /** `Object.keys(v)`: an object's keys, the indices of an array or of a
      string, no keys for a number or a boolean, a TypeError for null. */
  function ObjectKeys(v: Json): (r: Result<seq<string>, string>)
    ensures r.Failure? <==> v == JNull
    ensures v.JObj? ==> r == Success(Keys(v.entries))
    ensures v.JArr? ==> r == Success(IndexKeys(|v.items|))
    ensures v.JStr? ==> r == Success(IndexKeys(|v.s|))
    ensures v.JNum? || v.JBool? ==> r == Success([])
  {
    match v
    case JNull => Failure(NullToObject)
    case JBool(_) => Success([])
    case JNum(_) => Success([])
    case JStr(s) => Success(IndexKeys(|s|))
    case JArr(items) => Success(IndexKeys(|items|))
    case JObj(entries) => Success(Keys(entries))
  }

  /** Strings joined with commas, as `Array.prototype.join` does. */
  function Join(parts: seq<string>): string
  {
    if |parts| == 0 then ""
    else if |parts| == 1 then parts[0]
    else parts[0] + "," + Join(parts[1..])
  }

  /** 2^53: up to here every integer is a double that JavaScript prints
      with exactly its own decimal digits. */
  const MaxSafeDigits := 9007199254740992

  /** JavaScript's `String(v)`, as a template literal applies it. */
  function JsString(v: Json): (r: string)
    ensures v.JStr? ==> r == v.s
    ensures v.JNum? && 0 <= v.n <= MaxSafeDigits ==> r == NatToDecimal(v.n)
    decreases v
  {
    match v
    case JNull => "null"
    case JBool(b) => if b then "true" else "false"
    case JNum(n) => if n < 0 then "-" + NatToDecimal(-n) else NatToDecimal(n)
    case JStr(s) => s
    case JArr(items) =>
      Join(seq(|items|, i requires 0 <= i < |items| =>
        if items[i] == JNull then "" else JsString(items[i])))
    case JObj(_) => "[object Object]"
  }
}
