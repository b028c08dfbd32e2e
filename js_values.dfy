/** JavaScript values as the tool renderers see them, and the two pieces of
    the JavaScript runtime they lean on: the JSON codec (left abstract) and
    the String(...) conversion (defined here for JSON-shaped values). */
module JsValues {

  datatype Option<T> = None | Some(value: T)

  /** A JSON value. Numbers are integers in this model. */
  datatype Json =
    | JNull
    | JBool(b: bool)
    | JNumber(n: int)
    | JString(s: string)
    | JArray(items: seq<Json>)
    | JObject(fields: map<string, Json>)

  /** A value of type `any | undefined`: undefined, or a JSON-shaped value
      (a string parameter is `Present(JString(s))`). */
  datatype Value = Undefined | Present(json: Json)

  /** JavaScript truthiness: null, false, 0 and "" are falsy; arrays and
      objects are truthy even when empty. */
  predicate Truthy(j: Json) {
    match j
    case JNull => false
    case JBool(b) => b
    case JNumber(n) => n != 0
    case JString(s) => s != ""
    case JArray(_) => true
    case JObject(_) => true
  }

  predicate IsTruthy(v: Value) {
    v.Present? && Truthy(v.json)
  }

  /** The host's JSON object. `parse` is None exactly where JSON.parse
      throws; `stringify` (called with two-space indentation) is None exactly
      where JSON.stringify throws. Because an object is a map here, the
      order of its keys is not part of the value, so `stringify` cannot
      depend on it. */
  datatype Codec = Codec(parse: string -> Option<Json>, stringify: Json -> Option<string>)

  /** A codec whose serialiser never fails and whose parser reads back every
      text the serialiser writes: the round-trip law the built-in JSON object
      obeys on JSON-shaped values, up to the order of object keys. Only the
      lemmas that require it assume it. */
  ghost predicate Lawful(codec: Codec) {
    forall j :: codec.stringify(j).Some? && codec.parse(codec.stringify(j).value) == Some(j)
  }

  /** Array.prototype.join: the parts with `sep` between neighbours. */
  function Join(parts: seq<string>, sep: string): (r: string)
    ensures sep != "" ==> (r == "" <==> parts == [] || parts == [""])
  {
    if |parts| == 0 then ""
    else if |parts| == 1 then parts[0]
    else parts[0] + sep + Join(parts[1..], sep)
  }

  /** Where part `k` starts in Join(parts, sep). */
  function Offset(parts: seq<string>, sep: string, k: nat): nat
    requires k < |parts|
  {
    if k == 0 then 0 else |parts[0]| + |sep| + Offset(parts[1..], sep, k - 1)
  }

  /** Slicing past a prefix slices the rest. */
  lemma SliceAfterPrefix(a: string, b: string, i: nat, j: nat)
    requires i <= j <= |b|
    ensures (a + b)[|a| + i..|a| + j] == b[i..j]
  {
  }

  /** Join lays the parts out in order: part `k` sits at Offset(k), and
      the last part ends the text. */
  lemma {:induction false} JoinPlacesPart(parts: seq<string>, sep: string, k: nat)
    requires k < |parts|
    ensures Offset(parts, sep, k) + |parts[k]| <= |Join(parts, sep)|
    ensures Join(parts, sep)[Offset(parts, sep, k)..Offset(parts, sep, k) + |parts[k]|] == parts[k]
    ensures k + 1 == |parts| ==> Offset(parts, sep, k) + |parts[k]| == |Join(parts, sep)|
  {
    if |parts| == 1 {
      assert Join(parts, sep) == parts[0];
    } else {
      var head := parts[0] + sep;
      var rest := Join(parts[1..], sep);
      assert Join(parts, sep) == head + rest;
      if k == 0 {
        assert (head + rest)[..|parts[0]|] == parts[0];
      } else {
        JoinPlacesPart(parts[1..], sep, k - 1);
        var o := Offset(parts[1..], sep, k - 1);
        assert parts[1..][k - 1] == parts[k];
        SliceAfterPrefix(head, rest, o, o + |parts[k]|);
      }
    }
  }

  /** Between part `k` and part `k + 1` of a join stands the separator. */
  lemma {:induction false} JoinPlacesSeparator(parts: seq<string>, sep: string, k: nat)
    requires k + 1 < |parts|
    ensures Offset(parts, sep, k + 1) == Offset(parts, sep, k) + |parts[k]| + |sep|
    ensures Offset(parts, sep, k + 1) <= |Join(parts, sep)|
    ensures Join(parts, sep)[Offset(parts, sep, k) + |parts[k]|..Offset(parts, sep, k + 1)] == sep
  {
    var head := parts[0] + sep;
    var rest := Join(parts[1..], sep);
    assert Join(parts, sep) == head + rest;
    if k == 0 {
      assert (head + rest)[|parts[0]|..|head|] == sep;
    } else {
      JoinPlacesSeparator(parts[1..], sep, k - 1);
      var o := Offset(parts[1..], sep, k - 1);
      assert parts[1..][k - 1] == parts[k];
      assert Offset(parts, sep, k + 1) == |head| + Offset(parts[1..], sep, k);
      SliceAfterPrefix(head, rest, o + |parts[k]|, o + |parts[k]| + |sep|);
    }
  }

  /** The decimal digit for d. */
  function DigitChar(d: nat): char
    requires d < 10
  {
    (48 + d) as char
  }

  /** String(n) for a non-negative integer: decimal digits with no leading
      zero, a single digit exactly for n below ten, and n's last digit
      last. */
  function NatText(n: nat): (r: string)
    ensures r != ""
    ensures forall i :: 0 <= i < |r| ==> '0' <= r[i] <= '9'
    ensures r[0] == '0' <==> n == 0
    ensures |r| == 1 <==> n < 10
    ensures r[|r| - 1] == DigitChar(n % 10)
  {
    if n < 10 then [DigitChar(n)] else NatText(n / 10) + [DigitChar(n % 10)]
  }

  /** String(n) for an integer. */
  function IntText(n: int): string {
    if n < 0 then "-" + NatText(-n) else NatText(n)
  }

  /** String(j): what JavaScript's String(...) conversion, and a template
      literal's `${...}`, make of a JSON-shaped value. An array joins its
      elements with "," and writes null elements as the empty string. */
  function ToText(j: Json): string
    decreases j
  {
    match j
    case JNull => "null"
    case JBool(b) => if b then "true" else "false"
    case JNumber(n) => IntText(n)
    case JString(s) => s
    case JArray(items) =>
      Join(seq(|items|, i requires 0 <= i < |items| => if items[i].JNull? then "" else ToText(items[i])), ",")
    case JObject(_) => "[object Object]"
  }
}
