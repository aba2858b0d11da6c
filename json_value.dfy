/** JSON values as JavaScript sees them after `JSON.parse`: the property reads, truthiness and
    string conversion the analysis code applies to them. `None` stands for `undefined`. */
module JsonValue {
  import opened Wrappers
  import opened Text

  /** Numbers are integers here (prices are whole dinars). Object key order is not kept. */
  datatype Json =
    | JNull
    | JBool(b: bool)
    | JNum(n: int)
    | JStr(s: string)
    | JArr(items: seq<Json>)
    | JObj(fields: map<string, Json>)

  /** JavaScript truthiness: `undefined`, `null`, `false`, `0` and `""` are falsy; arrays and
      objects, even empty ones, are truthy. */
  predicate Truthy(v: Option<Json>) {
    match v
    case None => false
    case Some(JNull) => false
    case Some(JBool(b)) => b
    case Some(JNum(n)) => n != 0
    case Some(JStr(s)) => s != ""
    case Some(JArr(_)) => true
    case Some(JObj(_)) => true
  }

  /** `j.key` on a value that is not `null`: an object's own field; every other value has no
      such data property. */
  function Get(j: Json, key: string): (r: Option<Json>)
    ensures r.Some? ==> j.JObj? && key in j.fields && r.value == j.fields[key]
    ensures j.JObj? && key in j.fields ==> r.Some?
  {
    if j.JObj? && key in j.fields then Some(j.fields[key]) else None
  }

  /** `v?.key`: `undefined` when `v` is `undefined` or `null`, otherwise `v.key`. */
  function Member(v: Option<Json>, key: string): Option<Json> {
    match v
    case None => None
    case Some(JNull) => None
    case Some(j) => Get(j, key)
  }

  /** `v?.[0]`: an array's first element, a string's first character, an object's field "0". */
  function First(v: Option<Json>): Option<Json> {
    match v
    case Some(JArr(items)) => if items != [] then Some(items[0]) else None
    case Some(JStr(s)) => if s != "" then Some(JStr([s[0]])) else None
    case Some(JObj(fields)) => if "0" in fields then Some(fields["0"]) else None
    case _ => None
  }

  /** Whether converting the value to a primitive (for `String(j)`, a template literal or
      arithmetic) throws a TypeError. An object whose own `toString` key holds a JSON value,
      which is never callable, has no usable `toString`, and its inherited `valueOf` returns
      the object itself, so the conversion throws (section 7.1.1.1 of ECMA-262,
      OrdinaryToPrimitive); without that key the inherited `toString` answers. An array
      converts through `join`, which throws when one of its elements does. */
  predicate ConversionThrows(j: Json) {
    match j
    case JObj(fields) => "toString" in fields
    case JArr(items) => exists k :: 0 <= k < |items| && ConversionThrows(items[k])
    case _ => false
  }

  /** A present value whose conversion throws. */
  predicate Throws(v: Option<Json>) {
    v.Some? && ConversionThrows(v.value)
  }

  /** `String(j)` for a present value, as a template literal computes it; `None` is the
      TypeError the conversion throws. */
  function Stringify(j: Json): Option<string> {
    match j
    case JNull => Some("null")
    case JBool(b) => Some(if b then "true" else "false")
    case JNum(n) => Some(DecimalString(n))
    case JStr(s) => Some(s)
    case JArr(items) => JoinItems(items)
    case JObj(fields) => if "toString" in fields then None else Some("[object Object]")
  }

  /** `Array.prototype.toString`: elements joined by commas, `null` elements as empty text;
      the first element whose conversion throws ends the join. */
  function JoinItems(items: seq<Json>): Option<string>
    decreases items
  {
    if items == [] then Some("")
    else
      var head := if items[0].JNull? then Some("") else Stringify(items[0]);
      if head.None? then None
      else if |items| == 1 then head
      else
        match JoinItems(items[1..])
        case None => None
        case Some(tail) => Some(head.value + "," + tail)
  }

  /** The conversion fails exactly when `ConversionThrows` says it does. */
  lemma {:induction false} StringifyThrows(j: Json)
    ensures Stringify(j).None? <==> ConversionThrows(j)
    decreases j, 1
  {
    if j.JArr? {
      JoinThrows(j.items);
    }
  }

  lemma {:induction false} JoinThrows(items: seq<Json>)
    ensures JoinItems(items).None? <==> exists k :: 0 <= k < |items| && ConversionThrows(items[k])
    decreases items, 0
  {
    if items != [] {
      StringifyThrows(items[0]);
      JoinThrows(items[1..]);
      assert forall k :: 1 <= k < |items| ==> items[k] == items[1..][k - 1];
    }
  }

  /** `${v}` in a template literal: `undefined` gives "undefined"; `None` is the TypeError
      thrown by a value whose conversion throws. */
  function TemplateString(v: Option<Json>): (r: Option<string>)
    ensures v.Some? && v.value.JStr? ==> r == Some(v.value.s)
    ensures v.None? ==> r == Some("undefined")
    ensures r.None? <==> Throws(v)
  {
    match v
    case None => Some("undefined")
    case Some(j) => StringifyThrows(j); Stringify(j)
  }

  /** An object with an own `toString` key cannot be converted; without one it reads
      "[object Object]", and an array holding the former cannot be converted either. */
  lemma ToStringKeyThrows()
    ensures var bad := JObj(map["toString" := JNum(0)]);
      && TemplateString(Some(bad)).None?
      && TemplateString(Some(JArr([JStr("a"), bad]))).None?
      && TemplateString(Some(JObj(map["name" := JStr("a")]))) == Some("[object Object]")
  {
    var bad := JObj(map["toString" := JNum(0)]);
    assert ConversionThrows(JArr([JStr("a"), bad])) by {
      assert [JStr("a"), bad][1] == bad;
    }
  }
}
