/**
 * The values a parsed webhook body can hold, and the few JavaScript operations the
 * handler performs on them: reading a property (which throws a TypeError on null or
 * undefined), testing truthiness, and converting a value to text inside a template
 * literal.
 */
module JsValues {

  /** A value produced by `JSON.parse`. An object's members are a map: a repeated key keeps its last value. */
  datatype Json =
    | JNull
    | JBool(b: bool)
    | JNumber(value: real, text: string)  // `text` is the number as JavaScript prints it
    | JString(s: string)
    | JArray(items: seq<Json>)
    | JObject(fields: map<string, Json>)

  /** What a property read yields: `undefined`, or a JSON value. */
  datatype JsVal = Undefined | Defined(v: Json)

  /** The outcome of an expression that may throw. */
  datatype Result<+T> = Ok(value: T) | Threw(error: string)

  const TypeError := "TypeError"

  /** The property names the handler reads (none of them is an array index, `length`, or inherited). */
  const HandlerKeys: set<string> :=
    {"body", "event", "data", "conversationId", "listingTimeZoneName", "date", "attachments", "imagesUrls"}

  predicate Nullish(x: JsVal) {
    x == Undefined || x == Defined(JNull)
  }

  /** `x.key`: a TypeError on null or undefined; an object's own member if it has one; otherwise undefined. */
  function Member(x: JsVal, key: string): (r: Result<JsVal>)
    requires key in HandlerKeys
    ensures r.Threw? <==> Nullish(x)
    ensures r.Ok? && r.value.Defined? ==> x.Defined? && x.v.JObject? && key in x.v.fields && r.value.v == x.v.fields[key]
    ensures x.Defined? && x.v.JObject? && key in x.v.fields ==> r == Ok(Defined(x.v.fields[key]))
  {
    match x
    case Undefined => Threw(TypeError)
    case Defined(JNull) => Threw(TypeError)
    case Defined(JObject(m)) => if key in m then Ok(Defined(m[key])) else Ok(Undefined)
    case Defined(_) => Ok(Undefined)
  }

  /** `x?.key`: undefined instead of a TypeError when `x` is null or undefined. */
  function OptionalMember(x: JsVal, key: string): (r: JsVal)
    requires key in HandlerKeys
    ensures Nullish(x) ==> r == Undefined
    ensures !Nullish(x) ==> Member(x, key) == Ok(r)
  {
    if Nullish(x) then Undefined else Member(x, key).value
  }

  /** JavaScript truthiness of a value read from JSON: false, 0, "", null and undefined are falsy (NaN cannot come out of `JSON.parse`). */
  function Truthy(x: JsVal): (b: bool)
    ensures !b <==> Nullish(x) || x == Defined(JBool(false)) || x == Defined(JString("")) || (x.Defined? && x.v.JNumber? && x.v.value == 0.0)
  {
    match x
    case Undefined => false
    case Defined(JNull) => false
    case Defined(JBool(b)) => b
    case Defined(JNumber(n, _)) => n != 0.0
    case Defined(JString(s)) => s != ""
    case Defined(JArray(_)) => true
    case Defined(JObject(_)) => true
  }

  /**
   * Whether converting a JSON value to a primitive throws a TypeError. An object with its
   * own `toString` member has no callable `toString` (nothing `JSON.parse` yields is a
   * function), and its inherited `valueOf` returns the object itself, so neither gives a
   * primitive. An array converts by joining its elements, so it throws when one of them does.
   */
  predicate ToStringThrows(v: Json)
    decreases v
  {
    match v
    case JObject(m) => "toString" in m
    case JArray(items) => exists i :: 0 <= i < |items| && ToStringThrows(items[i])
    case _ => false
  }

  /**
   * `x > 0` for a JSON value `x`. The comparison first converts `x` to a primitive, which
   * throws as `ToStringThrows` says; then to a number: null and false give 0, true gives
   * 1, any other object gives NaN. Strings and arrays go through JavaScript's
   * string-to-number conversion, which this model does not include: it takes them as not
   * greater than zero.
   */
  function GreaterThanZero(x: Json): (r: Result<bool>)
    ensures r.Threw? <==> ToStringThrows(x)
    ensures x.JNumber? ==> r == Ok(x.value > 0.0)
    ensures x.JObject? && !ToStringThrows(x) ==> r == Ok(false)
  {
    if ToStringThrows(x) then Threw(TypeError)
    else match x
      case JNumber(n, _) => Ok(n > 0.0)
      case JBool(b) => Ok(b)
      case _ => Ok(false)
  }

  /** `x.length > 0` for a value that is truthy (as `data.attachments || []` always is). */
  function HasPositiveLength(x: Json): Result<bool> {
    match x
    case JArray(items) => Ok(|items| > 0)
    case JString(s) => Ok(|s| > 0)
    case JObject(m) => if "length" in m then GreaterThanZero(m["length"]) else Ok(false)
    case _ => Ok(false)  // numbers and booleans have no `length`: `undefined > 0` is false
  }

  /**
   * `(x || []).length > 0`: whether an attachment list is non-empty. It throws only on an
   * object whose own `length` member cannot be converted to a primitive.
   */
  function NonEmptyList(x: JsVal): (r: Result<bool>)
    ensures r.Threw? <==> x.Defined? && x.v.JObject? && "length" in x.v.fields && ToStringThrows(x.v.fields["length"])
    ensures !Truthy(x) ==> r == Ok(false)
    ensures x.Defined? && x.v.JArray? ==> r == Ok(|x.v.items| > 0)
  {
    if Truthy(x) then HasPositiveLength(x.v) else HasPositiveLength(JArray([]))
  }

  /** `${x}` in a template literal: "undefined", or the conversion of the JSON value. */
  function Text(x: JsVal): (r: Result<string>)
    ensures r.Threw? <==> x.Defined? && ToStringThrows(x.v)
    ensures x.Defined? && x.v.JString? ==> r == Ok(x.v.s)
  {
    match x
    case Undefined => Ok("undefined")
    case Defined(v) => JsonText(v)
  }

  /**
   * String conversion of a JSON value: an object without its own `toString` member shows
   * as "[object Object]"; an array is its elements joined by commas, with null shown as empty.
   */
  function JsonText(v: Json): (r: Result<string>)
    ensures r.Threw? <==> ToStringThrows(v)
    ensures v.JString? ==> r == Ok(v.s)
    ensures v.JObject? && !ToStringThrows(v) ==> r == Ok("[object Object]")
    decreases v
  {
    match v
    case JNull => Ok("null")
    case JBool(b) => Ok(if b then "true" else "false")
    case JNumber(_, t) => Ok(t)
    case JString(s) => Ok(s)
    case JObject(m) => if "toString" in m then Threw(TypeError) else Ok("[object Object]")
    case JArray(items) => JoinItems(items)
  }

  /** `items.join(",")`: each element converted in turn, null as empty; the first conversion that throws ends it. */
  function JoinItems(items: seq<Json>): (r: Result<string>)
    ensures r.Threw? <==> exists i :: 0 <= i < |items| && ToStringThrows(items[i])
    decreases items
  {
    if items == [] then Ok("")
    else
      var first := if items[0] == JNull then Ok("") else JsonText(items[0]);
      var rest := JoinItems(items[1..]);
      assert forall i :: 1 <= i < |items| ==> items[i] == items[1..][i - 1];
      if first.Threw? then first
      else if |items| == 1 then first
      else if rest.Threw? then rest
      else Ok(first.value + "," + rest.value)
  }

  /** Conversions JavaScript performs on sample values. */
  lemma JsonTextExamples()
    ensures JsonText(JArray([JString("a"), JNull, JBool(true)])) == Ok("a,,true")
    ensures JsonText(JArray([])) == Ok("")
    ensures Text(Undefined) == Ok("undefined")
    ensures JsonText(JObject(map["valueOf" := JNull])) == Ok("[object Object]")
    ensures JsonText(JArray([JString("a"), JArray([JObject(map["toString" := JBool(true)])])])).Threw?
  {
    var items := [JString("a"), JNull, JBool(true)];
    assert items[1..] == [JNull, JBool(true)] && items[1..][1..] == [JBool(true)];
    assert JoinItems(items[1..][1..]) == Ok("true");
    assert JoinItems(items[1..]) == Ok("" + "," + "true");
    assert JoinItems(items) == Ok("a" + "," + ("" + "," + "true"));
    assert "a" + "," + ("" + "," + "true") == "a,,true";
    assert JsonText(JArray(items)) == JoinItems(items);
    var inner := JObject(map["toString" := JBool(true)]);
    var outer := [JString("a"), JArray([inner])];
    assert ToStringThrows(JArray([inner])) by { assert [inner][0] == inner; }
    assert outer[1] == JArray([inner]);
  }
}
