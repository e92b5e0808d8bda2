/**
  A value produced by `JSON.parse`, and the few things JavaScript does with
  such a value in the client: reading a property, testing truthiness,
  interpolating it into a template string, and the exceptions those can raise.
 */
module JsValues {
  import opened Wrappers

  /** A parsed JSON value; numbers are modelled as integers. */
  datatype JsonValue =
    | JNull
    | JBool(b: bool)
    | JNumber(n: int)
    | JString(s: string)
    | JArray(items: seq<JsonValue>)
    | JObject(fields: map<string, JsonValue>)

  /** The two values a property read cannot be performed on. */
  datatype Nullish = Null | Undefined

  /** What a `throw` carries out of the client code. */
  datatype Exception =
    | Thrown(message: string)                    // `throw new Error(message)`
    | TypeError(property: string, base: Nullish) // reading `property` of null or undefined
    | NotPrimitive                               // TypeError: an object converts to no primitive string

  /**
    `v.key` on a value known not to be null or undefined; None stands for
    `undefined`. Only plain objects have own properties; the keys the client
    reads ("error", "result", "tools", "message") are inherited by no
    primitive or array, so reading them elsewhere gives `undefined`.
   */
  function Property(v: JsonValue, key: string): (r: Option<JsonValue>)
    ensures r.Some? ==> r.value < v
  {
    if v.JObject? && key in v.fields then Some(v.fields[key]) else None
  }

  /** `base.key` where `base` may be `undefined` (None) or `null`. */
  function Get(base: Option<JsonValue>, key: string): (r: Result<Option<JsonValue>, Exception>)
    ensures r.Failure? ==> r.error.TypeError? && r.error.property == key
    ensures r.Success? && r.value.Some? ==> base.Some? && r.value.value < base.value
  {
    match base
    case None => Failure(TypeError(key, Undefined))
    case Some(JNull) => Failure(TypeError(key, Null))
    case Some(v) => Success(Property(v, key))
  }

  /** The truthiness test of `if (x)`; None is `undefined`. */
  predicate Truthy(v: Option<JsonValue>) {
    match v
    case None => false
    case Some(JNull) => false
    case Some(JBool(b)) => b
    case Some(JNumber(n)) => n != 0
    case Some(JString(s)) => s != ""
    case Some(JArray(_)) => true
    case Some(JObject(_)) => true
  }

  function DigitChar(d: nat): char
    requires d < 10
  {
    "0123456789"[d]
  }

  /** Decimal digits of a natural number, without leading zeros. */
  function NatToString(n: nat): (s: string)
    ensures |s| >= 1
    ensures forall i :: 0 <= i < |s| ==> '0' <= s[i] <= '9'
    decreases n
  {
    if n < 10 then [DigitChar(n)] else NatToString(n / 10) + [DigitChar(n % 10)]
  }

  /** The value of the decimal digits `s`. */
  function DigitsValue(s: string): int
    requires forall i :: 0 <= i < |s| ==> '0' <= s[i] <= '9'
  {
    if s == [] then 0 else 10 * DigitsValue(s[..|s| - 1]) + (s[|s| - 1] as int - '0' as int)
  }

  /** Reading the decimal digits back gives the number that was printed. */
  lemma {:induction false} NatToStringValue(n: nat)
    ensures DigitsValue(NatToString(n)) == n
  {
    var s := NatToString(n);
    if n >= 10 {
      NatToStringValue(n / 10);
      assert s[..|s| - 1] == NatToString(n / 10);
    }
  }

  /** How JavaScript prints an integral number. */
  function IntToString(n: int): (s: string)
    ensures |s| >= 1
    ensures n >= 0 ==> (forall i :: 0 <= i < |s| ==> '0' <= s[i] <= '9') && DigitsValue(s) == n
    ensures n < 0 ==> s[0] == '-' && (forall i :: 1 <= i < |s| ==> '0' <= s[i] <= '9') && DigitsValue(s[1..]) == -n
  {
    if n < 0 then
      var digits := NatToString(-n);
      NatToStringValue(-n);
      assert ("-" + digits)[1..] == digits;
      "-" + digits
    else
      NatToStringValue(n);
      NatToString(n)
  }

  /**
    The string `${v}` interpolates: `undefined`, the words null, true and
    false, digits, the string itself, "[object Object]" for an object, and
    for an array its elements joined by commas with null elements empty.
    A parsed object with an own `toString` field hides the inherited method
    behind a value that cannot be called, and its inherited `valueOf` gives
    back the object itself, so converting it throws; so does an array that
    holds such an object.
   */
  function ToJsString(v: Option<JsonValue>): (r: Result<string, Exception>)
    ensures v.None? ==> r == Success("undefined")
    ensures r.Failure? ==> r.error == NotPrimitive
  {
    match v
    case None => Success("undefined")
    case Some(w) => ValueToString(w)
  }

  /** Whether the string conversion of `v` throws: an object with an own `toString`, at any array depth. */
  predicate Unprintable(v: JsonValue)
    decreases v
  {
    match v
    case JObject(fields) => "toString" in fields
    case JArray(items) => exists i | 0 <= i < |items| :: Unprintable(items[i])
    case _ => false
  }

  function ValueToString(v: JsonValue): (r: Result<string, Exception>)
    ensures r.Failure? <==> Unprintable(v)
    ensures r.Failure? ==> r.error == NotPrimitive
    decreases v, if v.JArray? then |v.items| + 1 else 0
  {
    match v
    case JNull => Success("null")
    case JBool(b) => Success(if b then "true" else "false")
    case JNumber(n) => Success(IntToString(n))
    case JString(s) => Success(s)
    case JObject(fields) => if "toString" in fields then Failure(NotPrimitive) else Success("[object Object]")
    case JArray(items) =>
      var r := JoinElements(v, items);
      assert items == v.items;
      r
  }

  /**
    Array.prototype.join(",") over the elements of `items`, a suffix of the
    items of `whole`: null elements print empty, and the first element that
    cannot be converted stops the join.
   */
  function JoinElements(ghost whole: JsonValue, items: seq<JsonValue>): (r: Result<string, Exception>)
    requires whole.JArray?
    requires forall i :: 0 <= i < |items| ==> items[i] < whole
    ensures r.Failure? <==> exists i | 0 <= i < |items| :: Unprintable(items[i])
    ensures r.Failure? ==> r.error == NotPrimitive
    decreases whole, |items|
  {
    if items == [] then Success("")
    else
      var first := if items[0] == JNull then Success("") else ValueToString(items[0]);
      if first.Failure? then first
      else if |items| == 1 then first
      else
        var rest := JoinElements(whole, items[1..]);
        assert forall i :: 1 <= i < |items| ==> items[i] == items[1..][i - 1];
        if rest.Failure? then rest else Success(first.value + "," + rest.value)
  }
}
