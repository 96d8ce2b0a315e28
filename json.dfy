/**
 * JSON values as JSON.parse produces them, with the parts of JavaScript's
 * semantics the client relies on: truthiness, property reads and String().
 * Numbers are restricted to the safe integers, which a JavaScript number
 * holds exactly and which String() prints as plain decimal digits.
 */
module Json {
  import opened Wrappers

  /** The largest integer a JavaScript number holds exactly (Number.MAX_SAFE_INTEGER). */
  const MaxSafeInteger: int := 0x1F_FFFF_FFFF_FFFF

  type SafeInteger = n: int | -MaxSafeInteger <= n <= MaxSafeInteger

  datatype Value =
    | Null
    | Bool(b: bool)
    | Num(n: SafeInteger)
    | Str(s: string)
    | Arr(items: seq<Value>)
    | Obj(fields: map<string, Value>)

  /** JavaScript truthiness: null, false, 0 and "" are falsy; every array and object is truthy. */
  predicate Truthy(v: Value) {
    match v
    case Null => false
    case Bool(b) => b
    case Num(n) => n != 0
    case Str(s) => s != ""
    case Arr(_) => true
    case Obj(_) => true
  }

  /**
   * The property read `v.key`, None standing for `undefined`. Of the values
   * above only objects carry the property names this code reads.
   */
  function Member(v: Value, key: string): Option<Value> {
    if v.Obj? && key in v.fields then Some(v.fields[key]) else None
  }

  /** `v.key` is truthy. */
  predicate TruthyMember(v: Value, key: string) {
    Member(v, key).Some? && Truthy(Member(v, key).value)
  }

  function Digit(d: nat): char
    requires d < 10
  {
    "0123456789"[d]
  }

  /** Decimal notation of a natural number, most significant digit first. */
  function Decimal(n: nat): (s: string)
    ensures |s| > 0
    ensures forall i :: 0 <= i < |s| ==> '0' <= s[i] <= '9'
  {
    if n < 10 then [Digit(n)] else Decimal(n / 10) + [Digit(n % 10)]
  }

  /**
   * Decimal notation of an integer: what String() prints for an integer whose
   * magnitude is below 10^21, so for every safe integer and every HTTP status.
   */
  function IntToString(i: int): (s: string)
    ensures |s| > 0
    ensures i < 0 <==> s[0] == '-'
  {
    if i < 0 then "-" + Decimal(-i) else Decimal(i)
  }

  /** The message of the TypeError String() raises on an object it cannot convert (V8's wording). */
  const ConversionError := "Cannot convert object to primitive value"

  /**
   * String(v): the message `new Error(v)` carries. None when String() raises
   * a TypeError: an object with its own `toString` property, which JSON can
   * only make a non-function, has neither a callable toString nor a valueOf
   * that yields a primitive.
   */
  function ToJsString(v: Value): (r: Option<string>)
    decreases v, 1
    ensures v.Obj? ==> (r.None? <==> "toString" in v.fields)
    ensures v.Obj? && "toString" !in v.fields ==> r == Some("[object Object]")
    ensures !v.Obj? && !v.Arr? ==> r.Some?
    ensures v.Str? ==> r == Some(v.s)
  {
    match v
    case Null => Some("null")
    case Bool(b) => Some(if b then "true" else "false")
    case Num(n) => Some(IntToString(n))
    case Str(s) => Some(s)
    case Arr(items) => JoinItems(items)
    case Obj(fields) => if "toString" in fields then None else Some("[object Object]")
  }

  /**
   * Array.prototype.join(","), which Array.prototype.toString calls: elements
   * are separated by commas, null elements print as "", and an element String()
   * cannot convert makes the whole join raise.
   */
  function JoinItems(items: seq<Value>): (r: Option<string>)
    decreases items, 0
    ensures r.None? <==> exists i :: 0 <= i < |items| && !items[i].Null? && ToJsString(items[i]).None?
  {
    if items == [] then Some("")
    else
      var head := if items[0].Null? then Some("") else ToJsString(items[0]);
      var tail := JoinItems(items[1..]);
      if head.None? then None
      else if |items| == 1 then head
      else if tail.None? then None
      else Some(head.value + "," + tail.value)
  }
}
