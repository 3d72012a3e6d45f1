/** JSON values as the modelled code sees them: `serde_json::Value` on the
    Rust side and the result of `JSON.parse` on the JavaScript side.  Every
    number the modelled code reads or writes is a whole number, so numbers are
    integers here.

    Two ways of looking into a value are modelled: serde's `get`/`as_*`
    accessors, which answer `None` for a value of the wrong kind, and
    JavaScript's optional chaining `v?.key`, which answers `undefined`
    (written `None`) when `v` is null or undefined, or lacks the property. */
module Json {
  import opened Wrappers

  datatype Json =
    | Null
    | Bool(b: bool)
    | Num(n: int)
    | Str(s: string)
    | Arr(items: seq<Json>)
    | Obj(fields: map<string, Json>)

  /** `JSON.parse` / `serde_json::from_str`: the value a text denotes, or
      `None` when it is not JSON. */
  type Parser = string -> Option<Json>

  // ---------------------------------------------------------------- serde

  /** `Value::get(key)`: the field of an object, `None` for any other value. */
  function Get(v: Json, key: string): Option<Json>
  {
    if v.Obj? && key in v.fields then Some(v.fields[key]) else None
  }

  /** `Value::as_array` */
  function AsArray(v: Json): Option<seq<Json>>
  {
    if v.Arr? then Some(v.items) else None
  }

  /** `Value::as_str` */
  function AsStr(v: Json): Option<string>
  {
    if v.Str? then Some(v.s) else None
  }

  // ----------------------------------------------------------- JavaScript

  /** `v?.key` where `v` may be undefined (`None`).  The keys the modelled
      code reads (`choices`, `message`, `content`, `text`, `minDelay`, ...)
      are not built-in properties of any JavaScript value, so on anything
      but an object holding the key the result is `undefined`. */
  function Prop(v: Option<Json>, key: string): Option<Json>
  {
    match v
    case Some(Obj(fields)) => if key in fields then Some(fields[key]) else None
    case _ => None
  }

  /** `v?.[0]`: the first element of an array, the first character of a
      string, or an object's field named "0". */
  function First(v: Option<Json>): Option<Json>
  {
    match v
    case Some(Arr(items)) => if items == [] then None else Some(items[0])
    case Some(Str(s)) => if s == "" then None else Some(Str(s[..1]))
    case Some(Obj(fields)) => if "0" in fields then Some(fields["0"]) else None
    case _ => None
  }

  /** `a ?? b`: `b` when `a` is null or undefined. */
  function OrElse(a: Option<Json>, b: Json): Json
  {
    if a.None? || a.value.Null? then b else a.value
  }

  /** JavaScript truthiness of a value that may be undefined. */
  predicate Truthy(v: Option<Json>)
  {
    match v
    case None => false
    case Some(Null) => false
    case Some(Bool(b)) => b
    case Some(Num(n)) => n != 0
    case Some(Str(s)) => s != ""
    case Some(_) => true
  }

  /** Decimal digits of a natural number, as `String(n)` writes them. */
  function Digits(n: nat): string
    decreases n
  {
    var d := ['0' + (n % 10) as char];
    if n < 10 then d else Digits(n / 10) + d
  }

  predicate IsDigits(s: string)
  {
    s != "" && forall i :: 0 <= i < |s| ==> '0' <= s[i] <= '9'
  }

  /** The number a string of decimal digits denotes (leading zeros allowed). */
  function DigitsValue(s: string): nat
    decreases |s|
  {
    if s == "" then 0
    else
      var d := s[|s| - 1] as int - '0' as int;
      DigitsValue(s[..|s| - 1]) * 10 + (if 0 <= d < 10 then d else 0)
  }

  /** Reading back the digits of a number gives the number. */
  lemma {:induction false} DigitsRoundTrip(n: nat)
    ensures IsDigits(Digits(n)) && DigitsValue(Digits(n)) == n
    decreases n
  {
    if n >= 10 {
      DigitsRoundTrip(n / 10);
      var s := Digits(n);
      assert s[..|s| - 1] == Digits(n / 10);
    }
  }

  /** `String(v)`: the text `JSON.parse` actually parses when it is handed a
      value that is not a string. */
  function ToText(v: Json): string
  {
    match v
    case Null => "null"
    case Bool(b) => if b then "true" else "false"
    case Num(n) => if n < 0 then "-" + Digits(-n) else Digits(n)
    case Str(s) => s
    case Arr(items) => JoinText(items)
    case Obj(_) => "[object Object]"
  }

  /** `Array.prototype.join(",")`, where null elements become "". */
  function JoinText(items: seq<Json>): string
    decreases items
  {
    if items == [] then ""
    else
      var head := if items[0].Null? then "" else ToText(items[0]);
      if |items| == 1 then head else head + "," + JoinText(items[1..])
  }
}
