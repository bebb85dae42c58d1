/** The decoded JSON values that a chat frame can carry, and the two pieces of
    JavaScript semantics the frame handler relies on: truthiness (`!name`) and
    string coercion (`salt + code`, and the template literal that logs a post). */
module JsValues {
  import opened Wrappers

  /** A property value read off a parsed frame. `Undefined` is what reading a
      key that the parsed value does not have yields. Numbers are integers. */
  datatype Value =
    | Undefined
    | Null
    | Bool(b: bool)
    | Num(n: int)
    | Str(s: string)
    | Arr(items: seq<Value>)
    | Obj(entries: seq<Entry>)

  /** One own property of a parsed JSON object, in document order. */
  datatype Entry = Entry(key: string, val: Value)

  /** JavaScript truthiness: `undefined`, `null`, `false`, `0` and `""` are falsy,
      every array and every object is truthy. */
  predicate Truthy(v: Value)
    ensures !Truthy(v) <==>
      v == Undefined || v == Null || v == Bool(false) || v == Num(0) || v == Str("")
  {
    match v
    case Undefined => false
    case Null => false
    case Bool(b) => b
    case Num(n) => n != 0
    case Str(s) => s != ""
    case Arr(_) => true
    case Obj(_) => true
  }

  /** A parsed object has `key` as one of its own properties. */
  predicate HasKey(entries: seq<Entry>, key: string) {
    exists i :: 0 <= i < |entries| && entries[i].key == key
  }

  function DigitChar(d: nat): char
    requires d < 10
  {
    "0123456789"[d]
  }

  /** Every character of `s` is a decimal digit. */
  predicate AllDigits(s: string) {
    forall i :: 0 <= i < |s| ==> '0' <= s[i] <= '9'
  }

  /** The number a string of decimal digits denotes, most significant first. */
  function DigitsValue(s: string): nat
    requires AllDigits(s)
    decreases |s|
  {
    if s == [] then 0 else DigitsValue(s[..|s| - 1]) * 10 + (s[|s| - 1] as int - '0' as int)
  }

  /** The decimal digits of a natural number, most significant first. */
  function NatDigits(n: nat): (s: string)
    ensures |s| > 0 && AllDigits(s)
    ensures DigitsValue(s) == n
    ensures s[0] == '0' ==> s == "0"
    decreases n
  {
    if n < 10 then [DigitChar(n)]
    else
      var s := NatDigits(n / 10) + [DigitChar(n % 10)];
      assert s[..|s| - 1] == NatDigits(n / 10);
      s
  }

  /** A decimal numeral: digits, possibly after one minus sign. */
  predicate IsNumeral(s: string) {
    if |s| > 0 && s[0] == '-' then |s| > 1 && AllDigits(s[1..]) else |s| > 0 && AllDigits(s)
  }

  /** The integer a decimal numeral denotes. */
  function NumeralValue(s: string): int
    requires IsNumeral(s)
  {
    if s[0] == '-' then -(DigitsValue(s[1..]) as int) else DigitsValue(s)
  }

  /** `String(n)` for an integer: an optional minus sign, then its digits. The
      numeral reads back as `n`, so distinct numbers give distinct text. */
  function Decimal(n: int): (s: string)
    ensures IsNumeral(s) && NumeralValue(s) == n
    ensures (n < 0) == (s[0] == '-')
    ensures var digits := if n < 0 then s[1..] else s;
      digits[0] == '0' ==> digits == "0"
  {
    if n < 0 then
      var s := "-" + NatDigits(-n);
      assert s[1..] == NatDigits(-n);
      s
    else NatDigits(n)
  }

  /** Distinct numeric codes are coerced to distinct texts. */
  lemma DecimalInjective(a: int, b: int)
    requires a != b
    ensures Decimal(a) != Decimal(b)
  {
  }

  /** String coercion of a value (`"" + v`, `${v}`). `None` stands for the
      TypeError raised when an object cannot be turned into a primitive: a
      parsed object whose own `toString` key shadows the inherited method,
      which then is not callable. */
  function ToText(v: Value): (r: Option<string>)
    ensures v.Str? ==> r == Some(v.s)
    ensures v.Obj? ==> (r.None? <==> HasKey(v.entries, "toString"))
    ensures !v.Arr? && !v.Obj? ==> r.Some?
    decreases v
  {
    match v
    case Undefined => Some("undefined")
    case Null => Some("null")
    case Bool(b) => Some(if b then "true" else "false")
    case Num(n) => Some(Decimal(n))
    case Str(s) => Some(s)
    case Arr(items) => JoinItems(items)
    case Obj(entries) => if HasKey(entries, "toString") then None else Some("[object Object]")
  }

  /** `Array.prototype.join(",")`: `null` and `undefined` elements become the
      empty string, every other element is coerced; one failing element makes
      the whole join fail. */
  function JoinItems(items: seq<Value>): (r: Option<string>)
    ensures items == [] ==> r == Some("")
    ensures r.Some? <==>
      forall i :: 0 <= i < |items| ==> items[i].Undefined? || items[i].Null? || ToText(items[i]).Some?
    decreases items
  {
    if items == [] then Some("")
    else
      var head := if items[0].Undefined? || items[0].Null? then Some("") else ToText(items[0]);
      if |items| == 1 then head
      else
        match head
        case None => None
        case Some(h) =>
          match JoinItems(items[1..])
          case None => None
          case Some(t) => Some(h + "," + t)
  }
}
