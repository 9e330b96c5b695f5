/** Values that JSON.parse produces, and the JavaScript coercions the
    normalisers apply to them: property access, `??`, `Boolean(..)` and
    `String(..)`. */
module JsValues {
  import opened Lists
  import opened JsStrings

  /** A parsed JSON value. Numbers are integers here. */
  datatype Json =
    | JNull
    | JBool(b: bool)
    | JNum(n: int)
    | JStr(s: string)
    | JArr(items: seq<Json>)
    | JObj(fields: map<string, Json>)

  /** Property access `v.key` (and `v?.key`); None is `undefined`. Only
      objects carry the keys the tool reads. */
  function Get(v: Json, key: string): (r: Option<Json>)
    ensures r.Some? <==> v.JObj? && key in v.fields
  {
    if v.JObj? && key in v.fields then Some(v.fields[key]) else None
  }

  /** `v?.key` where `v` may itself be undefined. */
  function GetIn(v: Option<Json>, key: string): Option<Json>
  {
    if v.Some? then Get(v.value, key) else None
  }

  /** `null` or `undefined`: the values `??` replaces. */
  predicate Nullish(v: Option<Json>)
  {
    v.None? || v.value.JNull?
  }

  /** `a ?? b` */
  function Coalesce(a: Option<Json>, b: Option<Json>): Option<Json>
  {
    if Nullish(a) then b else a
  }

  /** `Boolean(v)`: false for undefined, null, false, 0 and "". */
  predicate Truthy(v: Option<Json>)
  {
    match v
    case None => false
    case Some(JNull) => false
    case Some(JBool(b)) => b
    case Some(JNum(n)) => n != 0
    case Some(JStr(s)) => s != ""
    case Some(JArr(_)) => true
    case Some(JObj(_)) => true
  }

  /** `Boolean` as a predicate on present values, for `.filter(Boolean)`. */
  predicate IsTruthy(v: Json)
  {
    Truthy(Some(v))
  }

  function DigitChar(d: nat): (c: char)
    requires d < 10
    ensures '0' <= c <= '9' && c as int - '0' as int == d
  {
    ('0' as int + d) as char
  }

  /** The value of a string of decimal digits. */
  function DigitsValue(s: string): nat
    requires forall i :: 0 <= i < |s| ==> '0' <= s[i] <= '9'
  {
    if |s| == 0 then 0 else DigitsValue(s[..|s| - 1]) * 10 + (s[|s| - 1] as int - '0' as int)
  }

  /** The decimal digits of `n`, without leading zeros. */
  function NatToString(n: nat): (r: string)
    ensures |r| > 0 && (r[0] == '0' ==> |r| == 1)
    ensures forall i :: 0 <= i < |r| ==> '0' <= r[i] <= '9'
    decreases n
  {
    if n < 10 then [DigitChar(n)] else NatToString(n / 10) + [DigitChar(n % 10)]
  }

  /** `String(n)` for an integer: a minus sign exactly for a negative
      number, then the digits. */
  function IntToString(n: int): (r: string)
    ensures |r| > 0 && (r[0] == '-' <==> n < 0)
  {
    if n < 0 then "-" + NatToString(-n) else NatToString(n)
  }

  /** The digits of a number read back as the number. */
  lemma {:induction false} NatToStringValue(n: nat)
    ensures DigitsValue(NatToString(n)) == n
    decreases n
  {
    if n >= 10 {
      NatToStringValue(n / 10);
      var r := NatToString(n);
      assert r[..|r| - 1] == NatToString(n / 10);
    }
  }

  /** An integer's string form reads back as the integer: the digits after
      the sign give its magnitude. */
  lemma IntToStringValue(n: int)
    ensures var r := IntToString(n); var digits := if n < 0 then r[1..] else r;
            (forall i :: 0 <= i < |digits| ==> '0' <= digits[i] <= '9')
            && DigitsValue(digits) == if n < 0 then -n else n
  {
    if n < 0 {
      NatToStringValue(-n);
      assert IntToString(n)[1..] == NatToString(-n);
    } else {
      NatToStringValue(n);
    }
  }

  /** `String(v)` for a present value: a string is itself, null, the
      booleans and an object print as their fixed words, an integer as its
      decimal form, and an array is its elements joined by "," with null
      elements rendered as "". */
  function ToStr(v: Json): (r: string)
    ensures v.JStr? ==> r == v.s
    ensures v.JNull? ==> r == "null"
    ensures v.JBool? ==> r == if v.b then "true" else "false"
    ensures v.JNum? ==> r == IntToString(v.n)
    ensures v.JObj? ==> r == "[object Object]"
    ensures v.JArr? && |v.items| == 1 ==> r == if v.items[0].JNull? then "" else ToStr(v.items[0])
    decreases v
  {
    match v
    case JNull => "null"
    case JBool(b) => if b then "true" else "false"
    case JNum(n) => IntToString(n)
    case JStr(s) => s
    case JArr(items) =>
      Join(seq(|items|, i requires 0 <= i < |items| => if items[i].JNull? then "" else ToStr(items[i])), ",")
    case JObj(_) => "[object Object]"
  }

  /** `String(v ?? fallback)` */
  function StrOr(v: Option<Json>, fallback: string): (r: string)
    ensures v.Some? && v.value.JStr? ==> r == v.value.s
    ensures !Nullish(v) ==> r == ToStr(v.value)
    ensures Nullish(v) ==> r == fallback
  {
    if Nullish(v) then fallback else ToStr(v.value)
  }

  /** What `localStorage.getItem` returned for a key, as `JSON.parse` sees it:
      the empty string, text that does not parse, or a parsed value. A
      missing key is `null`. */
  datatype Slot = EmptyText | Corrupt | Parsed(value: Json)

  /** The local storage: keys to what they hold. */
  type Storage = map<string, Slot>

  /** `JSON.parse(localStorage.getItem(key))` with a failed parse read as
      `null`: a missing key reads as `null` too. */
  function SafeParse(st: Storage, key: string): Json
  {
    if key in st && st[key].Parsed? then st[key].value else JNull
  }
}
