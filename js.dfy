/**
  The JavaScript values the store passes around, and the host helpers it applies
  to them: `typeof`, `Ember.typeOf`, `Ember.isNone`, truthiness and `coerceId`.
  Numbers are restricted to the integers a double holds exactly.
*/
module Js {
  import opened Wrappers

  /**
    The safe integers of JavaScript (`Number.isSafeInteger`): every one is a
    double, and `'' + n` spells it in plain decimal.
  */
  type SafeInt = n: int | -0x1F_FFFF_FFFF_FFFF <= n <= 0x1F_FFFF_FFFF_FFFF

  datatype JsValue =
    | Undefined
    | Null
    | Bool(b: bool)
    | Number(n: SafeInt)
    | Str(s: string)
      /** A plain object (a hash); `text` is what `'' + obj` yields. */
    | Obj(ref: nat, text: string)
      /** An array; `text` is what `'' + arr` yields. */
    | Arr(ref: nat, text: string)

  /** `Ember.typeOf`: unlike `typeof`, it tells null and arrays apart from hashes. */
  function EmberTypeOf(v: JsValue): string {
    match v
    case Undefined => "undefined"
    case Null => "null"
    case Bool(_) => "boolean"
    case Number(_) => "number"
    case Str(_) => "string"
    case Obj(_, _) => "object"
    case Arr(_, _) => "array"
  }

  /** The `typeof` operator. */
  function TypeOf(v: JsValue): string {
    match v
    case Undefined => "undefined"
    case Null => "object"
    case Bool(_) => "boolean"
    case Number(_) => "number"
    case Str(_) => "string"
    case Obj(_, _) => "object"
    case Arr(_, _) => "object"
  }

  /** `Ember.isNone`. */
  predicate IsNone(v: JsValue) {
    v == Undefined || v == Null
  }

  /** JavaScript truthiness, as used by `if (x)` and `Ember.assert(msg, x)`. */
  predicate Truthy(v: JsValue) {
    match v
    case Undefined => false
    case Null => false
    case Bool(b) => b
    case Number(n) => n != 0
    case Str(s) => s != ""
    case Obj(_, _) => true
    case Arr(_, _) => true
  }

  predicate IsDigit(ch: char) {
    '0' <= ch <= '9'
  }

  function DigitChar(d: nat): (ch: char)
    requires d < 10
    ensures IsDigit(ch)
  {
    ('0' as int + d) as char
  }

  /** The value of a decimal digit. */
  function DigitValue(ch: char): (d: nat)
    requires IsDigit(ch)
    ensures d < 10 && DigitChar(d) == ch
  {
    ch as int - '0' as int
  }

  /** The number a string of decimal digits denotes, most significant digit first. */
  function DecimalValue(s: string): nat
    requires forall i | 0 <= i < |s| :: IsDigit(s[i])
    decreases |s|
  {
    if s == [] then 0 else DecimalValue(s[..|s| - 1]) * 10 + DigitValue(s[|s| - 1])
  }

  /** A non-empty string of decimal digits with no leading zero (other than "0" itself). */
  predicate IsCanonicalDecimal(s: string) {
    |s| >= 1 && (forall i | 0 <= i < |s| :: IsDigit(s[i])) && (s[0] == '0' ==> |s| == 1)
  }

  /** How JavaScript spells an integer: a canonical decimal, with a minus sign before a non-zero one. */
  predicate IsIntegerSpelling(s: string) {
    IsCanonicalDecimal(s) || (|s| >= 2 && s[0] == '-' && IsCanonicalDecimal(s[1..]) && s[1] != '0')
  }

  /** The integer such a spelling denotes. */
  function SpelledValue(s: string): int
    requires IsIntegerSpelling(s)
  {
    if s[0] == '-' then -(DecimalValue(s[1..]) as int) else DecimalValue(s)
  }

  /** Decimal spelling of a natural number, without leading zeros. */
  function NatToDecimal(n: nat): (s: string)
    ensures IsCanonicalDecimal(s) && DecimalValue(s) == n
    ensures (|s| == 1) == (n < 10)
  {
    if n < 10 then [DigitChar(n)]
    else
      var front := NatToDecimal(n / 10);
      assert (front + [DigitChar(n % 10)])[..|front|] == front;
      front + [DigitChar(n % 10)]
  }

  /** What `'' + n` yields for an integral number. */
  function IntToDecimal(n: int): (s: string)
    ensures IsIntegerSpelling(s) && SpelledValue(s) == n
  {
    if n < 0 then
      var digits := NatToDecimal(-n);
      assert ("-" + digits)[1..] == digits;
      "-" + digits
    else NatToDecimal(n)
  }

  /** What `'' + v` yields. */
  function ToJsString(v: JsValue): (r: string)
    ensures v.Str? ==> r == v.s
    ensures v.Number? ==> IsIntegerSpelling(r) && SpelledValue(r) == v.n
  {
    match v
    case Undefined => "undefined"
    case Null => "null"
    case Bool(b) => if b then "true" else "false"
    case Number(n) => IntToDecimal(n)
    case Str(s) => s
    case Obj(_, text) => text
    case Arr(_, text) => text
  }

  /**
    Ember Data's `coerceId` (`id == null ? null : id + ''`): null and undefined
    become no id, anything else its string form.
  */
  function CoerceId(v: JsValue): (r: Option<string>)
    ensures r.None? <==> IsNone(v)
    ensures v.Str? ==> r == Some(v.s)
  {
    if IsNone(v) then None else Some(ToJsString(v))
  }

  /** A coerced id as the JavaScript value the store hands on: a string or null. */
  function IdValue(id: Option<string>): JsValue {
    if id.Some? then Str(id.value) else Null
  }

  /** Coercing an id that is already coerced changes nothing (createRecord coerces twice). */
  lemma CoerceIdIdempotent(v: JsValue)
    ensures CoerceId(IdValue(CoerceId(v))) == CoerceId(v)
  {
  }

  /** A leading digit other than zero makes the value positive. */
  lemma {:induction false} LeadingDigitPositive(s: string)
    requires |s| >= 1 && (forall i | 0 <= i < |s| :: IsDigit(s[i])) && s[0] != '0'
    ensures DecimalValue(s) >= 1
    decreases |s|
  {
    if |s| > 1 {
      LeadingDigitPositive(s[..|s| - 1]);
    }
  }

  /** Reading a canonical decimal and spelling the value again gives the same string. */
  lemma {:induction false} DecimalRoundTrip(s: string)
    requires IsCanonicalDecimal(s)
    ensures NatToDecimal(DecimalValue(s)) == s
    decreases |s|
  {
    if |s| > 1 {
      var front := s[..|s| - 1];
      LeadingDigitPositive(front);
      DecimalRoundTrip(front);
      assert s == front + [s[|s| - 1]];
    }
  }

  /** The same for a signed spelling: every integer spelling is the one `'' + n` yields. */
  lemma IntegerSpellingRoundTrip(s: string)
    requires IsIntegerSpelling(s)
    ensures IntToDecimal(SpelledValue(s)) == s
  {
    if s[0] == '-' {
      DecimalRoundTrip(s[1..]);
      LeadingDigitPositive(s[1..]);
      assert s == "-" + s[1..];
    } else {
      DecimalRoundTrip(s);
    }
  }

  /** Different numbers coerce to different ids. */
  lemma CoerceIdNumbersInjective(a: SafeInt, b: SafeInt)
    requires CoerceId(Number(a)) == CoerceId(Number(b))
    ensures a == b
  {
    assert SpelledValue(IntToDecimal(a)) == SpelledValue(IntToDecimal(b));
  }

  /** A number and any decimal spelling of it coerce to the same id. */
  lemma CoerceIdNumberAsString(n: SafeInt, s: string)
    requires IsIntegerSpelling(s) && SpelledValue(s) == n
    ensures CoerceId(Number(n)) == CoerceId(Str(s)) == Some(s)
  {
    IntegerSpellingRoundTrip(s);
  }
}
