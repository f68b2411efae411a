/**
  The small part of JavaScript's value semantics that the client's decision
  logic depends on: what a JSON value looks like once parsed, which values are
  truthy (so what `a || b` yields), what reading a property gives, what
  `String(v)` (and so a template literal or `new Error(v)`) produces, and the
  string helpers `trim` and `includes`.
 */
module Js {

  /** A value that may be absent (`null` in the source). */
  datatype Option<+T> = None | Some(value: T)

  /**
    A JavaScript value as `JSON.parse` can produce it, plus `undefined` and
    the built-in methods a property read can reach through a prototype
    (`NativeFunction`, by name). Numbers are integers here: the fractional part
    of a JSON number plays no role in any decision the client makes.
   */
  datatype Value =
    | Undefined
    | Null
    | Bool(b: bool)
    | Num(n: int)
    | Str(s: string)
    | Arr(items: seq<Value>)
    | Obj(props: map<string, Value>)
    | NativeFunction(name: string)

  /** ECMAScript ToBoolean. */
  predicate Truthy(v: Value) {
    match v
    case Undefined => false
    case Null => false
    case Bool(b) => b
    case Num(n) => n != 0
    case Str(s) => s != ""
    case Arr(_) => true
    case Obj(_) => true
    case NativeFunction(_) => true
  }

  /** The value of `a || b`: the left operand when it is truthy, else the right one. */
  function Or(a: Value, b: Value): Value {
    if Truthy(a) then a else b
  }

  /** Reading any property of `null` or `undefined` throws a TypeError. */
  predicate Nullish(v: Value) {
    v.Null? || v.Undefined?
  }

  /**
    `v[key]` for a value that is not nullish: an own property of a parsed
    object, or the one inherited property among the keys the client reads
    (`role`, `fullName`, `name`, `email`, `sub`, `token`, `accessToken`, `jwt`,
    `error`, `message`): every string inherits the legacy HTML method
    `String.prototype.sub` (Annex B of ECMA-262). No other of these keys is an
    inherited property of a string, number, boolean, array or plain object.
    `Prop` is only applied to values `JSON.parse` produces, never to a
    function.
   */
  function Prop(v: Value, key: string): (r: Value)
    requires !Nullish(v)
    ensures r != Undefined ==> (v.Obj? && key in v.props) || (v.Str? && key == StringSubKey)
  {
    if v.Obj? && key in v.props then v.props[key]
    else if v.Str? && key == StringSubKey then NativeFunction(StringSubKey)
    else Undefined
  }

  /** The key of `String.prototype.sub`. */
  const StringSubKey := "sub"

  /** `v` is a parsed object whose own property `key` is present with a truthy value. */
  predicate HasTruthyProp(v: Value, key: string) {
    v.Obj? && key in v.props && Truthy(v.props[key])
  }

  /**
    `String(v)`, ECMAScript ToString (objects are assumed to carry no own
    `toString`). A string is its own text, a number prints in a form that
    reads back as that number, and only the empty string and arrays (whose
    elements all print as "") print as "".
   */
  function ToJsString(v: Value): (r: string)
    ensures v.Str? ==> r == v.s
    ensures v.Num? ==> ParseDecimal(r) == Some(v.n)
    ensures r == "" ==> v == Str("") || v.Arr?
    decreases v, 1
  {
    match v
    case Undefined => "undefined"
    case Null => "null"
    case Bool(b) => if b then "true" else "false"
    case Num(n) => DecimalRoundTrip(n); Decimal(n)
    case Str(s) => s
    case Arr(items) => JoinFrom(v, 0)
    case Obj(_) => "[object Object]"
    case NativeFunction(name) => "function " + name + "() { [native code] }"
  }

  /** `Array.prototype.join(",")` from index `i` on: `null` and `undefined` elements print as "". */
  function JoinFrom(v: Value, i: nat): string
    requires v.Arr? && i <= |v.items|
    decreases v, 0, |v.items| - i
  {
    if i == |v.items| then ""
    else
      var item := v.items[i];
      var text := if Nullish(item) then "" else ToJsString(item);
      if i + 1 == |v.items| then text else text + "," + JoinFrom(v, i + 1)
  }

  // ---------------------------------------------------------------------
  // Integers printed and read back in base 10

  predicate IsDigit(c: char) {
    '0' <= c <= '9'
  }

  function DigitChar(d: nat): (c: char)
    requires d < 10
    ensures IsDigit(c)
  {
    ('0' as int + d) as char
  }

  function DigitValue(c: char): (d: nat)
    requires IsDigit(c)
    ensures d < 10
  {
    c as int - '0' as int
  }

  /** The decimal digits of a natural number, most significant first, no leading zeros. */
  function Digits(n: nat): (s: string)
    ensures |s| > 0
    ensures forall k :: 0 <= k < |s| ==> IsDigit(s[k])
  {
    if n < 10 then [DigitChar(n)] else Digits(n / 10) + [DigitChar(n % 10)]
  }

  /**
    How JavaScript prints an integer-valued number below 10^21 in magnitude:
    an optional minus sign, then its digits. From 10^21 on JavaScript prints
    exponent form ("1e+21"); the model assumes ids and JSON numbers are safe
    integers (below 2^53), far under that bound.
   */
  function Decimal(n: int): string {
    if n < 0 then "-" + Digits(-n) else Digits(n)
  }

  /** Reads a non-empty run of decimal digits. */
  function ParseDigits(s: string): (r: Option<int>)
    ensures r.Some? ==> r.value >= 0
  {
    if s == [] || !IsDigit(s[|s| - 1]) then None
    else if |s| == 1 then Some(DigitValue(s[0]))
    else
      match ParseDigits(s[..|s| - 1])
      case None => None
      case Some(m) => Some(m * 10 + DigitValue(s[|s| - 1]))
  }

  /** Reads what `Decimal` prints: an optional minus sign followed by digits. */
  function ParseDecimal(s: string): Option<int> {
    if |s| > 0 && s[0] == '-' then
      match ParseDigits(s[1..])
      case None => None
      case Some(m) => Some(-m)
    else ParseDigits(s)
  }

  lemma {:induction false} DigitsRoundTrip(n: nat)
    ensures ParseDigits(Digits(n)) == Some(n)
  {
    if n >= 10 {
      DigitsRoundTrip(n / 10);
      var s := Digits(n);
      assert s[..|s| - 1] == Digits(n / 10);
    }
  }

  /** Printing an integer and reading it back gives the integer: the printed form is unambiguous. */
  lemma DecimalRoundTrip(n: int)
    ensures ParseDecimal(Decimal(n)) == Some(n)
  {
    if n < 0 {
      DigitsRoundTrip(-n);
      assert Decimal(n)[1..] == Digits(-n);
    } else {
      DigitsRoundTrip(n);
      assert IsDigit(Digits(n)[0]);
    }
  }

  // ---------------------------------------------------------------------
  // String.prototype.trim and String.prototype.includes

  /** ECMAScript WhiteSpace and LineTerminator code points: what `trim` removes. */
  predicate IsJsSpace(c: char) {
    || c == '\t' || c == '\n' || c == '\U{B}' || c == '\U{C}' || c == '\r' || c == ' '
    || c == '\U{A0}' || c == '\U{1680}' || ('\U{2000}' <= c <= '\U{200A}')
    || c == '\U{2028}' || c == '\U{2029}' || c == '\U{202F}' || c == '\U{205F}'
    || c == '\U{3000}' || c == '\U{FEFF}'
  }

  function LeadingSpaces(s: string): (n: nat)
    ensures n <= |s|
    ensures forall k :: 0 <= k < n ==> IsJsSpace(s[k])
    ensures n < |s| ==> !IsJsSpace(s[n])
  {
    if s == [] || !IsJsSpace(s[0]) then 0 else 1 + LeadingSpaces(s[1..])
  }

  function TrailingSpaces(s: string): (n: nat)
    ensures n <= |s|
    ensures forall k :: |s| - n <= k < |s| ==> IsJsSpace(s[k])
    ensures n < |s| ==> !IsJsSpace(s[|s| - 1 - n])
  {
    if s == [] || !IsJsSpace(s[|s| - 1]) then 0 else 1 + TrailingSpaces(s[..|s| - 1])
  }

  /** `s.trim()`: `s` without its leading and trailing white space. */
  function Trim(s: string): (r: string)
    ensures r == "" <==> forall k :: 0 <= k < |s| ==> IsJsSpace(s[k])
    ensures r != "" ==> !IsJsSpace(r[0]) && !IsJsSpace(r[|r| - 1])
    ensures LeadingSpaces(s) + |r| <= |s| && r == s[LeadingSpaces(s)..LeadingSpaces(s) + |r|]
    ensures forall k :: LeadingSpaces(s) + |r| <= k < |s| ==> IsJsSpace(s[k])
  {
    var rest := s[LeadingSpaces(s)..];
    rest[..|rest| - TrailingSpaces(rest)]
  }

  /** `s.includes(part)`. */
  predicate Includes(s: string, part: string)
    decreases |s|
  {
    if |part| > |s| then false
    else s[..|part|] == part || (s != [] && Includes(s[1..], part))
  }

  /** `part` occurs in `s` starting at index `i`. */
  predicate OccursAt(s: string, part: string, i: int) {
    0 <= i && i + |part| <= |s| && s[i..i + |part|] == part
  }

  /** `includes` holds exactly when `part` occurs as a contiguous slice of `s`. */
  lemma {:induction false} IncludesIffSlice(s: string, part: string)
    ensures Includes(s, part) <==> exists i :: OccursAt(s, part, i)
    decreases |s|
  {
    if |part| <= |s| && s != [] {
      IncludesIffSlice(s[1..], part);
      if s[..|part|] == part {
        assert OccursAt(s, part, 0);
      }
      if Includes(s[1..], part) {
        var i :| OccursAt(s[1..], part, i);
        assert OccursAt(s, part, i + 1) by {
          assert s[i + 1..i + 1 + |part|] == s[1..][i..i + |part|];
        }
      }
      if exists i :: OccursAt(s, part, i) {
        var i :| OccursAt(s, part, i);
        if i > 0 {
          assert OccursAt(s[1..], part, i - 1) by {
            assert s[1..][i - 1..i - 1 + |part|] == s[i..i + |part|];
          }
        }
      }
    } else if |part| <= |s| {
      assert OccursAt(s, part, 0);
    }
  }
}
