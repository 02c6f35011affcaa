/**
  The JavaScript values the RPC client handles: call arguments, parsed response
  fields and error objects. Only the parts of the language the client relies on
  are modelled: the string conversion behind `toString()`, truthiness, and
  `toLowerCase()` on the ASCII range.
*/
module JsValues {

  /** Largest integer a JavaScript number holds exactly (2^53 - 1). */
  const MaxSafeInteger: int := 0x1F_FFFF_FFFF_FFFF

  type SafeInteger = i: int | -MaxSafeInteger <= i <= MaxSafeInteger

  /** The characters JavaScript uses to display a number: digits, point, signs, exponent, Infinity. */
  const NumberChars: string := "0123456789.+-eInfinity"

  /**
    Text that JavaScript may display for a number that is neither NaN nor a
    safe integer: built from the number characters, and never the text of a
    safe integer (those are `Int`).
  */
  ghost predicate IsOtherNumberText(s: string) {
    && |s| > 0
    && (forall k | 0 <= k < |s| :: s[k] in NumberChars)
    && (forall i: SafeInteger :: IntToDecimal(i) != s)
  }

  type OtherNumberText = s: string | IsOtherNumberText(s) witness "Infinity"

  /**
    A JavaScript number. Safe integers are kept exactly; NaN is kept because it
    is falsy; every other number (fractions, infinities, huge magnitudes)
    carries the text JavaScript displays for it, since floating-point
    formatting is not part of this model.
  */
  datatype Number =
    | Int(i: SafeInteger)
    | NaN
    | Other(display: OtherNumberText)

  /** A JavaScript value. `Obj` stands for any plain (non-array) object. */
  datatype Value =
    | Undefined
    | Null
    | Bool(b: bool)
    | Num(n: Number)
    | Str(s: string)
    | Arr(items: seq<Value>)
    | Obj(fields: map<string, Value>)

  /** The exceptions the modelled code can throw. */
  datatype Exception =
    | NullishReceiver        // a TypeError: `toString()` called on undefined or null
    | NotAFunction(name: string)  // a TypeError: the client has no method of that name
    | JsonSyntax(message: string) // a SyntaxError from `JSON.parse`

  predicate IsNullish(v: Value) {
    v.Undefined? || v.Null?
  }

  /**
    JavaScript truthiness, as used by `if (x)` and `x ? a : b`: the falsy
    values are exactly undefined, null, false, 0, NaN and the empty string.
  */
  predicate Truthy(v: Value)
    ensures !Truthy(v) <==>
              v == Undefined || v == Null || v == Bool(false) || v == Num(Int(0)) || v == Num(NaN) || v == Str("")
  {
    match v
    case Undefined => false
    case Null => false
    case Bool(b) => b
    case Num(n) => (n.Int? && n.i != 0) || n.Other?
    case Str(s) => s != ""
    case Arr(_) => true
    case Obj(_) => true
  }

  function DigitChar(d: nat): (c: char)
    requires d < 10
    ensures '0' <= c <= '9'
  {
    "0123456789"[d]
  }

  /** Decimal digits of a natural number, most significant first, no leading zeros. */
  function NatDigits(n: nat): (s: string)
    ensures |s| > 0
    ensures forall k | 0 <= k < |s| :: '0' <= s[k] <= '9'
    ensures |s| > 1 ==> s[0] != '0'
  {
    if n < 10 then [DigitChar(n)] else NatDigits(n / 10) + [DigitChar(n % 10)]
  }

  /** Decimal text of an integer with a leading '-' when negative. */
  function IntToDecimal(i: int): (s: string)
    ensures |s| > 0
    ensures s[0] == '-' || '0' <= s[0] <= '9'
    ensures forall k | 0 <= k < |s| :: '0' <= s[k] <= '9' || (k == 0 && s[k] == '-' && i < 0)
  {
    if i < 0 then "-" + NatDigits(-i) else NatDigits(i)
  }

  function NumberToString(n: Number): string {
    match n
    case Int(i) => IntToDecimal(i)
    case NaN => "NaN"
    case Other(d) => d
  }

  /**
    The abstract ToString operation (section 7.1.17 of ECMA-262): what
    `String(v)` and, for non-nullish values, `v.toString()` return. Arrays join
    their elements with ',' and show `undefined`/`null` elements as empty text;
    a plain object shows as "[object Object]".
  */
  function JsString(v: Value): (r: string)
    ensures v.Str? ==> r == v.s
    ensures v.Bool? ==> (r == "true" <==> v.b)
    ensures v.Num? ==> Lower(r) != "true"
    ensures v.Arr? && |v.items| == 1 && !IsNullish(v.items[0]) ==> r == JsString(v.items[0])
  {
    match v
    case Undefined => "undefined"
    case Null => "null"
    case Bool(b) => if b then "true" else "false"
    case Num(n) => NumberTextNotTrue(n); NumberToString(n)
    case Str(s) => s
    case Arr(items) => JoinElements(items)
    case Obj(_) => "[object Object]"
  }

  /** Joining the elements with ',' as arrays do; undefined and null elements show as empty text. */
  function JoinElements(items: seq<Value>): string {
    if |items| == 0 then ""
    else
      var first := if IsNullish(items[0]) then "" else JsString(items[0]);
      if |items| == 1 then first else first + "," + JoinElements(items[1..])
  }

  /** Joining splits at any point: the two halves' texts are separated by one comma. */
  lemma {:induction false} JoinElementsAppend(a: seq<Value>, b: seq<Value>)
    requires |a| > 0 && |b| > 0
    ensures JoinElements(a + b) == JoinElements(a) + "," + JoinElements(b)
  {
    var ab := a + b;
    assert ab[0] == a[0];
    if |a| == 1 {
      assert ab[1..] == b;
      assert JoinElements(a) == (if IsNullish(a[0]) then "" else JsString(a[0]));
    } else {
      JoinElementsAppend(a[1..], b);
      assert ab[1..] == a[1..] + b;
    }
  }

  function LowerChar(c: char): char {
    if 'A' <= c <= 'Z' then (c as int + 32) as char else c
  }

  /**
    `String.prototype.toLowerCase` on the ASCII letters. Every other character
    is kept; no character outside A-Z lower-cases into 't', 'r', 'u' or 'e', so
    comparing the result with "true" is exact.
  */
  function Lower(s: string): (r: string)
    ensures |r| == |s|
    ensures forall k | 0 <= k < |s| :: r[k] == LowerChar(s[k])
  {
    seq(|s|, k requires 0 <= k < |s| => LowerChar(s[k]))
  }

  lemma LowerIdempotent(s: string)
    ensures Lower(Lower(s)) == Lower(s)
  {
  }

  /** A number's text never lower-cases to "true": it is digits and a sign. */
  lemma IntTextNotTrue(i: int)
    ensures Lower(IntToDecimal(i)) != "true"
  {
    var s := IntToDecimal(i);
    assert Lower(s)[0] == LowerChar(s[0]) != 't';
  }

  /** No number's text lower-cases to "true". */
  lemma NumberTextNotTrue(n: Number)
    ensures Lower(NumberToString(n)) != "true"
  {
    match n
    case Int(i) => IntTextNotTrue(i);
    case NaN =>
    case Other(d) =>
      if |d| == 4 {
        NumberCharNotR(d[1]);
        assert Lower(d)[1] == LowerChar(d[1]);
      }
  }

  lemma NumberCharNotR(c: char)
    requires c in NumberChars
    ensures LowerChar(c) != 'r'
  {
  }

  lemma {:induction false} NatDigitsInjective(a: nat, b: nat)
    requires NatDigits(a) == NatDigits(b)
    ensures a == b
  {
    if a >= 10 && b >= 10 {
      var sa, sb := NatDigits(a / 10), NatDigits(b / 10);
      assert NatDigits(a) == sa + [DigitChar(a % 10)];
      assert NatDigits(b) == sb + [DigitChar(b % 10)];
      assert sa == NatDigits(a)[..|sa|];
      assert sb == NatDigits(b)[..|sb|];
      DigitCharInjective(a % 10, b % 10);
      NatDigitsInjective(a / 10, b / 10);
    } else if a < 10 && b < 10 {
      DigitCharInjective(a, b);
    }
  }

  lemma DigitCharInjective(a: nat, b: nat)
    requires a < 10 && b < 10 && DigitChar(a) == DigitChar(b)
    ensures a == b
  {
  }

  /** Distinct integers, and so distinct HTTP status codes, have distinct decimal texts. */
  lemma IntToDecimalInjective(a: int, b: int)
    requires IntToDecimal(a) == IntToDecimal(b)
    ensures a == b
  {
    var sa, sb := IntToDecimal(a), IntToDecimal(b);
    if a < 0 && b < 0 {
      assert NatDigits(-a) == sa[1..] && NatDigits(-b) == sb[1..];
      NatDigitsInjective(-a, -b);
    } else if a >= 0 && b >= 0 {
      NatDigitsInjective(a, b);
    }
  }
}
