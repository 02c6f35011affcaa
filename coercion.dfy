/**
  The `types` coercers of the method generator: one per type tag, applied to
  a call argument before it is sent. The number and JSON parsers they call are
  library code and are passed in as `Natives`.
*/
module Coercion {
  import opened Wrappers
  import opened JsValues

  /** The five coercers `str`, `int`, `float`, `bool` and `obj`. */
  datatype Tag = StrTag | IntTag | FloatTag | BoolTag | ObjTag

  /**
    The library functions the coercers rely on: `Number.parseFloat` on the
    text of its argument, and `JSON.parse`, which either yields a value or
    throws a SyntaxError with the given message.
  */
  datatype Natives = Natives(parseFloat: string -> Number, jsonParse: string -> Result<Value, string>)

  /** The key under which a coercer stands in the `types` table. */
  function TagName(t: Tag): string {
    match t
    case StrTag => "str"
    case IntTag => "int"
    case FloatTag => "float"
    case BoolTag => "bool"
    case ObjTag => "obj"
  }

  /**
    The coercer a token of a method's tag string selects: the one of that name,
    and `str` for every other token, including the empty token and "string".
  */
  function TagOf(token: string): (t: Tag)
    ensures (exists u :: TagName(u) == token) ==> TagName(t) == token
    ensures (forall u :: TagName(u) != token) ==> t == StrTag
  {
    if token == "int" then IntTag
    else if token == "float" then FloatTag
    else if token == "bool" then BoolTag
    else if token == "obj" then ObjTag
    else StrTag
  }

  lemma TagNameRoundTrip(t: Tag)
    ensures TagOf(TagName(t)) == t
  {
  }

  lemma UnknownTokensAreStr()
    ensures TagOf("") == StrTag && TagOf("string") == StrTag
  {
  }

  /** The argument's own string conversion; undefined and null have none and throw. */
  function CoerceStr(v: Value): (r: Result<Value, Exception>)
    ensures r.Err? <==> IsNullish(v)
    ensures r.Err? ==> r.error == NullishReceiver
    ensures r.Ok? ==> r.value.Str? && r.value.s == JsString(v)
  {
    if IsNullish(v) then Err(NullishReceiver) else Ok(Str(JsString(v)))
  }

  /** The three values the coercer's literal list of true inputs contains: true, 1 and "1". */
  predicate IsTrueLiteral(v: Value) {
    v == Bool(true) || v == Num(Int(1)) || v == Str("1")
  }

  /**
    True for the three true literals, and otherwise exactly when the argument's
    string form, lower-cased, is "true". The string conversion is reached, and
    throws, for undefined and null.
  */
  function CoerceBool(v: Value): (r: Result<Value, Exception>)
    ensures r.Err? <==> IsNullish(v)
    ensures r.Err? ==> r.error == NullishReceiver
    ensures r.Ok? ==> r.value.Bool?
    ensures r.Ok? ==> (r.value.b <==> IsTrueLiteral(v) || Lower(JsString(v)) == "true")
  {
    if IsTrueLiteral(v) then Ok(Bool(true))
    else if IsNullish(v) then Err(NullishReceiver)
    else Ok(Bool(Lower(JsString(v)) == "true"))
  }

  /** A string argument is parsed as JSON; any other argument passes unchanged. */
  function CoerceObj(v: Value, natives: Natives): (r: Result<Value, Exception>)
    ensures !v.Str? ==> r == Ok(v)
    ensures v.Str? && natives.jsonParse(v.s).Ok? ==> r == Ok(natives.jsonParse(v.s).value)
    ensures v.Str? && natives.jsonParse(v.s).Err? ==> r == Err(JsonSyntax(natives.jsonParse(v.s).error))
  {
    if v.Str? then
      match natives.jsonParse(v.s)
      case Ok(parsed) => Ok(parsed)
      case Err(message) => Err(JsonSyntax(message))
    else Ok(v)
  }

  /**
    Applies the coercer a tag names; `int` and `float` are both `Number.parseFloat`.
    Only `str` and `bool` can throw for a nullish argument, and only `obj` for a
    string; each coercer yields its own kind of value.
  */
  function Apply(t: Tag, v: Value, natives: Natives): (r: Result<Value, Exception>)
    ensures r.Err? <==>
              ((t == StrTag || t == BoolTag) && IsNullish(v)) ||
              (t == ObjTag && v.Str? && natives.jsonParse(v.s).Err?)
    ensures r.Ok? && t == StrTag ==> r.value.Str?
    ensures r.Ok? && (t == IntTag || t == FloatTag) ==> r.value.Num?
    ensures r.Ok? && t == BoolTag ==> r.value.Bool?
  {
    match t
    case StrTag => CoerceStr(v)
    case IntTag => Ok(Num(natives.parseFloat(JsString(v))))
    case FloatTag => Ok(Num(natives.parseFloat(JsString(v))))
    case BoolTag => CoerceBool(v)
    case ObjTag => CoerceObj(v, natives)
  }

  lemma IntAndFloatAgree(v: Value, natives: Natives)
    ensures Apply(IntTag, v, natives) == Apply(FloatTag, v, natives)
    ensures Apply(IntTag, v, natives) == Ok(Num(natives.parseFloat(JsString(v))))
  {
  }

  /** Coercing with `str` or `bool` a second time changes nothing. */
  lemma CoercionIdempotent(t: Tag, v: Value, natives: Natives)
    requires t == StrTag || t == BoolTag
    requires Apply(t, v, natives).Ok?
    ensures Apply(t, Apply(t, v, natives).value, natives) == Apply(t, v, natives)
  {
  }

  /** A string argument passes `str` unchanged. */
  lemma StrKeepsStrings(s: string, natives: Natives)
    ensures Apply(StrTag, Str(s), natives) == Ok(Str(s))
  {
  }

  /** `bool` maps a number to true exactly when it is 1. */
  lemma BoolOfNumber(n: Number, natives: Natives)
    ensures Apply(BoolTag, Num(n), natives) == Ok(Bool(n == Int(1)))
  {
    NumberTextNotTrue(n);
  }

  lemma BoolOfTrueInputs(natives: Natives)
    ensures Apply(BoolTag, Bool(true), natives) == Ok(Bool(true))
    ensures Apply(BoolTag, Num(Int(1)), natives) == Ok(Bool(true))
    ensures Apply(BoolTag, Str("1"), natives) == Ok(Bool(true))
    ensures Apply(BoolTag, Str("true"), natives) == Ok(Bool(true))
    ensures Apply(BoolTag, Str("TRUE"), natives) == Ok(Bool(true))
    ensures Apply(BoolTag, Str("True"), natives) == Ok(Bool(true))
  {
  }

  lemma BoolOfFalseInputs(natives: Natives)
    ensures Apply(BoolTag, Bool(false), natives) == Ok(Bool(false))
    ensures Apply(BoolTag, Num(Int(0)), natives) == Ok(Bool(false))
    ensures Apply(BoolTag, Str("0"), natives) == Ok(Bool(false))
    ensures Apply(BoolTag, Str("false"), natives) == Ok(Bool(false))
    ensures Apply(BoolTag, Str(""), natives) == Ok(Bool(false))
  {
    BoolOfNumber(Int(0), natives);
  }

  /** Undefined and null make `bool` and `str` throw rather than yield false or text. */
  lemma NullishArgumentsThrow(v: Value, natives: Natives)
    requires IsNullish(v)
    ensures Apply(BoolTag, v, natives) == Err(NullishReceiver)
    ensures Apply(StrTag, v, natives) == Err(NullishReceiver)
  {
  }

  /** `bool` reads an array through its joined text: ['TRUE'] is true, [1] is false. */
  lemma BoolOfArrays(natives: Natives)
    ensures Apply(BoolTag, Arr([Str("TRUE")]), natives) == Ok(Bool(true))
    ensures Apply(BoolTag, Arr([Bool(true)]), natives) == Ok(Bool(true))
    ensures Apply(BoolTag, Arr([Num(Int(1))]), natives) == Ok(Bool(false))
  {
    IntTextNotTrue(1);
  }

  /** `str` on structured arguments yields their joined text, not JSON. */
  lemma StrOfStructured(natives: Natives)
    ensures Apply(StrTag, Arr([Obj(map[]), Null, Str("a")]), natives) == Ok(Str("[object Object],,a"))
    ensures Apply(StrTag, Obj(map["k" := Str("v")]), natives) == Ok(Str("[object Object]"))
  {
    var items := [Obj(map[]), Null, Str("a")];
    assert items[1..] == [Null, Str("a")] && items[1..][1..] == [Str("a")];
    assert JoinElements([Str("a")]) == "a";
    assert JoinElements([Null, Str("a")]) == ",a";
    assert JoinElements(items) == "[object Object]" + "," + ",a";
    assert "[object Object]" + "," + ",a" == "[object Object],,a";
  }
}
