/**
 * The slice of JavaScript value semantics the upload actions depend on:
 * values produced by `Response.json()`, property reads (which throw on
 * `null`), truthiness, the `||` operator, template-literal conversion and
 * `JSON.stringify`.
 */
module Js {
  import opened Wrappers

  /** The integers a JavaScript number represents exactly. */
  type SafeInt = n: int | -0x1F_FFFF_FFFF_FFFF <= n <= 0x1F_FFFF_FFFF_FFFF

  /**
   * A JavaScript value built from JSON; an object's members are listed in
   * the object's property order.
   */
  datatype Value =
    | Null
    | Bool(b: bool)
    | Num(n: SafeInt)
    | Str(s: string)
    | Arr(items: seq<Value>)
    | Obj(members: seq<Member>)

  datatype Member = Member(key: string, value: Value)

  /** No two members of the object share a key. */
  predicate DistinctKeys(members: seq<Member>)
  {
    forall i, j :: 0 <= i < j < |members| ==> members[i].key != members[j].key
  }

  /** Every object inside `v` has distinct keys, as every object `JSON.parse` builds has. */
  predicate WellFormed(v: Value)
  {
    match v
    case Arr(items) => forall i :: 0 <= i < |items| ==> WellFormed(items[i])
    case Obj(members) =>
      DistinctKeys(members) && forall i :: 0 <= i < |members| ==> WellFormed(members[i].value)
    case _ => true
  }

  /** What `JSON.parse` can return: when the text repeats a key, the object keeps one member for it. */
  type Json = v: Value | WellFormed(v) witness Null

  /** The result of reading a property: `undefined` or a value. */
  datatype Prop = Undefined | Defined(value: Value)

  /** The property names the actions read from response bodies. */
  datatype Field = AuthToken | UploadUrl | FileId | Id | Message

  function FieldName(f: Field): string
  {
    match f
    case AuthToken => "authToken"
    case UploadUrl => "uploadUrl"
    case FileId => "fileId"
    case Id => "id"
    case Message => "message"
  }

  /** Reading `v.f` either yields a property or throws a TypeError. */
  datatype Read = Got(prop: Prop) | TypeError(message: string)

  /** The own member named `key`. */
  function Lookup(members: seq<Member>, key: string): (p: Prop)
    ensures p.Defined? <==> exists i :: 0 <= i < |members| && members[i].key == key
    ensures p.Defined? ==> exists i :: 0 <= i < |members| && members[i].key == key && members[i].value == p.value
    ensures DistinctKeys(members) ==>
      forall i :: 0 <= i < |members| && members[i].key == key ==> p == Defined(members[i].value)
  {
    if members == [] then Undefined
    else if members[0].key == key then Defined(members[0].value)
    else
      var rest := Lookup(members[1..], key);
      assert forall i :: 1 <= i < |members| ==> members[i] == members[1..][i - 1];
      rest
  }

  /**
   * `v.f` for a parsed JSON value. Only `null` throws (a parsed body is
   * never `undefined`); the message is V8's. None of the field names is a
   * property of strings, numbers, booleans or arrays.
   */
  function GetProp(v: Value, f: Field): (r: Read)
    ensures r.TypeError? <==> v.Null?
    ensures r.TypeError? ==> r.message == "Cannot read properties of null (reading '" + FieldName(f) + "')"
    ensures r.Got? && r.prop.Defined? ==> v.Obj?
  {
    match v
    case Null => TypeError("Cannot read properties of null (reading '" + FieldName(f) + "')")
    case Obj(members) => Got(Lookup(members, FieldName(f)))
    case _ => Got(Undefined)
  }

  /** JavaScript truthiness: `undefined`, `null`, `false`, `0` and `""` are falsy. */
  predicate Truthy(p: Prop)
  {
    match p
    case Undefined => false
    case Defined(v) =>
      match v
      case Null => false
      case Bool(b) => b
      case Num(n) => n != 0
      case Str(s) => s != ""
      case _ => true
  }

  /** `a || b`: the left operand when it is truthy, the right one otherwise. */
  function Or(a: Prop, b: Prop): (r: Prop)
    ensures Truthy(a) ==> r == a
    ensures !Truthy(a) ==> r == b
    ensures Truthy(r) <==> Truthy(a) || Truthy(b)
  {
    if Truthy(a) then a else b
  }

  function Digit(d: nat): char
    requires d < 10
  {
    "0123456789"[d]
  }

  /** Decimal notation of a natural number, as `String(n)` writes it. */
  function NatToString(n: nat): (s: string)
    decreases n
  {
    if n < 10 then [Digit(n)] else NatToString(n / 10) + [Digit(n % 10)]
  }

  predicate IsDigit(c: char)
  {
    '0' <= c <= '9'
  }

  /** Reads a string of decimal digits back as a number. */
  function ParseDigits(s: string): (n: nat)
    requires forall i :: 0 <= i < |s| ==> IsDigit(s[i])
  {
    if s == [] then 0
    else
      var last := s[|s| - 1];
      assert IsDigit(last);
      10 * ParseDigits(s[..|s| - 1]) + (last as int - '0' as int)
  }

  /**
   * Decimal notation is non-empty, made of digits, has no leading zero, and
   * reads back as the number.
   */
  lemma {:induction false} NatToStringRoundTrip(n: nat)
    ensures |NatToString(n)| > 0
    ensures forall i :: 0 <= i < |NatToString(n)| ==> IsDigit(NatToString(n)[i])
    ensures NatToString(n)[0] == '0' <==> n == 0
    ensures ParseDigits(NatToString(n)) == n
    decreases n
  {
    if n >= 10 {
      NatToStringRoundTrip(n / 10);
      var s := NatToString(n);
      assert s[..|s| - 1] == NatToString(n / 10);
      assert s[0] == NatToString(n / 10)[0];
    }
  }

  function IntToString(n: int): string
  {
    if n < 0 then "-" + NatToString(-n) else NatToString(n)
  }

  /** V8's message when an object has no callable `toString` or `valueOf` giving a primitive. */
  const CannotConvert := "Cannot convert object to primitive value"

  /**
   * Converting `v` to a string throws: an object with an own `toString`
   * member (a parsed value is never callable, and the inherited `valueOf`
   * returns the object itself), or an array holding such a value, since
   * `join` converts every element.
   */
  predicate HasOwnToString(v: Value)
  {
    match v
    case Obj(members) => exists i :: 0 <= i < |members| && members[i].key == "toString"
    case Arr(items) => exists i :: 0 <= i < |items| && HasOwnToString(items[i])
    case _ => false
  }

  predicate ConversionThrows(p: Prop)
  {
    p.Defined? && HasOwnToString(p.value)
  }

  /** `String(p)`, as a template literal `${p}` converts it, or the TypeError message it throws. */
  function ToString(p: Prop): (r: Result<string, string>)
    ensures r.Err? <==> ConversionThrows(p)
    ensures r.Err? ==> r.error == CannotConvert
    ensures p.Undefined? ==> r == Ok("undefined")
    ensures p == Defined(Null) ==> r == Ok("null")
    ensures p.Defined? && p.value.Str? ==> r == Ok(p.value.s)
    ensures p.Defined? && p.value.Num? ==> r == Ok(IntToString(p.value.n))
    ensures p.Defined? && p.value.Obj? && !HasOwnToString(p.value) ==> r == Ok("[object Object]")
  {
    match p
    case Undefined => Ok("undefined")
    case Defined(v) => if HasOwnToString(v) then Err(CannotConvert) else Ok(ValueToString(v))
  }

  function ValueToString(v: Value): string
    requires !HasOwnToString(v)
  {
    match v
    case Null => "null"
    case Bool(b) => if b then "true" else "false"
    case Num(n) => IntToString(n)
    case Str(s) => s
    case Arr(items) =>
      // Array.prototype.join(","): null and undefined elements become ""
      Join(seq(|items|, i requires 0 <= i < |items| =>
        if items[i].Null? then "" else ValueToString(items[i])), ",")
    case Obj(_) => "[object Object]"
  }

  function Join(parts: seq<string>, sep: string): string
  {
    if parts == [] then ""
    else if |parts| == 1 then parts[0]
    else parts[0] + sep + Join(parts[1..], sep)
  }

  function Hex(d: nat): char
    requires d < 16
  {
    "0123456789abcdef"[d]
  }

  /** One character as it appears inside a JSON string literal. */
  function EscapeChar(c: char): string
  {
    if c == '"' then "\\\""
    else if c == '\\' then "\\\\"
    else if c == '\n' then "\\n"
    else if c == '\r' then "\\r"
    else if c == '\t' then "\\t"
    else if c as int == 0x08 then "\\b"
    else if c as int == 0x0C then "\\f"
    else if c as int < 0x20 then "\\u00" + [Hex(c as int / 16), Hex(c as int % 16)]
    else [c]
  }

  function Escape(s: string): string
  {
    if s == [] then "" else EscapeChar(s[0]) + Escape(s[1..])
  }

  /** Characters JSON writes as themselves: neither a control character, `"` nor `\`. */
  predicate Plain(c: char)
  {
    c as int >= 0x20 && c != '"' && c != '\\'
  }

  /** Escaping leaves text made of plain characters unchanged. */
  lemma {:induction false} EscapeKeepsPlainText(s: string)
    requires forall i :: 0 <= i < |s| ==> Plain(s[i])
    ensures Escape(s) == s
  {
    if s != [] {
      EscapeKeepsPlainText(s[1..]);
      assert EscapeChar(s[0]) == [s[0]];
    }
  }

  /** An escaped string contains no control character. */
  lemma {:induction false} EscapeHasNoControlCharacters(s: string)
    ensures forall i :: 0 <= i < |Escape(s)| ==> Escape(s)[i] as int >= 0x20
  {
    if s != [] {
      EscapeHasNoControlCharacters(s[1..]);
      var head, tail := EscapeChar(s[0]), Escape(s[1..]);
      assert forall i :: 0 <= i < |head| ==> head[i] as int >= 0x20;
      assert Escape(s) == head + tail;
      forall i | 0 <= i < |Escape(s)|
        ensures Escape(s)[i] as int >= 0x20
      {
        if i >= |head| {
          assert Escape(s)[i] == tail[i - |head|];
        }
      }
    }
  }

  function Quote(s: string): string
  {
    "\"" + Escape(s) + "\""
  }

  /** `JSON.stringify(v)` for a parsed value (no indentation). */
  function Stringify(v: Value): (r: string)
    ensures |r| >= 2 || v.Num?
    ensures v.Str? ==> r == "\"" + Escape(v.s) + "\""
    ensures v.Arr? ==> r[0] == '[' && r[|r| - 1] == ']'
    ensures v.Obj? ==> r[0] == '{' && r[|r| - 1] == '}'
  {
    match v
    case Null => "null"
    case Bool(b) => if b then "true" else "false"
    case Num(n) => IntToString(n)
    case Str(s) => Quote(s)
    case Arr(items) =>
      "[" + Join(seq(|items|, i requires 0 <= i < |items| => Stringify(items[i])), ",") + "]"
    case Obj(members) =>
      "{" + Join(seq(|members|, i requires 0 <= i < |members| =>
        Quote(members[i].key) + ":" + Stringify(members[i].value)), ",") + "}"
  }
}
