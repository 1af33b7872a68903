/**
 * The JavaScript values the cache handles: request bodies and query
 * parameters, response payloads, and the entries it reads back out of Web
 * Storage. Numbers are integers in this model.
 */
module JsValue {
  import opened Wrappers

  datatype Value =
    | Undefined
    | Null
    | Bool(b: bool)
    | Num(n: int)
    | Str(s: string)
    | Arr(items: seq<Value>)
    | Obj(members: seq<Member>)

  /** One own enumerable property of an object, in property order. */
  datatype Member = Member(name: string, value: Value)

  /** JavaScript truthiness, as `if (v)`, `v ? a : b` and `v || w` use it. */
  predicate Truthy(v: Value) {
    match v
    case Undefined => false
    case Null => false
    case Bool(b) => b
    case Num(n) => n != 0
    case Str(s) => s != ""
    case Arr(_) => true
    case Obj(_) => true
  }

  // ---------------------------------------------------------------------
  // Text of a value
  // ---------------------------------------------------------------------

  function DigitChar(d: nat): char
    requires d < 10
  {
    "0123456789"[d]
  }

  function HexChar(d: nat): char
    requires d < 16
  {
    "0123456789abcdef"[d]
  }

  /** Decimal digits of a natural number, most significant first. */
  function NatText(n: nat): (t: string)
    ensures |t| > 0
    ensures forall i :: 0 <= i < |t| ==> '0' <= t[i] <= '9'
  {
    if n < 10 then [DigitChar(n)] else NatText(n / 10) + [DigitChar(n % 10)]
  }

  function IntText(n: int): string {
    if n < 0 then "-" + NatText(-n) else NatText(n)
  }

  /** `parts.join(",")`. */
  function Join(parts: seq<string>): string {
    if |parts| == 0 then ""
    else if |parts| == 1 then parts[0]
    else parts[0] + "," + Join(parts[1..])
  }

  /**
   * String(v), which is also what a template literal `${v}` inserts: an
   * array joins its elements with commas (undefined and null elements as
   * the empty string) and every object reads "[object Object]".
   */
  function ToText(v: Value): string {
    match v
    case Undefined => "undefined"
    case Null => "null"
    case Bool(b) => if b then "true" else "false"
    case Num(n) => IntText(n)
    case Str(s) => s
    case Arr(items) => Join(ElementTexts(items))
    case Obj(_) => "[object Object]"
  }

  function ElementTexts(items: seq<Value>): seq<string> {
    if items == [] then []
    else
      var first := if items[0].Undefined? || items[0].Null? then "" else ToText(items[0]);
      [first] + ElementTexts(items[1..])
  }

  /** JSON string literal: quotes around the escaped characters. */
  function Quote(s: string): string {
    "\"" + Escape(s) + "\""
  }

  function Escape(s: string): string {
    if s == [] then "" else EscapeChar(s[0]) + Escape(s[1..])
  }

  function EscapeChar(c: char): string {
    if c == '"' then "\\\""
    else if c == '\\' then "\\\\"
    else if c == '\n' then "\\n"
    else if c == '\r' then "\\r"
    else if c == '\t' then "\\t"
    else if c as int == 8 then "\\b"
    else if c as int == 12 then "\\f"
    else if c as int < 0x20 then "\\u00" + [HexChar(c as int / 16), HexChar(c as int % 16)]
    else [c]
  }

  /**
   * The text `${JSON.stringify(v)}` produces. JSON.stringify(undefined) is
   * undefined itself, which a template literal prints as "undefined"; inside
   * an array an undefined element becomes null, and inside an object an
   * undefined member is skipped.
   */
  function Stringify(v: Value): string {
    match v
    case Undefined => "undefined"
    case Null => "null"
    case Bool(b) => if b then "true" else "false"
    case Num(n) => IntText(n)
    case Str(s) => Quote(s)
    case Arr(items) => "[" + Join(ElementJson(items)) + "]"
    case Obj(members) => "{" + Join(MemberJson(members)) + "}"
  }

  function ElementJson(items: seq<Value>): seq<string> {
    if items == [] then []
    else [if items[0].Undefined? then "null" else Stringify(items[0])] + ElementJson(items[1..])
  }

  function MemberJson(members: seq<Member>): seq<string> {
    if members == [] then []
    else if members[0].value.Undefined? then MemberJson(members[1..])
    else [Quote(members[0].name) + ":" + Stringify(members[0].value)] + MemberJson(members[1..])
  }

  // ---------------------------------------------------------------------
  // What a JSON round trip keeps
  // ---------------------------------------------------------------------

  /** A value that JSON can carry exactly: no undefined anywhere in it. */
  predicate IsJson(v: Value) {
    match v
    case Undefined => false
    case Arr(items) => AllJson(items)
    case Obj(members) => AllJsonMembers(members)
    case _ => true
  }

  predicate AllJson(items: seq<Value>) {
    items == [] || (IsJson(items[0]) && AllJson(items[1..]))
  }

  predicate AllJsonMembers(members: seq<Member>) {
    members == [] || (IsJson(members[0].value) && AllJsonMembers(members[1..]))
  }

  /**
   * JSON.parse(JSON.stringify(v)) for a v that is not undefined: undefined
   * members of objects disappear and undefined elements of arrays come back
   * as null; everything else is rebuilt as it was.
   */
  function Normalize(v: Value): Value {
    match v
    case Arr(items) => Arr(NormalizeElements(items))
    case Obj(members) => Obj(NormalizeMembers(members))
    case _ => v
  }

  function NormalizeElements(items: seq<Value>): seq<Value> {
    if items == [] then []
    else [if items[0].Undefined? then Null else Normalize(items[0])] + NormalizeElements(items[1..])
  }

  function NormalizeMembers(members: seq<Member>): seq<Member> {
    if members == [] then []
    else if members[0].value.Undefined? then NormalizeMembers(members[1..])
    else [Member(members[0].name, Normalize(members[0].value))] + NormalizeMembers(members[1..])
  }

  /** The round trip produces a value JSON carries exactly. */
  lemma {:induction false} NormalizeIsJson(v: Value)
    requires !v.Undefined?
    ensures IsJson(Normalize(v))
  {
    match v
    case Arr(items) => NormalizeElementsAreJson(items);
    case Obj(members) => NormalizeMembersAreJson(members);
    case _ =>
  }

  lemma {:induction false} NormalizeElementsAreJson(items: seq<Value>)
    ensures AllJson(NormalizeElements(items))
  {
    if items != [] {
      if !items[0].Undefined? { NormalizeIsJson(items[0]); }
      NormalizeElementsAreJson(items[1..]);
    }
  }

  lemma {:induction false} NormalizeMembersAreJson(members: seq<Member>)
    ensures AllJsonMembers(NormalizeMembers(members))
  {
    if members != [] {
      if !members[0].value.Undefined? { NormalizeIsJson(members[0].value); }
      NormalizeMembersAreJson(members[1..]);
    }
  }

  /** A value JSON carries exactly comes back from the round trip unchanged. */
  lemma {:induction false} NormalizeKeepsJson(v: Value)
    requires IsJson(v)
    ensures Normalize(v) == v
  {
    match v
    case Arr(items) => NormalizeElementsKeepJson(items);
    case Obj(members) => NormalizeMembersKeepJson(members);
    case _ =>
  }

  lemma {:induction false} NormalizeElementsKeepJson(items: seq<Value>)
    requires AllJson(items)
    ensures NormalizeElements(items) == items
  {
    if items != [] {
      NormalizeKeepsJson(items[0]);
      NormalizeElementsKeepJson(items[1..]);
    }
  }

  lemma {:induction false} NormalizeMembersKeepJson(members: seq<Member>)
    requires AllJsonMembers(members)
    ensures NormalizeMembers(members) == members
  {
    if members != [] {
      NormalizeKeepsJson(members[0].value);
      NormalizeMembersKeepJson(members[1..]);
    }
  }

  /** A second round trip changes nothing. */
  lemma NormalizeIdempotent(v: Value)
    ensures Normalize(Normalize(v)) == Normalize(v)
  {
    if !v.Undefined? {
      NormalizeIsJson(v);
      NormalizeKeepsJson(Normalize(v));
    }
  }

  // ---------------------------------------------------------------------
  // Property access and number conversion
  // ---------------------------------------------------------------------

  /** `v.name`; undefined when v is not an object or has no such member. */
  function Field(v: Value, name: string): Value {
    match v
    case Obj(members) => MemberValue(members, name)
    case _ => Undefined
  }

  function MemberValue(members: seq<Member>, name: string): Value {
    if members == [] then Undefined
    else if members[0].name == name then members[0].value
    else MemberValue(members[1..], name)
  }

  /**
   * The number an arithmetic operator sees, None standing for NaN.
   * Strings, arrays and objects are taken as NaN here.
   */
  function ToNumber(v: Value): Option<int> {
    match v
    case Null => Some(0)
    case Bool(b) => Some(if b then 1 else 0)
    case Num(n) => Some(n)
    case _ => None
  }

  // ---------------------------------------------------------------------
  // Substrings
  // ---------------------------------------------------------------------

  predicate StartsWith(s: string, prefix: string) {
    |prefix| <= |s| && s[..|prefix|] == prefix
  }

  /** `s.includes(sub)`. */
  predicate Contains(s: string, sub: string) {
    StartsWith(s, sub) || (s != [] && Contains(s[1..], sub))
  }

  /** A string holds every piece it was concatenated from. */
  lemma {:induction false} ContainsInfix(a: string, sub: string, b: string)
    ensures Contains(a + sub + b, sub)
  {
    if a == [] {
      assert a + sub + b == sub + b;
      assert (sub + b)[..|sub|] == sub;
    } else {
      assert (a + sub + b)[1..] == a[1..] + sub + b;
      ContainsInfix(a[1..], sub, b);
    }
  }
}
