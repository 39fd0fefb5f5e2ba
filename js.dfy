/**
 The JavaScript values a request body can carry, and the few pieces of
 JavaScript semantics the controllers rely on: truthiness, property access
 and object destructuring, `String.prototype.trim`, and the text a value
 turns into inside a template literal.
 */
module Js {

  datatype Option<+T> = None | Some(value: T)

  /** A JavaScript value as parsed from a JSON request body (plus `undefined`).
      Numbers are split by whether they are integral: `Num(n)` is a number whose
      value is the integer `n`; `Frac(text)` is a number that is not an integer,
      infinities included (`JSON.parse` turns an out-of-range literal such as
      `1e400` into `Infinity`), together with the text `String()` gives it. */
  datatype JsValue =
    | Undefined
    | Null
    | Bool(b: bool)
    | Num(n: int)
    | Frac(text: string)
    | Str(s: string)
    | Arr(items: seq<JsValue>)
    | Obj(props: map<string, JsValue>)

  /** JavaScript truthiness: `undefined`, `null`, `false`, `0` and `""` are falsy. */
  predicate Truthy(v: JsValue)
  {
    match v
    case Undefined => false
    case Null => false
    case Bool(b) => b
    case Num(n) => n != 0
    case Frac(_) => true
    case Str(s) => s != ""
    case Arr(_) => true
    case Obj(_) => true
  }

  /** `v.key` for one of the own data keys the controllers read: `None` when
      the access throws a TypeError (`v` is `null` or `undefined`). */
  function Prop(v: JsValue, key: string): (r: Option<JsValue>)
    ensures r.None? <==> v.Undefined? || v.Null?
    ensures v.Obj? && key in v.props ==> r == Some(v.props[key])
  {
    match v
    case Undefined => None
    case Null => None
    case Obj(props) => Some(if key in props then props[key] else Undefined)
    case _ => Some(Undefined)
  }

  /** The value `key` receives in `const { data: { key } = {} } = req.body`,
      given `data` (`req.body.data`); only meaningful when `data` is not `null`. */
  function Field(data: JsValue, key: string): JsValue
  {
    if data.Obj? && key in data.props then data.props[key] else Undefined
  }

  /** The destructuring as a whole: `None` when it throws, which happens exactly
      when `data` is `null` (the default `{}` replaces only `undefined`). */
  function FieldOf(data: JsValue, key: string): (r: Option<JsValue>)
    ensures r.None? <==> data.Null?
    ensures r.Some? ==> r.value == Field(data, key)
  {
    if data.Undefined? then Some(Undefined) else match Prop(data, key)
      case None => None
      case Some(v) => Some(v)
  }

  /** The characters `String.prototype.trim` removes: ECMAScript WhiteSpace
      (tab, vertical tab, form feed, space, no-break space, the byte order mark
      and the Unicode space separators) and LineTerminator. */
  predicate IsWhitespace(c: char)
  {
    c == '\t' || c == '\n' || c == '\U{000B}' || c == '\U{000C}' || c == '\r' || c == ' '
    || c == '\U{00A0}' || c == '\U{1680}' || ('\U{2000}' <= c <= '\U{200A}')
    || c == '\U{2028}' || c == '\U{2029}' || c == '\U{202F}' || c == '\U{205F}'
    || c == '\U{3000}' || c == '\U{FEFF}'
  }

  /** A string made of whitespace only (the empty string among them). */
  predicate IsBlank(s: string)
  {
    forall i :: 0 <= i < |s| ==> IsWhitespace(s[i])
  }

  function TrimStart(s: string): (r: string)
    ensures |r| <= |s| && r == s[|s| - |r|..]
    ensures r != [] ==> !IsWhitespace(r[0])
    ensures IsBlank(s[..|s| - |r|])
  {
    if s != [] && IsWhitespace(s[0]) then TrimStart(s[1..]) else s
  }

  function TrimEnd(s: string): (r: string)
    ensures |r| <= |s| && r == s[..|r|]
    ensures r != [] ==> !IsWhitespace(r[|r| - 1])
    ensures IsBlank(s[|r|..])
  {
    if s != [] && IsWhitespace(s[|s| - 1]) then TrimEnd(s[..|s| - 1]) else s
  }

  /** `s.trim()`: leading and trailing whitespace removed. */
  function Trim(s: string): string
  {
    TrimEnd(TrimStart(s))
  }

  /** `s.trim() === ""` holds exactly for the blank strings. */
  lemma TrimEmptyIffBlank(s: string)
    ensures Trim(s) == "" <==> IsBlank(s)
  {
    var t := TrimStart(s);
    if Trim(s) == "" {
      // TrimEnd removed all of t, so t is blank; its first character is not whitespace, so t is empty
      assert t[|TrimEnd(t)|..] == t;
      assert s[..|s| - |t|] == s;
    }
  }

  /** A string field that passed `!v || v.trim() === ""` (not missing, not blank). */
  predicate TextPresent(v: JsValue)
  {
    v.Str? && !IsBlank(v.s)
  }

  /** A field that `!v || v.trim() === ""` rejects without throwing. */
  predicate TextMissing(v: JsValue)
  {
    !Truthy(v) || (v.Str? && IsBlank(v.s))
  }

  // ---- decimal text of integers ----

  function DigitChar(d: nat): (c: char)
    requires d < 10
    ensures '0' <= c <= '9'
  {
    "0123456789"[d]
  }

  predicate IsDigits(s: string)
  {
    forall i :: 0 <= i < |s| ==> '0' <= s[i] <= '9'
  }

  /** The decimal text of `n`, as `${n}` writes it. */
  function NatToString(n: nat): (s: string)
    ensures s != [] && IsDigits(s)
  {
    if n < 10 then [DigitChar(n)] else NatToString(n / 10) + [DigitChar(n % 10)]
  }

  function IntToString(i: int): string
  {
    if i < 0 then "-" + NatToString(-i) else NatToString(i)
  }

  /** Reads a string of decimal digits back as a number. */
  function ParseNat(s: string): nat
    requires IsDigits(s)
  {
    if s == [] then 0 else 10 * ParseNat(s[..|s| - 1]) + ((s[|s| - 1] as int) - ('0' as int))
  }

  lemma {:induction false} ParseNatToString(n: nat)
    ensures ParseNat(NatToString(n)) == n
  {
    var s := NatToString(n);
    if n >= 10 {
      ParseNatToString(n / 10);
      assert s[..|s| - 1] == NatToString(n / 10);
      assert s[|s| - 1] == DigitChar(n % 10);
    }
  }

  /** Different numbers have different decimal texts, so a message that embeds
      `${n}` names `n` unambiguously. */
  lemma NatToStringInjective(m: nat, n: nat)
    ensures NatToString(m) == NatToString(n) ==> m == n
  {
    ParseNatToString(m);
    ParseNatToString(n);
  }

  // ---- template-literal text ----

  /** `${v}` inside a template literal, for the values a JSON body can carry:
      arrays join their elements with commas (`null` elements become empty),
      plain objects become "[object Object]". */
  function Show(v: JsValue): string
  {
    match v
    case Undefined => "undefined"
    case Null => "null"
    case Bool(b) => if b then "true" else "false"
    case Num(n) => IntToString(n)
    case Frac(text) => text
    case Str(s) => s
    case Arr(items) => Join(seq(|items|, i requires 0 <= i < |items| =>
                              if items[i].Undefined? || items[i].Null? then "" else Show(items[i])))
    case Obj(_) => "[object Object]"
  }

  function Join(parts: seq<string>): string
  {
    if parts == [] then "" else if |parts| == 1 then parts[0] else parts[0] + "," + Join(parts[1..])
  }

  // ---- the two Array.prototype methods the handlers call ----

  /** `s.findIndex(matches)`: the first position whose element matches, or -1. */
  function FindIndex<T>(s: seq<T>, matches: T -> bool): (r: int)
    ensures -1 <= r < |s|
    ensures r == -1 <==> forall j :: 0 <= j < |s| ==> !matches(s[j])
    ensures r >= 0 ==> matches(s[r]) && forall j :: 0 <= j < r ==> !matches(s[j])
  {
    if s == [] then -1
    else if matches(s[0]) then 0
    else
      var r := FindIndex(s[1..], matches);
      assert forall j :: 0 < j < |s| ==> s[j] == s[1..][j - 1];
      if r == -1 then -1 else r + 1
  }

  /** A sequence that agrees with `before` everywhere except at `k` is `before` updated at `k`. */
  lemma SameExceptAt<T>(before: seq<T>, after: seq<T>, k: nat)
    requires |after| == |before| && k < |before|
    requires forall i :: 0 <= i < |before| && i != k ==> after[i] == before[i]
    ensures after == before[k := after[k]]
  {
  }

  /** `s.splice(start, 1)` on an array `s`: a negative start counts from the end
      (and is clamped at 0), a start past the end removes nothing. */
  function SpliceOne<T>(s: seq<T>, start: int): (r: seq<T>)
    ensures 0 <= start < |s| ==> r == s[..start] + s[start + 1..]
    ensures start == -1 && s != [] ==> r == s[..|s| - 1]
    ensures start >= |s| ==> r == s
  {
    var k := if start < 0 then (if |s| + start < 0 then 0 else |s| + start)
             else if start > |s| then |s| else start;
    if k < |s| then s[..k] + s[k + 1..] else s
  }
}
