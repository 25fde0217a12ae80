/**
 * The slice of JavaScript value semantics that the ClearBooks form
 * handlers rely on: loosely typed values and their truthiness, the `||`
 * operator, optional member access, number inputs, `startsWith`, `trim`,
 * string length in UTF-16 code units and `toUpperCase`.
 */
module Js {

  datatype Option<T> = None | Some(value: T)

  /**
   * A JavaScript value as it reaches a handler. There is no number variant:
   * the numbers the handlers read are form fields, modelled as NumInput, and
   * a numeric member of a response body cannot be represented.
   */
  datatype Value =
    | Undefined
    | Null
    | Bool(b: bool)
    | Text(s: string)
    | Obj(fields: map<string, Value>)

  /** JavaScript truthiness: undefined, null, false and '' are falsy. */
  predicate Truthy(v: Value) {
    match v
    case Undefined => false
    case Null => false
    case Bool(b) => b
    case Text(s) => s != ""
    case Obj(_) => true
  }

  /** `a || b`: the first operand when it is truthy, otherwise the second. */
  function Or(a: Value, b: Value): (r: Value)
    ensures Truthy(a) ==> r == a
    ensures !Truthy(a) ==> r == b
    ensures Truthy(r) <==> Truthy(a) || Truthy(b)
  {
    if Truthy(a) then a else b
  }

  /** null or undefined: the values on which `v.key` throws a TypeError. */
  predicate Nullish(v: Value) {
    v == Null || v == Undefined
  }

  /** `v?.key`: the member of an object, undefined for anything else or a missing key. */
  function Member(v: Value, key: string): (r: Value)
    ensures !v.Obj? ==> r == Undefined
    ensures v.Obj? && key !in v.fields ==> r == Undefined
    ensures v.Obj? && key in v.fields ==> r == v.fields[key]
  {
    match v
    case Obj(f) => if key in f then f[key] else Undefined
    case _ => Undefined
  }

  /**
   * The content of a numeric form field. `Blank` is the empty string an
   * emptied `<input type="number">` yields (null behaves the same way in
   * every use below); `Typed(v)` is a numeric string typed into the input;
   * `Stored(v)` is a JavaScript number put into state by the code itself.
   */
  datatype NumInput = Blank | Typed(value: real) | Stored(value: real)

  /** Truthiness of a numeric field: a typed string such as "0" is truthy, the number 0 is not. */
  predicate NumTruthy(x: NumInput) {
    match x
    case Blank => false
    case Typed(_) => true
    case Stored(v) => v != 0.0
  }

  /** `parseFloat(x || 0)`: the field's number, with a blank field read as 0. */
  function OrZero(x: NumInput): (r: real)
    ensures x.Blank? ==> r == 0.0
    ensures !x.Blank? ==> r == x.value
  {
    match x
    case Blank => 0.0
    case Typed(v) => v
    case Stored(v) => v
  }

  /** `parseFloat(x)`: None stands for NaN, which a blank field parses to. */
  function ParseFloat(x: NumInput): (r: Option<real>)
    ensures r.None? <==> x.Blank?
    ensures r.Some? ==> r.value == OrZero(x)
  {
    if x.Blank? then None else Some(x.value)
  }

  /**
   * `parseFloat(x)` and `parseFloat(x || 0)` disagree exactly on a blank
   * field, where the first is NaN and the second 0; elsewhere both are the
   * field's number.
   */
  lemma ParseFloatOrZero(x: NumInput)
    ensures ParseFloat(x) == Some(OrZero(x)) <==> !x.Blank?
    ensures x.Blank? ==> ParseFloat(x).None? && OrZero(x) == 0.0
  {
  }

  /** `s.startsWith(prefix)`. */
  predicate StartsWith(s: string, prefix: string) {
    |prefix| <= |s| && s[..|prefix|] == prefix
  }

  /** The characters `String.prototype.trim` removes: ECMAScript WhiteSpace and LineTerminator. */
  predicate IsWhitespace(c: char) {
    c == '\t' || c == '\n' || c == '\U{000B}' || c == '\U{000C}' || c == '\r' || c == ' '
    || c == '\U{00A0}' || c == '\U{1680}' || ('\U{2000}' <= c <= '\U{200A}')
    || c == '\U{2028}' || c == '\U{2029}' || c == '\U{202F}' || c == '\U{205F}'
    || c == '\U{3000}' || c == '\U{FEFF}'
  }

  ghost predicate AllWhitespace(s: string) {
    forall i | 0 <= i < |s| :: IsWhitespace(s[i])
  }

  /**
   * Leading whitespace removed: the result is a suffix that is empty or
   * starts with a non-blank, and everything dropped before it is whitespace.
   */
  function TrimStart(s: string): (r: string)
    ensures |r| <= |s| && r == s[|s| - |r|..]
    ensures AllWhitespace(s[..|s| - |r|])
    ensures r == [] || !IsWhitespace(r[0])
    ensures r == [] <==> AllWhitespace(s)
  {
    if s != [] && IsWhitespace(s[0]) then
      var r := TrimStart(s[1..]);
      assert AllWhitespace(s[..|s| - |r|]) by {
        var dropped, rest := s[..|s| - |r|], s[1..][..|s| - 1 - |r|];
        forall i | 0 <= i < |dropped|
          ensures IsWhitespace(dropped[i])
        {
          if i > 0 {
            assert dropped[i] == rest[i - 1];
          }
        }
      }
      r
    else s
  }

  /**
   * Trailing whitespace removed: the result is a prefix that is empty or
   * ends with a non-blank, and everything dropped after it is whitespace.
   */
  function TrimEnd(s: string): (r: string)
    ensures |r| <= |s| && r == s[..|r|]
    ensures AllWhitespace(s[|r|..])
    ensures r == [] || !IsWhitespace(r[|r| - 1])
    ensures r == [] <==> AllWhitespace(s)
  {
    if s != [] && IsWhitespace(s[|s| - 1]) then
      var r := TrimEnd(s[..|s| - 1]);
      assert s[|r|..] == s[..|s| - 1][|r|..] + [s[|s| - 1]];
      r
    else s
  }

  /** `s.trim()`. */
  function Trim(s: string): string {
    TrimEnd(TrimStart(s))
  }

  /** `!s.trim()` holds exactly when every character of `s` is whitespace. */
  lemma TrimEmptyIffBlank(s: string)
    ensures Trim(s) == [] <==> AllWhitespace(s)
  {
    var t := TrimStart(s);
    if t != [] {
      assert !IsWhitespace(t[0]);
      assert !AllWhitespace(t);
    }
  }

  /** `s.length`: characters outside the Basic Multilingual Plane take two UTF-16 code units. */
  function Utf16Length(s: string): (n: nat)
    ensures |s| <= n <= 2 * |s|
    ensures (forall i | 0 <= i < |s| :: s[i] <= '\U{FFFF}') ==> n == |s|
    ensures (exists i | 0 <= i < |s| :: s[i] > '\U{FFFF}') ==> n > |s|
  {
    if s == [] then 0
    else
      assert forall i | 1 <= i < |s| :: s[1..][i - 1] == s[i];
      (if s[0] <= '\U{FFFF}' then 1 else 2) + Utf16Length(s[1..])
  }

  /** `.length` of one character: one code unit in the Basic Multilingual Plane, two outside it. */
  lemma Utf16LengthChar(c: char)
    ensures Utf16Length([c]) == if c <= '\U{FFFF}' then 1 else 2
  {
    assert [c][1..] == [];
  }

  /** `.length` of a concatenation is the sum of the lengths. */
  lemma {:induction false} Utf16LengthConcat(a: string, b: string)
    ensures Utf16Length(a + b) == Utf16Length(a) + Utf16Length(b)
  {
    if a == [] {
      assert a + b == b;
    } else {
      assert (a + b)[1..] == a[1..] + b;
      Utf16LengthConcat(a[1..], b);
    }
  }

  function UpperChar(c: char): char {
    if 'a' <= c <= 'z' then (c as int - 32) as char else c
  }

  /**
   * `s.toUpperCase()` on ASCII letters: same length, no lower-case ASCII
   * letter left, every other character kept.
   */
  function ToUpperCase(s: string): (r: string)
    ensures |r| == |s|
    ensures forall i | 0 <= i < |r| :: !('a' <= r[i] <= 'z')
    ensures forall i | 0 <= i < |s| :: !('a' <= s[i] <= 'z') ==> r[i] == s[i]
    ensures forall i | 0 <= i < |s| :: 'a' <= s[i] <= 'z' ==> r[i] as int == s[i] as int - 32
  {
    seq(|s|, i requires 0 <= i < |s| => UpperChar(s[i]))
  }

  /** Upper-casing twice is the same as upper-casing once. */
  lemma ToUpperCaseIdempotent(s: string)
    ensures ToUpperCase(ToUpperCase(s)) == ToUpperCase(s)
  {
  }

  /**
   * What an axios call in a handler resolves to: `Done` carries
   * `response.data`, `Failed` carries `err.response?.data` (Undefined when
   * the request never got a response).
   */
  datatype Reply = Done(data: Value) | Failed(data: Value)
}
