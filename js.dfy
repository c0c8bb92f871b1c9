/** The slice of JavaScript semantics the plugin relies on: its values, their
    truthiness and loose comparison, the number-to-text conversions and the
    string operations the plugin calls. */
module Js {

  datatype Option<T> = None | Some(value: T)

  /** The outcome of code that may throw: `TypeError` stands for the
      exception the host raises when a method is called on undefined. */
  datatype Outcome<T> = Done(value: T) | TypeError(what: string)

  /** A JavaScript value as the plugin stores it in overrides and settings. */
  datatype JsValue = Undefined | Null | Bool(b: bool) | Num(n: int) | Str(s: string)

  /** `if (v)` */
  predicate Truthy(v: JsValue)
  {
    match v
    case Undefined => false
    case Null => false
    case Bool(b) => b
    case Num(n) => n != 0
    case Str(s) => s != ""
  }

  /** `v == undefined` with loose equality, which also holds for null. */
  predicate IsNullish(v: JsValue)
  {
    v.Undefined? || v.Null?
  }

  predicate IsDigit(c: char)
  {
    '0' <= c <= '9'
  }

  function DigitChar(d: nat): (c: char)
    requires d < 10
    ensures IsDigit(c) && c as int - '0' as int == d
  {
    ('0' as int + d) as char
  }

  /** `n.toString()` for a non-negative integer: its decimal digits. */
  function NatToString(n: nat): (r: string)
    ensures |r| >= 1
    ensures n < 10 <==> |r| == 1
  {
    if n < 10 then [DigitChar(n)] else NatToString(n / 10) + [DigitChar(n % 10)]
  }

  /** `n.toString()` consists of decimal digits. */
  lemma {:induction false} NatToStringDigits(n: nat)
    ensures forall i :: 0 <= i < |NatToString(n)| ==> IsDigit(NatToString(n)[i])
  {
    if n >= 10 {
      NatToStringDigits(n / 10);
      assert NatToString(n) == NatToString(n / 10) + [DigitChar(n % 10)];
    }
  }

  /** The value of a string of decimal digits. */
  function DigitsValue(s: string): nat
    requires forall i :: 0 <= i < |s| ==> IsDigit(s[i])
  {
    if s == [] then 0
    else
      assert IsDigit(s[|s| - 1]);
      DigitsValue(s[..|s| - 1]) * 10 + (s[|s| - 1] as int - '0' as int)
  }

  /** Reading the decimal text back gives the number: the text is faithful. */
  lemma {:induction false} NatToStringRoundTrip(n: nat)
    ensures var r := NatToString(n); (forall i :: 0 <= i < |r| ==> IsDigit(r[i])) && DigitsValue(r) == n
  {
    NatToStringDigits(n);
    if n >= 10 {
      var r := NatToString(n);
      NatToStringRoundTrip(n / 10);
      assert r[..|r| - 1] == NatToString(n / 10);
    }
  }

  /** Different numbers have different decimal texts. */
  lemma NatToStringInjective(m: nat, n: nat)
    requires NatToString(m) == NatToString(n)
    ensures m == n
  {
    NatToStringRoundTrip(m);
    NatToStringRoundTrip(n);
  }

  /** Template-literal rendering `${v}` of a value. */
  function ToDisplayString(v: JsValue): string
  {
    match v
    case Undefined => "undefined"
    case Null => "null"
    case Bool(b) => if b then "true" else "false"
    case Num(n) => if n < 0 then "-" + NatToString(-n) else NatToString(n)
    case Str(s) => s
  }

  /** `s.indexOf(c)` for a one-character needle: the first position of `c`, or -1. */
  function IndexOfChar(s: string, c: char): (r: int)
    ensures -1 <= r < |s|
    ensures r >= 0 ==> s[r] == c && forall j :: 0 <= j < r ==> s[j] != c
    ensures r == -1 ==> forall j :: 0 <= j < |s| ==> s[j] != c
  {
    if s == [] then -1
    else if s[0] == c then 0
    else var k := IndexOfChar(s[1..], c); if k < 0 then -1 else k + 1
  }

  /** `s.indexOf(c)` is non-negative exactly when `c` occurs in `s`. */
  lemma IndexOfCharFound(s: string, c: char)
    ensures IndexOfChar(s, c) >= 0 <==> c in s
  {
  }

  /** Whether `needle` occurs in `s` starting at position `i`. */
  predicate OccursAt(s: string, needle: string, i: nat)
  {
    i + |needle| <= |s| && s[i..i + |needle|] == needle
  }

  /** `s.indexOf(needle)` searching from position `from`: the first occurrence, or -1. */
  function IndexOfFrom(s: string, needle: string, from: nat): (r: int)
    requires from <= |s|
    ensures r == -1 || from <= r <= |s|
    ensures r >= 0 ==> OccursAt(s, needle, r) && forall j :: from <= j < r ==> !OccursAt(s, needle, j)
    ensures r == -1 ==> forall j :: from <= j <= |s| ==> !OccursAt(s, needle, j)
    decreases |s| - from
  {
    if OccursAt(s, needle, from) then from
    else if from == |s| then -1
    else IndexOfFrom(s, needle, from + 1)
  }

  /** `s.indexOf(needle)` */
  function IndexOf(s: string, needle: string): int
  {
    IndexOfFrom(s, needle, 0)
  }

  /** `s.replace(needle, "")` with a string pattern: removes the first occurrence only. */
  function RemoveFirst(s: string, needle: string): (r: string)
    ensures IndexOf(s, needle) < 0 ==> r == s
    ensures IndexOf(s, needle) >= 0 ==>
      var i := IndexOf(s, needle); |r| == |s| - |needle| && s == r[..i] + needle + r[i..]
  {
    var i := IndexOf(s, needle);
    if i < 0 then s else s[..i] + s[i + |needle|..]
  }

  function Clamp(i: int, n: nat): (r: nat)
    ensures r <= n
  {
    if i < 0 then 0 else if i > n then n else i
  }

  /** `s.substring(a, b)`: both bounds are clamped into range and swapped when reversed. */
  function Substring(s: string, a: int, b: int): string
  {
    var lo, hi := Clamp(a, |s|), Clamp(b, |s|);
    if lo <= hi then s[lo..hi] else s[hi..lo]
  }

  /** `s.substr(start, length)`: `length` characters from `start`, none for a
      negative length, cut off at the end of `s`. */
  function Substr(s: string, start: nat, length: int): (r: string)
    ensures start + length <= |s| && 0 <= length ==> r == s[start..start + length]
  {
    var lo := if start <= |s| then start else |s|;
    var hi := if length <= 0 then lo else if lo + length <= |s| then lo + length else |s|;
    s[lo..hi]
  }

  /** `String.fromCharCode(code)`: the code is reduced modulo 2^16. A lone
      surrogate code unit has no Dafny character; U+FFFD stands in for it. */
  function CharFromCode(code: int): (c: char)
    ensures var u := code % 0x1_0000; (u < 0xD800 || 0xE000 <= u) ==> c as int == u
  {
    var u := code % 0x1_0000;
    if 0xD800 <= u < 0xE000 then '\U{FFFD}' else u as char
  }
}
