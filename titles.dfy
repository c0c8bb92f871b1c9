/** The title text functions of main.js: the numbering prefix a title may
    carry, adding and removing section numbers, and the letter code of
    callouts numbered without sections. */
module Titles {
  import opened Js

  /** The characters `String.prototype.trim` removes: ECMAScript WhiteSpace
      and LineTerminator. */
  predicate IsJsWhitespace(c: char)
  {
    || c == '\t' || c == '\n' || c == '\U{000B}' || c == '\U{000C}' || c == '\r' || c == ' '
    || c == '\U{00A0}' || c == '\U{1680}' || ('\U{2000}' <= c <= '\U{200A}')
    || c == '\U{2028}' || c == '\U{2029}' || c == '\U{202F}' || c == '\U{205F}'
    || c == '\U{3000}' || c == '\U{FEFF}'
  }

  /** `s` without its leading whitespace. */
  function TrimStart(s: string): (r: string)
    ensures |r| <= |s| && r == s[|s| - |r|..]
    ensures |r| > 0 ==> !IsJsWhitespace(r[0])
    ensures |s| > 0 && !IsJsWhitespace(s[0]) ==> r == s
  {
    if s == [] || !IsJsWhitespace(s[0]) then s else TrimStart(s[1..])
  }

  /** `s` without its trailing whitespace. */
  function TrimEnd(s: string): (r: string)
    ensures |r| <= |s| && r == s[..|r|]
    ensures |r| > 0 ==> !IsJsWhitespace(r[|r| - 1])
  {
    if s == [] || !IsJsWhitespace(s[|s| - 1]) then s else TrimEnd(s[..|s| - 1])
  }

  /** `TrimEnd` keeps every character up to the last one that is not whitespace. */
  lemma {:induction false} TrimEndKeeps(s: string, i: nat)
    requires i < |s| && !IsJsWhitespace(s[i])
    ensures i < |TrimEnd(s)|
  {
    if i < |s| - 1 && IsJsWhitespace(s[|s| - 1]) {
      TrimEndKeeps(s[..|s| - 1], i);
    }
  }

  /** `s.trim()` */
  function Trim(s: string): string
  {
    TrimEnd(TrimStart(s))
  }

  /** `'1234567890 .-'.concat(ndash).concat(mdash)` */
  const PossibleIndexChars: string := "1234567890 .-\U{2013}\U{2014}"

  /** A character a numbering prefix may consist of. */
  predicate IsPrefixChar(c: char)
  {
    c in PossibleIndexChars
  }

  /** From position `i` on, the first character of `t` outside the prefix
      set, or 0 when there is none. */
  function ScanPrefix(t: string, i: nat): (r: nat)
    requires i <= |t|
    ensures (i <= r < |t| && !IsPrefixChar(t[r]) && forall j :: i <= j < r ==> IsPrefixChar(t[j]))
         || (r == 0 && forall j :: i <= j < |t| ==> IsPrefixChar(t[j]))
    decreases |t| - i
  {
    if i == |t| then 0
    else if !IsPrefixChar(t[i]) then i
    else ScanPrefix(t, i + 1)
  }

  /** Specification of `prefixEndIndex(text)`: the position, within
      `text.trim()`, of the first character outside the prefix set; 0 when
      the trimmed text starts outside it and also when it lies wholly inside. */
  function PrefixEnd(text: string): (r: nat)
    ensures r <= |text|
  {
    ScanPrefix(Trim(text), 0)
  }

  /** `prefixEndIndex(text)`: the loop over the characters of the trimmed text. */
  method PrefixEndIndex(text: string) returns (r: nat)
    ensures r == PrefixEnd(text)
    ensures var t := Trim(text);
      (r < |t| && !IsPrefixChar(t[r]) && forall j :: 0 <= j < r ==> IsPrefixChar(t[j]))
      || (r == 0 && forall j :: 0 <= j < |t| ==> IsPrefixChar(t[j]))
  {
    var charArray := Trim(text);
    r := ScanChars(charArray);
  }

  /** The loop of `prefixEndIndex` on the trimmed text `charArray`. */
  method ScanChars(charArray: string) returns (r: nat)
    ensures r == ScanPrefix(charArray, 0)
  {
    var i := 0;
    while i < |charArray|
      invariant 0 <= i <= |charArray|
      invariant ScanPrefix(charArray, 0) == ScanPrefix(charArray, i)
    {
      var c := charArray[i];
      IndexOfCharFound(PossibleIndexChars, c);
      if IndexOfChar(PossibleIndexChars, c) < 0 {
        return i;
      }
      i := i + 1;
    }
    return 0;
  }

  /** `text.substring(prefixEndIndex(text))`: the title without its numbering.
      The index is found in the trimmed text but applied to `text` itself. */
  function Rest(text: string): string
  {
    text[PrefixEnd(text)..]
  }

  /** What `addSectionNumbers` puts before the title when sections are on. */
  function Label(sectionNumber: nat, sectionPageNumber: nat, dash: string): string
  {
    if sectionPageNumber == 0 then NatToString(sectionNumber) + " " + dash + " "
    else NatToString(sectionNumber) + "." + NatToString(sectionPageNumber) + " " + dash + " "
  }

  /** `addSectionNumbers(text, sectionNumber, sectionPageNumber)` with the
      stored `useSections` flag and dash passed in: `"s d r"` for a section
      (page-in-section 0), `"s.p d r"` for a page, just `r` with sections off,
      where `r` is the title without its old numbering. */
  function AddSectionNumbers(text: string, sectionNumber: nat, sectionPageNumber: nat,
                             useSections: bool, dash: string): (r: string)
    ensures useSections ==> r == Label(sectionNumber, sectionPageNumber, dash) + Rest(text)
    ensures !useSections ==> r == Rest(text)
  {
    var endIndex := PrefixEnd(text);
    if useSections then
      if sectionPageNumber == 0 then
        NatToString(sectionNumber) + " " + dash + " " + text[endIndex..]
      else
        NatToString(sectionNumber) + "." + NatToString(sectionPageNumber) + " " + dash + " " + text[endIndex..]
    else
      text[endIndex..]
  }

  /** `removeSectionNumbers(text)`: undefined for a falsy text (undefined or
      the empty string), else the text without its numbering. */
  function RemoveSectionNumbers(text: Option<string>): (r: JsValue)
    ensures r == Undefined <==> text.None? || text.value == ""
    ensures r != Undefined ==> r == Str(Rest(text.value))
  {
    if text.None? || text.value == "" then Undefined
    else Str(Rest(text.value))
  }

  /** A title renumbering leaves alone: it does not start with whitespace, and
      its first character outside the prefix set exists and is not whitespace. */
  predicate WellFormedTitle(text: string)
  {
    && |text| > 0
    && !IsJsWhitespace(text[0])
    && var i := ScanPrefix(text, 0);
       i < |text| && !IsPrefixChar(text[i]) && !IsJsWhitespace(text[i])
  }

  /** The scan finds the first character outside the prefix set. */
  lemma ScanPrefixIs(t: string, i: nat)
    requires i < |t| && !IsPrefixChar(t[i])
    requires forall j :: 0 <= j < i ==> IsPrefixChar(t[j])
    ensures ScanPrefix(t, 0) == i
  {
  }

  /** When `x` starts with no whitespace and its first character outside the
      prefix set is not whitespace, trimming changes nothing the scan sees. */
  lemma {:induction false} PrefixEndUntrimmed(x: string, i: nat)
    requires |x| > 0 && !IsJsWhitespace(x[0])
    requires i < |x| && !IsPrefixChar(x[i]) && !IsJsWhitespace(x[i])
    requires forall j :: 0 <= j < i ==> IsPrefixChar(x[j])
    ensures PrefixEnd(x) == i
  {
    var t := Trim(x);
    assert TrimStart(x) == x;
    assert t == TrimEnd(x);
    TrimEndKeeps(x, i);
    assert i < |t| && t == x[..|t|];
    assert t[i] == x[i];
    assert forall j :: 0 <= j < i ==> t[j] == x[j];
    ScanPrefixIs(t, i);
  }

  /** Text made only of prefix-set characters. */
  predicate AllPrefixChars(s: string)
  {
    forall k :: 0 <= k < |s| ==> IsPrefixChar(s[k])
  }

  /** Decimal digits are in the prefix set. */
  lemma DigitsArePrefixChars(s: string)
    requires forall k :: 0 <= k < |s| ==> IsDigit(s[k])
    ensures AllPrefixChars(s)
  {
    forall k | 0 <= k < |s|
      ensures IsPrefixChar(s[k])
    {
      var d := s[k] as int - '0' as int;
      assert PossibleIndexChars[(d + 9) % 10] == s[k];
    }
  }

  /** Joining two texts of prefix-set characters gives one. */
  lemma AllPrefixCharsConcat(a: string, b: string)
    requires AllPrefixChars(a) && AllPrefixChars(b)
    ensures AllPrefixChars(a + b)
  {
    forall k | 0 <= k < |a + b|
      ensures IsPrefixChar((a + b)[k])
    {
      if k < |a| { assert (a + b)[k] == a[k]; } else { assert (a + b)[k] == b[k - |a|]; }
    }
  }

  /** A label built from prefix-set characters consists of prefix-set characters. */
  lemma LabelInPrefixSet(sectionNumber: nat, sectionPageNumber: nat, dash: string)
    requires AllPrefixChars(dash)
    ensures var l := Label(sectionNumber, sectionPageNumber, dash);
      |l| > 0 && IsDigit(l[0]) && AllPrefixChars(l)
  {
    var s := NatToString(sectionNumber);
    NatToStringDigits(sectionNumber);
    DigitsArePrefixChars(s);
    assert AllPrefixChars(" ") by { assert PossibleIndexChars[10] == ' '; }
    AllPrefixCharsConcat(" ", dash);
    AllPrefixCharsConcat(" " + dash, " ");
    var tail := " " + dash + " ";
    var l := Label(sectionNumber, sectionPageNumber, dash);
    if sectionPageNumber == 0 {
      AllPrefixCharsConcat(s, tail);
      assert l == s + tail;
    } else {
      var p := NatToString(sectionPageNumber);
      NatToStringDigits(sectionPageNumber);
      DigitsArePrefixChars(p);
      assert AllPrefixChars(".") by { assert PossibleIndexChars[11] == '.'; }
      AllPrefixCharsConcat(s, ".");
      AllPrefixCharsConcat(s + ".", p);
      AllPrefixCharsConcat(s + "." + p, tail);
      assert l == s + "." + p + tail;
    }
    assert l[0] == s[0];
  }

  /** In a well-formed title the numbering ends at its first character
      outside the prefix set, and what is left starts there. */
  lemma WellFormedRest(text: string)
    requires WellFormedTitle(text)
    ensures var i := ScanPrefix(text, 0); PrefixEnd(text) == i && Rest(text) == text[i..]
  {
    PrefixEndUntrimmed(text, ScanPrefix(text, 0));
  }

  /** A label of prefix-set characters starting with a digit, put before a
      text that starts outside the prefix set and not with whitespace, ends
      exactly where that text begins. */
  lemma LabelledTitle(l: string, r: string)
    requires |l| > 0 && IsDigit(l[0]) && AllPrefixChars(l)
    requires |r| > 0 && !IsPrefixChar(r[0]) && !IsJsWhitespace(r[0])
    ensures WellFormedTitle(l + r) && PrefixEnd(l + r) == |l| && (l + r)[|l|..] == r
  {
    var once := l + r;
    assert once[|l|] == r[0];
    assert forall j :: 0 <= j < |l| ==> once[j] == l[j];
    assert !IsJsWhitespace(once[0]) by { assert once[0] == l[0]; }
    ScanPrefixIs(once, |l|);
    PrefixEndUntrimmed(once, |l|);
    assert once[|l|..] == r;
  }

  /** Re-numbering is idempotent. For a well-formed title and a dash made of
      prefix-set characters, numbering an already numbered title with the same
      numbers gives it back, the result is again well formed, and removing the
      numbers gives the title without its old numbering. */
  lemma {:induction false} RenumberIdempotent(text: string, sectionNumber: nat, sectionPageNumber: nat,
                                              useSections: bool, dash: string)
    requires WellFormedTitle(text)
    requires AllPrefixChars(dash)
    ensures var once := AddSectionNumbers(text, sectionNumber, sectionPageNumber, useSections, dash);
      && WellFormedTitle(once)
      && AddSectionNumbers(once, sectionNumber, sectionPageNumber, useSections, dash) == once
      && RemoveSectionNumbers(Some(once)) == Str(Rest(text))
  {
    var i := ScanPrefix(text, 0);
    WellFormedRest(text);
    var r := text[i..];
    assert r[0] == text[i];
    var once := AddSectionNumbers(text, sectionNumber, sectionPageNumber, useSections, dash);
    if useSections {
      var l := Label(sectionNumber, sectionPageNumber, dash);
      LabelInPrefixSet(sectionNumber, sectionPageNumber, dash);
      LabelledTitle(l, r);
    } else {
      assert once == r;
      ScanPrefixIs(r, 0);
      PrefixEndUntrimmed(r, 0);
    }
  }

  /** `numberToLetters(num)`: a letter for 0-25, then two characters coding
      `num / 26` and `num % 26`. */
  function NumberToLetters(num: nat): (r: string)
    ensures |r| == 1 <==> num <= 25
    ensures |r| == 1 || |r| == 2
  {
    var firstDigit := if num <= 25 then "" else [CharFromCode(num / 26 + 64)];
    var secondDigit := [CharFromCode(num % 26 + 65)];
    firstDigit + secondDigit
  }

  predicate IsUpperLetter(c: char)
  {
    'A' <= c <= 'Z'
  }

  /** 0..25 are the single letters A..Z. */
  lemma NumberToLettersSingle(n: nat)
    requires n <= 25
    ensures NumberToLetters(n) == [(65 + n) as char]
  {
  }

  /** 26..701 are the two-letter codes AA..ZZ, first letter `n / 26`, second `n % 26`. */
  lemma NumberToLettersDouble(n: nat)
    requires 26 <= n <= 701
    ensures NumberToLetters(n) == [(64 + n / 26) as char, (65 + n % 26) as char]
    ensures IsUpperLetter(NumberToLetters(n)[0]) && IsUpperLetter(NumberToLetters(n)[1])
  {
  }

  /** Every number up to 701 gets a code of capital letters only. */
  lemma NumberToLettersAreLetters(n: nat)
    requires n <= 701
    ensures forall k :: 0 <= k < |NumberToLetters(n)| ==> IsUpperLetter(NumberToLetters(n)[k])
  {
    if n >= 26 {
      NumberToLettersDouble(n);
    }
  }

  /** Below this bound the first character's code `num / 26 + 64` stays under
      the surrogate range, so `String.fromCharCode` keeps it exactly. */
  const LetterCodeBound: nat := 26 * (0xD800 - 64)

  /** Different callouts get different letter codes, in particular on 0..701. */
  lemma {:induction false} NumberToLettersInjective(m: nat, n: nat)
    requires m < LetterCodeBound && n < LetterCodeBound
    requires NumberToLetters(m) == NumberToLetters(n)
    ensures m == n
  {
    var a, b := NumberToLetters(m), NumberToLetters(n);
    assert a[|a| - 1] as int == m % 26 + 65;
    assert b[|b| - 1] as int == n % 26 + 65;
    if m > 25 {
      assert a[0] as int == m / 26 + 64;
      assert b[0] as int == n / 26 + 64;
      assert m == 26 * (m / 26) + m % 26;
      assert n == 26 * (n / 26) + n % 26;
    }
  }

  /** Past 701 the code leaves the alphabet: 702 becomes `[A`, not `AAA`. */
  lemma NumberToLettersPastZZ()
    ensures NumberToLetters(702) == "[A"
  {
  }
}
