/** String helpers the source takes from JavaScript's standard library:
    number-to-text conversion, `toLowerCase`, `indexOf`/`includes`, and the
    pieces of `split` the source uses. */
module Text {
  import opened Base

  predicate IsDigit(c: char)
  {
    '0' <= c <= '9'
  }

  function DigitChar(d: nat): (c: char)
    requires d < 10
    ensures IsDigit(c)
  {
    "0123456789"[d]
  }

  function DigitValue(c: char): (d: nat)
    requires IsDigit(c)
    ensures d < 10
  {
    (c as int) - ('0' as int)
  }

  lemma DigitRoundTrip(d: nat)
    requires d < 10
    ensures DigitValue(DigitChar(d)) == d
  {
  }

  /** The decimal text of a natural number, as `String(n)` gives it: no leading zeros. */
  function NatToString(n: nat): (s: string)
    ensures |s| > 0
    ensures forall i :: 0 <= i < |s| ==> IsDigit(s[i])
    ensures |s| > 1 ==> s[0] != '0'
    decreases n
  {
    if n < 10 then [DigitChar(n)] else NatToString(n / 10) + [DigitChar(n % 10)]
  }

  /** The value of a non-empty run of decimal digits. */
  function DigitsValue(s: string): (n: nat)
    requires forall i :: 0 <= i < |s| ==> IsDigit(s[i])
    decreases |s|
  {
    if s == [] then 0 else DigitsValue(s[..|s| - 1]) * 10 + DigitValue(s[|s| - 1])
  }

  lemma {:induction false} NatToStringRoundTrip(n: nat)
    ensures DigitsValue(NatToString(n)) == n
    decreases n
  {
    var s := NatToString(n);
    if n < 10 {
      DigitRoundTrip(n);
    } else {
      NatToStringRoundTrip(n / 10);
      assert s[..|s| - 1] == NatToString(n / 10);
      DigitRoundTrip(n % 10);
    }
  }

  /** `String(i)` for an integer. */
  function IntToString(i: int): (s: string)
    ensures |s| > 0 && (s[0] == '-' || IsDigit(s[0])) && IsDigit(s[|s| - 1])
  {
    if i < 0 then "-" + NatToString(-i) else NatToString(i)
  }

  /** The distance from a capital letter to its small letter: 32 for the
      Latin (basic and Latin-1), Greek and basic Cyrillic capitals, 80 for the
      Cyrillic capitals U+0400 to U+040F, and 0 for every other character. */
  function CaseOffset(c: char): nat
  {
    if 'A' <= c <= 'Z' || ('\U{C0}' <= c <= '\U{DE}' && c != '\U{D7}')
       || ('\U{391}' <= c <= '\U{3AB}' && c != '\U{3A2}') || '\U{410}' <= c <= '\U{42F}' then 32
    else if '\U{400}' <= c <= '\U{40F}' then 80
    else 0
  }

  /** `toLowerCase` on one character, for the capitals `CaseOffset` knows. */
  function LowerChar(c: char): (r: char)
    ensures r as int == c as int + CaseOffset(c)
    ensures CaseOffset(r) == 0
  {
    if CaseOffset(c) == 0 then c else (c as int + CaseOffset(c)) as char
  }

  /** `toLowerCase` on a string, character by character. */
  function Lower(s: string): (r: string)
    ensures |r| == |s|
    ensures forall i :: 0 <= i < |s| ==> r[i] == LowerChar(s[i])
  {
    seq(|s|, i requires 0 <= i < |s| => LowerChar(s[i]))
  }

  /** Lower-casing twice is lower-casing once. */
  lemma LowerIdempotent(s: string)
    ensures Lower(Lower(s)) == Lower(s)
  {
  }

  /** `pat` occurs in `s` at position `i`. */
  predicate OccursAt(s: string, pat: string, i: nat)
  {
    i + |pat| <= |s| && s[i..i + |pat|] == pat
  }

  /** The first position at or after `from` where `pat` occurs in `s` (`s.indexOf(pat, from)`). */
  function IndexOfFrom(s: string, pat: string, from: nat): (r: Option<nat>)
    requires from <= |s|
    ensures r.Some? ==> from <= r.value && OccursAt(s, pat, r.value)
    ensures forall j: nat :: from <= j && (r.None? || j < r.value) ==> !OccursAt(s, pat, j)
    decreases |s| - from
  {
    if from + |pat| > |s| then None
    else if s[from..from + |pat|] == pat then Some(from)
    else if from == |s| then None
    else IndexOfFrom(s, pat, from + 1)
  }

  function IndexOf(s: string, pat: string): (r: Option<nat>)
    ensures r.Some? ==> OccursAt(s, pat, r.value)
    ensures forall j: nat :: (r.None? || j < r.value) ==> !OccursAt(s, pat, j)
  {
    IndexOfFrom(s, pat, 0)
  }

  /** `s.includes(pat)`. */
  predicate Includes(s: string, pat: string)
  {
    IndexOf(s, pat).Some?
  }

  lemma IncludesEmpty(s: string)
    ensures Includes(s, "")
  {
    assert OccursAt(s, "", 0);
  }

  /** Lower-casing keeps an occurrence: a text that occurs in `s` occurs, lower-cased, in `Lower(s)`. */
  lemma IncludesLower(s: string, pat: string)
    ensures Includes(s, pat) ==> Includes(Lower(s), Lower(pat))
  {
    if Includes(s, pat) {
      var i := IndexOf(s, pat).value;
      assert Lower(s)[i..i + |pat|] == Lower(pat);
      assert OccursAt(Lower(s), Lower(pat), i);
    }
  }

  /** `s.split(sep)[0]`: the text before the first occurrence of `sep`, or all of `s`. */
  function BeforeFirst(s: string, sep: string): (r: string)
    ensures IndexOf(s, sep).None? ==> r == s
    ensures IndexOf(s, sep).Some? ==> r == s[..IndexOf(s, sep).value]
  {
    match IndexOf(s, sep)
    case None => s
    case Some(i) => s[..i]
  }

  /** `name.split(sep).pop()` for a one-character separator: the text after the
      last `sep`, or the whole of `name` when it holds no `sep`. */
  function AfterLast(name: string, sep: char): (r: string)
    ensures sep !in r
    ensures |r| <= |name| && r == name[|name| - |r|..]
    ensures |r| < |name| ==> name[|name| - |r| - 1] == sep
    decreases |name|
  {
    if name == [] then []
    else if name[|name| - 1] == sep then []
    else
      var init := name[..|name| - 1];
      var r := AfterLast(init, sep);
      assert name[|name| - |r| - 1..] == init[|init| - |r|..] + [name[|name| - 1]];
      assert |r| < |init| ==> name[|name| - |r| - 2] == init[|init| - |r| - 1];
      r + [name[|name| - 1]]
  }

  lemma AfterLastNoSep(name: string, sep: char)
    requires sep !in name
    ensures AfterLast(name, sep) == name
  {
  }
}
