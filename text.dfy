/**
 * The few Python string operations the scraper applies to selected text:
 * `strip()`, `lower()`, `split()[0]`, `replace(',', '')` and `int()`.
 * All of them are modelled over ASCII: whitespace is what `str.isspace()`
 * accepts there (space, tab, line feed, vertical tab, form feed, carriage
 * return and the four separators U+001C to U+001F); digits are '0'..'9'.
 */
module Text {
  import opened Wrappers

  predicate IsSpace(c: char) {
    c == ' ' || 9 <= c as int <= 13 || 28 <= c as int <= 31
  }

  predicate IsDigit(c: char) {
    '0' <= c <= '9'
  }

  predicate AllSpace(s: string) {
    forall i :: 0 <= i < |s| ==> IsSpace(s[i])
  }

  predicate AllDigits(s: string) {
    forall i :: 0 <= i < |s| ==> IsDigit(s[i])
  }

  /** Number of blanks `s` starts with. */
  function LeadingBlanks(s: string): (n: nat)
    ensures n <= |s|
    ensures forall i :: 0 <= i < n ==> IsSpace(s[i])
    ensures n == |s| || !IsSpace(s[n])
  {
    if s != [] && IsSpace(s[0]) then 1 + LeadingBlanks(s[1..]) else 0
  }

  /** Number of blanks `s` ends with. */
  function TrailingBlanks(s: string): (n: nat)
    ensures n <= |s|
    ensures forall i :: |s| - n <= i < |s| ==> IsSpace(s[i])
    ensures n == |s| || !IsSpace(s[|s| - n - 1])
  {
    if s != [] && IsSpace(s[|s| - 1]) then 1 + TrailingBlanks(s[..|s| - 1]) else 0
  }

  /** `s.lstrip()`: what is left after dropping leading whitespace. */
  function StripStart(s: string): string {
    if s != [] && IsSpace(s[0]) then StripStart(s[1..]) else s
  }

  /** `s.rstrip()`: what is left after dropping trailing whitespace. */
  function StripEnd(s: string): string {
    if s != [] && IsSpace(s[|s| - 1]) then StripEnd(s[..|s| - 1]) else s
  }

  /** `s.strip()`. */
  function Strip(s: string): string {
    StripEnd(StripStart(s))
  }

  /** `lstrip()` drops exactly the leading blanks. */
  lemma {:induction false} StripStartDropsLeading(s: string)
    ensures StripStart(s) == s[LeadingBlanks(s)..]
  {
    if s != [] && IsSpace(s[0]) {
      StripStartDropsLeading(s[1..]);
      assert s[1..][LeadingBlanks(s[1..])..] == s[LeadingBlanks(s)..];
    }
  }

  /** `rstrip()` drops exactly the trailing blanks. */
  lemma {:induction false} StripEndDropsTrailing(s: string)
    ensures StripEnd(s) == s[..|s| - TrailingBlanks(s)]
  {
    if s != [] && IsSpace(s[|s| - 1]) {
      StripEndDropsTrailing(s[..|s| - 1]);
      assert s[..|s| - 1][..|s| - 1 - TrailingBlanks(s[..|s| - 1])] == s[..|s| - TrailingBlanks(s)];
    }
  }

  /** Left-stripping empties exactly blank text. */
  lemma StripStartEmptyIffBlank(s: string)
    ensures StripStart(s) == [] <==> AllSpace(s)
  {
    StripStartDropsLeading(s);
    if LeadingBlanks(s) < |s| {
      assert !IsSpace(s[LeadingBlanks(s)]);
    }
  }

  /** Right-stripping empties exactly blank text. */
  lemma StripEndEmptyIffBlank(t: string)
    ensures StripEnd(t) == [] <==> AllSpace(t)
  {
    StripEndDropsTrailing(t);
    var n := TrailingBlanks(t);
    if n < |t| {
      assert !IsSpace(t[|t| - n - 1]);
    }
  }

  /** `strip()` gives the empty string exactly for blank text. */
  lemma StripEmptyIffBlank(s: string)
    ensures Strip(s) == [] <==> AllSpace(s)
  {
    var t := StripStart(s);
    StripStartEmptyIffBlank(s);
    StripStartDropsLeading(s);
    StripEndEmptyIffBlank(t);
    if t != [] {
      assert !IsSpace(t[0]);
    }
  }

  /**
   * `strip()` keeps exactly the stretch of `s` between its first and last
   * non-blank characters: what precedes it and what follows it is blank.
   */
  lemma StripIsTrimmedInfix(s: string)
    ensures var r := Strip(s);
      var lead := LeadingBlanks(s);
      && lead + |r| <= |s|
      && r == s[lead..lead + |r|]
      && AllSpace(s[..lead]) && AllSpace(s[lead + |r|..])
      && (r != [] ==> !IsSpace(r[0]) && !IsSpace(r[|r| - 1]))
  {
    StripKeepsInfix(s);
    StripTrimsEnds(s);
    StripDropsBlanks(s);
  }

  /** The stripped text is the stretch of `s` after its leading blanks. */
  lemma StripKeepsInfix(s: string)
    ensures LeadingBlanks(s) + |Strip(s)| <= |s|
    ensures Strip(s) == s[LeadingBlanks(s)..LeadingBlanks(s) + |Strip(s)|]
  {
    var lead := LeadingBlanks(s);
    StripStartDropsLeading(s);
    var t := s[lead..];
    StripEndDropsTrailing(t);
    PrefixOfSuffix(s, lead, Strip(s));
  }

  /** A prefix of the suffix `s[i..]` is the slice of `s` that starts at `i`. */
  lemma PrefixOfSuffix(s: string, i: nat, r: string)
    requires i <= |s| && |r| <= |s| - i && r == s[i..][..|r|]
    ensures r == s[i..i + |r|]
  {
  }

  /** The stripped text neither starts nor ends with a blank. */
  lemma StripTrimsEnds(s: string)
    ensures Strip(s) != [] ==> !IsSpace(Strip(s)[0]) && !IsSpace(Strip(s)[|Strip(s)| - 1])
  {
    var t := StripStart(s);
    StripStartDropsLeading(s);
    StripEndDropsTrailing(t);
    var r := Strip(s);
    if r != [] {
      assert r[0] == t[0] == s[LeadingBlanks(s)];
      assert r[|r| - 1] == t[|t| - TrailingBlanks(t) - 1];
    }
  }

  /** What `strip()` drops on either side is blank. */
  lemma StripDropsBlanks(s: string)
    ensures AllSpace(s[..LeadingBlanks(s)])
    ensures LeadingBlanks(s) + |Strip(s)| <= |s| && AllSpace(s[LeadingBlanks(s) + |Strip(s)|..])
  {
    var lead := LeadingBlanks(s);
    var t := StripStart(s);
    StripStartDropsLeading(s);
    StripEndDropsTrailing(t);
    var r := Strip(s);
    assert s[lead + |r|..] == t[|r|..];
    assert forall i :: 0 <= i < |t| - |r| ==> t[|r|..][i] == t[|r| + i];
  }

  /** Text that neither starts nor ends with a blank is left as it is. */
  lemma StripTrimmed(s: string)
    requires s == [] || (!IsSpace(s[0]) && !IsSpace(s[|s| - 1]))
    ensures Strip(s) == s
  {
    if s != [] {
      assert StripStart(s) == s;
      assert StripEnd(s) == s;
    }
  }

  /** Text without blanks is left as it is. */
  lemma StripBlankFree(w: string)
    requires forall i :: 0 <= i < |w| ==> !IsSpace(w[i])
    ensures Strip(w) == w
  {
    if w != [] {
      StripTrimmed(w);
    }
  }

  function LowerChar(c: char): char {
    if 'A' <= c <= 'Z' then (c as int + 32) as char else c
  }

  /** `s.lower()`, over ASCII letters. */
  function Lower(s: string): (r: string)
    ensures |r| == |s|
    ensures forall i :: 0 <= i < |r| ==> !('A' <= r[i] <= 'Z')
    ensures forall i :: 0 <= i < |s| ==> r[i] == s[i] || ('A' <= s[i] <= 'Z' && r[i] as int == s[i] as int + 32)
  {
    seq(|s|, i requires 0 <= i < |s| => LowerChar(s[i]))
  }

  /** Number of characters of `s` before its first whitespace. */
  function WordLength(s: string): (k: nat)
    ensures k <= |s|
    ensures forall i :: 0 <= i < k ==> !IsSpace(s[i])
    ensures k == |s| || IsSpace(s[k])
  {
    if s == [] || IsSpace(s[0]) then 0 else 1 + WordLength(s[1..])
  }

  /**
   * `s.split()[0]`: the first maximal run of non-blank characters, or None
   * where Python's indexing raises IndexError (the text is blank).
   */
  function FirstToken(s: string): (r: Option<string>)
    ensures r.None? <==> AllSpace(s)
    ensures r.Some? ==> r.value != [] && forall i :: 0 <= i < |r.value| ==> !IsSpace(r.value[i])
  {
    var t := StripStart(s);
    StripStartEmptyIffBlank(s);
    StripStartDropsLeading(s);
    if t == [] then None
    else
      var k := WordLength(t);
      assert k > 0;
      Some(t[..k])
  }

  /**
   * The token is the run that starts right after the leading blanks and ends
   * at the next blank or at the end of the text.
   */
  lemma FirstTokenIsFirstWord(s: string)
    requires FirstToken(s).Some?
    ensures var w, lead := FirstToken(s).value, LeadingBlanks(s);
      && lead + |w| <= |s|
      && s[lead..lead + |w|] == w
      && AllSpace(s[..lead])
      && (lead + |w| == |s| || IsSpace(s[lead + |w|]))
  {
    var t := StripStart(s);
    var lead := LeadingBlanks(s);
    var k := WordLength(t);
    StripStartDropsLeading(s);
    assert s[lead..lead + k] == t[..k];
    assert lead + k == |s| || s[lead + k] == t[k];
  }

  /** `s.replace(',', '')`. */
  function RemoveCommas(s: string): (r: string)
    ensures |r| <= |s|
    ensures forall i :: 0 <= i < |r| ==> r[i] != ','
    ensures (forall i :: 0 <= i < |s| ==> s[i] != ',') ==> r == s
  {
    if s == [] then []
    else if s[0] == ',' then RemoveCommas(s[1..])
    else [s[0]] + RemoveCommas(s[1..])
  }

  lemma {:induction false} RemoveCommasAppend(a: string, b: string)
    ensures RemoveCommas(a + b) == RemoveCommas(a) + RemoveCommas(b)
  {
    if a == [] {
      assert a + b == b;
    } else {
      assert (a + b)[1..] == a[1..] + b;
      RemoveCommasAppend(a[1..], b);
    }
  }

  /** Every character other than a comma survives, as often as it occurs. */
  lemma {:induction false} RemoveCommasKeepsOthers(s: string)
    ensures multiset(RemoveCommas(s)) == multiset(s)[',' := 0]
  {
    if s != [] {
      RemoveCommasKeepsOthers(s[1..]);
      assert s == [s[0]] + s[1..];
    }
  }

  function DigitValue(c: char): nat
    requires IsDigit(c)
  {
    c as int - '0' as int
  }

  /** The number written by a string of decimal digits, most significant first. */
  function DigitsValue(s: string): nat
    requires AllDigits(s)
  {
    if s == [] then 0 else 10 * DigitsValue(s[..|s| - 1]) + DigitValue(s[|s| - 1])
  }

  /**
   * Python's `int(s)` on text with no surrounding blanks, restricted to ASCII
   * decimal digits: None stands for the ValueError raised on anything else.
   */
  function ParseDecimal(s: string): (r: Option<nat>)
    ensures r.Some? <==> s != [] && AllDigits(s)
  {
    if s != [] && AllDigits(s) then Some(DigitsValue(s)) else None
  }

  /** A leading zero adds nothing to the number. */
  lemma {:induction false} DigitsValueLeadingZero(s: string)
    requires AllDigits(s)
    ensures AllDigits(['0'] + s) && DigitsValue(['0'] + s) == DigitsValue(s)
    decreases |s|
  {
    var z := ['0'] + s;
    if s == [] {
      assert z[..|z| - 1] == [];
    } else {
      DigitsValueLeadingZero(s[..|s| - 1]);
      assert z[..|z| - 1] == ['0'] + s[..|s| - 1];
    }
  }

  /** `int()` reads a zero-padded number as the number itself ("007" is 7). */
  lemma ParseDecimalLeadingZero(s: string)
    requires s != [] && AllDigits(s)
    ensures ParseDecimal(['0'] + s) == ParseDecimal(s)
  {
    DigitsValueLeadingZero(s);
  }

  function DigitChar(d: nat): (c: char)
    requires d < 10
    ensures IsDigit(c)
  {
    ('0' as int + d) as char
  }

  /** The decimal rendering of a natural number: the reference inverse `ParseDecimal` is checked against. */
  function Decimal(n: nat): (s: string)
    ensures s != [] && AllDigits(s)
  {
    if n < 10 then [DigitChar(n)] else Decimal(n / 10) + [DigitChar(n % 10)]
  }

  /** `int()` reads back exactly the number `str()` wrote. */
  lemma {:induction false} ParseDecimalOfDecimal(n: nat)
    ensures ParseDecimal(Decimal(n)) == Some(n)
  {
    var s := Decimal(n);
    if n < 10 {
      assert s[..|s| - 1] == [];
    } else {
      ParseDecimalOfDecimal(n / 10);
      assert s[..|s| - 1] == Decimal(n / 10);
      assert DigitsValue(s) == 10 * (n / 10) + n % 10;
    }
  }

  /** Three digits read as a number. */
  lemma ThreeDigits(m: string)
    requires |m| == 3 && IsDigit(m[0]) && IsDigit(m[1]) && IsDigit(m[2])
    ensures ParseDecimal(RemoveCommas(m)) == Some(100 * DigitValue(m[0]) + 10 * DigitValue(m[1]) + DigitValue(m[2]))
  {
    assert RemoveCommas(m) == m;
    assert m[..1][..0] == [] && m[..2][..1] == m[..1] && m[..|m| - 1] == m[..2];
    assert DigitsValue(m[..1]) == DigitValue(m[0]);
    assert DigitsValue(m[..2]) == 10 * DigitValue(m[0]) + DigitValue(m[1]);
  }
}
