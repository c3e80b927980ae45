/**
 * A hand-written scanner for the regular expression `\d{1,3}(?:,\d{3})*`
 * as `re.findall(...)[0]` uses it: the leftmost match, taken greedily.
 * The pattern can start at any digit, so the leftmost match starts at the
 * first digit of the text; from there it takes up to three digits and then
 * as many `,ddd` groups as follow.
 */
module NumberPattern {
  import opened Wrappers
  import opened Text

  /** Length of the greedy `\d{0,max}` at `s[i..]`. */
  function DigitRun(s: string, i: nat, max: nat): (k: nat)
    requires i <= |s|
    ensures i + k <= |s| && k <= max
    ensures forall j :: i <= j < i + k ==> IsDigit(s[j])
    ensures k < max ==> i + k == |s| || !IsDigit(s[i + k])
    decreases max
  {
    if max == 0 || i == |s| || !IsDigit(s[i]) then 0 else 1 + DigitRun(s, i + 1, max - 1)
  }

  /** One `,\d{3}` group starts at `s[i]`. */
  predicate GroupAt(s: string, i: nat) {
    i + 4 <= |s| && s[i] == ',' && IsDigit(s[i + 1]) && IsDigit(s[i + 2]) && IsDigit(s[i + 3])
  }

  /** Where the greedy `(?:,\d{3})*` that starts at `s[i]` ends. */
  function GroupsEnd(s: string, i: nat): (e: nat)
    requires i <= |s|
    ensures i <= e <= |s| && !GroupAt(s, e)
    decreases |s| - i
  {
    if GroupAt(s, i) then GroupsEnd(s, i + 4) else i
  }

  /** The whole of `g` is a sequence of `,\d{3}` groups. */
  predicate IsGroups(g: string)
    decreases |g|
  {
    g == [] || (|g| >= 4 && g[0] == ',' && IsDigit(g[1]) && IsDigit(g[2]) && IsDigit(g[3]) && IsGroups(g[4..]))
  }

  /** Number of digits `m` starts with. */
  function LeadingDigits(m: string): (k: nat)
    ensures k <= |m|
  {
    if m == [] || !IsDigit(m[0]) then 0 else 1 + LeadingDigits(m[1..])
  }

  /** The whole of `m` is one word of the language `\d{1,3}(?:,\d{3})*`. */
  predicate IsNumber(m: string) {
    var k := LeadingDigits(m);
    1 <= k <= 3 && IsGroups(m[k..])
  }

  /** A match, as the half-open range `s[start..end]`. */
  datatype Span = Span(start: nat, end: nat)

  /** The leftmost greedy match at or after `s[from]`, or None when `re.findall` finds nothing. */
  function FindNumber(s: string, from: nat): (r: Option<Span>)
    requires from <= |s|
    ensures r.None? <==> forall i :: from <= i < |s| ==> !IsDigit(s[i])
    ensures r.Some? ==> from <= r.value.start < r.value.end <= |s|
    ensures r.Some? ==> IsDigit(s[r.value.start])
    ensures r.Some? ==> forall i :: from <= i < r.value.start ==> !IsDigit(s[i])
    decreases |s| - from
  {
    if from == |s| then None
    else if IsDigit(s[from]) then
      var k := DigitRun(s, from, 3);
      Some(Span(from, GroupsEnd(s, from + k)))
    else FindNumber(s, from + 1)
  }

  lemma {:induction false} GroupsEndIsGroups(s: string, i: nat)
    requires i <= |s|
    ensures IsGroups(s[i..GroupsEnd(s, i)])
    decreases |s| - i
  {
    var e := GroupsEnd(s, i);
    if GroupAt(s, i) {
      GroupsEndIsGroups(s, i + 4);
      assert s[i..e][4..] == s[i + 4..e];
    } else {
      assert s[i..e] == [];
    }
  }

  lemma {:induction false} LeadingDigitsExact(m: string, k: nat)
    requires k <= |m|
    requires forall j :: 0 <= j < k ==> IsDigit(m[j])
    requires k == |m| || !IsDigit(m[k])
    ensures LeadingDigits(m) == k
  {
    if k > 0 {
      LeadingDigitsExact(m[1..], k - 1);
    }
  }

  /**
   * The scanner finds a whole word of the pattern, starting at the first
   * digit of the text, and no longer match starts there: neither one more
   * `,ddd` group nor (when fewer than three digits lead) one more digit.
   */
  lemma FindNumberIsGreedyMatch(s: string, from: nat)
    requires from <= |s|
    requires FindNumber(s, from).Some?
    ensures var sp := FindNumber(s, from).value;
      var k := LeadingDigits(s[sp.start..sp.end]);
      && IsNumber(s[sp.start..sp.end])
      && !GroupAt(s, sp.end)
      && (k < 3 ==> sp.start + k == |s| || !IsDigit(s[sp.start + k]))
  {
    var sp := FindNumber(s, from).value;
    FindNumberScansAtStart(s, from);
    MatchAtDigit(s, sp.start, DigitRun(s, sp.start, 3), sp.end);
  }

  /** Wherever the match starts, it is what the scanner takes from that digit on. */
  lemma {:induction false} FindNumberScansAtStart(s: string, from: nat)
    requires from <= |s|
    requires FindNumber(s, from).Some?
    ensures var sp := FindNumber(s, from).value;
      sp.end == GroupsEnd(s, sp.start + DigitRun(s, sp.start, 3))
    decreases |s| - from
  {
    if !IsDigit(s[from]) {
      FindNumberScansAtStart(s, from + 1);
    }
  }

  /** A match that starts at a digit: its digits, then its groups, neither of which could go on. */
  lemma MatchAtDigit(s: string, from: nat, k: nat, e: nat)
    requires from < |s| && IsDigit(s[from])
    requires k == DigitRun(s, from, 3) && e == GroupsEnd(s, from + k)
    ensures LeadingDigits(s[from..e]) == k
    ensures IsNumber(s[from..e])
    ensures !GroupAt(s, e)
    ensures k < 3 ==> from + k == |s| || !IsDigit(s[from + k])
  {
    MatchLeadingDigits(s, from, k, e);
    GroupsEndIsGroups(s, from + k);
    assert s[from..e][k..] == s[from + k..e];
  }

  /** The digits of a match are the `\d{1,3}` the scanner took. */
  lemma MatchLeadingDigits(s: string, from: nat, k: nat, e: nat)
    requires from < |s| && IsDigit(s[from])
    requires k == DigitRun(s, from, 3) && e == GroupsEnd(s, from + k)
    ensures LeadingDigits(s[from..e]) == k
  {
    var m := s[from..e];
    assert k == |m| || m[k] == ',' by {
      if from + k < e {
        assert GroupAt(s, from + k);
      }
    }
    LeadingDigitsExact(m, k);
  }

  lemma {:induction false} GroupsRemoveCommas(g: string)
    requires IsGroups(g)
    ensures AllDigits(RemoveCommas(g))
    ensures |RemoveCommas(g)| == |g| / 4 * 3
    decreases |g|
  {
    if g != [] {
      assert g == g[..4] + g[4..];
      RemoveCommasAppend(g[..4], g[4..]);
      assert RemoveCommas(g[..4]) == g[1..4];
      GroupsRemoveCommas(g[4..]);
    }
  }

  /**
   * Every match is a number once its commas are removed, so the `int()`
   * applied to it cannot raise.
   */
  lemma NumberIsDecimal(m: string)
    requires IsNumber(m)
    ensures ParseDecimal(RemoveCommas(m)).Some?
  {
    var k := LeadingDigits(m);
    assert AllDigits(m[..k]) by {
      LeadingDigitsPrefix(m);
    }
    assert m == m[..k] + m[k..];
    RemoveCommasAppend(m[..k], m[k..]);
    GroupsRemoveCommas(m[k..]);
  }

  lemma {:induction false} LeadingDigitsPrefix(m: string)
    ensures AllDigits(m[..LeadingDigits(m)])
  {
    if m != [] && IsDigit(m[0]) {
      LeadingDigitsPrefix(m[1..]);
      assert m[..LeadingDigits(m)] == [m[0]] + m[1..][..LeadingDigits(m[1..])];
    }
  }

  /** Four digits with no comma: the match is the first three. */
  lemma FindNumberUngrouped(s: string)
    requires |s| >= 4 && IsDigit(s[0]) && IsDigit(s[1]) && IsDigit(s[2]) && s[3] != ','
    ensures FindNumber(s, 0) == Some(Span(0, 3))
  {
    assert DigitRun(s, 2, 1) == 1;
    assert DigitRun(s, 1, 2) == 2;
  }
}
