/**
 * String operations the source takes from JavaScript: `String.prototype.includes`
 * and the decimal rendering of an integer inside a template literal.
 */
module Strings {

  /** `s.includes(pattern)`, searching from the left one position at a time. */
  function Contains(s: string, pattern: string): bool
    decreases |s|
  {
    |pattern| <= |s| && (s[..|pattern|] == pattern || Contains(s[1..], pattern))
  }

  /** Reference definition of `includes`: the pattern occurs at some position of `s`. */
  ghost predicate OccursAt(s: string, pattern: string, i: int) {
    0 <= i && i + |pattern| <= |s| && s[i..i + |pattern|] == pattern
  }

  /** The search agrees with the reference definition, in both directions. */
  lemma {:induction false} ContainsIsOccurrence(s: string, pattern: string)
    ensures Contains(s, pattern) <==> exists i :: OccursAt(s, pattern, i)
    decreases |s|
  {
    if |pattern| <= |s| {
      if s[..|pattern|] == pattern {
        assert OccursAt(s, pattern, 0);
      } else {
        ContainsIsOccurrence(s[1..], pattern);
        if Contains(s[1..], pattern) {
          var j :| OccursAt(s[1..], pattern, j);
          assert s[1..][j..j + |pattern|] == s[j + 1..j + 1 + |pattern|];
          assert OccursAt(s, pattern, j + 1);
        } else {
          forall i | OccursAt(s, pattern, i) ensures OccursAt(s[1..], pattern, i - 1) {
            assert s[1..][i - 1..i - 1 + |pattern|] == s[i..i + |pattern|];
          }
        }
      }
    }
  }

  /** A string that contains the pattern at a known position is found by the search. */
  lemma OccurrenceIsFound(s: string, pattern: string, i: int)
    requires OccursAt(s, pattern, i)
    ensures Contains(s, pattern)
  {
    ContainsIsOccurrence(s, pattern);
  }

  /** Any text placed around the pattern still contains it. */
  lemma {:induction false} ContainedInContext(prefix: string, pattern: string, suffix: string)
    ensures Contains(prefix + pattern + suffix, pattern)
  {
    var s := prefix + pattern + suffix;
    assert s[|prefix|..|prefix| + |pattern|] == pattern;
    OccurrenceIsFound(s, pattern, |prefix|);
  }

  predicate IsDigit(c: char) {
    '0' <= c <= '9'
  }

  /** The decimal rendering JavaScript gives a non-negative integer, most significant digit first. */
  function Decimal(n: nat): (s: string)
    ensures |s| >= 1
    ensures forall k :: 0 <= k < |s| ==> IsDigit(s[k])
    ensures |s| > 1 ==> s[0] != '0'
    decreases n
  {
    if n < 10 then [DigitChar(n)] else Decimal(n / 10) + [DigitChar(n % 10)]
  }

  function DigitChar(d: nat): (c: char)
    requires d < 10
    ensures IsDigit(c)
  {
    ['0', '1', '2', '3', '4', '5', '6', '7', '8', '9'][d]
  }

  function DigitValue(c: char): nat
    requires IsDigit(c)
  {
    (c as int - '0' as int) as nat
  }

  /** Reading a string of digits back as a number (the inverse partner of Decimal). */
  function DecimalValue(s: string): nat
    requires forall k :: 0 <= k < |s| ==> IsDigit(s[k])
  {
    if s == [] then 0 else 10 * DecimalValue(s[..|s| - 1]) + DigitValue(s[|s| - 1])
  }

  /** Rendering a number in decimal loses nothing: it reads back as the same number. */
  lemma {:induction false} DecimalRoundTrip(n: nat)
    ensures DecimalValue(Decimal(n)) == n
    decreases n
  {
    var s := Decimal(n);
    if n < 10 {
      assert DigitValue(DigitChar(n)) == n;
    } else {
      DecimalRoundTrip(n / 10);
      assert s[..|s| - 1] == Decimal(n / 10);
      assert DigitValue(DigitChar(n % 10)) == n % 10;
    }
  }

  /** Distinct numbers have distinct renderings. */
  lemma DecimalInjective(m: nat, n: nat)
    requires Decimal(m) == Decimal(n)
    ensures m == n
  {
    DecimalRoundTrip(m);
    DecimalRoundTrip(n);
  }
}
