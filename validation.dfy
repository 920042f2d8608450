/**
 * The two input patterns of the device-query handler
 * (timestream-test/app.ts lines 7-8), each written twice: once in the shape
 * of the regular expression, piece after piece, and once as a statement
 * about every position of the string, with a lemma that the two agree.
 */
module Validation {
  import opened Text

  // ---------------------------------------------------------------------
  // Time window: /^[1-9]\d*[mhd]$/
  // ---------------------------------------------------------------------

  /** `[1-9]` */
  predicate IsNonZeroDigit(c: char) { '1' <= c <= '9' }

  /** `[mhd]`: minutes, hours or days; lower case only, the pattern has no `i` flag. */
  predicate IsUnit(c: char) { c == 'm' || c == 'h' || c == 'd' }

  /**
   * `TIME_WINDOW_REGEX.test(s)`, following the pattern: one `[1-9]`, then
   * `\d*[mhd]$` on the rest.
   */
  predicate TimeWindowPatternTest(s: string)
  {
    |s| >= 1 && IsNonZeroDigit(s[0]) && DigitsThenUnit(s[1..])
  }

  /**
   * `\d*[mhd]$`: digits, then one unit letter that is the last character
   * (without the `m` flag `$` matches only at the end of the input, so a
   * trailing line break does not match).
   */
  predicate DigitsThenUnit(t: string)
  {
    if |t| == 0 then false
    else if |t| == 1 then IsUnit(t[0])
    else IsDigit(t[0]) && DigitsThenUnit(t[1..])
  }

  /**
   * A valid time window, position by position: at least two characters, a
   * non-zero first digit, decimal digits in between and a unit letter last.
   */
  predicate IsTimeWindow(s: string)
  {
    && |s| >= 2
    && IsNonZeroDigit(s[0])
    && (forall i :: 1 <= i < |s| - 1 ==> IsDigit(s[i]))
    && IsUnit(s[|s| - 1])
  }

  lemma {:induction false} DigitsThenUnitAt(t: string)
    ensures DigitsThenUnit(t) <==>
      |t| >= 1 && (forall i :: 0 <= i < |t| - 1 ==> IsDigit(t[i])) && IsUnit(t[|t| - 1])
    decreases |t|
  {
    if |t| > 1 {
      DigitsThenUnitAt(t[1..]);
      if DigitsThenUnit(t) {
        forall i | 0 <= i < |t| - 1 ensures IsDigit(t[i]) {
          if i > 0 { assert t[i] == t[1..][i - 1]; }
        }
      }
    }
  }

  /** The pattern-shaped test and the positional statement agree on every string. */
  lemma TimeWindowPatternIsTimeWindow(s: string)
    ensures TimeWindowPatternTest(s) <==> IsTimeWindow(s)
  {
    if |s| >= 1 {
      DigitsThenUnitAt(s[1..]);
      if IsTimeWindow(s) {
        forall i | 0 <= i < |s[1..]| - 1 ensures IsDigit(s[1..][i]) {
          assert s[1..][i] == s[i + 1];
        }
      }
      if TimeWindowPatternTest(s) {
        forall i | 1 <= i < |s| - 1 ensures IsDigit(s[i]) {
          assert s[i] == s[1..][i - 1];
        }
      }
    }
  }

  /** The amount of a valid time window: the number its digits denote. */
  function WindowAmount(s: string): nat
    requires IsTimeWindow(s)
  {
    DecimalValue(s[..|s| - 1])
  }

  /** The time window for `n` units: the number in decimal, then the unit letter. */
  function WindowString(n: nat, unit: char): string
  {
    DecimalString(n) + [unit]
  }

  /** Every positive amount with a unit renders as a valid time window. */
  lemma WindowStringIsTimeWindow(n: nat, unit: char)
    requires n >= 1 && IsUnit(unit)
    ensures IsTimeWindow(WindowString(n, unit))
  {
    var d := DecimalString(n);
    var s := WindowString(n, unit);
    assert s[0] == d[0];
    forall i | 1 <= i < |s| - 1 ensures IsDigit(s[i]) {
      assert s[i] == d[i];
    }
  }

  /**
   * Every valid time window is exactly a positive amount written without a
   * leading zero, followed by its unit.
   */
  lemma TimeWindowIsWindowString(s: string)
    requires IsTimeWindow(s)
    ensures WindowAmount(s) >= 1
    ensures s == WindowString(WindowAmount(s), s[|s| - 1])
  {
    var digits := s[..|s| - 1];
    assert digits[0] == s[0];
    forall i | 0 <= i < |digits| ensures IsDigit(digits[i]) {
      assert digits[i] == s[i];
    }
    LeadingNonZeroPositive(digits);
    DecimalStringOfValue(digits);
    assert digits + [s[|s| - 1]] == s;
  }

  // ---------------------------------------------------------------------
  // Device identifier:
  // /^[0-9a-f]{8}-[0-9a-f]{4}-4[0-9a-f]{3}-[89ab][0-9a-f]{3}-[0-9a-f]{12}$/i
  // ---------------------------------------------------------------------

  /** `[0-9a-f]` under the `i` flag: an ASCII hexadecimal digit in either case. */
  predicate IsHexDigit(c: char)
  {
    ('0' <= c <= '9') || ('a' <= c <= 'f') || ('A' <= c <= 'F')
  }

  /**
   * `[89ab]` under the `i` flag: the variant digit of RFC 4122 section 4.1.1,
   * whose two top bits are `10`.
   */
  predicate IsVariantDigit(c: char)
  {
    c == '8' || c == '9' || c == 'a' || c == 'b' || c == 'A' || c == 'B'
  }

  /** `[0-9a-f]{n}` with `n == |t|`: every character a hex digit, read left to right. */
  predicate HexRun(t: string)
  {
    |t| == 0 || (IsHexDigit(t[0]) && HexRun(t[1..]))
  }

  /**
   * `UUID_REGEX.test(s)`, following the pattern: the five groups of 8, 4,
   * 4, 4 and 12 characters separated by `-`, the third group starting with
   * the version digit `4` and the fourth with a variant digit; the pattern
   * is anchored at both ends, so nothing else may surround it.
   */
  predicate UuidPatternTest(s: string)
  {
    && |s| == 36
    && HexRun(s[0..8]) && s[8] == '-'
    && HexRun(s[9..13]) && s[13] == '-'
    && s[14] == '4' && HexRun(s[15..18]) && s[18] == '-'
    && IsVariantDigit(s[19]) && HexRun(s[20..23]) && s[23] == '-'
    && HexRun(s[24..36])
  }

  /** The four dash positions of the 8-4-4-4-12 layout. */
  predicate IsDashIndex(i: int) { i == 8 || i == 13 || i == 18 || i == 23 }

  /**
   * A version 4 UUID in the textual form of RFC 4122 section 3, position by
   * position: 36 characters, `-` at 8, 13, 18 and 23, the version digit `4`
   * at 14 (section 4.1.3), a variant digit at 19 (section 4.1.1), and a hex
   * digit in either case everywhere else.
   */
  predicate IsUuidV4(s: string)
  {
    && |s| == 36
    && s[8] == '-' && s[13] == '-' && s[18] == '-' && s[23] == '-'
    && s[14] == '4'
    && IsVariantDigit(s[19])
    && forall i :: 0 <= i < 36 && !IsDashIndex(i) && i != 14 && i != 19 ==> IsHexDigit(s[i])
  }

  lemma {:induction false} HexRunAt(t: string)
    ensures HexRun(t) <==> forall i :: 0 <= i < |t| ==> IsHexDigit(t[i])
    decreases |t|
  {
    if |t| > 0 {
      HexRunAt(t[1..]);
      if HexRun(t) {
        forall i | 0 <= i < |t| ensures IsHexDigit(t[i]) {
          if i > 0 { assert t[i] == t[1..][i - 1]; }
        }
      }
    }
  }

  /** `HexRun` over a slice of `s` is a statement about those positions of `s`. */
  lemma HexRunSlice(s: string, lo: nat, hi: nat)
    requires lo <= hi <= |s|
    ensures HexRun(s[lo..hi]) <==> forall i :: lo <= i < hi ==> IsHexDigit(s[i])
  {
    HexRunAt(s[lo..hi]);
    if forall i :: lo <= i < hi ==> IsHexDigit(s[i]) {
      forall k | 0 <= k < hi - lo ensures IsHexDigit(s[lo..hi][k]) {
        assert s[lo..hi][k] == s[lo + k];
      }
    }
    if HexRun(s[lo..hi]) {
      forall i | lo <= i < hi ensures IsHexDigit(s[i]) {
        assert s[i] == s[lo..hi][i - lo];
      }
    }
  }

  /** The pattern-shaped test and the positional statement agree on every string. */
  lemma UuidPatternIsUuidV4(s: string)
    ensures UuidPatternTest(s) <==> IsUuidV4(s)
  {
    if |s| == 36 {
      HexRunSlice(s, 0, 8);
      HexRunSlice(s, 9, 13);
      HexRunSlice(s, 15, 18);
      HexRunSlice(s, 20, 23);
      HexRunSlice(s, 24, 36);
      if UuidPatternTest(s) {
        forall i | 0 <= i < 36 && !IsDashIndex(i) && i != 14 && i != 19 ensures IsHexDigit(s[i]) {
          if i < 8 {
          } else if i < 13 {
          } else if i < 18 {
          } else if i < 23 {
          } else {
          }
        }
      }
    }
  }

  /**
   * A valid device identifier holds neither a comma nor a single quote, so
   * it can neither be cut by `split(',')` nor end the quoted literal it is
   * placed in.
   */
  lemma UuidHasNoDelimiter(s: string)
    requires IsUuidV4(s)
    ensures ',' !in s && '\'' !in s
  {
    forall i | 0 <= i < |s| ensures s[i] != ',' && s[i] != '\'' {
      if IsDashIndex(i) || i == 14 || i == 19 {
      } else {
        assert IsHexDigit(s[i]);
      }
    }
  }
}
