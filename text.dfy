/**
 * The string, array and number primitives of the JavaScript runtime that
 * the device-query handler relies on: `Array.prototype.map`,
 * `String.prototype.split`, `Array.prototype.join`, ASCII decimal digits,
 * and `parseInt(_, 10)`.
 */
module Text {
  import opened Wrappers

  // ---------------------------------------------------------------------
  // map
  // ---------------------------------------------------------------------

  /** `xs.map(f)`: one result per element, in order. */
  function Map<A, B>(f: A -> B, xs: seq<A>): (ys: seq<B>)
    ensures |ys| == |xs|
  {
    if |xs| == 0 then [] else [f(xs[0])] + Map(f, xs[1..])
  }

  /** Element `i` of `xs.map(f)` is `f` of element `i`: count and order are kept. */
  lemma {:induction false} MapAt<A, B>(f: A -> B, xs: seq<A>, i: nat)
    requires i < |xs|
    ensures Map(f, xs)[i] == f(xs[i])
    decreases i
  {
    if i > 0 {
      MapAt(f, xs[1..], i - 1);
    }
  }

  /** The first position of `x` in `xs`. */
  function IndexOf<T(==)>(xs: seq<T>, x: T): (i: nat)
    requires x in xs
    ensures i < |xs| && xs[i] == x
    ensures forall j :: 0 <= j < i ==> xs[j] != x
  {
    if xs[0] == x then 0 else 1 + IndexOf(xs[1..], x)
  }

  // ---------------------------------------------------------------------
  // split and join
  // ---------------------------------------------------------------------

  /**
   * `s.split(sep)` for a one-character separator: every separator ends a
   * segment, empty segments are kept, and the empty string splits into the
   * single empty segment `[""]`.
   */
  function Split(s: string, sep: char): (parts: seq<string>)
    ensures |parts| >= 1
    ensures forall i :: 0 <= i < |parts| ==> sep !in parts[i]
    decreases |s|
  {
    if |s| == 0 then [""]
    else
      var rest := Split(s[1..], sep);
      if s[0] == sep then [""] + rest
      else [[s[0]] + rest[0]] + rest[1..]
  }

  /** `parts.join(sep)`: the parts in order with `sep` between neighbours. */
  function Join(parts: seq<string>, sep: string): string
  {
    if |parts| == 0 then ""
    else if |parts| == 1 then parts[0]
    else parts[0] + sep + Join(parts[1..], sep)
  }

  /** Every occurrence of `c` in `s` replaced by `with`, everything else kept. */
  function ReplaceChar(s: string, c: char, with: string): string
  {
    if |s| == 0 then ""
    else (if s[0] == c then with else [s[0]]) + ReplaceChar(s[1..], c, with)
  }

  /** Each string wrapped in single quotes, in order. */
  function Quoted(xs: seq<string>): (qs: seq<string>)
    ensures |qs| == |xs|
    ensures forall i :: 0 <= i < |xs| ==> qs[i] == "'" + xs[i] + "'"
  {
    if |xs| == 0 then [] else ["'" + xs[0] + "'"] + Quoted(xs[1..])
  }

  /** Splitting a string with no separator in front of a split is a prefix extension. */
  lemma {:induction false} SplitPrefix(a: string, t: string, sep: char)
    requires sep !in a
    ensures Split(a + t, sep) == [a + Split(t, sep)[0]] + Split(t, sep)[1..]
    decreases |a|
  {
    var parts := Split(t, sep);
    if |a| == 0 {
      assert a + t == t;
      assert a + parts[0] == parts[0];
      assert [parts[0]] + parts[1..] == parts;
    } else {
      SplitPrefix(a[1..], t, sep);
      assert (a + t)[1..] == a[1..] + t;
      assert (a + t)[0] == a[0] && a[0] != sep;
      var rest := Split(a[1..] + t, sep);
      assert rest == [a[1..] + parts[0]] + parts[1..];
      assert [a[0]] + (a[1..] + parts[0]) == a + parts[0];
    }
  }

  /** Joining the segments back with the separator gives the original string. */
  lemma {:induction false} JoinSplit(s: string, sep: char)
    ensures Join(Split(s, sep), [sep]) == s
    decreases |s|
  {
    if |s| > 0 {
      JoinSplit(s[1..], sep);
      var rest := Split(s[1..], sep);
      if s[0] == sep {
        assert Split(s, sep) == [""] + rest;
        assert ([""] + rest)[1..] == rest;
        assert [s[0]] + s[1..] == s;
      } else {
        var parts := Split(s, sep);
        assert parts == [[s[0]] + rest[0]] + rest[1..];
        if |rest| == 1 {
          assert Join(parts, [sep]) == [s[0]] + rest[0];
        } else {
          assert parts[1..] == rest[1..];
          assert Join(rest, [sep]) == rest[0] + [sep] + Join(rest[1..], [sep]);
        }
        assert [s[0]] + s[1..] == s;
      }
    }
  }

  /** Splitting a join of separator-free parts gives the parts back. */
  lemma {:induction false} SplitJoin(parts: seq<string>, sep: char)
    requires |parts| >= 1
    requires forall i :: 0 <= i < |parts| ==> sep !in parts[i]
    ensures Split(Join(parts, [sep]), sep) == parts
    decreases |parts|
  {
    if |parts| == 1 {
      SplitPrefix(parts[0], "", sep);
      assert parts[0] + "" == parts[0];
    } else {
      var rest := parts[1..];
      SplitJoin(rest, sep);
      var tail := Join(rest, [sep]);
      assert Join(parts, [sep]) == parts[0] + ([sep] + tail);
      SplitPrefix(parts[0], [sep] + tail, sep);
      assert ([sep] + tail)[1..] == tail;
      assert Split([sep] + tail, sep) == [""] + rest;
      assert parts[0] + "" == parts[0];
      assert [parts[0]] + rest == parts;
    }
  }

  /** Splitting on `c` and joining with `with` is replacing `c` by `with`. */
  lemma {:induction false} JoinSplitReplaces(s: string, c: char, with: string)
    ensures Join(Split(s, c), with) == ReplaceChar(s, c, with)
    decreases |s|
  {
    if |s| > 0 {
      JoinSplitReplaces(s[1..], c, with);
      var rest := Split(s[1..], c);
      if s[0] == c {
        assert ([""] + rest)[1..] == rest;
      } else {
        var parts := Split(s, c);
        if |rest| > 1 {
          assert parts[1..] == rest[1..];
          assert Join(rest, with) == rest[0] + with + Join(rest[1..], with);
        }
      }
    }
  }

  /**
   * Quoting the join with `','` between the parts is joining the quoted
   * parts with a comma.
   */
  lemma {:induction false} QuotedJoin(xs: seq<string>)
    requires |xs| >= 1
    ensures "'" + Join(xs, "','") + "'" == Join(Quoted(xs), ",")
    decreases |xs|
  {
    if |xs| > 1 {
      QuotedJoin(xs[1..]);
      var q := Quoted(xs);
      assert q[1..] == Quoted(xs[1..]);
      calc {
        "'" + Join(xs, "','") + "'";
        "'" + (xs[0] + "','" + Join(xs[1..], "','")) + "'";
        ("'" + xs[0] + "'") + "," + ("'" + Join(xs[1..], "','") + "'");
        q[0] + "," + Join(Quoted(xs[1..]), ",");
        Join(q, ",");
      }
    }
  }

  // ---------------------------------------------------------------------
  // ASCII decimal digits
  // ---------------------------------------------------------------------

  /** `\d` in a JavaScript regular expression without the `u` flag: ASCII 0-9. */
  predicate IsDigit(c: char) { '0' <= c <= '9' }

  predicate AllDigits(s: string) { forall i :: 0 <= i < |s| ==> IsDigit(s[i]) }

  /** A digit string in canonical form: at least one digit and no leading zero. */
  predicate IsCanonicalDecimal(s: string)
  {
    |s| >= 1 && AllDigits(s) && (s[0] == '0' ==> |s| == 1)
  }

  function DigitValue(c: char): (d: nat)
    requires IsDigit(c)
    ensures d < 10
  {
    c as int - '0' as int
  }

  function DigitChar(d: nat): (c: char)
    requires d < 10
    ensures IsDigit(c) && DigitValue(c) == d
  {
    ('0' as int + d) as char
  }

  /** The number a string of decimal digits denotes. */
  function DecimalValue(s: string): nat
    requires AllDigits(s)
  {
    if |s| == 0 then 0
    else DecimalValue(s[..|s| - 1]) * 10 + DigitValue(s[|s| - 1])
  }

  /** `String(n)` for a natural number: its canonical decimal rendering. */
  function DecimalString(n: nat): (s: string)
    ensures IsCanonicalDecimal(s)
    ensures s[0] == '0' <==> n == 0
  {
    if n < 10 then [DigitChar(n)] else DecimalString(n / 10) + [DigitChar(n % 10)]
  }

  /** Reading a rendered number gives the number back. */
  lemma {:induction false} DecimalValueOfString(n: nat)
    ensures DecimalValue(DecimalString(n)) == n
  {
    if n >= 10 {
      DecimalValueOfString(n / 10);
      var s := DecimalString(n);
      assert s[..|s| - 1] == DecimalString(n / 10);
    }
  }

  /** A digit string that starts with a non-zero digit denotes at least 1. */
  lemma {:induction false} LeadingNonZeroPositive(s: string)
    requires |s| >= 1 && AllDigits(s) && s[0] != '0'
    ensures DecimalValue(s) >= 1
    decreases |s|
  {
    if |s| > 1 {
      LeadingNonZeroPositive(s[..|s| - 1]);
    }
  }

  /** Rendering the value of a canonical digit string gives the string back. */
  lemma {:induction false} DecimalStringOfValue(s: string)
    requires IsCanonicalDecimal(s)
    ensures DecimalString(DecimalValue(s)) == s
    decreases |s|
  {
    if |s| > 1 {
      var p := s[..|s| - 1];
      LeadingNonZeroPositive(p);
      DecimalStringOfValue(p);
      var v := DecimalValue(s);
      assert v / 10 == DecimalValue(p);
      assert v % 10 == DigitValue(s[|s| - 1]);
      assert p + [s[|s| - 1]] == s;
    } else {
      assert [DigitChar(DigitValue(s[0]))] == s;
    }
  }

  // ---------------------------------------------------------------------
  // parseInt(_, 10)
  // ---------------------------------------------------------------------

  /**
   * The characters `parseInt` skips before the number: ECMAScript's
   * WhiteSpace (tab, vertical tab, form feed, the byte order mark and every
   * space separator of category Zs) and LineTerminator (LF, CR, U+2028, U+2029).
   */
  predicate IsJsWhiteSpace(c: char)
  {
    c == '\t' || c == '\n' || c == '\U{000B}' || c == '\U{000C}' || c == '\r'
    || c == ' ' || c == '\U{00A0}' || c == '\U{1680}'
    || ('\U{2000}' <= c <= '\U{200A}')
    || c == '\U{2028}' || c == '\U{2029}' || c == '\U{202F}' || c == '\U{205F}'
    || c == '\U{3000}' || c == '\U{FEFF}'
  }

  /** `s` with its leading white space removed. */
  function TrimStart(s: string): (t: string)
    ensures |t| <= |s| && t == s[|s| - |t|..]
    ensures |t| == 0 || !IsJsWhiteSpace(t[0])
  {
    if |s| > 0 && IsJsWhiteSpace(s[0]) then TrimStart(s[1..]) else s
  }

  /** The longest prefix of `s` made of ASCII digits. */
  function DigitPrefix(s: string): (d: string)
    ensures d <= s && AllDigits(d)
    ensures |d| == |s| || !IsDigit(s[|d|])
  {
    if |s| > 0 && IsDigit(s[0]) then [s[0]] + DigitPrefix(s[1..]) else ""
  }

  /**
   * `parseInt(s, 10)`: skip leading white space, then read a signed digit
   * run; with no digit the result is NaN, here `None`.
   */
  function ParseInt(s: string): Option<int>
  {
    ParseSigned(TrimStart(s))
  }

  /** An optional `+` or `-`, then the longest run of decimal digits. */
  function ParseSigned(t: string): Option<int>
  {
    if |t| > 0 && t[0] == '-' then
      match ParseDigits(t[1..])
      case Some(v) => Some(-v)
      case None => None
    else if |t| > 0 && t[0] == '+' then ParseDigits(t[1..])
    else ParseDigits(t)
  }

  /** The value of the longest digit prefix, `None` when there is none. */
  function ParseDigits(u: string): Option<int>
  {
    var d := DigitPrefix(u);
    if |d| == 0 then None else Some(DecimalValue(d) as int)
  }

  /** `String(n)` for an integer. */
  function IntString(n: int): string
  {
    if n < 0 then "-" + DecimalString(-n) else DecimalString(n)
  }

  /** The digit prefix of a digit string followed by a non-digit is that string. */
  lemma {:induction false} DigitPrefixStops(d: string, rest: string)
    requires AllDigits(d)
    requires |rest| == 0 || !IsDigit(rest[0])
    ensures DigitPrefix(d + rest) == d
    decreases |d|
  {
    if |d| > 0 {
      DigitPrefixStops(d[1..], rest);
      assert (d + rest)[1..] == d[1..] + rest;
      assert [d[0]] + d[1..] == d;
    }
  }

  /**
   * `parseInt` reads back any rendered integer, whatever non-digit text
   * follows it (so `"42"`, `"42.5"` and `"-7 units"` give 42, 42 and -7).
   */
  lemma ParseIntOfString(n: int, rest: string)
    requires |rest| == 0 || !IsDigit(rest[0])
    ensures ParseInt(IntString(n) + rest) == Some(n)
  {
    if n < 0 {
      ParseIntOfNegative(-n, rest);
      IntStringShape(n, rest);
    } else {
      ParseIntOfNonNegative(n, rest);
      IntStringShape(n, rest);
    }
  }

  /** `String(n)` followed by more text, split at the sign. */
  lemma IntStringShape(n: int, rest: string)
    ensures n < 0 ==> IntString(n) + rest == "-" + (DecimalString(-n) + rest)
    ensures n >= 0 ==> IntString(n) + rest == DecimalString(n) + rest
  {
  }

  lemma ParseIntOfNegative(m: nat, rest: string)
    requires |rest| == 0 || !IsDigit(rest[0])
    ensures ParseInt("-" + (DecimalString(m) + rest)) == Some(-(m as int))
  {
    var d := DecimalString(m);
    DecimalValueOfString(m);
    DigitPrefixStops(d, rest);
    assert ParseDigits(d + rest) == Some(m);
    ParseIntMinus(d + rest);
  }

  lemma ParseIntOfNonNegative(m: nat, rest: string)
    requires |rest| == 0 || !IsDigit(rest[0])
    ensures ParseInt(DecimalString(m) + rest) == Some(m)
  {
    var d := DecimalString(m);
    DecimalValueOfString(m);
    DigitPrefixStops(d, rest);
    assert ParseDigits(d + rest) == Some(m);
    ParseIntDigitFirst(d + rest);
  }

  /** Text that starts with a digit is read as a digit run. */
  lemma ParseIntDigitFirst(u: string)
    requires |u| > 0 && IsDigit(u[0])
    ensures ParseInt(u) == ParseDigits(u)
  {
    assert !IsJsWhiteSpace(u[0]);
    assert TrimStart(u) == u;
    assert u[0] != '-' && u[0] != '+';
  }

  /** Text that starts with `-` is read as the negated digit run after it. */
  lemma ParseIntMinus(u: string)
    ensures ParseInt("-" + u) == match ParseDigits(u) case Some(v) => Some(-v) case None => None
  {
    var s := "-" + u;
    assert s[0] == '-';
    assert TrimStart(s) == s;
    assert s[1..] == u;
  }

  /** A string without any digit is not a number. */
  lemma NoDigitNoNumber(s: string)
    requires forall i :: 0 <= i < |s| ==> !IsDigit(s[i])
    ensures ParseInt(s) == None
  {
    var t := TrimStart(s);
    if |t| > 1 && (t[0] == '-' || t[0] == '+') {
      assert t[1..][0] == s[|s| - |t| + 1];
    } else if |t| > 0 {
      assert t[0] == s[|s| - |t|];
    }
  }
}
