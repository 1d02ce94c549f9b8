/**
 * The few pieces of Go's `strconv` and `strings` packages, and of SQL's LOWER/ILIKE,
 * that the core relies on: decimal parsing and formatting of integers (`strconv.ParseInt`
 * with base 10 and bit size 64, the `%d` verb), `strings.Split` with a one-character
 * separator, and case-insensitive substring search.
 */
module Text {
  import opened Wrappers

  const MinInt64: int := -0x8000_0000_0000_0000
  const MaxInt64: int := 0x7FFF_FFFF_FFFF_FFFF

  predicate IsDigit(c: char) { '0' <= c <= '9' }

  predicate AllDigits(s: string) { forall i :: 0 <= i < |s| ==> IsDigit(s[i]) }

  function DigitValue(c: char): nat
    requires IsDigit(c)
  {
    c as int - '0' as int
  }

  /** The value of a string of decimal digits, most significant first. */
  function DigitsValue(s: string): nat
    requires AllDigits(s)
    decreases |s|
  {
    if s == [] then 0 else DigitsValue(s[..|s| - 1]) * 10 + DigitValue(s[|s| - 1])
  }

  /**
   * `strconv.ParseInt(s, 10, 64)`: an optional sign, then at least one decimal digit,
   * and a value that fits in a signed 64-bit integer; anything else is an error.
   */
  function ParseInt64(s: string): (r: Option<int>)
    ensures r.Some? ==> MinInt64 <= r.value <= MaxInt64
    ensures r.Some? ==> exists i :: 0 <= i < |s| && IsDigit(s[i])
    ensures r.Some? ==> |s| > 0 && AllDigits(if s[0] == '-' || s[0] == '+' then s[1..] else s)
    ensures r.Some? ==> |s| > 1 || IsDigit(s[0])
  {
    if |s| == 0 then None
    else
      var negative := s[0] == '-';
      var body := if s[0] == '-' || s[0] == '+' then s[1..] else s;
      if |body| == 0 || !AllDigits(body) then None
      else
        assert IsDigit(s[|s| - 1]);
        var magnitude: int := DigitsValue(body);
        var v := if negative then -magnitude else magnitude;
        if MinInt64 <= v <= MaxInt64 then Some(v) else None
  }

  function DigitChar(d: nat): (c: char)
    requires d < 10
    ensures IsDigit(c) && DigitValue(c) == d
  {
    ('0' as int + d) as char
  }

  /** The decimal spelling of a natural number, without leading zeros. */
  function NatToDecimal(n: nat): (s: string)
    ensures |s| > 0 && AllDigits(s)
    decreases n
  {
    if n < 10 then [DigitChar(n)] else NatToDecimal(n / 10) + [DigitChar(n % 10)]
  }

  /** `strconv.FormatInt(n, 10)`, which is also what the `%d` verb prints. */
  function FormatInt(n: int): string
  {
    if n < 0 then "-" + NatToDecimal(-n) else NatToDecimal(n)
  }

  lemma {:induction false} DecimalValue(n: nat)
    ensures DigitsValue(NatToDecimal(n)) == n
    decreases n
  {
    if n >= 10 {
      var s := NatToDecimal(n);
      assert s[..|s| - 1] == NatToDecimal(n / 10);
      DecimalValue(n / 10);
    }
  }

  /** Formatting and parsing are inverse on the whole signed 64-bit range. */
  lemma ParseFormatRoundTrip(n: int)
    requires MinInt64 <= n <= MaxInt64
    ensures ParseInt64(FormatInt(n)) == Some(n)
  {
    if n < 0 {
      var d := NatToDecimal(-n);
      DecimalValue(-n);
      assert ("-" + d)[1..] == d;
    } else {
      DecimalValue(n);
    }
  }

  /** Different numbers have different decimal spellings. */
  lemma DecimalInjective(a: nat, b: nat)
    requires a != b
    ensures NatToDecimal(a) != NatToDecimal(b)
  {
    DecimalValue(a);
    DecimalValue(b);
  }

  /** Number of occurrences of `c` in `s`. */
  function Count(s: string, c: char): nat
  {
    if s == [] then 0 else (if s[0] == c then 1 else 0) + Count(s[1..], c)
  }

  /**
   * `strings.Split(s, string(sep))`: the pieces of `s` between occurrences of `sep`;
   * there is always one piece more than there are separators.
   */
  function Split(s: string, sep: char): (parts: seq<string>)
    ensures |parts| == Count(s, sep) + 1
    ensures forall i :: 0 <= i < |parts| ==> sep !in parts[i]
    decreases |s|
  {
    if |s| == 0 then [""]
    else
      var rest := Split(s[1..], sep);
      if s[0] == sep then [""] + rest
      else [[s[0]] + rest[0]] + rest[1..]
  }

  /** `strings.Join(parts, string(sep))`. */
  function Join(parts: seq<string>, sep: char): string
    requires |parts| > 0
  {
    if |parts| == 1 then parts[0] else parts[0] + [sep] + Join(parts[1..], sep)
  }

  lemma {:induction false} JoinSplit(s: string, sep: char)
    ensures Join(Split(s, sep), sep) == s
    decreases |s|
  {
    if |s| > 0 {
      var rest := Split(s[1..], sep);
      JoinSplit(s[1..], sep);
      if s[0] == sep {
        assert ([""] + rest)[1..] == rest;
      } else {
        var parts := [[s[0]] + rest[0]] + rest[1..];
        if |rest| == 1 {
          assert Join(parts, sep) == [s[0]] + rest[0];
        } else {
          assert parts[1..] == rest[1..];
          assert Join(rest, sep) == rest[0] + [sep] + Join(rest[1..], sep);
        }
      }
    }
  }

  lemma {:induction false} CountZero(s: string, c: char)
    ensures Count(s, c) == 0 <==> c !in s
    decreases |s|
  {
    if |s| > 0 {
      CountZero(s[1..], c);
      assert s == [s[0]] + s[1..];
    }
  }

  /** A string splits into at least two pieces exactly when it contains the separator. */
  lemma SplitHasSecondPiece(s: string, sep: char)
    ensures |Split(s, sep)| >= 2 <==> sep in s
  {
    CountZero(s, sep);
  }

  /** A string without the separator is a single piece. */
  lemma SplitWithoutSeparator(s: string, sep: char)
    requires sep !in s
    ensures Split(s, sep) == [s]
  {
    CountZero(s, sep);
    JoinSplit(s, sep);
  }

  /** Splitting at the first separator: the part before it is the first piece. */
  lemma {:induction false} SplitAtFirst(a: string, b: string, sep: char)
    requires sep !in a
    ensures Split(a + [sep] + b, sep) == [a] + Split(b, sep)
    decreases |a|
  {
    if a == [] {
      assert a + [sep] + b == [sep] + b;
      assert ([sep] + b)[1..] == b;
    } else {
      SplitAtFirst(a[1..], b, sep);
      assert (a + [sep] + b)[1..] == a[1..] + [sep] + b;
      assert [a[0]] + a[1..] == a;
    }
  }

  /** A formatted integer holds digits and at most a minus sign. */
  lemma FormatIntChars(n: int)
    ensures forall i :: 0 <= i < |FormatInt(n)| ==> IsDigit(FormatInt(n)[i]) || FormatInt(n)[i] == '-'
  {
  }

  /** SQL LOWER on the ASCII letters; other characters are kept as they are. */
  function Lower(c: char): char
  {
    if 'A' <= c <= 'Z' then (c as int + 32) as char else c
  }

  function LowerString(s: string): (r: string)
    ensures |r| == |s|
    ensures forall i :: 0 <= i < |s| ==> r[i] == Lower(s[i])
  {
    seq(|s|, i requires 0 <= i < |s| => Lower(s[i]))
  }

  predicate OccursAt(needle: string, hay: string, i: nat)
  {
    i + |needle| <= |hay| && hay[i..i + |needle|] == needle
  }

  predicate IsSubstring(needle: string, hay: string)
  {
    exists i: nat | i <= |hay| :: OccursAt(needle, hay, i)
  }

  /** `LOWER(hay) ILIKE LOWER('%' || needle || '%')`: a case-insensitive substring test. */
  predicate ContainsFold(hay: string, needle: string)
  {
    IsSubstring(LowerString(needle), LowerString(hay))
  }
}
