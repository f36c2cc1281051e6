/// String helpers the generator is built on: joining with a separator,
/// prefix tests (exact, and ASCII case-insensitive as base::StartsWith
/// does them), and decimal conversion in both directions (std::to_string
/// on unsigned values, base::StringToInt on 32-bit int).
module Text {

  import opened Wrappers

  /// The items with `sep` between consecutive ones and no trailing
  /// separator. Defined from the back, the way the generator's loops append.
  function Join(items: seq<string>, sep: string): string
  {
    if |items| == 0 then ""
    else if |items| == 1 then items[0]
    else Join(items[..|items| - 1], sep) + sep + items[|items| - 1]
  }

  /// Two items are joined by one separator.
  lemma JoinPair(a: string, b: string, sep: string)
    ensures Join([a, b], sep) == a + sep + b
  {
    assert [a, b][..1] == [a];
  }

  /// Read from the front, a join is the first item, the separator, and the
  /// join of the rest: with Join([]) == "" and Join([x]) == x this
  /// determines Join completely.
  lemma {:induction false} JoinFront(items: seq<string>, sep: string)
    requires |items| >= 2
    ensures Join(items, sep) == items[0] + sep + Join(items[1..], sep)
  {
    var n := |items|;
    var init := items[..n - 1];
    if n == 2 {
      assert init == [items[0]];
      assert items[1..] == [items[1]];
    } else {
      JoinFront(init, sep);
      assert init[1..] == items[1..][..n - 2];
      assert items[1..][n - 2] == items[n - 1];
    }
  }

  /// A non-empty join begins with its first item and ends with its last.
  lemma {:induction false} JoinEnds(items: seq<string>, sep: string)
    requires |items| >= 1
    ensures StartsWith(Join(items, sep), items[0])
    ensures EndsWith(Join(items, sep), items[|items| - 1])
  {
    if |items| >= 2 {
      JoinFront(items, sep);
    }
  }

  predicate StartsWith(s: string, prefix: string)
  {
    |prefix| <= |s| && s[..|prefix|] == prefix
  }

  predicate EndsWith(s: string, suffix: string)
  {
    |suffix| <= |s| && s[|s| - |suffix|..] == suffix
  }

  /// Sequence concatenation regroups freely.
  lemma Regroup(a: string, b: string, c: string)
    ensures a + (b + c) == a + b + c
  {
  }

  /// A concatenation starts with its first part and ends with its second.
  lemma AppendEnds(a: string, b: string)
    ensures StartsWith(a + b, a) && EndsWith(a + b, b)
  {
    assert (a + b)[..|a|] == a;
    assert (a + b)[|a|..] == b;
  }

  /// A prefix of a prefix is a prefix.
  lemma StartsWithTransitive(a: string, b: string, c: string)
    requires StartsWith(a, b) && StartsWith(b, c)
    ensures StartsWith(a, c)
  {
    assert a[..|c|] == b[..|c|];
  }

  /// ASCII lower-casing; every other character is left alone.
  function LowerAscii(c: char): char
  {
    if 'A' <= c <= 'Z' then (c as int + 32) as char else c
  }

  /// base::StartsWith with CompareCase::INSENSITIVE_ASCII.
  predicate StartsWithIgnoreCase(s: string, prefix: string)
  {
    |prefix| <= |s| && forall i :: 0 <= i < |prefix| ==> LowerAscii(s[i]) == LowerAscii(prefix[i])
  }

  const INT32_MIN: int := -0x8000_0000
  const INT32_MAX: int := 0x7FFF_FFFF

  predicate IsDigit(c: char)
  {
    '0' <= c <= '9'
  }

  function DigitChar(d: nat): (c: char)
    requires d < 10
    ensures IsDigit(c)
  {
    (d + '0' as int) as char
  }

  /// std::to_string on an unsigned value: its decimal digits, no sign,
  /// no leading zeros.
  function NatToString(n: nat): string
  {
    if n < 10 then [DigitChar(n)] else NatToString(n / 10) + [DigitChar(n % 10)]
  }

  predicate AllDigits(s: string)
  {
    forall i :: 0 <= i < |s| ==> IsDigit(s[i])
  }

  /// The value of a string of decimal digits, read from the back.
  function DigitsValue(s: string): nat
    requires AllDigits(s)
  {
    if s == [] then 0
    else DigitsValue(s[..|s| - 1]) * 10 + (s[|s| - 1] as int - '0' as int)
  }

  /// base::StringToInt: an optional '-' or '+' and then one or more
  /// decimal digits, nothing else (no surrounding whitespace), and a value
  /// that fits a 32-bit int; None for every other input.
  function StringToInt(s: string): (r: Option<int>)
    ensures r.Some? ==> INT32_MIN <= r.value <= INT32_MAX
    ensures r.Some? ==> |s| > 0 && (IsDigit(s[0]) || s[0] == '-' || s[0] == '+')
  {
    if |s| > 0 && s[0] == '-' then
      var digits := s[1..];
      if |digits| > 0 && AllDigits(digits) && DigitsValue(digits) <= -INT32_MIN
      then Some(-(DigitsValue(digits) as int)) else None
    else
      var digits := if |s| > 0 && s[0] == '+' then s[1..] else s;
      if |digits| > 0 && AllDigits(digits) && DigitsValue(digits) <= INT32_MAX
      then Some(DigitsValue(digits)) else None
  }

  /// The text std::to_string produces is all digits, starts with a
  /// non-zero digit unless the value is 0, and reads back as the value.
  lemma {:induction false} NatToStringDigits(n: nat)
    ensures |NatToString(n)| > 0
    ensures AllDigits(NatToString(n))
    ensures DigitsValue(NatToString(n)) == n
    ensures n > 0 ==> NatToString(n)[0] != '0'
  {
    if n >= 10 {
      NatToStringDigits(n / 10);
      var s := NatToString(n);
      assert s[..|s| - 1] == NatToString(n / 10);
      assert s[0] == NatToString(n / 10)[0];
    }
  }

  /// Round trip: base::StringToInt accepts what std::to_string prints for
  /// every non-negative value in int range, and returns that value.
  lemma NatToStringRoundTrip(n: nat)
    requires n <= INT32_MAX
    ensures StringToInt(NatToString(n)) == Some(n)
  {
    NatToStringDigits(n);
    var s := NatToString(n);
    assert IsDigit(s[0]);
  }

  /// The negative half: a minus sign before the digits of any magnitude
  /// up to 2^31 reads back as the negated value.
  lemma NegatedRoundTrip(n: nat)
    requires 1 <= n <= -INT32_MIN
    ensures StringToInt("-" + NatToString(n)) == Some(-(n as int))
  {
    NatToStringDigits(n);
    assert ("-" + NatToString(n))[1..] == NatToString(n);
  }

  /// A leading blank is rejected, as base::StringToInt reports leading
  /// whitespace as a failed conversion.
  lemma LeadingSpaceRejected(s: string)
    ensures StringToInt([' '] + s) == None
  {
    var t := [' '] + s;
    assert t[0] == ' ';
    assert !IsDigit(t[0]);
  }
}
