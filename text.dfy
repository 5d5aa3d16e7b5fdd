/** Text helpers standing in for Python's string formatting: decimal
    rendering of integers, left padding with spaces (what a field width in
    a `%` format does), joining with a separator and counting characters. */
module Text {

  function Digit(d: nat): char
    requires d < 10
  {
    "0123456789"[d]
  }

  predicate IsDigit(c: char) {
    '0' <= c <= '9'
  }

  /** Decimal digits of `n`, most significant first, without leading zeros. */
  function NatToString(n: nat): string
  {
    if n < 10 then [Digit(n)] else NatToString(n / 10) + [Digit(n % 10)]
  }

  /** The value of a string of decimal digits. */
  function ParseNat(s: string): nat
  {
    if s == [] then 0
    else ParseNat(s[..|s| - 1]) * 10 + DigitValue(s[|s| - 1])
  }

  function DigitValue(c: char): nat
  {
    if IsDigit(c) then (c as int - '0' as int) else 0
  }

  /** What `str(i)`, `'%d' % i` and `'{}'.format(i)` produce for an integer. */
  function IntToString(i: int): string
  {
    if i < 0 then "-" + NatToString(-i) else NatToString(i)
  }

  /** Each digit character reads back as its value. */
  lemma DigitRoundTrip(d: nat)
    requires d < 10
    ensures IsDigit(Digit(d)) && DigitValue(Digit(d)) == d
  {
  }

  lemma {:induction false} NatToStringRoundTrip(n: nat)
    ensures |NatToString(n)| > 0
    ensures forall k :: 0 <= k < |NatToString(n)| ==> IsDigit(NatToString(n)[k])
    ensures ParseNat(NatToString(n)) == n
  {
    if n < 10 {
      DigitRoundTrip(n);
    } else {
      NatToStringRoundTrip(n / 10);
      DigitRoundTrip(n % 10);
      var s := NatToString(n);
      assert s == NatToString(n / 10) + [Digit(n % 10)];
      assert s[..|s| - 1] == NatToString(n / 10);
      assert s[|s| - 1] == Digit(n % 10);
    }
  }

  /** Negative numbers carry a leading '-', others are plain digits, and the
      digits read back as the magnitude. */
  lemma {:induction false} IntToStringRoundTrip(i: int)
    ensures i < 0 ==> IntToString(i)[0] == '-' && ParseNat(IntToString(i)[1..]) == -i
    ensures i >= 0 ==> ParseNat(IntToString(i)) == i && IsDigit(IntToString(i)[0])
  {
    if i < 0 {
      var d := NatToString(-i);
      NatToStringRoundTrip(-i);
      assert IntToString(i) == "-" + d;
      assert ("-" + d)[1..] == d;
    } else {
      NatToStringRoundTrip(i);
      assert IntToString(i) == NatToString(i);
      assert IsDigit(NatToString(i)[0]);
    }
  }

  function Spaces(n: nat): string
  {
    seq(n, _ => ' ')
  }

  /** `s` right-aligned in a field of `width` characters, as `'%<width>s' % s`:
      padded on the left with spaces when shorter. */
  function PadLeft(s: string, width: int): string
  {
    if |s| < width then Spaces(width - |s|) + s else s
  }

  /** Padding never truncates: the result is as long as the wider of the text
      and the field, ends with the text, and holds only spaces before it. */
  lemma PadLeftShape(s: string, width: int)
    ensures var r := PadLeft(s, width);
      |r| == (if |s| < width then width else |s|) &&
      r[|r| - |s|..] == s &&
      forall k :: 0 <= k < |r| - |s| ==> r[k] == ' '
  {
  }

  /** `sep.join(parts)`. */
  function Join(sep: string, parts: seq<string>): string
  {
    if |parts| == 0 then ""
    else if |parts| == 1 then parts[0]
    else Join(sep, parts[..|parts| - 1]) + sep + parts[|parts| - 1]
  }

  function Count(c: char, s: string): nat
  {
    if s == [] then 0 else Count(c, s[..|s| - 1]) + (if s[|s| - 1] == c then 1 else 0)
  }

  lemma {:induction false} CountConcat(c: char, a: string, b: string)
    ensures Count(c, a + b) == Count(c, a) + Count(c, b)
  {
    if b != [] {
      assert (a + b)[..|a + b| - 1] == a + b[..|b| - 1];
      CountConcat(c, a, b[..|b| - 1]);
    } else {
      assert a + b == a;
    }
  }

  /** A joined string holds the character only where a part or the separator does. */
  lemma {:induction false} JoinWithout(c: char, sep: string, parts: seq<string>)
    requires c !in sep
    requires forall k :: 0 <= k < |parts| ==> c !in parts[k]
    ensures c !in Join(sep, parts)
  {
    if |parts| > 1 {
      JoinWithout(c, sep, parts[..|parts| - 1]);
    }
  }

  lemma {:induction false} CountAbsent(c: char, s: string)
    requires c !in s
    ensures Count(c, s) == 0
  {
    if s != [] {
      CountAbsent(c, s[..|s| - 1]);
    }
  }
}
