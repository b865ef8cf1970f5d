/**
 * String building blocks used by the formatters: Ruby's `Integer#to_s`
 * (decimal rendering), `Array#join` and `String#*`, with the parsers that
 * serve as their independent partners.
 */
module Text {

  predicate IsDigit(c: char) {
    '0' <= c <= '9'
  }

  /** The decimal digit character for `d`. */
  function Digit(d: nat): (c: char)
    requires d < 10
    ensures IsDigit(c) && c as int - '0' as int == d
  {
    ('0' as int + d) as char
  }

  /** Value of a digit character; any other character reads as 0. */
  function DigitValue(c: char): nat {
    if IsDigit(c) then c as int - '0' as int else 0
  }

  /** `n.to_s` for a non-negative integer: decimal digits, no leading zero. */
  function NatToString(n: nat): (s: string)
    ensures |s| >= 1
    ensures forall i :: 0 <= i < |s| ==> IsDigit(s[i])
    ensures |s| > 1 ==> s[0] != '0'
    decreases n
  {
    if n < 10 then [Digit(n)] else NatToString(n / 10) + [Digit(n % 10)]
  }

  /** True when `d` is a decimal numeral: at least one digit, no leading zero. */
  predicate IsNumeral(d: string) {
    |d| >= 1 && (forall i :: 0 <= i < |d| ==> IsDigit(d[i])) && (|d| > 1 ==> d[0] != '0')
  }

  /** `n.to_s` for any integer: a leading '-' for negatives, then a numeral. */
  function IntToString(n: int): (s: string)
    ensures |s| >= 1
    ensures s[0] == '-' <==> n < 0
  {
    if n < 0 then "-" + NatToString(-n) else NatToString(n)
  }

  /** After its optional '-', the rendering of an integer is a numeral. */
  lemma IntToStringNumeral(n: int)
    ensures IsNumeral(if n < 0 then IntToString(n)[1..] else IntToString(n))
  {
    if n < 0 {
      assert IntToString(n)[1..] == NatToString(-n);
    }
  }

  /** Reads a string of decimal digits back as a number. */
  function ParseNat(s: string): nat
    decreases |s|
  {
    if s == [] then 0 else 10 * ParseNat(s[..|s| - 1]) + DigitValue(s[|s| - 1])
  }

  /** Reads an optionally signed decimal number ("+3", "-3", "3"). */
  function ParseInt(s: string): int {
    if |s| > 0 && s[0] == '-' then -(ParseNat(s[1..]) as int)
    else if |s| > 0 && s[0] == '+' then ParseNat(s[1..])
    else ParseNat(s)
  }

  /** Decimal rendering of a natural number is read back exactly. */
  lemma {:induction false} ParseNatToString(n: nat)
    ensures ParseNat(NatToString(n)) == n
    decreases n
  {
    if n >= 10 {
      var s := NatToString(n);
      assert s[..|s| - 1] == NatToString(n / 10);
      ParseNatToString(n / 10);
    }
  }

  /** Decimal rendering of any integer is read back exactly. */
  lemma ParseIntToString(n: int)
    ensures ParseInt(IntToString(n)) == n
  {
    if n < 0 {
      assert IntToString(n)[1..] == NatToString(-n);
      ParseNatToString(-n);
    } else {
      ParseNatToString(n);
    }
  }

  /** `Array#join(sep)`: the parts with `sep` between neighbours; "" for no parts. */
  function Join(parts: seq<string>, sep: string): (s: string)
    ensures |parts| == 0 ==> s == ""
    ensures |parts| == 1 ==> s == parts[0]
    decreases |parts|
  {
    if |parts| == 0 then ""
    else if |parts| == 1 then parts[0]
    else parts[0] + sep + Join(parts[1..], sep)
  }

  /** Joining a concatenation puts one separator between the two joined halves. */
  lemma {:induction false} JoinAppend(a: seq<string>, b: seq<string>, sep: string)
    requires |a| > 0 && |b| > 0
    ensures Join(a + b, sep) == Join(a, sep) + sep + Join(b, sep)
    decreases |a|
  {
    if |a| == 1 {
      assert (a + b)[1..] == b;
    } else {
      assert (a + b)[1..] == a[1..] + b;
      JoinAppend(a[1..], b, sep);
    }
  }

  /** Lists whose joins agree still agree after the same lines are put in front. */
  lemma JoinSamePrefix(a: seq<string>, x: seq<string>, y: seq<string>, sep: string)
    requires |x| > 0 && |y| > 0 && Join(x, sep) == Join(y, sep)
    ensures Join(a + x, sep) == Join(a + y, sep)
  {
    if |a| > 0 {
      JoinAppend(a, x, sep);
      JoinAppend(a, y, sep);
    } else {
      assert a + x == x && a + y == y;
    }
  }

  /** A non-empty group joined with the same separator and then joined again
      gives the same text as joining the flat list of lines. */
  lemma JoinFlatten(a: seq<string>, b: seq<string>, c: seq<string>, sep: string)
    requires |b| > 0
    ensures Join(a + [Join(b, sep)] + c, sep) == Join(a + b + c, sep)
  {
    var x, y := [Join(b, sep)] + c, b + c;
    assert Join(x, sep) == Join(y, sep) by {
      if |c| > 0 {
        JoinAppend([Join(b, sep)], c, sep);
        JoinAppend(b, c, sep);
      } else {
        assert x == [Join(b, sep)] && y == b;
      }
    }
    JoinSamePrefix(a, x, y, sep);
    assert a + [Join(b, sep)] + c == a + x;
    assert a + b + c == a + y;
  }

  /** `c * n`: the character repeated `n` times. */
  function Repeat(c: char, n: nat): (s: string)
    ensures |s| == n
    ensures forall i :: 0 <= i < n ==> s[i] == c
  {
    if n == 0 then "" else [c] + Repeat(c, n - 1)
  }
}
