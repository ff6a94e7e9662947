/** String helpers shared by the WHERE builder and the SELECT assembler. */
module Strings {
  import opened Wrappers

  /** The column reference `alias.column` when an alias is given, bare `column` otherwise. */
  function Qualify(alias: Option<string>, column: string): string
  {
    match alias
    case Some(a) => a + "." + column
    case None => column
  }

  /** `xs` joined with `sep` between each pair of adjacent elements, in list order. */
  function Join(sep: string, xs: seq<string>): string
    decreases |xs|
  {
    if |xs| == 0 then ""
    else if |xs| == 1 then xs[0]
    else xs[0] + sep + Join(sep, xs[1..])
  }

  /** Joining is the same as appending one element at a time, which is how a
      StringBuilder loop with an index counter produces it. */
  lemma {:induction false} JoinSnoc(sep: string, xs: seq<string>, x: string)
    ensures Join(sep, xs + [x]) == if |xs| == 0 then x else Join(sep, xs) + sep + x
    decreases |xs|
  {
    if |xs| == 0 {
      assert xs + [x] == [x];
    } else if |xs| == 1 {
      assert xs + [x] == [xs[0], x];
      assert (xs + [x])[1..] == [x];
    } else {
      assert (xs + [x])[1..] == xs[1..] + [x];
      JoinSnoc(sep, xs[1..], x);
    }
  }

  /** Number of times `c` occurs in `s`. */
  function Occurrences(c: char, s: string): nat
    decreases |s|
  {
    if |s| == 0 then 0 else (if s[0] == c then 1 else 0) + Occurrences(c, s[1..])
  }

  /** Number of times `c` occurs across all of `xs`. */
  function TotalOccurrences(c: char, xs: seq<string>): nat
    decreases |xs|
  {
    if |xs| == 0 then 0 else Occurrences(c, xs[0]) + TotalOccurrences(c, xs[1..])
  }

  lemma {:induction false} OccurrencesConcat(c: char, a: string, b: string)
    ensures Occurrences(c, a + b) == Occurrences(c, a) + Occurrences(c, b)
    decreases |a|
  {
    if |a| == 0 {
      assert a + b == b;
    } else {
      assert (a + b)[1..] == a[1..] + b;
      OccurrencesConcat(c, a[1..], b);
    }
  }

  lemma {:induction false} OccurrencesNone(c: char, s: string)
    requires forall i :: 0 <= i < |s| ==> s[i] != c
    ensures Occurrences(c, s) == 0
    decreases |s|
  {
    if |s| > 0 {
      OccurrencesNone(c, s[1..]);
    }
  }

  /** A separator free of `c` adds no occurrence of `c` to a joined string. */
  lemma {:induction false} OccurrencesJoin(c: char, sep: string, xs: seq<string>)
    requires Occurrences(c, sep) == 0
    ensures Occurrences(c, Join(sep, xs)) == TotalOccurrences(c, xs)
    decreases |xs|
  {
    if |xs| == 0 {
    } else if |xs| == 1 {
      assert xs[1..] == [];
    } else {
      OccurrencesJoin(c, sep, xs[1..]);
      OccurrencesConcat(c, xs[0] + sep, Join(sep, xs[1..]));
      OccurrencesConcat(c, xs[0], sep);
    }
  }

  // ---------------------------------------------------------------------
  // Decimal rendering of integers, as Java's Integer.toString does it.

  function DigitChar(d: nat): (c: char)
    requires d < 10
    ensures '0' <= c <= '9'
  {
    (('0' as int) + d) as char
  }

  function DigitValue(c: char): (d: nat)
    requires '0' <= c <= '9'
    ensures d < 10 && DigitChar(d) == c
  {
    (c as int) - ('0' as int)
  }

  predicate IsDigits(s: string)
  {
    forall i :: 0 <= i < |s| ==> '0' <= s[i] <= '9'
  }

  /** Decimal digits of `n`, most significant first, no leading zero. */
  function NatToString(n: nat): string
    decreases n
  {
    if n < 10 then [DigitChar(n)] else NatToString(n / 10) + [DigitChar(n % 10)]
  }

  /** `n` in decimal, with a leading `-` when negative. */
  function IntToString(n: int): string
  {
    if n < 0 then "-" + NatToString(-n) else NatToString(n)
  }

  /** The value of a string of decimal digits. */
  function DigitsValue(s: string): nat
    requires IsDigits(s)
    decreases |s|
  {
    if |s| == 0 then 0 else DigitsValue(s[..|s| - 1]) * 10 + DigitValue(s[|s| - 1])
  }

  /** Reads back an optionally signed decimal number; `None` for anything else. */
  function ParseInt(s: string): Option<int>
  {
    if |s| > 1 && s[0] == '-' && IsDigits(s[1..]) then Some(-(DigitsValue(s[1..]) as int))
    else if |s| > 0 && IsDigits(s) then Some(DigitsValue(s))
    else None
  }

  lemma {:induction false} NatToStringDigits(n: nat)
    ensures |NatToString(n)| > 0 && IsDigits(NatToString(n))
    ensures DigitsValue(NatToString(n)) == n
    decreases n
  {
    var s := NatToString(n);
    if n < 10 {
      assert s == [DigitChar(n)];
      assert s[..0] == [];
    } else {
      var p, d := NatToString(n / 10), n % 10;
      NatToStringDigits(n / 10);
      assert s == p + [DigitChar(d)];
      assert s[..|s| - 1] == p;
      assert IsDigits(s) by {
        forall i | 0 <= i < |s| ensures '0' <= s[i] <= '9' {
          if i < |p| { assert s[i] == p[i]; }
        }
      }
      assert DigitsValue(s) == DigitsValue(p) * 10 + DigitValue(DigitChar(d));
      assert DigitValue(DigitChar(d)) == d;
      assert (n / 10) * 10 + d == n;
    }
  }

  /** The decimal text of every integer reads back as that integer. */
  lemma IntToStringRoundTrip(n: int)
    ensures ParseInt(IntToString(n)) == Some(n)
  {
    if n < 0 {
      NegativeRoundTrip(n);
    } else {
      NonNegativeRoundTrip(n);
    }
  }

  lemma NegativeRoundTrip(n: int)
    requires n < 0
    ensures ParseInt(IntToString(n)) == Some(n)
  {
    NatToStringDigits(-n);
    ParseNegative(NatToString(-n));
  }

  lemma ParseNegative(digits: string)
    requires |digits| > 0 && IsDigits(digits)
    ensures ParseInt("-" + digits) == Some(-(DigitsValue(digits) as int))
  {
    var s := "-" + digits;
    assert s[0] == '-' && s[1..] == digits;
  }

  lemma NonNegativeRoundTrip(n: nat)
    ensures ParseInt(IntToString(n)) == Some(n)
  {
    NatToStringDigits(n);
    var s := NatToString(n);
    assert '0' <= s[0] <= '9';
  }

  // ---------------------------------------------------------------------
  // Blankness, as Apache Commons' StringUtils.isNotBlank decides it.

  /** Java's Character.isWhitespace: the ASCII controls TAB..CR and FS..US, and
      the Unicode space, line and paragraph separators except the no-break spaces. */
  predicate IsWhitespace(c: char)
  {
    || ('\t' <= c <= '\r')
    || ('\U{1C}' <= c <= '\U{1F}')
    || c == ' '
    || c == '\U{1680}'
    || ('\U{2000}' <= c <= '\U{200A}' && c != '\U{2007}')
    || c == '\U{2028}' || c == '\U{2029}'
    || c == '\U{205F}' || c == '\U{3000}'
  }

  /** Some character of `s` is not whitespace. */
  predicate IsNotBlank(s: string)
  {
    exists i :: 0 <= i < |s| && !IsWhitespace(s[i])
  }
}
