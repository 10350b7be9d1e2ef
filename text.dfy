/**
 * String helpers: Python's `str(n)` on non-negative integers, `int(s)` on digit
 * strings, the two-character zero padding used in event URLs, and
 * `s.replace("\n", ", ")`.
 */
module Text {

  predicate IsDigit(c: char) {
    '0' <= c <= '9'
  }

  predicate AllDigits(s: string) {
    forall i :: 0 <= i < |s| ==> IsDigit(s[i])
  }

  function DigitChar(d: nat): (c: char)
    requires d < 10
    ensures IsDigit(c) && c as int - '0' as int == d
  {
    ('0' as int + d) as char
  }

  /** `str(n)` for a non-negative integer: decimal digits, no leading zero. */
  function NatToString(n: nat): (s: string)
    ensures |s| >= 1 && AllDigits(s)
    ensures n < 10 <==> |s| == 1
    ensures n >= 10 ==> s[0] != '0'
    decreases n
  {
    if n < 10 then [DigitChar(n)] else NatToString(n / 10) + [DigitChar(n % 10)]
  }

  /** `int(s)` for a string of decimal digits. */
  function ParseNat(s: string): nat
    requires AllDigits(s)
    decreases |s|
  {
    if s == [] then 0 else 10 * ParseNat(s[..|s| - 1]) + (s[|s| - 1] as int - '0' as int)
  }

  /** Rendering a number in decimal and parsing it back gives the number. */
  lemma {:induction false} ParseNatToString(n: nat)
    ensures ParseNat(NatToString(n)) == n
    decreases n
  {
    if n >= 10 {
      var s := NatToString(n);
      assert s[..|s| - 1] == NatToString(n / 10);
      ParseNatToString(n / 10);
    }
  }

  /** Distinct numbers have distinct decimal renderings. */
  lemma NatToStringInjective(a: nat, b: nat)
    requires NatToString(a) == NatToString(b)
    ensures a == b
  {
    ParseNatToString(a);
    ParseNatToString(b);
  }

  /** A leading zero does not change the parsed value. */
  lemma {:induction false} ParseNatLeadingZero(s: string)
    requires AllDigits(s)
    ensures AllDigits("0" + s) && ParseNat("0" + s) == ParseNat(s)
    decreases |s|
  {
    if s != [] {
      var t := "0" + s;
      assert t[..|t| - 1] == "0" + s[..|s| - 1];
      ParseNatLeadingZero(s[..|s| - 1]);
    }
  }

  /** `"0%s" % v` when `str(v)` has one character, else `str(v)`. */
  function Padded(n: nat): string {
    var s := NatToString(n);
    if |s| == 1 then "0" + s else s
  }

  /** A padded date part is at least two digits, exactly two below 100, and parses back. */
  lemma PaddedRoundTrip(n: nat)
    ensures AllDigits(Padded(n)) && |Padded(n)| >= 2
    ensures n < 100 ==> |Padded(n)| == 2
    ensures ParseNat(Padded(n)) == n
  {
    ParseNatToString(n);
    var s := NatToString(n);
    if |s| == 1 { ParseNatLeadingZero(s); }
    if 10 <= n < 100 { assert NatToString(n) == NatToString(n / 10) + [DigitChar(n % 10)]; }
  }

  /** `s.replace("\n", ", ")`. */
  function ReplaceNewlines(s: string): (r: string)
    ensures forall i :: 0 <= i < |r| ==> r[i] != '\n'
    ensures (forall i :: 0 <= i < |s| ==> s[i] != '\n') ==> r == s
    decreases |s|
  {
    if s == [] then []
    else (if s[0] == '\n' then ", " else [s[0]]) + ReplaceNewlines(s[1..])
  }

  /** Replacement distributes over concatenation. */
  lemma {:induction false} ReplaceNewlinesAppend(a: string, b: string)
    ensures ReplaceNewlines(a + b) == ReplaceNewlines(a) + ReplaceNewlines(b)
    decreases |a|
  {
    if a == [] {
      assert a + b == b;
    } else {
      assert (a + b)[0] == a[0] && (a + b)[1..] == a[1..] + b;
      ReplaceNewlinesAppend(a[1..], b);
    }
  }

  /** Each line break between two lines becomes exactly one ", ". */
  lemma ReplaceNewlinesJoin(a: string, b: string)
    ensures ReplaceNewlines(a + "\n" + b) == ReplaceNewlines(a) + ", " + ReplaceNewlines(b)
  {
    ReplaceNewlinesAppend(a + "\n", b);
    ReplaceNewlinesAppend(a, "\n");
  }
}
