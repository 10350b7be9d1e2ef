/**
 * Naive Python `datetime` values, their ordering, and the English month names of
 * `calendar.month_name` that the views and template tags use.
 */
module Chrono {
  import opened Wrappers

  /** A naive `datetime`: fields compared most-significant first, as Python does. */
  datatype DateTime = DateTime(year: nat, month: nat, day: nat,
                               hour: nat, minute: nat, second: nat, microsecond: nat)

  function Fields(d: DateTime): seq<nat> {
    [d.year, d.month, d.day, d.hour, d.minute, d.second, d.microsecond]
  }

  /** Strict lexicographic order on equally long digit vectors. */
  predicate LexLess(a: seq<nat>, b: seq<nat>)
    decreases |a|
  {
    |a| > 0 && |b| > 0 && (a[0] < b[0] || (a[0] == b[0] && LexLess(a[1..], b[1..])))
  }

  /** `a < b` on datetimes. */
  predicate Before(a: DateTime, b: DateTime) {
    LexLess(Fields(a), Fields(b))
  }

  lemma {:induction false} LexLessIrreflexive(a: seq<nat>)
    ensures !LexLess(a, a)
    decreases |a|
  {
    if |a| > 0 { LexLessIrreflexive(a[1..]); }
  }

  lemma {:induction false} LexLessTransitive(a: seq<nat>, b: seq<nat>, c: seq<nat>)
    requires LexLess(a, b) && LexLess(b, c)
    ensures LexLess(a, c)
    decreases |a|
  {
    if a[0] == b[0] && b[0] == c[0] { LexLessTransitive(a[1..], b[1..], c[1..]); }
  }

  lemma {:induction false} LexLessTotal(a: seq<nat>, b: seq<nat>)
    requires |a| == |b|
    ensures a == b || LexLess(a, b) || LexLess(b, a)
    decreases |a|
  {
    if |a| > 0 && a[0] == b[0] {
      LexLessTotal(a[1..], b[1..]);
      if a[1..] == b[1..] { assert a == [a[0]] + a[1..] && b == [b[0]] + b[1..]; }
    }
  }

  lemma FieldsInjective(a: DateTime, b: DateTime)
    requires Fields(a) == Fields(b)
    ensures a == b
  {
    assert Fields(a)[0] == Fields(b)[0] && Fields(a)[1] == Fields(b)[1] && Fields(a)[2] == Fields(b)[2];
    assert Fields(a)[3] == Fields(b)[3] && Fields(a)[4] == Fields(b)[4];
    assert Fields(a)[5] == Fields(b)[5] && Fields(a)[6] == Fields(b)[6];
  }

  /** Datetime comparison is a strict total order. */
  lemma BeforeIsStrictTotalOrder(a: DateTime, b: DateTime, c: DateTime)
    ensures !Before(a, a)
    ensures Before(a, b) && Before(b, c) ==> Before(a, c)
    ensures a == b || Before(a, b) || Before(b, a)
  {
    LexLessIrreflexive(Fields(a));
    if Before(a, b) && Before(b, c) { LexLessTransitive(Fields(a), Fields(b), Fields(c)); }
    LexLessTotal(Fields(a), Fields(b));
    if Fields(a) == Fields(b) { FieldsInjective(a, b); }
  }

  /** `datetime(d.year, d.month, 1)`: the first instant of `d`'s month. */
  function MonthStart(d: DateTime): (m: DateTime)
    ensures m.year == d.year && m.month == d.month && m.day == 1
    ensures m.hour == 0 && m.minute == 0 && m.second == 0 && m.microsecond == 0
  {
    DateTime(d.year, d.month, 1, 0, 0, 0, 0)
  }

  /** `calendar.month_name` in the C locale; index 0 is the empty name. */
  const MonthNames: seq<string> := ["", "January", "February", "March", "April", "May", "June",
                                    "July", "August", "September", "October", "November", "December"]

  /** `month_name[i]`: None stands for the IndexError raised past December. */
  function MonthName(i: nat): Option<string> {
    if i < |MonthNames| then Some(MonthNames[i]) else None
  }

  /** `strptime(name, '%B').tm_mon`: None stands for the ValueError on a non-name. */
  function MonthNumber(name: string): Option<nat> {
    if name == "January" then Some(1) else if name == "February" then Some(2)
    else if name == "March" then Some(3) else if name == "April" then Some(4)
    else if name == "May" then Some(5) else if name == "June" then Some(6)
    else if name == "July" then Some(7) else if name == "August" then Some(8)
    else if name == "September" then Some(9) else if name == "October" then Some(10)
    else if name == "November" then Some(11) else if name == "December" then Some(12)
    else None
  }

  /** Parsing a month name inverts naming a month, and only months 1..12 have parseable names. */
  lemma MonthNameRoundTrip(m: nat, name: string)
    ensures MonthNumber(name) == Some(m) <==> 1 <= m <= 12 && MonthName(m) == Some(name)
  {
    if 1 <= m <= 12 && MonthName(m) == Some(name) {
      if m == 1 { assert name == "January"; } else if m == 2 { assert name == "February"; }
      else if m == 3 { assert name == "March"; } else if m == 4 { assert name == "April"; }
      else if m == 5 { assert name == "May"; } else if m == 6 { assert name == "June"; }
      else if m == 7 { assert name == "July"; } else if m == 8 { assert name == "August"; }
      else if m == 9 { assert name == "September"; } else if m == 10 { assert name == "October"; }
      else if m == 11 { assert name == "November"; } else { assert name == "December"; }
    }
  }

  /** Month 0 names the empty string, which is not a parseable month. */
  lemma MonthZeroIsBlank()
    ensures MonthName(0) == Some("") && MonthNumber("") == None
  {
  }
}
