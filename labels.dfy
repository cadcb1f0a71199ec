/**
 * The description label every workout carries (`Workout._setDescription`):
 * the type with its first letter capitalised, " on ", the month name and the
 * day of the month, as in "Running on March 5".
 */
module Labels {

  /** The two workout types; their names are the `type` field values. */
  datatype Kind = RunningType | CyclingType

  function TypeName(k: Kind): string {
    match k
    case RunningType => "running"
    case CyclingType => "cycling"
  }

  /** A date as `_setDescription` reads it: `getMonth()` (0-based) and `getDate()`. */
  datatype CalendarDay = CalendarDay(month: nat, day: nat)

  /** What a JavaScript `Date` yields: a month index below 12 and a day of month from 1 to 31. */
  predicate ValidDay(d: CalendarDay) {
    d.month < 12 && 1 <= d.day <= 31
  }

  const MonthNames: seq<string> := [
    "January", "February", "March", "April", "May", "June",
    "July", "August", "September", "October", "November", "December"
  ]

  /** `toUpperCase` on one character, for the ASCII letters the type names use. */
  function UpperAscii(c: char): char {
    if 'a' <= c <= 'z' then (c as int - 32) as char else c
  }

  /** `toLowerCase` on one character, for the ASCII letters: the partner of UpperAscii. */
  function LowerAscii(c: char): char {
    if 'A' <= c <= 'Z' then (c as int + 32) as char else c
  }

  /** Upper-casing maps lower-case letters to upper-case ones, and lower-casing undoes it. */
  lemma CaseRoundTrip(c: char)
    ensures 'a' <= c <= 'z' ==> 'A' <= UpperAscii(c) <= 'Z' && LowerAscii(UpperAscii(c)) == c
    ensures !('a' <= c <= 'z') && !('A' <= c <= 'Z') ==> UpperAscii(c) == c && LowerAscii(c) == c
  {
  }

  /** `s[0].toUpperCase() + s.slice(1)` */
  function Capitalize(s: string): (r: string)
    requires |s| > 0
    ensures |r| == |s| && r[0] == UpperAscii(s[0]) && r[1..] == s[1..]
    ensures 'a' <= s[0] <= 'z' ==> 'A' <= r[0] <= 'Z' && LowerAscii(r[0]) == s[0]
  {
    CaseRoundTrip(s[0]);
    [UpperAscii(s[0])] + s[1..]
  }

  predicate IsDigit(c: char) {
    '0' <= c <= '9'
  }

  function DigitChar(d: nat): (c: char)
    requires d < 10
    ensures IsDigit(c) && c as int - '0' as int == d
  {
    ('0' as int + d) as char
  }

  /** The decimal text of a number, as `${n}` writes a non-negative integer. */
  function Decimal(n: nat): (r: string)
    ensures |r| > 0 && forall i :: 0 <= i < |r| ==> IsDigit(r[i])
    ensures r[0] == '0' <==> n == 0
    ensures |r| == 1 <==> n < 10
  {
    if n < 10 then [DigitChar(n)] else Decimal(n / 10) + [DigitChar(n % 10)]
  }

  function DigitValue(c: char): (d: nat)
    requires IsDigit(c)
    ensures d < 10
  {
    c as int - '0' as int
  }

  /** Reads a string of decimal digits back as a number: the partner of Decimal. */
  function ParseDecimal(s: string): nat
    requires forall i :: 0 <= i < |s| ==> IsDigit(s[i])
  {
    if s == [] then 0
    else ParseDecimal(s[..|s| - 1]) * 10 + DigitValue(s[|s| - 1])
  }

  lemma {:induction false} DecimalRoundTrip(n: nat)
    ensures ParseDecimal(Decimal(n)) == n
  {
    if n >= 10 {
      var s := Decimal(n);
      assert s[..|s| - 1] == Decimal(n / 10);
      DecimalRoundTrip(n / 10);
    }
  }

  /** The fixed head of a description: the capitalised type name and " on ". */
  function Heading(k: Kind): (h: string)
    ensures h == (if k == RunningType then "Running on " else "Cycling on ")
  {
    Capitalize(TypeName(k)) + " on "
  }

  /** The description built by `_setDescription`. */
  function Describe(k: Kind, d: CalendarDay): (r: string)
    requires d.month < 12
    ensures |r| > 11 && r[..11] == (if k == RunningType then "Running on " else "Cycling on ")
    ensures r[11..] == MonthNames[d.month] + " " + Decimal(d.day)
  {
    var h, rest := Heading(k), MonthNames[d.month] + " " + Decimal(d.day);
    assert (h + rest)[..|h|] == h && (h + rest)[|h|..] == rest;
    h + rest
  }

  /** The label that the running constructor produces for March 5. */
  lemma DescribeExample()
    ensures Describe(RunningType, CalendarDay(2, 5)) == "Running on March 5"
  {
  }

  predicate NoSpace(s: string) {
    forall i :: 0 <= i < |s| ==> s[i] != ' '
  }

  /** The characters of `a + " " + b` up to and including the separating space. */
  lemma CharAt(a: string, b: string, i: int)
    ensures 0 <= i < |a| ==> (a + " " + b)[i] == a[i]
    ensures i == |a| ==> (a + " " + b)[i] == ' '
  {
  }

  /** Splitting at the first space: a space-free head followed by " " is recovered uniquely. */
  lemma SplitAtSpace(a1: string, b1: string, a2: string, b2: string)
    requires NoSpace(a1) && NoSpace(a2)
    requires a1 + " " + b1 == a2 + " " + b2
    ensures a1 == a2 && b1 == b2
  {
    var s1, s2 := a1 + " " + b1, a2 + " " + b2;
    if |a1| < |a2| {
      CharAt(a1, b1, |a1|);
      CharAt(a2, b2, |a1|);
      assert false;
    } else if |a2| < |a1| {
      CharAt(a2, b2, |a2|);
      CharAt(a1, b1, |a2|);
      assert false;
    }
    assert a1 == s1[..|a1|] == s2[..|a2|] == a2;
    assert b1 == s1[|a1| + 1..] == s2[|a2| + 1..] == b2;
  }

  /** The twelve month names are pairwise different and contain no space. */
  lemma MonthNamesDistinct(m1: nat, m2: nat)
    requires m1 < 12 && m2 < 12
    ensures NoSpace(MonthNames[m1])
    ensures MonthNames[m1] == MonthNames[m2] ==> m1 == m2
  {
  }

  /** The decimal text determines the number it was written from. */
  lemma DecimalInjective(n1: nat, n2: nat)
    requires Decimal(n1) == Decimal(n2)
    ensures n1 == n2
  {
    DecimalRoundTrip(n1);
    DecimalRoundTrip(n2);
  }

  lemma HeadingShape(k1: Kind, k2: Kind)
    ensures |Heading(k1)| == 11
    ensures Heading(k1) == Heading(k2) ==> k1 == k2
  {
    assert Heading(k1)[0] == (if k1 == RunningType then 'R' else 'C');
    assert Heading(k2)[0] == (if k2 == RunningType then 'R' else 'C');
  }

  /** Two sequences that agree after equally long heads agree in head and tail. */
  lemma CancelHead(p1: string, r1: string, p2: string, r2: string)
    requires |p1| == |p2| && p1 + r1 == p2 + r2
    ensures p1 == p2 && r1 == r2
  {
    assert p1 == (p1 + r1)[..|p1|];
    assert p2 == (p2 + r2)[..|p2|];
    assert r1 == (p1 + r1)[|p1|..];
    assert r2 == (p2 + r2)[|p2|..];
  }

  /** The description determines the workout type, the month and the day it was built from. */
  lemma DescriptionDeterminesKindAndDay(k1: Kind, d1: CalendarDay, k2: Kind, d2: CalendarDay)
    requires d1.month < 12 && d2.month < 12
    requires Describe(k1, d1) == Describe(k2, d2)
    ensures k1 == k2 && d1 == d2
  {
    HeadingShape(k1, k2);
    HeadingShape(k2, k1);
    var rest1 := MonthNames[d1.month] + " " + Decimal(d1.day);
    var rest2 := MonthNames[d2.month] + " " + Decimal(d2.day);
    CancelHead(Heading(k1), rest1, Heading(k2), rest2);
    MonthNamesDistinct(d1.month, d2.month);
    MonthNamesDistinct(d2.month, d1.month);
    SplitAtSpace(MonthNames[d1.month], Decimal(d1.day), MonthNames[d2.month], Decimal(d2.day));
    DecimalInjective(d1.day, d2.day);
  }
}
