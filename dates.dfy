/** Calendar dates, their zero-padded ISO text (`YYYY-MM-DD`), the partition
    names built from it, and the proof that string order on such names is
    chronological order. */
module Dates {

  datatype Date = Date(year: nat, month: nat, day: nat)

  /** A timestamp: a calendar date and the microseconds since midnight. */
  datatype DateTime = DateTime(date: Date, micros: nat)

  /** The range of a Python `date`: years 1..9999. */
  predicate ValidDate(d: Date) {
    1 <= d.year <= 9999 && 1 <= d.month <= 12 && 1 <= d.day <= 31
  }

  /** Chronological order on dates. */
  predicate Before(d1: Date, d2: Date) {
    || d1.year < d2.year
    || (d1.year == d2.year && d1.month < d2.month)
    || (d1.year == d2.year && d1.month == d2.month && d1.day < d2.day)
  }

  // ---------------------------------------------------------------------
  // Lexicographic order on strings, as Python compares `str` values

  predicate LexLess(a: string, b: string)
    decreases |a|
  {
    if |a| == 0 then |b| > 0
    else |b| > 0 && (a[0] < b[0] || (a[0] == b[0] && LexLess(a[1..], b[1..])))
  }

  predicate LexLe(a: string, b: string) {
    a == b || LexLess(a, b)
  }

  lemma {:induction false} LexLessIrreflexive(a: string)
    ensures !LexLess(a, a)
  {
    if |a| > 0 {
      LexLessIrreflexive(a[1..]);
    }
  }

  lemma {:induction false} LexLessTransitive(a: string, b: string, c: string)
    requires LexLess(a, b) && LexLess(b, c)
    ensures LexLess(a, c)
  {
    if |a| > 0 && a[0] == b[0] && b[0] == c[0] {
      LexLessTransitive(a[1..], b[1..], c[1..]);
    }
  }

  lemma {:induction false} LexTrichotomy(a: string, b: string)
    ensures a == b || LexLess(a, b) || LexLess(b, a)
  {
    if |a| > 0 && |b| > 0 && a[0] == b[0] {
      LexTrichotomy(a[1..], b[1..]);
      if a[1..] == b[1..] {
        assert a == [a[0]] + a[1..] && b == [b[0]] + b[1..];
      }
    }
  }

  lemma LexLessAsymmetric(a: string, b: string)
    requires LexLess(a, b)
    ensures !LexLess(b, a)
  {
    if LexLess(b, a) {
      LexLessTransitive(a, b, a);
      LexLessIrreflexive(a);
    }
  }

  lemma LexLeTotal(a: string, b: string)
    ensures LexLe(a, b) || LexLe(b, a)
  {
    LexTrichotomy(a, b);
  }

  lemma LexLeTransitive(a: string, b: string, c: string)
    requires LexLe(a, b) && LexLe(b, c)
    ensures LexLe(a, c)
  {
    if a != b && b != c {
      LexLessTransitive(a, b, c);
    }
  }

  /** When two strings start with prefixes of equal length, the prefixes
      decide the order unless they are equal. */
  lemma {:induction false} LexAppend(a: string, b: string, s: string, t: string)
    requires |a| == |b|
    ensures LexLess(a + s, b + t) <==> LexLess(a, b) || (a == b && LexLess(s, t))
  {
    if |a| == 0 {
      assert a + s == s && b + t == t;
    } else {
      assert (a + s)[1..] == a[1..] + s && (b + t)[1..] == b[1..] + t;
      LexAppend(a[1..], b[1..], s, t);
      assert a == b <==> a[0] == b[0] && a[1..] == b[1..] by {
        if a[0] == b[0] && a[1..] == b[1..] {
          assert a == [a[0]] + a[1..] && b == [b[0]] + b[1..];
        }
      }
    }
  }

  // ---------------------------------------------------------------------
  // Zero-padded decimal text

  function Pow10(w: nat): nat {
    if w == 0 then 1 else 10 * Pow10(w - 1)
  }

  function DigitChar(d: nat): char
    requires d < 10
  {
    ('0' as int + d) as char
  }

  /** The last `w` decimal digits of `n`, zero-padded on the left. */
  function Digits(n: nat, w: nat): (r: string)
    ensures |r| == w
  {
    if w == 0 then "" else Digits(n / 10, w - 1) + [DigitChar(n % 10)]
  }

  lemma SingletonLess(c: char, d: char)
    ensures LexLess([c], [d]) <==> c < d
  {
    assert [c][1..] == [] && [d][1..] == [];
  }

  lemma DivModOrder(n: nat, m: nat)
    ensures n < m <==> n / 10 < m / 10 || (n / 10 == m / 10 && n % 10 < m % 10)
    ensures n == m <==> n / 10 == m / 10 && n % 10 == m % 10
  {
  }

  /** For numbers that fit in `w` digits, the padded texts compare like the
      numbers, and they are equal exactly when the numbers are. */
  lemma {:induction false} DigitsOrder(n: nat, m: nat, w: nat)
    requires n < Pow10(w) && m < Pow10(w)
    ensures LexLess(Digits(n, w), Digits(m, w)) <==> n < m
    ensures Digits(n, w) == Digits(m, w) <==> n == m
  {
    if w > 0 {
      var a, b := Digits(n / 10, w - 1), Digits(m / 10, w - 1);
      var c, d := DigitChar(n % 10), DigitChar(m % 10);
      DigitsOrder(n / 10, m / 10, w - 1);
      LexAppend(a, b, [c], [d]);
      SingletonLess(c, d);
      DivModOrder(n, m);
      assert a + [c] == b + [d] <==> a == b && c == d by {
        if a + [c] == b + [d] {
          assert a == (a + [c])[..|a|] && b == (b + [d])[..|b|];
          assert c == (a + [c])[|a|] && d == (b + [d])[|b|];
        }
      }
    }
  }

  // ---------------------------------------------------------------------
  // ISO dates and partition names

  /** `strftime("%Y-%m-%d")`. */
  function FormatDate(d: Date): string {
    Digits(d.year, 4) + ("-" + (Digits(d.month, 2) + ("-" + Digits(d.day, 2))))
  }

  const PartitionPrefix: string := "ingestion_date="

  /** The directory name of a raw partition: `ingestion_date=YYYY-MM-DD`. */
  function PartitionName(d: Date): string {
    PartitionPrefix + FormatDate(d)
  }

  lemma EqualPrefixOrder(p: string, s: string, t: string)
    ensures LexLess(p + s, p + t) <==> LexLess(s, t)
    ensures p + s == p + t <==> s == t
  {
    LexAppend(p, p, s, t);
    LexLessIrreflexive(p);
    if p + s == p + t {
      assert s == (p + s)[|p|..] && t == (p + t)[|p|..];
    }
  }

  lemma SplitOrder(a: string, b: string, s: string, t: string)
    requires |a| == |b|
    ensures LexLess(a + s, b + t) <==> LexLess(a, b) || (a == b && LexLess(s, t))
    ensures a + s == b + t <==> a == b && s == t
  {
    LexAppend(a, b, s, t);
    if a + s == b + t {
      assert a == (a + s)[..|a|] && b == (b + t)[..|b|];
      assert s == (a + s)[|a|..] && t == (b + t)[|b|..];
    }
  }

  /** String order on zero-padded ISO dates is chronological order, and the
      text determines the date. */
  lemma FormatDateOrder(d1: Date, d2: Date)
    requires ValidDate(d1) && ValidDate(d2)
    ensures LexLess(FormatDate(d1), FormatDate(d2)) <==> Before(d1, d2)
    ensures FormatDate(d1) == FormatDate(d2) <==> d1 == d2
  {
    assert Pow10(2) == 100 && Pow10(4) == 10000;
    DigitsOrder(d1.year, d2.year, 4);
    DigitsOrder(d1.month, d2.month, 2);
    DigitsOrder(d1.day, d2.day, 2);
    var dd1, dd2 := "-" + Digits(d1.day, 2), "-" + Digits(d2.day, 2);
    EqualPrefixOrder("-", Digits(d1.day, 2), Digits(d2.day, 2));
    var md1, md2 := Digits(d1.month, 2) + dd1, Digits(d2.month, 2) + dd2;
    SplitOrder(Digits(d1.month, 2), Digits(d2.month, 2), dd1, dd2);
    EqualPrefixOrder("-", md1, md2);
    SplitOrder(Digits(d1.year, 4), Digits(d2.year, 4), "-" + md1, "-" + md2);
  }

  /** The same holds for the partition names built from the dates. */
  lemma PartitionNameOrder(d1: Date, d2: Date)
    requires ValidDate(d1) && ValidDate(d2)
    ensures LexLess(PartitionName(d1), PartitionName(d2)) <==> Before(d1, d2)
    ensures PartitionName(d1) == PartitionName(d2) <==> d1 == d2
  {
    FormatDateOrder(d1, d2);
    EqualPrefixOrder(PartitionPrefix, FormatDate(d1), FormatDate(d2));
  }
}
