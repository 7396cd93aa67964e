/** Calendar dates as the row loop compares them. `datetime.strptime(s, "%d/%m/%Y")`
    yields midnight of the given day, so two parsed values compare exactly as their
    (year, month, day) triples do, lexicographically. */
module Dates {
  datatype Date = Date(year: int, month: int, day: int)

  /** The ranges strptime's %d and %m accept; every date it returns lies in them. */
  predicate WellFormed(d: Date) {
    1 <= d.month <= 12 && 1 <= d.day <= 31
  }

  /** `a <= b` on the parsed datetimes: on well-formed dates, the order of their numbers. */
  predicate LessEq(a: Date, b: Date): (r: bool)
    ensures WellFormed(a) && WellFormed(b) ==> (r <==> Ordinal(a) <= Ordinal(b))
  {
    a.year < b.year ||
    (a.year == b.year && (a.month < b.month || (a.month == b.month && a.day <= b.day)))
  }

  /** `from_date <= date <= to_date`: the range is inclusive at both ends, and only a
      non-empty range holds any date. */
  predicate InRange(d: Date, from: Date, to: Date): (r: bool)
    ensures r ==> LessEq(from, to)
    ensures WellFormed(d) && WellFormed(from) && WellFormed(to) ==>
              (r <==> Ordinal(from) <= Ordinal(d) <= Ordinal(to))
  {
    LessEq(from, d) && LessEq(d, to)
  }

  /** An independent numbering of well-formed dates: 31 slots per month, 12 months per year. */
  function Ordinal(d: Date): int {
    d.year * 372 + (d.month - 1) * 31 + (d.day - 1)
  }

  /** The lexicographic comparison is the order of the 31-slots-per-month numbering. */
  lemma LessEqIsOrdinalOrder(a: Date, b: Date)
    requires WellFormed(a) && WellFormed(b)
    ensures LessEq(a, b) <==> Ordinal(a) <= Ordinal(b)
  {
  }

  /** LessEq is a total order, so the range test is a proper interval test. */
  lemma LessEqTotalOrder(a: Date, b: Date, c: Date)
    ensures LessEq(a, a)
    ensures LessEq(a, b) || LessEq(b, a)
    ensures LessEq(a, b) && LessEq(b, a) ==> a == b
    ensures LessEq(a, b) && LessEq(b, c) ==> LessEq(a, c)
  {
  }

  /** Both bounds belong to a non-empty range; a date strictly before `from` or strictly
      after `to` does not. */
  lemma InRangeBounds(d: Date, from: Date, to: Date)
    ensures LessEq(from, to) ==> InRange(from, from, to) && InRange(to, from, to)
    ensures LessEq(d, from) && d != from ==> !InRange(d, from, to)
    ensures LessEq(to, d) && d != to ==> !InRange(d, from, to)
  {
  }
}
