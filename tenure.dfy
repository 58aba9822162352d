/**
 * Career-duration arithmetic shared by the résumé page and the dashboard.
 *
 * A date is a month of a year; "now" is passed in. A date field holds either
 * nothing (the empty string or an absent value), a readable date, or text that
 * `new Date(...)` cannot read. Arithmetic on an unreadable date gives NaN, which
 * is None below, and NaN absorbs every sum it enters.
 */
module Tenure {
  import opened Wrappers
  import Js

  /** A calendar month; `month` runs from 1 to 12 for dates the month picker writes. */
  datatype YearMonth = YearMonth(year: int, month: int)

  predicate ValidMonth(d: YearMonth) {
    1 <= d.month <= 12
  }

  /** The contents of a date field. */
  datatype DateField = Empty | Valid(date: YearMonth) | Invalid

  /** `new Date(field)`: None stands for an Invalid Date. */
  function Parse(f: DateField): Option<YearMonth> {
    match f
    case Valid(d) => Some(d)
    case _ => None
  }

  /** The calendar months from year 0 to `d`, so that consecutive months are one apart. */
  function Index(d: YearMonth): int {
    d.year * 12 + d.month - 1
  }

  /**
   * `(end.getFullYear() - start.getFullYear()) * 12 + (end.getMonth() - start.getMonth())`:
   * the number of month boundaries from `start` to `end`, negative when `end` comes first.
   */
  function MonthsBetween(start: YearMonth, end: YearMonth): (r: int)
    ensures r == Index(end) - Index(start)
  {
    (end.year - start.year) * 12 + (end.month - start.month)
  }

  /** Chronological order of months. */
  predicate NotAfter(a: YearMonth, b: YearMonth) {
    a.year < b.year || (a.year == b.year && a.month <= b.month)
  }

  /** The difference is never negative exactly when the end does not come before the start. */
  lemma MonthsBetweenSign(start: YearMonth, end: YearMonth)
    requires ValidMonth(start) && ValidMonth(end)
    ensures MonthsBetween(start, end) >= 0 <==> NotAfter(start, end)
  {
    if start.year < end.year {
      assert (end.year - start.year) * 12 >= 12;
    } else if start.year > end.year {
      assert (end.year - start.year) * 12 <= -12;
    }
  }

  /** `a + b` on numbers that may be NaN. */
  function Add(a: Option<int>, b: Option<int>): (r: Option<int>)
    ensures r.Some? <==> a.Some? && b.Some?
    ensures r.Some? ==> r.value == a.value + b.value
  {
    if a.Some? && b.Some? then Some(a.value + b.value) else None
  }

  /** `xs.reduce((total, m) => total + m, 0)`. */
  function Sum(xs: seq<Option<int>>): Option<int> {
    if xs == [] then Some(0) else Add(Sum(xs[..|xs| - 1]), xs[|xs| - 1])
  }

  /** The sum is a number exactly when no term is NaN. */
  lemma {:induction false} SumDefined(xs: seq<Option<int>>)
    ensures Sum(xs).Some? <==> forall i :: 0 <= i < |xs| ==> xs[i].Some?
  {
    if xs != [] {
      SumDefined(xs[..|xs| - 1]);
      assert forall i :: 0 <= i < |xs| - 1 ==> xs[..|xs| - 1][i] == xs[i];
    }
  }

  /** Summing a concatenation adds the two sums. */
  lemma {:induction false} SumAppend(xs: seq<Option<int>>, ys: seq<Option<int>>)
    ensures Sum(xs + ys) == Add(Sum(xs), Sum(ys))
  {
    if ys == [] {
      assert xs + ys == xs;
      if Sum(xs).Some? {
        assert Add(Sum(xs), Some(0)) == Sum(xs);
      }
    } else {
      var zs := xs + ys;
      assert zs[..|zs| - 1] == xs + ys[..|ys| - 1];
      assert zs[|zs| - 1] == ys[|ys| - 1];
      SumAppend(xs, ys[..|ys| - 1]);
    }
  }

  /** A sum of non-negative numbers is a non-negative number. */
  lemma {:induction false} SumNonNegative(xs: seq<Option<int>>)
    requires forall i :: 0 <= i < |xs| ==> xs[i].Some? && xs[i].value >= 0
    ensures Sum(xs).Some? && Sum(xs).value >= 0
  {
    if xs != [] {
      assert forall i :: 0 <= i < |xs| - 1 ==> xs[..|xs| - 1][i] == xs[i];
      SumNonNegative(xs[..|xs| - 1]);
    }
  }

  /** A month count shown as whole years and remaining months. */
  datatype Split = Split(years: Option<int>, months: Option<int>)

  /**
   * `years = Math.floor(total / 12)` and `months = total % 12`, with JavaScript's
   * truncating `%`: NaN in, NaN out.
   */
  function SplitMonths(total: Option<int>): (r: Split)
    ensures r.years.Some? <==> total.Some?
    ensures r.months.Some? <==> total.Some?
  {
    match total
    case Some(t) => Split(Some(Js.FloorDiv(t, 12)), Some(Js.Rem(t, 12)))
    case None => Split(None, None)
  }

  /** For a count that is not negative the two parts recombine to it, and the months are 0 to 11. */
  lemma SplitNonNegative(total: int)
    requires total >= 0
    ensures var r := SplitMonths(Some(total));
      && r.years.Some? && r.months.Some?
      && r.years.value >= 0
      && r.years.value * 12 + r.months.value == total
      && 0 <= r.months.value < 12
  {
  }

  /**
   * For a negative count the floor and the truncating remainder do not agree: unless
   * the count is a multiple of 12, the parts recombine to twelve months less than it
   * (-5 months shows as "-1 year -5 months").
   */
  lemma SplitNegative(total: int)
    requires total < 0
    ensures var r := SplitMonths(Some(total));
      && r.years.Some? && r.months.Some?
      && -12 < r.months.value <= 0
      && (r.months.value == 0 ==> r.years.value * 12 == total)
      && (r.months.value != 0 ==> r.years.value * 12 + r.months.value == total - 12)
  {
    var q := total / 12;
    var m := Js.Rem(total, 12);
    var p := (-total) / 12;
    var k := (-total) % 12;
    assert -total == 12 * p + k;
    assert m == -k;
    if k == 0 {
      assert total == 12 * (-p);
      assert q == -p;
    } else {
      assert total == 12 * (-p - 1) + (12 - k);
      assert q == -p - 1;
    }
  }
}
