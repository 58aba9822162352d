/**
 * The dashboard: the total career length badge, the current-employer card, the
 * record counts and the data-status badges. Every list it reads may still be
 * missing (`null` before it loads), which `Option` stands for.
 */
module Dashboard {
  import opened Wrappers
  import Js
  import Tenure
  import Profile

  /**
   * The end month of a career: now while current, otherwise `end_date ||
   * start_date`, so a finished career without an end date ends where it starts.
   */
  function EndOf(c: Profile.Career, now: Tenure.YearMonth): (f: Tenure.DateField)
    ensures c.current ==> f == Tenure.Valid(now)
    ensures !c.current && !c.endDate.Empty? ==> f == c.endDate
    ensures !c.current && c.endDate.Empty? ==> f == c.startDate
  {
    if c.current then Tenure.Valid(now)
    else if c.endDate.Empty? then c.startDate
    else c.endDate
  }

  /** Months of one career; NaN when a date is unreadable. */
  function CareerMonths(c: Profile.Career, now: Tenure.YearMonth): (r: Option<int>)
    ensures r.Some? <==> c.startDate.Valid? && EndOf(c, now).Valid?
    ensures r.Some? ==> r.value == Tenure.Index(EndOf(c, now).date) - Tenure.Index(c.startDate.date)
  {
    match (Tenure.Parse(c.startDate), Tenure.Parse(EndOf(c, now)))
    case (Some(start), Some(end)) => Some(Tenure.MonthsBetween(start, end))
    case _ => None
  }

  /** A finished career without an end date counts 0 months, where the résumé gives NaN. */
  lemma MissingEndCountsZero(c: Profile.Career, now: Tenure.YearMonth)
    requires !c.current && c.endDate.Empty? && c.startDate.Valid?
    ensures CareerMonths(c, now) == Some(0)
  {
  }

  function MonthsOf(careers: seq<Profile.Career>, now: Tenure.YearMonth): (r: seq<Option<int>>)
    ensures |r| == |careers|
    ensures forall i :: 0 <= i < |careers| ==> r[i] == CareerMonths(careers[i], now)
  {
    if careers == [] then [] else [CareerMonths(careers[0], now)] + MonthsOf(careers[1..], now)
  }

  /** `(careers || []).reduce((total, c) => total + months(c), 0)`. */
  function TotalMonths(careers: Option<seq<Profile.Career>>, now: Tenure.YearMonth): Option<int> {
    Tenure.Sum(MonthsOf(careers.GetOr([]), now))
  }

  /** Before the careers load, and with none, the total is 0. */
  lemma TotalOfNothing(now: Tenure.YearMonth)
    ensures TotalMonths(None, now) == Some(0)
    ensures TotalMonths(Some([]), now) == Some(0)
  {
  }

  /** The total is a number exactly when every career's dates, after the fallback, are readable. */
  lemma TotalDefined(careers: seq<Profile.Career>, now: Tenure.YearMonth)
    ensures TotalMonths(Some(careers), now).Some? <==>
      forall i :: 0 <= i < |careers| ==> careers[i].startDate.Valid? && EndOf(careers[i], now).Valid?
  {
    Tenure.SumDefined(MonthsOf(careers, now));
  }

  /** The total of a concatenation adds the totals. */
  lemma TotalAppend(a: seq<Profile.Career>, b: seq<Profile.Career>, now: Tenure.YearMonth)
    ensures TotalMonths(Some(a + b), now) == Tenure.Add(TotalMonths(Some(a), now), TotalMonths(Some(b), now))
  {
    assert MonthsOf(a + b, now) == MonthsOf(a, now) + MonthsOf(b, now);
    Tenure.SumAppend(MonthsOf(a, now), MonthsOf(b, now));
  }

  /** `years > 0 ? `${years}년 ${months}개월` : `${months}개월``. */
  function Badge(total: Option<int>): string {
    var d := Tenure.SplitMonths(total);
    if d.years.Some? && d.years.value > 0
    then Js.NumberText(d.years) + "년 " + Js.NumberText(d.months) + "개월"
    else Js.NumberText(d.months) + "개월"
  }

  /**
   * A year or more shows years and months, which recombine to the total; less
   * than a year shows the months alone; a negative or NaN total also falls to the
   * months-only form.
   */
  lemma BadgeForm(total: Option<int>)
    ensures total.Some? && total.value >= 12 ==>
      var d := Tenure.SplitMonths(total);
      && d.years.Some? && d.months.Some? && d.years.value >= 1
      && d.years.value * 12 + d.months.value == total.value
      && Badge(total) == Js.IntToString(d.years.value) + "년 " + Js.IntToString(d.months.value) + "개월"
    ensures total.Some? && 0 <= total.value < 12 ==> Badge(total) == Js.IntToString(total.value) + "개월"
    ensures total.Some? && total.value < 12 ==> Badge(total) == Js.NumberText(Tenure.SplitMonths(total).months) + "개월"
    ensures total.None? ==> Badge(total) == "NaN개월"
  {
    if total.Some? {
      var t := total.value;
      if t >= 0 {
        Tenure.SplitNonNegative(t);
      } else {
        Tenure.SplitNegative(t);
      }
    }
  }

  /** `careers?.find(c => c.current)`: the first current career, if any. */
  function CurrentCareer(careers: Option<seq<Profile.Career>>): (r: Option<Profile.Career>)
    ensures r.Some? <==> careers.Some? && exists i :: 0 <= i < |careers.value| && careers.value[i].current
    ensures r.Some? ==> (
      && r.value.current
      && exists i :: 0 <= i < |careers.value| && careers.value[i] == r.value &&
           forall j :: 0 <= j < i ==> !careers.value[j].current)
  {
    match careers
    case None => None
    case Some(cs) => FirstCurrent(cs)
  }

  function FirstCurrent(cs: seq<Profile.Career>): (r: Option<Profile.Career>)
    ensures r.Some? <==> exists i :: 0 <= i < |cs| && cs[i].current
    ensures r.Some? ==> (
      && r.value.current
      && exists i :: 0 <= i < |cs| && cs[i] == r.value && forall j :: 0 <= j < i ==> !cs[j].current)
  {
    var i := FirstCurrentIndex(cs);
    if i < |cs| then Some(cs[i]) else None
  }

  /** Where `find` stops: the first current career's position, or the length. */
  function FirstCurrentIndex(cs: seq<Profile.Career>): (i: nat)
    ensures i <= |cs|
    ensures i < |cs| ==> cs[i].current
    ensures forall j :: 0 <= j < i ==> !cs[j].current
  {
    if cs == [] || cs[0].current then 0 else 1 + FirstCurrentIndex(cs[1..])
  }

  /** `xs?.length || 0`. */
  function Count<T>(xs: Option<seq<T>>): (n: nat)
    ensures xs.Some? ==> n == |xs.value|
    ensures xs.None? ==> n == 0
  {
    if xs.Some? then |xs.value| else 0
  }

  /** `techStats && techStats.length > 0`: the tech-stack card is drawn. */
  function ShowTechCard<T>(stats: Option<seq<T>>): (b: bool)
    ensures b <==> Count(stats) > 0
  {
    stats.Some? && |stats.value| > 0
  }

  /** `basicInfo?.name ? '입력완료' : '미입력'`. */
  function BasicStatus(info: Option<Profile.BasicInfo>): (s: string)
    ensures s == "입력완료" <==> info.Some? && info.value.name != ""
    ensures s != "입력완료" ==> s == "미입력"
  {
    if info.Some? && info.value.name != "" then "입력완료" else "미입력"
  }
}
