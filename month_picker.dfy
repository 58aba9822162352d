/**
 * The month picker: a "YYYY-MM" value, a year list around the current year, the
 * twelve two-digit months, and a confirm step that emits the joined value. The
 * current year is a parameter.
 */
module MonthPicker {
  import opened Wrappers
  import Js

  /** `${year}-${month}`. */
  function Format(year: string, month: string): (r: string)
    ensures |r| == |year| + 1 + |month| && r[|year|] == '-'
  {
    year + "-" + month
  }

  /** The year part of a value: the text before the first "-". */
  function YearPart(value: string): string {
    Js.Split(value, '-')[0]
  }

  /** The month part of a value: the text after the first "-"; "" (undefined) when there is none. */
  function MonthPart(value: string): Option<string> {
    var parts := Js.Split(value, '-');
    if |parts| > 1 then Some(parts[1]) else None
  }

  /** The initial year: the value's year part, or the current year when there is no value. */
  function InitialYear(value: string, currentYear: int): (r: string)
    ensures value == "" ==> r == Js.IntToString(currentYear)
    ensures value != "" ==> r == YearPart(value)
  {
    if value != "" then YearPart(value) else Js.IntToString(currentYear)
  }

  /** The initial month: the value's month part, or none. */
  function InitialMonth(value: string): (r: string)
    ensures value == "" ==> r == ""
    ensures value != "" && MonthPart(value).Some? ==> r == MonthPart(value).value
  {
    if value != "" then MonthPart(value).GetOr("") else ""
  }

  /**
   * Round trip: a value the picker emits, split on "-", gives back the year and
   * the month chosen, for a year without "-".
   */
  lemma ParseOfFormat(year: string, month: string, currentYear: int)
    requires '-' !in year && '-' !in month
    ensures InitialYear(Format(year, month), currentYear) == year
    ensures InitialMonth(Format(year, month)) == month
  {
    Js.SplitJoinedPair(year, '-', month);
  }

  // ---------------------------------------------------------------------------
  // Lists

  /** `Array.from({ length: 51 }, (_, i) => (currentYear - 25 + i).toString())`. */
  function Years(currentYear: int): (r: seq<string>)
    ensures |r| == 51
  {
    seq(51, i => Js.IntToString(currentYear - 25 + i))
  }

  /**
   * The years read back as the 51 consecutive years from 25 before to 25 after the
   * current one, ascending.
   */
  lemma YearsRange(currentYear: int)
    ensures forall i :: 0 <= i < 51 ==> Js.ParseInt(Years(currentYear)[i]) == Some(currentYear - 25 + i)
    ensures Js.ParseInt(Years(currentYear)[0]) == Some(currentYear - 25)
    ensures Js.ParseInt(Years(currentYear)[50]) == Some(currentYear + 25)
  {
    forall i | 0 <= i < 51
      ensures Js.ParseInt(Years(currentYear)[i]) == Some(currentYear - 25 + i)
    {
      Js.ParseIntOfIntToString(currentYear - 25 + i);
    }
  }

  /** No year in the list contains "-" once the years are positive. */
  lemma YearsWithoutDash(currentYear: int)
    requires currentYear >= 25
    ensures forall i :: 0 <= i < 51 ==> '-' !in Years(currentYear)[i]
  {
    forall i | 0 <= i < 51
      ensures '-' !in Years(currentYear)[i]
    {
      var s := Js.NatToString(currentYear - 25 + i);
      assert Js.IntToString(currentYear - 25 + i) == s;
      assert Years(currentYear)[i] == s;
      assert forall k :: 0 <= k < |s| ==> Js.IsDigit(s[k]);
    }
  }

  /** A month option: its value and its caption. */
  datatype MonthOption = MonthOption(value: string, caption: string)

  /** The twelve months. */
  function Months(): seq<MonthOption> {
    [ MonthOption("01", "1월"), MonthOption("02", "2월"), MonthOption("03", "3월"),
      MonthOption("04", "4월"), MonthOption("05", "5월"), MonthOption("06", "6월"),
      MonthOption("07", "7월"), MonthOption("08", "8월"), MonthOption("09", "9월"),
      MonthOption("10", "10월"), MonthOption("11", "11월"), MonthOption("12", "12월") ]
  }

  /** Month `n` written with two digits. */
  function TwoDigits(n: nat): (r: string)
    requires 1 <= n <= 12
    ensures |r| == 2 && Js.AllDigits(r)
  {
    if n < 10 then "0" + Js.NatToString(n) else Js.NatToString(n)
  }

  /**
   * The months are "01" to "12" in order, each labelled with its number without
   * the leading zero, and each value reads back as its number.
   */
  lemma MonthsInOrder()
    ensures |Months()| == 12
    ensures forall i :: 0 <= i < 12 ==> Months()[i].value == TwoDigits(i + 1)
    ensures forall i :: 0 <= i < 12 ==> Months()[i].caption == Js.NatToString(i + 1) + "월"
    ensures forall i :: 0 <= i < 12 ==> Js.ParseInt(Months()[i].value) == Some(i + 1)
  {
    forall i | 0 <= i < 12
      ensures Months()[i].value == TwoDigits(i + 1)
      ensures Months()[i].caption == Js.NatToString(i + 1) + "월"
    {
      MonthAt(i);
    }
    forall i | 0 <= i < 12
      ensures Js.ParseInt(Months()[i].value) == Some(i + 1)
    {
      TwoDigitsValue(i + 1);
    }
  }

  lemma MonthAt(i: nat)
    requires i < 12
    ensures Months()[i].value == TwoDigits(i + 1)
    ensures Months()[i].caption == Js.NatToString(i + 1) + "월"
  {
    if i < 9 {
      assert Js.NatToString(i + 1) == [Js.DigitChar(i + 1)];
    } else {
      assert Js.NatToString(i + 1) == ['1', Js.DigitChar(i - 9)];
    }
  }

  /** The two digits read back as the month's number. */
  lemma TwoDigitsValue(n: nat)
    requires 1 <= n <= 12
    ensures Js.ParseInt(TwoDigits(n)) == Some(n)
  {
    var d := TwoDigits(n);
    Js.ParseIntDigits(d);
    assert d[..1] == [d[0]];
  }

  // ---------------------------------------------------------------------------
  // Display

  /** `value ? `${value.split("-")[0]}년 ${parseInt(value.split("-")[1])}월` : ""`. */
  function DisplayValue(value: string): (r: string)
    ensures r == "" <==> value == ""
  {
    if value == "" then ""
    else
      var m := match MonthPart(value) case Some(p) => Js.ParseInt(p) case None => None;
      YearPart(value) + "년 " + Js.NumberText(m) + "월"
  }

  /** An emitted value displays as "<year>년 <month>월", the month without its leading zero. */
  lemma DisplayOfFormat(year: string, i: nat)
    requires '-' !in year && i < 12
    ensures DisplayValue(Format(year, Months()[i].value)) == year + "년 " + Js.IntToString(i + 1) + "월"
  {
    MonthsInOrder();
    assert '-' !in Months()[i].value by {
      assert Js.AllDigits(TwoDigits(i + 1));
      assert forall k :: 0 <= k < 2 ==> Js.IsDigit(Months()[i].value[k]);
    }
    Js.SplitJoinedPair(year, '-', Months()[i].value);
  }

  // ---------------------------------------------------------------------------
  // State

  /** The picker's state: the chosen year and month and whether the popover is open. */
  class Picker {
    var year: string
    var month: string
    var open: bool
    /** Whether the page passed an `onChange` handler. */
    const hasOnChange: bool

    constructor (value: string, hasOnChange: bool, currentYear: int)
      ensures year == InitialYear(value, currentYear) && month == InitialMonth(value)
      ensures !open && this.hasOnChange == hasOnChange
    {
      year := InitialYear(value, currentYear);
      month := InitialMonth(value);
      open := false;
      this.hasOnChange := hasOnChange;
    }

    /** The confirm button is disabled while the year or the month is empty. */
    function ConfirmDisabled(): (b: bool)
      reads this
      ensures b <==> year == "" || month == ""
    {
      year == "" || month == ""
    }

    method SetYear(y: string)
      modifies this
      ensures year == y && month == old(month) && open == old(open)
    {
      year := y;
    }

    method SetMonth(m: string)
      modifies this
      ensures month == m && year == old(year) && open == old(open)
    {
      month := m;
    }

    method SetOpen(o: bool)
      modifies this
      ensures open == o && year == old(year) && month == old(month)
    {
      open := o;
    }

    /**
     * `handleSelect`: with a year, a month and a handler, emits `year-month` and
     * closes; otherwise emits nothing and changes nothing.
     */
    method HandleSelect() returns (emitted: Option<string>)
      modifies this
      ensures emitted.Some? <==> !old(ConfirmDisabled()) && hasOnChange
      ensures emitted.Some? ==> emitted.value == Format(year, month) && !open
      ensures emitted.None? ==> open == old(open)
      ensures year == old(year) && month == old(month)
    {
      if year != "" && month != "" && hasOnChange {
        emitted := Some(Format(year, month));
        open := false;
      } else {
        emitted := None;
      }
    }
  }

  /** A picker mounted with the emitted value starts on the year and month that were confirmed. */
  lemma ReopenAfterSelect(currentYear: int, i: nat, j: nat, otherYear: int)
    requires currentYear >= 25 && i < 51 && j < 12
    ensures var v := Format(Years(currentYear)[i], Months()[j].value);
      InitialYear(v, otherYear) == Years(currentYear)[i] && InitialMonth(v) == Months()[j].value
  {
    YearsWithoutDash(currentYear);
    MonthsInOrder();
    assert '-' !in Months()[j].value by {
      assert Js.AllDigits(TwoDigits(j + 1));
      assert forall k :: 0 <= k < 2 ==> Js.IsDigit(Months()[j].value[k]);
    }
    ParseOfFormat(Years(currentYear)[i], Months()[j].value, otherYear);
  }
}
