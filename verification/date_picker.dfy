/**
 * The birthdate picker hook (`app/hooks/ui/useDatePicker.ts`): whether the
 * picker is shown, the date it currently holds, and the age rule applied when
 * the choice is confirmed. The current date is a parameter, and `parse` stands
 * for `new Date(text)`.
 */
module DatePicker {
  import opened Common
  import opened Dates

  const MinimumAge := 18
  const MaximumAge := 120
  const DefaultAge := 25

  /** A `Date` object: a calendar date, or None for an invalid date. */
  predicate WellFormed(d: Option<Date>) {
    d.Some? ==> Valid(d.value)
  }

  /** `new Date(text)` as a `Date` object: a text that reads as no calendar date gives an invalid date. */
  function ReadDate(text: string, parse: string -> Option<Date>): (r: Option<Date>)
    ensures WellFormed(r)
    ensures parse(text).Some? && Valid(parse(text).value) ==> r == parse(text)
  {
    var d := parse(text);
    if d.Some? && Valid(d.value) then d else None
  }

  /**
   * `getSelectedDate`: the date of the given text, or today 25 years earlier
   * when there is none.
   */
  function GetSelectedDate(currentDate: string, today: Date, parse: string -> Option<Date>): (r: Option<Date>)
    requires Valid(today)
    ensures WellFormed(r)
    ensures currentDate != "" ==> r == ReadDate(currentDate, parse)
    ensures currentDate == "" ==> r == Some(YearsEarlier(today, DefaultAge))
  {
    if currentDate != "" then ReadDate(currentDate, parse) else Some(YearsEarlier(today, DefaultAge))
  }

  /** The default date passes the age rule: it is 25 years old, or 24 after a 29 February rollover. */
  lemma DefaultDateAccepted(today: Date)
    requires Valid(today)
    ensures var age := CompletedYears(YearsEarlier(today, DefaultAge), today);
            MinimumAge <= age <= MaximumAge && (age == DefaultAge || age == DefaultAge - 1)
  {
    YearsEarlierAge(today, DefaultAge);
  }

  /** How `confirmDateSelection` ends. */
  datatype ConfirmOutcome =
    | TooYoung                    // "Âge invalide" alert, the picker stays open
    | TooOld                      // "Date invalide" alert, the picker stays open
    | Confirmed(dateString: string)  // `onConfirm(dateString)` is called once, the picker closes
    | Thrown                      // an invalid date: the age tests are false and `toISOString` throws

  class DatePickerState {
    var showDatePicker: bool
    var tempDate: Option<Date>

    /** The picker only ever holds a calendar date or an invalid date. */
    predicate Valid()
      reads this
    {
      WellFormed(tempDate)
    }

    constructor(today: Date)
      requires Dates.Valid(today)
      ensures Valid() && !showDatePicker && tempDate == Some(today)
    {
      showDatePicker := false;
      tempDate := Some(today);
    }

    /** `openDatePicker`: the picker opens on the given date, or on the default date. */
    method OpenDatePicker(currentDate: string, today: Date, parse: string -> Option<Date>)
      requires Dates.Valid(today)
      modifies this
      ensures Valid() && showDatePicker
      ensures tempDate == GetSelectedDate(currentDate, today, parse)
      ensures currentDate == "" ==> tempDate == Some(YearsEarlier(today, DefaultAge))
    {
      tempDate := if currentDate != "" then ReadDate(currentDate, parse) else GetSelectedDate("", today, parse);
      showDatePicker := true;
    }

    /** `onDateChange`: a chosen date replaces the held one; no date changes nothing. */
    method OnDateChange(selected: Option<Date>)
      requires Valid() && WellFormed(selected)
      modifies this
      ensures Valid()
      ensures selected.None? ==> tempDate == old(tempDate)
      ensures selected.Some? ==> tempDate == selected
      ensures showDatePicker == old(showDatePicker)
    {
      if selected.Some? {
        tempDate := selected;
      }
    }

    /**
     * `confirmDateSelection`: the age in completed years must be 18 to 120;
     * then the date goes to `onConfirm` as `YYYY-MM-DD` and the picker closes.
     * The clock is taken to read a year from 121 to 9999, so that every
     * accepted date prints with four digits.
     */
    method ConfirmDateSelection(today: Date) returns (outcome: ConfirmOutcome)
      requires Valid() && Dates.Valid(today) && MaximumAge + 1 <= today.year < 10000
      modifies this
      ensures Valid() && tempDate == old(tempDate)
      ensures tempDate.None? ==> outcome == Thrown
      ensures tempDate.Some? ==>
                var age := CompletedYears(tempDate.value, today);
                (age < MinimumAge <==> outcome == TooYoung)
                && (age > MaximumAge <==> outcome == TooOld)
                && (MinimumAge <= age <= MaximumAge <==> outcome.Confirmed?)
      ensures outcome.Confirmed? ==> tempDate.Some? && ParseIsoDate(outcome.dateString) == tempDate
      ensures outcome.Confirmed? ==> !showDatePicker
      ensures !outcome.Confirmed? ==> showDatePicker == old(showDatePicker)
    {
      if tempDate.None? {
        return Thrown;
      }
      var birth := tempDate.value;
      var age := today.year - birth.year;
      var monthDiff := today.month - birth.month;
      var dayDiff := today.day - birth.day;
      var actualAge := if monthDiff < 0 || (monthDiff == 0 && dayDiff < 0) then age - 1 else age;
      assert actualAge == CompletedYears(birth, today);
      if actualAge < MinimumAge {
        return TooYoung;
      }
      if actualAge > MaximumAge {
        return TooOld;
      }
      var dateString := IsoDate(birth);
      IsoDateRoundTrip(birth);
      outcome := Confirmed(dateString);
      showDatePicker := false;
    }

    /** `cancelDateSelection`: the picker closes and keeps its date. */
    method CancelDateSelection()
      modifies this
      ensures !showDatePicker && tempDate == old(tempDate)
    {
      showDatePicker := false;
    }
  }

  /** Opening the picker without a date and confirming straight away is accepted. */
  method OpenThenConfirm(picker: DatePickerState, today: Date, parse: string -> Option<Date>) returns (outcome: ConfirmOutcome)
    requires Valid(today) && MaximumAge + 1 <= today.year < 10000
    modifies picker
    ensures outcome.Confirmed? && !picker.showDatePicker
    ensures ParseIsoDate(outcome.dateString) == Some(YearsEarlier(today, DefaultAge))
  {
    picker.OpenDatePicker("", today, parse);
    DefaultDateAccepted(today);
    outcome := picker.ConfirmDateSelection(today);
  }
}
