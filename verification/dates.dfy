/**
 * Calendar dates as the client handles them: a (year, month, day) triple in the
 * Gregorian calendar, month 1 to 12. Times of day and time zones are not
 * modelled.
 */
module Dates {
  import opened Common

  datatype Date = Date(year: int, month: int, day: int)

  predicate IsLeap(y: int) {
    (y % 4 == 0 && y % 100 != 0) || y % 400 == 0
  }

  function DaysInMonth(y: int, m: int): int
    requires 1 <= m <= 12
  {
    if m == 2 then (if IsLeap(y) then 29 else 28)
    else if m == 4 || m == 6 || m == 9 || m == 11 then 30
    else 31
  }

  predicate Valid(d: Date) {
    1 <= d.month <= 12 && 1 <= d.day <= DaysInMonth(d.year, d.month)
  }

  /** `a` is strictly earlier than `b`. */
  predicate Before(a: Date, b: Date) {
    a.year < b.year
    || (a.year == b.year && (a.month < b.month || (a.month == b.month && a.day < b.day)))
  }

  /** The `n`-th anniversary of `d`, on the same month and day. */
  function Anniversary(d: Date, n: int): Date {
    Date(d.year + n, d.month, d.day)
  }

  /**
   * Age in completed years, as `confirmDateSelection` computes it: the year
   * difference, less one when this year's birthday is still to come. It is the
   * number of the last anniversary that is not after `today`.
   */
  function CompletedYears(birth: Date, today: Date): (age: int)
    ensures !Before(today, Anniversary(birth, age))
    ensures Before(today, Anniversary(birth, age + 1))
  {
    var age := today.year - birth.year;
    var monthDiff := today.month - birth.month;
    var dayDiff := today.day - birth.day;
    if monthDiff < 0 || (monthDiff == 0 && dayDiff < 0) then age - 1 else age
  }

  /** Only one number of years has its anniversary passed and the next one to come. */
  lemma CompletedYearsUnique(birth: Date, today: Date, n: int)
    requires !Before(today, Anniversary(birth, n)) && Before(today, Anniversary(birth, n + 1))
    ensures n == CompletedYears(birth, today)
  {
  }

  /**
   * The plain difference of years used by the profile forms: the age in
   * completed years, or one more before this year's birthday.
   */
  function YearDifference(birth: Date, today: Date): (r: int)
    ensures CompletedYears(birth, today) <= r <= CompletedYears(birth, today) + 1
    ensures r == CompletedYears(birth, today) <==> !Before(today, Anniversary(birth, r))
  {
    today.year - birth.year
  }

  /** Someone born on 31 December 2008 is 17 on 11 October 2026, but the year difference says 18. */
  lemma YearDifferenceOvercounts()
    ensures YearDifference(Date(2008, 12, 31), Date(2026, 10, 11)) == 18
    ensures CompletedYears(Date(2008, 12, 31), Date(2026, 10, 11)) == 17
  {
  }

  /**
   * `d.setFullYear(d.getFullYear() - n)`: the same month and day `n` years
   * earlier, where 29 February of a year that is not a leap year rolls over to
   * 1 March.
   */
  function YearsEarlier(d: Date, n: int): (r: Date)
    requires Valid(d)
    ensures Valid(r) && r.year == d.year - n
    ensures r.month == d.month || (r.month == 3 && r.day == 1)
  {
    var y := d.year - n;
    if d.month == 2 && d.day == 29 && !IsLeap(y) then Date(y, 3, 1) else Date(y, d.month, d.day)
  }

  /** The date `n` years back is exactly `n` years old, except after a 29 February rollover. */
  lemma YearsEarlierAge(d: Date, n: int)
    requires Valid(d)
    ensures d.month == 2 && d.day == 29 && !IsLeap(d.year - n) ==> CompletedYears(YearsEarlier(d, n), d) == n - 1
    ensures !(d.month == 2 && d.day == 29 && !IsLeap(d.year - n)) ==> CompletedYears(YearsEarlier(d, n), d) == n
  {
  }

  // ---------------------------------------------------------------- text forms

  lemma {:induction false} DigitCount(n: nat)
    ensures n < 10 ==> |NatToString(n)| == 1
    ensures 10 <= n < 100 ==> |NatToString(n)| == 2
    ensures 100 <= n < 1000 ==> |NatToString(n)| == 3
    ensures 1000 <= n < 10000 ==> |NatToString(n)| == 4
    decreases n
  {
    if n >= 10 {
      DigitCount(n / 10);
    }
  }

  lemma {:induction false} LeadingZero(s: string)
    requires forall i :: 0 <= i < |s| ==> '0' <= s[i] <= '9'
    ensures ParseDigits("0" + s) == ParseDigits(s)
    decreases |s|
  {
    if s != [] {
      var t := "0" + s;
      assert t[..|t| - 1] == "0" + s[..|s| - 1];
      LeadingZero(s[..|s| - 1]);
    }
  }

  /** `s` behind `k` zeros. */
  function ZeroPad(s: string, k: nat): (r: string)
    requires forall i :: 0 <= i < |s| ==> '0' <= s[i] <= '9'
    ensures |r| == |s| + k
    ensures forall i :: 0 <= i < |r| ==> '0' <= r[i] <= '9'
    ensures ParseDigits(r) == ParseDigits(s)
    decreases k
  {
    if k == 0 then s else LeadingZero(ZeroPad(s, k - 1)); "0" + ZeroPad(s, k - 1)
  }

  /** A year written with four digits, as in `toISOString()` for years 0 to 9999. */
  function Year4(y: nat): (r: string)
    requires y < 10000
    ensures |r| == 4
    ensures forall i :: 0 <= i < |r| ==> '0' <= r[i] <= '9'
    ensures ParseDigits(r) == y
  {
    DigitCount(y);
    NatToStringRoundTrip(y);
    ZeroPad(NatToString(y), 4 - |NatToString(y)|)
  }

  /** Two digits with a leading zero, for months and days. */
  function Two(n: nat): (r: string)
    requires n < 100
    ensures |r| == 2
    ensures forall i :: 0 <= i < |r| ==> '0' <= r[i] <= '9'
    ensures ParseDigits(r) == n
  {
    DigitCount(n);
    NatToStringRoundTrip(n);
    ZeroPad(NatToString(n), 2 - |NatToString(n)|)
  }

  predicate Printable(d: Date) {
    Valid(d) && 0 <= d.year < 10000
  }

  /** `date.toISOString().split("T")[0]`: `YYYY-MM-DD`. */
  function IsoDate(d: Date): (r: string)
    requires Printable(d)
    ensures |r| == 10
  {
    Year4(d.year) + "-" + Two(d.month) + "-" + Two(d.day)
  }

  predicate AllDigits(s: string) {
    forall i :: 0 <= i < |s| ==> '0' <= s[i] <= '9'
  }

  /** Reading a `YYYY-MM-DD` date, the one text form every JavaScript engine must accept. */
  function ParseIsoDate(s: string): Option<Date> {
    if |s| == 10 && s[4] == '-' && s[7] == '-' && AllDigits(s[..4]) && AllDigits(s[5..7]) && AllDigits(s[8..]) then
      var d := Date(ParseDigits(s[..4]), ParseDigits(s[5..7]), ParseDigits(s[8..]));
      if Valid(d) then Some(d) else None
    else None
  }

  /** The date string handed on by the date picker reads back as the same date. */
  lemma IsoDateRoundTrip(d: Date)
    requires Printable(d)
    ensures ParseIsoDate(IsoDate(d)) == Some(d)
  {
    var s := IsoDate(d);
    assert s[..4] == Year4(d.year);
    assert s[5..7] == Two(d.month);
    assert s[8..] == Two(d.day);
  }

  /** `toLocaleDateString("fr-FR")`: `DD/MM/YYYY`. */
  function FrenchDate(d: Date): (r: string)
    requires Printable(d)
    ensures |r| == 10 && r[2] == '/' && r[5] == '/'
  {
    Two(d.day) + "/" + Two(d.month) + "/" + Year4(d.year)
  }

  /** The French form lists the same day, month and year, in that order. */
  lemma FrenchDateFields(d: Date)
    requires Printable(d)
    ensures ParseDigits(FrenchDate(d)[..2]) == d.day
    ensures ParseDigits(FrenchDate(d)[3..5]) == d.month
    ensures ParseDigits(FrenchDate(d)[6..]) == d.year
  {
    var r := FrenchDate(d);
    assert r[..2] == Two(d.day);
    assert r[3..5] == Two(d.month);
    assert r[6..] == Year4(d.year);
  }

  const NoDateChosen := "Sélectionner une date"

  /**
   * `formatDateForDisplay`: a placeholder for an empty string, otherwise the
   * French form of the parsed date; `parse` stands for `new Date(text)`.
   */
  function FormatDateForDisplay(text: string, parse: string -> Option<Date>): (r: string)
    ensures text == "" ==> r == NoDateChosen
    ensures text != "" && parse(text).Some? && Printable(parse(text).value) ==> r == FrenchDate(parse(text).value)
    ensures text != "" && parse(text).None? ==> r == "Invalid Date"
  {
    if text == "" then NoDateChosen
    else match parse(text)
      case None => "Invalid Date"
      case Some(d) => if Printable(d) then FrenchDate(d) else Two(d.day % 100) + "/" + Two(d.month % 100) + "/" + NatToString(if d.year < 0 then -d.year else d.year)
  }
}
