/** The date display split of src/util/parseDate.ts (App.tsx holds an
    identical copy): a match's `date` attribute, text of the form
    `yyyy-MM-dd HH:mm:ss` read as a UTC instant, becomes a `dd/MM` day and
    an `HH:mm` hour for display.

    The display time zone is taken to be UTC, so formatting shows the same
    calendar fields that were parsed. */
module DateDisplay {

  import opened Js
  import opened Decimal

  /** The calendar and clock fields of one instant. */
  datatype Timestamp = Timestamp(year: nat, month: nat, day: nat, hour: nat, minute: nat, second: nat)

  /** Leap years of the proleptic Gregorian calendar. */
  predicate IsLeapYear(year: nat) {
    year % 4 == 0 && (year % 100 != 0 || year % 400 == 0)
  }

  function DaysInMonth(year: nat, month: nat): (days: nat)
    requires 1 <= month <= 12
    ensures 28 <= days <= 31
  {
    if month == 2 then (if IsLeapYear(year) then 29 else 28)
    else if month == 4 || month == 6 || month == 9 || month == 11 then 30
    else 31
  }

  /** The field ranges the date parser checks: a four-digit year after year
      0 (the `yyyy` parser refuses year 0), a real day of that month, a
      24-hour clock. */
  predicate ValidTimestamp(t: Timestamp) {
    && 1 <= t.year < 10000
    && 1 <= t.month <= 12
    && 1 <= t.day <= DaysInMonth(t.year, t.month)
    && t.hour < 24 && t.minute < 60 && t.second < 60
  }

  /** Text with the `yyyy-MM-dd HH:mm:ss` layout: digits everywhere except
      the separators at positions 4, 7, 10, 13 and 16. */
  predicate HasTimestampLayout(s: string) {
    && |s| == 19
    && s[4] == '-' && s[7] == '-' && s[10] == ' ' && s[13] == ':' && s[16] == ':'
    && AllDigits(s[0..4]) && AllDigits(s[5..7]) && AllDigits(s[8..10])
    && AllDigits(s[11..13]) && AllDigits(s[14..16]) && AllDigits(s[17..19])
  }

  /** Reads the fields of text with the timestamp layout. */
  function ReadTimestamp(s: string): Timestamp
    requires HasTimestampLayout(s)
  {
    Timestamp(Value(s[0..4]), Value(s[5..7]), Value(s[8..10]),
              Value(s[11..13]), Value(s[14..16]), Value(s[17..19]))
  }

  /** Text the date parser accepts with pattern `yyyy-MM-dd HH:mm:ss`:
      the exact layout, denoting a real calendar instant. */
  predicate IsTimestampText(s: string) {
    HasTimestampLayout(s) && ValidTimestamp(ReadTimestamp(s))
  }

  /** Writes an instant with pattern `yyyy-MM-dd HH:mm:ss`. */
  function WriteTimestamp(t: Timestamp): (s: string)
  {
    Padded(t.year, 4) + "-" + Padded(t.month, 2) + "-" + Padded(t.day, 2) + " " +
    Padded(t.hour, 2) + ":" + Padded(t.minute, 2) + ":" + Padded(t.second, 2)
  }

  /** The two display strings produced for one match. */
  datatype DayHour = DayHour(day: string, hour: string)

  /** Text with the `dd/MM` shape: a day of month 01-31, a slash, a month 01-12. */
  predicate IsDayText(s: string) {
    && |s| == 5 && s[2] == '/' && AllDigits(s[0..2]) && AllDigits(s[3..5])
    && 1 <= Value(s[0..2]) <= 31 && 1 <= Value(s[3..5]) <= 12
  }

  /** Text with the `HH:mm` shape: an hour 00-23, a colon, a minute 00-59. */
  predicate IsHourText(s: string) {
    && |s| == 5 && s[2] == ':' && AllDigits(s[0..2]) && AllDigits(s[3..5])
    && Value(s[0..2]) < 24 && Value(s[3..5]) < 60
  }

  /** A date attribute that parseDate can display: null, empty, or
      timestamp text in the exact layout. Other text is outside the model:
      where the date library yields an invalid date, the guard lets it
      through and formatting throws. */
  predicate Displayable(date: Option<string>) {
    !Truthy(date) || IsTimestampText(date.value)
  }

  /** parseDate: empty strings for a null or empty date; otherwise the text
      is parsed as a UTC instant and shown as `dd/MM` and `HH:mm`, dropping
      year and seconds. */
  function ParseDate(date: Option<string>): (r: DayHour)
    requires Displayable(date)
    ensures !Truthy(date) ==> r == DayHour("", "")
    ensures Truthy(date) ==> IsDayText(r.day) && IsHourText(r.hour)
  {
    if !Truthy(date) then DayHour("", "")
    else
      var t := ReadTimestamp(date.value);
      var day := Padded(t.day, 2) + "/" + Padded(t.month, 2);
      var hour := Padded(t.hour, 2) + ":" + Padded(t.minute, 2);
      ValueOfPadded(t.day, 2);
      ValueOfPadded(t.month, 2);
      ValueOfPadded(t.hour, 2);
      ValueOfPadded(t.minute, 2);
      assert day[0..2] == Padded(t.day, 2) && day[3..5] == Padded(t.month, 2);
      assert hour[0..2] == Padded(t.hour, 2) && hour[3..5] == Padded(t.minute, 2);
      DayHour(day, hour)
  }

  /** Reading back a written instant recovers it, and the text is accepted. */
  lemma ReadWriteTimestamp(t: Timestamp)
    requires ValidTimestamp(t)
    ensures IsTimestampText(WriteTimestamp(t))
    ensures ReadTimestamp(WriteTimestamp(t)) == t
  {
    var s := WriteTimestamp(t);
    assert s[0..4] == Padded(t.year, 4);
    assert s[5..7] == Padded(t.month, 2);
    assert s[8..10] == Padded(t.day, 2);
    assert s[11..13] == Padded(t.hour, 2);
    assert s[14..16] == Padded(t.minute, 2);
    assert s[17..19] == Padded(t.second, 2);
    ValueOfPadded(t.year, 4);
    ValueOfPadded(t.month, 2);
    ValueOfPadded(t.day, 2);
    ValueOfPadded(t.hour, 2);
    ValueOfPadded(t.minute, 2);
    ValueOfPadded(t.second, 2);
  }

  /** Writing the instant read from accepted text gives the text back. */
  lemma WriteReadTimestamp(s: string)
    requires IsTimestampText(s)
    ensures WriteTimestamp(ReadTimestamp(s)) == s
  {
    PaddedOfValue(s[0..4]);
    PaddedOfValue(s[5..7]);
    PaddedOfValue(s[8..10]);
    PaddedOfValue(s[11..13]);
    PaddedOfValue(s[14..16]);
    PaddedOfValue(s[17..19]);
    var w := WriteTimestamp(ReadTimestamp(s));
    assert |w| == 19;
    forall i | 0 <= i < 19 ensures w[i] == s[i] {
      if i < 4 { assert w[i] == s[0..4][i]; }
      else if 5 <= i < 7 { assert w[i] == s[5..7][i - 5]; }
      else if 8 <= i < 10 { assert w[i] == s[8..10][i - 8]; }
      else if 11 <= i < 13 { assert w[i] == s[11..13][i - 11]; }
      else if 14 <= i < 16 { assert w[i] == s[14..16][i - 14]; }
      else if 17 <= i { assert w[i] == s[17..19][i - 17]; }
    }
  }

  /** With a UTC display zone the split is pure slicing of the input: the
      day is characters 8-9, a slash, characters 5-6; the hour is
      characters 11-15. */
  lemma ParseDateSlices(s: string)
    requires IsTimestampText(s)
    ensures ParseDate(Some(s)) == DayHour(s[8..10] + "/" + s[5..7], s[11..16])
  {
    PaddedOfValue(s[5..7]);
    PaddedOfValue(s[8..10]);
    PaddedOfValue(s[11..13]);
    PaddedOfValue(s[14..16]);
    assert s[11..16] == s[11..13] + ":" + s[14..16];
  }

  /** The instant written out by the server is displayed as its own day,
      month, hour and minute, whatever its year and seconds. */
  lemma ParseDateOfInstant(t: Timestamp)
    requires ValidTimestamp(t)
    ensures Displayable(Some(WriteTimestamp(t)))
    ensures ParseDate(Some(WriteTimestamp(t))) ==
      DayHour(Padded(t.day, 2) + "/" + Padded(t.month, 2), Padded(t.hour, 2) + ":" + Padded(t.minute, 2))
  {
    ReadWriteTimestamp(t);
  }

  /** Instants that differ only in year or seconds display alike. */
  lemma ParseDateIgnoresYearAndSeconds(s: string, s': string)
    requires IsTimestampText(s) && IsTimestampText(s')
    requires s[5..16] == s'[5..16]
    ensures ParseDate(Some(s)) == ParseDate(Some(s'))
  {
    ParseDateSlices(s);
    ParseDateSlices(s');
    SliceOfSlice(s, 5, 16, 3, 5);
    SliceOfSlice(s', 5, 16, 3, 5);
    SliceOfSlice(s, 5, 16, 0, 2);
    SliceOfSlice(s', 5, 16, 0, 2);
    SliceOfSlice(s, 5, 16, 6, 11);
    SliceOfSlice(s', 5, 16, 6, 11);
  }

  lemma SliceOfSlice(s: string, lo: nat, hi: nat, i: nat, j: nat)
    requires lo <= hi <= |s| && i <= j <= hi - lo
    ensures s[lo..hi][i..j] == s[lo + i..lo + j]
  {
    assert forall k :: 0 <= k < j - i ==> s[lo..hi][i..j][k] == s[lo + i + k];
  }
}
