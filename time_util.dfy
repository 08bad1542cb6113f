// Time helpers: the age of a timestamp as a short string, and the start
// timestamps of the days spanned by an interval. Timestamps are Unix
// seconds; the current time is a parameter.

module TimeUtil {
  import opened Common

  const Minute := 60
  const Hour := 60 * 60
  const Day := 60 * 60 * 24

  /** An elapsed time as a count of whole units: 's', 'm', 'h' or 'd'. */
  datatype Elapsed = Elapsed(count: nat, unit: char)

  function UnitSeconds(u: char): nat
  {
    if u == 'd' then Day else if u == 'h' then Hour else if u == 'm' then Minute else 1
  }

  /**
   * The elapsed seconds in the largest unit that fits, truncated; a negative
   * duration counts as no time at all.
   */
  function ElapsedOf(duration: int): (e: Elapsed)
    ensures e.unit in "smhd"
    ensures duration < 0 ==> e == Elapsed(0, 's')
    ensures duration >= 0 ==>
      e.count * UnitSeconds(e.unit) <= duration < (e.count + 1) * UnitSeconds(e.unit)
    ensures duration >= 0 && e.unit != 's' ==> e.count >= 1
    ensures e.unit == 's' ==> e.count < 60
    ensures e.unit == 'm' ==> e.count < 60
    ensures e.unit == 'h' ==> e.count < 24
  {
    if 0 <= duration < Minute then Elapsed(duration, 's')
    else if Minute <= duration < Hour then Elapsed(duration / Minute, 'm')
    else if Hour <= duration < Day then Elapsed(duration / Hour, 'h')
    else if duration >= Day then Elapsed(duration / Day, 'd')
    else Elapsed(0, 's')
  }

  /** Age: the time elapsed from `unixTime` to `now`, as "4s", "3m", "2h" or "1d". */
  function Age(unixTime: int, now: int): string
  {
    var e := ElapsedOf(now - unixTime);
    NatToString(e.count) + [e.unit]
  }

  /**
   * The unit is the largest one the elapsed time reaches: seconds under a
   * minute, minutes under an hour, hours under a day, days from a day on.
   */
  lemma ElapsedUnit(duration: int)
    ensures duration < Minute ==> ElapsedOf(duration).unit == 's'
    ensures Minute <= duration < Hour ==> ElapsedOf(duration).unit == 'm'
    ensures Hour <= duration < Day ==> ElapsedOf(duration).unit == 'h'
    ensures Day <= duration ==> ElapsedOf(duration).unit == 'd'
  {
  }

  /** Ages one unit apart read differently: "59s" becomes "1m" at a minute. */
  lemma AgeAtAMinute(t: int)
    ensures Age(t, t + 59) == "59s"
    ensures Age(t, t + 60) == "1m"
    ensures Age(t, t - 5) == "0s"
  {
    assert NatToString(59) == NatToString(5) + [DigitChar(9)];
  }

  // ---------------------------------------------------------------------
  // Daily start timestamps

  /**
   * The UTC midnight of the calendar day `t` falls on in a zone `offset`
   * seconds east of UTC: that day's date, read as a UTC date.
   */
  function DayStart(t: int, offset: int): (m: int)
    ensures m % Day == 0
    ensures m <= t + offset < m + Day
  {
    var local := t + offset;
    local - local % Day
  }

  /** A day later starts a day later. */
  lemma DayStartNextDay(t: int, offset: int)
    ensures DayStart(t + Day, offset) == DayStart(t, offset) + Day
  {
    var local := t + offset;
    assert (local + Day) % Day == local % Day;
  }

  /** The whole number of days from start to end, truncated toward zero. */
  function NumDays(startTimestamp: int, endTimestamp: int): int
  {
    GoDiv(endTimestamp - startTimestamp, Day)
  }

  const MakeSliceError := "makeslice: len out of range"
  const IndexError := "index out of range [-1]"

  /**
   * GetDailyStartTimestamps: with n whole days between start and end, n + 2
   * entries: the start of each of the n + 1 days from the start's day on,
   * and a last entry a day after the end. `offset` is the local zone the
   * start's calendar day is read in. A span so negative that n + 2 is
   * negative cannot size the array, and with n + 2 = 0 the last entry has no
   * place; those failures are returned.
   */
  method GetDailyStartTimestamps(startTimestamp: int, endTimestamp: int, offset: int)
    returns (r: Result<array<int>>)
    ensures NumDays(startTimestamp, endTimestamp) + 2 < 0 ==> r == Err(MakeSliceError)
    ensures NumDays(startTimestamp, endTimestamp) + 2 == 0 ==> r == Err(IndexError)
    ensures NumDays(startTimestamp, endTimestamp) + 2 > 0 ==> r.Ok?
    ensures r.Ok? ==>
      var a := r.value;
      var n := NumDays(startTimestamp, endTimestamp);
      fresh(a) && n >= -1 && a.Length == n + 2
      && (forall i :: 0 <= i <= n ==> a[i] == DayStart(startTimestamp + i * Day, offset))
      && a[n + 1] == endTimestamp + Day
  {
    var numDays := NumDays(startTimestamp, endTimestamp);
    if numDays + 2 < 0 {
      return Err(MakeSliceError);
    }
    if numDays + 2 == 0 {
      return Err(IndexError);
    }
    var daily := new int[numDays + 2];
    var i := 0;
    while i <= numDays
      invariant 0 <= i <= numDays + 1
      invariant forall k :: 0 <= k < i ==> daily[k] == DayStart(startTimestamp + k * Day, offset)
    {
      daily[i] := DayStart(startTimestamp + i * Day, offset);
      i := i + 1;
    }
    daily[numDays + 1] := endTimestamp + Day;
    return Ok(daily);
  }

  /** Consecutive day starts in the array are midnights exactly a day apart. */
  lemma DailyStartsSpacing(startTimestamp: int, endTimestamp: int, offset: int, i: nat)
    requires i < NumDays(startTimestamp, endTimestamp)
    ensures DayStart(startTimestamp + (i + 1) * Day, offset) == DayStart(startTimestamp + i * Day, offset) + Day
    ensures DayStart(startTimestamp + i * Day, offset) % Day == 0
  {
    DayStartNextDay(startTimestamp + i * Day, offset);
    assert startTimestamp + i * Day + Day == startTimestamp + (i + 1) * Day;
  }

  /**
   * For an interval that is not negative the day count is the number of
   * whole days in it, so the array has at least two entries and the days it
   * starts cover the interval.
   */
  lemma NumDaysBounds(startTimestamp: int, endTimestamp: int)
    requires startTimestamp <= endTimestamp
    ensures NumDays(startTimestamp, endTimestamp) >= 0
    ensures startTimestamp + NumDays(startTimestamp, endTimestamp) * Day <= endTimestamp
    ensures endTimestamp < startTimestamp + (NumDays(startTimestamp, endTimestamp) + 1) * Day
  {
  }
}
