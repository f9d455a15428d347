/** `getCurrentWeekOfMonth` of the two current builds. Dates are local day
    numbers: day 0 is 1 January 1970, a Thursday, so `Date.getDay` of day
    `d` is `(d + 4) % 7`. The calendar's month boundaries are a parameter,
    `firstOfMonth`, which gives for each day the day number of the first of
    its month (`new Date(year, month, 1)`). */
module Calendar {
  import opened Js
  import Days

  /** `Date.getDay`: Sunday = 0 to Saturday = 6. */
  function Weekday(day: int): (r: int)
    ensures 0 <= r < 7
  {
    (day + 4) % 7
  }

  /** Moving `k` days on moves the week day on by `k`, modulo 7. */
  lemma WeekdayShift(day: int, k: int)
    ensures Weekday(day + k) == (Weekday(day) + k) % 7
  {
    var q := (day + 4) / 7;
    assert day + 4 == 7 * q + Weekday(day);
    assert day + k + 4 == 7 * q + (Weekday(day) + k);
  }

  /** Two days less than a week apart fall on the same week day only if
      they are the same day. */
  lemma SameWeekdayWithinAWeek(a: int, b: int)
    requires a <= b < a + 7
    requires Weekday(a) == Weekday(b)
    ensures a == b
  {
    WeekdayShift(a, b - a);
  }

  /** The latest day on or before `today` that falls on week day `w`. */
  function MostRecent(today: int, w: int): (r: int)
    requires 0 <= w < 7
    ensures r <= today < r + 7
    ensures Weekday(r) == w
  {
    var k := (Weekday(today) - w) % 7;
    WeekdayShift(today, -k);
    today - k
  }

  /** The earliest day on or after `from` that falls on week day `w`. */
  function FirstOnOrAfter(from: int, w: int): (r: int)
    requires 0 <= w < 7
    ensures from <= r < from + 7
    ensures Weekday(r) == w
  {
    var k := (w - Weekday(from)) % 7;
    WeekdayShift(from, k);
    from + k
  }

  /** Every month has at least one and at most 31 days. */
  ghost predicate MonthsAreMonths(firstOfMonth: int -> int) {
    forall d :: firstOfMonth(d) <= d < firstOfMonth(d) + 31
  }

  /** Days on the same week day differ by whole weeks. */
  lemma SameWeekdayWholeWeeks(a: int, b: int)
    requires a <= b
    requires Weekday(a) == Weekday(b)
    ensures (b - a) % 7 == 0
  {
    var k := b - a;
    assert (a + 4 + k) % 7 == ((a + 4) % 7 + k % 7) % 7;
    assert (k % 7) % 7 == k % 7;
  }

  /** The week of the month of `today`, counted from week day `w`: the
      anchor is the most recent `w` on or before today, and the count starts
      at the first `w` of the anchor's month. */
  function WeekOfMonth(today: int, w: int, firstOfMonth: int -> int): (r: int)
    requires 0 <= w < 7
    requires MonthsAreMonths(firstOfMonth)
    ensures 1 <= r <= 5
    ensures var anchor := MostRecent(today, w);
            FirstOnOrAfter(firstOfMonth(anchor), w) + 7 * (r - 1) == anchor
  {
    var anchor := MostRecent(today, w);
    var first := FirstOnOrAfter(firstOfMonth(anchor), w);
    assert first <= anchor by {
      if anchor < first {
        SameWeekdayWithinAWeek(anchor, first);
      }
    }
    SameWeekdayWholeWeeks(first, anchor);
    (anchor - first) / 7 + 1
  }

  /** The day number `getCurrentWeekOfMonth` counts weeks from:
      `normalizeDayName(firstDayOfWeek || "Monday")` looked up among the
      short names, -1 when the name is not recognised. */
  function FirstDayIndex(firstDayOfWeek: Val): (r: int)
    ensures -1 <= r < 7
  {
    var name := Days.NormalizeDayName(if Truthy(firstDayOfWeek) then firstDayOfWeek else Str("Monday"));
    if name.Some? then IndexOf(Days.ShortDays, name.value) else -1
  }

  /** An unset first day counts weeks from Monday. */
  lemma {:induction false} UnsetFirstDayIsMonday()
    ensures FirstDayIndex(Undefined) == 1
    ensures FirstDayIndex(Str("")) == 1
  {
    assert Days.LongDays[1] == "Monday";
    Days.NormalizeAcceptsDayNames(1, "Monday");
    var name := Days.NormalizeDayName(Str("Monday"));
    assert name == Some(Days.ShortDays[1]);
    Days.ShortDayIndex(1);
    assert !Truthy(Undefined) && !Truthy(Str(""));
  }

  /** `getCurrentWeekOfMonth`: step back from today to the most recent
      first day of the week, then forward from the first of that day's month
      to the first such week day, and count whole weeks between the two. */
  method GetCurrentWeekOfMonth(today: int, firstDayOfWeek: Val, firstOfMonth: int -> int)
    returns (r: Option<int>)
    requires MonthsAreMonths(firstOfMonth)
    ensures r.None? <==> FirstDayIndex(firstDayOfWeek) == -1
    ensures r.Some? ==> r.value == WeekOfMonth(today, FirstDayIndex(firstDayOfWeek), firstOfMonth)
  {
    var firstDayIndex := FirstDayIndex(firstDayOfWeek);
    if firstDayIndex == -1 {
      return None;
    }

    // Step 1: the most recent first day of the week.
    ghost var anchor := MostRecent(today, firstDayIndex);
    var mostRecentDay := today;
    while Weekday(mostRecentDay) != firstDayIndex
      invariant anchor <= mostRecentDay <= today
      decreases mostRecentDay - anchor
    {
      mostRecentDay := mostRecentDay - 1;
    }
    SameWeekdayWithinAWeek(anchor, mostRecentDay);

    // Step 2: the first such week day of that day's month.
    ghost var first := FirstOnOrAfter(firstOfMonth(mostRecentDay), firstDayIndex);
    var firstWeekDayOfMonth := firstOfMonth(mostRecentDay);
    while Weekday(firstWeekDayOfMonth) != firstDayIndex
      invariant firstWeekDayOfMonth <= first
      decreases first - firstWeekDayOfMonth
    {
      firstWeekDayOfMonth := firstWeekDayOfMonth + 1;
    }
    SameWeekdayWithinAWeek(firstWeekDayOfMonth, first);

    // Steps 3 and 4: whole days, then whole weeks.
    var diffInDays := mostRecentDay - firstWeekDayOfMonth;
    r := Some(diffInDays / 7 + 1);
  }
}
