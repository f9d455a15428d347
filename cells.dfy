/** Which grid cells may be claimed: the disable callbacks that
    `renderWeeklyChores` and `renderMonthlyChores` hand to `renderChoreRow`,
    the `hasValue` test they receive, and the monthly row highlight. */
module Cells {
  import opened Js
  import opened Model
  import Days

  /** `hasValue` of the cell for `dayIndex`: the slot is truthy. */
  predicate HasValue(chore: Chore, dayIndex: int) {
    chore.selections.Some? && 0 <= dayIndex < |chore.selections.value|
    && Occupied(chore.selections.value[dayIndex])
  }

  /** `specificDayIndexes` of a weekly row: no restriction unless `days` is
      a non-empty list; the render fails on a `null` entry, whose `trim` is
      missing. */
  datatype DayFilter = AnyDay | OnlyDays(indexes: seq<int>) | RenderFails

  predicate AllNames(xs: seq<Option<string>>) {
    forall i :: 0 <= i < |xs| ==> xs[i].Some?
  }

  /** The day number of one listed entry: `getDayIndex(day.trim())`. */
  function EntryIndex(entry: Option<string>): (r: int)
    requires entry.Some?
    ensures -1 <= r < 7
  {
    Days.GetDayIndex(Trim(entry.value))
  }

  /** `days.map((day) => getDayIndex(day.trim()))` */
  function EntryIndexes(xs: seq<Option<string>>): (r: seq<int>)
    requires AllNames(xs)
    ensures |r| == |xs|
    ensures forall i :: 0 <= i < |xs| ==> r[i] == EntryIndex(xs[i]) && -1 <= r[i] < 7
  {
    seq(|xs|, i requires 0 <= i < |xs| => EntryIndex(xs[i]))
  }

  /** `.filter((index) => index !== -1)` */
  function DropInvalid(ks: seq<int>): (r: seq<int>)
    ensures forall k :: k in r <==> k in ks && k != -1
  {
    if |ks| == 0 then []
    else
      var rest := DropInvalid(ks[1..]);
      assert forall k :: k in ks <==> k == ks[0] || k in ks[1..];
      (if ks[0] == -1 then [] else [ks[0]]) + rest
  }

  /** The valid day numbers a `days` list names. */
  function ValidIndexes(xs: seq<Option<string>>): (r: seq<int>)
    requires AllNames(xs)
    ensures forall k :: k in r ==> 0 <= k < 7
    ensures forall k :: k in r <==> k != -1 && exists i :: 0 <= i < |xs| && EntryIndex(xs[i]) == k
  {
    var ks := EntryIndexes(xs);
    assert forall k :: k in ks <==> exists i :: 0 <= i < |xs| && EntryIndex(xs[i]) == k by {
      forall k ensures k in ks <==> exists i :: 0 <= i < |xs| && EntryIndex(xs[i]) == k {
        if k in ks {
          var i :| 0 <= i < |ks| && ks[i] == k;
          assert EntryIndex(xs[i]) == k;
        }
        if exists i :: 0 <= i < |xs| && EntryIndex(xs[i]) == k {
          var i :| 0 <= i < |xs| && EntryIndex(xs[i]) == k;
          assert ks[i] == k;
        }
      }
    }
    DropInvalid(ks)
  }

  function SpecificDayIndexes(days: DaysField): DayFilter {
    if days.DaysItems? && |days.items| > 0 then
      if AllNames(days.items) then OnlyDays(ValidIndexes(days.items)) else RenderFails
    else AnyDay
  }

  /** Some slot of the row is taken (`selections.some((sel) => sel)`). */
  predicate RowTaken(chore: Chore) {
    chore.selections.Some?
    && exists i :: 0 <= i < |chore.selections.value| && Occupied(chore.selections.value[i])
  }

  /** The weekly disable callback. */
  predicate WeeklyCellDisabled(chore: Chore, dayIndex: int)
    requires !SpecificDayIndexes(chore.days).RenderFails?
  {
    var specific := SpecificDayIndexes(chore.days);
    var hasValue := HasValue(chore, dayIndex);
    if specific.OnlyDays? then !(dayIndex in specific.indexes || hasValue)
    else RowTaken(chore) && !hasValue
  }

  /** The weekly rule in the terms of the chore itself: a taken cell is
      always open; with a non-empty `days` list an empty cell is disabled
      exactly when no listed day names its day (so every empty cell when no
      listed day is valid); otherwise an empty cell is disabled exactly when
      some cell of the row is taken. */
  lemma {:induction false} WeeklyRule(chore: Chore, dayIndex: int)
    requires !SpecificDayIndexes(chore.days).RenderFails?
    requires 0 <= dayIndex < 7
    ensures HasValue(chore, dayIndex) ==> !WeeklyCellDisabled(chore, dayIndex)
    ensures chore.days.DaysItems? && |chore.days.items| > 0 ==>
              (WeeklyCellDisabled(chore, dayIndex) <==>
                 !HasValue(chore, dayIndex)
                 && forall i :: 0 <= i < |chore.days.items| ==> EntryIndex(chore.days.items[i]) != dayIndex)
    ensures !(chore.days.DaysItems? && |chore.days.items| > 0) ==>
              (WeeklyCellDisabled(chore, dayIndex) <==>
                 !HasValue(chore, dayIndex) && chore.selections.Some? && OccupiedCount(chore.selections.value) > 0)
  {
  }

  /** `max_days || 1` */
  function MaxDays(chore: Chore): int {
    if chore.maxDays.Some? && chore.maxDays.value != 0 then chore.maxDays.value else 1
  }

  /** `week_of_month && week_of_month.week === currentWeekOfMonth`; a
      missing week never equals the `null` of an invalid first day. */
  predicate InCorrectWeek(chore: Chore, currentWeek: Option<int>) {
    chore.weekOfMonth.Some? && chore.weekOfMonth.value.week.Some?
    && currentWeek.Some? && chore.weekOfMonth.value.week.value == currentWeek.value
  }

  /** `highlightColor` of a monthly row. */
  function Highlight(chore: Chore, currentWeek: Option<int>): (r: Val)
    ensures !InCorrectWeek(chore, currentWeek) ==> r == Str("transparent")
    ensures InCorrectWeek(chore, currentWeek) && Truthy(chore.weekOfMonth.value.highlightColor) ==>
              r == chore.weekOfMonth.value.highlightColor
    ensures Truthy(r)
  {
    if chore.weekOfMonth.Some? && InCorrectWeek(chore, currentWeek) then
      var h := chore.weekOfMonth.value.highlightColor;
      if Truthy(h) then h else Str("transparent")
    else Str("transparent")
  }

  /** The monthly disable callback. */
  predicate MonthlyCellDisabled(chore: Chore, currentWeek: Option<int>, dayIndex: int) {
    var isMaxDaysReached := chore.selections.Some? && OccupiedCount(chore.selections.value) >= MaxDays(chore);
    (isMaxDaysReached || (chore.weekOfMonth.Some? && !InCorrectWeek(chore, currentWeek)))
    && !HasValue(chore, dayIndex)
  }

  /** Taking the slot at `i` changes the taken count by what the old and
      the new slot contribute. */
  lemma {:induction false} OccupiedCountUpdate(slots: seq<Slot>, i: int, x: Slot)
    requires 0 <= i < |slots|
    ensures OccupiedCount(slots[i := x]) ==
              OccupiedCount(slots) - (if Occupied(slots[i]) then 1 else 0) + (if Occupied(x) then 1 else 0)
  {
    if i > 0 {
      assert slots[i := x][1..] == slots[1..][i - 1 := x];
      OccupiedCountUpdate(slots[1..], i - 1, x);
    } else {
      assert slots[i := x][1..] == slots[1..];
    }
  }

  /** Claiming an open empty monthly cell never takes a row past its
      `max_days` limit, and only happens in the configured week. */
  lemma {:induction false} MonthlyClaimKeepsLimit(chore: Chore, currentWeek: Option<int>, dayIndex: int, user: string)
    requires chore.selections.Some? && 0 <= dayIndex < |chore.selections.value|
    requires !HasValue(chore, dayIndex) && !MonthlyCellDisabled(chore, currentWeek, dayIndex)
    requires user != ""
    ensures OccupiedCount(chore.selections.value[dayIndex := Some(user)]) <= MaxDays(chore)
    ensures OccupiedCount(chore.selections.value[dayIndex := Some(user)]) ==
              OccupiedCount(chore.selections.value) + 1
    ensures chore.weekOfMonth.Some? ==> InCorrectWeek(chore, currentWeek)
  {
    OccupiedCountUpdate(chore.selections.value, dayIndex, Some(user));
  }

  /** In a weekly row without listed days, an open empty cell means the
      row is still free, so claiming it leaves exactly one taken cell. */
  lemma {:induction false} WeeklyAnyDayHoldsOne(chore: Chore, dayIndex: int, user: string)
    requires SpecificDayIndexes(chore.days) == AnyDay
    requires chore.selections.Some? && 0 <= dayIndex < |chore.selections.value|
    requires !HasValue(chore, dayIndex) && !WeeklyCellDisabled(chore, dayIndex)
    requires user != ""
    ensures OccupiedCount(chore.selections.value[dayIndex := Some(user)]) == 1
  {
    OccupiedCountUpdate(chore.selections.value, dayIndex, Some(user));
  }

  /** A taken cell is never disabled, in either section. */
  lemma TakenCellsStayOpen(chore: Chore, currentWeek: Option<int>, dayIndex: int)
    requires HasValue(chore, dayIndex)
    ensures !MonthlyCellDisabled(chore, currentWeek, dayIndex)
    ensures !SpecificDayIndexes(chore.days).RenderFails? ==> !WeeklyCellDisabled(chore, dayIndex)
  {
  }
}
