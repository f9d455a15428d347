/** The weekly reset: when it is due, and what it leaves of the chores and
    the ledger. */
module Reset {
  import opened Js
  import opened Model
  import Days

  /** `chore.selections = Array(7).fill(null)` for every chore of a list. */
  function ClearSelections(chores: seq<Chore>): (r: seq<Chore>)
    ensures |r| == |chores|
    ensures forall i :: 0 <= i < |chores| ==> r[i] == chores[i].(selections := Some(NoSelections))
  {
    seq(|chores|, i requires 0 <= i < |chores| => chores[i].(selections := Some(NoSelections)))
  }

  /** The current builds clear the cells of all three sections. */
  function ClearAll(data: ChoreData): ChoreData {
    ChoreData(ClearSelections(data.daily), ClearSelections(data.weekly), ClearSelections(data.monthly))
  }

  /** The older variant clears only the weekly section. */
  function ClearWeekly(data: ChoreData): ChoreData {
    data.(weekly := ClearSelections(data.weekly))
  }

  /** `Object.keys(userPoints).forEach((user) => { userPoints[user] = 0 })` */
  function ZeroPoints(userPoints: Ledger): Ledger {
    map u | u in userPoints :: 0
  }

  /** After a reset every chore of every section has seven empty cells and
      is otherwise untouched, and every tracked user has 0 points, with no
      user added or removed. */
  lemma ResetEffect(data: ChoreData, userPoints: Ledger)
    ensures forall s :: |ClearAll(data).Get(s)| == |data.Get(s)|
    ensures forall s, i :: 0 <= i < |data.Get(s)| ==>
              ClearAll(data).Get(s)[i] == data.Get(s)[i].(selections := Some(NoSelections))
    ensures forall s, i :: 0 <= i < |data.Get(s)| ==> OccupiedCount(ClearAll(data).Get(s)[i].selections.value) == 0
    ensures ZeroPoints(userPoints).Keys == userPoints.Keys
    ensures forall u :: u in userPoints ==> ZeroPoints(userPoints)[u] == 0
  {
    forall s, i | 0 <= i < |data.Get(s)|
      ensures OccupiedCount(ClearAll(data).Get(s)[i].selections.value) == 0
    {
      assert ClearAll(data).Get(s) == ClearSelections(data.Get(s));
    }
  }

  /** Resetting twice leaves what resetting once does. */
  lemma ResetIdempotent(data: ChoreData, userPoints: Ledger)
    ensures ClearAll(ClearAll(data)) == ClearAll(data)
    ensures ZeroPoints(ZeroPoints(userPoints)) == ZeroPoints(userPoints)
    ensures ClearWeekly(ClearWeekly(data)) == ClearWeekly(data)
  {
    assert ClearSelections(ClearSelections(data.daily)) == ClearSelections(data.daily);
    assert ClearSelections(ClearSelections(data.weekly)) == ClearSelections(data.weekly);
    assert ClearSelections(ClearSelections(data.monthly)) == ClearSelections(data.monthly);
  }

  /** The older variant's reset: the weekly cells only; the daily and
      monthly cells and the ledger are not touched. */
  lemma ClearWeeklyEffect(data: ChoreData)
    ensures ClearWeekly(data).daily == data.daily && ClearWeekly(data).monthly == data.monthly
    ensures |ClearWeekly(data).weekly| == |data.weekly|
    ensures forall i :: 0 <= i < |data.weekly| ==> ClearWeekly(data).weekly[i].selections == Some(NoSelections)
    ensures data.weekly == [] ==> ClearWeekly(data) == data
  {
  }

  /** `checkForReset` in the current builds: today is the first day of the
      week (`getDayIndex(firstDayOfWeek)`, which throws for a value that is
      not a string) and no reset has been recorded for today. */
  predicate ResetDue(todayIndex: int, today: string, firstDayOfWeek: Val, lastReset: Val) {
    && firstDayOfWeek.Str?
    && todayIndex == Days.GetDayIndex(firstDayOfWeek.s)
    && (!Truthy(lastReset) || lastReset != Str(today))
  }

  /** Once `lastReset` holds today's date, no further reset is due that day. */
  lemma ResetOncePerDay(todayIndex: int, today: string, firstDayOfWeek: Val)
    requires today != ""
    ensures !ResetDue(todayIndex, today, firstDayOfWeek, Str(today))
  {
  }

  /** The guard holds within one page session only. Neither loader copies
      the stored `lastReset` into the card, which starts from `null`, so
      after a reload on the first day of the week a reset that already ran
      today is due again. */
  lemma ReloadResetsAgain(todayIndex: int, today: string, firstDayOfWeek: Val)
    requires today != ""
    requires firstDayOfWeek.Str? && todayIndex == Days.GetDayIndex(firstDayOfWeek.s)
    ensures !ResetDue(todayIndex, today, firstDayOfWeek, Str(today))
    ensures ResetDue(todayIndex, today, firstDayOfWeek, Null)
  {
  }

  /** A reset is due only on the configured first day of the week, which
      must be a day name; `todayIndex` is `getDay()`, 0 to 6. */
  lemma ResetDueOnFirstDay(todayIndex: int, today: string, firstDayOfWeek: Val, lastReset: Val)
    requires 0 <= todayIndex < 7
    requires ResetDue(todayIndex, today, firstDayOfWeek, lastReset)
    ensures Days.NormalizeDayName(firstDayOfWeek) == Some(Days.ShortDays[todayIndex])
  {
    Days.DayIndexMatchesNormalize(firstDayOfWeek.s);
  }

  /** `checkForReset` in the older variant: on the first day of the week,
      every time it runs. */
  predicate LegacyResetDue(todayIndex: int, firstDayOfWeek: Val) {
    todayIndex == Days.GetDayIndexExact(firstDayOfWeek)
  }
}
