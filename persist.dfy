/** What the card sends when it saves and what it reads back: the weekly
    chores' `day` list travels as one ", "-joined string in the `dist` build,
    and the snapshots of both builds. */
module Persist {
  import opened Js
  import opened Model

  /** `Array.isArray(chore.day) ? chore.day.join(", ") : chore.day`: the
      payload never holds a list, and a list of storable names is read back
      as the same list. */
  function JoinDay(day: DayField): (r: DayField)
    ensures !r.DayList?
    ensures !day.DayList? ==> r == day
    ensures day.DayList? && AllStorable(day.names) ==> SplitDay(r) == Ok(day)
  {
    if day.DayList? then
      DayRoundTrip(day.names);
      DayText(Join(day.names, ", "))
    else day
  }

  /** `chore.day ? chore.day.split(",").map((d) => d.trim()) : []`: a list
      has no `split` and throws. */
  function SplitDay(day: DayField): (r: Outcome<DayField>)
    ensures r.Thrown? <==> day.DayList?
    ensures (day.NoDay? || day == DayText("")) ==> r == Ok(DayList([]))
  {
    match day
    case NoDay => Ok(DayList([]))
    case DayText(text) =>
      if text == "" then Ok(DayList([]))
      else
        var parts := Split(text, ',');
        Ok(DayList(seq(|parts|, i requires 0 <= i < |parts| => Trim(parts[i]))))
    case DayList(_) => Thrown
  }

  /** A day name that survives being joined and split: not empty, without
      a comma, with no surrounding white space. */
  predicate Storable(name: string) {
    name != "" && ',' !in name && IsTrimmed(name)
  }

  predicate AllStorable(names: seq<string>) {
    forall i :: 0 <= i < |names| ==> Storable(names[i])
  }

  /** Splitting the ", "-joined text of storable names gives the names
      back. */
  lemma {:induction false} DayRoundTrip(names: seq<string>)
    ensures AllStorable(names) ==> SplitDay(DayText(Join(names, ", "))) == Ok(DayList(names))
  {
    if AllStorable(names) && |names| > 0 {
      SplitJoin(names);
      var text := Join(names, ", ");
      assert text != "" by {
        JoinHead(names);
      }
      var parts := Split(text, ',');
      var trimmed := seq(|parts|, i requires 0 <= i < |parts| => Trim(parts[i]));
      forall i | 0 <= i < |names| ensures trimmed[i] == names[i] {
        if i == 0 {
          TrimOfTrimmed(names[0]);
        } else {
          TrimLeadingSpace(names[i]);
        }
      }
      assert trimmed == names;
      assert SplitDay(DayText(text)) == Ok(DayList(trimmed));
    }
  }

  /** A joined list starts with its first item. */
  lemma {:induction false} JoinHead(names: seq<string>)
    requires |names| > 0
    ensures |Join(names, ", ")| >= |names[0]|
  {
  }

  /** The weekly chores as the `dist` build sends them. */
  function SaveData(data: ChoreData): (r: ChoreData)
    ensures r.daily == data.daily && r.monthly == data.monthly && |r.weekly| == |data.weekly|
    ensures forall i :: 0 <= i < |data.weekly| ==> r.weekly[i] == data.weekly[i].(day := JoinDay(data.weekly[i].day))
  {
    data.(weekly := seq(|data.weekly|, i requires 0 <= i < |data.weekly| =>
                          data.weekly[i].(day := JoinDay(data.weekly[i].day))))
  }

  /** The weekly chores as the `dist` build reads them back; a chore whose
      `day` is already a list makes the load throw. */
  function LoadData(data: ChoreData): (r: Outcome<ChoreData>)
    ensures r.Thrown? <==> exists i :: 0 <= i < |data.weekly| && data.weekly[i].day.DayList?
    ensures r.Ok? ==> r.value.daily == data.daily && r.value.monthly == data.monthly && |r.value.weekly| == |data.weekly|
    ensures r.Ok? ==> forall i :: 0 <= i < |data.weekly| ==> r.value.weekly[i].(day := data.weekly[i].day) == data.weekly[i]
    ensures r.Ok? ==> forall i :: 0 <= i < |data.weekly| ==> LoadedDay(r.value.weekly[i].day)
  {
    if exists i :: 0 <= i < |data.weekly| && data.weekly[i].day.DayList? then Thrown
    else Ok(data.(weekly := seq(|data.weekly|, i requires 0 <= i < |data.weekly| =>
                                  data.weekly[i].(day := SplitDay(data.weekly[i].day).value))))
  }

  /** A `day` as a load leaves it: a list of trimmed names. */
  predicate LoadedDay(day: DayField) {
    day.DayList? && forall k :: 0 <= k < |day.names| ==> IsTrimmed(day.names[k])
  }

  /** Every weekly chore holds its `day` as a list of storable names. */
  predicate DaysStorable(data: ChoreData) {
    forall i, k :: 0 <= i < |data.weekly| && data.weekly[i].day.DayList? && 0 <= k < |data.weekly[i].day.names| ==>
      Storable(data.weekly[i].day.names[k])
  }

  /** Saving then loading the chore data gives it back when every weekly
      chore holds its `day` as a list of storable names. */
  lemma {:induction false} DataRoundTrip(data: ChoreData)
    requires forall i :: 0 <= i < |data.weekly| ==> data.weekly[i].day.DayList?
    requires DaysStorable(data)
    ensures LoadData(SaveData(data)) == Ok(data)
  {
    var saved := SaveData(data);
    forall i | 0 <= i < |data.weekly| ensures SplitDay(saved.weekly[i].day) == Ok(data.weekly[i].day) {
      assert AllStorable(data.weekly[i].day.names);
    }
    assert LoadData(saved).value.weekly == data.weekly;
  }

  /** An archived week: when it was archived and the `lastReset` it had. */
  datatype ArchiveEntry = ArchiveEntry(timestamp: string, lastReset: Val)

  /** The state a save sends, and the state a load reads. */
  datatype Snapshot = Snapshot(
    options: map<OptionKey, Val>,
    users: seq<User>,
    userPoints: Ledger,
    data: ChoreData,
    lastReset: Val,
    archivedStates: seq<ArchiveEntry>)

  /** `this.lastReset || null` */
  function LastResetOrNull(lastReset: Val): (r: Val)
    ensures Truthy(lastReset) ==> r == lastReset
    ensures !Truthy(lastReset) ==> r == Null
  {
    if Truthy(lastReset) then lastReset else Null
  }

  /** The `dist` build's snapshot: the weekly `day` lists joined, the card's
      ledger, and the archive of the last saved state. The two current-day
      colours are read from fields that are never set, so they are always
      `undefined`. */
  function DistSnapshot(options: map<OptionKey, Val>, users: seq<User>, userPoints: Ledger, data: ChoreData,
                        lastReset: Val, archivedStates: seq<ArchiveEntry>): (r: Snapshot)
    ensures Lookup(r.options, CurrentDayBackgroundColor) == Undefined
    ensures Lookup(r.options, CurrentDayFontColor) == Undefined
    ensures forall k :: k != CurrentDayBackgroundColor && k != CurrentDayFontColor ==> Lookup(r.options, k) == Lookup(options, k)
    ensures r.data == SaveData(data) && r.userPoints == userPoints && r.users == users
    ensures r.lastReset == LastResetOrNull(lastReset) && r.archivedStates == archivedStates
  {
    Snapshot(options - {CurrentDayBackgroundColor, CurrentDayFontColor}, users, userPoints, SaveData(data),
             LastResetOrNull(lastReset), archivedStates)
  }

  /** The frontend build's snapshot: everything as the card holds it. */
  function FrontendSnapshot(options: map<OptionKey, Val>, users: seq<User>, userPoints: Ledger, data: ChoreData,
                            lastReset: Val): (r: Snapshot)
    ensures forall k :: Lookup(r.options, k) == Lookup(options, k)
    ensures r.data == data && r.userPoints == userPoints && r.users == users
    ensures r.lastReset == LastResetOrNull(lastReset) && r.archivedStates == []
  {
    Snapshot(options, users, userPoints, data, LastResetOrNull(lastReset), [])
  }

  /** The frontend build sends its snapshot only when it differs from the
      attributes the sensor holds. */
  predicate FrontendSaveIssued(current: Option<Snapshot>, next: Snapshot) {
    current != Some(next)
  }
}
