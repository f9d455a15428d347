/** The older, smaller variant of the card kept under `www/chore-card`: it
    reads its YAML file itself, throws on an unknown first day of the week,
    resets only the weekly cells, on every check that falls on the first day,
    and saves and loads nothing but `data` and `userPoints`. */
module Legacy {
  import opened Js
  import opened Model
  import Days
  import Users
  import Reset
  import Card

  /** The five display settings the variant reads from its YAML file. */
  datatype Display = Display(
    firstDayOfWeek: Val,
    showLongDayNames: Val,
    pointsPosition: Val,
    dayHeaderBackgroundColor: Val,
    dayHeaderFontColor: Val)

  /** A header colour of the YAML file when the browser accepts it, else the fallback. */
  function ColourOr(valid: string -> bool, value: Val, fallback: string): (r: Val)
    ensures ValidColor(valid, value) ==> r == value
    ensures !ValidColor(valid, value) ==> r == Str(fallback)
  {
    if ValidColor(valid, value) then value else Str(fallback)
  }

  /** The display settings `loadYamlData` derives from the YAML options: the
      first day defaults to "Monday" and is normalised, throwing for a name
      that is not a day; the flags fall back to `false` and "top"; a header
      colour the browser rejects falls back to blue or white. */
  function YamlDisplay(options: map<OptionKey, Val>, valid: string -> bool): (r: Outcome<Display>)
    ensures r.Ok? ==> 0 <= Days.GetDayIndexExact(r.value.firstDayOfWeek) < 7
    ensures r.Ok? && FallbacksValid(valid) ==>
              ValidColor(valid, r.value.dayHeaderBackgroundColor) && ValidColor(valid, r.value.dayHeaderFontColor)
    ensures r.Ok? ==> Truthy(r.value.showLongDayNames) == Truthy(Lookup(options, ShowLongDayNames))
    ensures r.Ok? ==> Truthy(r.value.pointsPosition)
  {
    var first := Or(Lookup(options, FirstDayOfWeek), Str("Monday"));
    match Days.NormalizeDayNameStrict(first)
    case Thrown => Thrown
    case Ok(day) =>
      Days.StrictResultHasIndex(first);
      Ok(DisplayFor(day, options, valid))
  }

  /** The settings once the first day has normalised to `day`. */
  function DisplayFor(day: string, options: map<OptionKey, Val>, valid: string -> bool): (r: Display)
    requires 0 <= Days.GetDayIndexExact(Str(day)) < 7
    ensures 0 <= Days.GetDayIndexExact(r.firstDayOfWeek) < 7
    ensures FallbacksValid(valid) ==>
              ValidColor(valid, r.dayHeaderBackgroundColor) && ValidColor(valid, r.dayHeaderFontColor)
    ensures Truthy(r.showLongDayNames) == Truthy(Lookup(options, ShowLongDayNames))
    ensures Truthy(r.pointsPosition)
  {
    Display(
      Str(day),
      Or(Lookup(options, ShowLongDayNames), Bool(false)),
      Or(Lookup(options, PointsPosition), Str("top")),
      ColourOr(valid, Lookup(options, DayHeaderBackgroundColor), "blue"),
      ColourOr(valid, Lookup(options, DayHeaderFontColor), "white"))
  }

  /** The variant rejects exactly the first days the current builds cannot
      normalise, and an absent or empty first day means Monday. */
  lemma YamlDisplayAgreesWithCurrentBuilds(options: map<OptionKey, Val>, valid: string -> bool)
    ensures YamlDisplay(options, valid).Thrown? <==>
              Truthy(Lookup(options, FirstDayOfWeek)) && Days.NormalizeDayName(Lookup(options, FirstDayOfWeek)).None?
    ensures YamlDisplay(options, valid).Ok? && Truthy(Lookup(options, FirstDayOfWeek)) ==>
              YamlDisplay(options, valid).value.firstDayOfWeek == Str(Days.NormalizeDayName(Lookup(options, FirstDayOfWeek)).value)
    ensures !Truthy(Lookup(options, FirstDayOfWeek)) ==>
              YamlDisplay(options, valid).Ok? && YamlDisplay(options, valid).value.firstDayOfWeek == Str("Mon")
  {
    var given := Lookup(options, FirstDayOfWeek);
    var first := Or(given, Str("Monday"));
    if Truthy(given) {
      assert first == given;
      Days.StrictAgreesWithLenient(given);
    } else {
      assert first == Str("Monday");
      Days.MondayIsMon();
    }
  }

  /** `users.forEach((user) => (userPoints[user.name] = 0))`: every
      configured user has 0 points; every other user already in the ledger
      keeps its points. */
  method ZeroConfigured(userPoints: Ledger, users: seq<User>) returns (r: Ledger)
    ensures r.Keys == userPoints.Keys + Users.NameSet(users)
    ensures forall n :: n in Users.NameSet(users) ==> r[n] == 0
    ensures forall n :: n in userPoints && n !in Users.NameSet(users) ==> r[n] == userPoints[n]
  {
    r := userPoints;
    var i := 0;
    while i < |users|
      invariant 0 <= i <= |users|
      invariant r.Keys == userPoints.Keys + Users.NameSet(users[..i])
      invariant forall n :: n in Users.NameSet(users[..i]) ==> r[n] == 0
      invariant forall n :: n in userPoints && n !in Users.NameSet(users[..i]) ==> r[n] == userPoints[n]
    {
      assert Users.NameSet(users[..i + 1]) == Users.NameSet(users[..i]) + {users[i].name} by {
        assert users[..i + 1] == users[..i] + [users[i]];
        Users.NameSetConcat(users[..i], [users[i]]);
      }
      r := r[users[i].name := 0];
      i := i + 1;
    }
    assert users[..i] == users;
  }

  /** What `saveStateToHomeAssistant` sends besides the card id. */
  datatype SavedState = SavedState(data: ChoreData, userPoints: Ledger)

  /** What a load finds in the sensor: each of the two fields may be absent. */
  datatype StoredState = StoredState(data: Option<ChoreData>, userPoints: Option<Ledger>)

  /** The state as the sensor holds it after a save. */
  function Stored(s: SavedState): (r: StoredState)
    ensures r.data.Some? && r.userPoints.Some?
  {
    StoredState(Some(s.data), Some(s.userPoints))
  }

  /** `savedState.data || this.data` and `savedState.userPoints || this.userPoints`;
      no state (the request failed) keeps both. */
  function Restored(stored: Option<StoredState>, data: ChoreData, userPoints: Ledger): (r: SavedState)
    ensures stored.None? ==> r == SavedState(data, userPoints)
    ensures stored.Some? && stored.value.data.Some? ==> r.data == stored.value.data.value
    ensures stored.Some? && stored.value.data.None? ==> r.data == data
    ensures stored.Some? && stored.value.userPoints.Some? ==> r.userPoints == stored.value.userPoints.value
    ensures stored.Some? && stored.value.userPoints.None? ==> r.userPoints == userPoints
  {
    match stored
    case None => SavedState(data, userPoints)
    case Some(s) =>
      SavedState(if s.data.Some? then s.data.value else data,
                 if s.userPoints.Some? then s.userPoints.value else userPoints)
  }

  /** Loading what a save sent gives back the saved chores and ledger,
      whatever the card held before. */
  lemma SaveLoadRoundTrip(s: SavedState, data: ChoreData, userPoints: Ledger)
    ensures Restored(Some(Stored(s)), data, userPoints) == s
  {
  }

  /** Loading the same state a second time changes nothing more. */
  lemma ReloadStable(stored: Option<StoredState>, data: ChoreData, userPoints: Ledger)
    ensures var once := Restored(stored, data, userPoints);
            Restored(stored, once.data, once.userPoints) == once
  {
  }

  /** Loading a state with neither field leaves the card as it was. */
  lemma EmptyLoadKeeps(data: ChoreData, userPoints: Ledger)
    ensures Restored(Some(StoredState(None, None)), data, userPoints) == SavedState(data, userPoints)
  {
  }

  class LegacyCard {
    var data: ChoreData
    var users: seq<User>
    var firstDayOfWeek: Val
    var showLongDayNames: Val
    var pointsPosition: Val
    var userPoints: Ledger
    var dayHeaderBackgroundColor: Val
    var dayHeaderFontColor: Val

    function Settings(): Display
      reads this
    {
      Display(firstDayOfWeek, showLongDayNames, pointsPosition, dayHeaderBackgroundColor, dayHeaderFontColor)
    }

    /** The state before the YAML file is read: no chores, no users, an
        empty ledger, Monday first, short names, points on top, blue and
        white headers. */
    constructor()
      ensures data == NoChores && users == [] && userPoints == map[]
      ensures Settings() == Display(Str("Mon"), Bool(false), Str("top"), Str("blue"), Str("white"))
    {
      data := NoChores;
      users := [];
      firstDayOfWeek := Str("Mon");
      showLongDayNames := Bool(false);
      pointsPosition := Str("top");
      userPoints := map[];
      dayHeaderBackgroundColor := Str("blue");
      dayHeaderFontColor := Str("white");
    }

    /** `resetWeeklyChores`: with a weekly section, every weekly chore gets
        seven empty cells and the state is sent; the daily and monthly cells
        and the ledger stay as they are. */
    method ResetWeeklyChores() returns (sent: Option<SavedState>)
      modifies this
      ensures data == Reset.ClearWeekly(old(data))
      ensures userPoints == old(userPoints) && users == old(users) && Settings() == old(Settings())
      ensures sent.Some? <==> |old(data).weekly| > 0
      ensures sent.Some? ==> sent.value == SavedState(data, userPoints)
    {
      sent := None;
      if |data.weekly| > 0 {
        var weekly := Card.ClearSection(data.weekly);
        data := data.(weekly := weekly);
        sent := Some(SavedState(data, userPoints));
      }
    }

    /** `checkForReset`: a reset whenever today is the first day of the
        week, however often that day it runs. */
    method CheckForReset(todayIndex: int) returns (sent: Option<SavedState>)
      modifies this
      ensures Reset.LegacyResetDue(todayIndex, old(firstDayOfWeek)) ==> data == Reset.ClearWeekly(old(data))
      ensures !Reset.LegacyResetDue(todayIndex, old(firstDayOfWeek)) ==> data == old(data) && sent.None?
      ensures sent.Some? <==> Reset.LegacyResetDue(todayIndex, old(firstDayOfWeek)) && |old(data).weekly| > 0
      ensures sent.Some? ==> sent.value == SavedState(data, userPoints)
      ensures userPoints == old(userPoints) && users == old(users) && Settings() == old(Settings())
    {
      sent := None;
      if todayIndex == Days.GetDayIndexExact(firstDayOfWeek) {
        sent := ResetWeeklyChores();
      }
    }

    /** `loadStateFromHomeAssistant`: the stored chores and ledger replace
        the card's, each only when present. */
    method LoadStateFromHomeAssistant(stored: Option<StoredState>)
      modifies this
      ensures SavedState(data, userPoints) == Restored(stored, old(data), old(userPoints))
      ensures users == old(users) && Settings() == old(Settings())
    {
      var r := Restored(stored, data, userPoints);
      data := r.data;
      userPoints := r.userPoints;
    }

    /** The assignments of `loadYamlData` once the first day is accepted:
        the display settings, the users, the chores, and 0 points for every
        configured user. */
    method ApplyYaml(config: Config, display: Display)
      modifies this
      ensures Settings() == display && users == config.users && data == config.chores
      ensures userPoints.Keys == old(userPoints).Keys + Users.NameSet(users)
      ensures forall u :: u in Users.NameSet(users) ==> userPoints[u] == 0
      ensures forall u :: u in old(userPoints) && u !in Users.NameSet(users) ==> userPoints[u] == old(userPoints)[u]
    {
      firstDayOfWeek := display.firstDayOfWeek;
      showLongDayNames := display.showLongDayNames;
      pointsPosition := display.pointsPosition;
      dayHeaderBackgroundColor := display.dayHeaderBackgroundColor;
      dayHeaderFontColor := display.dayHeaderFontColor;
      users := config.users;
      data := config.chores;
      userPoints := ZeroConfigured(userPoints, users);
    }

    /** `loadYamlData`: the parsed YAML file (`Thrown` when it could not be
        fetched or parsed), then the stored state, then the reset check on
        day `todayIndex`. A first day that is not a day name throws before
        anything is set, and the card keeps its state. */
    method LoadYamlData(yaml: Outcome<Config>, valid: string -> bool, stored: Option<StoredState>, todayIndex: int)
      returns (threw: bool, sent: Option<SavedState>)
      modifies this
      ensures threw <==> yaml.Thrown? || YamlDisplay(yaml.value.options, valid).Thrown?
      ensures threw ==> sent.None? && data == old(data) && users == old(users)
                        && userPoints == old(userPoints) && Settings() == old(Settings())
      ensures !threw ==> Settings() == YamlDisplay(yaml.value.options, valid).value && users == yaml.value.users
      ensures !threw ==> 0 <= Days.GetDayIndexExact(firstDayOfWeek) < 7
      ensures !threw && (stored.None? || stored.value.userPoints.None?) ==>
                userPoints.Keys == old(userPoints).Keys + Users.NameSet(users)
                && (forall u :: u in Users.NameSet(users) ==> userPoints[u] == 0)
                && (forall u :: u in old(userPoints) && u !in Users.NameSet(users) ==> userPoints[u] == old(userPoints)[u])
      ensures !threw && stored.Some? && stored.value.userPoints.Some? ==> userPoints == stored.value.userPoints.value
      ensures !threw ==> var loaded := Restored(stored, yaml.value.chores, userPoints);
                         data == (if Reset.LegacyResetDue(todayIndex, firstDayOfWeek)
                                  then Reset.ClearWeekly(loaded.data) else loaded.data)
      ensures !threw ==> (sent.Some? <==> Reset.LegacyResetDue(todayIndex, firstDayOfWeek)
                                          && |Restored(stored, yaml.value.chores, userPoints).data.weekly| > 0)
    {
      sent := None;
      if yaml.Thrown? {
        threw := true;
        return;
      }
      var config := yaml.value;
      var display := YamlDisplay(config.options, valid);
      if display.Thrown? {
        threw := true;
        return;
      }
      threw := false;
      ApplyYaml(config, display.value);
      LoadStateFromHomeAssistant(stored);
      sent := CheckForReset(todayIndex);
    }
  }
}
