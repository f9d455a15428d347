/** The card object of the two current builds: its options, users, ledger
    and chores, the state object it loads from and saves to the Home
    Assistant sensor, and the operations that change them: creating the
    default state, reconciling a loaded state with the YAML configuration,
    saving, the weekly reset and picking a user in a day cell. */
module Card {
  import opened Js
  import opened Model
  import Days
  import Options
  import Users
  import Chores
  import Persist
  import Reset
  import Dropdown = Ledger

  // ---------------------------------------------------------------------
  // Values

  /** The options the constructor gives a new card. */
  const ConstructorOptions: map<OptionKey, Val> := map[
    FirstDayOfWeek := Str("Mon"),
    ShowLongDayNames := Bool(false),
    PointsPosition := Str("top"),
    DayHeaderBackgroundColor := Str("blue"),
    DayHeaderFontColor := Str("white"),
    CurrentDayBackgroundColor := Str("red"),
    CurrentDayFontColor := Str("white")
  ]

  /** The options `setConfig` sets: the configured value when it is truthy,
      a default otherwise; the first day of the week is taken as written,
      not normalised. */
  function ConfiguredOptions(configured: map<OptionKey, Val>): map<OptionKey, Val> {
    map[
      FirstDayOfWeek := Or(Lookup(configured, FirstDayOfWeek), Str("Mon")),
      ShowLongDayNames := Or(Lookup(configured, ShowLongDayNames), Bool(false)),
      PointsPosition := Or(Lookup(configured, PointsPosition), Str("top")),
      DayHeaderBackgroundColor := Or(Lookup(configured, DayHeaderBackgroundColor), Str("blue")),
      DayHeaderFontColor := Or(Lookup(configured, DayHeaderFontColor), Str("white")),
      CurrentDayBackgroundColor := Or(Lookup(configured, CurrentDayBackgroundColor), Str("red")),
      CurrentDayFontColor := Or(Lookup(configured, CurrentDayFontColor), Str("white"))
    ]
  }

  /** `setConfig` falls back to exactly the options a new card starts
      with: an unset or falsy option keeps the constructor's value. */
  lemma ConfigFallsBackToConstructor(configured: map<OptionKey, Val>)
    ensures forall k :: Lookup(ConfiguredOptions(configured), k) == Or(Lookup(configured, k), Lookup(ConstructorOptions, k))
  {
    forall k ensures Lookup(ConfiguredOptions(configured), k) == Or(Lookup(configured, k), Lookup(ConstructorOptions, k)) {
      match k {
        case FirstDayOfWeek =>
        case ShowLongDayNames =>
        case PointsPosition =>
        case DayHeaderBackgroundColor =>
        case DayHeaderFontColor =>
        case CurrentDayBackgroundColor =>
        case CurrentDayFontColor =>
      }
    }
  }

  /** The options `createDefaultState` sets: the configured first day of
      the week normalised when it is set, "Mon" otherwise; every other
      option the configured value when it is truthy, its default otherwise
      (the points go to the bottom here, not to the top as in a new card). */
  function DefaultOptions(configured: map<OptionKey, Val>): map<OptionKey, Val> {
    var day := Lookup(configured, FirstDayOfWeek);
    map[
      FirstDayOfWeek := if Truthy(day) then Options.DayVal(Days.NormalizeDayName(day)) else Str("Mon"),
      ShowLongDayNames := Or(Lookup(configured, ShowLongDayNames), Bool(false)),
      PointsPosition := Or(Lookup(configured, PointsPosition), Str("bottom")),
      DayHeaderBackgroundColor := Or(Lookup(configured, DayHeaderBackgroundColor), Str("blue")),
      DayHeaderFontColor := Or(Lookup(configured, DayHeaderFontColor), Str("white")),
      CurrentDayBackgroundColor := Or(Lookup(configured, CurrentDayBackgroundColor), Str("red")),
      CurrentDayFontColor := Or(Lookup(configured, CurrentDayFontColor), Str("white"))
    ]
  }

  /** The configured weekly chores with their `days` normalised, as the
      default state holds them: only `days` changes, and it becomes the list
      `Chores.NormalizeDays` gives, each entry the short name of the day it
      names. A `null` entry in a list of days throws. */
  function NormalizedWeekly(weekly: seq<Chore>): (r: Outcome<seq<Chore>>)
    ensures r.Thrown? <==> exists i :: 0 <= i < |weekly| && weekly[i].days.DaysItems? && None in weekly[i].days.items
    ensures r.Ok? ==> |r.value| == |weekly|
    ensures r.Ok? ==> forall i :: 0 <= i < |weekly| ==> r.value[i].(days := weekly[i].days) == weekly[i]
    ensures r.Ok? ==> forall i :: 0 <= i < |weekly| ==> ShortDaysOnly(r.value[i].days)
    ensures r.Ok? ==> forall i :: 0 <= i < |weekly| ==>
              Chores.NormalizeDays(weekly[i].days).Ok? && r.value[i].days == DaysItems(Chores.NormalizeDays(weekly[i].days).value)
  {
    if exists i :: 0 <= i < |weekly| && Chores.NormalizeDays(weekly[i].days).Thrown? then Thrown
    else Ok(seq(|weekly|, i requires 0 <= i < |weekly| =>
                  weekly[i].(days := DaysItems(Chores.NormalizeDays(weekly[i].days).value))))
  }

  /** A list of days whose every recognised entry is a short day name. */
  predicate ShortDaysOnly(days: DaysField) {
    days.DaysItems? && forall k :: 0 <= k < |days.items| && days.items[k].Some? ==> days.items[k].value in Days.ShortDays
  }

  // ---------------------------------------------------------------------
  // Holders and the ledger

  /** Every taken cell of every chore names a user with an entry in the
      ledger, so that moving points never adds to a missing entry. */
  predicate HoldersTracked(data: ChoreData, ledger: Ledger) {
    forall s, i :: 0 <= i < |data.Get(s)| && data.Get(s)[i].selections.Some? ==>
      Chores.Tracked(data.Get(s)[i].selections.value, ledger)
  }

  /** No chore has a taken cell. */
  predicate NoPicks(data: ChoreData) {
    forall s, i, k :: 0 <= i < |data.Get(s)| && data.Get(s)[i].selections.Some? &&
                      0 <= k < |data.Get(s)[i].selections.value| ==>
      !Occupied(data.Get(s)[i].selections.value[k])
  }

  lemma NoPicksTracked(data: ChoreData, ledger: Ledger)
    requires NoPicks(data)
    ensures HoldersTracked(data, ledger)
  {
  }

  /** Tracked holders are tracked by every ledger with more names. */
  lemma TrackedByMore(data: ChoreData, ledger: Ledger, more: Ledger)
    requires HoldersTracked(data, ledger) && ledger.Keys <= more.Keys
    ensures HoldersTracked(data, more)
  {
    forall s, i | 0 <= i < |data.Get(s)| && data.Get(s)[i].selections.Some?
      ensures Chores.Tracked(data.Get(s)[i].selections.value, more)
    {
      assert Chores.Tracked(data.Get(s)[i].selections.value, ledger);
    }
  }

  /** The holders are tracked the way the chore reconciliation needs. */
  lemma TrackedSections(data: ChoreData, ledger: Ledger)
    requires HoldersTracked(data, ledger)
    ensures Chores.DataTracked(data, ledger)
  {
    forall s ensures Chores.SectionTracked(data.Get(s), ledger) {
      var byName := Chores.ByName(data.Get(s));
      forall n | n in byName && byName[n].selections.Some?
        ensures Chores.Tracked(byName[n].selections.value, ledger)
      {
        var i :| 0 <= i < |data.Get(s)| && data.Get(s)[i] == byName[n];
      }
    }
    assert Chores.SectionTracked(data.Get(Daily), ledger);
    assert Chores.SectionTracked(data.Get(Weekly), ledger);
    assert Chores.SectionTracked(data.Get(Monthly), ledger);
  }

  /** Removing users and clearing their cells keeps the other holders
      tracked. */
  lemma ClearKeepsTracked(data: ChoreData, ledger: Ledger, gone: set<string>)
    requires HoldersTracked(data, ledger)
    ensures HoldersTracked(Users.ClearNames(data, gone), ledger - gone)
  {
    var cleared := Users.ClearNames(data, gone);
    forall s, i | 0 <= i < |cleared.Get(s)| && cleared.Get(s)[i].selections.Some?
      ensures Chores.Tracked(cleared.Get(s)[i].selections.value, ledger - gone)
    {
      assert Chores.Tracked(data.Get(s)[i].selections.value, ledger);
    }
  }

  /** The users pass only adds names to the ledger. */
  lemma {:induction false} AddPassKeys(build: Build, original: seq<User>, configUsers: seq<User>,
                                       start: Users.Progress, valid: string -> bool)
    ensures start.points.Keys <= Users.AddPass(build, original, configUsers, start, valid).points.Keys
  {
    if |configUsers| > 0 {
      AddPassKeys(build, original, configUsers[..|configUsers| - 1], start, valid);
    }
  }

  /** Loading the weekly `day` lists keeps every cell. */
  lemma LoadKeepsTracked(data: ChoreData, ledger: Ledger)
    requires HoldersTracked(data, ledger) && Persist.LoadData(data).Ok?
    ensures HoldersTracked(Persist.LoadData(data).value, ledger)
  {
    var loaded := Persist.LoadData(data).value;
    forall s, i | 0 <= i < |loaded.Get(s)| && loaded.Get(s)[i].selections.Some?
      ensures Chores.Tracked(loaded.Get(s)[i].selections.value, ledger)
    {
      assert loaded.Get(s)[i].selections == data.Get(s)[i].selections;
    }
  }

  // ---------------------------------------------------------------------
  // The state object

  /** A state object: one read from the sensor's attributes, one built by
      `createDefaultState`, or the payload of the last successful save. The
      reconcilers update it in place. */
  class SavedState {
    var options: map<OptionKey, Val>
    var users: seq<User>
    var userPoints: Ledger
    var data: ChoreData
    var lastReset: Val
    var archivedStates: seq<Persist.ArchiveEntry>

    function Contents(): Persist.Snapshot
      reads this
    {
      Persist.Snapshot(options, users, userPoints, data, lastReset, archivedStates)
    }

    constructor (s: Persist.Snapshot)
      ensures Contents() == s
    {
      options := s.options;
      users := s.users;
      userPoints := s.userPoints;
      data := s.data;
      lastReset := s.lastReset;
      archivedStates := s.archivedStates;
    }

    /** The removal loop of `checkAndUpdateUsers`: walking the list from
      the back, each user whose name is not in `names` is spliced out, its
      ledger entry deleted and its cells cleared in every section. */
    method DropUsers(names: set<string>) returns (changed: bool)
      modifies this
      ensures var rem := Users.RemoveUsers(old(users), names, old(userPoints), old(data));
        users == rem.users && userPoints == rem.points && data == rem.data && changed == rem.changed
      ensures options == old(options) && lastReset == old(lastReset) && archivedStates == old(archivedStates)
    {
      var original := users;
      ghost var points0 := userPoints;
      ghost var data0 := data;
      Users.ClearNothing(data0);
      changed := false;
      var i := |original|;
      while i > 0
        invariant Users.Dropped(original, names, points0, data0, i, users, userPoints, data, changed)
        invariant options == old(options) && lastReset == old(lastReset) && archivedStates == old(archivedStates)
      {
        i := i - 1;
        Users.DropStep(original, names, points0, data0, i, users, userPoints, data, changed);
        var savedUser := users[i];
        if savedUser.name !in names {
          users := users[..i] + users[i + 1..];
          userPoints := userPoints - {savedUser.name};
          data := Users.ClearNames(data, {savedUser.name});
          changed := true;
        }
      }
      assert original[0..] == original && original[..0] == [];
    }

    /** The loop of `checkAndUpdateUsers` over the configured users, in
      order, as `Users.AddOrUpdate` describes; `original` is the stored
      list the lookup map was built from, `changed` what the removal
      reported. */
    method MergeUsers(build: Build, original: seq<User>, configUsers: seq<User>, changedBefore: bool,
                      valid: string -> bool) returns (changed: bool)
      modifies this
      ensures Users.Progress(users, userPoints, changed) ==
              Users.AddPass(build, original, configUsers, Users.Progress(old(users), old(userPoints), changedBefore), valid)
      ensures options == old(options) && data == old(data) && lastReset == old(lastReset)
      ensures archivedStates == old(archivedStates)
    {
      ghost var start := Users.Progress(users, userPoints, changedBefore);
      changed := changedBefore;
      var j := 0;
      while j < |configUsers|
        invariant 0 <= j <= |configUsers|
        invariant Users.Progress(users, userPoints, changed) == Users.AddPass(build, original, configUsers[..j], start, valid)
        invariant options == old(options) && data == old(data) && lastReset == old(lastReset)
        invariant archivedStates == old(archivedStates)
      {
        var yamlUser := configUsers[j];
        Users.AddSnoc(build, original, configUsers, j, start, valid);
        ghost var before := Users.Progress(users, userPoints, changed);
        var savedUser := Users.LastWith(original, yamlUser.name);
        var updated := Users.Configured(yamlUser, valid);
        if savedUser.None? {
          users := users + [updated];
          userPoints := userPoints[yamlUser.name := 0];
          changed := true;
        } else if build == Dist {
          // the map's record is the list's last record of the name
          var k := Users.LastIndexOf(users, yamlUser.name);
          if k != -1 && users[k] != updated {
            users := users[k := updated];
            changed := true;
          }
        } else if savedUser.value.backgroundColor != updated.backgroundColor
                  || savedUser.value.fontColor != updated.fontColor {
          var k := Users.FirstIndexOf(users, yamlUser.name);
          if k != -1 {
            users := users[k := updated];
          }
          changed := true;
        }
        assert Users.Progress(users, userPoints, changed) == Users.AddOrUpdate(build, original, yamlUser, before, valid);
        j := j + 1;
      }
      assert configUsers[..|configUsers|] == configUsers;
    }
  }

  /** `{}`, the object `resetWeeklyChores` starts from when nothing was
      loaded. */
  const EmptyState := Persist.Snapshot(map[], [], map[], NoChores, Undefined, [])

  /** The loop of one section of `checkAndUpdateChores` over its configured
      chores, from the stored chores by name and the ledger. */
  method RunSection(section: Section, yamlChores: seq<Chore>, savedChores: seq<Chore>, ledger: Ledger,
                    valid: string -> bool) returns (s: Chores.SectionState, threw: bool)
    requires Chores.SectionTracked(savedChores, ledger)
    ensures var start := Chores.SectionState(Chores.ByName(savedChores), [], ledger, false);
            var r := Chores.SectionRun(section, yamlChores, start, valid);
            (threw <==> r.Thrown?) && (!threw ==> r == Ok(s))
  {
    s := Chores.SectionState(Chores.ByName(savedChores), [], ledger, false);
    ghost var start := s;
    var j := 0;
    while j < |yamlChores|
      invariant 0 <= j <= |yamlChores|
      invariant Chores.Coherent(s)
      invariant Chores.SectionRun(section, yamlChores[..j], start, valid) == Ok(s)
    {
      Chores.RunStep(section, yamlChores, start, j, s, valid);
      var next := Chores.SectionStep(section, yamlChores[j], s, valid);
      if next.Thrown? {
        return s, true;
      }
      s := next.value;
      j := j + 1;
    }
    assert yamlChores[..|yamlChores|] == yamlChores;
    threw := false;
  }

  // ---------------------------------------------------------------------
  // Saving

  /** What the card knows of Home Assistant when it saves. In the `dist`
      build `reachable` is a token being set and `accepts` the POST being
      answered with success; in the frontend build `reachable` is the `hass`
      object being set and `attributes` what the sensor holds (a failed
      service call is caught and changes nothing). */
  datatype Sensor = Sensor(reachable: bool, accepts: bool, attributes: Option<Persist.Snapshot>)

  /** The archive of the last saved state, or `None` when there is none
      (reading it then throws, and the save is abandoned). */
  function ArchiveOf(s: SavedState?): Option<seq<Persist.ArchiveEntry>>
    reads s
  {
    if s == null then None else Some(s.archivedStates)
  }

  /** The payload `saveStateToHomeAssistant` sends for the card's fields:
      the `dist` build sends whenever it has a token and a last saved state,
      the frontend build whenever it has `hass` and the sensor does not
      already hold the same snapshot. */
  function SaveSent(build: Build, sensor: Sensor, options: map<OptionKey, Val>, users: seq<User>,
                    userPoints: Ledger, data: ChoreData, lastReset: Val,
                    archive: Option<seq<Persist.ArchiveEntry>>): (r: Option<Persist.Snapshot>)
    ensures r.Some? ==> sensor.reachable
    ensures build == Dist ==> (r.Some? <==> sensor.reachable && archive.Some?)
    ensures build == Dist && r.Some? ==> r.value == Persist.DistSnapshot(options, users, userPoints, data, lastReset, archive.value)
    ensures build == Frontend ==> r != Some(Persist.FrontendSnapshot(options, users, userPoints, data, lastReset)) ==>
              r == None && (!sensor.reachable || sensor.attributes == Some(Persist.FrontendSnapshot(options, users, userPoints, data, lastReset)))
  {
    if build == Dist then
      if sensor.reachable && archive.Some? then
        Some(Persist.DistSnapshot(options, users, userPoints, data, lastReset, archive.value))
      else None
    else
      var next := Persist.FrontendSnapshot(options, users, userPoints, data, lastReset);
      if sensor.reachable && Persist.FrontendSaveIssued(sensor.attributes, next) then Some(next) else None
  }

  /** A successful `dist` save makes its payload the last saved state. */
  predicate Replaces(build: Build, sensor: Sensor, sent: Option<Persist.Snapshot>) {
    build == Dist && sensor.accepts && sent.Some?
  }

  /** The frontend build sends exactly when the sensor holds something
      else, so once the sensor holds what it sent, saving the same card
      again sends nothing. */
  lemma FrontendSaveSettles(sensor: Sensor, options: map<OptionKey, Val>, users: seq<User>, userPoints: Ledger,
                            data: ChoreData, lastReset: Val)
    ensures var next := Persist.FrontendSnapshot(options, users, userPoints, data, lastReset);
      && (SaveSent(Frontend, sensor, options, users, userPoints, data, lastReset, None).Some? <==>
            sensor.reachable && sensor.attributes != Some(next))
      && SaveSent(Frontend, sensor.(attributes := Some(next)), options, users, userPoints, data, lastReset, None) == None
  {
  }

  // ---------------------------------------------------------------------
  // The points of a picked cell

  /** The ledger arithmetic of `handleDropdownChange`: a tracked previous
      holder loses the chore's points and is floored at 0, then a non-empty
      new holder gains them, from 0 when untracked. */
  method MovePoints(userPoints: Ledger, previousValue: Slot, selectedValue: string, points: int) returns (r: Ledger)
    requires previousValue != Some(selectedValue)
    ensures r == Dropdown.Reassign(userPoints, previousValue, selectedValue, points)
  {
    r := userPoints;
    if Occupied(previousValue) && previousValue.value in r {
      r := r[previousValue.value := r[previousValue.value] - points];
      if r[previousValue.value] < 0 {
        r := r[previousValue.value := 0];
      }
    }
    if selectedValue != "" {
      r := r[selectedValue := (if selectedValue in r then r[selectedValue] else 0) + points];
    }
  }

  // ---------------------------------------------------------------------
  // The weekly reset's loops

  /** `chores.forEach((chore) => { chore.selections = Array(7).fill(null) })` */
  method ClearSection(chores: seq<Chore>) returns (r: seq<Chore>)
    ensures r == Reset.ClearSelections(chores)
  {
    r := chores;
    var i := 0;
    while i < |r|
      invariant 0 <= i <= |r| == |chores|
      invariant forall k :: 0 <= k < i ==> r[k] == chores[k].(selections := Some(NoSelections))
      invariant forall k :: i <= k < |r| ==> r[k] == chores[k]
    {
      r := r[i := r[i].(selections := Some(NoSelections))];
      i := i + 1;
    }
  }

  /** `Object.keys(userPoints).forEach((user) => { userPoints[user] = 0 })`,
      in whatever order the keys come. */
  method ZeroAll(userPoints: Ledger) returns (r: Ledger)
    ensures r == Reset.ZeroPoints(userPoints)
  {
    r := userPoints;
    var left := userPoints.Keys;
    while left != {}
      invariant left <= userPoints.Keys && r.Keys == userPoints.Keys
      invariant forall u :: u in r ==> r[u] == (if u in left then userPoints[u] else 0)
      decreases left
    {
      var u :| u in left;
      r := r[u := 0];
      left := left - {u};
    }
  }

  // ---------------------------------------------------------------------
  // Loading

  /** The card's own copy of the state: its options, users, ledger and
      chores. */
  datatype CardFields = CardFields(options: map<OptionKey, Val>, users: seq<User>, userPoints: Ledger, data: ChoreData)

  /** The sensor's attributes as the `dist` build fetches them: a state,
      and whether its `data` has a `weekly` list at all (the integration
      creates the sensor with an empty `data`). */
  datatype Fetched = Fetched(state: Persist.Snapshot, hasWeekly: bool)

  /** The sensor's attributes as the `dist` build reads them, with the
      weekly `day` strings split back into lists; `None` when nothing was
      fetched, when `data` has no `weekly` list to map over, or when the
      split throws, all of which end in the default state. */
  function ParsedState(fetched: Option<Fetched>): Option<Persist.Snapshot> {
    if fetched.Some? && fetched.value.hasWeekly && Persist.LoadData(fetched.value.state.data).Ok?
    then Some(fetched.value.state.(data := Persist.LoadData(fetched.value.state.data).value))
    else None
  }

  /** The chores of the default state: the configured ones with the weekly
      `days` normalised. */
  function DefaultData(config: Config): (r: Outcome<ChoreData>)
    ensures r.Thrown? <==> NormalizedWeekly(config.chores.weekly).Thrown?
  {
    match NormalizedWeekly(config.chores.weekly)
    case Thrown => Thrown
    case Ok(weekly) => Ok(config.chores.(weekly := weekly))
  }

  /** Normalising the weekly days and joining the weekly `day` lists keep
      every cell. */
  lemma DefaultKeepsCells(config: Config)
    requires NoPicks(config.chores)
    ensures DefaultData(config).Ok? ==>
              NoPicks(DefaultData(config).value) && NoPicks(Persist.SaveData(DefaultData(config).value))
  {
    if DefaultData(config).Ok? {
      var d := DefaultData(config).value;
      var saved := Persist.SaveData(d);
      forall s, i, k | 0 <= i < |d.Get(s)| && d.Get(s)[i].selections.Some? && 0 <= k < |d.Get(s)[i].selections.value|
        ensures !Occupied(d.Get(s)[i].selections.value[k])
      {
        assert d.Get(s)[i].selections == config.chores.Get(s)[i].selections;
      }
      forall s, i, k | 0 <= i < |saved.Get(s)| && saved.Get(s)[i].selections.Some? && 0 <= k < |saved.Get(s)[i].selections.value|
        ensures !Occupied(saved.Get(s)[i].selections.value[k])
      {
        assert saved.Get(s)[i].selections == d.Get(s)[i].selections;
      }
    }
  }

  /** The state object `loadStateFromHomeAssistant` reconciles, and the
      card's fields at that point. A fetched state that parses is taken as
      it is. Otherwise `createDefaultState` sets the card's fields and builds
      the default state, which is saved at once; when that save succeeds the
      state is the payload it sent, with the card's ledger and without the
      current-day colours. A configuration without a `weekly` list leaves the
      card's data without one, and the save throws on `this.data.weekly.map`
      before sending anything. */
  function DistStart(config: Config, fetched: Option<Fetched>, defaultSave: Sensor, card: CardFields,
                     lastReset: Val): (r: Outcome<(Persist.Snapshot, CardFields)>)
    requires fetched.Some? ==> HoldersTracked(fetched.value.state.data, fetched.value.state.userPoints)
    requires NoPicks(config.chores)
    ensures r.Ok? ==> HoldersTracked(r.value.0.data, r.value.0.userPoints)
    ensures ParsedState(fetched).Some? ==> r == Ok((ParsedState(fetched).value, card))
    ensures ParsedState(fetched).None? ==> (r.Thrown? <==> DefaultData(config).Thrown?)
    ensures ParsedState(fetched).None? && r.Ok? ==>
              && r.value.1 == CardFields(DefaultOptions(config.options), config.users, card.userPoints, DefaultData(config).value)
              && r.value.0.archivedStates == [] && r.value.0.users == config.users
              && r.value.0.lastReset == Persist.LastResetOrNull(lastReset)
  {
    match ParsedState(fetched)
    case Some(parsed) =>
      LoadKeepsTracked(fetched.value.state.data, fetched.value.state.userPoints);
      Ok((parsed, card))
    case None =>
      match DefaultData(config)
      case Thrown => Thrown
      case Ok(data) =>
        DefaultKeepsCells(config);
        var fields := CardFields(DefaultOptions(config.options), config.users, card.userPoints, data);
        var start :=
          if config.listsWeekly && defaultSave.reachable && defaultSave.accepts
          then Persist.DistSnapshot(fields.options, fields.users, fields.userPoints, data, lastReset, [])
          else Persist.Snapshot(fields.options, fields.users, map[], data, Persist.LastResetOrNull(lastReset), []);
        NoPicksTracked(start.data, start.userPoints);
        Ok((start, fields))
  }

  /** The users pass leaves every holder tracked for the chores pass. */
  lemma UsersKeepTracked(build: Build, config: Config, start: Persist.Snapshot, valid: string -> bool)
    requires HoldersTracked(start.data, start.userPoints)
    ensures var rem := Users.RemoveUsers(start.users, Users.NameSet(config.users), start.userPoints, start.data);
            var p := Users.AddPass(build, start.users, config.users, Users.Progress(rem.users, rem.points, rem.changed), valid);
            Chores.DataTracked(rem.data, p.points)
  {
    var rem := Users.RemoveUsers(start.users, Users.NameSet(config.users), start.userPoints, start.data);
    var gone := Users.Gone(start.users, Users.NameSet(config.users));
    ClearKeepsTracked(start.data, start.userPoints, gone);
    var begin := Users.Progress(rem.users, rem.points, rem.changed);
    AddPassKeys(build, start.users, config.users, begin, valid);
    var p := Users.AddPass(build, start.users, config.users, begin, valid);
    TrackedByMore(rem.data, rem.points, p.points);
    TrackedSections(rem.data, p.points);
  }

  /** The outcome of the three reconcilers: the state object, the card's
      fields and whether anything changed. */
  datatype Merge = Merge(saved: Persist.Snapshot, card: CardFields, changed: bool)

  /** `checkAndUpdateOptions`, `checkAndUpdateUsers` and
      `checkAndUpdateChores` in turn on the state object `start` and a card
      holding `card`. The card takes the users and a copy of the ledger
      after the users pass when that pass changed something or the card had
      no users; the chores pass moves points in the state's ledger only. */
  function Merged(build: Build, config: Config, start: Persist.Snapshot, card: CardFields,
                  valid: string -> bool): (r: Outcome<Merge>)
    requires HoldersTracked(start.data, start.userPoints)
    ensures r.Ok? ==> r.value.saved.lastReset == start.lastReset && r.value.saved.archivedStates == start.archivedStates
    ensures r.Ok? ==> r.value.card.data == r.value.saved.data
  {
    var o := Options.OptionsPass(OptionKeys, config.options, start.options, card.options, valid);
    var rem := Users.RemoveUsers(start.users, Users.NameSet(config.users), start.userPoints, start.data);
    var p := Users.AddPass(build, start.users, config.users, Users.Progress(rem.users, rem.points, rem.changed), valid);
    var synced := p.changed || |card.users| == 0;
    UsersKeepTracked(build, config, start, valid);
    match Chores.ReconcileChores(config.chores, rem.data, p.points, valid)
    case Thrown => Thrown
    case Ok(ch) =>
      Ok(Merge(Persist.Snapshot(o.stored, p.users, ch.points, ch.data, start.lastReset, start.archivedStates),
               CardFields(o.card, if synced then p.users else card.users,
                          if synced then p.points else card.userPoints, ch.data),
               o.changed || p.changed || ch.changed))
  }

  /** After loading, the state lists the configured users by name (when
      names are unique in the stored and in the configured list) and each
      section lists exactly the configured chores, in configured order. */
  lemma MergedNames(build: Build, config: Config, start: Persist.Snapshot, card: CardFields, valid: string -> bool)
    requires HoldersTracked(start.data, start.userPoints)
    requires Users.UniqueNames(start.users) && Users.UniqueNames(config.users)
    requires Merged(build, config, start, card, valid).Ok?
    ensures var m := Merged(build, config, start, card, valid).value;
      && Users.NameSet(m.saved.users) == Users.NameSet(config.users)
      && forall s :: |m.saved.data.Get(s)| == |config.chores.Get(s)|
                     && forall i :: 0 <= i < |config.chores.Get(s)| ==> m.saved.data.Get(s)[i].name == config.chores.Get(s)[i].name
  {
    var rem := Users.RemoveUsers(start.users, Users.NameSet(config.users), start.userPoints, start.data);
    var p := Users.AddPass(build, start.users, config.users, Users.Progress(rem.users, rem.points, rem.changed), valid);
    Users.PassNames(build, start.users, config.users, start.userPoints, start.data, valid);
    UsersKeepTracked(build, config, start, valid);
    Chores.ChoresNames(config.chores, rem.data, p.points, valid);
  }

  /** Loading again with the same configuration finds every option as
      the first load left it. */
  lemma MergedOptionsSettle(build: Build, config: Config, start: Persist.Snapshot, card: CardFields, valid: string -> bool)
    requires HoldersTracked(start.data, start.userPoints) && FallbacksValid(valid)
    requires Merged(build, config, start, card, valid).Ok?
    ensures var m := Merged(build, config, start, card, valid).value;
            !Options.OptionsPass(OptionKeys, config.options, m.saved.options, m.card.options, valid).changed
  {
    Options.SecondPassUnchanged(config.options, start.options, card.options, valid);
  }

  /** A colour option the state object lacks and the configuration sets
      is always written, so the reconcilers report a change. */
  lemma MissingColourForcesChange(build: Build, config: Config, start: Persist.Snapshot, card: CardFields,
                                  valid: string -> bool, key: OptionKey)
    requires HoldersTracked(start.data, start.userPoints)
    requires Options.Fallback(key).Some?
    requires Lookup(start.options, key) == Undefined && Lookup(config.options, key) != Undefined
    ensures Merged(build, config, start, card, valid).Ok? ==> Merged(build, config, start, card, valid).value.changed
  {
    Model.OptionKeysComplete();
    Options.OptionsPassEffect(OptionKeys, config.options, start.options, card.options, valid);
    assert Options.Changes(key, Lookup(config.options, key), Lookup(start.options, key), valid);
  }

  /** The `dist` build reads its own payload back as the state it saved:
      the weekly `day` lists come back as they were, and the two current-day
      colours are missing. */
  lemma DistPayloadLoadsBack(options: map<OptionKey, Val>, users: seq<User>, userPoints: Ledger, data: ChoreData,
                             lastReset: Val, archive: seq<Persist.ArchiveEntry>)
    requires forall i :: 0 <= i < |data.weekly| ==> data.weekly[i].day.DayList?
    requires Persist.DaysStorable(data)
    ensures var sent := Persist.DistSnapshot(options, users, userPoints, data, lastReset, archive);
            ParsedState(Some(Fetched(sent, true))) ==
              Some(Persist.Snapshot(options - {CurrentDayBackgroundColor, CurrentDayFontColor}, users, userPoints, data,
                                    Persist.LastResetOrNull(lastReset), archive))
  {
    Persist.DataRoundTrip(data);
  }

  /** The integration creates the sensor with an empty `data`, so the first
      load maps over a missing `weekly` list, throws, and starts from the
      default state exactly as when nothing was fetched. */
  lemma FreshSensorStartsDefault(config: Config, state: Persist.Snapshot, defaultSave: Sensor, card: CardFields,
                                 lastReset: Val)
    requires HoldersTracked(state.data, state.userPoints)
    requires NoPicks(config.chores)
    ensures ParsedState(Some(Fetched(state, false))) == None
    ensures DistStart(config, Some(Fetched(state, false)), defaultSave, card, lastReset)
              == DistStart(config, None, defaultSave, card, lastReset)
  {
  }

  /** A default state saved with success comes back without the two
      current-day colours. */
  lemma DefaultSaveDropsColours(config: Config, fetched: Option<Fetched>, defaultSave: Sensor,
                                card: CardFields, lastReset: Val)
    requires fetched.Some? ==> HoldersTracked(fetched.value.state.data, fetched.value.state.userPoints)
    requires NoPicks(config.chores)
    requires ParsedState(fetched).None? && config.listsWeekly && defaultSave.reachable && defaultSave.accepts
    requires DistStart(config, fetched, defaultSave, card, lastReset).Ok?
    ensures var start := DistStart(config, fetched, defaultSave, card, lastReset).value.0;
            Lookup(start.options, CurrentDayBackgroundColor) == Undefined
            && Lookup(start.options, CurrentDayFontColor) == Undefined
  {
  }

  /** Without a configured `weekly` list the default save sends nothing, so
      the load goes on exactly as when the sensor cannot be reached, from
      the default state with both current-day colours. */
  lemma UnlistedWeeklyKeepsDefault(config: Config, fetched: Option<Fetched>, defaultSave: Sensor,
                                   card: CardFields, lastReset: Val)
    requires fetched.Some? ==> HoldersTracked(fetched.value.state.data, fetched.value.state.userPoints)
    requires NoPicks(config.chores)
    requires !config.listsWeekly
    ensures DistStart(config, fetched, defaultSave, card, lastReset)
              == DistStart(config, fetched, Sensor(false, false, None), card, lastReset)
    ensures ParsedState(fetched).None? && DistStart(config, fetched, defaultSave, card, lastReset).Ok? ==>
              var start := DistStart(config, fetched, defaultSave, card, lastReset).value.0;
              && Lookup(start.options, CurrentDayBackgroundColor)
                   == Or(Lookup(config.options, CurrentDayBackgroundColor), Str("red"))
              && Lookup(start.options, CurrentDayFontColor)
                   == Or(Lookup(config.options, CurrentDayFontColor), Str("white"))
              && start.userPoints == map[]
  {
  }

  /** A `dist` card that falls back to the default state and saves it
      reconciles the saved payload, which lacks the current-day colours;
      so whenever either colour is configured, the load reports a change
      and saves a second time. */
  lemma DefaultSaveForcesResave(config: Config, fetched: Option<Fetched>, defaultSave: Sensor,
                                card: CardFields, lastReset: Val, valid: string -> bool)
    requires fetched.Some? ==> HoldersTracked(fetched.value.state.data, fetched.value.state.userPoints)
    requires NoPicks(config.chores)
    requires ParsedState(fetched).None? && config.listsWeekly && defaultSave.reachable && defaultSave.accepts
    requires Lookup(config.options, CurrentDayBackgroundColor) != Undefined
             || Lookup(config.options, CurrentDayFontColor) != Undefined
    requires DistStart(config, fetched, defaultSave, card, lastReset).Ok?
    ensures var st := DistStart(config, fetched, defaultSave, card, lastReset).value;
            var m := Merged(Dist, config, st.0, st.1, valid);
            m.Ok? ==> m.value.changed
  {
    var st := DistStart(config, fetched, defaultSave, card, lastReset).value;
    DefaultSaveDropsColours(config, fetched, defaultSave, card, lastReset);
    var key := if Lookup(config.options, CurrentDayBackgroundColor) != Undefined
               then CurrentDayBackgroundColor else CurrentDayFontColor;
    MissingColourForcesChange(Dist, config, st.0, st.1, valid, key);
  }

  // An example load: Ann holds the one cell of a daily chore worth 1 in
  // the stored state, and the configuration raises the chore to 3.

  const Ann := User("ann", Str("blue"), Str("white"))
  const AnnHolds: seq<Slot> := [Some("ann"), None, None, None, None, None, None]
  const StoredDishes := Chore("dishes", Some(1), NoDays, NoDay, None, None, Some(AnnHolds))
  const ConfiguredDishes := Chore("dishes", Some(3), NoDays, NoDay, None, None, None)
  const ExampleStart := Persist.Snapshot(map[], [Ann], map["ann" := 0], ChoreData([StoredDishes], [], []), Null, [])
  const ExampleConfig := Config(map[], [Ann], ChoreData([ConfiguredDishes], [], []), false)
  const AnyColour := (s: string) => true

  /** In the example the users pass changes nothing. */
  lemma ExampleUsersPass()
    ensures Users.NameSet(ExampleConfig.users) == {"ann"}
    ensures Users.RemoveUsers([Ann], {"ann"}, map["ann" := 0], ExampleStart.data)
            == Users.Removal([Ann], map["ann" := 0], ExampleStart.data, false)
    ensures Users.AddPass(Dist, [Ann], [Ann], Users.Progress([Ann], map["ann" := 0], false), AnyColour)
            == Users.Progress([Ann], map["ann" := 0], false)
  {
    assert ExampleConfig.users[0].name == "ann";
    assert Users.Gone([Ann], {"ann"}) == {};
    assert Users.Kept([Ann], {"ann"}) == [Ann];
    Users.ClearNothing(ExampleStart.data);
    assert map["ann" := 0] - {} == map["ann" := 0];
    assert [Ann][..0] == [];
  }

  /** In the example the daily section gives Ann the difference, 2. */
  lemma ExampleDaily()
    ensures Chores.SectionTracked([StoredDishes], map["ann" := 0])
    ensures Chores.ReconcileSection(Daily, [ConfiguredDishes], [StoredDishes], map["ann" := 0], AnyColour)
            == Ok(Chores.SectionResult([StoredDishes.(points := Some(3))], map["ann" := 2], true))
  {
    ExampleDailyStep();
    ExampleDailyStart();
    var kept := StoredDishes.(points := Some(3));
    var s1 := Chores.SectionState(map["dishes" := kept], [Chores.Stored("dishes")], map["ann" := 2], true);
    assert Chores.Resolve(s1) == [kept];
  }

  /** The example's daily section starts from its one stored chore, and its
      one configured chore makes the run a single step. */
  lemma ExampleDailyStart()
    ensures Chores.ByName([StoredDishes]) == map["dishes" := StoredDishes]
    ensures var s0 := Chores.SectionState(map["dishes" := StoredDishes], [], map["ann" := 0], false);
      && Chores.Coherent(s0)
      && Chores.SectionRun(Daily, [ConfiguredDishes], s0, AnyColour) == Chores.SectionStep(Daily, ConfiguredDishes, s0, AnyColour)
  {
    assert [StoredDishes][..0] == [] && [ConfiguredDishes][..0] == [];
    assert Chores.ByName([StoredDishes]) == map["dishes" := StoredDishes];
    assert Chores.Tracked(AnnHolds, map["ann" := 0]);
  }

  /** The one step of the example's daily section. */
  lemma ExampleDailyStep()
    ensures Chores.Tracked(AnnHolds, map["ann" := 0])
    ensures Chores.SectionStep(Daily, ConfiguredDishes,
                               Chores.SectionState(map["dishes" := StoredDishes], [], map["ann" := 0], false), AnyColour)
            == Ok(Chores.SectionState(map["dishes" := StoredDishes.(points := Some(3))], [Chores.Stored("dishes")],
                                      map["ann" := 2], true))
  {
    var kept := StoredDishes.(points := Some(3));
    ExampleReconcile();
    var s0 := Chores.SectionState(map["dishes" := StoredDishes], [], map["ann" := 0], false);
    assert ConfiguredDishes.name == "dishes" && StoredDishes.name == "dishes";
    assert Chores.AllTracked(s0.stored, s0.points);
    assert s0.stored[ConfiguredDishes.name] == StoredDishes;
    assert map["dishes" := StoredDishes]["dishes" := kept] == map["dishes" := kept];
    assert s0.entries + [Chores.Stored("dishes")] == [Chores.Stored("dishes")];
  }

  /** The example's dishes chore keeps its stored record with the
      configured points, and Ann gains the difference. */
  lemma ExampleReconcile()
    ensures Chores.Tracked(AnnHolds, map["ann" := 0])
    ensures Chores.PointsMoved(ConfiguredDishes, StoredDishes, map["ann" := 0]) == map["ann" := 2]
    ensures Chores.Reconcile(Daily, ConfiguredDishes, StoredDishes, AnyColour)
            == Ok(Chores.Reconciled(StoredDishes.(points := Some(3)), true))
  {
    var ledger := map["ann" := 0];
    assert Chores.Tracked(AnnHolds, ledger);
    Chores.AddToHoldersEffect(ledger, AnnHolds, 2, "ann");
    assert Model.CountOf(AnnHolds, "ann") == 1;
    assert Chores.PointsMoved(ConfiguredDishes, StoredDishes, ledger) == map["ann" := 2];
  }

  /** In the example the chores pass leaves Ann 2 points in the state. */
  lemma ExampleChoresPass()
    ensures HoldersTracked(ExampleStart.data, ExampleStart.userPoints)
    ensures Chores.DataTracked(ExampleStart.data, map["ann" := 0])
    ensures Chores.ReconcileChores(ExampleConfig.chores, ExampleStart.data, map["ann" := 0], AnyColour)
            == Ok(Chores.ChoresResult(ChoreData([StoredDishes.(points := Some(3))], [], []), map["ann" := 2], true))
  {
    ExampleDaily();
    ExampleHoldersTracked();
    var after := map["ann" := 2];
    Chores.EmptySection(Weekly, after, AnyColour);
    Chores.EmptySection(Monthly, after, AnyColour);
  }

  lemma ExampleHoldersTracked()
    ensures HoldersTracked(ExampleStart.data, ExampleStart.userPoints)
  {
    forall s, i | 0 <= i < |ExampleStart.data.Get(s)| && ExampleStart.data.Get(s)[i].selections.Some?
      ensures Chores.Tracked(ExampleStart.data.Get(s)[i].selections.value, ExampleStart.userPoints)
    {
      assert s == Daily && i == 0;
      assert Chores.Tracked(AnnHolds, map["ann" := 0]);
    }
  }

  /** The chores pass moves points in the state's ledger only: in the
      example the state ends with Ann at 2 points and the card, which took
      its ledger from the users pass, with Ann at 0. */
  lemma ChorePointsMissCardLedger()
    ensures HoldersTracked(ExampleStart.data, ExampleStart.userPoints)
    ensures var m := Merged(Dist, ExampleConfig, ExampleStart, CardFields(ConstructorOptions, [], map[], NoChores), AnyColour);
            && m.Ok?
            && m.value.saved.userPoints == map["ann" := 2]
            && m.value.card.userPoints == map["ann" := 0]
  {
    ExampleUsersPass();
    ExampleChoresPass();
  }

  // ---------------------------------------------------------------------
  // The card

  class ChoreCard {
    const build: Build
    /** `firstDayOfWeek`, `showLongDayNames`, ... addressed as `this[stateKey]`. */
    var options: map<OptionKey, Val>
    var users: seq<User>
    var userPoints: Ledger
    var data: ChoreData
    var lastReset: Val
    var lastSavedState: SavedState?

    function Fields(): CardFields
      reads this
    {
      CardFields(options, users, userPoints, data)
    }

    constructor (build: Build)
      ensures this.build == build
      ensures options == ConstructorOptions && users == [] && userPoints == map[] && data == NoChores
      ensures lastReset == Null && lastSavedState == null
    {
      this.build := build;
      options := ConstructorOptions;
      users := [];
      userPoints := map[];
      data := NoChores;
      lastReset := Null;
      lastSavedState := null;
    }

    /** `setConfig`: the card's options from the configuration, as
      `ConfiguredOptions` describes; nothing else changes. */
    method SetConfig(config: Config)
      modifies this
      ensures options == ConfiguredOptions(config.options)
      ensures users == old(users) && userPoints == old(userPoints) && data == old(data)
      ensures lastReset == old(lastReset) && lastSavedState == old(lastSavedState)
    {
      options := ConfiguredOptions(config.options);
    }

    /** `createDefaultState`: sets the card's options, users and chores from
      the configuration and returns the default state object, with an
      empty ledger. The chores are set before the weekly days are
      normalised, so a throw there leaves them as configured. */
    method CreateDefaultState(config: Config) returns (r: Outcome<Persist.Snapshot>)
      modifies this
      ensures options == DefaultOptions(config.options) && users == config.users
      ensures userPoints == old(userPoints) && lastReset == old(lastReset) && lastSavedState == old(lastSavedState)
      ensures r.Thrown? <==> NormalizedWeekly(config.chores.weekly).Thrown?
      ensures r.Thrown? ==> data == config.chores
      ensures r.Ok? ==> data == config.chores.(weekly := NormalizedWeekly(config.chores.weekly).value)
      ensures r.Ok? ==> r.value == Persist.Snapshot(options, users, map[], data, Persist.LastResetOrNull(lastReset), [])
    {
      options := DefaultOptions(config.options);
      users := config.users;
      data := config.chores;
      var weekly := NormalizedWeekly(config.chores.weekly);
      if weekly.Thrown? {
        return Thrown;
      }
      data := data.(weekly := weekly.value);
      r := Ok(Persist.Snapshot(options, users, map[], data, Persist.LastResetOrNull(lastReset), []));
    }

    /** `checkAndUpdateOptions`: the loop over the seven options, in order,
      updating the state object and the card as `Options.OptionsPass`
      describes. */
    method CheckAndUpdateOptions(config: Config, saved: SavedState, valid: string -> bool) returns (changed: bool)
      modifies this, saved
      ensures var r := Options.OptionsPass(OptionKeys, config.options, old(saved.options), old(options), valid);
              saved.options == r.stored && options == r.card && changed == r.changed
      ensures saved.Contents() == old(saved.Contents()).(options := saved.options)
      ensures users == old(users) && userPoints == old(userPoints) && data == old(data)
      ensures lastReset == old(lastReset) && lastSavedState == old(lastSavedState)
    {
      changed := false;
      var i := 0;
      while i < |OptionKeys|
        invariant 0 <= i <= |OptionKeys|
        invariant var r := Options.OptionsPass(OptionKeys[..i], config.options, old(saved.options), old(options), valid);
                  saved.options == r.stored && options == r.card && changed == r.changed
        invariant saved.Contents() == old(saved.Contents()).(options := saved.options)
        invariant users == old(users) && userPoints == old(userPoints) && data == old(data)
        invariant lastReset == old(lastReset) && lastSavedState == old(lastSavedState)
      {
        Options.OptionsPassPrefix(OptionKeys, i, config.options, old(saved.options), old(options), valid);
        var key := OptionKeys[i];
        var yamlValue := Options.Resolved(key, Lookup(config.options, key), Lookup(saved.options, key), valid);
        var savedValue := Options.Compared(key, Lookup(saved.options, key));
        if yamlValue != Undefined && yamlValue != savedValue {
          saved.options := saved.options[key := yamlValue];
          changed := true;
        }
        if yamlValue != Undefined {
          options := options[key := yamlValue];
        }
        i := i + 1;
      }
      assert OptionKeys[..|OptionKeys|] == OptionKeys;
    }

    /** `checkAndUpdateUsers`. The stored users the configuration no longer
      names are removed, then each configured user is added or recoloured.
      When anything changed, or the card has no users yet, the card takes
      the resulting users and a copy of the state's ledger. */
    method CheckAndUpdateUsers(config: Config, saved: SavedState, valid: string -> bool) returns (changed: bool)
      modifies this, saved
      ensures var rem := Users.RemoveUsers(old(saved.users), Users.NameSet(config.users), old(saved.userPoints), old(saved.data));
              var p := Users.AddPass(build, old(saved.users), config.users, Users.Progress(rem.users, rem.points, rem.changed), valid);
        && saved.users == p.users && saved.userPoints == p.points && saved.data == rem.data
        && changed == p.changed
        && (if changed || |old(users)| == 0 then users == p.users && userPoints == p.points
            else users == old(users) && userPoints == old(userPoints))
      ensures saved.Contents() == old(saved.Contents()).(users := saved.users, userPoints := saved.userPoints,
                                                         data := saved.data)
      ensures options == old(options) && data == old(data) && lastReset == old(lastReset)
      ensures lastSavedState == old(lastSavedState)
    {
      var original := saved.users;
      var removed := saved.DropUsers(Users.NameSet(config.users));
      changed := saved.MergeUsers(build, original, config.users, removed, valid);
      if changed || |users| == 0 {
        users := saved.users;
        userPoints := saved.userPoints;
      }
    }

    /** One section of `checkAndUpdateChores`: the loop over the configured
      chores of the section, as `Chores.SectionRun` describes, after which
      the state and the card hold the new list. */
    method CheckSection(section: Section, config: Config, saved: SavedState, valid: string -> bool)
      returns (changed: bool, threw: bool)
      requires Chores.SectionTracked(saved.data.Get(section), saved.userPoints)
      modifies this, saved
      ensures var r := Chores.ReconcileSection(section, config.chores.Get(section), old(saved.data.Get(section)),
                                               old(saved.userPoints), valid);
        && (threw <==> r.Thrown?)
        && (!threw ==> && saved.data == old(saved.data).With(section, r.value.chores)
                       && data == old(data).With(section, r.value.chores)
                       && saved.userPoints == r.value.points && changed == r.value.changed)
      ensures saved.options == old(saved.options) && saved.users == old(saved.users)
      ensures saved.lastReset == old(saved.lastReset) && saved.archivedStates == old(saved.archivedStates)
      ensures options == old(options) && users == old(users) && userPoints == old(userPoints)
      ensures lastReset == old(lastReset) && lastSavedState == old(lastSavedState)
    {
      var yamlChores := config.chores.Get(section);
      var s;
      s, threw := RunSection(section, yamlChores, saved.data.Get(section), saved.userPoints, valid);
      if threw {
        return false, true;
      }
      var updatedChores := Chores.Resolve(s);
      saved.data := saved.data.With(section, updatedChores);
      saved.userPoints := s.points;
      data := data.With(section, updatedChores);
      changed, threw := s.changed, false;
    }

    /** `checkAndUpdateChores`: the daily, weekly and monthly sections in
      turn, each with the ledger the previous one left, as
      `Chores.ReconcileChores` describes. Point moves reach the state's
      ledger only; the card's ledger is not touched. */
    method CheckAndUpdateChores(config: Config, saved: SavedState, valid: string -> bool)
      returns (changed: bool, threw: bool)
      requires Chores.DataTracked(saved.data, saved.userPoints)
      modifies this, saved
      ensures var r := Chores.ReconcileChores(config.chores, old(saved.data), old(saved.userPoints), valid);
        && (threw <==> r.Thrown?)
        && (!threw ==> && saved.data == r.value.data && data == r.value.data
                       && saved.userPoints == r.value.points && changed == r.value.changed)
      ensures saved.options == old(saved.options) && saved.users == old(saved.users)
      ensures saved.lastReset == old(saved.lastReset) && saved.archivedStates == old(saved.archivedStates)
      ensures options == old(options) && users == old(users) && userPoints == old(userPoints)
      ensures lastReset == old(lastReset) && lastSavedState == old(lastSavedState)
    {
      ghost var data0, points0 := saved.data, saved.userPoints;
      changed := false;
      var daily, weekly, monthly;
      daily, threw := CheckSection(Daily, config, saved, valid);
      if threw {
        return;
      }
      Chores.SectionNames(Daily, config.chores.daily, data0.daily, points0, valid);
      Chores.TrackedByKeys(data0.weekly, points0, saved.userPoints);
      Chores.TrackedByKeys(data0.monthly, points0, saved.userPoints);
      ghost var points1 := saved.userPoints;
      weekly, threw := CheckSection(Weekly, config, saved, valid);
      if threw {
        return;
      }
      Chores.SectionNames(Weekly, config.chores.weekly, data0.weekly, points1, valid);
      Chores.TrackedByKeys(data0.monthly, points1, saved.userPoints);
      monthly, threw := CheckSection(Monthly, config, saved, valid);
      if threw {
        return;
      }
      changed := daily || weekly || monthly;
    }

    /** `saveStateToHomeAssistant`. Only the last saved state changes, and
      only in the `dist` build, when the POST succeeds. */
    method Save(sensor: Sensor) returns (sent: Option<Persist.Snapshot>)
      modifies this
      ensures sent == SaveSent(build, sensor, options, users, userPoints, data, lastReset, old(ArchiveOf(lastSavedState)))
      ensures options == old(options) && users == old(users) && userPoints == old(userPoints)
      ensures data == old(data) && lastReset == old(lastReset)
      ensures if Replaces(build, sensor, sent)
              then lastSavedState != null && fresh(lastSavedState) && lastSavedState.Contents() == sent.value
              else lastSavedState == old(lastSavedState)
    {
      sent := None;
      if !sensor.reachable {
        return;
      }
      if build == Dist {
        if lastSavedState == null {
          return;
        }
        var snapshot := Persist.DistSnapshot(options, users, userPoints, data, lastReset, lastSavedState.archivedStates);
        sent := Some(snapshot);
        if sensor.accepts {
          lastSavedState := new SavedState(snapshot);
        }
      } else {
        var next := Persist.FrontendSnapshot(options, users, userPoints, data, lastReset);
        if Persist.FrontendSaveIssued(sensor.attributes, next) {
          sent := Some(next);
        }
      }
    }

    /** `handleDropdownChange`: `selectedValue` ("" for "--") is picked in
      the cell of `dayIndex` of row `rowIndex` of `section`. The chores and
      the ledger change as `Ledger.DropdownChange` describes, and the card
      saves exactly when the pick moved the cell. */
    method HandleDropdownChange(section: Section, rowIndex: int, dayIndex: int, selectedValue: string, sensor: Sensor)
      returns (sent: Option<Persist.Snapshot>)
      requires 0 <= dayIndex < 7
      requires 0 <= rowIndex < |data.Get(section)| && data.Get(section)[rowIndex].selections.Some? ==>
                 |data.Get(section)[rowIndex].selections.value| == 7
      modifies this
      ensures (data, userPoints) == Dropdown.DropdownChange(old(data), old(userPoints), section, rowIndex, dayIndex, selectedValue)
      ensures options == old(options) && users == old(users) && lastReset == old(lastReset)
      ensures !Dropdown.Moves(old(data), section, rowIndex, dayIndex, selectedValue) ==>
                sent == None && lastSavedState == old(lastSavedState)
      ensures Dropdown.Moves(old(data), section, rowIndex, dayIndex, selectedValue) ==>
                sent == SaveSent(build, sensor, options, users, userPoints, data, lastReset, old(ArchiveOf(lastSavedState)))
      ensures Dropdown.Moves(old(data), section, rowIndex, dayIndex, selectedValue) ==>
                if Replaces(build, sensor, sent)
                then lastSavedState != null && fresh(lastSavedState) && lastSavedState.Contents() == sent.value
                else lastSavedState == old(lastSavedState)
    {
      var chores := data.Get(section);
      if !(0 <= rowIndex < |chores|) {
        return None;
      }
      var chore := chores[rowIndex];
      var points := OrZero(chore.points);
      var selections := if chore.selections.Some? then chore.selections.value else NoSelections;
      data := data.With(section, chores[rowIndex := chore.(selections := Some(selections))]);
      var previousValue := selections[dayIndex];
      if previousValue == Some(selectedValue) {
        return None;
      }
      selections := selections[dayIndex := Some(selectedValue)];
      data := data.With(section, chores[rowIndex := chore.(selections := Some(selections))]);
      userPoints := MovePoints(userPoints, previousValue, selectedValue, points);
      sent := Save(sensor);
    }

    /** `resetWeeklyChores`. The `dist` build first appends an entry, made
      at `archivedAt`, to the archive of the last saved state (an empty one
      when there is none); the frontend build first asks Home Assistant to
      reset the sensor, and does nothing more without `hass` or when that
      call fails (`serviceOk`). Then every chore of every section gets seven
      empty cells, every tracked user 0 points, `lastReset` the time
      `resetAt`, and the card saves. */
    method ResetWeeklyChores(archivedAt: string, resetAt: string, sensor: Sensor, serviceOk: bool)
      returns (sent: Option<Persist.Snapshot>)
      modifies this, lastSavedState
      ensures var cleared := build == Dist || (sensor.reachable && serviceOk);
        && (cleared ==> && data == Reset.ClearAll(old(data)) && userPoints == Reset.ZeroPoints(old(userPoints))
                        && lastReset == Str(resetAt))
        && (!cleared ==> && data == old(data) && userPoints == old(userPoints) && lastReset == old(lastReset)
                         && sent == None && lastSavedState == old(lastSavedState))
      ensures options == old(options) && users == old(users)
      ensures build == Frontend ==> lastSavedState == old(lastSavedState)
      ensures build == Frontend ==> old(lastSavedState) != null ==> unchanged(old(lastSavedState))
      ensures build == Frontend && sensor.reachable && serviceOk ==>
                sent == SaveSent(Frontend, sensor, options, users, userPoints, data, lastReset, None)
      ensures build == Dist ==>
        var archive := (if old(lastSavedState) == null then [] else old(lastSavedState.archivedStates))
                       + [Persist.ArchiveEntry(archivedAt, old(lastReset))];
        && sent == SaveSent(Dist, sensor, options, users, userPoints, data, lastReset, Some(archive))
        && lastSavedState != null
        && (if Replaces(Dist, sensor, sent) then fresh(lastSavedState) && lastSavedState.Contents() == sent.value
            else lastSavedState.archivedStates == archive
                 && (old(lastSavedState) == null ==> lastSavedState.Contents() == EmptyState.(archivedStates := archive))
                 && (old(lastSavedState) != null ==>
                       lastSavedState == old(lastSavedState)
                       && lastSavedState.Contents() == old(lastSavedState.Contents()).(archivedStates := archive)))
    {
      if build == Dist {
        if lastSavedState == null {
          lastSavedState := new SavedState(EmptyState);
        }
        lastSavedState.archivedStates := lastSavedState.archivedStates + [Persist.ArchiveEntry(archivedAt, lastReset)];
      } else if !sensor.reachable || !serviceOk {
        return None;
      }
      var daily := ClearSection(data.daily);
      var weekly := ClearSection(data.weekly);
      var monthly := ClearSection(data.monthly);
      data := ChoreData(daily, weekly, monthly);
      userPoints := ZeroAll(userPoints);
      lastReset := Str(resetAt);
      sent := Save(sensor);
    }

    /** `checkForReset` on a day whose weekday is `todayIndex` (0 for
      Sunday) and whose date is `today`: the card resets when the reset is
      due, then records today's date. A first day of the week that is not
      a string throws before anything changes. */
    method CheckForReset(todayIndex: int, today: string, archivedAt: string, resetAt: string, sensor: Sensor,
                         serviceOk: bool) returns (threw: bool, sent: Option<Persist.Snapshot>)
      requires 0 <= todayIndex < 7
      modifies this, lastSavedState
      ensures threw <==> !Lookup(old(options), FirstDayOfWeek).Str?
      ensures options == old(options) && users == old(users)
      ensures !Reset.ResetDue(todayIndex, today, Lookup(old(options), FirstDayOfWeek), old(lastReset)) ==>
                && data == old(data) && userPoints == old(userPoints) && lastReset == old(lastReset)
                && sent == None && lastSavedState == old(lastSavedState)
                && (old(lastSavedState) != null ==> unchanged(old(lastSavedState)))
      ensures Reset.ResetDue(todayIndex, today, Lookup(old(options), FirstDayOfWeek), old(lastReset)) ==>
                var cleared := build == Dist || (sensor.reachable && serviceOk);
                && lastReset == Str(today)
                && (cleared ==> data == Reset.ClearAll(old(data)) && userPoints == Reset.ZeroPoints(old(userPoints)))
                && (!cleared ==> data == old(data) && userPoints == old(userPoints) && sent == None
                                 && lastSavedState == old(lastSavedState))
      ensures Reset.ResetDue(todayIndex, today, Lookup(old(options), FirstDayOfWeek), old(lastReset)) && build == Frontend ==>
                && lastSavedState == old(lastSavedState)
                && (sensor.reachable && serviceOk ==>
                      sent == SaveSent(Frontend, sensor, options, users, userPoints, data, Str(resetAt), None))
      ensures Reset.ResetDue(todayIndex, today, Lookup(old(options), FirstDayOfWeek), old(lastReset)) && build == Dist ==>
                var archive := (if old(lastSavedState) == null then [] else old(lastSavedState.archivedStates))
                               + [Persist.ArchiveEntry(archivedAt, old(lastReset))];
                && sent == SaveSent(Dist, sensor, options, users, userPoints, data, Str(resetAt), Some(archive))
                && lastSavedState != null
                && (if Replaces(Dist, sensor, sent) then fresh(lastSavedState) && lastSavedState.Contents() == sent.value
                    else lastSavedState.archivedStates == archive)
    {
      threw, sent := false, None;
      var firstDayOfWeek := Lookup(options, FirstDayOfWeek);
      if !firstDayOfWeek.Str? {
        return true, None;
      }
      if todayIndex == Days.GetDayIndex(firstDayOfWeek.s) {
        if !Truthy(lastReset) || lastReset != Str(today) {
          sent := ResetWeeklyChores(archivedAt, resetAt, sensor, serviceOk);
          lastReset := Str(today);
        }
      }
    }

    /** The three reconcilers of `loadStateFromHomeAssistant` on the state
      object `saved`, as `Merged` describes. */
    method Reconcile(config: Config, saved: SavedState, valid: string -> bool) returns (changed: bool, threw: bool)
      requires HoldersTracked(saved.data, saved.userPoints)
      modifies this, saved
      ensures var m := Merged(build, config, old(saved.Contents()), old(Fields()), valid);
        && (threw <==> m.Thrown?)
        && (!threw ==> saved.Contents() == m.value.saved && Fields() == m.value.card && changed == m.value.changed)
      ensures lastReset == old(lastReset) && lastSavedState == old(lastSavedState)
    {
      ghost var start, card := saved.Contents(), Fields();
      var options := CheckAndUpdateOptions(config, saved, valid);
      var users := CheckAndUpdateUsers(config, saved, valid);
      UsersKeepTracked(build, config, start, valid);
      var chores;
      chores, threw := CheckAndUpdateChores(config, saved, valid);
      changed := options || users || chores;
    }

    /** The state object `loadStateFromHomeAssistant` starts from: the
      fetched state, or the default state, saved at once; `null` when the
      default state throws. Without a configured `weekly` list the save
      throws inside its own `try` and sends nothing. */
    method StartState(config: Config, fetched: Option<Fetched>, defaultSave: Sensor)
      returns (saved: SavedState?, defaultSent: Option<Persist.Snapshot>)
      requires build == Dist
      requires fetched.Some? ==> HoldersTracked(fetched.value.state.data, fetched.value.state.userPoints)
      requires NoPicks(config.chores)
      modifies this
      ensures lastReset == old(lastReset)
      ensures var st := DistStart(config, fetched, defaultSave, old(Fields()), old(lastReset));
        && (st.Thrown? <==> saved == null)
        && (st.Ok? ==>
              && saved != null && fresh(saved) && lastSavedState == saved
              && saved.Contents() == st.value.0 && Fields() == st.value.1
              && defaultSent == (if ParsedState(fetched).Some? || !config.listsWeekly then None
                                 else SaveSent(Dist, defaultSave, st.value.1.options, st.value.1.users,
                                               st.value.1.userPoints, st.value.1.data, lastReset, Some([]))))
    {
      defaultSent := None;
      var parsed := ParsedState(fetched);
      if parsed.Some? {
        saved := new SavedState(parsed.value);
        lastSavedState := saved;
      } else {
        var state := CreateDefaultState(config);
        if state.Thrown? {
          return null, None;
        }
        saved := new SavedState(state.value);
        lastSavedState := saved;
        if config.listsWeekly {
          defaultSent := Save(defaultSave);
          saved := lastSavedState;
        }
      }
    }

    /** `loadStateFromHomeAssistant` of the `dist` build: `fetched` is the
      sensor's attributes, `None` when the request failed, found nothing or
      found something that is not an object;
      `defaultSave` and `updateSave` answer the save of a default state and
      the save after the reconcilers changed something. Returns the state
      object and the two payloads sent, if any. */
    method LoadStateFromHomeAssistant(config: Config, fetched: Option<Fetched>, defaultSave: Sensor,
                                      updateSave: Sensor, valid: string -> bool)
      returns (r: Outcome<Persist.Snapshot>, defaultSent: Option<Persist.Snapshot>, updateSent: Option<Persist.Snapshot>)
      requires build == Dist
      requires fetched.Some? ==> HoldersTracked(fetched.value.state.data, fetched.value.state.userPoints)
      requires NoPicks(config.chores)
      modifies this
      ensures lastReset == old(lastReset)
      ensures var st := DistStart(config, fetched, defaultSave, old(Fields()), old(lastReset));
        && (st.Thrown? ==> r.Thrown?)
        && (st.Ok? ==>
              var m := Merged(Dist, config, st.value.0, st.value.1, valid);
              && (r.Thrown? <==> m.Thrown?)
              && (m.Ok? ==>
                    && r == Ok(m.value.saved) && Fields() == m.value.card
                    && defaultSent == (if ParsedState(fetched).Some? || !config.listsWeekly then None
                                       else SaveSent(Dist, defaultSave, st.value.1.options, st.value.1.users,
                                                     st.value.1.userPoints, st.value.1.data, lastReset, Some([])))
                    && updateSent == (if m.value.changed
                                      then SaveSent(Dist, updateSave, m.value.card.options, m.value.card.users,
                                                    m.value.card.userPoints, m.value.card.data, lastReset,
                                                    Some(m.value.saved.archivedStates))
                                      else None)
                    && lastSavedState != null
                    && lastSavedState.Contents() ==
                         (if Replaces(Dist, updateSave, updateSent) then updateSent.value else m.value.saved)))
    {
      var saved;
      saved, defaultSent := StartState(config, fetched, defaultSave);
      if saved == null {
        return Thrown, None, None;
      }
      r, updateSent := ReconcileAndSave(config, saved, updateSave, valid);
    }

    /** The second half of `loadStateFromHomeAssistant`: the three
      reconcilers on the state object, then a save when one of them
      changed something. */
    method ReconcileAndSave(config: Config, saved: SavedState, updateSave: Sensor, valid: string -> bool)
      returns (r: Outcome<Persist.Snapshot>, updateSent: Option<Persist.Snapshot>)
      requires build == Dist && lastSavedState == saved
      requires HoldersTracked(saved.data, saved.userPoints)
      modifies this, saved
      ensures lastReset == old(lastReset)
      ensures var m := Merged(Dist, config, old(saved.Contents()), old(Fields()), valid);
        && (r.Thrown? <==> m.Thrown?)
        && (m.Ok? ==>
              && r == Ok(m.value.saved) && Fields() == m.value.card
              && updateSent == (if m.value.changed
                                then SaveSent(Dist, updateSave, m.value.card.options, m.value.card.users,
                                              m.value.card.userPoints, m.value.card.data, lastReset,
                                              Some(m.value.saved.archivedStates))
                                else None)
              && lastSavedState != null
              && lastSavedState.Contents() ==
                   (if Replaces(Dist, updateSave, updateSent) then updateSent.value else m.value.saved))
    {
      updateSent := None;
      var changed, threw := Reconcile(config, saved, valid);
      if threw {
        return Thrown, None;
      }
      if changed {
        lastSavedState := saved;
        updateSent := Save(updateSave);
      }
      r := Ok(saved.Contents());
    }

    /** `loadStateFromSensor` of the frontend build: without `hass` nothing
      happens; a sensor with attributes becomes the last saved state and
      the card's fields stay as they are; otherwise the default state
      becomes the last saved state and is saved. The reconcilers are not
      called. `config` is `None` when the call comes from `set hass`, which
      passes no configuration: making the default state then throws as it
      reads the first day of the week, before anything changes. Returns the
      payload sent, if any. */
    method LoadStateFromSensor(config: Option<Config>, sensor: Sensor) returns (r: Outcome<Option<Persist.Snapshot>>)
      requires build == Frontend
      modifies this
      ensures lastReset == old(lastReset)
      ensures !sensor.reachable ==> r == Ok(None) && Fields() == old(Fields()) && lastSavedState == old(lastSavedState)
      ensures sensor.reachable && sensor.attributes.Some? ==>
                && r == Ok(None) && Fields() == old(Fields())
                && lastSavedState != null && lastSavedState.Contents() == sensor.attributes.value
      ensures sensor.reachable && sensor.attributes.None? && config.None? ==>
                r == Thrown && Fields() == old(Fields()) && lastSavedState == old(lastSavedState)
      ensures sensor.reachable && sensor.attributes.None? && config.Some? ==>
                && (r.Thrown? <==> DefaultData(config.value).Thrown?)
                && (r.Ok? ==>
                      && Fields() == CardFields(DefaultOptions(config.value.options), config.value.users, old(userPoints),
                                                DefaultData(config.value).value)
                      && lastSavedState != null
                      && lastSavedState.Contents() ==
                           Persist.Snapshot(options, users, map[], data, Persist.LastResetOrNull(lastReset), [])
                      && r.value == Some(Persist.FrontendSnapshot(options, users, userPoints, data, lastReset)))
    {
      if !sensor.reachable {
        return Ok(None);
      }
      if sensor.attributes.Some? {
        lastSavedState := new SavedState(sensor.attributes.value);
        return Ok(None);
      }
      if config.None? {
        return Thrown;
      }
      var state := CreateDefaultState(config.value);
      if state.Thrown? {
        return Thrown;
      }
      lastSavedState := new SavedState(state.value);
      var sent := Save(sensor);
      r := Ok(sent);
    }
  }
}
