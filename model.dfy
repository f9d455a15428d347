/** The records the card keeps in memory and in its saved state: chores in
    three sections, each with seven day slots, users with their colours, the
    points ledger, and the seven display options. */
module Model {
  import opened Js

  /** The two current builds of the card: `dist/chore-card.js` and the
      integration's `frontend/chore-card.js`. */
  datatype Build = Dist | Frontend

  /** One day cell of a chore row: a user name, `null`, or "" once "--" was
      picked in the dropdown. */
  type Slot = Option<string>

  /** A slot counts as taken when it is truthy: a non-empty name. */
  predicate Occupied(slot: Slot) {
    slot.Some? && slot.value != ""
  }

  /** `Array(7).fill(null)` */
  const NoSelections: seq<Slot> := [None, None, None, None, None, None, None]

  /** `week_of_month` of a monthly chore; a missing `week` is `None`. */
  datatype Wom = Wom(week: Option<int>, highlightColor: Val)

  /** `days` of a weekly chore: absent, a comma-separated string, or a list
      whose entries are day names or `null` (`None`). */
  datatype DaysField = NoDays | DaysText(text: string) | DaysItems(items: seq<Option<string>>)

  /** `day` of a weekly chore, a list in memory and a ", "-joined string in
      the `dist` build's saved state. */
  datatype DayField = NoDay | DayText(text: string) | DayList(names: seq<string>)

  /** A chore record, as configured in YAML and as kept in the state. */
  datatype Chore = Chore(
    name: string,
    points: Option<int>,
    days: DaysField,
    day: DayField,
    weekOfMonth: Option<Wom>,
    maxDays: Option<int>,
    selections: Option<seq<Slot>>)

  datatype Section = Daily | Weekly | Monthly

  /** The card's `data`: the chore list of each section, a missing section
      being an empty list. */
  datatype ChoreData = ChoreData(daily: seq<Chore>, weekly: seq<Chore>, monthly: seq<Chore>)
  {
    function Get(section: Section): seq<Chore> {
      match section
      case Daily => daily
      case Weekly => weekly
      case Monthly => monthly
    }

    function With(section: Section, chores: seq<Chore>): (r: ChoreData)
      ensures r.Get(section) == chores
      ensures forall s :: s != section ==> r.Get(s) == Get(s)
    {
      match section
      case Daily => this.(daily := chores)
      case Weekly => this.(weekly := chores)
      case Monthly => this.(monthly := chores)
    }
  }

  const NoChores := ChoreData([], [], [])

  /** A user record: its name and its two colours. */
  datatype User = User(name: string, backgroundColor: Val, fontColor: Val)

  /** The points ledger `userPoints`. */
  type Ledger = map<string, int>

  /** The seven display options, named by their state keys. */
  datatype OptionKey =
    | FirstDayOfWeek
    | ShowLongDayNames
    | PointsPosition
    | DayHeaderBackgroundColor
    | DayHeaderFontColor
    | CurrentDayBackgroundColor
    | CurrentDayFontColor

  /** The order in which the options are reconciled. */
  const OptionKeys: seq<OptionKey> := [
    FirstDayOfWeek, ShowLongDayNames, PointsPosition,
    DayHeaderBackgroundColor, DayHeaderFontColor,
    CurrentDayBackgroundColor, CurrentDayFontColor
  ]

  lemma OptionKeysComplete()
    ensures forall k: OptionKey :: k in OptionKeys
    ensures forall i, j :: 0 <= i < j < |OptionKeys| ==> OptionKeys[i] != OptionKeys[j]
  {
    forall k: OptionKey ensures k in OptionKeys {
      match k
      case FirstDayOfWeek => assert OptionKeys[0] == k;
      case ShowLongDayNames => assert OptionKeys[1] == k;
      case PointsPosition => assert OptionKeys[2] == k;
      case DayHeaderBackgroundColor => assert OptionKeys[3] == k;
      case DayHeaderFontColor => assert OptionKeys[4] == k;
      case CurrentDayBackgroundColor => assert OptionKeys[5] == k;
      case CurrentDayFontColor => assert OptionKeys[6] == k;
    }
  }

  /** An option of an object that may lack it: `undefined` when absent. */
  function Lookup(options: map<OptionKey, Val>, key: OptionKey): Val {
    if key in options then options[key] else Undefined
  }

  /** The card's YAML configuration; absent `users` or `chores` are empty.
      `listsWeekly` says whether `chores` has a `weekly` list at all, which
      decides whether the `dist` build can save the default state. */
  datatype Config = Config(options: map<OptionKey, Val>, users: seq<User>, chores: ChoreData, listsWeekly: bool)

  /** `isValidCssColor`, given the browser's verdict on strings: any other
      value is rejected. */
  predicate ValidColor(valid: string -> bool, v: Val) {
    v.Str? && valid(v.s)
  }

  /** The fallback colours the card assumes any browser accepts. */
  predicate FallbacksValid(valid: string -> bool) {
    valid("blue") && valid("white") && valid("red") && valid("transparent")
  }

  /** How many slots of a row a user holds. */
  function CountOf(slots: seq<Slot>, user: string): (r: nat)
    ensures r <= |slots|
  {
    if |slots| == 0 then 0
    else (if slots[0] == Some(user) then 1 else 0) + CountOf(slots[1..], user)
  }

  /** How many slots of a row are taken (`selections.filter((sel) => sel).length`). */
  function OccupiedCount(slots: seq<Slot>): (r: nat)
    ensures r <= |slots|
    ensures r == 0 <==> forall i :: 0 <= i < |slots| ==> !Occupied(slots[i])
  {
    if |slots| == 0 then 0
    else (if Occupied(slots[0]) then 1 else 0) + OccupiedCount(slots[1..])
  }
}
