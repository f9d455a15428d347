/** `checkAndUpdateUsers`: the configured users merged into a loaded
    state. Stored users missing from the configuration are removed with their
    points and their cells; configured users without a stored record are
    appended with 0 points; stored users whose validated colours differ from
    the configuration get the configured colours. */
module Users {
  import opened Js
  import opened Model

  predicate UniqueNames(users: seq<User>) {
    forall i, j :: 0 <= i < j < |users| ==> users[i].name != users[j].name
  }

  /** The names of a user list (the keys of `new Map(users.map(...))`). */
  function NameSet(users: seq<User>): (r: set<string>)
    ensures forall n :: n in r <==> exists i :: 0 <= i < |users| && users[i].name == n
  {
    set i | 0 <= i < |users| :: users[i].name
  }

  /** The position of the last record with the name, else -1. */
  function LastIndexOf(users: seq<User>, name: string): (r: int)
    ensures -1 <= r < |users|
    ensures r >= 0 ==> users[r].name == name
    ensures forall j :: r < j < |users| ==> users[j].name != name
  {
    if |users| == 0 then -1
    else if users[|users| - 1].name == name then |users| - 1
    else LastIndexOf(users[..|users| - 1], name)
  }

  /** The position of the first record with the name, else -1
      (`findIndex((user) => user.name === name)`). */
  function FirstIndexOf(users: seq<User>, name: string): (r: int)
    ensures -1 <= r < |users|
    ensures r >= 0 ==> users[r].name == name
    ensures forall j :: 0 <= j < |users| && (r == -1 || j < r) ==> users[j].name != name
  {
    if |users| == 0 then -1
    else if users[0].name == name then 0
    else
      var k := FirstIndexOf(users[1..], name);
      if k == -1 then -1 else k + 1
  }

  /** `savedUserMap.get(name)`: a map built from a list keeps the last
      record of each name. */
  function LastWith(users: seq<User>, name: string): Option<User> {
    var i := LastIndexOf(users, name);
    if i == -1 then None else Some(users[i])
  }

  /** A name held at one position only is found there from either end. */
  lemma OnlyIndex(users: seq<User>, name: string, k: int)
    requires 0 <= k < |users| && users[k].name == name
    requires forall j :: 0 <= j < |users| && j != k ==> users[j].name != name
    ensures LastIndexOf(users, name) == k && FirstIndexOf(users, name) == k
  {
  }

  lemma UniqueIndex(users: seq<User>, i: int)
    requires UniqueNames(users) && 0 <= i < |users|
    ensures LastIndexOf(users, users[i].name) == i
    ensures FirstIndexOf(users, users[i].name) == i
  {
  }

  // ---------------------------------------------------------------------
  // Removed users

  /** The stored users the configuration still names, in stored order. */
  function Kept(users: seq<User>, names: set<string>): (r: seq<User>)
    ensures |r| <= |users|
    ensures forall u :: u in r <==> u in users && u.name in names
  {
    if |users| == 0 then []
    else (if users[0].name in names then [users[0]] else []) + Kept(users[1..], names)
  }

  lemma {:induction false} KeptUnique(users: seq<User>, names: set<string>)
    requires UniqueNames(users)
    ensures UniqueNames(Kept(users, names))
  {
    if |users| > 0 {
      KeptUnique(users[1..], names);
      var rest := Kept(users[1..], names);
      forall i | 0 <= i < |rest| ensures rest[i].name != users[0].name {
        assert rest[i] in users[1..];
      }
    }
  }

  /** The names of the stored users the configuration no longer names. */
  function Gone(users: seq<User>, names: set<string>): (r: set<string>)
    ensures forall n :: n in r <==> n !in names && exists i :: 0 <= i < |users| && users[i].name == n
  {
    if |users| == 0 then {}
    else
      assert forall i :: 1 <= i < |users| ==> users[i] == users[1..][i - 1];
      (if users[0].name !in names then {users[0].name} else {}) + Gone(users[1..], names)
  }

  /** `selections.map((s) => s === name ? null : s)` for every removed name. */
  function ClearSlots(slots: seq<Slot>, gone: set<string>): (r: seq<Slot>)
    ensures |r| == |slots|
    ensures forall i :: 0 <= i < |slots| ==>
              r[i] == (if slots[i].Some? && slots[i].value in gone then None else slots[i])
  {
    seq(|slots|, i requires 0 <= i < |slots| => if slots[i].Some? && slots[i].value in gone then None else slots[i])
  }

  function ClearChore(chore: Chore, gone: set<string>): Chore {
    if chore.selections.Some? then chore.(selections := Some(ClearSlots(chore.selections.value, gone)))
    else chore
  }

  function ClearList(chores: seq<Chore>, gone: set<string>): (r: seq<Chore>)
    ensures |r| == |chores|
    ensures forall i :: 0 <= i < |chores| ==> r[i] == ClearChore(chores[i], gone)
  {
    seq(|chores|, i requires 0 <= i < |chores| => ClearChore(chores[i], gone))
  }

  /** Every section's cells held by a removed user become `null`. */
  function ClearNames(data: ChoreData, gone: set<string>): (r: ChoreData)
    ensures forall s :: r.Get(s) == ClearList(data.Get(s), gone)
  {
    ChoreData(ClearList(data.daily, gone), ClearList(data.weekly, gone), ClearList(data.monthly, gone))
  }

  /** Clearing no names changes nothing. */
  lemma ClearNothing(data: ChoreData)
    ensures ClearNames(data, {}) == data
  {
    forall chores: seq<Chore> ensures ClearList(chores, {}) == chores {
      forall i | 0 <= i < |chores| ensures ClearChore(chores[i], {}) == chores[i] {
        if chores[i].selections.Some? {
          assert ClearSlots(chores[i].selections.value, {}) == chores[i].selections.value;
        }
      }
    }
  }

  /** Clearing one name after others is clearing them all at once. */
  lemma ClearNamesAgain(data: ChoreData, gone: set<string>, name: string)
    ensures ClearNames(ClearNames(data, gone), {name}) == ClearNames(data, gone + {name})
  {
    forall chores: seq<Chore> ensures ClearList(ClearList(chores, gone), {name}) == ClearList(chores, gone + {name}) {
      forall i | 0 <= i < |chores|
        ensures ClearChore(ClearChore(chores[i], gone), {name}) == ClearChore(chores[i], gone + {name})
      {
        var c := chores[i];
        if c.selections.Some? {
          assert ClearSlots(ClearSlots(c.selections.value, gone), {name}) == ClearSlots(c.selections.value, gone + {name});
        }
      }
    }
  }

  /** The state the removal loop leaves: the kept users, the ledger without
      the removed names, their cells cleared, and whether anyone left. */
  datatype Removal = Removal(users: seq<User>, points: Ledger, data: ChoreData, changed: bool)

  function RemoveUsers(users: seq<User>, names: set<string>, points: Ledger, data: ChoreData): Removal {
    var gone := Gone(users, names);
    Removal(Kept(users, names), points - gone, ClearNames(data, gone), gone != {})
  }

  /** What removal does, cell by cell and user by user. */
  lemma RemoveUsersEffect(users: seq<User>, names: set<string>, points: Ledger, data: ChoreData)
    ensures var r := RemoveUsers(users, names, points, data);
      && (forall u :: u in r.users <==> u in users && u.name in names)
      && (forall n :: n in r.points <==> n in points && n !in Gone(users, names))
      && (forall n :: n in r.points ==> r.points[n] == points[n])
      && (forall s, i, k ::
            0 <= i < |data.Get(s)| && data.Get(s)[i].selections.Some? && 0 <= k < |data.Get(s)[i].selections.value| ==>
            var slot := data.Get(s)[i].selections.value[k];
            r.data.Get(s)[i].selections.value[k] ==
              (if slot.Some? && slot.value in Gone(users, names) then None else slot))
      && (forall s, i :: 0 <= i < |data.Get(s)| ==>
            r.data.Get(s)[i] == data.Get(s)[i].(selections := r.data.Get(s)[i].selections))
      && (r.changed <==> exists i :: 0 <= i < |users| && users[i].name !in names)
  {
    var gone := Gone(users, names);
    if !(exists i :: 0 <= i < |users| && users[i].name !in names) {
      assert gone == {};
    }
  }

  /** One turn of the backward removal loop, at position `i`, in terms of
      the suffixes of the stored list. */
  lemma {:induction false} RemovalStep(users: seq<User>, names: set<string>, i: int)
    requires 0 <= i < |users|
    ensures Kept(users[i..], names) ==
              (if users[i].name in names then [users[i]] else []) + Kept(users[i + 1..], names)
    ensures Gone(users[i..], names) ==
              (if users[i].name !in names then {users[i].name} else {}) + Gone(users[i + 1..], names)
  {
    assert users[i..][1..] == users[i + 1..];
  }

  lemma KeptHead(users: seq<User>, names: set<string>, i: int)
    requires 0 <= i < |users|
    ensures Kept(users[i..], names) ==
              (if users[i].name in names then [users[i]] else []) + Kept(users[i + 1..], names)
  {
    assert users[i..][1..] == users[i + 1..];
  }

  /** The removal loop's state once the users from position `i` on have
      been walked. */
  predicate Dropped(original: seq<User>, names: set<string>, points: Ledger, data: ChoreData, i: int,
                    users: seq<User>, userPoints: Ledger, cleared: ChoreData, changed: bool)
  {
    && 0 <= i <= |original|
    && users == original[..i] + Kept(original[i..], names)
    && userPoints == points - Gone(original[i..], names)
    && cleared == ClearNames(data, Gone(original[i..], names))
    && (changed <==> Gone(original[i..], names) != {})
  }

  /** One turn of the removal loop, at position `i`. */
  lemma DropStep(original: seq<User>, names: set<string>, points: Ledger, data: ChoreData, i: int,
                 users: seq<User>, userPoints: Ledger, cleared: ChoreData, changed: bool)
    requires 0 <= i < |original|
    requires Dropped(original, names, points, data, i + 1, users, userPoints, cleared, changed)
    ensures |users| > i && users[i] == original[i]
    ensures var name := users[i].name;
            if name !in names then
              Dropped(original, names, points, data, i, users[..i] + users[i + 1..], userPoints - {name},
                      ClearNames(cleared, {name}), true)
            else Dropped(original, names, points, data, i, users, userPoints, cleared, changed)
  {
    var name := original[i].name;
    var goneAfter := Gone(original[i + 1..], names);
    if name !in names {
      SpliceStep(original, names, i);
      GoneStep(original, names, i);
      MinusStep(points, goneAfter, name);
      ClearNamesAgain(data, goneAfter, name);
    } else {
      KeepStep(original, names, i);
      RemovalStep(original, names, i);
      assert Gone(original[i..], names) == Gone(original[i + 1..], names);
    }
  }

  lemma SpliceStep(original: seq<User>, names: set<string>, i: int)
    requires 0 <= i < |original| && original[i].name !in names
    ensures var after := original[..i + 1] + Kept(original[i + 1..], names);
            after[i] == original[i] && after[..i] + after[i + 1..] == original[..i] + Kept(original[i..], names)
  {
    KeptHead(original, names, i);
    var kept := Kept(original[i + 1..], names);
    var after := original[..i + 1] + kept;
    assert after[..i] == original[..i];
    assert after[i + 1..] == kept;
  }

  lemma GoneStep(original: seq<User>, names: set<string>, i: int)
    requires 0 <= i < |original| && original[i].name !in names
    ensures Gone(original[i..], names) == Gone(original[i + 1..], names) + {original[i].name}
  {
    RemovalStep(original, names, i);
  }

  lemma MinusStep(points: Ledger, gone: set<string>, name: string)
    ensures (points - gone) - {name} == points - (gone + {name})
  {
  }

  lemma KeepStep(original: seq<User>, names: set<string>, i: int)
    requires 0 <= i < |original| && original[i].name in names
    ensures var after := original[..i + 1] + Kept(original[i + 1..], names);
            after[i] == original[i] && after == original[..i] + Kept(original[i..], names)
  {
    KeptHead(original, names, i);
    var kept := Kept(original[i + 1..], names);
    assert original[..i + 1] + kept == original[..i] + ([original[i]] + kept) by {
      assert original[..i + 1] == original[..i] + [original[i]];
    }
  }

  // ---------------------------------------------------------------------
  // Added and updated users

  /** `isValidCssColor(c) ? c : fallback` */
  function Validated(v: Val, valid: string -> bool, fallback: string): (r: Val)
    ensures ValidColor(valid, v) ==> r == v
    ensures !ValidColor(valid, v) ==> r == Str(fallback)
  {
    if ValidColor(valid, v) then v else Str(fallback)
  }

  /** The record a configured user leads to: its name with its validated
      colours (fallbacks "transparent" and "white"). */
  function Configured(configUser: User, valid: string -> bool): User {
    User(configUser.name,
         Validated(configUser.backgroundColor, valid, "transparent"),
         Validated(configUser.fontColor, valid, "white"))
  }

  /** The users list, the ledger and `usersChanged` while the configured
      users are walked. */
  datatype Progress = Progress(users: seq<User>, points: Ledger, changed: bool)

  /** One turn of the `yamlUsers.forEach` loop. `original` is the stored list
      before removal, from which `savedUserMap` was built. The `dist` build
      updates, in place, the map's record, which is the last record of that
      name in the list (appended records carry names the map lacks), and
      compares it as it is now; the frontend build compares the map's record
      as it was loaded and replaces the first record of that name. */
  function AddOrUpdate(build: Build, original: seq<User>, configUser: User, p: Progress,
                       valid: string -> bool): Progress
  {
    var updated := Configured(configUser, valid);
    var savedUser := LastWith(original, configUser.name);
    if savedUser.None? then
      Progress(p.users + [updated], p.points[configUser.name := 0], true)
    else if build == Dist then
      var i := LastIndexOf(p.users, configUser.name);
      if i != -1 && p.users[i] != updated then
        Progress(p.users[i := updated], p.points, true)
      else p
    else
      if savedUser.value.backgroundColor != updated.backgroundColor
         || savedUser.value.fontColor != updated.fontColor then
        var i := FirstIndexOf(p.users, configUser.name);
        Progress(if i != -1 then p.users[i := updated] else p.users, p.points, true)
      else p
  }

  /** The loop over the configured users, in order. */
  function AddPass(build: Build, original: seq<User>, configUsers: seq<User>, start: Progress,
                   valid: string -> bool): Progress
  {
    if |configUsers| == 0 then start
    else AddOrUpdate(build, original, configUsers[|configUsers| - 1],
                     AddPass(build, original, configUsers[..|configUsers| - 1], start, valid), valid)
  }

  /** The pass over one more configured user is one more turn. */
  lemma AddSnoc(build: Build, original: seq<User>, configUsers: seq<User>, j: int, start: Progress,
                valid: string -> bool)
    requires 0 <= j < |configUsers|
    ensures AddPass(build, original, configUsers[..j + 1], start, valid) ==
            AddOrUpdate(build, original, configUsers[j], AddPass(build, original, configUsers[..j], start, valid), valid)
  {
    assert configUsers[..j + 1][..j] == configUsers[..j];
  }

  /** The configured users without a stored record, as they are appended. */
  function Arrivals(configUsers: seq<User>, original: seq<User>, valid: string -> bool): (r: seq<User>)
    ensures forall i :: 0 <= i < |r| ==> r[i].name !in NameSet(original)
  {
    if |configUsers| == 0 then []
    else
      var last := configUsers[|configUsers| - 1];
      Arrivals(configUsers[..|configUsers| - 1], original, valid)
        + (if last.name in NameSet(original) then [] else [Configured(last, valid)])
  }

  lemma NameSetAppend(users: seq<User>, user: User)
    ensures NameSet(users + [user]) == NameSet(users) + {user.name}
  {
    var both := users + [user];
    forall n | n in NameSet(users) ensures n in NameSet(both) {
      var i :| 0 <= i < |users| && users[i].name == n;
      assert both[i].name == n;
    }
    assert both[|users|].name == user.name;
  }

  /** 0 points for each arriving user. */
  function ZeroFor(arrivals: seq<User>): (r: Ledger)
    ensures r.Keys == NameSet(arrivals)
    ensures forall n :: n in r ==> r[n] == 0
  {
    map n | n in NameSet(arrivals) :: 0
  }

  /** A stored record after the configured users up to some point: the
      configured colours of the last configured user of its name, if any. */
  function Recoloured(user: User, configUsers: seq<User>, valid: string -> bool): (r: User)
    ensures r.name == user.name
  {
    var j := LastIndexOf(configUsers, user.name);
    if j == -1 then user else Configured(configUsers[j], valid)
  }

  function RecolourAll(kept: seq<User>, configUsers: seq<User>, valid: string -> bool): (r: seq<User>)
    ensures |r| == |kept|
    ensures forall i :: 0 <= i < |kept| ==> r[i] == Recoloured(kept[i], configUsers, valid)
  {
    seq(|kept|, i requires 0 <= i < |kept| => Recoloured(kept[i], configUsers, valid))
  }

  /** Some stored record takes colours it did not have. */
  predicate AnyRecoloured(kept: seq<User>, configUsers: seq<User>, valid: string -> bool) {
    exists i :: 0 <= i < |kept| && Recoloured(kept[i], configUsers, valid) != kept[i]
  }

  /** The users, ledger and change flag after the configured users
      `configUsers`, from `start` whose users are the kept stored ones. */
  predicate Shaped(p: Progress, kept: seq<User>, configUsers: seq<User>, original: seq<User>,
                   start: Progress, valid: string -> bool)
  {
    var arrivals := Arrivals(configUsers, original, valid);
    && p.users == RecolourAll(kept, configUsers, valid) + arrivals
    && p.points == start.points + ZeroFor(arrivals)
    && (p.changed <==> start.changed || |arrivals| > 0 || AnyRecoloured(kept, configUsers, valid))
  }

  /** With unique names in the stored and in the configured list, the loop
      over the configured users leaves the surviving stored users in their
      order, each with the validated colours of its configured entry,
      followed by the new users in configuration order; new users get 0
      points and no other total moves; and it reports a change exactly when
      a user was added or changed colour, or the removal had changed the
      state. */
  lemma {:induction false} AddPassShape(build: Build, original: seq<User>, configUsers: seq<User>,
                                        names: set<string>, start: Progress, valid: string -> bool)
    requires UniqueNames(original) && UniqueNames(configUsers)
    requires NameSet(configUsers) <= names
    requires start.users == Kept(original, names)
    ensures var p := AddPass(build, original, configUsers, start, valid);
            var kept := Kept(original, names);
            var arrivals := Arrivals(configUsers, original, valid);
      && p.users == RecolourAll(kept, configUsers, valid) + arrivals
      && p.points == start.points + ZeroFor(arrivals)
      && (p.changed <==> start.changed || |arrivals| > 0 || AnyRecoloured(kept, configUsers, valid))
  {
    var kept := Kept(original, names);
    if |configUsers| == 0 {
      assert RecolourAll(kept, configUsers, valid) == kept;
      assert start.points + ZeroFor([]) == start.points;
    } else {
      var init := configUsers[..|configUsers| - 1];
      var y := configUsers[|configUsers| - 1];
      assert NameSet(init) <= NameSet(configUsers);
      AddPassShape(build, original, init, names, start, valid);
      var before := AddPass(build, original, init, start, valid);
      assert Shaped(before, kept, init, original, start, valid);
      if y.name !in NameSet(original) {
        ArrivalStep(build, original, configUsers, kept, start, before, valid);
      } else {
        MatchedStep(build, original, configUsers, names, start, before, valid);
      }
    }
  }

  /** The step of AddPassShape for a configured user without a stored record. */
  lemma ArrivalStep(build: Build, original: seq<User>, configUsers: seq<User>, kept: seq<User>,
                    start: Progress, before: Progress, valid: string -> bool)
    requires |configUsers| > 0 && configUsers[|configUsers| - 1].name !in NameSet(original)
    requires forall i :: 0 <= i < |kept| ==> kept[i] in original
    requires Shaped(before, kept, configUsers[..|configUsers| - 1], original, start, valid)
    ensures Shaped(AddOrUpdate(build, original, configUsers[|configUsers| - 1], before, valid),
                   kept, configUsers, original, start, valid)
  {
    var init := configUsers[..|configUsers| - 1];
    var y := configUsers[|configUsers| - 1];
    assert LastWith(original, y.name).None?;
    forall i | 0 <= i < |kept| ensures Recoloured(kept[i], configUsers, valid) == Recoloured(kept[i], init, valid) {
      assert kept[i].name != y.name;
    }
    assert RecolourAll(kept, configUsers, valid) == RecolourAll(kept, init, valid);
    var arrivals := Arrivals(init, original, valid);
    assert Arrivals(configUsers, original, valid) == arrivals + [Configured(y, valid)];
    ZeroForAppend(start.points, arrivals, Configured(y, valid));
  }

  /** A new user's 0 points land on top of the earlier totals. */
  lemma ZeroForAppend(points: Ledger, arrivals: seq<User>, user: User)
    ensures (points + ZeroFor(arrivals))[user.name := 0] == points + ZeroFor(arrivals + [user])
  {
    NameSetAppend(arrivals, user);
    assert ZeroFor(arrivals + [user]) == ZeroFor(arrivals)[user.name := 0];
  }

  /** The step of AddPassShape for a configured user with a stored record. */
  lemma MatchedStep(build: Build, original: seq<User>, configUsers: seq<User>, names: set<string>,
                    start: Progress, before: Progress, valid: string -> bool)
    requires UniqueNames(original) && UniqueNames(configUsers) && |configUsers| > 0
    requires NameSet(configUsers) <= names
    requires configUsers[|configUsers| - 1].name in NameSet(original)
    requires Shaped(before, Kept(original, names), configUsers[..|configUsers| - 1], original, start, valid)
    ensures Shaped(AddOrUpdate(build, original, configUsers[|configUsers| - 1], before, valid),
                   Kept(original, names), configUsers, original, start, valid)
  {
    var init := configUsers[..|configUsers| - 1];
    var y := configUsers[|configUsers| - 1];
    var kept := Kept(original, names);
    var arrivals := Arrivals(init, original, valid);
    assert Arrivals(configUsers, original, valid) == arrivals;
    assert y.name in NameSet(configUsers);
    assert y.name !in NameSet(init);
    var k := MatchedRecord(original, names, init, arrivals, y.name, valid);
    var updated := Configured(y, valid);
    MatchedUpdate(build, original, y, before, k, valid);
    RecolourStep(kept, configUsers, k, valid);
    UpdateFront(RecolourAll(kept, init, valid), arrivals, k, updated);
  }

  /** Both builds give the one record of the configured name the
      configured colours, and report a change exactly when they differ. */
  lemma MatchedUpdate(build: Build, original: seq<User>, configUser: User, before: Progress, k: int,
                      valid: string -> bool)
    requires 0 <= k < |before.users|
    requires LastWith(original, configUser.name) == Some(before.users[k])
    requires LastIndexOf(before.users, configUser.name) == k && FirstIndexOf(before.users, configUser.name) == k
    ensures var after := AddOrUpdate(build, original, configUser, before, valid);
            var updated := Configured(configUser, valid);
      && after.users == before.users[k := updated]
      && after.points == before.points
      && (after.changed <==> before.changed || before.users[k] != updated)
  {
  }

  /** Recolouring with one more configured user changes only its record. */
  lemma RecolourStep(kept: seq<User>, configUsers: seq<User>, k: int, valid: string -> bool)
    requires |configUsers| > 0 && 0 <= k < |kept|
    requires kept[k].name == configUsers[|configUsers| - 1].name
    requires LastIndexOf(configUsers[..|configUsers| - 1], kept[k].name) == -1
    requires forall i :: 0 <= i < |kept| && i != k ==> kept[i].name != kept[k].name
    ensures var init := configUsers[..|configUsers| - 1];
            var updated := Configured(configUsers[|configUsers| - 1], valid);
      && RecolourAll(kept, configUsers, valid) == RecolourAll(kept, init, valid)[k := updated]
      && RecolourAll(kept, init, valid)[k] == kept[k]
      && (AnyRecoloured(kept, configUsers, valid) <==> AnyRecoloured(kept, init, valid) || kept[k] != updated)
  {
    var init := configUsers[..|configUsers| - 1];
    var y := configUsers[|configUsers| - 1];
    assert LastIndexOf(configUsers, y.name) == |configUsers| - 1;
    forall i | 0 <= i < |kept| && i != k
      ensures Recoloured(kept[i], configUsers, valid) == Recoloured(kept[i], init, valid)
    {
      assert kept[i].name != y.name;
    }
  }

  lemma UpdateFront<T>(front: seq<T>, back: seq<T>, k: int, x: T)
    requires 0 <= k < |front|
    ensures (front + back)[k := x] == front[k := x] + back
  {
  }

  /** The stored record of a configured name that has one is its only
      record among the users built so far, and still as it was stored. */
  lemma MatchedRecord(original: seq<User>, names: set<string>, init: seq<User>, arrivals: seq<User>,
                      name: string, valid: string -> bool) returns (k: int)
    requires UniqueNames(original)
    requires name in NameSet(original) && name in names && name !in NameSet(init)
    requires forall i :: 0 <= i < |arrivals| ==> arrivals[i].name !in NameSet(original)
    ensures var kept := Kept(original, names);
            var users := RecolourAll(kept, init, valid) + arrivals;
      && 0 <= k < |kept| && kept[k].name == name
      && LastWith(original, name) == Some(kept[k])
      && users[k] == kept[k]
      && LastIndexOf(users, name) == k && FirstIndexOf(users, name) == k
      && forall i :: 0 <= i < |kept| && i != k ==> kept[i].name != name
  {
    var kept := Kept(original, names);
    k := KeptPosition(original, names, name);
    var users := RecolourAll(kept, init, valid) + arrivals;
    assert LastIndexOf(init, name) == -1;
    forall j | 0 <= j < |users| && j != k ensures users[j].name != name {
      if j < |kept| {
        assert users[j] == Recoloured(kept[j], init, valid);
      } else {
        assert users[j] == arrivals[j - |kept|];
      }
    }
    assert users[k] == kept[k] by {
      assert users[k] == Recoloured(kept[k], init, valid);
    }
    OnlyIndex(users, name, k);
  }

  /** A stored name the configuration keeps sits at one position of the
      kept users, holding the record the stored map yields for it. */
  lemma KeptPosition(original: seq<User>, names: set<string>, name: string) returns (k: int)
    requires UniqueNames(original)
    requires name in NameSet(original) && name in names
    ensures var kept := Kept(original, names);
      && 0 <= k < |kept| && kept[k].name == name
      && LastWith(original, name) == Some(kept[k])
      && forall i :: 0 <= i < |kept| && i != k ==> kept[i].name != name
  {
    var kept := Kept(original, names);
    KeptUnique(original, names);
    var o :| 0 <= o < |original| && original[o].name == name;
    UniqueIndex(original, o);
    assert original[o] in kept;
    k :| 0 <= k < |kept| && kept[k] == original[o];
  }

  /** Both builds reconcile the users the same way when names are unique. */
  lemma BuildsAgree(original: seq<User>, configUsers: seq<User>, names: set<string>,
                    start: Progress, valid: string -> bool)
    requires UniqueNames(original) && UniqueNames(configUsers)
    requires NameSet(configUsers) <= names
    requires start.users == Kept(original, names)
    ensures AddPass(Dist, original, configUsers, start, valid) ==
            AddPass(Frontend, original, configUsers, start, valid)
  {
    AddPassShape(Dist, original, configUsers, names, start, valid);
    AddPassShape(Frontend, original, configUsers, names, start, valid);
  }

  /** The frontend's replace-on-update keeps the list's length and every
      name in place and leaves the ledger alone. */
  lemma FrontendUpdateInPlace(original: seq<User>, configUser: User, p: Progress, valid: string -> bool)
    requires configUser.name in NameSet(original)
    ensures var q := AddOrUpdate(Frontend, original, configUser, p, valid);
      && |q.users| == |p.users| && q.points == p.points
      && forall i :: 0 <= i < |p.users| ==> q.users[i].name == p.users[i].name
  {
  }

  lemma NameSetConcat(a: seq<User>, b: seq<User>)
    ensures NameSet(a + b) == NameSet(a) + NameSet(b)
  {
    var ab := a + b;
    forall n | n in NameSet(a) ensures n in NameSet(ab) {
      var i :| 0 <= i < |a| && a[i].name == n;
      assert ab[i].name == n;
    }
    forall n | n in NameSet(b) ensures n in NameSet(ab) {
      var i :| 0 <= i < |b| && b[i].name == n;
      assert ab[|a| + i].name == n;
    }
  }

  /** Recolouring keeps every name. */
  lemma RecolourNames(kept: seq<User>, configUsers: seq<User>, valid: string -> bool)
    ensures NameSet(RecolourAll(kept, configUsers, valid)) == NameSet(kept)
  {
    var r := RecolourAll(kept, configUsers, valid);
    assert forall i :: 0 <= i < |kept| ==> r[i].name == kept[i].name;
  }

  lemma KeptNames(users: seq<User>, names: set<string>)
    ensures NameSet(Kept(users, names)) == NameSet(users) * names
  {
    var kept := Kept(users, names);
    forall n | n in NameSet(users) * names ensures n in NameSet(kept) {
      var i :| 0 <= i < |users| && users[i].name == n;
      assert users[i] in kept;
    }
    forall n | n in NameSet(kept) ensures n in NameSet(users) * names {
      var i :| 0 <= i < |kept| && kept[i].name == n;
      assert kept[i] in users;
    }
  }

  /** The arriving users are the configured names without a stored record. */
  lemma {:induction false} ArrivalNames(configUsers: seq<User>, original: seq<User>, valid: string -> bool)
    ensures NameSet(Arrivals(configUsers, original, valid)) == NameSet(configUsers) - NameSet(original)
  {
    if |configUsers| > 0 {
      var init := configUsers[..|configUsers| - 1];
      var last := configUsers[|configUsers| - 1];
      ArrivalNames(init, original, valid);
      assert configUsers == init + [last];
      NameSetAppend(init, last);
      if last.name !in NameSet(original) {
        NameSetAppend(Arrivals(init, original, valid), Configured(last, valid));
      } else {
        assert Arrivals(configUsers, original, valid) == Arrivals(init, original, valid) + [];
        assert Arrivals(init, original, valid) + [] == Arrivals(init, original, valid);
        assert NameSet(configUsers) - NameSet(original) == NameSet(init) - NameSet(original);
      }
    }
  }

  /** With unique names, after the removal and the pass over the
      configured users the stored users carry exactly the configured
      names. */
  lemma PassNames(build: Build, original: seq<User>, configUsers: seq<User>, points: Ledger, data: ChoreData,
                  valid: string -> bool)
    requires UniqueNames(original) && UniqueNames(configUsers)
    ensures var names := NameSet(configUsers);
            var rem := RemoveUsers(original, names, points, data);
            NameSet(AddPass(build, original, configUsers, Progress(rem.users, rem.points, rem.changed), valid).users) == names
  {
    var names := NameSet(configUsers);
    var rem := RemoveUsers(original, names, points, data);
    var start := Progress(rem.users, rem.points, rem.changed);
    AddPassShape(build, original, configUsers, names, start, valid);
    var kept := Kept(original, names);
    var arrivals := Arrivals(configUsers, original, valid);
    NameSetConcat(RecolourAll(kept, configUsers, valid), arrivals);
    RecolourNames(kept, configUsers, valid);
    KeptNames(original, names);
    ArrivalNames(configUsers, original, valid);
  }
}
