/** `checkAndUpdateChores`: each section of the configured chores merged
    into the loaded state. A configured chore without a stored chore of its
    name is added with seven empty cells; a stored chore of that name takes
    the configured points, days, week of month, `max_days` and highlight
    colour, and loses its picks when its days, its week or a lower `max_days`
    make them meaningless; stored chores the configuration no longer names
    are dropped. A change of points moves the difference, for every taken
    cell, in the loaded state's ledger. */
module Chores {
  import opened Js
  import opened Model
  import Days

  /** `normalizeDayName(day.trim())` for each day a weekly chore lists: the
      pieces of a comma-separated string, or the entries of a list, where a
      `null` entry throws; no days give an empty list. */
  function NormalizeDays(days: DaysField): (r: Outcome<seq<Option<string>>>)
    ensures days.NoDays? ==> r == Ok([])
    ensures days.DaysText? ==> r.Ok? && |r.value| == |Split(days.text, ',')|
    ensures days.DaysItems? ==> (r.Thrown? <==> None in days.items)
    ensures days.DaysItems? && r.Ok? ==> |r.value| == |days.items|
    ensures r.Ok? ==> forall i :: 0 <= i < |r.value| && r.value[i].Some? ==> r.value[i].value in Days.ShortDays
    ensures days.DaysText? ==> forall i, k :: 0 <= i < |r.value| && 0 <= k < 7 ==>
              (r.value[i] == Some(Days.ShortDays[k]) <==> Days.NamesDay(Trim(Split(days.text, ',')[i]), k))
    ensures days.DaysItems? && r.Ok? ==> forall i, k :: 0 <= i < |r.value| && 0 <= k < 7 ==>
              (r.value[i] == Some(Days.ShortDays[k]) <==> Days.NamesDay(Trim(days.items[i].value), k))
  {
    match days
    case NoDays => Ok([])
    case DaysText(text) =>
      var parts := Split(text, ',');
      var r := seq(|parts|, i requires 0 <= i < |parts| => Days.NormalizeDayName(Str(Trim(parts[i]))));
      TextDaysNamed(parts, r);
      Ok(r)
    case DaysItems(items) =>
      if None in items then Thrown
      else
        var r := seq(|items|, i requires 0 <= i < |items| =>
                       assert items[i] in items;
                       Days.NormalizeDayName(Str(Trim(items[i].value))));
        ListDaysNamed(items, r);
        Ok(r)
  }

  /** Each comma piece normalises to the short name of the day it names. */
  lemma {:induction false} TextDaysNamed(parts: seq<string>, r: seq<Option<string>>)
    requires |r| == |parts|
    requires forall i :: 0 <= i < |parts| ==> r[i] == Days.NormalizeDayName(Str(Trim(parts[i])))
    ensures forall i, k :: 0 <= i < |parts| && 0 <= k < 7 ==>
              (r[i] == Some(Days.ShortDays[k]) <==> Days.NamesDay(Trim(parts[i]), k))
  {
    forall i, k | 0 <= i < |parts| && 0 <= k < 7
      ensures r[i] == Some(Days.ShortDays[k]) <==> Days.NamesDay(Trim(parts[i]), k)
    {
      Days.NormalizeNamesDay(Trim(parts[i]), k);
    }
  }

  /** Each entry of a list without `null` normalises to the short name of
      the day it names. */
  lemma {:induction false} ListDaysNamed(items: seq<Option<string>>, r: seq<Option<string>>)
    requires |r| == |items| && None !in items
    requires forall i :: 0 <= i < |items| ==> items[i].Some? && r[i] == Days.NormalizeDayName(Str(Trim(items[i].value)))
    ensures forall i, k :: 0 <= i < |items| && 0 <= k < 7 ==>
              items[i].Some? && (r[i] == Some(Days.ShortDays[k]) <==> Days.NamesDay(Trim(items[i].value), k))
  {
    forall i, k | 0 <= i < |items| && 0 <= k < 7
      ensures items[i].Some? && (r[i] == Some(Days.ShortDays[k]) <==> Days.NamesDay(Trim(items[i].value), k))
    {
      Days.NormalizeNamesDay(Trim(items[i].value), k);
    }
  }

  /** `week_of_month?.week` */
  function WeekOf(wom: Option<Wom>): Option<int> {
    if wom.Some? then wom.value.week else None
  }

  /** `week_of_month?.highlight_color` */
  function HighlightOf(wom: Option<Wom>): Val {
    if wom.Some? then wom.value.highlightColor else Undefined
  }

  /** `{ ...yamlChore.week_of_month }`: a copy, empty when it is missing. */
  function WomCopy(wom: Option<Wom>): Wom {
    if wom.Some? then wom.value else Wom(None, Undefined)
  }

  /** A stored monthly chore's `week_of_month` after the week check. */
  function WomAfterWeek(configured: Chore, stored: Chore): (r: Option<Wom>)
    ensures WeekOf(r) == WeekOf(configured.weekOfMonth)
  {
    if WeekOf(configured.weekOfMonth) != WeekOf(stored.weekOfMonth) then Some(WomCopy(configured.weekOfMonth))
    else stored.weekOfMonth
  }

  // ---------------------------------------------------------------------
  // Points

  /** Every taken cell's holder has an entry in the ledger; `+=` on a
      holder without one would store NaN. */
  predicate Tracked(slots: seq<Slot>, ledger: Ledger) {
    forall i :: 0 <= i < |slots| && Occupied(slots[i]) ==> slots[i].value in ledger
  }

  /** `selections.forEach((user) => { if (user) userPoints[user] += delta })` */
  function AddToHolders(ledger: Ledger, slots: seq<Slot>, delta: int): (r: Ledger)
    requires Tracked(slots, ledger)
    ensures r.Keys == ledger.Keys
  {
    if |slots| == 0 then ledger
    else
      var next := if Occupied(slots[0]) then ledger[slots[0].value := ledger[slots[0].value] + delta] else ledger;
      AddToHolders(next, slots[1..], delta)
  }

  /** Each holder gains the difference once per cell held; nobody else's
      total moves. */
  lemma {:induction false} AddToHoldersEffect(ledger: Ledger, slots: seq<Slot>, delta: int, user: string)
    requires Tracked(slots, ledger)
    requires user in ledger && user != ""
    ensures AddToHolders(ledger, slots, delta)[user] == ledger[user] + delta * CountOf(slots, user)
  {
    if |slots| > 0 {
      var next := if Occupied(slots[0]) then ledger[slots[0].value := ledger[slots[0].value] + delta] else ledger;
      AddToHoldersEffect(next, slots[1..], delta, user);
    }
  }

  /** The ledger after the points check of a stored chore: when the
      configured points differ, every taken cell of the stored chore's
      current picks moves its holder by the difference, missing points
      counting as 0. */
  function PointsMoved(configured: Chore, stored: Chore, ledger: Ledger): Ledger
    requires stored.selections.Some? ==> Tracked(stored.selections.value, ledger)
  {
    if configured.points != stored.points && stored.selections.Some? then
      AddToHolders(ledger, stored.selections.value, OrZero(configured.points) - OrZero(stored.points))
    else ledger
  }

  // ---------------------------------------------------------------------
  // One stored chore

  /** A stored chore after the checks, and `choreUpdated`. */
  datatype Reconciled = Reconciled(chore: Chore, changed: bool)

  /** The checks on a stored chore, in the order they run. The points are
      always copied. In the weekly section the normalised configured days
      replace differing stored ones and clear the picks. In the monthly
      section a different week copies the configured `week_of_month` (an
      empty one when it is missing) and clears the picks; a different
      `max_days` is copied, clearing the picks when it is lower; and a
      different highlight colour is validated ("transparent" otherwise) and
      written into the chore's `week_of_month`, which throws when the
      configured or the stored chore has none. */
  function Reconcile(section: Section, configured: Chore, stored: Chore, valid: string -> bool): (r: Outcome<Reconciled>)
    ensures r.Ok? ==> r.value.chore.name == stored.name && r.value.chore.day == stored.day
    ensures r.Ok? ==> r.value.chore.selections == stored.selections || r.value.chore.selections == Some(NoSelections)
  {
    var pointsChanged := configured.points != stored.points;
    var c1 := stored.(points := configured.points);
    if section == Weekly then
      match NormalizeDays(configured.days)
      case Thrown => Thrown
      case Ok(normalized) =>
        if c1.days != DaysItems(normalized) then
          Ok(Reconciled(c1.(days := DaysItems(normalized), selections := Some(NoSelections)), true))
        else Ok(Reconciled(c1, pointsChanged))
    else if section == Monthly then
      var weekChanged := WeekOf(configured.weekOfMonth) != WeekOf(c1.weekOfMonth);
      var c2 :=
        if weekChanged then
          c1.(selections := Some(NoSelections), weekOfMonth := Some(WomCopy(configured.weekOfMonth)))
        else c1;
      var maxChanged := configured.maxDays != c2.maxDays;
      var c3 :=
        if maxChanged then
          c2.(selections := if OrZero(configured.maxDays) < OrZero(c2.maxDays) then Some(NoSelections) else c2.selections,
              maxDays := configured.maxDays)
        else c2;
      var highlightChanged := HighlightOf(configured.weekOfMonth) != HighlightOf(c3.weekOfMonth);
      if highlightChanged && (configured.weekOfMonth.None? || c3.weekOfMonth.None?) then Thrown
      else
        var c4 :=
          if highlightChanged then
            var color := configured.weekOfMonth.value.highlightColor;
            c3.(weekOfMonth := Some(c3.weekOfMonth.value.(highlightColor := if ValidColor(valid, color) then color else Str("transparent"))))
          else c3;
        Ok(Reconciled(c4, pointsChanged || weekChanged || maxChanged || highlightChanged))
    else Ok(Reconciled(c1, pointsChanged))
  }

  /** The weekly days the configured chore leads to differ from the stored
      chore's days. */
  predicate DaysDiffer(configured: Chore, stored: Chore) {
    NormalizeDays(configured.days).Ok? && stored.days != DaysItems(NormalizeDays(configured.days).value)
  }

  /** Days written as any day names, in any case and joined by ", " (say
      "Monday, wed"), are the same days as the stored short names of those
      days in that order (`["Mon", "Wed"]`), so they do not count as changed. */
  lemma {:induction false} SameDaysInOtherWords(configured: Chore, stored: Chore, names: seq<string>, days: seq<int>)
    requires |names| == |days| >= 1
    requires forall i :: 0 <= i < |names| ==> ',' !in names[i] && IsTrimmed(names[i])
    requires forall i :: 0 <= i < |days| ==> 0 <= days[i] < 7 && Days.NamesDay(names[i], days[i])
    requires configured.days == DaysText(Join(names, ", "))
    requires stored.days.DaysItems? && |stored.days.items| == |days|
    requires forall i :: 0 <= i < |days| ==> stored.days.items[i] == Some(Days.ShortDays[days[i]])
    ensures !DaysDiffer(configured, stored)
  {
    var parts := Split(Join(names, ", "), ',');
    JoinedPieces(names);
    var r := NormalizeDays(configured.days).value;
    var want := stored.days.items;
    forall i | 0 <= i < |names| ensures r[i] == want[i] {
      assert Trim(parts[i]) == names[i];
    }
    assert r == want;
  }

  /** The trimmed pieces of a ", "-joined list of trimmed, comma-free names
      are the names. */
  lemma JoinedPieces(names: seq<string>)
    requires |names| >= 1
    requires forall i :: 0 <= i < |names| ==> ',' !in names[i] && IsTrimmed(names[i])
    ensures |Split(Join(names, ", "), ',')| == |names|
    ensures forall i :: 0 <= i < |names| ==> Trim(Split(Join(names, ", "), ',')[i]) == names[i]
  {
    SplitJoin(names);
    forall i | 0 <= i < |names| ensures Trim(Split(Join(names, ", "), ',')[i]) == names[i] {
      if i == 0 {
        TrimOfTrimmed(names[0]);
      } else {
        TrimLeadingSpace(names[i]);
      }
    }
  }

  /** A stored chore's picks are cleared exactly when its weekly days
      change, its monthly week changes or its `max_days` goes down; a
      higher `max_days` or a new highlight colour keeps them. */
  lemma ReconcileSelections(section: Section, configured: Chore, stored: Chore, valid: string -> bool)
    requires Reconcile(section, configured, stored, valid).Ok?
    ensures var c := Reconcile(section, configured, stored, valid).value.chore;
            var cleared :=
              (section == Weekly && DaysDiffer(configured, stored))
              || (section == Monthly && (WeekOf(configured.weekOfMonth) != WeekOf(stored.weekOfMonth)
                                         || OrZero(configured.maxDays) < OrZero(stored.maxDays)));
            c.selections == if cleared then Some(NoSelections) else stored.selections
  {
  }

  /** The fields a stored chore takes from the configuration, and when the
      chore counts as updated. */
  lemma ReconcileFields(section: Section, configured: Chore, stored: Chore, valid: string -> bool)
    requires Reconcile(section, configured, stored, valid).Ok?
    ensures var r := Reconcile(section, configured, stored, valid).value;
            var weekChanged := WeekOf(configured.weekOfMonth) != WeekOf(stored.weekOfMonth);
      && r.chore.points == configured.points
      && (section == Weekly ==> r.chore.days == DaysItems(NormalizeDays(configured.days).value))
      && (section != Weekly ==> r.chore.days == stored.days)
      && (section == Monthly ==>
            && WeekOf(r.chore.weekOfMonth) == WeekOf(configured.weekOfMonth)
            && r.chore.maxDays == configured.maxDays
            && (HighlightOf(configured.weekOfMonth) == HighlightOf(r.chore.weekOfMonth)
                || HighlightOf(r.chore.weekOfMonth) == Str("transparent")))
      && (section != Monthly ==> r.chore.weekOfMonth == stored.weekOfMonth && r.chore.maxDays == stored.maxDays)
      && (r.changed <==>
            || configured.points != stored.points
            || (section == Weekly && DaysDiffer(configured, stored))
            || (section == Monthly &&
                  (|| weekChanged
                   || configured.maxDays != stored.maxDays
                   || HighlightOf(configured.weekOfMonth) != HighlightOf(WomAfterWeek(configured, stored)))))
  {
  }

  /** When the reconciliation throws: a `null` entry in a weekly chore's
      days, or a monthly highlight colour that differs while the configured
      chore, or the stored chore after the week check, has no
      `week_of_month`. */
  lemma ReconcileThrows(section: Section, configured: Chore, stored: Chore, valid: string -> bool)
    ensures Reconcile(section, configured, stored, valid).Thrown? <==>
              || (section == Weekly && configured.days.DaysItems? && None in configured.days.items)
              || (section == Monthly &&
                    var wom := WomAfterWeek(configured, stored);
                    HighlightOf(configured.weekOfMonth) != HighlightOf(wom)
                    && (configured.weekOfMonth.None? || wom.None?))
  {
  }

  /** A stored chore reconciled a second time with the same configured chore
      is left as it is, unless its monthly highlight colour is invalid: a
      colour stored as "transparent" in place of an invalid one differs
      from the configured colour again on every pass. */
  lemma {:induction false} ReconcileSettles(section: Section, configured: Chore, stored: Chore, valid: string -> bool)
    requires Reconcile(section, configured, stored, valid).Ok?
    requires section == Monthly && configured.weekOfMonth.Some? ==>
               var color := configured.weekOfMonth.value.highlightColor;
               ValidColor(valid, color) || color == Str("transparent")
    ensures var once := Reconcile(section, configured, stored, valid).value.chore;
            Reconcile(section, configured, once, valid) == Ok(Reconciled(once, false))
  {
    var once := Reconcile(section, configured, stored, valid).value.chore;
    ReconcileFields(section, configured, stored, valid);
    if section == Weekly {
      assert once.days == DaysItems(NormalizeDays(configured.days).value);
    } else if section == Monthly {
      if configured.weekOfMonth.None? {
        assert HighlightOf(once.weekOfMonth) == Undefined;
      }
    }
  }

  /** An invalid highlight colour other than "transparent" that the stored
      chore does not already hold after the week check is re-detected on
      every later pass: the chore counts as updated again, so the state is
      saved again. (A changed week copies the configured colour unvalidated,
      and then the colour check sees no difference.) */
  lemma InvalidHighlightRedetected(configured: Chore, stored: Chore, valid: string -> bool)
    requires Reconcile(Monthly, configured, stored, valid).Ok?
    requires configured.weekOfMonth.Some?
    requires var color := configured.weekOfMonth.value.highlightColor;
             !ValidColor(valid, color) && color != Str("transparent")
    requires HighlightOf(WomAfterWeek(configured, stored)) != configured.weekOfMonth.value.highlightColor
    ensures var once := Reconcile(Monthly, configured, stored, valid).value.chore;
            var twice := Reconcile(Monthly, configured, once, valid);
            twice.Ok? && twice.value.changed && twice.value.chore == once
  {
  }

  // ---------------------------------------------------------------------
  // One section

  /** `{ ...yamlChore, selections: Array(7).fill(null) }`: a new chore keeps
      its configured `days` as written. */
  function NewChore(configured: Chore): (r: Chore)
    ensures r.selections == Some(NoSelections) && r.name == configured.name && r.days == configured.days
  {
    configured.(selections := Some(NoSelections))
  }

  /** A new weekly chore whose days are a comma-separated string is
      reconciled again on the next pass: its stored days differ from their
      normalised list, which clears whatever was picked in the meantime. */
  lemma NewWeeklyChoreReset(configured: Chore, picks: seq<Slot>, valid: string -> bool)
    requires configured.days.DaysText?
    ensures var stored := NewChore(configured).(selections := Some(picks));
            var r := Reconcile(Weekly, configured, stored, valid);
            r.Ok? && r.value.changed && r.value.chore.selections == Some(NoSelections)
  {
  }

  /** The stored chores of a section by name (`new Map(...)`, the last of
      a name wins). */
  function ByName(chores: seq<Chore>): (r: map<string, Chore>)
    ensures forall n :: n in r ==> r[n].name == n
    ensures forall n :: n in r <==> exists i :: 0 <= i < |chores| && chores[i].name == n
    ensures forall n :: n in r ==> r[n] in chores
  {
    if |chores| == 0 then map[]
    else
      var last := chores[|chores| - 1];
      var rest := ByName(chores[..|chores| - 1]);
      assert forall c :: c in chores[..|chores| - 1] ==> c in chores;
      rest[last.name := last]
  }

  /** An entry of the new chore list: a new chore, or the stored chore of a
      name, which later entries of the same name may still change. */
  datatype Entry = Fresh(chore: Chore) | Stored(name: string)

  /** The pass over a section so far: the stored chores by name, the new
      list, the ledger and `choresChanged`. */
  datatype SectionState = SectionState(stored: map<string, Chore>, entries: seq<Entry>, points: Ledger, changed: bool)

  /** The ledger has an entry for every holder of a stored chore's cell. */
  predicate AllTracked(stored: map<string, Chore>, ledger: Ledger) {
    forall n :: n in stored && stored[n].selections.Some? ==> Tracked(stored[n].selections.value, ledger)
  }

  /** One turn of `yamlChores.forEach`. */
  function SectionStep(section: Section, configured: Chore, s: SectionState, valid: string -> bool): Outcome<SectionState>
    requires AllTracked(s.stored, s.points)
  {
    if configured.name !in s.stored then
      Ok(SectionState(s.stored, s.entries + [Fresh(NewChore(configured))], s.points, true))
    else
      var stored := s.stored[configured.name];
      var points := PointsMoved(configured, stored, s.points);
      match Reconcile(section, configured, stored, valid)
      case Thrown => Thrown
      case Ok(r) =>
        Ok(SectionState(s.stored[configured.name := r.chore], s.entries + [Stored(configured.name)], points,
                        s.changed || r.changed))
  }

  /** The name an entry stands for. */
  function EntryName(e: Entry): string {
    match e
    case Fresh(c) => c.name
    case Stored(n) => n
  }

  /** The invariant of the pass: the stored chores keep their names and
      their holders tracked, and every entry of a stored chore names one. */
  predicate Coherent(s: SectionState) {
    && (forall n :: n in s.stored ==> s.stored[n].name == n)
    && AllTracked(s.stored, s.points)
    && (forall i :: 0 <= i < |s.entries| && s.entries[i].Stored? ==> s.entries[i].name in s.stored)
  }

  lemma StepCoherent(section: Section, configured: Chore, s: SectionState, valid: string -> bool)
    requires Coherent(s)
    ensures var r := SectionStep(section, configured, s, valid);
      r.Ok? ==> && Coherent(r.value) && r.value.stored.Keys == s.stored.Keys
                && r.value.entries == s.entries + [r.value.entries[|s.entries|]]
                && EntryName(r.value.entries[|s.entries|]) == configured.name
                && r.value.points.Keys == s.points.Keys
  {
    var r := SectionStep(section, configured, s, valid);
    if r.Ok? && configured.name in s.stored {
      var stored := s.stored[configured.name];
      var c := Reconcile(section, configured, stored, valid).value.chore;
      var points := PointsMoved(configured, stored, s.points);
      assert points.Keys == s.points.Keys;
      forall n | n in r.value.stored && r.value.stored[n].selections.Some?
        ensures Tracked(r.value.stored[n].selections.value, points)
      {
        if n != configured.name {
          assert Tracked(s.stored[n].selections.value, s.points);
        } else if c.selections != Some(NoSelections) {
          assert Tracked(stored.selections.value, s.points);
        }
      }
    }
  }

  /** The loop over the configured chores of a section, in order. */
  function SectionRun(section: Section, configured: seq<Chore>, start: SectionState, valid: string -> bool): (r: Outcome<SectionState>)
    requires Coherent(start)
    ensures r.Ok? ==> && Coherent(r.value) && r.value.stored.Keys == start.stored.Keys
                      && r.value.points.Keys == start.points.Keys
                      && |r.value.entries| == |start.entries| + |configured|
  {
    if |configured| == 0 then Ok(start)
    else
      var init := configured[..|configured| - 1];
      match SectionRun(section, init, start, valid)
      case Thrown => Thrown
      case Ok(s) =>
        StepCoherent(section, configured[|configured| - 1], s, valid);
        SectionStep(section, configured[|configured| - 1], s, valid)
  }

  /** What a run keeps and what it appends: the stored names and the
      ledger's names stay, and each configured chore appends one entry of
      its name. */
  lemma {:induction false} RunShape(section: Section, configured: seq<Chore>, start: SectionState, valid: string -> bool)
    requires Coherent(start)
    requires SectionRun(section, configured, start, valid).Ok?
    ensures var s := SectionRun(section, configured, start, valid).value;
      && s.stored.Keys == start.stored.Keys && s.points.Keys == start.points.Keys
      && |s.entries| == |start.entries| + |configured|
      && s.entries[..|start.entries|] == start.entries
      && forall i :: 0 <= i < |configured| ==> EntryName(s.entries[|start.entries| + i]) == configured[i].name
  {
    if |configured| > 0 {
      var init := configured[..|configured| - 1];
      var last := configured[|configured| - 1];
      RunShape(section, init, start, valid);
      var before := SectionRun(section, init, start, valid).value;
      StepCoherent(section, last, before, valid);
      var after := SectionStep(section, last, before, valid).value;
      assert SectionRun(section, configured, start, valid) == Ok(after);
      assert after.entries[..|start.entries|] == before.entries[..|start.entries|];
      forall i | 0 <= i < |configured|
        ensures EntryName(after.entries[|start.entries| + i]) == configured[i].name
      {
        if i < |init| {
          assert after.entries[|start.entries| + i] == before.entries[|start.entries| + i];
          assert configured[i] == init[i];
        }
      }
    }
  }

  /** The run over one more configured chore is one more step. */
  lemma RunSnoc(section: Section, configured: seq<Chore>, start: SectionState, j: int, s: SectionState,
                valid: string -> bool)
    requires Coherent(start) && 0 <= j < |configured|
    requires SectionRun(section, configured[..j], start, valid) == Ok(s)
    ensures Coherent(s)
    ensures SectionRun(section, configured[..j + 1], start, valid) == SectionStep(section, configured[j], s, valid)
  {
    assert configured[..j + 1][..j] == configured[..j];
  }

  /** One turn of the loop over the configured chores: a throw ends the
      whole run with a throw, otherwise the run reaches one chore further. */
  lemma RunStep(section: Section, configured: seq<Chore>, start: SectionState, j: int, s: SectionState,
                valid: string -> bool)
    requires Coherent(start) && 0 <= j < |configured|
    requires SectionRun(section, configured[..j], start, valid) == Ok(s)
    ensures Coherent(s)
    ensures var next := SectionStep(section, configured[j], s, valid);
      && (next.Thrown? ==> SectionRun(section, configured, start, valid).Thrown?)
      && (next.Ok? ==> Coherent(next.value) && SectionRun(section, configured[..j + 1], start, valid) == next)
  {
    RunSnoc(section, configured, start, j, s, valid);
    StepCoherent(section, configured[j], s, valid);
    if SectionStep(section, configured[j], s, valid).Thrown? {
      RunThrown(section, configured, start, j + 1, valid);
    }
  }

  /** A run that throws on a prefix of the configured chores throws. */
  lemma {:induction false} RunThrown(section: Section, configured: seq<Chore>, start: SectionState, j: int,
                                     valid: string -> bool)
    requires Coherent(start) && 0 < j <= |configured|
    requires SectionRun(section, configured[..j], start, valid).Thrown?
    ensures SectionRun(section, configured, start, valid).Thrown?
  {
    if j < |configured| {
      var init := configured[..|configured| - 1];
      assert init[..j] == configured[..j];
      RunThrown(section, init, start, j, valid);
    } else {
      assert configured[..j] == configured;
    }
  }

  /** `updatedChores`: each entry resolved to its chore as the pass left it. */
  function Resolve(s: SectionState): (r: seq<Chore>)
    requires Coherent(s)
    ensures |r| == |s.entries|
    ensures forall i :: 0 <= i < |r| ==> r[i].name == EntryName(s.entries[i])
  {
    seq(|s.entries|, i requires 0 <= i < |s.entries| =>
          match s.entries[i]
          case Fresh(c) => c
          case Stored(n) => s.stored[n])
  }

  /** The section's new chore list, the ledger and whether anything
      changed, from the stored chores and the ledger. */
  datatype SectionResult = SectionResult(chores: seq<Chore>, points: Ledger, changed: bool)

  predicate SectionTracked(storedChores: seq<Chore>, ledger: Ledger) {
    AllTracked(ByName(storedChores), ledger)
  }

  function ReconcileSection(section: Section, configured: seq<Chore>, storedChores: seq<Chore>, ledger: Ledger,
                            valid: string -> bool): Outcome<SectionResult>
    requires SectionTracked(storedChores, ledger)
  {
    var start := SectionState(ByName(storedChores), [], ledger, false);
    match SectionRun(section, configured, start, valid)
    case Thrown => Thrown
    case Ok(s) => Ok(SectionResult(Resolve(s), s.points, s.changed))
  }

  /** A section that is empty in the configuration and in the state stays
      empty and moves no points. */
  lemma EmptySection(section: Section, ledger: Ledger, valid: string -> bool)
    ensures SectionTracked([], ledger)
    ensures ReconcileSection(section, [], [], ledger, valid) == Ok(SectionResult([], ledger, false))
  {
    assert ByName([]) == map[];
  }

  /** After the pass a section lists exactly the configured chores, in
      configured order; a stored chore no configured chore names is gone. */
  lemma SectionNames(section: Section, configured: seq<Chore>, storedChores: seq<Chore>, ledger: Ledger,
                     valid: string -> bool)
    requires SectionTracked(storedChores, ledger)
    requires ReconcileSection(section, configured, storedChores, ledger, valid).Ok?
    ensures var r := ReconcileSection(section, configured, storedChores, ledger, valid).value;
      && |r.chores| == |configured|
      && (forall i :: 0 <= i < |configured| ==> r.chores[i].name == configured[i].name)
      && r.points.Keys == ledger.Keys
  {
    RunShape(section, configured, SectionState(ByName(storedChores), [], ledger, false), valid);
  }

  /** Configured names are pairwise distinct. */
  predicate UniqueChoreNames(chores: seq<Chore>) {
    forall i, j :: 0 <= i < j < |chores| ==> chores[i].name != chores[j].name
  }

  /** One turn of the loop: the entry it appends, and the stored chore it
      reconciles. */
  lemma StepShape(section: Section, configured: Chore, s: SectionState, valid: string -> bool)
    requires Coherent(s)
    requires SectionStep(section, configured, s, valid).Ok?
    ensures var r := SectionStep(section, configured, s, valid).value;
      && r.entries == s.entries + [if configured.name in s.stored then Stored(configured.name) else Fresh(NewChore(configured))]
      && (configured.name !in s.stored ==> r.stored == s.stored)
      && (configured.name in s.stored ==>
            && Reconcile(section, configured, s.stored[configured.name], valid).Ok?
            && r.stored == s.stored[configured.name := Reconcile(section, configured, s.stored[configured.name], valid).value.chore])
  {
  }

  /** With distinct configured names each chore of the new list is the
      configured chore with seven empty cells when no stored chore has its
      name, and otherwise the stored chore of its name reconciled once. */
  lemma SectionChores(section: Section, configured: seq<Chore>, storedChores: seq<Chore>,
                      ledger: Ledger, valid: string -> bool)
    requires SectionTracked(storedChores, ledger)
    requires UniqueChoreNames(configured)
    requires ReconcileSection(section, configured, storedChores, ledger, valid).Ok?
    ensures var r := ReconcileSection(section, configured, storedChores, ledger, valid).value;
            var byName := ByName(storedChores);
      && (forall i :: 0 <= i < |configured| && configured[i].name !in byName ==> r.chores[i] == NewChore(configured[i]))
      && (forall i :: 0 <= i < |configured| && configured[i].name in byName ==>
            var once := Reconcile(section, configured[i], byName[configured[i].name], valid);
            once.Ok? && r.chores[i] == once.value.chore)
  {
    var start := SectionState(ByName(storedChores), [], ledger, false);
    var s := SectionRun(section, configured, start, valid).value;
    RunShape(section, configured, start, valid);
    RunEntries(section, configured, start, valid);
    var chores := Resolve(s);
    assert ReconcileSection(section, configured, storedChores, ledger, valid).value.chores == chores;
    forall i | 0 <= i < |configured|
      ensures configured[i].name !in start.stored ==> chores[i] == NewChore(configured[i])
      ensures configured[i].name in start.stored ==>
                var once := Reconcile(section, configured[i], start.stored[configured[i].name], valid);
                once.Ok? && chores[i] == once.value.chore
    {
      var name := configured[i].name;
      if name in start.stored {
        assert s.entries[i] == Stored(name);
        assert chores[i] == s.stored[name];
      } else {
        assert s.entries[i] == Fresh(NewChore(configured[i]));
      }
    }
  }

  /** The entries of a run from an empty list, for distinct names: which
      entry each configured chore left, and what the stored chore of a
      configured name became. */
  lemma {:induction false} RunEntries(section: Section, configured: seq<Chore>, start: SectionState, valid: string -> bool)
    requires Coherent(start) && start.entries == []
    requires UniqueChoreNames(configured)
    requires SectionRun(section, configured, start, valid).Ok?
    ensures var s := SectionRun(section, configured, start, valid).value;
      && (forall i :: 0 <= i < |configured| ==>
            s.entries[i] == if configured[i].name in start.stored then Stored(configured[i].name)
                            else Fresh(NewChore(configured[i])))
      && (forall i :: 0 <= i < |configured| && configured[i].name in start.stored ==>
            Reconcile(section, configured[i], start.stored[configured[i].name], valid).Ok?
            && s.stored[configured[i].name] ==
                 Reconcile(section, configured[i], start.stored[configured[i].name], valid).value.chore)
      && (forall n :: n in start.stored && (forall i :: 0 <= i < |configured| ==> configured[i].name != n) ==>
            s.stored[n] == start.stored[n])
  {
    if |configured| > 0 {
      var init := configured[..|configured| - 1];
      var y := configured[|configured| - 1];
      assert UniqueChoreNames(init);
      RunEntries(section, init, start, valid);
      RunShape(section, init, start, valid);
      var before := SectionRun(section, init, start, valid).value;
      var after := SectionRun(section, configured, start, valid).value;
      assert after == SectionStep(section, y, before, valid).value;
      StepShape(section, y, before, valid);
      forall i | 0 <= i < |init| ensures init[i].name != y.name {
        assert configured[i] == init[i];
      }
      RunEntriesStep(section, configured, start, before, after, valid);
    }
  }

  /** The inductive step of RunEntries, on the states before and after the
      last configured chore. */
  lemma RunEntriesStep(section: Section, configured: seq<Chore>, start: SectionState,
                       before: SectionState, after: SectionState, valid: string -> bool)
    requires |configured| > 0
    requires forall i :: 0 <= i < |configured| - 1 ==> configured[i].name != configured[|configured| - 1].name
    requires var init := configured[..|configured| - 1];
      && |before.entries| == |init|
      && before.stored.Keys == start.stored.Keys
      && (forall i :: 0 <= i < |init| ==>
            before.entries[i] == if init[i].name in start.stored then Stored(init[i].name) else Fresh(NewChore(init[i])))
      && (forall i :: 0 <= i < |init| && init[i].name in start.stored ==>
            Reconcile(section, init[i], start.stored[init[i].name], valid).Ok?
            && before.stored[init[i].name] == Reconcile(section, init[i], start.stored[init[i].name], valid).value.chore)
      && (forall n :: n in start.stored && (forall i :: 0 <= i < |init| ==> init[i].name != n) ==>
            before.stored[n] == start.stored[n])
    requires var y := configured[|configured| - 1];
      && after.entries == before.entries + [if y.name in before.stored then Stored(y.name) else Fresh(NewChore(y))]
      && (y.name !in before.stored ==> after.stored == before.stored)
      && (y.name in before.stored ==>
            && Reconcile(section, y, before.stored[y.name], valid).Ok?
            && after.stored == before.stored[y.name := Reconcile(section, y, before.stored[y.name], valid).value.chore])
    ensures
      && (forall i :: 0 <= i < |configured| ==>
            after.entries[i] == if configured[i].name in start.stored then Stored(configured[i].name)
                                else Fresh(NewChore(configured[i])))
      && (forall i :: 0 <= i < |configured| && configured[i].name in start.stored ==>
            Reconcile(section, configured[i], start.stored[configured[i].name], valid).Ok?
            && after.stored[configured[i].name] ==
                 Reconcile(section, configured[i], start.stored[configured[i].name], valid).value.chore)
      && (forall n :: n in start.stored && (forall i :: 0 <= i < |configured| ==> configured[i].name != n) ==>
            after.stored[n] == start.stored[n])
  {
    var init := configured[..|configured| - 1];
    var y := configured[|configured| - 1];
    if y.name in start.stored {
      assert forall i :: 0 <= i < |init| ==> init[i].name != y.name;
      assert before.stored[y.name] == start.stored[y.name];
    }
    forall i | 0 <= i < |configured| - 1 ensures configured[i] == init[i] {
    }
  }

  /** What the points check of one configured chore adds to a user's
      total: when the stored chore of its name has other points, the
      difference once per cell the user holds in it. */
  function ChoreGain(configured: Chore, stored: map<string, Chore>, user: string): int {
    if user != "" && configured.name in stored && configured.points != stored[configured.name].points
       && stored[configured.name].selections.Some?
    then (OrZero(configured.points) - OrZero(stored[configured.name].points))
         * CountOf(stored[configured.name].selections.value, user)
    else 0
  }

  /** What the points checks of a section's configured chores add to a
      user's total. */
  function SectionGain(configured: seq<Chore>, stored: map<string, Chore>, user: string): int {
    if |configured| == 0 then 0
    else SectionGain(configured[..|configured| - 1], stored, user) + ChoreGain(configured[|configured| - 1], stored, user)
  }

  /** Nobody holds a cell under the empty name, so its total never moves. */
  lemma {:induction false} AddToHoldersKeepsEmpty(ledger: Ledger, slots: seq<Slot>, delta: int)
    requires Tracked(slots, ledger) && "" in ledger
    ensures AddToHolders(ledger, slots, delta)[""] == ledger[""]
  {
    if |slots| > 0 {
      var next := if Occupied(slots[0]) then ledger[slots[0].value := ledger[slots[0].value] + delta] else ledger;
      AddToHoldersKeepsEmpty(next, slots[1..], delta);
    }
  }

  /** One turn of the loop moves each total by the configured chore's
      gain, reckoned on the stored chore of its name as it was before the
      pass. */
  lemma GainStep(section: Section, configured: Chore, before: SectionState, stored: map<string, Chore>,
                 valid: string -> bool, user: string)
    requires Coherent(before)
    requires SectionStep(section, configured, before, valid).Ok?
    requires before.stored.Keys == stored.Keys
    requires configured.name in stored ==> before.stored[configured.name] == stored[configured.name]
    requires user in before.points
    ensures SectionStep(section, configured, before, valid).value.points[user]
              == before.points[user] + ChoreGain(configured, stored, user)
  {
    if configured.name in stored {
      var chore := stored[configured.name];
      if configured.points != chore.points && chore.selections.Some? {
        var delta := OrZero(configured.points) - OrZero(chore.points);
        assert Tracked(chore.selections.value, before.points);
        if user != "" {
          AddToHoldersEffect(before.points, chore.selections.value, delta, user);
        } else {
          AddToHoldersKeepsEmpty(before.points, chore.selections.value, delta);
        }
      }
    }
  }

  /** A run from an empty list, for distinct names, moves each total by
      the section's gain for that user. */
  lemma {:induction false} RunLedger(section: Section, configured: seq<Chore>, start: SectionState, valid: string -> bool,
                                     user: string)
    requires Coherent(start) && start.entries == []
    requires UniqueChoreNames(configured)
    requires SectionRun(section, configured, start, valid).Ok?
    requires user in start.points
    ensures SectionRun(section, configured, start, valid).value.points[user]
              == start.points[user] + SectionGain(configured, start.stored, user)
  {
    if |configured| > 0 {
      var init := configured[..|configured| - 1];
      var y := configured[|configured| - 1];
      assert UniqueChoreNames(init);
      RunLedger(section, init, start, valid, user);
      var before := SectionRun(section, init, start, valid).value;
      if y.name in start.stored {
        assert before.stored[y.name] == start.stored[y.name] by {
          forall i | 0 <= i < |init| ensures init[i].name != y.name {
            assert configured[i] == init[i];
          }
          RunEntries(section, init, start, valid);
        }
      }
      GainStep(section, y, before, start.stored, valid, user);
      assert SectionRun(section, configured, start, valid) == SectionStep(section, y, before, valid);
    }
  }

  /** With distinct configured names, the pass over a section moves each
      user's total by the points difference of every stored chore whose
      points changed, once per cell the user holds in it, and moves nothing
      else. */
  lemma SectionLedger(section: Section, configured: seq<Chore>, storedChores: seq<Chore>, ledger: Ledger,
                      valid: string -> bool)
    requires SectionTracked(storedChores, ledger)
    requires UniqueChoreNames(configured)
    requires ReconcileSection(section, configured, storedChores, ledger, valid).Ok?
    ensures var r := ReconcileSection(section, configured, storedChores, ledger, valid).value;
      && r.points.Keys == ledger.Keys
      && forall u :: u in ledger ==> r.points[u] == ledger[u] + SectionGain(configured, ByName(storedChores), u)
  {
    var start := SectionState(ByName(storedChores), [], ledger, false);
    RunShape(section, configured, start, valid);
    forall u | u in ledger
      ensures SectionRun(section, configured, start, valid).value.points[u]
                == ledger[u] + SectionGain(configured, ByName(storedChores), u)
    {
      RunLedger(section, configured, start, valid, u);
    }
  }

  /** The holders stay tracked by a ledger with the same names. */
  lemma TrackedByKeys(chores: seq<Chore>, ledger: Ledger, other: Ledger)
    requires SectionTracked(chores, ledger) && other.Keys == ledger.Keys
    ensures SectionTracked(chores, other)
  {
    var byName := ByName(chores);
    forall n | n in byName && byName[n].selections.Some?
      ensures Tracked(byName[n].selections.value, other)
    {
      var slots := byName[n].selections.value;
      forall i | 0 <= i < |slots| && Occupied(slots[i]) ensures slots[i].value in other {
        assert slots[i].value in ledger;
      }
    }
  }

  /** The result of the whole pass: the new chore lists, the loaded
      state's ledger and `choresChanged`. */
  datatype ChoresResult = ChoresResult(data: ChoreData, points: Ledger, changed: bool)

  predicate DataTracked(data: ChoreData, ledger: Ledger) {
    SectionTracked(data.daily, ledger) && SectionTracked(data.weekly, ledger) && SectionTracked(data.monthly, ledger)
  }

  /** The three sections in order, daily, weekly, monthly, each with the
      ledger the previous one left; a thrown error ends the pass. */
  function ReconcileChores(configured: ChoreData, stored: ChoreData, ledger: Ledger, valid: string -> bool): (r: Outcome<ChoresResult>)
    requires DataTracked(stored, ledger)
  {
    match ReconcileSection(Daily, configured.daily, stored.daily, ledger, valid)
    case Thrown => Thrown
    case Ok(daily) =>
      SectionNames(Daily, configured.daily, stored.daily, ledger, valid);
      TrackedByKeys(stored.weekly, ledger, daily.points);
      TrackedByKeys(stored.monthly, ledger, daily.points);
      match ReconcileSection(Weekly, configured.weekly, stored.weekly, daily.points, valid)
      case Thrown => Thrown
      case Ok(weekly) =>
        SectionNames(Weekly, configured.weekly, stored.weekly, daily.points, valid);
        TrackedByKeys(stored.monthly, daily.points, weekly.points);
        match ReconcileSection(Monthly, configured.monthly, stored.monthly, weekly.points, valid)
        case Thrown => Thrown
        case Ok(monthly) =>
          Ok(ChoresResult(ChoreData(daily.chores, weekly.chores, monthly.chores), monthly.points,
                          daily.changed || weekly.changed || monthly.changed))
  }

  /** With distinct configured names in every section, the whole pass
      moves each user's total by the gains of the three sections: the
      points difference of every stored chore whose points changed, once
      per cell the user holds in it. */
  lemma ChoresLedger(configured: ChoreData, stored: ChoreData, ledger: Ledger, valid: string -> bool)
    requires DataTracked(stored, ledger)
    requires UniqueChoreNames(configured.daily) && UniqueChoreNames(configured.weekly)
    requires UniqueChoreNames(configured.monthly)
    requires ReconcileChores(configured, stored, ledger, valid).Ok?
    ensures var r := ReconcileChores(configured, stored, ledger, valid).value;
      && r.points.Keys == ledger.Keys
      && forall u :: u in ledger ==>
           r.points[u] == ledger[u] + SectionGain(configured.daily, ByName(stored.daily), u)
                                    + SectionGain(configured.weekly, ByName(stored.weekly), u)
                                    + SectionGain(configured.monthly, ByName(stored.monthly), u)
  {
    var daily := ReconcileSection(Daily, configured.daily, stored.daily, ledger, valid).value;
    SectionLedger(Daily, configured.daily, stored.daily, ledger, valid);
    TrackedByKeys(stored.weekly, ledger, daily.points);
    TrackedByKeys(stored.monthly, ledger, daily.points);
    var weekly := ReconcileSection(Weekly, configured.weekly, stored.weekly, daily.points, valid).value;
    SectionLedger(Weekly, configured.weekly, stored.weekly, daily.points, valid);
    TrackedByKeys(stored.monthly, daily.points, weekly.points);
    SectionLedger(Monthly, configured.monthly, stored.monthly, weekly.points, valid);
  }

  /** After the pass every section lists exactly its configured chores, in
      configured order, and the ledger tracks the same users. */
  lemma ChoresNames(configured: ChoreData, stored: ChoreData, ledger: Ledger, valid: string -> bool)
    requires DataTracked(stored, ledger)
    requires ReconcileChores(configured, stored, ledger, valid).Ok?
    ensures var r := ReconcileChores(configured, stored, ledger, valid).value;
      && r.points.Keys == ledger.Keys
      && forall s :: |r.data.Get(s)| == |configured.Get(s)|
                     && forall i :: 0 <= i < |configured.Get(s)| ==> r.data.Get(s)[i].name == configured.Get(s)[i].name
  {
    var daily := ReconcileSection(Daily, configured.daily, stored.daily, ledger, valid).value;
    SectionNames(Daily, configured.daily, stored.daily, ledger, valid);
    TrackedByKeys(stored.weekly, ledger, daily.points);
    TrackedByKeys(stored.monthly, ledger, daily.points);
    var weekly := ReconcileSection(Weekly, configured.weekly, stored.weekly, daily.points, valid).value;
    SectionNames(Weekly, configured.weekly, stored.weekly, daily.points, valid);
    TrackedByKeys(stored.monthly, daily.points, weekly.points);
    SectionNames(Monthly, configured.monthly, stored.monthly, weekly.points, valid);
  }
}
