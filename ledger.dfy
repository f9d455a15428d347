/** The points ledger behind `handleDropdownChange`: picking a user in a
    chore's day cell moves the cell, and the chore's points, from the
    previous holder to the new one. */
module Ledger {
  import opened Js
  import opened Model

  function Max0(x: int): int {
    if x < 0 then 0 else x
  }

  /** The ledger after the cell held by `previous` is given to `selected`:
      a tracked previous holder loses the points, floored at 0, and a
      non-empty new holder gains them, an untracked one from 0. */
  function Reassign(userPoints: Ledger, previous: Slot, selected: string, points: int): Ledger
    requires previous != Some(selected)
  {
    var afterLoss :=
      if Occupied(previous) && previous.value in userPoints
      then userPoints[previous.value := Max0(userPoints[previous.value] - points)]
      else userPoints;
    if selected != "" then
      afterLoss[selected := (if selected in afterLoss then afterLoss[selected] else 0) + points]
    else afterLoss
  }

  /** The effect of a reassignment user by user: only the two holders'
      totals move, the previous one down by the points but not below 0,
      the new one up by the points; the new holder becomes tracked. */
  lemma ReassignEffect(userPoints: Ledger, previous: Slot, selected: string, points: int)
    requires previous != Some(selected)
    ensures var r := Reassign(userPoints, previous, selected, points);
      && r.Keys == userPoints.Keys + (if selected != "" then {selected} else {})
      && (Occupied(previous) && previous.value in userPoints ==>
            r[previous.value] == Max0(userPoints[previous.value] - points))
      && (selected != "" ==>
            r[selected] == (if selected in userPoints then userPoints[selected] else 0) + points)
      && (forall u :: u in userPoints && u != selected && (previous != Some(u) || !Occupied(previous)) ==>
            r[u] == userPoints[u])
  {
  }

  /** Giving a cell to someone and straight back restores the ledger when
      the floor at 0 never applies. */
  lemma {:induction false} ReassignBack(userPoints: Ledger, a: string, b: string, points: int)
    requires a != "" && b != "" && a != b
    requires a in userPoints && b in userPoints
    requires 0 <= points <= userPoints[a] && userPoints[b] >= 0
    ensures Reassign(Reassign(userPoints, Some(a), b, points), Some(b), a, points) == userPoints
  {
    var once := Reassign(userPoints, Some(a), b, points);
    assert once == userPoints[a := userPoints[a] - points][b := userPoints[b] + points];
    var twice := Reassign(once, Some(b), a, points);
    assert twice == once[b := userPoints[b]][a := userPoints[a]];
  }

  /** What `handleDropdownChange` does to the card's `data` and `userPoints`
      when the user picks `selectedValue` ("" for "--") in the cell of
      `dayIndex` of row `rowIndex` of `section`. A row that does not exist
      leaves both alone; a row without selections gets seven empty slots
      first, even when the pick changes nothing else. */
  function DropdownChange(data: ChoreData, userPoints: Ledger, section: Section, rowIndex: int,
                          dayIndex: int, selectedValue: string): (ChoreData, Ledger)
    requires 0 <= dayIndex < 7
    requires 0 <= rowIndex < |data.Get(section)| && data.Get(section)[rowIndex].selections.Some? ==>
               |data.Get(section)[rowIndex].selections.value| == 7
  {
    var chores := data.Get(section);
    if !(0 <= rowIndex < |chores|) then (data, userPoints)
    else
      var chore := chores[rowIndex];
      var points := OrZero(chore.points);
      var selections := if chore.selections.Some? then chore.selections.value else NoSelections;
      var previousValue := selections[dayIndex];
      if previousValue == Some(selectedValue) then
        (data.With(section, chores[rowIndex := chore.(selections := Some(selections))]), userPoints)
      else
        var updated := chore.(selections := Some(selections[dayIndex := Some(selectedValue)]));
        (data.With(section, chores[rowIndex := updated]),
         Reassign(userPoints, previousValue, selectedValue, points))
  }

  /** The pick moves the cell: the row exists and the cell holds
      something else. */
  predicate Moves(data: ChoreData, section: Section, rowIndex: int, dayIndex: int, selectedValue: string)
    requires 0 <= dayIndex < 7
    requires 0 <= rowIndex < |data.Get(section)| && data.Get(section)[rowIndex].selections.Some? ==>
               |data.Get(section)[rowIndex].selections.value| == 7
  {
    && 0 <= rowIndex < |data.Get(section)|
    && var chore := data.Get(section)[rowIndex];
       var selections := if chore.selections.Some? then chore.selections.value else NoSelections;
       selections[dayIndex] != Some(selectedValue)
  }

  /** Exactly the picked cell changes, and the ledger follows the cell. */
  lemma {:induction false} DropdownChangeEffect(data: ChoreData, userPoints: Ledger, section: Section,
                                                rowIndex: int, dayIndex: int, selectedValue: string)
    requires 0 <= dayIndex < 7
    requires 0 <= rowIndex < |data.Get(section)|
    requires data.Get(section)[rowIndex].selections.Some? ==> |data.Get(section)[rowIndex].selections.value| == 7
    ensures var (d, p) := DropdownChange(data, userPoints, section, rowIndex, dayIndex, selectedValue);
            var chore := data.Get(section)[rowIndex];
            var before := if chore.selections.Some? then chore.selections.value else NoSelections;
      // every other section and row, and every other field of the row, stay as they were
      && (forall s :: s != section ==> d.Get(s) == data.Get(s))
      && |d.Get(section)| == |data.Get(section)|
      && (forall i :: 0 <= i < |data.Get(section)| && i != rowIndex ==> d.Get(section)[i] == data.Get(section)[i])
      && d.Get(section)[rowIndex] == chore.(selections := d.Get(section)[rowIndex].selections)
      // the picked cell holds the pick, every other cell keeps its holder
      && d.Get(section)[rowIndex].selections == Some(before[dayIndex := Some(selectedValue)])
      // a pick equal to the holder changes no points
      && (before[dayIndex] == Some(selectedValue) ==> p == userPoints)
      && (before[dayIndex] != Some(selectedValue) ==>
            p == Reassign(userPoints, before[dayIndex], selectedValue, OrZero(chore.points)))
  {
    var chore := data.Get(section)[rowIndex];
    var before := if chore.selections.Some? then chore.selections.value else NoSelections;
    if before[dayIndex] == Some(selectedValue) {
      assert before[dayIndex := Some(selectedValue)] == before;
    }
  }
}
