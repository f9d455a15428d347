# chore-card state engine in Dafny

The chore card is a Home Assistant Lovelace card. It shows a weekly grid of
chores in three sections: daily, weekly and monthly. Each chore row has seven
day cells, and each cell can be given to a household user. Giving a cell to a
user moves the chore's points to that user. The card keeps its state in a Home
Assistant sensor. On load, that state is merged with the YAML configuration.
Once a week, on the configured first day of the week, the card clears every
cell and every total.

This project models the card's in-memory state engine (class `ChoreCard`) and
proves properties of it. There are three versions of the class:

- `dist/chore-card.js`;
- `custom_components/chore_card/frontend/chore-card.js`;
- the older `custom_components/www/chore-card/chore-card.js`.

The two current builds are one Dafny class, `Card.ChoreCard`. Its `build`
field is `Dist` or `Frontend`, and it is consulted where the two builds
differ: how they save, load, reset and update users. The older variant is
`Legacy.LegacyCard`.

Modules, following the program's structure:

- `Js`: JavaScript values (`undefined`, `null`, booleans, integers, strings), truthiness, `trim`, `split`, `join`, `toLowerCase` on ASCII, `indexOf`.
- `Model`: chores, sections, users, the points ledger and the seven display options.
- `Days`: `normalizeDayName`, `getDayIndex`, `getOrderedDayIndexes`, and the older variant's strict versions and header rotation.
- `Calendar`: `getCurrentWeekOfMonth`, over day numbers.
- `Cells`: the disable rules of the weekly and monthly grids, and the monthly highlight.
- `Options`, `Users`, `Chores`: the three reconcilers `checkAndUpdateOptions`, `checkAndUpdateUsers` and `checkAndUpdateChores`.
- `Ledger`: the points bookkeeping of `handleDropdownChange`.
- `Persist`: the `dist` build's joining and splitting of weekly `day` lists, and the snapshots both builds send.
- `Reset`: when the weekly reset is due, and what it clears.
- `Card`: the state object (`SavedState`), the card (`ChoreCard`), loading, saving, the reset and the dropdown.
- `Legacy`: the older www variant.

Behaviour of the source that the proofs bring out:

- `dist` save always drops the current-day colours. The `dist` save reads
  `this.current_day_background_color` and `this.current_day_font_color`.
  Nothing ever sets those fields, so the saved state never holds the two
  current-day colours. A `dist` card that falls back to its default state
  and saves it successfully therefore sees a change whenever either colour
  is configured, and saves a second time (`Card.DefaultSaveForcesResave`).
- The `dist` default save needs a configured `weekly` list. The save maps
  `this.data.weekly` inside its own `try`; a configuration without weekly
  chores leaves the card's data without the list, so the default save
  throws, is caught and sends nothing, and the load goes on from the unsaved
  default state, colours and all (`Card.UnlistedWeeklyKeepsDefault`).
- The once-a-day reset guard does not survive a reload. Neither loader
  copies the stored `lastReset` into the card, which starts from `null`, so
  reloading the page on the first day of the week resets again
  (`Reset.ReloadResetsAgain`).
- Chore point changes miss the card's ledger. A change of a chore's points
  moves the difference in the loaded state's ledger only. The card's own
  `userPoints` took its copy earlier, in the users pass, so the two ledgers
  part ways (`Card.ChorePointsMissCardLedger`, a worked example).
- An invalid monthly highlight colour is re-detected on every load. It is
  stored as "transparent", so each load detects it again and saves again
  (`Chores.InvalidHighlightRedetected`).
- The frontend build records the reset date even when the reset failed. It
  sets `lastReset` to today after `resetWeeklyChores` even when the service
  call inside it failed and nothing was reset (`Card.ChoreCard.CheckForReset`).

## Model

| member | source | states |
|---|---|---|
| Js.SplitJoin | dist/chore-card.js:281-284 | splitting a ", "-joined list of comma-free items on "," gives one piece per item: the first item, then each later item with one leading space |
| Js.TrimLeadingSpace | dist/chore-card.js:283 | trimming an item that got one leading space from the join gives back the trimmed item |
| Js.IndexOf | dist/chore-card.js:759-761 | `indexOf` is -1 exactly when the value is absent, else the first position holding it |
| Days.NormalizeDayName | dist/chore-card.js:707-737 | the result is a short day name, and it is defined exactly for a string whose lower case is one of the fourteen own keys of `dayMap` |
| Days.NormalizeAcceptsDayNames | dist/chore-card.js:713-730 | every short and every long day name, in any letter case, normalises to its short name |
| Days.NormalizeNamesDay | dist/chore-card.js:707-737 | a string normalises to the short name of day k exactly when it is, in some letter case, day k's short or long name |
| Days.NormalizeIdempotent | dist/chore-card.js:713-736 | normalising an already normalised day name changes nothing |
| Days.NormalizeAsWrittenLeaksInheritedKey | dist/chore-card.js:730-731 | the lookup as written returns the inherited `constructor` member for "Constructor", where the corrected lookup returns `undefined` |
| Days.NormalizeAsWrittenAgreesElsewhere | dist/chore-card.js:730-736 | away from the two inherited lower-case keys, the lookup as written and the corrected one agree |
| Days.GetDayIndex | dist/chore-card.js:775-801 | `getDayIndex` is -1 or a day number 0 to 6 |
| Days.DayIndexMatchesNormalize | custom_components/chore_card/frontend/chore-card.js:740-766 | `getDayIndex` is -1 exactly where `normalizeDayName` is undefined, and otherwise points at the short name `normalizeDayName` returns |
| Days.ExactStartIndex | dist/chore-card.js:758-761 | the start is -1 exactly for a value that is not an exact-case short or long name, else the position of that name |
| Days.OrderedDayIndexes | dist/chore-card.js:745-773 | `getOrderedDayIndexes` is `null` exactly when the start index is -1, else the rotation from that start |
| Days.RotationIsPermutation | dist/chore-card.js:769-771 | the ordered indexes start at the first day, list each of the seven days exactly once, and step to the next day each time |
| Days.StrictAgreesWithLenient | custom_components/www/chore-card/chore-card.js:58-82 | the older variant's `normalizeDayName` accepts exactly the names the current builds accept, with the same short name, and throws where they return `undefined` |
| Days.GetDayIndexExact | custom_components/www/chore-card/chore-card.js:162-165 | the older `getDayIndex` is a day number exactly for an exact-case short name, and that name is the one at the returned position |
| Days.StrictResultHasIndex | custom_components/www/chore-card/chore-card.js:58-82 | every name the older `normalizeDayName` returns has a day number 0 to 6 under the older `getDayIndex` |
| Days.HeaderOrder | custom_components/www/chore-card/chore-card.js:204-215 | the header is the "Invalid Week Start" error exactly when the first day has no exact index; otherwise it has seven days |
| Days.SliceRotation | custom_components/www/chore-card/chore-card.js:211-214 | `slice(start)` followed by `slice(0, start)` lists the days in the order of the rotation from `start` |
| Days.HeaderOrderMatchesOrderedIndexes | custom_components/www/chore-card/chore-card.js:204-215 | the older header shows, column by column, the days that the current `getOrderedDayIndexes` lists for the same first day |
| Calendar.SameWeekdayWithinAWeek | dist/chore-card.js:1160-1175 | two days less than a week apart fall on the same week day only when they are the same day |
| Calendar.SameWeekdayWholeWeeks | dist/chore-card.js:1177-1183 | two days on the same week day are a whole number of weeks apart |
| Calendar.MostRecent | dist/chore-card.js:1160-1164 | the latest day on or before today that falls on the week day |
| Calendar.FirstOnOrAfter | dist/chore-card.js:1166-1175 | the earliest day on or after the first of the month that falls on the week day |
| Calendar.WeekOfMonth | dist/chore-card.js:1177-1183 | the week number is 1 to 5, and the anchor day lies that many whole weeks after the month's first such week day |
| Calendar.FirstDayIndex | dist/chore-card.js:1151-1153 | the day weeks are counted from is -1 or a day number 0 to 6 |
| Calendar.UnsetFirstDayIsMonday | dist/chore-card.js:1151 | an unset or empty first day counts weeks from Monday |
| Calendar.GetCurrentWeekOfMonth | dist/chore-card.js:1149-1184 | the two stepping loops return `null` exactly for an unrecognised first day, and otherwise the week of the month of today |
| Cells.ValidIndexes | dist/chore-card.js:1017-1025 | the listed days of a weekly chore give exactly the valid day numbers some entry names |
| Cells.WeeklyRule | dist/chore-card.js:1040-1058 | a taken weekly cell is open. With listed days, an empty cell is disabled exactly when no listed day names it. Without listed days, an empty cell is disabled exactly when some cell of the row is taken |
| Cells.Highlight | dist/chore-card.js:1077-1084 | a monthly row is highlighted (with its colour, or "transparent") only in the configured week, and is "transparent" otherwise |
| Cells.OccupiedCountUpdate | dist/chore-card.js:1092-1093 | taking one slot changes the taken count by what the old slot and the new slot contribute |
| Cells.MonthlyClaimKeepsLimit | dist/chore-card.js:1091-1098 | claiming an open empty monthly cell never takes the row past `max_days`, and happens only in the configured week |
| Cells.WeeklyAnyDayHoldsOne | dist/chore-card.js:1048-1057 | in a weekly row without listed days, claiming an open empty cell leaves exactly one taken cell |
| Cells.TakenCellsStayOpen | dist/chore-card.js:1040-1058 | a cell that holds a user is never disabled, in either section |
| Options.DayVal | dist/chore-card.js:446-447 | a normalised day is `undefined` exactly when it was not recognised |
| Options.ResolvedValues | dist/chore-card.js:440-468 | a resolved option is a short day name, `undefined` or "Mon" for the first day; a colour the browser accepts or the option's fallback; otherwise the configured value, or the stored one when it is not configured |
| Options.OptionsPassEffect | dist/chore-card.js:411-496 | an option is written to the state exactly when its resolved value is defined and differs; the card takes every defined resolved value; other options stay; the pass reports a change exactly when some option changed |
| Options.OptionsPassStored | dist/chore-card.js:411-496 | after the pass, a configured option holds its resolved value exactly when it changes, and every other option keeps its stored value |
| Options.OptionsPassCard | dist/chore-card.js:411-496 | after the pass, the card holds every defined resolved value and keeps its own value elsewhere |
| Options.OptionsPassChanged | dist/chore-card.js:411-496 | the pass reports a change exactly when some option changes |
| Options.StoredDayStable | dist/chore-card.js:445-448 | a first day, once resolved and stored, resolves and compares to itself |
| Options.OptionSettles | dist/chore-card.js:471-475 | an option reconciled twice with the same configuration changes at most the first time |
| Options.SecondPassUnchanged | dist/chore-card.js:411-496 | running `checkAndUpdateOptions` again with the same configuration, on the state the first run left, reports no change |
| Users.NameSet | dist/chore-card.js:503-504 | the names of a list are exactly the names of its records |
| Users.RemoveUsersEffect | dist/chore-card.js:509-529 | the removal keeps exactly the stored users whose names are configured, in order; it deletes the removed users' points and nothing else; it sets their cells to `null` and leaves every other cell; it reports a change exactly when someone was removed |
| Users.ClearNamesAgain | dist/chore-card.js:517-525 | clearing one more name's cells after others equals clearing all of them at once |
| Users.DropStep | dist/chore-card.js:509-529 | one turn of the backward removal loop keeps the loop state: a kept suffix, the removed names' points deleted, their cells cleared |
| Users.AddPassShape | dist/chore-card.js:532-561 | with unique names, the configured-users loop keeps the surviving stored users in order with their configured validated colours, then appends the new users in configuration order. New users get 0 points and no other total moves. It reports a change exactly when a user was added or recoloured, or the removal changed something |
| Users.MatchedUpdate | custom_components/chore_card/frontend/chore-card.js:508-525 | both builds give the one record of a configured name its configured colours, and report a change exactly when the colours differ |
| Users.BuildsAgree | custom_components/chore_card/frontend/chore-card.js:488-526 | with unique names, the `dist` in-place update and the frontend replace-at-index give the same users, ledger and change flag |
| Users.FrontendUpdateInPlace | custom_components/chore_card/frontend/chore-card.js:519-523 | the frontend's replacement keeps the list's length and every name in place, and leaves the ledger alone |
| Users.ArrivalNames | dist/chore-card.js:543-551 | the appended users are exactly the configured names without a stored record |
| Users.PassNames | dist/chore-card.js:498-573 | with unique names, after removal and the configured-users loop the state lists exactly the configured names |
| Chores.NormalizeDays | dist/chore-card.js:628-637 | normalised weekly days: one per comma piece of a string, one per entry of a list (a `null` entry throws), none when absent; each entry is the short name of day k exactly when its trimmed piece or item names day k in some letter case, and `undefined` when it names no day |
| Chores.SameDaysInOtherWords | dist/chore-card.js:626-640 | days configured as day names in any case and form, joined by ", " (such as "Monday, wed"), do not count as a days change against the stored short names of the same days in the same order (`["Mon", "Wed"]`), so the picks stay |
| Chores.AddToHoldersEffect | dist/chore-card.js:616-621 | each holder's total moves by the difference once per cell held, and nobody else's moves |
| Chores.Reconcile | dist/chore-card.js:605-694 | a reconciled stored chore keeps its name and `day`, and its picks either stay or become seven empty cells |
| Chores.ReconcileSelections | dist/chore-card.js:638-671 | the picks are cleared exactly when the weekly days change, the monthly week changes or `max_days` goes down; a higher `max_days` or a new highlight colour keeps them |
| Chores.ReconcileFields | dist/chore-card.js:611-694 | the fields a stored chore takes from the configuration, and that it counts as updated exactly when some checked field differs |
| Chores.ReconcileThrows | dist/chore-card.js:634-685 | the reconciliation throws exactly on a `null` entry in a weekly days list, or on a changed monthly highlight colour when the configured chore, or the stored chore after the week check, has no `week_of_month` |
| Chores.ReconcileSettles | dist/chore-card.js:605-694 | a stored chore reconciled again with the same configured chore is unchanged and not updated, unless its monthly highlight colour is invalid |
| Chores.InvalidHighlightRedetected | dist/chore-card.js:672-687 | an invalid highlight colour is stored as "transparent", so every later pass finds it changed and reports an update |
| Chores.NewWeeklyChoreReset | dist/chore-card.js:607-609 | a new weekly chore keeps its days as a string, so the next pass finds them changed and clears whatever was picked since |
| Chores.ByName | dist/chore-card.js:598-600 | the lookup map has exactly the stored names, each mapped to a stored chore of that name |
| Chores.SectionNames | dist/chore-card.js:590-701 | after the pass a section lists exactly the configured chores, in configured order; stored chores nobody configures are gone |
| Chores.SectionChores | dist/chore-card.js:604-695 | with distinct configured names, each new entry is either the configured chore with seven empty cells or the stored chore of that name reconciled once |
| Chores.RunThrown | dist/chore-card.js:604-695 | a pass that throws on some prefix of the configured chores throws |
| Chores.ChoresNames | dist/chore-card.js:575-705 | after `checkAndUpdateChores`, every section lists exactly its configured chores, in order, and the ledger tracks the same users |
| Chores.SectionLedger | dist/chore-card.js:604-621 | with distinct configured names, the pass over a section moves each user's total by the points difference of every stored chore whose points changed, once per cell the user holds in it, and keeps the ledger's names |
| Chores.ChoresLedger | dist/chore-card.js:575-705 | with distinct configured names in each section, the whole pass moves each user's total by the sum of the three sections' gains, and nobody else's |
| Ledger.ReassignEffect | dist/chore-card.js:1249-1261 | only the two holders' totals move: the previous holder down by the points but not below 0, the new holder up by the points; the new holder becomes tracked |
| Ledger.ReassignBack | dist/chore-card.js:1246-1261 | giving a cell to someone and straight back restores the ledger when the floor at 0 never applies |
| Ledger.DropdownChangeEffect | dist/chore-card.js:1216-1270 | exactly the picked cell changes, to the picked value; the ledger follows the cell; a missing row or an unchanged pick moves nothing |
| Persist.JoinDay | dist/chore-card.js:346 | the payload never holds a `day` list; a list of non-empty, comma-free, trimmed names is read back by the split as the same list; anything that is not a list is sent as it is |
| Persist.SplitDay | dist/chore-card.js:283 | a `day` string is split on "," and trimmed; an empty or absent one gives an empty list; a list throws |
| Persist.DayRoundTrip | dist/chore-card.js:281-284 | splitting the ", "-joined text of non-empty, comma-free, trimmed day names gives the names back |
| Persist.LoadData | dist/chore-card.js:281-284 | loading throws exactly when a weekly `day` is already a list; otherwise only the weekly `day` fields change, each to a list of trimmed names, and the daily and monthly chores stay |
| Persist.DataRoundTrip | dist/chore-card.js:342-347 | saving then loading the chore data gives it back when every weekly `day` is a list of storable names |
| Reset.ResetEffect | dist/chore-card.js:846-860 | after a reset every chore of every section has seven empty cells and is otherwise untouched, and every tracked user has 0 points, with nobody added or removed |
| Reset.ResetIdempotent | dist/chore-card.js:846-860 | resetting twice leaves what resetting once leaves, in both variants |
| Reset.ClearWeeklyEffect | custom_components/www/chore-card/chore-card.js:100-108 | the older reset clears only the weekly cells and leaves daily, monthly and a missing weekly section alone |
| Reset.ResetOncePerDay | dist/chore-card.js:810-817 | once `lastReset` holds today's date, no further reset is due that day |
| Reset.ReloadResetsAgain | dist/chore-card.js:805-817 | on the first day of the week the reset that today's `lastReset` blocks is due again from the `null` a reloaded card starts with |
| Reset.ResetDueOnFirstDay | dist/chore-card.js:803-810 | a reset is due only on the configured first day of the week |
| Card.NormalizedWeekly | dist/chore-card.js:218-232 | making the default state throws exactly when a weekly chore's days are a list with a `null` entry; otherwise each weekly chore keeps every field but `days`, which becomes the list `Chores.NormalizeDays` gives for it: entry by entry, the short name of the day the piece names, or `undefined` |
| Card.SavedState.DropUsers | dist/chore-card.js:509-529 | the backward removal loop leaves the state object as `Users.RemoveUsers` describes, and leaves the options, `lastReset` and archive alone |
| Card.SavedState.MergeUsers | dist/chore-card.js:532-561 | the loop over the configured users leaves the state's users, ledger and flag as `Users.AddPass` describes |
| Card.RunSection | dist/chore-card.js:604-695 | the loop over one section's configured chores gives the result of `Chores.SectionRun` |
| Card.SaveSent | dist/chore-card.js:330-409 | the `dist` build sends its snapshot exactly when it has a token and a last saved state; the frontend build sends exactly when it has `hass` and the sensor holds something else |
| Card.FrontendSaveSettles | custom_components/chore_card/frontend/chore-card.js:326-349 | once the sensor holds what the frontend sent, saving the same card again sends nothing |
| Card.MovePoints | dist/chore-card.js:1249-1261 | the ledger arithmetic of a pick equals `Ledger.Reassign` |
| Card.ClearSection | dist/chore-card.js:850-852 | the loop gives every chore of the list seven empty cells |
| Card.ZeroAll | dist/chore-card.js:858-860 | the loop over the ledger's keys sets every total to 0 |
| Card.DefaultKeepsCells | dist/chore-card.js:214-232 | normalising the default state's weekly days, and joining the weekly `day` lists, keep a configuration without picks without picks |
| Card.DistStart | dist/chore-card.js:254-312 | the state reconciled is the parsed sensor state when there is one. Otherwise the card takes the default options, users and chores, and the state is the default state. When the configuration lists weekly chores and the default save succeeds, it is the payload sent instead. Every holder stays tracked |
| Card.UsersKeepTracked | dist/chore-card.js:498-573 | after the users pass every holder of a cell is still in the state's ledger |
| Card.Merged | dist/chore-card.js:314-317 | the three reconcilers in turn. The card takes the users and a ledger copy only when the users pass changed something or the card had no users. The load reports a change when any pass did |
| Card.MergedNames | dist/chore-card.js:314-317 | after loading, the state lists the configured users by name (given unique names) and each section lists exactly its configured chores |
| Card.MergedOptionsSettle | dist/chore-card.js:411-496 | loading again with the same configuration finds every option as the first load left it |
| Card.MissingColourForcesChange | dist/chore-card.js:461-475 | a colour option that the state lacks and the configuration sets is always written, so the load reports a change |
| Card.DistPayloadLoadsBack | dist/chore-card.js:350-364 | the `dist` build reads its own payload back as the state it saved: the weekly `day` lists of storable names come back as they were, the ledger, users and archive are kept, and only the two current-day colours are missing |
| Card.FreshSensorStartsDefault | dist/chore-card.js:280-296 | attributes whose `data` has no `weekly` list, as the integration's new sensor has, make the load throw and start from the default state exactly as when nothing was fetched |
| Card.DefaultSaveDropsColours | dist/chore-card.js:361-362 | a default state saved successfully comes back without the two current-day colours |
| Card.DefaultSaveForcesResave | dist/chore-card.js:295-325 | a `dist` card that falls back to the default state and saves it, which takes a configured `weekly` list, reports a change and saves again whenever a current-day colour is configured |
| Card.UnlistedWeeklyKeepsDefault | dist/chore-card.js:215-218 | without a configured `weekly` list the default save sends nothing, so the load starts exactly as when the sensor cannot be reached: from the default state with both current-day colours and an empty ledger |
| Card.ChorePointsMissCardLedger | dist/chore-card.js:564-568 | in a worked example the chores pass leaves Ann 2 points in the state's ledger and 0 in the card's |
| Card.ConfigFallsBackToConstructor | dist/chore-card.js:79-102 | `setConfig` gives each option its configured value when that is truthy, and otherwise the very value a new card starts with |
| Card.ChoreCard.SetConfig | dist/chore-card.js:79-102 | `setConfig` sets the card's options as `ConfiguredOptions` describes and changes nothing else |
| Card.ChoreCard.constructor | dist/chore-card.js:10-24 | a new card has the default options, no users, an empty ledger, no chores, no `lastReset` and no last saved state |
| Card.ChoreCard.CreateDefaultState | dist/chore-card.js:198-252 | `createDefaultState` sets the card's options and users. It returns a state with an empty ledger and the normalised weekly days, and throws exactly when a weekly days list has a `null` entry, leaving the chores as configured |
| Card.ChoreCard.CheckAndUpdateOptions | dist/chore-card.js:411-496 | the state's and the card's options become what `Options.OptionsPass` gives, and nothing else changes |
| Card.ChoreCard.CheckAndUpdateUsers | dist/chore-card.js:498-573 | the state's users, ledger and cells become what removal and the users pass give; the card syncs only when something changed or it had no users |
| Card.ChoreCard.CheckSection | dist/chore-card.js:590-701 | one section of the state and of the card becomes the section's reconciled list, and the state's ledger becomes the moved ledger |
| Card.ChoreCard.CheckAndUpdateChores | dist/chore-card.js:575-705 | the state's and the card's chores become what `Chores.ReconcileChores` gives; only the state's ledger moves |
| Card.ChoreCard.Save | dist/chore-card.js:330-409 | the payload sent is `SaveSent`. A successful `dist` save makes a fresh state object holding that payload the last saved state, and nothing else changes |
| Card.ChoreCard.HandleDropdownChange | dist/chore-card.js:1216-1270 | the chores and the ledger change as `Ledger.DropdownChange` describes, and the card saves exactly when the pick moved the cell |
| Card.ChoreCard.ResetWeeklyChores | dist/chore-card.js:825-872 | `dist` appends an archive entry and always resets; the frontend resets only with `hass` and a successful service call. A reset clears every cell, zeroes every total, sets `lastReset` and saves |
| Card.ChoreCard.CheckForReset | custom_components/chore_card/frontend/chore-card.js:768-788 | the check throws exactly for a first day that is not a string, and changes nothing when no reset is due. When one is due it clears the cells and zeroes the ledger (the frontend only when its service call succeeds), sends the payload carrying `lastReset` as the reset time, the `dist` build with exactly one archive entry appended, and then leaves the card holding today's date |
| Card.ChoreCard.Reconcile | dist/chore-card.js:314-317 | the state object and the card end as `Merged` describes |
| Card.ChoreCard.LoadStateFromHomeAssistant | dist/chore-card.js:254-328 | the state object and the card end as `DistStart` then `Merged` describe, and the card saves again exactly when the reconcilers changed something |
| Card.ChoreCard.StartState | dist/chore-card.js:258-312 | the state object is the fetched state when that parses; otherwise it is the default state, saved at once, and the payload of that save is returned (none without a configured `weekly` list); no state object exactly when the default state throws |
| Card.ChoreCard.ReconcileAndSave | dist/chore-card.js:314-327 | after the three reconcilers the state object and the card are as `Merged` describes, and a save is sent exactly when one of them changed something |
| Card.ChoreCard.LoadStateFromSensor | custom_components/chore_card/frontend/chore-card.js:303-318 | without `hass` nothing happens. A sensor with attributes becomes the last saved state. Otherwise the default state becomes the last saved state and is saved; called with no configuration, as `set hass` calls it, making the default state throws and nothing changes |
| Legacy.YamlDisplay | custom_components/www/chore-card/chore-card.js:30-41 | the loaded first day always has a day number 0 to 6. When the browser accepts the fallbacks, both header colours are ones it accepts. The flag keeps the configured truthiness, and the points position is never empty |
| Legacy.YamlDisplayAgreesWithCurrentBuilds | custom_components/www/chore-card/chore-card.js:30-32 | the load throws exactly for a set first day that the current builds cannot normalise; an unset one means "Mon" |
| Legacy.ZeroConfigured | custom_components/www/chore-card/chore-card.js:47 | every configured user gets 0 points, every other user in the ledger keeps its points, and nobody else appears |
| Legacy.ReloadStable | custom_components/www/chore-card/chore-card.js:146-152 | loading the same state a second time leaves the card's chores and ledger as the first load left them |
| Legacy.EmptyLoadKeeps | custom_components/www/chore-card/chore-card.js:146-152 | a load that finds neither `data` nor `userPoints` keeps the card's chores and ledger |
| Legacy.SaveLoadRoundTrip | custom_components/www/chore-card/chore-card.js:110-152 | loading what a save sent gives back the saved chores and ledger, whatever the card held |
| Legacy.LegacyCard.constructor | custom_components/www/chore-card/chore-card.js:4-20 | a new card: no chores, no users, an empty ledger, Monday first, short names, points on top, blue and white headers |
| Legacy.LegacyCard.ResetWeeklyChores | custom_components/www/chore-card/chore-card.js:100-108 | only the weekly cells are cleared; the ledger stays; the card saves exactly when there are weekly chores |
| Legacy.LegacyCard.CheckForReset | custom_components/www/chore-card/chore-card.js:90-98 | the older card resets on every check that falls on the first day, with no once-a-day guard |
| Legacy.LegacyCard.LoadStateFromHomeAssistant | custom_components/www/chore-card/chore-card.js:136-160 | the card takes the loaded chores and the loaded ledger, each only when the loaded state has it, and keeps its own otherwise or when nothing was loaded; `Legacy.SaveLoadRoundTrip`, `Legacy.ReloadStable` and `Legacy.EmptyLoadKeeps` state what that gives |
| Legacy.LegacyCard.ApplyYaml | custom_components/www/chore-card/chore-card.js:30-47 | the display settings, users and chores are set, and every configured user gets 0 points |
| Legacy.LegacyCard.LoadYamlData | custom_components/www/chore-card/chore-card.js:22-56 | a failed fetch or an unknown first day changes nothing. Otherwise the card takes the settings and users, then the stored state, then resets the weekly cells when today is the first day |

## Left out

- Rendering (HTML, CSS, `render`, `renderScorecard`, the dropdown markup) is not modelled. What rendering decides is kept: the cell disable rules, the highlight and the header order.
- `isValidCssColor` asks the browser, so it is a parameter `valid: string -> bool`. Only strings can be valid.
- The network, the Home Assistant connection and the clock are parameters:
  - what a fetch returns, `Sensor`;
  - whether a service call succeeds;
  - today's week day and date strings;
  - the calendar's month boundaries.
- Card ids, entity registration, `localStorage` and the version fetch are plumbing with no effect on the state engine.
- `set hass` and `initializeCard` only decide when `loadStateFromSensor` runs and with what. `initializeCard` runs from the constructor, before `hass` exists, so its load returns at once. `set hass` loads with no configuration, which `Card.ChoreCard.LoadStateFromSensor` takes as `None`. The two callers themselves are not modelled.
- Card.ChoreCard.SetConfig: the throw for a configuration without `type` is not modelled, because a `Config` always stands for a configuration the dashboard accepted.
- Card.FrontendSaveSettles: assumes a sensor whose attributes hold exactly the last payload. The shipped integration's sensor also keeps `status`, `user_points` and `last_reset` beside it, and registers only `chore_card.update_state` while the frontend calls `chore_card.update` and `chore_card.reset_weekly_chores`; the `Sensor` parameter and the service outcome stand for whatever the installed integration does.
- Concurrency is not modelled. Saves are not awaited in several places, and every operation is modelled as running to completion in turn.
- Strings are lower-cased for ASCII letters only; other case mappings are not modelled.
- The state after a thrown error is not modelled. A `TypeError` is an `Outcome.Thrown`, or a `threw` result, and the contract says nothing of the state the throw leaves half-updated, except where the source throws before any change.
- Object identity and aliasing between the card and its state object are not modelled. Each structure is a value that the methods reassign.
- Card.DistStart and Card.Merged: the configuration's objects are not modelled as frozen, though the source's comments say they are. On the `dist` default path the state's `users` is the configuration's own array (dist/chore-card.js:214, 245, 363), and the users pass recolours a record in place (557-558) when a configured colour is missing or rejected. With a frozen configuration that assignment throws in the source's strict class code and the load rejects; here the record is recoloured and the load goes on. The frontend's replace-at-index avoids this.
- Extra payload fields are not modelled: the card id, `friendly_name` and `restored`. JSON key order, the loss of `undefined` fields in JSON and the deep copies are not modelled either.
- A missing section of `data` is an empty list, so the places where the source treats `{}` differently from `[]` are not modelled, except the two that decide a path. Fetched attributes whose `data` has no `weekly` list make the `dist` load throw and take the default state (`Card.Fetched`, `Card.ParsedState`). A configuration without a `weekly` list makes the `dist` default save throw and send nothing (the `listsWeekly` field of `Model.Config`, `Card.DistStart`, `Card.ChoreCard.StartState`).
- Card.ChoreCard.Save: the `dist` save's throw for card data without a `weekly` list is modelled only at the default save of the load. Everywhere else the chores pass has already set the list, or the card has no last saved state and sends nothing either way.
- An archive entry keeps its timestamp and `lastReset` only. Its `data` and `userPoints`, which alias the card's live objects, are not modelled.
- The older variant's `handleDropdownChange` is a DOM handler that indexes `selections` by row instead of by day. It is not modelled.
- The Python integration (`__init__.py`, `sensor.py`, `config_flow.py`) and the two test doubles are not part of this model.
- Card.ChoreCard.LoadStateFromHomeAssistant: requires that every holder in the fetched state has a ledger entry, and that the configured chores carry no picks. The source would otherwise add to a missing entry and store `NaN`, which integers cannot express.
- Card.ChoreCard.Reconcile: requires every holder of a cell to have a ledger entry, for the same `NaN` reason.
- Card.ChoreCard.CheckAndUpdateChores: requires every holder of a cell to have a ledger entry, for the same `NaN` reason.
- Card.ChoreCard.CheckSection: requires every holder of the section's cells to have a ledger entry, for the same `NaN` reason.
- Card.ChoreCard.HandleDropdownChange: requires the day index 0 to 6 that the rendered dropdown carries, and requires an existing row to have seven cells.
- Card.ChoreCard.LoadStateFromHomeAssistant models the `dist` build only; the frontend build loads with `LoadStateFromSensor` and does not reconcile there.
- Users.AddPassShape: proved for unique user names only. Duplicate names are modelled by `Users.AddOrUpdate`, but their resulting shape is not stated.
- Chores.SectionChores: proved for distinct configured chore names only. Duplicates are modelled by the pass itself.
- Chores.SectionLedger: proved for distinct configured chore names only. With a repeated name the second points check reads the chore the first one already updated; the pass itself models that.
- Chores.ChoresLedger: proved for distinct configured chore names in each section only, for the same reason.
- Days.NormalizeDayName is the corrected lookup of the Findings table, and every operation of the card uses it. For a first day of the week or a weekly day named "constructor" or "__proto__" in any case, the source finds an inherited `Object` member where the model finds nothing. The members this concerns are listed one per line below.
- Options.Resolved: a configured first day "constructor" resolves to `undefined` here, so nothing is written. The source writes the inherited `Object` function into the card, and into the state with a reported change unless the state's own first day normalises to it too.
- Card.DefaultOptions: the same first day gives `undefined` here, while the source's `createDefaultState` stores the inherited `Object` function.
- Chores.NormalizeDays: a weekly day "constructor" normalises to `undefined` here, while the source stores the inherited `Object` function in the day list.
- Calendar.FirstDayIndex: the same first day gives -1 here. In the source the inherited member is not in the short-name list either, so `indexOf` also gives -1 and the results agree.
- Legacy.LegacyCard.ResetWeeklyChores: a weekly section that is present but empty still sends a save in the source. The model treats a missing section as empty and sends none.
- Legacy.LegacyCard.LoadYamlData: the reset check is not awaited in the source. The model runs it to completion before returning.

## Findings

| source | as written | input that shows it | evidently intended | confidence | as-written member | corrected member |
|---|---|---|---|---|---|---|
| dist/chore-card.js:730-736 | `dayMap[dayName.toLowerCase()]` also finds members every object inherits, such as `constructor` and `__proto__` | `normalizeDayName("Constructor")` returns the `Object` function, which is truthy, instead of `undefined` | only the fourteen day keys are recognised; any other name gives `undefined` | not executed | Days.NormalizeAsWrittenLeaksInheritedKey | Days.NormalizeDayName |
