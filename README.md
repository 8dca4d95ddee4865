# FastToHabit model layer in Dafny

This project models the model/store layer of FastToHabit, an iOS app for tracking
intermittent fasts, water intake, planned meals and body weight. All of its state goes
through `UserDefaults`. The model covers five Swift files under `FastToHabit/Models/`:

- **`FastSession` and `FastPreset`** (`fasting.dfy`). The presets and their default
  durations, a session's fields, and the computed expected end, elapsed time and
  progress.
- **`FastSessionStore`** (`fast_store.dfy`). A class with an optional active session and
  a history list:
  - `start`, `completeActiveSession` and `cancelActiveSession`;
  - deleting and clearing history;
  - the statistics: count, longest, average and the loop-based streak;
  - persistence, including the newest-first sort of history on load.
- **`WaterIntakeStore`** (`water.dfy`, `water_store.dfy`). Today's logs and the goal, the
  derived totals, and the day-partitioned save of the logs.
- **`MealPlanStore`** (`meals.dfy`, `meal_store.dfy`). Today's meals:
  - add, toggle, update and clear;
  - delete by offsets into a time-sorted snapshot, resolved through the bounds-safe
    subscript `Array[safe:]`;
  - the same day-partitioned save.
- **`WeightEntryManager`** (`weights.dfy`, `weight_store.dfy`). Load, append and delete
  over the stored list, with load sorting newest first.

Shared pieces:

- `base.dfy`: `Option`, and the clamped ratio behind both progress values.
- `sequences.dfy`:
  - `removeAll(where:)` keyed on an identifier;
  - the day filter and the "replace today's records" rewrite;
  - the safe subscript;
  - a subsequence predicate.
- `sorting.dfy`: a stable insertion sort by an integer key, ascending or descending.
- `storage.dfy`: the key-value store, a class `Defaults` with one `map` field.

How the model represents the app:

- **Stored values.** A stored value is the record itself, not its JSON bytes. A reader
  sees a failed decode when the key is absent, when it holds a value of another shape,
  or when it holds `Unreadable`. Encoding always succeeds.
- **Outside inputs become parameters.** The current time, fresh UUIDs and the calendar's
  "is this date today" test are passed in. The water goal's 7 AM and 11 PM are passed in
  as well.
- **Times and hours.** Times are whole seconds. Hours, progress and averages are `real`.
- **Stores that update in place.** The three stores that change their fields are
  classes. Methods state their whole new state, including what is written to storage.
  Beside the methods are lemmas about the functions they are specified by:
  - round trips through storage;
  - the day partition;
  - the sort;
  - the offset-based delete.

## Model

| member | source | states |
|---|---|---|
| Base.ClampedRatio | FastToHabit/Models/FastSession.swift:155-159 | 0 for a non-positive denominator. Otherwise at most 1, equal to 1 exactly when the numerator reaches the denominator, and the plain ratio below that. Not negative for a non-negative numerator. |
| Base.ClampedRatioMonotone | FastToHabit/Models/FastSession.swift:158 | For a fixed denominator, a larger numerator never gives a smaller clamped ratio. |
| Fasting.DefaultDurationHours | FastToHabit/Models/FastSession.swift:16-33 | `custom` is the only preset with 0 hours. Every other preset lasts between 12 and 24 hours. |
| Fasting.PresetDurationsIncrease | FastToHabit/Models/FastSession.swift:5-33 | Among the non-custom presets, a preset declared earlier has a strictly shorter default duration, and the converse holds too. |
| Fasting.PresetNames | FastToHabit/Models/FastSession.swift:5-63 | The display name is the raw value. The suggested duration is the default duration. Distinct presets have distinct raw values. |
| Fasting.NewSession | FastToHabit/Models/FastSession.swift:118-136 | A session built with the default arguments is active and has no end date, note or completion date. It carries the given id, preset, start and goal. |
| Fasting.ExpectedEndDate | FastToHabit/Models/FastSession.swift:141-146 | The end date when one is set. Otherwise the start plus the goal in seconds. |
| Fasting.ElapsedFrozenOnceCompleted | FastToHabit/Models/FastSession.swift:149-152 | Once a completion date is set, the elapsed time is completion minus start, whatever the current time. |
| Fasting.Progress | FastToHabit/Models/FastSession.swift:155-159 | 0 for a non-positive goal. Otherwise at most 1, equal to 1 exactly when the elapsed time reaches the goal, and elapsed over goal below it. |
| Fasting.ProgressFullAtExpectedEnd | FastToHabit/Models/FastSession.swift:141-159 | A running fast with a positive goal and no recorded end reaches full progress exactly when the clock reaches its expected end date. |
| Fasting.ProgressMonotone | FastToHabit/Models/FastSession.swift:155-159 | Progress never decreases as the current time advances. |
| FastStore.LoadHistory | FastToHabit/Models/FastSessionStore.swift:142-152 | The loaded history is a permutation of the stored list, newest first by completion date or else start date. It is empty when the key is missing or undecodable. |
| FastStore.ActiveRoundTrip | FastToHabit/Models/FastSessionStore.swift:123-140 | Loading after a persist of the active slot gives that slot back. Persisting "no session" removes the key, which loads as none. |
| FastStore.HistoryRoundTrip | FastToHabit/Models/FastSessionStore.swift:131-152 | Persisting a history and loading it gives a newest-first permutation of it. A history already newest first comes back unchanged. |
| FastStore.LongestHours | FastToHabit/Models/FastSessionStore.swift:91-93 | 0 for an empty history. Otherwise at least every entry's elapsed hours, and equal to one of them. |
| FastStore.TotalHoursAtMost | FastToHabit/Models/FastSessionStore.swift:98 | The summed hours are at most the count times any bound on each entry. |
| FastStore.AverageHours | FastToHabit/Models/FastSessionStore.swift:96-100 | 0 for an empty history. Otherwise never more than the longest fast and never less than the shortest. |
| FastStore.AverageIsMean | FastToHabit/Models/FastSessionStore.swift:96-100 | For a non-empty history, the average times the number of fasts is the total of their hours. |
| FastStore.StreakUnique | FastToHabit/Models/FastSessionStore.swift:103-119 | At most one length is the longest continuing prefix. |
| FastStore.StreakBounds | FastToHabit/Models/FastSessionStore.swift:103-119 | The streak is at most the history length. It is 0 exactly when history is empty or its first entry has no completion date. |
| FastStore.TwoFastStreak | FastToHabit/Models/FastSessionStore.swift:110-116 | For two completed fasts, a gap of at most 48 hours, exactly 48 included, gives a streak of 2. A longer gap gives 1. |
| FastStore.FastSessionStore.constructor | FastToHabit/Models/FastSessionStore.swift:26-30 | The active slot and the history are loaded from the given store. |
| FastStore.FastSessionStore.Start | FastToHabit/Models/FastSessionStore.swift:42-45 | The active slot becomes the session unconditionally. History is unchanged. The session is written under the active key and nothing else is stored. |
| FastStore.FastSessionStore.CompleteActiveSession | FastToHabit/Models/FastSessionStore.swift:51-61 | With no active session nothing changes, storage included. Otherwise the slot is emptied and history becomes the session, stamped completed with completion and end date the given time and the given note, other fields kept, followed by the old history; the active key is removed and history written. |
| FastStore.FastSessionStore.CancelActiveSession | FastToHabit/Models/FastSessionStore.swift:64-67 | The active slot is emptied, history is unchanged, and the active key is removed from storage. |
| FastStore.FastSessionStore.DeleteHistoryEntry | FastToHabit/Models/FastSessionStore.swift:72-75 | Exactly the entries with the id are removed. The rest keep their order, so a newest-first history stays newest first. History is persisted. |
| FastStore.FastSessionStore.ClearHistory | FastToHabit/Models/FastSessionStore.swift:78-81 | History becomes empty and the empty list is persisted. The active slot is unchanged. |
| FastStore.FastSessionStore.CurrentStreak | FastToHabit/Models/FastSessionStore.swift:103-119 | The result is the length of the longest prefix of history: all completion dates present, each within 48 hours of its predecessor. |
| FastStore.FastSessionStore.PersistActiveSession | FastToHabit/Models/FastSessionStore.swift:123-129 | Writes the active session under its key, or removes the key when there is none. |
| FastStore.FastSessionStore.PersistHistory | FastToHabit/Models/FastSessionStore.swift:131-135 | Writes the history under its key and changes no other key. |
| Water.DefaultGoal | FastToHabit/Models/WaterIntake.swift:32-48 | 8 glasses of 250 ml, so 2000 ml a day. Reminders are on, from the given 7 AM to the given 11 PM. |
| Water.TotalMl | FastToHabit/Models/WaterIntake.swift:67-69 | The sum of amounts, which is not negative when no amount is. |
| Water.TotalMlConcat | FastToHabit/Models/WaterIntake.swift:67-69 | The total of two lists joined is the sum of their totals. |
| WaterStore.LoadTodayLogs | FastToHabit/Models/WaterIntake.swift:160-164 | Exactly the stored logs dated today, in stored order, each with as many copies as stored. Empty when the key is missing or undecodable. |
| WaterStore.SaveThenLoad | FastToHabit/Models/WaterIntake.swift:130-144 | After a save, loading today's logs gives exactly the in-memory list. The stored logs of other days are unchanged and in order. |
| WaterStore.SavedLogsSurviveDayChange | FastToHabit/Models/WaterIntake.swift:130-164 | Once the day changes, the logs saved today count as another day's logs, after the older ones. |
| WaterStore.GoalRoundTrip | FastToHabit/Models/WaterIntake.swift:146-172 | A saved goal loads back as itself. |
| WaterStore.WaterIntakeStore.constructor | FastToHabit/Models/WaterIntake.swift:94-97 | Goal and today's logs are loaded from storage. |
| WaterStore.WaterIntakeStore.Progress | FastToHabit/Models/WaterIntake.swift:77-85 | 0 for a non-positive goal. Otherwise at most 1, equal to 1 exactly when the goal is reached, and total over goal below it. |
| WaterStore.WaterIntakeStore.RemainingGlasses | FastToHabit/Models/WaterIntake.swift:88-90 | Never negative. 0 exactly when the glass count reaches the goal. Otherwise count plus remainder is the goal. |
| WaterStore.WaterIntakeStore.LogWater | FastToHabit/Models/WaterIntake.swift:102-107 | Appends one log of the given amount, or one glass when none is given, keeping the earlier logs. The total grows by that amount and the count by one. The logs are saved. |
| WaterStore.WaterIntakeStore.UndoLastLog | FastToHabit/Models/WaterIntake.swift:110-114 | On no logs: no change, storage included. Otherwise only the last log is removed, the total drops by its amount, and the logs are saved. |
| WaterStore.WaterIntakeStore.UpdateGoal | FastToHabit/Models/WaterIntake.swift:117-120 | The goal is replaced wholesale and saved. The logs are unchanged. |
| WaterStore.WaterIntakeStore.ClearTodayLogs | FastToHabit/Models/WaterIntake.swift:123-126 | Today's logs become empty, and the save drops today's stored logs. |
| WaterStore.WaterIntakeStore.SaveLogs | FastToHabit/Models/WaterIntake.swift:130-144 | The stored logs become the other days' stored logs, in order, followed by today's in-memory list. |
| WaterStore.WaterIntakeStore.SaveGoal | FastToHabit/Models/WaterIntake.swift:146-150 | Writes the goal under its key and changes no other key. |
| Meals.NewMeal | FastToHabit/Models/MealPlan.swift:33-45 | A new meal is not completed and carries the given id, type, time and notes. |
| Meals.IndexOfId | FastToHabit/Models/MealPlan.swift:104 | The first position holding the id, or none exactly when no meal has it. |
| Meals.CountCompleted | FastToHabit/Models/MealPlan.swift:69-71 | At most the number of meals. Equal to it exactly when all meals are completed, and 0 exactly when none are. |
| Meals.CountCompletedFlip | FastToHabit/Models/MealPlan.swift:103-107 | Flipping one meal's flag moves the completed count by exactly one, up or down. |
| Meals.RemoveIds | FastToHabit/Models/MealPlan.swift:117-126 | A meal is kept exactly when its id is not among the removed ids. The list never grows. |
| MealStore.LoadTodayMeals | FastToHabit/Models/MealPlan.swift:160-164 | Exactly the stored meals scheduled today, in stored order, each with as many copies as stored. |
| MealStore.SaveThenLoad | FastToHabit/Models/MealPlan.swift:136-150 | After a save, loading today's meals gives exactly the in-memory list. The other days' stored meals are unchanged and in order. |
| MealStore.SortByTime | FastToHabit/Models/MealPlan.swift:79-81 | A permutation of the meals, earliest scheduled first. |
| MealStore.RemoveIdsAbsent | FastToHabit/Models/MealPlan.swift:117-126 | Removing ids no meal carries changes nothing. |
| MealStore.RemoveIdsTwice | FastToHabit/Models/MealPlan.swift:117-126 | Removing two id sets in turn is removing their union. |
| MealStore.RemoveIdsKeepsOrder | FastToHabit/Models/MealPlan.swift:117-126 | The survivors of a removal keep their relative order. |
| MealStore.RemoveIdsUnique | FastToHabit/Models/MealPlan.swift:117-126 | A removal keeps the ids unique. |
| MealStore.RemoveFirstIsRemoveId | FastToHabit/Models/MealPlan.swift:121-122 | With unique ids, removing the first meal with an id removes every meal with it. |
| MealStore.RemoveAtOffsetIsRemoveIds | FastToHabit/Models/MealPlan.swift:119-123 | With unique ids, one offset removes the meal at that snapshot position. An out-of-range offset removes nothing. |
| MealStore.SelectedIdsSplit | FastToHabit/Models/MealPlan.swift:119 | The ids selected by a list of offsets are the first offset's plus the rest's. |
| MealStore.RemoveAtOffsetsIsRemoveIds | FastToHabit/Models/MealPlan.swift:117-126 | With unique ids, resolving the offsets one after another removes exactly the ids at the in-range snapshot positions. |
| MealStore.DeleteRemovesSelected | FastToHabit/Models/MealPlan.swift:117-126 | With unique ids, a meal survives a delete exactly when it sits at no in-range offset of the sorted snapshot. The survivors keep their order. |
| MealStore.MealPlanStore.constructor | FastToHabit/Models/MealPlan.swift:85-87 | Today's meals are loaded from storage. |
| MealStore.MealPlanStore.AddMeal | FastToHabit/Models/MealPlan.swift:92-100 | Appends one new, not completed meal. The count grows by one and the meals are saved. |
| MealStore.MealPlanStore.ToggleCompletion | FastToHabit/Models/MealPlan.swift:103-107 | An unknown id changes nothing, storage included. Otherwise only the first meal with the id has its flag flipped, the completed count moves by one, and the meals are saved. |
| MealStore.MealPlanStore.UpdateMeal | FastToHabit/Models/MealPlan.swift:110-114 | An unknown id changes nothing, storage included. Otherwise the first meal with the id is replaced in its position and the meals are saved. The length never changes. |
| MealStore.MealPlanStore.DeleteMeal | FastToHabit/Models/MealPlan.swift:117-126 | Each offset is resolved against the sorted snapshot taken before any removal. With unique ids, exactly the meals at in-range offsets are removed. The meals are then saved. |
| MealStore.MealPlanStore.ClearAllMeals | FastToHabit/Models/MealPlan.swift:129-132 | Today's meals become empty, and the save drops today's stored meals. |
| MealStore.MealPlanStore.SaveMeals | FastToHabit/Models/MealPlan.swift:136-150 | The stored meals become the other days' stored meals, in order, followed by today's in-memory list. |
| Sequences.SafeGet | FastToHabit/Models/MealPlan.swift:169-173 | The element exactly when the index is in bounds, and none otherwise. |
| Sequences.RemoveKey | FastToHabit/Models/FastSessionStore.swift:73 | Exactly the elements without the key survive, each with every one of its copies. The length is unchanged exactly when no element has the key. |
| Sequences.RemoveKeyAbsent | FastToHabit/Models/WeightEntry.swift:52-56 | Removing a key no element has changes nothing. |
| Sequences.RemoveKeyKeepsOrder | FastToHabit/Models/FastSessionStore.swift:72-75 | The survivors keep their relative order. |
| Sequences.KeepDay | FastToHabit/Models/WaterIntake.swift:135-137 | Exactly the records whose day classification matches. |
| Sequences.KeepDayConcat | FastToHabit/Models/WaterIntake.swift:135-139 | The day filter distributes over joining lists. |
| Sequences.KeepDayAll | FastToHabit/Models/WaterIntake.swift:135-139 | Filtering a list whose records all match keeps it whole. |
| Sequences.KeepDayNone | FastToHabit/Models/WaterIntake.swift:135-139 | Filtering a list with no matching record gives the empty list. |
| Sequences.KeepDayCount | FastToHabit/Models/WaterIntake.swift:160-164 | The day filter keeps every copy of a matching record and no copy of any other. |
| Sequences.KeepDayKeepsOrder | FastToHabit/Models/WaterIntake.swift:160-164 | The filtered records keep their stored order. |
| Sequences.KeepDayPartition | FastToHabit/Models/WaterIntake.swift:130-144 | Today's records and the other days' records together are all the records, as a multiset. |
| Sequences.ReplaceTodayThenToday | FastToHabit/Models/WaterIntake.swift:130-164 | After replacing today's records, today's part is exactly the new list, so no earlier record of today survives. |
| Sequences.ReplaceTodayKeepsOtherDays | FastToHabit/Models/WaterIntake.swift:130-144 | Replacing today's records leaves the other days' records unchanged and in order. |
| Sequences.ReplaceTodayIdempotent | FastToHabit/Models/WaterIntake.swift:130-144 | Saving the same list twice is saving it once. |
| Sequences.ReplaceTodayAfterDayChange | FastToHabit/Models/WaterIntake.swift:130-144 | When a later day begins, the records saved today are among the other days' records. |
| Sorting.ChainedOrdered | FastToHabit/Models/FastSessionStore.swift:147-151 | Order between neighbours gives order between every pair. |
| Sorting.Insert | FastToHabit/Models/FastSessionStore.swift:147-151 | Inserting into an ordered list keeps it ordered and adds exactly the one record. |
| Sorting.SortBy | FastToHabit/Models/FastSessionStore.swift:147-151 | The result is ordered by the key and direction, and is a permutation of the input. |
| Sorting.SortByChainedIdentity | FastToHabit/Models/WeightEntry.swift:37 | Sorting a list already in order returns it unchanged. |
| Sorting.OrderedChained | FastToHabit/Models/WeightEntry.swift:37 | Order between every pair gives order between neighbours. |
| Sorting.RemoveKeyOrdered | FastToHabit/Models/WeightEntry.swift:52-56 | Removing every record with one identifier keeps an ordered list ordered. |
| WeightStore.LoadEntries | FastToHabit/Models/WeightEntry.swift:32-38 | A permutation of the stored entries, newest first. Empty when the key is missing or undecodable. |
| WeightStore.SaveEntries | FastToHabit/Models/WeightEntry.swift:25-29 | Writes the list under its key and changes no other key. |
| WeightStore.AddEntry | FastToHabit/Models/WeightEntry.swift:41-49 | Stores the loaded list with the new entry appended, unsorted, and writes the weight's text to the current-weight slot. |
| WeightStore.DeleteEntry | FastToHabit/Models/WeightEntry.swift:52-56 | Stores the loaded list without the entries of the id. |
| WeightStore.SaveThenLoad | FastToHabit/Models/WeightEntry.swift:25-38 | Saving a list and loading it gives its entries newest first. A list already newest first comes back unchanged. |
| WeightStore.AddThenLoad | FastToHabit/Models/WeightEntry.swift:41-49 | The stored list is the earlier loaded list followed by the new entry; a reload holds exactly one entry more; the current-weight slot holds the weight's text; every other key is untouched. |
| WeightStore.DeleteThenLoad | FastToHabit/Models/WeightEntry.swift:52-56 | Loading after a delete gives exactly the previous loaded list, in the same order, without the entries of the id. |
| WeightStore.DeleteAbsent | FastToHabit/Models/WeightEntry.swift:52-56 | Deleting an id no entry has leaves the same entries, in the same loaded order. |

## Left out

- SwiftUI views, haptics, timers and the design-system constants are presentation only
  and are not part of this model.
- JSON encoding and decoding are left out: a value is stored as the record itself, and
  encoding always succeeds. The source's failure paths are therefore not modelled:
  - a failed encode makes `persistHistory`, `saveLogs`, `saveGoal`, `saveMeals` and
    `saveEntries` skip the write;
  - a failed encode of the active session makes `persistActiveSession` take its `else`
    branch and remove `fastSession.active`.
- `UserDefaults.standard` is left out. The water and meal stores and the weight manager
  read it directly; here they are handed a `Defaults` object.
- `Date()`, `UUID()` and `Calendar.isDateInToday` are not modelled. They become
  parameters: the current time, the fresh id and a test `isToday` on timestamps.
- `WaterGoal.default` does not compute 7 AM and 11 PM of today with the calendar. The
  two times are parameters.
- Floating point is not modelled:
  - times are whole seconds;
  - `goalDurationHours` is a whole number of hours;
  - elapsed hours, progress and averages are exact reals, without rounding;
  - a weight is carried only as its `String(weight)` text, which is all the manager
    writes to the current-weight slot.
- The 64-bit `Int` overflow of water totals and counts is not modelled. Integers are
  unbounded.
- `FastPreset.tagline`, `MealType.icon`, `MealType.id` and `PlannedMeal.timeString` are
  display strings, and `timeString` needs a date formatter. None is modelled.
- Swift's `sorted(by:)` does not promise stability. The model sorts stably, so where
  keys tie, the model fixes an order that the app does not guarantee.
- `addEntry` appends the new entry to the loaded, newest-first list without sorting it
  again; the entries are sorted on the next load. The model stores the list exactly as
  appended.
- Where a doc comment and the code differ, the model follows the code. The doc comment
  of `start` says a running fast is cancelled. The code overwrites the active slot, and
  the dropped session is neither stored as cancelled nor added to history.
- The following members are plain definitions or one-line readers. Each has no contract
  of its own; its properties are stated on the members that use it.
  - `FastStore.FastSessionStore.CompletedCount`, `LongestFastHours` and
    `AverageFastHours` read the history length, `LongestHours` and `AverageHours`.
  - `Fasting.ElapsedSeconds` and `Fasting.ElapsedHours` are stated by
    `ElapsedFrozenOnceCompleted`, `Progress`, `ProgressMonotone`, `LongestHours` and
    `AverageHours`.
  - `Fasting.DisplayName` and `Fasting.SuggestedDurationHours` are stated by
    `PresetNames`.
  - `FastStore.LoadActiveSession` and `FastStore.WithActive` are stated by
    `ActiveRoundTrip` and `PersistActiveSession`.
  - `WaterStore.LoadGoal` is stated by `GoalRoundTrip`.
  - `WaterStore.StoredLogs` and `MealStore.StoredMeals` are `loadAllLogs` and
    `loadAllMeals`. They are stated by the loaders and the `SaveThenLoad` lemmas.
  - `Water.WaterGoal.DailyGoalMl` is stated by `DefaultGoal` and the water `Progress`.
  - `WaterStore.WaterIntakeStore.TodayTotalMl`, `TodayGlassesCount` and `IsGoalReached`
    are stated by `TotalMl`, `LogWater`, `UndoLastLog`, `Progress` and
    `RemainingGlasses`.
  - `MealStore.MealPlanStore.CompletedCount`, `TotalCount` and `SortedMeals` read
    `CountCompleted`, the length and `SortByTime`.
- `MealStore.DeleteRemovesSelected`: the "exactly the selected meals are removed"
  statement assumes unique meal ids, which fresh UUIDs give. With a duplicated id, the
  source removes the first meal with that id, which may not be the one at the offset.
  `MealStore.MealPlanStore.DeleteMeal` states that general behaviour step by step,
  through `RemoveAtOffsets`.
- `MealStore.MealPlanStore.DeleteMeal`: the `IndexSet` of offsets is given as a sequence
  in ascending order. The model accepts a sequence in any order, with repeats.
