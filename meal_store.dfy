/** MealPlanStore (MealPlan.swift): today's planned meals, edited in place, with the
    day-partitioned persistence shared with the water store. */
module MealStore {
  import opened Base
  import opened Meals
  import opened Sequences
  import opened Sorting
  import opened Storage

  const MealsKey: string := "plannedMeals"

  // ---------------------------------------------------------------------------
  // Loading and saving

  /** `loadAllMeals`: the meals of every day as stored; empty when absent or undecodable. */
  function StoredMeals(data: Snapshot): seq<PlannedMeal> {
    if MealsKey in data && data[MealsKey].MealListData? then data[MealsKey].meals else []
  }

  /** `loadTodayMeals`: exactly the stored meals scheduled today, in stored order. */
  function LoadTodayMeals(data: Snapshot, isToday: Timestamp -> bool): (meals: seq<PlannedMeal>)
    ensures forall m :: m in meals <==> m in StoredMeals(data) && isToday(m.scheduledTime)
    ensures IsSubsequence(meals, StoredMeals(data))
    ensures forall m :: multiset(meals)[m] == if isToday(m.scheduledTime) then multiset(StoredMeals(data))[m] else 0
  {
    KeepDayCount(StoredMeals(data), MealTime, isToday, true);
    KeepDayKeepsOrder(StoredMeals(data), MealTime, isToday, true);
    KeepDay(StoredMeals(data), MealTime, isToday, true)
  }

  /** What `saveMeals` leaves in the store: the other days' stored meals in stored order,
      then today's in-memory meals. */
  function SavedMeals(data: Snapshot, todayMeals: seq<PlannedMeal>, isToday: Timestamp -> bool): Snapshot {
    data[MealsKey := MealListData(ReplaceToday(StoredMeals(data), todayMeals, MealTime, isToday))]
  }

  /** After a save the other days' meals are the earlier ones, verbatim and in order, and
      reloading today's meals gives back the in-memory list. */
  lemma SaveThenLoad(data: Snapshot, todayMeals: seq<PlannedMeal>, isToday: Timestamp -> bool)
    requires forall m :: m in todayMeals ==> isToday(m.scheduledTime)
    ensures LoadTodayMeals(SavedMeals(data, todayMeals, isToday), isToday) == todayMeals
    ensures KeepDay(StoredMeals(SavedMeals(data, todayMeals, isToday)), MealTime, isToday, false)
         == KeepDay(StoredMeals(data), MealTime, isToday, false)
  {
    ReplaceTodayThenToday(StoredMeals(data), todayMeals, MealTime, isToday);
    ReplaceTodayKeepsOtherDays(StoredMeals(data), todayMeals, MealTime, isToday);
  }

  // ---------------------------------------------------------------------------
  // Sorting and deleting by offsets into the sorted list

  /** `todayMeals.sorted { $0.scheduledTime < $1.scheduledTime }`. */
  function SortByTime(meals: seq<PlannedMeal>): (r: seq<PlannedMeal>)
    ensures multiset(r) == multiset(meals)
    ensures Ordered(r, MealTime, Ascending)
  {
    SortBy(meals, MealTime, Ascending)
  }

  /** One step of `deleteMeal(at:)`: the meal at `offset` of the snapshot, if the offset
      is in range, is removed from `meals` at the first position carrying its id. */
  function RemoveAtOffset(meals: seq<PlannedMeal>, snapshot: seq<PlannedMeal>, offset: int): seq<PlannedMeal> {
    match SafeGet(snapshot, offset)
    case None => meals
    case Some(m) =>
      match IndexOfId(meals, m.id)
      case None => meals
      case Some(k) => meals[..k] + meals[k + 1..]
  }

  /** The offsets resolved one after another, each against the same snapshot. */
  function RemoveAtOffsets(meals: seq<PlannedMeal>, snapshot: seq<PlannedMeal>, offsets: seq<int>): seq<PlannedMeal>
    decreases |offsets|
  {
    if |offsets| == 0 then meals
    else RemoveAtOffsets(RemoveAtOffset(meals, snapshot, offsets[0]), snapshot, offsets[1..])
  }

  /** The ids of the snapshot meals at the in-range offsets. */
  function SelectedIds(snapshot: seq<PlannedMeal>, offsets: seq<int>): set<Id> {
    set i | i in offsets && 0 <= i < |snapshot| :: snapshot[i].id
  }

  lemma {:induction false} RemoveIdsAbsent(meals: seq<PlannedMeal>, ids: set<Id>)
    requires forall j :: 0 <= j < |meals| ==> meals[j].id !in ids
    ensures RemoveIds(meals, ids) == meals
    decreases |meals|
  {
    if |meals| > 0 {
      RemoveIdsAbsent(meals[1..], ids);
      assert meals == [meals[0]] + meals[1..];
    }
  }

  lemma {:induction false} RemoveIdsTwice(meals: seq<PlannedMeal>, a: set<Id>, b: set<Id>)
    ensures RemoveIds(RemoveIds(meals, a), b) == RemoveIds(meals, a + b)
    decreases |meals|
  {
    if |meals| > 0 {
      RemoveIdsTwice(meals[1..], a, b);
    }
  }

  lemma {:induction false} RemoveIdsKeepsOrder(meals: seq<PlannedMeal>, ids: set<Id>)
    ensures IsSubsequence(RemoveIds(meals, ids), meals)
    decreases |meals|
  {
    if |meals| > 0 {
      RemoveIdsKeepsOrder(meals[1..], ids);
      var r := RemoveIds(meals, ids);
      if meals[0].id !in ids {
        assert r[0] == meals[0] && r[1..] == RemoveIds(meals[1..], ids);
      }
    }
  }

  lemma {:induction false} RemoveIdsUnique(meals: seq<PlannedMeal>, ids: set<Id>)
    requires UniqueIds(meals)
    ensures UniqueIds(RemoveIds(meals, ids))
    decreases |meals|
  {
    if |meals| > 0 {
      var rest := meals[1..];
      assert UniqueIds(rest) by {
        forall i, j | 0 <= i < j < |rest| ensures rest[i].id != rest[j].id {
          assert rest[i] == meals[i + 1] && rest[j] == meals[j + 1];
        }
      }
      RemoveIdsUnique(rest, ids);
      if meals[0].id !in ids {
        var r := RemoveIds(meals, ids);
        var tail := RemoveIds(rest, ids);
        assert r == [meals[0]] + tail;
        forall j | 0 < j < |r| ensures r[0].id != r[j].id {
          assert r[j] == tail[j - 1];
          assert r[j] in rest;
          var k :| 0 <= k < |rest| && rest[k] == r[j];
          assert meals[k + 1] == r[j];
        }
      }
    }
  }

  lemma UniqueIdsTail(meals: seq<PlannedMeal>)
    requires UniqueIds(meals) && |meals| > 0
    ensures UniqueIds(meals[1..])
  {
    var rest := meals[1..];
    forall i, j | 0 <= i < j < |rest| ensures rest[i].id != rest[j].id {
      assert rest[i] == meals[i + 1] && rest[j] == meals[j + 1];
    }
  }

  /** With unique ids, removing the first meal carrying an id removes every meal carrying it. */
  lemma {:induction false} RemoveFirstIsRemoveId(meals: seq<PlannedMeal>, k: nat)
    requires UniqueIds(meals) && k < |meals|
    ensures meals[..k] + meals[k + 1..] == RemoveIds(meals, {meals[k].id})
    decreases |meals|
  {
    var rest := meals[1..];
    var id := meals[k].id;
    if k == 0 {
      forall j | 0 <= j < |rest| ensures rest[j].id !in {id} {
        assert rest[j] == meals[j + 1];
      }
      RemoveIdsAbsent(rest, {id});
      assert meals[..k] + meals[k + 1..] == rest;
    } else {
      assert meals[0].id != id;
      UniqueIdsTail(meals);
      assert rest[k - 1] == meals[k];
      RemoveFirstIsRemoveId(rest, k - 1);
      assert meals[..k] == [meals[0]] + rest[..k - 1];
      assert meals[k + 1..] == rest[k..];
    }
  }

  /** With unique ids, one offset removes exactly the meals with the id it selects. */
  lemma RemoveAtOffsetIsRemoveIds(meals: seq<PlannedMeal>, snapshot: seq<PlannedMeal>, o: int)
    requires UniqueIds(meals)
    ensures RemoveAtOffset(meals, snapshot, o) == RemoveIds(meals, SelectedIds(snapshot, [o]))
  {
    if 0 <= o < |snapshot| {
      assert SelectedIds(snapshot, [o]) == {snapshot[o].id};
      match IndexOfId(meals, snapshot[o].id)
      case None => RemoveIdsAbsent(meals, {snapshot[o].id});
      case Some(k) => RemoveFirstIsRemoveId(meals, k);
    } else {
      assert SelectedIds(snapshot, [o]) == {};
      RemoveIdsAbsent(meals, {});
    }
  }

  lemma SelectedIdsSplit(snapshot: seq<PlannedMeal>, offsets: seq<int>)
    requires |offsets| > 0
    ensures SelectedIds(snapshot, offsets) == SelectedIds(snapshot, [offsets[0]]) + SelectedIds(snapshot, offsets[1..])
  {
    assert forall i :: i in offsets <==> i == offsets[0] || i in offsets[1..];
  }

  /** With unique ids every offset removes the meal its snapshot position shows, so
      resolving the offsets one by one removes exactly the selected ids, whatever order
      the offsets come in, and an offset past either end removes nothing. */
  lemma {:induction false} RemoveAtOffsetsIsRemoveIds(meals: seq<PlannedMeal>, snapshot: seq<PlannedMeal>, offsets: seq<int>)
    requires UniqueIds(meals)
    ensures RemoveAtOffsets(meals, snapshot, offsets) == RemoveIds(meals, SelectedIds(snapshot, offsets))
    decreases |offsets|
  {
    if |offsets| == 0 {
      RemoveIdsAbsent(meals, {});
      assert SelectedIds(snapshot, offsets) == {};
    } else {
      var first := SelectedIds(snapshot, [offsets[0]]);
      var rest := SelectedIds(snapshot, offsets[1..]);
      var step := RemoveAtOffset(meals, snapshot, offsets[0]);
      RemoveAtOffsetIsRemoveIds(meals, snapshot, offsets[0]);
      RemoveIdsUnique(meals, first);
      RemoveAtOffsetsIsRemoveIds(step, snapshot, offsets[1..]);
      RemoveIdsTwice(meals, first, rest);
      SelectedIdsSplit(snapshot, offsets);
    }
  }

  /** `deleteMeal(at:)` against the sorted snapshot of today's meals, ids unique: a meal
      survives exactly when it is at none of the in-range offsets, and the survivors keep
      their relative order. */
  lemma DeleteRemovesSelected(meals: seq<PlannedMeal>, offsets: seq<int>)
    requires UniqueIds(meals)
    ensures var snapshot, r := SortByTime(meals), RemoveAtOffsets(meals, SortByTime(meals), offsets);
            && IsSubsequence(r, meals)
            && forall m :: m in r <==> m in meals && forall i :: i in offsets && 0 <= i < |snapshot| ==> snapshot[i] != m
  {
    var snapshot := SortByTime(meals);
    var ids := SelectedIds(snapshot, offsets);
    RemoveAtOffsetsIsRemoveIds(meals, snapshot, offsets);
    RemoveIdsKeepsOrder(meals, ids);
    forall m | m in meals
      ensures m.id in ids <==> exists i :: i in offsets && 0 <= i < |snapshot| && snapshot[i] == m
    {
      if m.id in ids {
        var i :| i in offsets && 0 <= i < |snapshot| && snapshot[i].id == m.id;
        assert snapshot[i] in multiset(meals);
        var a :| 0 <= a < |meals| && meals[a] == m;
        var b :| 0 <= b < |meals| && meals[b] == snapshot[i];
        assert a == b;
      }
    }
  }

  // ---------------------------------------------------------------------------

  class MealPlanStore {
    /** The meals planned for the current day, in insertion order. */
    var todayMeals: seq<PlannedMeal>
    const defaults: Defaults

    constructor (defaults: Defaults, isToday: Timestamp -> bool)
      ensures this.defaults == defaults
      ensures todayMeals == LoadTodayMeals(defaults.data, isToday)
    {
      this.defaults := defaults;
      todayMeals := LoadTodayMeals(defaults.data, isToday);
    }

    function CompletedCount(): nat
      reads this
    {
      CountCompleted(todayMeals)
    }

    function TotalCount(): nat
      reads this
    {
      |todayMeals|
    }

    function SortedMeals(): seq<PlannedMeal>
      reads this
    {
      SortByTime(todayMeals)
    }

    /** Appends a new, not yet completed meal under the fresh identifier `id`. */
    method AddMeal(mealType: MealType, scheduledTime: Timestamp, notes: Option<string>, id: Id,
                   isToday: Timestamp -> bool)
      modifies this, defaults
      ensures todayMeals == old(todayMeals) + [NewMeal(id, mealType, scheduledTime, notes)]
      ensures TotalCount() == old(TotalCount()) + 1
      ensures defaults.data == SavedMeals(old(defaults.data), todayMeals, isToday)
    {
      var meal := NewMeal(id, mealType, scheduledTime, notes);
      todayMeals := todayMeals + [meal];
      SaveMeals(isToday);
    }

    /** Flips the completion flag of the first meal with `mealId`; an unknown id changes
        nothing, storage included. */
    method ToggleCompletion(mealId: Id, isToday: Timestamp -> bool)
      modifies this, defaults
      ensures IndexOfId(old(todayMeals), mealId).None? ==>
                todayMeals == old(todayMeals) && defaults.data == old(defaults.data)
      ensures IndexOfId(old(todayMeals), mealId).Some? ==>
                var k := IndexOfId(old(todayMeals), mealId).value;
                var m := old(todayMeals)[k];
                && todayMeals == old(todayMeals)[k := m.(isCompleted := !m.isCompleted)]
                && CompletedCount() == old(CompletedCount()) + (if m.isCompleted then -1 else 1)
                && defaults.data == SavedMeals(old(defaults.data), todayMeals, isToday)
    {
      var index := IndexOfId(todayMeals, mealId);
      if index.None? {
        return;
      }
      var k := index.value;
      var m := todayMeals[k];
      CountCompletedFlip(todayMeals, k, m.(isCompleted := !m.isCompleted));
      todayMeals := todayMeals[k := m.(isCompleted := !m.isCompleted)];
      SaveMeals(isToday);
    }

    /** Replaces the first meal whose id is `meal.id`, in place; an unknown id changes
        nothing, storage included. */
    method UpdateMeal(meal: PlannedMeal, isToday: Timestamp -> bool)
      modifies this, defaults
      ensures IndexOfId(old(todayMeals), meal.id).None? ==>
                todayMeals == old(todayMeals) && defaults.data == old(defaults.data)
      ensures IndexOfId(old(todayMeals), meal.id).Some? ==>
                && todayMeals == old(todayMeals)[IndexOfId(old(todayMeals), meal.id).value := meal]
                && defaults.data == SavedMeals(old(defaults.data), todayMeals, isToday)
      ensures |todayMeals| == |old(todayMeals)|
    {
      var index := IndexOfId(todayMeals, meal.id);
      if index.None? {
        return;
      }
      todayMeals := todayMeals[index.value := meal];
      SaveMeals(isToday);
    }

    /** Deletes the meals at `offsets` (an `IndexSet`, in its ascending iteration order) of
        the time-sorted list as it was before any removal. */
    method DeleteMeal(offsets: seq<int>, isToday: Timestamp -> bool)
      modifies this, defaults
      ensures todayMeals == RemoveAtOffsets(old(todayMeals), SortByTime(old(todayMeals)), offsets)
      ensures UniqueIds(old(todayMeals)) ==>
                todayMeals == RemoveIds(old(todayMeals), SelectedIds(SortByTime(old(todayMeals)), offsets))
      ensures defaults.data == SavedMeals(old(defaults.data), todayMeals, isToday)
    {
      var sorted := SortedMeals();
      ghost var original := todayMeals;
      var i := 0;
      while i < |offsets|
        invariant 0 <= i <= |offsets|
        invariant RemoveAtOffsets(todayMeals, sorted, offsets[i..]) == RemoveAtOffsets(original, sorted, offsets)
        invariant defaults.data == old(defaults.data)
        modifies this
      {
        ghost var before := todayMeals;
        var index := offsets[i];
        var mealToDelete := SafeGet(sorted, index);
        if mealToDelete.Some? {
          var actualIndex := IndexOfId(todayMeals, mealToDelete.value.id);
          if actualIndex.Some? {
            todayMeals := todayMeals[..actualIndex.value] + todayMeals[actualIndex.value + 1..];
          }
        }
        assert todayMeals == RemoveAtOffset(before, sorted, index);
        assert offsets[i..][1..] == offsets[i + 1..];
        assert RemoveAtOffsets(before, sorted, offsets[i..]) == RemoveAtOffsets(todayMeals, sorted, offsets[i + 1..]);
        i := i + 1;
      }
      assert offsets[i..] == [];
      if UniqueIds(original) {
        RemoveAtOffsetsIsRemoveIds(original, sorted, offsets);
      }
      SaveMeals(isToday);
    }

    method ClearAllMeals(isToday: Timestamp -> bool)
      modifies this, defaults
      ensures todayMeals == []
      ensures defaults.data == SavedMeals(old(defaults.data), [], isToday)
    {
      todayMeals := [];
      SaveMeals(isToday);
    }

    /** `saveMeals`: rewrites the stored meals, today's part from the in-memory list. */
    method SaveMeals(isToday: Timestamp -> bool)
      modifies defaults
      ensures defaults.data == SavedMeals(old(defaults.data), todayMeals, isToday)
    {
      var allMeals := StoredMeals(defaults.data);
      var otherDaysMeals := KeepDay(allMeals, MealTime, isToday, false);
      var combined := otherDaysMeals + todayMeals;
      defaults.data := defaults.data[MealsKey := MealListData(combined)];
    }
  }
}
