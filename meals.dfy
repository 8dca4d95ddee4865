/** The values of MealPlan.swift: the meal type and the planned meal, with the
    lookups and counts the meal plan store is built from. */
module Meals {
  import opened Base

  datatype MealType = Breakfast | Lunch | Dinner | Snack

  /** A planned meal; everything but its id can be changed in place. */
  datatype PlannedMeal = PlannedMeal(
    id: Id,
    mealType: MealType,
    scheduledTime: Timestamp,
    notes: Option<string>,
    isCompleted: bool)

  /** The initializer with the completion flag left at its default; the fresh id
      (`UUID()`) is supplied by the caller. */
  function NewMeal(id: Id, mealType: MealType, scheduledTime: Timestamp, notes: Option<string>): (m: PlannedMeal)
    ensures !m.isCompleted
    ensures m.id == id && m.mealType == mealType && m.scheduledTime == scheduledTime && m.notes == notes
  {
    PlannedMeal(id, mealType, scheduledTime, notes, false)
  }

  /** The timestamp meals are sorted by and assigned to a day by. */
  function MealTime(m: PlannedMeal): Timestamp {
    m.scheduledTime
  }

  /** `meals.firstIndex { $0.id == id }`. */
  function IndexOfId(meals: seq<PlannedMeal>, id: Id): (r: Option<nat>)
    ensures r.Some? ==> r.value < |meals| && meals[r.value].id == id
    ensures r.Some? ==> forall j :: 0 <= j < r.value ==> meals[j].id != id
    ensures r.None? <==> forall j :: 0 <= j < |meals| ==> meals[j].id != id
    decreases |meals|
  {
    if |meals| == 0 then None
    else if meals[0].id == id then Some(0)
    else
      match IndexOfId(meals[1..], id)
      case None => None
      case Some(k) => Some(k + 1)
  }

  /** `meals.filter { $0.isCompleted }.count`. */
  function CountCompleted(meals: seq<PlannedMeal>): (n: nat)
    ensures n <= |meals|
    ensures n == |meals| <==> forall i :: 0 <= i < |meals| ==> meals[i].isCompleted
    ensures n == 0 <==> forall i :: 0 <= i < |meals| ==> !meals[i].isCompleted
    decreases |meals|
  {
    if |meals| == 0 then 0
    else (if meals[0].isCompleted then 1 else 0) + CountCompleted(meals[1..])
  }

  /** Changing one meal's completion flag, and nothing else about the list's flags,
      moves the completed count by exactly one. */
  lemma {:induction false} CountCompletedFlip(meals: seq<PlannedMeal>, k: nat, m: PlannedMeal)
    requires k < |meals| && m.isCompleted != meals[k].isCompleted
    ensures CountCompleted(meals[k := m]) == CountCompleted(meals) + (if m.isCompleted then 1 else -1)
    decreases |meals|
  {
    if k > 0 {
      assert meals[k := m][1..] == meals[1..][k - 1 := m];
      CountCompletedFlip(meals[1..], k - 1, m);
    } else {
      assert meals[k := m][1..] == meals[1..];
    }
  }

  /** No two meals share an id, as `UUID()` guarantees for meals the store creates. */
  predicate UniqueIds(meals: seq<PlannedMeal>) {
    forall i, j :: 0 <= i < j < |meals| ==> meals[i].id != meals[j].id
  }

  /** The meals whose id is not in `ids`, in their original order. */
  function RemoveIds(meals: seq<PlannedMeal>, ids: set<Id>): (r: seq<PlannedMeal>)
    ensures forall m :: m in r <==> m in meals && m.id !in ids
    ensures |r| <= |meals|
    decreases |meals|
  {
    if |meals| == 0 then []
    else if meals[0].id in ids then RemoveIds(meals[1..], ids)
    else [meals[0]] + RemoveIds(meals[1..], ids)
  }
}
