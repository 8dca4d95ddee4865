/** The key-value store the stores persist to (`UserDefaults`). A value is held as the
    record it encodes rather than as JSON bytes; a reader that finds a value of another
    shape, or `Unreadable` bytes, sees a failed decode. */
module Storage {
  import opened Fasting
  import opened Water
  import opened Meals
  import opened Weights

  datatype Value =
    | SessionData(session: FastSession)
    | SessionListData(sessions: seq<FastSession>)
    | WaterLogListData(logs: seq<WaterLog>)
    | WaterGoalData(goal: WaterGoal)
    | MealListData(meals: seq<PlannedMeal>)
    | WeightListData(entries: seq<WeightEntry>)
    | Text(text: string)
    | Unreadable

  /** Everything stored, by key. */
  type Snapshot = map<string, Value>

  /** The shared, mutable store, handed to each store that persists into it. */
  class Defaults {
    var data: Snapshot

    constructor (initial: Snapshot)
      ensures data == initial
    {
      data := initial;
    }
  }
}
