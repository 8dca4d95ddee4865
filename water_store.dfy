/** WaterIntakeStore (WaterIntake.swift): today's water logs and the daily goal, with
    the derived totals and the day-partitioned persistence of the logs. */
module WaterStore {
  import opened Base
  import opened Water
  import opened Sequences
  import opened Storage

  const LogsKey: string := "waterLogs"
  const GoalKey: string := "waterGoal"

  /** `loadAllLogs`: the logs of every day as stored; empty when absent or undecodable. */
  function StoredLogs(data: Snapshot): seq<WaterLog> {
    if LogsKey in data && data[LogsKey].WaterLogListData? then data[LogsKey].logs else []
  }

  /** `loadTodayLogs`: exactly the stored logs dated today, in stored order. */
  function LoadTodayLogs(data: Snapshot, isToday: Timestamp -> bool): (logs: seq<WaterLog>)
    ensures forall l :: l in logs <==> l in StoredLogs(data) && isToday(l.timestamp)
    ensures IsSubsequence(logs, StoredLogs(data))
    ensures forall l :: multiset(logs)[l] == if isToday(l.timestamp) then multiset(StoredLogs(data))[l] else 0
    ensures !(LogsKey in data && data[LogsKey].WaterLogListData?) ==> logs == []
  {
    KeepDayCount(StoredLogs(data), LogTime, isToday, true);
    KeepDayKeepsOrder(StoredLogs(data), LogTime, isToday, true);
    KeepDay(StoredLogs(data), LogTime, isToday, true)
  }

  /** `loadGoal`: the stored goal, or the default when absent or undecodable. */
  function LoadGoal(data: Snapshot, sevenAm: Timestamp, elevenPm: Timestamp): WaterGoal {
    if GoalKey in data && data[GoalKey].WaterGoalData? then data[GoalKey].goal else DefaultGoal(sevenAm, elevenPm)
  }

  /** What `saveLogs` leaves in the store: the other days' stored logs in stored order,
      then today's in-memory logs. */
  function SavedLogs(data: Snapshot, todayLogs: seq<WaterLog>, isToday: Timestamp -> bool): Snapshot {
    data[LogsKey := WaterLogListData(ReplaceToday(StoredLogs(data), todayLogs, LogTime, isToday))]
  }

  /** After a save, the stored logs of other days are the earlier ones, verbatim and in
      order, and loading today's logs gives back exactly the in-memory list: no earlier
      stored log of today survives. */
  lemma SaveThenLoad(data: Snapshot, todayLogs: seq<WaterLog>, isToday: Timestamp -> bool)
    requires forall l :: l in todayLogs ==> isToday(l.timestamp)
    ensures LoadTodayLogs(SavedLogs(data, todayLogs, isToday), isToday) == todayLogs
    ensures KeepDay(StoredLogs(SavedLogs(data, todayLogs, isToday)), LogTime, isToday, false)
         == KeepDay(StoredLogs(data), LogTime, isToday, false)
  {
    ReplaceTodayThenToday(StoredLogs(data), todayLogs, LogTime, isToday);
    ReplaceTodayKeepsOtherDays(StoredLogs(data), todayLogs, LogTime, isToday);
  }

  /** A log saved today is, once the day has changed, among the other days' logs. */
  lemma SavedLogsSurviveDayChange(data: Snapshot, todayLogs: seq<WaterLog>,
                                  isToday: Timestamp -> bool, isTomorrow: Timestamp -> bool)
    requires forall l :: l in todayLogs ==> !isTomorrow(l.timestamp)
    ensures KeepDay(StoredLogs(SavedLogs(data, todayLogs, isToday)), LogTime, isTomorrow, false)
         == KeepDay(KeepDay(StoredLogs(data), LogTime, isToday, false), LogTime, isTomorrow, false) + todayLogs
    ensures LoadTodayLogs(SavedLogs(data, todayLogs, isToday), isTomorrow)
         == LoadTodayLogs(data[LogsKey := WaterLogListData(KeepDay(StoredLogs(data), LogTime, isToday, false))], isTomorrow)
  {
    var others := KeepDay(StoredLogs(data), LogTime, isToday, false);
    ReplaceTodayAfterDayChange(StoredLogs(data), todayLogs, LogTime, isToday, isTomorrow);
    KeepDayConcat(others, todayLogs, LogTime, isTomorrow, true);
    KeepDayNone(todayLogs, LogTime, isTomorrow, true);
  }

  /** Saving a goal and loading it again gives it back, whatever the defaults. */
  lemma GoalRoundTrip(data: Snapshot, goal: WaterGoal, sevenAm: Timestamp, elevenPm: Timestamp)
    ensures LoadGoal(data[GoalKey := WaterGoalData(goal)], sevenAm, elevenPm) == goal
  {
  }

  class WaterIntakeStore {
    /** The logs of the current day, oldest first. */
    var todayLogs: seq<WaterLog>
    var goal: WaterGoal
    const defaults: Defaults

    constructor (defaults: Defaults, isToday: Timestamp -> bool, sevenAm: Timestamp, elevenPm: Timestamp)
      ensures this.defaults == defaults
      ensures goal == LoadGoal(defaults.data, sevenAm, elevenPm)
      ensures todayLogs == LoadTodayLogs(defaults.data, isToday)
    {
      this.defaults := defaults;
      goal := LoadGoal(defaults.data, sevenAm, elevenPm);
      todayLogs := LoadTodayLogs(defaults.data, isToday);
    }

    function TodayTotalMl(): int
      reads this
    {
      TotalMl(todayLogs)
    }

    function TodayGlassesCount(): nat
      reads this
    {
      |todayLogs|
    }

    function IsGoalReached(): bool
      reads this
    {
      TodayTotalMl() >= goal.DailyGoalMl()
    }

    /** Today's total over the goal, clamped at 1; 0 when the goal is not positive. The
        bar is full exactly when the goal is reached. */
    function Progress(): (r: real)
      reads this
      ensures goal.DailyGoalMl() <= 0 ==> r == 0.0
      ensures r <= 1.0
      ensures goal.DailyGoalMl() > 0 ==> (r == 1.0 <==> IsGoalReached())
      ensures goal.DailyGoalMl() > 0 && !IsGoalReached() ==> r == TodayTotalMl() as real / goal.DailyGoalMl() as real
    {
      ClampedRatio(TodayTotalMl(), goal.DailyGoalMl())
    }

    /** Glasses still to drink, floored at 0. */
    function RemainingGlasses(): (r: int)
      reads this
      ensures r >= 0
      ensures r == 0 <==> TodayGlassesCount() >= goal.dailyGoalGlasses
      ensures r > 0 ==> TodayGlassesCount() + r == goal.dailyGoalGlasses
    {
      if goal.dailyGoalGlasses - TodayGlassesCount() >= 0 then goal.dailyGoalGlasses - TodayGlassesCount() else 0
    }

    /** Appends one log of `amountMl`, or of one glass when no amount is given, timed
        `now` under the fresh identifier `id`. */
    method LogWater(amountMl: Option<int>, id: Id, now: Timestamp, isToday: Timestamp -> bool)
      modifies this, defaults
      ensures todayLogs == old(todayLogs) + [WaterLog(id, now, amountMl.GetOr(old(goal).glassSize))]
      ensures goal == old(goal)
      ensures TodayTotalMl() == old(TodayTotalMl()) + amountMl.GetOr(goal.glassSize)
      ensures TodayGlassesCount() == old(TodayGlassesCount()) + 1
      ensures defaults.data == SavedLogs(old(defaults.data), todayLogs, isToday)
    {
      var amount := amountMl.GetOr(goal.glassSize);
      var log := WaterLog(id, now, amount);
      TotalMlConcat(todayLogs, [log]);
      todayLogs := todayLogs + [log];
      SaveLogs(isToday);
    }

    /** Removes the most recent log; with no logs nothing happens. */
    method UndoLastLog(isToday: Timestamp -> bool)
      modifies this, defaults
      ensures goal == old(goal)
      ensures old(todayLogs) == [] ==> todayLogs == [] && defaults.data == old(defaults.data)
      ensures old(todayLogs) != [] ==>
                && todayLogs == old(todayLogs)[..|old(todayLogs)| - 1]
                && TodayTotalMl() == old(TodayTotalMl()) - old(todayLogs)[|old(todayLogs)| - 1].amountMl
                && defaults.data == SavedLogs(old(defaults.data), todayLogs, isToday)
    {
      if todayLogs == [] {
        return;
      }
      todayLogs := todayLogs[..|todayLogs| - 1];
      SaveLogs(isToday);
    }

    /** Replaces the goal wholesale. */
    method UpdateGoal(newGoal: WaterGoal)
      modifies this, defaults
      ensures goal == newGoal
      ensures todayLogs == old(todayLogs)
      ensures defaults.data == old(defaults.data)[GoalKey := WaterGoalData(newGoal)]
    {
      goal := newGoal;
      SaveGoal();
    }

    method ClearTodayLogs(isToday: Timestamp -> bool)
      modifies this, defaults
      ensures todayLogs == []
      ensures goal == old(goal)
      ensures defaults.data == SavedLogs(old(defaults.data), [], isToday)
    {
      todayLogs := [];
      SaveLogs(isToday);
    }

    /** `saveLogs`: rewrites the stored logs, today's part from the in-memory list. */
    method SaveLogs(isToday: Timestamp -> bool)
      modifies defaults
      ensures defaults.data == SavedLogs(old(defaults.data), todayLogs, isToday)
    {
      var allLogs := StoredLogs(defaults.data);
      var otherDaysLogs := KeepDay(allLogs, LogTime, isToday, false);
      var combined := otherDaysLogs + todayLogs;
      defaults.data := defaults.data[LogsKey := WaterLogListData(combined)];
    }

    method SaveGoal()
      modifies defaults
      ensures defaults.data == old(defaults.data)[GoalKey := WaterGoalData(goal)]
    {
      defaults.data := defaults.data[GoalKey := WaterGoalData(goal)];
    }
  }
}
