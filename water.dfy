/** The values of WaterIntake.swift: a water log entry and the daily goal. */
module Water {
  import opened Base

  /** One logged drink; immutable once created. */
  datatype WaterLog = WaterLog(id: Id, timestamp: Timestamp, amountMl: int)

  /** The daily goal and the reminder window, replaced wholesale on update. */
  datatype WaterGoal = WaterGoal(
    dailyGoalGlasses: int,
    glassSize: int,
    startTime: Timestamp,
    endTime: Timestamp,
    isReminderEnabled: bool)
  {
    /** The goal in millilitres. */
    function DailyGoalMl(): int {
      dailyGoalGlasses * glassSize
    }
  }

  /** `WaterGoal.default`: eight 250 ml glasses with reminders on; the reminder window's
      ends (7 AM and 11 PM of the current day, from the calendar) are supplied by the caller. */
  function DefaultGoal(sevenAm: Timestamp, elevenPm: Timestamp): (g: WaterGoal)
    ensures g.dailyGoalGlasses == 8 && g.glassSize == 250
    ensures g.DailyGoalMl() == 2000
    ensures g.isReminderEnabled
    ensures g.startTime == sevenAm && g.endTime == elevenPm
  {
    WaterGoal(8, 250, sevenAm, elevenPm, true)
  }

  /** The timestamp that decides which day a log belongs to. */
  function LogTime(l: WaterLog): Timestamp {
    l.timestamp
  }

  /** `logs.reduce(0) { $0 + $1.amountMl }`, folding from the first log. */
  function TotalMl(logs: seq<WaterLog>): (total: int)
    ensures (forall i :: 0 <= i < |logs| ==> logs[i].amountMl >= 0) ==> total >= 0
    decreases |logs|
  {
    if |logs| == 0 then 0
    else TotalMl(logs[..|logs| - 1]) + logs[|logs| - 1].amountMl
  }

  /** The total of two lists one after the other is the sum of their totals. */
  lemma {:induction false} TotalMlConcat(a: seq<WaterLog>, b: seq<WaterLog>)
    ensures TotalMl(a + b) == TotalMl(a) + TotalMl(b)
    decreases |b|
  {
    if |b| > 0 {
      assert (a + b)[..|a + b| - 1] == a + b[..|b| - 1];
      TotalMlConcat(a, b[..|b| - 1]);
    } else {
      assert a + b == a;
    }
  }
}
