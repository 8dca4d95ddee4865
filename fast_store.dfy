/** FastSessionStore.swift: at most one active fast, the history of completed fasts,
    the statistics derived from that history, and their persistence. */
module FastStore {
  import opened Base
  import opened Fasting
  import opened Sequences
  import opened Sorting
  import opened Storage

  const ActiveKey: string := "fastSession.active"
  const HistoryKey: string := "fastSession.history"

  /** Two completions at most this many seconds apart still continue a streak. */
  const StreakWindow: int := 48 * 3600

  function SessionId(s: FastSession): int {
    s.id
  }

  /** The date history is ordered by: the completion, or the start when there is none. */
  function HistoryDate(s: FastSession): Timestamp {
    s.completionDate.GetOr(s.startDate)
  }

  // ---------------------------------------------------------------------------
  // Loading and persisting

  /** `loadActiveSession`: the stored session, or none when the key is absent or
      does not decode. */
  function LoadActiveSession(data: Snapshot): Option<FastSession> {
    if ActiveKey in data && data[ActiveKey].SessionData? then Some(data[ActiveKey].session) else None
  }

  /** The stored history as decoded, before sorting; empty when absent or undecodable. */
  function StoredHistory(data: Snapshot): seq<FastSession> {
    if HistoryKey in data && data[HistoryKey].SessionListData? then data[HistoryKey].sessions else []
  }

  /** `loadHistory`: the stored sessions, newest first. */
  function LoadHistory(data: Snapshot): (h: seq<FastSession>)
    ensures multiset(h) == multiset(StoredHistory(data))
    ensures Ordered(h, HistoryDate, Descending)
    ensures !(HistoryKey in data && data[HistoryKey].SessionListData?) ==> h == []
  {
    SortBy(StoredHistory(data), HistoryDate, Descending)
  }

  /** What `persistActiveSession` leaves in the store: the session under its key, or
      the key removed when there is no active session. */
  function WithActive(data: Snapshot, active: Option<FastSession>): Snapshot {
    match active
    case Some(s) => data[ActiveKey := SessionData(s)]
    case None => data - {ActiveKey}
  }

  /** Persisting and then loading gives back the active slot exactly. */
  lemma ActiveRoundTrip(data: Snapshot, active: Option<FastSession>)
    ensures LoadActiveSession(WithActive(data, active)) == active
  {
  }

  /** Persisting a history and loading it again gives the same sessions, newest first;
      a history already newest first comes back unchanged. */
  lemma HistoryRoundTrip(data: Snapshot, history: seq<FastSession>)
    ensures multiset(LoadHistory(data[HistoryKey := SessionListData(history)])) == multiset(history)
    ensures Ordered(LoadHistory(data[HistoryKey := SessionListData(history)]), HistoryDate, Descending)
    ensures Ordered(history, HistoryDate, Descending) ==>
              LoadHistory(data[HistoryKey := SessionListData(history)]) == history
  {
    if Ordered(history, HistoryDate, Descending) {
      OrderedChained(history, HistoryDate, Descending);
      SortByChainedIdentity(history, HistoryDate, Descending);
    }
  }

  // ---------------------------------------------------------------------------
  // Statistics over a history

  /** `history.map { $0.elapsedSeconds / 3600 }.max() ?? 0`. */
  function LongestHours(history: seq<FastSession>, now: Timestamp): (r: real)
    ensures |history| == 0 ==> r == 0.0
    ensures forall i :: 0 <= i < |history| ==> ElapsedHours(history[i], now) <= r
    ensures |history| > 0 ==> exists i :: 0 <= i < |history| && r == ElapsedHours(history[i], now)
    decreases |history|
  {
    if |history| == 0 then 0.0
    else if |history| == 1 then ElapsedHours(history[0], now)
    else
      var first, rest := ElapsedHours(history[0], now), LongestHours(history[1..], now);
      assert forall i :: 1 <= i < |history| ==> history[i] == history[1..][i - 1];
      if first >= rest then first else rest
  }

  /** `history.reduce(0) { $0 + ($1.elapsedSeconds / 3600) }`. */
  function TotalHours(history: seq<FastSession>, now: Timestamp): real
    decreases |history|
  {
    if |history| == 0 then 0.0 else ElapsedHours(history[0], now) + TotalHours(history[1..], now)
  }

  lemma {:induction false} TotalHoursAtMost(history: seq<FastSession>, now: Timestamp, bound: real)
    requires forall i :: 0 <= i < |history| ==> ElapsedHours(history[i], now) <= bound
    ensures TotalHours(history, now) <= |history| as real * bound
    decreases |history|
  {
    if |history| > 0 {
      assert forall i :: 0 <= i < |history| - 1 ==> history[1..][i] == history[i + 1];
      TotalHoursAtMost(history[1..], now, bound);
      assert |history| as real * bound == bound + (|history| - 1) as real * bound;
    }
  }

  lemma {:induction false} TotalHoursAbove(history: seq<FastSession>, now: Timestamp, bound: real)
    requires |history| > 0
    requires forall i :: 0 <= i < |history| ==> ElapsedHours(history[i], now) > bound
    ensures TotalHours(history, now) > |history| as real * bound
    decreases |history|
  {
    assert forall i :: 0 <= i < |history| - 1 ==> history[1..][i] == history[i + 1];
    if |history| > 1 {
      TotalHoursAbove(history[1..], now, bound);
      assert |history| as real * bound == bound + (|history| - 1) as real * bound;
    }
  }

  /** Some fast is no longer than the mean. */
  lemma SomeAtMostMean(history: seq<FastSession>, now: Timestamp, mean: real)
    requires |history| > 0 && mean * |history| as real == TotalHours(history, now)
    ensures exists i :: 0 <= i < |history| && ElapsedHours(history[i], now) <= mean
  {
    if forall i :: 0 <= i < |history| ==> ElapsedHours(history[i], now) > mean {
      TotalHoursAbove(history, now, mean);
    }
  }

  lemma DivMul(t: real, n: real)
    requires n != 0.0
    ensures t / n * n == t
  {
  }

  lemma MeanTimes(total: real, n: real, mean: real)
    requires n != 0.0 && mean == total / n
    ensures mean * n == total
  {
  }

  lemma QuotientAtMost(total: real, n: real, bound: real)
    requires n > 0.0 && total <= n * bound
    ensures total / n <= bound
  {
    var q := total / n;
    assert q * n == total;
  }

  /** The mean never exceeds the longest fast. */
  lemma MeanAtMostLongest(history: seq<FastSession>, now: Timestamp)
    requires |history| > 0
    ensures TotalHours(history, now) / |history| as real <= LongestHours(history, now)
  {
    TotalHoursAtMost(history, now, LongestHours(history, now));
    QuotientAtMost(TotalHours(history, now), |history| as real, LongestHours(history, now));
  }

  /** The mean is at least the shortest fast. */
  lemma MeanAtLeastShortest(history: seq<FastSession>, now: Timestamp)
    requires |history| > 0
    ensures exists i :: 0 <= i < |history| && ElapsedHours(history[i], now) <= TotalHours(history, now) / |history| as real
  {
    DivMul(TotalHours(history, now), |history| as real);
    SomeAtMostMean(history, now, TotalHours(history, now) / |history| as real);
  }

  /** The mean fast length in hours, 0 for an empty history: times the number of fasts it
      gives the total, it never exceeds the longest fast and never falls below the shortest. */
  function AverageHours(history: seq<FastSession>, now: Timestamp): (r: real)
    ensures |history| == 0 ==> r == 0.0
    ensures r <= LongestHours(history, now)
    ensures |history| > 0 ==> exists i :: 0 <= i < |history| && ElapsedHours(history[i], now) <= r
  {
    if |history| == 0 then 0.0
    else
      MeanAtMostLongest(history, now);
      MeanAtLeastShortest(history, now);
      TotalHours(history, now) / |history| as real
  }

  /** The average is the mean: times the number of fasts it gives the total hours. */
  lemma AverageIsMean(history: seq<FastSession>, now: Timestamp)
    requires |history| > 0
    ensures AverageHours(history, now) * |history| as real == TotalHours(history, now)
  {
    MeanTimes(TotalHours(history, now), |history| as real, AverageHours(history, now));
  }

  /** The first `k` sessions all carry a completion date, and each completed at most
      `StreakWindow` seconds before its predecessor (or later than it). */
  predicate Continues(history: seq<FastSession>, k: nat) {
    k <= |history| &&
    (forall j :: 0 <= j < k ==> history[j].completionDate.Some?) &&
    (forall j :: 0 < j < k ==>
       history[j - 1].completionDate.value - history[j].completionDate.value <= StreakWindow)
  }

  /** `k` is the length of the longest prefix that continues. */
  predicate IsStreak(history: seq<FastSession>, k: nat) {
    Continues(history, k) && (k < |history| ==> !Continues(history, k + 1))
  }

  lemma ContinuesPrefix(history: seq<FastSession>, k: nat, m: nat)
    requires m <= k && Continues(history, k)
    ensures Continues(history, m)
  {
  }

  /** The streak is well defined: at most one length is the longest continuing prefix. */
  lemma StreakUnique(history: seq<FastSession>, a: nat, b: nat)
    requires IsStreak(history, a) && IsStreak(history, b)
    ensures a == b
  {
    if a < b {
      ContinuesPrefix(history, b, a + 1);
    } else if b < a {
      ContinuesPrefix(history, a, b + 1);
    }
  }

  /** The streak is 0 exactly when the history is empty or its newest entry has no
      completion date, and otherwise between 1 and the history's length. */
  lemma StreakBounds(history: seq<FastSession>, k: nat)
    requires IsStreak(history, k)
    ensures k <= |history|
    ensures k == 0 <==> |history| == 0 || history[0].completionDate.None?
  {
  }

  /** Two completed fasts: a gap of up to 48 hours, exactly 48 hours included, keeps
      both in the streak; one second more ends it after the first. */
  lemma TwoFastStreak(newer: FastSession, older: FastSession)
    requires newer.completionDate.Some? && older.completionDate.Some?
    ensures IsStreak([newer, older],
                     if newer.completionDate.value - older.completionDate.value <= 48 * 3600 then 2 else 1)
  {
    var history := [newer, older];
    if newer.completionDate.value - older.completionDate.value > StreakWindow {
      assert history[0].completionDate.value - history[1].completionDate.value > StreakWindow;
    }
  }

  // ---------------------------------------------------------------------------

  class FastSessionStore {
    /** The running fast, if any. */
    var activeSession: Option<FastSession>
    /** Completed fasts, meant to be newest first. */
    var history: seq<FastSession>
    const userDefaults: Defaults

    constructor (userDefaults: Defaults)
      ensures this.userDefaults == userDefaults
      ensures activeSession == LoadActiveSession(userDefaults.data)
      ensures history == LoadHistory(userDefaults.data)
    {
      this.userDefaults := userDefaults;
      activeSession := LoadActiveSession(userDefaults.data);
      history := LoadHistory(userDefaults.data);
    }

    /** Makes `session` the active fast. A fast that was already active is dropped: it is
        neither cancelled nor recorded in history. */
    method Start(session: FastSession)
      modifies this, userDefaults
      ensures activeSession == Some(session)
      ensures history == old(history)
      ensures userDefaults.data == old(userDefaults.data)[ActiveKey := SessionData(session)]
    {
      activeSession := Some(session);
      PersistActiveSession();
    }

    /** Stamps the active fast as completed at `completionDate` with `note`, clears the
        active slot and puts the fast at the front of history; without an active fast
        nothing happens. */
    method CompleteActiveSession(completionDate: Timestamp, note: Option<string>)
      modifies this, userDefaults
      ensures old(activeSession).None? ==>
                activeSession == None && history == old(history) && userDefaults.data == old(userDefaults.data)
      ensures old(activeSession).Some? ==>
                var s := old(activeSession).value;
                && activeSession == None
                && history == [s.(status := Completed, completionDate := Some(completionDate),
                                  note := note, endDate := Some(completionDate))] + old(history)
                && userDefaults.data == (old(userDefaults.data) - {ActiveKey})[HistoryKey := SessionListData(history)]
      ensures old(activeSession).Some? ==>
                && |history| == |old(history)| + 1
                && ExpectedEndDate(history[0]) == completionDate
                && forall now :: ElapsedSeconds(history[0], now) == completionDate - old(activeSession).value.startDate
    {
      if activeSession.None? {
        return;
      }
      var session := activeSession.value;
      session := session.(status := Completed);
      session := session.(completionDate := Some(completionDate));
      session := session.(note := note);
      session := session.(endDate := Some(completionDate));
      activeSession := None;
      history := [session] + history;
      PersistActiveSession();
      PersistHistory();
    }

    /** Discards the active fast without recording it. */
    method CancelActiveSession()
      modifies this, userDefaults
      ensures activeSession == None
      ensures history == old(history)
      ensures userDefaults.data == old(userDefaults.data) - {ActiveKey}
    {
      activeSession := None;
      PersistActiveSession();
    }

    /** Removes every history entry with identifier `id`; the others keep their order. */
    method DeleteHistoryEntry(id: Id)
      modifies this, userDefaults
      ensures activeSession == old(activeSession)
      ensures history == RemoveKey(old(history), SessionId, id)
      ensures forall s :: s in history <==> s in old(history) && s.id != id
      ensures IsSubsequence(history, old(history))
      ensures Ordered(old(history), HistoryDate, Descending) ==> Ordered(history, HistoryDate, Descending)
      ensures userDefaults.data == old(userDefaults.data)[HistoryKey := SessionListData(history)]
    {
      RemoveKeyKeepsOrder(history, SessionId, id);
      if Ordered(history, HistoryDate, Descending) {
        RemoveKeyOrdered(history, SessionId, id, HistoryDate, Descending);
      }
      history := RemoveKey(history, SessionId, id);
      PersistHistory();
    }

    method ClearHistory()
      modifies this, userDefaults
      ensures activeSession == old(activeSession)
      ensures history == []
      ensures userDefaults.data == old(userDefaults.data)[HistoryKey := SessionListData([])]
    {
      history := [];
      PersistHistory();
    }

    function CompletedCount(): nat
      reads this
    {
      |history|
    }

    function LongestFastHours(now: Timestamp): real
      reads this
    {
      LongestHours(history, now)
    }

    function AverageFastHours(now: Timestamp): real
      reads this
    {
      AverageHours(history, now)
    }

    /** Walks history from the newest entry while completion dates are present and each
        lies within the streak window of the one before it. */
    method CurrentStreak() returns (streak: nat)
      ensures IsStreak(history, streak)
    {
      if |history| == 0 || history[0].completionDate.None? {
        return 0;
      }
      var latest := history[0].completionDate.value;
      streak := 0;
      var previousDate := latest;
      var i := 0;
      while i < |history|
        invariant 0 <= i <= |history|
        invariant streak == i
        invariant Continues(history, i)
        invariant previousDate == if i == 0 then latest else history[i - 1].completionDate.value
      {
        var session := history[i];
        if session.completionDate.None? {
          break;
        }
        var completionDate := session.completionDate.value;
        var difference := previousDate - completionDate;
        if difference <= StreakWindow {
          streak := streak + 1;
          previousDate := completionDate;
        } else {
          break;
        }
        i := i + 1;
      }
    }

    /** `persistActiveSession`. */
    method PersistActiveSession()
      modifies userDefaults
      ensures userDefaults.data == WithActive(old(userDefaults.data), activeSession)
    {
      match activeSession
      case Some(session) =>
        userDefaults.data := userDefaults.data[ActiveKey := SessionData(session)];
      case None =>
        userDefaults.data := userDefaults.data - {ActiveKey};
    }

    /** `persistHistory`. */
    method PersistHistory()
      modifies userDefaults
      ensures userDefaults.data == old(userDefaults.data)[HistoryKey := SessionListData(history)]
    {
      userDefaults.data := userDefaults.data[HistoryKey := SessionListData(history)];
    }
  }
}
