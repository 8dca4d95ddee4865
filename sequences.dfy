/** The array operations the stores build on: Swift's `removeAll(where:)` keyed on one
    field, the day filter behind the day-partitioned saves, and the bounds-safe subscript. */
module Sequences {
  import opened Base

  /** `r` is `s` with some elements dropped and the rest in their original order. */
  predicate IsSubsequence<T(==)>(r: seq<T>, s: seq<T>)
    decreases |s|
  {
    if r == [] then true
    else if s == [] then false
    else (r[0] == s[0] && IsSubsequence(r[1..], s[1..])) || IsSubsequence(r, s[1..])
  }

  /** `s[safe: i]`: the element at `i` when `i` indexes `s`, and nothing otherwise. */
  function SafeGet<T>(s: seq<T>, i: int): (r: Option<T>)
    ensures r.Some? <==> 0 <= i < |s|
    ensures r.Some? ==> r.value == s[i]
  {
    if 0 <= i < |s| then Some(s[i]) else None
  }

  /** `s.removeAll { key($0) == k }`. */
  function RemoveKey<T(!new)>(s: seq<T>, key: T -> int, k: int): (r: seq<T>)
    ensures forall x :: x in r <==> x in s && key(x) != k
    ensures |r| <= |s|
    ensures |r| == |s| <==> forall x :: x in s ==> key(x) != k
    ensures forall x :: multiset(r)[x] == if key(x) != k then multiset(s)[x] else 0
    decreases |s|
  {
    if |s| == 0 then []
    else
      assert s == [s[0]] + s[1..];
      if key(s[0]) == k then RemoveKey(s[1..], key, k)
    else [s[0]] + RemoveKey(s[1..], key, k)
  }

  /** Removing a key no element carries changes nothing. */
  lemma {:induction false} RemoveKeyAbsent<T(!new)>(s: seq<T>, key: T -> int, k: int)
    requires forall x :: x in s ==> key(x) != k
    ensures RemoveKey(s, key, k) == s
    decreases |s|
  {
    if |s| > 0 {
      assert forall x :: x in s[1..] ==> x in s;
      RemoveKeyAbsent(s[1..], key, k);
      assert s == [s[0]] + s[1..];
    }
  }

  /** The survivors of a removal keep their original relative order. */
  lemma {:induction false} RemoveKeyKeepsOrder<T(!new)>(s: seq<T>, key: T -> int, k: int)
    ensures IsSubsequence(RemoveKey(s, key, k), s)
    decreases |s|
  {
    if |s| > 0 {
      RemoveKeyKeepsOrder(s[1..], key, k);
      var r := RemoveKey(s, key, k);
      if key(s[0]) != k {
        assert r[0] == s[0] && r[1..] == RemoveKey(s[1..], key, k);
      }
    }
  }

  /** The elements of `s` whose timestamp `isToday` classifies as `today`, in order:
      `filter { isDateInToday(stamp($0)) }` for `today`, its negation otherwise. */
  function KeepDay<T(!new)>(s: seq<T>, stamp: T -> Timestamp, isToday: Timestamp -> bool, today: bool): (r: seq<T>)
    ensures forall x :: x in r <==> x in s && isToday(stamp(x)) == today
    ensures |r| <= |s|
    decreases |s|
  {
    if |s| == 0 then []
    else if isToday(stamp(s[0])) == today then [s[0]] + KeepDay(s[1..], stamp, isToday, today)
    else KeepDay(s[1..], stamp, isToday, today)
  }

  /** The day-partitioned save: every stored record of another day, in stored order,
      followed by the in-memory list that is the sole authority for today. */
  function ReplaceToday<T(!new)>(stored: seq<T>, todays: seq<T>, stamp: T -> Timestamp, isToday: Timestamp -> bool): seq<T> {
    KeepDay(stored, stamp, isToday, false) + todays
  }

  lemma {:induction false} KeepDayConcat<T(!new)>(a: seq<T>, b: seq<T>, stamp: T -> Timestamp, isToday: Timestamp -> bool, today: bool)
    ensures KeepDay(a + b, stamp, isToday, today) == KeepDay(a, stamp, isToday, today) + KeepDay(b, stamp, isToday, today)
    decreases |a|
  {
    if |a| > 0 {
      assert (a + b)[1..] == a[1..] + b;
      KeepDayConcat(a[1..], b, stamp, isToday, today);
    } else {
      assert a + b == b;
    }
  }

  /** A list whose records all fall on the selected side passes the filter unchanged. */
  lemma {:induction false} KeepDayAll<T(!new)>(s: seq<T>, stamp: T -> Timestamp, isToday: Timestamp -> bool, today: bool)
    requires forall x :: x in s ==> isToday(stamp(x)) == today
    ensures KeepDay(s, stamp, isToday, today) == s
    decreases |s|
  {
    if |s| > 0 {
      assert forall x :: x in s[1..] ==> x in s;
      KeepDayAll(s[1..], stamp, isToday, today);
      assert s == [s[0]] + s[1..];
    }
  }

  /** A list with no record on the selected side filters to nothing. */
  lemma {:induction false} KeepDayNone<T(!new)>(s: seq<T>, stamp: T -> Timestamp, isToday: Timestamp -> bool, today: bool)
    requires forall x :: x in s ==> isToday(stamp(x)) != today
    ensures KeepDay(s, stamp, isToday, today) == []
    decreases |s|
  {
    if |s| > 0 {
      assert forall x :: x in s[1..] ==> x in s;
      KeepDayNone(s[1..], stamp, isToday, today);
    }
  }

  lemma {:induction false} KeepDayKeepsOrder<T(!new)>(s: seq<T>, stamp: T -> Timestamp, isToday: Timestamp -> bool, today: bool)
    ensures IsSubsequence(KeepDay(s, stamp, isToday, today), s)
    decreases |s|
  {
    if |s| > 0 {
      KeepDayKeepsOrder(s[1..], stamp, isToday, today);
      var r := KeepDay(s, stamp, isToday, today);
      if isToday(stamp(s[0])) == today {
        assert r[0] == s[0] && r[1..] == KeepDay(s[1..], stamp, isToday, today);
      }
    }
  }

  /** The filter keeps every copy of a selected record and none of the others. */
  lemma {:induction false} KeepDayCount<T(!new)>(s: seq<T>, stamp: T -> Timestamp, isToday: Timestamp -> bool, today: bool)
    ensures forall x :: multiset(KeepDay(s, stamp, isToday, today))[x] == if isToday(stamp(x)) == today then multiset(s)[x] else 0
    decreases |s|
  {
    if |s| > 0 {
      KeepDayCount(s[1..], stamp, isToday, today);
      assert s == [s[0]] + s[1..];
    }
  }

  /** Today's records and the other days' records together are exactly the records. */
  lemma {:induction false} KeepDayPartition<T(!new)>(s: seq<T>, stamp: T -> Timestamp, isToday: Timestamp -> bool)
    ensures multiset(KeepDay(s, stamp, isToday, true)) + multiset(KeepDay(s, stamp, isToday, false)) == multiset(s)
    decreases |s|
  {
    if |s| > 0 {
      KeepDayPartition(s[1..], stamp, isToday);
      assert s == [s[0]] + s[1..];
    }
  }

  /** Reading today's records back after a save yields today's in-memory list, provided
      every record in it is dated today; no earlier stored record of today survives. */
  lemma ReplaceTodayThenToday<T(!new)>(stored: seq<T>, todays: seq<T>, stamp: T -> Timestamp, isToday: Timestamp -> bool)
    requires forall x :: x in todays ==> isToday(stamp(x))
    ensures KeepDay(ReplaceToday(stored, todays, stamp, isToday), stamp, isToday, true) == todays
  {
    var others := KeepDay(stored, stamp, isToday, false);
    KeepDayConcat(others, todays, stamp, isToday, true);
    KeepDayNone(others, stamp, isToday, true);
    KeepDayAll(todays, stamp, isToday, true);
  }

  /** A save carries every other day's record through verbatim and in order. */
  lemma ReplaceTodayKeepsOtherDays<T(!new)>(stored: seq<T>, todays: seq<T>, stamp: T -> Timestamp, isToday: Timestamp -> bool)
    requires forall x :: x in todays ==> isToday(stamp(x))
    ensures KeepDay(ReplaceToday(stored, todays, stamp, isToday), stamp, isToday, false)
         == KeepDay(stored, stamp, isToday, false)
  {
    var others := KeepDay(stored, stamp, isToday, false);
    KeepDayConcat(others, todays, stamp, isToday, false);
    KeepDayAll(others, stamp, isToday, false);
    KeepDayNone(todays, stamp, isToday, false);
  }

  /** Saving the same list twice stores the same thing as saving it once. */
  lemma ReplaceTodayIdempotent<T(!new)>(stored: seq<T>, todays: seq<T>, stamp: T -> Timestamp, isToday: Timestamp -> bool)
    requires forall x :: x in todays ==> isToday(stamp(x))
    ensures ReplaceToday(ReplaceToday(stored, todays, stamp, isToday), todays, stamp, isToday)
         == ReplaceToday(stored, todays, stamp, isToday)
  {
    ReplaceTodayKeepsOtherDays(stored, todays, stamp, isToday);
  }

  /** When the day changes, the records saved as today's land at the end of the
      other days' partition, untouched. */
  lemma ReplaceTodayAfterDayChange<T(!new)>(stored: seq<T>, todays: seq<T>, stamp: T -> Timestamp,
                                      isToday: Timestamp -> bool, isTomorrow: Timestamp -> bool)
    requires forall x :: x in todays ==> !isTomorrow(stamp(x))
    ensures KeepDay(ReplaceToday(stored, todays, stamp, isToday), stamp, isTomorrow, false)
         == KeepDay(KeepDay(stored, stamp, isToday, false), stamp, isTomorrow, false) + todays
  {
    KeepDayConcat(KeepDay(stored, stamp, isToday, false), todays, stamp, isTomorrow, false);
    KeepDayAll(todays, stamp, isTomorrow, false);
  }
}
