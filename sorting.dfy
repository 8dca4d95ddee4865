/** Swift's `sorted(by:)` for the three key-based orders the stores use: history newest
    first by `completionDate ?? startDate`, weight entries newest first by `date`, and
    meals earliest first by `scheduledTime`. The model sorts stably by insertion. */
module Sorting {
  import opened Sequences

  datatype Direction = Ascending | Descending

  /** A record with key `a` may stand before one with key `b`. */
  predicate InOrder(a: int, b: int, dir: Direction) {
    match dir
    case Ascending => a <= b
    case Descending => a >= b
  }

  /** Every pair of records stands in the order `dir` asks for. */
  predicate Ordered<T>(s: seq<T>, key: T -> int, dir: Direction) {
    forall i, j :: 0 <= i < j < |s| ==> InOrder(key(s[i]), key(s[j]), dir)
  }

  /** Each record may precede its successor; the form the insertion step maintains. */
  predicate Chained<T>(s: seq<T>, key: T -> int, dir: Direction) {
    forall i :: 0 < i < |s| ==> InOrder(key(s[i - 1]), key(s[i]), dir)
  }

  /** Neighbour-by-neighbour order is order between every pair. */
  lemma {:induction false} ChainedOrdered<T>(s: seq<T>, key: T -> int, dir: Direction)
    requires Chained(s, key, dir)
    ensures Ordered(s, key, dir)
    decreases |s|
  {
    if |s| > 1 {
      ChainedOrdered(s[1..], key, dir);
      forall j | 0 < j < |s| ensures InOrder(key(s[0]), key(s[j]), dir) {
        assert InOrder(key(s[j - 1]), key(s[j]), dir);
        if j > 1 {
          assert InOrder(key(s[1..][0]), key(s[1..][j - 1]), dir);
        }
      }
    }
  }

  /** Places `x` before the first record it may precede. */
  function Insert<T>(x: T, s: seq<T>, key: T -> int, dir: Direction): (r: seq<T>)
    requires Chained(s, key, dir)
    ensures Chained(r, key, dir)
    ensures multiset(r) == multiset(s) + multiset{x}
    ensures |r| == |s| + 1
    ensures r[0] == x || (|s| > 0 && r[0] == s[0])
    decreases |s|
  {
    if |s| == 0 || InOrder(key(x), key(s[0]), dir) then [x] + s
    else
      assert s == [s[0]] + s[1..];
      [s[0]] + Insert(x, s[1..], key, dir)
  }

  /** The records of `s`, rearranged into the order `dir` asks for. */
  function SortBy<T>(s: seq<T>, key: T -> int, dir: Direction): (r: seq<T>)
    ensures Chained(r, key, dir) && Ordered(r, key, dir)
    ensures multiset(r) == multiset(s)
    ensures |r| == |s|
    decreases |s|
  {
    if |s| == 0 then []
    else
      var tail := SortBy(s[1..], key, dir);
      assert s == [s[0]] + s[1..];
      ChainedOrdered(Insert(s[0], tail, key, dir), key, dir);
      Insert(s[0], tail, key, dir)
  }

  /** Sorting a list already in order leaves it as it is: the sort is stable. */
  lemma {:induction false} SortByChainedIdentity<T>(s: seq<T>, key: T -> int, dir: Direction)
    requires Chained(s, key, dir)
    ensures SortBy(s, key, dir) == s
    decreases |s|
  {
    if |s| > 0 {
      SortByChainedIdentity(s[1..], key, dir);
      assert s == [s[0]] + s[1..];
    }
  }

  lemma OrderedChained<T>(s: seq<T>, key: T -> int, dir: Direction)
    requires Ordered(s, key, dir)
    ensures Chained(s, key, dir)
  {
    forall i | 0 < i < |s| ensures InOrder(key(s[i - 1]), key(s[i]), dir) {
      assert 0 <= i - 1 < i < |s|;
    }
  }

  lemma OrderedTail<T>(s: seq<T>, sortKey: T -> int, dir: Direction)
    requires Ordered(s, sortKey, dir) && |s| > 0
    ensures Ordered(s[1..], sortKey, dir)
    ensures forall x :: x in s[1..] ==> InOrder(sortKey(s[0]), sortKey(x), dir)
  {
    var rest := s[1..];
    forall i, j | 0 <= i < j < |rest| ensures InOrder(sortKey(rest[i]), sortKey(rest[j]), dir) {
      assert rest[i] == s[i + 1] && rest[j] == s[j + 1];
    }
    forall x | x in rest ensures InOrder(sortKey(s[0]), sortKey(x), dir) {
      var m :| 0 <= m < |rest| && rest[m] == x;
      assert s[m + 1] == x;
    }
  }

  /** Removing every record with one identifier keeps an ordered list ordered. */
  lemma {:induction false} RemoveKeyOrdered<T(!new)>(s: seq<T>, key: T -> int, k: int, sortKey: T -> int, dir: Direction)
    requires Ordered(s, sortKey, dir)
    ensures Ordered(RemoveKey(s, key, k), sortKey, dir)
    decreases |s|
  {
    if |s| > 0 {
      var rest := s[1..];
      OrderedTail(s, sortKey, dir);
      RemoveKeyOrdered(rest, key, k, sortKey, dir);
      if key(s[0]) != k {
        var tail := RemoveKey(rest, key, k);
        var r := RemoveKey(s, key, k);
        assert r == [s[0]] + tail;
        forall j | 0 < j < |r| ensures InOrder(sortKey(r[0]), sortKey(r[j]), dir) {
          assert r[j] == tail[j - 1];
          assert tail[j - 1] in tail;
        }
      }
    }
  }
}
