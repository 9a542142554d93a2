/** The date-range selection of the gallery: `filterDataByDateRange`. */
module RangeFilter {
  import opened Entries

  /** The filter's predicate, `itemDate >= start && itemDate <= end`: inclusive at
      both ends, and false as soon as any of the three dates is invalid. */
  predicate InRange(d: Date, start: Date, end: Date) {
    NotBefore(d, start) && NotAfter(d, end)
  }

  /** `apodDatabase.filter(...)`: the entries whose date lies in [start, end], in
      the order of the dataset. */
  function Filter(data: seq<Entry>, start: Date, end: Date): (r: seq<Entry>)
    ensures |r| <= |data|
    ensures forall i :: 0 <= i < |r| ==> InRange(r[i].date, start, end)
  {
    if data == [] then []
    else if InRange(data[0].date, start, end) then [data[0]] + Filter(data[1..], start, end)
    else Filter(data[1..], start, end)
  }

  /** `r` can be obtained from `s` by deleting elements: an order-preserving selection. */
  predicate IsSubsequence(r: seq<Entry>, s: seq<Entry>)
    decreases |s|
  {
    r == [] || (s != [] && ((r[0] == s[0] && IsSubsequence(r[1..], s[1..])) || IsSubsequence(r, s[1..])))
  }

  /** The filter keeps the dataset's order: its result is a subsequence of the dataset. */
  lemma {:induction false} FilterIsSubsequence(data: seq<Entry>, start: Date, end: Date)
    ensures IsSubsequence(Filter(data, start, end), data)
  {
    if data != [] {
      FilterIsSubsequence(data[1..], start, end);
      var rest := Filter(data[1..], start, end);
      if InRange(data[0].date, start, end) {
        assert ([data[0]] + rest)[1..] == rest;
      }
    }
  }

  /** Soundness and completeness with multiplicity: an entry occurs in the result
      exactly as often as in the dataset when its date is in range, and never otherwise. */
  lemma {:induction false} FilterCount(data: seq<Entry>, start: Date, end: Date, x: Entry)
    ensures multiset(Filter(data, start, end))[x]
         == if InRange(x.date, start, end) then multiset(data)[x] else 0
  {
    if data != [] {
      FilterCount(data[1..], start, end, x);
      assert data == [data[0]] + data[1..];
    }
  }

  /** Completeness: every dataset entry dated within [start, end] is returned. */
  lemma FilterComplete(data: seq<Entry>, start: Date, end: Date, i: int)
    requires 0 <= i < |data|
    requires InRange(data[i].date, start, end)
    ensures data[i] in Filter(data, start, end)
  {
    FilterCount(data, start, end, data[i]);
    assert data[i] in multiset(data);
  }

  /** No subsequence of the dataset made only of in-range entries is longer than the filter's result. */
  lemma {:induction false} InRangeSubsequenceNoLonger(data: seq<Entry>, start: Date, end: Date, r: seq<Entry>)
    requires IsSubsequence(r, data)
    requires forall x :: x in r ==> InRange(x.date, start, end)
    ensures |r| <= |Filter(data, start, end)|
    decreases |data|
  {
    if r != [] {
      if r[0] == data[0] && IsSubsequence(r[1..], data[1..]) {
        assert r[0] in r;
        forall x | x in r[1..] ensures InRange(x.date, start, end) {
          assert x in r;
        }
        InRangeSubsequenceNoLonger(data[1..], start, end, r[1..]);
      } else {
        InRangeSubsequenceNoLonger(data[1..], start, end, r);
      }
    }
  }

  /** The filter's result is the one longest order-preserving selection of in-range
      entries: any in-range subsequence at least as long is equal to it. */
  lemma {:induction false} FilterIsLongestSelection(data: seq<Entry>, start: Date, end: Date, r: seq<Entry>)
    requires IsSubsequence(r, data)
    requires forall x :: x in r ==> InRange(x.date, start, end)
    requires |r| >= |Filter(data, start, end)|
    ensures r == Filter(data, start, end)
    decreases |data|
  {
    if r == [] {
    } else if r[0] == data[0] && IsSubsequence(r[1..], data[1..]) {
      assert r[0] in r;
      forall x | x in r[1..] ensures InRange(x.date, start, end) {
        assert x in r;
      }
      FilterIsLongestSelection(data[1..], start, end, r[1..]);
      assert r == [r[0]] + r[1..];
    } else {
      InRangeSubsequenceNoLonger(data[1..], start, end, r);
      if InRange(data[0].date, start, end) {
        assert false;
      }
      FilterIsLongestSelection(data[1..], start, end, r);
    }
  }

  /** Filtering the filtered result again with the same range changes nothing. */
  lemma {:induction false} FilterIdempotent(data: seq<Entry>, start: Date, end: Date)
    ensures Filter(Filter(data, start, end), start, end) == Filter(data, start, end)
  {
    if data != [] {
      FilterIdempotent(data[1..], start, end);
      var rest := Filter(data[1..], start, end);
      if InRange(data[0].date, start, end) {
        assert ([data[0]] + rest)[0] == data[0];
        assert ([data[0]] + rest)[1..] == rest;
      }
    }
  }

  /** An empty range selects nothing: an invalid bound, or a start after the end. */
  lemma {:induction false} FilterEmptyRange(data: seq<Entry>, start: Date, end: Date)
    requires !(start.At? && end.At? && start.day <= end.day)
    ensures Filter(data, start, end) == []
  {
    if data != [] {
      FilterEmptyRange(data[1..], start, end);
    }
  }

  /** Filtering a concatenation filters each part: the selection of an entry does not
      depend on its neighbours. */
  lemma {:induction false} FilterAppend(a: seq<Entry>, b: seq<Entry>, start: Date, end: Date)
    ensures Filter(a + b, start, end) == Filter(a, start, end) + Filter(b, start, end)
  {
    if a != [] {
      assert (a + b)[0] == a[0];
      assert (a + b)[1..] == a[1..] + b;
      FilterAppend(a[1..], b, start, end);
    } else {
      assert a + b == b;
    }
  }

  /** An entry of the feed dated `day`, with fixed other fields. */
  function DayEntry(day: int): Entry {
    Entry(At(day), "Picture", None, "image", "https://apod.example/image.jpg", None, None)
  }

  /** A feed with one entry per day for `n` consecutive days starting at `first`. */
  function DailyFeed(first: int, n: nat): (r: seq<Entry>)
    decreases n
  {
    if n == 0 then [] else [DayEntry(first)] + DailyFeed(first + 1, n - 1)
  }

  function Max(a: int, b: int): int { if a < b then b else a }

  function Min(a: int, b: int): int { if a < b then a else b }

  /** On a daily feed the filter returns exactly the days the feed and [start, end]
      share, consecutive and in order. */
  lemma {:induction false} FilterDailyFeed(first: int, n: nat, start: int, end: int)
    ensures Filter(DailyFeed(first, n), At(start), At(end))
         == DailyFeed(Max(first, start), Max(0, Min(first + n, end + 1) - Max(first, start)))
    decreases n
  {
    if n > 0 {
      var rest := DailyFeed(first + 1, n - 1);
      FilterDailyFeed(first + 1, n - 1, start, end);
      FilterDailyFeedStep(first, n, start, end, Filter(rest, At(start), At(end)));
    }
  }

  /** One step of FilterDailyFeed: the first day of the feed is kept or dropped. */
  lemma FilterDailyFeedStep(first: int, n: nat, start: int, end: int, tail: seq<Entry>)
    requires n > 0
    requires tail == Filter(DailyFeed(first + 1, n - 1), At(start), At(end))
    requires tail == DailyFeed(Max(first + 1, start), Max(0, Min(first + n, end + 1) - Max(first + 1, start)))
    ensures Filter(DailyFeed(first, n), At(start), At(end))
         == DailyFeed(Max(first, start), Max(0, Min(first + n, end + 1) - Max(first, start)))
  {
    var lo := Max(first, start);
    var count := Max(0, Min(first + n, end + 1) - lo);
    var feed := DailyFeed(first, n);
    assert feed[0] == DayEntry(first) && feed[1..] == DailyFeed(first + 1, n - 1);
    if start <= first <= end {
      assert Filter(feed, At(start), At(end)) == [DayEntry(first)] + tail;
      assert DailyFeed(lo, count) == [DayEntry(first)] + DailyFeed(first + 1, count - 1);
    } else {
      assert Filter(feed, At(start), At(end)) == tail;
    }
  }

  /** Entries dated 2024-04-01 .. 2024-04-10 (day 19814 is 2024-04-01) filtered by
      2024-04-03 .. 2024-04-05 give exactly the entries of 04-03, 04-04 and 04-05, in order. */
  lemma AprilExample()
    ensures Filter(DailyFeed(19814, 10), At(19816), At(19818))
         == [DayEntry(19816), DayEntry(19817), DayEntry(19818)]
  {
    FilterDailyFeed(19814, 10, 19816, 19818);
    assert DailyFeed(19819, 0) == [];
  }
}
