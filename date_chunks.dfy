/** The date-range chunker of the comprehensive insights route: an inclusive
    period is cut into windows of at most `maxDays` days before it is queried.
    Dates are integer day numbers. */
module DateChunks {

  /** One chunk `[first, last]`, both days inclusive. */
  datatype DayRange = DayRange(first: int, last: int)

  function Min(a: int, b: int): int {
    if a <= b then a else b
  }

  /** How many times the loop of `SplitDateRange` runs: the ceiling of
      `(end - start) / maxDays` when `start < end`, and zero otherwise. */
  function ChunkCount(start: int, end: int, maxDays: int): nat
    requires maxDays >= 1
  {
    if start < end then (end - start + maxDays - 1) / maxDays else 0
  }

  /** The `k`-th chunk: it starts `k * maxDays` days after `start` and is clipped to `end`. */
  function ChunkAt(start: int, end: int, maxDays: int, k: int): DayRange {
    DayRange(start + k * maxDays, Min(start + k * maxDays + maxDays - 1, end))
  }

  /** The chunks `SplitDateRange` produces, in closed form. */
  function Chunks(start: int, end: int, maxDays: int): (cs: seq<DayRange>)
    requires maxDays >= 1
    ensures |cs| == ChunkCount(start, end, maxDays)
  {
    seq(ChunkCount(start, end, maxDays), k => ChunkAt(start, end, maxDays, k))
  }

  /** Multiplying by a factor of at least one does not shrink a non-negative number. */
  lemma {:induction false} MulAtLeast(x: int, m: int)
    requires x >= 1 && m >= 0
    ensures x * m >= m
  {
    if x > 1 {
      MulAtLeast(x - 1, m);
      assert x * m == (x - 1) * m + m;
    }
  }

  /** Euclidean division is pinned down by quotient and remainder. */
  lemma DivUnique(a: int, m: int, q: int, r: int)
    requires m >= 1 && 0 <= r < m && a == q * m + r
    ensures a / m == q && a % m == r
  {
    var q', r' := a / m, a % m;
    assert a == q' * m + r' && 0 <= r' < m;
    assert (q - q') * m == r' - r;
    if q - q' >= 1 {
      MulAtLeast(q - q', m);
    } else if q' - q >= 1 {
      MulAtLeast(q' - q, m);
    }
  }

  /** The ceiling division is pinned down by its two bounds. */
  lemma CeilingFromBounds(d: int, m: int, n: int)
    requires m >= 1 && (n - 1) * m < d <= n * m
    ensures (d + m - 1) / m == n
  {
    var r := d + m - 1 - n * m;
    assert (n - 1) * m == n * m - m;
    assert 0 <= r < m;
    DivUnique(d + m - 1, m, n, r);
  }

  /** `splitDateRange`: advance `current` by `maxDays` while it is before `end`,
      emitting `[current, min(current + maxDays - 1, end)]` each time. */
  method SplitDateRange(start: int, end: int, maxDays: int) returns (ranges: seq<DayRange>)
    requires maxDays >= 1
    ensures ranges == Chunks(start, end, maxDays)
  {
    ranges := [];
    var current := start;
    while current < end
      invariant current == start + |ranges| * maxDays
      invariant |ranges| > 0 ==> start + (|ranges| - 1) * maxDays < end
      invariant forall k :: 0 <= k < |ranges| ==> ranges[k] == ChunkAt(start, end, maxDays, k)
      decreases end - current
    {
      var rangeEnd := current + maxDays - 1;
      if rangeEnd > end {
        rangeEnd := end;
      }
      ghost var n := |ranges|;
      ranges := ranges + [DayRange(current, rangeEnd)];
      current := current + maxDays;
      assert (n + 1) * maxDays == n * maxDays + maxDays;
    }
    LoopExit(start, end, maxDays, ranges);
  }

  /** When the loop of `SplitDateRange` stops, it has emitted exactly the chunks. */
  lemma LoopExit(start: int, end: int, maxDays: int, ranges: seq<DayRange>)
    requires maxDays >= 1 && start + |ranges| * maxDays >= end
    requires |ranges| > 0 ==> start + (|ranges| - 1) * maxDays < end
    requires forall k :: 0 <= k < |ranges| ==> ranges[k] == ChunkAt(start, end, maxDays, k)
    ensures ranges == Chunks(start, end, maxDays)
  {
    if start < end {
      CeilingFromBounds(end - start, maxDays, |ranges|);
    } else if ranges != [] {
      assert 0 * maxDays == 0;
      MulMono(0, |ranges| - 1, maxDays);
    }
  }

  /** Every chunk is a non-empty window of at most `maxDays` days inside `[start, end]`. */
  lemma ChunkBounds(start: int, end: int, maxDays: int, k: int)
    requires maxDays >= 1 && 0 <= k < ChunkCount(start, end, maxDays)
    ensures var c := Chunks(start, end, maxDays)[k];
      start <= c.first <= c.last <= end && c.last - c.first < maxDays
  {
    ChunkCountValue(start, end, maxDays);
    var d := end - start;
    var q, r := d / maxDays, d % maxDays;
    assert d == q * maxDays + r;
    MulMono(0, k, maxDays);
    if r == 0 {
      MulMono(k, q - 1, maxDays);
      assert (q - 1) * maxDays == q * maxDays - maxDays;
    } else {
      MulMono(k, q, maxDays);
    }
  }

  /** Chunks are in ascending order and pairwise disjoint. */
  lemma ChunksAscending(start: int, end: int, maxDays: int, k: int, l: int)
    requires maxDays >= 1 && 0 <= k < l < ChunkCount(start, end, maxDays)
    ensures Chunks(start, end, maxDays)[k].last < Chunks(start, end, maxDays)[l].first
  {
    MulAtLeast(l - k, maxDays);
    assert l * maxDays == k * maxDays + (l - k) * maxDays;
  }

  /** Multiplication by a non-negative factor is monotonic. */
  lemma MulMono(a: int, b: int, m: int)
    requires a <= b && m >= 0
    ensures a * m <= b * m
  {
    if a < b {
      MulAtLeast(b - a, m);
      assert b * m == a * m + (b - a) * m;
    }
  }

  /** The chunk count is `d / maxDays`, plus one when a remainder is left. */
  lemma ChunkCountValue(start: int, end: int, m: int)
    requires m >= 1 && start < end
    ensures ChunkCount(start, end, m) == (end - start) / m + (if (end - start) % m == 0 then 0 else 1)
  {
    var d := end - start;
    var q, r := d / m, d % m;
    assert d == q * m + r && 0 <= r < m;
    if r == 0 {
      assert (q - 1) * m == q * m - m;
      CeilingFromBounds(d, m, q);
    } else {
      assert (q + 1) * m == q * m + m;
      CeilingFromBounds(d, m, q + 1);
    }
  }

  /** Only days of `[start, end)`, and `end` when `end - start` leaves a remainder, are covered. */
  lemma CoveredDays(start: int, end: int, m: int, k: int, day: int)
    requires m >= 1 && 0 <= k < ChunkCount(start, end, m)
    requires Chunks(start, end, m)[k].first <= day <= Chunks(start, end, m)[k].last
    ensures start < end && (start <= day < end || (day == end && (end - start) % m != 0))
  {
    ChunkBounds(start, end, m, k);
    ChunkCountValue(start, end, m);
    var d := end - start;
    var q := d / m;
    if day == end && d % m == 0 {
      assert d == q * m;
      MulMono(k, q - 1, m);
      assert false;
    }
  }

  /** Every day of `[start, end)` is covered, and so is `end` when `end - start` leaves a remainder. */
  lemma DaysCovered(start: int, end: int, m: int, day: int)
    requires m >= 1 && start < end
    requires start <= day < end || (day == end && (end - start) % m != 0)
    ensures exists k :: 0 <= k < ChunkCount(start, end, m)
                     && Chunks(start, end, m)[k].first <= day <= Chunks(start, end, m)[k].last
  {
    ChunkCountValue(start, end, m);
    var n := ChunkCount(start, end, m);
    var d := end - start;
    var q, r := d / m, d % m;
    assert d == q * m + r;
    var e := day - start;
    var k, re := e / m, e % m;
    assert e == k * m + re && 0 <= re < m;
    if k < 0 {
      MulMono(k, -1, m);
      assert false;
    }
    if day < end {
      if k > q {
        MulMono(q + 1, k, m);
        assert false;
      }
      assert k < n;
    } else {
      DivUnique(e, m, q, r);
      assert k < n;
    }
    var c := ChunkAt(start, end, m, k);
    assert c.first <= day <= c.last;
    assert Chunks(start, end, m)[k] == c;
  }

  /** A day is covered by some chunk exactly when it lies in `[start, end)`, or it
      is `end` itself and `end - start` is not a multiple of `maxDays`. */
  lemma ChunkCoverage(start: int, end: int, maxDays: int, day: int)
    requires maxDays >= 1
    ensures (exists k :: 0 <= k < ChunkCount(start, end, maxDays)
               && Chunks(start, end, maxDays)[k].first <= day <= Chunks(start, end, maxDays)[k].last)
        <==> (start < end && (start <= day < end || (day == end && (end - start) % maxDays != 0)))
  {
    if exists k :: 0 <= k < ChunkCount(start, end, maxDays)
         && Chunks(start, end, maxDays)[k].first <= day <= Chunks(start, end, maxDays)[k].last {
      var k :| 0 <= k < ChunkCount(start, end, maxDays)
         && Chunks(start, end, maxDays)[k].first <= day <= Chunks(start, end, maxDays)[k].last;
      CoveredDays(start, end, maxDays, k, day);
    }
    if start < end && (start <= day < end || (day == end && (end - start) % maxDays != 0)) {
      DaysCovered(start, end, maxDays, day);
    }
  }

  /** Two consequences the route lives with: a period whose start is not before its
      end yields no chunk at all, and when `end - start` is a positive multiple of
      `maxDays` the last day of the period is never queried. */
  lemma EndDayDropped(start: int, end: int, maxDays: int)
    requires maxDays >= 1
    ensures start >= end ==> Chunks(start, end, maxDays) == []
    ensures start < end && (end - start) % maxDays == 0 ==>
      forall k :: 0 <= k < ChunkCount(start, end, maxDays) ==> Chunks(start, end, maxDays)[k].last < end
  {
    if start < end && (end - start) % maxDays == 0 {
      forall k | 0 <= k < ChunkCount(start, end, maxDays)
        ensures Chunks(start, end, maxDays)[k].last < end
      {
        ChunkBounds(start, end, maxDays, k);
        var c := Chunks(start, end, maxDays)[k];
        if c.last == end {
          ChunkCoverage(start, end, maxDays, end);
          assert false;
        }
      }
    }
  }
}
