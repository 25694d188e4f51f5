/** `fetchComprehensiveInsights`: fetch every 7-day chunk of a period in order,
    and when a chunk raises a transient error, wait with exponential backoff
    and start the whole period again, at most three times. */
module Retry {
  import opened Basics
  import opened Records
  import opened DateChunks
  import opened Pagination

  /** The chunk size the route uses. */
  const ChunkDays: nat := 7

  /** Retries allowed after the first attempt. */
  const MaxRetries: nat := 3

  /** The base of the exponential backoff, in milliseconds. */
  const BaseDelay: nat := 1000

  /** What a whole fetch ends with: all records of the period, or the error it throws. */
  datatype FetchResult = Fetched(data: seq<Record>) | Failed(message: string)

  /** The `catch` test deciding whether attempt `retryCount` (0-based) is retried. */
  predicate ShouldRetry(retryCount: nat, m: string) {
    retryCount < MaxRetries
      && (Contains(m, "temporarily unavailable") || Contains(m, "timed out") || Contains(m, "rate limit"))
  }

  function Pow2(n: nat): nat {
    if n == 0 then 1 else 2 * Pow2(n - 1)
  }

  /** The wait before retrying after attempt `retryCount`. */
  function Backoff(retryCount: nat): nat {
    BaseDelay * Pow2(retryCount)
  }

  /** What each chunk of an attempt would end with, fetched on its own. */
  function ChunkOutcomes(server: Server, attempt: nat, ranges: seq<DayRange>): (os: seq<ChunkOutcome>)
    ensures |os| == |ranges|
    ensures forall j :: 0 <= j < |ranges| ==> os[j] == Paginate(server, attempt, j, ranges[j])
  {
    seq(|ranges|, j requires 0 <= j < |ranges| => Paginate(server, attempt, j, ranges[j]))
  }

  /** The chunk loop of one attempt from chunk `i` on, having collected `acc`:
      the first chunk that raises aborts the attempt and discards everything. */
  function Combine(os: seq<ChunkOutcome>, i: nat, acc: seq<Record>): ChunkOutcome
    decreases |os| - i
  {
    if i >= |os| then Collected(acc)
    else
      match os[i]
      case Raised(m) => Raised(m)
      case Collected(d) => Combine(os, i + 1, acc + d)
  }

  /** One attempt over the chunks of `[since, until]`. */
  function FetchAttempt(server: Server, attempt: nat, since: int, until: int): ChunkOutcome {
    Combine(ChunkOutcomes(server, attempt, Chunks(since, until, ChunkDays)), 0, [])
  }

  /** The whole fetch from attempt `retryCount` on: its result and the backoff
      waits taken along the way. */
  function FetchWithRetry(server: Server, since: int, until: int, retryCount: nat): (FetchResult, seq<nat>)
    decreases MaxRetries - retryCount
  {
    match FetchAttempt(server, retryCount, since, until)
    case Collected(d) => (Fetched(d), [])
    case Raised(m) =>
      if ShouldRetry(retryCount, m) then
        var (result, waits) := FetchWithRetry(server, since, until, retryCount + 1);
        (result, [Backoff(retryCount)] + waits)
      else (Failed(m), [])
  }

  /** The chunk loop of `fetchComprehensiveInsights` for one attempt. */
  method FetchChunks(server: Server, attempt: nat, since: int, until: int) returns (outcome: ChunkOutcome)
    ensures outcome == FetchAttempt(server, attempt, since, until)
  {
    var dateRanges := SplitDateRange(since, until, ChunkDays);
    ghost var outcomes := ChunkOutcomes(server, attempt, dateRanges);
    var allData: seq<Record> := [];
    for i := 0 to |dateRanges|
      invariant Combine(outcomes, i, allData) == FetchAttempt(server, attempt, since, until)
    {
      var chunkData := FetchSingleDateRange(server, attempt, i, dateRanges[i]);
      if chunkData.Raised? {
        return chunkData;
      }
      allData := allData + chunkData.data;
    }
    outcome := Collected(allData);
  }

  /** `fetchComprehensiveInsights`: one attempt, then on a retryable error a
      backoff wait and a fresh attempt with `retryCount + 1`. The waits are
      returned instead of slept. */
  method FetchComprehensiveInsights(server: Server, since: int, until: int, retryCount: nat)
    returns (result: FetchResult, waits: seq<nat>)
    ensures (result, waits) == FetchWithRetry(server, since, until, retryCount)
    decreases MaxRetries - retryCount
  {
    var outcome := FetchChunks(server, retryCount, since, until);
    if outcome.Collected? {
      return Fetched(outcome.data), [];
    }
    var m := outcome.message;
    if ShouldRetry(retryCount, m) {
      var delayTime := Backoff(retryCount);
      var rest;
      result, rest := FetchComprehensiveInsights(server, since, until, retryCount + 1);
      waits := [delayTime] + rest;
      return;
    }
    result, waits := Failed(m), [];
  }

  /** Starting from attempt `r`, at most `MaxRetries - r` retries happen, and the
      waits double each time: 1000 ms, 2000 ms, 4000 ms from the first attempt. */
  lemma {:induction false} BackoffSchedule(server: Server, since: int, until: int, r: nat)
    requires r <= MaxRetries
    decreases MaxRetries - r
    ensures var waits := FetchWithRetry(server, since, until, r).1;
      |waits| <= MaxRetries - r
      && forall k :: 0 <= k < |waits| ==> waits[k] == BaseDelay * Pow2(r + k)
  {
    var o := FetchAttempt(server, r, since, until);
    if o.Raised? && ShouldRetry(r, o.message) {
      BackoffSchedule(server, since, until, r + 1);
      var rest := FetchWithRetry(server, since, until, r + 1).1;
      var waits := [Backoff(r)] + rest;
      forall k | 0 <= k < |waits|
        ensures waits[k] == BaseDelay * Pow2(r + k)
      {
        if k > 0 {
          assert waits[k] == rest[k - 1];
        }
      }
    }
  }

  /** The three waits of a fetch that starts at attempt 0 and is retried every time. */
  lemma BackoffValues()
    ensures Backoff(0) == 1000 && Backoff(1) == 2000 && Backoff(2) == 4000
  {
  }

  /** The records of chunks `i..`, each chunk contributing what it collected. */
  function ChunkData(os: seq<ChunkOutcome>, i: nat): seq<Record>
    decreases |os| - i
  {
    if i >= |os| then []
    else (if os[i].Collected? then os[i].data else []) + ChunkData(os, i + 1)
  }

  /** An attempt whose chunks all complete returns their records in chunk order. */
  lemma {:induction false} AttemptConcatenates(os: seq<ChunkOutcome>, i: nat, acc: seq<Record>)
    requires forall j :: i <= j < |os| ==> os[j].Collected?
    decreases |os| - i
    ensures Combine(os, i, acc) == Collected(acc + ChunkData(os, i))
  {
    if i < |os| {
      var d := os[i].data;
      AttemptConcatenates(os, i + 1, acc + d);
      assert acc + d + ChunkData(os, i + 1) == acc + (d + ChunkData(os, i + 1));
    } else {
      assert acc + [] == acc;
    }
  }

  /** An attempt raises exactly when some chunk raises, and then it raises the
      first such chunk's error. */
  lemma {:induction false} AttemptRaisesFirstError(os: seq<ChunkOutcome>, i: nat, acc: seq<Record>)
    decreases |os| - i
    ensures Combine(os, i, acc).Raised? <==> exists j :: i <= j < |os| && os[j].Raised?
    ensures Combine(os, i, acc).Raised? ==>
      exists j :: i <= j < |os| && os[j] == Combine(os, i, acc) && forall l :: i <= l < j ==> os[l].Collected?
  {
    if i < |os| && os[i].Collected? {
      AttemptRaisesFirstError(os, i + 1, acc + os[i].data);
      if exists j :: i <= j < |os| && os[j].Raised? {
        var j :| i <= j < |os| && os[j].Raised?;
        assert j != i;
      }
    }
  }

  /** Every error an attempt raises is one some chunk raised. */
  lemma {:induction false} AttemptRaisedIsRethrown(os: seq<ChunkOutcome>, i: nat, acc: seq<Record>)
    requires forall j :: 0 <= j < |os| && os[j].Raised? ==> IsRethrown(os[j].message)
    decreases |os| - i
    ensures Combine(os, i, acc).Raised? ==> IsRethrown(Combine(os, i, acc).message)
  {
    if i < |os| && os[i].Collected? {
      AttemptRaisedIsRethrown(os, i + 1, acc + os[i].data);
    }
  }

  /** Every error a chunk of an attempt raises mentions a timeout or an unavailable service. */
  lemma OutcomesRethrown(server: Server, attempt: nat, ranges: seq<DayRange>)
    ensures var os := ChunkOutcomes(server, attempt, ranges);
      forall j :: 0 <= j < |os| && os[j].Raised? ==> IsRethrown(os[j].message)
  {
    forall j | 0 <= j < |ranges|
      ensures var o := Paginate(server, attempt, j, ranges[j]); o.Raised? ==> IsRethrown(o.message)
    {
      ChunkRaisedIsRethrown(server, attempt, j, 0, FirstPage(ranges[j]), []);
    }
  }

  /** A failed fetch failed with an error its last attempt was not allowed to
      retry, and every error the fetch threw is one the chunk loop rethrows. */
  lemma {:induction false} FailureNotRetryable(server: Server, since: int, until: int, r: nat)
    decreases MaxRetries - r
    ensures var (result, waits) := FetchWithRetry(server, since, until, r);
      result.Failed? ==> !ShouldRetry(r + |waits|, result.message) && IsRethrown(result.message)
  {
    var o := FetchAttempt(server, r, since, until);
    if o.Raised? {
      var ranges := Chunks(since, until, ChunkDays);
      OutcomesRethrown(server, r, ranges);
      AttemptRaisedIsRethrown(ChunkOutcomes(server, r, ranges), 0, []);
      if ShouldRetry(r, o.message) {
        FailureNotRetryable(server, since, until, r + 1);
      }
    }
  }

  /** What a chunk raises mentions a timeout or an unavailable service. */
  lemma {:induction false} ChunkRaisedIsRethrown(server: Server, attempt: nat, chunk: nat, page: nat, url: Url, acc: seq<Record>)
    decreases MaxRequests - page
    ensures PaginateFrom(server, attempt, chunk, page, url, acc).Raised? ==>
      IsRethrown(PaginateFrom(server, attempt, chunk, page, url, acc).message)
  {
    if page < MaxRequests {
      var r := server(Request(attempt, chunk, page, url));
      if r.Page? && r.data != [] && NextUrl(r.next).Some? {
        ChunkRaisedIsRethrown(server, attempt, chunk, page + 1, Cursor(NextUrl(r.next).value), acc + r.data);
      }
    }
  }

  /** Only an error mentioning an unavailable service, or a timeout together with
      "timed out" or "rate limit", is ever retried: a retry needs the chunk loop
      to rethrow the error first. */
  lemma RetriedErrors(server: Server, since: int, until: int, r: nat)
    ensures var o := FetchAttempt(server, r, since, until);
      o.Raised? && ShouldRetry(r, o.message) ==>
        Contains(o.message, "temporarily unavailable")
        || (Contains(o.message, "timeout") && (Contains(o.message, "timed out") || Contains(o.message, "rate limit")))
  {
    var ranges := Chunks(since, until, ChunkDays);
    OutcomesRethrown(server, r, ranges);
    AttemptRaisedIsRethrown(ChunkOutcomes(server, r, ranges), 0, []);
  }
}
