/** `fetchSingleDateRange`: the paginated fetch of one date chunk, with its
    request cap and its three-way classification of errors. The ads API is a
    total function from requests to responses, so a server that answers the same
    URL differently on another attempt is expressible. */
module Pagination {
  import opened Basics
  import opened Records
  import opened DateChunks

  /** The URL a request goes to: the first page of a chunk (the insights endpoint
      with the chunk's time range as query parameters), or a cursor URL handed
      back by the previous page. */
  datatype Url = FirstPage(range: DayRange) | Cursor(url: string)

  /** One HTTP request: which attempt of the whole fetch, which chunk, how many
      pages of the chunk have been followed so far, and the URL. */
  datatype Request = Request(attempt: nat, chunk: nat, page: nat, url: Url)

  /** What a request yields: a page of records with the optional `paging.next`
      URL, a non-2xx answer with its status and resolved error message, or an
      exception raised by the transport. */
  datatype Response =
    | Page(data: seq<Record>, next: Option<string>)
    | HttpError(status: string, message: string)
    | NetworkError(message: string)

  type Server = Request -> Response

  /** How a chunk ends: with the records collected, or with an exception that
      leaves the chunk (and discards what it had collected). */
  datatype ChunkOutcome = Collected(data: seq<Record>) | Raised(message: string)

  /** At most this many pages are followed per chunk. */
  const MaxRequests: nat := 5

  /** `result.paging?.next || null`: an empty cursor counts as none. */
  function NextUrl(next: Option<string>): Option<string> {
    if next.Some? && next.value != "" then next else None
  }

  /** The test the loop applies before breaking on a cursor problem. */
  predicate IsCursorError(m: string) {
    Contains(m, "Invalid cursor") || Contains(m, "cursor")
  }

  /** The errors the loop passes on to its caller instead of swallowing. */
  predicate IsRethrown(m: string) {
    Contains(m, "timeout") || Contains(m, "temporarily unavailable")
  }

  /** The message of the error thrown for a non-2xx answer. */
  function ThrownMessage(status: string, m: string): string {
    "Meta API error: " + status + " - " + m
  }

  /** The exception a response raises inside the loop, if any: none for a page
      and none for an HTTP error whose own message mentions a cursor (that one
      breaks out directly). */
  function ErrorOf(r: Response): Option<string> {
    match r
    case Page(_, _) => None
    case HttpError(status, m) => if IsCursorError(m) then None else Some(ThrownMessage(status, m))
    case NetworkError(m) => Some(m)
  }

  /** The `catch` of the loop: a cursor error or an unknown error ends the chunk
      with what was collected; a timeout or an unavailable service is rethrown. */
  function Caught(m: string, acc: seq<Record>): ChunkOutcome {
    if IsCursorError(m) then Collected(acc)
    else if IsRethrown(m) then Raised(m)
    else Collected(acc)
  }

  /** The URL the loop requests next: the saved cursor, or the first page. */
  function CurrentUrl(nextUrl: Option<string>, range: DayRange): Url {
    if nextUrl.Some? then Cursor(nextUrl.value) else FirstPage(range)
  }

  /** The outcome of the loop from `page` pages followed, at `url`, having collected `acc`. */
  function PaginateFrom(server: Server, attempt: nat, chunk: nat, page: nat, url: Url, acc: seq<Record>): ChunkOutcome
    decreases MaxRequests - page
  {
    if page >= MaxRequests then Collected(acc)
    else
      var r := server(Request(attempt, chunk, page, url));
      if r.Page? then
        if r.data == [] then Collected(acc)
        else if NextUrl(r.next).None? then Collected(acc + r.data)
        else PaginateFrom(server, attempt, chunk, page + 1, Cursor(NextUrl(r.next).value), acc + r.data)
      else if ErrorOf(r).None? then Collected(acc)
      else Caught(ErrorOf(r).value, acc)
  }

  /** The requests the loop issues from `page` pages followed, at `url`. */
  function RequestsFrom(server: Server, attempt: nat, chunk: nat, page: nat, url: Url): seq<Request>
    decreases MaxRequests - page
  {
    if page >= MaxRequests then []
    else
      var q := Request(attempt, chunk, page, url);
      var r := server(q);
      if r.Page? && r.data != [] && NextUrl(r.next).Some? then
        [q] + RequestsFrom(server, attempt, chunk, page + 1, Cursor(NextUrl(r.next).value))
      else [q]
  }

  /** The outcome of fetching one chunk. */
  function Paginate(server: Server, attempt: nat, chunk: nat, range: DayRange): ChunkOutcome {
    PaginateFrom(server, attempt, chunk, 0, FirstPage(range), [])
  }

  /** The requests made while fetching one chunk. */
  function Requests(server: Server, attempt: nat, chunk: nat, range: DayRange): seq<Request> {
    RequestsFrom(server, attempt, chunk, 0, FirstPage(range))
  }

  /** The records a response carries: a page's data, nothing for an error. */
  function PageData(r: Response): seq<Record> {
    if r.Page? then r.data else []
  }

  /** The records carried by the answers to a run of requests, in order. */
  function Harvest(server: Server, qs: seq<Request>): seq<Record> {
    if qs == [] then [] else Harvest(server, qs[..|qs| - 1]) + PageData(server(qs[|qs| - 1]))
  }

  /** `fetchSingleDateRange`: request pages until a page is empty or has no next
      URL, a cursor error or an unknown error stops the chunk, a timeout or an
      unavailable service is thrown, or `MaxRequests` pages have been followed. */
  method FetchSingleDateRange(server: Server, attempt: nat, chunk: nat, range: DayRange)
    returns (outcome: ChunkOutcome)
    ensures outcome == Paginate(server, attempt, chunk, range)
  {
    var data: seq<Record> := [];
    var nextUrl: Option<string> := None;
    var requestCount: nat := 0;
    while requestCount < MaxRequests
      invariant requestCount <= MaxRequests
      invariant PaginateFrom(server, attempt, chunk, requestCount, CurrentUrl(nextUrl, range), data)
        == Paginate(server, attempt, chunk, range)
      decreases MaxRequests - requestCount
    {
      var response := server(Request(attempt, chunk, requestCount, CurrentUrl(nextUrl, range)));
      var error: Option<string> := None;
      if !response.Page? {
        if response.HttpError? {
          if IsCursorError(response.message) {
            break;
          }
          error := Some(ThrownMessage(response.status, response.message));
        } else {
          error := Some(response.message);
        }
      }
      if error.Some? {
        var m := error.value;
        if IsCursorError(m) {
          break;
        }
        if IsRethrown(m) {
          return Raised(m);
        }
        break;
      }
      var pageData := response.data;
      if pageData == [] {
        break;
      }
      data := data + pageData;
      nextUrl := NextUrl(response.next);
      if nextUrl.None? {
        break;
      }
      requestCount := requestCount + 1;
    }
    outcome := Collected(data);
  }

  /** Between one and `MaxRequests` requests are made per chunk; the first goes
      to the chunk's first page, and every later one to the cursor returned by
      the non-empty page before it. */
  lemma {:induction false} RequestsShape(server: Server, attempt: nat, chunk: nat, page: nat, url: Url)
    requires page < MaxRequests
    decreases MaxRequests - page
    ensures var qs := RequestsFrom(server, attempt, chunk, page, url);
      1 <= |qs| <= MaxRequests - page
      && qs[0] == Request(attempt, chunk, page, url)
      && forall k :: 0 <= k < |qs| - 1 ==>
           var r := server(qs[k]);
           r.Page? && r.data != [] && NextUrl(r.next).Some?
           && qs[k + 1] == Request(attempt, chunk, page + k + 1, Cursor(NextUrl(r.next).value))
  {
    var q := Request(attempt, chunk, page, url);
    var r := server(q);
    if r.Page? && r.data != [] && NextUrl(r.next).Some? && page + 1 < MaxRequests {
      var rest := RequestsFrom(server, attempt, chunk, page + 1, Cursor(NextUrl(r.next).value));
      RequestsShape(server, attempt, chunk, page + 1, Cursor(NextUrl(r.next).value));
      var qs := [q] + rest;
      forall k | 0 <= k < |qs| - 1
        ensures var r := server(qs[k]);
          r.Page? && r.data != [] && NextUrl(r.next).Some?
          && qs[k + 1] == Request(attempt, chunk, page + k + 1, Cursor(NextUrl(r.next).value))
      {
        if k > 0 {
          assert qs[k] == rest[k - 1] && qs[k + 1] == rest[k];
        }
      }
    }
  }

  /** A chunk that completes returns what it had collected followed by the
      records of every page it requested, in request order. */
  lemma {:induction false} CollectedIsHarvest(server: Server, attempt: nat, chunk: nat, page: nat, url: Url, acc: seq<Record>)
    requires PaginateFrom(server, attempt, chunk, page, url, acc).Collected?
    ensures PaginateFrom(server, attempt, chunk, page, url, acc).data
      == acc + Harvest(server, RequestsFrom(server, attempt, chunk, page, url))
    decreases MaxRequests - page
  {
    if page < MaxRequests {
      var q := Request(attempt, chunk, page, url);
      var r := server(q);
      assert [q][..0] == [];
      if r.Page? && r.data != [] && NextUrl(r.next).Some? {
        var u := Cursor(NextUrl(r.next).value);
        var rest := RequestsFrom(server, attempt, chunk, page + 1, u);
        CollectedIsHarvest(server, attempt, chunk, page + 1, u, acc + r.data);
        HarvestCons(server, q, rest);
      } else {
        assert Harvest(server, [q]) == PageData(r);
      }
    } else {
      assert acc + [] == acc;
    }
  }

  /** Harvesting a request followed by a run of requests. */
  lemma {:induction false} HarvestCons(server: Server, q: Request, qs: seq<Request>)
    ensures Harvest(server, [q] + qs) == PageData(server(q)) + Harvest(server, qs)
  {
    if qs == [] {
      assert [q] + qs == [q];
      assert [q][..0] == [];
    } else {
      var p := qs[..|qs| - 1];
      HarvestCons(server, q, p);
      assert ([q] + qs)[..|[q] + qs| - 1] == [q] + p;
    }
  }

  /** A chunk raises exactly when its last request ended in an error that is not
      about a cursor and mentions a timeout or an unavailable service; the error
      raised is that one. */
  lemma {:induction false} RaisedIffLastErrorTransient(server: Server, attempt: nat, chunk: nat, page: nat, url: Url, acc: seq<Record>, m: string)
    requires page < MaxRequests
    ensures var qs := RequestsFrom(server, attempt, chunk, page, url);
      PaginateFrom(server, attempt, chunk, page, url, acc) == Raised(m)
      <==> ErrorOf(server(qs[|qs| - 1])) == Some(m) && !IsCursorError(m) && IsRethrown(m)
    decreases MaxRequests - page
  {
    var q := Request(attempt, chunk, page, url);
    var r := server(q);
    if r.Page? && r.data != [] && NextUrl(r.next).Some? {
      var u := Cursor(NextUrl(r.next).value);
      if page + 1 < MaxRequests {
        RaisedIffLastErrorTransient(server, attempt, chunk, page + 1, u, acc + r.data, m);
        RequestsShape(server, attempt, chunk, page + 1, u);
        var rest := RequestsFrom(server, attempt, chunk, page + 1, u);
        assert ([q] + rest)[|[q] + rest| - 1] == rest[|rest| - 1];
      }
    }
  }

  /** The "Invalid cursor" test is subsumed by the "cursor" test. */
  lemma CursorTestIsSubstring(m: string)
    ensures IsCursorError(m) <==> Contains(m, "cursor")
  {
    if Contains(m, "Invalid cursor") {
      var i :| 0 <= i <= |m| - |"Invalid cursor"| && OccursAt(m, "Invalid cursor", i);
      assert OccursAt("Invalid cursor", "cursor", 8);
      ContainsTrans(m, "Invalid cursor", "cursor");
    }
  }

  /** A rate-limit answer is not rethrown: its message mentions neither a
      timeout nor an unavailable service, so the chunk quietly ends with the
      pages fetched before it, and the retry in the caller never sees it. */
  lemma RateLimitSwallowed(server: Server, attempt: nat, chunk: nat, range: DayRange)
    requires server(Request(attempt, chunk, 0, FirstPage(range))) == HttpError("429", "rate limit exceeded")
    ensures Paginate(server, attempt, chunk, range) == Collected([])
  {
    var m := ThrownMessage("429", "rate limit exceeded");
    assert 'u' !in m;
    MissingCharNotContained(m, "timeout", 'u');
    MissingCharNotContained(m, "temporarily unavailable", 'u');
  }
}
