/**
 * The search client (core/search.py): one upstream request with retries and
 * error classification (`_make_search_request`), and the multi-query search
 * that skips blank queries, paginates, deduplicates and caps (`search`).
 *
 * The HTTP layer is an oracle: `answer(k)` is what the k-th HTTP call of a
 * search receives. Instead of sleeping and sending, the methods return the
 * requests they issued and the delays they slept, as traces.
 */
module Search {
  import opened Optional
  import opened Strings
  import opened Numbers

  // ---------------------------------------------------------------------------
  // Configuration and constants
  // ---------------------------------------------------------------------------

  /** Default of the MAX_RETRIES setting: attempts per upstream request. */
  const MAX_RETRIES: int := 2
  /** Default of the RETRY_DELAY_BASE setting, in whole seconds. */
  const RETRY_DELAY_BASE: nat := 1
  /** The search API returns at most this many results per request. */
  const PAGE_LIMIT: int := 10

  /** The two settings read from the environment that steer retries. */
  datatype Config = Config(maxRetries: int, retryDelayBase: nat)

  const DEFAULT_CONFIG: Config := Config(MAX_RETRIES, RETRY_DELAY_BASE)

  function Pow2(n: nat): nat
  {
    if n == 0 then 1 else 2 * Pow2(n - 1)
  }

  /** `RETRY_DELAY_BASE * 2 ** attempt`. */
  function Backoff(cfg: Config, attempt: nat): nat
  {
    cfg.retryDelayBase * Pow2(attempt)
  }

  function Repeat<T>(x: T, n: nat): (r: seq<T>)
    ensures |r| == n
  {
    if n == 0 then [] else Repeat(x, n - 1) + [x]
  }

  // ---------------------------------------------------------------------------
  // Upstream responses, requests and errors
  // ---------------------------------------------------------------------------

  /** One result of the search API; an absent `link` is the empty string. */
  datatype Item = Item(link: string)

  /** A decoded 200 body; an absent `items` list is the empty sequence. */
  datatype Page = Page(items: seq<Item>)

  /**
   * What one HTTP call produces: a response (its status, its decoded page,
   * the `reason` of its first error entry, its parsed `Retry-After`
   * header), a timeout, or a connection error.
   */
  datatype Outcome =
    | Reply(status: int, page: Page, reason: string, retryAfter: Option<nat>)
    | Timeout
    | ConnectionError

  /** The parameters that vary between requests: `q`, `num` and `start`. */
  datatype Request = Request(query: string, num: int, start: int)

  /** The three exception classes; the two others derive from SearchError. */
  datatype ErrorClass = SearchError | RateLimitError | APIQuotaExceededError

  /** Each place the request raises, with the class it raises. */
  datatype Failure =
    | QuotaExceeded(reason: string)
    | RateLimitExceeded(reason: string)
    | Forbidden
    | BadRequest
    | StatusFailed(status: int)
    | TimedOut
    | ConnectionFailed
    | RetriesExhausted
  {
    function Class(): ErrorClass
    {
      match this
      case QuotaExceeded(_) => APIQuotaExceededError
      case RateLimitExceeded(_) => RateLimitError
      case _ => SearchError
    }
  }

  /** Python's `isinstance(f, c)` for the three classes. */
  predicate IsInstance(f: Failure, c: ErrorClass)
  {
    f.Class() == c || c == SearchError
  }

  datatype Result<T> = Ok(value: T) | Err(failure: Failure)

  /** The reason codes a 403 response is classified by. */
  const DAILY_LIMIT_EXCEEDED: string := "dailyLimitExceeded"
  const QUOTA_EXCEEDED: string := "quotaExceeded"
  const RATE_LIMIT_EXCEEDED: string := "rateLimitExceeded"

  /** The classification of a 403 response by the reason code it carries. */
  function Classify403(reason: string): Failure
  {
    if Contains(reason, DAILY_LIMIT_EXCEEDED) || Contains(reason, QUOTA_EXCEEDED) then
      QuotaExceeded(reason)
    else if Contains(reason, RATE_LIMIT_EXCEEDED) then
      RateLimitExceeded(reason)
    else
      Forbidden
  }

  /**
   * A 403 is a quota error exactly when its reason mentions a spent daily
   * limit or quota, a rate-limit error exactly when it mentions only the
   * rate limit, and a plain SearchError otherwise.
   */
  lemma Classify403Classes(reason: string)
    ensures var f := Classify403(reason);
            && ((f.Class() == APIQuotaExceededError)
                <==> (Contains(reason, DAILY_LIMIT_EXCEEDED) || Contains(reason, QUOTA_EXCEEDED)))
            && ((f.Class() == RateLimitError)
                <==> (!Contains(reason, DAILY_LIMIT_EXCEEDED) && !Contains(reason, QUOTA_EXCEEDED)
                      && Contains(reason, RATE_LIMIT_EXCEEDED)))
            && (f.Class() == SearchError <==> f == Forbidden)
  {
  }

  // ---------------------------------------------------------------------------
  // _make_search_request: specification
  // ---------------------------------------------------------------------------

  /** What one attempt decides after seeing an outcome. */
  datatype Step = Return(page: Page) | Raise(failure: Failure) | SleepThenRetry(delay: nat)

  /** Sleep and retry unless this is the last attempt, then raise `f`. */
  function RetryOrRaise(attempt: nat, cfg: Config, f: Failure): Step
  {
    if attempt < cfg.maxRetries - 1 then SleepThenRetry(Backoff(cfg, attempt)) else Raise(f)
  }

  /** The decision of attempt number `attempt` (0-based) on outcome `o`. */
  function Attempt(o: Outcome, attempt: nat, cfg: Config): Step
  {
    match o
    case Reply(status, page, reason, retryAfter) =>
      if status == 200 then Return(page)
      else if status == 429 then
        SleepThenRetry(if retryAfter.Some? then retryAfter.value else Backoff(cfg, attempt))
      else if status == 403 then Raise(Classify403(reason))
      else if status == 400 then Raise(BadRequest)
      else RetryOrRaise(attempt, cfg, StatusFailed(status))
    case Timeout => RetryOrRaise(attempt, cfg, TimedOut)
    case ConnectionError => RetryOrRaise(attempt, cfg, ConnectionFailed)
  }

  /** The result of one request, the HTTP calls it made and the delays it slept. */
  datatype Run = Run(result: Result<Page>, attempts: nat, delays: seq<nat>)

  /** `o` is a 200 response whose body is `page`. */
  predicate Returned(o: Outcome, page: Page)
  {
    o.Reply? && o.status == 200 && o.page == page
  }

  /**
   * The attempts from number `attempt` on; attempt `j` makes HTTP call
   * `first + j`.
   */
  function Retry(answer: nat -> Outcome, first: nat, attempt: nat, cfg: Config): (r: Run)
    decreases cfg.maxRetries - attempt
  {
    if attempt >= cfg.maxRetries then Run(Err(RetriesExhausted), 0, [])
    else
      match Attempt(answer(first + attempt), attempt, cfg)
      case Return(page) => Run(Ok(page), 1, [])
      case Raise(f) => Run(Err(f), 1, [])
      case SleepThenRetry(d) =>
        var rest := Retry(answer, first, attempt + 1, cfg);
        Run(rest.result, rest.attempts + 1, [d] + rest.delays)
  }

  /** A whole request: all attempts from the first. */
  function RequestRun(answer: nat -> Outcome, first: nat, cfg: Config): Run
  {
    Retry(answer, first, 0, cfg)
  }

  // ---------------------------------------------------------------------------
  // _make_search_request: the retry loop
  // ---------------------------------------------------------------------------

  /**
   * One upstream request whose first HTTP call is call number `first`.
   * Every attempt sends the same parameters, with `num` capped at the page
   * limit.
   */
  method MakeSearchRequest(answer: nat -> Outcome, first: nat, query: string,
                           numResults: int, startIndex: int, cfg: Config)
    returns (result: Result<Page>, calls: seq<Request>, delays: seq<nat>)
    ensures result == RequestRun(answer, first, cfg).result
    ensures calls == Repeat(Request(query, Min(numResults, PAGE_LIMIT), startIndex),
                            RequestRun(answer, first, cfg).attempts)
    ensures delays == RequestRun(answer, first, cfg).delays
  {
    var params := Request(query, Min(numResults, PAGE_LIMIT), startIndex);
    ghost var whole := RequestRun(answer, first, cfg);
    calls, delays := [], [];
    var attempt: nat := 0;
    while attempt < cfg.maxRetries
      invariant calls == Repeat(params, attempt) && |delays| == attempt
      invariant whole.result == Retry(answer, first, attempt, cfg).result
      invariant whole.attempts == attempt + Retry(answer, first, attempt, cfg).attempts
      invariant whole.delays == delays + Retry(answer, first, attempt, cfg).delays
      decreases cfg.maxRetries - attempt
    {
      var outcome := answer(first + attempt);
      calls := calls + [params];
      var wait: nat;
      match Attempt(outcome, attempt, cfg) {
        case Return(page) =>
          return Ok(page), calls, delays;
        case Raise(f) =>
          return Err(f), calls, delays;
        case SleepThenRetry(d) =>
          wait := d;
      }
      ghost var later := Retry(answer, first, attempt + 1, cfg).delays;
      assert (delays + [wait]) + later == delays + ([wait] + later);
      delays := delays + [wait];
      attempt := attempt + 1;
    }
    result := Err(RetriesExhausted);
  }

  // ---------------------------------------------------------------------------
  // search: specification
  // ---------------------------------------------------------------------------

  /** `search` accepts one query string or a list of them. */
  datatype QueryInput = Single(query: string) | Batch(queries: seq<string>)

  /** `[query] if isinstance(query, str) else query`. */
  function Normalize(input: QueryInput): seq<string>
  {
    match input
    case Single(q) => [q]
    case Batch(qs) => qs
  }

  /** `not q or not q.strip()`. */
  predicate IsBlankQuery(q: string)
  {
    q == "" || Strip(q) == ""
  }

  /** The URLs kept for the current query and the URLs seen in the whole call. */
  datatype Gathered = Gathered(found: seq<string>, seen: set<string>)

  /** The handling of one item's link. */
  function Admit(url: string, dedup: bool, g: Gathered): Gathered
  {
    if url == "" then g
    else if !dedup then Gathered(g.found + [url], g.seen)
    else if url in g.seen then g
    else Gathered(g.found + [url], g.seen + {url})
  }

  /** The loop over a page's items, which stops once `maxResults` are kept. */
  function Collect(items: seq<Item>, maxResults: int, dedup: bool, g: Gathered): Gathered
    decreases |items|
  {
    if items == [] then g
    else
      var g' := Admit(items[0].link, dedup, g);
      if |g'.found| >= maxResults then g' else Collect(items[1..], maxResults, dedup, g')
  }

  /** Whether a query ran to its end or was abandoned by an exception. */
  datatype QueryOutcome = Completed | Skipped(failure: Failure)

  datatype QueryRun = QueryRun(outcome: QueryOutcome, found: seq<string>, seen: set<string>,
                               calls: seq<Request>, delays: seq<nat>)
  {
    /** What `all_urls.extend` adds: nothing when the query was abandoned. */
    function Contribution(): seq<string>
    {
      if outcome.Completed? then found else []
    }
  }

  /** Where one page of the pagination loop leaves the query. */
  datatype PageStep =
    | Stop(run: QueryRun)
    | Next(g: Gathered, calls: seq<Request>, delays: seq<nat>)

  /**
   * One turn of the pagination loop: the request for the page starting at
   * `start`, then either the end of the loop (an exception, an empty page,
   * enough results) or the URLs gathered so far.
   */
  function FetchPage(answer: nat -> Outcome, first: nat, q: string, start: int, toFetch: int,
                     maxResults: int, dedup: bool, g: Gathered, cfg: Config): PageStep
  {
    var batch := Min(PAGE_LIMIT, toFetch - start + 1);
    var run := RequestRun(answer, first, cfg);
    var sent := Repeat(Request(q, Min(batch, PAGE_LIMIT), start), run.attempts);
    match run.result
    case Err(f) =>
      if f.Class() == APIQuotaExceededError then
        // re-raised, then caught by the handler for SearchError
        Stop(QueryRun(Skipped(f), g.found, g.seen, sent, run.delays))
      else if f.Class() == RateLimitError then
        // ends the pagination only
        Stop(QueryRun(Completed, g.found, g.seen, sent, run.delays))
      else
        Stop(QueryRun(Skipped(f), g.found, g.seen, sent, run.delays))
    case Ok(page) =>
      if page.items == [] then Stop(QueryRun(Completed, g.found, g.seen, sent, run.delays))
      else
        var g' := Collect(page.items, maxResults, dedup, g);
        if |g'.found| >= maxResults then Stop(QueryRun(Completed, g'.found, g'.seen, sent, run.delays))
        else Next(g', sent, run.delays)
  }

  /**
   * The pagination loop from `start` on, continuing the run `acc` of the
   * pages before it; HTTP call numbers continue from `first + |acc.calls|`.
   */
  function FetchPages(answer: nat -> Outcome, first: nat, q: string, start: int, toFetch: int,
                      maxResults: int, dedup: bool, acc: QueryRun, cfg: Config): QueryRun
    decreases toFetch - start
  {
    if start > toFetch then acc
    else
      match FetchPage(answer, first + |acc.calls|, q, start, toFetch, maxResults, dedup,
                      Gathered(acc.found, acc.seen), cfg)
      case Stop(r) => QueryRun(r.outcome, r.found, r.seen, acc.calls + r.calls, acc.delays + r.delays)
      case Next(g, sent, slept) =>
        FetchPages(answer, first, q, start + PAGE_LIMIT, toFetch, maxResults, dedup,
                   QueryRun(acc.outcome, g.found, g.seen, acc.calls + sent, acc.delays + slept), cfg)
  }

  /** One non-blank query, from `results_to_fetch` to the end of its handlers. */
  function FetchQuery(answer: nat -> Outcome, first: nat, q: string, maxResults: int,
                      dedup: bool, seen: set<string>, cfg: Config): QueryRun
  {
    FetchPages(answer, first, q, 1, Min(maxResults, PAGE_LIMIT), maxResults, dedup,
               QueryRun(Completed, [], seen, [], []), cfg)
  }

  /** The URLs returned, the URLs seen, the requests issued and the delays slept. */
  datatype SearchRun = SearchRun(urls: seq<string>, seen: set<string>, calls: seq<Request>, delays: seq<nat>)

  /**
   * The loop over the remaining `queries`, continuing the run `acc` of the
   * queries before them. HTTP calls are numbered from 0 over the whole call,
   * so a query's first call is the number of calls made before it.
   */
  function SearchLoop(answer: nat -> Outcome, queries: seq<string>, maxResults: int, dedup: bool,
                      acc: SearchRun, cfg: Config): SearchRun
    decreases |queries|
  {
    if queries == [] then acc
    else if IsBlankQuery(queries[0]) then SearchLoop(answer, queries[1..], maxResults, dedup, acc, cfg)
    else
      var qr := FetchQuery(answer, |acc.calls|, queries[0], maxResults, dedup, acc.seen, cfg);
      SearchLoop(answer, queries[1..], maxResults, dedup,
                 SearchRun(acc.urls + qr.Contribution(), qr.seen, acc.calls + qr.calls, acc.delays + qr.delays),
                 cfg)
  }

  /** The loop over `queries[i..]` handles `queries[i]`, then goes on with `queries[i + 1..]`. */
  lemma SearchLoopAt(answer: nat -> Outcome, queries: seq<string>, i: nat, maxResults: int, dedup: bool,
                     acc: SearchRun, cfg: Config)
    requires i < |queries|
    ensures SearchLoop(answer, queries[i..], maxResults, dedup, acc, cfg)
            == if IsBlankQuery(queries[i]) then SearchLoop(answer, queries[i + 1..], maxResults, dedup, acc, cfg)
               else
                 var qr := FetchQuery(answer, |acc.calls|, queries[i], maxResults, dedup, acc.seen, cfg);
                 SearchLoop(answer, queries[i + 1..], maxResults, dedup,
                            SearchRun(acc.urls + qr.Contribution(), qr.seen, acc.calls + qr.calls, acc.delays + qr.delays),
                            cfg)
  {
    assert queries[i..][1..] == queries[i + 1..];
  }

  /** A whole call of `search`. */
  function SearchSpec(answer: nat -> Outcome, input: QueryInput, maxResults: int, dedup: bool,
                      cfg: Config): SearchRun
  {
    var queries := Normalize(input);
    if queries == [] then SearchRun([], {}, [], [])
    else SearchLoop(answer, queries, maxResults, dedup, SearchRun([], {}, [], []), cfg)
  }

  // ---------------------------------------------------------------------------
  // search: the loops
  // ---------------------------------------------------------------------------

  /** The loop over one page's items. */
  method CollectItems(items: seq<Item>, maxResults: int, dedup: bool,
                      found0: seq<string>, seen0: set<string>)
    returns (found: seq<string>, seen: set<string>)
    ensures Gathered(found, seen) == Collect(items, maxResults, dedup, Gathered(found0, seen0))
  {
    found, seen := found0, seen0;
    var i := 0;
    while i < |items|
      invariant 0 <= i <= |items|
      invariant Collect(items, maxResults, dedup, Gathered(found0, seen0))
                == Collect(items[i..], maxResults, dedup, Gathered(found, seen))
    {
      assert items[i..][1..] == items[i + 1..];
      var url := items[i].link;
      if url != "" {
        if dedup {
          if url !in seen {
            seen := seen + {url};
            found := found + [url];
          }
        } else {
          found := found + [url];
        }
      }
      if |found| >= maxResults {
        break;
      }
      i := i + 1;
    }
  }

  /** One turn of the pagination loop: the request for the page at `start` and its items. */
  method RequestPage(answer: nat -> Outcome, first: nat, q: string, start: int, toFetch: int,
                     maxResults: int, dedup: bool, found: seq<string>, seen: set<string>, cfg: Config)
    returns (step: PageStep)
    ensures step == FetchPage(answer, first, q, start, toFetch, maxResults, dedup, Gathered(found, seen), cfg)
  {
    var batch := Min(PAGE_LIMIT, toFetch - start + 1);
    var result, sent, slept := MakeSearchRequest(answer, first, q, batch, start, cfg);
    match result {
      case Err(f) =>
        if f.Class() == APIQuotaExceededError {
          // re-raised, then caught by the handler for SearchError
          return Stop(QueryRun(Skipped(f), found, seen, sent, slept));
        } else if f.Class() == RateLimitError {
          return Stop(QueryRun(Completed, found, seen, sent, slept));
        } else {
          return Stop(QueryRun(Skipped(f), found, seen, sent, slept));
        }
      case Ok(page) =>
        if page.items == [] {
          return Stop(QueryRun(Completed, found, seen, sent, slept));
        }
        var found', seen' := CollectItems(page.items, maxResults, dedup, found, seen);
        if |found'| >= maxResults {
          return Stop(QueryRun(Completed, found', seen', sent, slept));
        }
        return Next(Gathered(found', seen'), sent, slept);
    }
  }

  /** The body of the loop over queries for one non-blank query `q`. */
  method SearchQuery(answer: nat -> Outcome, first: nat, q: string, maxResults: int,
                     dedup: bool, seen0: set<string>, cfg: Config)
    returns (outcome: QueryOutcome, found: seq<string>, seen: set<string>,
             calls: seq<Request>, delays: seq<nat>)
    ensures QueryRun(outcome, found, seen, calls, delays)
            == FetchQuery(answer, first, q, maxResults, dedup, seen0, cfg)
  {
    var toFetch := Min(maxResults, PAGE_LIMIT);
    ghost var whole := FetchQuery(answer, first, q, maxResults, dedup, seen0, cfg);
    outcome, found, seen, calls, delays := Completed, [], seen0, [], [];
    var start := 1;
    while start <= toFetch
      invariant whole == FetchPages(answer, first, q, start, toFetch, maxResults, dedup,
                                    QueryRun(outcome, found, seen, calls, delays), cfg)
      decreases toFetch - start
    {
      var step := RequestPage(answer, first + |calls|, q, start, toFetch, maxResults, dedup, found, seen, cfg);
      match step {
        case Stop(r) =>
          outcome, found, seen := r.outcome, r.found, r.seen;
          calls, delays := calls + r.calls, delays + r.delays;
          return;
        case Next(g, sent, slept) =>
          found, seen := g.found, g.seen;
          calls, delays := calls + sent, delays + slept;
      }
      start := start + PAGE_LIMIT;
    }
  }

  /**
   * `search`: the URLs found for every non-blank query, in order; the
   * requests issued and the delays slept. It never raises.
   */
  method Search(answer: nat -> Outcome, cfg: Config, input: QueryInput, maxResults: int := 4, dedup: bool := true)
    returns (urls: seq<string>, calls: seq<Request>, delays: seq<nat>)
    ensures urls == SearchSpec(answer, input, maxResults, dedup, cfg).urls
    ensures calls == SearchSpec(answer, input, maxResults, dedup, cfg).calls
    ensures delays == SearchSpec(answer, input, maxResults, dedup, cfg).delays
  {
    var queries := Normalize(input);
    if queries == [] {
      return [], [], [];
    }
    ghost var whole := SearchSpec(answer, input, maxResults, dedup, cfg);
    urls, calls, delays := [], [], [];
    var seen: set<string> := {};
    var i := 0;
    assert queries[0..] == queries;
    while i < |queries|
      invariant 0 <= i <= |queries|
      invariant whole == SearchLoop(answer, queries[i..], maxResults, dedup, SearchRun(urls, seen, calls, delays), cfg)
    {
      SearchLoopAt(answer, queries, i, maxResults, dedup, SearchRun(urls, seen, calls, delays), cfg);
      var q := queries[i];
      if IsBlankQuery(q) {
        i := i + 1;
        continue;
      }
      var outcome, found, seen', sent, slept := SearchQuery(answer, |calls|, q, maxResults, dedup, seen, cfg);
      seen := seen';
      calls, delays := calls + sent, delays + slept;
      if outcome.Completed? {
        urls := urls + found;
      } else {
        assert urls + [] == urls;
      }
      i := i + 1;
    }
  }

}
