/**
 * Properties of the search client: the complete trace of one upstream
 * request, the item loop against a filter-then-take reference, the outcome
 * of one query, and what a whole search returns and sends.
 */
module SearchProperties {
  import opened Optional
  import opened Strings
  import opened Search
  import opened Numbers

  // ---------------------------------------------------------------------------
  // One upstream request
  // ---------------------------------------------------------------------------

  /** The decision that ends a request with `result`. */
  function Ends(result: Result<Page>): Step
  {
    match result
    case Ok(page) => Return(page)
    case Err(f) => Raise(f)
  }

  /**
   * The decision of one attempt, case by case: a 200 returns its page; a 429
   * sleeps what it asks for or the backoff; a 403 raises its classification
   * and a 400 raises a bad request, both without retrying; any other
   * failure sleeps the backoff unless this is the last attempt, which raises
   * that failure.
   */
  lemma AttemptDecision(o: Outcome, attempt: nat, cfg: Config)
    ensures var s := Attempt(o, attempt, cfg);
            && (s.Return? <==> o.Reply? && o.status == 200)
            && (s.Return? ==> s.page == o.page)
            && (s.SleepThenRetry? <==> TooManyRequests(o) || (Transient(o) && attempt < cfg.maxRetries - 1))
            && (TooManyRequests(o) ==> s == SleepThenRetry(RetryAfterOrBackoff(o, cfg, attempt)))
            && (Transient(o) && attempt < cfg.maxRetries - 1 ==> s == SleepThenRetry(Backoff(cfg, attempt)))
            && (Transient(o) && attempt >= cfg.maxRetries - 1 ==> s == Raise(TransientFailure(o)))
            && (o.Reply? && o.status == 403 ==> s == Raise(Classify403(o.reason)))
            && (o.Reply? && o.status == 400 ==> s == Raise(BadRequest))
  {
  }

  /** No single attempt raises `RetriesExhausted`: only running out of attempts does. */
  lemma AttemptNeverExhausts(o: Outcome, attempt: nat, cfg: Config)
    ensures Attempt(o, attempt, cfg) != Raise(RetriesExhausted)
  {
    if o.Reply? {
      var f := Classify403(o.reason);
      assert f == QuotaExceeded(o.reason) || f == RateLimitExceeded(o.reason) || f == Forbidden;
    }
  }

  /** The attempt that recorded the `j`-th delay decided to sleep that delay and retry. */
  lemma {:induction false} RetrySleptAt(answer: nat -> Outcome, first: nat, attempt: nat, cfg: Config, j: nat)
    requires j < |Retry(answer, first, attempt, cfg).delays|
    ensures Attempt(answer(first + attempt + j), attempt + j, cfg)
            == SleepThenRetry(Retry(answer, first, attempt, cfg).delays[j])
    decreases j
  {
    var r := Retry(answer, first, attempt, cfg);
    match Attempt(answer(first + attempt), attempt, cfg)
    case SleepThenRetry(d) =>
      if j > 0 {
        var rest := Retry(answer, first, attempt + 1, cfg);
        assert r.delays == [d] + rest.delays;
        RetrySleptAt(answer, first, attempt + 1, cfg, j - 1);
        assert r.delays[j] == rest.delays[j - 1];
      }
  }

  /** Every attempt whose delay is recorded decided to sleep that delay and retry. */
  lemma RetrySleeps(answer: nat -> Outcome, first: nat, attempt: nat, cfg: Config)
    ensures var r := Retry(answer, first, attempt, cfg);
            forall j :: 0 <= j < |r.delays| ==>
              Attempt(answer(first + attempt + j), attempt + j, cfg) == SleepThenRetry(r.delays[j])
  {
    forall j | 0 <= j < |Retry(answer, first, attempt, cfg).delays|
      ensures Attempt(answer(first + attempt + j), attempt + j, cfg)
              == SleepThenRetry(Retry(answer, first, attempt, cfg).delays[j])
    {
      RetrySleptAt(answer, first, attempt, cfg, j);
    }
  }

  /**
   * How the attempts from number `attempt` on end: the loop ran out of
   * attempts, having made and recorded a sleep for each, or the attempt after
   * the recorded sleeps returned or raised what the request returns or raises.
   */
  lemma {:induction false} RetryEnds(answer: nat -> Outcome, first: nat, attempt: nat, cfg: Config)
    ensures var r := Retry(answer, first, attempt, cfg);
            || (&& r.result == Err(RetriesExhausted)
                && r.attempts == |r.delays|
                && attempt + |r.delays| == (if attempt < cfg.maxRetries then cfg.maxRetries else attempt))
            || (&& r.attempts == |r.delays| + 1
                && attempt + |r.delays| < cfg.maxRetries
                && Attempt(answer(first + attempt + |r.delays|), attempt + |r.delays|, cfg) == Ends(r.result))
    decreases cfg.maxRetries - attempt
  {
    if attempt < cfg.maxRetries && Attempt(answer(first + attempt), attempt, cfg).SleepThenRetry? {
      var rest := Retry(answer, first, attempt + 1, cfg);
      RetryEnds(answer, first, attempt + 1, cfg);
      assert first + attempt + (1 + |rest.delays|) == first + (attempt + 1) + |rest.delays|;
    }
  }

  /** A request that returns a page returns the body of the 200 response to its last call. */
  lemma RequestReturnsLastAnswer(answer: nat -> Outcome, first: nat, cfg: Config)
    requires RequestRun(answer, first, cfg).result.Ok?
    ensures var r := RequestRun(answer, first, cfg);
            r.attempts >= 1 && Returned(answer(first + r.attempts - 1), r.result.value)
  {
    RetryEnds(answer, first, 0, cfg);
  }

  /**
   * A request raises `RetriesExhausted` (the SearchError "Search failed after
   * all retries") only when it made no call at all
   * (a configured limit of zero or less) or when all of its attempts were
   * made and the last one was answered 429.
   */
  lemma ExhaustedOnlyAfter429(answer: nat -> Outcome, first: nat, cfg: Config)
    requires RequestRun(answer, first, cfg).result == Err(RetriesExhausted)
    ensures var r := RequestRun(answer, first, cfg);
            if cfg.maxRetries <= 0 then r.attempts == 0 && r.delays == []
            else
              && r.attempts == cfg.maxRetries
              && answer(first + cfg.maxRetries - 1).Reply?
              && answer(first + cfg.maxRetries - 1).status == 429
  {
    var r := RequestRun(answer, first, cfg);
    RetryEnds(answer, first, 0, cfg);
    AttemptNeverExhausts(answer(first + |r.delays|), |r.delays|, cfg);
    if cfg.maxRetries > 0 {
      var last := cfg.maxRetries - 1;
      RetrySleptAt(answer, first, 0, cfg, last);
      LastAttemptSleepsOnlyOn429(answer(first + last), cfg);
    }
  }

  /** On the last attempt only a 429 response leads to a sleep; every other failure is raised. */
  lemma LastAttemptSleepsOnlyOn429(o: Outcome, cfg: Config)
    requires cfg.maxRetries > 0
    requires Attempt(o, cfg.maxRetries - 1, cfg).SleepThenRetry?
    ensures o.Reply? && o.status == 429
  {
  }

  /** The delay a 429 response asks for: its Retry-After value, else the backoff. */
  function RetryAfterOrBackoff(o: Outcome, cfg: Config, attempt: nat): nat
  {
    if o.Reply? && o.retryAfter.Some? then o.retryAfter.value else Backoff(cfg, attempt)
  }

  predicate TooManyRequests(o: Outcome)
  {
    o.Reply? && o.status == 429
  }

  /**
   * A server that answers 429 to every attempt: every attempt is made, each
   * one sleeps what the response asks for, and the request then raises a
   * plain SearchError, not a RateLimitError.
   */
  lemma PersistentRateLimit(answer: nat -> Outcome, first: nat, attempt: nat, cfg: Config)
    requires forall k :: first + attempt <= k < first + cfg.maxRetries ==> TooManyRequests(answer(k))
    ensures var r := Retry(answer, first, attempt, cfg);
            && r.result == Err(RetriesExhausted)
            && !IsInstance(r.result.failure, RateLimitError)
            && !IsInstance(r.result.failure, APIQuotaExceededError)
            && r.attempts == |r.delays| == (if attempt < cfg.maxRetries then cfg.maxRetries - attempt else 0)
            && (forall j :: 0 <= j < |r.delays| ==>
                  r.delays[j] == RetryAfterOrBackoff(answer(first + attempt + j), cfg, attempt + j))
  {
    RateLimitedToTheEnd(answer, first, attempt, cfg);
    var r := Retry(answer, first, attempt, cfg);
    forall j | 0 <= j < |r.delays|
      ensures r.delays[j] == RetryAfterOrBackoff(answer(first + attempt + j), cfg, attempt + j)
    {
      RetrySleptAt(answer, first, attempt, cfg, j);
      assert TooManyRequests(answer(first + attempt + j));
    }
  }

  /** Under 429 after 429, every remaining attempt is made and sleeps, and the loop runs out. */
  lemma {:induction false} RateLimitedToTheEnd(answer: nat -> Outcome, first: nat, attempt: nat, cfg: Config)
    requires forall k :: first + attempt <= k < first + cfg.maxRetries ==> TooManyRequests(answer(k))
    ensures var r := Retry(answer, first, attempt, cfg);
            && r.result == Err(RetriesExhausted)
            && r.attempts == |r.delays| == (if attempt < cfg.maxRetries then cfg.maxRetries - attempt else 0)
    decreases cfg.maxRetries - attempt
  {
    if attempt < cfg.maxRetries {
      assert TooManyRequests(answer(first + attempt));
      RateLimitedToTheEnd(answer, first, attempt + 1, cfg);
    }
  }

  /**
   * An outcome that is retried while attempts remain: a timeout, a
   * connection error, or a status other than 200, 429, 403 and 400.
   */
  predicate Transient(o: Outcome)
  {
    o.Reply? ==> o.status !in {200, 429, 403, 400}
  }

  /** The error a transient outcome raises on the last attempt. */
  function TransientFailure(o: Outcome): Failure
  {
    match o
    case Reply(status, _, _, _) => StatusFailed(status)
    case Timeout => TimedOut
    case ConnectionError => ConnectionFailed
  }

  /**
   * A transient failure on every attempt, of whatever kind: every attempt is
   * made, the delays double from the base, and the last attempt's own error
   * is raised.
   */
  lemma {:induction false} PersistentTransientFailure(answer: nat -> Outcome, first: nat, attempt: nat, cfg: Config)
    requires attempt < cfg.maxRetries
    requires forall k :: first + attempt <= k < first + cfg.maxRetries ==> Transient(answer(k))
    ensures var r := Retry(answer, first, attempt, cfg);
            && r.result == Err(TransientFailure(answer(first + cfg.maxRetries - 1)))
            && r.attempts == cfg.maxRetries - attempt
            && |r.delays| == r.attempts - 1
            && (forall j :: 0 <= j < |r.delays| ==> r.delays[j] == Backoff(cfg, attempt + j))
    decreases cfg.maxRetries - attempt
  {
    assert Transient(answer(first + attempt));
    if attempt < cfg.maxRetries - 1 {
      var r := Retry(answer, first, attempt, cfg);
      var rest := Retry(answer, first, attempt + 1, cfg);
      PersistentTransientFailure(answer, first, attempt + 1, cfg);
      forall j | 0 <= j < |r.delays|
        ensures r.delays[j] == Backoff(cfg, attempt + j)
      {
        if j > 0 {
          assert r.delays[j] == rest.delays[j - 1];
        }
      }
    }
  }

  // ---------------------------------------------------------------------------
  // The item loop against a reference
  // ---------------------------------------------------------------------------

  /** The non-empty links of `items`, in order, without those already in `seen` when deduplicating. */
  function Kept(items: seq<Item>, dedup: bool, seen: set<string>): seq<string>
    decreases |items|
  {
    if items == [] then []
    else
      var u := items[0].link;
      if u == "" then Kept(items[1..], dedup, seen)
      else if dedup && u in seen then Kept(items[1..], dedup, seen)
      else if dedup then [u] + Kept(items[1..], dedup, seen + {u})
      else [u] + Kept(items[1..], dedup, seen)
  }

  /** The first `n` elements of `s`, or all of them. */
  function Take(s: seq<string>, n: nat): (r: seq<string>)
  {
    if n <= |s| then s[..n] else s
  }

  function Elems(s: seq<string>): set<string>
  {
    set u | u in s
  }

  predicate NoDuplicates(s: seq<string>)
  {
    forall i, j :: 0 <= i < j < |s| ==> s[i] != s[j]
  }

  /** `u` is the link of one of `items`. */
  predicate LinkIn(items: seq<Item>, u: string)
  {
    exists i :: 0 <= i < |items| && items[i].link == u
  }

  /**
   * From `g` with room left, the item loop keeps the first
   * `maxResults - |g.found|` of the kept links, and with deduplication adds
   * exactly those to the seen URLs.
   */
  ghost predicate TakesKept(items: seq<Item>, maxResults: int, dedup: bool, g: Gathered)
  {
    |g.found| < maxResults ==>
      var n := maxResults - |g.found|;
      var r := Collect(items, maxResults, dedup, g);
      && r.found == g.found + Take(Kept(items, dedup, g.seen), n)
      && r.seen == (if dedup then g.seen + Elems(Take(Kept(items, dedup, g.seen), n)) else g.seen)
  }

  /**
   * The item loop keeps the first `maxResults - |found|` of the kept links,
   * and with deduplication adds exactly those to the seen URLs.
   */
  lemma {:induction false} CollectIsTakeOfKept(items: seq<Item>, maxResults: int, dedup: bool, g: Gathered)
    requires |g.found| < maxResults
    ensures var n := maxResults - |g.found|;
            var r := Collect(items, maxResults, dedup, g);
            && r.found == g.found + Take(Kept(items, dedup, g.seen), n)
            && r.seen == (if dedup then g.seen + Elems(Take(Kept(items, dedup, g.seen), n)) else g.seen)
    decreases |items|
  {
    if items != [] {
      var u := items[0].link;
      var g' := Admit(u, dedup, g);
      if |g'.found| < maxResults {
        CollectIsTakeOfKept(items[1..], maxResults, dedup, g');
      }
      if u == "" || (dedup && u in g.seen) {
        CollectSkipStep(items, maxResults, dedup, g);
      } else {
        CollectKeepStep(items, maxResults, dedup, g);
      }
    }
    assert TakesKept(items, maxResults, dedup, g);
  }

  /** An item with no link, or one already seen, is skipped by the loop and by `Kept`. */
  lemma CollectSkipStep(items: seq<Item>, maxResults: int, dedup: bool, g: Gathered)
    requires items != [] && (items[0].link == "" || (dedup && items[0].link in g.seen))
    requires TakesKept(items[1..], maxResults, dedup, g)
    ensures TakesKept(items, maxResults, dedup, g)
  {
    if |g.found| < maxResults {
      assert Admit(items[0].link, dedup, g) == g;
      assert Kept(items, dedup, g.seen) == Kept(items[1..], dedup, g.seen);
    }
  }

  /** An item with a new link is kept first, by the loop and by `Kept`. */
  lemma CollectKeepStep(items: seq<Item>, maxResults: int, dedup: bool, g: Gathered)
    requires items != [] && items[0].link != "" && !(dedup && items[0].link in g.seen)
    requires TakesKept(items[1..], maxResults, dedup, Admit(items[0].link, dedup, g))
    ensures TakesKept(items, maxResults, dedup, g)
  {
    if |g.found| < maxResults {
      var n := maxResults - |g.found|;
      var u := items[0].link;
      var g' := Admit(u, dedup, g);
      var r := Collect(items, maxResults, dedup, g);
      var k := Kept(items, dedup, g.seen);
      var k' := Kept(items[1..], dedup, g'.seen);
      assert g'.found == g.found + [u];
      assert g'.seen == if dedup then g.seen + {u} else g.seen;
      assert k == [u] + k';
      TakeCons(u, k', n);
      if |g'.found| >= maxResults {
        assert r == g';
        assert Take(k', n - 1) == [];
        assert Elems([u]) == {u};
      } else {
        assert r == Collect(items[1..], maxResults, dedup, g');
        assert g.found + Take(k, n) == (g.found + [u]) + Take(k', n - 1);
      }
    }
  }

  /** Taking from a list that starts with `u` takes `u`, then the rest from the tail. */
  lemma TakeCons(u: string, s: seq<string>, n: nat)
    requires n >= 1
    ensures Take([u] + s, n) == [u] + Take(s, n - 1)
    ensures Elems(Take([u] + s, n)) == {u} + Elems(Take(s, n - 1))
  {
    assert Take([u] + s, n) == [u] + Take(s, n - 1);
  }

  /** Every kept URL is a non-empty link of one of the items. */
  lemma {:induction false} KeptAreLinks(items: seq<Item>, dedup: bool, seen: set<string>)
    ensures forall u :: u in Kept(items, dedup, seen) ==> u != "" && LinkIn(items, u)
    decreases |items|
  {
    if items != [] {
      var u := items[0].link;
      var seen' := if dedup && u != "" && u !in seen then seen + {u} else seen;
      KeptAreLinks(items[1..], dedup, seen');
      forall v | v in Kept(items[1..], dedup, seen') ensures LinkIn(items, v) {
        var i :| 0 <= i < |items[1..]| && items[1..][i].link == v;
        assert items[i + 1].link == v;
      }
      assert LinkIn(items, u) by { assert items[0].link == u; }
    }
  }

  /** With deduplication the kept URLs are distinct and none was seen before. */
  lemma {:induction false} KeptAreFresh(items: seq<Item>, seen: set<string>)
    ensures NoDuplicates(Kept(items, true, seen))
    ensures forall u :: u in Kept(items, true, seen) ==> u !in seen
    decreases |items|
  {
    if items != [] {
      var u := items[0].link;
      if u == "" || u in seen {
        KeptAreFresh(items[1..], seen);
      } else {
        var rest := Kept(items[1..], true, seen + {u});
        KeptAreFresh(items[1..], seen + {u});
        assert Kept(items, true, seen) == [u] + rest;
      }
    }
  }

  lemma TakeIsPrefix(s: seq<string>, n: nat)
    ensures |Take(s, n)| <= n && |Take(s, n)| <= |s|
    ensures forall u :: u in Take(s, n) ==> u in s
    ensures NoDuplicates(s) ==> NoDuplicates(Take(s, n))
  {
  }

  // ---------------------------------------------------------------------------
  // One query
  // ---------------------------------------------------------------------------

  /** Where a query ends once its first page is handled. */
  function EndOfQuery(step: PageStep): QueryRun
  {
    match step
    case Stop(r) => r
    case Next(g, sent, slept) => QueryRun(Completed, g.found, g.seen, sent, slept)
  }

  /**
   * `results_to_fetch` is at most 10 and the pages advance by 10, so the
   * pagination loop of a query never gets past its first page.
   */
  lemma QueryIsOnePage(answer: nat -> Outcome, first: nat, q: string, maxResults: int,
                       dedup: bool, seen: set<string>, cfg: Config)
    requires maxResults > 0
    ensures FetchQuery(answer, first, q, maxResults, dedup, seen, cfg)
            == EndOfQuery(FetchPage(answer, first, q, 1, Min(maxResults, PAGE_LIMIT), maxResults, dedup,
                                    Gathered([], seen), cfg))
  {
    var toFetch := Min(maxResults, PAGE_LIMIT);
    match FetchPage(answer, first, q, 1, toFetch, maxResults, dedup, Gathered([], seen), cfg)
    case Stop(r) =>
      assert [] + r.calls == r.calls;
      assert [] + r.delays == r.delays;
    case Next(g, sent, slept) =>
      var next := QueryRun(Completed, g.found, g.seen, [] + sent, [] + slept);
      assert FetchPages(answer, first, q, 1 + PAGE_LIMIT, toFetch, maxResults, dedup, next, cfg) == next;
      assert [] + sent == sent;
      assert [] + slept == slept;
  }

  /**
   * The first page of a query: one request for `min(maxResults, 10)` results
   * from position 1. A returned page contributes the first `maxResults`
   * kept links; a quota error or any other SearchError abandons the query,
   * and a rate-limit error ends it with nothing found.
   */
  lemma FirstPageOutcome(answer: nat -> Outcome, first: nat, q: string, maxResults: int,
                         dedup: bool, seen: set<string>, cfg: Config)
    requires maxResults > 0
    ensures var qr := EndOfQuery(FetchPage(answer, first, q, 1, Min(maxResults, PAGE_LIMIT), maxResults, dedup,
                                           Gathered([], seen), cfg));
            var run := RequestRun(answer, first, cfg);
            && qr.calls == Repeat(Request(q, Min(maxResults, PAGE_LIMIT), 1), run.attempts)
            && qr.delays == run.delays
            && (run.result.Ok? ==>
                  var kept := Take(Kept(run.result.value.items, dedup, seen), maxResults);
                  && qr.outcome == Completed
                  && qr.found == kept
                  && qr.seen == (if dedup then seen + Elems(kept) else seen))
            && (run.result.Err? ==>
                  && qr.found == []
                  && qr.seen == seen
                  && qr.outcome == (if run.result.failure.Class() == RateLimitError then Completed
                                    else Skipped(run.result.failure)))
  {
    var run := RequestRun(answer, first, cfg);
    if run.result.Ok? && run.result.value.items != [] {
      var kept := Take(Kept(run.result.value.items, dedup, seen), maxResults);
      CollectIsTakeOfKept(run.result.value.items, maxResults, dedup, Gathered([], seen));
      assert [] + kept == kept;
    }
  }

  /**
   * A query makes exactly one request when `maxResults` is positive, and no
   * request otherwise; what it finds is what `FirstPageOutcome` describes.
   */
  lemma QueryOutcomeOfRequest(answer: nat -> Outcome, first: nat, q: string, maxResults: int,
                              dedup: bool, seen: set<string>, cfg: Config)
    ensures var qr := FetchQuery(answer, first, q, maxResults, dedup, seen, cfg);
            var run := RequestRun(answer, first, cfg);
            if maxResults <= 0 then qr == QueryRun(Completed, [], seen, [], [])
            else
              && qr.calls == Repeat(Request(q, Min(maxResults, PAGE_LIMIT), 1), run.attempts)
              && qr.delays == run.delays
              && (run.result.Ok? ==>
                    var kept := Take(Kept(run.result.value.items, dedup, seen), maxResults);
                    && qr.outcome == Completed
                    && qr.found == kept
                    && qr.seen == (if dedup then seen + Elems(kept) else seen))
              && (run.result.Err? ==>
                    && qr.found == []
                    && qr.seen == seen
                    && qr.outcome == (if run.result.failure.Class() == RateLimitError then Completed
                                      else Skipped(run.result.failure)))
  {
    if maxResults > 0 {
      QueryIsOnePage(answer, first, q, maxResults, dedup, seen, cfg);
      FirstPageOutcome(answer, first, q, maxResults, dedup, seen, cfg);
    }
  }

  /** A query's findings: distinct and fresh with deduplication, never more than `maxResults`, all links of a page its own request received. */
  lemma QueryFindings(answer: nat -> Outcome, first: nat, q: string, maxResults: int,
                      dedup: bool, seen: set<string>, cfg: Config)
    ensures var qr := FetchQuery(answer, first, q, maxResults, dedup, seen, cfg);
            && |qr.Contribution()| <= (if maxResults > 0 then maxResults else 0)
            && (dedup ==> NoDuplicates(qr.Contribution()) && seen + Elems(qr.Contribution()) <= qr.seen
                          && (forall u :: u in qr.Contribution() ==> u !in seen))
            && (!dedup ==> qr.seen == seen)
            && (forall u :: u in qr.Contribution() ==>
                  u != "" && exists k :: first <= k < first + |qr.calls| && LinkedBy(answer(k), u))
  {
    QueryOutcomeOfRequest(answer, first, q, maxResults, dedup, seen, cfg);
    var qr := FetchQuery(answer, first, q, maxResults, dedup, seen, cfg);
    var run := RequestRun(answer, first, cfg);
    if maxResults > 0 && run.result.Ok? {
      var items := run.result.value.items;
      var kept := Kept(items, dedup, seen);
      TakeIsPrefix(kept, maxResults);
      KeptAreLinks(items, dedup, seen);
      if dedup {
        KeptAreFresh(items, seen);
      }
      RequestReturnsLastAnswer(answer, first, cfg);
      var k := first + run.attempts - 1;
      forall u | u in qr.Contribution()
        ensures u != "" && exists k :: first <= k < first + |qr.calls| && LinkedBy(answer(k), u)
      {
        assert LinkedBy(answer(k), u);
      }
    }
  }

  /** `u` is a non-empty link of the page a 200 response `o` carried. */
  predicate LinkedBy(o: Outcome, u: string)
  {
    o.Reply? && o.status == 200 && u != "" && LinkIn(o.page.items, u)
  }

  // ---------------------------------------------------------------------------
  // A whole search
  // ---------------------------------------------------------------------------

  /** A request the search issues for one of `queries`. */
  predicate IssuedFor(c: Request, queries: seq<string>, maxResults: int)
  {
    c.query in queries && !IsBlankQuery(c.query) && c.num == Min(maxResults, PAGE_LIMIT) && c.start == 1
  }

  /** The queries the loop does not skip, in order. */
  function NonBlank(queries: seq<string>): (r: seq<string>)
    ensures |r| <= |queries|
    ensures forall q :: q in r ==> q in queries && !IsBlankQuery(q)
    ensures forall q :: q in queries && !IsBlankQuery(q) ==> q in r
  {
    if queries == [] then []
    else if IsBlankQuery(queries[0]) then NonBlank(queries[1..])
    else [queries[0]] + NonBlank(queries[1..])
  }

  /** Blank queries change nothing: the loop over the others gives the same run. */
  lemma {:induction false} BlankQueriesIgnored(answer: nat -> Outcome, queries: seq<string>, maxResults: int,
                                               dedup: bool, acc: SearchRun, cfg: Config)
    ensures SearchLoop(answer, queries, maxResults, dedup, acc, cfg)
            == SearchLoop(answer, NonBlank(queries), maxResults, dedup, acc, cfg)
    decreases |queries|
  {
    if queries != [] {
      if IsBlankQuery(queries[0]) {
        BlankQueriesIgnored(answer, queries[1..], maxResults, dedup, acc, cfg);
      } else {
        var nb := NonBlank(queries);
        assert nb[0] == queries[0] && nb[1..] == NonBlank(queries[1..]);
        var qr := FetchQuery(answer, |acc.calls|, queries[0], maxResults, dedup, acc.seen, cfg);
        BlankQueriesIgnored(answer, queries[1..], maxResults, dedup,
                            SearchRun(acc.urls + qr.Contribution(), qr.seen, acc.calls + qr.calls,
                                      acc.delays + qr.delays), cfg);
      }
    }
  }

  /** The search over a list gives what the search over its non-blank queries gives. */
  lemma SearchSkipsBlankQueries(answer: nat -> Outcome, queries: seq<string>, maxResults: int, dedup: bool,
                                cfg: Config)
    ensures SearchSpec(answer, Batch(queries), maxResults, dedup, cfg)
            == SearchSpec(answer, Batch(NonBlank(queries)), maxResults, dedup, cfg)
  {
    BlankQueriesIgnored(answer, queries, maxResults, dedup, SearchRun([], {}, [], []), cfg);
  }

  /** Searching one string is searching the one-element list that holds it. */
  lemma SingleIsOneElementBatch(answer: nat -> Outcome, q: string, maxResults: int, dedup: bool, cfg: Config)
    ensures SearchSpec(answer, Single(q), maxResults, dedup, cfg) == SearchSpec(answer, Batch([q]), maxResults, dedup, cfg)
  {
  }

  /** The invariant the query loop keeps about the URLs gathered so far. */
  predicate Sound(answer: nat -> Outcome, run: SearchRun, dedup: bool)
  {
    && (dedup ==> NoDuplicates(run.urls) && Elems(run.urls) <= run.seen)
    && (forall u :: u in run.urls ==> exists k :: 0 <= k < |run.calls| && LinkedBy(answer(k), u))
  }

  /** Adding one query's findings keeps the invariant. */
  lemma QueryKeepsSound(answer: nat -> Outcome, q: string, maxResults: int, dedup: bool, acc: SearchRun,
                        cfg: Config)
    requires Sound(answer, acc, dedup)
    ensures var qr := FetchQuery(answer, |acc.calls|, q, maxResults, dedup, acc.seen, cfg);
            Sound(answer, SearchRun(acc.urls + qr.Contribution(), qr.seen, acc.calls + qr.calls,
                                    acc.delays + qr.delays), dedup)
  {
    var qr := FetchQuery(answer, |acc.calls|, q, maxResults, dedup, acc.seen, cfg);
    QueryFindings(answer, |acc.calls|, q, maxResults, dedup, acc.seen, cfg);
    var urls := acc.urls + qr.Contribution();
    if dedup {
      forall i, j | 0 <= i < j < |urls| ensures urls[i] != urls[j] {
        if j >= |acc.urls| && i < |acc.urls| {
          assert urls[i] in acc.seen;
          assert urls[j] in qr.Contribution();
        }
        if i >= |acc.urls| {
          assert urls[i] == qr.Contribution()[i - |acc.urls|];
          assert urls[j] == qr.Contribution()[j - |acc.urls|];
        }
      }
    }
  }

  lemma {:induction false} SearchLoopSound(answer: nat -> Outcome, queries: seq<string>, maxResults: int,
                                           dedup: bool, acc: SearchRun, cfg: Config)
    requires Sound(answer, acc, dedup)
    ensures Sound(answer, SearchLoop(answer, queries, maxResults, dedup, acc, cfg), dedup)
    decreases |queries|
  {
    if queries != [] {
      if IsBlankQuery(queries[0]) {
        SearchLoopSound(answer, queries[1..], maxResults, dedup, acc, cfg);
      } else {
        var qr := FetchQuery(answer, |acc.calls|, queries[0], maxResults, dedup, acc.seen, cfg);
        QueryKeepsSound(answer, queries[0], maxResults, dedup, acc, cfg);
        SearchLoopSound(answer, queries[1..], maxResults, dedup,
                        SearchRun(acc.urls + qr.Contribution(), qr.seen, acc.calls + qr.calls,
                                  acc.delays + qr.delays), cfg);
      }
    }
  }

  /**
   * With deduplication a search returns no URL twice; in every case every
   * URL it returns is a non-empty link of a 200 response to one of the calls
   * it made.
   */
  lemma SearchSound(answer: nat -> Outcome, input: QueryInput, maxResults: int, dedup: bool, cfg: Config)
    ensures var r := SearchSpec(answer, input, maxResults, dedup, cfg);
            && (dedup ==> NoDuplicates(r.urls))
            && (forall u :: u in r.urls ==> exists k :: 0 <= k < |r.calls| && LinkedBy(answer(k), u))
  {
    if Normalize(input) != [] {
      SearchLoopSound(answer, Normalize(input), maxResults, dedup, SearchRun([], {}, [], []), cfg);
    }
  }

  /** Upper bound on the attempts of one request. */
  function AttemptLimit(cfg: Config): nat
  {
    if cfg.maxRetries > 0 then cfg.maxRetries else 0
  }

  /** A query sends only its own request, at most `AttemptLimit` times, and finds at most `maxResults` URLs. */
  lemma QueryRequests(answer: nat -> Outcome, first: nat, q: string, maxResults: int,
                      dedup: bool, seen: set<string>, cfg: Config)
    ensures var qr := FetchQuery(answer, first, q, maxResults, dedup, seen, cfg);
            && (forall c :: c in qr.calls ==> c == Request(q, Min(maxResults, PAGE_LIMIT), 1))
            && |qr.calls| <= AttemptLimit(cfg)
            && |qr.Contribution()| <= (if maxResults > 0 then maxResults else 0)
  {
    QueryOutcomeOfRequest(answer, first, q, maxResults, dedup, seen, cfg);
    QueryFindings(answer, first, q, maxResults, dedup, seen, cfg);
    QueryCallCount(answer, first, q, maxResults, dedup, seen, cfg);
    if maxResults > 0 {
      RepeatElements(Request(q, Min(maxResults, PAGE_LIMIT), 1), RequestRun(answer, first, cfg).attempts);
    }
  }

  /** A query makes at most `AttemptLimit` HTTP calls. */
  lemma QueryCallCount(answer: nat -> Outcome, first: nat, q: string, maxResults: int,
                       dedup: bool, seen: set<string>, cfg: Config)
    ensures |FetchQuery(answer, first, q, maxResults, dedup, seen, cfg).calls| <= AttemptLimit(cfg)
  {
    QueryOutcomeOfRequest(answer, first, q, maxResults, dedup, seen, cfg);
    RetryEnds(answer, first, 0, cfg);
  }

  lemma {:induction false} RepeatElements<T>(x: T, n: nat)
    ensures forall y :: y in Repeat(x, n) ==> y == x
  {
    if n > 0 {
      RepeatElements(x, n - 1);
    }
  }

  /** Every request after those of `acc` is for a non-blank query of the list, from position 1. */
  lemma {:induction false} SearchLoopRequests(answer: nat -> Outcome, queries: seq<string>, maxResults: int,
                                              dedup: bool, acc: SearchRun, cfg: Config)
    ensures var r := SearchLoop(answer, queries, maxResults, dedup, acc, cfg);
            forall c :: c in r.calls ==> c in acc.calls || IssuedFor(c, queries, maxResults)
    decreases |queries|
  {
    if queries != [] {
      var q := queries[0];
      var next := acc;
      if !IsBlankQuery(q) {
        var qr := FetchQuery(answer, |acc.calls|, q, maxResults, dedup, acc.seen, cfg);
        next := SearchRun(acc.urls + qr.Contribution(), qr.seen, acc.calls + qr.calls, acc.delays + qr.delays);
        QueryRequests(answer, |acc.calls|, q, maxResults, dedup, acc.seen, cfg);
      }
      SearchLoopRequests(answer, queries[1..], maxResults, dedup, next, cfg);
      var r := SearchLoop(answer, queries, maxResults, dedup, acc, cfg);
      forall c | c in r.calls ensures c in acc.calls || IssuedFor(c, queries, maxResults) {
        if c !in next.calls {
          assert c.query in queries[1..];
        }
      }
    }
  }

  /** At most `AttemptLimit` calls per non-blank query, hence at most `a` for any `a` above it. */
  lemma {:induction false} SearchLoopCallBound(answer: nat -> Outcome, queries: seq<string>, maxResults: int,
                                               dedup: bool, acc: SearchRun, cfg: Config, a: int)
    requires AttemptLimit(cfg) <= a
    ensures |SearchLoop(answer, queries, maxResults, dedup, acc, cfg).calls| <= |acc.calls| + |NonBlank(queries)| * a
    decreases |queries|
  {
    if queries != [] {
      var q := queries[0];
      if IsBlankQuery(q) {
        SearchLoopCallBound(answer, queries[1..], maxResults, dedup, acc, cfg, a);
      } else {
        var qr := FetchQuery(answer, |acc.calls|, q, maxResults, dedup, acc.seen, cfg);
        var next := SearchRun(acc.urls + qr.Contribution(), qr.seen, acc.calls + qr.calls, acc.delays + qr.delays);
        SearchLoopCallBound(answer, queries[1..], maxResults, dedup, next, cfg, a);
        QueryCallCount(answer, |acc.calls|, q, maxResults, dedup, acc.seen, cfg);
        assert |NonBlank(queries)| == |NonBlank(queries[1..])| + 1;
        BoundStep(|acc.calls|, |qr.calls|, |SearchLoop(answer, queries, maxResults, dedup, acc, cfg).calls|,
                  |NonBlank(queries[1..])|, a);
      }
    }
  }

  /** At most `maxResults` URLs per non-blank query. */
  lemma {:induction false} SearchLoopUrlBound(answer: nat -> Outcome, queries: seq<string>, maxResults: int,
                                              dedup: bool, acc: SearchRun, cfg: Config)
    ensures |SearchLoop(answer, queries, maxResults, dedup, acc, cfg).urls|
            <= |acc.urls| + |NonBlank(queries)| * (if maxResults > 0 then maxResults else 0)
    decreases |queries|
  {
    if queries != [] {
      var q := queries[0];
      if IsBlankQuery(q) {
        SearchLoopUrlBound(answer, queries[1..], maxResults, dedup, acc, cfg);
      } else {
        var qr := FetchQuery(answer, |acc.calls|, q, maxResults, dedup, acc.seen, cfg);
        var next := SearchRun(acc.urls + qr.Contribution(), qr.seen, acc.calls + qr.calls, acc.delays + qr.delays);
        QueryFindings(answer, |acc.calls|, q, maxResults, dedup, acc.seen, cfg);
        SearchLoopUrlBound(answer, queries[1..], maxResults, dedup, next, cfg);
        assert |NonBlank(queries)| == |NonBlank(queries[1..])| + 1;
        BoundStep(|acc.urls|, |qr.Contribution()|, |SearchLoop(answer, queries, maxResults, dedup, acc, cfg).urls|,
                  |NonBlank(queries[1..])|, if maxResults > 0 then maxResults else 0);
      }
    }
  }

  /** One more query, adding at most `a`, raises a bound of `n` times `a` to `n + 1` times `a`. */
  lemma BoundStep(before: int, mine: int, after: int, n: nat, a: int)
    requires mine <= a
    requires after <= before + mine + n * a
    ensures after <= before + (n + 1) * a
  {
    assert (n + 1) * a == n * a + a;
  }

  /** The shape of everything a search sends, and bounds on what it returns. */
  lemma SearchRequests(answer: nat -> Outcome, input: QueryInput, maxResults: int, dedup: bool, cfg: Config)
    ensures var r := SearchSpec(answer, input, maxResults, dedup, cfg);
            var queries := Normalize(input);
            && (forall c :: c in r.calls ==> IssuedFor(c, queries, maxResults))
            && |r.calls| <= |NonBlank(queries)| * AttemptLimit(cfg)
            && |r.urls| <= |NonBlank(queries)| * (if maxResults > 0 then maxResults else 0)
  {
    if Normalize(input) != [] {
      SearchLoopRequests(answer, Normalize(input), maxResults, dedup, SearchRun([], {}, [], []), cfg);
      SearchLoopCallBound(answer, Normalize(input), maxResults, dedup, SearchRun([], {}, [], []), cfg, AttemptLimit(cfg));
      SearchLoopUrlBound(answer, Normalize(input), maxResults, dedup, SearchRun([], {}, [], []), cfg);
    }
  }

  /**
   * A non-blank query whose request raises anything but a rate-limit error,
   * a quota error included, adds no URL and leaves the seen URLs as they
   * were; the loop goes on with the remaining queries, after the calls and
   * sleeps of that one request.
   */
  lemma FailedQuerySkipped(answer: nat -> Outcome, queries: seq<string>, maxResults: int, dedup: bool,
                           acc: SearchRun, cfg: Config)
    requires queries != [] && !IsBlankQuery(queries[0]) && maxResults > 0
    requires RequestRun(answer, |acc.calls|, cfg).result.Err?
    requires RequestRun(answer, |acc.calls|, cfg).result.failure.Class() != RateLimitError
    ensures var run := RequestRun(answer, |acc.calls|, cfg);
            var sent := Repeat(Request(queries[0], Min(maxResults, PAGE_LIMIT), 1), run.attempts);
            SearchLoop(answer, queries, maxResults, dedup, acc, cfg)
            == SearchLoop(answer, queries[1..], maxResults, dedup,
                          SearchRun(acc.urls, acc.seen, acc.calls + sent, acc.delays + run.delays), cfg)
  {
    QueryOutcomeOfRequest(answer, |acc.calls|, queries[0], maxResults, dedup, acc.seen, cfg);
    assert acc.urls + [] == acc.urls;
  }

  // ---------------------------------------------------------------------------
  // A quota error skips only its own query
  // ---------------------------------------------------------------------------

  /**
   * A query whose first call is refused for a spent quota makes that one call,
   * sleeps nothing, finds nothing, and is abandoned with the quota error.
   */
  lemma QuotaOnFirstCallAbandonsQuery(answer: nat -> Outcome, first: nat, q: string, maxResults: int,
                                      dedup: bool, seen: set<string>, cfg: Config)
    requires maxResults > 0 && cfg.maxRetries > 0
    requires answer(first).Reply? && answer(first).status == 403
    requires Classify403(answer(first).reason).Class() == APIQuotaExceededError
    ensures FetchQuery(answer, first, q, maxResults, dedup, seen, cfg)
            == QueryRun(Skipped(Classify403(answer(first).reason)), [], seen,
                        [Request(q, Min(maxResults, PAGE_LIMIT), 1)], [])
  {
    QueryOutcomeOfRequest(answer, first, q, maxResults, dedup, seen, cfg);
  }

  /**
   * A 403 body with no `errors` entry is read with the reason `""`, which
   * names no known code: the query makes that one call and is abandoned with
   * the plain forbidden SearchError, nothing found.
   */
  lemma EmptyReasonForbidden(answer: nat -> Outcome, first: nat, q: string, maxResults: int,
                             dedup: bool, seen: set<string>, cfg: Config)
    requires maxResults > 0 && cfg.maxRetries > 0
    requires answer(first).Reply? && answer(first).status == 403 && answer(first).reason == ""
    ensures FetchQuery(answer, first, q, maxResults, dedup, seen, cfg)
            == QueryRun(Skipped(Forbidden), [], seen, [Request(q, Min(maxResults, PAGE_LIMIT), 1)], [])
  {
    QueryOutcomeOfRequest(answer, first, q, maxResults, dedup, seen, cfg);
  }

  /** The first call is refused for a spent daily quota; every later call returns one link. */
  function QuotaThenOk(k: nat): Outcome
  {
    if k == 0 then Reply(403, Page([]), "dailyLimitExceeded", None)
    else Reply(200, Page([Item(LINK_B)]), "", None)
  }

  const LINK_B: string := "https://example.org/b"

  /** The first query meets the spent quota: one call, abandoned, nothing found. */
  lemma QuotaQueryAbandoned()
    ensures FetchQuery(QuotaThenOk, 0, "a", 10, true, {}, DEFAULT_CONFIG)
            == QueryRun(Skipped(QuotaExceeded("dailyLimitExceeded")), [], {}, [Request("a", 10, 1)], [])
  {
    assert Contains("dailyLimitExceeded", DAILY_LIMIT_EXCEEDED) by {
      assert "dailyLimitExceeded"[..|DAILY_LIMIT_EXCEEDED|] == DAILY_LIMIT_EXCEEDED;
    }
    assert RequestRun(QuotaThenOk, 0, DEFAULT_CONFIG) == Run(Err(QuotaExceeded("dailyLimitExceeded")), 1, []);
    QueryOutcomeOfRequest(QuotaThenOk, 0, "a", 10, true, {}, DEFAULT_CONFIG);
  }

  /** The second query gets its page: one call, one URL. */
  lemma NextQueryServed()
    ensures FetchQuery(QuotaThenOk, 1, "b", 10, true, {}, DEFAULT_CONFIG)
            == QueryRun(Completed, [LINK_B], {LINK_B}, [Request("b", 10, 1)], [])
  {
    var page := Page([Item(LINK_B)]);
    assert RequestRun(QuotaThenOk, 1, DEFAULT_CONFIG) == Run(Ok(page), 1, []);
    assert Kept(page.items, true, {}) == [LINK_B];
    assert Elems([LINK_B]) == {LINK_B};
    QueryOutcomeOfRequest(QuotaThenOk, 1, "b", 10, true, {}, DEFAULT_CONFIG);
  }

  /**
   * The quota error raised for the first query is caught by the handler for
   * SearchError around that query only: the second query is still sent and
   * its URL returned.
   */
  lemma QuotaErrorSkipsOnlyItsQuery()
    ensures var r := SearchSpec(QuotaThenOk, Batch(["a", "b"]), 10, true, DEFAULT_CONFIG);
            && r.urls == [LINK_B]
            && r.calls == [Request("a", 10, 1), Request("b", 10, 1)]
  {
    assert !IsBlankQuery("a") by { assert TrimStart("a") == "a"; }
    assert !IsBlankQuery("b") by { assert TrimStart("b") == "b"; }
    QuotaQueryAbandoned();
    NextQueryServed();
    var queries := ["a", "b"];
    assert queries[1..] == ["b"] && queries[1..][1..] == [];
  }
}
