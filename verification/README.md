# Search client and content extractor of ai-scraper, in Dafny

This project models the two core modules of the ai-scraper pipeline: the
search client `core/search.py` and the content combiner
`core/extractor.py`. Between them they turn queries into URLs and scraped
pages into one prompt for a language model.

- **`_make_search_request`** sends one request to the Google Custom Search
  API.
  - It makes up to `MAX_RETRIES` attempts.
  - A 200 response returns its decoded page.
  - A 429 response sleeps for its `Retry-After` value, or for the backoff
    `RETRY_DELAY_BASE * 2 ** attempt`, and tries again.
  - A 403 response is classified by its reason code as a quota error, a
    rate-limit error or a plain forbidden error.
  - A 400 response raises.
  - Any other status, a timeout or a connection error is retried with
    backoff until the last attempt, which raises.
  - When every attempt is spent on 429s, it raises the SearchError "Search
    failed after all retries" (`RetriesExhausted` in the model).
- **`search`** takes one query or a list of them.
  - Blank queries are skipped.
  - For each other query, the function paginates, keeps non-empty links
    (deduplicated across the whole call if asked), and stops at
    `max_results`.
  - A rate-limit error ends a query's pagination but keeps what it found.
  - Every other error, the quota error included, abandons that query and
    goes on to the next.
- **`search_single`** and **`search_batch`** are wrappers that always
  deduplicate.
- **`extract_from_content`** truncates the content at 12000 characters and
  sends it to the chat model under a fixed instruction. A raised exception
  becomes a text starting with `Error: `.
- **`extract_from_urls`** numbers the pages from 1. Each page with content
  becomes a section carrying its first 4000 characters, and the joined text
  goes to `extract_from_content`.

The HTTP layer and the chat model are oracles passed as parameters:

- `answer(k)` is what the k-th HTTP call of one `search` receives;
- `chat(request)` is what the chat model answers or raises.

The methods do not sleep or send anything. Instead they return traces: the
requests they issued and the delays they slept.

Each loop of the source is a method with loop invariants. It is proved equal
to a specification function: `Retry`, `Collect`, `FetchPages`, `SearchLoop`
or `Sources`. The lemmas then state what the source promises about those
functions.

Files:

- `option.dfy`: the `Option` type.
- `numbers.dfy`: Python's `min` on integers.
- `strings.dfy`: the Python string operations the core uses: `sub in s`,
  `str.strip()` and `str(n)`.
- `search.dfy`: the data, the retry state machine, the search specification
  and the methods.
- `search_properties.dfy`: the lemmas about one request, the item loop, one
  query and a whole search, plus a scenario with a spent quota.
- `search_convenience.dfy`: `search_single` and `search_batch`.
- `extractor.dfy`: truncation, `extract_from_content`, the numbered
  sources, and `extract_from_urls`.

Where the code and its own docstrings, comments and log messages disagree,
the model follows the code:

- A quota error (`APIQuotaExceededError`) is re-raised at
  core/search.py:199-201, under the log message "API quota exceeded. Cannot
  continue searching." The handler for `SearchError` at line 209 then
  catches it, because the class derives from `SearchError`. So a quota error
  abandons only its own query, and the search goes on with the next one.
  `SearchProperties.FailedQuerySkipped` states this for every query, and
  `SearchProperties.QuotaErrorSkipsOnlyItsQuery` shows it on a concrete run.
- The comment at core/search.py:165 speaks of several requests per query,
  but `results_to_fetch` is `min(max_results, 10)`. So a query never makes
  more than one paginated request, even when `max_results` is larger than 10.
- The default `max_results` of `search` is 4 in the code, while its
  docstring (core/search.py:137) says 10.
- The default `max_results_per_query` of `search_batch` is 4 in the code,
  while its docstring (core/search.py:240) says 5.

Also, the text sent to the chat model can be 12000 characters plus the
12-character marker `"\n[truncated]"` (core/extractor.py:29-30), so it is
not capped at 12000.

## Model

| member | source | states |
|---|---|---|
| Search.Classify403Classes | core/search.py:87-96 | A 403 is a quota error exactly when its reason contains "dailyLimitExceeded" or "quotaExceeded". It is a rate-limit error exactly when the reason contains neither of those but does contain "rateLimitExceeded". Otherwise it is a plain SearchError, the forbidden error. |
| Search.MakeSearchRequest | core/search.py:61-124 | The retry loop returns, raises or sleeps exactly as the attempt-by-attempt specification `Retry` says. Every call it makes sends the same `q`, the same `num` capped at 10 and the same `start`. |
| Search.CollectItems | core/search.py:180-191 | The loop over one page's items gives the URLs and seen set that the specification `Collect` gives. It stops as soon as `max_results` URLs are kept. |
| Search.RequestPage | core/search.py:169-204 | One turn of the pagination loop. A quota error or another SearchError abandons the query. A rate-limit error or an empty page ends it. A page that reaches `max_results` ends it, and any other page continues. |
| Search.SearchQuery | core/search.py:164-214 | The pagination loop of one query gives what `FetchQuery` gives: outcome, URLs, seen set, requests and delays. |
| Search.Search | core/search.py:127-217 | The URLs returned, the requests sent and the delays slept are those of the specification `SearchSpec`. An empty list returns nothing. |
| SearchProperties.AttemptDecision | core/search.py:77-122 | One attempt returns exactly on a 200 response, with its body. It sleeps and retries exactly on a 429 (for `Retry-After` or the backoff), or on a timeout, connection error or other status before the last attempt (for the backoff). On the last attempt such a failure is raised; a 403 raises its classified error and a 400 raises the bad-request error. |
| SearchProperties.AttemptNeverExhausts | core/search.py:69-124 | No single attempt raises `RetriesExhausted`; only the end of the loop does. |
| SearchProperties.RetrySleptAt | core/search.py:80-121 | The j-th recorded delay was slept by attempt j, which had decided to sleep exactly that delay and retry. |
| SearchProperties.RetrySleeps | core/search.py:80-121 | Every recorded delay was decided by the attempt that slept it. |
| SearchProperties.RetryEnds | core/search.py:69-124 | A request ends in one of two ways. Either all attempts were made and each slept, and the request raises `RetriesExhausted` ("Search failed after all retries"). Or the attempt after the last sleep returned or raised exactly what the request returns or raises. |
| SearchProperties.RequestReturnsLastAnswer | core/search.py:77-78 | A request that returns a page returns the body of the 200 response to its last call. |
| SearchProperties.ExhaustedOnlyAfter429 | core/search.py:80-124 | `RetriesExhausted` is raised only with a retry limit of 0 or less, in which case no call is made, or after every attempt was made with a 429 answer to the last one. |
| SearchProperties.LastAttemptSleepsOnlyOn429 | core/search.py:80-122 | On the last attempt only a 429 answer leads to a sleep; every other failure is raised. |
| SearchProperties.PersistentRateLimit | core/search.py:80-85 | Under 429 answers only, every attempt is made. Each delay is that response's `Retry-After` value or the backoff. The error raised is a plain SearchError, neither a RateLimitError nor an APIQuotaExceededError. |
| SearchProperties.RateLimitedToTheEnd | core/search.py:80-85 | Under 429 answers only, the loop runs out of attempts, with one sleep per attempt. |
| SearchProperties.PersistentTransientFailure | core/search.py:102-122 | Under timeouts, connection errors or unexpected statuses on every attempt, in any mix, every attempt is made. The delays are `base * 2 ** attempt`, one fewer than the attempts, and the last call's own error is raised. |
| SearchProperties.CollectIsTakeOfKept | core/search.py:180-191 | The item loop keeps the first `max_results - found` of the non-empty, not-yet-seen links, in order. With deduplication it adds exactly those to the seen set. |
| SearchProperties.CollectSkipStep | core/search.py:181-184 | An item with no link, or one already seen, changes nothing. |
| SearchProperties.CollectKeepStep | core/search.py:183-191 | An item with a new link is kept, and the loop stops when the count reaches `max_results`. |
| SearchProperties.KeptAreLinks | core/search.py:180-188 | Every kept URL is the non-empty link of one of the page's items. |
| SearchProperties.KeptAreFresh | core/search.py:183-186 | With deduplication, the kept URLs are distinct and none was seen before. |
| SearchProperties.QueryIsOnePage | core/search.py:166-169 | Since `results_to_fetch` is at most 10, the pagination loop of a query never gets past its first page. |
| SearchProperties.FirstPageOutcome | core/search.py:169-204 | The first page gives the requests and delays of one upstream request. If the request returns a page, the query keeps the first `max_results` kept links. If it raises a rate-limit error, the query completes with nothing. Any other error abandons the query. |
| SearchProperties.QueryOutcomeOfRequest | core/search.py:164-211 | With `max_results` of 0 or less, a query sends nothing and finds nothing. Otherwise it is what `FirstPageOutcome` states. |
| SearchProperties.QueryFindings | core/search.py:164-207 | What a query adds holds at most `max_results` URLs, none empty. Each is a link of a 200 response to one of the query's own calls. With deduplication they are distinct, new, and recorded as seen. Without it the seen set is untouched. |
| SearchProperties.QueryRequests | core/search.py:166-173 | A query sends only its own request (`q`, `num = min(max_results, 10)`, `start = 1`), at most `MAX_RETRIES` times. |
| SearchProperties.QueryCallCount | core/search.py:69 | A query makes at most `MAX_RETRIES` HTTP calls. |
| SearchProperties.NonBlank | core/search.py:157-160 | The queries the loop does not skip: exactly the non-blank ones of the list. |
| SearchProperties.BlankQueriesIgnored | core/search.py:157-160 | Removing the blank queries changes nothing in the loop's result. |
| SearchProperties.SingleIsOneElementBatch | core/search.py:148 | Searching for a single string is searching for the one-element list holding it. |
| SearchProperties.FailedQuerySkipped | core/search.py:199-211 | When a non-blank query's request raises any error but a rate-limit error (a quota error included), the query adds no URL, leaves the seen set unchanged, and the loop goes on with the next query after recording its calls and delays. |
| SearchProperties.SearchSkipsBlankQueries | core/search.py:157-160 | A search over a list returns and sends what the search over its non-blank queries does. |
| SearchProperties.QueryKeepsSound | core/search.py:180-207 | Adding one query's findings keeps two things true: the URLs are distinct and recorded as seen (with deduplication), and each URL came from a 200 response to a call already made. |
| SearchProperties.SearchLoopSound | core/search.py:157-214 | The loop over queries keeps that invariant. |
| SearchProperties.SearchSound | core/search.py:127-217 | With deduplication a search returns no URL twice. Every URL it returns is a non-empty link of a 200 response to one of its calls. |
| SearchProperties.SearchLoopRequests | core/search.py:157-173 | Every request the loop sends is for a non-blank query of the list, with `num = min(max_results, 10)` and `start = 1`. |
| SearchProperties.SearchLoopCallBound | core/search.py:157-173 | At most `MAX_RETRIES` calls per non-blank query. |
| SearchProperties.SearchLoopUrlBound | core/search.py:157-207 | At most `max_results` URLs per non-blank query. |
| SearchProperties.SearchRequests | core/search.py:127-217 | A whole search: only requests issued for its non-blank queries. At most `MAX_RETRIES` calls and at most `max_results` URLs per non-blank query. |
| SearchProperties.QuotaOnFirstCallAbandonsQuery | core/search.py:199-211 | A query whose first call is refused with a 403 classified as a quota error makes that one call and no sleep, finds nothing, leaves the seen set unchanged, and is abandoned with that error. |
| SearchProperties.QuotaQueryAbandoned | core/search.py:199-211 | In the scenario `QuotaThenOk`, a query whose request meets a spent daily quota makes one call and is abandoned with nothing found. |
| SearchProperties.NextQueryServed | core/search.py:169-207 | In the scenario `QuotaThenOk`, the next query, answered with one link, returns that link. |
| SearchProperties.EmptyReasonForbidden | core/search.py:88-96 | A 403 read with the reason `""` (a body with no `errors` key) makes that one call and abandons the query with the plain forbidden SearchError, nothing found and the seen set unchanged. |
| SearchProperties.QuotaErrorSkipsOnlyItsQuery | core/search.py:199-211 | In the scenario `QuotaThenOk`, a two-query search whose first call meets a spent quota, the second query is still sent and its URL returned. `FailedQuerySkipped` states the general rule. |
| SearchConvenience.SearchSingle | core/search.py:220-231 | `search_single` deduplicates and defaults to 10 results. It returns at most `max_results` distinct URLs, sends only requests for its query, and sends nothing for a blank query. |
| SearchConvenience.SearchBatch | core/search.py:234-245 | `search_batch` deduplicates and defaults to 4 per query. It returns distinct URLs, at most `max_results_per_query` per query, and only requests issued for its non-blank queries. |
| Strings.ContainsOccurs | core/search.py:91-93 | When the `in` scan finds the code, the code occurs in the reason at some index. |
| Strings.OccursContains | core/search.py:91-93 | When the code occurs in the reason at some index, the `in` scan finds it. |
| Strings.ContainsIffOccurs | core/search.py:91-93 | `sub in s` holds exactly when `sub` occurs in `s` at some index. |
| Strings.TrimStart | core/search.py:158 | Dropping leading whitespace leaves a string that is empty or starts with a non-whitespace character. |
| Strings.TrimEnd | core/search.py:158 | Dropping trailing whitespace leaves a string that is empty or ends with a non-whitespace character. |
| Strings.TrimStartEmptyIff | core/search.py:158 | Dropping leading whitespace leaves nothing exactly when the string is all whitespace. |
| Strings.TrimEndKeepsHead | core/search.py:158 | Dropping trailing whitespace from a string that starts with a non-whitespace character leaves a non-empty string starting with that same character. |
| Strings.StripEmptyIffAllSpace | core/search.py:158 | `q.strip()` is empty exactly when `q` is empty or all whitespace, so these are the skipped queries. |
| Strings.NatToString | core/extractor.py:55 | `str(i)` is a non-empty run of decimal digits with no leading zero. |
| Strings.ParseNatToString | core/extractor.py:55 | Reading `str(i)` back as a decimal gives `i`. |
| Strings.LeadingDigits | core/extractor.py:55 | The longest digit prefix of a text is a prefix of it and made of digits. |
| Strings.LeadingDigitsOfRun | core/extractor.py:55 | A run of digits followed by a non-digit is read back whole. |
| Extractor.Head | core/extractor.py:30 | `s[:n]` has `min(len(s), n)` characters and is a prefix of `s`. |
| Extractor.Truncate | core/extractor.py:29-30 | Content of at most 12000 characters is kept whole. Longer content becomes its first 12000 characters followed by "\n[truncated]", 12012 characters in all. |
| Extractor.ExtractionRequest | core/extractor.py:33-37 | The prompt is "Content to analyze:\n\n" followed by the truncated content. The system prompt is the extraction instruction, and the caller's model is passed on. |
| Extractor.ExtractFromContent | core/extractor.py:25-42 | `extract_from_content` never raises. A chat answer to the extraction request is returned unchanged. When the chat call raises, the result is "Error: " followed by the exception's message. |
| Extractor.OnlyTheHeadIsSent | core/extractor.py:29-37 | Two long contents that agree on their first 12000 characters produce the same request and the same result. |
| Extractor.Section | core/extractor.py:55 | A page's section is its header ("=== SOURCE n: url ===" between line breaks) followed by the first `min(len(content), 4000)` characters of its content, and nothing else. |
| Extractor.ExtractFromUrls | core/extractor.py:45-60 | No pages gives "No content to analyze" without calling the model. Pages none of which has content give "No content extracted from URLs", also without a call. Otherwise the numbered sections are sent once to `extract_from_content`, and its result is returned. |
| Extractor.SourcesAppend | core/extractor.py:51-55 | Joining two lists of pages joins their sections; the second list's numbers continue the first's. |
| Extractor.SourcesEmptyIff | core/extractor.py:54-58 | The combined text is empty exactly when no page has content. |
| Extractor.SkippedPageKeepsItsNumber | core/extractor.py:51-55 | A page without content still uses up its number: the pages after it keep their positions as source numbers. |
| Extractor.SectionNamesItsPosition | core/extractor.py:55 | The number in a section's header reads back as the page's position. |

## Left out

- Sending HTTP, the `requests` library, the API key and engine id, and the request timeout: the oracle `answer` stands for them. JSON decoding is not modelled either: a 200 body is a `Page`, and a 403 body is its reason string.
- Exceptions outside the three search error classes: a 403 or 400 body that is not JSON, a 403 body whose `errors` list is empty (an IndexError at core/search.py:89), a 403 body whose `error` or first `errors` entry is not a JSON object, or a `Retry-After` header that is not a non-negative integer. In the code these escape `_make_search_request`, and the handler at core/search.py:212 skips the query. The model's 403 reason is a string and its `Retry-After` an optional natural number, so these cases cannot arise in it. A 403 body with no `error` or no `errors` key is not among them: it is read with the reason `""`, which the model classifies as the plain forbidden error (`SearchProperties.EmptyReasonForbidden`).
- Sleeping: delays are recorded, not slept. `RETRY_DELAY_BASE` is a whole number of seconds here, where the code reads a float.
- The 0.1 s pause at core/search.py:197 is not recorded in the delays. It is slept after a non-empty page that leaves the query short of `max_results`; the next request, if any, is then the first request of the next query. The delays trace holds whole seconds only, so it leaves this pause out.
- Logging, in both modules.
- `MAX_RETRIES` and `RETRY_DELAY_BASE` are read from the environment in the code. Here they are the parameter `cfg`, and `DEFAULT_CONFIG` holds their defaults.
- The chat model is the oracle `chat`. core/llm_client.py, core/scraper.py, api/routes.py, api/schemas.py, config.py, main.py and utils/logger.py are not part of this model.
- `extract_from_urls` reads `url` and `content` with a default of `""`. Here a page has both fields, with `""` standing for an absent one.
- Search.MakeSearchRequest: the exception messages are not modelled. Each error is a `Failure` value that carries the exception class and the 403 reason, but not the message text.
