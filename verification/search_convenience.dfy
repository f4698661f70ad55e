/**
 * The two convenience entry points of the search client, `search_single`
 * and `search_batch`, both of which deduplicate.
 */
module SearchConvenience {
  import opened Numbers
  import opened Search
  import opened SearchProperties

  /**
   * `search_single`: one query, at most `maxResults` distinct URLs, and no
   * request at all for a blank query.
   */
  method SearchSingle(answer: nat -> Outcome, cfg: Config, query: string, maxResults: int := 10)
    returns (urls: seq<string>, calls: seq<Request>, delays: seq<nat>)
    ensures urls == SearchSpec(answer, Single(query), maxResults, true, cfg).urls
    ensures calls == SearchSpec(answer, Single(query), maxResults, true, cfg).calls
    ensures delays == SearchSpec(answer, Single(query), maxResults, true, cfg).delays
    ensures NoDuplicates(urls)
    ensures |urls| <= (if maxResults > 0 then maxResults else 0)
    ensures forall c :: c in calls ==> c == Request(query, Min(maxResults, PAGE_LIMIT), 1)
    ensures IsBlankQuery(query) ==> urls == [] && calls == []
  {
    urls, calls, delays := Search.Search(answer, cfg, Single(query), maxResults, dedup := true);
    SearchSound(answer, Single(query), maxResults, true, cfg);
    SearchRequests(answer, Single(query), maxResults, true, cfg);
    var m := if maxResults > 0 then maxResults else 0;
    if IsBlankQuery(query) {
      assert NonBlank([query]) == [];
    } else {
      assert [query][1..] == [];
      assert |NonBlank([query])| == 1;
      assert 1 * m == m;
    }
  }

  /**
   * `search_batch`: several queries, deduplicated across all of them, at
   * most `maxResultsPerQuery` URLs (4 by default) for each query.
   */
  method SearchBatch(answer: nat -> Outcome, cfg: Config, queries: seq<string>, maxResultsPerQuery: int := 4)
    returns (urls: seq<string>, calls: seq<Request>, delays: seq<nat>)
    ensures urls == SearchSpec(answer, Batch(queries), maxResultsPerQuery, true, cfg).urls
    ensures calls == SearchSpec(answer, Batch(queries), maxResultsPerQuery, true, cfg).calls
    ensures delays == SearchSpec(answer, Batch(queries), maxResultsPerQuery, true, cfg).delays
    ensures NoDuplicates(urls)
    ensures |urls| <= |queries| * (if maxResultsPerQuery > 0 then maxResultsPerQuery else 0)
    ensures forall c :: c in calls ==> IssuedFor(c, queries, maxResultsPerQuery)
  {
    urls, calls, delays := Search.Search(answer, cfg, Batch(queries), maxResultsPerQuery, dedup := true);
    SearchSound(answer, Batch(queries), maxResultsPerQuery, true, cfg);
    SearchRequests(answer, Batch(queries), maxResultsPerQuery, true, cfg);
    var m := if maxResultsPerQuery > 0 then maxResultsPerQuery else 0;
    MulMono(|NonBlank(queries)|, |queries|, m);
  }

  lemma MulMono(a: nat, b: nat, m: nat)
    requires a <= b
    ensures a * m <= b * m
  {
  }
}
