# News summarizer: fetch, enrich and cache pipeline in Dafny

This project models the core of a small news aggregator (`app.py`). The aggregator turns upstream news-API
queries into a list of articles. Each article carries a generated summary and a sentiment label
from an inference backend. Results are kept in a TTL-bounded cache at two levels:

- a query response is cached under its request URL;
- each summary and sentiment label is cached under `"summary:"` or `"sentiment:"` plus the first
  100 characters of the text it was computed from.

All I/O is replaced by explicit inputs:

- the cache is a `map<string, Entry>`;
- the wall clock is an integer `clock` (whole seconds);
- the inference backend is an oracle `nat -> Response`, indexed by a running count of requests
  (`World.cursor`);
- the news API is an oracle `string -> Upstream`, from URL to reply.

Every operation is a pure function. It threads a `World(store, clock, cursor)` from call to call.

Modules, leaf first:

- `Wrappers` holds `Option`, Python-style prefix slicing (`Take`) and subsequences.
- `Decimal` holds `str(int)` for the numbers written into labels and URLs.
- `Articles` holds the raw upstream record and the enriched article.
- `CacheStore` is the cache read/write rule. Timestamped records are served for 3600 s. Legacy bare
  lists are served forever. Anything else is a miss. Empty values count as misses for callers.
- `Enrichment` holds `summarize_text` and `analyze_sentiment` as one retry loop with two surfaces.
- `RelativeTime` holds `relative_time` bucketing.
- `QueryExecutor` holds `parse_news`.
- `Dedup` holds the stable de-duplication by URL.
- `Aggregator` holds `fetch_news_india`, `fetch_news_world` and `fetch_news_query`.
- `Scenarios` holds worked examples on small inputs.

Modelling decisions:

- **Clock.** The source compares `time.time() - timestamp < 3600`, where the timestamp is an
  integer. It computes `seconds // 60` from a fractional delta against an integer-second
  publication time. Both results are unchanged when the current time is rounded down to whole
  seconds, so an integer clock is exact.
- **When the clock moves.** The clock advances only by the modelled `time.sleep(3)`, which
  happens after each non-200 reply whose body mentions "loading". Cache writes and relative-time
  labels read the clock at the point where the source reads it.
- **Backend replies.** `Ok200(parsed)` stands for a 200 reply. `parsed` is `None` when
  `res.json()[0][field]` fails. `Non200(loading)` stands for any other status, with the
  `"loading" in res.text.lower()` test reduced to a flag.
- **Timestamps.** A `publishedAt` timestamp is parsed into
  `Option<ParsedTime(epochSeconds, calendarDate)>`. Parsing and the `"%d %b %Y"` rendering happen
  outside the model.
- **Payload types.** Each cache key holds one kind of value: enrichment keys hold labels and URL
  keys hold article lists. The predicate `Enrichment.WellTyped` states this. Every operation
  preserves it, and news URLs never start like enrichment keys.

Behaviours of `app.py` worth noting, all modelled as written:

- **Loading sleeps.** The retry loop sleeps after every "loading" reply, the third included, so
  an always-loading backend costs 9 s in total (`SummarizeAlwaysLoading`).
- **No de-duplication for single queries.** `fetch_news_world` and `fetch_news_query` return
  `parse_news` unchanged, so duplicate URLs survive (`HeadlinesKeepDuplicates`).
- **Label spelling.** The label for an age under a minute is `"Just now"`, with a capital J.
- **No sorting.** No step sorts by time. Order is upstream order, then keyword order.

## Model

| member | source | states |
|---|---|---|
| `CacheStore.Load` | app.py:40-52 | a read yields a value only for a present record in a recognised format |
| `CacheStore.Save` | app.py:32-38 | a write stamps the record with the current time, adds the key, and leaves every other key's record unchanged |
| `CacheStore.ReadAfterWrite` | app.py:32-48 | a value written at `t` reads back unchanged while `now - t < 3600` |
| `CacheStore.ExpiredIsMiss` | app.py:46-52 | a value written at `t` is a miss once `now - t >= 3600` |
| `CacheStore.TimestampedValidity` | app.py:46-48 | a timestamped record is served if and only if `now - storedAt < 3600`, and then its data is what is served |
| `CacheStore.LegacyNeverExpires` | app.py:49-51 | a legacy bare list is served at every time |
| `CacheStore.UnrecognisedIsMiss` | app.py:40-52 | an absent key, or a record in any other shape, is a miss |
| `CacheStore.SaveIsolated` | app.py:29-38 | writing one key does not change the reads of any other key |
| `CacheStore.CachedText` | app.py:58-59 | an enrichment hit is exactly a served non-empty string |
| `CacheStore.CachedArticles` | app.py:91-92 | a query hit is exactly a served non-empty list |
| `CacheStore.EmptyListIsMiss` | app.py:91-116 | a stored empty list is never a hit, at any time |
| `CacheStore.EmptyTextIsMiss` | app.py:57-59 | a stored empty label is never a hit |
| `Wrappers.Take` | app.py:93 | slicing `[:n]` yields `min(n, len)` elements, each equal to the input's element at the same position |
| `Decimal.NatToString` | app.py:126 | a count is written as decimal digits with no leading zero |
| `Decimal.NatToStringRoundTrip` | app.py:126-128 | reading the written digits back yields the count |
| `Decimal.NatToStringInjective` | app.py:126-128 | different counts are written differently |
| `Decimal.IntToString` | app.py:141 | the page number in a URL is its canonical decimal digits (those of `NatToString`, so no leading zero), with a minus sign exactly for negative pages |
| `Enrichment.KeyText` | app.py:57 | the key text is the first `min(100, len)` characters of the input |
| `Enrichment.CacheKeyShared` | app.py:57 | two texts share an enrichment cache entry if and only if their first 100 characters agree |
| `Enrichment.KindsNeverCollide` | app.py:74 | a sentiment key never equals a summary key |
| `Enrichment.Attempts` | app.py:60-71 | the loop makes at most `left` requests and stops at the first 200 reply. All earlier replies were non-200. A parsed body gives the value and a malformed body degrades. Using up all attempts degrades as exhausted. The clock advances 3 s per "loading" reply |
| `Enrichment.Enrich` | app.py:56-71 | a non-empty cached value is returned with no request and no change. On a miss there are 1 to 3 requests and the outcome follows the first 200 reply, whose parsed value is returned and cached. A malformed 200 body or three non-200 replies degrade without caching. The clock advances by the loading sleeps |
| `Enrichment.EnrichBounds` | app.py:60-71 | at most 3 requests and at most 3 s of sleep per request; only the call's own key can change, and no key disappears |
| `Enrichment.EnrichPreservesWellTyped` | app.py:57-65 | enrichment writes only a label under an enrichment key |
| `Enrichment.RepeatIsServedFromCache` | app.py:57-66 | after a fresh non-empty result, any text with the same first 100 characters gets the same value with no request, for the next 3600 s |
| `Enrichment.Summarize` | app.py:56-71 | a cached summary is returned with the world unchanged. On a miss the reply that ended the loop decides: its parsed summary for a parsed 200 body, "Summary error" for a malformed 200 body, and "Summary unavailable" after 3 replies none of which was 200. The world is the one the shared enrichment loop leaves |
| `Enrichment.SummarizeMalformedStopsAtOnce` | app.py:62-68 | a malformed 200 body on a miss returns "Summary error" after exactly one request, with nothing cached |
| `Enrichment.SummarizeAlwaysLoading` | app.py:60-71 | an always-loading backend on a miss means exactly 3 requests and 9 s of sleep; the result is "Summary unavailable" and the cache is unchanged |
| `Enrichment.AnalyzeSentiment` | app.py:73-88 | a cached label is returned with the world unchanged. On a miss the reply that ended the loop decides: its parsed label for a parsed 200 body, and no label for a malformed 200 body or after 3 replies none of which was 200. The world is the one the shared enrichment loop leaves |
| `Enrichment.SentimentAbsentIffDegraded` | app.py:77-88 | the label is `None` if and only if the enrichment degraded; otherwise it is the enriched value |
| `RelativeTime.Bucket` | app.py:118-130 | under 60 s is "just now", including negative ages. Under 3600 s gives `m` minutes with `1 <= m <= 59` and `60m <= s < 60(m+1)`. Under 86400 s gives `h` hours with `1 <= h <= 23` and `3600h <= s < 3600(h+1)`. Anything older is the calendar date |
| `RelativeTime.Relative` | app.py:118-132 | a timestamp that does not parse gives the empty string |
| `RelativeTime.RenderReadBack` | app.py:123-128 | the "Just now", "N min ago" and "N hrs ago" labels read back to the bucket and count they came from |
| `RelativeTime.RelativeLabelBuckets` | app.py:118-130 | an article's label is "Just now" under a minute, `str(m) + " min ago"` or `str(h) + " hrs ago"` with the unique count whose range holds the age, and the calendar date from a day on; the minute and hour labels read back to their bucket |
| `RelativeTime.ZeroPaddedLabelIsRejected` | app.py:126 | a zero-padded count such as "07 min ago" is not read as a label, while "7 min ago" is |
| `QueryExecutor.SelectText` | app.py:100 | the text is `content` when it is non-empty, else `description` when that is non-empty, else empty |
| `QueryExecutor.Kept` | app.py:99-101 | the kept raw articles are those with text, in upstream order, as a subsequence of the input |
| `QueryExecutor.KeptMultiplicity` | app.py:99-101 | each raw article with text is kept exactly as many times as the upstream sent it, and one without text never |
| `QueryExecutor.EnrichArticle` | app.py:101-114 | title, url, source and image are copied from the raw record. The summary is `Summarize` of the selected text. The sentiment is `AnalyzeSentiment` of that summary, in the world the summarizer left, and the article ends in the world sentiment analysis left. The time label is computed at the clock after both calls |
| `QueryExecutor.SentimentCachedUnderSummary` | app.py:102-103 | a non-empty sentiment is the label cached afterwards under the summary's sentiment key |
| `QueryExecutor.EnrichArticleCost` | app.py:101-103 | one article makes at most 6 requests and moves the clock only by its sleeps. Only enrichment keys change, and the cache stays well typed |
| `QueryExecutor.EnrichAll` | app.py:99-114 | one enriched article per raw article with text, in order, each with the identity of its raw record |
| `QueryExecutor.EnrichAllIsFilterThenEnrich` | app.py:99-114 | skipping articles without text inside the loop gives the same articles and world as filtering them out first and then enriching the rest in order |
| `QueryExecutor.EnrichAllAlongKept` | app.py:99-114 | article `i` of a batch is the `i`-th raw article with text, enriched from its selected text in the world the articles before it left, and the batch ends in the world the last one left |
| `QueryExecutor.EnrichAllCost` | app.py:99-103 | a batch makes at most 6 requests per kept article and moves the clock only by its sleeps |
| `QueryExecutor.EnrichAllFrame` | app.py:99-103 | a batch only adds or rewrites enrichment keys and keeps the cache well typed |
| `QueryExecutor.ParseNews` | app.py:90-116 | afterwards the cache serves under the URL a list whose first `pageSize` elements are the result. On a hit the world is unchanged. On a miss the full list is stamped with the current clock. A failed upstream gives `[]` with only `[]` cached. A successful one caches one article per raw article with text, in order. Article `i` of that list is the `i`-th raw article with text, enriched from its selected text in the world the articles before it left, and the list is written in the world the last one left |
| `QueryExecutor.ParseNewsRequestBound` | app.py:95-103 | a query makes at most 6 inference requests per article with text, and none when the upstream fails |
| `QueryExecutor.FailedQueryIsRefetched` | app.py:91-115 | after a failed miss the URL is still a miss at every later time |
| `Dedup.DedupUrls` | app.py:143-148 | the kept URLs are exactly the input URLs not already seen |
| `Dedup.DedupDistinct` | app.py:143-148 | no URL is kept twice |
| `Dedup.DedupSubsequence` | app.py:143-148 | the output is the input with elements deleted, in the same relative order |
| `Dedup.DedupFirstOccurrence` | app.py:143-148 | each kept article is the first input article carrying its URL |
| `Dedup.DistinctUrlsCount` | app.py:143-148 | with distinct URLs, the number of articles equals the number of URLs |
| `Dedup.DedupOrder` | app.py:143-148 | the kept articles are ordered by the positions where their URLs first occur in the input |
| `Dedup.DedupByUrlSpec` | app.py:143-148 | the output has distinct URLs and exactly the input's URLs, one article per URL. It is a subsequence of the input, each article is its URL's first occurrence, and the articles are ordered by those first-occurrence positions. This holds even when the same article value appears twice |
| `Dedup.DedupOfDistinct` | app.py:143-148 | input with distinct, unseen URLs passes through unchanged |
| `Dedup.DedupIdempotent` | app.py:143-148 | de-duplicating twice equals de-duplicating once |
| `Dedup.DedupStable` | app.py:143-148 | the single pass with a `seen` set computes the stable de-duplication |
| `Aggregator.NewsUrlIsNotEnrichmentKey` | app.py:141 | news-API URLs never have an enrichment key prefix |
| `Aggregator.FanOut` | app.py:139-142 | the concatenated keyword pages hold at most 5 articles per keyword in total; time and requests only move forward; the cache stays well typed |
| `Aggregator.FanOutSingle` | app.py:140-142 | one keyword's contribution is `parse_news` of that keyword's URL with page size 5, so at most 5 articles |
| `Aggregator.FanOutAppend` | app.py:139-142 | fanning out over two keyword lists one after the other is fanning out over the first, then over the second in the world the first left, with the pages concatenated in that order; with `FanOutSingle` this fixes the fan-out on every keyword list as the keyword queries in keyword order |
| `Aggregator.DedupPage` | app.py:143-149 | the page has exactly `min(pageSize, distinct URLs)` articles with distinct URLs. Each is its URL's first occurrence, ordered by first-occurrence position, as a prefix of the stable de-duplication |
| `Aggregator.Digest` | app.py:138-149 | for any keyword list and page size: the page has exactly `min(pageSize, distinct URLs gathered)` articles with distinct URLs. It is a subsequence of the keyword-ordered concatenation, each article is its URL's first occurrence there, the articles are ordered by those first-occurrence positions, and it is a prefix of the stable de-duplication, i.e. its first `pageSize` entries. The world is the one the fan-out left |
| `Aggregator.FetchIndia` | app.py:136-149 | the digest of the eight India keywords with page size 10 on page 1 and 5 on every other page, so at most 10 articles, and at most 5 beyond page 1 |
| `Aggregator.FetchWorld` | app.py:151-154 | the result is `parse_news` of the headlines URL with page size 10, without de-duplication: at most 10 articles, the first 10 of the list the cache then serves under that URL |
| `Aggregator.FetchQuery` | app.py:156-159 | the result is `parse_news` of the search URL with page size 10, without de-duplication: at most 10 articles, the first 10 of the list the cache then serves under that URL |
| `Scenarios.DedupKeepsFirstOccurrence` | app.py:143-149 | for urls [1, 2, 1] the first two articles are kept |
| `Scenarios.RepeatedArticleOrder` | app.py:143-148 | when the same article value is returned twice, as [A, B, A], any list meeting the first-occurrence and ordering clauses is [A, B], which is the de-duplication's output |
| `Scenarios.ContentFallback` | app.py:100-101 | empty content falls back to the description; an article with neither is dropped |
| `Scenarios.EndToEndQuery` | app.py:90-116 | two articles answered at once give two enriched articles in upstream order. Both are cached under the query key |
| `Scenarios.GracefulDegradation` | app.py:101-114 | a malformed sentiment reply leaves the article in place with no sentiment |
| `Scenarios.HeadlinesKeepDuplicates` | app.py:151-154 | two headline articles with one URL are both returned |

## Left out

- The Flask routes, query-argument parsing, templates and redirects (app.py:163-188) are left out. They are HTTP plumbing.
- The PDF and CSV export (app.py:190-232) is left out. It only formats output.
- Browser auto-launch (app.py:234-240) and environment configuration (app.py:8-23) are left out.
- The MD5 file naming, JSON file reads and writes, and directory creation are left out. The cache is a map keyed by the raw key, so hash collisions cannot occur in the model.
- Errors that the source does not catch are left out. These include a cache file that is not valid JSON (`json.load` raises), network exceptions from `requests`, a non-JSON 200 news reply, and a raw article missing `title`, `url` or `source.name`. They end the request in the source and have no model counterpart.
- Some cache record shapes are approximated. A timestamped record without a `data` field (which the source serves as `None`, a miss for every caller) and a record with a non-integer timestamp are both modelled as `Unrecognised`.
- Labels and summaries are modelled as strings. A 200 body whose field holds another JSON type is not represented.
- Requests are modelled one at a time. The development server (app.py:240) may serve requests on several threads, whose cache reads and writes on one key can interleave. Each operation here threads a single `World`, assuming no other writer, so concurrent cache writers are out of scope.
- Network latency is left out. The clock advances only by the modelled sleeps.
- Timestamp parsing (`strptime`) and date rendering (`strftime`) are inputs to the model, through `ParsedTime`.
- URL encoding is left out. Keywords, queries and the API key are interpolated as given, as the source does.
- A label found under a URL key, or an article list under an enrichment key, is treated as a miss, while the source would serve it (app.py:59, app.py:92). No input is required to start well typed, but every operation keeps a well-typed cache well typed (`Enrichment.WellTyped`), so such a record only arises from a cache file written by something else.
- `QueryExecutor.Kept`: its own contract states membership and order. Multiplicity is stated by `KeptMultiplicity`.
- `QueryExecutor.EnrichAll`: its own contract states only the count and the copied identity of each article. Each article's summary, sentiment and time label are stated by `EnrichAllAlongKept`, which is proved about it.
- `RelativeTime.Relative`: its own contract states only the parse-failure case. The buckets are stated by `Bucket` and `RelativeLabelBuckets`.
- `CacheStore.Load`: its own contract is only the presence condition. The validity rule is stated by `TimestampedValidity`, `LegacyNeverExpires`, `UnrecognisedIsMiss`, `ReadAfterWrite` and `ExpiredIsMiss`.
