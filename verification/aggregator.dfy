/**
 * The aggregator: the India digest fans out over eight keyword queries, concatenates their
 * results in keyword order, de-duplicates by URL and cuts to the page size (10 on page 1, 5
 * after); headlines and free-text search are one query of page size 10, with no de-duplication.
 */
module Aggregator {
  import opened Wrappers
  import opened Decimal
  import opened Articles
  import opened CacheStore
  import opened Enrichment
  import opened QueryExecutor
  import opened Dedup

  const IndiaKeywords: seq<string> :=
    ["India", "Bharat", "Delhi", "Mumbai", "Chennai", "Hyderabad", "Bangalore", "Kolkata"]
  /** Articles requested from each keyword query. */
  const KeywordPageSize: nat := 5
  const HeadlinesPageSize: nat := 10

  function IndiaPageSize(page: int): nat
  {
    if page == 1 then 10 else 5
  }

  function KeywordUrl(keyword: string, page: int, apiKey: string): string
  {
    NewsApiBase + ("everything?q=" + keyword + "&language=en&sortBy=publishedAt&pageSize=5&page="
      + IntToString(page) + "&apiKey=" + apiKey)
  }

  function HeadlinesUrl(page: int, apiKey: string): string
  {
    NewsApiBase + ("top-headlines?language=en&pageSize=10&page=" + IntToString(page) + "&apiKey=" + apiKey)
  }

  function SearchUrl(query: string, page: int, apiKey: string): string
  {
    NewsApiBase + ("everything?q=" + query + "&language=en&sortBy=publishedAt&pageSize=10&page="
      + IntToString(page) + "&apiKey=" + apiKey)
  }

  /** News API URLs never look like enrichment keys, so query and enrichment entries never mix. */
  lemma NewsUrlIsNotEnrichmentKey(base: string, rest: string)
    requires |base| > 0 && base[0] == 'h'
    ensures !IsEnrichmentKey(base + rest)
  {
    assert (base + rest)[0] == 'h';
    assert KeyPrefix(Summarization)[0] == 's';
    assert KeyPrefix(SentimentAnalysis)[0] == 's';
  }

  const NewsApiBase: string := "https://newsapi.org/v2/"

  /** Runs one keyword query after another, threading the world, and concatenates their pages. */
  function FanOut(keywords: seq<string>, page: int, apiKey: string, w: World, news: NewsApi, backend: Backend): (r: Fetched)
    ensures |r.page| <= KeywordPageSize * |keywords|
    ensures w.cursor <= r.world.cursor && w.clock <= r.world.clock
    ensures WellTyped(w.store) ==> WellTyped(r.world.store)
    decreases |keywords|
  {
    if keywords == [] then Fetched([], w)
    else
      var url := KeywordUrl(keywords[0], page, apiKey);
      NewsUrlIsNotEnrichmentKey(NewsApiBase, url[|NewsApiBase|..]);
      var first := ParseNews(url, KeywordPageSize, w, news, backend);
      var rest := FanOut(keywords[1..], page, apiKey, first.world, news, backend);
      Fetched(first.page + rest.page, rest.world)
  }

  /**
   * Fanning out over one keyword is the `parse_news` call for that keyword's URL with page size 5,
   * so each keyword contributes at most five articles.
   */
  lemma FanOutSingle(keyword: string, page: int, apiKey: string, w: World, news: NewsApi, backend: Backend)
    ensures FanOut([keyword], page, apiKey, w, news, backend) ==
      ParseNews(KeywordUrl(keyword, page, apiKey), KeywordPageSize, w, news, backend)
    ensures |FanOut([keyword], page, apiKey, w, news, backend).page| <= KeywordPageSize
  {
    assert [keyword][1..] == [];
    var r := ParseNews(KeywordUrl(keyword, page, apiKey), KeywordPageSize, w, news, backend);
    assert r.page + [] == r.page;
  }

  /**
   * Fanning out over `a + b` is fanning out over `a`, then over `b` in the world `a` left behind,
   * with the pages concatenated in that order.
   */
  lemma {:induction false} FanOutAppend(a: seq<string>, b: seq<string>, page: int, apiKey: string, w: World, news: NewsApi, backend: Backend)
    ensures var first := FanOut(a, page, apiKey, w, news, backend);
      var second := FanOut(b, page, apiKey, first.world, news, backend);
      FanOut(a + b, page, apiKey, w, news, backend) == Fetched(first.page + second.page, second.world)
    decreases |a|
  {
    if a == [] {
      assert a + b == b;
    } else {
      var ab := a + b;
      assert ab[0] == a[0] && ab[1..] == a[1..] + b;
      var head := ParseNews(KeywordUrl(a[0], page, apiKey), KeywordPageSize, w, news, backend);
      var tail := FanOut(a[1..], page, apiKey, head.world, news, backend);
      var second := FanOut(b, page, apiKey, tail.world, news, backend);
      var both := FanOut(a[1..] + b, page, apiKey, head.world, news, backend);
      assert FanOut(a, page, apiKey, w, news, backend) == Fetched(head.page + tail.page, tail.world);
      assert FanOut(ab, page, apiKey, w, news, backend) == Fetched(head.page + both.page, both.world);
      FanOutAppend(a[1..], b, page, apiKey, head.world, news, backend);
      ConcatAssoc(head.page, tail.page, second.page);
    }
  }

  /**
   * The first `pageSize` articles of the stable de-duplication of `gathered`: distinct URLs, each
   * the first article of `gathered` carrying its URL, ordered by where their URLs first occur in
   * `gathered`, and as many as the page size and the number of distinct URLs allow.
   */
  function DedupPage(gathered: seq<Article>, pageSize: nat): (d: seq<Article>)
    ensures |d| == Min(pageSize, |UrlsOf(gathered)|)
    ensures DistinctUrls(d)
    ensures IsSubsequence(d, gathered)
    ensures forall k :: 0 <= k < |d| ==> d[k].url in UrlsOf(gathered) && d[k] == gathered[FirstIndex(gathered, d[k].url)]
    ensures forall i, j :: 0 <= i < j < |d| ==> FirstIndex(gathered, d[i].url) < FirstIndex(gathered, d[j].url)
    ensures HasPrefix(DedupByUrl(gathered), d)
  {
    var unique := DedupByUrl(gathered);
    DedupByUrlSpec(gathered);
    PrefixOfSubsequence(unique, gathered, pageSize);
    Take(unique, pageSize)
  }

  /**
   * A keyword digest: the keyword queries run in order, their pages are concatenated, and the
   * result has at most the page size, distinct URLs, each article the first one in the
   * concatenation carrying its URL, ordered by where their URLs first occur; and as many articles
   * as the page size allows when the keyword queries supply enough distinct URLs.
   */
  function Digest(keywords: seq<string>, pageSize: nat, page: int, apiKey: string, w: World, news: NewsApi, backend: Backend): (r: Fetched)
    ensures var gathered := FanOut(keywords, page, apiKey, w, news, backend);
      && r.world == gathered.world
      && |r.page| == Min(pageSize, |UrlsOf(gathered.page)|)
      && DistinctUrls(r.page)
      && IsSubsequence(r.page, gathered.page)
      && (forall k :: 0 <= k < |r.page| ==>
            r.page[k].url in UrlsOf(gathered.page) && r.page[k] == gathered.page[FirstIndex(gathered.page, r.page[k].url)])
      && (forall i, j :: 0 <= i < j < |r.page| ==>
            FirstIndex(gathered.page, r.page[i].url) < FirstIndex(gathered.page, r.page[j].url))
      && HasPrefix(DedupByUrl(gathered.page), r.page)
    ensures WellTyped(w.store) ==> WellTyped(r.world.store)
  {
    var gathered := FanOut(keywords, page, apiKey, w, news, backend);
    Fetched(DedupPage(gathered.page, pageSize), gathered.world)
  }

  /**
   * `fetch_news_india(page)`: the digest of the eight India keywords, of page size 10 on the first
   * page and 5 on every other.
   */
  function FetchIndia(page: int, apiKey: string, w: World, news: NewsApi, backend: Backend): (r: Fetched)
    ensures r == Digest(IndiaKeywords, if page == 1 then 10 else 5, page, apiKey, w, news, backend)
    ensures |r.page| <= 10 && (page != 1 ==> |r.page| <= 5)
  {
    Digest(IndiaKeywords, IndiaPageSize(page), page, apiKey, w, news, backend)
  }

  /**
   * `fetch_news_world(page)`: the headlines query with page size 10, returned as the query
   * executor returns it.
   */
  function FetchWorld(page: int, apiKey: string, w: World, news: NewsApi, backend: Backend): (r: Fetched)
    ensures r == ParseNews(HeadlinesUrl(page, apiKey), HeadlinesPageSize, w, news, backend)
    ensures |r.page| <= HeadlinesPageSize
    ensures var served := Load(r.world.store, HeadlinesUrl(page, apiKey), r.world.clock);
      served.Some? && served.value.ArticleList? && r.page == Take(served.value.items, HeadlinesPageSize)
    ensures WellTyped(w.store) ==> WellTyped(r.world.store)
  {
    NewsUrlIsNotEnrichmentKey(NewsApiBase, HeadlinesUrl(page, apiKey)[|NewsApiBase|..]);
    ParseNews(HeadlinesUrl(page, apiKey), HeadlinesPageSize, w, news, backend)
  }

  /** `fetch_news_query(query, page)`: the free-text search with page size 10. */
  function FetchQuery(query: string, page: int, apiKey: string, w: World, news: NewsApi, backend: Backend): (r: Fetched)
    ensures r == ParseNews(SearchUrl(query, page, apiKey), HeadlinesPageSize, w, news, backend)
    ensures |r.page| <= HeadlinesPageSize
    ensures var served := Load(r.world.store, SearchUrl(query, page, apiKey), r.world.clock);
      served.Some? && served.value.ArticleList? && r.page == Take(served.value.items, HeadlinesPageSize)
    ensures WellTyped(w.store) ==> WellTyped(r.world.store)
  {
    NewsUrlIsNotEnrichmentKey(NewsApiBase, SearchUrl(query, page, apiKey)[|NewsApiBase|..]);
    ParseNews(SearchUrl(query, page, apiKey), HeadlinesPageSize, w, news, backend)
  }
}
