/**
 * The query executor (`parse_news`): one upstream query, answered from the cache when a
 * non-empty response is cached under its URL, otherwise fetched, enriched article by article,
 * cached in full, and cut to the page size.
 */
module QueryExecutor {
  import opened Wrappers
  import opened Articles
  import opened CacheStore
  import opened Enrichment
  import opened RelativeTime

  /** The news API's answer to one URL: 200 with its `articles` list (empty when absent), or not. */
  datatype Upstream = NewsOk(articles: seq<RawArticle>) | NewsFailed

  type NewsApi = string -> Upstream

  predicate NonEmpty(field: Option<string>)
  {
    field.Some? && field.value != []
  }

  /** The text an article is enriched from: `content`, else `description`, else "". */
  function SelectText(raw: RawArticle): (t: string)
    ensures t == [] <==> !NonEmpty(raw.content) && !NonEmpty(raw.description)
    ensures t != [] ==> Some(t) == raw.content || (!NonEmpty(raw.content) && Some(t) == raw.description)
  {
    if NonEmpty(raw.content) then raw.content.value
    else if NonEmpty(raw.description) then raw.description.value
    else []
  }

  /** The raw articles that have some text, in upstream order. */
  function Kept(raws: seq<RawArticle>): (ks: seq<RawArticle>)
    ensures |ks| <= |raws|
    ensures IsSubsequence(ks, raws)
    ensures forall k :: k in ks ==> SelectText(k) != []
    ensures forall x :: x in raws && SelectText(x) != [] ==> x in ks
    decreases |raws|
  {
    if raws == [] then []
    else if SelectText(raws[0]) != [] then [raws[0]] + Kept(raws[1..])
    else Kept(raws[1..])
  }

  /** Every raw article with text is kept as many times as the upstream sent it; the others never. */
  lemma {:induction false} KeptMultiplicity(raws: seq<RawArticle>)
    ensures forall x :: multiset(Kept(raws))[x] == if SelectText(x) != [] then multiset(raws)[x] else 0
    decreases |raws|
  {
    if raws != [] {
      KeptMultiplicity(raws[1..]);
      assert raws == [raws[0]] + raws[1..];
    }
  }

  datatype Normalized = Normalized(article: Article, world: World)

  /**
   * Enriches one raw article from `text`: summarize the text, then analyze the sentiment of the
   * summary, then format the publication time against the clock after both calls.
   */
  function EnrichArticle(raw: RawArticle, text: string, w: World, backend: Backend): (r: Normalized)
    ensures SameOrigin(r.article, raw)
    ensures var s := Summarize(text, w, backend);
      var a := AnalyzeSentiment(s.summary, s.world, backend);
      && r.article.summary == s.summary
      && r.article.sentiment == a.sentiment
      && r.world == a.world
    ensures r.article.publishedAt == Relative(raw.publishedAt, r.world.clock)
  {
    var s := Summarize(text, w, backend);
    var a := AnalyzeSentiment(s.summary, s.world, backend);
    var article := Article(raw.title, s.summary, a.sentiment, raw.url, raw.sourceName, raw.image,
                           Relative(raw.publishedAt, a.world.clock));
    Normalized(article, a.world)
  }

  /** A non-empty sentiment is the label cached under the summary's sentiment key afterwards. */
  lemma SentimentCachedUnderSummary(raw: RawArticle, text: string, w: World, backend: Backend)
    ensures var r := EnrichArticle(raw, text, w, backend);
      r.article.sentiment.Some? && r.article.sentiment.value != [] ==>
        CachedText(r.world.store, CacheKey(SentimentAnalysis, r.article.summary), r.world.clock) == r.article.sentiment
  {
    var s := Summarize(text, w, backend);
    SentimentAbsentIffDegraded(s.summary, s.world, backend);
  }

  /**
   * Enriching one article makes at most six requests, sleeps only forward, and touches only
   * enrichment keys, keeping the cache well typed.
   */
  lemma EnrichArticleCost(raw: RawArticle, text: string, w: World, backend: Backend)
    ensures var r := EnrichArticle(raw, text, w, backend);
      && w.cursor <= r.world.cursor <= w.cursor + 2 * MaxAttempts
      && w.clock <= r.world.clock <= w.clock + LoadingBackoff * (r.world.cursor - w.cursor)
      && w.store.Keys <= r.world.store.Keys
      && (forall k :: k in w.store && !IsEnrichmentKey(k) ==> r.world.store[k] == w.store[k])
      && (WellTyped(w.store) ==> WellTyped(r.world.store))
  {
    var s := Summarize(text, w, backend);
    EnrichBounds(Summarization, text, w, backend);
    CacheKeyIsEnrichmentKey(Summarization, text);
    EnrichPreservesWellTyped(Summarization, text, w, backend);
    EnrichBounds(SentimentAnalysis, s.summary, s.world, backend);
    CacheKeyIsEnrichmentKey(SentimentAnalysis, s.summary);
    EnrichPreservesWellTyped(SentimentAnalysis, s.summary, s.world, backend);
  }

  datatype Built = Built(articles: seq<Article>, world: World)

  /** Enriches every raw article with text, in order, dropping the ones without text. */
  function EnrichAll(raws: seq<RawArticle>, w: World, backend: Backend): (r: Built)
    ensures |r.articles| == |Kept(raws)|
    ensures forall i :: 0 <= i < |r.articles| ==> SameOrigin(r.articles[i], Kept(raws)[i])
    decreases |raws|
  {
    if raws == [] then Built([], w)
    else
      var text := SelectText(raws[0]);
      if text == [] then EnrichAll(raws[1..], w, backend)
      else
        var n := EnrichArticle(raws[0], text, w, backend);
        var rest := EnrichAll(raws[1..], n.world, backend);
        Built([n.article] + rest.articles, rest.world)
  }

  /** One step of a batch: an article and the world before it give the result and the world after. */
  type Step = (RawArticle, World) -> Normalized

  /** The enrichment step of `parse_news`: an article enriched from its selected text. */
  function Enricher(backend: Backend): Step
  {
    (k: RawArticle, wi: World) => EnrichArticle(k, SelectText(k), wi, backend)
  }

  /** The worlds a batch passes through when `step` runs over `ks` in turn: the first, then one per article. */
  function WorldsAlong(ks: seq<RawArticle>, w: World, step: Step): (ws: seq<World>)
    ensures |ws| == |ks| + 1 && ws[0] == w
    decreases |ks|
  {
    if ks == [] then [w]
    else [w] + WorldsAlong(ks[1..], step(ks[0], w).world, step)
  }

  /** Runs `step` over every article of `ks`, in order, threading the world. */
  function Thread(ks: seq<RawArticle>, w: World, step: Step): (r: Built)
    ensures |r.articles| == |ks|
    decreases |ks|
  {
    if ks == [] then Built([], w)
    else
      var n := step(ks[0], w);
      var rest := Thread(ks[1..], n.world, step);
      Built([n.article] + rest.articles, rest.world)
  }

  /** A threaded batch ends in the last world along its articles. */
  lemma {:induction false} ThreadEnds(ks: seq<RawArticle>, w: World, step: Step)
    ensures Thread(ks, w, step).world == WorldsAlong(ks, w, step)[|ks|]
    decreases |ks|
  {
    if ks != [] {
      var n := step(ks[0], w);
      ThreadEnds(ks[1..], n.world, step);
      var ws, ws' := WorldsAlong(ks, w, step), WorldsAlong(ks[1..], n.world, step);
      assert ws == [w] + ws';
      assert ws[|ks|] == ws'[|ks| - 1];
    }
  }

  /** Result `i` of a threaded batch is the step applied to article `i` in the world before it. */
  lemma {:induction false} ThreadAt(ks: seq<RawArticle>, w: World, step: Step, i: nat)
    requires i < |ks|
    ensures var ws := WorldsAlong(ks, w, step);
      step(ks[i], ws[i]) == Normalized(Thread(ks, w, step).articles[i], ws[i + 1])
    decreases i
  {
    var n := step(ks[0], w);
    var ws, ws' := WorldsAlong(ks, w, step), WorldsAlong(ks[1..], n.world, step);
    assert ws == [w] + ws';
    var r, rest := Thread(ks, w, step), Thread(ks[1..], n.world, step);
    assert r.articles == [n.article] + rest.articles;
    if i > 0 {
      ThreadAt(ks[1..], n.world, step, i - 1);
      assert ks[i] == ks[1..][i - 1] && ws[i] == ws'[i - 1] && ws[i + 1] == ws'[i];
      assert r.articles[i] == rest.articles[i - 1];
    }
  }

  /** Dropping the articles without text while enriching is the same as dropping them first. */
  lemma {:induction false} EnrichAllIsFilterThenEnrich(raws: seq<RawArticle>, w: World, backend: Backend)
    ensures EnrichAll(raws, w, backend) == Thread(Kept(raws), w, Enricher(backend))
    decreases |raws|
  {
    if raws != [] {
      var text := SelectText(raws[0]);
      if text == [] {
        assert Kept(raws) == Kept(raws[1..]);
        EnrichAllIsFilterThenEnrich(raws[1..], w, backend);
      } else {
        var n := EnrichArticle(raws[0], text, w, backend);
        EnrichAllIsFilterThenEnrich(raws[1..], n.world, backend);
        var ks := Kept(raws);
        assert ks == [raws[0]] + Kept(raws[1..]);
        assert ks[0] == raws[0] && ks[1..] == Kept(raws[1..]);
        assert Enricher(backend)(ks[0], w) == n;
      }
    }
  }

  /**
   * Article `i` of a batch is the article with text at position `i`, enriched from its selected
   * text in the world the articles before it left behind; the batch ends in the last such world.
   */
  lemma EnrichAllAlongKept(raws: seq<RawArticle>, w: World, backend: Backend)
    ensures var ks := Kept(raws);
      var ws := WorldsAlong(ks, w, Enricher(backend));
      var r := EnrichAll(raws, w, backend);
      && r.world == ws[|ks|]
      && forall i :: 0 <= i < |ks| ==>
           EnrichArticle(ks[i], SelectText(ks[i]), ws[i], backend) == Normalized(r.articles[i], ws[i + 1])
  {
    EnrichAllIsFilterThenEnrich(raws, w, backend);
    var ks := Kept(raws);
    ThreadEnds(ks, w, Enricher(backend));
    forall i | 0 <= i < |ks|
      ensures var ws := WorldsAlong(ks, w, Enricher(backend));
        EnrichArticle(ks[i], SelectText(ks[i]), ws[i], backend) ==
          Normalized(EnrichAll(raws, w, backend).articles[i], ws[i + 1])
    {
      ThreadAt(ks, w, Enricher(backend), i);
    }
  }

  /** The per-article reading of `EnrichAllAlongKept`, one field at a time. */
  lemma EnrichAllArticles(raws: seq<RawArticle>, w: World, backend: Backend)
    ensures var ks := Kept(raws);
      var ws := WorldsAlong(ks, w, Enricher(backend));
      var b := EnrichAll(raws, w, backend);
      && b.world == ws[|ks|]
      && forall i :: 0 <= i < |ks| ==> b.articles[i] == EnrichArticle(ks[i], SelectText(ks[i]), ws[i], backend).article
  {
    EnrichAllAlongKept(raws, w, backend);
    var ks := Kept(raws);
    var ws := WorldsAlong(ks, w, Enricher(backend));
    var b := EnrichAll(raws, w, backend);
    forall i | 0 <= i < |ks|
      ensures b.articles[i] == EnrichArticle(ks[i], SelectText(ks[i]), ws[i], backend).article
    {
      assert EnrichArticle(ks[i], SelectText(ks[i]), ws[i], backend) == Normalized(b.articles[i], ws[i + 1]);
    }
  }

  /** The rest of a batch is enriched in the world the first kept article left behind. */
  lemma EnrichAllStep(raws: seq<RawArticle>, w: World, backend: Backend)
    requires raws != []
    ensures var text := SelectText(raws[0]);
      EnrichAll(raws, w, backend).world ==
        if text == [] then EnrichAll(raws[1..], w, backend).world
        else EnrichAll(raws[1..], EnrichArticle(raws[0], text, w, backend).world, backend).world
    ensures |Kept(raws)| == |Kept(raws[1..])| + (if SelectText(raws[0]) == [] then 0 else 1)
  {
  }

  /** A raw article with text contributes its enriched article ahead of the rest of the batch. */
  lemma EnrichAllKeptHead(raws: seq<RawArticle>, w: World, backend: Backend)
    requires raws != [] && SelectText(raws[0]) != []
    ensures var n := EnrichArticle(raws[0], SelectText(raws[0]), w, backend);
      var rest := EnrichAll(raws[1..], n.world, backend);
      EnrichAll(raws, w, backend) == Built([n.article] + rest.articles, rest.world)
  {
  }

  /** Enriching a batch makes at most six requests per kept article and only sleeps forward. */
  lemma {:induction false} EnrichAllCost(raws: seq<RawArticle>, w: World, backend: Backend)
    ensures var r := EnrichAll(raws, w, backend);
      && w.cursor <= r.world.cursor <= w.cursor + 2 * MaxAttempts * |Kept(raws)|
      && w.clock <= r.world.clock <= w.clock + LoadingBackoff * (r.world.cursor - w.cursor)
    decreases |raws|
  {
    if raws != [] {
      EnrichAllStep(raws, w, backend);
      var text := SelectText(raws[0]);
      if text == [] {
        EnrichAllCost(raws[1..], w, backend);
      } else {
        var n := EnrichArticle(raws[0], text, w, backend);
        EnrichArticleCost(raws[0], text, w, backend);
        EnrichAllCost(raws[1..], n.world, backend);
      }
    }
  }

  /** Enriching a batch only adds or rewrites enrichment keys, keeping the cache well typed. */
  lemma {:induction false} EnrichAllFrame(raws: seq<RawArticle>, w: World, backend: Backend)
    ensures var r := EnrichAll(raws, w, backend);
      && w.store.Keys <= r.world.store.Keys
      && (forall k :: k in w.store && !IsEnrichmentKey(k) ==> r.world.store[k] == w.store[k])
      && (WellTyped(w.store) ==> WellTyped(r.world.store))
    decreases |raws|
  {
    if raws != [] {
      EnrichAllStep(raws, w, backend);
      var text := SelectText(raws[0]);
      if text == [] {
        EnrichAllFrame(raws[1..], w, backend);
      } else {
        var n := EnrichArticle(raws[0], text, w, backend);
        EnrichArticleCost(raws[0], text, w, backend);
        EnrichAllFrame(raws[1..], n.world, backend);
      }
    }
  }

  datatype Fetched = Fetched(page: seq<Article>, world: World)

  /**
   * `parse_news(url, page_size)`. Afterwards the cache serves, under `url`, a list whose first
   * `pageSize` articles are the result: on a hit the cached list (nothing requested, nothing
   * written); on a miss the full enriched list, written at the current clock.
   */
  function ParseNews(url: string, pageSize: nat, w: World, news: NewsApi, backend: Backend): (r: Fetched)
    ensures var served := Load(r.world.store, url, r.world.clock);
      served.Some? && served.value.ArticleList? && r.page == Take(served.value.items, pageSize)
    ensures CachedArticles(w.store, url, w.clock).Some? ==> r.world == w
    ensures CachedArticles(w.store, url, w.clock).None? ==>
      url in r.world.store && r.world.store[url].Timestamped? && r.world.store[url].storedAt == r.world.clock
    ensures CachedArticles(w.store, url, w.clock).None? && news(url).NewsFailed? ==>
      r.page == [] && r.world == w.(store := Save(w.store, url, ArticleList([]), w.clock))
    ensures CachedArticles(w.store, url, w.clock).None? && news(url).NewsOk? ==>
      var full := r.world.store[url].data.items;
      var kept := Kept(news(url).articles);
      |full| == |kept| && forall i :: 0 <= i < |full| ==> SameOrigin(full[i], kept[i])
    ensures CachedArticles(w.store, url, w.clock).None? && news(url).NewsOk? ==>
      var ks := Kept(news(url).articles);
      var ws := WorldsAlong(ks, w, Enricher(backend));
      var full := r.world.store[url].data.items;
      && (forall i :: 0 <= i < |ks| ==> full[i] == EnrichArticle(ks[i], SelectText(ks[i]), ws[i], backend).article)
      && r.world == ws[|ks|].(store := Save(ws[|ks|].store, url, ArticleList(full), ws[|ks|].clock))
    ensures w.cursor <= r.world.cursor && w.clock <= r.world.clock
    ensures w.store.Keys <= r.world.store.Keys
    ensures forall k :: k in w.store && k != url && !IsEnrichmentKey(k) ==> r.world.store[k] == w.store[k]
    ensures WellTyped(w.store) && !IsEnrichmentKey(url) ==> WellTyped(r.world.store)
  {
    match CachedArticles(w.store, url, w.clock)
    case Some(cached) => Fetched(Take(cached, pageSize), w)
    case None =>
      var built := (match news(url)
        case NewsFailed => Built([], w)
        case NewsOk(raws) =>
          EnrichAllCost(raws, w, backend); EnrichAllFrame(raws, w, backend); EnrichAllArticles(raws, w, backend);
          EnrichAll(raws, w, backend));
      var store := Save(built.world.store, url, ArticleList(built.articles), built.world.clock);
      Fetched(Take(built.articles, pageSize), built.world.(store := store))
  }

  /** A query that misses the cache makes at most six inference requests per article with text. */
  lemma ParseNewsRequestBound(url: string, pageSize: nat, w: World, news: NewsApi, backend: Backend)
    ensures var r := ParseNews(url, pageSize, w, news, backend);
      r.world.cursor - w.cursor <= (if news(url).NewsOk? then 2 * MaxAttempts * |Kept(news(url).articles)| else 0)
  {
    if news(url).NewsOk? {
      EnrichAllCost(news(url).articles, w, backend);
    }
  }

  /** A failed query leaves an empty list behind, so the next call fetches again. */
  lemma FailedQueryIsRefetched(url: string, pageSize: nat, w: World, news: NewsApi, backend: Backend, later: int)
    requires CachedArticles(w.store, url, w.clock).None? && news(url).NewsFailed?
    ensures CachedArticles(ParseNews(url, pageSize, w, news, backend).world.store, url, later).None?
  {
    EmptyListIsMiss(w.store, url, w.clock, later);
  }
}
