/**
 * The enrichment client: summarization and sentiment analysis against the inference backend,
 * each cached under a key built from the first 100 characters of its input and retried at most
 * three times. The two operations share one loop and differ only in key prefix and in how a
 * failure is surfaced.
 */
module Enrichment {
  import opened Wrappers
  import opened Articles
  import opened CacheStore

  /**
   * One reply of the inference backend: HTTP 200 with the expected field parsed out (`None` when
   * the body does not have the expected shape), or any other status, flagged when its body
   * mentions "loading".
   */
  datatype Response = Ok200(parsed: Option<string>) | Non200(loading: bool)

  /** The backend's reply to the n-th inference request made by the process. */
  type Backend = nat -> Response

  /**
   * What the pipeline threads from call to call: the cache, the wall clock in whole seconds, and
   * how many inference requests have been made so far.
   */
  datatype World = World(store: Store, clock: int, cursor: nat)

  const MaxAttempts: nat := 3
  /** Seconds slept after a reply that says the model is loading. */
  const LoadingBackoff: nat := 3
  /** Characters of the input that make up the cache key. */
  const KeyTextLength: nat := 100

  const SummaryError: string := "Summary error"
  const SummaryUnavailable: string := "Summary unavailable"

  datatype Kind = Summarization | SentimentAnalysis

  function KeyPrefix(kind: Kind): string
  {
    match kind
    case Summarization => "summary:"
    case SentimentAnalysis => "sentiment:"
  }

  /** The part of a text that identifies it for caching. */
  function KeyText(text: string): (h: string)
    ensures |h| == Min(KeyTextLength, |text|) && HasPrefix(text, h)
  {
    Take(text, KeyTextLength)
  }

  function CacheKey(kind: Kind, text: string): string
  {
    KeyPrefix(kind) + KeyText(text)
  }

  predicate IsEnrichmentKey(key: string)
  {
    HasPrefix(key, KeyPrefix(Summarization)) || HasPrefix(key, KeyPrefix(SentimentAnalysis))
  }

  /**
   * The cache holds what each key is meant to hold: enrichment keys hold timestamped labels,
   * other keys (query URLs) hold article lists, in either format.
   */
  ghost predicate WellTyped(store: Store)
  {
    forall k :: k in store ==>
      match store[k]
      case Timestamped(_, Text(_)) => IsEnrichmentKey(k)
      case Timestamped(_, ArticleList(_)) => !IsEnrichmentKey(k)
      case Legacy(_) => !IsEnrichmentKey(k)
      case Unrecognised => true
  }

  /** Two texts share a cache entry exactly when their first 100 characters agree. */
  lemma {:induction false} CacheKeyShared(kind: Kind, a: string, b: string)
    ensures CacheKey(kind, a) == CacheKey(kind, b) <==> KeyText(a) == KeyText(b)
  {
    var p := KeyPrefix(kind);
    if CacheKey(kind, a) == CacheKey(kind, b) {
      assert KeyText(a) == (p + KeyText(a))[|p|..];
      assert KeyText(b) == (p + KeyText(b))[|p|..];
    }
  }

  /** A summary entry and a sentiment entry never share a key. */
  lemma {:induction false} KindsNeverCollide(a: string, b: string)
    ensures CacheKey(Summarization, a) != CacheKey(SentimentAnalysis, b)
  {
    assert CacheKey(Summarization, a)[1] == 'u';
    assert CacheKey(SentimentAnalysis, b)[1] == 'e';
  }

  lemma CacheKeyIsEnrichmentKey(kind: Kind, text: string)
    ensures IsEnrichmentKey(CacheKey(kind, text))
  {
    var p := KeyPrefix(kind);
    assert (p + KeyText(text))[..|p|] == p;
  }

  /** How an enrichment ends: a value, or a degradation with its reason. */
  datatype Failure = Malformed | Exhausted
  datatype Outcome = Enriched(value: string) | Degraded(reason: Failure)

  /** Number of "loading" replies among requests `from` .. `to - 1`. */
  function Loadings(backend: Backend, from: nat, to: nat): nat
    decreases if from < to then to - from else 0
  {
    if to <= from then 0
    else (if backend(from) == Non200(true) then 1 else 0) + Loadings(backend, from + 1, to)
  }

  lemma {:induction false} LoadingsBound(backend: Backend, from: nat, to: nat)
    requires from <= to
    ensures Loadings(backend, from, to) <= to - from
    decreases if from < to then to - from else 0
  {
    if from < to {
      LoadingsBound(backend, from + 1, to);
    }
  }

  datatype Attempted = Attempted(outcome: Outcome, cursor: nat, clock: int)

  /**
   * The retry loop with `left` attempts to go, starting at request `cursor` at time `clock`.
   * The result stops at the first 200 reply; every request before it got another status.
   */
  function Attempts(backend: Backend, cursor: nat, clock: int, left: nat): (r: Attempted)
    ensures cursor <= r.cursor <= cursor + left
    ensures forall i :: cursor <= i < r.cursor && (r.outcome == Degraded(Exhausted) || i < r.cursor - 1) ==> backend(i).Non200?
    ensures r.outcome.Enriched? ==> r.cursor > cursor && backend(r.cursor - 1) == Ok200(Some(r.outcome.value))
    ensures r.outcome == Degraded(Malformed) ==> r.cursor > cursor && backend(r.cursor - 1) == Ok200(None)
    ensures r.outcome == Degraded(Exhausted) ==> r.cursor == cursor + left
    ensures r.clock == clock + LoadingBackoff * Loadings(backend, cursor, r.cursor)
    decreases left
  {
    if left == 0 then Attempted(Degraded(Exhausted), cursor, clock)
    else
      match backend(cursor)
      case Ok200(Some(v)) => Attempted(Enriched(v), cursor + 1, clock)
      case Ok200(None) => Attempted(Degraded(Malformed), cursor + 1, clock)
      case Non200(loading) =>
        Attempts(backend, cursor + 1, if loading then clock + LoadingBackoff else clock, left - 1)
  }

  /** The result of one enrichment and the world after it. */
  datatype EnrichResult = EnrichResult(outcome: Outcome, world: World)

  /**
   * One enrichment of `text`. A non-empty cached label is returned without a request. Otherwise
   * up to three requests are made: the first 200 reply decides (a value is cached and returned,
   * a malformed body degrades at once and caches nothing); three other replies exhaust the loop
   * and leave the cache as it was. Each "loading" reply costs three seconds of sleep.
   */
  function Enrich(kind: Kind, text: string, w: World, backend: Backend): (r: EnrichResult)
    ensures var key := CacheKey(kind, text);
      CachedText(w.store, key, w.clock).Some? ==>
        r == EnrichResult(Enriched(CachedText(w.store, key, w.clock).value), w)
    ensures var key := CacheKey(kind, text);
      CachedText(w.store, key, w.clock).None? ==>
        && w.cursor < r.world.cursor <= w.cursor + MaxAttempts
        && (forall i :: w.cursor <= i < r.world.cursor - 1 ==> backend(i).Non200?)
        && (r.outcome.Enriched? <==> backend(r.world.cursor - 1).Ok200? && backend(r.world.cursor - 1).parsed.Some?)
        && (r.outcome.Enriched? ==> backend(r.world.cursor - 1).parsed.value == r.outcome.value)
        && (r.outcome == Degraded(Malformed) <==> backend(r.world.cursor - 1) == Ok200(None))
        && (r.outcome == Degraded(Exhausted) <==> r.world.cursor == w.cursor + MaxAttempts && backend(r.world.cursor - 1).Non200?)
        && r.world.clock == w.clock + LoadingBackoff * Loadings(backend, w.cursor, r.world.cursor)
        && r.world.store == (if r.outcome.Enriched? then Save(w.store, key, Text(r.outcome.value), r.world.clock) else w.store)
  {
    var key := CacheKey(kind, text);
    match CachedText(w.store, key, w.clock)
    case Some(v) => EnrichResult(Enriched(v), w)
    case None =>
      var a := Attempts(backend, w.cursor, w.clock, MaxAttempts);
      var store := if a.outcome.Enriched? then Save(w.store, key, Text(a.outcome.value), a.clock) else w.store;
      EnrichResult(a.outcome, World(store, a.clock, a.cursor))
  }

  /** An enrichment makes at most three requests and sleeps at most nine seconds; the cache only grows. */
  lemma EnrichBounds(kind: Kind, text: string, w: World, backend: Backend)
    ensures var r := Enrich(kind, text, w, backend);
      && w.cursor <= r.world.cursor <= w.cursor + MaxAttempts
      && w.clock <= r.world.clock <= w.clock + LoadingBackoff * (r.world.cursor - w.cursor)
      && w.store.Keys <= r.world.store.Keys
      && (forall k :: k in w.store && k != CacheKey(kind, text) ==> r.world.store[k] == w.store[k])
  {
    var r := Enrich(kind, text, w, backend);
    LoadingsBound(backend, w.cursor, r.world.cursor);
  }

  /** Enrichment only writes a label under an enrichment key, so it keeps the cache well typed. */
  lemma EnrichPreservesWellTyped(kind: Kind, text: string, w: World, backend: Backend)
    ensures WellTyped(w.store) ==> WellTyped(Enrich(kind, text, w, backend).world.store)
  {
    CacheKeyIsEnrichmentKey(kind, text);
  }

  /**
   * After a fresh successful enrichment with a non-empty value, any text with the same first 100
   * characters is answered from the cache, without a request, for the next hour.
   */
  lemma RepeatIsServedFromCache(kind: Kind, text: string, other: string, w: World, backend: Backend, later: int, backend': Backend)
    requires CachedText(w.store, CacheKey(kind, text), w.clock).None?
    requires Enrich(kind, text, w, backend).outcome.Enriched?
    requires Enrich(kind, text, w, backend).outcome.value != []
    requires KeyText(other) == KeyText(text)
    requires later - Enrich(kind, text, w, backend).world.clock < TimeToLive
    ensures var e := Enrich(kind, text, w, backend);
      var w' := e.world.(clock := later);
      Enrich(kind, other, w', backend') == EnrichResult(e.outcome, w')
  {
    CacheKeyShared(kind, text, other);
  }

  /** `summarize_text`: failures surface as the two sentinel strings. */
  datatype Summarized = Summarized(summary: string, world: World)

  /**
   * A cached summary is returned as it is. Otherwise the reply that ended the loop decides: its
   * parsed summary, "Summary error" for a malformed 200 body, or "Summary unavailable" after three
   * replies none of which was 200.
   */
  function Summarize(text: string, w: World, backend: Backend): (r: Summarized)
    ensures r.world == Enrich(Summarization, text, w, backend).world
    ensures var cached := CachedText(w.store, CacheKey(Summarization, text), w.clock);
      cached.Some? ==> r == Summarized(cached.value, w)
    ensures CachedText(w.store, CacheKey(Summarization, text), w.clock).None? ==>
      var last := backend(r.world.cursor - 1);
      && (last.Ok200? && last.parsed.Some? ==> r.summary == last.parsed.value)
      && (last == Ok200(None) ==> r.summary == SummaryError)
      && (last.Non200? ==> r.world.cursor == w.cursor + MaxAttempts && r.summary == SummaryUnavailable)
  {
    var e := Enrich(Summarization, text, w, backend);
    match e.outcome
    case Enriched(v) => Summarized(v, e.world)
    case Degraded(Malformed) => Summarized(SummaryError, e.world)
    case Degraded(Exhausted) => Summarized(SummaryUnavailable, e.world)
  }

  /** `analyze_sentiment`: failures surface as an absent label. */
  datatype Analyzed = Analyzed(sentiment: Option<string>, world: World)

  /**
   * A cached label is returned as it is. Otherwise the reply that ended the loop decides: its
   * parsed label, or no label for a malformed 200 body or after three replies none of which was 200.
   */
  function AnalyzeSentiment(text: string, w: World, backend: Backend): (r: Analyzed)
    ensures r.world == Enrich(SentimentAnalysis, text, w, backend).world
    ensures var cached := CachedText(w.store, CacheKey(SentimentAnalysis, text), w.clock);
      cached.Some? ==> r == Analyzed(cached, w)
    ensures CachedText(w.store, CacheKey(SentimentAnalysis, text), w.clock).None? ==>
      var last := backend(r.world.cursor - 1);
      && (last.Ok200? && last.parsed.Some? ==> r.sentiment == last.parsed)
      && (last == Ok200(None) ==> r.sentiment == None)
      && (last.Non200? ==> r.world.cursor == w.cursor + MaxAttempts && r.sentiment == None)
  {
    var e := Enrich(SentimentAnalysis, text, w, backend);
    match e.outcome
    case Enriched(v) => Analyzed(Some(v), e.world)
    case Degraded(_) => Analyzed(None, e.world)
  }

  /**
   * A summarization that misses the cache and gets a malformed 200 body on its first request
   * returns "Summary error" after exactly one request and caches nothing.
   */
  lemma SummarizeMalformedStopsAtOnce(text: string, w: World, backend: Backend)
    requires CachedText(w.store, CacheKey(Summarization, text), w.clock).None?
    requires backend(w.cursor) == Ok200(None)
    ensures Summarize(text, w, backend) == Summarized(SummaryError, w.(cursor := w.cursor + 1))
  {
  }

  /**
   * Against a backend that keeps answering "loading", a summarization that misses the cache makes
   * exactly three requests, sleeps nine seconds, returns "Summary unavailable" and caches nothing.
   */
  lemma SummarizeAlwaysLoading(text: string, w: World, backend: Backend)
    requires CachedText(w.store, CacheKey(Summarization, text), w.clock).None?
    requires forall i :: w.cursor <= i < w.cursor + MaxAttempts ==> backend(i) == Non200(true)
    ensures Summarize(text, w, backend) ==
      Summarized(SummaryUnavailable, World(w.store, w.clock + MaxAttempts * LoadingBackoff, w.cursor + MaxAttempts))
  {
    var e := Enrich(Summarization, text, w, backend);
    assert backend(e.world.cursor - 1).Non200?;
    assert Loadings(backend, w.cursor, w.cursor + 3) == 3 by {
      assert backend(w.cursor) == Non200(true);
      assert backend(w.cursor + 1) == Non200(true);
      assert backend(w.cursor + 2) == Non200(true);
    }
  }

  /** Sentiment analysis degrades to an absent label exactly when the enrichment degrades. */
  lemma SentimentAbsentIffDegraded(text: string, w: World, backend: Backend)
    ensures AnalyzeSentiment(text, w, backend).sentiment.None? <==> Enrich(SentimentAnalysis, text, w, backend).outcome.Degraded?
    ensures AnalyzeSentiment(text, w, backend).sentiment.Some? ==>
      AnalyzeSentiment(text, w, backend).sentiment.value == Enrich(SentimentAnalysis, text, w, backend).outcome.value
  {
  }
}
