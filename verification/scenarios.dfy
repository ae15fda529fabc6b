/** Worked examples of the pipeline on small inputs. */
module Scenarios {
  import opened Wrappers
  import opened Articles
  import opened CacheStore
  import opened Enrichment
  import opened QueryExecutor
  import opened Dedup
  import opened Aggregator

  function Item(title: string, url: string): Article
  {
    Article(title, "s", None, url, "src", None, "")
  }

  /** Of three articles where the third repeats the first one's URL, the first two are kept. */
  lemma DedupKeepsFirstOccurrence()
    ensures DedupByUrl([Item("A", "1"), Item("B", "2"), Item("C", "1")]) == [Item("A", "1"), Item("B", "2")]
  {
    var xs := [Item("A", "1"), Item("B", "2"), Item("C", "1")];
    assert xs[1..] == [Item("B", "2"), Item("C", "1")];
    assert xs[1..][1..] == [Item("C", "1")];
    assert DedupFrom([Item("C", "1")], {"1", "2"}) == [];
  }

  /**
   * When the same article comes back twice, as two keyword queries can return it, the ordering
   * clause of the de-duplication's description leaves only the order of first occurrence.
   */
  lemma RepeatedArticleOrder(d: seq<Article>)
    requires var xs := [Item("A", "1"), Item("B", "2"), Item("A", "1")];
      && |d| == 2
      && (forall k :: 0 <= k < |d| ==> d[k].url in UrlsOf(xs) && d[k] == xs[FirstIndex(xs, d[k].url)])
      && (forall i, j :: 0 <= i < j < |d| ==> FirstIndex(xs, d[i].url) < FirstIndex(xs, d[j].url))
    ensures d == [Item("A", "1"), Item("B", "2")]
    ensures d == DedupByUrl([Item("A", "1"), Item("B", "2"), Item("A", "1")])
  {
    var xs := [Item("A", "1"), Item("B", "2"), Item("A", "1")];
    assert FirstIndex(xs, "1") == 0;
    assert xs[1..] == [Item("B", "2"), Item("A", "1")];
    assert FirstIndex(xs, "2") == 1;
    assert UrlsOf(xs) == {"1", "2"} by {
      Dedup.UrlsOfCons(xs);
      Dedup.UrlsOfCons(xs[1..]);
      assert xs[1..][1..] == [Item("A", "1")];
      Dedup.UrlsOfCons(xs[1..][1..]);
      assert xs[1..][1..][1..] == [];
    }
    assert FirstIndex(xs, d[0].url) < FirstIndex(xs, d[1].url);
    assert d[0].url == "1" && d[1].url == "2";
    assert xs[1..][1..] == [Item("A", "1")];
    assert DedupFrom([Item("A", "1")], {"1", "2"}) == [];
  }

  function Raw(title: string, url: string, content: Option<string>, description: Option<string>): RawArticle
  {
    RawArticle(title, url, "src", None, content, description, None)
  }

  /** An article without content but with a description is kept; one with neither is dropped. */
  lemma ContentFallback()
    ensures SelectText(Raw("A", "a", Some(""), Some("d"))) == "d"
    ensures Kept([Raw("A", "a", Some(""), Some("d")), Raw("B", "b", None, Some(""))]) == [Raw("A", "a", Some(""), Some("d"))]
  {
    var raws := [Raw("A", "a", Some(""), Some("d")), Raw("B", "b", None, Some(""))];
    assert raws[1..] == [Raw("B", "b", None, Some(""))];
    assert raws[1..][1..] == [];
  }

  function TwoRepliesEach(i: nat): Response
  {
    if i == 0 then Ok200(Some("S1"))
    else if i == 1 then Ok200(Some("POSITIVE"))
    else if i == 2 then Ok200(Some("S2"))
    else Ok200(Some("NEGATIVE"))
  }

  function TwoArticles(url: string): Upstream
  {
    NewsOk([Raw("T1", "u1", Some("first"), None), Raw("T2", "u2", Some("second"), None)])
  }

  const FirstStore: Store :=
    map["summary:first" := Timestamped(0, Text("S1")), "sentiment:S1" := Timestamped(0, Text("POSITIVE"))]
  const SecondStore: Store := FirstStore["summary:second" := Timestamped(0, Text("S2"))]

  lemma EndToEndFirstArticle()
    ensures var n := EnrichArticle(Raw("T1", "u1", Some("first"), None), "first", World(map[], 0, 0), TwoRepliesEach);
      n == Normalized(Article("T1", "S1", Some("POSITIVE"), "u1", "src", None, ""), World(FirstStore, 0, 2))
  {
    assert CacheKey(Summarization, "first") == "summary:first";
    assert CacheKey(SentimentAnalysis, "S1") == "sentiment:S1";
  }

  lemma EndToEndSecondSummary()
    ensures Summarize("second", World(FirstStore, 0, 2), TwoRepliesEach) == Summarized("S2", World(SecondStore, 0, 3))
  {
    assert CacheKey(Summarization, "second") == "summary:second";
    assert "summary:second" !in FirstStore by {
      assert "summary:second"[8] != "summary:first"[8];
      assert "summary:second"[1] != "sentiment:S1"[1];
    }
  }

  lemma EndToEndSecondSentiment()
    ensures AnalyzeSentiment("S2", World(SecondStore, 0, 3), TwoRepliesEach).sentiment == Some("NEGATIVE")
    ensures AnalyzeSentiment("S2", World(SecondStore, 0, 3), TwoRepliesEach).world.clock == 0
  {
    assert CacheKey(SentimentAnalysis, "S2") == "sentiment:S2";
    assert "sentiment:S2" !in SecondStore by {
      assert "sentiment:S2"[11] != "sentiment:S1"[11];
      assert "sentiment:S2"[1] != "summary:first"[1];
      assert "sentiment:S2"[1] != "summary:second"[1];
    }
  }

  lemma EndToEndSecondArticle()
    ensures var n := EnrichArticle(Raw("T2", "u2", Some("second"), None), "second", World(FirstStore, 0, 2), TwoRepliesEach);
      n.article == Article("T2", "S2", Some("NEGATIVE"), "u2", "src", None, "") && n.world.clock == 0
  {
    EndToEndSecondSummary();
    EndToEndSecondSentiment();
  }

  /**
   * A miss on an empty cache whose upstream returns two articles with text and whose backend
   * answers every request at once: two enriched articles in upstream order, and the full list
   * cached under the query key.
   */
  lemma EndToEndQuery()
    ensures var r := ParseNews("q=India&page=1", 10, World(map[], 0, 0), TwoArticles, TwoRepliesEach);
      var expected := [Article("T1", "S1", Some("POSITIVE"), "u1", "src", None, ""),
                       Article("T2", "S2", Some("NEGATIVE"), "u2", "src", None, "")];
      && r.page == expected
      && r.world.store["q=India&page=1"] == Timestamped(0, ArticleList(expected))
  {
    EndToEndBatch();
  }

  /** A batch of two articles with text is the two enriched articles, the second enriched after the first. */
  lemma BatchOfTwo(r1: RawArticle, t1: string, r2: RawArticle, t2: string, w0: World, backend: Backend)
    requires t1 == SelectText(r1) && t1 != [] && t2 == SelectText(r2) && t2 != []
    ensures var n1 := EnrichArticle(r1, t1, w0, backend);
      var n2 := EnrichArticle(r2, t2, n1.world, backend);
      EnrichAll([r1, r2], w0, backend) == Built([n1.article, n2.article], n2.world)
  {
    var raws := [r1, r2];
    assert raws[1..] == [r2];
    assert [r2][1..] == [];
    EnrichAllKeptHead(raws, w0, backend);
    var n1 := EnrichArticle(r1, SelectText(r1), w0, backend);
    EnrichAllKeptHead([r2], n1.world, backend);
  }

  lemma EndToEndBatch()
    ensures var b := EnrichAll(TwoArticles("").articles, World(map[], 0, 0), TwoRepliesEach);
      && b.articles == [Article("T1", "S1", Some("POSITIVE"), "u1", "src", None, ""),
                        Article("T2", "S2", Some("NEGATIVE"), "u2", "src", None, "")]
      && b.world.clock == 0
  {
    var first := Raw("T1", "u1", Some("first"), None);
    var second := Raw("T2", "u2", Some("second"), None);
    EndToEndFirstArticle();
    EndToEndSecondArticle();
    var w0 := World(map[], 0, 0);
    var n1 := EnrichArticle(first, "first", w0, TwoRepliesEach);
    var n2 := EnrichArticle(second, "second", n1.world, TwoRepliesEach);
    BatchOfTwo(first, "first", second, "second", w0, TwoRepliesEach);
  }

  function MalformedSentiment(i: nat): Response
  {
    if i == 0 then Ok200(Some("S")) else Ok200(None)
  }

  /** An article whose sentiment reply is malformed is still returned, with no sentiment. */
  lemma GracefulDegradation()
    ensures var r := EnrichArticle(Raw("T", "u", Some("text"), None), "text", World(map[], 0, 0), MalformedSentiment);
      && r.article == Article("T", "S", None, "u", "src", None, "")
      && r.world.cursor == 2
  {
  }

  function SameUrlTwice(url: string): Upstream
  {
    NewsOk([Raw("T1", "dup", Some("x"), None), Raw("T2", "dup", Some("x"), None)])
  }

  function AlwaysS(i: nat): Response
  {
    Ok200(Some("S"))
  }

  /** Headlines are not de-duplicated: two upstream articles with one URL both come through. */
  lemma HeadlinesKeepDuplicates()
    ensures var r := FetchWorld(1, "k", World(map[], 0, 0), SameUrlTwice, AlwaysS);
      |r.page| == 2 && r.page[0].url == r.page[1].url
  {
    var url := HeadlinesUrl(1, "k");
    var raws := SameUrlTwice(url).articles;
    assert raws[1..][1..] == [];
    assert |Kept(raws)| == 2;
  }
}
