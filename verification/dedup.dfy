/**
 * Stable de-duplication of articles by URL: the first article seen with a URL is kept, later
 * ones are dropped, and the kept ones stay in their original order.
 */
module Dedup {
  import opened Wrappers
  import opened Articles

  function UrlsOf(xs: seq<Article>): set<string>
  {
    set a | a in xs :: a.url
  }

  predicate DistinctUrls(xs: seq<Article>)
  {
    forall i, j :: 0 <= i < j < |xs| ==> xs[i].url != xs[j].url
  }

  /** Position of the first article of `xs` whose URL is `u`. */
  function FirstIndex(xs: seq<Article>, u: string): (i: nat)
    requires u in UrlsOf(xs)
    ensures i < |xs| && xs[i].url == u
    ensures forall j :: 0 <= j < i ==> xs[j].url != u
    decreases |xs|
  {
    if xs[0].url == u then 0
    else
      assert u in UrlsOf(xs[1..]) by {
        var a :| a in xs && a.url == u;
        var k :| 0 <= k < |xs| && xs[k] == a;
        assert xs[1..][k - 1] == a;
      }
      1 + FirstIndex(xs[1..], u)
  }

  /** The de-duplication loop from a state where the URLs in `seen` have already been taken. */
  function DedupFrom(xs: seq<Article>, seen: set<string>): seq<Article>
    decreases |xs|
  {
    if xs == [] then []
    else if xs[0].url in seen then DedupFrom(xs[1..], seen)
    else [xs[0]] + DedupFrom(xs[1..], seen + {xs[0].url})
  }

  function DedupByUrl(xs: seq<Article>): seq<Article>
  {
    DedupFrom(xs, {})
  }

  lemma UrlsOfCons(xs: seq<Article>)
    requires xs != []
    ensures UrlsOf(xs) == {xs[0].url} + UrlsOf(xs[1..])
  {
    assert xs == [xs[0]] + xs[1..];
    forall u | u in UrlsOf(xs) ensures u in {xs[0].url} + UrlsOf(xs[1..]) {
      var a :| a in xs && a.url == u;
      var k :| 0 <= k < |xs| && xs[k] == a;
      if k > 0 {
        assert xs[1..][k - 1] == a;
      }
    }
  }

  /** Every kept URL is new: it was not yet seen. */
  lemma {:induction false} DedupUrls(xs: seq<Article>, seen: set<string>)
    ensures UrlsOf(DedupFrom(xs, seen)) == UrlsOf(xs) - seen
    decreases |xs|
  {
    if xs != [] {
      UrlsOfCons(xs);
      if xs[0].url in seen {
        DedupUrls(xs[1..], seen);
      } else {
        var rest := DedupFrom(xs[1..], seen + {xs[0].url});
        DedupUrls(xs[1..], seen + {xs[0].url});
        UrlsOfCons([xs[0]] + rest);
        assert ([xs[0]] + rest)[1..] == rest;
      }
    }
  }

  /** No URL is kept twice. */
  lemma {:induction false} DedupDistinct(xs: seq<Article>, seen: set<string>)
    ensures DistinctUrls(DedupFrom(xs, seen))
    decreases |xs|
  {
    if xs != [] {
      if xs[0].url in seen {
        DedupDistinct(xs[1..], seen);
      } else {
        var rest := DedupFrom(xs[1..], seen + {xs[0].url});
        DedupDistinct(xs[1..], seen + {xs[0].url});
        DedupUrls(xs[1..], seen + {xs[0].url});
        var d := [xs[0]] + rest;
        forall i, j | 0 <= i < j < |d| ensures d[i].url != d[j].url {
          if i == 0 {
            assert d[j] == rest[j - 1];
            assert d[j].url in UrlsOf(rest);
          }
        }
      }
    }
  }

  /** The kept articles are the input with some articles deleted. */
  lemma {:induction false} DedupSubsequence(xs: seq<Article>, seen: set<string>)
    ensures IsSubsequence(DedupFrom(xs, seen), xs)
    decreases |xs|
  {
    if xs != [] {
      if xs[0].url in seen {
        DedupSubsequence(xs[1..], seen);
        SubsequenceSkip(DedupFrom(xs[1..], seen), xs);
      } else {
        DedupSubsequence(xs[1..], seen + {xs[0].url});
        var rest := DedupFrom(xs[1..], seen + {xs[0].url});
        assert ([xs[0]] + rest)[1..] == rest;
      }
    }
  }

  /** Deleting the head of the longer sequence keeps a subsequence a subsequence. */
  lemma {:induction false} SubsequenceSkip<T>(a: seq<T>, b: seq<T>)
    requires b != [] && IsSubsequence(a, b[1..])
    ensures IsSubsequence(a, b)
    decreases |b|, |a|, 1
  {
    if a != [] && a[0] == b[0] {
      SubsequenceTail(a, b[1..]);
    }
  }

  /** Deleting the head of the shorter sequence keeps a subsequence a subsequence. */
  lemma {:induction false} SubsequenceTail<T>(a: seq<T>, b: seq<T>)
    requires a != [] && IsSubsequence(a, b)
    ensures IsSubsequence(a[1..], b)
    decreases |b|, |a|, 0
  {
    if a[0] == b[0] {
      if a[1..] != [] {
        SubsequenceSkip(a[1..], b);
      }
    } else {
      SubsequenceTail(a, b[1..]);
      if a[1..] != [] {
        SubsequenceSkip(a[1..], b);
      }
    }
  }

  /** Every prefix of a subsequence is a subsequence. */
  lemma {:induction false} PrefixOfSubsequence<T>(a: seq<T>, b: seq<T>, n: nat)
    requires IsSubsequence(a, b)
    ensures IsSubsequence(Take(a, n), b)
    decreases |b|
  {
    if n == 0 {
      assert Take(a, n) == [];
    } else if n < |a| {
      if a[0] == b[0] {
        PrefixOfSubsequence(a[1..], b[1..], n - 1);
        assert Take(a, n)[1..] == Take(a[1..], n - 1);
      } else {
        PrefixOfSubsequence(a, b[1..], n);
      }
    } else {
      assert Take(a, n) == a;
    }
  }

  /** Each kept article is the first article of the input carrying its URL. */
  lemma {:induction false} DedupFirstOccurrence(xs: seq<Article>, seen: set<string>)
    ensures var d := DedupFrom(xs, seen);
      forall k :: 0 <= k < |d| ==> d[k].url in UrlsOf(xs) && d[k] == xs[FirstIndex(xs, d[k].url)]
    decreases |xs|
  {
    if xs != [] {
      UrlsOfCons(xs);
      var d := DedupFrom(xs, seen);
      if xs[0].url in seen {
        DedupFirstOccurrence(xs[1..], seen);
        DedupUrls(xs[1..], seen);
        forall k | 0 <= k < |d| ensures d[k].url in UrlsOf(xs) && d[k] == xs[FirstIndex(xs, d[k].url)] {
          assert d[k].url in UrlsOf(d);
          assert d[k].url != xs[0].url;
        }
      } else {
        var rest := DedupFrom(xs[1..], seen + {xs[0].url});
        DedupFirstOccurrence(xs[1..], seen + {xs[0].url});
        DedupUrls(xs[1..], seen + {xs[0].url});
        forall k | 0 <= k < |d| ensures d[k].url in UrlsOf(xs) && d[k] == xs[FirstIndex(xs, d[k].url)] {
          if k > 0 {
            assert d[k] == rest[k - 1];
            assert d[k].url in UrlsOf(rest);
            assert d[k].url != xs[0].url;
          }
        }
      }
    }
  }

  /** Past a different head, the first position of a URL is one more than in the tail. */
  lemma FirstIndexTail(xs: seq<Article>, u: string)
    requires xs != [] && u in UrlsOf(xs[1..]) && u != xs[0].url
    ensures u in UrlsOf(xs) && FirstIndex(xs, u) == 1 + FirstIndex(xs[1..], u)
  {
    UrlsOfCons(xs);
  }

  /**
   * A URL kept from the tail of `xs` with the head's URL already taken lies past the head, one
   * position further on than in the tail.
   */
  lemma KeptFromTail(xs: seq<Article>, seen: set<string>, k: nat)
    requires xs != [] && xs[0].url in seen && k < |DedupFrom(xs[1..], seen)|
    ensures var u := DedupFrom(xs[1..], seen)[k].url;
      u in UrlsOf(xs[1..]) && u in UrlsOf(xs) && FirstIndex(xs, u) == 1 + FirstIndex(xs[1..], u)
  {
    var rest := DedupFrom(xs[1..], seen);
    DedupUrls(xs[1..], seen);
    assert rest[k].url in UrlsOf(rest);
    FirstIndexTail(xs, rest[k].url);
  }

  /** Two URLs of the tail in first-occurrence order keep that order past the head of `xs`. */
  lemma OrderPastHead(xs: seq<Article>, u: string, v: string)
    requires xs != [] && u != xs[0].url && v != xs[0].url
    requires u in UrlsOf(xs[1..]) && v in UrlsOf(xs[1..]) && FirstIndex(xs[1..], u) < FirstIndex(xs[1..], v)
    ensures u in UrlsOf(xs) && v in UrlsOf(xs) && FirstIndex(xs, u) < FirstIndex(xs, v)
  {
    FirstIndexTail(xs, u);
    FirstIndexTail(xs, v);
  }

  /** Two kept articles are in first-occurrence order, given that their URLs are. */
  predicate OrderedAt(xs: seq<Article>, d: seq<Article>, i: nat, j: nat)
    requires i < j < |d|
  {
    d[i].url in UrlsOf(xs) && d[j].url in UrlsOf(xs) && FirstIndex(xs, d[i].url) < FirstIndex(xs, d[j].url)
  }

  /** The step of `DedupOrderAt` where the head's URL was already taken and is skipped. */
  lemma OrderAfterSkip(xs: seq<Article>, seen: set<string>, i: nat, j: nat)
    requires xs != [] && xs[0].url in seen && i < j < |DedupFrom(xs[1..], seen)|
    requires OrderedAt(xs[1..], DedupFrom(xs[1..], seen), i, j)
    ensures OrderedAt(xs, DedupFrom(xs, seen), i, j)
  {
    var rest := DedupFrom(xs[1..], seen);
    assert DedupFrom(xs, seen) == rest;
    KeptFromTail(xs, seen, i);
    KeptFromTail(xs, seen, j);
    OrderPastHead(xs, rest[i].url, rest[j].url);
  }

  /** The step of `DedupOrderAt` where the head is kept and both articles come after it. */
  lemma OrderAfterTake(xs: seq<Article>, seen: set<string>, i: nat, j: nat)
    requires xs != [] && xs[0].url !in seen && 0 < i < j <= |DedupFrom(xs[1..], seen + {xs[0].url})|
    requires OrderedAt(xs[1..], DedupFrom(xs[1..], seen + {xs[0].url}), i - 1, j - 1)
    ensures OrderedAt(xs, DedupFrom(xs, seen), i, j)
  {
    var taken := seen + {xs[0].url};
    var rest := DedupFrom(xs[1..], taken);
    var d := DedupFrom(xs, seen);
    assert d == [xs[0]] + rest;
    assert d[i] == rest[i - 1] && d[j] == rest[j - 1];
    KeptFromTail(xs, taken, i - 1);
    KeptFromTail(xs, taken, j - 1);
    OrderPastHead(xs, rest[i - 1].url, rest[j - 1].url);
  }

  /** The kept head comes before every later kept article. */
  lemma OrderAfterHead(xs: seq<Article>, seen: set<string>, j: nat)
    requires xs != [] && xs[0].url !in seen && 0 < j <= |DedupFrom(xs[1..], seen + {xs[0].url})|
    ensures OrderedAt(xs, DedupFrom(xs, seen), 0, j)
  {
    var taken := seen + {xs[0].url};
    var rest := DedupFrom(xs[1..], taken);
    assert DedupFrom(xs, seen) == [xs[0]] + rest;
    KeptFromTail(xs, taken, j - 1);
    UrlsOfCons(xs);
    assert FirstIndex(xs, xs[0].url) == 0;
  }

  /** Ordering of two kept articles, one pair at a time. */
  lemma {:induction false} DedupOrderAt(xs: seq<Article>, seen: set<string>, i: nat, j: nat)
    requires i < j < |DedupFrom(xs, seen)|
    ensures OrderedAt(xs, DedupFrom(xs, seen), i, j)
    decreases |xs|
  {
    if xs[0].url in seen {
      DedupOrderAt(xs[1..], seen, i, j);
      OrderAfterSkip(xs, seen, i, j);
    } else if i > 0 {
      DedupOrderAt(xs[1..], seen + {xs[0].url}, i - 1, j - 1);
      OrderAfterTake(xs, seen, i, j);
    } else {
      OrderAfterHead(xs, seen, j);
    }
  }

  /** The kept articles appear in the order in which their URLs first occur in the input. */
  lemma DedupOrder(xs: seq<Article>, seen: set<string>)
    ensures var d := DedupFrom(xs, seen);
      && (forall k :: 0 <= k < |d| ==> d[k].url in UrlsOf(xs))
      && (forall i, j :: 0 <= i < j < |d| ==> FirstIndex(xs, d[i].url) < FirstIndex(xs, d[j].url))
  {
    var d := DedupFrom(xs, seen);
    DedupUrls(xs, seen);
    forall k | 0 <= k < |d| ensures d[k].url in UrlsOf(xs) {
      assert d[k].url in UrlsOf(d);
    }
    forall i, j | 0 <= i < j < |d| ensures FirstIndex(xs, d[i].url) < FirstIndex(xs, d[j].url) {
      DedupOrderAt(xs, seen, i, j);
      assert OrderedAt(xs, d, i, j);
    }
  }

  /** In a sequence with distinct URLs the first URL does not occur again. */
  lemma HeadUrlIsNew(xs: seq<Article>)
    requires xs != [] && DistinctUrls(xs)
    ensures xs[0].url !in UrlsOf(xs[1..])
  {
    forall a | a in xs[1..] ensures a.url != xs[0].url {
      var k :| 0 <= k < |xs[1..]| && xs[1..][k] == a;
      assert xs[k + 1] == a;
    }
  }

  /** A sequence with distinct URLs has as many articles as URLs. */
  lemma {:induction false} DistinctUrlsCount(xs: seq<Article>)
    requires DistinctUrls(xs)
    ensures |UrlsOf(xs)| == |xs|
    decreases |xs|
  {
    if xs != [] {
      UrlsOfCons(xs);
      DistinctUrlsCount(xs[1..]);
      HeadUrlIsNew(xs);
    }
  }

  /**
   * The de-duplicated list: distinct URLs, one article per URL of the input, each the first
   * article carrying that URL, ordered by the positions where their URLs first occur.
   */
  lemma DedupByUrlSpec(xs: seq<Article>)
    ensures var d := DedupByUrl(xs);
      && DistinctUrls(d)
      && UrlsOf(d) == UrlsOf(xs)
      && |d| == |UrlsOf(xs)|
      && IsSubsequence(d, xs)
      && (forall k :: 0 <= k < |d| ==> d[k].url in UrlsOf(xs) && d[k] == xs[FirstIndex(xs, d[k].url)])
      && (forall i, j :: 0 <= i < j < |d| ==> FirstIndex(xs, d[i].url) < FirstIndex(xs, d[j].url))
  {
    DedupDistinct(xs, {});
    DedupUrls(xs, {});
    DistinctUrlsCount(DedupByUrl(xs));
    DedupSubsequence(xs, {});
    DedupFirstOccurrence(xs, {});
    DedupOrder(xs, {});
  }

  /** Input that already has distinct URLs passes through unchanged. */
  lemma {:induction false} DedupOfDistinct(xs: seq<Article>, seen: set<string>)
    requires DistinctUrls(xs) && UrlsOf(xs) !! seen
    ensures DedupFrom(xs, seen) == xs
    decreases |xs|
  {
    if xs != [] {
      UrlsOfCons(xs);
      HeadUrlIsNew(xs);
      DedupOfDistinct(xs[1..], seen + {xs[0].url});
    }
  }

  /** De-duplicating twice is the same as once. */
  lemma DedupIdempotent(xs: seq<Article>)
    ensures DedupByUrl(DedupByUrl(xs)) == DedupByUrl(xs)
  {
    DedupDistinct(xs, {});
    DedupOfDistinct(DedupByUrl(xs), {});
  }

  /** The single pass with a `seen` set, as the aggregator runs it. */
  method DedupStable(xs: seq<Article>) returns (unique: seq<Article>)
    ensures unique == DedupByUrl(xs)
    ensures DistinctUrls(unique) && IsSubsequence(unique, xs) && UrlsOf(unique) == UrlsOf(xs)
  {
    var seen: set<string> := {};
    unique := [];
    for i := 0 to |xs|
      invariant unique + DedupFrom(xs[i..], seen) == DedupByUrl(xs)
    {
      assert xs[i..][1..] == xs[i + 1..];
      if xs[i].url !in seen {
        unique := unique + [xs[i]];
        seen := seen + {xs[i].url};
      }
    }
    assert xs[|xs|..] == [];
    DedupByUrlSpec(xs);
  }
}
