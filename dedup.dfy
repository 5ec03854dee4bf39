/**
 * Cross-source deduplication by URL: one linear pass over the gathered
 * resources with a set of URLs already seen, keeping the first resource for
 * each URL and dropping every later one.
 */
module Deduplication {
  import opened Config
  import opened Resources

  function UrlsOf(rs: seq<Resource>): set<string> {
    set r | r in rs :: r.url
  }

  lemma UrlsOfCons(rs: seq<Resource>)
    requires rs != []
    ensures UrlsOf(rs) == {rs[0].url} + UrlsOf(rs[1..])
  {
    assert forall r :: r in rs <==> r == rs[0] || r in rs[1..];
  }

  lemma UrlsOfAppend(rs: seq<Resource>, r: Resource)
    ensures UrlsOf(rs + [r]) == UrlsOf(rs) + {r.url}
  {
    assert forall x :: x in rs + [r] <==> x in rs || x == r;
  }

  /** No two resources share a URL. */
  predicate DistinctUrls(rs: seq<Resource>) {
    forall i, j :: 0 <= i < j < |rs| ==> rs[i].url != rs[j].url
  }

  /** `sub` is `s` with some elements removed, the rest kept in order. */
  ghost predicate IsSubsequence<T>(sub: seq<T>, s: seq<T>) {
    if sub == [] then true
    else if s == [] then false
    else (sub[0] == s[0] && IsSubsequence(sub[1..], s[1..])) || IsSubsequence(sub, s[1..])
  }

  /** The pass, continued with the URLs in `seen` already recorded. */
  function DedupFrom(rs: seq<Resource>, seen: set<string>): (u: seq<Resource>)
    ensures |u| <= |rs|
    ensures forall x :: x in u ==> x in rs && x.url !in seen
    ensures DistinctUrls(u)
  {
    if rs == [] then []
    else if rs[0].url in seen then DedupFrom(rs[1..], seen)
    else
      var rest := DedupFrom(rs[1..], seen + {rs[0].url});
      assert forall j :: 0 <= j < |rest| ==> rest[j] in rest;
      [rs[0]] + rest
  }

  /** The deduplication step of a run: the pass started with no URL seen. */
  function Dedup(rs: seq<Resource>): (u: seq<Resource>)
    ensures |u| <= |rs|
    ensures forall x :: x in u ==> x in rs
    ensures DistinctUrls(u)
  {
    DedupFrom(rs, {})
  }

  /** The earliest resource in `rs` whose URL is `url`. */
  function FirstWith(rs: seq<Resource>, url: string): (r: Resource)
    requires url in UrlsOf(rs)
    ensures r in rs && r.url == url
  {
    UrlsOfCons(rs);
    if rs[0].url == url then rs[0] else FirstWith(rs[1..], url)
  }

  /** The pass keeps, in input order, a selection of its input. */
  lemma {:induction false} DedupFromIsSubsequence(rs: seq<Resource>, seen: set<string>)
    ensures IsSubsequence(DedupFrom(rs, seen), rs)
  {
    if rs != [] {
      if rs[0].url in seen {
        DedupFromIsSubsequence(rs[1..], seen);
        SubsequenceDropHead(DedupFrom(rs[1..], seen), rs);
      } else {
        DedupFromIsSubsequence(rs[1..], seen + {rs[0].url});
        var u := DedupFrom(rs, seen);
        assert u[0] == rs[0] && u[1..] == DedupFrom(rs[1..], seen + {rs[0].url});
      }
    }
  }

  lemma SubsequenceDropHead<T>(sub: seq<T>, s: seq<T>)
    requires s != [] && IsSubsequence(sub, s[1..])
    ensures IsSubsequence(sub, s)
  {
  }

  /** Every URL of the input not already seen is present in the output, and no other. */
  lemma {:induction false} DedupFromCovers(rs: seq<Resource>, seen: set<string>)
    ensures UrlsOf(DedupFrom(rs, seen)) == UrlsOf(rs) - seen
  {
    if rs != [] {
      UrlsOfCons(rs);
      if rs[0].url in seen {
        DedupFromCovers(rs[1..], seen);
      } else {
        var rest := DedupFrom(rs[1..], seen + {rs[0].url});
        DedupFromCovers(rs[1..], seen + {rs[0].url});
        assert DedupFrom(rs, seen) == [rs[0]] + rest;
        UrlsOfCons([rs[0]] + rest);
        assert ([rs[0]] + rest)[1..] == rest;
      }
    }
  }

  /** For every URL it keeps, the pass keeps the earliest resource carrying that URL. */
  lemma {:induction false} DedupFromKeepsFirst(rs: seq<Resource>, seen: set<string>, x: Resource)
    requires x in DedupFrom(rs, seen)
    ensures x.url in UrlsOf(rs) && x == FirstWith(rs, x.url)
  {
    UrlsOfCons(rs);
    if rs[0].url in seen {
      DedupFromKeepsFirst(rs[1..], seen, x);
    } else if x != rs[0] {
      DedupFromKeepsFirst(rs[1..], seen + {rs[0].url}, x);
    }
  }

  /** A sequence whose URLs are distinct and unseen passes through unchanged. */
  lemma {:induction false} DedupFromDistinct(rs: seq<Resource>, seen: set<string>)
    requires DistinctUrls(rs) && UrlsOf(rs) !! seen
    ensures DedupFrom(rs, seen) == rs
  {
    if rs != [] {
      UrlsOfCons(rs);
      assert rs[0].url !in seen;
      forall u | u in UrlsOf(rs[1..]) ensures u != rs[0].url {
        var r :| r in rs[1..] && r.url == u;
        var j :| 0 <= j < |rs[1..]| && rs[1..][j] == r;
        assert rs[j + 1] == r;
      }
      DedupFromDistinct(rs[1..], seen + {rs[0].url});
    }
  }

  /** Deduplicating output of the pass changes nothing: the step is idempotent. */
  lemma DedupIdempotent(rs: seq<Resource>)
    ensures Dedup(Dedup(rs)) == Dedup(rs)
  {
    DedupFromDistinct(Dedup(rs), {});
  }

  /**
   * What the pass computes, in the terms the catalog promises: an
   * order-preserving selection of the input, no longer than it, with pairwise
   * distinct URLs, every input URL present, and for each URL the earliest
   * resource that carries it.
   */
  lemma DedupSpec(rs: seq<Resource>)
    ensures IsSubsequence(Dedup(rs), rs) && |Dedup(rs)| <= |rs|
    ensures DistinctUrls(Dedup(rs))
    ensures UrlsOf(Dedup(rs)) == UrlsOf(rs)
    ensures forall x :: x in Dedup(rs) ==> x.url in UrlsOf(rs) && x == FirstWith(rs, x.url)
  {
    DedupFromIsSubsequence(rs, {});
    DedupFromCovers(rs, {});
    forall x | x in Dedup(rs) ensures x.url in UrlsOf(rs) && x == FirstWith(rs, x.url) {
      DedupFromKeepsFirst(rs, {}, x);
    }
  }

  /** Every URL of the input survives the pass, carried by the earliest resource with that URL. */
  lemma DedupKeepsEveryUrl(rs: seq<Resource>, x: Resource)
    requires x in rs
    ensures x.url in UrlsOf(rs) && FirstWith(rs, x.url) in Dedup(rs)
  {
    DedupFromCovers(rs, {});
    assert x.url in UrlsOf(Dedup(rs));
    var y :| y in Dedup(rs) && y.url == x.url;
    DedupFromKeepsFirst(rs, {}, y);
  }

  /** Of two resources sharing a URL, only the one seen first is kept. */
  lemma FirstSeenWins(a: Resource, b: Resource)
    requires a.url == b.url
    ensures Dedup([a, b]) == [a]
  {
    var seen: set<string> := {};
    assert [a, b][1..] == [b] && [b][1..] == [];
    assert DedupFrom([b], seen + {a.url}) == [];
    assert Dedup([a, b]) == [a] + DedupFrom([b], seen + {a.url});
  }

  /** The dedup loop of `run_scraper`, with its `seen_urls` set and `unique` list. */
  method DedupByUrl(all: seq<Resource>) returns (unique: seq<Resource>)
    ensures unique == Dedup(all)
  {
    var seenUrls: set<string> := {};
    unique := [];
    var i := 0;
    while i < |all|
      invariant 0 <= i <= |all|
      invariant seenUrls == UrlsOf(unique)
      invariant unique + DedupFrom(all[i..], seenUrls) == Dedup(all)
    {
      var r := all[i];
      assert all[i..][1..] == all[i + 1..];
      if r.url !in seenUrls {
        AppendAssoc(unique, [r], DedupFrom(all[i + 1..], seenUrls + {r.url}));
        UrlsOfAppend(unique, r);
        seenUrls := seenUrls + {r.url};
        unique := unique + [r];
      }
      i := i + 1;
    }
    assert all[i..] == [];
  }
}
