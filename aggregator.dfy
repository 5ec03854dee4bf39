/**
 * `run_scraper`: every source for every category, in the configured order,
 * gathered into one sequence, deduplicated by URL, and assembled into the
 * catalog record that is written out.
 */
module Aggregator {
  import opened Text
  import opened Config
  import opened Resources
  import opened Deduplication
  import opened Adapters

  /** The sources, one per `fetch_*` function. */
  datatype Fetcher = YouTube | MitOcw | FreeCodeCamp | MicrosoftLearn | Aws | Coursera | Stanford | Ibm | Google

  /** `FETCHERS`, in the order each category visits them. */
  const Fetchers: seq<Fetcher> := [YouTube, MitOcw, FreeCodeCamp, MicrosoftLearn, Aws, Coursera, Stanford, Ibm, Google]

  /** What one source yields for one category. */
  function SourceResources(fetcher: Fetcher, category: string, world: World, today: string): (r: seq<Resource>)
    ensures forall x :: x in r ==> ProducedFor(x, category, today)
  {
    match fetcher
    case YouTube => YouTubeResources(category, world, today)
    case MitOcw => MitOcwResources(category, world, today)
    case FreeCodeCamp => FreeCodeCampResources(category, world, today)
    case MicrosoftLearn => MicrosoftLearnResources(category, world, today)
    case Aws => AwsResources(category, world, today)
    case Coursera => CourseraResources(category, world, today)
    case Stanford => StanfordResources(category, world, today)
    case Ibm => IbmResources(category, world, today)
    case Google => GoogleResources(category, world, today)
  }

  /** One call `fetcher(category)`. */
  method RunFetcher(fetcher: Fetcher, category: string, world: World, today: string) returns (r: seq<Resource>)
    ensures r == SourceResources(fetcher, category, world, today)
  {
    match fetcher
    case YouTube => r := FetchYouTube(category, world, today);
    case MitOcw => r := FetchMitOcw(category, world, today);
    case FreeCodeCamp => r := FetchFreeCodeCamp(category, world, today);
    case MicrosoftLearn => r := FetchMicrosoftLearn(category, world, today);
    case Aws => r := FetchAws(category, world, today);
    case Coursera => r := FetchCoursera(category, world, today);
    case Stanford => r := FetchStanford(category, world, today);
    case Ibm => r := FetchIbm(category, world, today);
    case Google => r := FetchGoogle(category, world, today);
  }

  /** The sources' results for one category, concatenated in source order. */
  function CategoryResources(category: string, fetchers: seq<Fetcher>, world: World, today: string): (r: seq<Resource>)
    ensures forall x :: x in r ==> ProducedFor(x, category, today)
  {
    if fetchers == [] then []
    else SourceResources(fetchers[0], category, world, today) + CategoryResources(category, fetchers[1..], world, today)
  }

  /** Everything gathered before deduplication: category by category, source by source. */
  function Gathered(categories: seq<string>, world: World, today: string): (r: seq<Resource>)
    ensures forall x :: x in r ==> x.category in categories && x.retrieved == today && x.free && StartsWith(x.url, "http")
  {
    if categories == [] then []
    else CategoryResources(categories[0], Fetchers, world, today) + Gathered(categories[1..], world, today)
  }

  /** The output record: generation date, count, category list and resources. */
  datatype Catalog = Catalog(generated: string, total: nat, categories: seq<string>, resources: seq<Resource>)

  /** The invariants every written catalog satisfies. */
  predicate ValidCatalog(c: Catalog) {
    && c.total == |c.resources|
    && DistinctUrls(c.resources)
    && forall r :: r in c.resources ==> r.category in c.categories
  }

  function Assemble(today: string, unique: seq<Resource>): Catalog {
    Catalog(today, |unique|, Categories, unique)
  }

  /** The resources of a run: the gathered sequence, deduplicated. */
  function CatalogResources(world: World, today: string): seq<Resource> {
    Dedup(Gathered(Categories, world, today))
  }

  /** The inner loop of `run_scraper`: every source, in order, for one category. */
  method GatherCategory(category: string, world: World, today: string) returns (gathered: seq<Resource>)
    ensures gathered == CategoryResources(category, Fetchers, world, today)
  {
    gathered := [];
    var fi := 0;
    while fi < |Fetchers|
      invariant 0 <= fi <= |Fetchers|
      invariant gathered + CategoryResources(category, Fetchers[fi..], world, today)
                == CategoryResources(category, Fetchers, world, today)
    {
      var resources := RunFetcher(Fetchers[fi], category, world, today);
      assert Fetchers[fi..][1..] == Fetchers[fi + 1..];
      AppendAssoc(gathered, resources, CategoryResources(category, Fetchers[fi + 1..], world, today));
      gathered := gathered + resources;
      fi := fi + 1;
    }
    assert Fetchers[fi..] == [];
  }

  /** The outer loop of `run_scraper`: category by category, extending one list. */
  method GatherAll(categories: seq<string>, world: World, today: string) returns (all: seq<Resource>)
    ensures all == Gathered(categories, world, today)
  {
    all := [];
    var ci := 0;
    while ci < |categories|
      invariant 0 <= ci <= |categories|
      invariant all + Gathered(categories[ci..], world, today) == Gathered(categories, world, today)
    {
      var resources := GatherCategory(categories[ci], world, today);
      assert categories[ci..][1..] == categories[ci + 1..];
      AppendAssoc(all, resources, Gathered(categories[ci + 1..], world, today));
      all := all + resources;
      ci := ci + 1;
    }
    assert categories[ci..] == [];
  }

  /** Every catalog a run assembles is valid, dated `today`, and holds only absolute URLs. */
  lemma CatalogValid(world: World, today: string)
    ensures var c := Assemble(today, CatalogResources(world, today));
            && ValidCatalog(c)
            && c.categories == Categories && c.generated == today
            && forall r :: r in c.resources ==> r.retrieved == today && StartsWith(r.url, "http")
  {
  }

  /** `run_scraper`, up to the point where the catalog is serialised. */
  method RunScraper(world: World, today: string) returns (catalog: Catalog)
    ensures catalog == Assemble(today, CatalogResources(world, today))
    ensures ValidCatalog(catalog)
    ensures catalog.total == |catalog.resources| && catalog.categories == Categories && catalog.generated == today
    ensures forall r :: r in catalog.resources ==> r.retrieved == today && StartsWith(r.url, "http")
  {
    var allResources := GatherAll(Categories, world, today);
    var unique := DedupByUrl(allResources);
    catalog := Catalog(today, |unique|, Categories, unique);
    CatalogValid(world, today);
  }

  /** A resource any source yields for a configured category is among the gathered ones. */
  lemma {:induction false} GatheredIncludes(categories: seq<string>, fetcher: Fetcher, category: string,
                                            world: World, today: string, x: Resource)
    requires category in categories && fetcher in Fetchers
    requires x in SourceResources(fetcher, category, world, today)
    ensures x in Gathered(categories, world, today)
  {
    if categories[0] == category {
      CategoryIncludes(Fetchers, fetcher, category, world, today, x);
    } else {
      GatheredIncludes(categories[1..], fetcher, category, world, today, x);
    }
  }

  /** A resource a listed source yields for a category is among that category's gathered resources. */
  lemma {:induction false} CategoryIncludes(fetchers: seq<Fetcher>, fetcher: Fetcher, category: string,
                                            world: World, today: string, x: Resource)
    requires fetcher in fetchers
    requires x in SourceResources(fetcher, category, world, today)
    ensures x in CategoryResources(category, fetchers, world, today)
  {
    if fetchers[0] != fetcher {
      CategoryIncludes(fetchers[1..], fetcher, category, world, today, x);
    }
  }

  /**
   * Sources are isolated from one another: whatever any source yields for a
   * configured category reaches the catalog, whatever the other sources did
   * (failed, returned nothing, or returned the same URL), and the catalog's
   * entry for that URL is the earliest resource carrying it in
   * category-then-source-then-list order.
   */
  lemma NoSourceLost(fetcher: Fetcher, category: string, world: World, today: string, x: Resource)
    requires category in Categories && fetcher in Fetchers
    requires x in SourceResources(fetcher, category, world, today)
    ensures x.url in UrlsOf(CatalogResources(world, today))
    ensures x.url in UrlsOf(Gathered(Categories, world, today))
    ensures FirstWith(Gathered(Categories, world, today), x.url) in CatalogResources(world, today)
  {
    var all := Gathered(Categories, world, today);
    GatheredIncludes(Categories, fetcher, category, world, today, x);
    DedupKeepsEveryUrl(all, x);
  }

  /** The catalog's resources are exactly the first-seen resource for every gathered URL, with distinct URLs. */
  lemma CatalogIsFirstSeen(world: World, today: string)
    ensures var all := Gathered(Categories, world, today);
            var res := CatalogResources(world, today);
            && IsSubsequence(res, all)
            && DistinctUrls(res)
            && UrlsOf(res) == UrlsOf(all)
            && forall y :: y in res ==> y.url in UrlsOf(all) && y == FirstWith(all, y.url)
  {
    DedupSpec(Gathered(Categories, world, today));
  }
}
