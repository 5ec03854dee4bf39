/**
 * The nine source adapters. Each takes one category, makes its request(s)
 * through the `World`, and turns what comes back into resources. A failed
 * request yields no resources; the only failure that can happen inside a
 * loop (a YouTube item without `snippet`, `id` or `title`) ends the loop and
 * keeps what was gathered before it.
 */
module Adapters {
  import opened Wrappers
  import opened Text
  import opened Config
  import opened Resources
  import opened Cards

  // ---------------------------------------------------------------------
  // What the outside world answers
  // ---------------------------------------------------------------------

  datatype Snippet = Snippet(title: Option<string>, description: string)   // description "" when absent
  datatype ItemId = ItemId(playlistId: string)                             // "" when absent
  /** One entry of the YouTube search reply's `items`; a missing `snippet` or `id` is `None`. */
  datatype YouTubeItem = YouTubeItem(snippet: Option<Snippet>, id: Option<ItemId>)

  /** An `h2`, `h3` or `a` element of the freeCodeCamp page: its stripped text and optional `href`. */
  datatype Block = Block(text: string, href: Option<string>)

  /** One of Microsoft Learn's `learningPaths`; absent `title`/`summary` read as "", absent `levels` as []. */
  datatype LearningPath = LearningPath(title: string, summary: string, url: Option<string>, levels: seq<string>)

  /** One of Coursera's `elements`; absent fields read as "". */
  datatype Course = Course(name: string, slug: string, description: string)

  /**
   * The replies to every request a run makes, and the summariser. Sources
   * whose request carries a search term are indexed by that term; sources
   * fetching a fixed page are indexed by the category the call is for
   * (Google by the source page's URL and the category).
   */
  datatype World = World(
    youtube: string -> Fetch<seq<YouTubeItem>>,
    mitOcw: string -> Fetch<seq<Card>>,
    freeCodeCamp: string -> Fetch<seq<Block>>,
    microsoftLearn: string -> Fetch<seq<LearningPath>>,
    aws: string -> Fetch<seq<Card>>,
    coursera: string -> Fetch<seq<Course>>,
    stanford: string -> Fetch<seq<Card>>,
    ibm: string -> Fetch<seq<Card>>,
    google: (string, string) -> Fetch<seq<Card>>,
    summarize: Summarizer)

  // ---------------------------------------------------------------------
  // Keyword maps
  // ---------------------------------------------------------------------

  const MitKeywords: map<string, string> := map[
    "Python Programming" := "python",
    "Data Science AI" := "machine learning",
    "Web Development" := "web",
    "IT Cybersecurity" := "security",
    "Project Management Agile" := "management"]

  const MsKeywords: map<string, string> := map[
    "Python Programming" := "python",
    "Data Science AI" := "azure ai machine learning",
    "Web Development" := "web development",
    "IT Cybersecurity" := "security",
    "Project Management Agile" := "devops agile"]

  const AwsKeywords: map<string, string> := map[
    "Python Programming" := "python developer",
    "Data Science AI" := "machine learning",
    "Web Development" := "cloud web",
    "IT Cybersecurity" := "security",
    "Project Management Agile" := "cloud practitioner"]

  const CourseraKeywords: map<string, string> := map[
    "Python Programming" := "python programming",
    "Data Science AI" := "data science machine learning",
    "Web Development" := "web development html css",
    "IT Cybersecurity" := "cybersecurity",
    "Project Management Agile" := "project management agile"]

  const StanfordKeywords: map<string, string> := map[
    "Python Programming" := "programming",
    "Data Science AI" := "artificial intelligence",
    "Web Development" := "computer science",
    "IT Cybersecurity" := "cybersecurity",
    "Project Management Agile" := "management"]

  const IbmKeywords: map<string, string> := map[
    "Python Programming" := "python",
    "Data Science AI" := "data science",
    "Web Development" := "web development",
    "IT Cybersecurity" := "cybersecurity",
    "Project Management Agile" := "project management"]

  const FccCertificates: map<string, string> := map[
    "Python Programming" := "Scientific Computing with Python",
    "Data Science AI" := "Data Analysis with Python",
    "Web Development" := "Responsive Web Design",
    "IT Cybersecurity" := "Information Security",
    "Project Management Agile" := "College Algebra with Python"]

  /** `KEYWORD_MAP.get(category, category.lower())`. */
  function Keyword(keywords: map<string, string>, category: string): (k: string)
    ensures category in keywords ==> k == keywords[category]
    ensures category !in keywords ==> k == Lower(category)
  {
    if category in keywords then keywords[category] else Lower(category)
  }

  /** `FCC_CATEGORY_MAP.get(category, "")`. */
  function CertName(category: string): (cert: string)
    ensures category in FccCertificates ==> cert == FccCertificates[category]
    ensures category !in FccCertificates ==> cert == ""
  {
    if category in FccCertificates then FccCertificates[category] else ""
  }

  /** Every configured category has an entry in every map, so no lookup in a run falls back. */
  lemma MapsCoverCategories(category: string)
    requires category in Categories
    ensures category in MitKeywords && category in MsKeywords && category in AwsKeywords
    ensures category in CourseraKeywords && category in StanfordKeywords && category in IbmKeywords
    ensures CertName(category) != ""
  {
  }

  // ---------------------------------------------------------------------
  // Source 1: YouTube
  // ---------------------------------------------------------------------

  const PlaylistPrefix: string := "https://www.youtube.com/playlist?list="

  function YouTubeQuery(category: string): string {
    "free " + category + " tutorial course"
  }

  /**
   * Reading this item raises: its `snippet` or `id` is missing, or its
   * `title` is missing and it has a `playlistId` (an item without one is
   * skipped before its title is read).
   */
  predicate Raises(item: YouTubeItem) {
    item.snippet.None? || item.id.None? || (item.id.value.playlistId != "" && item.snippet.value.title.None?)
  }

  /** The item is read without raising and names a playlist, so it yields a resource. */
  predicate Yields(item: YouTubeItem) {
    !Raises(item) && item.id.value.playlistId != ""
  }

  /** The resource of an item that yields one: its title and the playlist URL. */
  function ItemResource(item: YouTubeItem, category: string, summarize: Summarizer, today: string): (r: Resource)
    requires Yields(item)
    ensures r.title == item.snippet.value.title.value && r.url == PlaylistPrefix + item.id.value.playlistId
    ensures r.description == CleanDescription(summarize, r.title, item.snippet.value.description, category)
    ensures r.platform == "YouTube" && r.level == DefaultLevel && ProducedFor(r, category, today)
  {
    var title := item.snippet.value.title.value;
    assert PlaylistPrefix[0] == 'h' && PlaylistPrefix[1] == 't' && PlaylistPrefix[2] == 't' && PlaylistPrefix[3] == 'p';
    StartsWithAppend(PlaylistPrefix, item.id.value.playlistId, "http");
    BuildResource(today, title, PlaylistPrefix + item.id.value.playlistId,
                  CleanDescription(summarize, title, item.snippet.value.description, category), "YouTube", category)
  }

  /** The items' resources, stopping at the first item whose reading raises. */
  function YouTubeItems(items: seq<YouTubeItem>, category: string, summarize: Summarizer, today: string): (r: seq<Resource>)
    ensures |r| <= |items|
    ensures forall x :: x in r ==> ProducedFor(x, category, today) && x.platform == "YouTube"
  {
    if items == [] || Raises(items[0]) then []
    else if items[0].id.value.playlistId == "" then YouTubeItems(items[1..], category, summarize, today)
    else [ItemResource(items[0], category, summarize, today)] + YouTubeItems(items[1..], category, summarize, today)
  }

  function YouTubeResources(category: string, world: World, today: string): (r: seq<Resource>)
    ensures world.youtube(YouTubeQuery(category)).Failed? ==> r == []
    ensures forall x :: x in r ==> ProducedFor(x, category, today)
  {
    match world.youtube(YouTubeQuery(category))
    case Failed => []
    case Fetched(items) => YouTubeItems(items, category, world.summarize, today)
  }

  /** `fetch_youtube`. */
  method FetchYouTube(category: string, world: World, today: string) returns (results: seq<Resource>)
    ensures results == YouTubeResources(category, world, today)
  {
    results := [];
    var response := world.youtube(YouTubeQuery(category));
    if response.Failed? {
      return;
    }
    var items := response.body;
    var i := 0;
    while i < |items|
      invariant 0 <= i <= |items|
      invariant results + YouTubeItems(items[i..], category, world.summarize, today)
                == YouTubeItems(items, category, world.summarize, today)
    {
      var item := items[i];
      assert items[i..][1..] == items[i + 1..];
      if item.snippet.None? || item.id.None? {
        break;
      }
      var snippet := item.snippet.value;
      var playlistId := item.id.value.playlistId;
      if playlistId == "" {
        i := i + 1;
        continue;
      }
      var raw := snippet.description;
      if snippet.title.None? {
        break;
      }
      var clean := CleanDescription(world.summarize, snippet.title.value, raw, category);
      var r := BuildResource(today, snippet.title.value, PlaylistPrefix + playlistId, clean, "YouTube", category);
      assert r == ItemResource(item, category, world.summarize, today);
      AppendAssoc(results, [r], YouTubeItems(items[i + 1..], category, world.summarize, today));
      results := results + [r];
      i := i + 1;
    }
  }

  /** Every YouTube resource is the resource of an item that yields one. */
  lemma {:induction false} YouTubeNeedsPlaylist(items: seq<YouTubeItem>, category: string, summarize: Summarizer, today: string, x: Resource)
    requires x in YouTubeItems(items, category, summarize, today)
    ensures exists i :: 0 <= i < |items| && Yields(items[i]) && x == ItemResource(items[i], category, summarize, today)
  {
    if !(Yields(items[0]) && x == ItemResource(items[0], category, summarize, today)) {
      YouTubeNeedsPlaylist(items[1..], category, summarize, today, x);
      var i :| 0 <= i < |items[1..]| && Yields(items[1..][i]) && x == ItemResource(items[1..][i], category, summarize, today);
      assert items[1..][i] == items[i + 1];
    }
  }

  /** An item that yields a resource, with no raising item before it, contributes that resource. */
  lemma {:induction false} YouTubeComplete(items: seq<YouTubeItem>, k: nat, category: string, summarize: Summarizer, today: string)
    requires k < |items| && Yields(items[k])
    requires forall j :: 0 <= j < k ==> !Raises(items[j])
    ensures ItemResource(items[k], category, summarize, today) in YouTubeItems(items, category, summarize, today)
  {
    if k > 0 {
      assert !Raises(items[0]);
      assert items[1..][k - 1] == items[k];
      assert forall j :: 0 <= j < k - 1 ==> items[1..][j] == items[j + 1];
      YouTubeComplete(items[1..], k - 1, category, summarize, today);
    }
  }

  /** A raising item ends the loop: nothing after it contributes, everything before it is kept. */
  lemma {:induction false} YouTubeStopsAtMalformed(items: seq<YouTubeItem>, k: nat, category: string, summarize: Summarizer, today: string)
    requires k < |items| && Raises(items[k])
    ensures YouTubeItems(items, category, summarize, today) == YouTubeItems(items[..k], category, summarize, today)
  {
    if k > 0 {
      assert items[..k][0] == items[0];
      assert items[..k][1..] == items[1..][..k - 1];
      YouTubeStopsAtMalformed(items[1..], k - 1, category, summarize, today);
    }
  }

  // ---------------------------------------------------------------------
  // Source 2: MIT OpenCourseWare
  // ---------------------------------------------------------------------

  const MitRules: SiteRules := SiteRules("MIT OpenCourseWare", "https://ocw.mit.edu", LinkRequired, Unfiltered)

  function MitOcwResources(category: string, world: World, today: string): (r: seq<Resource>)
    ensures |r| <= MaxResultsPerSource
    ensures forall x :: x in r ==> ProducedFor(x, category, today)
  {
    ScrapedPage(MitRules, world.mitOcw(Keyword(MitKeywords, category)), category, world.summarize, today)
  }

  /** `fetch_mit_ocw`. */
  method FetchMitOcw(category: string, world: World, today: string) returns (results: seq<Resource>)
    ensures results == MitOcwResources(category, world, today)
  {
    var keyword := Keyword(MitKeywords, category);
    results := ScrapeCards(MitRules, world.mitOcw(keyword), category, world.summarize, today);
  }

  /** An MIT resource comes from one of the first ten cards, which has both a title and a link. */
  lemma MitNeedsTitleAndLink(category: string, world: World, today: string, x: Resource)
    requires x in MitOcwResources(category, world, today)
    ensures world.mitOcw(Keyword(MitKeywords, category)).Fetched?
    ensures var cards := world.mitOcw(Keyword(MitKeywords, category)).body;
            exists i :: 0 <= i < |cards| && i < MaxResultsPerSource && cards[i].title.Some? && cards[i].href.Some?
                        && x.title == cards[i].title.value && x.url == Absolutize("https://ocw.mit.edu", cards[i].href.value)
  {
    var page := world.mitOcw(Keyword(MitKeywords, category));
    PageSound(MitRules, page, category, world.summarize, today, x);
  }

  // ---------------------------------------------------------------------
  // Source 3: freeCodeCamp
  // ---------------------------------------------------------------------

  const FccBase: string := "https://www.freecodecamp.org"
  const FccLearnUrl: string := "https://www.freecodecamp.org/learn/"

  /** `cert_name.lower() in text.lower()`. */
  predicate NamesCert(block: Block, cert: string) {
    Contains(Lower(block.text), Lower(cert))
  }

  /** The first block naming the certification, if any. */
  function FirstNaming(blocks: seq<Block>, cert: string): (b: Option<Block>)
  {
    if blocks == [] then None
    else if NamesCert(blocks[0], cert) then Some(blocks[0])
    else FirstNaming(blocks[1..], cert)
  }

  /** `FirstNaming` finds the earliest naming block, and finds none only when no block names the certification. */
  lemma {:induction false} FirstNamingIsFirst(blocks: seq<Block>, cert: string)
    ensures FirstNaming(blocks, cert).None? <==> forall j :: 0 <= j < |blocks| ==> !NamesCert(blocks[j], cert)
    ensures FirstNaming(blocks, cert).Some? ==>
              exists i :: 0 <= i < |blocks| && blocks[i] == FirstNaming(blocks, cert).value && NamesCert(blocks[i], cert)
                          && forall j :: 0 <= j < i ==> !NamesCert(blocks[j], cert)
  {
    if blocks != [] && !NamesCert(blocks[0], cert) {
      FirstNamingIsFirst(blocks[1..], cert);
      if FirstNaming(blocks, cert).Some? {
        var i :| 0 <= i < |blocks[1..]| && blocks[1..][i] == FirstNaming(blocks, cert).value && NamesCert(blocks[1..][i], cert)
                 && forall j :: 0 <= j < i ==> !NamesCert(blocks[1..][j], cert);
        assert blocks[i + 1] == blocks[1..][i];
        forall j | 0 <= j < i + 1 ensures !NamesCert(blocks[j], cert) {
          if j > 0 { assert blocks[j] == blocks[1..][j - 1]; }
        }
      } else {
        forall j | 0 <= j < |blocks| ensures !NamesCert(blocks[j], cert) {
          if j > 0 { assert blocks[j] == blocks[1..][j - 1]; }
        }
      }
    }
  }

  /** The resource for a block that names the certification. */
  function BlockResource(block: Block, category: string, summarize: Summarizer, today: string): (r: Resource)
    ensures r.title == block.text && r.platform == "freeCodeCamp" && r.level == DefaultLevel
    ensures r.description == CleanDescription(summarize, block.text, "Free certification curriculum: " + block.text, category)
    ensures block.href.None? ==> r.url == FccBase + "/learn"
    ensures block.href.Some? ==> r.url == Absolutize(FccBase, block.href.value)
    ensures ProducedFor(r, category, today)
  {
    var href := block.href.GetOr("/learn");
    assert "/learn"[0] != 'h';
    var raw := "Free certification curriculum: " + block.text;
    BuildResource(today, block.text, Absolutize(FccBase, href), CleanDescription(summarize, block.text, raw, category),
                  "freeCodeCamp", category)
  }

  /** The fallback entry for the certification's main page. */
  function DefaultCertResource(cert: string, category: string, summarize: Summarizer, today: string): (r: Resource)
    ensures r.title == "freeCodeCamp — " + cert && r.platform == "freeCodeCamp" && r.level == DefaultLevel
    ensures r.url == FccLearnUrl && ProducedFor(r, category, today)
    ensures r.description == CleanDescription(summarize, cert, "Free curriculum covering " + cert, category)
  {
    assert FccLearnUrl[..4] == "http";
    BuildResource(today, "freeCodeCamp — " + cert, FccLearnUrl,
                  CleanDescription(summarize, cert, "Free curriculum covering " + cert, category),
                  "freeCodeCamp", category)
  }

  function FreeCodeCampResources(category: string, world: World, today: string): (r: seq<Resource>)
    ensures CertName(category) == "" ==> r == []
    ensures world.freeCodeCamp(category).Failed? ==> r == []
    ensures CertName(category) != "" && world.freeCodeCamp(category).Fetched? ==> |r| == 1
    ensures |r| <= 1
    ensures forall x :: x in r ==> ProducedFor(x, category, today)
  {
    var cert := CertName(category);
    if cert == "" then []
    else
      match world.freeCodeCamp(category)
      case Failed => []
      case Fetched(blocks) =>
        match FirstNaming(blocks, cert)
        case Some(block) => [BlockResource(block, category, world.summarize, today)]
        case None => [DefaultCertResource(cert, category, world.summarize, today)]
  }

  /**
   * On a successful fetch for a mapped category the single resource comes
   * from the earliest block naming the certification, or is the default
   * `/learn/` entry when no block names it.
   */
  lemma FreeCodeCampPicksFirst(category: string, world: World, today: string)
    requires CertName(category) != "" && world.freeCodeCamp(category).Fetched?
    ensures var blocks := world.freeCodeCamp(category).body;
            var r := FreeCodeCampResources(category, world, today);
            && |r| == 1
            && ((forall j :: 0 <= j < |blocks| ==> !NamesCert(blocks[j], CertName(category))) ==>
                  r[0] == DefaultCertResource(CertName(category), category, world.summarize, today))
            && (forall i :: (0 <= i < |blocks| && NamesCert(blocks[i], CertName(category))
                             && (forall j :: 0 <= j < i ==> !NamesCert(blocks[j], CertName(category)))) ==>
                  r[0] == BlockResource(blocks[i], category, world.summarize, today))
  {
    var blocks := world.freeCodeCamp(category).body;
    var cert := CertName(category);
    FirstNamingIsFirst(blocks, cert);
    forall i | 0 <= i < |blocks| && NamesCert(blocks[i], cert) && (forall j :: 0 <= j < i ==> !NamesCert(blocks[j], cert))
      ensures FirstNaming(blocks, cert) == Some(blocks[i])
    {
      var k :| 0 <= k < |blocks| && blocks[k] == FirstNaming(blocks, cert).value && NamesCert(blocks[k], cert)
               && forall j :: 0 <= j < k ==> !NamesCert(blocks[j], cert);
      assert k == i;
    }
  }

  /** `fetch_freecodecamp`. */
  method FetchFreeCodeCamp(category: string, world: World, today: string) returns (results: seq<Resource>)
    ensures results == FreeCodeCampResources(category, world, today)
  {
    var cert := CertName(category);
    if cert == "" {
      return [];
    }
    results := [];
    var response := world.freeCodeCamp(category);
    if response.Failed? {
      return;
    }
    var blocks := response.body;
    var i := 0;
    while i < |blocks|
      invariant 0 <= i <= |blocks|
      invariant results == []
      invariant FirstNaming(blocks[i..], cert) == FirstNaming(blocks, cert)
    {
      var block := blocks[i];
      var text := block.text;
      if Contains(Lower(text), Lower(cert)) {
        var href := block.href.GetOr("/learn");
        var fullUrl := if StartsWith(href, "http") then href else FccBase + href;
        var clean := CleanDescription(world.summarize, text, "Free certification curriculum: " + text, category);
        results := results + [BuildResource(today, text, fullUrl, clean, "freeCodeCamp", category)];
        break;
      }
      assert blocks[i..][1..] == blocks[i + 1..];
      i := i + 1;
    }
    if results == [] {
      var clean := CleanDescription(world.summarize, cert, "Free curriculum covering " + cert, category);
      results := results + [BuildResource(today, "freeCodeCamp — " + cert, FccLearnUrl, clean, "freeCodeCamp", category)];
    }
  }

  // ---------------------------------------------------------------------
  // Source 4: Microsoft Learn
  // ---------------------------------------------------------------------

  const MsBase: string := "https://learn.microsoft.com"

  /** The first of `levels`, capitalised, or "All Levels" when there are none. */
  function PathLevel(levels: seq<string>): string {
    if levels == [] then DefaultLevel else Capitalize(levels[0])
  }

  /** A learning path's resource: its `url` made absolute, or the site root when it has none. */
  function PathResource(path: LearningPath, category: string, summarize: Summarizer, today: string): (r: Resource)
    ensures r.title == path.title && r.platform == "Microsoft Learn" && r.level == PathLevel(path.levels)
    ensures r.description == CleanDescription(summarize, path.title, path.summary, category)
    ensures path.url.None? ==> r.url == MsBase
    ensures path.url.Some? ==> r.url == Absolutize(MsBase, path.url.value)
    ensures StartsWith(r.url, "http")
  {
    var url := Absolutize(MsBase, path.url.GetOr(MsBase));
    BuildResource(today, path.title, url, CleanDescription(summarize, path.title, path.summary, category),
                  "Microsoft Learn", category, PathLevel(path.levels))
  }

  /** One resource per learning path, in order: the path's own resource. */
  function PathResources(paths: seq<LearningPath>, category: string, summarize: Summarizer, today: string): (r: seq<Resource>)
    ensures |r| == |paths|
    ensures forall k :: 0 <= k < |r| ==> r[k] == PathResource(paths[k], category, summarize, today)
    ensures forall x :: x in r ==> ProducedFor(x, category, today)
  {
    if paths == [] then []
    else [PathResource(paths[0], category, summarize, today)] + PathResources(paths[1..], category, summarize, today)
  }

  /** One step of `PathResources` from index `i`: the path there, then the paths after it. */
  lemma PathResourcesAt(paths: seq<LearningPath>, i: nat, category: string, summarize: Summarizer, today: string)
    requires i < |paths|
    ensures PathResources(paths[i..], category, summarize, today)
            == [PathResource(paths[i], category, summarize, today)] + PathResources(paths[i + 1..], category, summarize, today)
  {
    assert paths[i..][1..] == paths[i + 1..];
  }

  function MicrosoftLearnResources(category: string, world: World, today: string): (r: seq<Resource>)
    ensures world.microsoftLearn(Keyword(MsKeywords, category)).Failed? ==> r == []
    ensures |r| <= MaxResultsPerSource
    ensures forall x :: x in r ==> ProducedFor(x, category, today)
  {
    match world.microsoftLearn(Keyword(MsKeywords, category))
    case Failed => []
    case Fetched(paths) => PathResources(Take(paths, MaxResultsPerSource), category, world.summarize, today)
  }

  /** `fetch_microsoft_learn`. */
  method FetchMicrosoftLearn(category: string, world: World, today: string) returns (results: seq<Resource>)
    ensures results == MicrosoftLearnResources(category, world, today)
  {
    results := [];
    var response := world.microsoftLearn(Keyword(MsKeywords, category));
    if response.Failed? {
      return;
    }
    var paths := Take(response.body, MaxResultsPerSource);
    var i := 0;
    while i < |paths|
      invariant 0 <= i <= |paths|
      invariant results + PathResources(paths[i..], category, world.summarize, today)
                == PathResources(paths, category, world.summarize, today)
    {
      var path := paths[i];
      var itemUrl := path.url.GetOr(MsBase);
      if !StartsWith(itemUrl, "http") {
        itemUrl := MsBase + itemUrl;
      }
      var clean := CleanDescription(world.summarize, path.title, path.summary, category);
      var level := if path.levels != [] then Capitalize(path.levels[0]) else DefaultLevel;
      var r := BuildResource(today, path.title, itemUrl, clean, "Microsoft Learn", category, level);
      assert r == PathResource(path, category, world.summarize, today);
      PathResourcesAt(paths, i, category, world.summarize, today);
      AppendAssoc(results, [r], PathResources(paths[i + 1..], category, world.summarize, today));
      results := results + [r];
      i := i + 1;
    }
    assert paths[i..] == [];
  }

  // ---------------------------------------------------------------------
  // Source 5: AWS Skill Builder
  // ---------------------------------------------------------------------

  const AwsRules: SiteRules :=
    SiteRules("AWS Skill Builder", "https://explore.skillbuilder.aws",
              LinkOr("https://explore.skillbuilder.aws/learn/catalog"), Unfiltered)

  function AwsResources(category: string, world: World, today: string): (r: seq<Resource>)
    ensures |r| <= MaxResultsPerSource
    ensures forall x :: x in r ==> ProducedFor(x, category, today)
  {
    ScrapedPage(AwsRules, world.aws(Keyword(AwsKeywords, category)), category, world.summarize, today)
  }

  /** `fetch_aws`. */
  method FetchAws(category: string, world: World, today: string) returns (results: seq<Resource>)
    ensures results == AwsResources(category, world, today)
  {
    var keyword := Keyword(AwsKeywords, category);
    results := ScrapeCards(AwsRules, world.aws(keyword), category, world.summarize, today);
  }

  /**
   * An AWS resource comes from a titled card among the first ten; a card
   * without a link points at the catalog page that was searched.
   */
  lemma AwsNeedsTitle(category: string, world: World, today: string, x: Resource)
    requires x in AwsResources(category, world, today)
    ensures world.aws(Keyword(AwsKeywords, category)).Fetched?
    ensures var cards := world.aws(Keyword(AwsKeywords, category)).body;
            exists i :: 0 <= i < |cards| && i < MaxResultsPerSource && cards[i].title.Some? && x.title == cards[i].title.value
                        && (cards[i].href.None? ==> x.url == "https://explore.skillbuilder.aws/learn/catalog")
  {
    PageSound(AwsRules, world.aws(Keyword(AwsKeywords, category)), category, world.summarize, today, x);
  }

  // ---------------------------------------------------------------------
  // Source 6: Coursera
  // ---------------------------------------------------------------------

  const CourseraPrefix: string := "https://www.coursera.org/learn/"

  /** A course's resource: its name, its `/learn/` page, and its description cleaned. */
  function CourseResource(c: Course, category: string, summarize: Summarizer, today: string): (r: Resource)
    ensures r.title == c.name && r.url == CourseraPrefix + c.slug && r.platform == "Coursera" && r.level == DefaultLevel
    ensures r.description == CleanDescription(summarize, c.name, c.description, category)
    ensures ProducedFor(r, category, today)
  {
    StartsWithAppend(CourseraPrefix, c.slug, "http");
    BuildResource(today, c.name, CourseraPrefix + c.slug, CleanDescription(summarize, c.name, c.description, category),
                  "Coursera", category)
  }

  /** One resource per course, in order: the course's own resource. */
  function CourseResources(courses: seq<Course>, category: string, summarize: Summarizer, today: string): (r: seq<Resource>)
    ensures |r| == |courses|
    ensures forall k :: 0 <= k < |r| ==> r[k] == CourseResource(courses[k], category, summarize, today)
    ensures forall x :: x in r ==> ProducedFor(x, category, today)
  {
    if courses == [] then []
    else [CourseResource(courses[0], category, summarize, today)] + CourseResources(courses[1..], category, summarize, today)
  }

  function CourseraResources(category: string, world: World, today: string): (r: seq<Resource>)
    ensures world.coursera(Keyword(CourseraKeywords, category)).Failed? ==> r == []
    ensures world.coursera(Keyword(CourseraKeywords, category)).Fetched? ==>
              |r| == |world.coursera(Keyword(CourseraKeywords, category)).body|
    ensures forall x :: x in r ==> ProducedFor(x, category, today)
  {
    match world.coursera(Keyword(CourseraKeywords, category))
    case Failed => []
    case Fetched(courses) => CourseResources(courses, category, world.summarize, today)
  }

  /** `fetch_coursera`. */
  method FetchCoursera(category: string, world: World, today: string) returns (results: seq<Resource>)
    ensures results == CourseraResources(category, world, today)
  {
    results := [];
    var response := world.coursera(Keyword(CourseraKeywords, category));
    if response.Failed? {
      return;
    }
    var courses := response.body;
    var i := 0;
    while i < |courses|
      invariant 0 <= i <= |courses|
      invariant results + CourseResources(courses[i..], category, world.summarize, today)
                == CourseResources(courses, category, world.summarize, today)
    {
      var c := courses[i];
      assert courses[i..][1..] == courses[i + 1..];
      var clean := CleanDescription(world.summarize, c.name, c.description, category);
      var r := BuildResource(today, c.name, CourseraPrefix + c.slug, clean, "Coursera", category);
      assert r == CourseResource(c, category, world.summarize, today);
      assert CourseResources(courses[i..], category, world.summarize, today)
             == [r] + CourseResources(courses[i + 1..], category, world.summarize, today);
      AppendAssoc(results, [r], CourseResources(courses[i + 1..], category, world.summarize, today));
      results := results + [r];
      i := i + 1;
    }
    assert courses[i..] == [];
  }

  // ---------------------------------------------------------------------
  // Source 7: Stanford Online
  // ---------------------------------------------------------------------

  const StanfordRules: SiteRules :=
    SiteRules("Stanford Online", "https://online.stanford.edu", LinkOr("https://online.stanford.edu/free-courses"), Unfiltered)

  /** A titled card whose title or text contains the keyword, case-insensitively. */
  predicate StanfordAccepts(keyword: string, card: Card) {
    card.title.Some?
    && (Contains(Lower(card.title.value), Lower(keyword)) || Contains(Lower(card.text), Lower(keyword)))
  }

  /** The accepted cards' resources, stopping once `budget` resources have been produced. */
  function StanfordCards(keyword: string, cards: seq<Card>, budget: nat, category: string, summarize: Summarizer, today: string)
    : (r: seq<Resource>)
    ensures |r| <= budget && |r| <= |cards|
    ensures forall x :: x in r ==> ProducedFor(x, category, today)
  {
    if cards == [] || budget == 0 then []
    else if StanfordAccepts(keyword, cards[0]) then
      [CardResource(StanfordRules, cards[0], category, summarize, today)]
      + StanfordCards(keyword, cards[1..], budget - 1, category, summarize, today)
    else StanfordCards(keyword, cards[1..], budget, category, summarize, today)
  }

  /** Reference definition without the counter: the resources of all accepted cards, in card order. */
  function StanfordAccepted(keyword: string, cards: seq<Card>, category: string, summarize: Summarizer, today: string)
    : (r: seq<Resource>)
    ensures |r| <= |cards|
  {
    if cards == [] then []
    else if StanfordAccepts(keyword, cards[0]) then
      [CardResource(StanfordRules, cards[0], category, summarize, today)]
      + StanfordAccepted(keyword, cards[1..], category, summarize, today)
    else StanfordAccepted(keyword, cards[1..], category, summarize, today)
  }

  /** The counter keeps exactly the first `budget` accepted cards' resources, in card order. */
  lemma {:induction false} StanfordCardsTakesFirst(keyword: string, cards: seq<Card>, budget: nat, category: string,
                                                   summarize: Summarizer, today: string)
    ensures StanfordCards(keyword, cards, budget, category, summarize, today)
            == Take(StanfordAccepted(keyword, cards, category, summarize, today), budget)
  {
    if cards == [] {
    } else if budget == 0 {
    } else if StanfordAccepts(keyword, cards[0]) {
      StanfordCardsTakesFirst(keyword, cards[1..], budget - 1, category, summarize, today);
      TakeCons(CardResource(StanfordRules, cards[0], category, summarize, today),
               StanfordAccepted(keyword, cards[1..], category, summarize, today), budget);
    } else {
      StanfordCardsTakesFirst(keyword, cards[1..], budget, category, summarize, today);
    }
  }

  function StanfordResources(category: string, world: World, today: string): (r: seq<Resource>)
    ensures world.stanford(category).Failed? ==> r == []
    ensures |r| <= MaxResultsPerSource
    ensures forall x :: x in r ==> ProducedFor(x, category, today)
  {
    match world.stanford(category)
    case Failed => []
    case Fetched(cards) =>
      StanfordCards(Keyword(StanfordKeywords, category), cards, MaxResultsPerSource, category, world.summarize, today)
  }

  /** Every Stanford resource comes from a card the keyword filter accepts. */
  lemma {:induction false} StanfordSound(keyword: string, cards: seq<Card>, budget: nat, category: string,
                                         summarize: Summarizer, today: string, x: Resource)
    requires x in StanfordCards(keyword, cards, budget, category, summarize, today)
    ensures exists i :: 0 <= i < |cards| && StanfordAccepts(keyword, cards[i])
                        && x == CardResource(StanfordRules, cards[i], category, summarize, today)
  {
    if StanfordAccepts(keyword, cards[0]) && x == CardResource(StanfordRules, cards[0], category, summarize, today) {
    } else {
      var b' := if StanfordAccepts(keyword, cards[0]) then budget - 1 else budget;
      StanfordSound(keyword, cards[1..], b', category, summarize, today, x);
      var i :| 0 <= i < |cards[1..]| && StanfordAccepts(keyword, cards[1..][i])
               && x == CardResource(StanfordRules, cards[1..][i], category, summarize, today);
      assert cards[1..][i] == cards[i + 1];
    }
  }

  /** While the cap is not reached, every accepted card yields its resource. */
  lemma {:induction false} StanfordCompleteBelowCap(keyword: string, cards: seq<Card>, budget: nat, category: string,
                                                    summarize: Summarizer, today: string, i: nat)
    requires |StanfordCards(keyword, cards, budget, category, summarize, today)| < budget
    requires i < |cards| && StanfordAccepts(keyword, cards[i])
    ensures CardResource(StanfordRules, cards[i], category, summarize, today)
            in StanfordCards(keyword, cards, budget, category, summarize, today)
  {
    if i > 0 {
      var b' := if StanfordAccepts(keyword, cards[0]) then budget - 1 else budget;
      assert cards[1..][i - 1] == cards[i];
      StanfordCompleteBelowCap(keyword, cards[1..], b', category, summarize, today, i - 1);
    }
  }

  /** `fetch_stanford`, with its `count` of accepted cards. */
  method FetchStanford(category: string, world: World, today: string) returns (results: seq<Resource>)
    ensures results == StanfordResources(category, world, today)
  {
    results := [];
    var keyword := Keyword(StanfordKeywords, category);
    var response := world.stanford(category);
    if response.Failed? {
      return;
    }
    var cards := response.body;
    var count := 0;
    var i := 0;
    while i < |cards|
      invariant 0 <= i <= |cards|
      invariant count == |results| && count <= MaxResultsPerSource
      invariant results + StanfordCards(keyword, cards[i..], MaxResultsPerSource - count, category, world.summarize, today)
                == StanfordCards(keyword, cards, MaxResultsPerSource, category, world.summarize, today)
    {
      if count >= MaxResultsPerSource {
        break;
      }
      var card := cards[i];
      ghost var budget := MaxResultsPerSource - count;
      assert cards[i..][1..] == cards[i + 1..];
      i := i + 1;
      if card.title.None? {
        continue;
      }
      var title := card.title.value;
      if !Contains(Lower(title), Lower(keyword)) && !Contains(Lower(card.text), Lower(keyword)) {
        continue;
      }
      var href := card.href.GetOr("https://online.stanford.edu/free-courses");
      var fullUrl := if StartsWith(href, "http") then href else "https://online.stanford.edu" + href;
      var raw := card.description.GetOr("");
      var clean := CleanDescription(world.summarize, title, raw, category);
      var r := BuildResource(today, title, fullUrl, clean, "Stanford Online", category);
      assert r == CardResource(StanfordRules, card, category, world.summarize, today);
      assert StanfordCards(keyword, cards[i - 1..], budget, category, world.summarize, today)
             == [r] + StanfordCards(keyword, cards[i..], budget - 1, category, world.summarize, today);
      AppendAssoc(results, [r], StanfordCards(keyword, cards[i..], budget - 1, category, world.summarize, today));
      results := results + [r];
      count := count + 1;
    }
    assert i == |cards| ==> cards[i..] == [];
  }

  // ---------------------------------------------------------------------
  // Source 8: IBM SkillsBuild
  // ---------------------------------------------------------------------

  function IbmRules(keyword: string): SiteRules {
    SiteRules("IBM SkillsBuild", "https://skillsbuild.org", LinkOr("https://skillsbuild.org/adult-learners"), TextHas(keyword))
  }

  function IbmResources(category: string, world: World, today: string): (r: seq<Resource>)
    ensures |r| <= MaxResultsPerSource
    ensures forall x :: x in r ==> ProducedFor(x, category, today)
  {
    ScrapedPage(IbmRules(Keyword(IbmKeywords, category)), world.ibm(category), category, world.summarize, today)
  }

  /** `fetch_ibm`. */
  method FetchIbm(category: string, world: World, today: string) returns (results: seq<Resource>)
    ensures results == IbmResources(category, world, today)
  {
    var keyword := Keyword(IbmKeywords, category);
    results := ScrapeCards(IbmRules(keyword), world.ibm(category), category, world.summarize, today);
  }

  /** An IBM resource comes from a titled card, among the first ten, whose text contains the keyword. */
  lemma IbmNeedsKeyword(category: string, world: World, today: string, x: Resource)
    requires x in IbmResources(category, world, today)
    ensures world.ibm(category).Fetched?
    ensures var cards := world.ibm(category).body;
            exists i :: 0 <= i < |cards| && i < MaxResultsPerSource && cards[i].title.Some? && x.title == cards[i].title.value
                        && Contains(Lower(cards[i].text), Lower(Keyword(IbmKeywords, category)))
  {
    PageSound(IbmRules(Keyword(IbmKeywords, category)), world.ibm(category), category, world.summarize, today, x);
  }

  // ---------------------------------------------------------------------
  // Source 9: Google (Career Certificates and Skillshop pages)
  // ---------------------------------------------------------------------

  datatype GoogleSource = GoogleSource(url: string, platform: string)

  const GoogleSources: seq<GoogleSource> := [
    GoogleSource("https://grow.google/certificates/", "Google Career Certificates"),
    GoogleSource("https://skillshop.withgoogle.com/", "Google Skillshop")]

  /** Both Google pages resolve relative links against `https://grow.google`. */
  function GoogleRules(source: GoogleSource, category: string): SiteRules {
    SiteRules(source.platform, "https://grow.google", LinkOr(source.url), TextHasAny(Words(Lower(category))))
  }

  /** The pages' resources, one page after another; each page is fetched and may fail on its own. */
  function GooglePages(sources: seq<GoogleSource>, category: string, world: World, today: string): (r: seq<Resource>)
    ensures |r| <= MaxResultsPerSource * |sources|
    ensures forall x :: x in r ==> ProducedFor(x, category, today)
  {
    if sources == [] then []
    else
      ScrapedPage(GoogleRules(sources[0], category), world.google(sources[0].url, category), category, world.summarize, today)
      + GooglePages(sources[1..], category, world, today)
  }

  function GoogleResources(category: string, world: World, today: string): (r: seq<Resource>)
    ensures |r| <= 2 * MaxResultsPerSource
    ensures forall x :: x in r ==> ProducedFor(x, category, today)
  {
    GooglePages(GoogleSources, category, world, today)
  }

  /** The loop of `fetch_google` over its pages. */
  method FetchGooglePages(sources: seq<GoogleSource>, category: string, world: World, today: string)
    returns (results: seq<Resource>)
    ensures results == GooglePages(sources, category, world, today)
  {
    results := [];
    var i := 0;
    while i < |sources|
      invariant 0 <= i <= |sources|
      invariant results + GooglePages(sources[i..], category, world, today) == GooglePages(sources, category, world, today)
    {
      var source := sources[i];
      assert sources[i..][1..] == sources[i + 1..];
      var page := ScrapeCards(GoogleRules(source, category), world.google(source.url, category), category, world.summarize, today);
      AppendAssoc(results, page, GooglePages(sources[i + 1..], category, world, today));
      results := results + page;
      i := i + 1;
    }
    assert sources[i..] == [];
  }

  /** `fetch_google`. */
  method FetchGoogle(category: string, world: World, today: string) returns (results: seq<Resource>)
    ensures results == GoogleResources(category, world, today)
  {
    results := FetchGooglePages(GoogleSources, category, world, today);
  }

  /** A resource of one Google page comes from a titled card among its first 10 whose lower-cased text contains one of the category's words. */
  lemma GoogleNeedsCategoryWord(source: GoogleSource, category: string, world: World, today: string, x: Resource)
    requires x in ScrapedPage(GoogleRules(source, category), world.google(source.url, category), category, world.summarize, today)
    ensures world.google(source.url, category).Fetched?
    ensures var cards := world.google(source.url, category).body;
            exists i, w :: 0 <= i < |cards| && i < MaxResultsPerSource && cards[i].title.Some?
                           && w in Words(Lower(category)) && Contains(Lower(cards[i].text), w)
                           && x == CardResource(GoogleRules(source, category), cards[i], category, world.summarize, today)
  {
    PageSound(GoogleRules(source, category), world.google(source.url, category), category, world.summarize, today, x);
  }

  /** Each resource of the page loop comes from one of its pages. */
  lemma {:induction false} GooglePagesSound(sources: seq<GoogleSource>, category: string, world: World, today: string, x: Resource)
    requires x in GooglePages(sources, category, world, today)
    ensures exists source :: source in sources
              && x in ScrapedPage(GoogleRules(source, category), world.google(source.url, category), category, world.summarize, today)
  {
    var first := ScrapedPage(GoogleRules(sources[0], category), world.google(sources[0].url, category), category, world.summarize, today);
    if x !in first {
      GooglePagesSound(sources[1..], category, world, today, x);
      var source :| source in sources[1..]
                    && x in ScrapedPage(GoogleRules(source, category), world.google(source.url, category), category, world.summarize, today);
      assert source in sources;
    }
  }

  /** Every resource of `fetch_google` comes from one of its two pages, from a titled card that mentions a word of the category. */
  lemma GoogleSound(category: string, world: World, today: string, x: Resource)
    requires x in GoogleResources(category, world, today)
    ensures exists source :: source in GoogleSources && world.google(source.url, category).Fetched?
              && var cards := world.google(source.url, category).body;
                 exists i, w :: 0 <= i < |cards| && i < MaxResultsPerSource && cards[i].title.Some?
                                && w in Words(Lower(category)) && Contains(Lower(cards[i].text), w)
                                && x == CardResource(GoogleRules(source, category), cards[i], category, world.summarize, today)
  {
    GooglePagesSound(GoogleSources, category, world, today, x);
    var source :| source in GoogleSources
                  && x in ScrapedPage(GoogleRules(source, category), world.google(source.url, category), category, world.summarize, today);
    GoogleNeedsCategoryWord(source, category, world, today, x);
  }
}
