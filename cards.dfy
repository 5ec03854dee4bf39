/**
 * The card-scraping loop shared by the HTML adapters (MIT OpenCourseWare,
 * AWS Skill Builder, IBM SkillsBuild and both Google pages): cap the cards
 * of a page, skip those without a title (and, where required, without a
 * link), optionally filter by relevance, and build one resource per
 * remaining card with an absolutised URL.
 */
module Cards {
  import opened Wrappers
  import opened Text
  import opened Config
  import opened Resources

  /**
   * What the CSS selectors find in one card element: the stripped text of
   * the title element, the `href` of the first link, the stripped text of
   * the description element (each absent when no element matched), and the
   * full text of the card.
   */
  datatype Card = Card(title: Option<string>, href: Option<string>, description: Option<string>, text: string)

  /** The outcome of one HTTP request and parse: a failure, or the parsed body. */
  datatype Fetch<T> = Failed | Fetched(body: T)

  /** Whether a card needs a link, or which URL stands in for a missing one. */
  datatype LinkRule = LinkRequired | LinkOr(fallback: string)

  /** The relevance filter a site applies to a card's lower-cased text. */
  datatype Relevance =
    | Unfiltered
    | TextHas(keyword: string)            // the lower-cased keyword occurs in the text
    | TextHasAny(keywords: seq<string>)   // one of the (already lower-case) words occurs in the text

  datatype SiteRules = SiteRules(platform: string, base: string, link: LinkRule, relevance: Relevance)

  predicate Relevant(relevance: Relevance, card: Card) {
    match relevance
    case Unfiltered => true
    case TextHas(keyword) => Contains(Lower(card.text), Lower(keyword))
    case TextHasAny(keywords) => exists k :: k in keywords && Contains(Lower(card.text), k)
  }

  /** The cards the loop turns into resources; every other card is skipped with `continue`. */
  predicate Admits(rules: SiteRules, card: Card) {
    && card.title.Some?
    && (rules.link.LinkRequired? ==> card.href.Some?)
    && Relevant(rules.relevance, card)
  }

  /** The card's link, or the page URL standing in for a missing one, made absolute against the site base. */
  function CardUrl(rules: SiteRules, card: Card): (url: string)
    ensures card.href.Some? ==> url == Absolutize(rules.base, card.href.value)
    ensures card.href.None? && rules.link.LinkOr? ==> url == Absolutize(rules.base, rules.link.fallback)
    ensures StartsWith(rules.base, "http") ==> StartsWith(url, "http")
  {
    var href := card.href.GetOr(if rules.link.LinkOr? then rules.link.fallback else "");
    Absolutize(rules.base, href)
  }

  /** The resource built from an admitted card. */
  function CardResource(rules: SiteRules, card: Card, category: string, summarize: Summarizer, today: string): (r: Resource)
    requires card.title.Some?
    ensures r.title == card.title.value && r.url == CardUrl(rules, card)
    ensures r.platform == rules.platform && r.level == DefaultLevel
    ensures r.description == CleanDescription(summarize, card.title.value, card.description.GetOr(""), category)
  {
    var title := card.title.value;
    var raw := card.description.GetOr("");
    BuildResource(today, title, CardUrl(rules, card), CleanDescription(summarize, title, raw, category),
                  rules.platform, category)
  }

  /** The resources built from `cards`, in card order. */
  function Scraped(rules: SiteRules, cards: seq<Card>, category: string, summarize: Summarizer, today: string): (r: seq<Resource>)
    ensures |r| <= |cards|
    ensures forall x :: x in r ==> x.platform == rules.platform && x.category == category && x.retrieved == today && x.free
    ensures StartsWith(rules.base, "http") ==> forall x :: x in r ==> ProducedFor(x, category, today)
  {
    if cards == [] then []
    else
      var rest := Scraped(rules, cards[1..], category, summarize, today);
      if Admits(rules, cards[0]) then [CardResource(rules, cards[0], category, summarize, today)] + rest
      else rest
  }

  /** One page's resources: nothing when the fetch failed, else the first `MaxResultsPerSource` cards scraped. */
  function ScrapedPage(rules: SiteRules, page: Fetch<seq<Card>>, category: string, summarize: Summarizer, today: string): (r: seq<Resource>)
    ensures |r| <= MaxResultsPerSource
    ensures page.Failed? ==> r == []
    ensures StartsWith(rules.base, "http") ==> forall x :: x in r ==> ProducedFor(x, category, today)
  {
    match page
    case Failed => []
    case Fetched(cards) => Scraped(rules, Take(cards, MaxResultsPerSource), category, summarize, today)
  }

  /** Every resource comes from an admitted card: none from a card without a title or a required link, or an irrelevant one. */
  lemma {:induction false} ScrapedSound(rules: SiteRules, cards: seq<Card>, category: string, summarize: Summarizer, today: string, x: Resource)
    requires x in Scraped(rules, cards, category, summarize, today)
    ensures exists i :: 0 <= i < |cards| && Admits(rules, cards[i]) && x == CardResource(rules, cards[i], category, summarize, today)
  {
    var rest := Scraped(rules, cards[1..], category, summarize, today);
    if !(Admits(rules, cards[0]) && x == CardResource(rules, cards[0], category, summarize, today)) {
      assert x in rest;
      ScrapedSound(rules, cards[1..], category, summarize, today, x);
      var i :| 0 <= i < |cards[1..]| && Admits(rules, cards[1..][i]) && x == CardResource(rules, cards[1..][i], category, summarize, today);
      assert cards[1..][i] == cards[i + 1];
    }
  }

  /** Every admitted card yields its resource. */
  lemma {:induction false} ScrapedComplete(rules: SiteRules, cards: seq<Card>, category: string, summarize: Summarizer, today: string, i: nat)
    requires i < |cards| && Admits(rules, cards[i])
    ensures CardResource(rules, cards[i], category, summarize, today) in Scraped(rules, cards, category, summarize, today)
  {
    if i > 0 {
      assert cards[1..][i - 1] == cards[i];
      ScrapedComplete(rules, cards[1..], category, summarize, today, i - 1);
    }
  }

  /** A page's resources come from admitted cards among its first `MaxResultsPerSource`. */
  lemma PageSound(rules: SiteRules, page: Fetch<seq<Card>>, category: string, summarize: Summarizer, today: string, x: Resource)
    requires x in ScrapedPage(rules, page, category, summarize, today)
    ensures page.Fetched?
    ensures exists i :: 0 <= i < |page.body| && i < MaxResultsPerSource && Admits(rules, page.body[i])
                        && x == CardResource(rules, page.body[i], category, summarize, today)
  {
    var cards := Take(page.body, MaxResultsPerSource);
    ScrapedSound(rules, cards, category, summarize, today, x);
    var i :| 0 <= i < |cards| && Admits(rules, cards[i]) && x == CardResource(rules, cards[i], category, summarize, today);
    assert cards[i] == page.body[i];
  }

  /** The loop body of the HTML adapters, run over one fetched page. */
  method ScrapeCards(rules: SiteRules, page: Fetch<seq<Card>>, category: string, summarize: Summarizer, today: string)
    returns (results: seq<Resource>)
    ensures results == ScrapedPage(rules, page, category, summarize, today)
  {
    results := [];
    if page.Failed? {
      return;
    }
    var cards := Take(page.body, MaxResultsPerSource);
    var i := 0;
    while i < |cards|
      invariant 0 <= i <= |cards|
      invariant results + Scraped(rules, cards[i..], category, summarize, today) == Scraped(rules, cards, category, summarize, today)
    {
      var card := cards[i];
      assert cards[i..][1..] == cards[i + 1..];
      i := i + 1;
      if card.title.None? || (rules.link.LinkRequired? && card.href.None?) || !Relevant(rules.relevance, card) {
        continue;
      }
      var title := card.title.value;
      var href := card.href.GetOr(if rules.link.LinkOr? then rules.link.fallback else "");
      var fullUrl := if StartsWith(href, "http") then href else rules.base + href;
      var raw := card.description.GetOr("");
      var clean := CleanDescription(summarize, title, raw, category);
      var r := BuildResource(today, title, fullUrl, clean, rules.platform, category);
      assert r == CardResource(rules, card, category, summarize, today);
      assert Scraped(rules, cards[i - 1..], category, summarize, today)
             == [r] + Scraped(rules, cards[i..], category, summarize, today);
      AppendAssoc(results, [r], Scraped(rules, cards[i..], category, summarize, today));
      results := results + [r];
    }
    assert cards[i..] == [];
  }
}
