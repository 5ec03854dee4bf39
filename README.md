# Free tech-education resource scraper, modelled in Dafny

This project models `scraper.py`, the monthly job that collects free
tech-education resources for five fixed categories from nine sources. The
sources are YouTube, MIT OpenCourseWare, freeCodeCamp, Microsoft Learn, AWS
Skill Builder, Coursera, Stanford Online, IBM SkillsBuild and two Google
pages. The job normalises each description through a text-generation
service, with a deterministic fallback. It builds one uniform resource
record per item, deduplicates the records across sources by URL (first seen
wins), and assembles the catalog that is written to `resources.json`.

Modules:

- `Wrappers`: `Option`.
- `Text`: the string operations the code relies on. These are `startswith`,
  substring `in`, ASCII `lower`/`capitalize`, whitespace `split`, and the
  rule that makes a relative link absolute.
- `Config`: `CATEGORIES`, the per-source cap of 10, and Python's `s[:n]`.
- `Resources`: the resource record, `clean_description` and `build_resource`.
- `Cards`: the card loop shared by the HTML adapters. It caps the page, skips
  cards without a title (or without a link, where one is required), applies
  an optional relevance filter, and absolutises URLs.
- `Adapters`: the nine `fetch_*` functions and the keyword maps. The network
  is a `World` value. It holds one reply per request, plus the summariser as
  a function that returns `None` when the service fails.
- `Deduplication`: the URL deduplication pass.
- `Aggregator`: `FETCHERS` and `run_scraper`.

Each adapter is a specification function (for example `Adapters.AwsResources`)
plus a method that follows the source's loop (`Adapters.FetchAws`). The method
is proved equal to the function. The function's own contract, and the lemmas
next to it, state what the adapter promises.

## Model

| member | source | states |
|---|---|---|
| Text.ContainsIffOccurs | scraper.py:226 | the substring test used for `cert_name.lower() in text.lower()` and the other keyword filters holds exactly when the needle occurs at some position |
| Text.Lower | scraper.py:167 | lower-casing keeps the length and lower-cases each character on its own |
| Text.LowerIdempotent | scraper.py:167 | a lower-cased string has no upper-case letter, and lower-casing it again changes nothing |
| Text.CapitalizeShape | scraper.py:294 | `capitalize` keeps the length, upper-cases the first character and lower-cases each of the others, so the first is not lower-case, no other is upper-case, and capitalising again changes nothing |
| Text.Words | scraper.py:505 | each word of `category.lower().split()` is non-empty, has no whitespace and occurs in the string; a non-empty string without whitespace is its own single word |
| Text.WordsComplete | scraper.py:505 | every maximal run of non-space characters, wherever it starts, is one of the words |
| Text.WordsSound | scraper.py:505 | every word is a maximal run of non-space characters, the one starting at some word start; with `WordsComplete`, the words are exactly those runs |
| Text.Absolutize | scraper.py:185 | an `href` starting with "http" is kept, any other is appended to the site base, and the result starts with "http" when the base does |
| Config.Take | scraper.py:176 | `s[:n]` is the prefix of `s` of length min(`n`, length of `s`), so all of `s` when it is short enough |
| Resources.Fallback | scraper.py:93-95 | the fallback description is never empty: the placeholder for an empty raw description, otherwise the first min(200, length) characters of it |
| Resources.CleanDescription | scraper.py:73-95 | when the service fails, the result is the fallback; when it succeeds, the result is its summary |
| Resources.FallbackIgnoresTitleAndCategory | scraper.py:93-95 | when the service fails, the description depends on the raw description alone and is non-empty |
| Resources.BuildResource | scraper.py:101-111 | every field of the record is the argument given, `level` defaults to "All Levels", `free` to true, and `retrieved` is the run date |
| Cards.CardUrl | scraper.py:332-333 | a card's URL is its link, or the page URL when it has none and the site falls back, made absolute against the site base; it starts with "http" whenever the base does |
| Cards.CardResource | scraper.py:331-341 | the resource of an admitted card carries its title, its absolutised URL, the site's platform, the default level, and the cleaned card description (or cleaned "" when the card has none) |
| Cards.Scraped | scraper.py:324-340 | no more resources than cards; each has the site's platform, the category, the run date, `free` set, and an absolute URL |
| Cards.ScrapedPage | scraper.py:320-343 | a failed request yields nothing; otherwise at most 10 resources, each produced for the category |
| Cards.ScrapedSound | scraper.py:326-329 | every resource comes from a card that has a title, has the required link and passes the relevance filter |
| Cards.ScrapedComplete | scraper.py:324-340 | every admitted card yields its resource |
| Cards.PageSound | scraper.py:324-329 | every resource of a page comes from an admitted card among its first 10 cards, and the request succeeded |
| Cards.ScrapeCards | scraper.py:320-343 | the shared card loop computes exactly the page's resources |
| Adapters.Keyword | scraper.py:167 | a mapped category yields its keyword; any other yields the lower-cased category |
| Adapters.CertName | scraper.py:213 | a mapped category yields its certification name; any other yields "" |
| Adapters.MapsCoverCategories | scraper.py:48-54 | every configured category is in every keyword map and has a certification, so no lookup in a run falls back |
| Adapters.ItemResource | scraper.py:139-147 | the resource of an item carries its title, the playlist URL built from its `playlistId` and the cleaned snippet description, has the default level "All Levels", and is a YouTube resource produced for the category |
| Adapters.YouTubeItems | scraper.py:134-147 | at most one resource per item, each a YouTube resource produced for the category |
| Adapters.YouTubeResources | scraper.py:117-150 | a failed search yields nothing; every resource is produced for the category |
| Adapters.FetchYouTube | scraper.py:117-150 | the loop, with its skip and its abort on a malformed item, computes exactly the items' resources |
| Adapters.YouTubeNeedsPlaylist | scraper.py:136-143 | every YouTube resource is the resource of an item that is read without raising and has a non-empty `playlistId` |
| Adapters.YouTubeComplete | scraper.py:134-147 | every such item with no raising item before it contributes its resource |
| Adapters.YouTubeStopsAtMalformed | scraper.py:134-149 | an item without `snippet` or `id`, or with a `playlistId` and no `title`, raises, which ends the loop: nothing after it contributes and everything before it is kept |
| Adapters.MitOcwResources | scraper.py:164-196 | at most 10 resources, each produced for the category |
| Adapters.FetchMitOcw | scraper.py:164-196 | the loop computes exactly the MIT page's resources |
| Adapters.MitNeedsTitleAndLink | scraper.py:176-185 | every MIT resource comes from one of the first 10 cards, which has both a title and a link, with the link absolutised against `https://ocw.mit.edu` |
| Adapters.FirstNamingIsFirst | scraper.py:224-241 | the search finds the earliest block naming the certification, and finds none only when no block names it |
| Adapters.BlockResource | scraper.py:226-240 | the block's resource is titled with the block text, has the default level "All Levels", is produced for the category, and is described by the cleaned "Free certification curriculum: " text; its URL is the block's `href` made absolute against `https://www.freecodecamp.org`, or `https://www.freecodecamp.org/learn` when the block has none |
| Adapters.DefaultCertResource | scraper.py:243-250 | the fallback entry is titled "freeCodeCamp — " plus the certification, on platform freeCodeCamp, at the default level "All Levels", produced for the category, points at `https://www.freecodecamp.org/learn/`, and is described by the cleaned "Free curriculum covering " text |
| Adapters.FreeCodeCampResources | scraper.py:210-253 | nothing for an unmapped category or a failed request; exactly one resource for a mapped category whose page was fetched; never more than one |
| Adapters.FreeCodeCampPicksFirst | scraper.py:224-250 | the single resource comes from the earliest block naming the certification, or is the default entry when no block names it |
| Adapters.FetchFreeCodeCamp | scraper.py:210-253 | the loop with its `break` and its fallback computes exactly the freeCodeCamp resources |
| Adapters.PathResource | scraper.py:283-295 | a learning path's resource has its title, platform Microsoft Learn, its capitalised first level (or "All Levels"), its cleaned summary, and its `url` made absolute against `https://learn.microsoft.com`, or that site root when the path has none |
| Adapters.PathResources | scraper.py:282-295 | one resource per path, in order, each being that path's own resource |
| Adapters.MicrosoftLearnResources | scraper.py:267-298 | a failed request yields nothing; at most 10 resources, each produced for the category |
| Adapters.FetchMicrosoftLearn | scraper.py:267-298 | the loop computes exactly the first 10 paths' resources |
| Adapters.AwsResources | scraper.py:312-343 | at most 10 resources, each produced for the category |
| Adapters.FetchAws | scraper.py:312-343 | the loop computes exactly the AWS page's resources |
| Adapters.AwsNeedsTitle | scraper.py:324-333 | every AWS resource comes from a titled card among the first 10; a card without a link points at the searched catalog URL |
| Adapters.CourseResource | scraper.py:376-387 | a course's resource is titled with its name, on platform Coursera, at the default level "All Levels", at `https://www.coursera.org/learn/` plus its slug, with its cleaned description |
| Adapters.CourseResources | scraper.py:375-387 | one resource per course, in order, each being that course's own resource |
| Adapters.CourseraResources | scraper.py:358-390 | a failed request yields nothing; a successful one yields one resource per element, uncapped; every resource is produced for the category |
| Adapters.FetchCoursera | scraper.py:358-390 | the loop computes exactly the courses' resources |
| Adapters.StanfordCards | scraper.py:414-437 | no more resources than the remaining budget, and no more than there are cards; each produced for the category |
| Adapters.StanfordCardsTakesFirst | scraper.py:415-437 | the counter keeps exactly the first `budget` resources of the accepted cards, in card order |
| Adapters.StanfordResources | scraper.py:404-440 | a failed request yields nothing; at most 10 resources, each produced for the category |
| Adapters.StanfordSound | scraper.py:422-426 | every Stanford resource comes from a titled card whose title or text contains the keyword, ignoring case |
| Adapters.StanfordCompleteBelowCap | scraper.py:415-437 | while fewer than the cap are produced, every accepted card yields its resource |
| Adapters.FetchStanford | scraper.py:404-440 | the loop, with its `count` and its early `break`, computes exactly the Stanford resources |
| Adapters.IbmResources | scraper.py:454-487 | at most 10 resources, each produced for the category |
| Adapters.FetchIbm | scraper.py:454-487 | the loop computes exactly the IBM page's resources |
| Adapters.IbmNeedsKeyword | scraper.py:464-472 | every IBM resource comes from a titled card among the first 10 whose lower-cased text contains the keyword |
| Adapters.GooglePages | scraper.py:507-534 | at most 10 resources per page, each produced for the category |
| Adapters.GoogleResources | scraper.py:493-535 | at most 20 resources, each produced for the category |
| Adapters.FetchGooglePages | scraper.py:507-534 | the loop over pages computes exactly their resources; one page failing does not affect the other |
| Adapters.FetchGoogle | scraper.py:493-535 | `fetch_google` computes exactly the two pages' resources |
| Adapters.GoogleNeedsCategoryWord | scraper.py:505-521 | every resource of one Google page is built from a titled card among its first 10 whose lower-cased text contains one of the category's words |
| Adapters.GooglePagesSound | scraper.py:507-534 | every resource of the page loop comes from one of the pages |
| Adapters.GoogleSound | scraper.py:493-535 | every resource of `fetch_google` is built from a titled card, among the first 10 of one of the two pages, that mentions a word of the category |
| Deduplication.DedupFrom | scraper.py:568-574 | the pass keeps no more than its input, keeps only input elements whose URL was not seen yet, and keeps URLs pairwise distinct |
| Deduplication.Dedup | scraper.py:568-574 | the deduplicated list is no longer than the input, drawn from it, and has distinct URLs |
| Deduplication.DedupFromIsSubsequence | scraper.py:568-574 | the pass keeps a selection of its input, in input order |
| Deduplication.DedupFromCovers | scraper.py:568-574 | the URLs kept are exactly the input's URLs minus those already seen |
| Deduplication.DedupFromKeepsFirst | scraper.py:568-574 | for each URL it keeps, the pass keeps the earliest resource carrying it |
| Deduplication.DedupFromDistinct | scraper.py:568-574 | a list with distinct, unseen URLs passes through unchanged |
| Deduplication.DedupIdempotent | scraper.py:568-574 | deduplicating twice is deduplicating once |
| Deduplication.DedupSpec | scraper.py:568-574 | deduplication is an order-preserving selection with distinct URLs, every input URL present, each carried by its first-seen resource |
| Deduplication.DedupKeepsEveryUrl | scraper.py:568-574 | for every input resource, the first resource with its URL is in the output |
| Deduplication.FirstSeenWins | scraper.py:568-574 | of two resources sharing a URL, only the one seen first is kept |
| Deduplication.DedupByUrl | scraper.py:568-574 | the loop with `seen_urls` and `unique` computes exactly the deduplicated list |
| Aggregator.SourceResources | scraper.py:541-551 | every resource any source yields for a category is produced for that category |
| Aggregator.RunFetcher | scraper.py:562 | one call of a fetcher computes exactly that source's resources |
| Aggregator.CategoryResources | scraper.py:562-566 | every resource gathered for a category is produced for it |
| Aggregator.Gathered | scraper.py:560-566 | every gathered resource belongs to a configured category, carries the run date, is free, and has an absolute URL |
| Aggregator.GatherCategory | scraper.py:562-566 | the inner loop concatenates the nine sources' results in `FETCHERS` order |
| Aggregator.GatherAll | scraper.py:560-566 | the outer loop concatenates the categories' results in `CATEGORIES` order |
| Aggregator.CatalogValid | scraper.py:577-582 | the assembled catalog's total is its length, its URLs are distinct, its categories are the configured ones, and every resource carries the run date and an absolute URL |
| Aggregator.RunScraper | scraper.py:553-588 | the run produces the catalog of the deduplicated gathered resources, and that catalog is valid |
| Aggregator.GatheredIncludes | scraper.py:560-566 | whatever a source yields for a configured category is gathered |
| Aggregator.CategoryIncludes | scraper.py:562-566 | whatever a source in the list yields is in the category's results |
| Aggregator.NoSourceLost | scraper.py:560-574 | every URL any source yields for a configured category reaches the catalog, carried by the earliest gathered resource with that URL, whatever the other sources did |
| Aggregator.CatalogIsFirstSeen | scraper.py:568-574 | the catalog's resources are an order-preserving selection of the gathered ones, with distinct URLs, every gathered URL present, each carried by its first-seen resource |

## Left out

- Network access (`requests.get`, timeouts, `raise_for_status`, JSON and HTML parsing errors): every request is a lookup in the `World` value, giving either `Failed` or the parsed reply. Each request for the same key in one run is assumed to get the same answer.
- HTML parsing with BeautifulSoup: each CSS-selected element becomes a `Card` (stripped title, `href`, stripped description, full text) or a freeCodeCamp `Block`. Selector semantics are not modelled.
- The text-generation call: it is a function `summarize` that returns `None` on any failure. It is taken to be deterministic in its inputs. The prompt, the model name, `max_tokens` and `.strip()` are not modelled.
- Resources.CleanDescription: on success the result is whatever the service returned. The code returns the stripped reply unchanged (scraper.py:92), and that reply can be empty, so only the fallback branch is proved non-empty.
- The date: `datetime.today()` becomes the parameter `today`. The same value stamps every `retrieved` field and the catalog's `generated` field, whereas the code reads the clock at each call.
- Writing `resources.json` (`json.dump`), logging, `time.sleep` between requests, the scheduler, and the command line are not modelled.
- Text.Lower, Text.Capitalize and Text.Words: only ASCII letters are case-mapped. Only ASCII whitespace splits words: space, tab, line feed, vertical tab, form feed, carriage return, and the separators 0x1C to 0x1F. Python also maps and splits non-ASCII characters, such as 0x85 and 0xA0.
- Adapters.YouTubeItems, Adapters.PathResources and Adapters.CourseResources: replies are typed records. In YouTube, only a missing `snippet`, `id` or `title` is modelled as raising. In all three sources, a JSON value of an unexpected type raises in the code, ends the loop and keeps what came before. That case is not modelled. Examples: an `id` that is not an object (scraper.py:136), a Microsoft Learn path with `"url": null` (scraper.py:286), a first `levels` entry that is not a string (scraper.py:294), and a Coursera element that is not an object (scraper.py:376).
- The YouTube request's `maxResults` and Coursera's `limit` parameters are request arguments. The code does not slice those replies, so the model does not cap them either.
