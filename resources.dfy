/**
 * The persisted unit of the catalog, the description normaliser with its
 * deterministic fallback, and the record builder.
 */
module Resources {
  import opened Wrappers
  import opened Text

  datatype Resource = Resource(
    title: string,
    url: string,          // the identity key
    description: string,
    platform: string,
    category: string,
    level: string,
    free: bool,
    retrieved: string)    // the run date, "YYYY-MM-DD"

  const DefaultLevel: string := "All Levels"
  const Placeholder: string := "No description available."
  const FallbackBudget: nat := 200

  /**
   * The external text-generation service, given title, raw description and
   * category: `Some(summary)` on success, `None` for any failure (network,
   * authentication, malformed reply).
   */
  type Summarizer = (string, string, string) -> Option<string>

  function Min(a: nat, b: nat): nat { if a <= b then a else b }

  /** The normaliser's failure branch: truncate the raw text, or use the placeholder. */
  function Fallback(raw: string): (d: string)
    ensures d != []
    ensures raw == [] ==> d == Placeholder
    ensures raw != [] ==> |d| == Min(FallbackBudget, |raw|) && StartsWith(raw, d)
  {
    if raw != [] then raw[..Min(FallbackBudget, |raw|)] else Placeholder
  }

  /** `clean_description`: the service's summary, or the fallback when the service fails. */
  function CleanDescription(summarize: Summarizer, title: string, raw: string, category: string): (d: string)
    ensures summarize(title, raw, category).None? ==> d != [] && d == Fallback(raw)
    ensures summarize(title, raw, category).Some? ==> d == summarize(title, raw, category).value
  {
    match summarize(title, raw, category)
    case Some(summary) => summary
    case None => Fallback(raw)
  }

  /** When the service fails, the result depends on the raw description alone. */
  lemma FallbackIgnoresTitleAndCategory(summarize: Summarizer, title: string, title': string,
                                        raw: string, category: string, category': string)
    requires summarize(title, raw, category).None? && summarize(title', raw, category').None?
    ensures CleanDescription(summarize, title, raw, category) == CleanDescription(summarize, title', raw, category')
    ensures CleanDescription(summarize, title, raw, category) != []
  {
  }

  /** What every resource produced in a run for `category` on date `today` satisfies. */
  predicate ProducedFor(r: Resource, category: string, today: string) {
    r.category == category && r.retrieved == today && r.free && StartsWith(r.url, "http")
  }

  /** `build_resource`: the canonical record, `level` and `free` defaulted, stamped with the run date. */
  function BuildResource(today: string, title: string, url: string, description: string,
                         platform: string, category: string,
                         level: string := DefaultLevel, free: bool := true): (r: Resource)
    ensures r.title == title && r.url == url && r.description == description
    ensures r.platform == platform && r.category == category
    ensures r.level == level && r.free == free && r.retrieved == today
  {
    Resource(title, url, description, platform, category, level, free, today)
  }
}
