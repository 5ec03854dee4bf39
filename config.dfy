/**
 * Run-wide configuration (the category list and the per-source cap) and
 * the two sequence facts the accumulating loops rely on.
 */
module Config {

  /** The configured categories, in the order every run visits them. */
  const Categories: seq<string> := [
    "Python Programming",
    "Data Science AI",
    "Web Development",
    "IT Cybersecurity",
    "Project Management Agile"
  ]

  /** `max_results_per_source`: the cap on results per category per source page. */
  const MaxResultsPerSource: nat := 10

  /** Appending in two steps is appending once: the step every accumulating loop takes. */
  lemma AppendAssoc<T>(a: seq<T>, b: seq<T>, c: seq<T>)
    ensures (a + b) + c == a + (b + c)
  {
  }

  /** Python's slice `s[:n]`. */
  function Take<T>(s: seq<T>, n: nat): (r: seq<T>)
    ensures |r| <= n && |r| <= |s|
    ensures |r| == if |s| <= n then |s| else n
    ensures |s| <= n ==> r == s
    ensures r == s[..|r|]
  {
    if |s| <= n then s else s[..n]
  }

  /** Taking `n` from a sequence with a head is the head followed by `n - 1` from the rest. */
  lemma TakeCons<T>(x: T, s: seq<T>, n: nat)
    requires n >= 1
    ensures Take([x] + s, n) == [x] + Take(s, n - 1)
  {
    if |s| > n - 1 {
      assert ([x] + s)[..n] == [x] + s[..n - 1];
    }
  }
}
