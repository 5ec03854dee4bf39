/**
 * The string operations the scraper relies on: `startswith`, substring
 * containment (`needle in text`), ASCII `lower`/`capitalize`, whitespace
 * `split`, and the rule that turns a relative link into an absolute URL.
 */
module Text {

  /** Python's `s.startswith(prefix)`. */
  predicate StartsWith(s: string, prefix: string) {
    |prefix| <= |s| && s[..|prefix|] == prefix
  }

  /** Appending to a string keeps its prefixes. */
  lemma StartsWithAppend(s: string, t: string, prefix: string)
    requires StartsWith(s, prefix)
    ensures StartsWith(s + t, prefix)
  {
    assert (s + t)[..|prefix|] == s[..|prefix|];
  }

  /** `needle` occurs in `text` starting at index `i`. */
  ghost predicate OccursAt(text: string, needle: string, i: int) {
    0 <= i <= |text| - |needle| && text[i..i + |needle|] == needle
  }

  /** Python's `needle in text` on strings, scanning from the left. */
  predicate Contains(text: string, needle: string)
    decreases |text|
  {
    StartsWith(text, needle) || (|text| > 0 && Contains(text[1..], needle))
  }

  /** The scan agrees with the positional definition of an occurrence. */
  lemma {:induction false} ContainsIffOccurs(text: string, needle: string)
    ensures Contains(text, needle) <==> exists i :: OccursAt(text, needle, i)
    decreases |text|
  {
    if StartsWith(text, needle) {
      assert OccursAt(text, needle, 0);
    } else if |text| == 0 {
    } else {
      ContainsIffOccurs(text[1..], needle);
      if Contains(text[1..], needle) {
        var i :| OccursAt(text[1..], needle, i);
        assert i + 1 + |needle| <= |text|;
        assert text[1..][i..i + |needle|] == text[i + 1..i + 1 + |needle|];
        assert OccursAt(text, needle, i + 1);
      }
      if i :| OccursAt(text, needle, i) {
        assert i != 0;
        assert text[1..][i - 1..i - 1 + |needle|] == text[i..i + |needle|];
        assert OccursAt(text[1..], needle, i - 1);
      }
    }
  }

  /** An occurrence in a suffix is an occurrence in the whole string. */
  lemma {:induction false} ContainsInSuffix(text: string, k: nat, needle: string)
    requires k <= |text|
    requires Contains(text[k..], needle)
    ensures Contains(text, needle)
    decreases k
  {
    if k > 0 {
      assert text[1..][k - 1..] == text[k..];
      ContainsInSuffix(text[1..], k - 1, needle);
    }
  }

  /** A string contains each of its prefixes. */
  lemma PrefixContained(text: string, n: nat)
    requires n <= |text|
    ensures Contains(text, text[..n])
  {
    assert StartsWith(text, text[..n]);
  }

  predicate IsUpper(c: char) { 'A' <= c <= 'Z' }
  predicate IsLower(c: char) { 'a' <= c <= 'z' }

  function LowerChar(c: char): (d: char)
    ensures !IsUpper(d)
    ensures IsUpper(c) || d == c
  {
    if IsUpper(c) then (c as int + 32) as char else c
  }

  function UpperChar(c: char): (d: char)
    ensures !IsLower(d)
    ensures IsLower(c) || d == c
  {
    if IsLower(c) then (c as int - 32) as char else c
  }

  /** Python's `s.lower()`, restricted to ASCII letters. */
  function Lower(s: string): (r: string)
    ensures |r| == |s|
    ensures forall i :: 0 <= i < |s| ==> r[i] == LowerChar(s[i])
  {
    if s == [] then [] else [LowerChar(s[0])] + Lower(s[1..])
  }

  /** Lower-casing leaves no upper-case letter, and so is idempotent. */
  lemma LowerIdempotent(s: string)
    ensures forall i :: 0 <= i < |s| ==> !IsUpper(Lower(s)[i])
    ensures Lower(Lower(s)) == Lower(s)
  {
  }

  /** Python's `s.capitalize()` on ASCII: first character upper-cased, the rest lower-cased. */
  function Capitalize(s: string): (r: string)
  {
    if s == [] then [] else [UpperChar(s[0])] + Lower(s[1..])
  }

  /**
   * A capitalised word is its first character upper-cased followed by the rest
   * lower-cased, character by character; so it has that shape, and
   * capitalising twice changes nothing.
   */
  lemma CapitalizeShape(s: string)
    ensures |Capitalize(s)| == |s|
    ensures s != [] ==> Capitalize(s)[0] == UpperChar(s[0])
    ensures forall i :: 1 <= i < |s| ==> Capitalize(s)[i] == LowerChar(s[i])
    ensures s != [] ==> !IsLower(Capitalize(s)[0])
    ensures forall i :: 1 <= i < |s| ==> !IsUpper(Capitalize(s)[i])
    ensures Capitalize(Capitalize(s)) == Capitalize(s)
  {
    if s != [] {
      var c := Capitalize(s);
      assert c[1..] == Lower(s[1..]);
      LowerIdempotent(s[1..]);
      assert UpperChar(c[0]) == c[0];
    }
  }

  /**
   * The ASCII characters Python's argument-less `split()` breaks on: space,
   * tab, line feed, vertical tab, form feed, carriage return, and the four
   * separators 0x1C to 0x1F.
   */
  predicate IsSpace(c: char) {
    c == ' ' || c == '\t' || c == '\n' || c == '\r' || c == 11 as char || c == 12 as char
    || (28 as char <= c <= 31 as char)
  }

  predicate NoSpace(w: string) {
    forall k :: 0 <= k < |w| ==> !IsSpace(w[k])
  }

  /** Length of the run of non-space characters that starts `s`. */
  function WordLength(s: string): (n: nat)
    ensures n <= |s|
    ensures NoSpace(s[..n])
    ensures n < |s| ==> IsSpace(s[n])
  {
    if s == [] || IsSpace(s[0]) then 0 else 1 + WordLength(s[1..])
  }

  /** Python's `s.split()`: the maximal runs of non-space characters, in order. */
  function Words(s: string): (ws: seq<string>)
    ensures forall w :: w in ws ==> w != [] && NoSpace(w) && Contains(s, w)
    ensures s != [] && NoSpace(s) ==> ws == [s]
    decreases |s|
  {
    if s == [] then []
    else if IsSpace(s[0]) then
      var rest := Words(s[1..]);
      assert forall w :: w in rest ==> Contains(s, w) by {
        forall w | w in rest ensures Contains(s, w) {
          ContainsInSuffix(s, 1, w);
        }
      }
      rest
    else
      var n := WordLength(s);
      assert NoSpace(s) ==> n == |s| && s[..n] == s && s[n..] == [];
      var rest := Words(s[n..]);
      PrefixContained(s, n);
      assert forall w :: w in rest ==> Contains(s, w) by {
        forall w | w in rest ensures Contains(s, w) {
          ContainsInSuffix(s, n, w);
        }
      }
      [s[..n]] + rest
  }

  /** `i` is where a word of `s` begins: a non-space character at the start or after a space. */
  predicate WordStart(s: string, i: int) {
    0 <= i < |s| && !IsSpace(s[i]) && (i == 0 || IsSpace(s[i - 1]))
  }

  /** The run of non-space characters that starts at index `i`. */
  function WordAt(s: string, i: nat): string
    requires i <= |s|
  {
    s[i..i + WordLength(s[i..])]
  }

  /** Dropping a prefix of length `k` before `i` leaves the word at `i` unchanged. */
  lemma WordAtShift(s: string, k: nat, i: nat)
    requires k <= i <= |s|
    ensures WordAt(s[k..], i - k) == WordAt(s, i)
  {
    assert s[k..][i - k..] == s[i..];
  }

  /** Every maximal run of non-space characters is one of the words. */
  lemma {:induction false} WordsComplete(s: string, i: nat)
    requires WordStart(s, i)
    ensures WordAt(s, i) in Words(s)
    decreases |s|
  {
    if IsSpace(s[0]) {
      WordsComplete(s[1..], i - 1);
      WordAtShift(s, 1, i);
    } else if i > 0 {
      var n := WordLength(s);
      assert s[n..][i - n - 1] == s[i - 1];
      WordsComplete(s[n..], i - n);
      WordAtShift(s, n, i);
    } else {
      assert s[0..] == s;
    }
  }

  /**
   * A word start in a suffix `s[k..]` is a word start of `s`, with the same
   * word, unless it is the suffix's first character glued to a non-space before it.
   */
  lemma WordStartShift(s: string, k: nat, j: nat)
    requires k <= |s| && WordStart(s[k..], j)
    requires j > 0 || k == 0 || IsSpace(s[k - 1])
    ensures WordStart(s, k + j) && WordAt(s, k + j) == WordAt(s[k..], j)
  {
    assert s[k..][j] == s[k + j];
    if j > 0 {
      assert s[k..][j - 1] == s[k + j - 1];
    }
    WordAtShift(s, k, k + j);
  }

  /** Every word is a maximal run of non-space characters: the one that starts at some word start. */
  lemma {:induction false} WordsSound(s: string, w: string)
    requires w in Words(s)
    ensures exists i :: WordStart(s, i) && w == WordAt(s, i)
    decreases |s|
  {
    if IsSpace(s[0]) {
      WordsSound(s[1..], w);
      var j :| WordStart(s[1..], j) && w == WordAt(s[1..], j);
      WordStartShift(s, 1, j);
    } else {
      var n := WordLength(s);
      if w == s[..n] {
        assert s[0..] == s;
        assert WordStart(s, 0) && w == WordAt(s, 0);
      } else {
        WordsSound(s[n..], w);
        var j :| WordStart(s[n..], j) && w == WordAt(s[n..], j);
        WordStartShift(s, n, j);
      }
    }
  }

  /**
   * The link rule every HTML adapter applies: an `href` that already starts
   * with "http" is kept, anything else is appended to the site's base URL.
   */
  function Absolutize(base: string, href: string): (url: string)
    ensures StartsWith(href, "http") ==> url == href
    ensures !StartsWith(href, "http") ==> url == base + href
    ensures StartsWith(base, "http") ==> StartsWith(url, "http")
  {
    if StartsWith(href, "http") then href else base + href
  }
}
