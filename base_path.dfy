/**
 * The deployment base path normaliser of vite.config.js (lines 5-11): the
 * configured path, or `/ATDU/` when none is set, with a leading and a
 * trailing slash.
 */
module BasePath {
  import opened Options

  const DEFAULT_BASE: string := "/ATDU/"

  predicate StartsWithSlash(s: string) {
    |s| > 0 && s[0] == '/'
  }

  predicate EndsWithSlash(s: string) {
    |s| > 0 && s[|s| - 1] == '/'
  }

  /** `basePath` is `None` when the environment variable is unset. */
  function NormalizeBase(basePath: Option<string>): (r: string)
    ensures StartsWithSlash(r) && EndsWithSlash(r)
    ensures basePath.None? || basePath == Some("") ==> r == DEFAULT_BASE
  {
    if basePath.None? || basePath.value == "" then DEFAULT_BASE
    else
      var withLeadingSlash := if StartsWithSlash(basePath.value) then basePath.value else "/" + basePath.value;
      if EndsWithSlash(withLeadingSlash) then withLeadingSlash else withLeadingSlash + "/"
  }

  /** A path that already starts and ends with a slash is returned unchanged. */
  lemma NormalizeBaseFixesSlashed(s: string)
    requires StartsWithSlash(s) && EndsWithSlash(s)
    ensures NormalizeBase(Some(s)) == s
  {
  }

  /** Normalising a normalised path changes nothing. */
  lemma NormalizeBaseIdempotent(b: Option<string>)
    ensures NormalizeBase(Some(NormalizeBase(b))) == NormalizeBase(b)
  {
    NormalizeBaseFixesSlashed(NormalizeBase(b));
  }

  /** A set path gets a slash only on a side that lacks one. */
  lemma NormalizeBaseAddsOnlyMissingSlashes(s: string)
    requires s != ""
    ensures NormalizeBase(Some(s)) == (if StartsWithSlash(s) then "" else "/") + s + (if EndsWithSlash(s) then "" else "/")
    ensures StartsWithSlash(s) ==> NormalizeBase(Some(s)) == s || NormalizeBase(Some(s)) == s + "/"
    ensures EndsWithSlash(s) ==> NormalizeBase(Some(s)) == s || NormalizeBase(Some(s)) == "/" + s
  {
    if !StartsWithSlash(s) {
      assert ("/" + s)[|"/" + s| - 1] == s[|s| - 1];
    }
  }

  /** A set path is kept, with at most one slash added on each side. */
  lemma NormalizeBaseAddsAtMostOneSlashEachSide(s: string)
    requires s != ""
    ensures var r := NormalizeBase(Some(s));
      r == s || r == "/" + s || r == s + "/" || r == "/" + s + "/"
  {
  }
}
