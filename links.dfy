/**
 * Base-aware links (src/utils/links.ts). The site's base URL is a
 * parameter; `Base` is the derivation of the exported `base` constant.
 */
module Links {

  predicate StartsWithSlash(s: string) {
    |s| > 0 && s[0] == '/'
  }

  predicate EndsWithSlash(s: string) {
    |s| > 0 && s[|s| - 1] == '/'
  }

  /** `BASE_URL` with one trailing `/` removed, when there is one. */
  function Base(baseUrl: string): (r: string)
    ensures EndsWithSlash(baseUrl) ==> r + "/" == baseUrl
    ensures !EndsWithSlash(baseUrl) ==> r == baseUrl
  {
    if EndsWithSlash(baseUrl) then baseUrl[..|baseUrl| - 1] else baseUrl
  }

  /**
   * The global replace of a leading `/` or a trailing `/` by nothing: the
   * two matches never overlap, so at most one slash goes from each end.
   */
  function StripSlashes(path: string): (r: string)
    ensures |r| <= |path|
  {
    var rest := if StartsWithSlash(path) then path[1..] else path;
    if EndsWithSlash(rest) then rest[..|rest| - 1] else rest
  }

  /** `link(path)`: the root for the empty path and for `/`, else the path below the base. */
  function Link(base: string, path: string): (r: string)
    ensures |r| > |base| && r[..|base| + 1] == base + "/"
  {
    if path == "" || path == "/" then base + "/"
    else base + "/" + StripSlashes(path)
  }

  // ---------------------------------------------------------------------
  // Properties
  // ---------------------------------------------------------------------

  /** The root path, written either way, links to the base followed by one slash. */
  lemma LinkRoot(base: string)
    ensures Link(base, "") == base + "/"
    ensures Link(base, "/") == base + "/"
  {
  }

  /**
   * What the replace removes: the path is the result with at most one slash
   * put back in front and at most one behind; the front slash is removed
   * exactly when the path starts with one, the back slash exactly when what
   * is left ends with one.
   */
  lemma StripSlashesRemovesOneEach(path: string)
    ensures var r := StripSlashes(path);
            var front := if StartsWithSlash(path) then "/" else "";
            exists back :: (back == "" || back == "/") && path == front + r + back
              && (back == "/" <==> |path| > |front| && EndsWithSlash(path))
  {
    var r := StripSlashes(path);
    var front := if StartsWithSlash(path) then "/" else "";
    var rest := path[|front|..];
    assert path == front + rest;
    if EndsWithSlash(rest) {
      assert rest == r + "/";
      assert path == front + r + "/";
    } else {
      assert path == front + r + "";
    }
  }

  /** A path with no slash at either end is appended unchanged. */
  lemma LinkCleanPath(base: string, path: string)
    requires path != "" && !StartsWithSlash(path) && !EndsWithSlash(path)
    ensures Link(base, path) == base + "/" + path
  {
  }

  /**
   * Exactly one slash between base and path: unless the path starts or ends
   * with two slashes, what follows `base + "/"` has no slash at either end.
   */
  lemma LinkOneSlash(base: string, path: string)
    requires !(|path| >= 2 && path[..2] == "//") && !(|path| >= 2 && path[|path| - 2..] == "//")
    ensures var r := Link(base, path);
            var tail := r[|base| + 1..];
            !StartsWithSlash(tail) && !EndsWithSlash(tail)
  {
    if path != "" && path != "/" {
      var r := StripSlashes(path);
      assert Link(base, path)[|base| + 1..] == r;
    }
  }

  /** Stripping is idempotent on the shapes a link keeps: a second pass changes nothing. */
  lemma StripSlashesStable(path: string)
    requires !(|path| >= 2 && path[..2] == "//") && !(|path| >= 2 && path[|path| - 2..] == "//")
    ensures StripSlashes(StripSlashes(path)) == StripSlashes(path)
  {
  }
}
