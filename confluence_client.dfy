/**
 * URL and identifier helpers of the Confluence client: base-URL
 * normalisation, Jira key extraction, Confluence page-id extraction and the
 * tag-stripping fallback of the HTML conversion. The scripts carry copies of
 * these helpers with the same bodies; they use this module.
 *
 * A URL is taken as `urlparse` has already split it: scheme, network
 * location, path and params (URLs with a query or a fragment are outside the
 * model). `Url` records what the split guarantees: the network location
 * holds no `/`, `?` or `#`, the path holds no `?` or `#`, the params come
 * from the last path segment and so hold no `/`, `?` or `#`, and when there
 * is a network location the path is empty or starts with `/`.
 */
module ConfluenceClient {
  import opened Wrappers
  import opened Text

  datatype UrlParts = UrlParts(scheme: string, netloc: string, path: string, params: string)

  predicate PathFits(netloc: string, path: string)
  {
    '?' !in path && '#' !in path && (netloc == "" || path == "" || path[0] == '/')
  }

  predicate ParamsFit(params: string)
  {
    '/' !in params && '?' !in params && '#' !in params
  }

  predicate IsSplit(u: UrlParts)
  {
    '/' !in u.netloc && '?' !in u.netloc && '#' !in u.netloc && PathFits(u.netloc, u.path) && ParamsFit(u.params)
  }

  type Url = u: UrlParts | IsSplit(u) witness UrlParts("", "", "", "")

  /** Trailing slashes removed from a path that fits keep it fitting. */
  lemma RStripFits(netloc: string, path: string)
    requires PathFits(netloc, path)
    ensures PathFits(netloc, RStripSlash(path))
  {
    var r := RStripSlash(path);
    assert r == path[..|r|];
  }

  /** The same URL with another path. */
  function WithPath(u: Url, path: string): (v: Url)
    requires PathFits(u.netloc, path)
    ensures v.scheme == u.scheme && v.netloc == u.netloc && v.path == path && v.params == u.params
  {
    UrlParts(u.scheme, u.netloc, path, u.params)
  }

  /** What `urlunparse` puts before the path of a URL that has a network location. */
  function Authority(u: Url): (a: string)
    requires u.netloc != ""
    ensures |a| > 0 && a[|a| - 1] != '/'
  {
    assert u.netloc[|u.netloc| - 1] in u.netloc;
    (if u.scheme == "" then "" else u.scheme + ":") + "//" + u.netloc
  }

  /**
   * What `urlunparse` puts after the network location: the path, then `;` and
   * the params when there are any; a `/` goes in front when the result would
   * otherwise not start with one (an empty path with params).
   */
  function PathPart(u: Url): (s: string)
    requires u.netloc != ""
    ensures s == "" || s[0] == '/'
    ensures u.params == "" ==> s == u.path
    ensures u.params != "" ==> |s| > 0 && s[|s| - 1] != '/'
  {
    var params := if u.params == "" then "" else ";" + u.params;
    assert u.params != "" ==> u.params[|u.params| - 1] in u.params;
    (if u.path == "" && u.params != "" then "/" else u.path) + params
  }

  /** What follows the network location holds no `?` or `#`. */
  lemma PathPartFits(u: Url)
    requires u.netloc != ""
    ensures '?' !in PathPart(u) && '#' !in PathPart(u)
  {
  }

  /** `urlunparse` of a URL that has a network location. */
  function Unparse(u: Url): string
    requires u.netloc != ""
  {
    Authority(u) + PathPart(u)
  }

  /** Stripping slashes off `a + b` stops inside `b` when `a` ends in another character. */
  lemma {:induction false} RStripAppend(a: string, b: string)
    requires |a| > 0 && a[|a| - 1] != '/'
    ensures RStripSlash(a + b) == a + RStripSlash(b)
    decreases |b|
  {
    if |b| > 0 && b[|b| - 1] == '/' {
      assert (a + b)[..|a + b| - 1] == a + b[..|b| - 1];
      RStripAppend(a, b[..|b| - 1]);
    } else if |b| == 0 {
      assert a + b == a;
    }
  }

  /**
   * The final `.rstrip("/")` of the unparsed string only touches the path,
   * and only when there are no params: a network location is never empty
   * here and holds no `/`, and params hold no `/`.
   */
  lemma RStripUnparse(u: Url)
    requires u.netloc != ""
    ensures PathFits(u.netloc, RStripSlash(u.path))
    ensures u.params == "" ==> RStripSlash(Unparse(u)) == Unparse(WithPath(u, RStripSlash(u.path)))
    ensures u.params != "" ==> RStripSlash(Unparse(u)) == Unparse(u)
  {
    RStripFits(u.netloc, u.path);
    if u.params == "" {
      RStripAppend(Authority(u), u.path);
    } else {
      var s := Unparse(u);
      assert s[|s| - 1] == PathPart(u)[|PathPart(u)| - 1];
    }
  }

  // ---------------------------------------------------------------------
  // Parsing the root base again: the params split of `urlparse`
  // ---------------------------------------------------------------------

  /** The schemes for which `urlparse` splits params off the path (`uses_params`). */
  const UsesParams: set<string> :=
    {"", "ftp", "hdl", "prospero", "http", "imap", "https", "shttp", "rtsp", "rtsps", "rtspu", "sip", "sips", "mms", "sftp", "tel"}

  /** Where the last path segment starts: just after the last `/`, or at 0 when there is none. */
  function SegmentStart(s: string): (k: nat)
    ensures k <= |s| && '/' !in s[k..]
    ensures k == 0 || s[k - 1] == '/'
  {
    if |s| == 0 then 0
    else if s[|s| - 1] == '/' then |s|
    else
      var k := SegmentStart(s[..|s| - 1]);
      assert s[k..] == s[..|s| - 1][k..] + [s[|s| - 1]];
      k
  }

  /**
   * `_splitparams` as `urlparse` applies it: for a scheme in `uses_params`,
   * the first `;` of the last segment separates the path from the params;
   * with no `;` there, nothing is split off.
   */
  function SplitParams(scheme: string, s: string): (r: (string, string))
    ensures r.0 <= s
    ensures '/' !in r.1 && forall c :: c in r.1 ==> c in s
    ensures scheme !in UsesParams || ';' !in s[SegmentStart(s)..] <==> r == (s, "")
  {
    var k := SegmentStart(s);
    if scheme in UsesParams && ';' in s[k..] then
      var i := k + IndexOf(s[k..], ';');
      assert s[i + 1..] == s[k..][i + 1 - k..];
      assert |s[..i]| < |s|;
      (s[..i], s[i + 1..])
    else
      (s, "")
  }

  /**
   * `urlparse` of the string `Unparse(u)`: the scheme and the network
   * location come back as they were (they came out of `urlparse` and hold
   * none of the characters that end them), and what follows them is split
   * into path and params again.
   */
  function Reparse(u: Url): (v: Url)
    requires u.netloc != ""
    ensures v.scheme == u.scheme && v.netloc == u.netloc
    ensures (v.path, v.params) == SplitParams(u.scheme, PathPart(u))
  {
    var s := PathPart(u);
    var r := SplitParams(u.scheme, s);
    PathPartFits(u);
    assert PathFits(u.netloc, r.0) by {
      assert r.0 == s[..|r.0|];
    }
    UrlParts(u.scheme, u.netloc, r.0, r.1)
  }

  // ---------------------------------------------------------------------
  // Base URLs
  // ---------------------------------------------------------------------

  /** Why `normalize_root_base_url` refuses a URL. */
  datatype UrlError = NotAFullUrl

  /** The path of the root base: trailing slashes off, then one trailing `/wiki` off. */
  function RootPath(path: string): string
  {
    var p := RStripSlash(path);
    if EndsWith(p, "/wiki") then p[..|p| - 5] else p
  }

  lemma RootPathFits(netloc: string, path: string)
    requires PathFits(netloc, path)
    ensures PathFits(netloc, RootPath(path))
  {
    RStripFits(netloc, path);
    var p := RStripSlash(path);
    if EndsWith(p, "/wiki") {
      assert p[..|p| - 5] <= p;
    }
  }

  /**
   * The URL `normalize_root_base_url` returns, as its parts: the root path,
   * with the params kept; the final strip of trailing slashes reaches the
   * path only when there are no params.
   */
  function RootBase(u: Url): (r: Url)
    ensures r.scheme == u.scheme && r.netloc == u.netloc && r.params == u.params
  {
    RootPathFits(u.netloc, u.path);
    RStripFits(u.netloc, RootPath(u.path));
    WithPath(u, if u.params == "" then RStripSlash(RootPath(u.path)) else RootPath(u.path))
  }

  /**
   * `normalize_root_base_url`: refused unless both a scheme and a network
   * location are present; otherwise the URL with its path's trailing slashes
   * and one trailing `/wiki` removed, and trailing slashes stripped off the result.
   */
  function NormalizeRootBaseUrl(u: Url): (r: Result<string, UrlError>)
    ensures r.Failure? <==> u.scheme == "" || u.netloc == ""
    ensures r.Success? ==> r.value == Unparse(RootBase(u))
    ensures r.Success? ==> r.value[|r.value| - 1] != '/'
  {
    if u.scheme == "" || u.netloc == "" then Failure(NotAFullUrl)
    else
      NormalizedIsRootBase(u);
      Success(RStripSlash(Unparse(WithPath(u, RootPath(u.path)))))
  }

  /** Stripping the unparsed URL with the root path gives the unparsed root base. */
  lemma NormalizedIsRootBase(u: Url)
    requires u.netloc != ""
    ensures PathFits(u.netloc, RootPath(u.path))
    ensures RStripSlash(Unparse(WithPath(u, RootPath(u.path)))) == Unparse(RootBase(u))
    ensures var s := Unparse(RootBase(u)); s[|s| - 1] != '/'
  {
    RootPathFits(u.netloc, u.path);
    var v := WithPath(u, RootPath(u.path));
    RStripUnparse(v);
    if u.params == "" {
      assert RootBase(u) == WithPath(v, RStripSlash(v.path));
      UnparseEndsNoSlash(RootBase(u));
    } else {
      assert RootBase(u) == v;
    }
  }

  /** A URL whose path ends in no `/` unparses to a string that ends in none. */
  lemma UnparseEndsNoSlash(u: Url)
    requires u.netloc != "" && (u.path == [] || u.path[|u.path| - 1] != '/')
    ensures var s := Unparse(u); s[|s| - 1] != '/'
  {
    var a, p := Authority(u), PathPart(u);
    if p == [] {
      assert a + p == a;
    } else {
      assert (a + p)[|a + p| - 1] == p[|p| - 1];
    }
  }

  /** The path `ensure_wiki_suffix` gives: trailing slashes off, then `/wiki` unless already there. */
  function WikiPath(path: string): (p: string)
    ensures EndsWith(p, "/wiki")
  {
    var q := RStripSlash(path);
    if EndsWith(q, "/wiki") then q else q + "/wiki"
  }

  lemma WikiPathFits(netloc: string, path: string)
    requires PathFits(netloc, path)
    ensures PathFits(netloc, WikiPath(path))
  {
    RStripFits(netloc, path);
  }

  /** The URL `ensure_wiki_suffix` returns, as its parts. */
  function WikiBase(u: Url): (r: Url)
    ensures r.scheme == u.scheme && r.netloc == u.netloc && r.params == u.params && EndsWith(r.path, "/wiki")
  {
    WikiPathFits(u.netloc, u.path);
    WithPath(u, WikiPath(u.path))
  }

  /**
   * `ensure_wiki_suffix` on a parsed URL with a network location: the URL
   * with the suffixed path (the final strip removes nothing). It ends in
   * `/wiki`, or in `/wiki;` and the params when there are params.
   */
  function EnsureWikiSuffix(u: Url): (s: string)
    requires u.netloc != ""
    ensures s == Unparse(WikiBase(u))
    ensures u.params == "" ==> EndsWith(s, "/wiki")
    ensures u.params != "" ==> EndsWith(s, "/wiki;" + u.params)
  {
    var v := WikiBase(u);
    RStripUnparse(v);
    WikiEndsNoSlash(v.path);
    WikiBaseEnds(u);
    RStripSlash(Unparse(v))
  }

  /** How the unparsed wiki base ends, with and without params. */
  lemma WikiBaseEnds(u: Url)
    requires u.netloc != ""
    ensures u.params == "" ==> EndsWith(Unparse(WikiBase(u)), "/wiki")
    ensures u.params != "" ==> EndsWith(Unparse(WikiBase(u)), "/wiki;" + u.params)
  {
    var v := WikiBase(u);
    if u.params == "" {
      EndsWithAppend(Authority(v), v.path, "/wiki");
    } else {
      assert PathPart(v) == v.path + (";" + v.params);
      EndsWithBoth(v.path, ";" + v.params, "/wiki");
      WikiParamsSuffix(v.params);
      EndsWithAppend(Authority(v), PathPart(v), "/wiki;" + u.params);
    }
  }

  lemma WikiParamsSuffix(params: string)
    ensures "/wiki" + (";" + params) == "/wiki;" + params
  {
    assert "/wiki;" == "/wiki" + ";";
  }

  lemma WikiEndsNoSlash(p: string)
    requires EndsWith(p, "/wiki")
    ensures RStripSlash(p) == p
  {
    assert p[|p| - 1] == "/wiki"[4];
  }

  lemma EndsWithAppend(a: string, b: string, suffix: string)
    requires EndsWith(b, suffix)
    ensures EndsWith(a + b, suffix)
  {
    assert (a + b)[|a + b| - |suffix|..] == b[|b| - |suffix|..];
  }

  lemma EndsWithBoth(a: string, b: string, suffix: string)
    requires EndsWith(a, suffix)
    ensures EndsWith(a + b, suffix + b)
  {
    assert (a + b)[|a + b| - |suffix + b|..] == a[|a| - |suffix|..] + b;
  }

  /** Trailing slashes on the way in make no difference to either transform. */
  lemma {:induction false} TrailingSlashIgnored(path: string)
    ensures RootPath(path + "/") == RootPath(path)
    ensures WikiPath(path + "/") == WikiPath(path)
  {
    assert (path + "/")[..|path + "/"| - 1] == path;
  }

  /** `ensure_wiki_suffix` is idempotent. */
  lemma EnsureWikiSuffixIdempotent(u: Url)
    requires u.netloc != ""
    ensures WikiBase(WikiBase(u)) == WikiBase(u)
    ensures EnsureWikiSuffix(WikiBase(u)) == EnsureWikiSuffix(u)
  {
    var p := WikiPath(u.path);
    assert p[|p| - 1] == 'i';
    assert RStripSlash(p) == p;
  }

  /**
   * At most one `/wiki` is removed: `/wiki/wiki` keeps one, and then the
   * root base itself still ends in `/wiki`.
   */
  lemma RootPathStripsOnce()
    ensures RootPath("/wiki/wiki/") == "/wiki"
    ensures RootPath("/wiki") == ""
    ensures RootPath("/a//wiki") == "/a/"
  {
    var p := "/wiki/wiki/";
    assert p[..|p| - 1] == "/wiki/wiki";
    assert RStripSlash("/wiki/wiki") == "/wiki/wiki";
    assert "/wiki/wiki"[10 - 5..] == "/wiki";
    assert "/wiki/wiki"[..10 - 5] == "/wiki";
    assert RStripSlash("/wiki") == "/wiki";
    assert "/wiki"[..0] == "";
    assert RStripSlash("/a//wiki") == "/a//wiki";
    assert "/a//wiki"[8 - 5..] == "/wiki";
    assert "/a//wiki"[..8 - 5] == "/a/";
  }

  /**
   * The two transforms undo each other: adding the suffix back to a root base
   * gives the original path with its slashes stripped, when that path ended
   * in a single `/wiki`, and that path plus `/wiki` when it did not end in
   * `/wiki` at all (and had no `/` before its own end).
   */
  lemma WikiAfterRoot(path: string)
    ensures var p := RStripSlash(path);
            (EndsWith(p, "/wiki") && !EndsWith(p[..|p| - 5], "/wiki") && RStripSlash(p[..|p| - 5]) == p[..|p| - 5])
              ==> WikiPath(RStripSlash(RootPath(path))) == p
    ensures var p := RStripSlash(path);
            !EndsWith(p, "/wiki") ==> WikiPath(RStripSlash(RootPath(path))) == p + "/wiki"
  {
    var p := RStripSlash(path);
    assert RStripSlash(p) == p;
    if EndsWith(p, "/wiki") {
      var q := p[..|p| - 5];
      if !EndsWith(q, "/wiki") && RStripSlash(q) == q {
        assert q + "/wiki" == p;
      }
    }
  }

  // ---------------------------------------------------------------------
  // Configuration
  // ---------------------------------------------------------------------

  /** The Confluence connection settings. */
  datatype ConfluenceConfig = ConfluenceConfig(baseUrl: string, email: string, apiToken: string, rootBase: string)

  /**
   * `parse_confluence_config`: the root base is the normalised URL, and the
   * base URL is `ensure_wiki_suffix` of the root base string, which parses
   * that string again.
   */
  function ParseConfluenceConfig(u: Url, email: string, apiToken: string): (r: Result<ConfluenceConfig, UrlError>)
    ensures r.Failure? <==> u.scheme == "" || u.netloc == ""
    ensures r.Success? ==> r.value.email == email && r.value.apiToken == apiToken
    ensures r.Success? ==> Success(r.value.rootBase) == NormalizeRootBaseUrl(u)
    ensures r.Success? ==> r.value.baseUrl == EnsureWikiSuffix(Reparse(RootBase(u)))
  {
    match NormalizeRootBaseUrl(u)
    case Failure(e) => Failure(e)
    case Success(root) => Success(ConfluenceConfig(EnsureWikiSuffix(Reparse(RootBase(u))), email, apiToken, root))
  }

  /**
   * When the URL has no params and the root path's last segment holds no `;`
   * (or the scheme splits no params), parsing the root base again gives its
   * parts back, so the base URL is the root base plus `/wiki`, unless the
   * root base already ends in `/wiki` (input path `/wiki/wiki`), when the
   * two are equal.
   */
  lemma ConfigBaseIsRootPlusWiki(u: Url, email: string, apiToken: string)
    requires u.scheme != "" && u.netloc != "" && u.params == ""
    requires var p := RootBase(u).path; u.scheme !in UsesParams || ';' !in p[SegmentStart(p)..]
    ensures var c := ParseConfluenceConfig(u, email, apiToken).value;
            !EndsWith(RootBase(u).path, "/wiki") ==> c.baseUrl == c.rootBase + "/wiki"
    ensures var c := ParseConfluenceConfig(u, email, apiToken).value;
            EndsWith(RootBase(u).path, "/wiki") ==> c.baseUrl == c.rootBase
  {
    var r := RootBase(u);
    ReparseUnsplit(r);
    assert RStripSlash(r.path) == r.path by {
      RStripNoSlash(r.path);
    }
    WikiBaseUnparse(r);
  }

  /** A configured URL whose root path ends in a segment holding a `;`. */
  const SemicolonUrl: Url := UrlParts("https", "x", "/a;b/wiki", "")

  /**
   * A `;` in the last segment of the root path moves when the root base is
   * parsed again: for `https://x/a;b/wiki` the root base is
   * `https://x/a;b` but the base URL is
   * `https://x/a/wiki;b`, not the root base plus `/wiki`.
   */
  lemma SemicolonSegmentMovesToParams()
    ensures ParseConfluenceConfig(SemicolonUrl, "e", "t")
         == Success(ConfluenceConfig("https://x/a/wiki;b", "e", "t", "https://x/a;b"))
  {
    var r := RootBase(SemicolonUrl);
    SemicolonRootBase();
    assert Unparse(r) == "https://x/a;b";
    SemicolonReparse();
    var v := Reparse(r);
    SemicolonWikiBase(v);
  }

  lemma SemicolonRootBase()
    ensures RootBase(SemicolonUrl) == UrlParts("https", "x", "/a;b", "")
  {
    RStripNoSlash("/a;b/wiki");
    assert "/a;b/wiki"[9 - 5..] == "/wiki";
    assert "/a;b/wiki"[..9 - 5] == "/a;b";
    RStripNoSlash("/a;b");
  }

  lemma SemicolonReparse()
    ensures SplitParams("https", "/a;b") == ("/a", "b")
  {
    assert SegmentStart("/a;b") == 1 by {
      assert SegmentStart("/") == 1;
      assert "/a"[..1] == "/";
      assert SegmentStart("/a") == 1;
      assert "/a;"[..2] == "/a";
      assert SegmentStart("/a;") == 1;
      assert "/a;b"[..3] == "/a;";
    }
    assert "https" in UsesParams;
    assert "/a;b"[1..] == "a;b";
    assert ';' in "a;b";
    assert IndexOf("a;b", ';') == 1;
    assert "/a;b"[..2] == "/a" && "/a;b"[3..] == "b";
  }

  lemma SemicolonWikiBase(v: Url)
    requires v == UrlParts("https", "x", "/a", "b")
    ensures EnsureWikiSuffix(v) == "https://x/a/wiki;b"
  {
    assert WikiPath("/a") == "/a/wiki" by {
      RStripNoSlash("/a");
    }
    SemicolonWikiUnparse(WikiBase(v));
  }

  lemma SemicolonWikiUnparse(w: Url)
    requires w == UrlParts("https", "x", "/a/wiki", "b")
    ensures Unparse(w) == "https://x/a/wiki;b"
  {
    assert Authority(w) == "https://x";
    assert PathPart(w) == "/a/wiki;b";
  }

  /** With no params and no `;` to split off, parsing the unparsed URL gives it back. */
  lemma ReparseUnsplit(r: Url)
    requires r.netloc != "" && r.params == ""
    requires r.scheme !in UsesParams || ';' !in r.path[SegmentStart(r.path)..]
    ensures Reparse(r) == r
  {
    assert PathPart(r) == r.path;
    assert SplitParams(r.scheme, r.path) == (r.path, "");
  }

  lemma RStripNoSlash(s: string)
    requires s == [] || s[|s| - 1] != '/'
    ensures RStripSlash(s) == s
  {
  }

  /** With no params and no trailing slash, the wiki base is the URL plus `/wiki` unless it ends in it. */
  lemma WikiBaseUnparse(r: Url)
    requires r.netloc != "" && r.params == "" && RStripSlash(r.path) == r.path
    ensures !EndsWith(r.path, "/wiki") ==> EnsureWikiSuffix(r) == Unparse(r) + "/wiki"
    ensures EndsWith(r.path, "/wiki") ==> EnsureWikiSuffix(r) == Unparse(r)
  {
    var a := Authority(r);
    WikiUnparseNoParams(r);
    assert Unparse(r) == a + r.path by {
      assert PathPart(r) == r.path;
    }
    if !EndsWith(r.path, "/wiki") {
      AppendAssoc(a, r.path, "/wiki");
    }
  }

  lemma AppendAssoc(a: string, b: string, c: string)
    ensures a + (b + c) == (a + b) + c
  {
  }

  lemma WikiUnparseNoParams(r: Url)
    requires r.netloc != "" && r.params == "" && RStripSlash(r.path) == r.path
    ensures EnsureWikiSuffix(r) == Authority(r) + (if EndsWith(r.path, "/wiki") then r.path else r.path + "/wiki")
  {
    var v := WikiBase(r);
    assert Authority(v) == Authority(r) && PathPart(v) == v.path;
  }

  // ---------------------------------------------------------------------
  // Jira keys: `/browse/([A-Z][A-Z0-9]+-\d+)`, ignoring case
  // ---------------------------------------------------------------------

  /**
   * Where a Jira key that follows `/browse/` at `p` ends, if one does. The
   * letter-and-digit run is greedy and must be followed by `-`, so no
   * shorter run can succeed where the longest fails.
   */
  function JiraKeyEnd(s: string, p: nat): (e: Option<nat>)
    requires p <= |s|
    ensures e.Some? ==> p + 12 <= e.value <= |s|
    ensures e.Some? ==> e.value == |s| || !IsDigit(s[e.value])
  {
    if FoldedLiteralAt(s, p, "/browse/") && p + 8 < |s| && IsAsciiLetter(s[p + 8]) then
      var r := RunEnd(s, p + 9, IsAsciiAlnum);
      if r > p + 9 && r + 1 < |s| && s[r] == '-' && IsDigit(s[r + 1]) then Some(RunEnd(s, r + 1, IsDigit))
      else None
    else None
  }

  /** A Jira issue URL: the pattern matches somewhere (`bool(re.search(...))`). */
  predicate IsJiraIssueUrl(url: string)
  {
    exists p :: 0 <= p <= |url| && JiraKeyEnd(url, p).Some?
  }

  /** The leftmost position from `p` to `n` where `hit` holds: what a regex search does with its start position. */
  function Leftmost(n: nat, p: nat, hit: nat -> bool): (r: Option<nat>)
    requires p <= n
    ensures r.Some? ==> p <= r.value <= n && hit(r.value)
    ensures r.Some? ==> forall q :: p <= q < r.value ==> !hit(q)
    ensures r.None? ==> forall q :: p <= q <= n ==> !hit(q)
    decreases n - p
  {
    if hit(p) then Some(p)
    else if p < n then Leftmost(n, p + 1, hit)
    else None
  }

  /** The leftmost position from `p` on where a key follows `/browse/`. */
  function JiraSearch(s: string, p: nat): (r: Option<nat>)
    requires p <= |s|
    ensures r.Some? ==> p <= r.value <= |s| && JiraKeyEnd(s, r.value).Some?
    ensures r.Some? ==> forall q :: p <= q < r.value ==> JiraKeyEnd(s, q).None?
    ensures r.None? ==> forall q :: p <= q <= |s| ==> JiraKeyEnd(s, q).None?
  {
    var hit := (q: nat) => q <= |s| && JiraKeyEnd(s, q).Some?;
    assert forall q: nat :: q <= |s| ==> (hit(q) <==> JiraKeyEnd(s, q).Some?);
    Leftmost(|s|, p, hit)
  }

  /** `extract_jira_key`: the group of the leftmost match, upper-cased. */
  function ExtractJiraKey(url: string): (k: Option<string>)
  {
    match JiraSearch(url, 0)
    case None => None
    case Some(p) => Some(UpperString(url[p + 8..JiraKeyEnd(url, p).value]))
  }

  /** The form of a key: a letter, letters or digits, `-`, digits. */
  predicate IsJiraKey(k: string)
  {
    exists r :: 2 <= r < |k| - 1 && IsAsciiUpper(k[0])
                && (forall i :: 1 <= i < r ==> IsAsciiUpper(k[i]) || IsDigit(k[i]))
                && k[r] == '-' && (forall i :: r < i < |k| ==> IsDigit(k[i]))
  }

  /** `is_jira_issue_url(u)` holds exactly when `extract_jira_key(u)` finds a key. */
  lemma IsJiraIssueUrlIffKey(url: string)
    ensures IsJiraIssueUrl(url) <==> ExtractJiraKey(url).Some?
  {
    if IsJiraIssueUrl(url) {
      var p :| 0 <= p <= |url| && JiraKeyEnd(url, p).Some?;
      assert JiraSearch(url, 0).Some?;
    }
    if ExtractJiraKey(url).Some? {
      var p := JiraSearch(url, 0).value;
      assert JiraKeyEnd(url, p).Some?;
    }
  }

  /**
   * An extracted key is upper case and of the key form, and it is what
   * follows the leftmost `/browse/` (any case) that a key follows.
   */
  lemma ExtractedKeyShape(url: string)
    ensures ExtractJiraKey(url).Some? ==>
              var p := JiraSearch(url, 0).value;
              var k := ExtractJiraKey(url).value;
              IsJiraKey(k) && FoldedLiteralAt(url, p, "/browse/") && p + 8 + |k| <= |url|
              && k == UpperString(url[p + 8..p + 8 + |k|])
              && (p + 8 + |k| == |url| || !IsDigit(url[p + 8 + |k|]))
              && forall q :: 0 <= q < p ==> JiraKeyEnd(url, q).None?
  {
    if ExtractJiraKey(url).Some? {
      var p := JiraSearch(url, 0).value;
      KeyAtIsJiraKey(url, p);
    }
  }

  /** The upper-cased group of a match at `p` has the key form. */
  lemma KeyAtIsJiraKey(url: string, p: nat)
    requires p <= |url| && JiraKeyEnd(url, p).Some?
    ensures IsJiraKey(UpperString(url[p + 8..JiraKeyEnd(url, p).value]))
  {
    var e := JiraKeyEnd(url, p).value;
    var g := url[p + 8..e];
    var k := UpperString(g);
    var r := RunEnd(url, p + 9, IsAsciiAlnum);
    var j := r - (p + 8);
    assert k[0] == Upper(url[p + 8]);
    forall i | 1 <= i < j ensures IsAsciiUpper(k[i]) || IsDigit(k[i]) {
      assert k[i] == Upper(url[p + 8 + i]);
    }
    assert k[j] == Upper(url[r]);
    forall i | j < i < |k| ensures IsDigit(k[i]) {
      assert k[i] == Upper(url[p + 8 + i]);
    }
  }

  // ---------------------------------------------------------------------
  // Confluence page ids
  // ---------------------------------------------------------------------

  /** Where the captured digits lie. */
  datatype Span = Span(start: nat, end: nat)

  /** `s[start..end]` is a whole run of digits: no digit just before it or just after it. */
  predicate MaximalDigits(s: string, start: nat, end: nat)
  {
    0 < start < end <= |s| && AllDigits(s[start..end]) && !IsDigit(s[start - 1]) && (end == |s| || !IsDigit(s[end]))
  }

  /** The two patterns without a gap: `[?&]pageId=(\d+)` and `/pages/(\d+)(?:/|$)`. */
  datatype IdPattern = QueryId | SegmentId

  /** `$` without MULTILINE: the end, or just before a final line feed. */
  predicate SegmentClosed(s: string, e: nat)
  {
    e == |s| || (e < |s| && s[e] == '/') || (e == |s| - 1 && s[e] == '\n')
  }

  function IdAt(pat: IdPattern, s: string, p: nat): (m: Option<Span>)
    requires p <= |s|
    ensures m.Some? ==> p < m.value.start && MaximalDigits(s, m.value.start, m.value.end)
  {
    match pat
    case QueryId =>
      if p < |s| && (s[p] == '?' || s[p] == '&') && LiteralAt(s, p + 1, "pageId=") && p + 8 < |s| && IsDigit(s[p + 8]) then
        Some(Span(p + 8, RunEnd(s, p + 8, IsDigit)))
      else None
    case SegmentId =>
      if LiteralAt(s, p, "/pages/") && p + 7 < |s| && IsDigit(s[p + 7]) && SegmentClosed(s, RunEnd(s, p + 7, IsDigit)) then
        Some(Span(p + 7, RunEnd(s, p + 7, IsDigit)))
      else None
  }

  /** A lazy `.*?` from `d` followed by `pat`: the first position on the line where `pat` matches. */
  function LazyIdFrom(pat: IdPattern, s: string, d: nat): (m: Option<(nat, Span)>)
    requires d <= |s|
    ensures m.Some? ==> d <= m.value.0 <= |s| && IdAt(pat, s, m.value.0) == Some(m.value.1)
    decreases |s| - d
  {
    if IdAt(pat, s, d).Some? then Some((d, IdAt(pat, s, d).value))
    else if d < |s| && s[d] != '\n' then LazyIdFrom(pat, s, d + 1)
    else None
  }

  /** The four patterns of `extract_confluence_page_id`. */
  datatype PagePattern =
    | PageIdQuery       // [?&]pageId=(\d+)
    | PagesSegment      // /pages/(\d+)(?:/|$)
    | ViewPageAction    // /pages/viewpage\.action.*?[?&]pageId=(\d+)
    | SpacesPages       // /spaces/.+?/pages/(\d+)(?:/|$)

  const PagePatterns: seq<PagePattern> := [PageIdQuery, PagesSegment, ViewPageAction, SpacesPages]

  /** The captured digits of `pat` matched at exactly `p`. */
  function PageMatchAt(pat: PagePattern, s: string, p: nat): (m: Option<Span>)
    requires p <= |s|
    ensures m.Some? ==> MaximalDigits(s, m.value.start, m.value.end)
  {
    match pat
    case PageIdQuery => IdAt(QueryId, s, p)
    case PagesSegment => IdAt(SegmentId, s, p)
    case ViewPageAction =>
      if LiteralAt(s, p, "/pages/viewpage.action") then
        match LazyIdFrom(QueryId, s, p + 22)
        case Some(m) => Some(m.1)
        case None => None
      else None
    case SpacesPages =>
      if LiteralAt(s, p, "/spaces/") && p + 8 < |s| && s[p + 8] != '\n' then
        match LazyIdFrom(SegmentId, s, p + 9)
        case Some(m) => Some(m.1)
        case None => None
      else None
  }

  /** `re.search`: the leftmost position from `p` on where `pat` matches, and its group. */
  function PageSearch(pat: PagePattern, s: string, p: nat): (r: Option<(nat, Span)>)
    requires p <= |s|
    ensures r.Some? ==> p <= r.value.0 <= |s| && PageMatchAt(pat, s, r.value.0) == Some(r.value.1)
    ensures r.Some? ==> forall q :: p <= q < r.value.0 ==> PageMatchAt(pat, s, q).None?
    ensures r.None? ==> forall q :: p <= q <= |s| ==> PageMatchAt(pat, s, q).None?
    decreases |s| - p
  {
    if PageMatchAt(pat, s, p).Some? then Some((p, PageMatchAt(pat, s, p).value))
    else if p < |s| then PageSearch(pat, s, p + 1)
    else None
  }

  /** The loop over the patterns: the first with a match returns its group. */
  function FirstPageId(pats: seq<PagePattern>, url: string): (id: Option<string>)
    ensures id.Some? ==> |id.value| >= 1 && AllDigits(id.value)
    ensures id.Some? ==> exists start: nat, end: nat :: MaximalDigits(url, start, end) && id.value == url[start..end]
  {
    if |pats| == 0 then None
    else
      match PageSearch(pats[0], url, 0)
      case Some(m) => Some(url[m.1.start..m.1.end])
      case None => FirstPageId(pats[1..], url)
  }

  /** `extract_confluence_page_id`. */
  function ExtractConfluencePageId(url: string): (id: Option<string>)
    ensures id.Some? ==> |id.value| >= 1 && AllDigits(id.value)
    ensures id.Some? ==> exists start: nat, end: nat :: MaximalDigits(url, start, end) && id.value == url[start..end]
  {
    FirstPageId(PagePatterns, url)
  }

  /** The `viewpage.action` pattern never decides: where it matches, `[?&]pageId=` matches too. */
  lemma ViewPageActionImpliesQuery(s: string)
    ensures PageSearch(ViewPageAction, s, 0).Some? ==> PageSearch(PageIdQuery, s, 0).Some?
  {
    if PageSearch(ViewPageAction, s, 0).Some? {
      var p := PageSearch(ViewPageAction, s, 0).value.0;
      var q := LazyIdFrom(QueryId, s, p + 22).value.0;
      assert PageMatchAt(PageIdQuery, s, q).Some?;
    }
  }

  /** The `/spaces/` pattern never decides: where it matches, the `/pages/<digits>` pattern matches too. */
  lemma SpacesPagesImpliesSegment(s: string)
    ensures PageSearch(SpacesPages, s, 0).Some? ==> PageSearch(PagesSegment, s, 0).Some?
  {
    if PageSearch(SpacesPages, s, 0).Some? {
      var p := PageSearch(SpacesPages, s, 0).value.0;
      var q := LazyIdFrom(SegmentId, s, p + 9).value.0;
      assert PageMatchAt(PagesSegment, s, q).Some?;
    }
  }

  /** The group of the leftmost match of `pat`. */
  function SearchGroup(pat: PagePattern, url: string): string
    requires PageSearch(pat, url, 0).Some?
  {
    var m := PageSearch(pat, url, 0).value.1;
    url[m.start..m.end]
  }

  /**
   * First match wins: a `pageId=` query parameter beats a `/pages/<digits>`
   * segment, and only these two patterns can ever decide.
   */
  lemma PageIdPriority(url: string)
    ensures PageSearch(PageIdQuery, url, 0).Some? ==>
              ExtractConfluencePageId(url) == Some(SearchGroup(PageIdQuery, url))
    ensures PageSearch(PageIdQuery, url, 0).None? && PageSearch(PagesSegment, url, 0).Some? ==>
              ExtractConfluencePageId(url) == Some(SearchGroup(PagesSegment, url))
    ensures ExtractConfluencePageId(url).None? <==>
              PageSearch(PageIdQuery, url, 0).None? && PageSearch(PagesSegment, url, 0).None?
  {
    var ps := PagePatterns;
    assert ps[1..] == [PagesSegment, ViewPageAction, SpacesPages];
    assert ps[1..][1..] == [ViewPageAction, SpacesPages];
    assert ps[1..][1..][1..] == [SpacesPages];
    assert ps[1..][1..][1..][1..] == [];
    ViewPageActionImpliesQuery(url);
    SpacesPagesImpliesSegment(url);
    assert FirstPageId(ps[1..][1..][1..][1..], url) == None;
    assert PageSearch(PageIdQuery, url, 0).None? ==> ExtractConfluencePageId(url) == FirstPageId(ps[1..], url);
    assert PageSearch(PagesSegment, url, 0).None? ==> FirstPageId(ps[1..], url) == FirstPageId(ps[1..][1..], url);
  }

  // ---------------------------------------------------------------------
  // HTML conversion without markdownify: `re.sub(r"<\/?[^>]+>", "", html)`
  // ---------------------------------------------------------------------

  /**
   * Where a tag that starts at `p` ends. `<` and at least one character that
   * is not `>` (an optional `/` is such a character), then the first `>`; so
   * a tag is `<` up to the first `>` after it, when that `>` is not right after `<`.
   */
  function TagEnd(s: string, p: nat): (e: Option<nat>)
    requires p <= |s|
    ensures e.Some? ==> p + 3 <= e.value <= |s| && s[p] == '<' && s[e.value - 1] == '>'
    ensures e.Some? ==> forall k :: p < k < e.value - 1 ==> s[k] != '>'
  {
    if p < |s| && s[p] == '<' && '>' in s[p + 1..] then
      var r := p + 1 + IndexOf(s[p + 1..], '>');
      assert forall k :: p < k < r ==> s[k] == s[p + 1..][k - p - 1];
      if r >= p + 2 then Some(r + 1) else None
    else None
  }

  /** Whether any tag starts anywhere in `s`. */
  predicate HasTag(s: string)
  {
    exists p :: 0 <= p <= |s| && TagEnd(s, p).Some?
  }

  /** `re.sub` of the tag pattern with "": scan left to right, dropping each tag found. */
  function StripTags(s: string): (r: string)
    ensures |r| <= |s|
    ensures forall c :: c in r ==> c in s
    decreases |s|
  {
    if |s| == 0 then ""
    else match TagEnd(s, 0)
      case Some(e) => StripTags(s[e..])
      case None => [s[0]] + StripTags(s[1..])
  }

  /** `convert_html_to_markdown` when markdownify is not installed. */
  function ConvertHtmlFallback(html: string): (md: string)
    ensures html == "" ==> md == ""
  {
    if html == "" then "" else StripTags(html)
  }

  /** A string that starts with a character other than `<` keeps it at the front. */
  lemma StripTagsKeepsFirst(s: string)
    requires |s| > 0 && s[0] != '<'
    ensures |StripTags(s)| > 0 && StripTags(s)[0] == s[0]
  {
  }

  /** No tag is left: every `<` that remains has no `>` after it, or `>` right after it. */
  lemma {:induction false} StripTagsLeavesNoTag(s: string)
    ensures !HasTag(StripTags(s))
    decreases |s|
  {
    if |s| > 0 {
      match TagEnd(s, 0)
      case Some(e) => StripTagsLeavesNoTag(s[e..]);
      case None =>
        var rest := StripTags(s[1..]);
        StripTagsLeavesNoTag(s[1..]);
        var r := [s[0]] + rest;
        assert StripTags(s) == r;
        forall p | 0 <= p <= |r| ensures TagEnd(r, p).None? {
          if 0 < p {
            assert r[p..] == rest[p - 1..];
            TagEndShift(r, p);
          } else if s[0] == '<' {
            if '>' in s[1..] {
              var i := IndexOf(s[1..], '>');
              assert i == 0;
              StripTagsKeepsFirst(s[1..]);
              assert r[1] == '>';
              assert r[1..][0] == '>';
            } else {
              assert '>' !in rest;
              assert r[1..] == rest;
            }
          }
        }
    }
  }

  /** A tag at `p > 0` of `r` is a tag at `p - 1` of `r[1..]`, one position on. */
  lemma TagEndShift(r: string, p: nat)
    requires 0 < p <= |r|
    ensures TagEnd(r, p).Some? <==> TagEnd(r[1..], p - 1).Some?
    ensures TagEnd(r, p).Some? ==> TagEnd(r[1..], p - 1) == Some(TagEnd(r, p).value - 1)
  {
    if p < |r| {
      assert r[p + 1..] == r[1..][p..];
      assert r[p] == r[1..][p - 1];
    }
  }

  /** No tag starts in `s` before position `p`. */
  predicate NoTagBefore(s: string, p: nat)
    requires p <= |s|
  {
    forall q :: 0 <= q < p ==> TagEnd(s, q).None?
  }

  /**
   * The text before the first tag is kept as it is, the tag is dropped, and
   * stripping goes on after it: with no tag starting before `p` and a tag
   * from `p` to `e`, the result is `s[..p]` followed by the stripped `s[e..]`.
   */
  lemma {:induction false} StripTagsAtFirstTag(s: string, p: nat, e: nat)
    requires p <= |s| && TagEnd(s, p) == Some(e) && NoTagBefore(s, p)
    ensures StripTags(s) == s[..p] + StripTags(s[e..])
    decreases p, 1
  {
    var rest := StripTags(s[e..]);
    if p == 0 {
      assert s[..p] + rest == rest;
    } else {
      StripTagsAfterFirst(s, p, e);
      assert TagEnd(s, 0).None?;
      StripTagsCons(s, p, rest);
    }
  }

  /** The induction step of `StripTagsAtFirstTag`: the same decomposition one character on. */
  lemma {:induction false} StripTagsAfterFirst(s: string, p: nat, e: nat)
    requires 0 < p <= |s| && TagEnd(s, p) == Some(e) && NoTagBefore(s, p)
    ensures StripTags(s[1..]) == s[1..][..p - 1] + StripTags(s[e..])
    decreases p, 0
  {
    var t := s[1..];
    NoTagBeforeShift(s, p);
    TagEndShift(s, p);
    StripTagsAtFirstTag(t, p - 1, e - 1);
    assert t[e - 1..] == s[e..];
  }

  /** A first character that opens no tag is kept in front of what the rest strips to. */
  lemma StripTagsCons(s: string, p: nat, rest: string)
    requires 0 < p <= |s| && TagEnd(s, 0).None?
    requires StripTags(s[1..]) == s[1..][..p - 1] + rest
    ensures StripTags(s) == s[..p] + rest
  {
    var t := s[1..];
    calc {
      StripTags(s);
      [s[0]] + StripTags(t);
      [s[0]] + (t[..p - 1] + rest);
      { AppendAssoc([s[0]], t[..p - 1], rest); }
      ([s[0]] + t[..p - 1]) + rest;
      { PrefixCons(s, p); }
      s[..p] + rest;
    }
  }

  lemma PrefixCons(s: string, p: nat)
    requires 0 < p <= |s|
    ensures s[..p] == [s[0]] + s[1..][..p - 1]
  {
  }

  /** No tag before `p` in `s` means no tag before `p - 1` in `s[1..]`. */
  lemma NoTagBeforeShift(s: string, p: nat)
    requires 0 < p <= |s| && NoTagBefore(s, p)
    ensures NoTagBefore(s[1..], p - 1)
  {
    forall q | 0 <= q < p - 1 ensures TagEnd(s[1..], q).None? {
      TagEndShift(s, q + 1);
    }
  }

  /** The example of the pattern: `a<b>c` becomes `ac`. */
  lemma StripTagsExample()
    ensures StripTags("a<b>c") == "ac"
  {
    var s := "a<b>c";
    assert TagEnd(s, 0).None?;
    assert s[2..] == "b>c" && IndexOf(s[2..], '>') == 1;
    StripTagsAtFirstTag(s, 1, 4);
    assert s[4..] == "c";
    NoTagUnchanged("c");
  }

  /** Stripping is idempotent: a second pass changes nothing. */
  lemma StripTagsIdempotent(s: string)
    ensures StripTags(StripTags(s)) == StripTags(s)
  {
    StripTagsLeavesNoTag(s);
    NoTagUnchanged(StripTags(s));
  }

  /** Text with no tag in it passes through unchanged. */
  lemma {:induction false} NoTagUnchanged(s: string)
    requires !HasTag(s)
    ensures StripTags(s) == s
    decreases |s|
  {
    if |s| > 0 {
      assert TagEnd(s, 0).None?;
      forall p | 0 <= p <= |s| - 1 ensures TagEnd(s[1..], p).None? {
        assert TagEnd(s, p + 1).None?;
        TagEndShift(s, p + 1);
      }
      NoTagUnchanged(s[1..]);
    }
  }
}
