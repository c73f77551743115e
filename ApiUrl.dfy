/** The optional value of a build-time setting that may be absent. */
module Wrappers {

  datatype Option<+T> = None | Some(value: T)
}

/**
  Model of `getApiUrl` in frontend/src/utils/api.js: the frontend's utility
  function that joins the build-time API base URL (`VITE_API_URL`, possibly unset) with an
  endpoint path. The base loses one trailing `/`, the endpoint gains a leading
  `/` when it lacks one, and the two are concatenated unless the cleaned base
  is empty.

  Strings are plain character sequences: nothing here parses or validates URLs.
*/
module Api {
  import opened Wrappers

  predicate StartsWithSlash(s: string) {
    |s| > 0 && s[0] == '/'
  }

  predicate EndsWithSlash(s: string) {
    |s| > 0 && s[|s| - 1] == '/'
  }

  predicate EndsWithDoubleSlash(s: string) {
    |s| >= 2 && s[|s| - 2] == '/' && s[|s| - 1] == '/'
  }

  /** `s` holds two adjacent slashes somewhere. */
  predicate HasDoubleSlash(s: string) {
    exists i :: 0 <= i < |s| - 1 && s[i] == '/' && s[i + 1] == '/'
  }

  /**
    The configured base URL: an unset variable reads as the empty string, as
    JavaScript's `||` does with `undefined`. The result is empty exactly when
    the variable is unset or set to the empty string.
  */
  function BaseUrl(env: Option<string>): (b: string)
    ensures b == "" <==> (env == None || env == Some(""))
    ensures b != "" ==> env == Some(b)
  {
    match env
    case None => ""
    case Some(v) => v
  }

  /** The base with one trailing slash removed, if it has one. */
  function CleanBase(base: string): (r: string)
    ensures EndsWithSlash(base) ==> r + "/" == base
    ensures !EndsWithSlash(base) ==> r == base
  {
    if EndsWithSlash(base) then base[..|base| - 1] else base
  }

  /** The endpoint with a leading slash, added only when it lacks one. */
  function CleanEndpoint(endpoint: string): (r: string)
    ensures StartsWithSlash(r)
    ensures StartsWithSlash(endpoint) ==> r == endpoint
    ensures !StartsWithSlash(endpoint) ==> r[1..] == endpoint
  {
    if StartsWithSlash(endpoint) then endpoint else "/" + endpoint
  }

  /**
    The API URL for `endpoint`: the cleaned base followed by
    the cleaned endpoint, or the cleaned endpoint alone when the cleaned base
    is empty. The result starts with the cleaned base, has a `/` right after
    it, ends with the endpoint exactly as given, and is one character longer
    than base and endpoint together only when the slash had to be inserted.
  */
  function GetApiUrl(env: Option<string>, endpoint: string): (r: string)
    ensures |r| == |CleanBase(BaseUrl(env))| + |endpoint| + (if StartsWithSlash(endpoint) then 0 else 1)
    ensures r[..|CleanBase(BaseUrl(env))|] == CleanBase(BaseUrl(env))
    ensures r[|CleanBase(BaseUrl(env))|] == '/'
    ensures r[|r| - |endpoint|..] == endpoint
  {
    var cleanBase := CleanBase(BaseUrl(env));
    var cleanEndpoint := CleanEndpoint(endpoint);
    if cleanBase != "" then cleanBase + cleanEndpoint else cleanEndpoint
  }

  /** The endpoint with one leading slash removed, if it has one. */
  function TrimLeadingSlash(endpoint: string): (r: string)
    ensures StartsWithSlash(endpoint) ==> "/" + r == endpoint
    ensures !StartsWithSlash(endpoint) ==> r == endpoint
  {
    if StartsWithSlash(endpoint) then endpoint[1..] else endpoint
  }

  // ---------------------------------------------------------------------------
  // Properties of the base and the endpoint
  // ---------------------------------------------------------------------------

  /** An unset base and an empty base give the same URL: the bare cleaned endpoint. */
  lemma MissingOrEmptyBase(endpoint: string)
    ensures GetApiUrl(None, endpoint) == GetApiUrl(Some(""), endpoint) == CleanEndpoint(endpoint)
    ensures StartsWithSlash(GetApiUrl(None, endpoint))
  {
  }

  /** A base of exactly "/" cleans to the empty string, so it adds no prefix either. */
  lemma SlashOnlyBase(endpoint: string)
    ensures CleanBase("/") == ""
    ensures GetApiUrl(Some("/"), endpoint) == CleanEndpoint(endpoint)
  {
  }

  /** Adding the leading slash a second time changes nothing. */
  lemma CleanEndpointIdempotent(endpoint: string)
    ensures CleanEndpoint(CleanEndpoint(endpoint)) == CleanEndpoint(endpoint)
  {
  }

  /**
    Only one trailing slash is removed: a base ending in "//" still ends in a
    slash once cleaned, and it is exactly one character shorter.
  */
  lemma CleanBaseStripsOneSlash(base: string)
    requires EndsWithDoubleSlash(base)
    ensures |CleanBase(base)| == |base| - 1
    ensures EndsWithSlash(CleanBase(base))
  {
  }

  /** The empty endpoint still yields a URL ending in "/". */
  lemma EmptyEndpoint(env: Option<string>)
    ensures GetApiUrl(env, "") == CleanBase(BaseUrl(env)) + "/"
  {
  }

  // ---------------------------------------------------------------------------
  // The join against a reference definition
  // ---------------------------------------------------------------------------

  /**
    For every base and endpoint the URL is the cleaned base, one slash, and
    the endpoint without its leading slash. Both branches of the final
    conditional (empty cleaned base or not) agree with this one formula.
  */
  lemma GetApiUrlIsSlashJoin(env: Option<string>, endpoint: string)
    ensures GetApiUrl(env, endpoint) == CleanBase(BaseUrl(env)) + "/" + TrimLeadingSlash(endpoint)
  {
  }

  /**
    For a fixed base, two endpoints give the same URL exactly when they agree
    once one leading slash is dropped from each: "api/menu" and "/api/menu"
    are the only kind of collision, while "/api" and "//api" differ.
  */
  lemma SameUrlIffSameEndpoint(env: Option<string>, e1: string, e2: string)
    ensures GetApiUrl(env, e1) == GetApiUrl(env, e2) <==> TrimLeadingSlash(e1) == TrimLeadingSlash(e2)
    ensures GetApiUrl(env, e1) == GetApiUrl(env, e2) <==> CleanEndpoint(e1) == CleanEndpoint(e2)
  {
  }

  // ---------------------------------------------------------------------------
  // Slashes at the join
  // ---------------------------------------------------------------------------

  /** Two strings joined hold "//" exactly when one of them does or the join makes one. */
  lemma {:induction false} DoubleSlashInConcat(x: string, y: string)
    ensures HasDoubleSlash(x + y) <==>
      HasDoubleSlash(x) || HasDoubleSlash(y) || (EndsWithSlash(x) && StartsWithSlash(y))
  {
    var s := x + y;
    if HasDoubleSlash(s) {
      var i :| 0 <= i < |s| - 1 && s[i] == '/' && s[i + 1] == '/';
      if i + 1 < |x| {
        assert x[i] == '/' && x[i + 1] == '/';
      } else if i >= |x| {
        assert y[i - |x|] == '/' && y[i - |x| + 1] == '/';
      }
    }
    if HasDoubleSlash(x) {
      var i :| 0 <= i < |x| - 1 && x[i] == '/' && x[i + 1] == '/';
      assert s[i] == '/' && s[i + 1] == '/';
    }
    if HasDoubleSlash(y) {
      var j :| 0 <= j < |y| - 1 && y[j] == '/' && y[j + 1] == '/';
      assert s[|x| + j] == '/' && s[|x| + j + 1] == '/';
    }
    if EndsWithSlash(x) && StartsWithSlash(y) {
      assert s[|x| - 1] == '/' && s[|x|] == '/';
    }
  }

  /**
    Stripping the base's trailing slash keeps the join clean: unless the base
    itself ends in "//", the URL holds "//" exactly when the base or the
    endpoint already did.
  */
  lemma JoinAddsNoDoubleSlash(env: Option<string>, endpoint: string)
    requires !EndsWithDoubleSlash(BaseUrl(env))
    ensures HasDoubleSlash(GetApiUrl(env, endpoint)) <==>
      HasDoubleSlash(BaseUrl(env)) || HasDoubleSlash(endpoint)
  {
    var base := BaseUrl(env);
    var cleanBase := CleanBase(base);
    var cleanEndpoint := CleanEndpoint(endpoint);
    assert GetApiUrl(env, endpoint) == cleanBase + cleanEndpoint;
    assert !HasDoubleSlash("/");
    if EndsWithSlash(base) {
      assert base == cleanBase + "/";
      DoubleSlashInConcat(cleanBase, "/");
    }
    assert !EndsWithSlash(cleanBase);
    assert HasDoubleSlash(cleanBase) <==> HasDoubleSlash(base);
    if !StartsWithSlash(endpoint) {
      assert cleanEndpoint == "/" + endpoint;
      DoubleSlashInConcat("/", endpoint);
    }
    assert HasDoubleSlash(cleanEndpoint) <==> HasDoubleSlash(endpoint);
    DoubleSlashInConcat(cleanBase, cleanEndpoint);
  }

  /**
    A base ending in "//" keeps one of its slashes, so the URL holds "//"
    right at the join: "x//" with "api" gives "x//api".
  */
  lemma DoubleSlashBaseLeavesDoubleSlash(env: Option<string>, endpoint: string)
    requires EndsWithDoubleSlash(BaseUrl(env))
    ensures var n := |CleanBase(BaseUrl(env))|;
      GetApiUrl(env, endpoint)[n - 1] == '/' && GetApiUrl(env, endpoint)[n] == '/'
    ensures HasDoubleSlash(GetApiUrl(env, endpoint))
  {
  }

  /** The join of "x//" and "api", worked out: one slash of the base survives. */
  lemma DoubleSlashExample()
    ensures CleanBase("x//") == "x/"
    ensures GetApiUrl(Some("x//"), "api") == "x//api"
  {
  }
}
