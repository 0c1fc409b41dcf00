/** The address the course video player loads
    (src/features/enrolledCourse/Content/components/VideoPlayer.tsx). */
module VideoPlayer {
  import opened Strings
  import AuthPipeline

  /** `fullUrl`: an absolute `http…` address is kept, anything else is taken
      as a path on the API server. */
  function FullUrl(url: string): (r: string)
    ensures StartsWith(url, "http") ==> r == url
    ensures !StartsWith(url, "http") ==>
      r == AuthPipeline.ApiUrl + (if StartsWith(url, "/") then "" else "/") + url
  {
    if StartsWith(url, "http") then url
    else AuthPipeline.ApiUrl + (if StartsWith(url, "/") then "" else "/") + url
  }

  /** Every address the player loads is an `http` one. */
  lemma FullUrlIsHttp(url: string)
    ensures StartsWith(FullUrl(url), "http")
  {
    var r := FullUrl(url);
    if !StartsWith(url, "http") {
      assert r[..4] == AuthPipeline.ApiUrl[..4];
    }
  }

  /** A path is joined to the server with one `/` of its own or the one it
      brings, so the result is the server, a `/`, and the path with a single
      leading `/` dropped; the path survives at the end. */
  lemma FullUrlJoinsPath(url: string)
    requires !StartsWith(url, "http")
    ensures var path := if StartsWith(url, "/") then url[1..] else url;
      FullUrl(url) == AuthPipeline.ApiUrl + "/" + path
    ensures EndsWith(FullUrl(url), url)
  {
    if StartsWith(url, "/") {
      assert url == "/" + url[1..];
    }
    var r := FullUrl(url);
    assert r[|r| - |url|..] == url;
  }

  /** The separator is single exactly when the path does not itself start
      with two slashes: `//cdn/x` keeps both of its own. */
  lemma SingleSeparator(url: string)
    requires !StartsWith(url, "http")
    ensures var r := FullUrl(url); var n := |AuthPipeline.ApiUrl|;
      && |r| > n && r[n] == '/'
      && (|r| > n + 1 && r[n + 1] == '/' <==> StartsWith(url, "//"))
  {
    FullUrlJoinsPath(url);
    var path := if StartsWith(url, "/") then url[1..] else url;
    var r := FullUrl(url);
    var n := |AuthPipeline.ApiUrl|;
    assert r == AuthPipeline.ApiUrl + "/" + path;
    assert r[n] == '/';
    if |path| > 0 {
      assert r[n + 1] == path[0];
    }
  }
}
