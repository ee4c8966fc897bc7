/** Which page a request's host selects (server/handle-page.go), and the play
    page's own choices (server/play/page.go): where its script comes from, what
    fails, and how asset URLs are rewritten when the server runs locally. */
module Pages {
  import opened Strings

  datatype PageType = UnknownPage | PlayPage | JsgoPage | FrizzPage

  const PlayHost := "play.jsgo.io"
  const JsgoHost := "compile.jsgo.io"
  const FrizzHost := "frizz.io"

  /** `getPage`. In the DEV build the port at the end of the host decides;
      otherwise only the exact production host names are known. */
  function GetPage(dev: bool, host: string): (p: PageType)
    ensures dev ==> (p == PlayPage <==> HasSuffix(host, "8080"))
    ensures dev ==> (p == JsgoPage <==> HasSuffix(host, "8081"))
    ensures dev ==> (p == FrizzPage <==> HasSuffix(host, "8082"))
    ensures !dev ==> (p == PlayPage <==> host == PlayHost)
    ensures !dev ==> (p == JsgoPage <==> host == JsgoHost)
    ensures !dev ==> (p == FrizzPage <==> host == FrizzHost)
  {
    if dev then
      if HasSuffix(host, "8080") then PlayPage
      else if HasSuffix(host, "8081") then JsgoPage
      else if HasSuffix(host, "8082") then FrizzPage
      else UnknownPage
    else
      if host == PlayHost then PlayPage
      else if host == JsgoHost then JsgoPage
      else if host == FrizzHost then FrizzPage
      else UnknownPage
  }

  /** In the DEV build the production host names select no page. */
  lemma DevIgnoresProductionHosts(host: string)
    requires host == PlayHost || host == JsgoHost || host == FrizzHost
    ensures GetPage(true, host) == UnknownPage
  {
    assert host[|host| - 1] == 'o';
  }

  /** An HTTP answer: a page renderer takes over, or an error status and text. */
  datatype Response = Render(page: PageType) | HttpError(status: int, text: string)

  const UnknownHostPrefix := "unknown host "

  /** `PageHandler`: exactly one renderer for a known page, and a 500 naming
      the host for an unknown one. */
  function PageHandler(dev: bool, host: string): (r: Response)
    ensures r.Render? <==> GetPage(dev, host) != UnknownPage
    ensures r.Render? ==> r.page == GetPage(dev, host)
    ensures r.HttpError? ==> r.status == 500 && HasPrefix(r.text, UnknownHostPrefix)
    ensures r.HttpError? ==> TrimPrefix(r.text, UnknownHostPrefix) == host
  {
    match GetPage(dev, host)
    case UnknownPage =>
      assert (UnknownHostPrefix + host)[..|UnknownHostPrefix|] == UnknownHostPrefix;
      HttpError(500, UnknownHostPrefix + host)
    case p => Render(p)
  }

  const LocalAssets := "/_local"

  /** `asset`: outside LOCAL the URL as given; in LOCAL the URL's last segment,
      slash included, served from `/_local`. The source slices at the index of
      the last '/', so a URL without one would make it panic. */
  function Asset(local: bool, url: string): (r: string)
    requires local ==> '/' in url
    ensures !local ==> r == url
    ensures local ==> HasPrefix(r, LocalAssets + "/")
    ensures local ==> HasSuffix(url, r[|LocalAssets|..])
    ensures local ==> '/' !in r[|LocalAssets| + 1..]
  {
    if local then
      var i := LastIndexOf(url, '/').value;
      var r := LocalAssets + url[i..];
      assert r[|LocalAssets|..] == url[i..];
      assert r[..|LocalAssets| + 1] == LocalAssets + "/";
      assert r[|LocalAssets| + 1..] == url[i + 1..];
      r
    else url
  }

  /** What the record store says about the play package: an error, not found,
      or found with the hash of its minified main script. */
  datatype Lookup = LookupFailed(error: string) | NotFound | Found(minMain: string)

  const DevScript := "/_script.js"
  const PlayScriptPrefix := "https://pkg.jsgo.io/github.com/dave/play."

  /** The play page's outcome: the page rendered with its script URL and its
      Prod flag, or an HTTP error. */
  datatype PlayOutcome = Rendered(script: string, prod: bool) | PlayFailed(status: int, text: string)

  /** `Page` of the play package. The record store is only asked outside DEV. */
  function PlayPageOutcome(dev: bool, lookup: Lookup): (r: PlayOutcome)
    ensures dev ==> r == Rendered(DevScript, false)
    ensures r.Rendered? ==> r.prod == !dev
    ensures !dev ==> (r.Rendered? <==> lookup.Found?)
    ensures !dev && lookup.LookupFailed? ==> r == PlayFailed(500, lookup.error)
    ensures !dev && lookup.NotFound? ==> r == PlayFailed(500, "play package not found")
    ensures !dev && r.Rendered? ==> HasPrefix(r.script, PlayScriptPrefix) && HasSuffix(r.script, ".js")
  {
    if dev then Rendered(DevScript, !dev)
    else
      match lookup
      case LookupFailed(err) => PlayFailed(500, err)
      case NotFound => PlayFailed(500, "play package not found")
      case Found(main) =>
        var url := PlayScriptPrefix + main + ".js";
        assert url[..|PlayScriptPrefix|] == PlayScriptPrefix;
        assert url[|url| - 3..] == ".js";
        Rendered(url, !dev)
  }

  /** The production script URL names the package's minified main script. */
  lemma ScriptNamesMain(main: string)
    ensures var r := PlayPageOutcome(false, Found(main));
      TrimSuffix(TrimPrefix(r.script, PlayScriptPrefix), ".js") == main
  {
    var url := PlayScriptPrefix + main + ".js";
    assert url[..|PlayScriptPrefix|] == PlayScriptPrefix;
    assert url[|PlayScriptPrefix|..] == main + ".js";
    assert (main + ".js")[|main|..] == ".js";
  }
}
