/** The fetch handler's classification of an intercepted request into the strategy that
    answers it (sw.js:82-110, with isStaticAsset and isHTMLRequest at sw.js:221-229). */
module Router {
  import opened Http
  import opened Text

  datatype Route = PassThrough | Api | Static | Html | Other

  const StaticExtensions: seq<string> :=
    [".css", ".js", ".png", ".jpg", ".jpeg", ".svg", ".ico", ".woff", ".woff2", ".ttf"]

  /** The worker answers only GET requests whose protocol starts with "http". */
  predicate Intercepted(req: Request) {
    req.verb == "GET" && StartsWith(req.protocol, "http")
  }

  predicate IsApiPath(pathname: string) {
    StartsWith(pathname, "/api/")
  }

  /** Some listed extension occurs anywhere in the path (a substring test, not a suffix test). */
  predicate IsStaticAsset(pathname: string) {
    exists ext :: ext in StaticExtensions && Contains(pathname, ext)
  }

  /** A missing Accept header reads as the empty string. */
  predicate IsHtmlRequest(accept: Option<string>) {
    Contains(match accept case Some(a) => a case None => "", "text/html")
  }

  /** The route of a request: total, and decided by the first test that holds. */
  function Classify(req: Request): (r: Route)
    ensures r == PassThrough <==> !Intercepted(req)
    ensures r == Api <==> Intercepted(req) && IsApiPath(req.pathname)
    ensures r in {Static, Html, Other} ==> !IsApiPath(req.pathname)
    ensures r == Static <==> Intercepted(req) && !IsApiPath(req.pathname) && IsStaticAsset(req.pathname)
    ensures r == Html ==> IsHtmlRequest(req.accept) && !IsStaticAsset(req.pathname)
  {
    if req.verb != "GET" then PassThrough
    else if !StartsWith(req.protocol, "http") then PassThrough
    else if IsApiPath(req.pathname) then Api
    else if IsStaticAsset(req.pathname) then Static
    else if IsHtmlRequest(req.accept) then Html
    else Other
  }

  /** The "/api/" prefix wins over every extension test. */
  lemma ApiPrecedence(req: Request)
    requires Intercepted(req) && IsApiPath(req.pathname)
    ensures Classify(req) == Api
  {
  }

  /** A listed extension at any position of a non-API path makes the request STATIC,
      whatever its Accept header. */
  lemma ExtensionAnywhereIsStatic(req: Request, ext: string, i: int)
    requires Intercepted(req) && !IsApiPath(req.pathname)
    requires ext in StaticExtensions && OccursAt(req.pathname, ext, i)
    ensures Classify(req) == Static
  {
    ContainsAt(req.pathname, ext, i);
  }

  /** ".json" contains ".js", so every JSON path outside "/api/" is a static asset. */
  lemma JsonIsStatic(req: Request)
    requires Intercepted(req) && !IsApiPath(req.pathname)
    requires Contains(req.pathname, ".json")
    ensures Classify(req) == Static
  {
    ContainsPrefix(req.pathname, ".json", ".js");
    assert ".js" in StaticExtensions;
  }

  /** The manifest is routed cache-first, through the ".js" in ".json". */
  lemma ManifestIsStatic(accept: Option<string>)
    ensures Classify(Request("GET", "/manifest.json", "https:", "/manifest.json", accept)) == Static
  {
    var path := "/manifest.json";
    assert path[..5][1] == 'm';
    assert OccursAt(path, ".json", 9);
    ContainsAt(path, ".json", 9);
    JsonIsStatic(Request("GET", path, "https:", path, accept));
  }

  /** A script under "/api/" passes the static-asset test yet goes to the API strategy. */
  lemma ApiScriptIsApi(accept: Option<string>)
    ensures IsStaticAsset("/api/app.js")
    ensures Classify(Request("GET", "/api/app.js", "https:", "/api/app.js", accept)) == Api
  {
    var path := "/api/app.js";
    assert OccursAt(path, ".js", 8);
    ContainsAt(path, ".js", 8);
    assert ".js" in StaticExtensions;
    assert path[..5] == "/api/";
    ApiPrecedence(Request("GET", path, "https:", path, accept));
  }

  /** Without an Accept header a request is never HTML: a non-API, non-static request
      is then OTHER, exactly as with an empty header. */
  lemma MissingAcceptIsOther(req: Request)
    requires Intercepted(req) && !IsApiPath(req.pathname) && !IsStaticAsset(req.pathname)
    requires req.accept == None
    ensures Classify(req) == Other
    ensures Classify(req.(accept := Some(""))) == Other
  {
  }

  /** Below the API and static tests, HTML is decided by the Accept header alone. */
  lemma HtmlByAccept(req: Request)
    requires Intercepted(req) && !IsApiPath(req.pathname) && !IsStaticAsset(req.pathname)
    ensures Classify(req) == Html <==> IsHtmlRequest(req.accept)
    ensures Classify(req) == Other <==> !IsHtmlRequest(req.accept)
  {
  }
}
