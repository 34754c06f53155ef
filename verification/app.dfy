/** The rules in the application factory (app/main.py) that are not I/O: the security
    service URL handed to the browser, and which unknown paths get a JSON 404 rather than
    the single-page app's `index.html`. */
module App {
  import opened Wrappers
  import opened Strings
  import Config

  const InternalHost: string := "security-service"
  const PublicHost: string := "localhost"

  /** The body of `GET /api/config`. */
  datatype FrontendConfig = FrontendConfig(securityServiceUrl: string, applicationId: string, version: string)

  /** The security service URL the browser should use: the frontend URL when one is
      configured, else the internal URL with every `security-service` host name
      replaced by `localhost`. */
  function BrowserSecurityUrl(c: Config.Settings): string {
    if Truthy(c.frontendSecurityServiceUrl) then c.frontendSecurityServiceUrl.value
    else if Contains(c.securityServiceUrl, InternalHost) then ReplaceAll(c.securityServiceUrl, InternalHost, PublicHost)
    else c.securityServiceUrl
  }

  /** `get_config()`. */
  function GetConfig(c: Config.Settings): (r: FrontendConfig)
    ensures r.securityServiceUrl == BrowserSecurityUrl(c)
    ensures r.applicationId == c.securityApplicationId
    ensures r.version == "2.2.0"
  {
    FrontendConfig(BrowserSecurityUrl(c), c.securityApplicationId, "2.2.0")
  }

  /** A configured frontend URL is used verbatim; without one, an internal URL that does
      not mention `security-service` is passed through unchanged, and one that does is
      split at each mention and rejoined with `localhost`. */
  lemma {:induction false} BrowserSecurityUrlChoice(c: Config.Settings)
    ensures Truthy(c.frontendSecurityServiceUrl) ==> BrowserSecurityUrl(c) == c.frontendSecurityServiceUrl.value
    ensures !Truthy(c.frontendSecurityServiceUrl) && !Contains(c.securityServiceUrl, InternalHost) ==>
      BrowserSecurityUrl(c) == c.securityServiceUrl
    ensures !Truthy(c.frontendSecurityServiceUrl) ==>
      BrowserSecurityUrl(c) == Join(Split(c.securityServiceUrl, InternalHost), PublicHost)
  {
    if !Truthy(c.frontendSecurityServiceUrl) && !Contains(c.securityServiceUrl, InternalHost) {
      ReplaceAllAbsent(c.securityServiceUrl, InternalHost, PublicHost);
    }
  }

  /** The usual container URL: a scheme and port around a single `security-service`
      host becomes the same URL on `localhost`, e.g.
      `http://security-service:8080` becomes `http://localhost:8080`. The scheme must not
      itself begin an earlier `security-service`. */
  lemma {:induction false} ContainerHostRewritten(c: Config.Settings, scheme: string, rest: string)
    requires !Truthy(c.frontendSecurityServiceUrl)
    requires c.securityServiceUrl == scheme + InternalHost + rest
    requires forall j: nat :: j < |scheme| ==> !OccursAt(scheme + InternalHost, InternalHost, j)
    requires !Contains(rest, InternalHost)
    ensures BrowserSecurityUrl(c) == scheme + PublicHost + rest
  {
    var url := c.securityServiceUrl;
    var n := |scheme|;
    var head := scheme + InternalHost;
    assert OccursAt(url, InternalHost, n) by { assert url[n..n + |InternalHost|] == InternalHost; }
    var k := IndexOf(url, InternalHost).value;
    assert url[..|head|] == head;
    forall j: nat | j < n ensures !OccursAt(url, InternalHost, j) {
      assert !OccursAt(head, InternalHost, j);
      assert url[j..j + |InternalHost|] == head[j..j + |InternalHost|];
    }
    assert k == n;
    assert url[..n] == scheme;
    assert url[n + |InternalHost|..] == rest;
    assert Split(url, InternalHost) == [scheme] + Split(rest, InternalHost);
    assert Split(rest, InternalHost) == [rest];
    JoinCons(scheme, [rest], PublicHost);
  }

  /** Both usual schemes meet the condition of `ContainerHostRewritten`. */
  lemma {:induction false} UsualSchemesQualify()
    ensures forall j: nat :: j < |"https://"| ==> !OccursAt("https://" + InternalHost, InternalHost, j)
    ensures forall j: nat :: j < |"http://"| ==> !OccursAt("http://" + InternalHost, InternalHost, j)
  {
    SchemeQualifies("https://");
    SchemeQualifies("http://");
  }

  /** A scheme no longer than `security-service` that ends in '/' cannot begin an
      earlier `security-service`: the match would have to cover that '/'. */
  lemma {:induction false} SchemeQualifies(scheme: string)
    requires 0 < |scheme| <= |InternalHost| && scheme[|scheme| - 1] == '/'
    ensures forall j: nat :: j < |scheme| ==> !OccursAt(scheme + InternalHost, InternalHost, j)
  {
    var head := scheme + InternalHost;
    forall j: nat | j < |scheme| ensures !OccursAt(head, InternalHost, j) {
      var k := |scheme| - 1 - j;
      assert InternalHost[k] != '/';
      assert head[j + k] == '/';
      assert j + |InternalHost| <= |head| ==> head[j..j + |InternalHost|][k] == head[j + k];
    }
  }

  /** What an unmatched path is answered with. */
  datatype Page = JsonNotFound | IndexHtml

  /** `serve_react_app(path)`: `path` is the URL path without its leading `/`. */
  function ServeReactApp(path: string): Page {
    if StartsWith(path, "api/") then JsonNotFound else IndexHtml
  }

  /** The 404 handler, on the full request path. */
  function NotFound(requestPath: string): Page {
    if StartsWith(requestPath, "/api/") then JsonNotFound else IndexHtml
  }

  /** The catch-all route and the 404 handler draw the same line: a path under `/api/`
      gets JSON, everything else the single-page app. */
  lemma {:induction false} CatchAllAgreesWithNotFound(path: string)
    ensures ServeReactApp(path) == NotFound("/" + path)
    ensures ServeReactApp(path) == JsonNotFound <==> |path| >= 4 && path[..4] == "api/"
  {
    var full := "/" + path;
    assert "/api/" == "/" + "api/";
    if |path| >= 4 {
      assert full[..5] == "/" + path[..4];
      assert full[..5][1..] == path[..4];
      assert "/api/"[1..] == "api/";
    }
  }
}
