/**
 * Building the parameters of the outbound request from one client request.
 *
 * The handler builds a request-options template once at start-up and picks
 * one of two builders: the proxy-mode builder, which sends every request to
 * the configured upstream proxy with the client's absolute URL as the path
 * (the absolute-form request target of section 5.3.2 of RFC 7230), and the
 * direct-mode builder, which sends it to the host named in the client's URL.
 */
module RequestOptionsBuilder {
  import opened Wrappers

  /** HTTP headers, keyed by name exactly as received (names are case-sensitive keys). */
  type Headers = map<string, string>

  /** The upstream proxy configured for the whole process. */
  datatype ProxyConfig = ProxyConfig(host: string, port: nat, username: Option<string>, password: Option<string>)

  /** What the Basic-credential encoder is given: the proxy configuration, or the `user:pass` part of a URL. */
  datatype Credentials = ProxyCredentials(proxy: ProxyConfig) | UrlCredentials(auth: string)

  /**
   * The fields of a parsed client URL that the builders read. `path` is the
   * path with its query string, `href` the whole URL, `auth` the `user:pass`
   * part when the URL carries one.
   */
  datatype ParsedUrl = ParsedUrl(hostname: Option<string>, port: Option<nat>, path: string, href: string, auth: Option<string>)

  /** Parameters of one outbound request; the template has the same shape with null method and path. */
  datatype RequestOptions = RequestOptions(
    httpMethod: Option<string>,
    headers: Headers,
    host: Option<string>,
    port: Option<nat>,
    path: Option<string>)

  /** Which builder is bound, chosen once from the proxy configuration. */
  datatype Mode = Direct | ViaProxy(proxy: ProxyConfig)

  const PROXY_AUTHORIZATION := "Proxy-Authorization"
  const AUTHORIZATION := "authorization"
  const DEFAULT_PORT: nat := 80

  /** The template before any mode-specific field is filled in. */
  const EMPTY_TEMPLATE := RequestOptions(None, map[], None, None, None)

  /** The proxy carries credentials when both its username and its password are truthy. */
  predicate HasProxyCredentials(proxy: ProxyConfig)
  {
    Truthy(proxy.username) && Truthy(proxy.password)
  }

  /** The mode selected by the presence of a proxy configuration. */
  function ModeFor(proxy: Option<ProxyConfig>): (m: Mode)
    ensures m.ViaProxy? <==> proxy.Some?
    ensures m.ViaProxy? ==> m.proxy == proxy.value
  {
    if proxy.Some? then ViaProxy(proxy.value) else Direct
  }

  /**
   * The template stored once at start-up. In proxy mode it targets the proxy
   * and, when the proxy has credentials, carries their Basic encoding under
   * `Proxy-Authorization` (section 4.4 of RFC 7235).
   */
  function TemplateFor(mode: Mode, encode: Credentials -> string): (t: RequestOptions)
    ensures t.httpMethod.None? && t.path.None?
    ensures mode.Direct? ==> t == EMPTY_TEMPLATE
    ensures mode.ViaProxy? ==> t.host == Some(mode.proxy.host) && t.port == Some(mode.proxy.port)
    ensures mode.ViaProxy? ==> (PROXY_AUTHORIZATION in t.headers <==> HasProxyCredentials(mode.proxy))
    ensures mode.ViaProxy? ==> forall k :: k in t.headers ==>
              k == PROXY_AUTHORIZATION && t.headers[k] == encode(ProxyCredentials(mode.proxy))
  {
    match mode
    case Direct => EMPTY_TEMPLATE
    case ViaProxy(proxy) =>
      var headers := if HasProxyCredentials(proxy)
                     then map[PROXY_AUTHORIZATION := encode(ProxyCredentials(proxy))]
                     else map[];
      EMPTY_TEMPLATE.(headers := headers, host := Some(proxy.host), port := Some(proxy.port))
  }

  /**
   * The proxy-mode builder: a copy of the template whose path is the client's
   * full URL, whose method is the client's, and whose headers are the
   * client's overlaid with the template's (the template wins on a clash).
   */
  function ProxyOptions(template: RequestOptions, httpMethod: string, headers: Headers, url: ParsedUrl): (r: RequestOptions)
    ensures r.host == template.host && r.port == template.port
    ensures r.path == Some(url.href) && r.httpMethod == Some(httpMethod)
    ensures r.headers.Keys == headers.Keys + template.headers.Keys
    ensures forall k :: k in template.headers ==> r.headers[k] == template.headers[k]
    ensures forall k :: k in headers && k !in template.headers ==> r.headers[k] == headers[k]
  {
    template.(httpMethod := Some(httpMethod), headers := headers + template.headers, path := Some(url.href))
  }

  /**
   * The headers the direct-mode builder leaves on the client request (and
   * sends): the client's, with `authorization` set to the encoded URL
   * credentials exactly when the URL's auth part is truthy.
   */
  function DirectHeaders(headers: Headers, url: ParsedUrl, encode: Credentials -> string): (r: Headers)
    ensures r.Keys == headers.Keys + (if Truthy(url.auth) then {AUTHORIZATION} else {})
    ensures forall k :: k in r ==>
              r[k] == if k == AUTHORIZATION && Truthy(url.auth)
                      then encode(UrlCredentials(url.auth.value)) else headers[k]
    ensures !Truthy(url.auth) ==> r == headers
  {
    if Truthy(url.auth) then headers[AUTHORIZATION := encode(UrlCredentials(url.auth.value))] else headers
  }

  /**
   * The direct-mode builder: host, port (80 when the URL names none) and
   * path-with-query from the client's URL; the client's own headers, plus an
   * `authorization` header when the URL carries credentials.
   */
  function DirectOptions(template: RequestOptions, httpMethod: string, headers: Headers, url: ParsedUrl,
                         encode: Credentials -> string): (r: RequestOptions)
    ensures r.host == url.hostname
    ensures r.port == Some(if url.port.Some? then url.port.value else DEFAULT_PORT)
    ensures r.path == Some(url.path) && r.httpMethod == Some(httpMethod)
    ensures r.headers.Keys == headers.Keys + (if Truthy(url.auth) then {AUTHORIZATION} else {})
    ensures forall k :: k in r.headers ==>
              r.headers[k] == if k == AUTHORIZATION && Truthy(url.auth)
                              then encode(UrlCredentials(url.auth.value)) else headers[k]
  {
    template.(host := url.hostname,
              port := Some(if url.port.Some? then url.port.value else DEFAULT_PORT),
              path := Some(url.path),
              httpMethod := Some(httpMethod),
              headers := DirectHeaders(headers, url, encode))
  }

  /**
   * The builder bound for the mode, applied to one client request. Every
   * build carries the client's method and a path: the absolute URL when going
   * through the proxy (to the template's host and port), the path-with-query
   * when going direct (to the URL's host and port).
   */
  function BuildOptions(mode: Mode, template: RequestOptions, encode: Credentials -> string,
                        httpMethod: string, headers: Headers, url: ParsedUrl): (r: RequestOptions)
    ensures r.httpMethod == Some(httpMethod)
    ensures mode.ViaProxy? ==> r.path == Some(url.href) && r.host == template.host && r.port == template.port
    ensures mode.Direct? ==> r.path == Some(url.path) && r.host == url.hostname
    ensures mode.Direct? ==> r.port == Some(if url.port.Some? then url.port.value else DEFAULT_PORT)
    ensures mode.Direct? ==> r.headers == DirectHeaders(headers, url, encode)
    ensures mode.ViaProxy? ==> r.headers == headers + template.headers
  {
    match mode
    case ViaProxy(_) => ProxyOptions(template, httpMethod, headers, url)
    case Direct => DirectOptions(template, httpMethod, headers, url, encode)
  }

  /**
   * The client's headers after a build: the direct-mode builder writes into
   * the client's own headers object, the proxy-mode builder only copies it.
   * Either way no client header other than `authorization` changes, and none
   * is removed.
   */
  function HeadersAfterBuild(mode: Mode, headers: Headers, url: ParsedUrl, encode: Credentials -> string): (r: Headers)
    ensures headers.Keys <= r.Keys && r.Keys - headers.Keys <= {AUTHORIZATION}
    ensures forall k :: k in headers && k != AUTHORIZATION ==> r[k] == headers[k]
    ensures mode.ViaProxy? || !Truthy(url.auth) ==> r == headers
    ensures mode.Direct? && Truthy(url.auth) ==>
              AUTHORIZATION in r && r[AUTHORIZATION] == encode(UrlCredentials(url.auth.value))
  {
    if mode.Direct? then DirectHeaders(headers, url, encode) else headers
  }

  /**
   * Proxy mode, stated against the configuration: outbound host and port are
   * the proxy's, the path is the client's full URL, and the headers are the
   * client's with `Proxy-Authorization` set exactly when the proxy has
   * credentials.
   */
  lemma ProxyModeTargetsProxy(proxy: ProxyConfig, encode: Credentials -> string,
                              httpMethod: string, headers: Headers, url: ParsedUrl)
    ensures var r := BuildOptions(ViaProxy(proxy), TemplateFor(ViaProxy(proxy), encode), encode, httpMethod, headers, url);
      && r.host == Some(proxy.host) && r.port == Some(proxy.port)
      && r.path == Some(url.href) && r.httpMethod == Some(httpMethod)
      && (HasProxyCredentials(proxy) ==>
            r.headers == headers[PROXY_AUTHORIZATION := encode(ProxyCredentials(proxy))])
      && (!HasProxyCredentials(proxy) ==> r.headers == headers)
  {
  }

  /**
   * Building twice from the same client request gives the same options, even
   * though a direct-mode build has already written `authorization` into the
   * client's headers; and neither build touches the stored template.
   */
  lemma BuildTwiceSameOptions(mode: Mode, encode: Credentials -> string,
                              httpMethod: string, headers: Headers, url: ParsedUrl)
    ensures var t := TemplateFor(mode, encode);
      var first := BuildOptions(mode, t, encode, httpMethod, headers, url);
      BuildOptions(mode, t, encode, httpMethod, HeadersAfterBuild(mode, headers, url, encode), url) == first
  {
  }
}
