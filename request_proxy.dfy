/**
 * RequestProxy: forwards one servlet request to a target URL and copies the answer back.
 * The URLConnection is an object whose configuration calls are logged (UrlConnection); what
 * the target sends back is given as an Upstream value; the overridable hooks of the class
 * are gathered in a ProxyPolicy.
 */
module RequestProxy {
  import opened Wrappers
  import opened JavaLang
  import opened Servlet
  import RequestHelper
  import RequestHandling

  /** Hop-by-hop and cookie headers the proxy never copies, in either direction. */
  const IGNORE_HEADER: set<string> := {
    "proxy-connection", "connection", "keep-alive", "transfer-encoding", "accept-encoding",
    "te", "trailer", "proxy-authorization", "proxy-authenticate", "upgrade", "referer",
    "cookie", "set-cookie"
  }

  /** Response headers the proxy replaces by its own when it sets a max-age. */
  const CACHE_RESPONSE_HEADER: set<string> := {"cache-control", "expires"}

  /** getCookieMaxAge(): the lifetime of every proxied cookie, in seconds. */
  const COOKIE_MAX_AGE: int := 3600

  /**
   * The overridable hooks of RequestProxy: extra request/response header names to strip
   * (asked with the lower-cased name), getFollowRedirects(), getMaxAge() and the calls
   * addRequestProperties(connection, request) makes on the connection.
   */
  datatype ProxyPolicy = ProxyPolicy(
    stripRequestHeader: string -> bool,
    stripResponseHeader: string -> bool,
    followRedirects: bool,
    maxAge: int,
    requestProperties: seq<ConnectionOp>)

  /** The policy of RequestProxy itself, with no hook overridden. */
  function BasePolicy(): (p: ProxyPolicy)
    ensures !p.followRedirects && p.maxAge == -1 && p.requestProperties == []
    ensures forall h :: !p.stripRequestHeader(h) && !p.stripResponseHeader(h)
  {
    ProxyPolicy(_ => false, _ => false, false, -1, [])
  }

  /** One call made on the outgoing URLConnection. */
  datatype ConnectionOp =
    | SetAllowUserInteraction(allow: bool)
    | SetRequestMethod(httpMethod: string)
    | SetInstanceFollowRedirects(follow: bool)
    | SetRequestProperty(name: string, value: string)
    | AddRequestProperty(name: string, value: string)
    | SetUseCaches(useCaches: bool)
    | SetDoInput(doInput: bool)
    | SetDoOutput(doOutput: bool)
    | CopyRequestBody
    | Connect

  /** The outgoing URLConnection: the calls made on it, in order. */
  class UrlConnection {
    var ops: seq<ConnectionOp>

    constructor ()
      ensures ops == []
    {
      ops := [];
    }

    method Perform(op: ConnectionOp)
      modifies this
      ensures ops == old(ops) + [op]
    {
      ops := ops + [op];
    }
  }

  /** Calls that only set request properties, the only kind addRequestProperties makes. */
  predicate PropertiesOnly(ops: seq<ConnectionOp>) {
    forall i :: 0 <= i < |ops| ==> ops[i].SetRequestProperty? || ops[i].AddRequestProperty?
  }

  // ---------------------------------------------------------------- header policy

  /** ignoreRequestHeader(lower-cased name). */
  predicate IgnoreRequestHeader(p: ProxyPolicy, hdr: string)
    ensures hdr in IGNORE_HEADER ==> IgnoreRequestHeader(p, hdr)
    ensures p.stripRequestHeader(hdr) ==> IgnoreRequestHeader(p, hdr)
  {
    p.stripRequestHeader(hdr) || hdr in IGNORE_HEADER
  }

  /** ignoreResponseHeader(lower-cased name). */
  predicate IgnoreResponseHeader(p: ProxyPolicy, hdr: string)
    ensures hdr in IGNORE_HEADER ==> IgnoreResponseHeader(p, hdr)
    ensures p.maxAge > 0 && hdr in CACHE_RESPONSE_HEADER ==> IgnoreResponseHeader(p, hdr)
    ensures p.maxAge <= 0 && !p.stripResponseHeader(hdr) && hdr !in IGNORE_HEADER ==> !IgnoreResponseHeader(p, hdr)
  {
    p.stripResponseHeader(hdr) || hdr in IGNORE_HEADER || (p.maxAge > 0 && hdr in CACHE_RESPONSE_HEADER)
  }

  /** With no hook overridden, a header is ignored exactly when its name is in IGNORE_HEADER. */
  lemma BasePolicyIgnores(hdr: string)
    ensures IgnoreRequestHeader(BasePolicy(), hdr) <==> hdr in IGNORE_HEADER
    ensures IgnoreResponseHeader(BasePolicy(), hdr) <==> hdr in IGNORE_HEADER
  {
  }

  // ---------------------------------------------------------------- cookies

  /**
   * getCookieDomain: the server name from its first '.' on (the dot kept) when it holds two
   * dots or more, else the server name itself.
   */
  function CookieDomain(host: string): (domain: string)
    ensures |domain| <= |host| && domain == host[|host| - |domain|..]
    ensures domain != host ==> |domain| > 0 && domain[0] == '.'
  {
    var first := IndexOfChar(host, '.');
    if first != LastIndexOfChar(host, '.') then host[first..] else host
  }

  /** The host holds two dots or more. */
  predicate TwoDots(host: string) {
    exists i, j :: 0 <= i < j < |host| && host[i] == '.' && host[j] == '.'
  }

  /** Only the first label is stripped, and only from a name with two dots or more. */
  lemma CookieDomainFacts(host: string)
    ensures !TwoDots(host) ==> CookieDomain(host) == host
    ensures TwoDots(host) ==> exists k ::
      0 <= k < |host| && CookieDomain(host) == host[k..] && host[k] == '.' && '.' !in host[..k]
  {
    var first, last := IndexOfChar(host, '.'), LastIndexOfChar(host, '.');
    if TwoDots(host) {
      var i, j :| 0 <= i < j < |host| && host[i] == '.' && host[j] == '.';
      assert first <= i && j <= last;
      assert '.' !in host[..first] by {
        forall m | 0 <= m < first ensures host[..first][m] != '.' {
        }
      }
    }
  }

  /** A host name with three labels or more loses only its first label. */
  lemma CookieDomainExample()
    ensures CookieDomain("a.b.example.com") == ".b.example.com"
  {
    var host := "a.b.example.com";
    assert IndexOfChar(host, '.') == 1;
    assert host[3] == '.';
    assert LastIndexOfChar(host, '.') >= 3;
    assert host[1..] == ".b.example.com";
  }

  /** A cookie as java.net.HttpCookie.parse delivers it. */
  datatype ParsedCookie = ParsedCookie(name: string, value: string, version: int)

  /** The cookie proxySetCookie hands to the client for one cookie the target set. */
  function ProxyCookie(r: Request, targetHost: string, c: ParsedCookie): (k: Cookie)
    ensures |k.name| >= 6 && k.name[..6] == "proxy-" && k.name[6..] == c.name
    ensures k.value == c.value && k.version == c.version
    ensures k.domain == CookieDomain(r.serverName) && k.path == r.servletPath
    ensures k.maxAge == COOKIE_MAX_AGE
  {
    Cookie("proxy-" + c.name, c.value, "(proxied from " + targetHost + ")",
      CookieDomain(r.serverName), r.servletPath, COOKIE_MAX_AGE, c.version)
  }

  /** proxySetCookie: one addCookie per parsed cookie, in order. */
  function SetCookieActions(r: Request, targetHost: string, cs: seq<ParsedCookie>): (acts: seq<ResponseAction>)
    ensures |acts| == |cs|
    ensures forall i :: 0 <= i < |cs| ==> acts[i] == AddCookie(ProxyCookie(r, targetHost, cs[i]))
  {
    seq(|cs|, i requires 0 <= i < |cs| => AddCookie(ProxyCookie(r, targetHost, cs[i])))
  }

  // ---------------------------------------------------------------- request headers

  /** The Connection header lower-cased; "keep-alive" and "close" count as no header. */
  function ConnectionHeader(r: Request): (c: Option<string>)
    ensures c.Some? ==> c.value != "keep-alive" && c.value != "close"
    ensures GetHeader(r, "Connection").None? ==> c.None?
  {
    match GetHeader(r, "Connection")
    case None => None
    case Some(v) =>
      var l := ToLower(v);
      if l == "keep-alive" || l == "close" then None else Some(l)
  }

  /**
   * A request header survives the copy loop: it is not Cookie (handed to proxyCookies,
   * which forwards nothing), not ignored, not named in the Connection header, not Host.
   */
  predicate Survives(p: ProxyPolicy, connHdr: Option<string>, hdr: string)
    ensures Survives(p, connHdr, hdr) ==> ToLower(hdr) !in IGNORE_HEADER && !p.stripRequestHeader(ToLower(hdr))
    ensures ToLower(hdr) == "host" || ToLower(hdr) == "cookie" ==> !Survives(p, connHdr, hdr)
  {
    var l := ToLower(hdr);
    && l != "cookie"
    && !IgnoreRequestHeader(p, l)
    && !(connHdr.Some? && Contains(connHdr.value, l))
    && l != "host"
  }

  /** getHeaderNames(), in enumeration order. */
  function HeaderNames(r: Request): (names: seq<string>)
    ensures |names| == |r.headers|
    ensures forall i :: 0 <= i < |r.headers| ==> names[i] == r.headers[i].name
  {
    seq(|r.headers|, i requires 0 <= i < |r.headers| => r.headers[i].name)
  }

  /** One addRequestProperty(hdr, value) per value, in order. */
  function ValueOps(hdr: string, vals: seq<string>): seq<ConnectionOp> {
    seq(|vals|, k requires 0 <= k < |vals| => AddRequestProperty(hdr, vals[k]))
  }

  /** The calls the header loop makes for the header names `names`. */
  function HeaderOps(p: ProxyPolicy, connHdr: Option<string>, r: Request, names: seq<string>): (ops: seq<ConnectionOp>)
    ensures forall i :: 0 <= i < |ops| ==> ops[i].AddRequestProperty?
    ensures names == [] ==> ops == []
  {
    if names == [] then []
    else
      var last := names[|names| - 1];
      HeaderOps(p, connHdr, r, names[..|names| - 1])
        + (if Survives(p, connHdr, last) then ValueOps(last, GetHeaders(r, last)) else [])
  }

  /** The loop's xForwardedFor flag: a value of an X-Forwarded-For header was forwarded. */
  predicate ForwardsXff(p: ProxyPolicy, connHdr: Option<string>, r: Request, names: seq<string>) {
    if names == [] then false
    else
      var last := names[|names| - 1];
      || ForwardsXff(p, connHdr, r, names[..|names| - 1])
      || (Survives(p, connHdr, last) && EqualsIgnoreCase("X-Forwarded-For", last) && GetHeaders(r, last) != [])
  }

  /** The loop's hasContentType flag: a Content-Type header survived the filters. */
  predicate ForwardsContentType(p: ProxyPolicy, connHdr: Option<string>, names: seq<string>) {
    if names == [] then false
    else
      var last := names[|names| - 1];
      ForwardsContentType(p, connHdr, names[..|names| - 1])
        || (Survives(p, connHdr, last) && ToLower(last) == "content-type")
  }

  /**
   * The header loop of proxyRequest: copies every surviving header with all its values to
   * the connection, and reports whether an X-Forwarded-For value and a Content-Type went.
   */
  method CopyRequestHeaders(p: ProxyPolicy, r: Request, connHdr: Option<string>, conn: UrlConnection)
    returns (xForwardedFor: bool, hasContentType: bool)
    modifies conn
    ensures conn.ops == old(conn.ops) + HeaderOps(p, connHdr, r, HeaderNames(r))
    ensures xForwardedFor == ForwardsXff(p, connHdr, r, HeaderNames(r))
    ensures hasContentType == ForwardsContentType(p, connHdr, HeaderNames(r))
  {
    var names := HeaderNames(r);
    xForwardedFor, hasContentType := false, false;
    var i := 0;
    while i < |names|
      invariant 0 <= i <= |names|
      invariant conn.ops == old(conn.ops) + HeaderOps(p, connHdr, r, names[..i])
      invariant xForwardedFor == ForwardsXff(p, connHdr, r, names[..i])
      invariant hasContentType == ForwardsContentType(p, connHdr, names[..i])
    {
      var hdr := names[i];
      HeaderStep(p, connHdr, r, names, i);
      ghost var share := if Survives(p, connHdr, hdr) then ValueOps(hdr, GetHeaders(r, hdr)) else [];
      AppendAssoc(old(conn.ops), HeaderOps(p, connHdr, r, names[..i]), share);
      xForwardedFor, hasContentType := CopyRequestHeader(p, r, connHdr, conn, hdr, xForwardedFor, hasContentType);
      i := i + 1;
    }
    assert names[..i] == names;
  }

  /** One turn of the header loop: the filters, then every value of a surviving header. */
  method CopyRequestHeader(p: ProxyPolicy, r: Request, connHdr: Option<string>, conn: UrlConnection, hdr: string,
                           xffIn: bool, hctIn: bool)
    returns (xForwardedFor: bool, hasContentType: bool)
    modifies conn
    ensures conn.ops == old(conn.ops)
      + (if Survives(p, connHdr, hdr) then ValueOps(hdr, GetHeaders(r, hdr)) else [])
    ensures xForwardedFor == (xffIn
      || (Survives(p, connHdr, hdr) && EqualsIgnoreCase("X-Forwarded-For", hdr) && GetHeaders(r, hdr) != []))
    ensures hasContentType == (hctIn || (Survives(p, connHdr, hdr) && ToLower(hdr) == "content-type"))
  {
    xForwardedFor, hasContentType := xffIn, hctIn;
    var forward := Filter(p, connHdr, hdr);
    if forward {
      if ToLower(hdr) == "content-type" {
        hasContentType := true;
      }
      xForwardedFor := CopyHeaderValues(conn, hdr, GetHeaders(r, hdr), xForwardedFor);
    }
  }

  /** One more header name extends the loop's calls and flags by that header's share. */
  lemma HeaderStep(p: ProxyPolicy, connHdr: Option<string>, r: Request, names: seq<string>, i: int)
    requires 0 <= i < |names|
    ensures var hdr := names[i];
      && HeaderOps(p, connHdr, r, names[..i + 1]) == HeaderOps(p, connHdr, r, names[..i])
           + (if Survives(p, connHdr, hdr) then ValueOps(hdr, GetHeaders(r, hdr)) else [])
      && ForwardsXff(p, connHdr, r, names[..i + 1]) == (ForwardsXff(p, connHdr, r, names[..i])
           || (Survives(p, connHdr, hdr) && EqualsIgnoreCase("X-Forwarded-For", hdr) && GetHeaders(r, hdr) != []))
      && ForwardsContentType(p, connHdr, names[..i + 1]) == (ForwardsContentType(p, connHdr, names[..i])
           || (Survives(p, connHdr, hdr) && ToLower(hdr) == "content-type"))
  {
    assert names[..i + 1][..i] == names[..i];
  }

  /** The filters of the header loop, in the order the loop applies them. */
  method Filter(p: ProxyPolicy, connHdr: Option<string>, hdr: string) returns (forward: bool)
    ensures forward == Survives(p, connHdr, hdr)
  {
    var lhdr := ToLower(hdr);
    if lhdr == "cookie" {
      // handed to proxyCookies, which only logs the cookies
      return false;
    }
    if IgnoreRequestHeader(p, lhdr) {
      return false;
    }
    if connHdr.Some? && IndexOf(connHdr.value, lhdr) >= 0 {
      return false;
    }
    if lhdr == "host" {
      // the target's authority is not sent either
      return false;
    }
    return true;
  }

  /** The inner loop: every value of one header, in order; xForwardedFor |= the name is X-Forwarded-For. */
  method CopyHeaderValues(conn: UrlConnection, hdr: string, vals: seq<string>, xffIn: bool) returns (xForwardedFor: bool)
    modifies conn
    ensures conn.ops == old(conn.ops) + ValueOps(hdr, vals)
    ensures xForwardedFor == (xffIn || (vals != [] && EqualsIgnoreCase("X-Forwarded-For", hdr)))
  {
    xForwardedFor := xffIn;
    var k := 0;
    while k < |vals|
      invariant 0 <= k <= |vals|
      invariant conn.ops == old(conn.ops) + ValueOps(hdr, vals[..k])
      invariant xForwardedFor == (xffIn || (k > 0 && EqualsIgnoreCase("X-Forwarded-For", hdr)))
    {
      assert ValueOps(hdr, vals[..k + 1]) == ValueOps(hdr, vals[..k]) + [AddRequestProperty(hdr, vals[k])];
      conn.Perform(AddRequestProperty(hdr, vals[k]));
      xForwardedFor := xForwardedFor || EqualsIgnoreCase("X-Forwarded-For", hdr);
      k := k + 1;
    }
    assert vals[..k] == vals;
  }

  /** Every call the loop makes forwards a value of a surviving header under its own name. */
  lemma {:induction false} HeaderOpsOnlySurvivors(p: ProxyPolicy, connHdr: Option<string>, r: Request, names: seq<string>)
    ensures forall op :: op in HeaderOps(p, connHdr, r, names) ==>
      && op.AddRequestProperty?
      && op.name in names
      && Survives(p, connHdr, op.name)
      && op.value in GetHeaders(r, op.name)
  {
    if names != [] {
      var init, last := names[..|names| - 1], names[|names| - 1];
      HeaderOpsOnlySurvivors(p, connHdr, r, init);
      var vals := GetHeaders(r, last);
      forall op | op in (if Survives(p, connHdr, last) then ValueOps(last, vals) else [])
        ensures op.AddRequestProperty? && op.name == last && op.value in vals
      {
        var k :| 0 <= k < |vals| && ValueOps(last, vals)[k] == op;
      }
      forall op | op in init ensures op in names {
        var m :| 0 <= m < |init| && init[m] == op;
        assert names[m] == op;
      }
    }
  }

  /**
   * A forwarded header is never an ignored one, never Cookie, never Host, never one the
   * policy strips and never one named in the Connection header.
   */
  lemma NeverForwarded(p: ProxyPolicy, r: Request, op: ConnectionOp)
    requires op in HeaderOps(p, ConnectionHeader(r), r, HeaderNames(r))
    ensures op.AddRequestProperty?
    ensures ToLower(op.name) !in IGNORE_HEADER && ToLower(op.name) != "cookie" && ToLower(op.name) != "host"
    ensures !p.stripRequestHeader(ToLower(op.name))
    ensures ConnectionHeader(r).Some? ==> !Contains(ConnectionHeader(r).value, ToLower(op.name))
  {
    HeaderOpsOnlySurvivors(p, ConnectionHeader(r), r, HeaderNames(r));
  }

  /** Every value of every surviving header is forwarded. */
  lemma {:induction false} SurvivorsForwarded(p: ProxyPolicy, connHdr: Option<string>, r: Request,
                                               names: seq<string>, j: int, v: string)
    requires 0 <= j < |names| && Survives(p, connHdr, names[j]) && v in GetHeaders(r, names[j])
    ensures AddRequestProperty(names[j], v) in HeaderOps(p, connHdr, r, names)
  {
    var init := names[..|names| - 1];
    if j < |names| - 1 {
      assert init[j] == names[j];
      SurvivorsForwarded(p, connHdr, r, init, j, v);
    } else {
      var vals := GetHeaders(r, names[j]);
      var k :| 0 <= k < |vals| && vals[k] == v;
      assert ValueOps(names[j], vals)[k] == AddRequestProperty(names[j], v);
    }
  }

  /** Headers are forwarded in enumeration order: the calls for a list are those of its parts. */
  lemma {:induction false} HeaderOpsAppend(p: ProxyPolicy, connHdr: Option<string>, r: Request, a: seq<string>, b: seq<string>)
    ensures HeaderOps(p, connHdr, r, a + b) == HeaderOps(p, connHdr, r, a) + HeaderOps(p, connHdr, r, b)
  {
    if b != [] {
      assert (a + b)[..|a + b| - 1] == a + b[..|b| - 1];
      HeaderOpsAppend(p, connHdr, r, a, b[..|b| - 1]);
    } else {
      assert a + b == a;
    }
  }

  /** The xForwardedFor flag is set exactly when an X-Forwarded-For value was forwarded. */
  lemma {:induction false} ForwardsXffIff(p: ProxyPolicy, connHdr: Option<string>, r: Request, names: seq<string>)
    ensures ForwardsXff(p, connHdr, r, names) <==>
      exists op :: op in HeaderOps(p, connHdr, r, names) && op.AddRequestProperty? && EqualsIgnoreCase(op.name, "X-Forwarded-For")
  {
    if names != [] {
      var init, last := names[..|names| - 1], names[|names| - 1];
      ForwardsXffIff(p, connHdr, r, init);
      var vals := GetHeaders(r, last);
      var tail := if Survives(p, connHdr, last) then ValueOps(last, vals) else [];
      assert HeaderOps(p, connHdr, r, names) == HeaderOps(p, connHdr, r, init) + tail;
      if Survives(p, connHdr, last) && EqualsIgnoreCase("X-Forwarded-For", last) && vals != [] {
        assert tail[0] in HeaderOps(p, connHdr, r, names);
      }
      forall op | op in tail ensures op.AddRequestProperty? && op.name == last {
        var k :| 0 <= k < |tail| && tail[k] == op;
      }
    }
  }

  /** The hasContentType flag is set exactly when a Content-Type header survived. */
  lemma {:induction false} ForwardsContentTypeIff(p: ProxyPolicy, connHdr: Option<string>, names: seq<string>)
    ensures ForwardsContentType(p, connHdr, names) <==>
      exists j :: 0 <= j < |names| && Survives(p, connHdr, names[j]) && ToLower(names[j]) == "content-type"
  {
    if names != [] {
      var init := names[..|names| - 1];
      ForwardsContentTypeIff(p, connHdr, init);
      if ForwardsContentType(p, connHdr, init) {
        var j :| 0 <= j < |init| && Survives(p, connHdr, init[j]) && ToLower(init[j]) == "content-type";
        assert names[j] == init[j];
      }
      if exists j :: 0 <= j < |names| && Survives(p, connHdr, names[j]) && ToLower(names[j]) == "content-type" {
        var j :| 0 <= j < |names| && Survives(p, connHdr, names[j]) && ToLower(names[j]) == "content-type";
        if j < |init| {
          assert init[j] == names[j];
        }
      }
    }
  }

  // ---------------------------------------------------------------- proxyRequest

  /** The request's Cache-Control asks for no-cache or no-store. */
  predicate NoCacheRequested(r: Request)
    ensures NoCacheRequested(r) ==> GetHeader(r, "Cache-Control").Some?
    ensures GetHeader(r, "Cache-Control").Some? && StartsWith(GetHeader(r, "Cache-Control").value, "no-cache") ==> NoCacheRequested(r)
    ensures GetHeader(r, "Cache-Control").Some? && StartsWith(GetHeader(r, "Cache-Control").value, "no-store") ==> NoCacheRequested(r)
  {
    var cc := GetHeader(r, "Cache-Control");
    if cc.None? then false
    else
      IndexOfFacts(cc.value, "no-cache");
      IndexOfFacts(cc.value, "no-store");
      assert StartsWith(cc.value, "no-cache") ==> OccursAt(cc.value, "no-cache", 0);
      assert StartsWith(cc.value, "no-store") ==> OccursAt(cc.value, "no-store", 0);
      Contains(cc.value, "no-cache") || Contains(cc.value, "no-store")
  }

  /**
   * Caching is refused exactly when the request has a Cache-Control header in which
   * "no-cache" or "no-store" occurs anywhere, not only at its start.
   */
  lemma NoCacheRequestedIff(r: Request)
    ensures NoCacheRequested(r) <==>
      && GetHeader(r, "Cache-Control").Some?
      && exists i :: OccursAt(GetHeader(r, "Cache-Control").value, "no-cache", i)
                  || OccursAt(GetHeader(r, "Cache-Control").value, "no-store", i)
  {
    var cc := GetHeader(r, "Cache-Control");
    if cc.Some? {
      IndexOfFacts(cc.value, "no-cache");
      IndexOfFacts(cc.value, "no-store");
    }
  }

  /** The request body is copied: a Content-Type survived and the method is exactly POST or PUT. */
  predicate SendsBody(r: Request, hasContentType: bool)
    ensures SendsBody(r, hasContentType) ==> hasContentType
    ensures r.httpMethod == "GET" ==> !SendsBody(r, hasContentType)
  {
    hasContentType && (r.httpMethod == "POST" || r.httpMethod == "PUT")
  }

  /**
   * The calls made on an HTTP connection before the headers: the method, the redirect
   * policy and the two X-Forwarded-*-Path properties; rootPath may refuse the request URL.
   */
  function HttpSetupOps(p: ProxyPolicy, r: Request): (res: Result<seq<ConnectionOp>, JavaException>)
    ensures res.Err? <==> RequestHelper.RootPath(r.requestUrl).Err?
    ensures res.Err? ==> res.error == RequestHelper.RootPath(r.requestUrl).error
    ensures res.Ok? ==> |res.value| == 4 && PropertiesOnly(res.value[2..])
  {
    match RequestHelper.RootPath(r.requestUrl)
    case Err(e) => Err(e)
    case Ok(root) =>
      Ok([SetRequestMethod(r.httpMethod), SetInstanceFollowRedirects(p.followRedirects),
          SetRequestProperty("X-Forwarded-Context-Path", root + r.contextPath),
          SetRequestProperty("X-Forwarded-Servlet-Path", r.servletPath)])
  }

  /** The calls made on a freshly opened connection before the headers, or what rootPath threw. */
  function OpeningOps(p: ProxyPolicy, r: Request, isHttp: bool): (res: Result<seq<ConnectionOp>, JavaException>)
    ensures res.Err? <==> isHttp && HttpSetupOps(p, r).Err?
    ensures res.Ok? ==> res.value == [SetAllowUserInteraction(false)] + (if isHttp then HttpSetupOps(p, r).value else [])
  {
    if !isHttp then Ok([SetAllowUserInteraction(false)])
    else match HttpSetupOps(p, r)
      case Err(e) => Err(e)
      case Ok(ops) => Ok([SetAllowUserInteraction(false)] + ops)
  }

  /**
   * The calls made after the method is set: the surviving headers, the hook's properties,
   * the proxy's own X-Forwarded-For when none went, cache control, the body, connect.
   */
  function TransferOps(p: ProxyPolicy, r: Request): seq<ConnectionOp> {
    var connHdr := ConnectionHeader(r);
    var names := HeaderNames(r);
    HeaderOps(p, connHdr, r, names)
      + TrailerOps(p, r, ForwardsXff(p, connHdr, r, names), NoCacheRequested(r), ForwardsContentType(p, connHdr, names))
  }

  /** The calls after the header loop, given the loop's two flags and the no-cache test. */
  function TrailerOps(p: ProxyPolicy, r: Request, xForwardedFor: bool, noCache: bool, hasContentType: bool)
    : (ops: seq<ConnectionOp>)
    ensures |ops| > |p.requestProperties| && ops[..|p.requestProperties|] == p.requestProperties
    ensures ops[|ops| - 1] == Connect
    ensures !xForwardedFor ==> ops[|p.requestProperties|] == AddRequestProperty("X-Forwarded-For", r.remoteAddr)
  {
    p.requestProperties
      + (if xForwardedFor then [] else [AddRequestProperty("X-Forwarded-For", r.remoteAddr)])
      + (if noCache then [SetUseCaches(false)] else [])
      + [SetDoInput(true)]
      + (if SendsBody(r, hasContentType) then [SetDoOutput(true), CopyRequestBody] else [])
      + [Connect]
  }

  lemma {:induction false} HeaderOpsAreProperties(p: ProxyPolicy, connHdr: Option<string>, r: Request, names: seq<string>)
    ensures PropertiesOnly(HeaderOps(p, connHdr, r, names))
  {
    HeaderOpsOnlySurvivors(p, connHdr, r, names);
    var ops := HeaderOps(p, connHdr, r, names);
    forall i | 0 <= i < |ops| ensures ops[i].AddRequestProperty? {
      assert ops[i] in ops;
    }
  }

  /**
   * The proxy adds `X-Forwarded-For: remoteAddr` right after the hook's properties exactly
   * when no X-Forwarded-For value of the client was forwarded; so one always goes upstream.
   */
  lemma XForwardedForAdded(p: ProxyPolicy, r: Request)
    ensures var connHdr, names := ConnectionHeader(r), HeaderNames(r);
      var k := |HeaderOps(p, connHdr, r, names)| + |p.requestProperties|;
      && k < |TransferOps(p, r)|
      && (TransferOps(p, r)[k] == AddRequestProperty("X-Forwarded-For", r.remoteAddr) <==>
          !exists op :: op in HeaderOps(p, connHdr, r, names) && op.AddRequestProperty?
                          && EqualsIgnoreCase(op.name, "X-Forwarded-For"))
    ensures exists op :: op in TransferOps(p, r) && op.AddRequestProperty? && EqualsIgnoreCase(op.name, "X-Forwarded-For")
  {
    var connHdr, names := ConnectionHeader(r), HeaderNames(r);
    ForwardsXffIff(p, connHdr, r, names);
    var ops := TransferOps(p, r);
    var k := |HeaderOps(p, connHdr, r, names)| + |p.requestProperties|;
    if ForwardsXff(p, connHdr, r, names) {
      var op :| op in HeaderOps(p, connHdr, r, names) && op.AddRequestProperty? && EqualsIgnoreCase(op.name, "X-Forwarded-For");
      assert op in ops;
    } else {
      assert ops[k] == AddRequestProperty("X-Forwarded-For", r.remoteAddr);
      assert EqualsIgnoreCase("X-Forwarded-For", "X-Forwarded-For");
      assert ops[k] in ops;
    }
  }

  /**
   * The body is copied (after setDoOutput(true)) exactly when a Content-Type header survived
   * the filters and the method is POST or PUT.
   */
  lemma BodyCopiedIff(p: ProxyPolicy, r: Request)
    requires PropertiesOnly(p.requestProperties)
    ensures CopyRequestBody in TransferOps(p, r) <==>
      && (r.httpMethod == "POST" || r.httpMethod == "PUT")
      && exists j :: 0 <= j < |HeaderNames(r)| && Survives(p, ConnectionHeader(r), HeaderNames(r)[j])
                     && ToLower(HeaderNames(r)[j]) == "content-type"
  {
    var connHdr, names := ConnectionHeader(r), HeaderNames(r);
    ForwardsContentTypeIff(p, connHdr, names);
    HeaderOpsAreProperties(p, connHdr, r, names);
    TrailerMembership(p, r, HeaderOps(p, connHdr, r, names),
      ForwardsXff(p, connHdr, r, names), NoCacheRequested(r), ForwardsContentType(p, connHdr, names));
  }

  /** Caching is switched off exactly when the request's Cache-Control holds no-cache or no-store. */
  lemma CachingDisabledIff(p: ProxyPolicy, r: Request)
    requires PropertiesOnly(p.requestProperties)
    ensures SetUseCaches(false) in TransferOps(p, r) <==> NoCacheRequested(r)
  {
    var connHdr, names := ConnectionHeader(r), HeaderNames(r);
    HeaderOpsAreProperties(p, connHdr, r, names);
    TrailerMembership(p, r, HeaderOps(p, connHdr, r, names),
      ForwardsXff(p, connHdr, r, names), NoCacheRequested(r), ForwardsContentType(p, connHdr, names));
  }

  /** Behind header properties, the body is copied and caching refused exactly as the flags say. */
  lemma TrailerMembership(p: ProxyPolicy, r: Request, pre: seq<ConnectionOp>,
                          xForwardedFor: bool, noCache: bool, hasContentType: bool)
    requires PropertiesOnly(pre) && PropertiesOnly(p.requestProperties)
    ensures CopyRequestBody in pre + TrailerOps(p, r, xForwardedFor, noCache, hasContentType)
            <==> SendsBody(r, hasContentType)
    ensures SetUseCaches(false) in pre + TrailerOps(p, r, xForwardedFor, noCache, hasContentType)
            <==> noCache
  {
    var props := pre + p.requestProperties
      + (if xForwardedFor then [] else [AddRequestProperty("X-Forwarded-For", r.remoteAddr)]);
    var rest := (if noCache then [SetUseCaches(false)] else [])
      + [SetDoInput(true)]
      + (if SendsBody(r, hasContentType) then [SetDoOutput(true), CopyRequestBody] else [])
      + [Connect];
    assert pre + TrailerOps(p, r, xForwardedFor, noCache, hasContentType) == props + rest;
    assert PropertiesOnly(props);
    assert CopyRequestBody !in props;
    assert SetUseCaches(false) !in props;
  }

  // ---------------------------------------------------------------- copyResponseHeaders

  /** One (getHeaderFieldKey(h), getHeaderField(h)) pair; either may be null. */
  type HeaderField = (Option<string>, Option<string>)

  /** The target URL the connection was opened on. */
  datatype Target = Target(url: string, isHttp: bool, host: string)

  /**
   * What the target answers, as the connection reports it: the header fields by index, the
   * Set-Cookie parser, whether connecting fails (an IOException), the status line and the
   * two streams (None: null, or the stream could not be opened).
   */
  datatype Upstream = Upstream(
    headerFields: seq<HeaderField>,
    parseSetCookie: string -> seq<ParsedCookie>,
    connectFailure: Option<string>,
    responseCode: int,
    responseMessage: string,
    errorStream: Option<seq<Byte>>,
    inputStream: Option<seq<Byte>>)

  /** The field at index h; past the end both key and value are null. */
  function FieldAt(fields: seq<HeaderField>, h: nat): HeaderField {
    if h < |fields| then fields[h] else (None, None)
  }

  /** The index of the first (null, null) field, where the loop stops. */
  function FieldEnd(fields: seq<HeaderField>): (e: nat)
    ensures e <= |fields| && FieldAt(fields, e) == (None, None)
    ensures forall h :: 0 <= h < e ==> fields[h] != (None, None)
  {
    if fields == [] then 0
    else if fields[0] == (None, None) then 0
    else
      var e := 1 + FieldEnd(fields[1..]);
      assert forall h :: 1 <= h < e ==> fields[h] == fields[1..][h - 1];
      e
  }

  /** A processed response header the client gets unchanged: not Set-Cookie, not ignored. */
  predicate KeptResponseHeader(p: ProxyPolicy, hdr: string) {
    ToLower(hdr) != "set-cookie" && !IgnoreResponseHeader(p, ToLower(hdr))
  }

  /** The calls made on the response for one field. */
  function FieldActions(p: ProxyPolicy, r: Request, target: Target, up: Upstream, f: HeaderField): seq<ResponseAction> {
    if f.0.None? || f.1.None? then []
    else if ToLower(f.0.value) == "set-cookie" then SetCookieActions(r, target.host, up.parseSetCookie(f.1.value))
    else if IgnoreResponseHeader(p, ToLower(f.0.value)) then []
    else [AddHeader(f.0.value, f.1.value)]
  }

  /** The calls made on the response for the fields in order. */
  function FieldsActions(p: ProxyPolicy, r: Request, target: Target, up: Upstream, fields: seq<HeaderField>)
    : (acts: seq<ResponseAction>)
    ensures forall i :: 0 <= i < |acts| ==> acts[i].AddHeader? || acts[i].AddCookie?
  {
    if fields == [] then []
    else FieldsActions(p, r, target, up, fields[..|fields| - 1]) + FieldActions(p, r, target, up, fields[|fields| - 1])
  }

  /** The request attributes after recording `_response.<lower-cased name>` for each processed field. */
  function RecordAttributes(attrs: map<string, string>, fields: seq<HeaderField>): (m: map<string, string>)
    ensures forall k :: k in attrs ==> k in m
    ensures forall k :: k in m && (k !in attrs || m[k] != attrs[k]) ==> StartsWith(k, "_response.")
  {
    if fields == [] then attrs
    else
      var before := RecordAttributes(attrs, fields[..|fields| - 1]);
      var f := fields[|fields| - 1];
      if f.0.Some? && f.1.Some? then
        var key := "_response." + ToLower(f.0.value);
        assert StartsWith(key, "_response.") by { assert key[..10] == "_response."; }
        before[key := f.1.value]
      else before
  }

  /** The headers the proxy sets itself when a max-age is configured; `now` is the clock in ms. */
  function CacheHeaderActions(p: ProxyPolicy, now: int): (acts: seq<ResponseAction>)
    ensures p.maxAge <= 0 <==> acts == []
    ensures p.maxAge > 0 ==>
      && |acts| == 2 && acts[0].SetHeader? && acts[0].name == "Cache-Control"
      && acts[1].SetDateHeader? && acts[1].name == "Expires" && acts[1].millis - now == 1000 * p.maxAge
  {
    if p.maxAge > 0 then
      [SetHeader("Cache-Control", "public, max-age=" + IntToString(p.maxAge)),
       SetDateHeader("Expires", now + p.maxAge * 1000)]
    else []
  }

  /**
   * copyResponseHeaders: walks the fields until the first (null, null), translating
   * Set-Cookie, dropping ignored headers, adding the others and recording each processed
   * field as a request attribute; then the proxy's own cache headers.
   */
  method CopyResponseHeaders(p: ProxyPolicy, r: Request, target: Target, up: Upstream, now: int,
                             attrs: map<string, string>, response: HttpResponse)
    returns (attributes: map<string, string>)
    modifies response
    ensures response.actions == old(response.actions)
      + FieldsActions(p, r, target, up, up.headerFields[..FieldEnd(up.headerFields)])
      + CacheHeaderActions(p, now)
    ensures attributes == RecordAttributes(attrs, up.headerFields[..FieldEnd(up.headerFields)])
  {
    attributes := CopyHeaderFields(p, r, target, up, attrs, response);
    PerformAll(response, CacheHeaderActions(p, now));
  }

  /** The loop of copyResponseHeaders over the field index h. */
  method CopyHeaderFields(p: ProxyPolicy, r: Request, target: Target, up: Upstream,
                          attrs: map<string, string>, response: HttpResponse)
    returns (attributes: map<string, string>)
    modifies response
    ensures response.actions == old(response.actions)
      + FieldsActions(p, r, target, up, up.headerFields[..FieldEnd(up.headerFields)])
    ensures attributes == RecordAttributes(attrs, up.headerFields[..FieldEnd(up.headerFields)])
  {
    var fields := up.headerFields;
    attributes := attrs;
    var h := 0;
    var hdr, val := FieldAt(fields, h).0, FieldAt(fields, h).1;
    while hdr.Some? || val.Some?
      invariant 0 <= h <= FieldEnd(fields)
      invariant (hdr, val) == FieldAt(fields, h)
      invariant response.actions == old(response.actions) + FieldsActions(p, r, target, up, fields[..h])
      invariant attributes == RecordAttributes(attrs, fields[..h])
      decreases |fields| - h
    {
      assert h < FieldEnd(fields) by {
        assert FieldAt(fields, h) != FieldAt(fields, FieldEnd(fields));
      }
      attributes := CopyFieldAt(p, r, target, up, attrs, fields, h, old(response.actions), attributes, response);
      h := h + 1;
      hdr, val := FieldAt(fields, h).0, FieldAt(fields, h).1;
    }
    assert h == FieldEnd(fields);
  }

  /** One more field extends the loop's calls and recorded attributes by that field's share. */
  lemma FieldStep(p: ProxyPolicy, r: Request, target: Target, up: Upstream,
                  attrs: map<string, string>, fields: seq<HeaderField>, h: int)
    requires 0 <= h < |fields|
    ensures FieldsActions(p, r, target, up, fields[..h + 1])
      == FieldsActions(p, r, target, up, fields[..h]) + FieldActions(p, r, target, up, fields[h])
    ensures var f := fields[h];
      RecordAttributes(attrs, fields[..h + 1]) ==
        if f.0.Some? && f.1.Some? then RecordAttributes(attrs, fields[..h])["_response." + ToLower(f.0.value) := f.1.value]
        else RecordAttributes(attrs, fields[..h])
  {
    assert fields[..h + 1][..h] == fields[..h];
  }

  /** The loop body at index h, carrying the loop's two invariants from h to h + 1. */
  method CopyFieldAt(p: ProxyPolicy, r: Request, target: Target, up: Upstream,
                     attrs: map<string, string>, fields: seq<HeaderField>, h: nat,
                     ghost start: seq<ResponseAction>, attributesIn: map<string, string>, response: HttpResponse)
    returns (attributes: map<string, string>)
    requires h < |fields|
    requires response.actions == start + FieldsActions(p, r, target, up, fields[..h])
    requires attributesIn == RecordAttributes(attrs, fields[..h])
    modifies response
    ensures response.actions == start + FieldsActions(p, r, target, up, fields[..h + 1])
    ensures attributes == RecordAttributes(attrs, fields[..h + 1])
  {
    ghost var prefix := FieldsActions(p, r, target, up, fields[..h]);
    FieldStep(p, r, target, up, attrs, fields, h);
    AppendAssoc(start, prefix, FieldActions(p, r, target, up, fields[h]));
    attributes := CopyHeaderField(p, r, target, up, fields[h].0, fields[h].1, attributesIn, response);
  }

  /** One turn of that loop: the field (hdr, val), processed only when both are non-null. */
  method CopyHeaderField(p: ProxyPolicy, r: Request, target: Target, up: Upstream,
                         hdr: Option<string>, val: Option<string>,
                         attrs: map<string, string>, response: HttpResponse)
    returns (attributes: map<string, string>)
    modifies response
    ensures response.actions == old(response.actions) + FieldActions(p, r, target, up, (hdr, val))
    ensures attributes == if hdr.Some? && val.Some? then attrs["_response." + ToLower(hdr.value) := val.value] else attrs
  {
    attributes := attrs;
    if hdr.Some? && val.Some? {
      var lhdr := ToLower(hdr.value);
      if lhdr == "set-cookie" {
        PerformAll(response, SetCookieActions(r, target.host, up.parseSetCookie(val.value)));
      } else if IgnoreResponseHeader(p, lhdr) {
        // trapped by the proxy
      } else {
        response.Perform(AddHeader(hdr.value, val.value));
      }
      attributes := attributes["_response." + lhdr := val.value];
    }
  }

  /** Performs the calls in order (the addCookie loop of proxySetCookie). */
  method PerformAll(response: HttpResponse, acts: seq<ResponseAction>)
    modifies response
    ensures response.actions == old(response.actions) + acts
  {
    var i := 0;
    while i < |acts|
      invariant 0 <= i <= |acts|
      invariant response.actions == old(response.actions) + acts[..i]
    {
      assert acts[..i + 1] == acts[..i] + [acts[i]];
      response.Perform(acts[i]);
      i := i + 1;
    }
    assert acts[..i] == acts;
  }

  /**
   * What reaches the client from the header fields: each added header is a processed field
   * that is neither Set-Cookie nor ignored; each cookie is a proxied one; nothing else.
   */
  lemma {:induction false} FieldsActionsOrigin(p: ProxyPolicy, r: Request, target: Target, up: Upstream, fields: seq<HeaderField>)
    ensures forall a :: a in FieldsActions(p, r, target, up, fields) ==>
      || (a.AddHeader? && KeptResponseHeader(p, a.name) && (Some(a.name), Some(a.value)) in fields)
      || (a.AddCookie? && a.cookie.maxAge == COOKIE_MAX_AGE && a.cookie.path == r.servletPath
          && a.cookie.domain == CookieDomain(r.serverName) && |a.cookie.name| >= 6 && a.cookie.name[..6] == "proxy-")
  {
    if fields != [] {
      var init, f := fields[..|fields| - 1], fields[|fields| - 1];
      FieldsActionsOrigin(p, r, target, up, init);
      forall a | a in init ensures a in fields {
        var m :| 0 <= m < |init| && init[m] == a;
        assert fields[m] == a;
      }
      if f.0.Some? && f.1.Some? && ToLower(f.0.value) == "set-cookie" {
        var cs := up.parseSetCookie(f.1.value);
        forall a | a in SetCookieActions(r, target.host, cs)
          ensures a.AddCookie? && a.cookie.maxAge == COOKIE_MAX_AGE && a.cookie.path == r.servletPath
            && a.cookie.domain == CookieDomain(r.serverName) && |a.cookie.name| >= 6 && a.cookie.name[..6] == "proxy-"
        {
          var k :| 0 <= k < |cs| && SetCookieActions(r, target.host, cs)[k] == a;
        }
      }
    }
  }

  /** Every processed field that is neither Set-Cookie nor ignored reaches the client. */
  lemma {:induction false} KeptFieldsForwarded(p: ProxyPolicy, r: Request, target: Target, up: Upstream,
                                               fields: seq<HeaderField>, i: int)
    requires 0 <= i < |fields| && fields[i].0.Some? && fields[i].1.Some? && KeptResponseHeader(p, fields[i].0.value)
    ensures AddHeader(fields[i].0.value, fields[i].1.value) in FieldsActions(p, r, target, up, fields)
  {
    if i < |fields| - 1 {
      var init := fields[..|fields| - 1];
      assert init[i] == fields[i];
      KeptFieldsForwarded(p, r, target, up, init, i);
    }
  }

  /**
   * With a max-age configured, the target's own Cache-Control and Expires never reach the
   * client, and the proxy's come last.
   */
  lemma MaxAgeReplacesCacheHeaders(p: ProxyPolicy, r: Request, target: Target, up: Upstream,
                                   fields: seq<HeaderField>, now: int)
    requires p.maxAge > 0
    ensures forall a :: a in FieldsActions(p, r, target, up, fields) && a.AddHeader? ==>
      ToLower(a.name) != "cache-control" && ToLower(a.name) != "expires"
    ensures CacheHeaderActions(p, now) ==
      [SetHeader("Cache-Control", "public, max-age=" + IntToString(p.maxAge)),
       SetDateHeader("Expires", now + p.maxAge * 1000)]
  {
    FieldsActionsOrigin(p, r, target, up, fields);
  }

  /** An attribute is recorded exactly for the lower-cased name of each processed field. */
  lemma {:induction false} RecordAttributesKeys(attrs: map<string, string>, fields: seq<HeaderField>, key: string)
    ensures key in RecordAttributes(attrs, fields) <==>
      key in attrs || exists i :: 0 <= i < |fields| && fields[i].0.Some? && fields[i].1.Some?
                                  && key == "_response." + ToLower(fields[i].0.value)
  {
    if fields != [] {
      var init := fields[..|fields| - 1];
      RecordAttributesKeys(attrs, init, key);
      if exists i :: 0 <= i < |init| && init[i].0.Some? && init[i].1.Some? && key == "_response." + ToLower(init[i].0.value) {
        var i :| 0 <= i < |init| && init[i].0.Some? && init[i].1.Some? && key == "_response." + ToLower(init[i].0.value);
        assert fields[i] == init[i];
      }
      if exists i :: 0 <= i < |fields| && fields[i].0.Some? && fields[i].1.Some? && key == "_response." + ToLower(fields[i].0.value) {
        var i :| 0 <= i < |fields| && fields[i].0.Some? && fields[i].1.Some? && key == "_response." + ToLower(fields[i].0.value);
        if i < |init| {
          assert init[i] == fields[i];
        }
      }
    }
  }

  // ---------------------------------------------------------------- proxyResponse

  /**
   * What proxyResponse does: the calls on the response, whether the recorded Content-Length
   * disagrees with the bytes copied (only logged), and a NumberFormatException that escapes
   * when that recorded length is not a number.
   */
  datatype ResponseEffect = ResponseEffect(actions: seq<ResponseAction>, lengthMismatch: bool, escaped: Option<JavaException>)

  /**
   * proxyResponse on the connection `up` (None: the null connection CONNECT leaves behind).
   * An HTTP connection reports its status line and its error stream, which is preferred;
   * otherwise the code is 500 and the message "Error".
   */
  function ProxyResponse(isHttp: bool, up: Option<Upstream>, attrs: map<string, string>): (e: ResponseEffect)
    ensures var code := if up.Some? && isHttp then up.value.responseCode else 500;
      var msg := if up.Some? && isHttp then up.value.responseMessage else "Error";
      var stream := if up.Some? && isHttp && up.value.errorStream.Some? then up.value.errorStream
                    else if up.Some? then up.value.inputStream else None;
      && (stream.None? ==> e == ResponseEffect([SendError(code, msg)], false, None))
      && (stream.Some? ==> e.actions == [SetStatus(code), WriteBody(stream.value)])
  {
    var code := if up.Some? && isHttp then up.value.responseCode else 500;
    var msg := if up.Some? && isHttp then up.value.responseMessage else "Error";
    var proxyIn := if up.Some? && isHttp then up.value.errorStream else None;
    var proxyIn := if proxyIn.None? && up.Some? then up.value.inputStream else proxyIn;
    if proxyIn.None? then ResponseEffect([SendError(code, msg)], false, None)
    else
      var bytes := proxyIn.value;
      var acts := [SetStatus(code), WriteBody(bytes)];
      if "_response.content-length" !in attrs then ResponseEffect(acts, false, None)
      else
        var s := attrs["_response.content-length"];
        match ParseInt(s)
        case None => ResponseEffect(acts, false, Some(NumberFormat(s)))
        case Some(n) => ResponseEffect(acts, n != |bytes|, None)
  }

  /**
   * A wrong Content-Length is only noticed: the calls on the response do not depend on the
   * recorded attributes, and only a non-numeric length makes an exception escape.
   */
  lemma ContentLengthOnlyLogged(isHttp: bool, up: Option<Upstream>, a1: map<string, string>, a2: map<string, string>)
    ensures ProxyResponse(isHttp, up, a1).actions == ProxyResponse(isHttp, up, a2).actions
    ensures ProxyResponse(isHttp, up, a1).escaped.Some? ==>
      "_response.content-length" in a1 && ParseInt(a1["_response.content-length"]).None?
    ensures ProxyResponse(isHttp, up, a1).lengthMismatch ==>
      "_response.content-length" in a1 && ParseInt(a1["_response.content-length"]).Some?
  {
  }

  // ---------------------------------------------------------------- service

  /** What connectSocket does to the response before tunnelling (the tunnel is not modelled). */
  const CONNECT_ACTIONS: seq<ResponseAction> := [SetStatus(200), SetHeader("Connection", "close"), FlushBuffer]

  /**
   * service(request, response): proxyRequest then proxyResponse, with a
   * RequestHandlingException from getTargetUrl performed by its `go`. `target` is what
   * getTargetUrl answers; `now` is the clock. Returns the calls made on the connection,
   * the request attributes and the exception that escapes service, if any.
   */
  method Service(p: ProxyPolicy, r: Request, target: Result<Target, RequestHandling.RequestHandlingException>,
                 up: Upstream, now: int, attrs: map<string, string>, response: HttpResponse)
    returns (connectionOps: seq<ConnectionOp>, attributes: map<string, string>, escaped: Option<JavaException>)
    modifies response
    ensures target.Err? ==>
      && response.actions == old(response.actions) + [RequestHandling.Go(target.error, r).action]
      && connectionOps == [] && attributes == attrs && escaped.None?
    ensures target.Ok? && EqualsIgnoreCase("CONNECT", r.httpMethod) ==>
      && response.actions == old(response.actions) + CONNECT_ACTIONS + [SendError(500, "Error")]
      && connectionOps == [] && attributes == attrs && escaped.None?
    ensures target.Ok? && !EqualsIgnoreCase("CONNECT", r.httpMethod) && OpeningOps(p, r, target.value.isHttp).Err? ==>
      && response.actions == old(response.actions)
      && escaped == Some(OpeningOps(p, r, target.value.isHttp).error)
    ensures target.Ok? && !EqualsIgnoreCase("CONNECT", r.httpMethod) && OpeningOps(p, r, target.value.isHttp).Ok? ==>
      var fields := up.headerFields[..FieldEnd(up.headerFields)];
      var effect := ProxyResponse(target.value.isHttp, Some(up), RecordAttributes(attrs, fields));
      && connectionOps == OpeningOps(p, r, target.value.isHttp).value + TransferOps(p, r)
      && attributes == RecordAttributes(attrs, fields)
      && response.actions == old(response.actions)
           + FieldsActions(p, r, target.value, up, fields) + CacheHeaderActions(p, now)
           + (if up.connectFailure.Some? then [] else effect.actions)
      && escaped == (if up.connectFailure.Some? then Some(IOFailure(up.connectFailure.value)) else effect.escaped)
  {
    attributes := attrs;
    connectionOps := [];
    escaped := None;
    if target.Err? {
      response.Perform(RequestHandling.Go(target.error, r).action);
      return;
    }
    if EqualsIgnoreCase("CONNECT", r.httpMethod) {
      PerformAll(response, CONNECT_ACTIONS);
      var effect := ProxyResponse(false, None, attributes);
      PerformAll(response, effect.actions);
      return;
    }
    var failure;
    connectionOps, attributes, failure := ProxyRequest(p, r, target.value, up, now, attributes, response);
    if failure.Some? {
      return connectionOps, attributes, failure;
    }
    var effect := ProxyResponse(target.value.isHttp, Some(up), attributes);
    PerformAll(response, effect.actions);
    escaped := effect.escaped;
  }

  /**
   * proxyRequest for a request other than CONNECT: opens the connection, configures it,
   * copies the headers, connects and, in the finally block, copies the response headers.
   * Returns the calls made on a connection that got as far as the header loop (none
   * otherwise), the request attributes and the exception that escapes, if any.
   */
  method ProxyRequest(p: ProxyPolicy, r: Request, target: Target, up: Upstream, now: int,
                      attrs: map<string, string>, response: HttpResponse)
    returns (connectionOps: seq<ConnectionOp>, attributes: map<string, string>, escaped: Option<JavaException>)
    modifies response
    ensures OpeningOps(p, r, target.isHttp).Err? ==>
      && response.actions == old(response.actions)
      && connectionOps == [] && attributes == attrs
      && escaped == Some(OpeningOps(p, r, target.isHttp).error)
    ensures OpeningOps(p, r, target.isHttp).Ok? ==>
      var fields := up.headerFields[..FieldEnd(up.headerFields)];
      && connectionOps == OpeningOps(p, r, target.isHttp).value + TransferOps(p, r)
      && attributes == RecordAttributes(attrs, fields)
      && response.actions == old(response.actions) + FieldsActions(p, r, target, up, fields) + CacheHeaderActions(p, now)
      && escaped == (if up.connectFailure.Some? then Some(IOFailure(up.connectFailure.value)) else None)
  {
    var opening := OpeningOps(p, r, target.isHttp);
    if opening.Err? {
      return [], attrs, Some(opening.error);
    }
    connectionOps, attributes, escaped := Exchange(p, r, target, up, now, attrs, response, opening.value);
  }

  /** proxyRequest once the connection is open and set up with `opening`. */
  method Exchange(p: ProxyPolicy, r: Request, target: Target, up: Upstream, now: int,
                  attrs: map<string, string>, response: HttpResponse, opening: seq<ConnectionOp>)
    returns (connectionOps: seq<ConnectionOp>, attributes: map<string, string>, escaped: Option<JavaException>)
    modifies response
    ensures var fields := up.headerFields[..FieldEnd(up.headerFields)];
      && connectionOps == opening + TransferOps(p, r)
      && attributes == RecordAttributes(attrs, fields)
      && response.actions == old(response.actions) + FieldsActions(p, r, target, up, fields) + CacheHeaderActions(p, now)
      && escaped == (if up.connectFailure.Some? then Some(IOFailure(up.connectFailure.value)) else None)
  {
    var conn := new UrlConnection();
    PerformOps(conn, opening);
    assert conn.ops == opening;
    SendRequest(p, r, conn);
    // finally: the response headers are copied even when connecting failed
    attributes := CopyResponseHeaders(p, r, target, up, now, attrs, response);
    connectionOps := conn.ops;
    escaped := if up.connectFailure.Some? then Some(IOFailure(up.connectFailure.value)) else None;
  }

  /**
   * proxyRequest from the header loop to connect(): the loop, then the calls TrailerOps
   * lists for its two flags and the request's Cache-Control.
   */
  method SendRequest(p: ProxyPolicy, r: Request, conn: UrlConnection)
    modifies conn
    ensures conn.ops == old(conn.ops) + TransferOps(p, r)
  {
    var connHdr := ConnectionHeader(r);
    var xForwardedFor, hasContentType := CopyRequestHeaders(p, r, connHdr, conn);
    ghost var headerOps := HeaderOps(p, connHdr, r, HeaderNames(r));
    ghost var forwarded := conn.ops;
    var noCache := NoCacheRequested(r);
    var trailer := TrailerOps(p, r, xForwardedFor, noCache, hasContentType);
    PerformOps(conn, trailer);
    assert TransferOps(p, r) == headerOps + trailer;
    AppendAssoc(old(conn.ops), headerOps, trailer);
  }

  /** Performs the calls in order on the connection. */
  method PerformOps(conn: UrlConnection, ops: seq<ConnectionOp>)
    modifies conn
    ensures conn.ops == old(conn.ops) + ops
  {
    var i := 0;
    while i < |ops|
      invariant 0 <= i <= |ops|
      invariant conn.ops == old(conn.ops) + ops[..i]
    {
      assert ops[..i + 1] == ops[..i] + [ops[i]];
      conn.Perform(ops[i]);
      i := i + 1;
    }
    assert ops[..i] == ops;
  }

  /** A CONNECT request ends, after the tunnel, in sendError(500, "Error") on the null connection. */
  lemma ConnectEndsInError(attrs: map<string, string>)
    ensures ProxyResponse(false, None, attrs) == ResponseEffect([SendError(500, "Error")], false, None)
  {
  }
}
