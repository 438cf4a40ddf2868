/**
 * The hosting server's side of a request, reduced to what the proxy and the filter read
 * from an HttpServletRequest and what they do to an HttpServletResponse.
 */
module Servlet {
  import opened Wrappers
  import opened JavaLang

  /** One request header as getHeaderNames()/getHeaders(name) present it. */
  datatype Header = Header(name: string, values: seq<string>)

  /**
   * An HttpServletRequest. `urlProtocol`, `urlHost` and `urlPort` are what
   * `new URL(getRequestURL())` reports (port -1 when the URL names none). `headers` lists
   * each header name once, with all its values, as the container groups them
   * (`OneEntryPerName`); a list with two entries whose names differ only in case is seen
   * through its first entry only.
   */
  datatype Request = Request(
    httpMethod: string,
    requestUrl: string,
    requestUri: string,
    urlProtocol: string,
    urlHost: string,
    urlPort: int,
    contextPath: string,
    servletPath: string,
    pathInfo: Option<string>,
    queryString: Option<string>,
    headers: seq<Header>,
    remoteAddr: string,
    serverName: string)

  /** The index of the first header whose name equals `name` ignoring case, or |hs|. */
  function HeaderIndex(hs: seq<Header>, name: string): (i: nat)
    ensures i <= |hs|
    ensures i < |hs| ==> EqualsIgnoreCase(hs[i].name, name)
    ensures forall j :: 0 <= j < i ==> !EqualsIgnoreCase(hs[j].name, name)
  {
    if hs == [] then 0
    else if EqualsIgnoreCase(hs[0].name, name) then 0
    else 1 + HeaderIndex(hs[1..], name)
  }

  /** getHeaders(name): the values of the header with that name, ignoring case. */
  function GetHeaders(r: Request, name: string): seq<string> {
    var i := HeaderIndex(r.headers, name);
    if i < |r.headers| then r.headers[i].values else []
  }

  /** No two entries name the same header, ignoring case. */
  predicate OneEntryPerName(hs: seq<Header>) {
    forall i, j :: 0 <= i < j < |hs| ==> !EqualsIgnoreCase(hs[i].name, hs[j].name)
  }

  /**
   * With one entry per name, getHeaders(name) is the values of the entry named so,
   * whichever case the caller spells the name in.
   */
  lemma GetHeadersOfEntry(r: Request, name: string, k: int)
    requires OneEntryPerName(r.headers)
    requires 0 <= k < |r.headers| && EqualsIgnoreCase(r.headers[k].name, name)
    ensures GetHeaders(r, name) == r.headers[k].values
  {
    assert HeaderIndex(r.headers, name) <= k;
  }

  /** getHeader(name): the first value of that header, or null. */
  function GetHeader(r: Request, name: string): Option<string> {
    var vs := GetHeaders(r, name);
    if vs == [] then None else Some(vs[0])
  }

  /** A javax.servlet.http.Cookie as the proxy fills it in. */
  datatype Cookie = Cookie(
    name: string,
    value: string,
    comment: string,
    domain: string,
    path: string,
    maxAge: int,
    version: int)

  /** One call made on an HttpServletResponse. */
  datatype ResponseAction =
    | SetStatus(code: int)
    | SetStatusMessage(code: int, message: string)
    | SendError(code: int, message: string)
    | SendRedirect(location: string)
    | Dispatch(uri: string)
    | AddHeader(name: string, value: string)
    | SetHeader(name: string, value: string)
    | SetDateHeader(name: string, millis: int)
    | AddCookie(cookie: Cookie)
    | SetContentType(contentType: Option<string>)
    | SetContentLength(length: int)
    | FlushBuffer
    | WriteBody(bytes: seq<Byte>)

  /** A client-facing response: the calls made on it, in order. */
  class HttpResponse {
    var actions: seq<ResponseAction>

    constructor ()
      ensures actions == []
    {
      actions := [];
    }

    method Perform(a: ResponseAction)
      modifies this
      ensures actions == old(actions) + [a]
    {
      actions := actions + [a];
    }
  }
}
