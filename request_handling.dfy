/**
 * RequestHandlingException: a way of answering a request other than proxying it (an error,
 * a redirect, a forward), raised as a value and performed exactly once by `go`.
 */
module RequestHandling {
  import opened Wrappers
  import opened JavaLang
  import opened Servlet
  import RequestHelper

  const SC_FORBIDDEN: int := 403
  const SC_NOT_FOUND: int := 404
  const SC_INTERNAL_SERVER_ERROR: int := 500

  /** Which anonymous subclass a factory created, with the value its `go` closes over. */
  datatype Kind =
    | Forwarding(uri: string)
    | Failing(code: int)
    | Redirecting(url: string)
    | RedirectingLocal(localPath: string)
    | Appending(suffix: string)

  /** An exception: its kind, its message (getMessage()) and the `quiet` flag. */
  datatype RequestHandlingException = RequestHandlingException(kind: Kind, message: string, quiet: bool)
  {
    /** noLog: sets `quiet` and hands back the same exception. */
    function NoLog(): (e: RequestHandlingException)
      ensures e.quiet
      ensures e.kind == kind && e.message == message
    {
      this.(quiet := true)
    }

    predicate IsLogEnabled() {
      !quiet
    }
  }

  /** Calling noLog twice is the same as calling it once. */
  lemma NoLogIdempotent(e: RequestHandlingException)
    ensures e.NoLog().NoLog() == e.NoLog()
    ensures !e.NoLog().IsLogEnabled()
  {
  }

  // ---------------------------------------------------------------- factories

  function Forward(uri: string): (e: RequestHandlingException)
    ensures e.kind == Forwarding(uri) && e.message == "forward to " + uri && e.IsLogEnabled()
  {
    RequestHandlingException(Forwarding(uri), "forward to " + uri, false)
  }

  function Error(message: string, errorCode: int): (e: RequestHandlingException)
    ensures e.kind == Failing(errorCode) && e.message == message && e.IsLogEnabled()
  {
    RequestHandlingException(Failing(errorCode), message, false)
  }

  /** notFoundError() without a message. */
  function ResourceNotFound(): (e: RequestHandlingException)
    ensures e == NotFoundError("resource not found")
  {
    NotFoundError("resource not found")
  }

  function NotFoundError(message: string): (e: RequestHandlingException)
    ensures e.kind == Failing(404) && e.message == message
  {
    Error(message, SC_NOT_FOUND)
  }

  function ForbiddenError(message: string): (e: RequestHandlingException)
    ensures e.kind == Failing(403) && e.message == message
  {
    Error(message, SC_FORBIDDEN)
  }

  /** internalServerError(message); internalServerError(cause) passes cause.getMessage() here. */
  function InternalServerError(message: string): (e: RequestHandlingException)
    ensures e.kind == Failing(500) && e.message == message
  {
    Error(message, SC_INTERNAL_SERVER_ERROR)
  }

  /** redirect(url); redirect(URL) passes url.toExternalForm() here. */
  function Redirect(url: string): (e: RequestHandlingException)
    ensures e.kind == Redirecting(url) && e.message == "redirect to " + url && e.IsLogEnabled()
  {
    RequestHandlingException(Redirecting(url), "redirect to " + url, false)
  }

  function RedirectLocal(localPath: string): (e: RequestHandlingException)
    ensures e.kind == RedirectingLocal(localPath) && e.message == "redirect to " + localPath && e.IsLogEnabled()
  {
    RequestHandlingException(RedirectingLocal(localPath), "redirect to " + localPath, false)
  }

  function AppendToUrl(s: string): (e: RequestHandlingException)
    ensures e.kind == Appending(s) && e.message == "append '" + s + "'" && e.IsLogEnabled()
  {
    RequestHandlingException(Appending(s), "append '" + s + "'", false)
  }

  // ---------------------------------------------------------------- go

  /**
   * `new URL(protocol, host, port, file).toExternalForm()`: the authority is the host, with
   * ":port" unless the port is -1, and "//" is written only before a non-empty authority.
   */
  function ExternalForm(protocol: string, host: string, port: int, file: string): (url: string)
    ensures host != "" ==> StartsWith(url, protocol + "://" + host)
    ensures port == -1 && host == "" ==> url == protocol + ":" + file
  {
    var authority := if port == -1 then host else host + ":" + IntToString(port);
    var url := protocol + ":" + (if authority != "" then "//" + authority else "") + file;
    assert host != "" ==> url[..|protocol| + 3 + |host|] == protocol + "://" + host;
    url
  }

  /** getRequestURL(), followed by "?" and the query string when there is one. */
  function RequestUrlWithQuery(r: Request): string {
    r.requestUrl + (if r.queryString.Some? then "?" + r.queryString.value else "")
  }

  /** What `go` does: an optional info log line and exactly one call on the response. */
  datatype GoEffect = GoEffect(logLine: Option<string>, action: ResponseAction)

  /** go(request, response) of the exception `e`. */
  function Go(e: RequestHandlingException, r: Request): (g: GoEffect)
    ensures g.action.SendError? <==> e.kind.Failing?
    ensures g.action.Dispatch? <==> e.kind.Forwarding?
    ensures g.action.SendRedirect? <==> e.kind.Redirecting? || e.kind.RedirectingLocal? || e.kind.Appending?
    ensures e.kind.Failing? ==> g.action == SendError(e.kind.code, e.message)
    ensures g.logLine.Some? <==> e.kind.Failing? && e.IsLogEnabled()
    ensures e.kind.Forwarding? ==> g.action == Dispatch(e.kind.uri)
    ensures e.kind.Redirecting? ==> g.action == SendRedirect(e.kind.url)
  {
    match e.kind
    case Forwarding(uri) => GoEffect(None, Dispatch(uri))
    case Failing(code) =>
      var line := r.httpMethod + " " + RequestUrlWithQuery(r) + " - " + IntToString(code) + ": " + e.message;
      GoEffect(if e.IsLogEnabled() then Some(line) else None, SendError(code, e.message))
    case Redirecting(url) => GoEffect(None, SendRedirect(url))
    case RedirectingLocal(localPath) =>
      GoEffect(None, SendRedirect(ExternalForm(r.urlProtocol, r.urlHost, r.urlPort, r.contextPath + localPath)))
    case Appending(s) =>
      var url := r.requestUrl + s + (if r.queryString.Some? then "?" + r.queryString.value else "");
      GoEffect(None, SendRedirect(url))
  }

  /** The error codes of the three named error factories. */
  lemma ErrorFactoryCodes(message: string, r: Request)
    ensures Go(NotFoundError(message), r).action == SendError(404, message)
    ensures Go(ForbiddenError(message), r).action == SendError(403, message)
    ensures Go(InternalServerError(message), r).action == SendError(500, message)
    ensures Go(NotFoundError(message).NoLog(), r).logLine.None?
  {
  }

  /**
   * A logged error names the method, the request URL with its query, the code and the
   * message; the code's rendering reads back as the code.
   */
  lemma ErrorLogLine(e: RequestHandlingException, r: Request)
    requires e.kind.Failing? && e.IsLogEnabled() && IsInt32(e.kind.code)
    ensures Go(e, r).logLine ==
      Some(r.httpMethod + " " + RequestUrlWithQuery(r) + " - " + IntToString(e.kind.code) + ": " + e.message)
    ensures ParseInt(IntToString(e.kind.code)) == Some(e.kind.code)
  {
    ParseIntOfIntToString(e.kind.code);
  }

  /**
   * appendToUrl(s) redirects to the request URL followed by `s` and then, whenever the
   * query string is non-null (even empty), by "?" and the query.
   */
  lemma AppendToUrlTarget(s: string, r: Request)
    ensures Go(AppendToUrl(s), r).action == SendRedirect(RequestUrlWithQuery(r.(requestUrl := r.requestUrl + s)))
    ensures r.queryString == Some("") ==> Go(AppendToUrl(s), r).action == SendRedirect(r.requestUrl + s + "?")
    ensures r.queryString.None? ==> Go(AppendToUrl(s), r).action == SendRedirect(r.requestUrl + s)
  {
  }

  /** An authority "host[:port]" built from a slash-free host has no slash in it. */
  lemma AuthorityNoSlash(host: string, port: int)
    requires RequestHelper.NoSlash(host) && port >= 0
    ensures RequestHelper.NoSlash(host + ":" + IntToString(port))
  {
    var digits := NatToString(port);
    assert IntToString(port) == digits;
    var authority := host + ":" + digits;
    forall i | 0 <= i < |authority| ensures authority[i] != '/' {
      if i < |host| {
        assert authority[i] == host[i];
      } else if i > |host| {
        assert authority[i] == digits[i - |host| - 1];
        assert IsDigit(digits[i - |host| - 1]);
      }
    }
  }

  /**
   * The external form of a URL with a host reads back, through RequestHelper.rootPath, as
   * protocol://host with ":port" exactly when a port is named, followed by the file.
   */
  lemma ExternalFormRoot(protocol: string, host: string, port: int, file: string)
    requires |protocol| > 0 && RequestHelper.AllWordChars(protocol)
    requires |host| > 0 && RequestHelper.NoSlash(host) && (port == -1 || port >= 0)
    requires |file| > 0 && file[0] == '/' && RequestHelper.NoLineTerminator(file[1..])
    ensures var root := protocol + "://" + host + (if port == -1 then "" else ":" + IntToString(port));
      && RequestHelper.RootPath(ExternalForm(protocol, host, port, file)) == Ok(root)
      && ExternalForm(protocol, host, port, file) == root + file
  {
    var authority := if port == -1 then host else host + ":" + IntToString(port);
    var root := protocol + "://" + host + (if port == -1 then "" else ":" + IntToString(port));
    assert root == protocol + "://" + authority by {
      if port != -1 {
        assert protocol + "://" + authority == protocol + "://" + host + (":" + IntToString(port));
      } else {
        assert protocol + "://" + authority == protocol + "://" + host + "";
      }
    }
    assert ExternalForm(protocol, host, port, file) == root + file;
    if port != -1 {
      AuthorityNoSlash(host, port);
    }
    RequestHelper.RootPathOfShape(protocol, authority, file);
  }

  /**
   * With a host, the external form is protocol://host, then ":port" when a port is named,
   * then the file; without host and port it is protocol: and the file.
   */
  lemma ExternalFormWithHost(protocol: string, host: string, port: int, file: string)
    ensures host != "" ==>
              ExternalForm(protocol, host, port, file) ==
              protocol + "://" + host + (if port == -1 then "" else ":" + IntToString(port)) + file
    ensures host == "" && port == -1 ==> ExternalForm(protocol, host, port, file) == protocol + ":" + file
  {
    if host != "" {
      if port == -1 {
        assert protocol + ":" + ("//" + host) + file == protocol + "://" + host + "" + file;
      } else {
        var p := IntToString(port);
        assert protocol + ":" + ("//" + (host + ":" + p)) + file == protocol + "://" + host + (":" + p) + file;
      }
    }
  }

  /**
   * redirectLocal(p) sends the client to protocol://host[:port] + contextPath + p, where the
   * protocol, host and port are those of the request URL; this holds for every request with a
   * host.
   */
  lemma RedirectLocalLocation(localPath: string, r: Request)
    ensures var location := Go(RedirectLocal(localPath), r).action;
      && location.SendRedirect?
      && (r.urlHost != "" ==>
            location.location ==
            r.urlProtocol + "://" + r.urlHost + (if r.urlPort == -1 then "" else ":" + IntToString(r.urlPort))
            + r.contextPath + localPath)
      && (r.urlHost == "" && r.urlPort == -1 ==> location.location == r.urlProtocol + ":" + r.contextPath + localPath)
  {
    var file := r.contextPath + localPath;
    assert Go(RedirectLocal(localPath), r).action ==
      SendRedirect(ExternalForm(r.urlProtocol, r.urlHost, r.urlPort, file)) by {
      assert RedirectLocal(localPath).kind == RedirectingLocal(localPath);
    }
    ExternalFormWithHost(r.urlProtocol, r.urlHost, r.urlPort, file);
    var root := r.urlProtocol + "://" + r.urlHost + (if r.urlPort == -1 then "" else ":" + IntToString(r.urlPort));
    AppendAssoc(root, r.contextPath, localPath);
    AppendAssoc(r.urlProtocol + ":", r.contextPath, localPath);
  }

  /**
   * For a request URL of the container's shape (a word-character scheme, a host without '/',
   * a path without line breaks), the redirect location reads back through rootPath as the
   * request's root.
   */
  lemma RedirectLocalTarget(localPath: string, r: Request)
    requires |r.urlProtocol| > 0 && RequestHelper.AllWordChars(r.urlProtocol)
    requires |r.urlHost| > 0 && RequestHelper.NoSlash(r.urlHost) && (r.urlPort == -1 || r.urlPort >= 0)
    requires |r.contextPath + localPath| > 0 && (r.contextPath + localPath)[0] == '/'
    requires RequestHelper.NoLineTerminator((r.contextPath + localPath)[1..])
    ensures Go(RedirectLocal(localPath), r).action ==
      SendRedirect(ExternalForm(r.urlProtocol, r.urlHost, r.urlPort, r.contextPath + localPath))
    ensures var root := r.urlProtocol + "://" + r.urlHost + (if r.urlPort == -1 then "" else ":" + IntToString(r.urlPort));
      var location := Go(RedirectLocal(localPath), r).action.location;
      && RequestHelper.RootPath(location) == Ok(root)
      && location == root + r.contextPath + localPath
  {
    var file := r.contextPath + localPath;
    var location := ExternalForm(r.urlProtocol, r.urlHost, r.urlPort, file);
    assert Go(RedirectLocal(localPath), r).action == SendRedirect(location) by {
      assert RedirectLocal(localPath).kind == RedirectingLocal(localPath);
    }
    var root := r.urlProtocol + "://" + r.urlHost + (if r.urlPort == -1 then "" else ":" + IntToString(r.urlPort));
    assert RequestHelper.RootPath(location) == Ok(root) && location == root + file by {
      ExternalFormRoot(r.urlProtocol, r.urlHost, r.urlPort, file);
    }
    AppendAssoc(root, r.contextPath, localPath);
  }
}
