# proxy-servlet in Dafny

This project models the decision logic of proxy-servlet, a Java servlet reverse proxy. The Dafny
files follow the repository's classes:

- `PatternReplacements` (`pattern_replacements.dfy`): the routing table. It is an ordered,
  append-only list of (pattern, replacement) rules, and the first rule whose pattern matches the
  whole input decides the result.
- `ProxyServlet` (`proxy_servlet.dfy`):
  - init-parameter parsing (`strip-request-header`, `strip-response-header`, `follow-redirects`,
    `max-age`, and paired `path-pattern<sfx>` / `target-url<sfx>`);
  - the string matched against the routes;
  - classification of a route's result as a 404, a local forward, a target URL or a 500;
  - the servlet's policy hooks for the proxy.
- `RequestHandlingException` (`request_handling.dfy`): the "answer differently" outcomes (forward,
  error, redirect, local redirect, append-to-URL). A `quiet` flag goes with each. `go` performs
  exactly one response action.
- `RequestProxy` (`request_proxy.dfy`):
  - the request-header copy loop, with the cookie, ignore-set, `Connection`-listed and `Host`
    filters;
  - `Content-Type` and `X-Forwarded-For` tracking;
  - the body and no-cache decisions;
  - the response-header loop: Set-Cookie translation, dropped headers, `_response.*` attributes,
    and synthesized cache headers;
  - the cookie domain, the response-stream choice, and `service`'s outcome dispatch.
- `ServletOutputStreamWrapper` (`streams.dfy`): a closed-flag state machine over a byte buffer.
- `ByteBufferedHttpServletResponseWrapper` (`buffered_response.dfy`): a response that buffers its
  body and captures status, content type and length.
  - The stream and the writer exclude each other.
  - The buffer is allocated lazily.
- `FormatConversionFilter` (`format_conversion.dfy`):
  - the magic-suffix path parser (`/img/logo.png_webp` fetches `/img/logo.png`);
  - the request wrapper;
  - the post-processing decision;
  - the filter's exception flow, with the downstream servlet given as a list of calls on the
    buffered response. The calls the wrapper does not override (`sendError`, `sendRedirect`,
    `addCookie`, the int and date headers) pass through to the wrapped response unchanged. An
    exception the servlet throws itself ends the chain and skips post-processing, as a failing
    wrapper call does.
- `RequestHelper` (`request_helper.dfy`): `rootPath` and `remoteAddr`.
- `TidyHtmlXmlTransformer` (`tidy_transformer.dfy`): configuration extraction, output properties,
  stylesheet selection, and the trimming error writer.

Supporting modules:
- `Wrappers`: `Option`, `Result`, bytes, and Java exceptions as values.
- `JavaLang`: the `java.lang.String` and `Integer` operations the code relies on: ASCII
  `toLowerCase`, `indexOf`, `lastIndexOf`, `parseInt` and `toString`.
- `Servlet`: the request as a record, and the response as an object that logs the calls made on
  it.

How Java constructs are modelled:
- Exceptions are `Result`/`Option` values.
- I/O is replaced by input sequences and output logs:
  - the outbound `URLConnection` configuration is a log of `ConnectionOp`s;
  - the servlet response is a log of `ResponseAction`s.
- Objects whose fields the source updates in place are Dafny classes. Each method is proved
  against a specification function of the old state.

## Model

| member | source | states |
|---|---|---|
| PatternReplacements.NewRule | src/main/java/net/sandum/servlet/PatternReplacements.java:20-27 | a rule is built exactly when both pattern and replacement are non-null; a null pattern is reported first ("null pattern not allowed"), then a null replacement |
| PatternReplacements.FirstMatchIsFirstRule | src/main/java/net/sandum/servlet/PatternReplacements.java:57-64 | when rule i is the first rule in insertion order whose pattern matches the whole input, the result is rule i's rewrite, whatever the later rules say |
| PatternReplacements.FirstMatchNoneIff | src/main/java/net/sandum/servlet/PatternReplacements.java:29-32 | there is no result (null) exactly when no rule's pattern matches the whole input |
| PatternReplacements.FirstMatchAppend | src/main/java/net/sandum/servlet/PatternReplacements.java:51-64 | appending a rule never changes an input an earlier rule already answers; the new rule is consulted only otherwise |
| PatternReplacements.PatternReplacements.constructor | src/main/java/net/sandum/servlet/PatternReplacements.java:51 | the table starts empty |
| PatternReplacements.PatternReplacements.AddPatternReplacement | src/main/java/net/sandum/servlet/PatternReplacements.java:53-55 | a valid rule is appended at the end and `true` returned; an invalid one throws and leaves the list unchanged |
| PatternReplacements.PatternReplacements.Match | src/main/java/net/sandum/servlet/PatternReplacements.java:57-64 | the early-return loop answers the first-match function of the list and modifies nothing |
| ProxyServlet.StripSetting | src/main/java/net/sandum/servlet/ProxyServlet.java:38-44 | an absent or empty parameter keeps the field; otherwise the pattern is the parameter compiled case-insensitively |
| ProxyServlet.FollowRedirectsSetting | src/main/java/net/sandum/servlet/ProxyServlet.java:46-48 | an absent or empty parameter keeps the field; "true" turns it on and "false" off |
| ProxyServlet.MaxAgeSetting | src/main/java/net/sandum/servlet/ProxyServlet.java:50-52 | an absent or empty parameter keeps the field; the only failure is a NumberFormatException on the value; a value read is a 32-bit int |
| ProxyServlet.PairedRules | src/main/java/net/sandum/servlet/ProxyServlet.java:54-66 | on success the table holds at most one rule per parameter name |
| ProxyServlet.PairedRulesStopsAtError | src/main/java/net/sandum/servlet/ProxyServlet.java:54-66 | once one parameter pairing throws, the later names no longer matter: init fails with that exception |
| ProxyServlet.PatternNames | src/main/java/net/sandum/servlet/ProxyServlet.java:56-59 | the loop considers exactly the parameter names starting with `path-pattern` |
| ProxyServlet.PairedRulesPairs | src/main/java/net/sandum/servlet/ProxyServlet.java:55-66 | on success there is one rule per `path-pattern<sfx>` name, in enumeration order, built from `path-pattern<sfx>` and `target-url<sfx>` with the same suffix |
| ProxyServlet.MissingTargetFails | src/main/java/net/sandum/servlet/ProxyServlet.java:63-70 | a `path-pattern<sfx>` without a `target-url<sfx>` makes init throw (the null replacement is refused) |
| ProxyServlet.MaxAgeSettingValues | src/main/java/net/sandum/servlet/ProxyServlet.java:50-52 | without `max-age` the field keeps its value; a decimal int is read back exactly; a non-number throws NumberFormatException |
| ProxyServlet.FollowRedirectsSettingValues | src/main/java/net/sandum/servlet/ProxyServlet.java:46-48 | without `follow-redirects` the field keeps its value; otherwise it is Boolean.valueOf: true exactly for "true" in any case |
| ProxyServlet.MatchInput | src/main/java/net/sandum/servlet/ProxyServlet.java:111-121 | the matched string is "" without pathInfo and query, starts with a non-empty pathInfo, and ends with "?" + query when the query is non-empty |
| ProxyServlet.NotFoundMessage | src/main/java/net/sandum/servlet/ProxyServlet.java:125-126 | the 404 message starts with pathInfo in double quotes, "null" when it is null |
| ProxyServlet.MatchInputSplits | src/main/java/net/sandum/servlet/ProxyServlet.java:111-121 | the matched string is pathInfo ("" when null or empty), followed by "?" and the query only when the query is non-empty; the first '?' separates the two |
| ProxyServlet.ClassifyReplacement | src/main/java/net/sandum/servlet/ProxyServlet.java:123-137 | no replacement gives a 404 quoting pathInfo; one starting with "/" gives a forward to exactly it without URL parsing; otherwise the parsed URL, or a 500 naming the bad URL |
| ProxyServlet.TargetUrl | src/main/java/net/sandum/servlet/ProxyServlet.java:123-137 | an empty table answers 404 with that message; a target URL comes only from a first-match rewrite that is not a local path, and is what that rewrite parses to |
| ProxyServlet.TargetUrlOutcomes | src/main/java/net/sandum/servlet/ProxyServlet.java:123-137 | the target is a 404 exactly when no rule fully matches the matched string; otherwise the first matching rule's rewrite decides between forward, URL and 500 |
| ProxyServlet.ProxyServlet.constructor | src/main/java/net/sandum/servlet/ProxyServlet.java:30-34 | no strip patterns, followRedirects false, maxAge -1 |
| ProxyServlet.ProxyServlet.Init | src/main/java/net/sandum/servlet/ProxyServlet.java:36-67 | each field is set from its parameter in source order; an invalid `max-age` throws before the table is built; the table is the paired rules, or init throws the first pairing error |
| ProxyServlet.ProxyServlet.AddNamedPattern | src/main/java/net/sandum/servlet/ProxyServlet.java:56-66 | one loop turn: a non-`path-pattern` name is skipped; otherwise the paired rule is appended, or the error that ends init is returned |
| ProxyServlet.ProxyServlet.AddProxyPatternTarget | src/main/java/net/sandum/servlet/ProxyServlet.java:69-72 | the compiled pattern and target are appended as a rule, or the rule's exception is thrown with the table unchanged |
| ProxyServlet.ProxyServlet.GetReplacement | src/main/java/net/sandum/servlet/ProxyServlet.java:111-121 | the answer is the routing table's first match on the matched string |
| ProxyServlet.ProxyServlet.GetProxyTargetUrl | src/main/java/net/sandum/servlet/ProxyServlet.java:123-137 | the outcome is the classification of the routing table's answer |
| ProxyServlet.ProxyServlet.Policy | src/main/java/net/sandum/servlet/ProxyServlet.java:74-109 | the anonymous proxy's hooks: this servlet's followRedirects and maxAge, and a single Via property "1.1 (" + servletName + ")" |
| ProxyServlet.ProxyServlet.Service | src/main/java/net/sandum/servlet/ProxyServlet.java:162-165 | a target failure performs that outcome's single `go` action; a proxied request opens the connection with the servlet's policy |
| ProxyServlet.PolicyIgnores | src/main/java/net/sandum/servlet/ProxyServlet.java:85-93 | a header is stripped exactly when the case-insensitive pattern fully matches it or the base policy ignores it; with no pattern, only the base ignore set applies |
| ProxyServlet.PolicyProperties | src/main/java/net/sandum/servlet/ProxyServlet.java:139-141 | the Via header always goes upstream, and the servlet's hook leaves the no-cache decision as the base proxy makes it |
| RequestHandling.RequestHandlingException.NoLog | src/main/java/net/sandum/util/servlet/RequestHandlingException.java:140-143 | noLog sets quiet and keeps the kind and the message |
| RequestHandling.NoLogIdempotent | src/main/java/net/sandum/util/servlet/RequestHandlingException.java:140-147 | calling noLog twice equals calling it once, and logging is then disabled |
| RequestHandling.Forward | src/main/java/net/sandum/util/servlet/RequestHandlingException.java:32-40 | a logged forward outcome with message "forward to " + uri |
| RequestHandling.Error | src/main/java/net/sandum/util/servlet/RequestHandlingException.java:62-77 | a logged error outcome carrying the given code and message |
| RequestHandling.ResourceNotFound | src/main/java/net/sandum/util/servlet/RequestHandlingException.java:42-44 | notFoundError() is notFoundError("resource not found") |
| RequestHandling.NotFoundError | src/main/java/net/sandum/util/servlet/RequestHandlingException.java:46-48 | an error outcome with code 404 and the message |
| RequestHandling.ForbiddenError | src/main/java/net/sandum/util/servlet/RequestHandlingException.java:50-52 | an error outcome with code 403 and the message |
| RequestHandling.InternalServerError | src/main/java/net/sandum/util/servlet/RequestHandlingException.java:54-56 | an error outcome with code 500 and the message |
| RequestHandling.Redirect | src/main/java/net/sandum/util/servlet/RequestHandlingException.java:79-87 | a logged redirect outcome with message "redirect to " + url |
| RequestHandling.RedirectLocal | src/main/java/net/sandum/util/servlet/RequestHandlingException.java:93-108 | a logged local-redirect outcome with message "redirect to " + localPath |
| RequestHandling.AppendToUrl | src/main/java/net/sandum/util/servlet/RequestHandlingException.java:110-124 | a logged append outcome with message "append '" + s + "'" |
| RequestHandling.Go | src/main/java/net/sandum/util/servlet/RequestHandlingException.java:32-138 | go performs exactly one action: sendError(code, message) for errors, a dispatch to the uri unchanged for forwards, sendRedirect for the three redirect kinds (a plain redirect to the url unchanged); the info log line exactly for non-quiet errors |
| RequestHandling.ErrorFactoryCodes | src/main/java/net/sandum/util/servlet/RequestHandlingException.java:42-77 | notFound, forbidden and internalServerError send 404, 403 and 500 with their message; a quiet error logs nothing |
| RequestHandling.ErrorLogLine | src/main/java/net/sandum/util/servlet/RequestHandlingException.java:67-72 | the log line is method, request URL with "?" + query when the query is non-null, code and message; the code's rendering reads back as the code |
| RequestHandling.AppendToUrlTarget | src/main/java/net/sandum/util/servlet/RequestHandlingException.java:110-124 | the redirect goes to request URL + s, then "?" + query whenever the query is non-null, so an empty query still adds "?" |
| RequestHandling.ExternalForm | src/main/java/net/sandum/util/servlet/RequestHandlingException.java:98-105 | with a host the URL starts with protocol://host; with neither host nor port it is protocol: followed by the file |
| RequestHandling.ExternalFormRoot | src/main/java/net/sandum/util/servlet/RequestHandlingException.java:98-105 | the rebuilt URL is protocol://host, ":port" exactly when the port is not -1, then the file; rootPath reads that prefix back |
| RequestHandling.ExternalFormWithHost | src/main/java/net/sandum/util/servlet/RequestHandlingException.java:102-105 | with a host, toExternalForm is protocol://host, ":port" exactly when a port is named, then the file; without host and port, protocol: and the file |
| RequestHandling.RedirectLocalLocation | src/main/java/net/sandum/util/servlet/RequestHandlingException.java:93-108 | for every request with a host, redirectLocal(p) redirects to protocol://host[:port] of the request URL + contextPath + p; without host and port, to protocol: + contextPath + p |
| RequestHandling.RedirectLocalTarget | src/main/java/net/sandum/util/servlet/RequestHandlingException.java:93-108 | for a request URL of the container's shape (word-character scheme, host without '/', path without line breaks), the location is root + contextPath + p and rootPath reads the root back |
| RequestHelper.RootPath | src/main/java/net/sandum/util/servlet/RequestHelper.java:16-23 | a result is a prefix of the URL whose remainder is non-empty and starts with "/"; a URL that does not match throws IllegalArgumentException("'url': unrecognized") |
| RequestHelper.RootPathOfShape | src/main/java/net/sandum/util/servlet/RequestHelper.java:14-22 | for a word-character scheme, a slash-free authority and a path starting with "/", the result is exactly scheme://authority |
| RequestHelper.RootPathPositions | src/main/java/net/sandum/util/servlet/RequestHelper.java:14-22 | a successful result ends just before the first "/" after "://", with word characters before "://" and no line terminator in the path |
| RequestHelper.RootPathOnlyOfShape | src/main/java/net/sandum/util/servlet/RequestHelper.java:14-20 | rootPath succeeds only on URLs of the pattern's shape (the converse of RootPathOfShape) |
| RequestHelper.TrimLeadingSpace | src/main/java/net/sandum/util/servlet/RequestHelper.java:31 | never longer than its input (what it removes is stated by TrimLeadingSpaceFacts) |
| RequestHelper.TrimLeadingSpaceFacts | src/main/java/net/sandum/util/servlet/RequestHelper.java:31 | the leading `\s*` of the separator: the result is a suffix, all removed characters are white space, and the result does not start with one |
| RequestHelper.TrimTrailingSpace | src/main/java/net/sandum/util/servlet/RequestHelper.java:31 | never longer than its input (what it removes is stated by TrimTrailingSpaceFacts) |
| RequestHelper.TrimTrailingSpaceFacts | src/main/java/net/sandum/util/servlet/RequestHelper.java:31 | the trailing `\s*` of the separator: the result is a prefix, all removed characters are white space, and the result does not end with one |
| RequestHelper.DropTrailingEmpty | src/main/java/net/sandum/util/servlet/RequestHelper.java:31 | String.split drops trailing empty pieces and only those: a prefix whose last piece is non-empty, followed only by empty pieces |
| RequestHelper.SplitOnCommas | src/main/java/net/sandum/util/servlet/RequestHelper.java:31 | without a comma the whole string; with one, the first piece is the text before the first comma without trailing white space, and the last piece is not empty |
| RequestHelper.FirstForwardedAddress | src/main/java/net/sandum/util/servlet/RequestHelper.java:31 | without a comma the whole value; otherwise the text before the first comma without trailing white space; a value of separators only gives ArrayIndexOutOfBounds |
| RequestHelper.SeparatorsGiveEmptyPieces | src/main/java/net/sandum/util/servlet/RequestHelper.java:31 | a value of white space and commas splits into empty pieces only |
| RequestHelper.EmptyPiecesGiveSeparators | src/main/java/net/sandum/util/servlet/RequestHelper.java:31 | only such a value splits into empty pieces only |
| RequestHelper.FirstForwardedAddressFails | src/main/java/net/sandum/util/servlet/RequestHelper.java:31 | `split(...)[0]` throws exactly when the value has a comma and consists of white space and commas only |
| RequestHelper.RemoteAddr | src/main/java/net/sandum/util/servlet/RequestHelper.java:25-34 | the first entry of the first X-Forwarded-For header when there is one, otherwise getRemoteAddr() |
| RequestProxy.BasePolicy | src/main/java/net/sandum/util/servlet/RequestProxy.java:98-109 | the base proxy strips nothing beyond the ignore set, does not follow redirects, has maxAge -1 and adds no request properties |
| RequestProxy.IgnoreRequestHeader | src/main/java/net/sandum/util/servlet/RequestProxy.java:98-100 | a request header in the ignore set, or one the policy strips, is ignored |
| RequestProxy.IgnoreResponseHeader | src/main/java/net/sandum/util/servlet/RequestProxy.java:102-105 | the ignore set is always dropped, and with maxAge > 0 so are Cache-Control and Expires; without a positive maxAge nothing else is dropped unless the policy strips it |
| RequestProxy.BasePolicyIgnores | src/main/java/net/sandum/util/servlet/RequestProxy.java:98-105 | the base policy ignores a request or response header exactly when it is in the 13-name ignore set |
| RequestProxy.CookieDomain | src/main/java/net/sandum/util/servlet/RequestProxy.java:76-83 | the cookie domain is a suffix of the server name and, when it differs from it, starts at a dot |
| RequestProxy.CookieDomainFacts | src/main/java/net/sandum/util/servlet/RequestProxy.java:76-83 | a host with fewer than two dots is unchanged; otherwise the domain is the host from its first dot on, with the dot kept |
| RequestProxy.CookieDomainExample | src/main/java/net/sandum/util/servlet/RequestProxy.java:76-83 | "a.b.example.com" gives ".b.example.com" |
| RequestProxy.ProxyCookie | src/main/java/net/sandum/util/servlet/RequestProxy.java:351-367 | the translated cookie is named "proxy-" + name, keeps the value and version, and has the cookie domain, path = servletPath and maxAge 3600 |
| RequestProxy.SetCookieActions | src/main/java/net/sandum/util/servlet/RequestProxy.java:351-363 | one addCookie per parsed cookie, in order |
| RequestProxy.ConnectionHeader | src/main/java/net/sandum/util/servlet/RequestProxy.java:151-157 | the lowercased Connection value, dropped when it is exactly keep-alive or close, and absent without the header |
| RequestProxy.CopyRequestHeaders | src/main/java/net/sandum/util/servlet/RequestProxy.java:159-199 | the loop adds the header properties of the specification in order, and its two flags say whether an X-Forwarded-For value and a Content-Type header got through |
| RequestProxy.CopyRequestHeader | src/main/java/net/sandum/util/servlet/RequestProxy.java:165-198 | one loop turn: a surviving header's values are added and the two flags updated; a filtered one changes nothing |
| RequestProxy.Survives | src/main/java/net/sandum/util/servlet/RequestProxy.java:166-186 | the lower-cased name of a surviving header is neither in the ignore set nor stripped; Host and Cookie, in any case, never survive |
| RequestProxy.HeaderOps | src/main/java/net/sandum/util/servlet/RequestProxy.java:162-199 | the header loop only adds request properties, and adds none without header names |
| Servlet.GetHeadersOfEntry | src/main/java/net/sandum/util/servlet/RequestProxy.java:191 | with one entry per name, `getHeaders(hdr)` gives the values of the entry whose name equals hdr ignoring case |
| RequestProxy.Filter | src/main/java/net/sandum/util/servlet/RequestProxy.java:166-186 | the chain of `continue`s lets exactly the surviving headers through |
| RequestProxy.CopyHeaderValues | src/main/java/net/sandum/util/servlet/RequestProxy.java:191-198 | every value of the header is added in order; X-Forwarded-For (any case) with a value sets the flag |
| RequestProxy.HeaderOpsOnlySurvivors | src/main/java/net/sandum/util/servlet/RequestProxy.java:159-199 | everything the loop adds is an added property of a surviving request header with one of that header's values |
| RequestProxy.NeverForwarded | src/main/java/net/sandum/util/servlet/RequestProxy.java:168-186 | no forwarded header is in the ignore set, Cookie, Host, stripped by the hook, or named inside the Connection value |
| RequestProxy.SurvivorsForwarded | src/main/java/net/sandum/util/servlet/RequestProxy.java:191-198 | every value of every surviving header is forwarded |
| RequestProxy.HeaderOpsAppend | src/main/java/net/sandum/util/servlet/RequestProxy.java:162-199 | headers are copied in enumeration order: the copy of a + b is the copy of a followed by the copy of b |
| RequestProxy.ForwardsXffIff | src/main/java/net/sandum/util/servlet/RequestProxy.java:191-198 | the xForwardedFor flag is set exactly when an X-Forwarded-For value was forwarded |
| RequestProxy.ForwardsContentTypeIff | src/main/java/net/sandum/util/servlet/RequestProxy.java:188-189 | hasContentType is set exactly when a Content-Type header survived the filters |
| RequestProxy.HttpSetupOps | src/main/java/net/sandum/util/servlet/RequestProxy.java:141-149 | the HTTP setup fails exactly when rootPath of the request URL fails, with its exception; otherwise four calls, the last two setting properties |
| RequestProxy.OpeningOps | src/main/java/net/sandum/util/servlet/RequestProxy.java:137-149 | user interaction is disabled first; the HTTP setup follows only for an HTTP connection, and only its failure fails the opening |
| RequestProxy.TrailerOps | src/main/java/net/sandum/util/servlet/RequestProxy.java:201-225 | after the loop the hook's properties come first, X-Forwarded-For: remoteAddr right after them when none was forwarded, and connect() last |
| RequestProxy.NoCacheRequested | src/main/java/net/sandum/util/servlet/RequestProxy.java:207-211 | asking for no caching needs a Cache-Control header, and a value starting with no-cache or no-store asks for it |
| RequestProxy.NoCacheRequestedIff | src/main/java/net/sandum/util/servlet/RequestProxy.java:207-211 | caching is refused exactly when a Cache-Control header is present and "no-cache" or "no-store" occurs anywhere in its value |
| RequestProxy.SendsBody | src/main/java/net/sandum/util/servlet/RequestProxy.java:219 | the body is sent only when a Content-Type header survived, and never for GET |
| RequestProxy.XForwardedForAdded | src/main/java/net/sandum/util/servlet/RequestProxy.java:201-204 | after the hook's properties, X-Forwarded-For: remoteAddr is added exactly when none was forwarded, so the header always goes upstream |
| RequestProxy.BodyCopiedIff | src/main/java/net/sandum/util/servlet/RequestProxy.java:214-222 | the body is copied exactly when the method is POST or PUT and a Content-Type header survived |
| RequestProxy.CachingDisabledIff | src/main/java/net/sandum/util/servlet/RequestProxy.java:206-211 | caching is disabled exactly when the request's Cache-Control contains no-cache or no-store |
| RequestProxy.FieldEnd | src/main/java/net/sandum/util/servlet/RequestProxy.java:286-289 | the loop stops at the first index whose key and value are both null |
| RequestProxy.CopyResponseHeaders | src/main/java/net/sandum/util/servlet/RequestProxy.java:281-313 | the response gets each field's actions in order, then the cache headers; the request attributes record every processed field |
| RequestProxy.CopyHeaderFields | src/main/java/net/sandum/util/servlet/RequestProxy.java:286-305 | the while loop over h produces the fields' actions and attributes of the specification |
| RequestProxy.CopyFieldAt | src/main/java/net/sandum/util/servlet/RequestProxy.java:287-304 | one turn of the loop extends the actions and attributes by field h |
| RequestProxy.CopyHeaderField | src/main/java/net/sandum/util/servlet/RequestProxy.java:290-301 | a field with null key or value is skipped; otherwise its action is performed and `_response.<lowercase key>` recorded |
| RequestProxy.FieldsActions | src/main/java/net/sandum/util/servlet/RequestProxy.java:289-301 | the field loop only adds headers and cookies to the response |
| RequestProxy.RecordAttributes | src/main/java/net/sandum/util/servlet/RequestProxy.java:300 | no request attribute is lost, and every attribute added or changed is named "_response." followed by the header name |
| RequestProxy.CacheHeaderActions | src/main/java/net/sandum/util/servlet/RequestProxy.java:307-310 | nothing without a positive maxAge; otherwise Cache-Control is set, and Expires is maxAge seconds after now |
| RequestProxy.FieldsActionsOrigin | src/main/java/net/sandum/util/servlet/RequestProxy.java:289-301 | every action is either an added kept header present in the fields, or a translated cookie (prefix "proxy-", maxAge 3600, servletPath, cookie domain) |
| RequestProxy.KeptFieldsForwarded | src/main/java/net/sandum/util/servlet/RequestProxy.java:291-298 | every processed field whose header is kept is added to the response |
| RequestProxy.MaxAgeReplacesCacheHeaders | src/main/java/net/sandum/util/servlet/RequestProxy.java:294-310 | with maxAge > 0 no upstream Cache-Control or Expires passes, and "public, max-age=N" and Expires = now + N*1000 are set |
| RequestProxy.RecordAttributesKeys | src/main/java/net/sandum/util/servlet/RequestProxy.java:300 | the attributes gain exactly `_response.<lowercase key>` for each processed field |
| RequestProxy.ProxyResponse | src/main/java/net/sandum/util/servlet/RequestProxy.java:233-279 | the error stream is preferred to the input stream; without either, sendError(code, msg) (500/"Error" off HTTP); otherwise the status and the body are set |
| RequestProxy.ContentLengthOnlyLogged | src/main/java/net/sandum/util/servlet/RequestProxy.java:272-277 | the recorded content length never changes the response; only a non-number escapes (from parseInt), and a mismatch with the copied byte count is only logged |
| RequestProxy.Service | src/main/java/net/sandum/util/servlet/RequestProxy.java:115-124 | a target failure runs its go; CONNECT ends in sendError(500, "Error"); otherwise the request is opened, sent and answered, and a connect failure escapes after the response headers were copied |
| RequestProxy.ProxyRequest | src/main/java/net/sandum/util/servlet/RequestProxy.java:126-231 | a failing opening throws before anything is sent; otherwise the request is configured and sent and the response headers copied, even when connecting fails |
| RequestProxy.Exchange | src/main/java/net/sandum/util/servlet/RequestProxy.java:214-228 | the try/finally: the transfer is configured, the response headers are copied whether or not connect succeeds, and the connect failure is rethrown |
| RequestProxy.SendRequest | src/main/java/net/sandum/util/servlet/RequestProxy.java:159-225 | the connection receives the header copies, the hook's properties, X-Forwarded-For, the cache and body decisions, and connect, in source order |
| RequestProxy.ConnectEndsInError | src/main/java/net/sandum/util/servlet/RequestProxy.java:237-258 | with no connection (after CONNECT) the answer is sendError(500, "Error") |
| OutputStreams.LowByte | src/main/java/net/sandum/util/servlet/ServletOutputStreamWrapper.java:43 | `(byte) b` keeps the low eight bits: a value in 0..255 is kept and -256..-1 wraps by 256 |
| OutputStreams.ServletOutputStreamWrapper.constructor | src/main/java/net/sandum/util/servlet/ServletOutputStreamWrapper.java:16-20 | a new stream over the buffer is open |
| OutputStreams.ServletOutputStreamWrapper.Close | src/main/java/net/sandum/util/servlet/ServletOutputStreamWrapper.java:22-30 | a second close throws "output stream has already been closed"; the first closes; the bytes are unchanged |
| OutputStreams.ServletOutputStreamWrapper.Flush | src/main/java/net/sandum/util/servlet/ServletOutputStreamWrapper.java:32-37 | flush throws exactly when closed and never changes the buffer |
| OutputStreams.ServletOutputStreamWrapper.WriteByte | src/main/java/net/sandum/util/servlet/ServletOutputStreamWrapper.java:39-44 | an open stream appends exactly the low byte; a closed one throws and changes nothing |
| OutputStreams.ServletOutputStreamWrapper.Write | src/main/java/net/sandum/util/servlet/ServletOutputStreamWrapper.java:46-49 | write(b) is write(b, 0, b.length): an open stream appends all of b |
| OutputStreams.ServletOutputStreamWrapper.WriteRange | src/main/java/net/sandum/util/servlet/ServletOutputStreamWrapper.java:51-56 | an open stream appends b[off..off+len), or throws IndexOutOfBounds unchanged; a closed one throws |
| OutputStreams.WriteThenClose | src/main/java/net/sandum/util/servlet/ServletOutputStreamWrapper.java:22-56 | after close, writes and a second close throw and the buffer keeps exactly the bytes written before |
| BufferedResponse.Capture | src/main/java/net/sandum/util/servlet/ByteBufferedHttpServletResponseWrapper.java:108-130 | Content-Type (any case) is captured as the type, else Content-Length (any case) as the parsed length, else the header passes on |
| BufferedResponse.CaptureIgnoresCase | src/main/java/net/sandum/util/servlet/ByteBufferedHttpServletResponseWrapper.java:112-114 | the capture decision does not depend on the name's case |
| BufferedResponse.CaptureLengthRoundTrip | src/main/java/net/sandum/util/servlet/ByteBufferedHttpServletResponseWrapper.java:114-115 | a rendered int length is captured as that int |
| BufferedResponse.CaptureExamples | src/main/java/net/sandum/util/servlet/ByteBufferedHttpServletResponseWrapper.java:108-130 | "CONTENT-TYPE" is captured; "X-Powered-By" passes on |
| BufferedResponse.BufferedWriter.Write | src/main/java/net/sandum/util/servlet/ByteBufferedHttpServletResponseWrapper.java:87 | print adds the encoded bytes to the writer's pending bytes; nothing reaches the stream |
| BufferedResponse.BufferedWriter.Flush | src/main/java/net/sandum/util/servlet/ByteBufferedHttpServletResponseWrapper.java:87 | flush hands the pending bytes to the stream; on a closed stream they are dropped and the error flag is set, since PrintWriter swallows the IOException |
| BufferedResponse.ByteBufferedResponse.constructor | src/main/java/net/sandum/util/servlet/ByteBufferedHttpServletResponseWrapper.java:23-32 | status 0, length 0, no type, no stream, no writer, and no content |
| BufferedResponse.ByteBufferedResponse.DownstreamContent | src/main/java/net/sandum/util/servlet/ByteBufferedHttpServletResponseWrapper.java:34-39 | the content is null exactly when no buffer was allocated |
| BufferedResponse.ByteBufferedResponse.CreateOutputStream | src/main/java/net/sandum/util/servlet/ByteBufferedHttpServletResponseWrapper.java:57-60 | a fresh empty buffer and a fresh open stream over it |
| BufferedResponse.ByteBufferedResponse.GetOutputStream | src/main/java/net/sandum/util/servlet/ByteBufferedHttpServletResponseWrapper.java:67-76 | after getWriter it throws IllegalState; a repeat returns the same stream and buffer; the first call allocates an empty buffer |
| BufferedResponse.ByteBufferedResponse.GetWriter | src/main/java/net/sandum/util/servlet/ByteBufferedHttpServletResponseWrapper.java:78-90 | a repeat returns the same writer; after getOutputStream it throws IllegalState; the first call allocates a buffer and a writer over a fresh stream |
| BufferedResponse.ByteBufferedResponse.FlushBuffer | src/main/java/net/sandum/util/servlet/ByteBufferedHttpServletResponseWrapper.java:62-65 | without a stream, a NullPointerException; otherwise the stream's flush, which fails exactly when it is closed |
| BufferedResponse.ByteBufferedResponse.SetContentLength | src/main/java/net/sandum/util/servlet/ByteBufferedHttpServletResponseWrapper.java:92-98 | only the captured length changes; the wrapped response is not touched |
| BufferedResponse.ByteBufferedResponse.SetContentType | src/main/java/net/sandum/util/servlet/ByteBufferedHttpServletResponseWrapper.java:100-106 | only the captured type changes; the wrapped response is not touched |
| BufferedResponse.ByteBufferedResponse.PutHeader | src/main/java/net/sandum/util/servlet/ByteBufferedHttpServletResponseWrapper.java:108-130 | add/setHeader capture Content-Type and Content-Length (a non-number throws NumberFormatException), and pass every other header on unchanged |
| BufferedResponse.ByteBufferedResponse.SetStatus | src/main/java/net/sandum/util/servlet/ByteBufferedHttpServletResponseWrapper.java:132-138 | the status is both recorded and forwarded |
| BufferedResponse.ByteBufferedResponse.SetStatusMessage | src/main/java/net/sandum/util/servlet/ByteBufferedHttpServletResponseWrapper.java:140-146 | the status is recorded and forwarded with its message |
| BufferedResponse.StreamThenWriter | src/main/java/net/sandum/util/servlet/ByteBufferedHttpServletResponseWrapper.java:67-90 | bytes written through the stream are the content, and a later getWriter is refused |
| BufferedResponse.WriterThenFlush | src/main/java/net/sandum/util/servlet/ByteBufferedHttpServletResponseWrapper.java:78-90 | writer output reaches the content only on flush |
| FormatConversion.ParseRequestPath | src/main/java/net/sandum/servlet/FormatConversionFilter.java:138-147 | a recognized path gives the source path: the path cut just before an '_' that a non-empty format follows |
| FormatConversion.ParseRequestPathSound | src/main/java/net/sandum/servlet/FormatConversionFilter.java:138-147 | a parsed path is prefix.ext_fmt with the last '.' and the last '_' and no line terminator in prefix; the source is prefix.ext, and source + "_" + fmt is the path |
| FormatConversion.ParseRequestPathComplete | src/main/java/net/sandum/servlet/FormatConversionFilter.java:138-147 | every path prefix + "." + ext + "_" + fmt with no line terminator in prefix, ext in [A-Za-z0-9_]+ and fmt in [A-Za-z0-9]+ parses to prefix.ext |
| FormatConversion.ParseRequestPathExample | src/main/java/net/sandum/servlet/FormatConversionFilter.java:140-157 | "/img/logo.png_webp" fetches "/img/logo.png" |
| FormatConversion.ParseRequestPathRejects | src/main/java/net/sandum/servlet/FormatConversionFilter.java:140-145 | "/img/logo" is not recognized |
| FormatConversion.ParseRequestPathRejectsLineBreak | src/main/java/net/sandum/servlet/FormatConversionFilter.java:138-145 | "\n.png_webp" is not recognized: `.*` does not match a line break |
| FormatConversion.WrapRequest | src/main/java/net/sandum/servlet/FormatConversionFilter.java:164-186 | wrapping fails only with a NullPointerException |
| FormatConversion.WrapRequestServletPath | src/main/java/net/sandum/servlet/FormatConversionFilter.java:174-180 | with null pathInfo, wrapping succeeds exactly when the servlet path parses; only the URI changes, to contextPath + source |
| FormatConversion.WrapRequestPathInfo | src/main/java/net/sandum/servlet/FormatConversionFilter.java:181-196 | otherwise it succeeds exactly when pathInfo parses; the URI becomes contextPath + servletPath + source and pathInfo the source |
| FormatConversion.PostProcessActions | src/main/java/net/sandum/servlet/FormatConversionFilter.java:114-136 | nothing is written without buffered content; otherwise the body is written once, last, right after the content length; for a 200 answer that length is the number of bytes written, and any other answer goes out with the captured bytes unchanged |
| FormatConversion.PostProcessCases | src/main/java/net/sandum/servlet/FormatConversionFilter.java:114-136 | no content writes nothing; status 200 writes X-Transformed-From, the target type, the transformed length and bytes; any other status writes the captured type, length and bytes, whatever the transformer |
| FormatConversion.PostProcess | src/main/java/net/sandum/servlet/FormatConversionFilter.java:114-136 | the upstream response receives exactly the post-processing actions of the captured state |
| FormatConversion.Step | src/main/java/net/sandum/util/servlet/ByteBufferedHttpServletResponseWrapper.java:19-146 | a call that throws changes nothing and passes nothing upstream; a taken stream or writer stays taken; the buffered content only grows; at most one call reaches the wrapped response; the servlet's own exception ends the run with the state unchanged |
| FormatConversion.Run | src/main/java/net/sandum/servlet/FormatConversionFilter.java:97 | over the whole call list: a taken stream or writer stays taken, the content only grows, and each call passes at most one call upstream |
| FormatConversion.ModeIsKept | src/main/java/net/sandum/util/servlet/ByteBufferedHttpServletResponseWrapper.java:67-90 | once the stream or the writer is taken, it stays taken, and the other one is refused with IllegalState |
| FormatConversion.ThrowEndsRun | src/main/java/net/sandum/servlet/FormatConversionFilter.java:94-107 | a servlet that throws after its calls ends the run with its own exception, keeping the state and the upstream calls of the calls before it, so post-processing is skipped |
| FormatConversion.StreamContent | src/main/java/net/sandum/util/servlet/ByteBufferedHttpServletResponseWrapper.java:67-76 | stream writes append their bytes in order and pass nothing upstream |
| FormatConversion.Apply | src/main/java/net/sandum/util/servlet/ByteBufferedHttpServletResponseWrapper.java:62-146 | one call on the wrapper has the effect the call interpreter gives it, on the state and upstream |
| FormatConversion.ApplyHeaderCall | src/main/java/net/sandum/util/servlet/ByteBufferedHttpServletResponseWrapper.java:92-146 | the setter and header calls, and the calls the wrapper does not override (sendError, sendRedirect, addCookie, the int and date headers), have the interpreter's effect and allocate nothing |
| FormatConversion.ApplyStreamWrite | src/main/java/net/sandum/util/servlet/ByteBufferedHttpServletResponseWrapper.java:67-76 | getOutputStream().write(b) has the interpreter's effect |
| FormatConversion.ApplyWriter | src/main/java/net/sandum/util/servlet/ByteBufferedHttpServletResponseWrapper.java:78-90 | getWriter().print/flush have the interpreter's effect |
| FormatConversion.RunChain | src/main/java/net/sandum/servlet/FormatConversionFilter.java:97 | the downstream chain's calls, run on the wrapper, stop at the first exception and leave the state the interpreter computes |
| FormatConversion.ApplyNext | src/main/java/net/sandum/servlet/FormatConversionFilter.java:97 | one call of the chain keeps the run's invariant: the result so far resumes into the whole run |
| FormatConversion.TryFilter | src/main/java/net/sandum/servlet/FormatConversionFilter.java:89-108 | a path that does not parse throws NullPointerException before the chain runs; otherwise the chain runs and, unless a wrapper call or the servlet itself threw, the response is post-processed |
| FormatConversion.DoFilter | src/main/java/net/sandum/servlet/FormatConversionFilter.java:78-84 | every exception of tryFilter, including that NullPointerException, is logged and swallowed; no error is sent, and the upstream response receives exactly what tryFilter passed on and post-processed |
| TidyTransformer.TidyProps | src/main/java/net/sandum/servlet/TidyHtmlXmlTransformer.java:148-151 | every key k of the bag comes from a parameter "jtidy." + k and carries its value |
| TidyTransformer.TidyPropsExact | src/main/java/net/sandum/servlet/TidyHtmlXmlTransformer.java:148-151 | the property bag holds exactly the keys k with a parameter "jtidy." + k, each with that parameter's value |
| TidyTransformer.IndentSetting | src/main/java/net/sandum/servlet/TidyHtmlXmlTransformer.java:124-126 | without `indent` the field is kept; the only failure is a NumberFormatException on the value; a value read is a 32-bit int |
| TidyTransformer.TemplatesSetting | src/main/java/net/sandum/servlet/TidyHtmlXmlTransformer.java:128-146 | without `templates` the field is kept; it fails only when the lookup misses, and otherwise systemId is the URL found |
| TidyTransformer.SettingValues | src/main/java/net/sandum/servlet/TidyHtmlXmlTransformer.java:124-134 | indent is set only from an `indent` parameter, parsed as an int (else NumberFormatException); a template the resource lookup misses throws IllegalArgument("s: no such template"), otherwise systemId is its URL |
| TidyTransformer.OutputProperties | src/main/java/net/sandum/servlet/TidyHtmlXmlTransformer.java:101-106 | method=xml and then encoding=UTF-8 come first, and no property is set twice |
| TidyTransformer.OutputPropertiesFacts | src/main/java/net/sandum/servlet/TidyHtmlXmlTransformer.java:101-106 | method=xml and encoding=UTF-8 always; indent-amount and indent=yes exactly when indent is set, whatever its number |
| TidyTransformer.Stylesheet | src/main/java/net/sandum/servlet/TidyHtmlXmlTransformer.java:93-112 | the stylesheet used is the configured one, and setting it up fails exactly when one is configured and does not compile |
| TidyTransformer.TransformOutput | src/main/java/net/sandum/servlet/TidyHtmlXmlTransformer.java:87-112 | a stylesheet that does not compile gives no output; any output is exactly what the engine produced with the configured stylesheet, the tidy properties and the output properties |
| TidyTransformer.AtMostOneStylesheet | src/main/java/net/sandum/servlet/TidyHtmlXmlTransformer.java:93-112 | the only stylesheet is systemId's (or none); a stylesheet that does not compile is logged and produces no output |
| TidyTransformer.TidyHtmlXmlTransformer.constructor | src/main/java/net/sandum/servlet/TidyHtmlXmlTransformer.java:115-119 | all configuration fields start null |
| TidyTransformer.TidyHtmlXmlTransformer.Init | src/main/java/net/sandum/servlet/TidyHtmlXmlTransformer.java:121-154 | indent, then templates, then the jtidy bag, in that order; an exception stops init and leaves the later fields as they were |
| TidyTransformer.TidyHtmlXmlTransformer.Transform | src/main/java/net/sandum/servlet/TidyHtmlXmlTransformer.java:60-113 | templates are reloaded from systemId on every call, and the output is `TransformOutput` of the tidy properties, systemId, indent and the input |
| TidyTransformer.TidyHtmlXmlTransformer.AsTransformer | src/main/java/net/sandum/servlet/TidyHtmlXmlTransformer.java:52-58 | the source type is text/html and the target type text/xml; the transform is this transformer's |
| TidyTransformer.ConvertedAnswer | src/main/java/net/sandum/servlet/TidyHtmlXmlTransformer.java:52-58 | a 200 answer through the filter is marked from text/html, typed text/xml, and carries the transformed bytes and their length |
| TidyTransformer.StripEol | src/main/java/net/sandum/servlet/TidyHtmlXmlTransformer.java:73-74 | a prefix without a trailing '\n' or '\r', everything removed being such a character |
| TidyTransformer.LoggedTrims | src/main/java/net/sandum/servlet/TidyHtmlXmlTransformer.java:73-76 | nothing is logged exactly when the chunk is all line ends; otherwise the chunk minus its trailing line ends |
| TidyTransformer.LoggedAsWritten | src/main/java/net/sandum/servlet/TidyHtmlXmlTransformer.java:70-77 | as written, nothing is logged exactly when cbuf[0..len) is all line ends, whatever off is; otherwise a prefix of the chunk at off |
| TidyTransformer.ErroutWriteAsWritten | src/main/java/net/sandum/servlet/TidyHtmlXmlTransformer.java:70-77 | the loop as written, which tests cbuf[len - 1] and ignores off |
| TidyTransformer.ErroutWrite | src/main/java/net/sandum/servlet/TidyHtmlXmlTransformer.java:70-77 | the trimming loop on cbuf[off + len - 1]: it logs the chunk without its trailing line ends |
| TidyTransformer.ErroutOffsetFinding | src/main/java/net/sandum/servlet/TidyHtmlXmlTransformer.java:73-76 | the write of "a" at offset 1 in "\na" logs nothing as written, and "a" as intended |
| TidyTransformer.LoggedAgreeAtZero | src/main/java/net/sandum/servlet/TidyHtmlXmlTransformer.java:73-76 | with offset 0, the code as written and the corrected one agree |

## Left out

- Java regular expressions used as configuration (routes and strip patterns) are an abstract
  `Regex`: a full-match predicate and a `replaceFirst` function. A pattern that does not compile is
  not modelled; `Pattern.compile` is a given function.
- The fixed regexes are written as character functions: the magic suffix, `URL_PATTERN`, and the
  `\s*,\s*` split. `\w` and `\s` are the ASCII classes. `.` stops at the five line terminators
  `\n`, `\r`, U+0085, U+2028 and U+2029.
- `toLowerCase` and `equalsIgnoreCase` fold ASCII letters only.
- JavaLang.ParseInt: accepts ASCII digits only. `Integer.parseInt` also accepts the other Unicode
  decimal digits (`Character.digit`), so a number written in, say, Arabic-Indic digits is a
  NumberFormatException in the model. This affects `max-age`, the captured `Content-Length`, the
  `_response.content-length` attribute and `indent`.
- `HttpCookie.parse` is a given list of parsed cookies. `new URL(...)` is a given parser, whose
  error message is passed through. `URL.getHost`, `getPort` and `getProtocol` of the request URL
  are fields of the request.
- The CONNECT tunnel (`connectSocket`: a socket, a thread, byte copying) is only the
  status/header/flush actions it performs, followed by the `sendError(500, "Error")` that the null
  connection causes.
- All network and stream I/O is replaced:
  - `URLConnection` is a log of configuration calls, and the upstream answer is a given
    `Upstream` record: header fields, code, message, streams and a connect failure.
  - `IOUtils.copy` is one `WriteBody` action carrying all of the stream's bytes. The byte count it
    returns is their number; the -1 it returns above 2 GiB is not modelled.
  - Logging, timing, `System.setProperty` and `System.currentTimeMillis` are left out. The time
    is a parameter `now`.
- `setRequestMethod` can throw ProtocolException for an unknown method; this is not modelled.
- `getRequestDispatcher(uri).forward` and `sendRedirect` are recorded as actions, not performed.
- `redirect(URL)` and `internalServerError(Throwable)` are the string variants applied to
  `toExternalForm()` and `getMessage()`, and have no members of their own.
- `noLog` mutates the exception and returns it; the model returns the updated value.
- The `addResponseHeaders` hook is empty in the base class and in ProxyServlet, and is left out.
- `ByteArrayOutputStream` is unbounded; its 32-bit size limit is not modelled.
- The writer's UTF-8 encoding is left out: writer output is given as bytes, and it reaches the
  buffer when the writer is flushed.
- JTidy parsing and XSLT execution are an abstract `Engine`: whether a stylesheet compiles, and
  what a run produces. A `TransformerException` during the run is modelled as empty output.
- `tidyProps.list(System.out)` and `printConfigOptions` only print, and are left out.
- The transformer factory `tff` is part of the `Engine`. A `MalformedURLException` from
  `getResource` is not modelled: the lookup answers a URL string or null.
- Reflective loading of the transformer class and the `FormatTransformerConfig` adapter are left
  out. The filter is given its transformer.
- SimpleFormatTransformer, TransformingResponse, RequestHandler and FormatTransformerConfig are
  interfaces only. Their shapes appear as parameters (`Transformer`, `Engine`, the call list), not
  as members.
- Init-parameter names are given as a sequence in enumeration order. Every name is required to
  have a value (`TidyProps`, `TidyHtmlXmlTransformer.Init`), as the servlet container guarantees.
- The downstream servlet (`chain.doFilter`) is a given function from the wrapped request to the
  list of calls it makes on the buffered response. An exception the servlet throws itself is the
  last call of that list (`CallThrow`).
- FormatConversion.TryFilter: its failure is the RuntimeException itself, where the source wraps it
  in a ServletException; only the object doFilter logs differs.
- Request headers are a list with one entry per name, as the container groups them
  (`Servlet.OneEntryPerName`). A list with two entries whose names differ only in case is read
  through its first entry.
- FormatConversion.RunChain: the chain is assumed never to close the buffered stream itself
  (`Usable`), so the writer's flush always reaches the buffer.
- TidyTransformer.TidyHtmlXmlTransformer.Transform: on an instance whose `init` has not run, the
  property bag is modelled as empty, where the source hands a null `tidyProps` to JTidy.
- ProxyServlet.ProxyServlet.Service: states the outcome of a failed target and the connection's
  configuration. The response log of a proxied request is the one RequestProxy.Service states for
  the servlet's policy.

## Findings

| source | as written | input that shows it | evidently intended | confidence | as-written member | corrected member |
|---|---|---|---|---|---|---|
| src/main/java/net/sandum/servlet/TidyHtmlXmlTransformer.java:73-76 | the trimming loop tests `cbuf[len - 1]`, ignoring `off`, and then logs `cbuf[off..off+len)` | `write("\na", 1, 1)`: the chunk is "a", but `cbuf[0]` is '\n', so len drops to 0 and nothing is logged | test `cbuf[off + len - 1]`, so that trailing line ends of the chunk itself are trimmed and "a" is logged | not executed; latent while callers pass off = 0 | TidyTransformer.ErroutWriteAsWritten, TidyTransformer.ErroutOffsetFinding | TidyTransformer.ErroutWrite, TidyTransformer.LoggedTrims |
