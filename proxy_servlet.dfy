/**
 * ProxyServlet: a servlet configured by init parameters with a routing table of
 * path-pattern/target-url pairs and optional header-strip patterns. Each request's path
 * (and query) is rewritten by the first matching rule into a target, and the request is
 * handed to a RequestProxy whose hooks come from this configuration.
 */
module ProxyServlet {
  import opened Wrappers
  import opened JavaLang
  import opened Servlet
  import opened PatternReplacements
  import RequestHandling
  import RequestProxy

  const PATH_PATTERN: string := "path-pattern"
  const TARGET_URL: string := "target-url"

  /** Pattern.compile(regex, flags): the boolean asks for CASE_INSENSITIVE. */
  type Compiler = (string, bool) -> Regex

  /** new URL(spec): the parsed target, or the MalformedURLException's message. */
  type UrlParser = string -> Result<RequestProxy.Target, string>

  /** getInitParameter(name): null when the parameter is not set. */
  function InitParameter(params: map<string, string>, name: string): (v: Option<string>)
    ensures v.Some? <==> name in params
    ensures v.Some? ==> v.value == params[name]
  {
    if name in params then Some(params[name]) else None
  }

  // ---------------------------------------------------------------- init

  /** A strip-header parameter: compiled case-insensitively when non-empty, else the field stays. */
  function StripSetting(params: map<string, string>, name: string, compile: Compiler, current: Option<Regex>)
    : (pattern: Option<Regex>)
    ensures name !in params || params[name] == "" ==> pattern == current
    ensures name in params && params[name] != "" ==> pattern == Some(compile(params[name], true))
  {
    var s := InitParameter(params, name);
    if IsEmpty(s) then current else Some(compile(s.value, true))
  }

  /** follow-redirects: Boolean.valueOf, true exactly for "true" in any case; else the field stays. */
  function FollowRedirectsSetting(params: map<string, string>, current: bool): (follow: bool)
    ensures "follow-redirects" !in params || params["follow-redirects"] == "" ==> follow == current
    ensures "follow-redirects" in params && params["follow-redirects"] == "true" ==> follow
    ensures "follow-redirects" in params && params["follow-redirects"] == "false" ==> !follow
  {
    var s := InitParameter(params, "follow-redirects");
    if IsEmpty(s) then current else EqualsIgnoreCase(s.value, "true")
  }

  /** max-age: Integer.valueOf when non-empty, which may throw NumberFormatException; else the field stays. */
  function MaxAgeSetting(params: map<string, string>, current: int): (maxAge: Result<int, JavaException>)
    ensures "max-age" !in params || params["max-age"] == "" ==> maxAge == Ok(current)
    ensures maxAge.Err? ==> "max-age" in params && maxAge.error == NumberFormat(params["max-age"])
    ensures maxAge.Ok? && maxAge.value != current ==> IsInt32(maxAge.value)
  {
    var s := InitParameter(params, "max-age");
    if IsEmpty(s) then Ok(current)
    else match ParseInt(s.value)
      case None => Err(NumberFormat(s.value))
      case Some(n) => Ok(n)
  }

  /** The rule a path-pattern parameter name contributes: its pattern and the target-url of the same suffix. */
  function PairedRule(params: map<string, string>, compile: Compiler, pn: string): Result<Rule, JavaException>
    requires StartsWith(pn, PATH_PATTERN)
  {
    var sfx := pn[|PATH_PATTERN|..];
    var pattern := InitParameter(params, PATH_PATTERN + sfx);
    var target := InitParameter(params, TARGET_URL + sfx);
    NewRule(if pattern.Some? then Some(compile(pattern.value, false)) else None, target)
  }

  /**
   * The routing table init builds from the parameter names in enumeration order: one rule
   * per name starting with "path-pattern"; the first refused pair ends init.
   */
  function PairedRules(params: map<string, string>, compile: Compiler, names: seq<string>)
    : (rules: Result<seq<Rule>, JavaException>)
    ensures rules.Ok? ==> |rules.value| <= |names|
  {
    if names == [] then Ok([])
    else
      var pn := names[|names| - 1];
      match PairedRules(params, compile, names[..|names| - 1])
      case Err(e) => Err(e)
      case Ok(rules) =>
        if !StartsWith(pn, PATH_PATTERN) then Ok(rules)
        else match PairedRule(params, compile, pn)
          case Err(e) => Err(e)
          case Ok(rule) => Ok(rules + [rule])
  }

  /** Once a prefix of the names is refused, init fails with that prefix's exception. */
  lemma {:induction false} PairedRulesStopsAtError(params: map<string, string>, compile: Compiler, names: seq<string>, i: int)
    requires 0 <= i <= |names| && PairedRules(params, compile, names[..i]).Err?
    ensures PairedRules(params, compile, names) == PairedRules(params, compile, names[..i])
    decreases |names|
  {
    if i < |names| {
      var prefix := names[..|names| - 1];
      assert prefix[..i] == names[..i];
      PairedRulesStopsAtError(params, compile, prefix, i);
    } else {
      assert names[..i] == names;
    }
  }

  /** The path-pattern parameter names among `names`, in order. */
  function PatternNames(names: seq<string>): (ns: seq<string>)
    ensures forall n :: n in ns <==> n in names && StartsWith(n, PATH_PATTERN)
    ensures forall i :: 0 <= i < |ns| ==> StartsWith(ns[i], PATH_PATTERN)
  {
    if names == [] then []
    else
      var pn := names[|names| - 1];
      PatternNames(names[..|names| - 1]) + (if StartsWith(pn, PATH_PATTERN) then [pn] else [])
  }

  /**
   * When init succeeds, the table has one rule per path-pattern name, in order, each
   * pairing "path-pattern"+sfx with "target-url"+sfx; other names contribute nothing.
   */
  lemma {:induction false} PairedRulesPairs(params: map<string, string>, compile: Compiler, names: seq<string>)
    requires PairedRules(params, compile, names).Ok?
    ensures var rules, ns := PairedRules(params, compile, names).value, PatternNames(names);
      && |rules| == |ns|
      && forall i :: 0 <= i < |ns| ==>
           var sfx := ns[i][|PATH_PATTERN|..];
           && PATH_PATTERN + sfx in params && TARGET_URL + sfx in params
           && rules[i] == Rule(compile(params[PATH_PATTERN + sfx], false), params[TARGET_URL + sfx])
  {
    if names != [] {
      var prefix := names[..|names| - 1];
      PairedRulesPairs(params, compile, prefix);
      var pn := names[|names| - 1];
      if StartsWith(pn, PATH_PATTERN) {
        assert pn[..|PATH_PATTERN|] + pn[|PATH_PATTERN|..] == pn;
      }
    }
  }

  /**
   * A path-pattern name whose target-url of the same suffix is missing makes init fail
   * with "null replacement not allowed", whatever comes before or after it.
   */
  lemma {:induction false} MissingTargetFails(params: map<string, string>, compile: Compiler, names: seq<string>, i: int)
    requires 0 <= i < |names| && StartsWith(names[i], PATH_PATTERN)
    requires names[i] in params && TARGET_URL + names[i][|PATH_PATTERN|..] !in params
    ensures PairedRules(params, compile, names).Err?
  {
    if i < |names| - 1 {
      assert names[..|names| - 1][i] == names[i];
      MissingTargetFails(params, compile, names[..|names| - 1], i);
    } else {
      var pn := names[i];
      assert pn[..|PATH_PATTERN|] + pn[|PATH_PATTERN|..] == pn;
    }
  }

  /** With no max-age parameter the setting stays; a rendered int reads back as itself. */
  lemma MaxAgeSettingValues(params: map<string, string>, current: int, n: int)
    requires IsInt32(n)
    ensures "max-age" !in params ==> MaxAgeSetting(params, current) == Ok(current)
    ensures MaxAgeSetting(params["max-age" := IntToString(n)], current) == Ok(n)
    ensures MaxAgeSetting(params["max-age" := "forever"], current) == Err(NumberFormat("forever"))
  {
    ParseIntOfIntToString(n);
    var p := params["max-age" := IntToString(n)];
    assert InitParameter(p, "max-age") == Some(IntToString(n));
    assert !IsDigit('f');
  }

  /** follow-redirects is true for "true" in any case and false for any other non-empty value. */
  lemma FollowRedirectsSettingValues(params: map<string, string>, current: bool, s: string)
    requires s != ""
    ensures "follow-redirects" !in params ==> FollowRedirectsSetting(params, current) == current
    ensures FollowRedirectsSetting(params["follow-redirects" := s], current) == EqualsIgnoreCase(s, "true")
    ensures FollowRedirectsSetting(params["follow-redirects" := "TRUE"], current)
    ensures !FollowRedirectsSetting(params["follow-redirects" := "yes"], current)
  {
    assert ToLower("TRUE") == "true";
    assert ToLower("yes") != ToLower("true") by {
      assert |ToLower("yes")| != |"true"|;
    }
  }

  // ---------------------------------------------------------------- getReplacement

  /** The string matched against the rules: pathInfo ("" when null or empty), then "?"+query when the query is non-empty. */
  function MatchInput(r: Request): (s: string)
    ensures IsEmpty(r.pathInfo) && IsEmpty(r.queryString) ==> s == ""
    ensures !IsEmpty(r.pathInfo) ==> StartsWith(s, r.pathInfo.value)
    ensures !IsEmpty(r.queryString) ==>
      var q := r.queryString.value;
      |s| > |q| && s[|s| - |q| - 1] == '?' && s[|s| - |q|..] == q
  {
    (if IsEmpty(r.pathInfo) then "" else r.pathInfo.value)
      + (if IsEmpty(r.queryString) then "" else "?" + r.queryString.value)
  }

  /**
   * For a path without '?', the matched string splits back at its first '?' into the
   * path and the query; with no (or an empty) query it is the path alone.
   */
  lemma MatchInputSplits(r: Request)
    requires r.pathInfo.Some? ==> IndexOfChar(r.pathInfo.value, '?') == -1
    ensures var s, path := MatchInput(r), if r.pathInfo.Some? then r.pathInfo.value else "";
      && IsEmpty(r.queryString) ==> s == path && IndexOfChar(s, '?') == -1
    ensures var s, path := MatchInput(r), if r.pathInfo.Some? then r.pathInfo.value else "";
      && !IsEmpty(r.queryString) ==>
        var k := IndexOfChar(s, '?');
        k == |path| && s[..k] == path && s[k + 1..] == r.queryString.value
  {
    var path := if r.pathInfo.Some? then r.pathInfo.value else "";
    var s := MatchInput(r);
    assert s[..|path|] == path;
    if !IsEmpty(r.queryString) {
      assert s[|path|] == '?';
      assert forall j :: 0 <= j < |path| ==> s[j] == path[j];
    }
  }

  /** The message of the 404 for an unmatched path; a null pathInfo is rendered "null". */
  function NotFoundMessage(r: Request): (m: string)
    ensures r.pathInfo.Some? ==> StartsWith(m, "\"" + r.pathInfo.value + "\"")
    ensures r.pathInfo.None? ==> StartsWith(m, "\"null\"")
  {
    var quoted := "\"" + (if r.pathInfo.Some? then r.pathInfo.value else "null") + "\"";
    assert (quoted + ": unrecognized proxy target URL")[..|quoted|] == quoted;
    quoted + ": unrecognized proxy target URL"
  }

  /** getProxyTargetUrl after the match: 404, a forward for a local path, else the parsed URL or a 500. */
  function ClassifyReplacement(r: Request, res: Option<string>, parseUrl: UrlParser)
    : (t: Result<RequestProxy.Target, RequestHandling.RequestHandlingException>)
    ensures res.None? ==> t == Err(RequestHandling.NotFoundError(NotFoundMessage(r)))
    ensures res.Some? && StartsWith(res.value, "/") ==> t == Err(RequestHandling.Forward(res.value))
    ensures res.Some? && !StartsWith(res.value, "/") ==>
      t == match parseUrl(res.value)
        case Ok(u) => Ok(u)
        case Err(msg) => Err(RequestHandling.InternalServerError("\"" + res.value + "\" is not a valid URL. " + msg))
  {
    if res.None? then Err(RequestHandling.NotFoundError(NotFoundMessage(r)))
    else if StartsWith(res.value, "/") then Err(RequestHandling.Forward(res.value))
    else match parseUrl(res.value)
      case Ok(u) => Ok(u)
      case Err(msg) => Err(RequestHandling.InternalServerError("\"" + res.value + "\" is not a valid URL. " + msg))
  }

  /** getProxyTargetUrl as a function of the rules. */
  function TargetUrl(rules: seq<Rule>, r: Request, parseUrl: UrlParser)
    : (t: Result<RequestProxy.Target, RequestHandling.RequestHandlingException>)
    ensures rules == [] ==> t == Err(RequestHandling.NotFoundError(NotFoundMessage(r)))
    ensures t.Ok? ==>
      var res := FirstMatch(rules, MatchInput(r));
      res.Some? && !StartsWith(res.value, "/") && parseUrl(res.value) == Ok(t.value)
  {
    ClassifyReplacement(r, FirstMatch(rules, MatchInput(r)), parseUrl)
  }

  /**
   * The three outcomes: a 404 exactly when no rule fully matches; otherwise the first
   * matching rule's rewrite is forwarded to unchanged when it starts with '/', and is
   * otherwise the target URL, or a 500 when it does not parse.
   */
  lemma TargetUrlOutcomes(rules: seq<Rule>, r: Request, parseUrl: UrlParser, i: int)
    ensures var t := TargetUrl(rules, r, parseUrl);
      (t.Err? && t.error.kind == RequestHandling.Failing(404)) <==>
        forall j :: 0 <= j < |rules| ==> !rules[j].pattern.fullMatch(MatchInput(r))
    ensures IsFirstMatching(rules, MatchInput(r), i) ==>
      var res := rules[i].pattern.replaceFirst(MatchInput(r), rules[i].replacement);
      var t := TargetUrl(rules, r, parseUrl);
      && (StartsWith(res, "/") ==> t == Err(RequestHandling.Forward(res)))
      && (!StartsWith(res, "/") && parseUrl(res).Ok? ==> t == Ok(parseUrl(res).value))
      && (!StartsWith(res, "/") && parseUrl(res).Err? ==> t.Err? && t.error.kind == RequestHandling.Failing(500))
  {
    FirstMatchNoneIff(rules, MatchInput(r));
    if IsFirstMatching(rules, MatchInput(r), i) {
      FirstMatchIsFirstRule(rules, MatchInput(r), i);
    }
  }

  // ---------------------------------------------------------------- the servlet

  /** stripProxy*Header: the configured pattern, if any, matches the whole header name. */
  predicate Strips(pattern: Option<Regex>, hdr: string) {
    pattern.Some? && pattern.value.fullMatch(hdr)
  }

  /** The servlet's fields, with getServletName() as `servletName`. */
  class ProxyServlet {
    var stripRequestHeadersPattern: Option<Regex>
    var stripResponseHeadersPattern: Option<Regex>
    var pathPatterns: PatternReplacements
    var followRedirects: bool
    var maxAge: int
    const servletName: string

    constructor (servletName: string)
      ensures this.servletName == servletName
      ensures stripRequestHeadersPattern.None? && stripResponseHeadersPattern.None?
      ensures !followRedirects && maxAge == -1
      ensures fresh(pathPatterns) && pathPatterns.prs == []
    {
      this.servletName := servletName;
      stripRequestHeadersPattern := None;
      stripResponseHeadersPattern := None;
      followRedirects := false;
      maxAge := -1;
      pathPatterns := new PatternReplacements();
    }

    /**
     * init(): reads the strip patterns, follow-redirects and max-age parameters, then walks
     * the parameter names in enumeration order and adds one rule per path-pattern name.
     * `params` is getInitParameter, `names` getInitParameterNames(). Returns the exception
     * that escapes, if any.
     */
    method Init(params: map<string, string>, names: seq<string>, compile: Compiler)
      returns (failure: Option<JavaException>)
      modifies this
      ensures stripResponseHeadersPattern ==
        StripSetting(params, "strip-response-header", compile, old(stripResponseHeadersPattern))
      ensures stripRequestHeadersPattern ==
        StripSetting(params, "strip-request-header", compile, old(stripRequestHeadersPattern))
      ensures followRedirects == FollowRedirectsSetting(params, old(followRedirects))
      ensures MaxAgeSetting(params, old(maxAge)).Err? ==>
        && failure == Some(MaxAgeSetting(params, old(maxAge)).error)
        && maxAge == old(maxAge) && pathPatterns == old(pathPatterns)
      ensures MaxAgeSetting(params, old(maxAge)).Ok? ==>
        && maxAge == MaxAgeSetting(params, old(maxAge)).value
        && fresh(pathPatterns)
        && (failure.None? <==> PairedRules(params, compile, names).Ok?)
        && (failure.Some? ==> failure == Some(PairedRules(params, compile, names).error))
        && (failure.None? ==> pathPatterns.prs == PairedRules(params, compile, names).value)
    {
      stripResponseHeadersPattern := StripSetting(params, "strip-response-header", compile, stripResponseHeadersPattern);
      stripRequestHeadersPattern := StripSetting(params, "strip-request-header", compile, stripRequestHeadersPattern);
      followRedirects := FollowRedirectsSetting(params, followRedirects);
      var age := MaxAgeSetting(params, maxAge);
      if age.Err? {
        return Some(age.error);
      }
      maxAge := age.value;

      pathPatterns := new PatternReplacements();
      var i := 0;
      while i < |names|
        invariant 0 <= i <= |names|
        invariant PairedRules(params, compile, names[..i]).Ok?
        invariant pathPatterns.prs == PairedRules(params, compile, names[..i]).value
        modifies pathPatterns
      {
        failure := AddNamedPattern(params, names, i, compile);
        if failure.Some? {
          return;
        }
        i := i + 1;
      }
      assert names[..i] == names;
      failure := None;
    }

    /** One turn of init's loop: a name starting with "path-pattern" adds its pair to the table. */
    method AddNamedPattern(params: map<string, string>, names: seq<string>, i: int, compile: Compiler)
      returns (failure: Option<JavaException>)
      requires 0 <= i < |names|
      requires PairedRules(params, compile, names[..i]).Ok?
      requires pathPatterns.prs == PairedRules(params, compile, names[..i]).value
      modifies pathPatterns
      ensures failure.None? ==>
        PairedRules(params, compile, names[..i + 1]).Ok?
        && pathPatterns.prs == PairedRules(params, compile, names[..i + 1]).value
      ensures failure.Some? ==>
        PairedRules(params, compile, names).Err? && failure == Some(PairedRules(params, compile, names).error)
    {
      var pn := names[i];
      assert names[..i + 1][..i] == names[..i];
      failure := None;
      if StartsWith(pn, PATH_PATTERN) {
        var sfx := pn[|PATH_PATTERN|..];
        var pattern := InitParameter(params, PATH_PATTERN + sfx);
        var target := InitParameter(params, TARGET_URL + sfx);
        var added := AddProxyPatternTarget(pattern, target, compile);
        if added.Err? {
          PairedRulesStopsAtError(params, compile, names, i + 1);
          failure := Some(added.error);
        }
      }
    }

    /** addProxyPatternTarget: compiles the pattern and appends the pair to the table. */
    method AddProxyPatternTarget(regex: Option<string>, target: Option<string>, compile: Compiler)
      returns (res: Result<bool, JavaException>)
      modifies pathPatterns
      ensures var rule := NewRule(if regex.Some? then Some(compile(regex.value, false)) else None, target);
        && (rule.Err? ==> res == Err(rule.error) && pathPatterns.prs == old(pathPatterns.prs))
        && (rule.Ok? ==> res == Ok(true) && pathPatterns.prs == old(pathPatterns.prs) + [rule.value])
    {
      res := pathPatterns.AddPatternReplacement(if regex.Some? then Some(compile(regex.value, false)) else None, target);
    }

    /** getReplacement: the first rule's rewrite of the path and query, or None (null). */
    method GetReplacement(r: Request) returns (res: Option<string>)
      ensures res == FirstMatch(pathPatterns.prs, MatchInput(r))
    {
      var pathInfo := if IsEmpty(r.pathInfo) then "" else r.pathInfo.value;
      if !IsEmpty(r.queryString) {
        pathInfo := pathInfo + ("?" + r.queryString.value);
      } else {
        assert pathInfo == pathInfo + "";
      }
      res := pathPatterns.Match(pathInfo);
    }

    /** getProxyTargetUrl: the target URL, or the RequestHandlingException it throws. */
    method GetProxyTargetUrl(r: Request, parseUrl: UrlParser)
      returns (t: Result<RequestProxy.Target, RequestHandling.RequestHandlingException>)
      ensures t == TargetUrl(pathPatterns.prs, r, parseUrl)
    {
      var resUrl := GetReplacement(r);
      if resUrl.None? {
        return Err(RequestHandling.NotFoundError(NotFoundMessage(r)));
      }
      if StartsWith(resUrl.value, "/") {
        return Err(RequestHandling.Forward(resUrl.value));
      }
      var url := parseUrl(resUrl.value);
      if url.Err? {
        return Err(RequestHandling.InternalServerError("\"" + resUrl.value + "\" is not a valid URL. " + url.error));
      }
      t := Ok(url.value);
    }

    /**
     * The hooks of the anonymous RequestProxy: a header is stripped when the configured
     * pattern matches it or the base class ignores it; Via names this servlet.
     */
    function Policy(): (p: RequestProxy.ProxyPolicy)
      reads this
      ensures p.followRedirects == followRedirects && p.maxAge == maxAge
      ensures p.requestProperties == [RequestProxy.SetRequestProperty("Via", "1.1 (" + servletName + ")")]
    {
      var rq, rs := stripRequestHeadersPattern, stripResponseHeadersPattern;
      RequestProxy.ProxyPolicy(h => Strips(rq, h), h => Strips(rs, h), followRedirects, maxAge,
        [RequestProxy.SetRequestProperty("Via", "1.1 (" + servletName + ")")])
    }

    /** service: resolves the target and hands the request to the proxy. */
    method Service(r: Request, parseUrl: UrlParser, up: RequestProxy.Upstream, now: int,
                   attrs: map<string, string>, response: HttpResponse)
      returns (connectionOps: seq<RequestProxy.ConnectionOp>, attributes: map<string, string>, escaped: Option<JavaException>)
      modifies response
      ensures var t := TargetUrl(pathPatterns.prs, r, parseUrl);
        t.Err? ==>
          && response.actions == old(response.actions) + [RequestHandling.Go(t.error, r).action]
          && connectionOps == [] && attributes == attrs && escaped.None?
      ensures var t := TargetUrl(pathPatterns.prs, r, parseUrl);
        t.Ok? && !EqualsIgnoreCase("CONNECT", r.httpMethod) && RequestProxy.OpeningOps(Policy(), r, t.value.isHttp).Ok? ==>
          connectionOps == RequestProxy.OpeningOps(Policy(), r, t.value.isHttp).value + RequestProxy.TransferOps(Policy(), r)
    {
      var target := GetProxyTargetUrl(r, parseUrl);
      connectionOps, attributes, escaped := RequestProxy.Service(Policy(), r, target, up, now, attrs, response);
    }
  }

  /**
   * The servlet's header policy: a header is ignored when its strip pattern matches or the
   * base RequestProxy ignores it; with no pattern configured, exactly the base policy applies.
   */
  lemma PolicyIgnores(s: ProxyServlet, hdr: string)
    ensures RequestProxy.IgnoreRequestHeader(s.Policy(), hdr) <==>
      Strips(s.stripRequestHeadersPattern, hdr) || RequestProxy.IgnoreRequestHeader(RequestProxy.BasePolicy(), hdr)
    ensures s.maxAge <= 0 ==> (RequestProxy.IgnoreResponseHeader(s.Policy(), hdr) <==>
      Strips(s.stripResponseHeadersPattern, hdr) || RequestProxy.IgnoreResponseHeader(RequestProxy.BasePolicy(), hdr))
    ensures s.stripRequestHeadersPattern.None? ==>
      (RequestProxy.IgnoreRequestHeader(s.Policy(), hdr) <==> hdr in RequestProxy.IGNORE_HEADER)
  {
  }

  /**
   * The servlet's requestProperties only set a property, so the proxy's body and cache
   * decisions hold for it, and the Via header always goes upstream.
   */
  lemma PolicyProperties(s: ProxyServlet, r: Request)
    ensures RequestProxy.PropertiesOnly(s.Policy().requestProperties)
    ensures RequestProxy.SetRequestProperty("Via", "1.1 (" + s.servletName + ")") in RequestProxy.TransferOps(s.Policy(), r)
    ensures RequestProxy.SetUseCaches(false) in RequestProxy.TransferOps(s.Policy(), r) <==> RequestProxy.NoCacheRequested(r)
  {
    var p := s.Policy();
    RequestProxy.CachingDisabledIff(p, r);
    var connHdr, names := RequestProxy.ConnectionHeader(r), RequestProxy.HeaderNames(r);
    var pre := RequestProxy.HeaderOps(p, connHdr, r, names);
    assert RequestProxy.TransferOps(p, r)[|pre|] == p.requestProperties[0];
  }
}
