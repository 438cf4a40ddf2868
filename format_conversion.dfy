/**
 * FormatConversionFilter: a request for "<file>.<ext>_<fmt>" is passed down the chain as a
 * request for "<file>.<ext>"; the answer is buffered, and a 200 answer is converted by the
 * configured transformer, while any other answer is passed on as it came.
 */
module FormatConversion {
  import opened Wrappers
  import opened JavaLang
  import opened Servlet
  import opened OutputStreams
  import opened BufferedResponse
  import RequestHelper

  const SC_OK: int := 200

  // ---------------------------------------------------------------- parseRequestPath

  predicate IsAlnum(c: char) {
    'a' <= c <= 'z' || 'A' <= c <= 'Z' || '0' <= c <= '9'
  }

  predicate AllAlnum(s: string) {
    forall i :: 0 <= i < |s| ==> IsAlnum(s[i])
  }

  /** `path` is prefix + "." + ext + "_" + fmt with the groups of MAGIC_FORMAT_TAILPATTERN. */
  predicate IsMagicPath(path: string, prefix: string, ext: string, fmt: string) {
    && path == prefix + "." + ext + "_" + fmt
    && RequestHelper.NoLineTerminator(prefix)
    && |ext| > 0 && RequestHelper.AllWordChars(ext)
    && |fmt| > 0 && AllAlnum(fmt)
  }

  /**
   * parseRequestPath: the source path (groups 1 and 2 joined by the dot) when the whole
   * path matches `(.*)\.([a-zA-Z0-9_]+)_([a-zA-Z0-9]+)`, else None (null). Neither the
   * extension, the underscore nor the format holds a dot, and the format holds no
   * underscore, so a match splits the path at its last '.' and its last '_'. The `.*` of
   * group 1 stops at line terminators, so the part before the dot must hold none.
   */
  function ParseRequestPath(path: string): (src: Option<string>)
    ensures src.Some? ==> |src.value| < |path| - 1 && path[..|src.value|] == src.value && path[|src.value|] == '_'
  {
    var d := LastIndexOfChar(path, '.');
    var u := LastIndexOfChar(path, '_');
    if 0 <= d && d + 1 < u < |path| - 1
       && RequestHelper.NoLineTerminator(path[..d])
       && RequestHelper.AllWordChars(path[d + 1..u]) && AllAlnum(path[u + 1..])
    then Some(path[..u])
    else None
  }

  /** A parsed path is a magic path whose source is prefix.ext, and source + "_" + fmt gives the path back. */
  lemma ParseRequestPathSound(path: string)
    requires ParseRequestPath(path).Some?
    ensures var d, u := LastIndexOfChar(path, '.'), LastIndexOfChar(path, '_');
      && IsMagicPath(path, path[..d], path[d + 1..u], path[u + 1..])
      && ParseRequestPath(path).value == path[..d] + "." + path[d + 1..u]
      && ParseRequestPath(path).value + "_" + path[u + 1..] == path
  {
    var d, u := LastIndexOfChar(path, '.'), LastIndexOfChar(path, '_');
    assert path == path[..d] + "." + path[d + 1..u] + "_" + path[u + 1..];
    assert path[..u] == path[..d] + "." + path[d + 1..u];
  }

  /** Every magic path parses, to prefix.ext. */
  lemma ParseRequestPathComplete(path: string, prefix: string, ext: string, fmt: string)
    requires IsMagicPath(path, prefix, ext, fmt)
    ensures ParseRequestPath(path) == Some(prefix + "." + ext)
  {
    var d, u := |prefix|, |prefix| + 1 + |ext|;
    assert path[d] == '.';
    assert path[u] == '_';
    assert path[..d] == prefix;
    assert path[d + 1..u] == ext;
    assert path[u + 1..] == fmt;
    forall j | u < j < |path| ensures path[j] != '_' && path[j] != '.' {
      assert IsAlnum(fmt[j - u - 1]);
    }
    forall j | d < j < |path| ensures path[j] != '.' {
      if j < u {
        assert RequestHelper.IsWordChar(ext[j - d - 1]);
      }
    }
    LastIndexOfCharAt(path, '.', d);
    LastIndexOfCharAt(path, '_', u);
    assert path[..u] == prefix + "." + ext;
  }

  /** The last occurrence of `c` is at `k` when `c` is at `k` and nowhere after it. */
  lemma {:induction false} LastIndexOfCharAt(s: string, c: char, k: int)
    requires 0 <= k < |s| && s[k] == c
    requires forall j :: k < j < |s| ==> s[j] != c
    ensures LastIndexOfChar(s, c) == k
    decreases |s|
  {
    if k < |s| - 1 {
      LastIndexOfCharAt(s[..|s| - 1], c, k);
    }
  }

  /** "/img/logo.png_webp" is a request for "/img/logo.png". */
  lemma ParseRequestPathExample()
    ensures ParseRequestPath("/img/logo.png_webp") == Some("/img/logo.png")
  {
    ExampleIsMagic();
    ParseRequestPathComplete("/img/logo.png_webp", "/img/logo", "png", "webp");
    assert "/img/logo" + "." + "png" == "/img/logo.png";
  }

  lemma ExampleIsMagic()
    ensures IsMagicPath("/img/logo.png_webp", "/img/logo", "png", "webp")
  {
    assert "/img/logo.png_webp" == "/img/logo" + "." + "png" + "_" + "webp";
    assert RequestHelper.AllWordChars("png") && AllAlnum("webp");
    assert RequestHelper.NoLineTerminator("/img/logo");
  }

  /** "/img/logo" has no format suffix and is not recognized. */
  lemma ParseRequestPathRejects()
    ensures ParseRequestPath("/img/logo") == None
  {
    var s := "/img/logo";
    assert forall i :: 0 <= i < |s| ==> s[i] != '_';
    assert LastIndexOfChar(s, '_') == -1;
  }

  /** A line break before the extension keeps `.*` from matching: the path is not recognized. */
  lemma ParseRequestPathRejectsLineBreak()
    ensures ParseRequestPath("\n.png_webp") == None
  {
    var s := "\n.png_webp";
    LastIndexOfCharAt(s, '.', 1);
    assert !RequestHelper.NoLineTerminator(s[..1]) by {
      assert RequestHelper.IsLineTerminator(s[..1][0]);
    }
  }

  // ---------------------------------------------------------------- RequestWrapper

  /**
   * The RequestWrapper constructor: with no pathInfo the servlet path names the file, else
   * the pathInfo does; the wrapper reports the source path in its place. An unrecognized
   * path leaves parseRequestPath's null to be dereferenced: a NullPointerException.
   */
  function WrapRequest(r: Request): (w: Result<Request, JavaException>)
    ensures w.Err? ==> w.error == NullPointer
  {
    if r.pathInfo.None? then
      match ParseRequestPath(r.servletPath)
      case None => Err(NullPointer)
      case Some(src) => Ok(r.(requestUri := r.contextPath + src, pathInfo := None))
    else
      match ParseRequestPath(r.pathInfo.value)
      case None => Err(NullPointer)
      case Some(src) => Ok(r.(requestUri := r.contextPath + r.servletPath + src, pathInfo := Some(src)))
  }

  /**
   * With no pathInfo, the wrapped request names the source file by its requestURI alone:
   * requestURI + "_" + fmt is the original contextPath + servletPath; nothing else changes.
   */
  lemma WrapRequestServletPath(r: Request)
    requires r.pathInfo.None?
    ensures WrapRequest(r).Ok? <==> ParseRequestPath(r.servletPath).Some?
    ensures WrapRequest(r).Ok? ==>
      var w := WrapRequest(r).value;
      && w == r.(requestUri := w.requestUri)
      && w.requestUri + "_" + r.servletPath[LastIndexOfChar(r.servletPath, '_') + 1..] == r.contextPath + r.servletPath
  {
    if ParseRequestPath(r.servletPath).Some? {
      ParseRequestPathSound(r.servletPath);
      var src := ParseRequestPath(r.servletPath).value;
      var fmt := r.servletPath[LastIndexOfChar(r.servletPath, '_') + 1..];
      assert r.contextPath + src + "_" + fmt == r.contextPath + (src + "_" + fmt);
    }
  }

  /**
   * With a pathInfo, the wrapped request reports the source path as its pathInfo, and
   * requestURI + "_" + fmt is the original contextPath + servletPath + pathInfo; nothing else changes.
   */
  lemma WrapRequestPathInfo(r: Request)
    requires r.pathInfo.Some?
    ensures WrapRequest(r).Ok? <==> ParseRequestPath(r.pathInfo.value).Some?
    ensures WrapRequest(r).Ok? ==>
      var w := WrapRequest(r).value;
      && w == r.(requestUri := w.requestUri, pathInfo := w.pathInfo)
      && w.pathInfo == ParseRequestPath(r.pathInfo.value)
      && w.requestUri + "_" + r.pathInfo.value[LastIndexOfChar(r.pathInfo.value, '_') + 1..]
           == r.contextPath + r.servletPath + r.pathInfo.value
  {
    var path := r.pathInfo.value;
    if ParseRequestPath(path).Some? {
      ParseRequestPathSound(path);
      var src := ParseRequestPath(path).value;
      var fmt := path[LastIndexOfChar(path, '_') + 1..];
      assert r.contextPath + r.servletPath + src + "_" + fmt == r.contextPath + r.servletPath + (src + "_" + fmt);
    }
  }

  // ---------------------------------------------------------------- postProcess

  /** A SimpleFormatTransformer: its two mime types and what transform makes of the bytes. */
  datatype Transformer = Transformer(sourceMimeType: string, targetMimeType: string, transform: seq<Byte> -> seq<Byte>)

  /** The calls postProcess makes on the upstream response, given what the wrapper captured. */
  function PostProcessActions(t: Transformer, status: int, contentType: Option<string>, contentLength: int,
                              content: Option<seq<Byte>>): (acts: seq<ResponseAction>)
    ensures content.None? <==> acts == []
    ensures content.Some? ==>
      && |acts| >= 3 && acts[|acts| - 1].WriteBody? && acts[|acts| - 2].SetContentLength?
      && (forall i :: 0 <= i < |acts| - 1 ==> !acts[i].WriteBody?)
    ensures content.Some? && status == SC_OK ==> acts[|acts| - 2].length == |acts[|acts| - 1].bytes|
    ensures content.Some? && status != SC_OK ==> acts[|acts| - 1].bytes == content.value
  {
    if content.None? then []
    else if status == SC_OK then
      var result := t.transform(content.value);
      [AddHeader("X-Transformed-From", t.sourceMimeType), SetContentType(Some(t.targetMimeType)),
       SetContentLength(|result|), WriteBody(result)]
    else
      [SetContentType(contentType), SetContentLength(contentLength), WriteBody(content.value)]
  }

  /**
   * Nothing is written without buffered content; a 200 answer goes out converted, labelled
   * with the source type and the target type and the converted length; any other answer
   * goes out as captured, and the transformer is not consulted for it.
   */
  lemma PostProcessCases(t: Transformer, t2: Transformer, status: int, contentType: Option<string>,
                         contentLength: int, content: Option<seq<Byte>>)
    ensures content.None? ==> PostProcessActions(t, status, contentType, contentLength, content) == []
    ensures content.Some? && status == SC_OK ==>
      var acts := PostProcessActions(t, status, contentType, contentLength, content);
      && |acts| == 4 && acts[0] == AddHeader("X-Transformed-From", t.sourceMimeType)
      && acts[1] == SetContentType(Some(t.targetMimeType))
      && acts[2] == SetContentLength(|t.transform(content.value)|)
      && acts[3] == WriteBody(t.transform(content.value))
      && acts[2].length == |acts[3].bytes|
    ensures content.Some? && status != SC_OK ==>
      && PostProcessActions(t, status, contentType, contentLength, content)
           == [SetContentType(contentType), SetContentLength(contentLength), WriteBody(content.value)]
      && PostProcessActions(t, status, contentType, contentLength, content)
           == PostProcessActions(t2, status, contentType, contentLength, content)
  {
  }

  /** postProcess(response), performing the calls one by one on the upstream response. */
  method PostProcess(t: Transformer, w: ByteBufferedResponse)
    requires w.Valid()
    modifies w.upstream
    ensures w.upstream.actions == old(w.upstream.actions)
      + PostProcessActions(t, w.downstreamStatus, w.downstreamContentType, w.downstreamContentLength, w.DownstreamContent())
  {
    var content := w.DownstreamContent();
    if content.None? {
      return;
    }
    var upstream := w.upstream;
    if w.downstreamStatus == SC_OK {
      var result := t.transform(content.value);
      upstream.Perform(AddHeader("X-Transformed-From", t.sourceMimeType));
      upstream.Perform(SetContentType(Some(t.targetMimeType)));
      upstream.Perform(SetContentLength(|result|));
      upstream.Perform(WriteBody(result));
    } else {
      upstream.Perform(SetContentType(w.downstreamContentType));
      upstream.Perform(SetContentLength(w.downstreamContentLength));
      upstream.Perform(WriteBody(content.value));
    }
  }

  // ---------------------------------------------------------------- the chain

  /** One call the servlet down the chain makes on the wrapped response. */
  datatype ServletCall =
    | StreamWrite(bytes: seq<Byte>)
    | WriterPrint(encoded: seq<Byte>)
    | WriterFlush
    | CallFlushBuffer
    | CallSetStatus(sc: int)
    | CallSetStatusMessage(sc: int, sm: string)
    | CallPutHeader(name: string, value: string, replace: bool)
    | CallSetContentType(contentType: Option<string>)
    | CallSetContentLength(length: int)
      /**
       * A call the wrapper does not override (sendError, sendRedirect, addCookie,
       * setDateHeader, setIntHeader, addIntHeader, setContentLengthLong, ...):
       * HttpServletResponseWrapper hands it to the wrapped response as it is.
       */
    | CallPassThrough(action: ResponseAction)
      /**
       * The servlet itself throws (a connect failure of the proxy, say): the exception leaves
       * chain.doFilter without touching the wrapper.
       */
    | CallThrow(exception: JavaException)

  /** Which accessor of the wrapper has been used. */
  datatype Mode = Unopened | StreamMode | WriterMode

  /** The wrapper as the filter sees it afterwards. */
  datatype DownState = DownState(
    status: int, contentType: Option<string>, contentLength: int,
    mode: Mode, content: seq<Byte>, pending: seq<Byte>)

  /** A new wrapper: status 0, length 0, no type, nothing opened. */
  const INITIAL: DownState := DownState(0, None, 0, Unopened, [], [])

  /** getDownstreamContent() of a wrapper in state s. */
  function Content(s: DownState): Option<seq<Byte>> {
    if s.mode == Unopened then None else Some(s.content)
  }

  /** What one call does: the new state, the exception it throws, and the calls passed upstream. */
  datatype Outcome = Outcome(state: DownState, failure: Option<JavaException>, passed: seq<ResponseAction>)

  function Step(s: DownState, c: ServletCall): (o: Outcome)
    ensures o.failure.Some? ==> o.state == s && o.passed == []
    ensures s.mode == StreamMode ==> o.state.mode == StreamMode
    ensures s.mode == WriterMode ==> o.state.mode == WriterMode
    ensures s.content <= o.state.content
    ensures |o.passed| <= 1
  {
    match c
    case StreamWrite(b) =>
      if s.mode == WriterMode then Outcome(s, Some(IllegalState(STREAM_TAKEN)), [])
      else Outcome(s.(mode := StreamMode, content := s.content + b), None, [])
    case WriterPrint(b) =>
      if s.mode == StreamMode then Outcome(s, Some(IllegalState(STREAM_TAKEN)), [])
      else Outcome(s.(mode := WriterMode, pending := s.pending + b), None, [])
    case WriterFlush =>
      if s.mode == StreamMode then Outcome(s, Some(IllegalState(STREAM_TAKEN)), [])
      else Outcome(s.(mode := WriterMode, content := s.content + s.pending, pending := []), None, [])
    case CallFlushBuffer =>
      if s.mode == Unopened then Outcome(s, Some(NullPointer), []) else Outcome(s, None, [])
    case CallSetStatus(sc) => Outcome(s.(status := sc), None, [SetStatus(sc)])
    case CallSetStatusMessage(sc, sm) => Outcome(s.(status := sc), None, [SetStatusMessage(sc, sm)])
    case CallPutHeader(name, value, replace) =>
      (match Capture(name, value)
       case CaptureType(t) => Outcome(s.(contentType := Some(t)), None, [])
       case CaptureLength(n) =>
         if n.None? then Outcome(s, Some(NumberFormat(value)), [])
         else Outcome(s.(contentLength := n.value), None, [])
       case PassOn => Outcome(s, None, [if replace then SetHeader(name, value) else AddHeader(name, value)]))
    case CallSetContentType(t) => Outcome(s.(contentType := t), None, [])
    case CallSetContentLength(n) => Outcome(s.(contentLength := n), None, [])
    case CallPassThrough(a) => Outcome(s, None, [a])
    case CallThrow(e) => Outcome(s, Some(e), [])
  }

  /** The calls in order, stopping at the first that throws. */
  function Run(s: DownState, calls: seq<ServletCall>): (o: Outcome)
    ensures s.mode != Unopened ==> o.state.mode == s.mode
    ensures s.content <= o.state.content
    ensures |o.passed| <= |calls|
    decreases |calls|
  {
    if calls == [] then Outcome(s, None, [])
    else
      var o := Step(s, calls[0]);
      if o.failure.Some? then o
      else
        var rest := Run(o.state, calls[1..]);
        Outcome(rest.state, rest.failure, o.passed + rest.passed)
  }

  /**
   * The stream and the writer exclude each other for good: once one is in use, every call
   * through the other throws IllegalStateException and changes nothing.
   */
  lemma {:induction false} ModeIsKept(s: DownState, calls: seq<ServletCall>)
    requires s.mode != Unopened
    ensures Run(s, calls).state.mode == s.mode
    ensures s.mode == StreamMode && calls != [] && (calls[0].WriterPrint? || calls[0].WriterFlush?) ==>
      Run(s, calls) == Outcome(s, Some(IllegalState(STREAM_TAKEN)), [])
    ensures s.mode == WriterMode && calls != [] && calls[0].StreamWrite? ==>
      Run(s, calls) == Outcome(s, Some(IllegalState(STREAM_TAKEN)), [])
    decreases |calls|
  {
    if calls != [] && Step(s, calls[0]).failure.None? {
      ModeIsKept(Step(s, calls[0]).state, calls[1..]);
    }
  }

  /**
   * A servlet that throws after its calls ends the run with its own exception, keeping what
   * the calls before it did; so tryFilter does not post-process.
   */
  lemma {:induction false} ThrowEndsRun(s: DownState, calls: seq<ServletCall>, e: JavaException)
    ensures Run(s, calls + [CallThrow(e)]).failure.Some?
    ensures Run(s, calls).failure.None? ==>
      Run(s, calls + [CallThrow(e)]) == Outcome(Run(s, calls).state, Some(e), Run(s, calls).passed)
    decreases |calls|
  {
    if calls != [] {
      assert (calls + [CallThrow(e)])[0] == calls[0];
      assert (calls + [CallThrow(e)])[1..] == calls[1..] + [CallThrow(e)];
      var o := Step(s, calls[0]);
      if o.failure.None? {
        ThrowEndsRun(o.state, calls[1..], e);
      }
    }
  }

  /** Written through the stream alone, the content is exactly the bytes written, in order. */
  lemma {:induction false} StreamContent(s: DownState, chunks: seq<seq<Byte>>)
    requires s.mode != WriterMode
    ensures var calls := seq(|chunks|, i requires 0 <= i < |chunks| => StreamWrite(chunks[i]));
      var o := Run(s, calls);
      && o.failure.None? && o.passed == []
      && o.state.content == s.content + Concat(chunks)
      && (chunks != [] ==> o.state.mode == StreamMode)
    decreases |chunks|
  {
    var calls := seq(|chunks|, i requires 0 <= i < |chunks| => StreamWrite(chunks[i]));
    if chunks != [] {
      var next := s.(mode := StreamMode, content := s.content + chunks[0]);
      var restCalls := seq(|chunks| - 1, i requires 0 <= i < |chunks| - 1 => StreamWrite(chunks[1..][i]));
      assert calls[1..] == restCalls;
      StreamContent(next, chunks[1..]);
      assert s.content + chunks[0] + Concat(chunks[1..]) == s.content + Concat(chunks);
    }
  }

  function Concat(chunks: seq<seq<Byte>>): seq<Byte>
    decreases |chunks|
  {
    if chunks == [] then [] else chunks[0] + Concat(chunks[1..])
  }

  /** The wrapper's fields seen as a DownState. */
  ghost function View(w: ByteBufferedResponse): DownState
    reads w, w.Objects()
  {
    DownState(w.downstreamStatus, w.downstreamContentType, w.downstreamContentLength,
      if w.writer.Some? then WriterMode else if w.stream.Some? then StreamMode else Unopened,
      if w.bo.Some? then w.bo.value.buf else [],
      if w.writer.Some? then w.writer.value.pending else [])
  }

  /** The wrapper is consistent and its stream was never closed (the filter never closes it). */
  ghost predicate Usable(w: ByteBufferedResponse)
    reads w, w.Objects()
  {
    && w.Valid()
    && (w.stream.Some? ==> !w.stream.value.closed)
  }

  /** chain.doFilter for one call: the call made on the wrapper through its methods. */
  method Apply(w: ByteBufferedResponse, c: ServletCall) returns (failure: Option<JavaException>)
    requires Usable(w)
    modifies w, w.Objects(), w.upstream
    ensures Usable(w)
    ensures forall o :: o in w.Objects() ==> o in old(w.Objects()) || fresh(o)
    ensures View(w) == Step(old(View(w)), c).state
    ensures failure == Step(old(View(w)), c).failure
    ensures w.upstream.actions == old(w.upstream.actions) + Step(old(View(w)), c).passed
  {
    match c {
      case StreamWrite(b) => failure := ApplyStreamWrite(w, b);
      case WriterPrint(b) => failure := ApplyWriter(w, b, false);
      case WriterFlush => failure := ApplyWriter(w, [], true);
      case CallFlushBuffer => failure := w.FlushBuffer();
      case CallThrow(e) => failure := Some(e);
      case _ => failure := ApplyHeaderCall(w, c);
    }
  }

  /**
   * The calls that set status, headers, type and length, and the calls the wrapper passes
   * through: they leave the body alone.
   */
  method ApplyHeaderCall(w: ByteBufferedResponse, c: ServletCall) returns (failure: Option<JavaException>)
    requires Usable(w)
    requires !(c.StreamWrite? || c.WriterPrint? || c.WriterFlush? || c.CallFlushBuffer? || c.CallThrow?)
    modifies w, w.upstream
    ensures Usable(w) && w.Objects() == old(w.Objects())
    ensures View(w) == Step(old(View(w)), c).state
    ensures failure == Step(old(View(w)), c).failure
    ensures w.upstream.actions == old(w.upstream.actions) + Step(old(View(w)), c).passed
  {
    match c {
      case CallSetStatus(sc) => w.SetStatus(sc); failure := None;
      case CallSetStatusMessage(sc, sm) => w.SetStatusMessage(sc, sm); failure := None;
      case CallPutHeader(name, value, replace) => failure := w.PutHeader(name, value, replace);
      case CallSetContentType(t) => w.SetContentType(t); failure := None;
      case CallSetContentLength(n) => w.SetContentLength(n); failure := None;
      case CallPassThrough(a) => w.upstream.Perform(a); failure := None;
    }
  }

  /** getOutputStream().write(b). */
  method ApplyStreamWrite(w: ByteBufferedResponse, b: seq<Byte>) returns (failure: Option<JavaException>)
    requires Usable(w)
    modifies w, w.Objects()
    ensures Usable(w)
    ensures forall o :: o in w.Objects() ==> o in old(w.Objects()) || fresh(o)
    ensures View(w) == Step(old(View(w)), StreamWrite(b)).state
    ensures failure == Step(old(View(w)), StreamWrite(b)).failure
  {
    var s := w.GetOutputStream();
    if s.Err? {
      return Some(s.error);
    }
    failure := s.value.Write(b);
  }

  /** getWriter().print(b), or with `flush` getWriter().flush(). */
  method ApplyWriter(w: ByteBufferedResponse, b: seq<Byte>, flush: bool) returns (failure: Option<JavaException>)
    requires Usable(w)
    modifies w, w.Objects()
    ensures Usable(w)
    ensures forall o :: o in w.Objects() ==> o in old(w.Objects()) || fresh(o)
    ensures View(w) == Step(old(View(w)), if flush then WriterFlush else WriterPrint(b)).state
    ensures failure == Step(old(View(w)), if flush then WriterFlush else WriterPrint(b)).failure
  {
    var pw := w.GetWriter();
    if pw.Err? {
      return Some(pw.error);
    }
    if flush {
      pw.value.Flush();
    } else {
      pw.value.Write(b);
    }
    failure := None;
  }

  /** The chain's calls made on the wrapper one after the other, up to the first that throws. */
  method RunChain(w: ByteBufferedResponse, calls: seq<ServletCall>) returns (failure: Option<JavaException>)
    requires Usable(w)
    modifies w, w.Objects(), w.upstream
    ensures Usable(w)
    ensures View(w) == Run(old(View(w)), calls).state
    ensures failure == Run(old(View(w)), calls).failure
    ensures w.upstream.actions == old(w.upstream.actions) + Run(old(View(w)), calls).passed
  {
    ghost var start := View(w);
    ghost var passed: seq<ResponseAction> := [];
    var i := 0;
    assert calls[i..] == calls;
    ResumeNothing(Run(start, calls));
    while i < |calls|
      invariant 0 <= i <= |calls|
      invariant Usable(w)
      invariant forall o :: o in w.Objects() ==> o in old(w.Objects()) || fresh(o)
      invariant w.upstream.actions == old(w.upstream.actions) + passed
      invariant Run(start, calls) == Resume(Run(View(w), calls[i..]), passed)
    {
      ghost var next;
      var f;
      f, next := ApplyNext(w, calls, i, start, passed, old(w.upstream.actions));
      passed := next;
      if f.Some? {
        return f;
      }
      i := i + 1;
    }
    failure := None;
  }

  /** One turn of the chain loop: the next call, and where the whole run stands after it. */
  method ApplyNext(w: ByteBufferedResponse, calls: seq<ServletCall>, i: int, ghost start: DownState,
                   ghost passed: seq<ResponseAction>, ghost base: seq<ResponseAction>)
    returns (failure: Option<JavaException>, ghost passed': seq<ResponseAction>)
    requires Usable(w) && 0 <= i < |calls|
    requires w.upstream.actions == base + passed
    requires Run(start, calls) == Resume(Run(View(w), calls[i..]), passed)
    modifies w, w.Objects(), w.upstream
    ensures Usable(w) && forall o :: o in w.Objects() ==> o in old(w.Objects()) || fresh(o)
    ensures w.upstream.actions == base + passed'
    ensures failure.Some? ==> Run(start, calls) == Outcome(View(w), failure, passed')
    ensures failure.None? ==> Run(start, calls) == Resume(Run(View(w), calls[i + 1..]), passed')
  {
    ghost var before := View(w);
    ghost var o := Step(before, calls[i]);
    RunUnfold(before, calls[i..]);
    assert calls[i..][1..] == calls[i + 1..];
    failure := Apply(w, calls[i]);
    passed' := passed + o.passed;
    AppendAssoc(base, passed, o.passed);
    if failure.None? {
      ResumeResume(Run(o.state, calls[i + 1..]), passed, o.passed);
    }
  }

  /** The remaining run, behind the calls already passed on. */
  function Resume(rest: Outcome, passed: seq<ResponseAction>): Outcome {
    Outcome(rest.state, rest.failure, passed + rest.passed)
  }

  lemma ResumeNothing(o: Outcome)
    ensures Resume(o, []) == o
  {
    assert [] + o.passed == o.passed;
  }

  lemma ResumeResume(rest: Outcome, a: seq<ResponseAction>, b: seq<ResponseAction>)
    ensures Resume(Resume(rest, b), a) == Resume(rest, a + b)
  {
    AppendAssoc(a, b, rest.passed);
  }

  lemma RunUnfold(s: DownState, calls: seq<ServletCall>)
    requires calls != []
    ensures var o := Step(s, calls[0]);
      Run(s, calls) == if o.failure.Some? then o else Resume(Run(o.state, calls[1..]), o.passed)
  {
  }

  /**
   * tryFilter: wraps the request (an unrecognized path throws before anything is sent),
   * runs the chain on a fresh buffered response, then post-processes what it captured.
   * `chain` gives the calls the downstream servlet makes for the request it is handed.
   * The source rethrows a RuntimeException of the chain or of post-processing wrapped in a
   * ServletException; `failure` is the exception itself, since the wrapping changes only
   * what doFilter logs.
   */
  method TryFilter(r: Request, t: Transformer, chain: Request -> seq<ServletCall>, upstream: HttpResponse)
    returns (failure: Option<JavaException>)
    modifies upstream
    ensures WrapRequest(r).Err? ==> failure == Some(NullPointer) && upstream.actions == old(upstream.actions)
    ensures WrapRequest(r).Ok? ==>
      var o := Run(INITIAL, chain(WrapRequest(r).value));
      && failure == o.failure
      && upstream.actions == old(upstream.actions) + o.passed
           + (if o.failure.Some? then []
              else PostProcessActions(t, o.state.status, o.state.contentType, o.state.contentLength, Content(o.state)))
  {
    var wrapped := WrapRequest(r);
    if wrapped.Err? {
      return Some(wrapped.error);
    }
    var w := new ByteBufferedResponse(upstream);
    assert View(w) == INITIAL;
    failure := RunChain(w, chain(wrapped.value));
    if failure.Some? {
      return;
    }
    ghost var mid := upstream.actions;
    assert w.DownstreamContent() == Content(View(w));
    PostProcess(t, w);
    AppendAssoc(old(upstream.actions), Run(INITIAL, chain(wrapped.value)).passed,
      PostProcessActions(t, w.downstreamStatus, w.downstreamContentType, w.downstreamContentLength, w.DownstreamContent()));
  }

  /** doFilter: any exception of tryFilter is logged and swallowed; the returned value is what gets logged. */
  method DoFilter(r: Request, t: Transformer, chain: Request -> seq<ServletCall>, upstream: HttpResponse)
    returns (logged: Option<JavaException>)
    modifies upstream
    ensures WrapRequest(r).Err? ==> logged == Some(NullPointer) && upstream.actions == old(upstream.actions)
    ensures WrapRequest(r).Ok? ==>
      var o := Run(INITIAL, chain(WrapRequest(r).value));
      && logged == o.failure
      && upstream.actions == old(upstream.actions) + o.passed
           + (if o.failure.Some? then []
              else PostProcessActions(t, o.state.status, o.state.contentType, o.state.contentLength, Content(o.state)))
  {
    logged := TryFilter(r, t, chain, upstream);
  }
}
