/**
 * ByteBufferedHttpServletResponseWrapper: a response wrapper that keeps the body, the
 * content type, the content length and the status the wrapped servlet produces, instead of
 * sending them, so that a filter can post-process them. Other headers pass through.
 */
module BufferedResponse {
  import opened Wrappers
  import opened JavaLang
  import opened Servlet
  import opened OutputStreams

  const STREAM_TAKEN: string := "getOutputStream() has already been called!"

  /**
   * The PrintWriter over an OutputStreamWriter that getWriter hands out. What is written
   * is given already encoded; it waits in `pending` and reaches the stream on flush.
   */
  class BufferedWriter {
    const out: ServletOutputStreamWrapper
    var pending: seq<Byte>
    var trouble: bool

    constructor (out: ServletOutputStreamWrapper)
      ensures this.out == out && pending == [] && !trouble
    {
      this.out := out;
      pending := [];
      trouble := false;
    }

    method Write(encoded: seq<Byte>)
      modifies this
      ensures pending == old(pending) + encoded && trouble == old(trouble)
    {
      pending := pending + encoded;
    }

    /** flush(): hands the pending bytes to the stream; a PrintWriter swallows the IOException. */
    method Flush()
      modifies this, out.out
      ensures pending == []
      ensures !out.closed ==> out.out.buf == old(out.out.buf) + old(pending) && trouble == old(trouble)
      ensures out.closed ==> out.out.buf == old(out.out.buf) && trouble
    {
      var failure := out.Write(pending);
      if failure.Some? {
        trouble := true;
      }
      pending := [];
    }
  }

  /** What addHeader/setHeader do with a header: capture Content-Type or Content-Length, or pass it on. */
  datatype HeaderCapture =
    | CaptureType(contentType: string)
    | CaptureLength(length: Option<int>)
    | PassOn

  /** The header names are compared ignoring case; a length that is not an int is None (NumberFormatException). */
  function Capture(name: string, value: string): (c: HeaderCapture)
    ensures c.CaptureType? <==> EqualsIgnoreCase("Content-Type", name)
    ensures c.CaptureLength? <==> !EqualsIgnoreCase("Content-Type", name) && EqualsIgnoreCase("Content-Length", name)
    ensures c.CaptureType? ==> c.contentType == value
    ensures c.CaptureLength? ==> c.length == ParseInt(value)
  {
    if EqualsIgnoreCase("Content-Type", name) then CaptureType(value)
    else if EqualsIgnoreCase("Content-Length", name) then CaptureLength(ParseInt(value))
    else PassOn
  }

  /** Capture does not depend on how the name is cased. */
  lemma CaptureIgnoresCase(name: string, value: string)
    ensures Capture(name, value) == Capture(ToLower(name), value)
  {
    ToLowerIdempotent(name);
  }

  /** A length rendered from an int is captured as that int. */
  lemma CaptureLengthRoundTrip(n: int)
    requires IsInt32(n)
    ensures Capture("content-length", IntToString(n)) == CaptureLength(Some(n))
  {
    ParseIntOfIntToString(n);
    LowerCaseContentLength();
  }

  lemma LowerCaseContentLength()
    ensures EqualsIgnoreCase("Content-Length", "content-length")
    ensures !EqualsIgnoreCase("Content-Type", "content-length")
  {
    assert ToLower("Content-Length") == "content-length";
  }

  /** Capture on names as they are written: an upper-case Content-Type is captured, another header passed on. */
  lemma CaptureExamples(value: string)
    ensures Capture("CONTENT-TYPE", value) == CaptureType(value)
    ensures Capture("X-Powered-By", value) == PassOn
  {
    assert ToLower("CONTENT-TYPE") == ToLower("Content-Type");
    assert ToLower("X-Powered-By")[0] != ToLower("Content-Type")[0];
    assert |ToLower("X-Powered-By")| != |ToLower("Content-Length")|;
  }

  class ByteBufferedResponse {
    var downstreamContentType: Option<string>
    var downstreamContentLength: int
    var downstreamStatus: int
    var stream: Option<ServletOutputStreamWrapper>
    var writer: Option<BufferedWriter>
    var bo: Option<ByteArrayOutputStream>
    /** getUpstreamResponse(): the wrapped response. */
    const upstream: HttpResponse

    /** The stream writes to bo, the writer (if any) to the stream; they are created together. */
    ghost predicate Valid()
      reads this, Objects()
    {
      && (stream.Some? <==> bo.Some?)
      && (stream.Some? ==> stream.value.out == bo.value)
      && (writer.Some? ==> stream.Some? && writer.value.out == stream.value)
    }

    /** The objects the wrapper has allocated. */
    ghost function Objects(): set<object>
      reads this
    {
      (if stream.Some? then {stream.value} else {})
        + (if bo.Some? then {bo.value} else {})
        + (if writer.Some? then {writer.value} else {})
    }

    constructor (upstream: HttpResponse)
      ensures Valid() && this.upstream == upstream
      ensures downstreamStatus == 0 && downstreamContentLength == 0 && downstreamContentType.None?
      ensures DownstreamContent().None?
      ensures stream.None? && writer.None?
    {
      this.upstream := upstream;
      downstreamContentType := None;
      downstreamContentLength := 0;
      downstreamStatus := 0;
      stream := None;
      writer := None;
      bo := None;
    }

    /** getDownstreamContent(): null before a stream or writer was obtained, else the buffered bytes. */
    function DownstreamContent(): (c: Option<seq<Byte>>)
      reads this, if bo.Some? then {bo.value} else {}
      ensures c.Some? <==> bo.Some?
    {
      if bo.None? then None else Some(bo.value.buf)
    }

    /** createOutputStream: a fresh empty buffer and a fresh open stream over it. */
    method CreateOutputStream()
      modifies this
      ensures stream.Some? && !stream.value.closed && bo.Some? && bo.value.buf == []
      ensures fresh(stream.value) && fresh(bo.value) && Valid()
      ensures writer == old(writer) && unchanged(this`downstreamContentType, this`downstreamContentLength, this`downstreamStatus)
      requires writer.None?
    {
      var b := new ByteArrayOutputStream();
      bo := Some(b);
      var s := new ServletOutputStreamWrapper(b);
      stream := Some(s);
    }

    /**
     * getOutputStream(): refused once a writer was handed out; otherwise the stream, created
     * (with an empty buffer) on the first call and the same object afterwards.
     */
    method GetOutputStream() returns (res: Result<ServletOutputStreamWrapper, JavaException>)
      requires Valid()
      modifies this
      ensures Valid()
      ensures old(writer).Some? ==> res == Err(IllegalState(STREAM_TAKEN)) && stream == old(stream) && bo == old(bo)
      ensures old(writer).None? && old(stream).Some? ==> res == Ok(old(stream).value) && stream == old(stream) && bo == old(bo)
      ensures old(writer).None? && old(stream).None? ==>
        && res.Ok? && stream == Some(res.value) && fresh(res.value) && !res.value.closed
        && bo.Some? && fresh(bo.value) && DownstreamContent() == Some([])
      ensures writer == old(writer)
      ensures unchanged(this`downstreamContentType, this`downstreamContentLength, this`downstreamStatus)
    {
      if writer.Some? {
        return Err(IllegalState(STREAM_TAKEN));
      }
      if stream.None? {
        CreateOutputStream();
      }
      res := Ok(stream.value);
    }

    /**
     * getWriter(): the same writer again once one exists; refused when the stream was
     * handed out; otherwise a fresh buffer, stream and writer.
     */
    method GetWriter() returns (res: Result<BufferedWriter, JavaException>)
      requires Valid()
      modifies this
      ensures Valid()
      ensures old(writer).Some? ==> res == Ok(old(writer).value) && stream == old(stream) && bo == old(bo)
      ensures old(writer).None? && old(stream).Some? ==>
        res == Err(IllegalState(STREAM_TAKEN)) && stream == old(stream) && bo == old(bo) && writer.None?
      ensures old(writer).None? && old(stream).None? ==>
        && res.Ok? && writer == Some(res.value) && fresh(res.value) && res.value.pending == []
        && stream.Some? && fresh(stream.value) && res.value.out == stream.value && !stream.value.closed
        && bo.Some? && fresh(bo.value) && DownstreamContent() == Some([])
      ensures old(writer).Some? ==> writer == old(writer)
      ensures unchanged(this`downstreamContentType, this`downstreamContentLength, this`downstreamStatus)
    {
      if writer.Some? {
        return Ok(writer.value);
      }
      if stream.Some? {
        return Err(IllegalState(STREAM_TAKEN));
      }
      CreateOutputStream();
      var w := new BufferedWriter(stream.value);
      writer := Some(w);
      res := Ok(w);
    }

    /** flushBuffer(): flushes the stream; without one, a NullPointerException. */
    method FlushBuffer() returns (failure: Option<JavaException>)
      requires Valid()
      ensures stream.None? ==> failure == Some(NullPointer)
      ensures stream.Some? ==> (failure.Some? <==> stream.value.closed)
    {
      if stream.None? {
        return Some(NullPointer);
      }
      failure := stream.value.Flush();
    }

    /** setContentLength: only recorded, the wrapped response is not told. */
    method SetContentLength(length: int)
      modifies this
      ensures downstreamContentLength == length
      ensures unchanged(this`downstreamContentType, this`downstreamStatus, this`stream, this`writer, this`bo)
    {
      downstreamContentLength := length;
    }

    /** setContentType: only recorded, the wrapped response is not told. */
    method SetContentType(contentType: Option<string>)
      modifies this
      ensures downstreamContentType == contentType
      ensures unchanged(this`downstreamContentLength, this`downstreamStatus, this`stream, this`writer, this`bo)
    {
      downstreamContentType := contentType;
    }

    /** addHeader, or with `replace` setHeader: Content-Type and Content-Length are captured, others passed on. */
    method PutHeader(name: string, value: string, replace: bool) returns (failure: Option<JavaException>)
      modifies this, upstream
      ensures var c := Capture(name, value);
        && (c.CaptureType? ==>
              downstreamContentType == Some(value) && failure.None? && downstreamContentLength == old(downstreamContentLength))
        && (c.CaptureLength? && c.length.Some? ==>
              downstreamContentLength == c.length.value && failure.None? && downstreamContentType == old(downstreamContentType))
        && (c.CaptureLength? && c.length.None? ==>
              failure == Some(NumberFormat(value)) && unchanged(this`downstreamContentType, this`downstreamContentLength))
        && (c.PassOn? ==>
              failure.None? && unchanged(this`downstreamContentType, this`downstreamContentLength))
        && (c.PassOn? ==>
              upstream.actions == old(upstream.actions) + [if replace then SetHeader(name, value) else AddHeader(name, value)])
        && (!c.PassOn? ==> upstream.actions == old(upstream.actions))
      ensures unchanged(this`downstreamStatus, this`stream, this`writer, this`bo)
    {
      failure := None;
      var c := Capture(name, value);
      match c {
        case CaptureType(t) =>
          downstreamContentType := Some(t);
        case CaptureLength(n) =>
          if n.None? {
            return Some(NumberFormat(value));
          }
          downstreamContentLength := n.value;
        case PassOn =>
          upstream.Perform(if replace then SetHeader(name, value) else AddHeader(name, value));
      }
    }

    /** setStatus(sc): recorded and passed on to the wrapped response. */
    method SetStatus(sc: int)
      modifies this, upstream
      ensures downstreamStatus == sc
      ensures upstream.actions == old(upstream.actions) + [Servlet.SetStatus(sc)]
      ensures unchanged(this`downstreamContentType, this`downstreamContentLength, this`stream, this`writer, this`bo)
    {
      downstreamStatus := sc;
      upstream.Perform(Servlet.SetStatus(sc));
    }

    /** setStatus(sc, sm): recorded and passed on to the wrapped response. */
    method SetStatusMessage(sc: int, sm: string)
      modifies this, upstream
      ensures downstreamStatus == sc
      ensures upstream.actions == old(upstream.actions) + [Servlet.SetStatusMessage(sc, sm)]
      ensures unchanged(this`downstreamContentType, this`downstreamContentLength, this`stream, this`writer, this`bo)
    {
      downstreamStatus := sc;
      upstream.Perform(Servlet.SetStatusMessage(sc, sm));
    }
  }

  /**
   * A servlet that writes through the output stream leaves exactly its bytes as the
   * downstream content, and asking for a writer afterwards is refused.
   */
  method StreamThenWriter(upstream: HttpResponse, body: seq<Byte>)
    returns (r: ByteBufferedResponse, content: Option<seq<Byte>>, refused: Result<BufferedWriter, JavaException>)
    ensures content == Some(body)
    ensures refused == Err(IllegalState(STREAM_TAKEN))
  {
    r := new ByteBufferedResponse(upstream);
    var s := r.GetOutputStream();
    assert r.bo == Some(s.value.out) && !s.value.closed;
    var failure := s.value.Write(body);
    assert r.bo.value.buf == body;
    var again := r.GetOutputStream();
    assert again == s;
    content := r.DownstreamContent();
    refused := r.GetWriter();
  }

  /** What a servlet prints through the writer reaches the downstream content only when the writer is flushed. */
  method WriterThenFlush(upstream: HttpResponse, encoded: seq<Byte>)
    returns (r: ByteBufferedResponse, before: Option<seq<Byte>>, after: Option<seq<Byte>>)
    ensures before == Some([]) && after == Some(encoded)
  {
    r := new ByteBufferedResponse(upstream);
    var w := r.GetWriter();
    assert w.value.out.out == r.bo.value && !w.value.out.closed;
    w.value.Write(encoded);
    before := r.DownstreamContent();
    assert before == Some([]);
    w.value.Flush();
    assert r.bo.value.buf == encoded;
    after := r.DownstreamContent();
  }
}
