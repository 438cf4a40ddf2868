/**
 * ServletOutputStreamWrapper: a ServletOutputStream over an in-memory byte buffer that
 * refuses every call once it has been closed. The buffer is the ByteArrayOutputStream
 * the buffered response allocates for it.
 */
module OutputStreams {
  import opened Wrappers

  const ALREADY_CLOSED: string := "output stream has already been closed"

  /** The byte `(byte) b` keeps of an int: its low eight bits, as an unsigned value. */
  function LowByte(b: int): (r: Byte)
    ensures 0 <= b < 256 ==> r as int == b
    ensures -256 <= b < 0 ==> r as int == b + 256
  {
    (b % 256) as Byte
  }

  /** java.io.ByteArrayOutputStream: a growing byte buffer; flush and close do nothing. */
  class ByteArrayOutputStream {
    var buf: seq<Byte>

    constructor ()
      ensures buf == []
    {
      buf := [];
    }

    /** write(int): appends the low byte. */
    method WriteByte(b: int)
      modifies this
      ensures buf == old(buf) + [LowByte(b)]
    {
      buf := buf + [LowByte(b)];
    }

    /** write(b, off, len): appends b[off..off+len], or IndexOutOfBoundsException. */
    method WriteRange(b: seq<Byte>, off: int, len: int) returns (failure: Option<JavaException>)
      modifies this
      ensures 0 <= off && 0 <= len && off + len <= |b| ==> failure.None? && buf == old(buf) + b[off..off + len]
      ensures !(0 <= off && 0 <= len && off + len <= |b|) ==> failure == Some(IndexOutOfBounds) && buf == old(buf)
    {
      if off < 0 || off > |b| || len < 0 || off + len > |b| {
        return Some(IndexOutOfBounds);
      }
      buf := buf + b[off..off + len];
      failure := None;
    }
  }

  /** The wrapper: the buffer it writes to and the `closed` flag. */
  class ServletOutputStreamWrapper {
    const out: ByteArrayOutputStream
    var closed: bool

    constructor (out: ByteArrayOutputStream)
      ensures this.out == out && !closed
    {
      this.out := out;
      closed := false;
    }

    /** The bytes the stream has delivered so far. */
    function Written(): seq<Byte>
      reads this, out
    {
      out.buf
    }

    /** close(): flushes, closes the buffer, and only then marks the stream closed; a second close throws. */
    method Close() returns (failure: Option<JavaException>)
      modifies this, out
      ensures old(closed) ==> failure == Some(IOFailure(ALREADY_CLOSED)) && closed
      ensures !old(closed) ==> failure.None? && closed
      ensures out.buf == old(out.buf)
    {
      if closed {
        return Some(IOFailure(ALREADY_CLOSED));
      }
      // out.flush() and out.close() leave a ByteArrayOutputStream as it is
      closed := true;
      failure := None;
    }

    /** flush(): nothing reaches the buffer; throws once closed. */
    method Flush() returns (failure: Option<JavaException>)
      ensures failure.Some? <==> closed
      ensures failure.Some? ==> failure.value == IOFailure(ALREADY_CLOSED)
    {
      if closed {
        return Some(IOFailure(ALREADY_CLOSED));
      }
      failure := None;
    }

    /** write(int): the low byte of `b`, unless closed. */
    method WriteByte(b: int) returns (failure: Option<JavaException>)
      modifies out
      ensures closed ==> failure == Some(IOFailure(ALREADY_CLOSED)) && out.buf == old(out.buf)
      ensures !closed ==> failure.None? && out.buf == old(out.buf) + [LowByte(b)]
    {
      if closed {
        return Some(IOFailure(ALREADY_CLOSED));
      }
      out.WriteByte(b);
      failure := None;
    }

    /** write(b): the same as write(b, 0, b.length). */
    method Write(b: seq<Byte>) returns (failure: Option<JavaException>)
      modifies out
      ensures closed ==> failure == Some(IOFailure(ALREADY_CLOSED)) && out.buf == old(out.buf)
      ensures !closed ==> failure.None? && out.buf == old(out.buf) + b
    {
      failure := WriteRange(b, 0, |b|);
      assert b[0..|b|] == b;
    }

    /** write(b, off, len): b[off..off+len] unless closed; the buffer checks the bounds. */
    method WriteRange(b: seq<Byte>, off: int, len: int) returns (failure: Option<JavaException>)
      modifies out
      ensures closed ==> failure == Some(IOFailure(ALREADY_CLOSED)) && out.buf == old(out.buf)
      ensures !closed && 0 <= off && 0 <= len && off + len <= |b| ==>
        failure.None? && out.buf == old(out.buf) + b[off..off + len]
      ensures !closed && !(0 <= off && 0 <= len && off + len <= |b|) ==>
        failure == Some(IndexOutOfBounds) && out.buf == old(out.buf)
    {
      if closed {
        return Some(IOFailure(ALREADY_CLOSED));
      }
      failure := out.WriteRange(b, off, len);
    }
  }

  /**
   * Whatever is written to a stream, byte by byte or in ranges, the buffer holds exactly
   * those bytes in order; once closed, further calls change nothing.
   */
  method WriteThenClose(b: seq<Byte>, x: int) returns (s: ServletOutputStreamWrapper)
    ensures fresh(s) && fresh(s.out) && s.closed
    ensures s.Written() == b + [LowByte(x)]
  {
    var bo := new ByteArrayOutputStream();
    s := new ServletOutputStreamWrapper(bo);
    var failure := s.Write(b);
    failure := s.WriteByte(x);
    failure := s.Close();
    failure := s.WriteByte(x);
    assert failure == Some(IOFailure(ALREADY_CLOSED));
    failure := s.Write(b);
    failure := s.Close();
    assert failure.Some?;
  }
}
