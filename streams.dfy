/** The byte streams of java.io as far as the handlers use them, and the
    8192-byte read/write copy loop (`copyStream` in the ChatGPT handlers,
    the inline spool loop in the Copilot handlers). */
module Streams {

  type byte = bv8

  /** Size of the copy buffer, `new byte[8192]`. */
  const BufferSize: nat := 8192

  /** Concatenation of the chunks written by successive `write` calls. */
  function Concat(chunks: seq<seq<byte>>): seq<byte>
  {
    if chunks == [] then [] else Concat(chunks[..|chunks| - 1]) + chunks[|chunks| - 1]
  }

  lemma {:induction false} ConcatAppend(chunks: seq<seq<byte>>, c: seq<byte>)
    ensures Concat(chunks + [c]) == Concat(chunks) + c
  {
    assert (chunks + [c])[..|chunks|] == chunks;
  }

  /** An InputStream over a fixed byte sequence, such as an S3 object's
      content. `read` hands out at most a buffer's worth; how many bytes it
      returns at a time is the stream's choice. */
  class ByteSource {
    const data: seq<byte>
    var pos: nat

    ghost predicate Valid()
      reads this
    {
      pos <= |data|
    }

    function Remaining(): seq<byte>
      reads this
      requires Valid()
    {
      data[pos..]
    }

    constructor (data: seq<byte>)
      ensures Valid() && this.data == data && pos == 0
    {
      this.data := data;
      pos := 0;
    }

    /** `int read(byte[] b)`: -1 at end of stream, otherwise some count
        between 1 and b.length, with those bytes stored at the front of b. */
    method Read(buf: array<byte>) returns (r: int)
      requires Valid() && buf.Length > 0
      modifies this, buf
      ensures Valid()
      ensures r == -1 <==> old(pos) == |data|
      ensures r == -1 ==> pos == old(pos)
      ensures r != -1 ==> 1 <= r <= buf.Length && pos == old(pos) + r
      ensures r != -1 ==> buf[..r] == data[old(pos)..pos]
    {
      if pos == |data| {
        r := -1;
      } else {
        var n: int :| 1 <= n <= buf.Length && n <= |data| - pos;
        forall i | 0 <= i < n {
          buf[i] := data[pos + i];
        }
        pos := pos + n;
        r := n;
      }
    }
  }

  /** An OutputStream that keeps everything written to it. */
  class ByteSink {
    var written: seq<byte>

    constructor ()
      ensures written == []
    {
      written := [];
    }

    /** `write(byte[] b, int off, int len)`. */
    method Write(buf: array<byte>, off: nat, len: nat)
      requires off + len <= buf.Length
      modifies this
      ensures written == old(written) + buf[off..off + len]
    {
      written := written + buf[off..off + len];
    }
  }

  /** `while ((r = in.read(buf)) != -1) out.write(buf, 0, r);` with an
      8192-byte buffer. The sink receives exactly the bytes the source had
      left, in order; `chunks` lists the individual writes. */
  method CopyStream(src: ByteSource, dst: ByteSink) returns (ghost chunks: seq<seq<byte>>)
    requires src.Valid()
    modifies src, dst
    ensures src.Valid() && src.pos == |src.data|
    ensures dst.written == old(dst.written) + old(src.Remaining())
    ensures Concat(chunks) == old(src.Remaining())
    ensures forall i :: 0 <= i < |chunks| ==> 1 <= |chunks[i]| <= BufferSize
  {
    var buf := new byte[BufferSize];
    ghost var start := src.pos;
    chunks := [];
    while true
      invariant src.Valid() && start <= src.pos
      invariant dst.written == old(dst.written) + src.data[start..src.pos]
      invariant Concat(chunks) == src.data[start..src.pos]
      invariant forall i :: 0 <= i < |chunks| ==> 1 <= |chunks[i]| <= BufferSize
      decreases |src.data| - src.pos
    {
      ghost var before := src.pos;
      var r := src.Read(buf);
      if r == -1 {
        break;
      }
      dst.Write(buf, 0, r);
      ConcatAppend(chunks, buf[..r]);
      chunks := chunks + [buf[..r]];
      assert src.data[start..src.pos] == src.data[start..before] + src.data[before..src.pos];
    }
  }
}
