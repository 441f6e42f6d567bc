/** The Go core's receiving end of the framed link: blocking reads of whole frames. */
module CoreReader {
  import opened Frames
  import opened FrameIo

  datatype GoRead = Got(frame: Message) | Ended(eof: bool)

  /** `io.ReadFull`: the runtime hides stalls and interruptions, so only bytes, the end and errors are visible. */
  method ReadFull(source: ByteSource, buffer: array<byte>) returns (ok: bool, n: nat, eof: bool)
    modifies source, buffer
    ensures n <= buffer.Length && (ok <==> n == buffer.Length)
    ensures ok ==> StreamOf(old(source.script)) == buffer[..] + StreamOf(source.script)
    ensures ok && buffer.Length > 0 ==> Weight(source.script) < Weight(old(source.script))
    ensures ok ==> Weight(source.script) <= Weight(old(source.script))
    ensures !ok ==> |StreamOf(old(source.script))| == n
    ensures !ok ==> (eof <==> StreamOf(old(source.script)) == [] && !Breaks(old(source.script)))
  {
    hide StreamOf, Weight, Breaks;
    ghost var start := source.script;
    n, eof := 0, false;
    assert StreamOf(start) == buffer[..0] + StreamOf(start);
    while n < buffer.Length
      invariant n <= buffer.Length
      invariant StreamOf(start) == buffer[..n] + StreamOf(source.script)
      invariant Weight(source.script) <= Weight(start)
      invariant n > 0 ==> Weight(source.script) < Weight(start)
      invariant n == 0 ==> Breaks(source.script) == Breaks(start)
      decreases Weight(source.script)
    {
      var read := source.Read(buffer, n);
      if read.Failed? || read == Count(0) {
        return false, n, n == 0 && read.Count?;
      } else if read.Count? {
        assert buffer[..n + read.n] == buffer[..n] + buffer[n..n + read.n];
        n := n + read.n;
      }
    }
    assert buffer[..n] == buffer[..];
    ok := true;
  }

  /** Reads one frame off the front of the stream, or ends where the stream has no complete, acceptable frame left. */
  method ReadFrame(source: ByteSource) returns (result: GoRead)
    modifies source
    ensures result.Got? ==>
              && Weight(source.script) < Weight(old(source.script))
              && StreamOf(old(source.script)) == Encode(result.frame) + StreamOf(source.script)
    ensures result.Ended? ==> !StartsWithFrame(StreamOf(old(source.script)))
    ensures result.Ended? ==> (result.eof <==> StreamOf(old(source.script)) == [] && !Breaks(old(source.script)))
  {
    hide StreamOf, Weight, Breaks, FromLittleEndian;
    ghost var start := source.script;
    var header := new byte[4](_ => 0);
    var ok, n, eof := ReadFull(source, header);
    if !ok {
      return Ended(eof);
    }
    var length := FromLittleEndian(header[..]);
    assert StreamOf(start)[..HEADER_SIZE] == header[..];
    if length > MAX_FRAME_SIZE {
      return Ended(false);
    }
    LittleEndianInverse(header[..]);
    var data := new byte[length](_ => 0);
    ok, n, eof := ReadFull(source, data);
    if !ok {
      return Ended(false);
    }
    result := Got(data[..]);
    assert StreamOf(start) == (header[..] + data[..]) + StreamOf(source.script);
  }

  /** The loop of `serve`: the calls it handles are the complete frames of the stream, however it is chunked. */
  method Serve(source: ByteSource) returns (frames: seq<Message>)
    modifies source
    ensures frames == Parse(StreamOf(old(source.script))).frames
  {
    hide StreamOf, Weight, Encode, Parse, StartsWithFrame;
    ghost var start := source.script;
    frames := [];
    assert frames + Parse(StreamOf(start)).frames == Parse(StreamOf(start)).frames;
    while true
      invariant Parse(StreamOf(start)).frames == frames + Parse(StreamOf(source.script)).frames
      decreases Weight(source.script)
    {
      ghost var before := source.script;
      var result := ReadFrame(source);
      if result.Ended? {
        ParseFront(StreamOf(before));
        return;
      }
      ghost var later := Parse(StreamOf(source.script)).frames;
      FrameAtFront(result.frame, StreamOf(source.script));
      assert frames + ([result.frame] + later) == frames + [result.frame] + later;
      frames := frames + [result.frame];
    }
  }
}
