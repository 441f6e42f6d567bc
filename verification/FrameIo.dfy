/** The host's end of the framed link: an interruptible writer and a resumable reader over a non-blocking stream. */
module FrameIo {
  import opened Frames

  datatype Error = UnexpectedEof | InvalidData | WriteZero | ConnectionStopped | Broken(code: int)

  // ---- Reading

  /** What the stream does next: hand over some bytes, or refuse a read. */
  datatype ReadStep = Chunk(data: Bytes) | ReadWouldBlock | ReadInterrupted | ReadBroken(code: int)

  datatype ReadResult = Count(n: nat) | WouldBlock | Interrupted | Failed(error: Error)

  function Weight(script: seq<ReadStep>): nat {
    if script == [] then 0
    else (if script[0].Chunk? then 1 + |script[0].data| else 1) + Weight(script[1..])
  }

  /** The bytes the stream delivers until it ends: at its first empty read or error. */
  function StreamOf(script: seq<ReadStep>): Bytes {
    if script == [] then []
    else
      match script[0]
      case Chunk(data) => if data == [] then [] else data + StreamOf(script[1..])
      case ReadBroken(_) => []
      case _ => StreamOf(script[1..])
  }

  /** The stream ends with an error, not with an empty read. */
  predicate Breaks(script: seq<ReadStep>) {
    script != [] &&
    match script[0]
    case Chunk(data) => data != [] && Breaks(script[1..])
    case ReadBroken(_) => true
    case _ => Breaks(script[1..])
  }

  class ByteSource {
    var script: seq<ReadStep>
    ghost var consumed: Bytes

    constructor (script: seq<ReadStep>)
      ensures this.script == script && consumed == []
    {
      this.script := script;
      consumed := [];
    }

    /** Fills `buffer` from `from` on, as far as the next chunk goes. */
    method Read(buffer: array<byte>, from: nat) returns (result: ReadResult)
      requires from <= buffer.Length
      modifies this, buffer
      ensures buffer[..from] == old(buffer[..from])
      ensures result.Count? ==>
                && from + result.n <= buffer.Length
                && consumed == old(consumed) + buffer[from..from + result.n]
                && buffer[from + result.n..] == old(buffer[from + result.n..])
                && (result.n > 0 ==> Weight(script) < Weight(old(script)))
                && (result.n > 0 ==> StreamOf(old(script)) == buffer[from..from + result.n] + StreamOf(script))
                && (result.n == 0 && from < buffer.Length ==> StreamOf(old(script)) == [])
      ensures !result.Count? ==> consumed == old(consumed) && buffer[..] == old(buffer[..])
      ensures result.WouldBlock? || result.Interrupted? ==>
                Weight(script) < Weight(old(script)) && StreamOf(script) == StreamOf(old(script))
      ensures result.Failed? ==> StreamOf(old(script)) == [] && result.error.Broken? && Breaks(old(script))
      ensures result == Count(0) && from < buffer.Length ==> !Breaks(old(script))
      ensures result.WouldBlock? || result.Interrupted? ==> Breaks(script) == Breaks(old(script))
      ensures result.Count? || result.Failed? || old(script) != []
    {
      if script == [] {
        return Count(0);
      }
      match script[0]
      case Chunk(data) =>
        var n := if |data| <= buffer.Length - from then |data| else buffer.Length - from;
        forall k | 0 <= k < n {
          buffer[from + k] := data[k];
        }
        assert buffer[from..from + n] == data[..n];
        consumed := consumed + data[..n];
        script := if n == |data| then script[1..] else [Chunk(data[n..])] + script[1..];
        assert data == data[..n] + data[n..];
        assert old(script)[1..] == if n == |data| then script else script[1..];
        return Count(n);
      case ReadWouldBlock =>
        script := script[1..];
        return WouldBlock;
      case ReadInterrupted =>
        script := script[1..];
        return Interrupted;
      case ReadBroken(code) =>
        script := script[1..];
        return Failed(Broken(code));
    }
  }

  datatype Poll = Frame(data: Message) | Pending | PollFailed(error: Error)

  class FrameReader {
    var header: array<byte>
    var headerRead: nat
    var payload: array<byte>
    var payloadRead: nat
    ghost var taken: Bytes
    ghost var yielded: seq<Message>

    /** The reader holds the header of a frame that it had to refuse. */
    predicate Refused()
      reads this, header
    {
      headerRead == HEADER_SIZE == header.Length && Oversized(header[..])
    }

    ghost function Partial(): Bytes
      requires headerRead <= header.Length && payloadRead <= payload.Length
      reads this, header, payload
    {
      header[..headerRead] + payload[..payloadRead]
    }

    ghost predicate BuffersOk()
      reads this, header, payload
    {
      && header.Length == HEADER_SIZE && header != payload
      && headerRead <= HEADER_SIZE && payloadRead <= payload.Length
      && (headerRead < HEADER_SIZE || Refused() ==> payloadRead == payload.Length == 0)
      && (headerRead == HEADER_SIZE && !Refused() ==> payloadRead < payload.Length == FromLittleEndian(header[..]))
    }

    /** All bytes taken so far are accounted for: as yielded frames, or as the partial frame in the buffers. */
    ghost predicate Valid()
      reads this, header, payload
    {
      BuffersOk() && Parse(taken) == Parsed(yielded, Partial())
    }

    constructor ()
      ensures Valid() && taken == [] && yielded == [] && !Refused()
      ensures fresh(header) && fresh(payload)
    {
      header := new byte[4](_ => 0);
      payload := new byte[0];
      headerRead, payloadRead, taken, yielded := 0, 0, [], [];
    }

    /** Forgets the frame that has just been completed. */
    method Reset()
      requires header.Length == HEADER_SIZE
      modifies this`headerRead, this`payload, this`payloadRead, header
      ensures headerRead == payloadRead == payload.Length == 0 && fresh(payload)
    {
      for i := 0 to HEADER_SIZE {
        header[i] := 0;
      }
      payload := new byte[0];
      headerRead, payloadRead := 0, 0;
    }

    /** What one turn of the poll loop may do to the stream: `more` is what it took off. */
    static ghost predicate Took(before: seq<ReadStep>, after: seq<ReadStep>, more: Bytes) {
      StreamOf(before) == more + StreamOf(after) && Weight(after) <= Weight(before)
    }

    /** Reads once into the header and, when that completes it, judges it. */
    method PollHeader(source: ByteSource) returns (turn: Turn)
      requires Valid() && headerRead < HEADER_SIZE
      modifies this, header, source
      ensures Valid() && header == old(header) && (payload == old(payload) || fresh(payload))
      ensures old(taken) <= taken && source.consumed == old(source.consumed) + taken[|old(taken)|..]
      ensures turn.Return? && turn.result.Frame? ==> yielded == old(yielded) + [turn.result.data]
      ensures !(turn.Return? && turn.result.Frame?) ==> yielded == old(yielded)
      ensures turn == Return(PollFailed(InvalidData)) <==> Refused()
      ensures turn.Return? && turn.result.PollFailed? && !Refused() ==>
                taken == old(taken) && StreamOf(old(source.script)) == []
      ensures turn.Again? || !turn.result.PollFailed? || Refused() ==>
                && Took(old(source.script), source.script, taken[|old(taken)|..])
                && Weight(source.script) < Weight(old(source.script))
    {
      hide Parse, StreamOf, Weight, FromLittleEndian, Encode;
      var before := headerRead;
      ghost var was, partial := taken, Partial();
      assert was[|was|..] == [];
      var read := source.Read(header, headerRead);
      if read.Failed? {
        return Return(PollFailed(read.error));
      } else if read.WouldBlock? {
        return Return(Pending);
      } else if read.Interrupted? {
        return Again;
      } else if read.n == 0 {
        return Return(PollFailed(UnexpectedEof));
      }
      headerRead := headerRead + read.n;
      ghost var more := header[before..headerRead];
      taken := taken + more;
      assert taken[|was|..] == more;
      assert partial + more == header[..headerRead] == Partial();
      if headerRead < HEADER_SIZE {
        ParseExtend(was, more);
        return Again;
      }
      assert header[..] == header[..HEADER_SIZE] == Partial()[..HEADER_SIZE];
      var len := FromLittleEndian(header[..]);
      if len > MAX_FRAME_SIZE {
        ParseExtend(was, more);
        return Return(PollFailed(InvalidData));
      }
      if len == 0 {
        EncodeFrom(header[..], []);
        ParseComplete(was, more, []);
        yielded := yielded + [[]];
        Reset();
        return Return(Frame([]));
      }
      ParseExtend(was, more);
      payload := new byte[len](_ => 0);
      return Again;
    }

    /** The next `n` bytes of the payload have arrived: they are accounted for, and may complete the frame. */
    method AcceptPayload(n: nat) returns (turn: Turn)
      requires BuffersOk() && headerRead == HEADER_SIZE && !Refused() && n > 0 && payloadRead + n <= payload.Length
      requires Parse(taken) == Parsed(yielded, header[..] + payload[..payloadRead])
      modifies this, header
      ensures Valid() && !Refused() && header == old(header) && (payload == old(payload) || fresh(payload))
      ensures taken == old(taken) + old(payload[payloadRead..payloadRead + n])
      ensures turn.Return? ==> turn.result.Frame? && yielded == old(yielded) + [turn.result.data]
      ensures turn.Again? ==> yielded == old(yielded)
    {
      assert header[..][..HEADER_SIZE] == header[..];
      hide Parse, FromLittleEndian, StartsWithFrame;
      assert payload.Length == FromLittleEndian(header[..]) <= MAX_FRAME_SIZE;
      hide Oversized;
      ghost var part, more := payload[..payloadRead], payload[payloadRead..payloadRead + n];
      PayloadGrows(taken, header[..], part, more);
      assert part + more == payload[..payloadRead + n];
      payloadRead, taken := payloadRead + n, taken + more;
      if payloadRead == payload.Length {
        var data := payload[..];
        assert payload[..payloadRead] == data;
        yielded := yielded + [data];
        Reset();
        assert Partial() == [];
        return Return(Frame(data));
      }
      assert header[..headerRead] == header[..];
      return Again;
    }

    /** Reads once into the payload and returns the frame when that completes it; a refused header leaves no room. */
    method PollPayload(source: ByteSource) returns (turn: Turn)
      requires Valid() && headerRead == HEADER_SIZE
      modifies this, header, payload, source
      ensures Valid() && header == old(header) && (payload == old(payload) || fresh(payload))
      ensures old(taken) <= taken && source.consumed == old(source.consumed) + taken[|old(taken)|..]
      ensures turn.Return? && turn.result.Frame? ==> yielded == old(yielded) + [turn.result.data]
      ensures !(turn.Return? && turn.result.Frame?) ==> yielded == old(yielded)
      ensures Refused() <==> old(Refused())
      ensures Refused() ==> !(turn.Return? && turn.result.Frame?)
      ensures turn != Return(PollFailed(InvalidData))
      ensures turn.Return? && turn.result.PollFailed? && !Refused() ==>
                taken == old(taken) && StreamOf(old(source.script)) == []
      ensures turn.Again? || (!turn.result.PollFailed? && !Refused()) ==>
                && Took(old(source.script), source.script, taken[|old(taken)|..])
                && Weight(source.script) < Weight(old(source.script))
    {
      hide Parse, StreamOf, Weight, FromLittleEndian, Oversized, StartsWithFrame;
      ghost var was := taken;
      assert was[|was|..] == [];
      assert header[..headerRead] == header[..];
      var read := source.Read(payload, payloadRead);
      if read.Failed? {
        return Return(PollFailed(read.error));
      } else if read.WouldBlock? {
        return Return(Pending);
      } else if read.Interrupted? {
        return Again;
      } else if read.n == 0 {
        return Return(PollFailed(UnexpectedEof));
      }
      ghost var more := payload[payloadRead..payloadRead + read.n];
      turn := AcceptPayload(read.n);
      assert taken[|was|..] == more;
    }

    /**
     Reads until a frame is complete, the stream has nothing to offer, or it fails. Whatever the chunks, the frames
     yielded so far are the complete frames of the bytes taken so far, and a refused header is never read past.
     */
    method Poll(source: ByteSource) returns (result: Poll)
      requires Valid()
      modifies this, header, payload, source
      ensures Valid() && header == old(header) && (payload == old(payload) || fresh(payload))
      ensures old(taken) <= taken && source.consumed == old(source.consumed) + taken[|old(taken)|..]
      ensures yielded == if result.Frame? then old(yielded) + [result.data] else old(yielded)
      ensures Refused() ==> !result.Frame?
      ensures result == PollFailed(InvalidData) ==> Refused()
      ensures Refused() && !old(Refused()) ==> result == PollFailed(InvalidData)
      ensures result.PollFailed? && !Refused() ==> StreamOf(old(source.script)) == taken[|old(taken)|..]
      ensures !old(Refused()) && (!result.PollFailed? || (Refused() && result == PollFailed(InvalidData))) ==>
                && Took(old(source.script), source.script, taken[|old(taken)|..])
                && Weight(source.script) < Weight(old(source.script))
    {
      hide Parse, StreamOf, Weight, FromLittleEndian;
      ghost var start, bytes := source.script, taken;
      while true
        invariant Valid() && header == old(header) && (payload == old(payload) || fresh(payload))
        invariant bytes <= taken && source.consumed == old(source.consumed) + taken[|bytes|..]
        invariant yielded == old(yielded)
        invariant Refused() <==> old(Refused())
        invariant Took(start, source.script, taken[|bytes|..])
        decreases Weight(source.script)
      {
        ghost var here := taken;
        if headerRead < HEADER_SIZE {
          var turn := PollHeader(source);
          assert taken[|bytes|..] == here[|bytes|..] + taken[|here|..];
          if turn.Return? {
            return turn.result;
          }
        } else {
          var turn := PollPayload(source);
          assert taken[|bytes|..] == here[|bytes|..] + taken[|here|..];
          if turn.Return? {
            return turn.result;
          }
        }
      }
    }
  }

  /** One turn of the loop in `poll`: go round again, or return. */
  datatype Turn = Again | Return(result: Poll)

  /** Frames read off a cut of a stream are the first frames of the whole stream. */
  lemma ParseMonotone(bytes: Bytes, more: Bytes)
    ensures Parse(bytes).frames <= Parse(bytes + more).frames
  {
    hide Parse, EncodeAll;
    var parsed := Parse(bytes);
    ParseSound(bytes);
    ParseEncodeAll(parsed.frames, parsed.rest + more);
    assert bytes + more == EncodeAll(parsed.frames) + (parsed.rest + more);
  }

  /** The reader is reading `stream`: it has taken its beginning, and the source still holds the rest. */
  ghost predicate Attached(reader: FrameReader, source: ByteSource, stream: Bytes)
    reads reader, reader.header, reader.payload, source
  {
    reader.Valid() && !reader.Refused() && stream == reader.taken + StreamOf(source.script)
  }

  lemma AttachedYields(reader: FrameReader, source: ByteSource, stream: Bytes)
    requires Attached(reader, source, stream)
    ensures reader.yielded <= Parse(stream).frames
  {
    ParseMonotone(reader.taken, StreamOf(source.script));
  }

  /** One poll of an attached reader: the next frame, nothing yet, or the end, at which no frame is left. */
  method PollAttached(reader: FrameReader, source: ByteSource, ghost stream: Bytes) returns (result: Poll)
    requires Attached(reader, source, stream)
    modifies reader, reader.header, reader.payload, source
    ensures reader.header == old(reader.header) && (reader.payload == old(reader.payload) || fresh(reader.payload))
    ensures reader.yielded == if result.Frame? then old(reader.yielded) + [result.data] else old(reader.yielded)
    ensures !result.PollFailed? ==> Attached(reader, source, stream)
    ensures result.PollFailed? ==> reader.yielded == Parse(stream).frames
  {
    hide Parse, StreamOf, Weight;
    ghost var bytes := reader.taken;
    result := reader.Poll(source);
    assert reader.taken == bytes + reader.taken[|bytes|..];
    if result.PollFailed? && reader.Refused() {
      assert reader.Partial() == reader.header[..];
      OversizedForGood(reader.taken, StreamOf(source.script));
      assert stream == reader.taken + StreamOf(source.script);
    } else if result.PollFailed? {
      assert stream == reader.taken;
    }
  }

  /**
   The read loop of a connection: polls until the stream fails, or until the connection is stopped after `polls` turns.
   However the stream is cut into chunks, and wherever it blocks or is interrupted, the frames delivered depend on
   its bytes alone; a stop only cuts their sequence short.
   */
  method ReadLoop(source: ByteSource, polls: nat) returns (frames: seq<Message>, stopped: bool)
    modifies source
    ensures frames <= Parse(StreamOf(old(source.script))).frames
    ensures !stopped ==> frames == Parse(StreamOf(old(source.script))).frames
    ensures Weight(old(source.script)) < polls ==> !stopped
  {
    hide Parse, StreamOf, Weight;
    var reader := new FrameReader();
    ghost var script, from := source.script, source.consumed;
    frames, stopped := [], true;
    var left := polls;
    while left > 0
      invariant reader.Valid() && !reader.Refused() && frames == reader.yielded
      invariant fresh(reader) && fresh(reader.header) && fresh(reader.payload)
      invariant FrameReader.Took(script, source.script, reader.taken)
      invariant Weight(source.script) + polls <= Weight(script) + left
      invariant stopped
    {
      ghost var here := reader.taken;
      var result := reader.Poll(source);
      assert reader.taken == here + reader.taken[|here|..];
      if result.Frame? {
        frames := frames + [result.data];
      } else if result.PollFailed? {
        stopped := false;
        if reader.Refused() {
          assert reader.Partial() == reader.header[..];
          OversizedForGood(reader.taken, StreamOf(source.script));
          assert StreamOf(script) == reader.taken + StreamOf(source.script);
        } else {
          assert StreamOf(script) == reader.taken;
        }
        assert frames == Parse(StreamOf(script)).frames;
        return;
      }
      left := left - 1;
    }
    ParseMonotone(reader.taken, StreamOf(source.script));
  }

  lemma {:induction false} StreamOfContext(before: seq<ReadStep>, one: seq<ReadStep>, other: seq<ReadStep>)
    requires StreamOf(one) == StreamOf(other)
    ensures StreamOf(before + one) == StreamOf(before + other)
  {
    if before == [] {
      assert before + one == one && before + other == other;
    } else {
      StreamOfContext(before[1..], one, other);
      assert (before + one)[1..] == before[1..] + one && (before + other)[1..] == before[1..] + other;
    }
  }

  /** Cutting a chunk in two, or refusing a read anywhere, does not change the stream. */
  lemma ChunkingIsIrrelevant(before: seq<ReadStep>, x: Bytes, y: Bytes, after: seq<ReadStep>)
    requires x != [] && y != []
    ensures StreamOf(before + ([Chunk(x), Chunk(y)] + after)) == StreamOf(before + ([Chunk(x + y)] + after))
    ensures StreamOf(before + ([ReadWouldBlock] + after)) == StreamOf(before + after)
    ensures StreamOf(before + ([ReadInterrupted] + after)) == StreamOf(before + after)
  {
    var cut, whole := [Chunk(x), Chunk(y)] + after, [Chunk(x + y)] + after;
    assert StreamOf(cut) == StreamOf(whole) by {
      assert cut[1..] == [Chunk(y)] + after && cut[1..][1..] == after && whole[1..] == after;
      assert (x + y) + StreamOf(after) == x + (y + StreamOf(after));
    }
    assert ([ReadWouldBlock] + after)[1..] == after && ([ReadInterrupted] + after)[1..] == after;
    StreamOfContext(before, cut, whole);
    StreamOfContext(before, [ReadWouldBlock] + after, after);
    StreamOfContext(before, [ReadInterrupted] + after, after);
  }

  // ---- Writing

  /** What becomes of the next write, or the end of the connection's running. */
  datatype WriteStep = Accept(n: nat) | WriteWouldBlock | WriteInterrupted | WriteBroken(code: int) | Stop

  /** The step ends whatever write it meets; would-blocks, interrupts and full pipes do not. */
  predicate EndsWrite(step: WriteStep, zeroMeansFull: bool) {
    step.Stop? || step.WriteBroken? || (step == Accept(0) && !zeroMeansFull)
  }

  /** How many bytes the sink takes before a step ends the write. */
  function Flow(script: seq<WriteStep>, zeroMeansFull: bool): nat {
    if script == [] || EndsWrite(script[0], zeroMeansFull) then 0
    else (if script[0].Accept? then script[0].n else 0) + Flow(script[1..], zeroMeansFull)
  }

  /** What a write reports that meets this step. */
  function EndReport(step: WriteStep): Error {
    match step
    case WriteBroken(code) => Broken(code)
    case Accept(_) => WriteZero
    case _ => ConnectionStopped
  }

  /** What a write reports that the sink does not take: the first step that ends it, or that nothing follows. */
  function EndOf(script: seq<WriteStep>, zeroMeansFull: bool): Error {
    if script == [] then ConnectionStopped
    else if EndsWrite(script[0], zeroMeansFull) then EndReport(script[0])
    else EndOf(script[1..], zeroMeansFull)
  }

  /** What is left of the script once it has taken `n` bytes. */
  function After(script: seq<WriteStep>, n: nat, zeroMeansFull: bool): seq<WriteStep>
    requires n <= Flow(script, zeroMeansFull)
  {
    if n == 0 then script
    else if script[0].Accept? && script[0].n >= n then script[1..]
    else After(script[1..], if script[0].Accept? then n - script[0].n else n, zeroMeansFull)
  }

  /** The steps that a write of `n` bytes uses up are the fewest that take as many, and they do not end it. */
  lemma {:induction false} AfterIsFewest(script: seq<WriteStep>, n: nat, zeroMeansFull: bool)
    requires n <= Flow(script, zeroMeansFull)
    ensures var left := After(script, n, zeroMeansFull);
            var used := |script| - |left|;
            && 0 <= used && left == script[used..] && n <= Flow(script[..used], zeroMeansFull)
            && (n > 0 ==> used > 0 && Flow(script[..used - 1], zeroMeansFull) < n)
            && (forall k | 0 <= k < used :: !EndsWrite(script[k], zeroMeansFull))
            && EndOf(left, zeroMeansFull) == EndOf(script, zeroMeansFull)
    decreases |script|
  {
    if n > 0 {
      assert script != [] && !EndsWrite(script[0], zeroMeansFull);
      var taken := if script[0].Accept? then script[0].n else 0;
      if script[0].Accept? && script[0].n >= n {
        assert script[..1][1..] == [] && script[..0] == [];
      } else {
        AfterIsFewest(script[1..], n - taken, zeroMeansFull);
        var used := |script| - |After(script, n, zeroMeansFull)|;
        assert script[..used][1..] == script[1..][..used - 1];
        if used > 1 {
          assert script[..used - 1][1..] == script[1..][..used - 2];
        }
      }
    }
  }

  /** Wherever the sink blocks or is interrupted, a write is neither cut short nor reported differently for it. */
  lemma {:induction false} RetriesAreIrrelevant(before: seq<WriteStep>, step: WriteStep, after: seq<WriteStep>,
                                                zeroMeansFull: bool)
    requires step.WriteWouldBlock? || step.WriteInterrupted? || (step == Accept(0) && zeroMeansFull)
    ensures Flow(before + ([step] + after), zeroMeansFull) == Flow(before + after, zeroMeansFull)
    ensures EndOf(before + ([step] + after), zeroMeansFull) == EndOf(before + after, zeroMeansFull)
  {
    var with, without := before + ([step] + after), before + after;
    if before == [] {
      assert with == [step] + after && with[1..] == after && without == after;
    } else {
      RetriesAreIrrelevant(before[1..], step, after, zeroMeansFull);
      assert with[1..] == before[1..] + ([step] + after) && without[1..] == before[1..] + after;
    }
  }

  class ByteSink {
    var script: seq<WriteStep>
    var wire: Bytes
    /** A Windows pipe reports a full buffer through a write of zero bytes. */
    const zeroMeansFull: bool

    constructor (script: seq<WriteStep>, zeroMeansFull: bool)
      ensures this.script == script && wire == [] && this.zeroMeansFull == zeroMeansFull
    {
      this.script := script;
      this.zeroMeansFull := zeroMeansFull;
      wire := [];
    }

    /** A connection that has stopped does not run again. */
    predicate IsRunning()
      reads this
    {
      script != [] && !script[0].Stop?
    }

    method Write(data: Bytes) returns (result: ReadResult)
      requires IsRunning()
      modifies this
      ensures script == old(script)[1..]
      ensures result.Count? ==> result.n <= |data| && wire == old(wire) + data[..result.n]
      ensures !result.Count? ==> wire == old(wire)
      ensures match old(script)[0]
              case Accept(n) =>
                var k := if n <= |data| then n else |data|;
                result == if k == 0 && zeroMeansFull then WouldBlock else Count(k)
              case WriteWouldBlock => result == WouldBlock
              case WriteInterrupted => result == Interrupted
              case WriteBroken(code) => result == Failed(Broken(code))
              case Stop => false
    {
      var step := script[0];
      script := script[1..];
      match step
      case Accept(n) =>
        var k := if n <= |data| then n else |data|;
        wire := wire + data[..k];
        return if k == 0 && zeroMeansFull then WouldBlock else Count(k);
      case WriteWouldBlock => return WouldBlock;
      case WriteInterrupted => return Interrupted;
      case WriteBroken(code) => return Failed(Broken(code));
      case Stop =>
        assert false;
    }
  }

  datatype WriteResult = Written | NotWritten(error: Error)

  const MIN_BACKOFF: nat := 1
  const MAX_BACKOFF: nat := 20

  /** The part of a step that a write of `left` more bytes takes. */
  function TakenOf(step: WriteStep, left: nat): nat {
    if !step.Accept? then 0 else if step.n <= left then step.n else left
  }

  /** A write of `n` bytes that has come to `now` has as much to expect of it as it had of `script` at first. */
  predicate Outlook(script: seq<WriteStep>, n: nat, now: seq<WriteStep>, left: nat, zeroMeansFull: bool) {
    && EndOf(script, zeroMeansFull) == EndOf(now, zeroMeansFull)
    && (n <= Flow(script, zeroMeansFull) <==> left <= Flow(now, zeroMeansFull))
    && (n <= Flow(script, zeroMeansFull) ==> After(script, n, zeroMeansFull) == After(now, left, zeroMeansFull))
    && (n > Flow(script, zeroMeansFull) ==> Flow(script, zeroMeansFull) + left == Flow(now, zeroMeansFull) + n)
  }

  lemma OutlookFirst(script: seq<WriteStep>, n: nat, zeroMeansFull: bool)
    ensures Outlook(script, n, script, n, zeroMeansFull)
  {
  }

  lemma OutlookStep(script: seq<WriteStep>, n: nat, now: seq<WriteStep>, left: nat, zeroMeansFull: bool)
    requires Outlook(script, n, now, left, zeroMeansFull) && left > 0
    requires now != [] && !EndsWrite(now[0], zeroMeansFull)
    ensures Outlook(script, n, now[1..], left - TakenOf(now[0], left), zeroMeansFull)
  {
  }

  lemma OutlookEnds(script: seq<WriteStep>, n: nat, now: seq<WriteStep>, left: nat, zeroMeansFull: bool)
    requires Outlook(script, n, now, left, zeroMeansFull) && left > 0
    requires now == [] || EndsWrite(now[0], zeroMeansFull)
    ensures n > Flow(script, zeroMeansFull) == n - left
    ensures EndOf(script, zeroMeansFull) == if now == [] then ConnectionStopped else EndReport(now[0])
  {
  }

  lemma OutlookDone(script: seq<WriteStep>, n: nat, now: seq<WriteStep>, zeroMeansFull: bool)
    requires Outlook(script, n, now, 0, zeroMeansFull)
    ensures n <= Flow(script, zeroMeansFull) && After(script, n, zeroMeansFull) == now
  {
  }

  /**
   Writes `data` through any number of partial writes, retries and stalls. What reaches the wire is a prefix of `data`,
   and it is the whole of it exactly if the sink takes that much before a step ends the write; that step is reported.
   */
  method WriteAllInterruptible(sink: ByteSink, data: Bytes) returns (result: WriteResult, ghost sent: nat)
    modifies sink
    ensures sent <= |data| && sink.wire == old(sink.wire) + data[..sent]
    ensures result.Written? <==> sent == |data|
    ensures result.Written? <==> |data| <= Flow(old(sink.script), sink.zeroMeansFull)
    ensures result.Written? ==> sink.script == After(old(sink.script), |data|, sink.zeroMeansFull)
    ensures result.NotWritten? ==> result.error == EndOf(old(sink.script), sink.zeroMeansFull)
    ensures result.NotWritten? ==> sent == Flow(old(sink.script), sink.zeroMeansFull)
    ensures |sink.script| <= |old(sink.script)|
    ensures result == NotWritten(ConnectionStopped) ==> !sink.IsRunning()
  {
    hide Flow, EndOf, After, Outlook;
    var rest := data;
    var backoff := MIN_BACKOFF;
    ghost var script, z := sink.script, sink.zeroMeansFull;
    OutlookFirst(script, |data|, z);
    sent := 0;
    while rest != []
      invariant sent <= |data| && rest == data[sent..]
      invariant sink.wire == old(sink.wire) + data[..sent]
      invariant |sink.script| <= |old(sink.script)|
      invariant MIN_BACKOFF <= backoff <= MAX_BACKOFF
      invariant Outlook(script, |data|, sink.script, |rest|, z)
      decreases |sink.script|
    {
      ghost var here := sink.script;
      if !sink.IsRunning() {
        OutlookEnds(script, |data|, here, |rest|, z);
        return NotWritten(ConnectionStopped), sent;
      }
      if EndsWrite(here[0], z) {
        OutlookEnds(script, |data|, here, |rest|, z);
      } else {
        OutlookStep(script, |data|, here, |rest|, z);
      }
      var written := sink.Write(rest);
      if written == Count(0) {
        return NotWritten(WriteZero), sent;
      } else if written.Count? {
        rest := rest[written.n..];
        assert data[..sent] + data[sent..][..written.n] == data[..sent + written.n];
        sent := sent + written.n;
        backoff := MIN_BACKOFF;
      } else if written.WouldBlock? {
        backoff := if backoff * 2 < MAX_BACKOFF then backoff * 2 else MAX_BACKOFF;
      } else if written.Failed? {
        return NotWritten(written.error), sent;
      }
    }
    OutlookDone(script, |data|, sink.script, z);
    return Written, sent;
  }

  /** The sink takes the header and then the payload of a frame; what one call of its write offers never spans both. */
  predicate FrameFits(script: seq<WriteStep>, data: Message, zeroMeansFull: bool) {
    && HEADER_SIZE <= Flow(script, zeroMeansFull)
    && |data| <= Flow(After(script, HEADER_SIZE, zeroMeansFull), zeroMeansFull)
  }

  function AfterFrame(script: seq<WriteStep>, data: Message, zeroMeansFull: bool): seq<WriteStep>
    requires FrameFits(script, data, zeroMeansFull)
  {
    After(After(script, HEADER_SIZE, zeroMeansFull), |data|, zeroMeansFull)
  }

  lemma AfterFrameEnds(script: seq<WriteStep>, data: Message, zeroMeansFull: bool)
    requires FrameFits(script, data, zeroMeansFull)
    ensures EndOf(AfterFrame(script, data, zeroMeansFull), zeroMeansFull) == EndOf(script, zeroMeansFull)
  {
    hide EndOf, Flow, After;
    AfterIsFewest(script, HEADER_SIZE, zeroMeansFull);
    AfterIsFewest(After(script, HEADER_SIZE, zeroMeansFull), |data|, zeroMeansFull);
  }

  /** Writes one frame: all of its encoding exactly if it fits, or a proper prefix of it and the report of why. */
  method WriteFrame(sink: ByteSink, data: Bytes) returns (result: WriteResult, ghost sent: nat)
    modifies sink
    ensures |data| > MAX_FRAME_SIZE ==>
              && result == NotWritten(InvalidData) && sent == 0
              && sink.wire == old(sink.wire) && sink.script == old(sink.script)
    ensures |data| <= MAX_FRAME_SIZE ==>
              && sent <= |Encode(data)| && sink.wire == old(sink.wire) + Encode(data)[..sent]
              && (result.Written? <==> sent == |Encode(data)|)
              && (result.Written? <==> FrameFits(old(sink.script), data, sink.zeroMeansFull))
              && (result.Written? ==> sink.script == AfterFrame(old(sink.script), data, sink.zeroMeansFull))
              && (result.NotWritten? ==> result.error == EndOf(old(sink.script), sink.zeroMeansFull))
    ensures |sink.script| <= |old(sink.script)|
    ensures result == NotWritten(ConnectionStopped) ==> !sink.IsRunning()
  {
    if |data| > MAX_FRAME_SIZE {
      return NotWritten(InvalidData), 0;
    }
    var header := LittleEndian(|data|);
    result, sent := WriteAllInterruptible(sink, header);
    assert header[..sent] == Encode(data)[..sent];
    if result.NotWritten? {
      return;
    }
    AfterIsFewest(old(sink.script), HEADER_SIZE, sink.zeroMeansFull);
    hide Flow, EndOf, After;
    ghost var more;
    result, more := WriteAllInterruptible(sink, data);
    sent := sent + more;
    assert header + data[..more] == Encode(data)[..sent];
  }
}
