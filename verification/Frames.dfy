/** The frame format shared by the Rust host and the Go core: a little-endian 32-bit length, then the payload. */
module Frames {
  import Sequences

  type byte = x: int | 0 <= x < 256

  type Bytes = seq<byte>

  const MAX_FRAME_SIZE: nat := 64 * 1024 * 1024
  const HEADER_SIZE: nat := 4

  type Message = m: Bytes | |m| <= MAX_FRAME_SIZE witness []

  function LittleEndian(n: nat): (r: Bytes)
    requires n < 0x1_0000_0000
    ensures |r| == HEADER_SIZE
  {
    [n % 256, n / 256 % 256, n / 65536 % 256, n / 16777216]
  }

  function FromLittleEndian(b: Bytes): nat
    requires |b| == HEADER_SIZE
  {
    b[0] as int + 256 * (b[1] as int) + 65536 * (b[2] as int) + 16777216 * (b[3] as int)
  }

  lemma LittleEndianRoundTrip(n: nat)
    requires n < 0x1_0000_0000
    ensures FromLittleEndian(LittleEndian(n)) == n
  {
    var q := n / 256;
    assert n == 256 * q + n % 256;
    var r := q / 256;
    assert q == 256 * r + q % 256 && n / 65536 == r;
    assert r == 256 * (r / 256) + r % 256 && n / 16777216 == r / 256;
  }

  lemma LittleEndianInverse(b: Bytes)
    requires |b| == HEADER_SIZE
    ensures FromLittleEndian(b) < 0x1_0000_0000 && LittleEndian(FromLittleEndian(b)) == b
  {
    var n, high, top: int := FromLittleEndian(b), 0, b[3];
    high := b[2] as int + 256 * top;
    var middle := b[1] as int + 256 * high;
    assert n == 256 * middle + b[0] as int;
    assert n / 256 == middle && n / 65536 == middle / 256 == high && n / 16777216 == high / 256 == top;
    assert b == [b[0], b[1], b[2], b[3]];
  }

  function Encode(m: Message): Bytes {
    LittleEndian(|m|) + m
  }

  function EncodeAll(ms: seq<Message>): Bytes {
    if ms == [] then [] else Encode(ms[0]) + EncodeAll(ms[1..])
  }

  lemma {:induction false} EncodeAllAppend(ms: seq<Message>, m: Message)
    ensures EncodeAll(ms + [m]) == EncodeAll(ms) + Encode(m)
  {
    if ms == [] {
      assert [m][1..] == [];
    } else {
      EncodeAllAppend(ms[1..], m);
      assert (ms + [m])[1..] == ms[1..] + [m];
    }
  }

  lemma EncodeAllOne(m: Message)
    ensures EncodeAll([m]) == Encode(m) && EncodeAll([]) == []
  {
    assert [m][1..] == [];
  }

  lemma {:induction false} EncodeAllConcat(ms: seq<Message>, ns: seq<Message>)
    ensures EncodeAll(ms + ns) == EncodeAll(ms) + EncodeAll(ns)
  {
    if ms == [] {
      EncodeAllOne([]);
      hide *;
      Sequences.NoneLeft(ns);
      Sequences.NoneLeft(EncodeAll(ns));
    } else {
      hide *;
      EncodeAllConcat(ms[1..], ns);
      EncodeAllCons(ms[0], ms[1..]);
      EncodeAllCons(ms[0], ms[1..] + ns);
      Sequences.Uncons(ms);
      Sequences.Assoc([ms[0]], ms[1..], ns);
      Sequences.Assoc(Encode(ms[0]), EncodeAll(ms[1..]), EncodeAll(ns));
    }
  }

  lemma EncodeAllCons(m: Message, ms: seq<Message>)
    ensures EncodeAll([m] + ms) == Encode(m) + EncodeAll(ms)
  {
    hide Encode;
    assert ([m] + ms)[1..] == ms;
  }

  /** The complete frames at the front of a byte stream, and what is left behind the last of them. */
  datatype Parsed = Parsed(frames: seq<Message>, rest: Bytes)

  /** The stream cannot be read on: its next header announces more than a frame may hold. */
  predicate Oversized(rest: Bytes) {
    |rest| >= HEADER_SIZE && FromLittleEndian(rest[..HEADER_SIZE]) > MAX_FRAME_SIZE
  }

  predicate StartsWithFrame(bytes: Bytes) {
    && |bytes| >= HEADER_SIZE && !Oversized(bytes)
    && |bytes| >= HEADER_SIZE + FromLittleEndian(bytes[..HEADER_SIZE])
  }

  function Parse(bytes: Bytes): Parsed {
    if !StartsWithFrame(bytes) then Parsed([], bytes)
    else
      var end := HEADER_SIZE + FromLittleEndian(bytes[..HEADER_SIZE]);
      var tail := Parse(bytes[end..]);
      Parsed([bytes[HEADER_SIZE..end]] + tail.frames, tail.rest)
  }

  lemma EncodeFrom(header: Bytes, m: Message)
    requires |header| == HEADER_SIZE && FromLittleEndian(header) == |m|
    ensures Encode(m) == header + m
  {
    LittleEndianInverse(header);
  }

  lemma FrontIsEncoded(bytes: Bytes, end: nat)
    requires StartsWithFrame(bytes) && end == HEADER_SIZE + FromLittleEndian(bytes[..HEADER_SIZE])
    ensures bytes == Encode(bytes[HEADER_SIZE..end]) + bytes[end..]
  {
    hide FromLittleEndian, Encode;
    EncodeFrom(bytes[..HEADER_SIZE], bytes[HEADER_SIZE..end]);
    assert bytes == bytes[..HEADER_SIZE] + bytes[HEADER_SIZE..end] + bytes[end..];
  }

  lemma ParseFront(bytes: Bytes)
    ensures StartsWithFrame(bytes) ==>
              var end := HEADER_SIZE + FromLittleEndian(bytes[..HEADER_SIZE]);
              Parse(bytes) == Parsed([bytes[HEADER_SIZE..end]] + Parse(bytes[end..]).frames, Parse(bytes[end..]).rest)
    ensures !StartsWithFrame(bytes) ==> Parse(bytes) == Parsed([], bytes)
  {
  }

  /** Nothing is lost by reading, and nothing complete is left unread. */
  lemma {:induction false} ParseSound(bytes: Bytes)
    ensures bytes == EncodeAll(Parse(bytes).frames) + Parse(bytes).rest
    ensures !StartsWithFrame(Parse(bytes).rest)
  {
    hide Parse, FromLittleEndian, Encode, EncodeAll;
    ParseFront(bytes);
    if StartsWithFrame(bytes) {
      var end := HEADER_SIZE + FromLittleEndian(bytes[..HEADER_SIZE]);
      var first: Message := bytes[HEADER_SIZE..end];
      FrontIsEncoded(bytes, end);
      ParseSound(bytes[end..]);
      EncodeAllCons(first, Parse(bytes[end..]).frames);
    } else {
      EncodeAllOne([]);
    }
  }

  lemma FrameAtFront(m: Message, more: Bytes)
    ensures Parse(Encode(m) + more) == Parsed([m] + Parse(more).frames, Parse(more).rest)
  {
    var bytes := Encode(m) + more;
    LittleEndianRoundTrip(|m|);
    assert bytes[..HEADER_SIZE] == LittleEndian(|m|);
    assert bytes[HEADER_SIZE..HEADER_SIZE + |m|] == m;
    assert bytes[HEADER_SIZE + |m|..] == more;
  }

  /** Encoded messages are read back one for one, whatever follows them. */
  lemma {:induction false} ParseEncodeAll(ms: seq<Message>, more: Bytes)
    ensures Parse(EncodeAll(ms) + more) == Parsed(ms + Parse(more).frames, Parse(more).rest)
  {
    hide Parse, Encode;
    if ms == [] {
      assert EncodeAll(ms) + more == more;
      assert [] + Parse(more).frames == Parse(more).frames;
    } else {
      var tail := EncodeAll(ms[1..]) + more;
      assert EncodeAll(ms) + more == Encode(ms[0]) + tail;
      FrameAtFront(ms[0], tail);
      ParseEncodeAll(ms[1..], more);
      assert [ms[0]] + (ms[1..] + Parse(more).frames) == ms + Parse(more).frames;
    }
  }

  /** The split of a stream into frames and an incomplete remainder is unique. */
  lemma ParseUnique(frames: seq<Message>, rest: Bytes)
    requires !StartsWithFrame(rest)
    ensures Parse(EncodeAll(frames) + rest) == Parsed(frames, rest)
  {
    ParseEncodeAll(frames, rest);
    assert frames + [] == frames;
  }

  lemma OversizedStays(rest: Bytes, more: Bytes)
    requires Oversized(rest)
    ensures Oversized(rest + more) && !StartsWithFrame(rest + more)
  {
    assert (rest + more)[..HEADER_SIZE] == rest[..HEADER_SIZE];
  }

  /** Once a stream is stuck on an oversized header, no further byte yields a frame. */
  lemma OversizedForGood(bytes: Bytes, more: Bytes)
    requires Oversized(Parse(bytes).rest)
    ensures Parse(bytes + more).frames == Parse(bytes).frames
  {
    hide *;
    var frames, rest := Parse(bytes).frames, Parse(bytes).rest;
    ParseSound(bytes);
    assert bytes + more == EncodeAll(frames) + (rest + more);
    OversizedStays(rest, more);
    ParseUnique(frames, rest + more);
  }

  /** Any cut of an encoded stream reads back as a prefix of its messages, cut off inside the next one. */
  lemma {:induction false} CutReadsPrefix(wire: Bytes, ms: seq<Message>)
    requires wire <= EncodeAll(ms)
    ensures var parsed := Parse(wire);
            && parsed.frames <= ms
            && !Oversized(parsed.rest)
            && (parsed.frames == ms ==> parsed.rest == [])
            && (parsed.frames < ms ==> parsed.rest < Encode(ms[|parsed.frames|]))
  {
    hide Parse, Encode;
    if ms != [] {
      var first := Encode(ms[0]);
      assert EncodeAll(ms) == first + EncodeAll(ms[1..]);
      hide EncodeAll;
      if |wire| >= |first| {
        var more := wire[|first|..];
        assert wire == first + more && more <= EncodeAll(ms[1..]);
        CutReadsPrefix(more, ms[1..]);
        FrameAtFront(ms[0], more);
        assert ms == [ms[0]] + ms[1..];
      } else {
        assert wire < first;
        CutInFirst(wire, ms[0]);
      }
    } else {
      assert wire == [];
      ParseFront(wire);
    }
  }

  /** A proper prefix of an encoding holds no complete frame. */
  lemma CutInFirst(wire: Bytes, m: Message)
    requires wire < Encode(m)
    ensures Parse(wire) == Parsed([], wire) && !Oversized(wire)
  {
    LittleEndianRoundTrip(|m|);
    hide LittleEndian, FromLittleEndian, Parse;
    assert |wire| >= HEADER_SIZE ==> wire[..HEADER_SIZE] == LittleEndian(|m|);
    ParseFront(wire);
  }

  /** Bytes that do not complete a frame are simply added to the remainder. */
  lemma ParseExtend(bytes: Bytes, more: Bytes)
    requires !StartsWithFrame(Parse(bytes).rest + more)
    ensures Parse(bytes + more) == Parsed(Parse(bytes).frames, Parse(bytes).rest + more)
  {
    hide *;
    var parsed := Parse(bytes);
    ParseSound(bytes);
    ParseUnique(parsed.frames, parsed.rest + more);
    assert bytes + more == EncodeAll(parsed.frames) + (parsed.rest + more);
  }

  /** Bytes that complete a frame exactly yield it and leave no remainder. */
  lemma ParseComplete(bytes: Bytes, more: Bytes, m: Message)
    requires Parse(bytes).rest + more == Encode(m)
    ensures Parse(bytes + more) == Parsed(Parse(bytes).frames + [m], [])
  {
    hide Parse, Encode, EncodeAll;
    var parsed := Parse(bytes);
    ParseSound(bytes);
    EncodeAllAppend(parsed.frames, m);
    ParseUnique(parsed.frames + [m], []);
    assert bytes + more == EncodeAll(parsed.frames) + (parsed.rest + more) + [];
  }

  /** More payload bytes behind a header: the remainder grows, until the announced length completes the frame. */
  lemma PayloadGrows(bytes: Bytes, header: Bytes, part: Bytes, more: Bytes)
    requires |header| == HEADER_SIZE && !Oversized(header)
    requires Parse(bytes).rest == header + part
    requires |part| + |more| <= FromLittleEndian(header)
    ensures Parse(bytes + more) ==
              if |part| + |more| == FromLittleEndian(header)
              then Parsed(Parse(bytes).frames + [part + more], [])
              else Parsed(Parse(bytes).frames, header + (part + more))
  {
    hide Parse, FromLittleEndian, Encode;
    var rest := header + (part + more);
    assert header + part + more == rest;
    if |part| + |more| == FromLittleEndian(header) {
      EncodeFrom(header, part + more);
      ParseComplete(bytes, more, part + more);
    } else {
      assert rest[..HEADER_SIZE] == header == header[..HEADER_SIZE];
      ParseExtend(bytes, more);
    }
  }
}
