/** RTMP chunks: the four header formats, as values and as the buffers the server fills. */
module RtmpChunk {
  import opened Wrappers
  import opened ByteStreams

  const EXTENDED: uint32 := 0xFF_FFFF

  datatype Chunk =
    | Type0(csid: byte, timestamp: uint32, bodyLen: uint32, typ: byte, msid: uint32, body: seq<byte>)
    | Type1(csid: byte, delta: uint32, bodyLen: uint32, typ: byte, body: seq<byte>)
    | Type2(csid: byte, delta: uint32, body: seq<byte>)
    | Type3(csid: byte, body: seq<byte>)

  // What reading a chunk from a byte stream gives: the chunk and what follows it.
  datatype Parse = Parsed(chunk: Chunk, rest: seq<byte>) | Short

  function Min(a: nat, b: nat): nat {
    if a <= b then a else b
  }

  // `format<<6 | csid`: the two top bits of csid are or-ed with the format.
  function BasicHeader(format: byte, csid: byte): (b: byte)
    requires format < 4
    ensures csid < 64 ==> b / 64 == format && b % 64 == csid
    ensures b % 64 == csid % 64
  {
    var high := csid / 64;
    var either := (if format / 2 == 1 || high / 2 == 1 then 2 else 0)
                  + (if format % 2 == 1 || high % 2 == 1 then 1 else 0);
    either * 64 + csid % 64
  }

  // The 24-bit timestamp slot: the value, or all ones when the value is extended.
  function Slot(t: uint32): uint32 {
    if t >= EXTENDED then EXTENDED else t
  }

  function Tail(t: uint32): seq<byte> {
    if t >= EXTENDED then PutU32(t) else []
  }

  // The bytes of a chunk. A type 3 chunk repeats no timestamp: its four extra bytes are zero.
  function Marshal(c: Chunk, ext: bool): seq<byte> {
    match c
    case Type0(csid, ts, len, typ, msid, body) =>
      [BasicHeader(0, csid), Byte2(Slot(ts)), Byte1(Slot(ts)), Byte0(Slot(ts)),
       Byte2(len), Byte1(len), Byte0(len), typ,
       Byte3(msid), Byte2(msid), Byte1(msid), Byte0(msid)] + Tail(ts) + body
    case Type1(csid, delta, len, typ, body) =>
      [BasicHeader(1, csid), Byte2(Slot(delta)), Byte1(Slot(delta)), Byte0(Slot(delta)),
       Byte2(len), Byte1(len), Byte0(len), typ] + Tail(delta) + body
    case Type2(csid, delta, body) =>
      [BasicHeader(2, csid), Byte2(Slot(delta)), Byte1(Slot(delta)), Byte0(Slot(delta))] + Tail(delta) + body
    case Type3(csid, body) =>
      [BasicHeader(3, csid)] + (if ext then [0, 0, 0, 0] else []) + body
  }

  // The timestamp of a header: the slot, or the four bytes after the header when the slot is full.
  function Timestamp(slot: uint32, after: seq<byte>): Option<(uint32, seq<byte>)> {
    if slot < EXTENDED then Some((slot, after))
    else if |after| < 4 then None
    else Some((U32(after[0], after[1], after[2], after[3]), after[4..]))
  }

  function Parse0(input: seq<byte>, maxBodyLen: uint32): (r: Parse)
    ensures r.Parsed? ==> |r.rest| < |input| && r.chunk.Type0? && |r.chunk.body| == Min(r.chunk.bodyLen, maxBodyLen)
  {
    if |input| < 12 then Short else
      match Timestamp(U24(input[1], input[2], input[3]), input[12..])
      case None => Short
      case Some((ts, rest)) =>
        var len := U24(input[4], input[5], input[6]);
        var n := Min(len, maxBodyLen);
        if |rest| < n then Short else
          Parsed(Type0(input[0] % 64, ts, len, input[7], U32(input[8], input[9], input[10], input[11]), rest[..n]), rest[n..])
  }

  function Parse1(input: seq<byte>, maxBodyLen: uint32): (r: Parse)
    ensures r.Parsed? ==> |r.rest| < |input| && r.chunk.Type1? && |r.chunk.body| == Min(r.chunk.bodyLen, maxBodyLen)
  {
    if |input| < 8 then Short else
      match Timestamp(U24(input[1], input[2], input[3]), input[8..])
      case None => Short
      case Some((delta, rest)) =>
        var len := U24(input[4], input[5], input[6]);
        var n := Min(len, maxBodyLen);
        if |rest| < n then Short else
          Parsed(Type1(input[0] % 64, delta, len, input[7], rest[..n]), rest[n..])
  }

  function Parse2(input: seq<byte>, bodyLen: uint32): (r: Parse)
    ensures r.Parsed? ==> |r.rest| < |input| && r.chunk.Type2? && |r.chunk.body| == bodyLen
  {
    if |input| < 4 then Short else
      match Timestamp(U24(input[1], input[2], input[3]), input[4..])
      case None => Short
      case Some((delta, rest)) =>
        if |rest| < bodyLen then Short else
          Parsed(Type2(input[0] % 64, delta, rest[..bodyLen]), rest[bodyLen..])
  }

  function Parse3(input: seq<byte>, bodyLen: uint32, ext: bool): (r: Parse)
    ensures r.Parsed? ==> |r.rest| < |input| && r.chunk.Type3? && |r.chunk.body| == bodyLen
  {
    if |input| < 1 then Short
    else if ext && |input| < 5 then Short
    else
      var rest := if ext then input[5..] else input[1..];
      if |rest| < bodyLen then Short else
        Parsed(Type3(input[0] % 64, rest[..bodyLen]), rest[bodyLen..])
  }

  // --- Reading back what was marshalled -------------------------------------------------------

  lemma TimestampRoundTrip(t: uint32, after: seq<byte>)
    ensures Timestamp(U24(Byte2(Slot(t)), Byte1(Slot(t)), Byte0(Slot(t))), Tail(t) + after) == Some((t, after))
  {
    hide U24, U32, Byte0, Byte1, Byte2, Byte3;
    U24RoundTrip(Slot(t));
    U32RoundTrip(t);
    if t >= EXTENDED {
      assert (Tail(t) + after)[4..] == after;
    } else {
      assert Tail(t) + after == after;
    }
  }

  lemma Parse0Marshal(c: Chunk, after: seq<byte>, maxBodyLen: uint32)
    requires c.Type0? && c.csid < 64 && c.bodyLen < 0x100_0000 && |c.body| == Min(c.bodyLen, maxBodyLen)
    ensures Parse0(Marshal(c, false) + after, maxBodyLen) == Parsed(c, after)
  {
    hide U24, U32, Byte0, Byte1, Byte2, Byte3, Timestamp;
    var input := Marshal(c, false) + after;
    assert input[12..] == Tail(c.timestamp) + (c.body + after);
    TimestampRoundTrip(c.timestamp, c.body + after);
    U24RoundTrip(c.bodyLen);
    U32RoundTrip(c.msid);
    assert (c.body + after)[..|c.body|] == c.body;
    assert (c.body + after)[|c.body|..] == after;
  }

  lemma Parse1Marshal(c: Chunk, after: seq<byte>, maxBodyLen: uint32)
    requires c.Type1? && c.csid < 64 && c.bodyLen < 0x100_0000 && |c.body| == Min(c.bodyLen, maxBodyLen)
    ensures Parse1(Marshal(c, false) + after, maxBodyLen) == Parsed(c, after)
  {
    hide U24, U32, Byte0, Byte1, Byte2, Byte3, Timestamp;
    var input := Marshal(c, false) + after;
    assert input[8..] == Tail(c.delta) + (c.body + after);
    TimestampRoundTrip(c.delta, c.body + after);
    U24RoundTrip(c.bodyLen);
    assert (c.body + after)[..|c.body|] == c.body;
    assert (c.body + after)[|c.body|..] == after;
  }

  lemma Parse2Marshal(c: Chunk, after: seq<byte>)
    requires c.Type2? && c.csid < 64 && |c.body| < 0x1_0000_0000
    ensures Parse2(Marshal(c, false) + after, |c.body|) == Parsed(c, after)
  {
    hide U24, U32, Byte0, Byte1, Byte2, Byte3, Timestamp;
    var input := Marshal(c, false) + after;
    assert input[4..] == Tail(c.delta) + (c.body + after);
    TimestampRoundTrip(c.delta, c.body + after);
    assert (c.body + after)[..|c.body|] == c.body;
    assert (c.body + after)[|c.body|..] == after;
  }

  lemma Parse3Marshal(c: Chunk, ext: bool, after: seq<byte>)
    requires c.Type3? && c.csid < 64 && |c.body| < 0x1_0000_0000
    ensures Parse3(Marshal(c, ext) + after, |c.body|, ext) == Parsed(c, after)
  {
    var input := Marshal(c, ext) + after;
    var rest := if ext then input[5..] else input[1..];
    assert rest == c.body + after;
    assert (c.body + after)[..|c.body|] == c.body;
    assert (c.body + after)[|c.body|..] == after;
  }

  // --- Reading consumes a prefix: bytes that follow the chunk do not matter --------------------

  lemma TimestampPrefix(slot: uint32, after: seq<byte>, more: seq<byte>)
    requires Timestamp(slot, after).Some?
    ensures Timestamp(slot, after + more)
         == Some((Timestamp(slot, after).value.0, Timestamp(slot, after).value.1 + more))
  {
    if slot >= EXTENDED {
      assert (after + more)[4..] == after[4..] + more;
    }
  }

  lemma Parse0Prefix(input: seq<byte>, maxBodyLen: uint32, more: seq<byte>)
    requires Parse0(input, maxBodyLen).Parsed?
    ensures Parse0(input + more, maxBodyLen)
         == Parsed(Parse0(input, maxBodyLen).chunk, Parse0(input, maxBodyLen).rest + more)
  {
    assert (input + more)[12..] == input[12..] + more;
    TimestampPrefix(U24(input[1], input[2], input[3]), input[12..], more);
    var rest := Timestamp(U24(input[1], input[2], input[3]), input[12..]).value.1;
    var n := Min(U24(input[4], input[5], input[6]), maxBodyLen);
    assert (rest + more)[..n] == rest[..n];
    assert (rest + more)[n..] == rest[n..] + more;
  }

  lemma Parse1Prefix(input: seq<byte>, maxBodyLen: uint32, more: seq<byte>)
    requires Parse1(input, maxBodyLen).Parsed?
    ensures Parse1(input + more, maxBodyLen)
         == Parsed(Parse1(input, maxBodyLen).chunk, Parse1(input, maxBodyLen).rest + more)
  {
    assert (input + more)[8..] == input[8..] + more;
    TimestampPrefix(U24(input[1], input[2], input[3]), input[8..], more);
    var rest := Timestamp(U24(input[1], input[2], input[3]), input[8..]).value.1;
    var n := Min(U24(input[4], input[5], input[6]), maxBodyLen);
    assert (rest + more)[..n] == rest[..n];
    assert (rest + more)[n..] == rest[n..] + more;
  }

  lemma Parse2Prefix(input: seq<byte>, bodyLen: uint32, more: seq<byte>)
    requires Parse2(input, bodyLen).Parsed?
    ensures Parse2(input + more, bodyLen)
         == Parsed(Parse2(input, bodyLen).chunk, Parse2(input, bodyLen).rest + more)
  {
    assert (input + more)[4..] == input[4..] + more;
    TimestampPrefix(U24(input[1], input[2], input[3]), input[4..], more);
    var rest := Timestamp(U24(input[1], input[2], input[3]), input[4..]).value.1;
    assert (rest + more)[..bodyLen] == rest[..bodyLen];
    assert (rest + more)[bodyLen..] == rest[bodyLen..] + more;
  }

  lemma Parse3Prefix(input: seq<byte>, bodyLen: uint32, ext: bool, more: seq<byte>)
    requires Parse3(input, bodyLen, ext).Parsed?
    ensures Parse3(input + more, bodyLen, ext)
         == Parsed(Parse3(input, bodyLen, ext).chunk, Parse3(input, bodyLen, ext).rest + more)
  {
    var rest := if ext then input[5..] else input[1..];
    assert (if ext then (input + more)[5..] else (input + more)[1..]) == rest + more;
    assert (rest + more)[..bodyLen] == rest[..bodyLen];
    assert (rest + more)[bodyLen..] == rest[bodyLen..] + more;
  }
}
