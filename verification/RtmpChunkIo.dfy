/** The chunk objects of the server: Read sets their fields from a stream, Marshal fills a buffer by index. */
module RtmpChunkIo {
  import opened Wrappers
  import opened ByteStreams
  import C = RtmpChunk

  // The four bytes that follow a header whose timestamp slot is full.
  method ReadTimestamp(r: Source, slot: uint32) returns (t: Option<uint32>)
    modifies r
    ensures match C.Timestamp(slot, old(r.pending))
      case Some((v, rest)) => t == Some(v) && r.pending == rest
      case None => t == None
  {
    t := Some(slot);
    if slot >= C.EXTENDED {
      var b := r.ReadFull(4);
      match b
      case None => t := None;
      case Some(b) => t := Some(U32(b[0], b[1], b[2], b[3]));
    }
  }

  class Chunk0 {
    var chunkStreamID: byte
    var timestamp: uint32
    var bodyLen: uint32
    var typ: byte
    var messageStreamID: uint32
    var body: seq<byte>

    constructor (c: C.Chunk)
      requires c.Type0?
      ensures Value() == c
    {
      chunkStreamID, timestamp, bodyLen, typ, messageStreamID, body := c.csid, c.timestamp, c.bodyLen, c.typ, c.msid, c.body;
    }

    ghost function Value(): C.Chunk
      reads this
    {
      C.Type0(chunkStreamID, timestamp, bodyLen, typ, messageStreamID, body)
    }

    method Read(r: Source, maxBodyLen: uint32) returns (ok: bool)
      modifies this, r
      ensures match C.Parse0(old(r.pending), maxBodyLen)
        case Parsed(c, rest) => ok && Value() == c && r.pending == rest
        case Short => !ok
    {
      hide U24, U32;
      ok := false;
      var h := r.ReadFull(12);
      if h.None? { return; }
      var header := h.value;
      var slot := U24(header[1], header[2], header[3]);
      chunkStreamID := header[0] % 64;
      bodyLen := U24(header[4], header[5], header[6]);
      typ := header[7];
      messageStreamID := U32(header[8], header[9], header[10], header[11]);
      var t := ReadTimestamp(r, slot);
      if t.None? { return; }
      timestamp := t.value;
      var b := r.ReadFull(C.Min(bodyLen, maxBodyLen));
      if b.None? { return; }
      body := b.value;
      ok := true;
    }

    method Marshal() returns (buf: array<byte>)
      ensures fresh(buf) && buf[..] == C.Marshal(Value(), false)
    {
      hide Byte0, Byte1, Byte2, Byte3, C.BasicHeader;
      var extended := timestamp >= C.EXTENDED;
      var n := if extended then 16 else 12;
      buf := new byte[n + |body|];
      buf[0] := C.BasicHeader(0, chunkStreamID);
      if extended {
        buf[1], buf[2], buf[3] := 0xFF, 0xFF, 0xFF;
        buf[12], buf[13], buf[14], buf[15] := Byte3(timestamp), Byte2(timestamp), Byte1(timestamp), Byte0(timestamp);
      } else {
        buf[1], buf[2], buf[3] := Byte2(timestamp), Byte1(timestamp), Byte0(timestamp);
      }
      buf[4], buf[5], buf[6] := Byte2(bodyLen), Byte1(bodyLen), Byte0(bodyLen);
      buf[7] := typ;
      buf[8], buf[9], buf[10], buf[11] :=
        Byte3(messageStreamID), Byte2(messageStreamID), Byte1(messageStreamID), Byte0(messageStreamID);
      SlotBytes(timestamp);
      assert buf[..n] + body == C.Marshal(Value(), false);
      Copy(buf, n, body);
      assert buf[n + |body|..] == [];
    }
  }

  lemma SlotBytes(t: uint32)
    ensures t >= C.EXTENDED ==> Byte0(C.Slot(t)) == Byte1(C.Slot(t)) == Byte2(C.Slot(t)) == 0xFF
    ensures t < C.EXTENDED ==> C.Slot(t) == t
  {
  }

  class Chunk1 {
    var chunkStreamID: byte
    var timestampDelta: uint32
    var bodyLen: uint32
    var typ: byte
    var body: seq<byte>

    constructor (c: C.Chunk)
      requires c.Type1?
      ensures Value() == c
    {
      chunkStreamID, timestampDelta, bodyLen, typ, body := c.csid, c.delta, c.bodyLen, c.typ, c.body;
    }

    ghost function Value(): C.Chunk
      reads this
    {
      C.Type1(chunkStreamID, timestampDelta, bodyLen, typ, body)
    }

    method Read(r: Source, maxBodyLen: uint32) returns (ok: bool)
      modifies this, r
      ensures match C.Parse1(old(r.pending), maxBodyLen)
        case Parsed(c, rest) => ok && Value() == c && r.pending == rest
        case Short => !ok
    {
      hide U24, U32;
      ok := false;
      var h := r.ReadFull(8);
      if h.None? { return; }
      var header := h.value;
      var slot := U24(header[1], header[2], header[3]);
      chunkStreamID := header[0] % 64;
      bodyLen := U24(header[4], header[5], header[6]);
      typ := header[7];
      var t := ReadTimestamp(r, slot);
      if t.None? { return; }
      timestampDelta := t.value;
      var b := r.ReadFull(C.Min(bodyLen, maxBodyLen));
      if b.None? { return; }
      body := b.value;
      ok := true;
    }

    method Marshal() returns (buf: array<byte>)
      ensures fresh(buf) && buf[..] == C.Marshal(Value(), false)
    {
      hide Byte0, Byte1, Byte2, Byte3, C.BasicHeader;
      var extended := timestampDelta >= C.EXTENDED;
      var n := if extended then 12 else 8;
      buf := new byte[n + |body|];
      buf[0] := C.BasicHeader(1, chunkStreamID);
      if extended {
        buf[1], buf[2], buf[3] := 0xFF, 0xFF, 0xFF;
        buf[8], buf[9], buf[10], buf[11] :=
          Byte3(timestampDelta), Byte2(timestampDelta), Byte1(timestampDelta), Byte0(timestampDelta);
      } else {
        buf[1], buf[2], buf[3] := Byte2(timestampDelta), Byte1(timestampDelta), Byte0(timestampDelta);
      }
      buf[4], buf[5], buf[6] := Byte2(bodyLen), Byte1(bodyLen), Byte0(bodyLen);
      buf[7] := typ;
      SlotBytes(timestampDelta);
      assert buf[..n] + body == C.Marshal(Value(), false);
      Copy(buf, n, body);
      assert buf[n + |body|..] == [];
    }
  }

  class Chunk2 {
    var chunkStreamID: byte
    var timestampDelta: uint32
    var body: seq<byte>

    constructor (c: C.Chunk)
      requires c.Type2?
      ensures Value() == c
    {
      chunkStreamID, timestampDelta, body := c.csid, c.delta, c.body;
    }

    ghost function Value(): C.Chunk
      reads this
    {
      C.Type2(chunkStreamID, timestampDelta, body)
    }

    method Read(r: Source, bodyLen: uint32) returns (ok: bool)
      modifies this, r
      ensures match C.Parse2(old(r.pending), bodyLen)
        case Parsed(c, rest) => ok && Value() == c && r.pending == rest
        case Short => !ok
    {
      hide U24, U32;
      ok := false;
      var h := r.ReadFull(4);
      if h.None? { return; }
      var header := h.value;
      var slot := U24(header[1], header[2], header[3]);
      chunkStreamID := header[0] % 64;
      var t := ReadTimestamp(r, slot);
      if t.None? { return; }
      timestampDelta := t.value;
      hide C.Timestamp;
      var b := r.ReadFull(bodyLen);
      if b.None? { return; }
      body := b.value;
      ok := true;
    }

    method Marshal() returns (buf: array<byte>)
      ensures fresh(buf) && buf[..] == C.Marshal(Value(), false)
    {
      hide Byte0, Byte1, Byte2, Byte3, C.BasicHeader;
      var extended := timestampDelta >= C.EXTENDED;
      var n := if extended then 8 else 4;
      buf := new byte[n + |body|];
      buf[0] := C.BasicHeader(2, chunkStreamID);
      if extended {
        buf[1], buf[2], buf[3] := 0xFF, 0xFF, 0xFF;
        buf[4], buf[5], buf[6], buf[7] :=
          Byte3(timestampDelta), Byte2(timestampDelta), Byte1(timestampDelta), Byte0(timestampDelta);
      } else {
        buf[1], buf[2], buf[3] := Byte2(timestampDelta), Byte1(timestampDelta), Byte0(timestampDelta);
      }
      SlotBytes(timestampDelta);
      assert buf[..n] + body == C.Marshal(Value(), false);
      Copy(buf, n, body);
      assert buf[n + |body|..] == [];
    }
  }

  class Chunk3 {
    var chunkStreamID: byte
    var body: seq<byte>

    constructor (c: C.Chunk)
      requires c.Type3?
      ensures Value() == c
    {
      chunkStreamID, body := c.csid, c.body;
    }

    ghost function Value(): C.Chunk
      reads this
    {
      C.Type3(chunkStreamID, body)
    }

    method Read(r: Source, bodyLen: uint32, hasExtendedTimestamp: bool) returns (ok: bool)
      modifies this, r
      ensures match C.Parse3(old(r.pending), bodyLen, hasExtendedTimestamp)
        case Parsed(c, rest) => ok && Value() == c && r.pending == rest
        case Short => !ok
    {
      ok := false;
      var h := r.ReadFull(1);
      if h.None? { return; }
      chunkStreamID := h.value[0] % 64;
      if hasExtendedTimestamp {
        var skipped := r.ReadFull(4);
        if skipped.None? { return; }
      }
      var b := r.ReadFull(bodyLen);
      if b.None? { return; }
      body := b.value;
      ok := true;
    }

    // The buffer starts zeroed, so the four bytes of an extended timestamp are zero.
    method Marshal(hasExtendedTimestamp: bool) returns (buf: array<byte>)
      ensures fresh(buf) && buf[..] == C.Marshal(Value(), hasExtendedTimestamp)
    {
      hide C.BasicHeader;
      var n := if hasExtendedTimestamp then 5 else 1;
      buf := new byte[n + |body|](_ => 0);
      buf[0] := C.BasicHeader(3, chunkStreamID);
      assert buf[..n] + body == C.Marshal(Value(), hasExtendedTimestamp);
      Copy(buf, n, body);
      assert buf[n + |body|..] == [];
    }
  }
}
