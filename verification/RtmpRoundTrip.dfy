/** One message through the writer and back through the reader of the same chunk stream. */
module RtmpRoundTrip {
  import opened Wrappers
  import opened ByteStreams
  import opened RtmpChunk
  import opened RtmpRawMessage

  // What a reader can give back of a timestamp: whole milliseconds modulo 2^32.
  function Normalize(m: Message): Message {
    m.(timestamp := Wrap32(Milliseconds(m.timestamp)) * MILLISECOND)
  }

  predicate Sendable(m: Message) {
    2 <= m.csid < 64 && |m.body| <= MAX_BODY_SIZE
  }

  // The two ends of a chunk stream between two messages. The writer's delta may be one the reader no
  // longer has: a type 0 chunk makes the reader forget it, the writer keeps it.
  ghost predicate InStep(ws: WriterStream, rs: ReaderStream) {
    && ws.Valid() && rs.Valid() && rs.recv == 0 && rs.fragments == []
    && (ws.lastMsid.None? ==> !rs.timestampAvailable && !rs.deltaAvailable)
    && (ws.lastMsid.Some? ==>
          && rs.timestampAvailable
          && rs.msid == ws.lastMsid.value
          && rs.typ == ws.lastType.value
          && rs.bodyLen == ws.lastBodyLen.value
          && rs.timestamp == Wrap32(ws.lastTimestamp.value)
          && rs.ext == ws.ext
          && (rs.deltaAvailable ==> ws.lastDelta.Some? && rs.delta == Wrap32(ws.lastDelta.value)))
  }

  // The message starts with a type 3 chunk that the reader has no delta for.
  predicate RefusedBy(ws: WriterStream, rs: ReaderStream, m: Message)
    requires ws.Valid()
  {
    FirstType(ws, m) == 3 && !rs.deltaAvailable
  }

  // The reader's stream after the first chunk of the message.
  function ReaderAfter(ws: WriterStream, rs: ReaderStream, m: Message): ReaderStream
    requires ws.Valid() && |m.body| < 0x1_0000_0000
  {
    BeginMessage(rs, FirstChunk(ws, m, []))
  }

  // These chunks, read one after the other by a stream, complete exactly one message: the last one
  // delivers it, those before only add to it.
  ghost predicate Assembles(rs: ReaderStream, chunkSize: uint32, chunks: seq<seq<byte>>, rs': ReaderStream, m: Message)
    requires rs.Valid()
    decreases |chunks|
  {
    && chunks != []
    && chunks[0] != []
    && chunks[0][0] % 64 == m.csid
    && var o := StepStream(rs, chunkSize, chunks[0]);
       if |chunks| == 1
       then o == Delivered(rs', m.typ, m.timestamp, m.msid, m.body, []) && rs'.Valid()
       else o.Pending? && o.rest == [] && o.rs.Valid() && Assembles(o.rs, chunkSize, chunks[1..], rs', m)
  }

  // --- The first chunk -------------------------------------------------------------------------

  lemma WrapSum(a: int, d: int)
    ensures Wrap32(Wrap32(a) + Wrap32(d)) == Wrap32(a + d)
  {
    var m := 0x1_0000_0000;
    assert a == m * (a / m) + a % m && d == m * (d / m) + d % m;
    assert a + d == m * (a / m + d / m) + (a % m + d % m);
    assert (a + d) % m == (a % m + d % m) % m;
  }

  lemma ReaderAfterInStep(ws: WriterStream, rs: ReaderStream, m: Message)
    requires InStep(ws, rs) && Sendable(m) && !RefusedBy(ws, rs, m)
    ensures InStep(AfterFirstChunk(ws, m), ReaderAfter(ws, rs, m))
    ensures ReaderAfter(ws, rs, m).deltaAvailable == (FirstType(ws, m) != 0)
    ensures ReaderAfter(ws, rs, m).timestamp == Wrap32(Milliseconds(m.timestamp))
    ensures ReaderAfter(ws, rs, m).msid == m.msid && ReaderAfter(ws, rs, m).typ == m.typ
    ensures ReaderAfter(ws, rs, m).bodyLen == |m.body|
  {
    if FirstType(ws, m) != 0 {
      WrapSum(ws.lastTimestamp.value, Delta(ws, Milliseconds(m.timestamp)).value);
    }
  }

  // The first chunk of a message is read as the start of that message.
  lemma FirstChunkStarts(ws: WriterStream, rs: ReaderStream, chunkSize: uint32, m: Message)
    requires InStep(ws, rs) && Sendable(m) && !RefusedBy(ws, rs, m) && chunkSize > 0
    ensures var piece := Pieces(m.body, chunkSize)[0];
            var first := Marshal(FirstChunk(ws, m, piece), ws.ext);
            && first != [] && first[0] % 64 == m.csid
            && StepStream(rs, chunkSize, first) == StartMessage(rs, Parsed(FirstChunk(ws, m, piece), []))
  {
    hide StartMessage;
    var piece := Pieces(m.body, chunkSize)[0];
    var c := FirstChunk(ws, m, piece);
    var first := Marshal(c, ws.ext);
    assert first + [] == first;
    match FirstType(ws, m)
    case 0 => Parse0Marshal(c, [], chunkSize);
    case 1 => Parse1Marshal(c, [], chunkSize);
    case 2 => Parse2Marshal(c, []);
    case _ => Parse3Marshal(c, ws.ext, []);
  }

  // It completes a message that fits in one chunk, and leaves the first fragment of a longer one.
  lemma FirstChunkOutcome(ws: WriterStream, rs: ReaderStream, chunkSize: uint32, m: Message)
    requires InStep(ws, rs) && Sendable(m) && !RefusedBy(ws, rs, m) && chunkSize > 0
    ensures var piece := Pieces(m.body, chunkSize)[0];
            var first := Marshal(FirstChunk(ws, m, piece), ws.ext);
            var rs' := ReaderAfter(ws, rs, m);
            && first != [] && first[0] % 64 == m.csid
            && StepStream(rs, chunkSize, first)
               == if |m.body| <= chunkSize
                  then Delivered(rs', m.typ, Normalize(m).timestamp, m.msid, m.body, [])
                  else Pending(rs'.(fragments := [piece], recv := |piece|), [])
  {
    hide StepStream, Marshal;
    var piece := Pieces(m.body, chunkSize)[0];
    FirstChunkStarts(ws, rs, chunkSize, m);
    ReaderAfterInStep(ws, rs, m);
    assert BeginMessage(rs, FirstChunk(ws, m, piece)) == ReaderAfter(ws, rs, m);
    assert [] + [piece] == [piece];
    assert |m.body| <= chunkSize ==> piece == m.body;
  }

  // --- The chunks after it ---------------------------------------------------------------------

  // One type 3 chunk in the middle of a message.
  lemma ContinuationStep(rs: ReaderStream, chunkSize: uint32, csid: byte, piece: seq<byte>)
    requires rs.Valid() && rs.recv > 0 && 2 <= csid < 64
    requires |piece| == Min(rs.bodyLen - rs.recv, chunkSize)
    ensures var chunk := Marshal(Type3(csid, piece), rs.ext);
      && chunk != [] && chunk[0] % 64 == csid
      && StepStream(rs, chunkSize, chunk)
         == if rs.recv + |piece| != rs.bodyLen
            then Pending(rs.(fragments := rs.fragments + [piece], recv := rs.recv + |piece|), [])
            else Delivered(rs.(fragments := [], recv := 0), rs.typ, rs.timestamp * MILLISECOND, rs.msid,
                           Flatten(rs.fragments) + piece, [])
  {
    Parse3Marshal(Type3(csid, piece), rs.ext, []);
    var chunk := Marshal(Type3(csid, piece), rs.ext);
    assert chunk + [] == chunk;
    FlattenAppend(rs.fragments, [piece]);
    assert Flatten([piece]) == piece;
    TotalLengthAppend(rs.fragments, piece);
    FlattenLength(rs.fragments + [piece]);
  }

  // A stream that has received part of a body, and the rest of that body cut into type 3 chunks.
  lemma {:induction false} ContinuationsAssemble(rs: ReaderStream, chunkSize: uint32, body: seq<byte>, m: Message)
    requires rs.Valid() && chunkSize > 0 && 2 <= m.csid < 64
    requires rs.recv > 0 && rs.recv + |body| == rs.bodyLen && body != []
    requires m.body == Flatten(rs.fragments) + body
    requires m.typ == rs.typ && m.timestamp == rs.timestamp * MILLISECOND && m.msid == rs.msid
    ensures Assembles(rs, chunkSize, Continuations(m.csid, Pieces(body, chunkSize), rs.ext),
                      rs.(fragments := [], recv := 0), m)
    decreases |body|
  {
    hide StepStream, Marshal;
    var pieces := Pieces(body, chunkSize);
    var piece := pieces[0];
    ContinuationStep(rs, chunkSize, m.csid, piece);
    StepStreamValid(rs, chunkSize, Marshal(Type3(m.csid, piece), rs.ext));
    if |body| <= chunkSize {
      assert pieces[1..] == [];
    } else {
      var rs1 := rs.(fragments := rs.fragments + [piece], recv := rs.recv + |piece|);
      FlattenAppend(rs.fragments, [piece]);
      assert m.body == Flatten(rs1.fragments) + body[chunkSize..] by {
        assert Flatten([piece]) == piece;
        assert body == piece + body[chunkSize..];
      }
      ContinuationsAssemble(rs1, chunkSize, body[chunkSize..], m);
      assert pieces[1..] == Pieces(body[chunkSize..], chunkSize);
    }
  }

  // The chunks of a message put it together again on the other side.
  lemma MessageAssembles(ws: WriterStream, rs: ReaderStream, chunkSize: uint32, m: Message)
    requires InStep(ws, rs) && Sendable(m) && !RefusedBy(ws, rs, m) && chunkSize > 0
    ensures Assembles(rs, chunkSize, MessageChunks(ws, chunkSize, m), ReaderAfter(ws, rs, m), Normalize(m))
  {
    hide StepStream, Marshal, FirstChunk;
    var pieces := Pieces(m.body, chunkSize);
    var rs' := ReaderAfter(ws, rs, m);
    FirstChunkOutcome(ws, rs, chunkSize, m);
    StepStreamValid(rs, chunkSize, Marshal(FirstChunk(ws, m, pieces[0]), ws.ext));
    ReaderAfterInStep(ws, rs, m);
    if |m.body| <= chunkSize {
      assert pieces[1..] == [];
    } else {
      var rs1 := rs'.(fragments := [pieces[0]], recv := |pieces[0]|);
      assert m.body == Flatten(rs1.fragments) + m.body[chunkSize..] by {
        assert Flatten([pieces[0]]) == pieces[0];
      }
      ContinuationsAssemble(rs1, chunkSize, m.body[chunkSize..], Normalize(m));
      assert pieces[1..] == Pieces(m.body[chunkSize..], chunkSize);
      assert rs1.(fragments := [], recv := 0) == rs';
    }
  }

  // --- Reading from a stream of bytes ----------------------------------------------------------

  lemma StartMessagePrefix(rs: ReaderStream, p: Parse, more: seq<byte>)
    requires p.Parsed? && |p.chunk.body| < 0x1_0000_0000
    requires !StartMessage(rs, p).Failed?
    ensures StartMessage(rs, Parsed(p.chunk, p.rest + more))
         == StartMessage(rs, p).(rest := p.rest + more)
  {
  }

  // A chunk is read the same way whatever bytes follow it.
  lemma StepStreamPrefix(rs: ReaderStream, chunkSize: uint32, input: seq<byte>, more: seq<byte>)
    requires rs.Valid() && input != []
    requires !StepStream(rs, chunkSize, input).Failed?
    ensures StepStream(rs, chunkSize, input + more)
         == StepStream(rs, chunkSize, input).(rest := StepStream(rs, chunkSize, input).rest + more)
  {
    hide Parse0, Parse1, Parse2, Parse3;
    match input[0] / 64
    case 0 =>
      Parse0Prefix(input, chunkSize, more);
      StartMessagePrefix(rs, Parse0(input, chunkSize), more);
    case 1 =>
      Parse1Prefix(input, chunkSize, more);
      StartMessagePrefix(rs, Parse1(input, chunkSize), more);
    case 2 =>
      Parse2Prefix(input, Min(rs.bodyLen, chunkSize), more);
      StartMessagePrefix(rs, Parse2(input, Min(rs.bodyLen, chunkSize)), more);
    case _ =>
      if rs.recv != 0 {
        Parse3Prefix(input, Min(rs.bodyLen - rs.recv, chunkSize), rs.ext, more);
      } else {
        Parse3Prefix(input, Min(rs.bodyLen, chunkSize), rs.ext, more);
        StartMessagePrefix(rs, Parse3(input, Min(rs.bodyLen, chunkSize), rs.ext), more);
      }
  }

  // One iteration of Reader.Read on a chunk followed by anything.
  lemma StepReaderOn(r: ReaderState, chunk: seq<byte>, more: seq<byte>)
    requires r.Valid() && chunk != [] && chunk[0] % 64 >= 2
    requires var o := StepStream(r.Stream(chunk[0] % 64), r.chunkSize, chunk); !o.Failed? && o.rest == []
    ensures var id: byte := chunk[0] % 64;
      var o := StepStream(r.Stream(id), r.chunkSize, chunk);
      var r' := r.(streams := r.streams[id := o.rs]);
      StepReader(r, chunk + more) == if o.Pending? then More(r', more)
                                     else Got(r', Message(id, o.timestamp, o.typ, o.msid, o.body), more)
  {
    hide StepStream;
    StepStreamPrefix(r.Stream(chunk[0] % 64), r.chunkSize, chunk, more);
    assert [] + more == more;
  }

  // Reader.Read over the bytes of those chunks returns that message and stops right behind them.
  lemma {:induction false} AssembledIsRead(r: ReaderState, chunks: seq<seq<byte>>, rs': ReaderStream, m: Message, more: seq<byte>)
    requires r.Valid() && 2 <= m.csid < 64
    requires Assembles(r.Stream(m.csid), r.chunkSize, chunks, rs', m)
    ensures Read(r, Flatten(chunks) + more) == Got(r.(streams := r.streams[m.csid := rs']), m, more)
    decreases |chunks|
  {
    hide StepStream, StepReader;
    var input := Flatten(chunks) + more;
    var tail := Flatten(chunks[1..]) + more;
    assert input == chunks[0] + tail;
    StepReaderOn(r, chunks[0], tail);
    var o := StepStream(r.Stream(m.csid), r.chunkSize, chunks[0]);
    if |chunks| == 1 {
      assert tail == more;
    } else {
      var r1 := r.(streams := r.streams[m.csid := o.rs]);
      AssembledIsRead(r1, chunks[1..], rs', m, more);
      assert r1.streams[m.csid := rs'] == r.streams[m.csid := rs'];
    }
  }

  // A refused message: its very first byte makes the reader give up.
  lemma RefusedIsStuck(ws: WriterStream, r: ReaderState, m: Message, chunkSize: uint32, more: seq<byte>)
    requires r.Valid() && InStep(ws, r.Stream(m.csid)) && Sendable(m) && chunkSize > 0
    requires RefusedBy(ws, r.Stream(m.csid), m)
    ensures Read(r, Flatten(MessageChunks(ws, chunkSize, m)) + more) == Stuck(NoPreviousChunk)
  {
    var chunks := MessageChunks(ws, chunkSize, m);
    var input := Flatten(chunks) + more;
    assert input[0] == chunks[0][0] == BasicHeader(3, m.csid);
  }
}
