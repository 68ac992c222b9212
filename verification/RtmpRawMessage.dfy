/** The raw message layer on values: how a writer cuts messages into chunks, how a reader puts them together. */
module RtmpRawMessage {
  import opened Wrappers
  import opened ByteStreams
  import opened RtmpChunk

  const MAX_BODY_SIZE: uint32 := 10 * 1024 * 1024
  const MILLISECOND := 1_000_000

  // A timestamp is a Go time.Duration: nanoseconds, possibly negative.
  datatype Message = Message(csid: byte, timestamp: int, typ: byte, msid: uint32, body: seq<byte>)

  // --- Writer ----------------------------------------------------------------------------------

  // One chunk stream on the writing side. The optional fields are nil pointers until the first write.
  datatype WriterStream = WriterStream(
    lastMsid: Option<uint32>,
    lastType: Option<byte>,
    lastBodyLen: Option<uint32>,
    lastTimestamp: Option<int>,
    lastDelta: Option<int>,
    ext: bool)
  {
    // Either nothing was written, or every pointer that a later write follows is set.
    ghost predicate Valid() {
      && (lastMsid.Some? <==> lastType.Some?)
      && (lastMsid.Some? <==> lastBodyLen.Some?)
      && (lastMsid.Some? <==> lastTimestamp.Some?)
      && (lastMsid.None? ==> lastDelta.None?)
    }
  }

  const NEW_WRITER_STREAM := WriterStream(None, None, None, None, None, false)

  // Go's integer division truncates towards zero.
  function Milliseconds(timestamp: int): int {
    if timestamp >= 0 then timestamp / MILLISECOND else -((-timestamp) / MILLISECOND)
  }

  // The timestamp delta, used only when time does not go backwards.
  function Delta(ws: WriterStream, ms: int): Option<int> {
    if ws.lastTimestamp.Some? && ms - ws.lastTimestamp.value >= 0
    then Some(ms - ws.lastTimestamp.value)
    else None
  }

  // Which of the four chunk types starts the message.
  function FirstType(ws: WriterStream, m: Message): (typ: byte)
    requires ws.Valid()
    ensures typ < 4
  {
    var delta := Delta(ws, Milliseconds(m.timestamp));
    if ws.lastMsid.None? || delta.None? || ws.lastMsid.value != m.msid then 0
    else if ws.lastType.value != m.typ || ws.lastBodyLen.value != |m.body| then 1
    else if ws.lastDelta.None? || ws.lastDelta.value != delta.value then 2
    else 3
  }

  function FirstChunk(ws: WriterStream, m: Message, piece: seq<byte>): Chunk
    requires ws.Valid() && |m.body| < 0x1_0000_0000
  {
    var ms := Milliseconds(m.timestamp);
    match FirstType(ws, m)
    case 0 => Type0(m.csid, Wrap32(ms), |m.body|, m.typ, m.msid, piece)
    case 1 => Type1(m.csid, Wrap32(Delta(ws, ms).value), |m.body|, m.typ, piece)
    case 2 => Type2(m.csid, Wrap32(Delta(ws, ms).value), piece)
    case _ => Type3(m.csid, piece)
  }

  function AfterFirstChunk(ws: WriterStream, m: Message): (ws': WriterStream)
    requires ws.Valid() && |m.body| < 0x1_0000_0000
    ensures ws'.Valid()
  {
    var ms := Milliseconds(m.timestamp);
    var delta := Delta(ws, ms);
    WriterStream(
      Some(m.msid), Some(m.typ), Some(|m.body|), Some(ms),
      if delta.Some? then delta else ws.lastDelta,
      match FirstType(ws, m)
      case 0 => Wrap32(ms) >= EXTENDED
      case 1 => Wrap32(delta.value) >= EXTENDED
      case 2 => Wrap32(delta.value) >= EXTENDED
      case _ => ws.ext)
  }

  // A body cut into pieces of at most `size` bytes; an empty body is one empty piece.
  function Pieces(body: seq<byte>, size: uint32): (pieces: seq<seq<byte>>)
    requires size > 0
    ensures |pieces| > 0
    ensures Flatten(pieces) == body
    ensures |pieces[0]| == Min(|body|, size)
  {
    if |body| <= size then assert Flatten([body]) == body; [body]
    else [body[..size]] + Pieces(body[size..], size)
  }

  function Continuations(csid: byte, pieces: seq<seq<byte>>, ext: bool): (chunks: seq<seq<byte>>)
    ensures |chunks| == |pieces|
  {
    if pieces == [] then [] else [Marshal(Type3(csid, pieces[0]), ext)] + Continuations(csid, pieces[1..], ext)
  }

  // The chunks of one message, each as the bytes that go on the wire.
  function MessageChunks(ws: WriterStream, chunkSize: uint32, m: Message): (chunks: seq<seq<byte>>)
    requires ws.Valid() && chunkSize > 0 && |m.body| < 0x1_0000_0000
    ensures |chunks| > 0
  {
    var pieces := Pieces(m.body, chunkSize);
    [Marshal(FirstChunk(ws, m, pieces[0]), ws.ext)]
    + Continuations(m.csid, pieces[1..], AfterFirstChunk(ws, m).ext)
  }

  datatype WriterState = WriterState(chunkSize: uint32, streams: map<byte, WriterStream>) {
    ghost predicate Valid() {
      forall id :: id in streams ==> streams[id].Valid()
    }

    function Stream(id: byte): (ws: WriterStream)
      ensures Valid() ==> ws.Valid()
    {
      if id in streams then streams[id] else NEW_WRITER_STREAM
    }
  }

  const NEW_WRITER := WriterState(128, map[])

  function Write(w: WriterState, m: Message): (r: (WriterState, seq<seq<byte>>))
    requires w.Valid() && w.chunkSize > 0 && |m.body| < 0x1_0000_0000
    ensures r.0.Valid() && r.0.chunkSize == w.chunkSize
  {
    var ws := w.Stream(m.csid);
    (w.(streams := w.streams[m.csid := AfterFirstChunk(ws, m)]), MessageChunks(ws, w.chunkSize, m))
  }

  // --- Reader ----------------------------------------------------------------------------------

  datatype ReadError =
    | EndOfInput
    | UnsupportedChunkStream
    | ExpectedType3
    | NoPreviousChunk
    | BodyTooLarge
    | ChunkSizeTooLarge
    | InvalidMessage

  function TotalLength(fragments: seq<seq<byte>>): nat {
    if fragments == [] then 0 else |fragments[0]| + TotalLength(fragments[1..])
  }

  // One chunk stream on the reading side.
  datatype ReaderStream = ReaderStream(
    timestamp: uint32,
    timestampAvailable: bool,
    typ: byte,
    msid: uint32,
    bodyLen: uint32,
    fragments: seq<seq<byte>>,
    recv: uint32,
    delta: uint32,
    deltaAvailable: bool,
    ext: bool)
  {
    // What holds between two chunks as long as no read failed.
    ghost predicate Valid() {
      && TotalLength(fragments) == recv <= bodyLen <= MAX_BODY_SIZE
      && (recv != 0 ==> recv < bodyLen)
    }
  }

  const NEW_READER_STREAM := ReaderStream(0, false, 0, 0, 0, [], 0, 0, false, false)

  // joinFragments: the fragments copied into a buffer of the given size.
  function Join(fragments: seq<seq<byte>>, size: nat): (body: seq<byte>)
    ensures |body| == size
  {
    var all := Flatten(fragments);
    if size <= |all| then all[..size] else all + seq(size - |all|, i => 0)
  }

  datatype ChunkOutcome =
    | Pending(rs: ReaderStream, rest: seq<byte>)
    | Delivered(rs: ReaderStream, typ: byte, timestamp: int, msid: uint32, body: seq<byte>, rest: seq<byte>)
    | Failed(error: ReadError)

  // What the header of a chunk that starts a message changes in its chunk stream.
  function BeginMessage(rs: ReaderStream, c: Chunk): ReaderStream {
    match c
    case Type0(_, timestamp, bodyLen, typ, msid, _) =>
      rs.(msid := msid, typ := typ, timestamp := timestamp, timestampAvailable := true,
          deltaAvailable := false, bodyLen := bodyLen, ext := timestamp >= EXTENDED)
    case Type1(_, delta, bodyLen, typ, _) =>
      rs.(typ := typ, timestamp := Wrap32(rs.timestamp + delta), delta := delta,
          deltaAvailable := true, bodyLen := bodyLen, ext := delta >= EXTENDED)
    case Type2(_, delta, _) =>
      rs.(timestamp := Wrap32(rs.timestamp + delta), delta := delta,
          deltaAvailable := true, ext := delta >= EXTENDED)
    case Type3(_, _) =>
      rs.(timestamp := Wrap32(rs.timestamp + rs.delta))
  }

  function StartMessage(rs: ReaderStream, p: Parse): ChunkOutcome
    requires p.Parsed? ==> |p.chunk.body| < 0x1_0000_0000
  {
    match p
    case Short => Failed(EndOfInput)
    case Parsed(c, rest) =>
      var rs' := BeginMessage(rs, c);
      if rs'.bodyLen > MAX_BODY_SIZE then Failed(BodyTooLarge)
      else if rs'.bodyLen != |c.body|
      then Pending(rs'.(fragments := rs'.fragments + [c.body], recv := |c.body|), rest)
      else Delivered(rs', rs'.typ, rs'.timestamp * MILLISECOND, rs'.msid, c.body, rest)
  }

  // readMessage: one chunk of one chunk stream, selected by the two top bits of its first byte.
  function StepStream(rs: ReaderStream, chunkSize: uint32, input: seq<byte>): (r: ChunkOutcome)
    requires rs.Valid() && input != []
    ensures !r.Failed? ==> |r.rest| < |input|
  {
    match input[0] / 64
    case 0 =>
      if rs.recv != 0 then Failed(ExpectedType3)
      else StartMessage(rs, Parse0(input, chunkSize))
    case 1 =>
      if !rs.timestampAvailable then Failed(NoPreviousChunk)
      else if rs.recv != 0 then Failed(ExpectedType3)
      else StartMessage(rs, Parse1(input, chunkSize))
    case 2 =>
      if !rs.timestampAvailable then Failed(NoPreviousChunk)
      else if rs.recv != 0 then Failed(ExpectedType3)
      else StartMessage(rs, Parse2(input, Min(rs.bodyLen, chunkSize)))
    case _ =>
      if rs.recv != 0 then
        (match Parse3(input, Min(rs.bodyLen - rs.recv, chunkSize), rs.ext)
         case Short => Failed(EndOfInput)
         case Parsed(c, rest) =>
           var fragments := rs.fragments + [c.body];
           var recv: uint32 := rs.recv + |c.body|;
           if rs.bodyLen != recv
           then Pending(rs.(fragments := fragments, recv := recv), rest)
           else Delivered(rs.(fragments := [], recv := 0), rs.typ, rs.timestamp * MILLISECOND, rs.msid,
                          Join(fragments, recv), rest))
      else if !rs.deltaAvailable then Failed(NoPreviousChunk)
      else StartMessage(rs, Parse3(input, Min(rs.bodyLen, chunkSize), rs.ext))
  }

  datatype ReaderState = ReaderState(chunkSize: uint32, streams: map<byte, ReaderStream>) {
    ghost predicate Valid() {
      forall id :: id in streams ==> streams[id].Valid()
    }

    function Stream(id: byte): (rs: ReaderStream)
      ensures Valid() ==> rs.Valid()
    {
      if id in streams then streams[id] else NEW_READER_STREAM
    }
  }

  const NEW_READER := ReaderState(128, map[])

  datatype ReaderOutcome =
    | More(r: ReaderState, rest: seq<byte>)
    | Got(r: ReaderState, message: Message, rest: seq<byte>)
    | Stuck(error: ReadError)

  // One iteration of the loop of Reader.Read.
  function StepReader(r: ReaderState, input: seq<byte>): (o: ReaderOutcome)
    requires r.Valid()
    ensures !o.Stuck? ==> o.r.Valid() && o.r.chunkSize == r.chunkSize && |o.rest| < |input|
  {
    if input == [] then Stuck(EndOfInput)
    else
      var id: byte := input[0] % 64;
      if id < 2 then Stuck(UnsupportedChunkStream)
      else
        StepStreamValid(r.Stream(id), r.chunkSize, input);
        match StepStream(r.Stream(id), r.chunkSize, input)
        case Pending(rs, rest) => More(r.(streams := r.streams[id := rs]), rest)
        case Delivered(rs, typ, timestamp, msid, body, rest) =>
          Got(r.(streams := r.streams[id := rs]), Message(id, timestamp, typ, msid, body), rest)
        case Failed(e) => Stuck(e)
  }

  // Reader.Read: chunks until a message is complete.
  function Read(r: ReaderState, input: seq<byte>): (o: ReaderOutcome)
    requires r.Valid()
    ensures !o.More?
    ensures o.Got? ==> o.r.Valid() && o.r.chunkSize == r.chunkSize && |o.rest| < |input|
    decreases |input|
  {
    match StepReader(r, input)
    case More(r', rest) => Read(r', rest)
    case done => done
  }

  // --- Safety of the reader on arbitrary bytes -------------------------------------------------

  lemma {:induction false} TotalLengthAppend(fragments: seq<seq<byte>>, f: seq<byte>)
    ensures TotalLength(fragments + [f]) == TotalLength(fragments) + |f|
  {
    if fragments == [] {
      assert fragments + [f] == [f];
    } else {
      assert (fragments + [f])[1..] == fragments[1..] + [f];
      TotalLengthAppend(fragments[1..], f);
    }
  }

  lemma {:induction false} FlattenLength(fragments: seq<seq<byte>>)
    ensures |Flatten(fragments)| == TotalLength(fragments)
  {
    if fragments != [] {
      FlattenLength(fragments[1..]);
    }
  }

  lemma StartMessageValid(rs: ReaderStream, p: Parse)
    requires rs.Valid() && rs.recv == 0
    requires p.Parsed? ==> |p.chunk.body| <= BeginMessage(rs, p.chunk).bodyLen
    ensures var o := StartMessage(rs, p);
      && (!o.Failed? ==> o.rs.Valid())
      && (o.Delivered? ==> o.rs.recv == 0 && |o.body| == o.rs.bodyLen)
  {
    if p.Parsed? {
      TotalLengthAppend(rs.fragments, p.chunk.body);
    }
  }

  // Whatever the bytes are, a chunk that is not refused keeps the stream valid, and a body that is
  // delivered has exactly the length its header declared.
  lemma StepStreamValid(rs: ReaderStream, chunkSize: uint32, input: seq<byte>)
    requires rs.Valid() && input != []
    ensures var o := StepStream(rs, chunkSize, input);
      && (!o.Failed? ==> o.rs.Valid())
      && (o.Delivered? ==> o.rs.recv == 0 && |o.body| == o.rs.bodyLen <= MAX_BODY_SIZE)
  {
    var o := StepStream(rs, chunkSize, input);
    if o.Failed? {
    } else if input[0] / 64 == 3 && rs.recv != 0 {
      var c := Parse3(input, Min(rs.bodyLen - rs.recv, chunkSize), rs.ext).chunk;
      TotalLengthAppend(rs.fragments, c.body);
    } else if input[0] / 64 == 0 {
      StartMessageValid(rs, Parse0(input, chunkSize));
    } else if input[0] / 64 == 1 {
      StartMessageValid(rs, Parse1(input, chunkSize));
    } else if input[0] / 64 == 2 {
      StartMessageValid(rs, Parse2(input, Min(rs.bodyLen, chunkSize)));
    } else {
      StartMessageValid(rs, Parse3(input, Min(rs.bodyLen, chunkSize), rs.ext));
    }
  }
}
