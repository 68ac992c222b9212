/** The message layer: a whole conversation, with chunk sizes changing on both sides as it goes. */
module RtmpMessage {
  import opened Wrappers
  import opened ByteStreams
  import opened RtmpChunk
  import opened RtmpRawMessage
  import opened RtmpRoundTrip

  const CONTROL_CHUNK_STREAM: byte := 2
  const SET_CHUNK_SIZE: byte := 1
  const SET_WINDOW_ACK_SIZE: byte := 5

  // The two messages that change the transport, and every other one with its payload left as it is.
  datatype Msg = SetChunkSize(value: uint32) | SetWindowAckSize(value: uint32) | Other(raw: Message)

  function Marshal(m: Msg): Message {
    match m
    case SetChunkSize(v) => Message(CONTROL_CHUNK_STREAM, 0, SET_CHUNK_SIZE, 0, PutU32(v))
    case SetWindowAckSize(v) => Message(CONTROL_CHUNK_STREAM, 0, SET_WINDOW_ACK_SIZE, 0, PutU32(v))
    case Other(raw) => raw
  }

  // --- Decoding --------------------------------------------------------------------------------

  // Which decoder a message goes to.
  datatype Kind =
    | KindSetChunkSize
    | KindAcknowledge
    | KindSetWindowAckSize
    | KindSetPeerBandwidth
    | KindUserControl(code: int)
    | KindCommand
    | KindData
    | KindAudio
    | KindVideo
    | KindExtendedVideo(code: int)

  // The identifiers of AV1, VP9 and HEVC in extended video messages.
  const CODECS: seq<seq<byte>> := [[0x61, 0x76, 0x30, 0x31], [0x76, 0x70, 0x30, 0x39], [0x68, 0x76, 0x63, 0x31]]

  // allocateMessage: unknown types, and bodies too short to tell, are refused.
  function Allocate(raw: Message): Option<Kind> {
    match raw.typ
    case 1 => Some(KindSetChunkSize)
    case 3 => Some(KindAcknowledge)
    case 4 =>
      if |raw.body| < 2 then None
      else
        var code := raw.body[0] as int * 256 + raw.body[1] as int;
        if 0 <= code <= 7 && code != 5 then Some(KindUserControl(code)) else None
    case 5 => Some(KindSetWindowAckSize)
    case 6 => Some(KindSetPeerBandwidth)
    case 8 => Some(KindAudio)
    case 9 =>
      if |raw.body| < 5 then None
      else if raw.body[0] < 128 then Some(KindVideo)
      else if raw.body[1..5] in CODECS && raw.body[0] % 16 <= 5 then Some(KindExtendedVideo(raw.body[0] % 16))
      else None
    case 18 => Some(KindData)
    case 20 => Some(KindCommand)
    case _ => None
  }

  // The decoders of all messages but the two above: do they accept a message?
  type Decoder = Message -> bool

  // The layer's decoding of a raw message: allocateMessage, and then the decoder of that kind.
  function Unmarshal(d: Decoder, raw: Message): Result<Msg, ReadError> {
    match Allocate(raw)
    case None => Err(InvalidMessage)
    case Some(kind) =>
      if kind.KindSetChunkSize? || kind.KindSetWindowAckSize? then
        if raw.csid != CONTROL_CHUNK_STREAM || |raw.body| != 4 then Err(InvalidMessage)
        else
          var v := U32(raw.body[0], raw.body[1], raw.body[2], raw.body[3]);
          Ok(if kind.KindSetChunkSize? then SetChunkSize(v) else SetWindowAckSize(v))
      else if d(raw) then Ok(Other(raw))
      else Err(InvalidMessage)
  }

  // Messages the layer can write. A chunk size of 0 would make the writer loop forever on the next body.
  predicate Writable(m: Msg) {
    match m
    case SetChunkSize(v) => v >= 1
    case SetWindowAckSize(_) => true
    case Other(raw) => Sendable(raw) && raw.typ != SET_CHUNK_SIZE && raw.typ != SET_WINDOW_ACK_SIZE
  }

  ghost predicate AllWritable(ms: seq<Msg>) {
    forall m :: m in ms ==> Writable(m)
  }

  function NormalizeMsg(m: Msg): Msg {
    if m.Other? then Other(Normalize(m.raw)) else m
  }

  // What the reading side makes of a written message that has arrived.
  function Trouble(d: Decoder, m: Msg): Option<ReadError> {
    match m
    case SetChunkSize(v) => if v > MAX_BODY_SIZE then Some(ChunkSizeTooLarge) else None
    case SetWindowAckSize(_) => None
    case Other(raw) =>
      if Allocate(Normalize(raw)).None? || !d(Normalize(raw)) then Some(InvalidMessage) else None
  }

  function NormalizeAll(ms: seq<Msg>): (ns: seq<Msg>)
    ensures |ns| == |ms|
    ensures forall i :: 0 <= i < |ms| ==> ns[i] == NormalizeMsg(ms[i])
  {
    seq(|ms|, i requires 0 <= i < |ms| => NormalizeMsg(ms[i]))
  }

  lemma WritableIsSendable(m: Msg)
    requires Writable(m)
    ensures Sendable(Marshal(m))
  {
  }

  lemma WrittenIsUnmarshalled(d: Decoder, m: Msg)
    requires Writable(m)
    ensures Unmarshal(d, Normalize(Marshal(m)))
         == if m.Other? && Trouble(d, m).Some? then Err(InvalidMessage) else Ok(NormalizeMsg(m))
  {
    if !m.Other? {
      U32RoundTrip(m.value);
    }
  }

  // --- The two ends ----------------------------------------------------------------------------

  // Writer.Write: the chunk size changes after the message that announces it.
  function AfterMessage(w: WriterState, m: Msg): (w': WriterState)
    requires w.Valid() && w.chunkSize > 0 && Writable(m)
    ensures w'.Valid() && w'.chunkSize > 0
  {
    WritableIsSendable(m);
    var w' := Write(w, Marshal(m)).0;
    if m.SetChunkSize? then w'.(chunkSize := m.value) else w'
  }

  function WriteMsg(w: WriterState, m: Msg): seq<byte>
    requires w.Valid() && w.chunkSize > 0 && Writable(m)
  {
    WritableIsSendable(m);
    Flatten(Write(w, Marshal(m)).1)
  }

  // A writer and the messages it is about to write.
  ghost predicate Ready(w: WriterState, ms: seq<Msg>) {
    w.Valid() && w.chunkSize > 0 && AllWritable(ms)
  }

  lemma ReadyGoesOn(w: WriterState, ms: seq<Msg>)
    requires Ready(w, ms) && ms != []
    ensures Writable(ms[0]) && Ready(AfterMessage(w, ms[0]), ms[1..])
  {
  }

  function WriteAll(w: WriterState, ms: seq<Msg>): seq<byte>
    requires Ready(w, ms)
    decreases |ms|
  {
    if ms == [] then [] else WriteMsg(w, ms[0]) + WriteAll(AfterMessage(w, ms[0]), ms[1..])
  }

  // The writer's chunk size after each message.
  function WriterSizes(w: WriterState, ms: seq<Msg>): (sizes: seq<uint32>)
    requires Ready(w, ms)
    ensures |sizes| == |ms|
    decreases |ms|
  {
    if ms == [] then []
    else [AfterMessage(w, ms[0]).chunkSize] + WriterSizes(AfterMessage(w, ms[0]), ms[1..])
  }

  datatype MsgOutcome = MsgGot(r: ReaderState, msg: Msg, rest: seq<byte>) | MsgStuck(error: ReadError)

  // Reader.Read: the chunk size changes after the message that announces it.
  function ReadMsg(d: Decoder, r: ReaderState, input: seq<byte>): (o: MsgOutcome)
    requires r.Valid()
    ensures o.MsgGot? ==> o.r.Valid() && |o.rest| < |input|
  {
    match Read(r, input)
    case Stuck(e) => MsgStuck(e)
    case Got(r', raw, rest) =>
      match Unmarshal(d, raw)
      case Err(e) => MsgStuck(e)
      case Ok(m) =>
        if m.SetChunkSize? then
          if m.value > MAX_BODY_SIZE then MsgStuck(ChunkSizeTooLarge)
          else MsgGot(r'.(chunkSize := m.value), m, rest)
        else MsgGot(r', m, rest)
  }

  // All a reader gets out of an input: the messages, its chunk size after each, and what stopped it.
  datatype Transcript = Transcript(msgs: seq<Msg>, sizes: seq<uint32>, stoppedBy: ReadError)

  function Prepend(m: Msg, size: uint32, t: Transcript): Transcript {
    Transcript([m] + t.msgs, [size] + t.sizes, t.stoppedBy)
  }

  function ReadAll(d: Decoder, r: ReaderState, input: seq<byte>): Transcript
    requires r.Valid()
    decreases |input|
  {
    match ReadMsg(d, r, input)
    case MsgStuck(e) => Transcript([], [], e)
    case MsgGot(r', m, rest) =>
      Prepend(m, r'.chunkSize, ReadAll(d, r', rest))
  }

  // --- The conversation ------------------------------------------------------------------------

  // Both ends between two messages. `known` holds the chunk streams whose last message did not start
  // with a type 0 chunk: there, and only there, the reader has a timestamp delta to reuse.
  ghost predicate Linked(w: WriterState, r: ReaderState, known: set<byte>) {
    && w.Valid() && r.Valid() && w.chunkSize == r.chunkSize > 0
    && forall id: byte :: 2 <= id < 64 ==>
         InStep(w.Stream(id), r.Stream(id)) && (r.Stream(id).deltaAvailable <==> id in known)
  }

  function Known(w: WriterState, known: set<byte>, m: Message): set<byte>
    requires w.Valid()
  {
    if FirstType(w.Stream(m.csid), m) == 0 then known - {m.csid} else known + {m.csid}
  }

  // The writer repeats the previous delta although the chunk stream has just been restarted.
  predicate Refused(w: WriterState, known: set<byte>, m: Message)
    requires w.Valid()
  {
    FirstType(w.Stream(m.csid), m) == 3 && m.csid !in known
  }

  // Where the reader stops, and why: at the first message that is refused, or that the layer above cannot
  // take, or at the end.
  datatype Stop = Stop(at: nat, error: ReadError)

  function StopAt(d: Decoder, w: WriterState, known: set<byte>, ms: seq<Msg>): (s: Stop)
    requires Ready(w, ms)
    ensures s.at <= |ms|
    decreases |ms|
  {
    if ms == [] then Stop(0, EndOfInput)
    else if Refused(w, known, Marshal(ms[0])) then Stop(0, NoPreviousChunk)
    else if Trouble(d, ms[0]).Some? then Stop(0, Trouble(d, ms[0]).value)
    else
      var s := StopAt(d, AfterMessage(w, ms[0]), Known(w, known, Marshal(ms[0])), ms[1..]);
      Stop(1 + s.at, s.error)
  }

  lemma StreamAfter(w: WriterState, m: Msg, id: byte)
    requires w.Valid() && w.chunkSize > 0 && Writable(m)
    ensures Sendable(Marshal(m))
    ensures AfterMessage(w, m).Stream(id) ==
      if id == Marshal(m).csid then AfterFirstChunk(w.Stream(id), Marshal(m)) else w.Stream(id)
  {
    WritableIsSendable(m);
    hide AfterFirstChunk, MessageChunks;
  }

  lemma LinkedAfterMessage(w: WriterState, r: ReaderState, known: set<byte>, m: Msg, r': ReaderState)
    requires Linked(w, r, known) && Writable(m) && !Refused(w, known, Marshal(m))
    requires r'.streams == r.streams[Marshal(m).csid :=
               ReaderAfter(w.Stream(Marshal(m).csid), r.Stream(Marshal(m).csid), Marshal(m))]
    requires r'.chunkSize == if m.SetChunkSize? then m.value else r.chunkSize
    ensures Linked(AfterMessage(w, m), r', Known(w, known, Marshal(m)))
  {
    WritableIsSendable(m);
    assert AfterMessage(w, m).chunkSize == r'.chunkSize;
    hide ReaderAfter, FirstType, AfterFirstChunk, InStep, MessageChunks, AfterMessage;
    var raw := Marshal(m);
    var w' := AfterMessage(w, m);
    StreamAfter(w, m, raw.csid);
    ReaderAfterInStep(w.Stream(raw.csid), r.Stream(raw.csid), raw);
    InStepIsValid(w'.Stream(raw.csid), r'.Stream(raw.csid));
    forall id: byte | 2 <= id < 64
      ensures InStep(w'.Stream(id), r'.Stream(id))
      ensures r'.Stream(id).deltaAvailable <==> id in Known(w, known, raw)
    {
      StreamAfter(w, m, id);
      assert InStep(w.Stream(id), r.Stream(id));
    }
  }

  lemma InStepIsValid(ws: WriterStream, rs: ReaderStream)
    requires InStep(ws, rs)
    ensures ws.Valid() && rs.Valid()
  {
  }

  // One message that is not refused, and that the layer above can take, goes through, and both ends stay linked.
  lemma MessageGoesThrough(d: Decoder, w: WriterState, r: ReaderState, known: set<byte>, m: Msg, more: seq<byte>)
    returns (r': ReaderState)
    requires Linked(w, r, known) && Writable(m) && !Refused(w, known, Marshal(m)) && Trouble(d, m).None?
    ensures ReadMsg(d, r, WriteMsg(w, m) + more) == MsgGot(r', NormalizeMsg(m), more)
    ensures Linked(AfterMessage(w, m), r', Known(w, known, Marshal(m)))
    ensures r'.Valid() && r'.chunkSize == AfterMessage(w, m).chunkSize
  {
    hide Read, MessageChunks, Unmarshal, ReaderAfter, FirstType, AfterFirstChunk, Normalize;
    r' := RawGoesThrough(w, r, m, more);
    WrittenIsUnmarshalled(d, m);
    if m.SetChunkSize? {
      r' := r'.(chunkSize := m.value);
    }
    LinkedAfterMessage(w, r, known, m, r');
  }

  // One that the layer above cannot take still arrives, and stops the reader there.
  lemma TroubledMessageStops(d: Decoder, w: WriterState, r: ReaderState, known: set<byte>, m: Msg, more: seq<byte>)
    requires Linked(w, r, known) && Writable(m) && !Refused(w, known, Marshal(m)) && Trouble(d, m).Some?
    ensures ReadMsg(d, r, WriteMsg(w, m) + more) == MsgStuck(Trouble(d, m).value)
  {
    hide Read, MessageChunks, Unmarshal, ReaderAfter, FirstType, AfterFirstChunk, Normalize;
    var r' := RawGoesThrough(w, r, m, more);
    WrittenIsUnmarshalled(d, m);
  }

  // The raw message arrives either way.
  lemma RawGoesThrough(w: WriterState, r: ReaderState, m: Msg, more: seq<byte>) returns (r': ReaderState)
    requires w.Valid() && r.Valid() && w.chunkSize == r.chunkSize > 0 && Writable(m)
    requires InStep(w.Stream(Marshal(m).csid), r.Stream(Marshal(m).csid))
    requires FirstType(w.Stream(Marshal(m).csid), Marshal(m)) == 3 ==> r.Stream(Marshal(m).csid).deltaAvailable
    ensures r' == r.(streams := r.streams[Marshal(m).csid :=
                     ReaderAfter(w.Stream(Marshal(m).csid), r.Stream(Marshal(m).csid), Marshal(m))])
    ensures Read(r, WriteMsg(w, m) + more) == Got(r', Normalize(Marshal(m)), more)
  {
    WritableIsSendable(m);
    hide Assembles, Read, MessageChunks, ReaderAfter, FirstType, AfterFirstChunk, Normalize;
    var raw := Marshal(m);
    var ws, rs := w.Stream(raw.csid), r.Stream(raw.csid);
    var rs' := ReaderAfter(ws, rs, raw);
    MessageAssembles(ws, rs, w.chunkSize, raw);
    assert Normalize(raw).csid == raw.csid by { NormalizeKeepsStream(raw); }
    AssembledIsRead(r, MessageChunks(ws, w.chunkSize, raw), rs', Normalize(raw), more);
    r' := r.(streams := r.streams[raw.csid := rs']);
  }

  lemma NormalizeKeepsStream(raw: Message)
    ensures Normalize(raw).csid == raw.csid
  {
  }

  // A refused message stops the reader at its first byte.
  lemma RefusedMessageStops(d: Decoder, w: WriterState, r: ReaderState, known: set<byte>, m: Msg, more: seq<byte>)
    requires Linked(w, r, known) && Writable(m) && Refused(w, known, Marshal(m))
    ensures ReadMsg(d, r, WriteMsg(w, m) + more) == MsgStuck(NoPreviousChunk)
  {
    WritableIsSendable(m);
    var raw := Marshal(m);
    assert InStep(w.Stream(raw.csid), r.Stream(raw.csid));
    RefusedIsStuck(w.Stream(raw.csid), r, raw, w.chunkSize, more);
  }

  // The three ways the conversation goes on, each from what a single message does.
  lemma NothingLeft(d: Decoder, w: WriterState, r: ReaderState)
    requires Ready(w, []) && r.Valid()
    ensures ReadAll(d, r, WriteAll(w, [])) == Transcript([], [], EndOfInput)
  {
  }

  lemma StopsHere(d: Decoder, w: WriterState, r: ReaderState, known: set<byte>, ms: seq<Msg>)
    requires Linked(w, r, known) && Ready(w, ms) && ms != []
    requires Refused(w, known, Marshal(ms[0])) || Trouble(d, ms[0]).Some?
    ensures ReadAll(d, r, WriteAll(w, ms)) == Transcript([], [], StopAt(d, w, known, ms).error)
  {
    var more := WriteAll(AfterMessage(w, ms[0]), ms[1..]);
    if Refused(w, known, Marshal(ms[0])) {
      RefusedMessageStops(d, w, r, known, ms[0], more);
    } else {
      TroubledMessageStops(d, w, r, known, ms[0], more);
    }
    hide ReadMsg, WriteMsg, Linked, Refused, Trouble, AfterMessage, Writable;
  }

  lemma GoesOn(d: Decoder, w: WriterState, r: ReaderState, known: set<byte>, ms: seq<Msg>) returns (r': ReaderState)
    requires Linked(w, r, known) && Ready(w, ms) && ms != []
    requires !Refused(w, known, Marshal(ms[0])) && Trouble(d, ms[0]).None?
    ensures var w' := AfterMessage(w, ms[0]);
      && Linked(w', r', Known(w, known, Marshal(ms[0]))) && Ready(w', ms[1..])
      && r'.Valid() && r'.chunkSize == w'.chunkSize
      && ReadAll(d, r, WriteAll(w, ms))
         == Prepend(NormalizeMsg(ms[0]), r'.chunkSize, ReadAll(d, r', WriteAll(w', ms[1..])))
  {
    r' := MessageGoesThrough(d, w, r, known, ms[0], WriteAll(AfterMessage(w, ms[0]), ms[1..]));
    hide ReadMsg, WriteMsg, Linked, Refused, Trouble, Known, AfterMessage, Writable, NormalizeMsg;
  }

  // What the reader is expected to get, message by message.
  function Expected(d: Decoder, w: WriterState, known: set<byte>, ms: seq<Msg>): Transcript
    requires Ready(w, ms)
    decreases |ms|
  {
    if ms == [] || Refused(w, known, Marshal(ms[0])) || Trouble(d, ms[0]).Some? then
      Transcript([], [], StopAt(d, w, known, ms).error)
    else
      var w' := AfterMessage(w, ms[0]);
      Prepend(NormalizeMsg(ms[0]), w'.chunkSize, Expected(d, w', Known(w, known, Marshal(ms[0])), ms[1..]))
  }

  lemma {:induction false} ReadsExpected(d: Decoder, w: WriterState, r: ReaderState, known: set<byte>, ms: seq<Msg>)
    requires Linked(w, r, known) && Ready(w, ms)
    ensures ReadAll(d, r, WriteAll(w, ms)) == Expected(d, w, known, ms)
    decreases |ms|
  {
    assert w.Valid() && r.Valid() && (ms != [] ==> Writable(ms[0]) && w.chunkSize > 0);
    hide ReadAll, WriteAll, Known, AfterMessage, NormalizeMsg, Linked, Refused, Trouble, Ready, AllWritable, Writable;
    if ms == [] {
      NothingLeft(d, w, r);
    } else if Refused(w, known, Marshal(ms[0])) || Trouble(d, ms[0]).Some? {
      StopsHere(d, w, r, known, ms);
    } else {
      var r' := GoesOn(d, w, r, known, ms);
      ReadsExpected(d, AfterMessage(w, ms[0]), r', Known(w, known, Marshal(ms[0])), ms[1..]);
    }
  }

  lemma {:induction false} ExpectedMessages(d: Decoder, w: WriterState, known: set<byte>, ms: seq<Msg>)
    requires Ready(w, ms)
    ensures var Stop(k, error) := StopAt(d, w, known, ms);
      Expected(d, w, known, ms) == Transcript(NormalizeAll(ms[..k]), WriterSizes(w, ms)[..k], error)
    decreases |ms|
  {
    if ms == [] || Refused(w, known, Marshal(ms[0])) || Trouble(d, ms[0]).Some? {
      assert NormalizeAll(ms[..0]) == [];
    } else {
      ReadyGoesOn(w, ms);
      var w', known' := AfterMessage(w, ms[0]), Known(w, known, Marshal(ms[0]));
      hide Known, AfterMessage, NormalizeAll, NormalizeMsg, Refused, Trouble, Ready, AllWritable, Writable;
      ExpectedMessages(d, w', known', ms[1..]);
      var k := StopAt(d, w', known', ms[1..]).at;
      NormalizeAllStep(ms, k);
      TakeCons(w'.chunkSize, WriterSizes(w', ms[1..]), k);
    }
  }

  lemma NormalizeAllStep(ms: seq<Msg>, k: nat)
    requires k < |ms|
    ensures NormalizeAll(ms[..1 + k]) == [NormalizeMsg(ms[0])] + NormalizeAll(ms[1..][..k])
  {
  }

  lemma TakeCons<T>(x: T, s: seq<T>, k: nat)
    requires k <= |s|
    ensures ([x] + s)[..1 + k] == [x] + s[..k]
  {
  }

  // For every list of messages: the reader gets exactly the messages before the first one that is refused
  // or that the layer above cannot take, its chunk size equal to the writer's after each of them, and then
  // the error of that message, or the end of the input.
  lemma Conversation(d: Decoder, w: WriterState, r: ReaderState, known: set<byte>, ms: seq<Msg>)
    requires Linked(w, r, known) && Ready(w, ms)
    ensures var Stop(k, error) := StopAt(d, w, known, ms);
      ReadAll(d, r, WriteAll(w, ms)) == Transcript(NormalizeAll(ms[..k]), WriterSizes(w, ms)[..k], error)
  {
    ReadsExpected(d, w, r, known, ms);
    ExpectedMessages(d, w, known, ms);
  }

  // Two new ends are linked, and no chunk stream has a delta yet.
  lemma NewEndsLinked(ms: seq<Msg>)
    requires AllWritable(ms)
    ensures Linked(NEW_WRITER, NEW_READER, {}) && Ready(NEW_WRITER, ms)
  {
  }

  // --- When nothing is refused -----------------------------------------------------------------

  // On each chunk stream time does not go backwards and the message stream does not change.
  ghost predicate InOrder(ms: seq<Msg>) {
    forall i, j :: 0 <= i < j < |ms| ==> Follows(Marshal(ms[i]), Marshal(ms[j]))
  }

  ghost predicate Follows(m: Message, n: Message) {
    m.csid == n.csid ==> m.msid == n.msid && Milliseconds(m.timestamp) <= Milliseconds(n.timestamp)
  }

  ghost predicate Continues(ws: WriterStream, n: Message)
    requires ws.Valid()
  {
    ws.lastMsid.Some? ==> ws.lastMsid.value == n.msid && ws.lastTimestamp.value <= Milliseconds(n.timestamp)
  }

  // The first message the layer above cannot take, whatever the chunks are.
  function FirstTrouble(d: Decoder, ms: seq<Msg>): (s: Stop)
    ensures s.at <= |ms|
    ensures s.at < |ms| ==> Trouble(d, ms[s.at]) == Some(s.error)
    ensures s.at == |ms| ==> s.error == EndOfInput && forall m :: m in ms ==> Trouble(d, m).None?
  {
    if ms == [] then Stop(0, EndOfInput)
    else if Trouble(d, ms[0]).Some? then Stop(0, Trouble(d, ms[0]).value)
    else
      var s := FirstTrouble(d, ms[1..]);
      Stop(1 + s.at, s.error)
  }

  // In that order no first chunk is refused: only the layer above can stop the reader.
  lemma {:induction false} InOrderIsNeverRefused(d: Decoder, w: WriterState, known: set<byte>, ms: seq<Msg>)
    requires Ready(w, ms) && InOrder(ms)
    requires forall m :: m in ms ==> Continues(w.Stream(Marshal(m).csid), Marshal(m))
    requires forall id: byte :: w.Stream(id).lastDelta.Some? ==> id in known
    ensures StopAt(d, w, known, ms) == FirstTrouble(d, ms)
    decreases |ms|
  {
    if ms != [] {
      var m := Marshal(ms[0]);
      var w', known' := AfterMessage(w, ms[0]), Known(w, known, m);
      assert Continues(w.Stream(m.csid), m);
      forall n | n in ms[1..]
        ensures Continues(w'.Stream(Marshal(n).csid), Marshal(n))
      {
        var i :| 0 <= i < |ms[1..]| && ms[1..][i] == n;
        assert ms[1 + i] == n && Follows(m, Marshal(ms[1 + i]));
      }
      hide Trouble;
      InOrderIsNeverRefused(d, w', known', ms[1..]);
    }
  }

  // Every conversation that keeps to that order is read back up to the first message the layer above
  // cannot take, and whole when it can take them all.
  lemma OrderedConversation(d: Decoder, ms: seq<Msg>)
    requires AllWritable(ms) && InOrder(ms)
    ensures Ready(NEW_WRITER, ms)
    ensures var Stop(k, error) := FirstTrouble(d, ms);
      ReadAll(d, NEW_READER, WriteAll(NEW_WRITER, ms))
      == Transcript(NormalizeAll(ms[..k]), WriterSizes(NEW_WRITER, ms)[..k], error)
    ensures (forall m :: m in ms ==> Trouble(d, m).None?)
      ==> ReadAll(d, NEW_READER, WriteAll(NEW_WRITER, ms))
          == Transcript(NormalizeAll(ms), WriterSizes(NEW_WRITER, ms), EndOfInput)
  {
    hide ReadAll, WriteAll, WriterSizes, NormalizeAll, StopAt, InOrder, Ready, AllWritable, Linked, Marshal, Trouble;
    NewEndsLinked(ms);
    Conversation(d, NEW_WRITER, NEW_READER, {}, ms);
    InOrderIsNeverRefused(d, NEW_WRITER, {}, ms);
    assert ms[..|ms|] == ms && WriterSizes(NEW_WRITER, ms)[..|ms|] == WriterSizes(NEW_WRITER, ms);
  }

  // Right after a restart of its chunk stream, a message is refused exactly when it repeats the message
  // stream, type and length of the restarting one, after the delta the writer still remembers.
  lemma RefusedAfterRestart(w: WriterState, known: set<byte>, m: Message, n: Message)
    requires w.Valid() && w.chunkSize > 0 && Sendable(m) && Sendable(n) && n.csid == m.csid
    requires FirstType(w.Stream(m.csid), m) == 0
    ensures var last := w.Stream(m.csid);
      var at, next := Milliseconds(m.timestamp), Milliseconds(n.timestamp);
      var remembered := if last.lastTimestamp.Some? && last.lastTimestamp.value <= at
                        then Some(at - last.lastTimestamp.value) else last.lastDelta;
      Refused(Write(w, m).0, Known(w, known, m), n)
      <==> n.msid == m.msid && n.typ == m.typ && |n.body| == |m.body|
           && at <= next && remembered == Some(next - at)
  {
  }

  function At(body: seq<byte>, ms: nat): Message {
    Message(4, ms * MILLISECOND, 8, 1, body)
  }

  // Going back in time once is enough: at 0, 10, 5 and 15 ms the first chunks have types 0, 2, 0 and 3,
  // and the last one repeats the delta that the type 0 chunk before it made the reader forget.
  lemma BackwardTimestampIsRefused(body: seq<byte>)
    requires |body| <= MAX_BODY_SIZE
    ensures var ws1 := AfterFirstChunk(NEW_WRITER_STREAM, At(body, 0));
      var ws2 := AfterFirstChunk(ws1, At(body, 10));
      var ws3 := AfterFirstChunk(ws2, At(body, 5));
      && FirstType(NEW_WRITER_STREAM, At(body, 0)) == 0 && FirstType(ws1, At(body, 10)) == 2
      && FirstType(ws2, At(body, 5)) == 0 && FirstType(ws3, At(body, 15)) == 3
  {
  }

  // Whatever decoder takes these messages, the reader gets the first three of them, and then an error.
  lemma BackwardConversation(d: Decoder, body: seq<byte>)
    requires |body| <= MAX_BODY_SIZE
    requires forall t :: t in [0, 5, 10] ==> d(Normalize(At(body, t)))
    ensures var before := [Other(At(body, 0)), Other(At(body, 10)), Other(At(body, 5))];
      var ms := before + [Other(At(body, 15))];
      && AllWritable(ms) && Ready(NEW_WRITER, ms)
      && ReadAll(d, NEW_READER, WriteAll(NEW_WRITER, ms)).msgs == NormalizeAll(before)
      && ReadAll(d, NEW_READER, WriteAll(NEW_WRITER, ms)).stoppedBy == NoPreviousChunk
  {
    var before := [Other(At(body, 0)), Other(At(body, 10)), Other(At(body, 5))];
    var ms := before + [Other(At(body, 15))];
    NewEndsLinked(ms);
    Conversation(d, NEW_WRITER, NEW_READER, {}, ms);
    BackwardStops(d, body);
    hide ReadAll, WriteAll, StopAt, WriterSizes, NormalizeAll;
    assert ms == [Other(At(body, 0)), Other(At(body, 10)), Other(At(body, 5)), Other(At(body, 15))];
    assert ms[..3] == before;
  }

  lemma StopAtStep(d: Decoder, w: WriterState, known: set<byte>, raw: Message, rest: seq<Msg>)
    requires Ready(w, [Other(raw)] + rest)
    ensures Writable(Other(raw)) && Ready(AfterMessage(w, Other(raw)), rest)
    ensures AfterMessage(w, Other(raw)).Stream(raw.csid) == AfterFirstChunk(w.Stream(raw.csid), raw)
    ensures Refused(w, known, raw) ==> StopAt(d, w, known, [Other(raw)] + rest) == Stop(0, NoPreviousChunk)
    ensures !Refused(w, known, raw) && Trouble(d, Other(raw)).None?
      ==> var s := StopAt(d, AfterMessage(w, Other(raw)), Known(w, known, raw), rest);
          StopAt(d, w, known, [Other(raw)] + rest) == Stop(1 + s.at, s.error)
  {
    hide FirstType, AfterFirstChunk, MessageChunks, Trouble;
    var ms := [Other(raw)] + rest;
    assert ms[0] == Other(raw) && ms[1..] == rest;
    ReadyGoesOn(w, ms);
  }

  lemma AudioIsTaken(d: Decoder, body: seq<byte>, t: nat)
    requires d(Normalize(At(body, t)))
    ensures Trouble(d, Other(At(body, t))).None?
  {
  }

  lemma BackwardEnd(d: Decoder, w: WriterState, body: seq<byte>)
    requires |body| <= MAX_BODY_SIZE && Ready(w, [Other(At(body, 5)), Other(At(body, 15))])
    requires d(Normalize(At(body, 5)))
    requires w.Stream(4) == AfterFirstChunk(AfterFirstChunk(NEW_WRITER_STREAM, At(body, 0)), At(body, 10))
    ensures StopAt(d, w, {4}, [Other(At(body, 5)), Other(At(body, 15))]) == Stop(1, NoPreviousChunk)
  {
    AudioIsTaken(d, body, 5);
    BackwardTimestampIsRefused(body);
    hide Ready, Writable, AfterMessage, FirstType, AfterFirstChunk, StopAt, Trouble, Normalize;
    assert [Other(At(body, 5)), Other(At(body, 15))] == [Other(At(body, 5))] + [Other(At(body, 15))];
    assert [Other(At(body, 15))] + [] == [Other(At(body, 15))];
    StopAtStep(d, w, {4}, At(body, 5), [Other(At(body, 15))]);
    assert Known(w, {4}, At(body, 5)) == {};
    StopAtStep(d, AfterMessage(w, Other(At(body, 5))), {}, At(body, 15), []);
  }

  lemma BackwardStops(d: Decoder, body: seq<byte>)
    requires |body| <= MAX_BODY_SIZE
    requires forall t :: t in [0, 5, 10] ==> d(Normalize(At(body, t)))
    ensures var ms := [Other(At(body, 0)), Other(At(body, 10)), Other(At(body, 5)), Other(At(body, 15))];
      Ready(NEW_WRITER, ms) && StopAt(d, NEW_WRITER, {}, ms) == Stop(3, NoPreviousChunk)
  {
    AudioIsTaken(d, body, 0);
    AudioIsTaken(d, body, 10);
    assert 5 in [0, 5, 10];
    var end := [Other(At(body, 5)), Other(At(body, 15))];
    var ms := [Other(At(body, 0)), Other(At(body, 10)), Other(At(body, 5)), Other(At(body, 15))];
    assert Ready(NEW_WRITER, ms);
    BackwardTimestampIsRefused(body);
    hide Ready, Writable, AfterMessage, FirstType, AfterFirstChunk, StopAt, Trouble, Normalize;
    assert ms == [Other(At(body, 0))] + ([Other(At(body, 10))] + end);
    StopAtStep(d, NEW_WRITER, {}, At(body, 0), [Other(At(body, 10))] + end);
    var w1 := AfterMessage(NEW_WRITER, Other(At(body, 0)));
    StopAtStep(d, w1, {}, At(body, 10), end);
    assert Known(NEW_WRITER, {}, At(body, 0)) == {} && Known(w1, {}, At(body, 10)) == {4};
    BackwardEnd(d, AfterMessage(w1, Other(At(body, 10))), body);
  }
}
