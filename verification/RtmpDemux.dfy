/** Chunks of different chunk streams, interleaved in any order, do not disturb each other. */
module RtmpDemux {
  import opened ByteStreams
  import opened RtmpChunk
  import opened RtmpRawMessage
  import opened RtmpRoundTrip

  // A list of chunks is read to its last byte, or not.
  datatype StreamRun = Ran(rs: ReaderStream, messages: seq<Message>) | Broken

  datatype ReaderRun = ReaderRan(r: ReaderState, messages: seq<Message>) | ReaderBroken

  predicate IsChunk(chunk: seq<byte>) {
    chunk != [] && chunk[0] % 64 >= 2
  }

  predicate AreChunks(chunks: seq<seq<byte>>) {
    forall i :: 0 <= i < |chunks| ==> IsChunk(chunks[i])
  }

  function Arrived(id: byte, o: ChunkOutcome): seq<Message>
    requires !o.Failed?
  {
    if o.Delivered? then [Message(id, o.timestamp, o.typ, o.msid, o.body)] else []
  }

  // The chunks of one chunk stream, read alone.
  function RunStream(id: byte, rs: ReaderStream, chunkSize: uint32, chunks: seq<seq<byte>>): StreamRun
    requires rs.Valid() && AreChunks(chunks)
    decreases |chunks|
  {
    if chunks == [] then Ran(rs, []) else
      StepStreamValid(rs, chunkSize, chunks[0]);
      var o := StepStream(rs, chunkSize, chunks[0]);
      if o.Failed? || o.rest != [] then Broken else
        match RunStream(id, o.rs, chunkSize, chunks[1..])
        case Broken => Broken
        case Ran(rs', messages) => Ran(rs', Arrived(id, o) + messages)
  }

  // Chunks of any chunk streams, read by the reader.
  function RunReader(r: ReaderState, chunks: seq<seq<byte>>): ReaderRun
    requires r.Valid() && AreChunks(chunks)
    decreases |chunks|
  {
    if chunks == [] then ReaderRan(r, []) else
      var id: byte := chunks[0][0] % 64;
      StepStreamValid(r.Stream(id), r.chunkSize, chunks[0]);
      var o := StepStream(r.Stream(id), r.chunkSize, chunks[0]);
      if o.Failed? || o.rest != [] then ReaderBroken else
        match RunReader(r.(streams := r.streams[id := o.rs]), chunks[1..])
        case ReaderBroken => ReaderBroken
        case ReaderRan(r', messages) => ReaderRan(r', Arrived(id, o) + messages)
  }

  // The chunks, and the messages, of one chunk stream, in their order.
  function Select(chunks: seq<seq<byte>>, id: byte): (selected: seq<seq<byte>>)
    requires AreChunks(chunks)
    ensures AreChunks(selected)
  {
    if chunks == [] then []
    else (if chunks[0][0] % 64 == id then [chunks[0]] else []) + Select(chunks[1..], id)
  }

  function MessagesOf(messages: seq<Message>, id: byte): seq<Message> {
    if messages == [] then []
    else (if messages[0].csid == id then [messages[0]] else []) + MessagesOf(messages[1..], id)
  }

  lemma MessagesOfArrived(k: byte, o: ChunkOutcome, messages: seq<Message>, id: byte)
    requires !o.Failed?
    ensures MessagesOf(Arrived(k, o) + messages, id)
         == (if k == id then Arrived(k, o) else []) + MessagesOf(messages, id)
  {
    if o.Delivered? {
      assert (Arrived(k, o) + messages)[1..] == messages;
    } else {
      assert Arrived(k, o) + messages == messages;
    }
  }

  lemma SelectStep(chunks: seq<seq<byte>>, id: byte)
    requires AreChunks(chunks) && chunks != []
    ensures Select(chunks, id)
         == if chunks[0][0] % 64 == id then [chunks[0]] + Select(chunks[1..], id) else Select(chunks[1..], id)
    ensures chunks[0][0] % 64 == id ==> Select(chunks, id)[1..] == Select(chunks[1..], id)
  {
  }

  // One chunk of the mix: its own chunk stream moves on.
  lemma FirstOfMix(r: ReaderState, chunks: seq<seq<byte>>)
    requires r.Valid() && AreChunks(chunks) && chunks != []
    requires RunReader(r, chunks).ReaderRan?
    ensures var k: byte := chunks[0][0] % 64;
      var o := StepStream(r.Stream(k), r.chunkSize, chunks[0]);
      && !o.Failed? && o.rest == [] && o.rs.Valid()
      && var r1 := r.(streams := r.streams[k := o.rs]);
      && r1.Valid() && RunReader(r1, chunks[1..]).ReaderRan?
      && RunReader(r, chunks)
         == ReaderRan(RunReader(r1, chunks[1..]).r, Arrived(k, o) + RunReader(r1, chunks[1..]).messages)
  {
    hide StepStream;
    var k: byte := chunks[0][0] % 64;
    StepStreamValid(r.Stream(k), r.chunkSize, chunks[0]);
  }

  lemma FirstAlone(id: byte, rs: ReaderStream, chunkSize: uint32, chunks: seq<seq<byte>>)
    requires rs.Valid() && AreChunks(chunks) && chunks != []
    requires var o := StepStream(rs, chunkSize, chunks[0]); !o.Failed? && o.rest == [] && o.rs.Valid()
    requires RunStream(id, StepStream(rs, chunkSize, chunks[0]).rs, chunkSize, chunks[1..]).Ran?
    ensures var o := StepStream(rs, chunkSize, chunks[0]);
      var run := RunStream(id, o.rs, chunkSize, chunks[1..]);
      RunStream(id, rs, chunkSize, chunks) == Ran(run.rs, Arrived(id, o) + run.messages)
  {
    hide StepStream, Arrived;
  }

  // Reading chunk stream `id` out of the mix is reading its chunks alone.
  lemma {:induction false} OneStreamOfMany(r: ReaderState, chunks: seq<seq<byte>>, id: byte)
    requires r.Valid() && AreChunks(chunks)
    requires RunReader(r, chunks).ReaderRan?
    ensures var run := RunReader(r, chunks);
      RunStream(id, r.Stream(id), r.chunkSize, Select(chunks, id))
      == Ran(run.r.Stream(id), MessagesOf(run.messages, id))
    decreases |chunks|
  {
    if chunks != [] {
      SelectStep(chunks, id);
      FirstOfMix(r, chunks);
      hide StepStream, Select, MessagesOf, RunReader, RunStream, Arrived;
      var k: byte := chunks[0][0] % 64;
      var o := StepStream(r.Stream(k), r.chunkSize, chunks[0]);
      var r1 := r.(streams := r.streams[k := o.rs]);
      OneStreamOfMany(r1, chunks[1..], id);
      MessagesOfArrived(k, o, RunReader(r1, chunks[1..]).messages, id);
      if k == id {
        assert r1.Stream(id) == o.rs;
        FirstAlone(id, r.Stream(id), r.chunkSize, Select(chunks, id));
      } else {
        assert r1.Stream(id) == r.Stream(id);
      }
    } else {
      assert Select(chunks, id) == [] && MessagesOf([], id) == [];
    }
  }

  // If each chunk stream can be read alone, the mix can be read.
  lemma {:induction false} ManyStreamsRun(r: ReaderState, chunks: seq<seq<byte>>)
    requires r.Valid() && AreChunks(chunks)
    requires forall id: byte :: RunStream(id, r.Stream(id), r.chunkSize, Select(chunks, id)).Ran?
    ensures RunReader(r, chunks).ReaderRan?
    decreases |chunks|
  {
    if chunks != [] {
      var k: byte := chunks[0][0] % 64;
      SelectStep(chunks, k);
      hide StepStream;
      StepStreamValid(r.Stream(k), r.chunkSize, chunks[0]);
      var o := StepStream(r.Stream(k), r.chunkSize, chunks[0]);
      assert RunStream(k, r.Stream(k), r.chunkSize, Select(chunks, k)).Ran?;
      var r1 := r.(streams := r.streams[k := o.rs]);
      forall id: byte
        ensures RunStream(id, r1.Stream(id), r1.chunkSize, Select(chunks[1..], id)).Ran?
      {
        assert RunStream(id, r.Stream(id), r.chunkSize, Select(chunks, id)).Ran?;
        SelectStep(chunks, id);
      }
      ManyStreamsRun(r1, chunks[1..]);
    }
  }

  // Demultiplexing: a mix is readable exactly when every chunk stream alone is, and then the reader
  // delivers, for each chunk stream, the messages that stream alone delivers.
  lemma Demultiplex(r: ReaderState, chunks: seq<seq<byte>>)
    requires r.Valid() && AreChunks(chunks)
    ensures RunReader(r, chunks).ReaderRan?
       <==> forall id: byte :: RunStream(id, r.Stream(id), r.chunkSize, Select(chunks, id)).Ran?
    ensures RunReader(r, chunks).ReaderRan? ==>
      forall id: byte :: RunStream(id, r.Stream(id), r.chunkSize, Select(chunks, id)).messages
                         == MessagesOf(RunReader(r, chunks).messages, id)
  {
    if RunReader(r, chunks).ReaderRan? {
      forall id: byte
        ensures RunStream(id, r.Stream(id), r.chunkSize, Select(chunks, id))
             == Ran(RunReader(r, chunks).r.Stream(id), MessagesOf(RunReader(r, chunks).messages, id))
      {
        OneStreamOfMany(r, chunks, id);
      }
    } else if forall id: byte :: RunStream(id, r.Stream(id), r.chunkSize, Select(chunks, id)).Ran? {
      ManyStreamsRun(r, chunks);
    }
  }

  // --- The same on bytes -----------------------------------------------------------------------

  // Reader.Read called until it fails.
  function ReadMany(r: ReaderState, input: seq<byte>): (result: (seq<Message>, ReadError))
    requires r.Valid()
    decreases |input|
  {
    match Read(r, input)
    case Stuck(e) => ([], e)
    case Got(r', m, rest) => var (ms, e) := ReadMany(r', rest); ([m] + ms, e)
  }

  lemma ReadManyStep(r: ReaderState, input: seq<byte>)
    requires r.Valid()
    ensures match StepReader(r, input)
      case More(r1, rest) => ReadMany(r, input) == ReadMany(r1, rest)
      case Got(r1, m, rest) =>
        ReadMany(r, input).0 == [m] + ReadMany(r1, rest).0 && ReadMany(r, input).1 == ReadMany(r1, rest).1
      case Stuck(e) => ReadMany(r, input).0 == [] && ReadMany(r, input).1 == e
  {
    hide StepReader;
  }

  lemma {:induction false} RunIsRead(r: ReaderState, chunks: seq<seq<byte>>)
    requires r.Valid() && AreChunks(chunks)
    requires RunReader(r, chunks).ReaderRan?
    ensures ReadMany(r, Flatten(chunks)).0 == RunReader(r, chunks).messages
    ensures ReadMany(r, Flatten(chunks)).1 == EndOfInput
    decreases |chunks|
  {
    ReadManyStep(r, Flatten(chunks));
    if chunks == [] {
      assert StepReader(r, Flatten(chunks)) == Stuck(EndOfInput);
    } else {
      hide StepStream, StepReader, ReadMany;
      var id: byte := chunks[0][0] % 64;
      StepStreamValid(r.Stream(id), r.chunkSize, chunks[0]);
      StepReaderOn(r, chunks[0], Flatten(chunks[1..]));
      var o := StepStream(r.Stream(id), r.chunkSize, chunks[0]);
      RunIsRead(r.(streams := r.streams[id := o.rs]), chunks[1..]);
    }
  }

  // --- The writer's chunks, interleaved --------------------------------------------------------

  predicate AllSendable(ms: seq<Message>) {
    forall i :: 0 <= i < |ms| ==> Sendable(ms[i])
  }

  // All the chunks of a list of messages on one chunk stream.
  function StreamChunks(ws: WriterStream, chunkSize: uint32, ms: seq<Message>): seq<seq<byte>>
    requires ws.Valid() && chunkSize > 0 && AllSendable(ms)
    decreases |ms|
  {
    if ms == [] then []
    else MessageChunks(ws, chunkSize, ms[0]) + StreamChunks(AfterFirstChunk(ws, ms[0]), chunkSize, ms[1..])
  }

  // No message repeats a delta right after a restart of the chunk stream.
  predicate NeverRefused(ws: WriterStream, known: bool, ms: seq<Message>)
    requires ws.Valid() && AllSendable(ms)
    decreases |ms|
  {
    ms == [] ||
    (var typ := FirstType(ws, ms[0]);
     !(typ == 3 && !known) && NeverRefused(AfterFirstChunk(ws, ms[0]), typ != 0, ms[1..]))
  }

  function NormalizeEach(ms: seq<Message>): seq<Message> {
    if ms == [] then [] else [Normalize(ms[0])] + NormalizeEach(ms[1..])
  }

  lemma {:induction false} AssembledIsRun(id: byte, rs: ReaderStream, chunkSize: uint32, chunks: seq<seq<byte>>,
                                          rs': ReaderStream, m: Message, more: seq<seq<byte>>)
    requires rs.Valid() && m.csid == id >= 2 && Assembles(rs, chunkSize, chunks, rs', m)
    requires AreChunks(more)
    ensures rs'.Valid() && AreChunks(chunks + more)
    ensures var run := RunStream(id, rs', chunkSize, more);
      RunStream(id, rs, chunkSize, chunks + more) == if run.Broken? then Broken else Ran(run.rs, [m] + run.messages)
    decreases |chunks|
  {
    hide StepStream;
    var o := StepStream(rs, chunkSize, chunks[0]);
    StepStreamValid(rs, chunkSize, chunks[0]);
    assert (chunks + more)[0] == chunks[0] && (chunks + more)[1..] == chunks[1..] + more;
    if |chunks| == 1 {
      assert chunks[1..] + more == more;
    } else {
      AssembledIsRun(id, o.rs, chunkSize, chunks[1..], rs', m, more);
      assert chunks + more == [chunks[0]] + (chunks[1..] + more);
    }
  }

  lemma {:induction false} StreamChunksRun(id: byte, ws: WriterStream, rs: ReaderStream, chunkSize: uint32, ms: seq<Message>)
    requires InStep(ws, rs) && chunkSize > 0
    requires AllSendable(ms) && forall i :: 0 <= i < |ms| ==> ms[i].csid == id
    requires NeverRefused(ws, rs.deltaAvailable, ms)
    ensures var chunks := StreamChunks(ws, chunkSize, ms);
      && (AreChunks(chunks))
      && RunStream(id, rs, chunkSize, chunks).Ran?
      && RunStream(id, rs, chunkSize, chunks).messages == NormalizeEach(ms)
    decreases |ms|
  {
    if ms != [] {
      var m := ms[0];
      var ws1, rs1 := AfterFirstChunk(ws, m), ReaderAfter(ws, rs, m);
      ReaderAfterInStep(ws, rs, m);
      MessageAssembles(ws, rs, chunkSize, m);
      hide InStep, Assembles, MessageChunks, ReaderAfter, AfterFirstChunk, FirstType;
      StreamChunksRun(id, ws1, rs1, chunkSize, ms[1..]);
      AssembledIsRun(id, rs, chunkSize, MessageChunks(ws, chunkSize, m), rs1, Normalize(m),
                     StreamChunks(ws1, chunkSize, ms[1..]));
    }
  }

  // However the chunks that writers produce on their chunk streams are interleaved, a reader with the
  // same chunk size delivers on each chunk stream the messages sent there.
  lemma InterleavedWriters(sent: map<byte, seq<Message>>, chunkSize: uint32, chunks: seq<seq<byte>>)
    requires chunkSize > 0 && AreChunks(chunks)
    requires forall id: byte :: id in sent ==> AllSendable(sent[id]) && forall i :: 0 <= i < |sent[id]| ==> sent[id][i].csid == id
    requires forall id :: id in sent ==> NeverRefused(NEW_WRITER_STREAM, false, sent[id])
    requires forall id: byte :: Select(chunks, id)
               == if id in sent then StreamChunks(NEW_WRITER_STREAM, chunkSize, sent[id]) else []
    ensures ReadMany(ReaderState(chunkSize, map[]), Flatten(chunks)).1 == EndOfInput
    ensures var received := ReadMany(ReaderState(chunkSize, map[]), Flatten(chunks)).0;
      forall id: byte :: MessagesOf(received, id) == if id in sent then NormalizeEach(sent[id]) else []
  {
    var r := ReaderState(chunkSize, map[]);
    forall id: byte
      ensures var run := RunStream(id, r.Stream(id), chunkSize, Select(chunks, id));
        run.Ran? && run.messages == if id in sent then NormalizeEach(sent[id]) else []
    {
      if id in sent {
        StreamChunksRun(id, NEW_WRITER_STREAM, NEW_READER_STREAM, chunkSize, sent[id]);
      }
    }
    Demultiplex(r, chunks);
    RunIsRead(r, chunks);
  }
}
