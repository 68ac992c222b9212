/** The raw message writer as the server runs it: chunk stream objects updated in place. */
module RtmpWriter {
  import opened Wrappers
  import opened ByteStreams
  import opened RtmpChunk
  import Io = RtmpChunkIo
  import Raw = RtmpRawMessage

  // One chunk stream on the writing side.
  class WriterChunkStream {
    ghost const id: byte
    var lastMessageStreamID: Option<uint32>
    var lastType: Option<byte>
    var lastBodyLen: Option<uint32>
    var lastTimestamp: Option<int>
    var lastTimestampDelta: Option<int>
    var hasExtendedTimestamp: bool

    constructor (ghost id: byte)
      ensures State() == Raw.NEW_WRITER_STREAM && this.id == id
    {
      this.id := id;
      lastMessageStreamID, lastType, lastBodyLen := None, None, None;
      lastTimestamp, lastTimestampDelta, hasExtendedTimestamp := None, None, false;
    }

    ghost function State(): Raw.WriterStream
      reads this
    {
      Raw.WriterStream(lastMessageStreamID, lastType, lastBodyLen, lastTimestamp, lastTimestampDelta,
                       hasExtendedTimestamp)
    }

    // The first chunk of a message, in the format the previous messages allow.
    method WriteFirstChunk(mw: Writer, msg: Raw.Message, timestamp: int, timestampDelta: Option<int>, piece: seq<byte>)
      requires State().Valid() && |msg.body| < 0x1_0000_0000
      requires timestamp == Raw.Milliseconds(msg.timestamp)
      requires timestampDelta == Raw.Delta(State(), timestamp)
      modifies this, mw`out
      ensures mw.out == old(mw.out) + Marshal(Raw.FirstChunk(old(State()), msg, piece), old(hasExtendedTimestamp))
      ensures State() == Raw.AfterFirstChunk(old(State()), msg)
    {
      var buf;
      if lastMessageStreamID.None? || timestampDelta.None? || lastMessageStreamID.value != msg.msid {
        var ts := Wrap32(timestamp);
        var c := new Io.Chunk0(Type0(msg.csid, ts, |msg.body|, msg.typ, msg.msid, piece));
        buf := c.Marshal();
        hasExtendedTimestamp := ts >= EXTENDED;
      } else if lastType.value != msg.typ || lastBodyLen.value != |msg.body| {
        var ts := Wrap32(timestampDelta.value);
        var c := new Io.Chunk1(Type1(msg.csid, ts, |msg.body|, msg.typ, piece));
        buf := c.Marshal();
        hasExtendedTimestamp := ts >= EXTENDED;
      } else if lastTimestampDelta.None? || lastTimestampDelta.value != timestampDelta.value {
        var ts := Wrap32(timestampDelta.value);
        var c := new Io.Chunk2(Type2(msg.csid, ts, piece));
        buf := c.Marshal();
        hasExtendedTimestamp := ts >= EXTENDED;
      } else {
        var c := new Io.Chunk3(Type3(msg.csid, piece));
        buf := c.Marshal(hasExtendedTimestamp);
      }
      mw.out := mw.out + buf[..];
      lastMessageStreamID, lastType, lastBodyLen := Some(msg.msid), Some(msg.typ), Some(|msg.body|);
      lastTimestamp := Some(timestamp);
      if timestampDelta.Some? {
        lastTimestampDelta := timestampDelta;
      }
    }

    // A later chunk of a message.
    method WriteContinuation(mw: Writer, csid: byte, piece: seq<byte>)
      modifies mw`out
      ensures mw.out == old(mw.out) + Marshal(Type3(csid, piece), hasExtendedTimestamp)
    {
      var c := new Io.Chunk3(Type3(csid, piece));
      var buf := c.Marshal(hasExtendedTimestamp);
      mw.out := mw.out + buf[..];
    }

    // The chunks after the first, until the body is written out.
    method WriteContinuations(mw: Writer, csid: byte, body: seq<byte>, start: uint32)
      requires mw.chunkSize > 0 && start <= |body| < 0x1_0000_0000
      modifies mw`out
      ensures mw.out == old(mw.out) + Flatten(Remaining(csid, body[start..], mw.chunkSize, hasExtendedTimestamp))
    {
      hide Marshal, Flatten;
      var bodyLen: uint32 := |body|;
      var pos := start;
      ghost var rest := Remaining(csid, body[start..], mw.chunkSize, hasExtendedTimestamp);
      ghost var all := mw.out + Flatten(rest);
      while bodyLen - pos != 0
        invariant pos <= bodyLen
        invariant rest == Remaining(csid, body[pos..], mw.chunkSize, hasExtendedTimestamp)
        invariant mw.out + Flatten(rest) == all
      {
        hide Remaining;
        var chunkBodyLen := Min(bodyLen - pos, mw.chunkSize);
        var piece := body[pos..pos + chunkBodyLen];
        ghost var chunk := Marshal(Type3(csid, piece), hasExtendedTimestamp);
        RemainingStep(csid, body, pos, mw.chunkSize, hasExtendedTimestamp);
        rest := rest[1..];
        FlattenCons(chunk, rest);
        ConcatAssociates(mw.out, chunk, Flatten(rest));
        WriteContinuation(mw, csid, piece);
        pos := pos + chunkBodyLen;
      }
      FlattenNothing(rest);
    }

    method WriteMessage(mw: Writer, msg: Raw.Message)
      requires State().Valid() && mw.chunkSize > 0 && |msg.body| < 0x1_0000_0000
      modifies this, mw`out
      ensures mw.out == old(mw.out) + Flatten(Raw.MessageChunks(old(State()), mw.chunkSize, msg))
      ensures State() == Raw.AfterFirstChunk(old(State()), msg)
    {
      hide Marshal, Raw.FirstChunk, Raw.AfterFirstChunk, Flatten;
      // one timestamp and one delta for all chunks of the message
      var timestamp := Raw.Milliseconds(msg.timestamp);
      var timestampDelta := None;
      if lastTimestamp.Some? {
        var diff := timestamp - lastTimestamp.value;
        if diff >= 0 {
          timestampDelta := Some(diff);
        }
      }
      var chunkBodyLen := Min(|msg.body|, mw.chunkSize);
      FirstPiece(msg.body, mw.chunkSize);
      ghost var first := Marshal(Raw.FirstChunk(State(), msg, msg.body[..chunkBodyLen]), hasExtendedTimestamp);
      WriteFirstChunk(mw, msg, timestamp, timestampDelta, msg.body[..chunkBodyLen]);
      ghost var rest := Remaining(msg.csid, msg.body[chunkBodyLen..], mw.chunkSize, hasExtendedTimestamp);
      FlattenCons(first, rest);
      ConcatAssociates(old(mw.out), first, Flatten(rest));
      WriteContinuations(mw, msg.csid, msg.body, chunkBodyLen);
    }
  }

  // The type 3 chunks still to be written for the rest of a body.
  ghost function Remaining(csid: byte, body: seq<byte>, size: uint32, ext: bool): seq<seq<byte>>
    requires size > 0
  {
    if body == [] then [] else Raw.Continuations(csid, Raw.Pieces(body, size), ext)
  }

  lemma RemainingStep(csid: byte, body: seq<byte>, pos: nat, size: uint32, ext: bool)
    requires size > 0 && pos < |body|
    ensures var n := Min(|body| - pos, size);
      var rest := Remaining(csid, body[pos + n..], size, ext);
      && Remaining(csid, body[pos..], size, ext) == [Marshal(Type3(csid, body[pos..pos + n]), ext)] + rest
      && Remaining(csid, body[pos..], size, ext)[1..] == rest
  {
    hide Marshal;
    var n := Min(|body| - pos, size);
    FirstPiece(body[pos..], size);
    assert body[pos..][..n] == body[pos..pos + n] && body[pos..][n..] == body[pos + n..];
  }

  lemma FlattenNothing<T>(parts: seq<seq<T>>)
    ensures parts == [] ==> Flatten(parts) == []
  {
  }

  lemma FirstPiece(body: seq<byte>, size: uint32)
    requires size > 0
    ensures var n := Min(|body|, size);
      && Raw.Pieces(body, size)[0] == body[..n]
      && Raw.Pieces(body, size)[1..] == if body[n..] == [] then [] else Raw.Pieces(body[n..], size)
  {
  }

  class Writer {
    var out: seq<byte>
    ghost var model: Raw.WriterState
    ghost var objects: set<WriterChunkStream>
    var chunkSize: uint32
    var chunkStreams: map<byte, WriterChunkStream>

    constructor ()
      ensures Valid() && model == Raw.NEW_WRITER && out == [] && objects == {}
    {
      out, chunkSize, chunkStreams := [], 128, map[];
      model, objects := Raw.NEW_WRITER, {};
    }

    // The model is what the objects hold, and each chunk stream has its own object.
    ghost predicate Valid()
      reads this, objects
    {
      && model.chunkSize == chunkSize
      && model.streams.Keys == chunkStreams.Keys
      && (forall i :: i in chunkStreams ==> chunkStreams[i] in objects && chunkStreams[i].id == i)
      && (forall i :: i in chunkStreams ==> chunkStreams[i].State() == model.streams[i] && model.streams[i].Valid())
    }

    method SetChunkSize(v: uint32)
      requires Valid()
      modifies `chunkSize, `model
      ensures Valid() && model == old(model).(chunkSize := v)
    {
      chunkSize := v;
      model := model.(chunkSize := v);
    }

    // The object of a chunk stream, created when the stream is first written.
    method ChunkStream(id: byte) returns (wc: WriterChunkStream)
      requires Valid()
      modifies `chunkStreams, `model, `objects
      ensures Valid() && fresh(objects - old(objects))
      ensures id in chunkStreams && chunkStreams[id] == wc && wc.State() == old(model).Stream(id)
      ensures model == old(model).(streams := old(model).streams[id := wc.State()])
    {
      if id in chunkStreams {
        wc := chunkStreams[id];
      } else {
        wc := new WriterChunkStream(id);
        chunkStreams := chunkStreams[id := wc];
        model := model.(streams := model.streams[id := wc.State()]);
        objects := objects + {wc};
      }
    }

    // One message written by one of the chunk streams; the others stay as they are.
    method WriteTo(wc: WriterChunkStream, msg: Raw.Message)
      requires Valid() && wc.id in chunkStreams && chunkStreams[wc.id] == wc
      requires chunkSize > 0 && |msg.body| < 0x1_0000_0000
      modifies `model, `out, wc
      ensures Valid()
      ensures model == old(model).(streams := old(model).streams[wc.id := Raw.AfterFirstChunk(old(wc.State()), msg)])
      ensures out == old(out) + Flatten(Raw.MessageChunks(old(wc.State()), chunkSize, msg))
    {
      hide Raw.MessageChunks, Raw.AfterFirstChunk, Flatten, WriterChunkStream.State;
      assert wc.State().Valid();
      model := model.(streams := model.streams[wc.id := Raw.AfterFirstChunk(wc.State(), msg)]);
      wc.WriteMessage(this, msg);
    }

    // A chunk size of 0 never gets past the first byte of a body, so the loop would not end.
    method Write(msg: Raw.Message)
      requires Valid() && chunkSize > 0 && |msg.body| < 0x1_0000_0000
      modifies this, objects
      ensures Valid() && fresh(objects - old(objects))
      ensures model == Raw.Write(old(model), msg).0
      ensures out == old(out) + Flatten(Raw.Write(old(model), msg).1)
    {
      hide Raw.MessageChunks, Raw.AfterFirstChunk, Flatten;
      var wc := ChunkStream(msg.csid);
      WriteTo(wc, msg);
      assert model.streams == old(model).streams[msg.csid := model.streams[msg.csid]];
    }
  }
}
