/** The raw message reader as the server runs it: chunk stream objects updated in place. */
module RtmpReader {
  import opened Wrappers
  import opened ByteStreams
  import opened RtmpChunk
  import Io = RtmpChunkIo
  import Raw = RtmpRawMessage

  // What one chunk gives: the message it completes, nothing yet, or an error.
  datatype Outcome =
    | Complete(typ: byte, timestamp: int, msid: uint32, body: seq<byte>)
    | MoreChunksNeeded
    | Refused(error: Raw.ReadError)

  lemma JoinNext(fragments: seq<seq<byte>>, p: seq<byte>, size: nat)
    ensures var n := Min(size, |Flatten(fragments)|);
      var room := Min(|p|, size - n);
      && Min(size, |Flatten(fragments + [p])|) == n + room
      && Raw.Join(fragments + [p], size) == Raw.Join(fragments, size)[..n] + p[..room] + Raw.Join(fragments, size)[n + room..]
  {
    hide Flatten;
    FlattenSnoc(fragments, p);
  }

  // One more fragment copied behind the ones already there, as far as the buffer goes.
  method CopyFragment(ret: array<byte>, n: nat, p: seq<byte>, ghost joined: seq<seq<byte>>) returns (n': nat)
    requires n == Min(ret.Length, |Flatten(joined)|) && ret[..] == Raw.Join(joined, ret.Length)
    modifies ret
    ensures n' == Min(ret.Length, |Flatten(joined + [p])|) && ret[..] == Raw.Join(joined + [p], ret.Length)
  {
    hide Flatten, Raw.Join;
    var room := Min(|p|, ret.Length - n);
    JoinNext(joined, p, ret.Length);
    Copy(ret, n, p[..room]);
    n' := n + room;
  }

  // joinFragments: the fragments copied one after the other into a zeroed buffer.
  method JoinFragments(fragments: seq<seq<byte>>, size: nat) returns (ret: array<byte>)
    ensures fresh(ret) && ret[..] == Raw.Join(fragments, size)
  {
    ret := new byte[size](_ => 0);
    var n := 0;
    assert ret[..] == Raw.Join([], size);
    for i := 0 to |fragments|
      invariant n == Min(size, |Flatten(fragments[..i])|)
      invariant ret[..] == Raw.Join(fragments[..i], size)
    {
      hide Flatten, Raw.Join;
      assert fragments[..i + 1] == fragments[..i] + [fragments[i]];
      n := CopyFragment(ret, n, fragments[i], fragments[..i]);
    }
    assert fragments[..|fragments|] == fragments;
  }

  // One chunk stream on the reading side.
  class ReaderChunkStream {
    ghost const id: byte
    var curTimestamp: uint32
    var curTimestampAvailable: bool
    var curType: byte
    var curMessageStreamID: uint32
    var curBodyLen: uint32
    var curBodyFragments: seq<seq<byte>>
    var curBodyRecv: uint32
    var curTimestampDelta: uint32
    var curTimestampDeltaAvailable: bool
    var hasExtendedTimestamp: bool

    constructor (ghost id: byte)
      ensures State() == Raw.NEW_READER_STREAM && this.id == id
    {
      this.id := id;
      curTimestamp, curTimestampAvailable, curType, curMessageStreamID := 0, false, 0, 0;
      curBodyLen, curBodyFragments, curBodyRecv := 0, [], 0;
      curTimestampDelta, curTimestampDeltaAvailable, hasExtendedTimestamp := 0, false, false;
    }

    ghost function State(): Raw.ReaderStream
      reads this
    {
      Raw.ReaderStream(curTimestamp, curTimestampAvailable, curType, curMessageStreamID, curBodyLen,
                       curBodyFragments, curBodyRecv, curTimestampDelta, curTimestampDeltaAvailable,
                       hasExtendedTimestamp)
    }

    // The outcome, the state and the unread bytes that readMessage promises.
    ghost predicate Agrees(expected: Raw.ChunkOutcome, o: Outcome, pending: seq<byte>)
      reads this
    {
      match expected
      case Pending(rs, rest) => o == MoreChunksNeeded && State() == rs && pending == rest
      case Delivered(rs, typ, timestamp, msid, body, rest) =>
        o == Complete(typ, timestamp, msid, body) && State() == rs && pending == rest
      case Failed(e) => o == Refused(e)
    }

    // The end of every branch that starts a message.
    method Begin(body: seq<byte>) returns (o: Outcome)
      requires |body| < 0x1_0000_0000
      modifies this
      ensures if |body| == old(curBodyLen)
              then o == Complete(curType, curTimestamp * Raw.MILLISECOND, curMessageStreamID, body)
                   && State() == old(State())
              else o == MoreChunksNeeded
                   && State() == old(State()).(fragments := old(curBodyFragments) + [body], recv := |body|)
    {
      var le: uint32 := |body|;
      if curBodyLen != le {
        curBodyFragments := curBodyFragments + [body];
        curBodyRecv := le;
        return MoreChunksNeeded;
      }
      return Complete(curType, curTimestamp * Raw.MILLISECOND, curMessageStreamID, body);
    }

    method ReadType0(mr: Reader) returns (o: Outcome)
      requires mr.source.pending != [] && mr.source.pending[0] / 64 == 0 && State().Valid()
      modifies this, mr.source, mr.c0
      ensures Agrees(Raw.StepStream(old(State()), mr.chunkSize, old(mr.source.pending)), o, mr.source.pending)
    {
      hide Parse0;
      if curBodyRecv != 0 {
        return Refused(Raw.ExpectedType3);
      }
      var ok := mr.c0.Read(mr.source, mr.chunkSize);
      if !ok {
        return Refused(Raw.EndOfInput);
      }
      curMessageStreamID := mr.c0.messageStreamID;
      curType := mr.c0.typ;
      curTimestamp := mr.c0.timestamp;
      curTimestampAvailable := true;
      curTimestampDeltaAvailable := false;
      curBodyLen := mr.c0.bodyLen;
      hasExtendedTimestamp := mr.c0.timestamp >= EXTENDED;
      if curBodyLen > Raw.MAX_BODY_SIZE {
        return Refused(Raw.BodyTooLarge);
      }
      o := Begin(mr.c0.body);
    }

    method ReadType1(mr: Reader) returns (o: Outcome)
      requires mr.source.pending != [] && mr.source.pending[0] / 64 == 1 && State().Valid()
      modifies this, mr.source, mr.c1
      ensures Agrees(Raw.StepStream(old(State()), mr.chunkSize, old(mr.source.pending)), o, mr.source.pending)
    {
      hide Parse1;
      if !curTimestampAvailable {
        return Refused(Raw.NoPreviousChunk);
      }
      if curBodyRecv != 0 {
        return Refused(Raw.ExpectedType3);
      }
      var ok := mr.c1.Read(mr.source, mr.chunkSize);
      if !ok {
        return Refused(Raw.EndOfInput);
      }
      curType := mr.c1.typ;
      curTimestamp := Wrap32(curTimestamp + mr.c1.timestampDelta);
      curTimestampDelta := mr.c1.timestampDelta;
      curTimestampDeltaAvailable := true;
      curBodyLen := mr.c1.bodyLen;
      hasExtendedTimestamp := mr.c1.timestampDelta >= EXTENDED;
      if curBodyLen > Raw.MAX_BODY_SIZE {
        return Refused(Raw.BodyTooLarge);
      }
      o := Begin(mr.c1.body);
    }

    method ReadType2(mr: Reader) returns (o: Outcome)
      requires mr.source.pending != [] && mr.source.pending[0] / 64 == 2 && State().Valid()
      modifies this, mr.source, mr.c2
      ensures Agrees(Raw.StepStream(old(State()), mr.chunkSize, old(mr.source.pending)), o, mr.source.pending)
    {
      hide Parse2;
      if !curTimestampAvailable {
        return Refused(Raw.NoPreviousChunk);
      }
      if curBodyRecv != 0 {
        return Refused(Raw.ExpectedType3);
      }
      var ok := mr.c2.Read(mr.source, Min(curBodyLen, mr.chunkSize));
      if !ok {
        return Refused(Raw.EndOfInput);
      }
      curTimestamp := Wrap32(curTimestamp + mr.c2.timestampDelta);
      curTimestampDelta := mr.c2.timestampDelta;
      curTimestampDeltaAvailable := true;
      hasExtendedTimestamp := mr.c2.timestampDelta >= EXTENDED;
      o := Begin(mr.c2.body);
    }

    // The subtraction of unsigned words does not wrap: a stream never receives more than its body.
    method ReadType3(mr: Reader) returns (o: Outcome)
      requires mr.source.pending != [] && mr.source.pending[0] / 64 == 3 && State().Valid()
      modifies this, mr.source, mr.c3
      ensures Agrees(Raw.StepStream(old(State()), mr.chunkSize, old(mr.source.pending)), o, mr.source.pending)
    {
      hide Parse3, Raw.Join;
      if curBodyRecv != 0 {
        var missing: uint32 := curBodyLen - curBodyRecv;
        var ok := mr.c3.Read(mr.source, Min(missing, mr.chunkSize), hasExtendedTimestamp);
        if !ok {
          return Refused(Raw.EndOfInput);
        }
        curBodyFragments := curBodyFragments + [mr.c3.body];
        curBodyRecv := curBodyRecv + |mr.c3.body|;
        if curBodyLen != curBodyRecv {
          return MoreChunksNeeded;
        }
        var body := JoinFragments(curBodyFragments, curBodyRecv);
        o := Complete(curType, curTimestamp * Raw.MILLISECOND, curMessageStreamID, body[..]);
        curBodyFragments := [];
        curBodyRecv := 0;
        return;
      }
      if !curTimestampDeltaAvailable {
        return Refused(Raw.NoPreviousChunk);
      }
      var ok := mr.c3.Read(mr.source, Min(curBodyLen, mr.chunkSize), hasExtendedTimestamp);
      if !ok {
        return Refused(Raw.EndOfInput);
      }
      curTimestamp := Wrap32(curTimestamp + curTimestampDelta);
      o := Begin(mr.c3.body);
    }

    method ReadMessage(mr: Reader, typ: byte) returns (o: Outcome)
      requires mr.source.pending != [] && typ == mr.source.pending[0] / 64 && State().Valid()
      modifies this, mr.source, mr.c0, mr.c1, mr.c2, mr.c3
      ensures Agrees(Raw.StepStream(old(State()), mr.chunkSize, old(mr.source.pending)), o, mr.source.pending)
    {
      hide Raw.StepStream;
      match typ
      case 0 => o := ReadType0(mr);
      case 1 => o := ReadType1(mr);
      case 2 => o := ReadType2(mr);
      case _ => o := ReadType3(mr);
    }
  }

  lemma UpdateTwice<K, V>(m: map<K, V>, k: K, v: V, w: V)
    ensures m[k := v][k := w] == m[k := w]
  {
  }

  lemma ReaderFollowsStream(r: Raw.ReaderState, input: seq<byte>)
    requires r.Valid()
    ensures input == [] ==> Raw.StepReader(r, input) == Raw.Stuck(Raw.EndOfInput)
    ensures input != [] && input[0] % 64 < 2 ==> Raw.StepReader(r, input) == Raw.Stuck(Raw.UnsupportedChunkStream)
    ensures input != [] && input[0] % 64 >= 2 ==>
      var id: byte := input[0] % 64;
      Raw.StepReader(r, input)
      == match Raw.StepStream(r.Stream(id), r.chunkSize, input)
         case Pending(rs, rest) => Raw.More(r.(streams := r.streams[id := rs]), rest)
         case Delivered(rs, typ, timestamp, msid, body, rest) =>
           Raw.Got(r.(streams := r.streams[id := rs]), Raw.Message(id, timestamp, typ, msid, body), rest)
         case Failed(e) => Raw.Stuck(e)
  {
    hide Raw.StepStream;
  }

  class Reader {
    const source: Source
    ghost var model: Raw.ReaderState
    ghost var objects: set<ReaderChunkStream>
    var chunkSize: uint32
    var chunkStreams: map<byte, ReaderChunkStream>
    const c0: Io.Chunk0
    const c1: Io.Chunk1
    const c2: Io.Chunk2
    const c3: Io.Chunk3

    constructor (source: Source)
      ensures Valid() && model == Raw.NEW_READER && this.source == source && objects == {}
      ensures fresh(c0) && fresh(c1) && fresh(c2) && fresh(c3)
    {
      this.source, chunkSize, chunkStreams := source, 128, map[];
      model, objects := Raw.NEW_READER, {};
      c0 := new Io.Chunk0(Type0(0, 0, 0, 0, 0, []));
      c1 := new Io.Chunk1(Type1(0, 0, 0, 0, []));
      c2 := new Io.Chunk2(Type2(0, 0, []));
      c3 := new Io.Chunk3(Type3(0, []));
    }

    // The model is what the objects hold, and each chunk stream has its own object.
    ghost predicate Valid()
      reads this, objects
    {
      && model.chunkSize == chunkSize
      && model.streams.Keys == chunkStreams.Keys
      && (forall i :: i in chunkStreams ==> chunkStreams[i] in objects && chunkStreams[i].id == i)
      && (forall i :: i in chunkStreams ==> chunkStreams[i].State() == model.streams[i] && model.streams[i].Valid())
    }

    method SetChunkSize(v: uint32) returns (r: Result<(), Raw.ReadError>)
      requires Valid()
      modifies `chunkSize, `model
      ensures Valid()
      ensures v <= Raw.MAX_BODY_SIZE ==> r == Ok(()) && model == old(model).(chunkSize := v)
      ensures v > Raw.MAX_BODY_SIZE ==> r == Err(Raw.ChunkSizeTooLarge) && model == old(model)
    {
      if v > Raw.MAX_BODY_SIZE {
        return Err(Raw.ChunkSizeTooLarge);
      }
      chunkSize := v;
      model := model.(chunkSize := v);
      return Ok(());
    }

    // What an outcome on values says about the objects. After an error nothing is promised about them.
    ghost predicate Agrees(expected: Raw.ReaderOutcome, more: bool, m: Result<Raw.Message, Raw.ReadError>)
      reads this, objects, source
    {
      match expected
      case More(r, rest) => more && Valid() && model == r && source.pending == rest
      case Got(r, msg, rest) => !more && m == Ok(msg) && Valid() && model == r && source.pending == rest
      case Stuck(e) => !more && m == Err(e)
    }

    // The object of a chunk stream, created when the stream is first seen.
    method ChunkStream(id: byte) returns (rc: ReaderChunkStream)
      requires Valid()
      modifies `chunkStreams, `model, `objects
      ensures Valid() && fresh(objects - old(objects))
      ensures id in chunkStreams && chunkStreams[id] == rc && rc.State() == old(model).Stream(id)
      ensures model == old(model).(streams := old(model).streams[id := rc.State()])
    {
      if id in chunkStreams {
        rc := chunkStreams[id];
      } else {
        rc := new ReaderChunkStream(id);
        chunkStreams := chunkStreams[id := rc];
        model := model.(streams := model.streams[id := rc.State()]);
        objects := objects + {rc};
      }
    }

    // One chunk read by one of the chunk streams; the others stay as they are.
    method ReadFrom(rc: ReaderChunkStream, typ: byte) returns (o: Outcome)
      requires Valid() && rc.id in chunkStreams && chunkStreams[rc.id] == rc
      requires source.pending != [] && typ == source.pending[0] / 64
      modifies `model, rc, source, c0, c1, c2, c3
      ensures match Raw.StepStream(old(rc.State()), chunkSize, old(source.pending))
        case Pending(rs, rest) =>
          o == MoreChunksNeeded && Valid() && source.pending == rest
          && model == old(model).(streams := old(model).streams[rc.id := rs])
        case Delivered(rs, typ, timestamp, msid, body, rest) =>
          o == Complete(typ, timestamp, msid, body) && Valid() && source.pending == rest
          && model == old(model).(streams := old(model).streams[rc.id := rs])
        case Failed(e) => o == Refused(e)
    {
      hide Raw.StepStream, ReaderChunkStream.State;
      Raw.StepStreamValid(rc.State(), chunkSize, source.pending);
      o := rc.ReadMessage(this, typ);
      model := model.(streams := model.streams[rc.id := rc.State()]);
    }

    // One iteration of the loop of Read.
    method ReadChunk() returns (more: bool, m: Result<Raw.Message, Raw.ReadError>)
      requires Valid()
      modifies this, objects, source, c0, c1, c2, c3
      ensures fresh(objects - old(objects))
      ensures Agrees(Raw.StepReader(old(model), old(source.pending)), more, m)
    {
      hide Raw.StepReader, Raw.StepStream;
      ghost var before, input := model, source.pending;
      ReaderFollowsStream(before, input);
      if source.pending == [] {
        return false, Err(Raw.EndOfInput);
      }
      var byt := source.pending[0];
      var typ := byt / 64;
      var chunkStreamID: byte := byt % 64;
      if chunkStreamID < 2 {
        return false, Err(Raw.UnsupportedChunkStream);
      }
      var rc := ChunkStream(chunkStreamID);
      var o := ReadFrom(rc, typ);
      ghost var step := Raw.StepStream(before.Stream(chunkStreamID), before.chunkSize, input);
      if !step.Failed? {
        UpdateTwice(before.streams, chunkStreamID, before.Stream(chunkStreamID), step.rs);
      }
      more := o == MoreChunksNeeded;
      match o
      case Refused(e) => m := Err(e);
      case MoreChunksNeeded => m := Err(Raw.EndOfInput);
      case Complete(mt, timestamp, msid, body) => m := Ok(Raw.Message(chunkStreamID, timestamp, mt, msid, body));
    }

    // Chunks until a message is complete. Every iteration consumes at least one byte.
    method Read() returns (m: Result<Raw.Message, Raw.ReadError>)
      requires Valid()
      modifies this, objects, source, c0, c1, c2, c3
      ensures fresh(objects - old(objects))
      ensures Agrees(Raw.Read(old(model), old(source.pending)), false, m)
    {
      hide Raw.StepReader;
      var more := true;
      m := Err(Raw.EndOfInput);
      while more
        invariant fresh(objects - old(objects))
        invariant more ==> Valid() && Raw.Read(model, source.pending) == Raw.Read(old(model), old(source.pending))
        invariant !more ==> Agrees(Raw.Read(old(model), old(source.pending)), false, m)
        decreases if more then 1 + |source.pending| else 0
      {
        more, m := ReadChunk();
      }
    }
  }
}
