/** The message writer and reader as the server runs them, on top of the raw ones. */
module RtmpMessageIo {
  import opened Wrappers
  import opened ByteStreams
  import Raw = RtmpRawMessage
  import M = RtmpMessage
  import RtmpWriter
  import RtmpReader

  // The body of the message that announces a chunk size.
  class SetChunkSize {
    var value: uint32

    constructor (value: uint32)
      ensures this.value == value
    {
      this.value := value;
    }

    method Marshal() returns (buf: array<byte>)
      ensures fresh(buf) && buf[..] == M.Marshal(M.SetChunkSize(value)).body
    {
      buf := new byte[4];
      buf[0], buf[1], buf[2], buf[3] := Byte3(value), Byte2(value), Byte1(value), Byte0(value);
    }

    method Unmarshal(raw: Raw.Message) returns (ok: bool)
      requires raw.typ == M.SET_CHUNK_SIZE
      modifies this
      ensures forall d :: M.Unmarshal(d, raw) == if ok then Ok(M.SetChunkSize(value)) else Err(Raw.InvalidMessage)
      ensures !ok ==> value == old(value)
    {
      if raw.csid != M.CONTROL_CHUNK_STREAM || |raw.body| != 4 {
        return false;
      }
      value := U32(raw.body[0], raw.body[1], raw.body[2], raw.body[3]);
      ok := true;
    }
  }

  class Writer {
    const w: RtmpWriter.Writer

    constructor (w: RtmpWriter.Writer)
      ensures this.w == w
    {
      this.w := w;
    }

    // The chunk size changes only after the message that announces it has been written.
    method Write(msg: M.Msg)
      requires w.Valid() && w.chunkSize > 0 && M.Writable(msg)
      modifies w, w.objects
      ensures w.Valid() && w.chunkSize > 0 && fresh(w.objects - old(w.objects))
      ensures w.model == M.AfterMessage(old(w.model), msg)
      ensures w.out == old(w.out) + M.WriteMsg(old(w.model), msg)
    {
      hide Raw.Write;
      M.WritableIsSendable(msg);
      w.Write(M.Marshal(msg));
      if msg.SetChunkSize? {
        w.SetChunkSize(msg.value);
      }
    }
  }

  class Reader {
    const r: RtmpReader.Reader
    // The decoders of the messages that leave the transport as it is.
    const decoder: M.Decoder

    constructor (r: RtmpReader.Reader, decoder: M.Decoder)
      ensures this.r == r && this.decoder == decoder
    {
      this.r := r;
      this.decoder := decoder;
    }

    // What an outcome on values says about the objects. After an error nothing is promised about them.
    ghost predicate Agrees(expected: M.MsgOutcome, m: Result<M.Msg, Raw.ReadError>)
      reads r, r.objects, r.source
    {
      match expected
      case MsgGot(model, msg, rest) => m == Ok(msg) && r.Valid() && r.model == model && r.source.pending == rest
      case MsgStuck(e) => m == Err(e)
    }

    method Read() returns (m: Result<M.Msg, Raw.ReadError>)
      requires r.Valid()
      modifies r, r.objects, r.source, r.c0, r.c1, r.c2, r.c3
      ensures fresh(r.objects - old(r.objects))
      ensures Agrees(M.ReadMsg(decoder, old(r.model), old(r.source.pending)), m)
    {
      hide Raw.Read, M.Unmarshal;
      var raw := r.Read();
      if raw.Err? {
        return Err(raw.error);
      }
      m := M.Unmarshal(decoder, raw.value);
      if m.Ok? && m.value.SetChunkSize? {
        var applied := r.SetChunkSize(m.value.value);
        if applied.Err? {
          return Err(applied.error);
        }
      }
    }
  }
}
