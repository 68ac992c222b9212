/** The packets and the two sides of the handshake as the server runs them, on buffers and streams. */
module HandshakeIo {
  import opened Wrappers
  import opened ByteStreams
  import opened HandshakeDh
  import P = HandshakePackets
  import H = Handshake

  // A buffer filled with three pieces, one after the other.
  method Fill3(a: seq<byte>, b: seq<byte>, c: seq<byte>) returns (msg: array<byte>)
    ensures fresh(msg) && msg[..] == a + b + c
  {
    msg := new byte[|a| + |b| + |c|];
    Copy(msg, 0, a);
    assert msg[..|a|] == a;
    Copy(msg, |a|, b);
    assert msg[..|a| + |b|] == a + b;
    Copy(msg, |a| + |b|, c);
    assert msg[..] == msg[..|a| + |b|] + c;
  }

  class C1S1Packet {
    var time: uint32
    var version: uint32
    var data: array<byte>

    ghost predicate Valid()
      reads this
    {
      data.Length == P.DATA_SIZE
    }

    ghost function View(): P.C1S1
      reads this, data
      requires Valid()
    {
      P.C1S1(time, version, data[..])
    }

    // An empty packet with a random block: fillPlain.
    constructor (time: uint32, version: uint32, random: P.Block)
      ensures Valid() && fresh(data) && View() == P.C1S1(time, version, random)
    {
      this.time, this.version := time, version;
      var block := new byte[P.DATA_SIZE];
      Copy(block, 0, random);
      assert block[..] == random;
      data := block;
    }

    // The whole packet except the digest goes into the hash.
    method ComputeDigest(h: P.Hmac, pos: nat, isS1: bool) returns (digest: P.Digest)
      requires Valid() && pos + P.DIGEST_LENGTH <= P.DATA_SIZE
      ensures digest == P.ComputeDigest(h, View(), pos, isS1)
    {
      var msg := Fill3(P.Header(time, version), data[..pos], data[pos + P.DIGEST_LENGTH..]);
      digest := h(P.SideKey(isS1), msg[..]);
    }

    // fill: the key first, then the digest over the packet with the key in it.
    method Fill(h: P.Hmac, l: P.Layout, isS1: bool, publicKey: seq<byte>) returns (digest: P.Digest)
      requires Valid() && |publicKey| == KEY_LENGTH
      modifies data
      ensures (View(), digest) == P.Fill(h, time, version, old(data[..]), l, isS1, publicKey)
    {
      hide P.DigestPos, P.PublicKeyPos, P.ComputeDigest;
      ghost var random := data[..];
      P.RegionsAreApart(data[..], l);
      var digestPos := P.DigestPos(data[..], l);
      var publicKeyPos := P.PublicKeyPos(data[..], l);
      Copy(data, publicKeyPos, publicKey);
      assert data[..] == P.Splice(random, publicKeyPos, publicKey);
      digest := ComputeDigest(h, digestPos, isS1);
      ghost var keyed := data[..];
      Copy(data, digestPos, digest);
      assert data[..] == P.Splice(keyed, digestPos, digest);
    }

    // validateDigest and validate: the first layout, then the second.
    method Validate(h: P.Hmac, isS1: bool) returns (r: Result<(P.Digest, seq<byte>), P.Error>)
      requires Valid()
      ensures r == P.Validate(h, View(), isS1)
    {
      hide P.DigestPos, P.PublicKeyPos, P.ComputeDigest, ValidatePublicKey;
      var layout := P.One;
      var pos, digest := Candidate(h, isS1, layout);
      if data[pos..pos + P.DIGEST_LENGTH] != digest {
        layout := P.Two;
        pos, digest := Candidate(h, isS1, layout);
        if data[pos..pos + P.DIGEST_LENGTH] != digest {
          return Err(P.WrongDigest);
        }
      }
      P.RegionsAreApart(data[..], layout);
      var publicKeyPos := P.PublicKeyPos(data[..], layout);
      var publicKey := data[publicKeyPos..publicKeyPos + KEY_LENGTH];
      var error := ValidatePublicKey(publicKey);
      r := if error.Some? then Err(P.WrongKey(error.value)) else Ok((digest, publicKey));
    }

    // Where the digest would be in a layout, and what it should be.
    method Candidate(h: P.Hmac, isS1: bool, l: P.Layout) returns (pos: nat, digest: P.Digest)
      requires Valid()
      ensures pos == P.DigestPos(data[..], l) && pos + P.DIGEST_LENGTH <= P.DATA_SIZE
      ensures digest == P.ComputeDigest(h, View(), pos, isS1)
      ensures P.Matches(h, View(), isS1, l) <==> data[pos..pos + P.DIGEST_LENGTH] == digest
    {
      P.RegionsAreApart(data[..], l);
      pos := P.DigestPos(data[..], l);
      digest := ComputeDigest(h, pos, isS1);
    }

    method Write() returns (buf: seq<byte>)
      requires Valid()
      ensures buf == P.Write(View())
    {
      var a := new byte[P.PACKET_SIZE];
      Copy(a, 0, P.Header(time, version));
      Copy(a, 8, data[..]);
      assert a[..] == P.Write(View());
      buf := a[..];
    }
  }

  class C2S2Packet {
    var time: uint32
    var time2: uint32
    var data: array<byte>

    ghost predicate Valid()
      reads this
    {
      data.Length == P.DATA_SIZE
    }

    ghost function View(): P.C2S2
      reads this, data
      requires Valid()
    {
      P.C2S2(time, time2, data[..])
    }

    constructor (time: uint32, time2: uint32, block: P.Block)
      ensures Valid() && fresh(data) && View() == P.C2S2(time, time2, block)
    {
      this.time, this.time2 := time, time2;
      var a := new byte[P.DATA_SIZE];
      Copy(a, 0, block);
      assert a[..] == block;
      data := a;
    }

    method ComputeDigest(h: P.Hmac, isS2: bool, prev: P.Digest) returns (digest: P.Digest)
      requires Valid()
      ensures digest == P.ComputeDigestC2S2(h, View(), isS2, prev)
    {
      var msg := Fill3(P.Header(time, time2), data[..P.C2S2_DIGEST_POS], []);
      assert msg[..] == P.Header(time, time2) + data[..P.C2S2_DIGEST_POS];
      var key := h(P.SideKey(isS2) + P.RANDOM_CRUD, prev);
      digest := h(key, msg[..]);
    }

    method Fill(h: P.Hmac, isS2: bool, prev: P.Digest)
      requires Valid()
      modifies data
      ensures View() == P.FillC2S2(h, time, time2, old(data[..]), isS2, prev)
    {
      hide P.ComputeDigestC2S2;
      ghost var random := data[..];
      var digest := ComputeDigest(h, isS2, prev);
      Copy(data, P.C2S2_DIGEST_POS, digest);
      assert data[..] == P.Splice(random, P.C2S2_DIGEST_POS, digest);
    }

    method Validate(h: P.Hmac, isS2: bool, prev: P.Digest) returns (ok: bool)
      requires Valid()
      ensures ok <==> P.ValidC2S2(h, View(), isS2, prev)
    {
      var digest := ComputeDigest(h, isS2, prev);
      ok := data[P.C2S2_DIGEST_POS..P.C2S2_DIGEST_POS + P.DIGEST_LENGTH] == digest;
    }

    method Write() returns (buf: seq<byte>)
      requires Valid()
      ensures buf == P.WriteC2S2(View())
    {
      var a := new byte[P.PACKET_SIZE];
      Copy(a, 0, P.Header(time, time2));
      Copy(a, 8, data[..]);
      assert a[..] == P.WriteC2S2(View());
      buf := a[..];
    }
  }

  // --- The two sides ---------------------------------------------------------------------------

  method ReadVersion(r: Source) returns (error: Option<P.Error>)
    modifies r
    ensures match H.ReadVersion(old(r.pending))
      case Ok(rest) => error == None && r.pending == rest
      case Err(e) => error == Some(e)
  {
    var buf := r.ReadFull(1);
    error := if buf.None? then Some(P.ShortRead) else if buf.value[0] != 6 then Some(P.WrongVersion) else None;
  }

  method ReadC1S1(h: P.Hmac, isS1: bool, r: Source) returns (res: Result<(P.Digest, seq<byte>), P.Error>)
    modifies r
    ensures match H.ReadC1S1(h, isS1, old(r.pending))
      case Ok((digest, key, rest)) => res == Ok((digest, key)) && r.pending == rest
      case Err(e) => res == Err(e)
  {
    var buf := r.ReadFull(P.PACKET_SIZE);
    if buf.None? {
      return Err(P.ShortRead);
    }
    var c := P.Read(buf.value);
    var packet := new C1S1Packet(c.time, c.version, c.data);
    res := packet.Validate(h, isS1);
  }

  method ReadAnswer(h: P.Hmac, isS2: bool, prev: P.Digest, r: Source) returns (error: Option<P.Error>)
    modifies r
    ensures match H.ReadAnswer(h, isS2, prev, old(r.pending))
      case Ok(rest) => error == None && r.pending == rest
      case Err(e) => error == Some(e)
  {
    var buf := r.ReadFull(P.PACKET_SIZE);
    if buf.None? {
      return Some(P.ShortRead);
    }
    var c := P.ReadC2S2(buf.value);
    var packet := new C2S2Packet(c.time, c.time2, c.data);
    var ok := packet.Validate(h, isS2, prev);
    error := if ok then None else Some(P.WrongDigest);
  }

  method FirstPacket(h: P.Hmac, d: H.Draw, isS1: bool) returns (buf: seq<byte>, digest: P.Digest)
    ensures buf == P.Write((if isS1 then H.S1(h, d) else H.C1(h, d)).0)
    ensures digest == (if isS1 then H.S1(h, d) else H.C1(h, d)).1
  {
    hide P.Fill;
    var packet := new C1S1Packet(0, if isS1 then H.ENCRYPTED_VERSION else 0, d.block1);
    var key := H.PublicKeyOf(d);
    digest := packet.Fill(h, d.layout, isS1, key);
    buf := packet.Write();
  }

  method Answer(h: P.Hmac, time2: uint32, block: P.Block, isS2: bool, prev: P.Digest) returns (buf: seq<byte>)
    ensures buf == P.WriteC2S2(P.FillC2S2(h, 0, time2, block, isS2, prev))
  {
    var packet := new C2S2Packet(0, time2, block);
    packet.Fill(h, isS2, prev);
    buf := packet.Write();
  }

  // The server up to S2. The draw d is made in the course of it.
  method ServerReply(h: P.Hmac, d: H.Draw, r: Source) returns (res: Result<H.Pending, P.Error>)
    modifies r
    ensures res == H.ServerReply(h, d, old(r.pending))
    ensures res.Ok? ==> r.pending == res.value.rest
  {
    hide H.ReadC1S1, H.S1, P.Write, P.FillC2S2, P.WriteC2S2;
    var error := ReadVersion(r);
    if error.Some? {
      return Err(error.value);
    }
    var c1 := ReadC1S1(h, false, r);
    if c1.Err? {
      return Err(c1.error);
    }
    var s1, s1Digest := FirstPacket(h, d, true);
    var s2 := Answer(h, H.ENCRYPTED_VERSION, d.block2, true, c1.value.0);
    res := Ok(H.Pending([6] + s1 + s2, s1Digest, c1.value.1, r.pending));
  }

  // The client from its first read on.
  method ClientFinish(h: P.Hmac, d: H.Draw, c1Digest: P.Digest, r: Source) returns (res: Result<H.Done, P.Error>)
    requires c1Digest == H.C1(h, d).1
    modifies r
    ensures res == H.ClientFinish(h, d, old(r.pending))
    ensures res.Ok? ==> r.pending == res.value.rest
  {
    hide H.ReadC1S1, H.ReadAnswer, H.C1, P.FillC2S2, P.WriteC2S2, H.SessionKeys;
    var error := ReadVersion(r);
    if error.Some? {
      return Err(error.value);
    }
    var s1 := ReadC1S1(h, true, r);
    if s1.Err? {
      return Err(s1.error);
    }
    error := ReadAnswer(h, true, c1Digest, r);
    if error.Some? {
      return Err(error.value);
    }
    var c2 := Answer(h, 0, d.block2, false, s1.value.0);
    var keys := H.SessionKeys(h, d.priv, H.PublicKeyOf(d), s1.value.1);
    res := Ok(H.Done(c2, keys, r.pending));
  }

  method ServerFinish(h: P.Hmac, d: H.Draw, p: H.Pending, r: Source) returns (res: Result<H.Done, P.Error>)
    modifies r
    ensures res == H.ServerFinish(h, d, p, old(r.pending))
    ensures res.Ok? ==> r.pending == res.value.rest
  {
    hide H.ReadAnswer, H.SessionKeys;
    var error := ReadAnswer(h, false, p.digest, r);
    if error.Some? {
      return Err(error.value);
    }
    var keys := H.SessionKeys(h, d.priv, H.PublicKeyOf(d), p.remoteKey);
    res := Ok(H.Done([], keys, r.pending));
  }
}
