/** The encrypted RTMP handshake between an honest client and an honest server. */
module Handshake {
  import opened Wrappers
  import opened ByteStreams
  import opened HandshakeDh
  import opened HandshakePackets

  const ENCRYPTED_VERSION: uint32 := 0x0305_0101
  const KEY_SIZE := 16

  // What one side draws at random: its private key, the block and the layout of its first packet, and the
  // block of its second one.
  datatype Draw = Draw(priv: seq<byte>, block1: Block, layout: Layout, block2: Block)

  datatype Keys = Keys(keyIn: seq<byte>, keyOut: seq<byte>)

  function SessionKeys(h: Hmac, priv: seq<byte>, localKey: seq<byte>, remoteKey: seq<byte>): Keys {
    var secret := SharedSecret(priv, remoteKey);
    Keys(h(secret, localKey)[..KEY_SIZE], h(secret, remoteKey)[..KEY_SIZE])
  }

  function PublicKeyOf(d: Draw): (key: seq<byte>)
    ensures |key| == KEY_LENGTH
  {
    PublicKeyValue(d.priv);
    PublicKey(d.priv)
  }

  // --- The messages ----------------------------------------------------------------------------

  function C1(h: Hmac, d: Draw): (C1S1, Digest) {
    Fill(h, 0, 0, d.block1, d.layout, false, PublicKeyOf(d))
  }

  function S1(h: Hmac, d: Draw): (C1S1, Digest) {
    Fill(h, 0, ENCRYPTED_VERSION, d.block1, d.layout, true, PublicKeyOf(d))
  }

  // doClientEncrypted up to its first read.
  function ClientHello(h: Hmac, d: Draw): seq<byte> {
    [6] + Write(C1(h, d).0)
  }

  // C0S0.Read, and the caller's check of the version.
  function ReadVersion(input: seq<byte>): Result<seq<byte>, Error> {
    if input == [] then Err(ShortRead)
    else if input[0] != 6 then Err(WrongVersion)
    else Ok(input[1..])
  }

  // A packet of 1536 bytes off the input.
  function ReadPacket(input: seq<byte>): Result<(seq<byte>, seq<byte>), Error>
    ensures ReadPacket(input).Ok? ==> |ReadPacket(input).value.0| == PACKET_SIZE
  {
    if |input| < PACKET_SIZE then Err(ShortRead) else Ok((input[..PACKET_SIZE], input[PACKET_SIZE..]))
  }

  // A C1 or S1 packet off the input: its digest, its public key and what is left.
  function ReadC1S1(h: Hmac, isS1: bool, input: seq<byte>): Result<(Digest, seq<byte>, seq<byte>), Error> {
    match ReadPacket(input)
    case Err(e) => Err(e)
    case Ok((buf, rest)) =>
      match Validate(h, Read(buf), isS1)
      case Err(e) => Err(e)
      case Ok((digest, key)) => Ok((digest, key, rest))
  }

  // A C2 or S2 packet off the input that must answer the digest prev.
  function ReadAnswer(h: Hmac, isS2: bool, prev: Digest, input: seq<byte>): Result<seq<byte>, Error> {
    match ReadPacket(input)
    case Err(e) => Err(e)
    case Ok((buf, rest)) => if ValidC2S2(h, ReadC2S2(buf), isS2, prev) then Ok(rest) else Err(WrongDigest)
  }

  datatype Pending = Pending(output: seq<byte>, digest: Digest, remoteKey: seq<byte>, rest: seq<byte>)

  // DoServer and doServerEncrypted up to S2.
  function ServerReply(h: Hmac, d: Draw, input: seq<byte>): Result<Pending, Error> {
    match ReadVersion(input)
    case Err(e) => Err(e)
    case Ok(rest) =>
      match ReadC1S1(h, false, rest)
      case Err(e) => Err(e)
      case Ok((c1Digest, remoteKey, left)) =>
        var (s1, s1Digest) := S1(h, d);
        var s2 := FillC2S2(h, 0, ENCRYPTED_VERSION, d.block2, true, c1Digest);
        Ok(Pending([6] + Write(s1) + WriteC2S2(s2), s1Digest, remoteKey, left))
  }

  datatype Done = Done(output: seq<byte>, keys: Keys, rest: seq<byte>)

  // doClientEncrypted from its first read on.
  function ClientFinish(h: Hmac, d: Draw, input: seq<byte>): Result<Done, Error> {
    match ReadVersion(input)
    case Err(e) => Err(e)
    case Ok(rest) =>
      match ReadC1S1(h, true, rest)
      case Err(e) => Err(e)
      case Ok((s1Digest, remoteKey, left)) =>
        match ReadAnswer(h, true, C1(h, d).1, left)
        case Err(e) => Err(e)
        case Ok(end) =>
          var c2 := FillC2S2(h, 0, 0, d.block2, false, s1Digest);
          Ok(Done(WriteC2S2(c2), SessionKeys(h, d.priv, PublicKeyOf(d), remoteKey), end))
  }

  // doServerEncrypted from the read of C2 on.
  function ServerFinish(h: Hmac, d: Draw, p: Pending, input: seq<byte>): Result<Done, Error> {
    match ReadAnswer(h, false, p.digest, input)
    case Err(e) => Err(e)
    case Ok(end) => Ok(Done([], SessionKeys(h, d.priv, PublicKeyOf(d), p.remoteKey), end))
  }

  // --- The main result -------------------------------------------------------------------------

  // A packet filled in the second layout does not pass for one of the first.
  ghost predicate NoAccident(h: Hmac, d: Draw, isS1: bool) {
    d.layout.Two? ==> !Matches(h, (if isS1 then S1(h, d) else C1(h, d)).0, isS1, One)
  }

  ghost predicate GoodKey(d: Draw) {
    FromBytes(PublicKeyOf(d)) >= 2
  }

  lemma FirstPacketIsRead(h: Hmac, d: Draw, isS1: bool, rest: seq<byte>)
    requires GeneratorHasOrderQ() && NoAccident(h, d, isS1)
    ensures var (c, digest) := if isS1 then S1(h, d) else C1(h, d);
      ReadC1S1(h, isS1, Write(c) + rest) ==
        if GoodKey(d) then Ok((digest, PublicKeyOf(d), rest))
        else Err(WrongKey(ValidatePublicKey(PublicKeyOf(d)).value))
  {
    hide Fill, Matches, ValidateDigest, Write, Read, PublicKey, ValidatePublicKey, FromBytes;
    var (c, digest) := if isS1 then S1(h, d) else C1(h, d);
    var version: uint32 := if isS1 then ENCRYPTED_VERSION else 0;
    FilledIsAccepted(h, 0, version, d.block1, d.layout, isS1, PublicKeyOf(d));
    GeneratedKeyIsValid(d.priv);
    WrittenIsRead(c);
    assert (Write(c) + rest)[..PACKET_SIZE] == Write(c) && (Write(c) + rest)[PACKET_SIZE..] == rest;
  }

  lemma AnswerIsRead(h: Hmac, time2: uint32, block: Block, isS2: bool, prev: Digest, rest: seq<byte>)
    ensures ReadAnswer(h, isS2, prev, WriteC2S2(FillC2S2(h, 0, time2, block, isS2, prev)) + rest) == Ok(rest)
  {
    hide FillC2S2, ValidC2S2, WriteC2S2, ReadC2S2;
    var c := FillC2S2(h, 0, time2, block, isS2, prev);
    FilledC2S2IsAccepted(h, 0, time2, block, isS2, prev, prev);
    WrittenC2S2IsRead(c);
    assert (WriteC2S2(c) + rest)[..PACKET_SIZE] == WriteC2S2(c) && (WriteC2S2(c) + rest)[PACKET_SIZE..] == rest;
  }

  // The server accepts the hello exactly when the key of the client is good.
  lemma HelloIsAnswered(h: Hmac, c: Draw, s: Draw)
    requires GeneratorHasOrderQ() && NoAccident(h, c, false)
    ensures var reply := ServerReply(h, s, ClientHello(h, c));
      if GoodKey(c) then
        reply == Ok(Pending([6] + Write(S1(h, s).0)
                            + WriteC2S2(FillC2S2(h, 0, ENCRYPTED_VERSION, s.block2, true, C1(h, c).1)),
                            S1(h, s).1, PublicKeyOf(c), []))
      else reply.Err? && reply.error.WrongKey?
  {
    hide Fill, Matches, Write, FillC2S2, WriteC2S2, PublicKey, ReadC1S1, FromBytes, ValidatePublicKey;
    FirstPacketIsRead(h, c, false, []);
    assert ClientHello(h, c)[1..] == Write(C1(h, c).0) + [];
  }

  // The client accepts the reply exactly when the key of the server is good.
  lemma ReplyIsAnswered(h: Hmac, c: Draw, s: Draw)
    requires GeneratorHasOrderQ() && NoAccident(h, s, true)
    ensures var s2 := FillC2S2(h, 0, ENCRYPTED_VERSION, s.block2, true, C1(h, c).1);
      var done := ClientFinish(h, c, [6] + Write(S1(h, s).0) + WriteC2S2(s2));
      if GoodKey(s) then
        done == Ok(Done(WriteC2S2(FillC2S2(h, 0, 0, c.block2, false, S1(h, s).1)),
                        SessionKeys(h, c.priv, PublicKeyOf(c), PublicKeyOf(s)), []))
      else done.Err? && done.error.WrongKey?
  {
    hide Fill, Matches, Write, FillC2S2, WriteC2S2, PublicKey, ReadC1S1, ReadAnswer, SessionKeys, FromBytes, ValidatePublicKey;
    var s2 := FillC2S2(h, 0, ENCRYPTED_VERSION, s.block2, true, C1(h, c).1);
    FirstPacketIsRead(h, s, true, WriteC2S2(s2));
    AnswerIsRead(h, ENCRYPTED_VERSION, s.block2, true, C1(h, c).1, []);
    assert ([6] + Write(S1(h, s).0) + WriteC2S2(s2))[1..] == Write(S1(h, s).0) + WriteC2S2(s2);
    assert WriteC2S2(s2) + [] == WriteC2S2(s2);
  }

  // For any hash and anything drawn at random, the handshake completes on both sides, leaving nothing unread,
  // exactly when both keys are good; and then what one side decrypts with is what the other encrypts with.
  lemma HandshakeCompletes(h: Hmac, c: Draw, s: Draw)
    requires GeneratorHasOrderQ() && NoAccident(h, c, false) && NoAccident(h, s, true)
    ensures var reply := ServerReply(h, s, ClientHello(h, c));
      && (reply.Ok? <==> GoodKey(c))
      && (reply.Ok? ==>
            var client := ClientFinish(h, c, reply.value.output);
            && (client.Ok? <==> GoodKey(s))
            && (client.Ok? ==>
                  var server := ServerFinish(h, s, reply.value, client.value.output);
                  && server.Ok?
                  && client.value.rest == [] && server.value.rest == [] && reply.value.rest == []
                  && client.value.keys.keyIn == server.value.keys.keyOut
                  && client.value.keys.keyOut == server.value.keys.keyIn))
  {
    hide Fill, Matches, Write, FillC2S2, WriteC2S2, PublicKey, ReadAnswer, SharedSecret, GoodKey, ServerReply, ClientFinish;
    HelloIsAnswered(h, c, s);
    ReplyIsAnswered(h, c, s);
    var answer := WriteC2S2(FillC2S2(h, 0, 0, c.block2, false, S1(h, s).1));
    AnswerIsRead(h, 0, c.block2, false, S1(h, s).1, []);
    assert answer + [] == answer;
    SecretsAgree(c.priv, s.priv);
  }
}
