/** The packets of the encrypted RTMP handshake: where the digest and the public key are, in both layouts. */
module HandshakePackets {
  import opened Wrappers
  import opened ByteStreams
  import opened HandshakeDh

  const PACKET_SIZE := 1536
  const DATA_SIZE := 1528
  const DIGEST_LENGTH := 32
  const DIGEST_CHUNK_LENGTH := 728
  const PUBLIC_KEY_CHUNK_LENGTH := 632
  const C2S2_DIGEST_POS := 1496

  // The hash is any function with results of 32 bytes.
  type Digest = s: seq<byte> | |s| == DIGEST_LENGTH witness seq(DIGEST_LENGTH, _ => 0)
  type Hmac = (seq<byte>, seq<byte>) -> Digest
  type Block = s: seq<byte> | |s| == DATA_SIZE witness seq(DATA_SIZE, _ => 0)

  // The two layouts. In the first one the digest comes before the public key.
  datatype Layout = One | Two

  function DigestPointerPos(l: Layout): nat { if l.One? then 0 else 764 }

  function DigestChunkPos(l: Layout): nat { DigestPointerPos(l) + 4 }

  function PublicKeyPointerPos(l: Layout): nat { if l.One? then 1524 else 760 }

  function PublicKeyChunkPos(l: Layout): nat { PublicKeyPointerPos(l) - 760 }

  function ReadPointer(d: Block, p: nat): nat
    requires p + 4 <= DATA_SIZE
  {
    d[p] as int + d[p + 1] as int + d[p + 2] as int + d[p + 3] as int
  }

  function DigestPos(d: Block, l: Layout): nat {
    DigestChunkPos(l) + ReadPointer(d, DigestPointerPos(l)) % DIGEST_CHUNK_LENGTH
  }

  function PublicKeyPos(d: Block, l: Layout): nat {
    PublicKeyChunkPos(l) + ReadPointer(d, PublicKeyPointerPos(l)) % PUBLIC_KEY_CHUNK_LENGTH
  }

  predicate Apart(a: nat, n: nat, b: nat, m: nat) {
    a + n <= b || b + m <= a
  }

  // In either layout, wherever the pointers lead, the two pointers, the digest and the public key lie inside
  // the packet and do not touch each other.
  lemma RegionsAreApart(d: Block, l: Layout)
    ensures DigestPos(d, l) + DIGEST_LENGTH <= DATA_SIZE && PublicKeyPos(d, l) + KEY_LENGTH <= DATA_SIZE
    ensures Apart(DigestPos(d, l), DIGEST_LENGTH, PublicKeyPos(d, l), KEY_LENGTH)
    ensures Apart(DigestPointerPos(l), 4, DigestPos(d, l), DIGEST_LENGTH)
    ensures Apart(DigestPointerPos(l), 4, PublicKeyPos(d, l), KEY_LENGTH)
    ensures Apart(PublicKeyPointerPos(l), 4, DigestPos(d, l), DIGEST_LENGTH)
    ensures Apart(PublicKeyPointerPos(l), 4, PublicKeyPos(d, l), KEY_LENGTH)
  {
    ModBounds(ReadPointer(d, DigestPointerPos(l)), DIGEST_CHUNK_LENGTH);
    ModBounds(ReadPointer(d, PublicKeyPointerPos(l)), PUBLIC_KEY_CHUNK_LENGTH);
  }

  lemma ModBounds(a: nat, n: nat)
    requires n > 0
    ensures 0 <= a % n < n
  {
  }

  // --- C1 and S1 -------------------------------------------------------------------------------

  datatype C1S1 = C1S1(time: uint32, version: uint32, data: Block)

  function Header(time: uint32, version: uint32): seq<byte> {
    PutU32(time) + PutU32(version)
  }

  function Write(c: C1S1): (buf: seq<byte>)
    ensures |buf| == PACKET_SIZE
  {
    Header(c.time, c.version) + c.data
  }

  function Word(buf: seq<byte>, p: nat): uint32
    requires p + 4 <= |buf|
  {
    U32(buf[p], buf[p + 1], buf[p + 2], buf[p + 3])
  }

  function Read(buf: seq<byte>): C1S1
    requires |buf| == PACKET_SIZE
  {
    C1S1(Word(buf, 0), Word(buf, 4), buf[8..])
  }

  lemma WrittenIsRead(c: C1S1)
    ensures Read(Write(c)) == c
  {
    U32RoundTrip(c.time);
    U32RoundTrip(c.version);
    assert Write(c)[8..] == c.data;
  }

  // "Genuine Adobe Flash Player 001" and "Genuine Adobe Flash Media Server 001"
  const CLIENT_KEY: seq<byte> := [
    0x47, 0x65, 0x6e, 0x75, 0x69, 0x6e, 0x65, 0x20, 0x41, 0x64, 0x6f, 0x62, 0x65, 0x20, 0x46, 0x6c,
    0x61, 0x73, 0x68, 0x20, 0x50, 0x6c, 0x61, 0x79, 0x65, 0x72, 0x20, 0x30, 0x30, 0x31]

  const SERVER_KEY: seq<byte> := [
    0x47, 0x65, 0x6e, 0x75, 0x69, 0x6e, 0x65, 0x20, 0x41, 0x64, 0x6f, 0x62, 0x65, 0x20, 0x46, 0x6c,
    0x61, 0x73, 0x68, 0x20, 0x4d, 0x65, 0x64, 0x69, 0x61, 0x20, 0x53, 0x65, 0x72, 0x76, 0x65, 0x72,
    0x20, 0x30, 0x30, 0x31]

  const RANDOM_CRUD: seq<byte> := [
    0xf0, 0xee, 0xc2, 0x4a, 0x80, 0x68, 0xbe, 0xe8, 0x2e, 0x00, 0xd0, 0xd1, 0x02, 0x9e, 0x7e, 0x57,
    0x6e, 0xec, 0x5d, 0x2d, 0x29, 0x80, 0x6f, 0xab, 0x93, 0xb8, 0xe6, 0x36, 0xcf, 0xeb, 0x31, 0xae]

  function SideKey(isServer: bool): seq<byte> {
    if isServer then SERVER_KEY else CLIENT_KEY
  }

  // The hash of the whole packet except the digest.
  function ComputeDigest(h: Hmac, c: C1S1, pos: nat, isS1: bool): Digest
    requires pos + DIGEST_LENGTH <= DATA_SIZE
  {
    h(SideKey(isS1), Header(c.time, c.version) + c.data[..pos] + c.data[pos + DIGEST_LENGTH..])
  }

  // Overwriting part of a packet.
  function Splice(d: Block, pos: nat, bs: seq<byte>): (r: Block)
    requires pos + |bs| <= DATA_SIZE
    ensures forall i :: 0 <= i < DATA_SIZE ==> r[i] == if pos <= i < pos + |bs| then bs[i - pos] else d[i]
  {
    d[..pos] + bs + d[pos + |bs|..]
  }

  // fill, with the random block and the random choice of a layout as inputs.
  function Fill(h: Hmac, time: uint32, version: uint32, random: Block, l: Layout, isS1: bool, publicKey: seq<byte>)
    : (C1S1, Digest)
    requires |publicKey| == KEY_LENGTH
  {
    RegionsAreApart(random, l);
    var c := C1S1(time, version, Splice(random, PublicKeyPos(random, l), publicKey));
    var digest := ComputeDigest(h, c, DigestPos(random, l), isS1);
    (c.(data := Splice(c.data, DigestPos(random, l), digest)), digest)
  }

  predicate Matches(h: Hmac, c: C1S1, isS1: bool, l: Layout) {
    RegionsAreApart(c.data, l);
    var pos := DigestPos(c.data, l);
    c.data[pos..pos + DIGEST_LENGTH] == ComputeDigest(h, c, pos, isS1)
  }

  // The digest and the public key of a layout.
  function Contents(c: C1S1, l: Layout): (Digest, seq<byte>) {
    RegionsAreApart(c.data, l);
    var pos, keyPos := DigestPos(c.data, l), PublicKeyPos(c.data, l);
    (c.data[pos..pos + DIGEST_LENGTH], c.data[keyPos..keyPos + KEY_LENGTH])
  }

  datatype Error = WrongDigest | WrongKey(error: KeyError) | ShortRead | WrongVersion

  function ValidateDigest(h: Hmac, c: C1S1, isS1: bool): Result<(Digest, seq<byte>), Error> {
    if Matches(h, c, isS1, One) then Ok(Contents(c, One))
    else if Matches(h, c, isS1, Two) then Ok(Contents(c, Two))
    else Err(WrongDigest)
  }

  function Validate(h: Hmac, c: C1S1, isS1: bool): Result<(Digest, seq<byte>), Error> {
    match ValidateDigest(h, c, isS1)
    case Err(e) => Err(e)
    case Ok((digest, key)) =>
      match ValidatePublicKey(key)
      case Some(e) => Err(WrongKey(e))
      case None => Ok((digest, key))
  }

  lemma PointerUnchanged(d: Block, p: nat, pos: nat, bs: seq<byte>)
    requires p + 4 <= DATA_SIZE && pos + |bs| <= DATA_SIZE && Apart(p, 4, pos, |bs|)
    ensures ReadPointer(Splice(d, pos, bs), p) == ReadPointer(d, p)
  {
  }

  // Writing a key or a digest moves neither the key nor the digest.
  lemma PositionsUnchanged(d: Block, l: Layout, pos: nat, bs: seq<byte>)
    requires pos + |bs| <= DATA_SIZE
    requires Apart(DigestPointerPos(l), 4, pos, |bs|) && Apart(PublicKeyPointerPos(l), 4, pos, |bs|)
    ensures DigestPos(Splice(d, pos, bs), l) == DigestPos(d, l)
    ensures PublicKeyPos(Splice(d, pos, bs), l) == PublicKeyPos(d, l)
  {
    hide Splice, ReadPointer;
    PointerUnchanged(d, DigestPointerPos(l), pos, bs);
    PointerUnchanged(d, PublicKeyPointerPos(l), pos, bs);
  }

  lemma SpliceParts(d: Block, pos: nat, bs: seq<byte>)
    requires pos + |bs| <= DATA_SIZE
    ensures var r := Splice(d, pos, bs);
      && r[pos..pos + |bs|] == bs && r[..pos] == d[..pos] && r[pos + |bs|..] == d[pos + |bs|..]
  {
  }

  lemma SpliceElsewhere(d: Block, pos: nat, bs: seq<byte>, a: nat, n: nat)
    requires pos + |bs| <= DATA_SIZE && a + n <= DATA_SIZE && Apart(a, n, pos, |bs|)
    ensures Splice(d, pos, bs)[a..a + n] == d[a..a + n]
  {
  }

  // What fill puts in is found again where the pointers lead, and does not move them.
  lemma FilledContents(h: Hmac, time: uint32, version: uint32, random: Block, l: Layout, isS1: bool, key: seq<byte>)
    requires |key| == KEY_LENGTH
    ensures var (c, digest) := Fill(h, time, version, random, l, isS1, key);
      Matches(h, c, isS1, l) && Contents(c, l) == (digest, key)
  {
    hide Splice, DigestPos, PublicKeyPos, DigestPointerPos, PublicKeyPointerPos;
    RegionsAreApart(random, l);
    var pos, keyPos := DigestPos(random, l), PublicKeyPos(random, l);
    var d1 := Splice(random, keyPos, key);
    PositionsUnchanged(random, l, keyPos, key);
    SpliceParts(random, keyPos, key);
    var digest := ComputeDigest(h, C1S1(time, version, d1), pos, isS1);
    PositionsUnchanged(d1, l, pos, digest);
    SpliceParts(d1, pos, digest);
    SpliceElsewhere(d1, pos, digest, keyPos, KEY_LENGTH);
  }

  // A filled packet is accepted with its own digest and key, unless it was filled in the second layout and
  // looks like a packet of the first one by accident: the first one is tried first.
  lemma FilledIsAccepted(h: Hmac, time: uint32, version: uint32, random: Block, l: Layout, isS1: bool, key: seq<byte>)
    requires |key| == KEY_LENGTH
    ensures var (c, digest) := Fill(h, time, version, random, l, isS1, key);
      ValidateDigest(h, c, isS1) ==
        if l.Two? && Matches(h, c, isS1, One) then Ok(Contents(c, One)) else Ok((digest, key))
  {
    FilledContents(h, time, version, random, l, isS1, key);
  }

  // --- C2 and S2 -------------------------------------------------------------------------------

  datatype C2S2 = C2S2(time: uint32, time2: uint32, data: Block)

  function WriteC2S2(c: C2S2): (buf: seq<byte>)
    ensures |buf| == PACKET_SIZE
  {
    Header(c.time, c.time2) + c.data
  }

  function ReadC2S2(buf: seq<byte>): C2S2
    requires |buf| == PACKET_SIZE
  {
    C2S2(Word(buf, 0), Word(buf, 4), buf[8..])
  }

  lemma WrittenC2S2IsRead(c: C2S2)
    ensures ReadC2S2(WriteC2S2(c)) == c
  {
    U32RoundTrip(c.time);
    U32RoundTrip(c.time2);
    assert WriteC2S2(c)[8..] == c.data;
  }

  // The key is derived from the digest of the packet that is answered.
  function ComputeDigestC2S2(h: Hmac, c: C2S2, isS2: bool, prev: Digest): Digest {
    h(h(SideKey(isS2) + RANDOM_CRUD, prev), Header(c.time, c.time2) + c.data[..C2S2_DIGEST_POS])
  }

  function FillC2S2(h: Hmac, time: uint32, time2: uint32, random: Block, isS2: bool, prev: Digest): C2S2 {
    var c := C2S2(time, time2, random);
    c.(data := Splice(random, C2S2_DIGEST_POS, ComputeDigestC2S2(h, c, isS2, prev)))
  }

  predicate ValidC2S2(h: Hmac, c: C2S2, isS2: bool, prev: Digest) {
    c.data[C2S2_DIGEST_POS..C2S2_DIGEST_POS + DIGEST_LENGTH] == ComputeDigestC2S2(h, c, isS2, prev)
  }

  // An answer is accepted exactly when the hash does not tell the two digests apart.
  lemma FilledC2S2IsAccepted(h: Hmac, time: uint32, time2: uint32, random: Block, isS2: bool, prev: Digest, other: Digest)
    ensures var c := FillC2S2(h, time, time2, random, isS2, prev);
      ValidC2S2(h, c, isS2, other) <==> ComputeDigestC2S2(h, c, isS2, other) == ComputeDigestC2S2(h, c, isS2, prev)
  {
    var c0 := C2S2(time, time2, random);
    var digest := ComputeDigestC2S2(h, c0, isS2, prev);
    var c := FillC2S2(h, time, time2, random, isS2, prev);
    assert c.data[..C2S2_DIGEST_POS] == random[..C2S2_DIGEST_POS];
    assert c.data[C2S2_DIGEST_POS..C2S2_DIGEST_POS + DIGEST_LENGTH] == digest;
  }
}
