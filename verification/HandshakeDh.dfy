/** Diffie-Hellman over byte strings: section 2.1.1 and section 2.1.5 of RFC 2631. */
module HandshakeDh {
  import opened Wrappers
  import opened ByteStreams

  const KEY_LENGTH := 128

  const P1024: seq<byte> := [
    0xff, 0xff, 0xff, 0xff, 0xff, 0xff, 0xff, 0xff, 0xc9, 0x0f, 0xda, 0xa2, 0x21, 0x68, 0xc2, 0x34,
    0xc4, 0xc6, 0x62, 0x8b, 0x80, 0xdc, 0x1c, 0xd1, 0x29, 0x02, 0x4e, 0x08, 0x8a, 0x67, 0xcc, 0x74,
    0x02, 0x0b, 0xbe, 0xa6, 0x3b, 0x13, 0x9b, 0x22, 0x51, 0x4a, 0x08, 0x79, 0x8e, 0x34, 0x04, 0xdd,
    0xef, 0x95, 0x19, 0xb3, 0xcd, 0x3a, 0x43, 0x1b, 0x30, 0x2b, 0x0a, 0x6d, 0xf2, 0x5f, 0x14, 0x37,
    0x4f, 0xe1, 0x35, 0x6d, 0x6d, 0x51, 0xc2, 0x45, 0xe4, 0x85, 0xb5, 0x76, 0x62, 0x5e, 0x7e, 0xc6,
    0xf4, 0x4c, 0x42, 0xe9, 0xa6, 0x37, 0xed, 0x6b, 0x0b, 0xff, 0x5c, 0xb6, 0xf4, 0x06, 0xb7, 0xed,
    0xee, 0x38, 0x6b, 0xfb, 0x5a, 0x89, 0x9f, 0xa5, 0xae, 0x9f, 0x24, 0x11, 0x7c, 0x4b, 0x1f, 0xe6,
    0x49, 0x28, 0x66, 0x51, 0xec, 0xe6, 0x53, 0x81, 0xff, 0xff, 0xff, 0xff, 0xff, 0xff, 0xff, 0xff]

  const Q1024: seq<byte> := [
    0x7f, 0xff, 0xff, 0xff, 0xff, 0xff, 0xff, 0xff, 0xe4, 0x87, 0xed, 0x51, 0x10, 0xb4, 0x61, 0x1a,
    0x62, 0x63, 0x31, 0x45, 0xc0, 0x6e, 0x0e, 0x68, 0x94, 0x81, 0x27, 0x04, 0x45, 0x33, 0xe6, 0x3a,
    0x01, 0x05, 0xdf, 0x53, 0x1d, 0x89, 0xcd, 0x91, 0x28, 0xa5, 0x04, 0x3c, 0xc7, 0x1a, 0x02, 0x6e,
    0xf7, 0xca, 0x8c, 0xd9, 0xe6, 0x9d, 0x21, 0x8d, 0x98, 0x15, 0x85, 0x36, 0xf9, 0x2f, 0x8a, 0x1b,
    0xa7, 0xf0, 0x9a, 0xb6, 0xb6, 0xa8, 0xe1, 0x22, 0xf2, 0x42, 0xda, 0xbb, 0x31, 0x2f, 0x3f, 0x63,
    0x7a, 0x26, 0x21, 0x74, 0xd3, 0x1b, 0xf6, 0xb5, 0x85, 0xff, 0xae, 0x5b, 0x7a, 0x03, 0x5b, 0xf6,
    0xf7, 0x1c, 0x35, 0xfd, 0xad, 0x44, 0xcf, 0xd2, 0xd7, 0x4f, 0x92, 0x08, 0xbe, 0x25, 0x8f, 0xf3,
    0x24, 0x94, 0x33, 0x28, 0xf6, 0x73, 0x29, 0xc0, 0xff, 0xff, 0xff, 0xff, 0xff, 0xff, 0xff, 0xff]

  // --- Numbers as bytes ------------------------------------------------------------------------

  // SetBytes: big-endian, any number of leading zeros.
  function FromBytes(bs: seq<byte>): nat {
    if bs == [] then 0 else FromBytes(bs[..|bs| - 1]) * 256 + bs[|bs| - 1]
  }

  // Bytes: big-endian, no leading zero.
  function ToBytes(n: nat): seq<byte> {
    if n == 0 then [] else ToBytes(n / 256) + [n % 256]
  }

  function Zeros(n: nat): seq<byte> {
    seq(n, _ => 0)
  }

  function Padded(bs: seq<byte>): seq<byte> {
    if |bs| < KEY_LENGTH then Zeros(KEY_LENGTH - |bs|) + bs else bs
  }

  function Exp(b: nat, e: nat): nat {
    if e == 0 then 1 else b * Exp(b, e - 1)
  }

  lemma {:induction false} ZerosAddNothing(k: nat, bs: seq<byte>)
    ensures FromBytes(Zeros(k) + bs) == FromBytes(bs)
  {
    if bs != [] {
      assert (Zeros(k) + bs)[..k + |bs| - 1] == Zeros(k) + bs[..|bs| - 1];
      ZerosAddNothing(k, bs[..|bs| - 1]);
    } else if k > 0 {
      assert (Zeros(k) + bs)[..k - 1] == Zeros(k - 1) + [];
      ZerosAddNothing(k - 1, []);
    } else {
      assert Zeros(k) + bs == [];
    }
  }

  lemma {:induction false} BytesRoundTrip(n: nat)
    ensures FromBytes(ToBytes(n)) == n
  {
    if n > 0 {
      BytesRoundTrip(n / 256);
      assert ToBytes(n)[..|ToBytes(n)| - 1] == ToBytes(n / 256);
    }
  }

  lemma {:induction false} ToBytesFits(n: nat, k: nat)
    requires n < Exp(256, k)
    ensures |ToBytes(n)| <= k
  {
    if n > 0 {
      assert k > 0;
      ToBytesFits(n / 256, k - 1);
    }
  }

  lemma {:induction false} FromBytesFits(bs: seq<byte>)
    ensures FromBytes(bs) < Exp(256, |bs|)
  {
    if bs != [] {
      FromBytesFits(bs[..|bs| - 1]);
    }
  }

  // A number below p is 128 bytes long when padded, and reads back as itself.
  lemma PaddedRoundTrip(n: nat)
    requires n < FromBytes(P1024)
    ensures |Padded(ToBytes(n))| == KEY_LENGTH && FromBytes(Padded(ToBytes(n))) == n
  {
    FromBytesFits(P1024);
    ToBytesFits(n, KEY_LENGTH);
    ZerosAddNothing(KEY_LENGTH - |ToBytes(n)|, ToBytes(n));
    BytesRoundTrip(n);
  }

  lemma ModulusIsBig()
    ensures FromBytes(P1024) > 2
  {
    assert P1024[127] == 0xff;
    assert FromBytes(P1024) == FromBytes(P1024[..127]) * 256 + P1024[127];
  }

  // --- Powers modulo p -------------------------------------------------------------------------

  function ModExp(b: nat, e: nat, p: nat): nat
    requires p > 0
  {
    Exp(b, e) % p
  }

  lemma {:induction false} ExpAdd(b: nat, x: nat, y: nat)
    ensures Exp(b, x + y) == Exp(b, x) * Exp(b, y)
  {
    if x > 0 {
      ExpAdd(b, x - 1, y);
      MulAssoc(b, Exp(b, x - 1), Exp(b, y));
    }
  }

  lemma MulAssoc(a: nat, b: nat, c: nat)
    ensures a * (b * c) == a * b * c
  {
  }

  lemma {:induction false} ExpExp(b: nat, x: nat, y: nat)
    ensures Exp(Exp(b, x), y) == Exp(b, x * y)
  {
    if y > 0 {
      ExpExp(b, x, y - 1);
      ExpAdd(b, x, x * (y - 1));
      assert x + x * (y - 1) == x * y;
    }
  }

  lemma MulMod(a: nat, b: nat, p: nat)
    requires p > 0
    ensures a % p * b % p == a * b % p
  {
    var q := a / p;
    assert a == q * p + a % p;
    assert a * b == a % p * b + q * b * p by {
      assert a * b == (q * p + a % p) * b;
      assert (q * p + a % p) * b == q * p * b + a % p * b;
      assert q * p * b == q * b * p;
    }
    AddMultiple(a % p * b, q * b, p);
  }

  lemma {:induction false} AddMultiple(a: nat, k: nat, p: nat)
    requires p > 0
    ensures (a + k * p) % p == a % p
  {
    if k > 0 {
      AddMultiple(a, k - 1, p);
      assert a + k * p == a + (k - 1) * p + p;
      AddOne(a + (k - 1) * p, p);
    }
  }

  lemma AddOne(a: nat, p: nat)
    requires p > 0
    ensures (a + p) % p == a % p
  {
    var q, r := a / p, a % p;
    assert a + p == (q + 1) * p + r;
    Remainder(a + p, p, q + 1, r);
  }

  lemma Remainder(a: nat, p: nat, q: nat, r: nat)
    requires r < p && a == q * p + r
    ensures a % p == r
  {
    var q' := a / p;
    assert a == q' * p + a % p;
    if q' < q {
      Times(q' + 1, q, p);
    } else if q < q' {
      Times(q + 1, q', p);
    }
  }

  lemma Times(a: nat, b: nat, p: nat)
    requires a <= b
    ensures a * p <= b * p
  {
  }

  // The base can be reduced first.
  lemma {:induction false} ModExpOfMod(b: nat, e: nat, p: nat)
    requires p > 0
    ensures ModExp(b % p, e, p) == ModExp(b, e, p)
  {
    if e > 0 {
      ModExpOfMod(b, e - 1, p);
      var r, s := Exp(b % p, e - 1), Exp(b, e - 1);
      MulMod(b, r, p);
      MulMod(r, b, p);
      MulMod(s, b, p);
      Commute(b % p, r);
      Commute(b, r);
      Commute(b, s);
    }
  }

  lemma Commute(a: nat, b: nat)
    ensures a * b == b * a
  {
  }

  lemma {:induction false} OneExp(e: nat)
    ensures Exp(1, e) == 1
  {
    if e > 0 {
      OneExp(e - 1);
    }
  }

  // --- Keys ------------------------------------------------------------------------------------

  datatype KeyError = TooSmall | TooBig | WrongOrder

  function ValidatePublicKey(key: seq<byte>): Option<KeyError> {
    var y, p, q := FromBytes(key), FromBytes(P1024), FromBytes(Q1024);
    ModulusIsBig();
    if y < 2 then Some(TooSmall)
    else if y >= p then Some(TooBig)
    else if ModExp(y, q, p) != 1 then Some(WrongOrder)
    else None
  }

  function PublicKey(priv: seq<byte>): seq<byte> {
    ModulusIsBig();
    Padded(ToBytes(ModExp(2, FromBytes(priv), FromBytes(P1024))))
  }

  function SharedSecret(priv: seq<byte>, pub: seq<byte>): seq<byte> {
    ModulusIsBig();
    Padded(ToBytes(ModExp(FromBytes(pub), FromBytes(priv), FromBytes(P1024))))
  }

  // 2 generates a group of order q.
  ghost predicate GeneratorHasOrderQ() {
    ModulusIsBig();
    ModExp(2, FromBytes(Q1024), FromBytes(P1024)) == 1
  }

  lemma PublicKeyValue(priv: seq<byte>)
    ensures FromBytes(P1024) > 2 && |PublicKey(priv)| == KEY_LENGTH
    ensures FromBytes(PublicKey(priv)) == ModExp(2, FromBytes(priv), FromBytes(P1024)) < FromBytes(P1024)
  {
    ModulusIsBig();
    PaddedRoundTrip(ModExp(2, FromBytes(priv), FromBytes(P1024)));
  }

  lemma PowersCommute(g: nat, a: nat, b: nat, p: nat)
    requires p > 0
    ensures ModExp(ModExp(g, a, p), b, p) == ModExp(ModExp(g, b, p), a, p)
  {
    ModExpOfMod(Exp(g, a), b, p);
    ModExpOfMod(Exp(g, b), a, p);
    ExpExp(g, a, b);
    ExpExp(g, b, a);
    Commute(a, b);
  }

  lemma SubgroupPower(g: nat, x: nat, q: nat, p: nat)
    requires p > 1 && ModExp(g, q, p) == 1
    ensures ModExp(ModExp(g, x, p), q, p) == 1
  {
    hide ModExp;
    PowersCommute(g, x, q, p);
    OneModExp(x, p);
  }

  lemma OneModExp(e: nat, p: nat)
    requires p > 1
    ensures ModExp(1, e, p) == 1
  {
    OneExp(e);
    Remainder(1, p, 0, 1);
  }

  // A generated key passes the check exactly when it is at least 2: the private key is not a multiple of the
  // order of the generator.
  lemma GeneratedKeyIsValid(priv: seq<byte>)
    requires GeneratorHasOrderQ()
    ensures ValidatePublicKey(PublicKey(priv)) == None <==> FromBytes(PublicKey(priv)) >= 2
  {
    hide Exp, FromBytes;
    PublicKeyValue(priv);
    SubgroupPower(2, FromBytes(priv), FromBytes(Q1024), FromBytes(P1024));
  }

  // Both sides get the same secret, 128 bytes long.
  lemma SecretsAgree(privA: seq<byte>, privB: seq<byte>)
    ensures SharedSecret(privA, PublicKey(privB)) == SharedSecret(privB, PublicKey(privA))
    ensures |SharedSecret(privA, PublicKey(privB))| == KEY_LENGTH
  {
    hide ModExp, FromBytes, ToBytes;
    PublicKeyValue(privA);
    PublicKeyValue(privB);
    PowersCommute(2, FromBytes(privA), FromBytes(privB), FromBytes(P1024));
    ModExpIsSmall(FromBytes(PublicKey(privB)), FromBytes(privA), FromBytes(P1024));
    PaddedRoundTrip(ModExp(FromBytes(PublicKey(privB)), FromBytes(privA), FromBytes(P1024)));
  }

  lemma ModExpIsSmall(b: nat, e: nat, p: nat)
    requires p > 0
    ensures ModExp(b, e, p) < p
  {
  }
}
