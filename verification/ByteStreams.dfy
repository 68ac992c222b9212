/** Bytes, 32-bit words and the byte stream a packet is read from. */
module ByteStreams {
  import opened Wrappers

  type byte = x: int | 0 <= x < 256
  type uint32 = x: int | 0 <= x < 0x1_0000_0000

  // Go's conversion of an int64 to uint32: the low 32 bits of the two's complement form.
  function Wrap32(x: int): uint32 {
    x % 0x1_0000_0000
  }

  // Byte k of a word, as `byte(v >> (8 * k))` computes it: each shift by 8 divides by 256.
  function Byte0(x: uint32): byte { x % 0x100 }

  function Byte1(x: uint32): byte { x / 0x100 % 0x100 }

  function Byte2(x: uint32): byte { x / 0x100 / 0x100 % 0x100 }

  function Byte3(x: uint32): byte { x / 0x100 / 0x100 / 0x100 }

  // A 24-bit field, most significant byte first.
  function U24(b2: byte, b1: byte, b0: byte): uint32 {
    b2 * 0x1_0000 + b1 * 0x100 + b0
  }

  // A 32-bit field, most significant byte first.
  function U32(b3: byte, b2: byte, b1: byte, b0: byte): uint32 {
    b3 * 0x100_0000 + b2 * 0x1_0000 + b1 * 0x100 + b0
  }

  function PutU32(x: uint32): seq<byte> {
    [Byte3(x), Byte2(x), Byte1(x), Byte0(x)]
  }

  lemma U32RoundTrip(x: uint32)
    ensures U32(Byte3(x), Byte2(x), Byte1(x), Byte0(x)) == x
  {
    var q := x / 0x100;
    var q2 := q / 0x100;
    assert x == 0x100 * q + x % 0x100 && q == 0x100 * q2 + q % 0x100;
    assert q2 == 0x100 * (q2 / 0x100) + q2 % 0x100;
  }

  // A 24-bit field drops the top byte, so it gives the word back exactly when the word fits.
  lemma U24RoundTrip(x: uint32)
    ensures U24(Byte2(x), Byte1(x), Byte0(x)) == x <==> x < 0x100_0000
  {
    var q := x / 0x100;
    var q2 := q / 0x100;
    assert x == 0x100 * q + x % 0x100 && q == 0x100 * q2 + q % 0x100;
    assert q2 == 0x100 * (q2 / 0x100) + q2 % 0x100;
  }

  function Flatten<T>(parts: seq<seq<T>>): seq<T> {
    if parts == [] then [] else parts[0] + Flatten(parts[1..])
  }

  lemma FlattenCons<T>(x: seq<T>, rest: seq<seq<T>>)
    ensures Flatten([x] + rest) == x + Flatten(rest)
  {
    assert ([x] + rest)[1..] == rest;
  }

  lemma ConcatAssociates<T>(a: seq<T>, b: seq<T>, c: seq<T>)
    ensures a + b + c == a + (b + c)
  {
  }

  lemma FlattenSnoc<T>(parts: seq<seq<T>>, x: seq<T>)
    ensures Flatten(parts + [x]) == Flatten(parts) + x
  {
    FlattenAppend(parts, [x]);
    assert Flatten([x]) == x;
  }

  lemma {:induction false} FlattenAppend<T>(a: seq<seq<T>>, b: seq<seq<T>>)
    ensures Flatten(a + b) == Flatten(a) + Flatten(b)
  {
    if a == [] {
      assert a + b == b;
    } else {
      assert (a + b)[1..] == a[1..] + b;
      FlattenAppend(a[1..], b);
    }
  }

  // copy(buf[at:], data) for a buffer with enough room.
  method Copy(buf: array<byte>, at: nat, data: seq<byte>)
    requires at + |data| <= buf.Length
    modifies buf
    ensures buf[..] == old(buf[..at]) + data + old(buf[at + |data|..])
  {
    for i := 0 to |data|
      invariant buf[..at] == old(buf[..at])
      invariant buf[at + i..] == old(buf[at + i..])
      invariant buf[at..at + i] == data[..i]
    {
      buf[at + i] := data[i];
      assert buf[at..at + i + 1] == buf[at..at + i] + [data[i]];
      assert buf[at + i + 1..] == old(buf[at + i..])[1..];
    }
    assert buf[..] == buf[..at] + buf[at..at + |data|] + buf[at + |data|..];
  }

  // The buffered byte stream: what is still unread.
  class Source {
    var pending: seq<byte>

    constructor (data: seq<byte>)
      ensures pending == data
    {
      pending := data;
    }

    // io.ReadFull: all n bytes, or an error once the stream is exhausted.
    method ReadFull(n: nat) returns (r: Option<seq<byte>>)
      modifies this
      ensures n <= |old(pending)| ==> r == Some(old(pending)[..n]) && pending == old(pending)[n..]
      ensures |old(pending)| < n ==> r == None && pending == []
    {
      if n <= |pending| {
        r := Some(pending[..n]);
        pending := pending[n..];
      } else {
        r := None;
        pending := [];
      }
    }
  }
}
