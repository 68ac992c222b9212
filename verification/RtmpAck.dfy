/** Acknowledgement accounting on 32-bit counters that wrap around. */
module RtmpAck {
  import opened ByteStreams

  const WORD := 0x1_0000_0000

  // The check done after each chunk, on the true counts: what the wrapped counters stand for.
  function Checked(lastAck: nat, count: nat, window: uint32): nat {
    if window != 0 && count - lastAck > window then lastAck + window else lastAck
  }

  // The counters of the reader. The ghost fields are the byte counts since the beginning of time.
  class AckCounter {
    var ackWindowSize: uint32
    var lastAckCount: uint32
    var acks: seq<uint32>
    ghost var trueLast: nat

    constructor (window: uint32)
      ensures ackWindowSize == window && Valid() && trueLast == 0 && acks == []
    {
      ackWindowSize, lastAckCount, acks, trueLast := window, 0, [], 0;
    }

    ghost predicate Valid()
      reads this
    {
      lastAckCount == Wrap32(trueLast)
    }

    // readChunk after the chunk: `count` is what the byte counter says, a 64-bit number cut to 32 bits.
    // As long as the true lag fits in a word, the wrapped subtraction decides what the true one would.
    method Check(count: nat)
      requires Valid() && trueLast <= count < trueLast + WORD
      modifies this
      ensures Valid() && ackWindowSize == old(ackWindowSize)
      ensures trueLast == Checked(old(trueLast), count, ackWindowSize) <= count
      ensures acks == if trueLast != old(trueLast) then old(acks) + [Wrap32(count)] else old(acks)
    {
      if ackWindowSize != 0 {
        var diff := Wrap32(Wrap32(count) - lastAckCount);
        WrappedLag(trueLast, count);
        if diff > ackWindowSize {
          acks := acks + [Wrap32(count)];
          WrappedSum(trueLast, ackWindowSize);
          lastAckCount := Wrap32(lastAckCount + ackWindowSize);
          trueLast := trueLast + ackWindowSize;
        }
      }
    }
  }

  lemma WrappedSum(a: nat, b: nat)
    ensures Wrap32(Wrap32(a) + b) == Wrap32(a + b)
  {
    assert a == WORD * (a / WORD) + a % WORD;
    assert (a % WORD + b) + WORD * (a / WORD) == a + b;
    ModPlusMultiple(a % WORD + b, a / WORD);
  }

  lemma ModPlusMultiple(x: int, k: int)
    ensures (x + WORD * k) % WORD == x % WORD
  {
  }

  // The 32-bit difference is the true lag exactly when the lag fits in 32 bits.
  lemma WrappedLag(last: nat, count: nat)
    requires last <= count
    ensures Wrap32(Wrap32(count) - Wrap32(last)) == count - last <==> count - last < WORD
  {
    var q := count / WORD - last / WORD;
    assert count == WORD * (count / WORD) + count % WORD && last == WORD * (last / WORD) + last % WORD;
    assert count % WORD - last % WORD == count - last + WORD * (-q);
    ModPlusMultiple(count - last, -q);
  }

  // A run: the byte counts at successive checks.
  ghost predicate Steady(start: nat, counts: seq<nat>, window: uint32) {
    && (counts != [] ==> start <= counts[0] <= start + window)
    && forall i :: 0 < i < |counts| ==> counts[i - 1] <= counts[i] <= counts[i - 1] + window
  }

  function LastAfter(last: nat, counts: seq<nat>, window: uint32): nat
    decreases |counts|
  {
    if counts == [] then last
    else LastAfter(Checked(last, counts[0], window), counts[1..], window)
  }

  // On a run of any length, with at most a window of new bytes between checks and twice the window below
  // 2^32: no check sees a lag of 2^32 or more, and after each the lag is at most the window.
  lemma {:induction false} LagStaysWithinWindow(last: nat, start: nat, counts: seq<nat>, window: uint32)
    requires 0 < window && 2 * window < WORD
    requires last <= start <= last + window && Steady(start, counts, window)
    ensures counts != [] ==> last <= counts[0] < last + WORD
    ensures var end := if counts == [] then start else counts[|counts| - 1];
      LastAfter(last, counts, window) <= end <= LastAfter(last, counts, window) + window
    ensures forall k :: 0 <= k < |counts| ==>
      LastAfter(last, counts[..k], window) <= counts[k] < LastAfter(last, counts[..k], window) + WORD
    decreases |counts|
  {
    if counts != [] {
      var last' := Checked(last, counts[0], window);
      LagStaysWithinWindow(last', counts[0], counts[1..], window);
      forall k | 0 <= k < |counts|
        ensures LastAfter(last, counts[..k], window) <= counts[k] < LastAfter(last, counts[..k], window) + WORD
      {
        if k > 0 {
          assert counts[..k][1..] == counts[1..][..k - 1] && counts[k] == counts[1..][k - 1];
          assert LastAfter(last', counts[1..][..k - 1], window) <= counts[1..][k - 1];
        }
      }
    }
  }
}
