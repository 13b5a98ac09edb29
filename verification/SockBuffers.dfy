/** SockBuffer: a queue feeding a right-justified output array, seen from outside as one FIFO. */
module SockBuffers {
  import opened Wire
  import opened Streams

  const BUFFER_SIZE := 4096

  lemma TakeFront(out: seq<Byte>, queue: seq<Byte>, n: nat)
    requires n <= |out|
    ensures out[..n] == (out + queue)[..n] && (out + queue)[n..] == out[n..] + queue
    ensures out + queue == (out + queue)[..n] + (out + queue)[n..]
  {}

  /** What the kernel offers at the k-th call. */
  function Offered(counts: seq<nat>, k: nat): nat {
    if k < |counts| then counts[k] else 0
  }

  class SockBuffer {
    var queue: seq<Byte>
    const outputBuf: array<Byte>
    var outputPosition: nat
    /** Every byte put in since the last clear() that was kept, and every byte written out. */
    ghost var accepted: seq<Byte>
    ghost var written: seq<Byte>

    /** The bytes still to be written, oldest first. */
    ghost function Pending(): seq<Byte>
      requires outputPosition <= outputBuf.Length
      reads this, outputBuf
    {
      outputBuf[outputPosition..] + queue
    }

    ghost predicate Valid()
      reads this, outputBuf
    {
      && outputBuf.Length == BUFFER_SIZE
      && outputPosition <= BUFFER_SIZE
      && accepted == written + Pending()
    }

    constructor ()
      ensures Valid() && fresh(outputBuf) && Pending() == [] && accepted == [] && written == []
    {
      queue, outputPosition, accepted, written := [], BUFFER_SIZE, [], [];
      outputBuf := new Byte[BUFFER_SIZE](_ => 0);
    }

    method UnsentData() returns (unsent: bool)
      requires Valid()
      ensures unsent <==> Pending() != []
    {
      unsent := outputPosition != BUFFER_SIZE || queue != [];
    }

    method PushOnBuffer(bytes: seq<Byte>)
      requires Valid()
      modifies this`queue, this`accepted
      ensures Valid() && Pending() == old(Pending()) + bytes
      ensures accepted == old(accepted) + bytes
    {
      queue := queue + bytes;
      accepted := accepted + bytes;
      assert Pending() == old(Pending()) + bytes;
    }

    /** Reads until a read comes up short; `counts` is what the kernel offers call by call. So all reads but the last
        fill the buffer, and the last one does not. */
    method ReadData(pipe: Pipe, counts: seq<nat>) returns (total: nat)
      requires Valid()
      modifies this`queue, this`accepted, pipe
      ensures Valid() && written == old(written)
      ensures total <= |old(pipe.bytes)| && pipe.bytes == old(pipe.bytes)[total..]
      ensures Pending() == old(Pending()) + old(pipe.bytes)[..total]
      ensures var full := total / BUFFER_SIZE;
        && (forall k :: 0 <= k < full ==> Offered(counts, k) >= BUFFER_SIZE)
        && total % BUFFER_SIZE == Least(Offered(counts, full), |old(pipe.bytes)| - full * BUFFER_SIZE)
    {
      total := 0;
      var i := 0;
      while true
        invariant Valid() && written == old(written)
        invariant total <= |old(pipe.bytes)| && pipe.bytes == old(pipe.bytes)[total..]
        invariant Pending() == old(Pending()) + old(pipe.bytes)[..total]
        invariant total == i * BUFFER_SIZE && forall k :: 0 <= k < i ==> Offered(counts, k) >= BUFFER_SIZE
        decreases |pipe.bytes|
      {
        var input := pipe.Read(BUFFER_SIZE, Offered(counts, i));
        PushOnBuffer(input);
        assert old(pipe.bytes)[..total] + input == old(pipe.bytes)[..total + |input|];
        total := total + |input|;
        if |input| != BUFFER_SIZE { break; }
        i := i + 1;
      }
    }

    /** Moves up to a bufferful from the queue to the end of the output array. */
    method Refill()
      requires Valid() && outputPosition == BUFFER_SIZE
      modifies this`queue, this`outputPosition, outputBuf
      ensures Valid() && Pending() == old(Pending())
      ensures outputPosition == BUFFER_SIZE - Least(BUFFER_SIZE, |old(queue)|)
    {
      var fillSize := if |queue| > BUFFER_SIZE then BUFFER_SIZE else |queue|;
      var total := fillSize;
      outputPosition := outputPosition - fillSize;
      while fillSize > 0
        invariant 0 <= fillSize <= total <= |old(queue)|
        invariant outputPosition == BUFFER_SIZE - total
        invariant queue == old(queue)[total - fillSize..]
        invariant outputBuf[outputPosition..BUFFER_SIZE - fillSize] == old(queue)[..total - fillSize]
      {
        outputBuf[BUFFER_SIZE - fillSize] := queue[0];
        queue := queue[1..];
        fillSize := fillSize - 1;
      }
      assert outputBuf[outputPosition..] == old(queue)[..total];
      assert old(outputBuf[outputPosition..]) == [];
    }

    /** How much is offered to the next write: what is in the output array, or if that is empty a bufferful of the
        queue. */
    function Front(): nat
      reads this
    {
      if outputPosition < BUFFER_SIZE then BUFFER_SIZE - outputPosition else Least(BUFFER_SIZE, |queue|)
    }

    lemma FrontIs()
      requires Valid()
      ensures Front() > 0 <==> Pending() != []
    {}

    /** One write: the oldest pending bytes go out, in order, and leave the buffer. */
    method WriteData(pipe: Pipe, count: nat) returns (n: nat)
      requires Valid()
      modifies this, outputBuf, pipe
      ensures Valid() && accepted == old(accepted)
      ensures n <= |old(Pending())| && n <= BUFFER_SIZE && n <= count
      ensures Pending() == old(Pending())[n..]
      ensures pipe.bytes == old(pipe.bytes) + old(Pending())[..n]
      ensures written == old(written) + old(Pending())[..n]
      ensures n == Least(count, old(Front()))
      ensures count > 0 && old(Pending()) != [] ==> n > 0
    {
      FrontIs();
      hide Pending;
      ghost var front := Front();
      if outputPosition == BUFFER_SIZE {
        Refill();
      }
      assert BUFFER_SIZE - outputPosition == front;
      hide Front;
      n := Flush(pipe, count);
    }

    /** The write itself, from the output array only. */
    method Flush(pipe: Pipe, count: nat) returns (n: nat)
      requires Valid()
      modifies this`outputPosition, this`written, pipe
      ensures Valid()
      ensures n <= |old(Pending())| && n <= BUFFER_SIZE && n <= count
      ensures Pending() == old(Pending())[n..]
      ensures pipe.bytes == old(pipe.bytes) + old(Pending())[..n]
      ensures written == old(written) + old(Pending())[..n]
      ensures n == Least(count, BUFFER_SIZE - old(outputPosition))
    {
      var out := outputBuf[outputPosition..];
      n := pipe.Write(out, count);
      TakeFront(out, queue, n);
      written := written + out[..n];
      outputPosition := outputPosition + n;
      assert Pending() == out[n..] + queue by {
        assert outputBuf[outputPosition..] == out[n..];
      }
    }

    method GetCopyOfBuffer() returns (bytes: seq<Byte>)
      requires Valid()
      ensures bytes == queue && exists k :: 0 <= k <= |Pending()| && bytes == Pending()[k..]
    {
      bytes := queue;
      assert bytes == Pending()[BUFFER_SIZE - outputPosition..];
    }

    method Clear()
      requires Valid()
      modifies this`queue, this`outputPosition, this`accepted
      ensures Valid() && Pending() == [] && written == old(written) == accepted
    {
      outputPosition := BUFFER_SIZE;
      queue := [];
      accepted := written;
    }
  }
}
