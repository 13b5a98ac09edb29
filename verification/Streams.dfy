/** Framing as a value: the byte stream a list of packet payloads becomes. */
module Framing {
  import opened Wire

  type Payload = seq<Byte>

  /** Longest payload ReadStream::fill accepts. */
  const MAX_PAYLOAD := 50_000_000

  function Frame(p: Payload): (bs: seq<Byte>)
    ensures |bs| == 4 + |p|
  {
    PutLong(|p|) + p
  }

  function Frames(ps: seq<Payload>): seq<Byte> {
    if ps == [] then [] else Frame(ps[0]) + Frames(ps[1..])
  }

  /** How far it is from byte n to the end of the frame that it is in. */
  function ToBoundary(ps: seq<Payload>, n: nat): nat {
    if ps == [] then 0
    else if n < |Frame(ps[0])| then |Frame(ps[0])| - n
    else ToBoundary(ps[1..], n - |Frame(ps[0])|)
  }

  lemma {:induction false} BoundaryAt(ps: seq<Payload>, base: nat, k: nat)
    requires base <= |ps|
    ensures base < |ps| && k < |Frame(ps[base])| ==>
      ToBoundary(ps, |Frames(ps[..base])| + k) == |Frame(ps[base])| - k
    ensures base == |ps| ==> ToBoundary(ps, |Frames(ps[..base])|) == 0
  {
    hide Frame;
    if base > 0 {
      BoundaryAt(ps[1..], base - 1, k);
      assert ps[..base][1..] == ps[1..][..base - 1] && ps[..base][0] == ps[0];
    }
  }

  ghost predicate Fits(ps: seq<Payload>, limit: nat) {
    forall i :: 0 <= i < |ps| ==> |ps[i]| <= limit
  }

  /** `part` is what may be left over after whole frames: too short to complete one. */
  predicate Partial(part: seq<Byte>) {
    |part| < 4 || |part| < 4 + GetLong(part)
  }

  lemma {:induction false} FramesAppend(ps: seq<Payload>, p: Payload)
    ensures Frames(ps + [p]) == Frames(ps) + Frame(p)
  {
    hide PutLong;
    if ps == [] {
      assert ps + [p] == [p] && Frames([p]) == Frame(p) + Frames([]);
    } else {
      FramesAppend(ps[1..], p);
      assert (ps + [p])[1..] == ps[1..] + [p];
    }
  }

  /** Two frames that start the same stream carry the same payload. */
  lemma FrameUnique(p: Payload, q: Payload, s: seq<Byte>, t: seq<Byte>)
    requires |p| < 0x1_0000_0000 && |q| < 0x1_0000_0000
    requires Frame(p) + s <= Frame(q) + t
    ensures p == q && s <= t
  {
    hide PutLong, GetLong;
    var a, b := Frame(p) + s, Frame(q) + t;
    assert a == PutLong(|p|) + (p + s) && b == PutLong(|q|) + (q + t);
    LongRoundTrip(|p|, p + s);
    LongRoundTrip(|q|, q + t);
    assert a[..4] == b[..4];
    SameHeader(a, b);
    assert a[4..] == p + s && b[4..] == q + t && a[4..] <= b[4..];
    assert p == (p + s)[..|p|] && q == (q + t)[..|p|];
    assert s == (p + s)[|p|..] && t == (q + t)[|p|..];
  }

  lemma SameHeader(a: seq<Byte>, b: seq<Byte>)
    requires |a| >= 4 && |b| >= 4 && a[..4] == b[..4]
    ensures GetLong(a) == GetLong(b)
  {}

  /** Framing is prefix-faithful: if the bytes consumed so far decode to `got` and are a prefix
      of the frames of `sent`, then `got` is a prefix of `sent`. */
  lemma {:induction false} PrefixOfFrames(got: seq<Payload>, part: seq<Byte>, sent: seq<Payload>)
    requires Fits(got, MAX_PAYLOAD) && Fits(sent, 0xffff_ffff)
    requires Frames(got) + part <= Frames(sent)
    ensures got <= sent
  {
    hide PutLong, GetLong;
    if got != [] {
      assert Frames(got) + part == Frame(got[0]) + (Frames(got[1..]) + part);
      assert |Frames(got) + part| >= 4 && sent != [];
      FrameUnique(got[0], sent[0], Frames(got[1..]) + part, Frames(sent[1..]));
      PrefixOfFrames(got[1..], part, sent[1..]);
      assert got == [got[0]] + got[1..] && sent == [sent[0]] + sent[1..];
    }
  }

  /** The length announced by a partial frame is that of a payload that was sent. */
  lemma {:induction false} BoundedHeader(got: seq<Payload>, part: seq<Byte>, sent: seq<Payload>)
    requires Fits(got, MAX_PAYLOAD) && Fits(sent, MAX_PAYLOAD)
    requires Frames(got) + part <= Frames(sent)
    ensures |part| >= 4 ==> GetLong(part) <= MAX_PAYLOAD
  {
    hide PutLong, GetLong;
    if got == [] {
      if |part| >= 4 {
        assert part <= Frames(sent) == PutLong(|sent[0]|) + (sent[0] + Frames(sent[1..]));
        LongRoundTrip(|sent[0]|, sent[0] + Frames(sent[1..]));
        SameHeader(part, Frames(sent));
      }
    } else {
      assert Frames(got) + part == Frame(got[0]) + (Frames(got[1..]) + part);
      FrameUnique(got[0], sent[0], Frames(got[1..]) + part, Frames(sent[1..]));
      BoundedHeader(got[1..], part, sent[1..]);
    }
  }

  /** Nothing is held back: once every byte has been consumed, every payload has been delivered. */
  lemma {:induction false} AllOfFrames(got: seq<Payload>, part: seq<Byte>, sent: seq<Payload>)
    requires Fits(got, MAX_PAYLOAD) && Fits(sent, 0xffff_ffff)
    requires Frames(got) + part == Frames(sent) && Partial(part)
    ensures got == sent && part == []
  {
    hide PutLong, GetLong;
    if got == [] {
      assert part == Frames(sent);
      if sent != [] {
        assert part == PutLong(|sent[0]|) + (sent[0] + Frames(sent[1..]));
        LongRoundTrip(|sent[0]|, sent[0] + Frames(sent[1..]));
        assert false;
      }
    } else {
      assert Frames(got) + part == Frame(got[0]) + (Frames(got[1..]) + part);
      assert |Frames(got) + part| >= 4 && sent != [];
      FrameUnique(got[0], sent[0], Frames(got[1..]) + part, Frames(sent[1..]));
      FrameUnique(sent[0], got[0], Frames(sent[1..]), Frames(got[1..]) + part);
      AllOfFrames(got[1..], part, sent[1..]);
      assert got == [got[0]] + got[1..] && sent == [sent[0]] + sent[1..];
    }
  }
}

/** WriteStream, ReadStream and the descriptor pair between them. */
module Streams {
  import opened Wire
  import opened Framing
  import opened Polling

  /** A reliable, ordered byte channel: what has been written and not yet read. */
  class Pipe {
    var bytes: seq<Byte>
    /** The object it is a part of, if any. */
    ghost const home: object?

    constructor (ghost home: object?)
      ensures bytes == [] && this.home == home
    {
      bytes := [];
      this.home := home;
    }

    /** `write`: the kernel takes as many bytes as it likes. */
    method Write(data: seq<Byte>, count: nat) returns (n: nat)
      modifies this
      ensures n == if count < |data| then count else |data|
      ensures bytes == old(bytes) + data[..n]
    {
      n := if count < |data| then count else |data|;
      bytes := bytes + data[..n];
    }

    /** `read` of at most `max` bytes: the kernel gives as many as it likes. */
    method Read(max: nat, count: nat) returns (data: seq<Byte>)
      modifies this
      ensures old(bytes) == data + bytes
      ensures |data| == Least(Least(max, count), |old(bytes)|)
    {
      var n := if count < max then count else max;
      n := if n < |bytes| then n else |bytes|;
      data := bytes[..n];
      bytes := bytes[n..];
    }
  }

  class WritePacket {
    const buf: seq<Byte>
    var written: nat
    /** The stream that sends it. */
    ghost const home: WriteStream

    constructor (queue: seq<Byte>, ghost home: WriteStream)
      ensures buf == Frame(queue) && written == 0 && this.home == home
    {
      buf := PutLong(|queue|) + queue;
      written := 0;
      this.home := home;
    }

    method SendPacket(pipe: Pipe, count: nat) returns (done: bool)
      requires written <= |buf|
      modifies this`written, pipe
      ensures written == old(written) + (if count < |buf| - old(written) then count else |buf| - old(written))
      ensures pipe.bytes == old(pipe.bytes) + buf[old(written)..written]
      ensures done <==> written == |buf|
    {
      var n := pipe.Write(buf[written..], count);
      written := written + n;
      done := written == |buf|;
    }
  }

  lemma WrittenMore(flushed: seq<Byte>, buf: seq<Byte>, from: nat, to: nat)
    requires from <= to <= |buf|
    ensures flushed + buf[..from] + buf[from..to] == flushed + buf[..to]
    ensures (flushed + buf[..from] + buf[from..to])[|flushed + buf[..from]|..] == buf[from..to]
    ensures buf[..|buf|] == buf
  {
    assert buf[..from] + buf[from..to] == buf[..to];
  }

  lemma FlushedMore(sent: seq<Payload>, base: nat)
    requires base < |sent|
    ensures Frames(sent[..base]) + Frame(sent[base]) == Frames(sent[..base + 1]) + []
  {
    FramesAppend(sent[..base], sent[base]);
    assert sent[..base + 1] == sent[..base] + [sent[base]];
  }

  class WriteStream {
    var queue: seq<Byte>
    var packets: seq<WritePacket>
    /** Payloads handed to send() so far, and every byte that has reached the descriptor. */
    ghost var sent: seq<Payload>
    ghost var emitted: seq<Byte>

    ghost function Flushed(): int
      reads this
    {
      |sent| - |packets|
    }

    ghost predicate Valid()
      reads this, packets
    {
      && |packets| <= |sent|
      && (forall i, j :: 0 <= i < j < |packets| ==> packets[i] != packets[j])
      && (forall i :: 0 <= i < |packets| ==> packets[i].home == this)
      && (forall i :: 0 <= i < |packets| ==> packets[i].buf == Frame(sent[Flushed() + i]))
      && (forall i :: 0 < i < |packets| ==> packets[i].written == 0)
      && (packets != [] ==> packets[0].written < |packets[0].buf|)
      && emitted == Frames(sent[..Flushed()]) + (if packets == [] then [] else packets[0].buf[..packets[0].written])
    }

    constructor ()
      ensures Valid() && queue == [] && packets == [] && sent == [] && emitted == []
    {
      queue, packets, sent, emitted := [], [], [], [];
    }

    predicate PendingWrite()
      reads this
    {
      |packets| > 0
    }

    method WriteShort(s: int)
      modifies this`queue
      ensures old(Valid()) ==> Valid()
      ensures queue == old(queue) + PutShort(s)
    {
      queue := queue + PutShort(s);
    }

    method WriteLong(n: int)
      modifies this`queue
      ensures old(Valid()) ==> Valid()
      ensures queue == old(queue) + PutLong(n)
    {
      queue := queue + PutLong(n);
    }

    method WriteString(message: seq<Byte>)
      modifies this`queue
      ensures old(Valid()) ==> Valid()
      ensures queue == old(queue) + PutString(message)
    {
      WriteLong(|message|);
      queue := queue + message;
      assert queue == old(queue) + (PutLong(|message|) + message);
    }

    method WriteBytes(buffer: seq<Byte>)
      modifies this`queue
      ensures old(Valid()) ==> Valid()
      ensures queue == old(queue) + buffer
    {
      queue := queue + buffer;
    }

    method Send()
      requires Valid()
      modifies `queue, `packets, `sent
      ensures Valid() && queue == [] && emitted == old(emitted)
      ensures sent == old(sent) + (if old(queue) == [] then [] else [old(queue)])
      ensures old(packets) <= packets
      ensures forall k :: |old(packets)| <= k < |packets| ==> fresh(packets[k])
      ensures PendingWrite() <==> old(PendingWrite()) || old(queue) != []
    {
      if |queue| > 0 {
        var packet := new WritePacket(queue, this);
        packets := packets + [packet];
        sent := sent + [queue];
        queue := [];
        assert sent[..Flushed()] == old(sent)[..old(Flushed())];
      }
    }

    /** What is left of the front packet. */
    ghost function Left(): nat
      requires Valid()
      reads this, packets
    {
      if packets == [] then 0 else |packets[0].buf| - packets[0].written
    }

    /** One notification for an entry with these armed events: at most one packet advances, and with the
        last one POLLOUT is disarmed. */
    method Empty(pipe: Pipe, writable: bool, count: nat, armed: Events) returns (events: Events)
      requires Valid()
      modifies this`packets, this`emitted, packets, pipe
      ensures Valid() && (packets == old(packets) || (old(packets) != [] && packets == old(packets)[1..]))
      ensures old(emitted) <= emitted
      ensures pipe.bytes == old(pipe.bytes) + emitted[|old(emitted)|..]
      ensures |emitted| == |old(emitted)| + if writable then Least(count, old(Left())) else 0
      ensures |emitted| > |old(emitted)| <==> writable && count > 0 && old(PendingWrite())
      ensures events == if writable && old(PendingWrite()) && !PendingWrite() then armed.(pout := false) else armed
    {
      SomethingLeft();
      hide Valid;
      events := armed;
      if writable && PendingWrite() {
        Advance(pipe, count);
        if !PendingWrite() {
          events := armed.(pout := false);
        }
      }
    }

    lemma SomethingLeft()
      requires Valid()
      ensures Left() > 0 <==> PendingWrite()
    {}

    /** The front packet, which goes once it is written. */
    method Advance(pipe: Pipe, count: nat)
      requires Valid() && packets != []
      modifies this`packets, this`emitted, packets, pipe
      ensures Valid() && (packets == old(packets) || packets == old(packets)[1..])
      ensures old(emitted) <= emitted
      ensures pipe.bytes == old(pipe.bytes) + emitted[|old(emitted)|..]
      ensures |emitted| == |old(emitted)| + Least(count, old(Left()))
    {
      hide Frames, Frame, PutLong;
      var front, base := packets[0], Flushed();
      ghost var from := front.written;
      var done := front.SendPacket(pipe, count);
      WrittenMore(Frames(sent[..base]), front.buf, from, front.written);
      emitted := emitted + front.buf[from..front.written];
      FlushedMore(sent, base);
      if done {
        packets := packets[1..];
      }
    }
  }

  datatype ReadStatus = Ok | EndOfFile | BadLength

  /** The reader has got one more payload, at the end of its queue, or none. */
  ghost predicate AtMostOne(received: seq<Payload>, queue: seq<Byte>, received': seq<Payload>, queue': seq<Byte>) {
    || (received' == received && queue' == queue)
    || exists p :: received' == received + [p] && queue' == queue + p
  }

  lemma NoneIsAtMostOne(received: seq<Payload>, queue: seq<Byte>)
    ensures AtMostOne(received, queue, received, queue)
  {}

  /** How many bytes of a frame, of which `part` has been read, a read of its body takes. */
  function InBody(part: seq<Byte>, n: nat, available: nat): nat
    requires |part| >= 4
  {
    if GetLong(part) > MAX_PAYLOAD || GetLong(part) + 4 < |part| then 0
    else Least(Least(GetLong(part) + 4 - |part|, n), available)
  }

  /** How many bytes a readable notification takes: what is missing of the header and then of the body, as far as the
      kernel has and gives them. */
  function Taken(part: seq<Byte>, bytes: seq<Byte>, n1: nat, n2: nat): nat {
    var h := if |part| < 4 then Least(Least(4 - |part|, n1), |bytes|) else 0;
    if |part| + h < 4 then h else h + InBody(part + bytes[..h], n2, |bytes| - h)
  }

  lemma TakenHeader(part: seq<Byte>, bytes: seq<Byte>, header: seq<Byte>, n1: nat, n2: nat)
    requires |part| + |header| < 4 && |header| == Least(Least(4 - |part|, n1), |bytes|)
    ensures Taken(part, bytes, n1, n2) == |header|
  {}

  lemma TakenBody(part: seq<Byte>, bytes: seq<Byte>, header: seq<Byte>, n1: nat, n2: nat)
    requires header <= bytes && |part| + |header| >= 4
    requires if |part| < 4 then |header| == Least(Least(4 - |part|, n1), |bytes|) else header == []
    ensures Taken(part, bytes, n1, n2) == |header| + InBody(part + header, n2, |bytes| - |header|)
  {
    assert bytes[..|header|] == header;
  }

  lemma TakenSome(part: seq<Byte>, bytes: seq<Byte>, n1: nat, n2: nat)
    ensures bytes != [] && n2 > 0 && |part| < 4 && n1 > 0 ==> Taken(part, bytes, n1, n2) > 0
    ensures bytes != [] && n2 > 0 && |part| >= 4 && Partial(part) && GetLong(part) <= MAX_PAYLOAD ==>
              Taken(part, bytes, n1, n2) > 0
  {
    assert part + bytes[..0] == part;
    hide GetLong;
  }

  /** A whole frame and perhaps more. */
  predicate Completes(bs: seq<Byte>) {
    |bs| >= 4 && GetLong(bs) <= MAX_PAYLOAD && |bs| >= 4 + GetLong(bs)
  }

  class ReadStream {
    var queue: seq<Byte>
    var readBuf: array<Byte>
    var readCount: nat
    /** Every byte taken from the descriptor, and the payloads appended to the queue. */
    ghost var consumed: seq<Byte>
    ghost var received: seq<Payload>

    ghost predicate Valid()
      reads this, readBuf
    {
      && readCount <= readBuf.Length && 4 <= readBuf.Length
      && Fits(received, MAX_PAYLOAD)
      && consumed == Frames(received) + readBuf[..readCount]
      && (Partial(readBuf[..readCount]) || GetLong(readBuf[..readCount]) > MAX_PAYLOAD)
    }

    constructor ()
      ensures Valid() && fresh(readBuf) && queue == [] && consumed == [] && received == [] && readCount == 0
    {
      queue, readCount, consumed, received := [], 0, [], [];
      readBuf := new Byte[4096](_ => 0);
    }

    predicate Available()
      reads this
    {
      |queue| != 0
    }

    method ReadShort() returns (s: Short)
      requires |queue| >= 2
      modifies this`queue
      ensures s == GetShort(old(queue)) && queue == old(queue)[2..]
    {
      s := GetShort(queue);
      queue := queue[2..];
    }

    method ReadLong() returns (n: nat)
      requires |queue| >= 4
      modifies this`queue
      ensures n == GetLong(old(queue)) && queue == old(queue)[4..]
    {
      n := GetLong(queue);
      queue := queue[4..];
    }

    method ReadString() returns (s: seq<Byte>)
      requires GetString(queue).Some?
      modifies this`queue
      ensures GetString(old(queue)) == Some((s, queue))
    {
      var length := ReadLong();
      s := ReadBytes(length);
      assert s == old(queue)[4..4 + length];
    }

    method ReadBytes(length: nat) returns (buffer: seq<Byte>)
      requires length <= |queue|
      modifies this`queue
      ensures buffer == old(queue)[..length] && queue == old(queue)[length..]
    {
      buffer := queue[..length];
      queue := queue[length..];
    }

    /** Appends freshly read bytes to the partial frame. */
    method Store(data: seq<Byte>)
      requires readCount + |data| <= readBuf.Length
      modifies this`readCount, this`consumed, readBuf
      ensures readCount == old(readCount) + |data|
      ensures readBuf[..readCount] == old(readBuf[..readCount]) + data
      ensures consumed == old(consumed) + data
    {
      forall k | 0 <= k < |data| {
        readBuf[readCount + k] := data[k];
      }
      readCount := readCount + |data|;
      consumed := consumed + data;
    }

    /** Makes room for `size` bytes, keeping the partial frame. */
    method Grow(size: nat)
      requires readCount <= readBuf.Length
      modifies this`readBuf
      ensures readBuf.Length >= size && readBuf.Length >= old(readBuf.Length)
      ensures readBuf == old(readBuf) || fresh(readBuf)
      ensures readCount <= readBuf.Length && readBuf[..readCount] == old(readBuf[..readCount])
    {
      if size > readBuf.Length {
        var temp := new Byte[size](_ => 0);
        forall k | 0 <= k < readCount {
          temp[k] := readBuf[k];
        }
        readBuf := temp;
      }
    }

    /** One readable notification: a header read of n1 bytes, then a body read of n2 bytes. */
    method Fill(pipe: Pipe, readable: bool, n1: nat, n2: nat) returns (status: ReadStatus)
      requires Valid()
      modifies this, readBuf, pipe
      ensures Valid() && (readBuf == old(readBuf) || fresh(readBuf))
      ensures old(consumed) <= consumed
      ensures old(pipe.bytes) == consumed[|old(consumed)|..] + pipe.bytes
      ensures AtMostOne(old(received), old(queue), received, queue)
      ensures |consumed| == |old(consumed)|
        + if readable then Taken(old(readBuf[..readCount]), old(pipe.bytes), n1, n2) else 0
      ensures readable && n1 >= 4 && n2 >= MAX_PAYLOAD && Completes(old(readBuf[..readCount] + pipe.bytes)) ==>
                |received| == |old(received)| + 1
      ensures status == EndOfFile ==> readable && (n1 == 0 || old(pipe.bytes) == [])
      ensures status == Ok && readable && n2 > 0 && old(pipe.bytes) != [] ==> |consumed| > |old(consumed)|
      ensures status == BadLength ==> readCount >= 4 && GetLong(readBuf[..readCount]) > MAX_PAYLOAD
    {
      hide Frames, GetLong, Frame, AtMostOne, Partial, Taken, InBody;
      NoneIsAtMostOne(received, queue);
      status := Ok;
      if readable {
        ghost var part, bytes := readBuf[..readCount], pipe.bytes;
        var more := [];
        if readCount < 4 {
          more := ReadHeader(pipe, n1);
          if readCount < 4 {
            TakenHeader(part, bytes, more, n1, n2);
            return if more == [] then EndOfFile else Ok;
          }
        } else {
          FrameIsPartial();
        }
        assert part + more == readBuf[..readCount] && part + bytes == (part + more) + pipe.bytes;
        TakenBody(part, bytes, more, n1, n2);
        status := FillBody(pipe, n2);
        TakenSome(part, bytes, n1, n2);
      }
    }

    lemma FrameIsPartial()
      requires Valid() && readCount >= 4
      ensures Partial(readBuf[..readCount]) || GetLong(readBuf[..readCount]) > MAX_PAYLOAD
    {}

    /** The first read(): what is missing of the four bytes of the length. */
    method ReadHeader(pipe: Pipe, n: nat) returns (header: seq<Byte>)
      requires Valid() && readCount < 4
      modifies this`readCount, this`consumed, readBuf, pipe
      ensures |header| == Least(Least(4 - old(readCount), n), |old(pipe.bytes)|)
      ensures old(pipe.bytes) == header + pipe.bytes
      ensures readCount == old(readCount) + |header| <= 4 <= readBuf.Length
      ensures readBuf[..readCount] == old(readBuf[..readCount]) + header
      ensures consumed == old(consumed) + header && consumed == Frames(received) + readBuf[..readCount]
      ensures readCount < 4 ==> Valid()
    {
      hide Frames, GetLong, Frame;
      header := pipe.Read(4 - readCount, n);
      ghost var part := readBuf[..readCount];
      Store(header);
      assert (Frames(received) + part) + header == Frames(received) + (part + header);
    }

    method FillBody(pipe: Pipe, n: nat) returns (status: ReadStatus)
      requires 4 <= readCount <= readBuf.Length
      requires Fits(received, MAX_PAYLOAD) && consumed == Frames(received) + readBuf[..readCount]
      requires readCount == 4 || Partial(readBuf[..readCount]) || GetLong(readBuf[..readCount]) > MAX_PAYLOAD
      modifies this, readBuf, pipe
      ensures Valid() && (readBuf == old(readBuf) || fresh(readBuf))
      ensures old(consumed) <= consumed
      ensures old(pipe.bytes) == consumed[|old(consumed)|..] + pipe.bytes
      ensures AtMostOne(old(received), old(queue), received, queue)
      ensures status == Ok || status == BadLength
      ensures status == BadLength <==> GetLong(old(readBuf[..readCount])) > MAX_PAYLOAD
      ensures |consumed| == |old(consumed)| + InBody(old(readBuf[..readCount]), n, |old(pipe.bytes)|)
      ensures n >= MAX_PAYLOAD && Completes(old(readBuf[..readCount] + pipe.bytes)) ==>
                |received| == |old(received)| + 1
      ensures status == BadLength ==> readCount >= 4 && GetLong(readBuf[..readCount]) > MAX_PAYLOAD
    {
      hide Frames, GetLong, Frame;
      var length := GetLong(readBuf[..4]);
      SameHeader(readBuf[..4], readBuf[..readCount]);
      SameHeader(readBuf[..readCount], readBuf[..readCount] + pipe.bytes);
      if length > MAX_PAYLOAD { return BadLength; }
      Grow(length + 4);
      var body := pipe.Read(length + 4 - readCount, n);
      ghost var before := readBuf[..readCount];
      Store(body);
      SameHeader(before, readBuf[..readCount]);
      if readCount == length + 4 {
        Complete(length);
      }
      status := Ok;
    }

    /** The whole frame is in the buffer: hand its payload to the queue. */
    method Complete(length: nat)
      requires readCount == length + 4 <= readBuf.Length
      requires length <= MAX_PAYLOAD && length == GetLong(readBuf[..readCount])
      requires Fits(received, MAX_PAYLOAD)
      requires consumed == Frames(received) + readBuf[..readCount]
      modifies this`queue, this`readCount, this`received
      ensures Valid() && readCount == 0
      ensures exists p :: received == old(received) + [p] && queue == old(queue) + p
    {
      var p := readBuf[4..readCount];
      HeaderIs(readBuf[..readCount], p);
      assert readBuf[..readCount] == Frame(p);
      FramesAppend(received, p);
      queue := queue + p;
      received := received + [p];
      readCount := 0;
      assert received == old(received) + [p] && queue == old(queue) + p;
    }
  }

  lemma HeaderIs(frame: seq<Byte>, p: Payload)
    requires |frame| == 4 + |p| && frame[4..] == p && GetLong(frame) == |p|
    ensures frame == Frame(p)
  {
    LongInjective(frame[..4]);
    SameHeader(frame[..4], frame);
    assert frame == frame[..4] + p;
  }

  lemma LongInjective(bs: seq<Byte>)
    requires |bs| == 4
    ensures PutLong(GetLong(bs)) == bs
  {
    var b0: int, b1: int, b2: int, b3: int := bs[0], bs[1], bs[2], bs[3];
    var n := GetLong(bs);
    assert n / 0x100_0000 == b0;
    assert n / 0x1_0000 == b0 * 0x100 + b1;
    assert n / 0x100 == b0 * 0x1_0000 + b1 * 0x100 + b2;
  }

  /** One event on the way of packets from a writer to a reader. */
  datatype Event = SendPayload(p: Payload) | Writable(count: nat) | Readable(n1: nat, n2: nat)

  ghost predicate Schedulable(e: Event) {
    match e
    case SendPayload(p) => |p| <= MAX_PAYLOAD
    case Writable(_) => true
    case Readable(n1, _) => n1 > 0
  }

  /** Bytes are conserved between the two streams, and no payload is too long. */
  ghost predicate Joined(w: WriteStream, r: ReadStream, pipe: Pipe)
    reads w, w.packets, r, r.readBuf, pipe
  {
    && w.Valid() && r.Valid() && w.queue == []
    && w.emitted == r.consumed + pipe.bytes
    && Fits(w.sent, MAX_PAYLOAD)
  }

  /** What an event, and what a run of events, adds to the payloads sent: an empty payload is not sent. */
  ghost function SentBy(e: Event): seq<Payload> {
    if e.SendPayload? && e.p != [] then [e.p] else []
  }

  ghost function AllSent(events: seq<Event>): seq<Payload> {
    if events == [] then [] else SentBy(events[0]) + AllSent(events[1..])
  }

  /** That is, the payloads that are not empty, in order. */
  lemma {:induction false} AllSentSplit(events: seq<Event>, more: seq<Event>)
    ensures AllSent(events + more) == AllSent(events) + AllSent(more)
  {
    hide SentBy;
    if events == [] {
      assert events + more == more;
    } else {
      AllSentSplit(events[1..], more);
      assert (events + more)[1..] == events[1..] + more;
    }
  }

  lemma {:induction false} AllSentAre(events: seq<Event>)
    ensures (forall e :: e in events ==> e.SendPayload? && e.p != []) ==>
              |AllSent(events)| == |events| && forall i :: 0 <= i < |events| ==> AllSent(events)[i] == events[i].p
    ensures (forall e :: e in events ==> !e.SendPayload? || e.p == []) ==> AllSent(events) == []
  {
    if events != [] {
      AllSentAre(events[1..]);
      assert events == [events[0]] + events[1..];
    }
  }

  /** How far both streams have come: the packets sent, the bytes that have left the writer, the bytes the reader
      has taken, the packets it has got out of them. */
  datatype Moment = Moment(sent: seq<Payload>, emitted: seq<Byte>, consumed: seq<Byte>, received: seq<Payload>)

  ghost function Now(w: WriteStream, r: ReadStream): Moment
    reads w, r
  {
    Moment(w.sent, w.emitted, r.consumed, r.received)
  }

  /** The bytes between the two streams, and those of a frame begun. */
  ghost function Waiting(m: Moment): seq<Byte> {
    if |m.consumed| <= |m.emitted| then m.emitted[|m.consumed|..] else []
  }

  ghost function Begun(m: Moment): seq<Byte> {
    if |Frames(m.received)| <= |m.consumed| then m.consumed[|Frames(m.received)|..] else []
  }

  /** An event does what it says: a send sends; a write notification writes what the kernel takes of the packet in
      front, and a read notification reads what there is of the frame begun, as far as the kernel gives it. */
  ghost predicate Shifts(a: Moment, e: Event, b: Moment) {
    && b.sent == (if e.SendPayload? && e.p != [] then a.sent + [e.p] else a.sent)
    && a.emitted <= b.emitted && a.consumed <= b.consumed
    && (a.emitted < b.emitted <==> e.Writable? && e.count > 0 && a.emitted < Frames(a.sent))
    && (e.Readable? && e.n2 > 0 && a.consumed < a.emitted ==> a.consumed < b.consumed)
    && (a.consumed < b.consumed ==> e.Readable? && a.consumed < a.emitted)
    && a.received <= b.received && (!e.Readable? ==> b.received == a.received)
    && |b.emitted| == |a.emitted| + (if e.Writable? then Least(e.count, ToBoundary(a.sent, |a.emitted|)) else 0)
    && |b.consumed| == |a.consumed|
         + (if e.Readable? && Waiting(a) != [] then Taken(Begun(a), Waiting(a), e.n1, e.n2) else 0)
  }

  lemma NowIs(w: WriteStream, r: ReadStream, pipe: Pipe)
    requires Joined(w, r, pipe)
    ensures Waiting(Now(w, r)) == pipe.bytes && r.readCount <= r.readBuf.Length
    ensures Begun(Now(w, r)) == r.readBuf[..r.readCount]
  {
    hide Frames;
  }

  lemma LeftIs(w: WriteStream)
    requires w.Valid()
    ensures w.Left() == ToBoundary(w.sent, |w.emitted|)
  {
    hide Frames, ToBoundary;
    BoundaryAt(w.sent, w.Flushed(), if w.packets == [] then 0 else w.packets[0].written);
  }

  /** Nothing is lost or made up: the bytes the reader has taken are among those that left the writer, those among
      the frames of what was sent, and the packets it has got are as many of these as its bytes complete. */
  ghost predicate Whole(m: Moment) {
    && m.consumed <= m.emitted <= Frames(m.sent) && m.received <= m.sent
    && Frames(m.received) <= m.consumed && Partial(m.consumed[|Frames(m.received)|..])
  }

  lemma NowIsWhole(w: WriteStream, r: ReadStream, pipe: Pipe)
    requires Joined(w, r, pipe)
    ensures Whole(Now(w, r))
  {
    EmittedIsPrefix(w);
    Delivered(w, r, pipe);
    NoBadLength(w, r, pipe);
    var part := r.readBuf[..r.readCount];
    assert r.consumed[|Frames(r.received)|..] == part;
    hide Frames;
  }

  /** Packets wait exactly while not all of the frames have left. */
  lemma PendingIs(w: WriteStream)
    requires w.Valid()
    ensures w.packets != [] <==> w.emitted < Frames(w.sent)
  {
    EmittedIsPrefix(w);
    var base := w.Flushed();
    if w.packets == [] {
      assert w.sent[..base] == w.sent;
    } else {
      FlushedMore(w.sent, base);
      FramesSplit(w.sent, base + 1);
    }
  }

  method Happen(w: WriteStream, r: ReadStream, pipe: Pipe, e: Event) returns (status: ReadStatus)
    requires Joined(w, r, pipe) && Schedulable(e)
    modifies w, w.packets, r, r.readBuf, pipe
    ensures Joined(w, r, pipe) && status == Ok && Shifts(old(Now(w, r)), e, Now(w, r))
    ensures forall k :: 0 <= k < |w.packets| ==> w.packets[k] in old(w.packets) || fresh(w.packets[k])
    ensures r.readBuf == old(r.readBuf) || fresh(r.readBuf)
    ensures old(r.received) <= r.received
  {
    hide Frames, Frame, GetLong, WriteStream.Valid, ReadStream.Valid, Taken, ToBoundary, Waiting, Begun;
    PendingIs(w);
    LeftIs(w);
    NowIs(w, r, pipe);
    status := Ok;
    match e {
      case SendPayload(p) =>
        w.WriteBytes(p);
        assert w.queue == p;
        w.Send();
      case Writable(count) =>
        var _ := w.Empty(pipe, true, count, NOTHING);
      case Readable(n1, n2) =>
        status := Arrive(w, r, pipe, n1, n2);
    }
  }

  /** The reader is called only when something is readable, and then it never stops the run. */
  method Arrive(w: WriteStream, r: ReadStream, pipe: Pipe, n1: nat, n2: nat) returns (status: ReadStatus)
    requires Joined(w, r, pipe) && n1 > 0
    modifies r, r.readBuf, pipe
    ensures Joined(w, r, pipe) && status == Ok
    ensures r.readBuf == old(r.readBuf) || fresh(r.readBuf)
    ensures old(r.received) <= r.received && old(r.consumed) <= r.consumed
    ensures |r.consumed| == |old(r.consumed)|
      + if old(pipe.bytes) != [] then Taken(old(r.readBuf[..r.readCount]), old(pipe.bytes), n1, n2) else 0
    ensures n2 > 0 && old(pipe.bytes) != [] ==> |r.consumed| > |old(r.consumed)|
    ensures |r.consumed| > |old(r.consumed)| ==> old(pipe.bytes) != []
  {
    hide Frames, Frame, GetLong, Taken;
    status := Ok;
    if |pipe.bytes| > 0 {
      status := r.Fill(pipe, true, n1, n2);
      NoBadLength(w, r, pipe);
    }
  }

  /** A run, moment by moment. */
  ghost predicate Told(moments: seq<Moment>, events: seq<Event>) {
    && |moments| == |events| + 1
    && (forall i :: 0 <= i < |events| ==> Shifts(moments[i], events[i], moments[i + 1]))
    && (forall i :: 0 <= i < |moments| ==> Whole(moments[i]))
  }

  lemma ToldIs(moments: seq<Moment>, events: seq<Event>)
    requires Told(moments, events)
    ensures |moments| == |events| + 1
  {}

  lemma ToldMore(moments: seq<Moment>, events: seq<Event>, i: nat, m: Moment)
    requires i < |events| && Told(moments, events[..i]) && Shifts(moments[i], events[i], m) && Whole(m)
    ensures Told(moments + [m], events[..i + 1])
  {
    hide Shifts, Whole;
    assert forall k :: 0 <= k < i ==> events[..i + 1][k] == events[..i][k];
  }

  lemma {:induction false} ToldSends(moments: seq<Moment>, events: seq<Event>)
    requires Told(moments, events)
    ensures moments[|events|].sent == moments[0].sent + AllSent(events)
    ensures moments[0].received <= moments[|events|].received
  {
    hide Whole;
    if events != [] {
      assert Shifts(moments[0], events[0], moments[1]);
      ToldSends(moments[1..], events[1..]);
    }
  }

  /** Any interleaving of sends, partial writes and short reads delivers the payloads it sends in order,
      whole and unaltered; nothing stops the reader; and what is outstanding is exactly in the
      writer's packets, the channel and the reader's partial frame. */
  method Run(w: WriteStream, r: ReadStream, pipe: Pipe, events: seq<Event>)
    returns (status: ReadStatus, ghost moments: seq<Moment>)
    requires Joined(w, r, pipe)
    requires forall i :: 0 <= i < |events| ==> Schedulable(events[i])
    modifies w, w.packets, r, r.readBuf, pipe
    ensures Joined(w, r, pipe) && status == Ok
    ensures Told(moments, events) && moments[0] == old(Now(w, r)) && moments[|events|] == Now(w, r)
    ensures w.sent == old(w.sent) + AllSent(events)
    ensures old(r.received) <= r.received <= w.sent
    ensures w.packets == [] && pipe.bytes == [] ==> r.received == w.sent && r.readCount == 0
  {
    status, moments := Ok, [Now(w, r)];
    NowIsWhole(w, r, pipe);
    for i := 0 to |events|
      invariant Joined(w, r, pipe) && status == Ok
      invariant Told(moments, events[..i]) && moments[0] == old(Now(w, r)) && moments[i] == Now(w, r)
      invariant forall k :: 0 <= k < |w.packets| ==> w.packets[k] in old(w.packets) || fresh(w.packets[k])
      invariant r.readBuf == old(r.readBuf) || fresh(r.readBuf)
    {
      ToldIs(moments, events[..i]);
      hide Joined, Told, Shifts, Whole;
      status := Happen(w, r, pipe, events[i]);
      NowIsWhole(w, r, pipe);
      ToldMore(moments, events, i, Now(w, r));
      moments := moments + [Now(w, r)];
    }
    assert events[..|events|] == events;
    ToldSends(moments, events);
    Delivered(w, r, pipe);
  }

  /** Nothing waits for ever: write and read notifications in turn, each moving at least a byte if it can, have
      delivered everything sent after at most as many turns as there were bytes under way, counted twice. */
  method Drain(w: WriteStream, r: ReadStream, pipe: Pipe, count: nat -> nat) returns (turns: nat)
    requires Joined(w, r, pipe) && forall i :: count(i) > 0
    modifies w, w.packets, r, r.readBuf, pipe
    ensures Joined(w, r, pipe) && w.sent == old(w.sent)
    ensures w.packets == [] && pipe.bytes == [] && r.received == w.sent
    ensures turns <= old(2 * |Frames(w.sent)| - |w.emitted| - |r.consumed|)
  {
    turns := 0;
    EmittedIsPrefix(w);
    while w.packets != [] || pipe.bytes != []
      invariant Joined(w, r, pipe) && w.sent == old(w.sent)
      invariant |r.consumed| <= |w.emitted| <= |Frames(w.sent)|
      invariant turns <= |w.emitted| + |r.consumed| - old(|w.emitted| + |r.consumed|)
      invariant forall k :: 0 <= k < |w.packets| ==> w.packets[k] in old(w.packets) || fresh(w.packets[k])
      invariant r.readBuf == old(r.readBuf) || fresh(r.readBuf)
      decreases 2 * |Frames(w.sent)| - |w.emitted| - |r.consumed|
    {
      hide Frames, Joined;
      TakeTurn(w, r, pipe, count(turns));
      turns := turns + 1;
    }
    Delivered(w, r, pipe);
  }

  /** A write notification, then a read notification. */
  method TakeTurn(w: WriteStream, r: ReadStream, pipe: Pipe, count: nat)
    requires Joined(w, r, pipe) && count > 0 && (w.packets != [] || pipe.bytes != [])
    modifies w, w.packets, r, r.readBuf, pipe
    ensures Joined(w, r, pipe) && w.sent == old(w.sent)
    ensures forall k :: 0 <= k < |w.packets| ==> w.packets[k] in old(w.packets) || fresh(w.packets[k])
    ensures r.readBuf == old(r.readBuf) || fresh(r.readBuf)
    ensures |w.emitted| + |r.consumed| > old(|w.emitted| + |r.consumed|)
    ensures |r.consumed| <= |w.emitted| <= |Frames(w.sent)|
  {
    hide Frames, WriteStream.Valid, ReadStream.Valid;
    PendingIs(w);
    var _ := Happen(w, r, pipe, Writable(count));
    var _ := Happen(w, r, pipe, Readable(count, count));
    EmittedIsPrefix(w);
  }

  /** The refinement at any one moment: the reader's packets are a prefix of the writer's. */
  lemma Delivered(w: WriteStream, r: ReadStream, pipe: Pipe)
    requires w.Valid() && r.Valid() && w.emitted == r.consumed + pipe.bytes
    requires Fits(w.sent, MAX_PAYLOAD)
    ensures r.received <= w.sent
    ensures w.packets == [] && pipe.bytes == [] ==> r.received == w.sent && r.readCount == 0
  {
    var part := r.readBuf[..r.readCount];
    EmittedIsPrefix(w);
    PrefixOfFrames(r.received, part, w.sent);
    if w.packets == [] && pipe.bytes == [] {
      assert w.sent[..w.Flushed()] == w.sent;
      NoBadLength(w, r, pipe);
      AllOfFrames(r.received, part, w.sent);
    }
  }

  lemma EmittedIsPrefix(w: WriteStream)
    requires w.Valid()
    ensures w.emitted <= Frames(w.sent)
  {
    var base := w.Flushed();
    FramesSplit(w.sent, base);
    if w.packets != [] {
      var front := w.packets[0];
      assert w.sent[base..] != [];
      assert Frames(w.sent[base..]) == Frame(w.sent[base]) + Frames(w.sent[base..][1..]);
      assert front.buf[..front.written] <= front.buf;
    }
  }

  lemma {:induction false} FramesSplit(ps: seq<Payload>, k: nat)
    requires k <= |ps|
    ensures Frames(ps) == Frames(ps[..k]) + Frames(ps[k..])
  {
    hide Frame;
    if k == 0 {
      assert ps[k..] == ps;
    } else {
      FramesSplit(ps[1..], k - 1);
      assert ps[1..][..k - 1] == ps[..k][1..] && ps[1..][k - 1..] == ps[k..];
    }
  }

  /** A reader fed by this writer never meets a length above the limit. */
  lemma NoBadLength(w: WriteStream, r: ReadStream, pipe: Pipe)
    requires w.Valid() && r.Valid() && w.emitted == r.consumed + pipe.bytes
    requires Fits(w.sent, MAX_PAYLOAD)
    ensures r.readCount >= 4 ==> GetLong(r.readBuf[..r.readCount]) <= MAX_PAYLOAD
  {
    EmittedIsPrefix(w);
    BoundedHeader(r.received, r.readBuf[..r.readCount], w.sent);
  }
}
