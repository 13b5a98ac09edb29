/** From the first byte to the exchanged table: who may write what when, and the two loops that move
    the connection table. */
module Handshake {
  import opened Wire
  import opened Codec
  import opened Streams
  import opened Magic
  import SockBuffers
  import Tunnel
  import Messages
  import Endpoint
  import Watching

  // ---------------------------------------------------------------- causality

  /** The far side of the pipe and the local end until the table is exchanged. `noise` is what the login
      shell has written before the remote end starts, `frames` what the remote end writes with its
      WriteStream; `channel` is on its way to the local end, `absorbed` went into the pass-through buffer
      and `framed` into the ReadStream. */
  datatype World = World(
    noise: seq<Byte>, started: bool, created: bool, frames: seq<Byte>, channel: seq<Byte>,
    scan: Scan, createSent: bool, absorbed: seq<Byte>, framed: seq<Byte>)

  const BEGIN := World([], false, false, [], [], START, false, [], [])

  datatype Event =
    | Noise(bs: seq<Byte>)          // the login shell writes
    | StartRemote                   // StdioTunnelRemote::start writes the greeting
    | ConsumeCreate                 // the remote end reads CMD_CREATE
    | WriteFrames(bs: seq<Byte>)    // the remote end writes packets, its CMD_CREATE reply first
    | PassThrough(n: nat)           // one read in StdioTunnelLocal::polled while PASS_THROUGH
    | SendCreate                    // CMD_CREATE leaves the local end
    | ReadFrames(n: nat)            // one read in StdioTunnelLocal::polled afterwards

  predicate Possible(x: World, e: Event) {
    match e
    case Noise(_) => !x.started
    case StartRemote => !x.started
    case ConsumeCreate => x.started && x.createSent && !x.created
    case WriteFrames(_) => x.created
    case PassThrough(n) => !x.createSent && x.framed == [] && n <= |x.channel|
    case SendCreate => x.scan.detected && !x.createSent
    case ReadFrames(n) => x.scan.detected && n <= |x.channel|
  }

  function Next(w: Wanted, x: World, e: Event): (y: World)
    requires Possible(x, e) && InRange(w, x.scan)
    ensures InRange(w, y.scan)
  {
    match e
    case Noise(bs) => x.(noise := x.noise + bs, channel := x.channel + bs)
    case StartRemote => x.(started := true, channel := x.channel + Greeting())
    case ConsumeCreate => x.(created := true)
    case WriteFrames(bs) => x.(frames := x.frames + bs, channel := x.channel + bs)
    case PassThrough(n) =>
      x.(scan := FeedAll(w, x.scan, x.channel[..n]), absorbed := x.absorbed + x.channel[..n], channel := x.channel[n..])
    case SendCreate => x.(createSent := true)
    case ReadFrames(n) => x.(framed := x.framed + x.channel[..n], channel := x.channel[n..])
  }

  /** Everything the far side has written, in order. */
  function Written(x: World): seq<Byte> {
    x.noise + (if x.started then Greeting() else []) + x.frames
  }

  /** What the far side writes before it has seen CMD_CREATE. */
  function Prelude(x: World): seq<Byte> {
    x.noise + (if x.started then Greeting() else [])
  }

  predicate Orderly(w: Wanted, x: World) {
    && Written(x) == x.absorbed + x.framed + x.channel
    && (x.frames != [] ==> x.created)
    && (x.created ==> x.createSent && x.started)
    && (x.createSent ==> x.scan.detected)
    && (x.framed != [] ==> x.scan.detected)
    && x.scan == FeedAll(w, START, x.absorbed)
    && |x.absorbed| <= |Prelude(x)|
  }

  lemma BeginIsOrderly(w: Wanted)
    ensures InRange(w, START) && Orderly(w, BEGIN)
  {}

  lemma NextIsOrderly(w: Wanted, x: World, e: Event)
    requires InRange(w, x.scan) && Orderly(w, x) && Possible(x, e)
    ensures Orderly(w, Next(w, x, e))
  {
    hide Greeting, FeedAll, InRange;
    match e
    case Noise(bs) => Appended(x.noise, bs, x.absorbed, x.framed, x.channel);
    case StartRemote => Appended(x.noise, Greeting(), x.absorbed, x.framed, x.channel);
    case WriteFrames(bs) => Appended(Written(x), bs, x.absorbed, x.framed, x.channel);
      assert Written(Next(w, x, e)) == Written(x) + bs;
    case PassThrough(n) => PassThroughIsOrderly(w, x, n);
    case ReadFrames(n) => Taken(x.absorbed, x.framed, x.channel, n);
    case _ =>
  }

  lemma Appended(all: seq<Byte>, bs: seq<Byte>, a: seq<Byte>, f: seq<Byte>, c: seq<Byte>)
    ensures all + [] + [] == all && all + bs + [] == all + bs
    ensures all == a + f + c ==> all + bs == a + f + (c + bs)
  {}

  lemma Taken(a: seq<Byte>, f: seq<Byte>, c: seq<Byte>, n: nat)
    requires n <= |c|
    ensures a + f + c == a + (f + c[..n]) + c[n..]
    ensures f == [] ==> a + f + c == (a + c[..n]) + f + c[n..]
  {}

  lemma PassThroughIsOrderly(w: Wanted, x: World, n: nat)
    requires InRange(w, x.scan) && Orderly(w, x) && Possible(x, PassThrough(n))
    ensures Orderly(w, Next(w, x, PassThrough(n)))
  {
    hide Greeting, FeedAll, InRange;
    BeginIsOrderly(w);
    ChunksJoin(w, START, x.absorbed, x.channel[..n]);
    Taken(x.absorbed, x.framed, x.channel, n);
    assert |Written(x)| == |Prelude(x)|;
    assert |x.absorbed| + n <= |Written(x)|;
    DetectionLasts(w, x.scan, x.channel[..n]);
  }

  lemma DetectionLasts(w: Wanted, s: Scan, bs: seq<Byte>)
    requires InRange(w, s)
    ensures s.detected ==> FeedAll(w, s, bs).detected
  {}

  /** The pass-through buffer only ever takes bytes written before the remote end saw CMD_CREATE:
      no byte of a frame is absorbed, whatever the noise. */
  lemma NoFrameAbsorbed(w: Wanted, x: World)
    requires Orderly(w, x)
    ensures x.absorbed <= Prelude(x)
    ensures x.frames == [] || x.scan.detected
  {
    hide Greeting, FeedAll;
    assert Written(x) == Prelude(x) + x.frames;
    assert x.absorbed == Written(x)[..|x.absorbed|];
  }

  /** If the noise is no greeting itself, the greeting is recognised exactly when all of it has been read
      and the noise has left the matcher's counter at zero; the ReadStream then starts at the first byte
      of the first frame. */
  lemma FramesStartAligned(w: Wanted, x: World)
    requires Orderly(w, x) && !FeedAll(w, START, x.noise).detected
    ensures x.scan.detected
            <==> x.started && x.absorbed == x.noise + Greeting() && FeedAll(w, START, x.noise).count == 0
    ensures x.scan.detected ==> x.frames == x.framed + x.channel
    ensures !x.scan.detected ==> x.framed == [] && x.frames == []
  {
    hide Greeting, FeedAll;
    NoFrameAbsorbed(w, x);
    GreetingAfterNoise(w, x.noise);
    if |x.absorbed| <= |x.noise| {
      assert x.noise == x.absorbed + x.noise[|x.absorbed|..];
      ChunksJoin(w, START, x.absorbed, x.noise[|x.absorbed|..]);
      if x.scan.detected { DetectedStays(w, x.scan, x.noise[|x.absorbed|..]); }
    } else {
      var k := |x.absorbed| - |x.noise|;
      assert x.absorbed == x.noise + Greeting()[..k];
      if k == |Greeting()| {
        assert Greeting()[..k] == Greeting();
        Cancel(x.absorbed, x.frames, x.framed, x.channel);
      }
    }
  }

  lemma Cancel(a: seq<Byte>, all: seq<Byte>, f: seq<Byte>, c: seq<Byte>)
    requires a + all == a + f + c
    ensures all == f + c
  {
    assert all == (a + all)[|a|..] && f + c == (a + f + c)[|a|..];
  }

  // ---------------------------------------------------------------- all runs

  predicate Feasible(w: Wanted, x: World, es: seq<Event>)
    requires InRange(w, x.scan)
    decreases |es|
  {
    es == [] || (Possible(x, es[0]) && Feasible(w, Next(w, x, es[0]), es[1..]))
  }

  function Play(w: Wanted, x: World, es: seq<Event>): World
    requires InRange(w, x.scan) && Feasible(w, x, es)
    decreases |es|
  {
    if es == [] then x else Play(w, Next(w, x, es[0]), es[1..])
  }

  lemma {:induction false} PlayIsOrderly(w: Wanted, x: World, es: seq<Event>)
    requires InRange(w, x.scan) && Orderly(w, x) && Feasible(w, x, es)
    ensures Orderly(w, Play(w, x, es))
    decreases |es|
  {
    hide Orderly, Next, Possible;
    if es != [] {
      NextIsOrderly(w, x, es[0]);
      PlayIsOrderly(w, Next(w, x, es[0]), es[1..]);
    }
  }

  /** Handshake causality, for every run from the start, whatever the shell prints, however the bytes are
      cut up and whenever the parties act. */
  lemma HandshakeCausality(w: Wanted, es: seq<Event>)
    requires Feasible(w, BEGIN, es)
    ensures var x := Play(w, BEGIN, es);
      && x.absorbed <= Prelude(x)
      && (!FeedAll(w, START, x.noise).detected && x.scan.detected ==>
            x.absorbed == x.noise + Greeting() && x.frames == x.framed + x.channel)
  {
    BeginIsOrderly(w);
    PlayIsOrderly(w, BEGIN, es);
    var x := Play(w, BEGIN, es);
    NoFrameAbsorbed(w, x);
    hide Orderly, Play, Prelude;
    if !FeedAll(w, START, x.noise).detected { FramesStartAligned(w, x); }
  }

  /** And there are such runs: after any noise that leaves the counter at zero, and then the greeting, both ends come to
      exchange frames, and these reach the ReadStream as written. */
  lemma FramesGetThrough(w: Wanted, noise: seq<Byte>, frames: seq<Byte>)
    requires !FeedAll(w, START, noise).detected && FeedAll(w, START, noise).count == 0
    ensures var es := [Noise(noise), StartRemote, PassThrough(|noise| + |Greeting()|), SendCreate, ConsumeCreate,
                       WriteFrames(frames), ReadFrames(|frames|)];
      && Feasible(w, BEGIN, es)
      && var x := Play(w, BEGIN, es);
      x.scan.detected && x.frames == frames && x.framed == frames && x.channel == []
  {
    hide Greeting, Feed;
    GreetingAfterNoise(w, noise);
    var all := noise + Greeting();
    assert [] + noise == noise && [] + frames == frames;
    assert all[..|all|] == all && all[|all|..] == [] && frames[..|frames|] == frames && frames[|frames|..] == [];
    hide FeedAll, InRange;
    var es := [Noise(noise), StartRemote, PassThrough(|all|), SendCreate, ConsumeCreate, WriteFrames(frames),
               ReadFrames(|frames|)];
    BeginIsOrderly(w);
    var x1 := Next(w, BEGIN, es[0]);
    var x2 := Next(w, x1, es[1]);
    var x3 := Next(w, x2, es[2]);
    var x4 := Next(w, x3, es[3]);
    var x5 := Next(w, x4, es[4]);
    var x6 := Next(w, x5, es[5]);
    var x7 := Next(w, x6, es[6]);
    PlayOne(w, x6, es[6..]);
    PlayOne(w, x5, es[5..]);
    PlayOne(w, x4, es[4..]);
    PlayOne(w, x3, es[3..]);
    PlayOne(w, x2, es[2..]);
    PlayOne(w, x1, es[1..]);
    PlayOne(w, BEGIN, es);
  }

  lemma PlayOne(w: Wanted, x: World, es: seq<Event>)
    requires InRange(w, x.scan) && es != [] && Possible(x, es[0]) && Feasible(w, Next(w, x, es[0]), es[1..])
    ensures Feasible(w, x, es) && Play(w, x, es) == Play(w, Next(w, x, es[0]), es[1..])
  {}

  // ---------------------------------------------------------------- until the greeting

  /** The pass-through state of the local end: what the far side has written, noise and then the greeting, is read
      as the kernel gives it, until the greeting is recognised or nothing comes, which ends the run. Handshaking
      starts exactly if all of it has been read and the noise has left the matcher's counter at zero. */
  method AwaitGreeting(detector: MagicStringDetector, down: Pipe, counts: seq<nat>, ghost noise: seq<Byte>)
    requires detector.View() == START && !FeedAll(detector.wanted, START, noise).detected
    requires down.bytes == noise + Greeting()
    modifies detector, down
    ensures detector.handshaking <==> down.bytes == [] && FeedAll(detector.wanted, START, noise).count == 0
    ensures |counts| >= |noise| + |Greeting()| && (forall i :: 0 <= i < |counts| ==> counts[i] > 0) ==>
              down.bytes == []
  {
    hide Greeting, FeedAll, Feed;
    var i := 0;
    ghost var w, absorbed: seq<Byte> := detector.wanted, [];
    AbsorbedIs(w, noise, absorbed, down.bytes);
    while i < |counts| && !detector.handshaking
      invariant i <= |counts| && InRange(w, detector.View())
      invariant absorbed + down.bytes == noise + Greeting() && detector.View() == FeedAll(w, START, absorbed)
      invariant detector.handshaking <==> down.bytes == [] && FeedAll(w, START, noise).count == 0
      invariant (forall j :: 0 <= j < |counts| ==> counts[j] > 0) ==>
                  down.bytes == [] || i + |down.bytes| <= |noise| + |Greeting()|
    {
      var chunk := down.Read(SockBuffers.BUFFER_SIZE, counts[i]);
      if chunk == [] { return; }
      detector.ProcessReadData(chunk);
      ChunksJoin(w, START, absorbed, chunk);
      assert absorbed + (chunk + down.bytes) == (absorbed + chunk) + down.bytes;
      absorbed := absorbed + chunk;
      AbsorbedIs(w, noise, absorbed, down.bytes);
      i := i + 1;
    }
  }

  lemma AbsorbedIs(w: Wanted, noise: seq<Byte>, absorbed: seq<Byte>, rest: seq<Byte>)
    requires absorbed + rest == noise + Greeting() && !FeedAll(w, START, noise).detected
    ensures FeedAll(w, START, absorbed).detected <==> rest == [] && FeedAll(w, START, noise).count == 0
    ensures absorbed == [] ==> FeedAll(w, START, absorbed) == START
  {
    hide Greeting, Feed;
    var x := World(noise, true, false, [], rest, FeedAll(w, START, absorbed), false, absorbed, []);
    assert absorbed + [] + rest == absorbed + rest;
    assert |absorbed| + |rest| == |noise| + |Greeting()|;
    FramesStartAligned(w, x);
    if rest == [] { assert absorbed == absorbed + rest; }
    if absorbed == noise + Greeting() { assert |rest| == 0; }
  }

  // ---------------------------------------------------------------- the table

  method Serialize(spec: ConnectionSpec, w: WriteStream)
    modifies w`queue
    ensures old(w.Valid()) ==> w.Valid()
    ensures w.queue == old(w.queue) + PutSpec(spec)
  {
    hide PutShort, PutString, WriteStream.Valid;
    w.WriteShort(spec.direction);
    w.WriteString(spec.host);
    w.WriteShort(spec.connectPort);
    w.WriteShort(spec.listenPort);
    w.WriteShort(spec.flags);
  }

  method Deserialize(r: ReadStream) returns (spec: ConnectionSpec)
    requires GetSpec(r.queue).Some?
    modifies r`queue
    ensures GetSpec(old(r.queue)) == Some((spec, r.queue))
  {
    hide GetShort, GetString;
    var direction := r.ReadShort();
    var host := r.ReadString();
    ghost var tail := r.queue;
    var connectPort := r.ReadShort();
    var listenPort := r.ReadShort();
    var flags := r.ReadShort();
    assert tail[2..][2..] == tail[4..] && tail[4..][2..] == tail[6..];
    spec := ConnectionSpec(direction, host, connectPort, listenPort, flags);
  }

  /** startHandshaking, as far as it writes: the whole table is one packet. */
  method StartHandshaking(writer: Endpoint.CustomWriteStream, entries: seq<Entry>)
    requires writer.Valid()
    modifies writer.stream`queue, writer.stream`packets, writer.stream`sent, writer.poller`polled
    ensures writer.Valid()
    ensures writer.stream.sent == old(writer.stream.sent) + [Messages.PutMsg(Tunnel.CreateTable(entries), [])]
    ensures var o := writer.owner;
      Watching.Others(writer.poller.polled, o, o) == old(Watching.Others(writer.poller.polled, o, o))
  {
    hide PutShort, PutSpec, WriteStream.Valid;
    var stream := writer.stream;
    stream.WriteShort(CMD_CREATE);
    stream.WriteShort(|entries|);
    ghost var head := stream.queue;
    for i := 0 to |entries|
      invariant stream.Valid() && stream.sent == old(writer.stream.sent)
        && writer.poller.polled == old(writer.poller.polled)
      invariant stream.queue + PutEntries(entries[i..]) == head + PutEntries(entries)
    {
      assert entries[i..][1..] == entries[i + 1..] && entries[i..][0] == entries[i];
      stream.WriteShort(entries[i].0);
      Serialize(entries[i].1, stream);
    }
    assert entries[|entries|..] == [] && stream.queue + [] == stream.queue;
    assert stream.queue == PutShort(CMD_CREATE) + (PutShort(|entries|) + PutEntries(entries));
    writer.Send(writer.owner);
  }
}
