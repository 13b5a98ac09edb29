/** The bytes of whole tunnel messages. One packet is one message: this is what makes each direction of
    the byte stream a queue of the messages module Tunnel reasons about. */
module Messages {
  import opened Wire
  import opened Codec
  import opened Framing
  import opened Streams
  import opened Tunnel
  import Protocol

  /** `text` is what an error message says. */
  function PutMsg(m: Msg, text: seq<Byte>): Payload {
    match m
    case CreateTable(es) => PutShort(CMD_CREATE) + PutTable(es)
    case CreateDone => PutShort(CMD_CREATE)
    case OnLink(k, body) => LinkPayload(k.cid, k.lid, body)
    case ErrorText => ErrorPayload(text)
  }

  /** The roles of an end's connections decide how a LINK_CREATE is read. */
  function Listens(cs: Conns, cid: Short): bool {
    cid in cs && cs[cid].listening
  }

  function GetOnLink(cs: Conns, bs: seq<Byte>): Option<(Msg, seq<Byte>)> {
    if |bs| < 2 then None
    else
      match GetLink(Listens(cs, GetShort(bs)), bs[2..])
      case None => None
      case Some(f) => Some((OnLink(Key(GetShort(bs), f.lid), f.msg), f.rest))
  }

  /** What the read callback of an end takes off the queue. None where it throws, ignores the command,
      or would read past the end. */
  function GetMsg(atLocal: bool, greeted: bool, cs: Conns, bs: seq<Byte>): Option<(Msg, seq<Byte>)> {
    if |bs| < 2 then None
    else
      var command, tail := GetShort(bs), bs[2..];
      if command == CMD_CONNECTION && (atLocal || greeted) then GetOnLink(cs, tail)
      else if command == CMD_CREATE && atLocal then Some((CreateDone, tail))
      else if command == CMD_CREATE && !greeted then
        match GetTable(tail)
        case None => None
        case Some((es, rest)) => Some((CreateTable(es), rest))
      else if command == CMD_ERROR && atLocal then
        match GetString(tail)
        case None => None
        case Some((_, rest)) => Some((ErrorText, rest))
      else None
  }

  /** A message as its receiver sees it. */
  function Arrived(m: Msg): Msg {
    if m.CreateTable? then CreateTable(Images(m.entries)) else m
  }

  /** What the read callback can decode in the given state. */
  ghost predicate Readable(atLocal: bool, greeted: bool, cs: Conns, m: Msg) {
    match m
    case CreateTable(es) => !atLocal && !greeted && Sendable(es) && |es| <= 0x7fff
    case CreateDone => atLocal
    case OnLink(k, body) => (atLocal || greeted) && Sent(Listens(cs, k.cid), body)
    case ErrorText => atLocal
  }

  /** Decoding undoes encoding and takes exactly the message's own bytes. */
  lemma MessageRoundTrip(atLocal: bool, greeted: bool, cs: Conns, m: Msg, text: seq<Byte>, rest: seq<Byte>)
    requires Readable(atLocal, greeted, cs, m) && |text| < LONG_LIMIT
    ensures GetMsg(atLocal, greeted, cs, PutMsg(m, text) + rest) == Some((Arrived(m), rest))
  {
    hide PutShort, GetShort, ToShort, PutTable, GetTable, PutString, GetString, PutLink, GetLink, Listens;
    match m
    case CreateTable(es) =>
      CommandRead(CMD_CREATE, PutTable(es), rest);
      TableRoundTrip(es, rest);
    case CreateDone =>
      CommandRead(CMD_CREATE, [], rest);
      assert PutShort(CMD_CREATE) + [] == PutShort(CMD_CREATE) && [] + rest == rest;
    case OnLink(k, body) =>
      CommandRead(CMD_CONNECTION, PutShort(k.cid) + PutLink(k.lid, body), rest);
      assert LinkPayload(k.cid, k.lid, body) == PutShort(CMD_CONNECTION) + (PutShort(k.cid) + PutLink(k.lid, body));
      OnLinkRoundTrip(cs, k, body, rest);
    case ErrorText =>
      CommandRead(CMD_ERROR, PutString(text), rest);
      StringRoundTrip(text, rest);
  }

  lemma CommandRead(command: Short, body: seq<Byte>, rest: seq<Byte>)
    ensures var bs := (PutShort(command) + body) + rest;
      |bs| >= 2 && GetShort(bs) == command && bs[2..] == body + rest
  {}

  lemma OnLinkRoundTrip(cs: Conns, k: Key, body: LinkMsg, rest: seq<Byte>)
    requires Sent(Listens(cs, k.cid), body)
    ensures GetOnLink(cs, (PutShort(k.cid) + PutLink(k.lid, body)) + rest) == Some((OnLink(k, body), rest))
  {
    CommandRead(k.cid, PutLink(k.lid, body), rest);
    LinkRoundTrip(Listens(cs, k.cid), k.lid, body, rest);
    hide PutShort, GetShort, PutLink, GetLink, Listens;
  }

  // ---------------------------------------------------------------- channels of messages

  ghost predicate Encodes(p: Payload, m: Msg) {
    exists text: seq<Byte> :: |text| < LONG_LIMIT && p == PutMsg(m, text)
  }

  /** The packets carry the messages, one each, in order. */
  ghost predicate Carries(ps: seq<Payload>, ms: seq<Msg>) {
    |ps| == |ms| && forall i :: 0 <= i < |ps| ==> Encodes(ps[i], ms[i])
  }

  /** The oldest message on its way to an end is one that end can decode. */
  lemma NextIsReadable(s: System, at: bool)
    requires Inv(s) && Incoming(s, at) != []
    requires Awaiting(s) ==> Sendable(s.up[0].entries)
    ensures Readable(at, s.greeted, ConnsAt(s, at), Incoming(s, at)[0])
  {
    var m := Incoming(s, at)[0];
    if m.OnLink? {
      assert Connected(s);
      var k := m.key;
      RoleAt(s, at, k.cid);
      OnlyHead(Incoming(s, at), k);
      assert Protocol.Inv(s.local[k.cid].ack, Pair(s, k));
      Protocol.OnlyDecodable(s.local[k.cid].ack, Pair(s, k));
      hide Protocol.Inv, Only, Sent;
    }
  }

  /** Packet alignment: in every reachable state, the oldest packet on its way to an end is decoded by
      that end as exactly the message it carries, and nothing of it is left in the read queue. */
  lemma PacketAlignment(s: System, at: bool, underway: seq<Payload>)
    requires Inv(s) && Carries(underway, Incoming(s, at)) && underway != []
    requires Awaiting(s) ==> Sendable(s.up[0].entries)
    ensures GetMsg(at, s.greeted, ConnsAt(s, at), underway[0]) == Some((Arrived(Incoming(s, at)[0]), []))
    ensures Carries(underway[1..], Incoming(s, at)[1..])
  {
    var m := Incoming(s, at)[0];
    NextIsReadable(s, at);
    assert Encodes(underway[0], m);
    var text: seq<Byte> :| |text| < LONG_LIMIT && underway[0] == PutMsg(m, text);
    MessageRoundTrip(at, s.greeted, ConnsAt(s, at), m, text, []);
    assert underway[0] + [] == underway[0];
    hide GetMsg, PutMsg, Inv, Awaiting;
  }

  /** Sending extends what is under way. */
  lemma CarriesMore(ps: seq<Payload>, ms: seq<Msg>, ps': seq<Payload>, ms': seq<Msg>)
    requires Carries(ps, ms) && Carries(ps', ms')
    ensures Carries(ps + ps', ms + ms')
  {
    hide Encodes;
    forall i | 0 <= i < |ps + ps'| ensures Encodes((ps + ps')[i], (ms + ms')[i]) {
      if i >= |ps| {
        assert (ps + ps')[i] == ps'[i - |ps|] && (ms + ms')[i] == ms'[i - |ms|];
      }
    }
  }

  lemma CarriedIsLong(ps: seq<Payload>, ms: seq<Msg>)
    requires Carries(ps, ms)
    ensures LongEnough(ps)
  {}

  // ---------------------------------------------------------------- taking a packet off the stream

  ghost predicate LongEnough(ps: seq<Payload>) {
    forall i :: 0 <= i < |ps| ==> |ps[i]| >= 2
  }

  lemma NextOfSent(before: seq<Payload>, p: Payload, sent: seq<Payload>)
    requires before + [p] <= sent && LongEnough(sent)
    ensures p == sent[|before|] && |p| >= 2 && before + [p] == sent[..|before| + 1]
  {}

  /** The start of both read callbacks: fill(), and the command word once a packet is complete. What is
      in the queue then is the rest of the oldest packet the peer sent and this end has not had. */
  method NextCommand(ghost w: WriteStream, r: ReadStream, pipe: Pipe, n1: nat, n2: nat) returns (command: Option<Short>)
    requires Joined(w, r, pipe) && r.queue == [] && LongEnough(w.sent)
    requires pipe.bytes != [] && n1 > 0
    modifies r, r.readBuf, pipe
    ensures Joined(w, r, pipe) && (r.readBuf == old(r.readBuf) || fresh(r.readBuf))
    ensures old(r.consumed) <= r.consumed && (n2 > 0 ==> old(r.consumed) < r.consumed)
    ensures |r.consumed| == |old(r.consumed)| + Taken(old(r.readBuf[..r.readCount]), old(pipe.bytes), n1, n2)
    ensures command == None ==> r.received == old(r.received) && r.queue == []
    ensures command.Some? ==>
              && |old(r.received)| < |w.sent| && r.received == w.sent[..|old(r.received)| + 1]
              && var p := w.sent[|old(r.received)|];
              |p| >= 2 && command.value == GetShort(p) && r.queue == p[2..]
  {
    hide GetShort, Frames, Partial, WriteStream.Valid, Taken;
    TakeBytes(w, r, pipe, n1, n2);
    if r.Available() {
      var word := r.ReadShort();
      return Some(word);
    }
    return None;
  }

  /** fill() takes bytes, and at most one packet, the oldest. */
  method TakeBytes(ghost w: WriteStream, r: ReadStream, pipe: Pipe, n1: nat, n2: nat)
    requires Joined(w, r, pipe) && r.queue == [] && LongEnough(w.sent)
    requires pipe.bytes != [] && n1 > 0
    modifies r, r.readBuf, pipe
    ensures Joined(w, r, pipe) && (r.readBuf == old(r.readBuf) || fresh(r.readBuf))
    ensures old(r.consumed) <= r.consumed && (n2 > 0 ==> old(r.consumed) < r.consumed)
    ensures |r.consumed| == |old(r.consumed)| + Taken(old(r.readBuf[..r.readCount]), old(pipe.bytes), n1, n2)
    ensures r.queue == [] ==> r.received == old(r.received)
    ensures r.queue != [] ==>
              && |old(r.received)| < |w.sent| && r.received == w.sent[..|old(r.received)| + 1]
              && r.queue == w.sent[|old(r.received)|] && |r.queue| >= 2
  {
    hide Frames, Frame, GetLong, Taken;
    var status := r.Fill(pipe, true, n1, n2);
    NoBadLength(w, r, pipe);
    Delivered(w, r, pipe);
    if r.received != old(r.received) {
      ghost var p :| r.received == old(r.received) + [p] && r.queue == old(r.queue) + p;
      NextOfSent(old(r.received), p, w.sent);
      assert r.queue == p;
    }
  }

  // ---------------------------------------------------------------- the bytes themselves

  /** The bytes on the wire, one link packet of each kind: fields of two bytes, the most significant first, the
      connection before the code and the code before the link. */
  lemma LinksOnTheWire()
    ensures var k := Key(7, 501);
      && PutMsg(OnLink(k, Create), []) == [1, 147, 0, 7, 1, 131, 1, 245]
      && PutMsg(OnLink(k, CreateReply(true)), []) == [1, 147, 0, 7, 1, 131, 1, 245, 1, 134]
      && PutMsg(OnLink(k, CreateReply(false)), []) == [1, 147, 0, 7, 1, 131, 1, 245, 1, 135]
      && PutMsg(OnLink(k, Send([9])), []) == [1, 147, 0, 7, 1, 132, 1, 245, 0, 1, 9]
      && PutMsg(OnLink(k, SendForAck([9])), []) == [1, 147, 0, 7, 1, 136, 1, 245, 0, 1, 9]
      && PutMsg(OnLink(k, Ack), []) == [1, 147, 0, 7, 1, 137, 1, 245]
      && PutMsg(OnLink(k, Close), []) == [1, 147, 0, 7, 1, 133, 1, 245]
  {
    CodesOnTheWire();
    hide PutShort;
  }

  lemma CodesOnTheWire()
    ensures PutShort(7) == [0, 7] && PutShort(501) == [1, 245] && PutShort(1) == [0, 1]
    ensures PutShort(CMD_CONNECTION) == [1, 147]
    ensures PutShort(LINK_CREATE) == [1, 131] && PutShort(LINK_SUCCESS) == [1, 134]
    ensures PutShort(LINK_FAILURE) == [1, 135]
    ensures PutShort(LINK_SEND) == [1, 132] && PutShort(LINK_SEND_FOR_ACK) == [1, 136]
    ensures PutShort(LINK_ACK) == [1, 137] && PutShort(LINK_CLOSE) == [1, 133]
  {}

  /** The same for the other packets and for the header of four bytes in front of every packet. */
  lemma TableOnTheWire()
    ensures var es: seq<Entry> := [(7, ConnectionSpec(CONNECT, [104], 80, 8080, 1))];
      PutMsg(CreateTable(es), []) == [1, 146, 0, 1, 0, 7, 0, 1, 0, 0, 0, 1, 104, 0, 80, 31, 144, 0, 1]
    ensures PutMsg(CreateDone, []) == [1, 146]
    ensures PutMsg(ErrorText, [111]) == [1, 145, 0, 0, 0, 1, 111]
    ensures Frame([9]) == [0, 0, 0, 1, 9]
  {
    SpecOnTheWire();
    assert PutShort(CMD_CREATE) == [1, 146] && PutShort(CMD_ERROR) == [1, 145];
    assert PutShort(7) == [0, 7] && PutShort(1) == [0, 1] && PutLong(1) == [0, 0, 0, 1];
    hide PutShort, PutLong, PutSpec;
    var es: seq<Entry> := [(7, ConnectionSpec(CONNECT, [104], 80, 8080, 1))];
    assert PutEntries(es) == PutShort(7) + PutSpec(es[0].1) + PutEntries([]);
  }

  lemma SpecOnTheWire()
    ensures PutSpec(ConnectionSpec(CONNECT, [104], 80, 8080, 1)) == [0, 1, 0, 0, 0, 1, 104, 0, 80, 31, 144, 0, 1]
  {
    assert PutShort(1) == [0, 1] && PutShort(80) == [0, 80] && PutShort(8080) == [31, 144];
    assert PutLong(1) == [0, 0, 0, 1];
    hide PutShort, PutLong;
  }
}
