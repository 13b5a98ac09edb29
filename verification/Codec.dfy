/** Message formats: link messages, connection specifications and the handshake table. */
module Codec {
  import opened Wire

  const LISTEN := 0
  const CONNECT := 1

  const CMD_ERROR := 401
  const CMD_CREATE := 402
  const CMD_CONNECTION := 403

  const LINK_CREATE := 387
  const LINK_SEND := 388
  const LINK_CLOSE := 389
  const LINK_SUCCESS := 390
  const LINK_FAILURE := 391
  const LINK_SEND_FOR_ACK := 392
  const LINK_ACK := 393

  /** TunnelConnection::BUFFER_SIZE, the most bytes one data message carries. */
  const MAX_DATA := 4096

  /** Longest string a four-byte length can announce. */
  const LONG_LIMIT := 0x1_0000_0000

  // ---------------------------------------------------------------- connection specifications

  datatype ConnectionSpec = ConnectionSpec(
    direction: int, host: seq<Byte>, connectPort: int, listenPort: int, flags: int)
  {
    predicate IsSocks5() {
      |host| == 0 && connectPort == 0
    }

    /** m_flags & ACK_PACKETS */
    predicate AckPackets() {
      flags % 2 == 1
    }

    /** Which kind of object TunnelConnection::CreateConnection makes at this end. */
    predicate ListensAt(isLocal: bool) {
      (isLocal && direction == CONNECT) || (!isLocal && direction == LISTEN)
    }
  }

  function PutSpec(s: ConnectionSpec): seq<Byte> {
    PutShort(s.direction) + PutString(s.host) + PutShort(s.connectPort) + PutShort(s.listenPort) + PutShort(s.flags)
  }

  function GetSpec(bs: seq<Byte>): Option<(ConnectionSpec, seq<Byte>)> {
    if |bs| < 2 then None
    else match GetString(bs[2..])
      case None => None
      case Some((host, tail)) =>
        if |tail| < 6 then None
        else Some((ConnectionSpec(GetShort(bs), host, GetShort(tail), GetShort(tail[2..]), GetShort(tail[4..])),
          tail[6..]))
  }

  /** The specification as it arrives: every integer has passed through a `short`. */
  function WireImage(s: ConnectionSpec): ConnectionSpec {
    ConnectionSpec(ToShort(s.direction), s.host, ToShort(s.connectPort), ToShort(s.listenPort), ToShort(s.flags))
  }

  lemma SpecRoundTrip(s: ConnectionSpec, rest: seq<Byte>)
    requires |s.host| < LONG_LIMIT
    ensures GetSpec(PutSpec(s) + rest) == Some((WireImage(s), rest))
  {
    hide PutShort, GetShort, ToShort, PutString, GetString;
    var t3 := PutShort(s.flags) + rest;
    var t2 := PutShort(s.listenPort) + t3;
    var t1 := PutShort(s.connectPort) + t2;
    var t0 := PutString(s.host) + t1;
    assert PutSpec(s) + rest == PutShort(s.direction) + t0;
    ShortRoundTrip(s.direction, t0);
    StringRoundTrip(s.host, t1);
    ShortRoundTrip(s.connectPort, t2);
    ShortRoundTrip(s.listenPort, t3);
    ShortRoundTrip(s.flags, rest);
    assert t1[2..] == t2 && t1[4..] == t2[2..] && t1[6..] == t3[2..];
  }

  /** What a transferred specification keeps, whatever its fields hold.
      It stays a SOCKS5 request exactly when its port is not a non-zero multiple of 65536. */
  lemma WireImageKeeps(s: ConnectionSpec)
    ensures WireImage(s).host == s.host
    ensures ToPort(WireImage(s).connectPort) == ToPort(s.connectPort)
    ensures ToPort(WireImage(s).listenPort) == ToPort(s.listenPort)
    ensures (WireImage(s).flags - s.flags) % 0x10000 == 0 && WireImage(s).AckPackets() == s.AckPackets()
    ensures s.direction in {LISTEN, CONNECT} ==> WireImage(s).direction == s.direction
    ensures WireImage(s).IsSocks5() == s.IsSocks5()
            <==> (|s.host| > 0 || s.connectPort == 0 || s.connectPort % 0x10000 != 0)
  {}

  // ---------------------------------------------------------------- the CMD_CREATE table

  /** A connection id and its specification; ids are handed out from a `short`. */
  type Entry = (Short, ConnectionSpec)

  function PutEntries(es: seq<Entry>): seq<Byte> {
    if es == [] then [] else PutShort(es[0].0) + PutSpec(es[0].1) + PutEntries(es[1..])
  }

  function PutTable(es: seq<Entry>): seq<Byte> {
    PutShort(|es|) + PutEntries(es)
  }

  function GetEntries(n: nat, bs: seq<Byte>): Option<(seq<Entry>, seq<Byte>)> {
    if n == 0 then Some(([], bs))
    else if |bs| < 2 then None
    else match GetSpec(bs[2..])
      case None => None
      case Some((spec, tail)) =>
        match GetEntries(n - 1, tail)
        case None => None
        case Some((more, rest)) => Some(([(GetShort(bs), spec)] + more, rest))
  }

  /** How often the receiving `for (i = 0; i < count; ++i)` runs for an announced count. */
  function Rounds(count: int): (n: nat)
  {
    if ToShort(count) < 0 then 0 else ToShort(count)
  }

  function GetTable(bs: seq<Byte>): Option<(seq<Entry>, seq<Byte>)> {
    if |bs| < 2 then None else GetEntries(Rounds(GetShort(bs)), bs[2..])
  }

  function Images(es: seq<Entry>): (r: seq<Entry>)
    ensures |r| == |es|
    ensures forall i :: 0 <= i < |es| ==> r[i] == (es[i].0, WireImage(es[i].1))
  {
    seq(|es|, i requires 0 <= i < |es| => (es[i].0, WireImage(es[i].1)))
  }

  ghost predicate Sendable(es: seq<Entry>) {
    forall i :: 0 <= i < |es| ==> |es[i].1.host| < LONG_LIMIT
  }

  lemma {:induction false} EntriesRoundTrip(es: seq<Entry>, rest: seq<Byte>)
    requires Sendable(es)
    ensures GetEntries(|es|, PutEntries(es) + rest) == Some((Images(es), rest))
  {
    hide PutShort, GetShort, ToShort, PutSpec, GetSpec, WireImage;
    if es == [] {
      assert PutEntries(es) + rest == rest;
    } else {
      var tail := PutEntries(es[1..]) + rest;
      EntryRead(es[0], |es| - 1, tail);
      EntriesRoundTrip(es[1..], rest);
      hide GetEntries, PutEntries;
      PutEntriesHead(es, rest);
      assert Images(es) == [(es[0].0, WireImage(es[0].1))] + Images(es[1..]);
    }
  }

  lemma PutEntriesHead(es: seq<Entry>, rest: seq<Byte>)
    requires es != []
    ensures PutEntries(es) + rest == PutShort(es[0].0) + (PutSpec(es[0].1) + (PutEntries(es[1..]) + rest))
  {}

  /** One round of the receiving loop. */
  lemma EntryRead(e: Entry, n: nat, tail: seq<Byte>)
    requires |e.1.host| < LONG_LIMIT
    ensures GetEntries(n + 1, PutShort(e.0) + (PutSpec(e.1) + tail)) ==
      match GetEntries(n, tail)
      case None => None
      case Some((more, rest)) => Some(([(e.0, WireImage(e.1))] + more, rest))
  {
    ShortRoundTrip(e.0, PutSpec(e.1) + tail);
    ToShortIdentity(e.0);
    SpecRoundTrip(e.1, tail);
    hide PutShort, GetShort, ToShort, PutSpec, GetSpec, WireImage;
  }

  lemma {:induction false} PutEntriesSplit(a: seq<Entry>, b: seq<Entry>)
    ensures PutEntries(a + b) == PutEntries(a) + PutEntries(b)
  {
    hide PutShort, PutSpec;
    if a == [] {
      assert a + b == b;
    } else {
      PutEntriesSplit(a[1..], b);
      assert (a + b)[1..] == a[1..] + b;
    }
  }

  /** The receiver recovers the first Rounds(|es|) entries of a table and leaves the rest in its queue. */
  lemma TablePrefix(es: seq<Entry>, rest: seq<Byte>)
    requires Sendable(es)
    ensures Rounds(|es|) <= |es|
    ensures GetTable(PutTable(es) + rest)
            == Some((Images(es[..Rounds(|es|)]), PutEntries(es[Rounds(|es|)..]) + rest))
  {
    hide PutShort, GetShort, ToShort, Rounds, PutEntries, GetEntries, Images;
    RoundsOf(|es|);
    var k := Rounds(|es|);
    var body := PutEntries(es) + rest;
    var tail := PutEntries(es[k..]) + rest;
    assert body == PutEntries(es[..k]) + tail by {
      PutEntriesSplit(es[..k], es[k..]);
      assert es == es[..k] + es[k..];
    }
    EntriesRoundTrip(es[..k], tail);
    CountRead(|es|, body);
    assert PutTable(es) + rest == PutShort(|es|) + body;
  }

  lemma CountRead(n: nat, body: seq<Byte>)
    ensures GetTable(PutShort(n) + body) == GetEntries(Rounds(n), body)
  {
    ShortRoundTrip(n, body);
    RoundsOf(n);
    hide PutShort, GetShort, ToShort, Rounds, GetEntries;
  }

  /** The whole table arrives, with nothing left over, exactly when it has at most 32767 entries. */
  lemma TableRoundTrip(es: seq<Entry>, rest: seq<Byte>)
    requires Sendable(es)
    ensures GetTable(PutTable(es) + rest) == Some((Images(es), rest)) <==> |es| <= 0x7fff
  {
    TablePrefix(es, rest);
    RoundsOf(|es|);
    hide GetTable, PutTable, PutEntries, Rounds;
    var k := Rounds(|es|);
    assert |Images(es[..k])| == k && |Images(es)| == |es|;
    if k == |es| {
      assert es[..k] == es && es[k..] == [];
      NoEntries(es[k..]);
      assert [] + rest == rest;
    }
  }

  lemma NoEntries(es: seq<Entry>)
    requires es == []
    ensures PutEntries(es) == []
  {}

  lemma RoundsOf(n: nat)
    ensures Rounds(n) <= n && (Rounds(n) == n <==> n <= 0x7fff)
    ensures Rounds(ToShort(n)) == Rounds(n)
  {}

  // ---------------------------------------------------------------- link messages

  /** The part of a CMD_CONNECTION message after the connection id, without the link id.
      LINK_CREATE is a request towards the ConnectSide and a reply towards the ListenSide.
      Oversized and Other are what a receiver can read but no sender writes. */
  datatype LinkMsg =
    | Create
    | CreateReply(ok: bool)
    | Send(data: seq<Byte>)
    | SendForAck(data: seq<Byte>)
    | Ack
    | Close
    | Oversized
    | Other(code: Short)

  predicate Sent(towardsListener: bool, m: LinkMsg) {
    match m
    case Create => !towardsListener
    case CreateReply(_) => towardsListener
    case Send(d) => |d| <= MAX_DATA
    case SendForAck(d) => |d| <= MAX_DATA
    case Ack => true
    case Close => true
    case _ => false
  }

  function PutLink(lid: int, m: LinkMsg): seq<Byte> {
    match m
    case Create => PutShort(LINK_CREATE) + PutShort(lid)
    case CreateReply(ok) =>
      PutShort(LINK_CREATE) + PutShort(lid) + PutShort(if ok then LINK_SUCCESS else LINK_FAILURE)
    case Send(d) => PutShort(LINK_SEND) + PutShort(lid) + PutShort(|d|) + d
    case SendForAck(d) => PutShort(LINK_SEND_FOR_ACK) + PutShort(lid) + PutShort(|d|) + d
    case Ack => PutShort(LINK_ACK) + PutShort(lid)
    case Close => PutShort(LINK_CLOSE) + PutShort(lid)
    case Other(code) => PutShort(code) + PutShort(lid)
    case Oversized => []
  }

  /** The whole packet of a CMD_CONNECTION message. */
  function LinkPayload(cid: Short, lid: Short, m: LinkMsg): seq<Byte> {
    PutShort(CMD_CONNECTION) + PutShort(cid) + PutLink(lid, m)
  }

  /** The whole packet of a CMD_ERROR message. */
  function ErrorPayload(text: seq<Byte>): (p: seq<Byte>)
    ensures |p| >= 2
  {
    PutShort(CMD_ERROR) + PutString(text)
  }

  datatype LinkFrame = LinkFrame(lid: Short, msg: LinkMsg, rest: seq<Byte>)

  /** The rest of a link message after its code and link id.
      None when the C++ code would read past the end of the queue. */
  function GetBody(towardsListener: bool, code: Short, tail: seq<Byte>): Option<(LinkMsg, seq<Byte>)> {
    if code == LINK_CREATE then
      if !towardsListener then Some((Create, tail))
      else if |tail| < 2 then None
      else Some((CreateReply(GetShort(tail) == LINK_SUCCESS), tail[2..]))
    else if code == LINK_SEND || code == LINK_SEND_FOR_ACK then
      if |tail| < 2 then None
      else
        var n := GetShort(tail);
        if n > MAX_DATA then Some((Oversized, tail[2..]))
        else if n < 0 || |tail| < 2 + n then None
        else if code == LINK_SEND then Some((Send(tail[2..2 + n]), tail[2 + n..]))
        else Some((SendForAck(tail[2..2 + n]), tail[2 + n..]))
    else if code == LINK_CLOSE then Some((Close, tail))
    else if code == LINK_ACK then Some((Ack, tail))
    else Some((Other(code), tail))
  }

  /** What ListenSide or ConnectSide reads off its queue for a link it knows. */
  function GetLink(towardsListener: bool, bs: seq<Byte>): Option<LinkFrame> {
    if |bs| < 4 then None
    else
      match GetBody(towardsListener, GetShort(bs), bs[4..])
      case None => None
      case Some((msg, rest)) => Some(LinkFrame(GetShort(bs[2..]), msg, rest))
  }

  /** Every link message is read back as sent, and exactly its own bytes are consumed. */
  lemma LinkRoundTrip(towardsListener: bool, lid: Short, m: LinkMsg, rest: seq<Byte>)
    requires Sent(towardsListener, m)
    ensures GetLink(towardsListener, PutLink(lid, m) + rest) == Some(LinkFrame(lid, m, rest))
  {
    hide PutShort, GetShort, ToShort;
    ToShortIdentity(lid);
    match m
    case Create => HeaderRoundTrip(LINK_CREATE, lid, rest);
      assert PutLink(lid, m) + rest == PutShort(LINK_CREATE) + PutShort(lid) + rest;
    case CreateReply(ok) =>
      var result := if ok then LINK_SUCCESS else LINK_FAILURE;
      assert PutLink(lid, m) + rest == PutShort(LINK_CREATE) + PutShort(lid) + (PutShort(result) + rest);
      HeaderRoundTrip(LINK_CREATE, lid, PutShort(result) + rest);
      ShortRoundTrip(result, rest);
    case Send(d) => DataRoundTrip(LINK_SEND, lid, d, rest);
      assert PutLink(lid, m) == PutShort(LINK_SEND) + PutShort(lid) + PutShort(|d|) + d;
    case SendForAck(d) => DataRoundTrip(LINK_SEND_FOR_ACK, lid, d, rest);
      assert PutLink(lid, m) == PutShort(LINK_SEND_FOR_ACK) + PutShort(lid) + PutShort(|d|) + d;
    case Ack => HeaderRoundTrip(LINK_ACK, lid, rest);
      assert PutLink(lid, m) + rest == PutShort(LINK_ACK) + PutShort(lid) + rest;
    case Close => HeaderRoundTrip(LINK_CLOSE, lid, rest);
      assert PutLink(lid, m) + rest == PutShort(LINK_CLOSE) + PutShort(lid) + rest;
  }

  lemma HeaderRoundTrip(code: Short, lid: Short, rest: seq<Byte>)
    ensures var bs := PutShort(code) + PutShort(lid) + rest;
      |bs| >= 4 && GetShort(bs) == code && GetShort(bs[2..]) == lid && bs[4..] == rest
  {
    hide PutShort, GetShort, ToShort;
    var bs := PutShort(code) + PutShort(lid) + rest;
    assert bs == PutShort(code) + (PutShort(lid) + rest);
    ShortRoundTrip(code, PutShort(lid) + rest);
    ShortRoundTrip(lid, rest);
    ToShortIdentity(code);
    ToShortIdentity(lid);
  }

  lemma DataRoundTrip(code: Short, lid: Short, d: seq<Byte>, rest: seq<Byte>)
    requires |d| <= MAX_DATA
    ensures var bs := PutShort(code) + PutShort(lid) + PutShort(|d|) + d + rest;
      && |bs| == 6 + |d| + |rest|
      && GetShort(bs) == code && GetShort(bs[2..]) == lid && GetShort(bs[4..]) == |d|
      && bs[4..][2..2 + |d|] == d && bs[4..][2 + |d|..] == rest
  {
    hide PutShort, GetShort, ToShort;
    var tail := PutShort(|d|) + (d + rest);
    var bs := PutShort(code) + PutShort(lid) + PutShort(|d|) + d + rest;
    assert bs == PutShort(code) + PutShort(lid) + tail;
    HeaderRoundTrip(code, lid, tail);
    ShortRoundTrip(|d|, d + rest);
    assert tail[2..2 + |d|] == d && tail[2 + |d|..] == rest;
  }
}
