/** What the code at one tunnel end does to a single link, as functions on values.
    Module Endpoint holds the classes whose methods these functions specify. */
module Links {
  import opened Wire
  import opened Codec
  import opened Polling

  /** A ConnectionLink together with its Poller entry. `pending` is the content of its SockBuffer. */
  datatype Link = Link(
    pending: seq<Byte>, closing: bool, acknowledged: bool,
    registered: bool, events: Events, revents: Events)

  /** A ConnectionLink as constructed; not yet given to the Poller. */
  const FRESH := Link([], false, true, false, NOTHING, NOTHING)

  function AddPolled(l: Link): Link {
    l.(registered := true, events := Events(true, false, false), revents := NOTHING)
  }

  function SetEvents(l: Link, e: Events): Link {
    if l.registered then l.(events := e) else l
  }

  function SetAcknowledged(l: Link, ack: bool): Link {
    if l.closing then l.(acknowledged := ack)
    else SetEvents(l.(acknowledged := ack), Events(ack, l.pending != [], false))
  }

  function SetClosing(l: Link): Link {
    l.(closing := true, registered := false, events := NOTHING, revents := NOTHING)
  }

  /** TunnelConnection::closeLink: at most one LINK_CLOSE per link. */
  function CloseLink(l: Link): (Link, seq<LinkMsg>) {
    if l.closing then (l, []) else (SetClosing(l), [Close])
  }

  function ReceiveData(l: Link, d: seq<Byte>): Link {
    if l.closing then l else SetEvents(l.(pending := l.pending + d), Events(false, true, false))
  }

  /** Why a run stops or goes astray while a message is handled. */
  datatype Fault =
    | LinkNotFound        // ListenSide throws
    | BadReceiveLength    // receiveData throws
    | Desynchronised      // the rest of the message stays in the read queue
    | NoConnection        // a null entry of m_connection_map is dereferenced
    | UnexpectedCommand   // the remote end throws

  datatype Reaction =
    | Reaction(slot: Option<Link>, replies: seq<LinkMsg>)
    | Failed(fault: Fault)

  /** processLinkMessage for a link that was found. */
  function ProcessLinkMessage(l: Link, m: LinkMsg): Reaction {
    match m
    case Send(d) => Reaction(Some(ReceiveData(l, d)), [])
    case Close => Reaction(None, CloseLink(l).1)
    case SendForAck(d) =>
      var received := ReceiveData(l, d);
      if !l.closing then Reaction(Some(received), [Ack])
      else Reaction(Some(SetAcknowledged(received, true)), [])
    case Ack => Reaction(Some(SetAcknowledged(l, true)), [])
    case Oversized => Failed(BadReceiveLength)
    case _ => Reaction(Some(l), [])
  }

  /** ListenSide::processMessage and ConnectSide::processMessage, seen at one link id.
      `connected` says whether the ConnectSide's connect attempt succeeds. */
  function Receive(listening: bool, slot: Option<Link>, m: LinkMsg, connected: bool): Reaction {
    if listening then
      match slot
      case None => Failed(LinkNotFound)
      case Some(l) =>
        if m == CreateReply(true) then Reaction(Some(AddPolled(l)), [])
        else if m == CreateReply(false) then Reaction(None, [])
        else ProcessLinkMessage(l, m)
    else if m == Create then
      Reaction(if connected then Some(AddPolled(FRESH)) else slot, [CreateReply(connected)])
    else
      match slot
      case None => if m.Send? || m.SendForAck? || m.Oversized? then Failed(Desynchronised) else Reaction(None, [])
      case Some(l) => ProcessLinkMessage(l, m)
  }

  /** The exits a run must not take: a listener that does not know the link, data for a link the connector does not
      know, and data that is too long. Of an unknown link a connector ignores everything else but a request, and a known
      link everything no sender writes. */
  lemma StrangeMessages(l: Link, m: LinkMsg, connected: bool)
    ensures Receive(true, None, m, connected) == Failed(LinkNotFound)
    ensures m != Create ==>
      Receive(false, None, m, connected)
      == if m.Send? || m.SendForAck? || m.Oversized? then Failed(Desynchronised) else Reaction(None, [])
    ensures forall listening :: Receive(listening, Some(l), Oversized, connected) == Failed(BadReceiveLength)
    ensures m.Other? ==> forall listening :: Receive(listening, Some(l), m, connected) == Reaction(Some(l), [])
  {}

  datatype ReadResult = Bytes(data: seq<Byte>) | Eof

  /** What one poll callback on a link does: new state, messages sent, socket traffic. */
  datatype Turn = Turn(link: Link, sends: seq<LinkMsg>, read: seq<Byte>, wrote: seq<Byte>)

  function DataMessage(ack: bool, d: seq<Byte>): LinkMsg {
    if ack then SendForAck(d) else Send(d)
  }

  function WriteCount(l: Link, n: nat): (k: nat)
    ensures k <= |l.pending|
  {
    var most := if |l.pending| < MAX_DATA then |l.pending| else MAX_DATA;
    if n < most then n else most
  }

  function PolledOut(l: Link, n: nat): Link {
    var l' := l.(pending := l.pending[WriteCount(l, n)..]);
    if l'.pending == [] then SetEvents(l', Events(l.acknowledged, false, false)) else l'
  }

  /** ConnectionLink::polled; `rd` is what read() returns and n how much write() accepts. */
  function Polled(l: Link, ack: bool, rd: ReadResult, n: nat): Turn {
    var ready := l.revents;
    if ready.pin && rd.Eof? then Turn(CloseLink(l).0, CloseLink(l).1, [], [])
    else
      var read := if ready.pin then rd.data else [];
      var sends := if ready.pin then [DataMessage(ack, rd.data)] else [];
      var l1 := if ready.pin && ack then SetAcknowledged(l, false) else l;
      var wrote := if ready.pout then l1.pending[..WriteCount(l1, n)] else [];
      var l2 := if ready.pout then PolledOut(l1, n) else l1;
      if ready.perr then Turn(CloseLink(l2).0, sends + CloseLink(l2).1, read, wrote)
      else Turn(l2, sends, read, wrote)
  }

  /** How much of `count` bytes the kernel would take is written in that callback: some, if there is any to write. */
  predicate WritesSome(l: Link, rd: ReadResult, count: nat, n: nat) {
    && n <= count
    && (l.revents.pout && !(l.revents.pin && rd.Eof?) && l.pending != [] && count > 0 ==> n > 0)
  }

  // ---------------------------------------------------------------- invariant of one link

  /** Holds of every link that has been given to the Poller. */
  predicate Healthy(ack: bool, l: Link) {
    && (l.registered <==> !l.closing)
    && (!ack ==> l.acknowledged)
    && (l.registered ==>
          && (l.events.pout <==> l.pending != [])
          && (l.events.pin ==> l.acknowledged)
          && (l.acknowledged && l.pending == [] ==> l.events.pin)
          && (l.revents.pin ==> l.acknowledged))
  }

  /** What poll() may report for an entry: armed events, and errors at any time. */
  predicate Reportable(l: Link, ready: Events) {
    && l.registered
    && (ready.pin ==> l.events.pin)
    && (ready.pout ==> l.events.pout)
  }

  /** After its turn an entry's revents are not looked at again before the next poll() rewrites
      them: Polling.Poller.PollOnce visits every entry at most once a round. */
  function Visited(l: Link): Link {
    l.(revents := NOTHING)
  }

  lemma PolledKeepsHealthy(ack: bool, l: Link, rd: ReadResult, n: nat)
    requires Healthy(ack, l) && l.registered
    requires rd.Bytes? ==> 0 < |rd.data| <= MAX_DATA
    ensures Healthy(ack, Visited(Polled(l, ack, rd, n).link))
  {
    hide WriteCount;
    if !(l.revents.pin && rd.Eof?) {
      var l1 := if l.revents.pin && ack then SetAcknowledged(l, false) else l;
      var l2 := if l.revents.pout then PolledOut(l1, n) else l1;
      assert Healthy(ack, Visited(l1)) && l1.registered;
      assert Healthy(ack, Visited(l2)) && l2.registered;
    }
  }

  function DataPart(ack: bool, read: seq<Byte>): seq<LinkMsg> {
    if read == [] then [] else [DataMessage(ack, read)]
  }

  function ClosePart(closing: bool): seq<LinkMsg> {
    if closing then [Close] else []
  }

  /** The traffic of one turn: bytes read are sent, bytes written leave the buffer, and a LINK_CLOSE
      is sent, last, exactly when the link closes. Only an acknowledged link reads. */
  lemma PolledTraffic(ack: bool, l: Link, rd: ReadResult, n: nat)
    requires Healthy(ack, l) && l.registered
    requires rd.Bytes? ==> 0 < |rd.data| <= MAX_DATA
    ensures var t := Polled(l, ack, rd, n);
      && l.pending == t.wrote + t.link.pending
      && t.sends == DataPart(ack, t.read) + ClosePart(t.link.closing)
      && |t.read| <= MAX_DATA
      && (t.read != [] ==> l.acknowledged)
      && (t.link.closing || t.link.acknowledged == (l.acknowledged && !(ack && t.read != [])))
  {
    var t := Polled(l, ack, rd, n);
    var k := WriteCount(l, n);
    assert l.pending == l.pending[..k] + l.pending[k..];
    hide WriteCount;
    if l.revents.pin && rd.Eof? {
      assert t.sends == [Close];
    } else {
      assert t.sends == DataPart(ack, t.read) + ClosePart(l.revents.perr);
    }
  }

  /** The same callback without the functions above. It reads exactly if the link is reported readable, and sends
      what it has read as one packet of the connection's kind; it writes exactly if it is reported writable, as many
      of the oldest bytes as the kernel takes of a bufferful; it closes exactly at end of file or on an error. A link
      that stays open waits for room while bytes are left, and for input exactly if it is acknowledged and either
      waited for input before or has just been emptied. */
  lemma PolledExactly(ack: bool, l: Link, rd: ReadResult, n: nat)
    requires Healthy(ack, l) && l.registered
    requires rd.Bytes? ==> 0 < |rd.data| <= MAX_DATA
    ensures var t := Polled(l, ack, rd, n);
      var eof, got := l.revents.pin && rd.Eof?, l.revents.pin && rd.Bytes?;
      var k := if l.revents.pout && !eof then Least(n, Least(|l.pending|, MAX_DATA)) else 0;
      && t.read == (if got then rd.data else [])
      && t.wrote == l.pending[..k] && t.link.pending == l.pending[k..]
      && (t.link.closing <==> eof || l.revents.perr) && (t.link.registered <==> !t.link.closing)
      && t.sends == (if !got then [] else if ack then [SendForAck(rd.data)] else [Send(rd.data)])
                    + (if t.link.closing then [Close] else [])
      && (!t.link.closing ==>
            && t.link.acknowledged == (l.acknowledged && !(got && ack))
            && (t.link.events.pout <==> k < |l.pending|)
            && (t.link.events.pin <==>
                  t.link.acknowledged && (l.events.pin || (l.revents.pout && k == |l.pending|))))
  {
    PolledTraffic(ack, l, rd, n);
    if l.revents.pin && rd.Eof? {
      assert Polled(l, ack, rd, n).sends == [Close];
    } else {
      var k := if l.revents.pout then WriteCount(l, n) else 0;
      assert k == if l.revents.pout then Least(n, Least(|l.pending|, MAX_DATA)) else 0;
      assert l.pending[..0] == [] && l.pending[0..] == l.pending;
    }
  }

  /** A data message or an acknowledgement handled at an established link. Data makes it wait for room only, an
      acknowledgement for input again, and for room as well while bytes are left. */
  lemma ReceiveTraffic(ack: bool, l: Link, m: LinkMsg)
    requires Healthy(ack, l)
    requires m.Send? || m.SendForAck? || m.Ack?
    requires m.Send? || m.SendForAck? ==> m.data != []
    ensures var r := ProcessLinkMessage(l, m);
      && r.Reaction? && r.slot.Some? && Healthy(ack, r.slot.value)
      && r.slot.value.closing == l.closing
      && r.replies == (if m.SendForAck? && !l.closing then [Ack] else [])
      && (!l.closing ==> r.slot.value.acknowledged == (l.acknowledged || m.Ack?))
      && (!l.closing && !m.Ack? ==> r.slot.value.pending == l.pending + m.data)
      && (l.closing || m.Ack? ==> r.slot.value.pending == l.pending)
      && (l.registered ==>
            && r.slot.value.registered
            && (r.slot.value.events.pin <==> m.Ack?) && (r.slot.value.events.pout <==> r.slot.value.pending != []))
  {}
}
