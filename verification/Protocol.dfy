/** One link id between the ListenSide and the ConnectSide of one connection: both link slots and
    the link's own messages in the two channels, under every interleaving. */
module Protocol {
  import opened Wire
  import opened Codec
  import opened Polling
  import opened Links

  /** Socket traffic of the current incarnation of the link id at the two ends. */
  datatype Traffic = Traffic(lRead: seq<Byte>, lWritten: seq<Byte>, cRead: seq<Byte>, cWritten: seq<Byte>)

  const SILENCE := Traffic([], [], [], [])

  /** l and c are the slots at the ListenSide and the ConnectSide; lc and cl the messages
      travelling from one to the other, oldest first. */
  datatype Pair = Pair(l: Option<Link>, c: Option<Link>, lc: seq<LinkMsg>, cl: seq<LinkMsg>, io: Traffic)

  datatype Action =
    | Accept
    | Poll(atListener: bool, ready: Events)
    | LinkPolled(atListener: bool, rd: ReadResult, n: nat)
    | Deliver(toListener: bool, connected: bool)

  function SlotAt(p: Pair, atListener: bool): Option<Link> {
    if atListener then p.l else p.c
  }

  predicate Enabled(p: Pair, a: Action) {
    match a
    case Accept => true
    case Poll(at, ready) => SlotAt(p, at).Some? && Reportable(SlotAt(p, at).value, ready)
    case LinkPolled(at, rd, _) =>
      && SlotAt(p, at).Some? && SlotAt(p, at).value.registered
      && SlotAt(p, at).value.revents != NOTHING
      && (rd.Bytes? ==> 0 < |rd.data| <= MAX_DATA)
    case Deliver(toListener, _) => if toListener then p.cl != [] else p.lc != []
  }

  datatype Outcome = Running(p: Pair) | Stopped(fault: Fault)

  function PolledAt(ack: bool, p: Pair, at: bool, rd: ReadResult, n: nat): Pair
    requires SlotAt(p, at).Some?
  {
    var t := Polled(SlotAt(p, at).value, ack, rd, n);
    if at then
      p.(l := Some(Visited(t.link)), lc := p.lc + t.sends,
         io := p.io.(lRead := p.io.lRead + t.read, lWritten := p.io.lWritten + t.wrote))
    else
      p.(c := Some(Visited(t.link)), cl := p.cl + t.sends,
         io := p.io.(cRead := p.io.cRead + t.read, cWritten := p.io.cWritten + t.wrote))
  }

  function Step(ack: bool, p: Pair, a: Action): Outcome
    requires Enabled(p, a)
  {
    match a
    case Accept => Running(p.(l := Some(FRESH), lc := p.lc + [Create], io := SILENCE))
    case Poll(at, ready) =>
      if at then Running(p.(l := Some(p.l.value.(revents := ready))))
      else Running(p.(c := Some(p.c.value.(revents := ready))))
    case LinkPolled(at, rd, n) => Running(PolledAt(ack, p, at, rd, n))
    case Deliver(toListener, connected) =>
      if toListener then
        match Receive(true, p.l, p.cl[0], connected)
        case Failed(why) => Stopped(why)
        case Reaction(slot, replies) => Running(p.(l := slot, cl := p.cl[1..], lc := p.lc + replies))
      else
        match Receive(false, p.c, p.lc[0], connected)
        case Failed(why) => Stopped(why)
        case Reaction(slot, replies) => Running(p.(c := slot, lc := p.lc[1..], cl := p.cl + replies))
  }

  // ---------------------------------------------------------------- measures of a channel

  function Payload(m: LinkMsg): seq<Byte> {
    match m
    case Send(d) => d
    case SendForAck(d) => d
    case _ => []
  }

  /** The payload bytes travelling in a channel, in order. */
  function Data(s: seq<LinkMsg>): seq<Byte> {
    if s == [] then [] else Payload(s[0]) + Data(s[1..])
  }

  function Sends(s: seq<LinkMsg>): nat {
    if s == [] then 0 else (if s[0].SendForAck? then 1 else 0) + Sends(s[1..])
  }

  function Acks(s: seq<LinkMsg>): nat {
    if s == [] then 0 else (if s[0].Ack? then 1 else 0) + Acks(s[1..])
  }

  lemma {:induction false} DataAppend(s: seq<LinkMsg>, t: seq<LinkMsg>)
    ensures Data(s + t) == Data(s) + Data(t)
  {
    hide Payload;
    if s == [] {
      assert s + t == t;
    } else {
      DataAppend(s[1..], t);
      assert (s + t)[1..] == s[1..] + t && (s + t)[0] == s[0];
      var a, b, c := Payload(s[0]), Data(s[1..]), Data(t);
      assert a + (b + c) == (a + b) + c;
    }
  }

  lemma {:induction false} CountsAppend(s: seq<LinkMsg>, t: seq<LinkMsg>)
    ensures Sends(s + t) == Sends(s) + Sends(t)
    ensures Acks(s + t) == Acks(s) + Acks(t)
  {
    if s == [] {
      assert s + t == t;
    } else {
      CountsAppend(s[1..], t);
      assert (s + t)[1..] == s[1..] + t;
    }
  }

  lemma MeasuresOfTurn(ack: bool, read: seq<Byte>, closing: bool)
    ensures var sends := DataPart(ack, read) + ClosePart(closing);
      && Data(sends) == read
      && Sends(sends) == (if ack && read != [] then 1 else 0)
      && Acks(sends) == 0
  {
    var d, c := DataPart(ack, read), ClosePart(closing);
    DataAppend(d, c);
    CountsAppend(d, c);
    assert [Close][1..] == [] && [DataMessage(ack, read)][1..] == [];
  }

  // ---------------------------------------------------------------- the invariant

  predicate DataOrAck(ack: bool, m: LinkMsg) {
    match m
    case Send(d) => !ack && 0 < |d| <= MAX_DATA
    case SendForAck(d) => ack && 0 < |d| <= MAX_DATA
    case Ack => ack
    case _ => false
  }

  /** Data and acknowledgements, ended by the sender's one LINK_CLOSE exactly when it has closed. */
  predicate Stream(ack: bool, s: seq<LinkMsg>, closed: bool) {
    if closed then
      && s != [] && s[|s| - 1] == Close
      && forall i :: 0 <= i < |s| - 1 ==> DataOrAck(ack, s[i])
    else forall i :: 0 <= i < |s| ==> DataOrAck(ack, s[i])
  }

  /** Unacknowledged packets of the end `l` that are on their way, there or back. */
  function Outstanding(there: seq<LinkMsg>, back: seq<LinkMsg>): nat {
    Sends(there) + Acks(back)
  }

  /** Stop-and-wait between a sending end `from` and the end `to`. */
  predicate StopAndWait(from: Link, to: Link, there: seq<LinkMsg>, back: seq<LinkMsg>) {
    && Outstanding(there, back) <= 1
    && (!from.closing && from.acknowledged ==> Outstanding(there, back) == 0)
    && (!from.closing && !from.acknowledged && !to.closing ==> Outstanding(there, back) == 1)
  }

  /** Conservation towards the end `to`: what its peer read is what it wrote, then what it holds,
      then what is in flight. Once it has closed, what it wrote stays a prefix. */
  predicate Conserved(read: seq<Byte>, inFlight: seq<LinkMsg>, to: Link, written: seq<Byte>) {
    && written <= read
    && (!to.closing ==> read == written + to.pending + Data(inFlight))
  }

  predicate BothEnds(ack: bool, p: Pair) {
    && p.l.Some? && p.c.Some?
    && StopAndWait(p.l.value, p.c.value, p.lc, p.cl)
    && StopAndWait(p.c.value, p.l.value, p.cl, p.lc)
    && Conserved(p.io.lRead, p.lc, p.c.value, p.io.cWritten)
    && Conserved(p.io.cRead, p.cl, p.l.value, p.io.lWritten)
    && Healthy(ack, p.c.value)
  }

  /** A closing ConnectSide link left over from the previous use of the id, with what it will still receive. */
  predicate Leftover(ack: bool, c: Option<Link>, lc: seq<LinkMsg>) {
    if c.None? then lc == []
    else c.value.closing && Healthy(ack, c.value) && Stream(ack, lc, true) && Sends(lc) <= 1
  }

  // The phases of a link id.

  predicate Requested(ack: bool, p: Pair) {
    && p.l == Some(FRESH) && p.cl == [] && p.io == SILENCE
    && p.lc != [] && p.lc[|p.lc| - 1] == Create && Leftover(ack, p.c, p.lc[..|p.lc| - 1])
  }

  predicate Refused(p: Pair) {
    p.l == Some(FRESH) && p.c == None && p.lc == [] && p.cl == [CreateReply(false)] && p.io == SILENCE
  }

  predicate Granted(ack: bool, p: Pair) {
    && p.l == Some(FRESH) && p.lc == [] && p.cl != [] && p.cl[0] == CreateReply(true)
    && BothEnds(ack, p)
    && Stream(ack, p.cl[1..], p.c.value.closing)
  }

  predicate Established(ack: bool, p: Pair) {
    && BothEnds(ack, p) && Healthy(ack, p.l.value)
    && Stream(ack, p.lc, p.l.value.closing) && Stream(ack, p.cl, p.c.value.closing)
  }

  /** The ListenSide has erased the link (or never made it). */
  predicate ListenerDone(ack: bool, p: Pair) {
    p.l == None && p.cl == [] && Leftover(ack, p.c, p.lc)
  }

  /** The ConnectSide has erased the link; the ListenSide still waits for its LINK_CLOSE. */
  predicate ConnectorDone(ack: bool, p: Pair) {
    && p.c == None && p.lc == []
    && p.l.Some? && p.l.value.closing && Healthy(ack, p.l.value)
    && Stream(ack, p.cl, true) && Sends(p.cl) <= 1
  }

  predicate Inv(ack: bool, p: Pair) {
    && p.io.cWritten <= p.io.lRead && p.io.lWritten <= p.io.cRead
    && (Requested(ack, p) || Refused(p) || Granted(ack, p) || Established(ack, p)
        || ListenerDone(ack, p) || ConnectorDone(ack, p))
  }

  const UNUSED := Pair(None, None, [], [], SILENCE)

  lemma UnusedIsInv(ack: bool)
    ensures Inv(ack, UNUSED)
  {}

  // ---------------------------------------------------------------- preservation

  /** Taking the oldest message off a stream. */
  lemma StreamTail(ack: bool, s: seq<LinkMsg>, closed: bool)
    requires Stream(ack, s, closed) && s != []
    ensures s[0] == Close ==> closed && s == [Close]
    ensures s[0] != Close ==> DataOrAck(ack, s[0]) && Stream(ack, s[1..], closed)
  {}

  lemma StreamAppend(ack: bool, s: seq<LinkMsg>, m: LinkMsg)
    requires Stream(ack, s, false)
    ensures DataOrAck(ack, m) ==> Stream(ack, s + [m], false)
    ensures m == Close ==> Stream(ack, s + [m], true)
  {}

  /** A closing link discards what still arrives, answers nothing, and goes at the peer's LINK_CLOSE. */
  lemma ClosingReceives(ack: bool, listening: bool, l: Link, s: seq<LinkMsg>, connected: bool)
    requires l.closing && Healthy(ack, l) && Stream(ack, s, true) && Sends(s) <= 1
    ensures var r := Receive(listening, Some(l), s[0], connected);
      && r.Reaction? && r.replies == []
      && if s[0] == Close then r.slot == None && s[1..] == []
         else r.slot.Some? && r.slot.value.closing && Healthy(ack, r.slot.value)
              && Stream(ack, s[1..], true) && Sends(s[1..]) <= 1
  {}

  /** Everything that holds between an end `me` and its `peer`: out goes to the peer, back comes from it. */
  predicate Between(me: Link, peer: Link, out: seq<LinkMsg>, back: seq<LinkMsg>,
                    myRead: seq<Byte>, myWritten: seq<Byte>, peerRead: seq<Byte>, peerWritten: seq<Byte>) {
    && StopAndWait(me, peer, out, back)
    && StopAndWait(peer, me, back, out)
    && Conserved(myRead, out, peer, peerWritten)
    && Conserved(peerRead, back, me, myWritten)
  }

  /** A poll callback at `me` keeps the relation with the peer. */
  lemma TurnBetween(ack: bool, me: Link, peer: Link, out: seq<LinkMsg>, back: seq<LinkMsg>,
                    myRead: seq<Byte>, myWritten: seq<Byte>, peerRead: seq<Byte>, peerWritten: seq<Byte>,
                    t: Turn, me': Link)
    requires me.registered && !me.closing && me.pending == t.wrote + t.link.pending
    requires me'.pending == t.link.pending && me'.closing == t.link.closing && me'.acknowledged == t.link.acknowledged
    requires t.sends == DataPart(ack, t.read) + ClosePart(t.link.closing)
    requires t.read != [] ==> me.acknowledged
    requires t.link.closing || t.link.acknowledged == (me.acknowledged && !(ack && t.read != []))
    requires Between(me, peer, out, back, myRead, myWritten, peerRead, peerWritten)
    ensures Between(me', peer, out + t.sends, back, myRead + t.read, myWritten + t.wrote, peerRead, peerWritten)
  {
    CountsAppend(out, t.sends);
    DataAppend(out, t.sends);
    MeasuresOfTurn(ack, t.read, t.link.closing);
    hide Sends, Acks, Data;
    assert Conserved(myRead + t.read, out + t.sends, peer, peerWritten);
    assert myWritten + me.pending == (myWritten + t.wrote) + t.link.pending;
    assert Conserved(peerRead, back, me', myWritten + t.wrote);
  }

  /** Handling a data or acknowledgement message at `me` keeps the relation with the peer. */
  lemma ReceiveBetween(me: Link, peer: Link, out: seq<LinkMsg>, back: seq<LinkMsg>,
                       myRead: seq<Byte>, myWritten: seq<Byte>, peerRead: seq<Byte>, peerWritten: seq<Byte>,
                       me': Link, replies: seq<LinkMsg>)
    requires back != []
    requires me'.closing == me.closing
    requires replies == (if back[0].SendForAck? && !me.closing then [Ack] else [])
    requires !me.closing ==> me'.acknowledged == (me.acknowledged || back[0].Ack?)
    requires !me.closing ==> me'.pending == me.pending + Payload(back[0])
    requires Between(me, peer, out, back, myRead, myWritten, peerRead, peerWritten)
    ensures Between(me', peer, out + replies, back[1..], myRead, myWritten, peerRead, peerWritten)
  {
    CountsAppend(out, replies);
    DataAppend(out, replies);
    MeasuresOfReplies(replies);
    MeasuresHead(back);
    hide Sends, Acks, Data, Payload;
    ReceiveKeepsWait(me, peer, out, back, me', out + replies, back[1..], back[0], |replies|);
    if !me.closing {
      MoveToPending(myWritten, me.pending, Payload(back[0]), Data(back[1..]));
    }
    assert Data(out + replies) == Data(out);
  }

  lemma MoveToPending(written: seq<Byte>, pending: seq<Byte>, payload: seq<Byte>, later: seq<Byte>)
    ensures written + pending + (payload + later) == written + (pending + payload) + later
  {}

  lemma ReceiveKeepsWait(me: Link, peer: Link, out: seq<LinkMsg>, back: seq<LinkMsg>,
                         me': Link, out': seq<LinkMsg>, back': seq<LinkMsg>, m: LinkMsg, replies: nat)
    requires me'.closing == me.closing
    requires !me.closing ==> me'.acknowledged == (me.acknowledged || m.Ack?)
    requires replies == (if m.SendForAck? && !me.closing then 1 else 0)
    requires Sends(out') == Sends(out) && Acks(out') == Acks(out) + replies
    requires Sends(back) == Sends(back') + (if m.SendForAck? then 1 else 0)
    requires Acks(back) == Acks(back') + (if m.Ack? then 1 else 0)
    requires StopAndWait(me, peer, out, back) && StopAndWait(peer, me, back, out)
    ensures StopAndWait(me', peer, out', back') && StopAndWait(peer, me', back', out')
  {}

  lemma MeasuresHead(s: seq<LinkMsg>)
    requires s != []
    ensures Sends(s) == Sends(s[1..]) + (if s[0].SendForAck? then 1 else 0)
    ensures Acks(s) == Acks(s[1..]) + (if s[0].Ack? then 1 else 0)
    ensures Data(s) == Payload(s[0]) + Data(s[1..])
  {}

  lemma MeasuresOfReplies(replies: seq<LinkMsg>)
    requires replies == [] || replies == [Ack]
    ensures Data(replies) == [] && Sends(replies) == 0 && Acks(replies) == |replies|
  {}

  lemma PollPreserves(ack: bool, p: Pair, at: bool, ready: Events)
    requires Inv(ack, p) && Enabled(p, Poll(at, ready))
    ensures Inv(ack, Step(ack, p, Poll(at, ready)).p)
  {}

  lemma StreamTurn(ack: bool, s: seq<LinkMsg>, read: seq<Byte>, closed: bool)
    requires Stream(ack, s, false) && |read| <= MAX_DATA
    ensures Stream(ack, s + (DataPart(ack, read) + ClosePart(closed)), closed)
  {}

  lemma LinkPolledPreserves(ack: bool, p: Pair, at: bool, rd: ReadResult, n: nat)
    requires Inv(ack, p) && Enabled(p, LinkPolled(at, rd, n))
    ensures Inv(ack, Step(ack, p, LinkPolled(at, rd, n)).p)
  {
    var l := SlotAt(p, at).value;
    PolledKeepsHealthy(ack, l, rd, n);
    PolledTraffic(ack, l, rd, n);
    hide Polled, Healthy;
    if at { TurnAtListener(ack, p, Polled(l, ack, rd, n)); } else { TurnAtConnector(ack, p, Polled(l, ack, rd, n)); }
  }

  /** What PolledTraffic and PolledKeepsHealthy say of a turn. */
  predicate ProperTurn(ack: bool, l: Link, t: Turn) {
    && l.registered && !l.closing && l.pending == t.wrote + t.link.pending
    && t.sends == DataPart(ack, t.read) + ClosePart(t.link.closing)
    && |t.read| <= MAX_DATA
    && (t.read != [] ==> l.acknowledged)
    && (t.link.closing || t.link.acknowledged == (l.acknowledged && !(ack && t.read != [])))
    && Healthy(ack, Visited(t.link))
  }

  lemma TurnAtListener(ack: bool, p: Pair, t: Turn)
    requires Established(ack, p) && ProperTurn(ack, p.l.value, t)
    ensures Established(ack, p.(l := Some(Visited(t.link)), lc := p.lc + t.sends,
              io := p.io.(lRead := p.io.lRead + t.read, lWritten := p.io.lWritten + t.wrote)))
  {
    TurnBetween(ack, p.l.value, p.c.value, p.lc, p.cl, p.io.lRead, p.io.lWritten, p.io.cRead, p.io.cWritten,
                t, Visited(t.link));
    StreamTurn(ack, p.lc, t.read, t.link.closing);
    hide Healthy, StopAndWait, Conserved, Stream;
  }

  lemma TurnAtConnector(ack: bool, p: Pair, t: Turn)
    requires Granted(ack, p) || Established(ack, p)
    requires ProperTurn(ack, p.c.value, t)
    ensures var p' := p.(c := Some(Visited(t.link)), cl := p.cl + t.sends,
                         io := p.io.(cRead := p.io.cRead + t.read, cWritten := p.io.cWritten + t.wrote));
      Granted(ack, p') || Established(ack, p')
  {
    TurnBetween(ack, p.c.value, p.l.value, p.cl, p.lc, p.io.cRead, p.io.cWritten, p.io.lRead, p.io.lWritten,
                t, Visited(t.link));
    var sent := if Granted(ack, p) then p.cl[1..] else p.cl;
    StreamTurn(ack, sent, t.read, t.link.closing);
    assert Granted(ack, p) ==> (p.cl + t.sends)[1..] == sent + t.sends;
    hide Healthy, StopAndWait, Conserved, Stream;
  }

  lemma MessageAtConnector(ack: bool, p: Pair)
    requires Established(ack, p) && p.lc != [] && p.lc[0] != Close
    ensures var r := ProcessLinkMessage(p.c.value, p.lc[0]);
      && DataOrAck(ack, p.lc[0])
      && r.Reaction? && Established(ack, p.(c := r.slot, lc := p.lc[1..], cl := p.cl + r.replies))
  {
    var m := p.lc[0];
    StreamTail(ack, p.lc, p.l.value.closing);
    ReceiveTraffic(ack, p.c.value, m);
    var r := ProcessLinkMessage(p.c.value, m);
    ReceiveBetween(p.c.value, p.l.value, p.cl, p.lc, p.io.cRead, p.io.cWritten, p.io.lRead, p.io.lWritten,
                   r.slot.value, r.replies);
    StreamReply(ack, p.cl, p.c.value.closing, r.replies);
    hide Healthy, StopAndWait, Conserved, Stream, ProcessLinkMessage;
    assert Established(ack, p.(c := r.slot, lc := p.lc[1..], cl := p.cl + r.replies));
  }

  lemma DeliverToConnectorPreserves(ack: bool, p: Pair, connected: bool)
    requires Inv(ack, p) && Enabled(p, Deliver(false, connected))
    ensures var o := Step(ack, p, Deliver(false, connected)); o.Running? && Inv(ack, o.p)
  {
    if Established(ack, p) {
      EstablishedToConnector(ack, p, connected);
    } else if Requested(ack, p) {
      RequestDelivered(ack, p, connected);
    } else {
      assert ListenerDone(ack, p);
      ClosingReceives(ack, false, p.c.value, p.lc, connected);
      assert p.cl + [] == [];
      hide Healthy, Stream;
      assert ListenerDone(ack, Step(ack, p, Deliver(false, connected)).p);
    }
  }

  lemma EstablishedToConnector(ack: bool, p: Pair, connected: bool)
    requires Established(ack, p) && p.lc != []
    requires p.io.cWritten <= p.io.lRead && p.io.lWritten <= p.io.cRead
    ensures var o := Step(ack, p, Deliver(false, connected)); o.Running? && Inv(ack, o.p)
  {
    if p.lc[0] == Close {
      CloseAtConnector(ack, p);
    } else {
      MessageAtConnector(ack, p);
    }
    hide BothEnds, Healthy, Stream, Sends, CloseLink;
  }

  lemma EstablishedToListener(ack: bool, p: Pair, connected: bool)
    requires Established(ack, p) && p.cl != []
    requires p.io.cWritten <= p.io.lRead && p.io.lWritten <= p.io.cRead
    ensures var o := Step(ack, p, Deliver(true, connected)); o.Running? && Inv(ack, o.p)
  {
    if p.cl[0] == Close {
      CloseAtListener(ack, p);
    } else {
      MessageAtListener(ack, p);
    }
    hide BothEnds, Healthy, Stream, Sends, CloseLink;
  }

  lemma StreamReply(ack: bool, s: seq<LinkMsg>, closed: bool, replies: seq<LinkMsg>)
    requires Stream(ack, s, closed)
    requires replies == [] || (replies == [Ack] && ack && !closed)
    ensures Stream(ack, s + replies, closed)
  {}

  /** The ConnectSide receives the ListenSide's LINK_CLOSE. */
  lemma CloseAtConnector(ack: bool, p: Pair)
    requires Established(ack, p) && p.lc != [] && p.lc[0] == Close
    ensures p.lc == [Close]
    ensures ConnectorDone(ack, p.(c := None, lc := p.lc[1..], cl := p.cl + CloseLink(p.c.value).1))
  {
    StreamTail(ack, p.lc, p.l.value.closing);
    CountsAppend(p.cl, CloseLink(p.c.value).1);
    assert [Close][1..] == [];
    if p.c.value.closing {
      assert p.cl + [] == p.cl;
    } else {
      StreamAppend(ack, p.cl, Close);
    }
  }

  /** The ListenSide receives the ConnectSide's LINK_CLOSE. */
  lemma CloseAtListener(ack: bool, p: Pair)
    requires Established(ack, p) && p.cl != [] && p.cl[0] == Close
    ensures p.cl == [Close]
    ensures ListenerDone(ack, p.(l := None, cl := p.cl[1..], lc := p.lc + CloseLink(p.l.value).1))
  {
    StreamTail(ack, p.cl, p.c.value.closing);
    CountsAppend(p.lc, CloseLink(p.l.value).1);
    assert [Close][1..] == [];
    if p.l.value.closing {
      assert p.lc + [] == p.lc;
    } else {
      StreamAppend(ack, p.lc, Close);
    }
  }

  lemma Answered(ack: bool, p: Pair, connected: bool)
    requires Requested(ack, p) && p.c == None && p.lc == [Create]
    ensures var p' := p.(c := if connected then Some(AddPolled(FRESH)) else None,
                         lc := p.lc[1..], cl := p.cl + [CreateReply(connected)]);
      if connected then Granted(ack, p') else Refused(p')
  {
    var reply := [CreateReply(connected)];
    assert p.lc[1..] == [] && p.cl + reply == reply && reply[1..] == [];
    MeasuresHead(reply);
  }

  lemma RequestDelivered(ack: bool, p: Pair, connected: bool)
    requires Requested(ack, p)
    ensures var o := Step(ack, p, Deliver(false, connected)); o.Running? && Inv(ack, o.p)
  {
    if p.c.None? {
      assert p.lc == [Create];
      Answered(ack, p, connected);
      hide Granted;
    } else {
      LeftoverDelivered(ack, p, connected);
      hide Receive, Requested;
    }
  }

  /** While its LINK_CREATE is under way, a new link's ConnectSide still works off the old one's messages. */
  lemma LeftoverDelivered(ack: bool, p: Pair, connected: bool)
    requires Requested(ack, p) && p.c.Some?
    ensures var r := Receive(false, p.c, p.lc[0], connected);
      r.Reaction? && Requested(ack, p.(c := r.slot, lc := p.lc[1..], cl := p.cl + r.replies))
  {
    var before := p.lc[..|p.lc| - 1];
    ClosingReceives(ack, false, p.c.value, before, connected);
    assert p.lc == before + [Create] && p.lc[0] == before[0];
    var r := Receive(false, p.c, p.lc[0], connected);
    assert p.cl + [] == p.cl;
    hide Receive, Healthy, Stream, Sends;
    LeftoverAdvances(ack, p, before, r.slot);
  }

  lemma LeftoverAdvances(ack: bool, p: Pair, before: seq<LinkMsg>, slot: Option<Link>)
    requires Requested(ack, p) && before != [] && p.lc == before + [Create]
    requires Leftover(ack, slot, before[1..])
    ensures Requested(ack, p.(c := slot, lc := p.lc[1..]))
  {
    assert p.lc[1..] == before[1..] + [Create];
    assert (before[1..] + [Create])[..|before| - 1] == before[1..];
  }

  lemma MessageAtListener(ack: bool, p: Pair)
    requires Established(ack, p) && p.cl != [] && p.cl[0] != Close
    ensures var r := ProcessLinkMessage(p.l.value, p.cl[0]);
      && DataOrAck(ack, p.cl[0])
      && r.Reaction? && Established(ack, p.(l := r.slot, cl := p.cl[1..], lc := p.lc + r.replies))
  {
    var m := p.cl[0];
    StreamTail(ack, p.cl, p.c.value.closing);
    ReceiveTraffic(ack, p.l.value, m);
    var r := ProcessLinkMessage(p.l.value, m);
    ReceiveBetween(p.l.value, p.c.value, p.lc, p.cl, p.io.lRead, p.io.lWritten, p.io.cRead, p.io.cWritten,
                   r.slot.value, r.replies);
    StreamReply(ack, p.lc, p.l.value.closing, r.replies);
    hide Healthy, StopAndWait, Conserved, Stream, ProcessLinkMessage;
    assert Established(ack, p.(l := r.slot, cl := p.cl[1..], lc := p.lc + r.replies));
  }

  lemma DeliverToListenerPreserves(ack: bool, p: Pair, connected: bool)
    requires Inv(ack, p) && Enabled(p, Deliver(true, connected))
    ensures var o := Step(ack, p, Deliver(true, connected)); o.Running? && Inv(ack, o.p)
  {
    assert p.lc + [] == p.lc;
    if Established(ack, p) {
      EstablishedToListener(ack, p, connected);
    } else if ConnectorDone(ack, p) {
      ClosingReceives(ack, true, p.l.value, p.cl, connected);
      hide Healthy, Stream;
    } else if Granted(ack, p) {
      GrantDelivered(ack, p);
      hide Established;
    } else {
      assert Refused(p);
    }
  }

  lemma GrantDelivered(ack: bool, p: Pair)
    requires Granted(ack, p)
    ensures Established(ack, p.(l := Some(AddPolled(FRESH)), cl := p.cl[1..]))
  {
    MeasuresHead(p.cl);
    assert [] + Data(p.cl[1..]) == Data(p.cl[1..]);
    hide Sends, Acks, Data;
  }

  /** A new link may take an id exactly when the ListenSide has no link under that id any more;
      the ConnectSide's leftover link and the LINK_CLOSE still on its way do no harm. */
  lemma AcceptSafe(ack: bool, p: Pair)
    requires Inv(ack, p)
    ensures Inv(ack, Step(ack, p, Accept).p) <==> p.l == None
  {
    var p' := Step(ack, p, Accept).p;
    assert p'.lc[..|p'.lc| - 1] == p.lc;
    if p.l == None {
      assert Requested(ack, p');
    } else {
      assert p'.lc[|p'.lc| - 1] == Create;
      assert !Refused(p') && !Granted(ack, p') && !ListenerDone(ack, p') && !ConnectorDone(ack, p');
      assert !Established(ack, p');
      if Requested(ack, p) {
        assert p.lc[|p.lc| - 1] == Create;
        assert !Leftover(ack, p.c, p.lc);
      }
    }
  }

  /** The ends of one link id after some steps; every step must be possible where it is taken. */
  function After(ack: bool, p: Pair, actions: seq<Action>): Option<Pair>
    decreases |actions|
  {
    if actions == [] then Some(p)
    else if !Enabled(p, actions[0]) || Step(ack, p, actions[0]).Stopped? then None
    else After(ack, Step(ack, p, actions[0]).p, actions[1..])
  }

  const READABLE := Events(true, false, false)

  /** A link is opened and its ConnectSide reads one byte from its socket. */
  const ONE_BYTE := [Accept, Deliver(false, true), Deliver(true, true), Poll(false, READABLE),
                     LinkPolled(false, Bytes([7]), 0)]

  /** What goes wrong when a live id is reused. If then, before the byte arrives, the ListenSide accepts a
      connection under the same id, the new connection is given the byte, although nothing has been read
      for it. */
  lemma ReuseOfLiveIdMixesStreams()
    ensures var q := After(false, UNUSED, ONE_BYTE);
      && q.Some? && q.value.l.Some?
      && var r := After(false, q.value, [Accept, Deliver(true, true)]);
      r.Some? && r.value.l.Some? && r.value.l.value.pending == [7] && r.value.io.cRead == []
  {
    ByteOnItsWay();
    var p6 := BYTE_UNDER_WAY.(l := Some(FRESH), lc := [Create], io := SILENCE);
    var p7 := p6.(l := Some(FRESH.(pending := [7])), cl := []);
    var reuse := [Accept, Deliver(true, true)];
    assert p6.lc + [] == p6.lc && BYTE_UNDER_WAY.cl[1..] == [] && BYTE_UNDER_WAY.lc + [Create] == [Create];
    OneStep(false, BYTE_UNDER_WAY, reuse, p6);
    assert FRESH.pending + [7] == [7] && reuse[1..][0] == Deliver(true, true);
    assert Receive(true, p6.l, p6.cl[0], true) == Reaction(p7.l, []);
    OneStep(false, p6, reuse[1..], p7);
    NoSteps(false, p7, reuse[1..][1..]);
  }

  const BYTE_UNDER_WAY := Pair(Some(AddPolled(FRESH)), Some(AddPolled(FRESH)), [], [Send([7])],
    Traffic([], [], [7], []))

  lemma ByteOnItsWay()
    ensures After(false, UNUSED, ONE_BYTE) == Some(BYTE_UNDER_WAY)
  {
    var open := AddPolled(FRESH);
    var p1 := Pair(Some(FRESH), None, [Create], [], SILENCE);
    var p2 := Pair(Some(FRESH), Some(open), [], [CreateReply(true)], SILENCE);
    var p3 := Pair(Some(open), Some(open), [], [], SILENCE);
    var p4 := p3.(c := Some(open.(revents := READABLE)));
    hide After;
    OneStep(false, UNUSED, ONE_BYTE, p1);
    OneStep(false, p1, ONE_BYTE[1..], p2);
    OneStep(false, p2, ONE_BYTE[2..], p3);
    OneStep(false, p3, ONE_BYTE[3..], p4);
    OneStep(false, p4, ONE_BYTE[4..], BYTE_UNDER_WAY);
    hide Step;
    NoSteps(false, BYTE_UNDER_WAY, ONE_BYTE[4..][1..]);
  }

  lemma NoSteps(ack: bool, p: Pair, actions: seq<Action>)
    requires actions == []
    ensures After(ack, p, actions) == Some(p)
  {}

  lemma OneStep(ack: bool, p: Pair, actions: seq<Action>, q: Pair)
    requires actions != [] && Enabled(p, actions[0]) && Step(ack, p, actions[0]) == Running(q)
    ensures After(ack, p, actions) == After(ack, q, actions[1..])
  {}

  /** Every enabled step of every party keeps the invariant and never stops the run,
      provided a ListenSide hands out only ids it does not hold. */
  lemma StepPreserves(ack: bool, p: Pair, a: Action)
    requires Inv(ack, p) && Enabled(p, a)
    requires a.Accept? ==> p.l == None
    ensures var o := Step(ack, p, a); o.Running? && Inv(ack, o.p)
  {
    match a
    case Accept => AcceptSafe(ack, p);
    case Poll(at, ready) => PollPreserves(ack, p, at, ready);
    case LinkPolled(at, rd, n) => LinkPolledPreserves(ack, p, at, rd, n);
    case Deliver(toListener, connected) =>
      if toListener { DeliverToListenerPreserves(ack, p, connected); }
      else { DeliverToConnectorPreserves(ack, p, connected); }
  }

  // ---------------------------------------------------------------- what the invariant means

  /** With both channels empty the two ends agree: the id is unused at both, or open at both. */
  lemma QuietMeansAgreement(ack: bool, p: Pair)
    requires Inv(ack, p) && p.lc == [] && p.cl == []
    ensures p.l.Some? <==> p.c.Some?
    ensures p.l.Some? ==> Established(ack, p) && !p.l.value.closing && !p.c.value.closing
  {}

  /** Every message that arrives for a link finds it. */
  lemma LinkIsFound(ack: bool, p: Pair)
    requires Inv(ack, p)
    ensures p.cl != [] ==> p.l.Some?
    ensures p.lc != [] && p.lc[0] != Create ==> p.c.Some?
    ensures p.lc != [] && p.lc[0] == Create ==> p.c.None?
  {}

  /** Any other message finds an established link, and data comes in packets of the connection's kind. */
  lemma OtherFindsHealthy(ack: bool, p: Pair)
    requires Inv(ack, p)
    ensures p.cl != [] && !p.cl[0].CreateReply? ==>
      p.l.Some? && Healthy(ack, p.l.value) && (p.cl[0] == Close || DataOrAck(ack, p.cl[0]))
    ensures p.lc != [] && p.lc[0] != Create ==>
      p.c.Some? && Healthy(ack, p.c.value) && (p.lc[0] == Close || DataOrAck(ack, p.lc[0]))
  {
    hide Sends, Acks, Data, Healthy, Conserved, StopAndWait;
    if Requested(ack, p) && p.c.Some? {
      var before := p.lc[..|p.lc| - 1];
      assert p.lc == before + [Create];
      assert |before| > 0 ==> p.lc[0] == before[0];
    }
  }

  /** A reply finds its link as it was made: not in the Poller yet. */
  lemma ReplyFindsFresh(ack: bool, p: Pair)
    requires Inv(ack, p) && p.cl != [] && p.cl[0].CreateReply?
    ensures p.l == Some(FRESH)
  {}

  /** While the ListenSide has no link, the ConnectSide has no open one. */
  lemma UnusedIsNotOpen(ack: bool, p: Pair)
    requires Inv(ack, p) && p.l == None
    ensures p.c.Some? ==> p.c.value.closing
  {}

  /** A request reaches a ConnectSide that has written nothing for that link yet. */
  lemma RequestFindsSilence(ack: bool, p: Pair)
    requires Inv(ack, p) && p.lc != [] && p.lc[0] == Create
    ensures p.io == SILENCE
  {
    hide Sends, Acks, Data, Healthy, Conserved, StopAndWait;
  }

  /** A link is in the Poller exactly while it is established and not closing. On the listening side it is
      established once neither its LINK_CREATE nor the answer is on its way any more. */
  lemma RegisteredWhileOpen(ack: bool, p: Pair)
    requires Inv(ack, p)
    ensures p.c.Some? ==> (p.c.value.registered <==> !p.c.value.closing)
    ensures p.l.Some? ==>
      (p.l.value.registered <==>
         !p.l.value.closing && Create !in p.lc && CreateReply(true) !in p.cl && CreateReply(false) !in p.cl)
    ensures p.l.None? ==> Create !in p.lc && CreateReply(true) !in p.cl && CreateReply(false) !in p.cl
  {
    hide Sends, Acks, Data, Conserved, StopAndWait;
    if Requested(ack, p) {
      assert p.lc[|p.lc| - 1] == Create;
    } else if Refused(p) {
      assert p.cl[0] == CreateReply(false);
    } else if Granted(ack, p) {
      assert p.cl[0] == CreateReply(true);
    }
  }

  /** Every registered link is in a healthy state. */
  lemma RegisteredIsHealthy(ack: bool, p: Pair, at: bool)
    requires Inv(ack, p)
    ensures SlotAt(p, at).Some? && SlotAt(p, at).value.registered ==> Healthy(ack, SlotAt(p, at).value)
  {}

  /** Both directions conserve every byte for as long as the receiving end is open, also when the
      sending end has closed and its last data and LINK_CLOSE are still on their way. */
  lemma BytesConserved(ack: bool, p: Pair)
    requires Inv(ack, p)
    ensures p.io.cWritten <= p.io.lRead && p.io.lWritten <= p.io.cRead
    ensures p.c.Some? && p.c.value.registered
            ==> p.l.Some? && p.io.lRead == p.io.cWritten + p.c.value.pending + Data(p.lc)
    ensures p.l.Some? && p.l.value.registered
            ==> p.c.Some? && p.io.cRead == p.io.lWritten + p.l.value.pending + Data(p.cl)
  {}

  /** Stop-and-wait: while both ends are open, an end is unacknowledged exactly when one packet of its, or
      the acknowledgement of it, is on its way; there is never more than one. */
  lemma WaitsForOnePacket(ack: bool, p: Pair)
    requires Inv(ack, p) && p.l.Some? && p.c.Some? && !p.l.value.closing && !p.c.value.closing
    ensures Outstanding(p.lc, p.cl) == (if p.l.value.acknowledged then 0 else 1)
    ensures Outstanding(p.cl, p.lc) == (if p.c.value.acknowledged then 0 else 1)
  {}

  /** Only messages that their receiver can decode are ever on their way. */
  lemma OnlyDecodable(ack: bool, p: Pair)
    requires Inv(ack, p)
    ensures forall i :: 0 <= i < |p.lc| ==> Sent(false, p.lc[i])
    ensures forall i :: 0 <= i < |p.cl| ==> Sent(true, p.cl[i])
  {
    hide Sends, Acks, Data, Healthy, Conserved, StopAndWait;
    if Requested(ack, p) && p.c.Some? {
      var before := p.lc[..|p.lc| - 1];
      assert p.lc == before + [Create];
    }
  }

  lemma {:induction false} DataWithin(ack: bool, s: seq<LinkMsg>)
    requires forall i :: 0 <= i < |s| ==> |Payload(s[i])| <= MAX_DATA && !s[i].Send?
    ensures |Data(s)| <= MAX_DATA * Sends(s)
  {
    if s != [] {
      DataWithin(ack, s[1..]);
    }
  }

  /** In ACK mode at most one packet, hence at most 4096 bytes, travels per link and direction. */
  lemma AtMostOnePacketInFlight(p: Pair)
    requires Inv(true, p)
    ensures Sends(p.lc) <= 1 && Sends(p.cl) <= 1
    ensures |Data(p.lc)| <= MAX_DATA && |Data(p.cl)| <= MAX_DATA
  {
    SendsAtMostOne(p);
    OnlyAckedData(p);
    hide Inv, Sends, Data;
    DataWithin(true, p.lc);
    DataWithin(true, p.cl);
  }

  lemma SendsAtMostOne(p: Pair)
    requires Inv(true, p)
    ensures Sends(p.lc) <= 1 && Sends(p.cl) <= 1
  {
    hide Stream, Healthy, Conserved;
    if Requested(true, p) {
      var before := p.lc[..|p.lc| - 1];
      assert p.lc == before + [Create];
      CountsAppend(before, [Create]);
      MeasuresHead([Create]);
    } else if Refused(p) {
      MeasuresHead(p.cl);
    }
  }

  lemma OnlyAckedData(p: Pair)
    requires Inv(true, p)
    ensures forall i :: 0 <= i < |p.lc| ==> |Payload(p.lc[i])| <= MAX_DATA && !p.lc[i].Send?
    ensures forall i :: 0 <= i < |p.cl| ==> |Payload(p.cl[i])| <= MAX_DATA && !p.cl[i].Send?
  {
    hide Sends, Acks, Data, Healthy, Conserved, StopAndWait;
    if Requested(true, p) && p.c.Some? {
      var before := p.lc[..|p.lc| - 1];
      assert p.lc == before + [Create];
    }
  }

  /** An open end that waits for an acknowledgement waits for something that is on its way:
      its packet, the acknowledgement, or the peer's LINK_CLOSE. */
  lemma NoEternalWait(ack: bool, p: Pair)
    requires Inv(ack, p)
    ensures p.l.Some? && p.l.value.registered && !p.l.value.acknowledged
            ==> ack && (Outstanding(p.lc, p.cl) == 1 || Close in p.cl)
    ensures p.c.Some? && p.c.value.registered && !p.c.value.acknowledged
            ==> ack && (Outstanding(p.cl, p.lc) == 1 || Close in p.lc)
  {}
}
