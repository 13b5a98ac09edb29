/** The objects of one tunnel end that handle links, as classes that work on bytes, buffers and the
    Poller in place; every method is proved against the functions of module Links. */
module Endpoint {
  import opened Wire
  import opened Codec
  import opened Framing
  import opened Streams
  import opened SockBuffers
  import opened Polling
  import opened Watching
  import opened Links

  const WRITABLE := Events(false, true, false)

  function Payloads(cid: Short, lid: Short, ms: seq<LinkMsg>): seq<Payload> {
    if ms == [] then [] else [LinkPayload(cid, lid, ms[0])] + Payloads(cid, lid, ms[1..])
  }

  function Errors(failed: bool, text: seq<Byte>): seq<Payload> {
    if failed then [ErrorPayload(text)] else []
  }

  function Slot(links: map<Short, Link>, lid: Short): Option<Link> {
    if lid in links then Some(links[lid]) else None
  }

  function FaultOf(r: Reaction): Option<Fault> {
    if r.Failed? then Some(r.fault) else None
  }

  /** A CustomWriteStream: sending arms POLLOUT on the descriptor it will be flushed to. */
  class CustomWriteStream {
    const stream: WriteStream
    const poller: Poller
    const owner: object
    const fd: int

    /** The Poller has an entry for the descriptor. */
    ghost predicate Listed()
      reads poller
    {
      Watched(poller.polled, owner, fd).Some?
    }

    /** The Poller waits for writability exactly while packets wait: the writer never stalls. */
    ghost predicate Valid()
      reads this, stream, stream.packets, poller
    {
      && stream.Valid() && stream.queue == []
      && Listed()
      && (stream.packets != [] <==> Watched(poller.polled, owner, fd).value.events.pout)
    }

    lemma Idle()
      requires Valid()
      ensures stream.Valid() && stream.queue == [] && Listed()
      ensures stream.packets != [] <==> Watched(poller.polled, owner, fd).value.events.pout
    {}

    /** The tunnel end has given itself to the Poller for that descriptor before anything is sent. */
    constructor (poller: Poller, owner: object, fd: int)
      requires Watched(poller.polled, owner, fd).Some? && !Watched(poller.polled, owner, fd).value.events.pout
      ensures Valid() && fresh(stream) && stream.sent == [] && stream.packets == []
      ensures this.poller == poller && this.owner == owner && this.fd == fd
    {
      this.poller, this.owner, this.fd := poller, owner, fd;
      stream := new WriteStream();
    }

    /** send() of the bytes queued since the last one. */
    method Send(ghost a: object)
      requires stream.Valid() && stream.queue != [] && Listed()
      modifies stream`queue, stream`packets, stream`sent, poller`polled
      ensures Valid() && stream.sent == old(stream.sent) + [old(stream.queue)]
      ensures poller.polled == WithEvents(old(poller.polled), owner, fd, WRITABLE)
      ensures Others(poller.polled, a, owner) == old(Others(poller.polled, a, owner))
      ensures a != owner ==> forall d :: Watched(poller.polled, a, d) == old(Watched(poller.polled, a, d))
      ensures a != owner ==> forall d :: Once(poller.polled, a, d) == old(Once(poller.polled, a, d))
    {
      stream.Send();
      ghost var es := poller.polled;
      poller.SetPolledEvents(owner, fd, WRITABLE);
      AfterSet(es, owner, fd, WRITABLE, a, owner);
      if a != owner {
        forall d
          ensures Watched(poller.polled, a, d) == Watched(es, a, d) && Once(poller.polled, a, d) == Once(es, a, d)
        {
          SetElsewhere(es, owner, fd, WRITABLE, a, d);
        }
      }
    }

    /** The tunnel's own writable notification: flush, and disarm once nothing is left. */
    method Flush(pipe: Pipe, writable: bool, count: nat)
      requires Valid()
      modifies stream`packets, stream`emitted, stream.packets, pipe, poller`polled
      ensures Valid() && stream.sent == old(stream.sent)
      ensures poller.polled
        == if stream.PendingWrite() then old(poller.polled) else WithEvents(old(poller.polled), owner, fd, NOTHING)
      ensures |stream.emitted| == |old(stream.emitted)| + if writable then Least(count, old(stream.Left())) else 0
      ensures |stream.emitted| > |old(stream.emitted)| <==> writable && count > 0 && old(stream.PendingWrite())
      ensures old(stream.emitted) <= stream.emitted
      ensures pipe.bytes == old(pipe.bytes) + stream.emitted[|old(stream.emitted)|..]
      ensures Others(poller.polled, owner, owner) == old(Others(poller.polled, owner, owner))
    {
      hide WriteStream.Valid, Watched, WithEvents, Others;
      ghost var es := poller.polled;
      WatchedIs(es, owner, fd);
      var i := poller.FindPolled(owner, fd);
      var armed := poller.polled[i].events;
      var events := stream.Empty(pipe, writable, count, armed);
      poller.SetPolledEvents(owner, fd, events);
      if !stream.PendingWrite() {
        poller.SetPolledEvents(owner, fd, NOTHING);
      }
      SetTwice(es, owner, fd, events, NOTHING);
      AfterSet(es, owner, fd, NOTHING, owner, owner);
    }

    /** poll()'s answers do not disturb what is armed. */
    lemma StillValid(es: seq<Node>, answer: nat -> Events)
      requires stream.Valid() && stream.queue == [] && poller.polled == Reported(es, answer)
      requires Watched(es, owner, fd).Some? && (stream.packets != [] <==> Watched(es, owner, fd).value.events.pout)
      ensures Valid()
    {
      AfterReport(es, answer, owner, fd);
    }

    lemma WatchedIs(es: seq<Node>, o: object, fd: int)
      requires Watched(es, o, fd).Some?
      ensures Find(es, o, fd) < |es| && Watched(es, o, fd).value.events == es[Find(es, o, fd)].events
    {}
  }

  /** Arming an entry twice, or as it is. */
  lemma SetTwice(es: seq<Node>, o: object, fd: int, e: Events, f: Events)
    ensures WithEvents(WithEvents(es, o, fd, e), o, fd, f) == WithEvents(es, o, fd, f)
    ensures Watched(es, o, fd).Some? && Watched(es, o, fd).value.events == e ==> WithEvents(es, o, fd, e) == es
  {
    var i := Find(es, o, fd);
    if i < |es| {
      FindIs(WithEvents(es, o, fd, e), o, fd, i);
    }
  }

  class ConnectionLink {
    const id: Short
    const socket: int
    const buffer: SockBuffer
    /** The sending direction of the socket: what has been written to it. */
    const out: Pipe
    var closing: bool
    var acknowledged: bool

    constructor (id: Short, socket: int)
      ensures this.id == id && this.socket == socket && !closing && acknowledged
      ensures fresh(buffer) && fresh(buffer.outputBuf) && buffer.Valid() && buffer.Pending() == []
      ensures fresh(out) && out.bytes == [] && out.home == buffer
    {
      this.id, this.socket, closing, acknowledged := id, socket, false, true;
      var b := new SockBuffer();
      buffer := b;
      out := new Pipe(b);
    }

    /** This link and its Poller entry as a value. */
    ghost function View(poller: Poller): Link
      requires buffer.Valid()
      reads this, buffer, buffer.outputBuf, poller
    {
      ViewIn(poller.polled)
    }

    ghost function ViewIn(es: seq<Node>): Link
      requires buffer.Valid()
      reads this, buffer, buffer.outputBuf
    {
      match Watched(es, this, socket)
      case None => Link(buffer.Pending(), closing, acknowledged, false, NOTHING, NOTHING)
      case Some(w) => Link(buffer.Pending(), closing, acknowledged, true, w.events, w.revents)
    }

    method SetAcknowledged(ack: bool, poller: Poller, ghost b: object)
      requires buffer.Valid()
      modifies this`acknowledged, poller`polled
      ensures View(poller) == Links.SetAcknowledged(old(View(poller)), ack)
      ensures Others(poller.polled, this, b) == old(Others(poller.polled, this, b))
      ensures old(Once(poller.polled, this, socket)) ==> Once(poller.polled, this, socket)
      ensures b != this ==> forall d :: Watched(poller.polled, b, d) == old(Watched(poller.polled, b, d))
    {
      acknowledged := ack;
      if !closing {
        var unsent := buffer.UnsentData();
        ArmEvents(Events(acknowledged, unsent, false), poller, b);
      }
    }

    /** poller.setEvents(*this, m_socket, events) */
    method ArmEvents(events: Events, poller: Poller, ghost b: object)
      requires buffer.Valid()
      modifies poller`polled
      ensures View(poller) == Links.SetEvents(old(View(poller)), events)
      ensures Others(poller.polled, this, b) == old(Others(poller.polled, this, b))
      ensures old(Once(poller.polled, this, socket)) ==> Once(poller.polled, this, socket)
      ensures b != this ==> forall d :: Watched(poller.polled, b, d) == old(Watched(poller.polled, b, d))
    {
      ghost var es := poller.polled;
      poller.SetPolledEvents(this, socket, events);
      AfterSet(es, this, socket, events, this, b);
      forall d | b != this ensures Watched(poller.polled, b, d) == Watched(es, b, d) {
        SetElsewhere(es, this, socket, events, b, d);
      }
    }

    method SetClosing(poller: Poller, ghost b: object)
      requires buffer.Valid() && Once(poller.polled, this, socket)
      modifies this`closing, poller`polled, poller`origSize, poller`index
      ensures View(poller) == Links.SetClosing(old(View(poller)))
      ensures Others(poller.polled, this, b) == old(Others(poller.polled, this, b))
      ensures Once(poller.polled, this, socket)
      ensures b != this ==> forall d :: Watched(poller.polled, b, d) == old(Watched(poller.polled, b, d))
    {
      closing := true;
      ghost var es := poller.polled;
      poller.RemovePolled(this, socket);
      AfterRemove(es, this, socket, this, b);
      forall d | b != this ensures Watched(poller.polled, b, d) == Watched(es, b, d) {
        AfterRemove(es, this, socket, this, this);
        WatchedAmongOthers(es, this, this, b, d);
        WatchedAmongOthers(poller.polled, this, this, b, d);
      }
    }

    /** poller.addPolled(link) */
    method Register(poller: Poller, ghost b: object)
      requires buffer.Valid() && Watched(poller.polled, this, socket) == None && Once(poller.polled, this, socket)
      modifies poller`polled, poller`nextSerial
      ensures View(poller) == Links.AddPolled(old(View(poller)))
      ensures Others(poller.polled, this, b) == old(Others(poller.polled, this, b))
      ensures Once(poller.polled, this, socket)
      ensures b != this ==> forall d :: Watched(poller.polled, b, d) == old(Watched(poller.polled, b, d))
    {
      ghost var es := poller.polled;
      ghost var node := Node(poller.nextSerial, this, socket, Events(true, false, false), NOTHING);
      UnwatchedIsAbsent(es, this, socket);
      poller.AddPolled(this, socket, Events(true, false, false));
      AfterAdd(es, node, this, b);
      forall d | b != this ensures Watched(poller.polled, b, d) == Watched(es, b, d) {
        AfterAdd(es, node, this, this);
        WatchedAmongOthers(es, this, this, b, d);
        WatchedAmongOthers(poller.polled, this, this, b, d);
      }
    }
  }

  /** The objects a link is made of. */
  ghost function PartsOf(link: ConnectionLink): set<object> {
    {link, link.buffer, link.buffer.outputBuf, link.out}
  }

  /** Links are filed under their own id and share no buffer. */
  ghost predicate ApartLinks(links: map<Short, ConnectionLink>) {
    && (forall k :: k in links ==> links[k].id == k)
    && (forall k, j :: k in links && j in links && k != j ==>
          links[k].buffer != links[j].buffer && links[k].buffer.outputBuf != links[j].buffer.outputBuf)
  }

  lemma ApartWith(links: map<Short, ConnectionLink>, link: ConnectionLink)
    requires ApartLinks(links)
    requires forall k :: k in links ==>
      links[k].buffer != link.buffer && links[k].buffer.outputBuf != link.buffer.outputBuf
    ensures ApartLinks(links[link.id := link])
  {}

  lemma ApartWithout(links: map<Short, ConnectionLink>, lid: Short)
    requires ApartLinks(links)
    ensures ApartLinks(links - {lid})
  {}

  lemma PayloadsOne(cid: Short, lid: Short, m: LinkMsg)
    ensures Payloads(cid, lid, [m]) == [LinkPayload(cid, lid, m)]
  {}

  lemma DataPayload(ack: bool, cid: Short, lid: Short, d: seq<Byte>)
    ensures LinkPayload(cid, lid, DataMessage(ack, d))
            == PutShort(CMD_CONNECTION) + PutShort(cid) + PutShort(if ack then LINK_SEND_FOR_ACK else LINK_SEND)
               + PutShort(lid) + PutShort(|d|) + d
  {}

  /** A ListenSide or ConnectSide. */
  class TunnelConnection {
    const id: Short
    const ack: bool
    const listening: bool
    const atRemote: bool
    const spec: ConnectionSpec
    const writer: CustomWriteStream
    var linkMap: map<Short, ConnectionLink>
    var nextId: int

    constructor (id: Short, spec: ConnectionSpec, isLocal: bool, writer: CustomWriteStream)
      requires writer.Valid()
      ensures Valid() && linkMap == map[] && nextId == 501
      ensures this.id == id && this.writer == writer && this.atRemote == !isLocal
      ensures ack == spec.AckPackets() && listening == spec.ListensAt(isLocal) && this.spec == spec
    {
      this.id, this.writer, this.atRemote, this.spec := id, writer, !isLocal, spec;
      this.ack, this.listening := spec.AckPackets(), spec.ListensAt(isLocal);
      linkMap, nextId := map[], 501;
    }

    ghost function Footprint(): set<object>
      reads `linkMap
    {
      (set k | k in linkMap :: linkMap[k] as object)
      + (set k | k in linkMap :: linkMap[k].buffer as object)
      + (set k | k in linkMap :: linkMap[k].buffer.outputBuf as object)
    }

    /** When the Poller holds `es`: a link has at most one entry, at its own socket, and none once closing. */
    ghost predicate Steady(link: ConnectionLink, es: seq<Node>)
      reads link, link.buffer, link.buffer.outputBuf
      ensures Steady(link, es) ==> link.buffer.Valid()
    {
      && link.buffer.Valid() && link.out.home == link.buffer
      && Once(es, link, link.socket) && link as object != writer.owner
      && (link.closing ==> Watched(es, link, link.socket) == None)
    }

    ghost predicate LinkOk(link: ConnectionLink)
      reads link, link.buffer, link.buffer.outputBuf, writer.poller
      ensures LinkOk(link) ==> link.buffer.Valid()
    {
      Steady(link, writer.poller.polled)
    }

    /** A link nobody has touched since the Poller held `es`. */
    lemma LinkKept(link: ConnectionLink, es: seq<Node>, touched: object)
      requires Steady(link, es) && (touched != writer.owner ==> link as object != touched)
      requires Others(es, touched, writer.owner) == Others(writer.poller.polled, touched, writer.owner)
      ensures LinkOk(link) && link.View(writer.poller) == link.ViewIn(es)
    {
      hide Others, Once, Watched, SockBuffer.Valid, SockBuffer.Pending;
      WatchedAlike(es, writer.poller.polled, touched, writer.owner, link, link.socket);
    }

    ghost predicate Apart()
      reads `linkMap
    {
      ApartLinks(linkMap)
    }

    ghost predicate Valid()
      reads `linkMap, Footprint(), writer, writer.stream, writer.stream.packets, writer.poller
    {
      && writer.Valid()
      && Apart()
      && (forall k :: k in linkMap ==> LinkOk(linkMap[k]))
    }

    /** The link map as a value. */
    ghost function View(): map<Short, Link>
      requires Valid()
      reads `linkMap, Footprint(), writer, writer.stream, writer.stream.packets, writer.poller
    {
      map k | k in linkMap :: linkMap[k].View(writer.poller)
    }

    /** m_writer.send() of what has been written for a message of this link. */
    method SendQueued(link: ConnectionLink, ghost m: LinkMsg)
      requires writer.stream.Valid() && writer.Listed() && LinkOk(link)
      requires writer.stream.queue == LinkPayload(id, link.id, m)
      modifies writer.stream`queue, writer.stream`packets, writer.stream`sent, writer.poller`polled
      ensures writer.Valid() && LinkOk(link)
      ensures link.View(writer.poller) == old(link.View(writer.poller))
      ensures writer.stream.sent == old(writer.stream.sent) + Payloads(id, link.id, [m])
      ensures Others(writer.poller.polled, link, writer.owner) == old(Others(writer.poller.polled, link, writer.owner))
    {
      PayloadsOne(id, link.id, m);
      hide WriteStream.Valid, Others, Once, PutShort, PutLink;
      assert |LinkPayload(id, link.id, m)| >= 2;
      writer.Send(link);
    }

    /** How every link message begins. */
    method WriteHead(code: Short, lid: Short)
      requires writer.stream.Valid() && writer.stream.queue == []
      modifies writer.stream`queue
      ensures writer.stream.Valid()
      ensures writer.stream.queue == PutShort(CMD_CONNECTION) + PutShort(id) + (PutShort(code) + PutShort(lid))
    {
      hide PutShort, WriteStream.Valid;
      writer.stream.WriteShort(CMD_CONNECTION);
      writer.stream.WriteShort(id);
      writer.stream.WriteShort(code);
      writer.stream.WriteShort(lid);
    }

    /** Writes and sends a link message that is a bare code. */
    method SendCode(link: ConnectionLink, code: Short, ghost m: LinkMsg)
      requires writer.Valid() && LinkOk(link)
      requires (code, m) in {(LINK_CREATE as Short, Create), (LINK_CLOSE as Short, Close), (LINK_ACK as Short, Ack)}
      modifies writer.stream`queue, writer.stream`packets, writer.stream`sent, writer.poller`polled
      ensures writer.Valid() && LinkOk(link)
      ensures link.View(writer.poller) == old(link.View(writer.poller))
      ensures writer.stream.sent == old(writer.stream.sent) + Payloads(id, link.id, [m])
      ensures Others(writer.poller.polled, link, writer.owner) == old(Others(writer.poller.polled, link, writer.owner))
    {
      hide PutShort, CustomWriteStream.Valid, CustomWriteStream.Listed, WriteStream.Valid, ConnectionLink.View, Others,
        LinkOk;
      writer.Idle();
      WriteHead(code, link.id);
      assert writer.stream.queue == LinkPayload(id, link.id, m);
      SendQueued(link, m);
    }

    /** sendData */
    method SendData(link: ConnectionLink, bytes: seq<Byte>)
      requires writer.Valid() && LinkOk(link)
      modifies writer.stream`queue, writer.stream`packets, writer.stream`sent, writer.poller`polled
      ensures writer.Valid() && LinkOk(link)
      ensures link.View(writer.poller) == old(link.View(writer.poller))
      ensures writer.stream.sent == old(writer.stream.sent) + Payloads(id, link.id, [DataMessage(ack, bytes)])
      ensures Others(writer.poller.polled, link, writer.owner) == old(Others(writer.poller.polled, link, writer.owner))
    {
      hide PutShort, CustomWriteStream.Valid, CustomWriteStream.Listed, WriteStream.Valid, ConnectionLink.View, Others,
        LinkOk;
      writer.Idle();
      WriteHead(if ack then LINK_SEND_FOR_ACK else LINK_SEND, link.id);
      writer.stream.WriteShort(|bytes|);
      writer.stream.WriteBytes(bytes);
      DataPayload(ack, id, link.id, bytes);
      assert writer.stream.queue == LinkPayload(id, link.id, DataMessage(ack, bytes));
      SendQueued(link, DataMessage(ack, bytes));
    }

    method CloseLink(link: ConnectionLink)
      requires writer.Valid() && LinkOk(link)
      modifies link`closing, writer.poller`polled, writer.poller`origSize, writer.poller`index,
        writer.stream`queue, writer.stream`packets, writer.stream`sent
      ensures writer.Valid() && LinkOk(link)
      ensures link.View(writer.poller) == Links.CloseLink(old(link.View(writer.poller))).0
      ensures writer.stream.sent
              == old(writer.stream.sent) + Payloads(id, link.id, Links.CloseLink(old(link.View(writer.poller))).1)
      ensures link.closing
      ensures Others(writer.poller.polled, link, writer.owner) == old(Others(writer.poller.polled, link, writer.owner))
    {
      if !link.closing {
        link.SetClosing(writer.poller, writer.owner);
        SendCode(link, LINK_CLOSE, Close);
      }
    }

    /** receiveData after the code and link id have been read. */
    method ReceiveData(reader: ReadStream, link: ConnectionLink) returns (fault: Option<Fault>)
      requires writer.Valid() && LinkOk(link)
      requires GetBody(listening, LINK_SEND, reader.queue).Some?
      modifies reader`queue, link.buffer`queue, link.buffer`accepted, writer.poller`polled
      ensures writer.Valid() && LinkOk(link)
      ensures var (m, rest) := GetBody(listening, LINK_SEND, old(reader.queue)).value;
        && reader.queue == rest
        && fault == (if m == Oversized then Some(BadReceiveLength) else None)
        && link.View(writer.poller)
           == if m.Send? then Links.ReceiveData(old(link.View(writer.poller)), m.data)
              else old(link.View(writer.poller))
      ensures Others(writer.poller.polled, link, writer.owner) == old(Others(writer.poller.polled, link, writer.owner))
    {
      hide GetShort, CustomWriteStream.Valid, ConnectionLink.View, LinkOk, Others;
      var length := reader.ReadShort();
      if length > MAX_DATA {
        return Some(BadReceiveLength);
      }
      var buffer := reader.ReadBytes(length);
      assert buffer == old(reader.queue)[2..2 + length];
      TakeData(link, buffer);
      fault := None;
    }

    /** Data of a link that is not closing goes to its socket. */
    method TakeData(link: ConnectionLink, data: seq<Byte>)
      requires writer.Valid() && LinkOk(link)
      modifies link.buffer`queue, link.buffer`accepted, writer.poller`polled
      ensures writer.Valid() && LinkOk(link)
      ensures link.View(writer.poller) == Links.ReceiveData(old(link.View(writer.poller)), data)
      ensures Others(writer.poller.polled, link, writer.owner) == old(Others(writer.poller.polled, link, writer.owner))
    {
      if !link.closing {
        link.buffer.PushOnBuffer(data);
        link.ArmEvents(WRITABLE, writer.poller, writer.owner);
      }
    }

    method Acknowledge(link: ConnectionLink, acked: bool)
      requires writer.Valid() && LinkOk(link)
      modifies link`acknowledged, writer.poller`polled
      ensures writer.Valid() && LinkOk(link) && writer.stream.sent == old(writer.stream.sent)
      ensures link.View(writer.poller) == Links.SetAcknowledged(old(link.View(writer.poller)), acked)
      ensures Others(writer.poller.polled, link, writer.owner) == old(Others(writer.poller.polled, link, writer.owner))
    {
      link.SetAcknowledged(acked, writer.poller, writer.owner);
    }

    /** processLinkMessage for a link that was found. */
    method ProcessLinkMessage(reader: ReadStream, code: Short, link: ConnectionLink) returns (fault: Option<Fault>)
      requires writer.Valid() && LinkOk(link) && code != LINK_CREATE
      requires GetBody(listening, code, reader.queue).Some?
      modifies this`linkMap, reader`queue, link, link.buffer`queue, link.buffer`accepted,
        writer.poller`polled, writer.poller`origSize, writer.poller`index,
        writer.stream`queue, writer.stream`packets, writer.stream`sent
      ensures writer.Valid() && LinkOk(link)
      ensures var (m, rest) := GetBody(listening, code, old(reader.queue)).value;
        match Links.ProcessLinkMessage(old(link.View(writer.poller)), m)
        case Failed(why) => fault == Some(why) && linkMap == old(linkMap)
        case Reaction(slot, replies) =>
          && fault == None && reader.queue == rest
          && writer.stream.sent == old(writer.stream.sent) + Payloads(id, link.id, replies)
          && (match slot
              case Some(l) => linkMap == old(linkMap) && link.View(writer.poller) == l
              case None => linkMap == old(linkMap) - {link.id} && Absent(writer.poller.polled, link))
      ensures Others(writer.poller.polled, link, writer.owner) == old(Others(writer.poller.polled, link, writer.owner))
    {
      hide GetShort, ConnectionLink.View, Others, CustomWriteStream.Valid, LinkOk;
      fault := None;
      if code == LINK_SEND {
        fault := ReceiveData(reader, link);
      } else if code == LINK_CLOSE {
        CloseLink(link);
        ClosedIsAbsent(link);
        linkMap := linkMap - {link.id};
      } else if code == LINK_SEND_FOR_ACK {
        fault := ReceiveForAck(reader, link);
      } else if code == LINK_ACK {
        Acknowledge(link, true);
      }
    }

    lemma ClosedIsAbsent(link: ConnectionLink)
      requires LinkOk(link) && link.closing
      ensures Absent(writer.poller.polled, link)
    {
      UnwatchedIsAbsent(writer.poller.polled, link, link.socket);
    }

    /** The LINK_SEND_FOR_ACK case with its fall-through. */
    method ReceiveForAck(reader: ReadStream, link: ConnectionLink) returns (fault: Option<Fault>)
      requires writer.Valid() && LinkOk(link)
      requires GetBody(listening, LINK_SEND_FOR_ACK, reader.queue).Some?
      modifies reader`queue, link, link.buffer`queue, link.buffer`accepted, writer.poller`polled,
        writer.stream`queue, writer.stream`packets, writer.stream`sent
      ensures writer.Valid() && LinkOk(link)
      ensures var (m, rest) := GetBody(listening, LINK_SEND_FOR_ACK, old(reader.queue)).value;
        match Links.ProcessLinkMessage(old(link.View(writer.poller)), m)
        case Failed(why) => fault == Some(why)
        case Reaction(slot, replies) =>
          && fault == None && reader.queue == rest && slot == Some(link.View(writer.poller))
          && writer.stream.sent == old(writer.stream.sent) + Payloads(id, link.id, replies)
      ensures Others(writer.poller.polled, link, writer.owner) == old(Others(writer.poller.polled, link, writer.owner))
    {
      hide GetShort, Others, CustomWriteStream.Valid, LinkOk;
      fault := ReceiveData(reader, link);
      if fault.Some? { return; }
      if !link.closing {
        SendCode(link, LINK_ACK, Ack);
      } else {
        Acknowledge(link, true);
      }
    }

    /** ConnectionLink::polled: `rd` is what read() returns, `count` how much write() takes. */
    method LinkPolled(link: ConnectionLink, ready: Events, rd: ReadResult, count: nat) returns (ghost n: nat)
      requires writer.Valid() && LinkOk(link)
      requires Watched(writer.poller.polled, link, link.socket).Some?
      requires Watched(writer.poller.polled, link, link.socket).value.revents == ready
      requires rd.Bytes? ==> 0 < |rd.data| <= MAX_DATA
      modifies link, link.buffer, link.buffer.outputBuf, link.out,
        writer.poller`polled, writer.poller`origSize, writer.poller`index,
        writer.stream`queue, writer.stream`packets, writer.stream`sent
      ensures writer.Valid() && LinkOk(link)
      ensures LinkTurn(old(link.View(writer.poller)), rd, n, link.View(writer.poller),
                       writer.stream.sent, old(writer.stream.sent), link.id, link.out.bytes, old(link.out.bytes))
      ensures WritesSome(old(link.View(writer.poller)), rd, count, n)
      ensures n == if ready.pout && !(ready.pin && rd.Eof?) then Least(count, old(link.buffer.Front())) else 0
      ensures Others(writer.poller.polled, link, writer.owner) == old(Others(writer.poller.polled, link, writer.owner))
    {
      hide LinkTurn, ConnectionLink.View, Others, LinkOk, CustomWriteStream.Valid, Payloads, Watched;
      ghost var l0, sent0 := link.View(writer.poller), writer.stream.sent;
      n := 0;
      ReportInView(link);
      if ready.pin {
        if rd.Eof? {
          CloseLink(link);
          EofTurn(l0, rd, link.id, sent0, link.out.bytes);
          return;
        }
        SendData(link, rd.data);
        if ack {
          Acknowledge(link, false);
        }
      }
      ghost var l1, sent1 := link.View(writer.poller), writer.stream.sent;
      if ready.pout {
        n := LinkWritable(link, count);
      }
      ghost var l2 := link.View(writer.poller);
      if ready.perr {
        CloseLink(link);
      }
      WholeTurn(l0, rd, n, l1, l2, link.id, sent0, sent1, writer.stream.sent, old(link.out.bytes), link.out.bytes);
    }

    lemma ReadyIs(link: ConnectionLink)
      requires link.buffer.Valid() && link.View(writer.poller).registered
      ensures var w := Watched(writer.poller.polled, link, link.socket);
        w.Some? && w.value.revents == link.View(writer.poller).revents
    {}

    lemma ReportInView(link: ConnectionLink)
      requires link.buffer.Valid() && Watched(writer.poller.polled, link, link.socket).Some?
      ensures link.View(writer.poller).revents == Watched(writer.poller.polled, link, link.socket).value.revents
    {}

    lemma EofTurn(l0: Link, rd: ReadResult, lid: Short, sent0: seq<Payload>, out0: seq<Byte>)
      requires l0.revents.pin && rd.Eof?
      ensures LinkTurn(l0, rd, 0, Links.CloseLink(l0).0,
                       sent0 + Payloads(id, lid, Links.CloseLink(l0).1), sent0, lid, out0, out0)
    {}

    /** Putting the three parts of a callback together. */
    lemma WholeTurn(l0: Link, rd: ReadResult, n: nat, l1: Link, l2: Link, lid: Short,
                    sent0: seq<Payload>, sent1: seq<Payload>, sent2: seq<Payload>, out0: seq<Byte>, out1: seq<Byte>)
      requires !(l0.revents.pin && rd.Eof?)
      requires l1 == if l0.revents.pin && ack then Links.SetAcknowledged(l0, false) else l0
      requires l2 == if l0.revents.pout then PolledOut(l1, n) else l1
      requires sent1 == if l0.revents.pin then sent0 + Payloads(id, lid, [DataMessage(ack, rd.data)]) else sent0
      requires sent2 == if l0.revents.perr then sent1 + Payloads(id, lid, Links.CloseLink(l2).1) else sent1
      requires out1 == if l0.revents.pout then out0 + l1.pending[..WriteCount(l1, n)] else out0
      ensures LinkTurn(l0, rd, n, if l0.revents.perr then Links.CloseLink(l2).0 else l2, sent2, sent0, lid, out1, out0)
    {
      var sends := if l0.revents.pin then [DataMessage(ack, rd.data)] else [];
      var closes := if l0.revents.perr then Links.CloseLink(l2).1 else [];
      hide WriteCount, PolledOut, Links.SetAcknowledged, Links.CloseLink;
      PayloadsAppend(id, lid, sends, closes);
      assert sends + [] == sends && out0 + [] == out0;
      assert sent1 == sent0 + Payloads(id, lid, sends) && sent2 == sent1 + Payloads(id, lid, closes);
      hide Payloads;
    }

    /** The state and the traffic after one poll callback are those of Links.Polled. */
    ghost predicate LinkTurn(before: Link, rd: ReadResult, n: nat, after: Link,
                             sent: seq<Payload>, sentBefore: seq<Payload>, lid: Short,
                             out: seq<Byte>, outBefore: seq<Byte>)
    {
      var t := Links.Polled(before, ack, rd, n);
      && after == t.link
      && sent == sentBefore + Payloads(id, lid, t.sends)
      && out == outBefore + t.wrote
    }

    /** The POLLOUT part. */
    method LinkWritable(link: ConnectionLink, count: nat) returns (n: nat)
      requires writer.Valid() && LinkOk(link)
      modifies link.buffer, link.buffer.outputBuf, link.out, writer.poller`polled
      ensures writer.Valid() && LinkOk(link) && writer.stream.sent == old(writer.stream.sent)
      ensures link.View(writer.poller) == PolledOut(old(link.View(writer.poller)), n)
      ensures link.out.bytes == old(link.out.bytes)
              + old(link.View(writer.poller)).pending[..WriteCount(old(link.View(writer.poller)), n)]
      ensures n == Least(count, old(link.buffer.Front()))
      ensures n <= count && (old(link.View(writer.poller)).pending != [] && count > 0 ==> n > 0)
      ensures Others(writer.poller.polled, link, writer.owner) == old(Others(writer.poller.polled, link, writer.owner))
    {
      hide WriteStream.Valid, Others, Once, ConnectionLink.View, WriteCount, Watched, LinkOk;
      n := WriteOut(link, count);
      Disarm(link);
    }

    /** If nothing is left to write, wait for input only, or for nothing while unacknowledged. */
    method Disarm(link: ConnectionLink)
      requires writer.Valid() && LinkOk(link)
      modifies writer.poller`polled
      ensures writer.Valid() && LinkOk(link)
      ensures var l := old(link.View(writer.poller));
        link.View(writer.poller)
        == if l.pending == [] then Links.SetEvents(l, Events(l.acknowledged, false, false)) else l
      ensures Others(writer.poller.polled, link, writer.owner) == old(Others(writer.poller.polled, link, writer.owner))
    {
      var unsent := link.buffer.UnsentData();
      if !unsent {
        link.ArmEvents(Events(link.acknowledged, false, false), writer.poller, writer.owner);
      }
    }

    method WriteOut(link: ConnectionLink, count: nat) returns (n: nat)
      requires LinkOk(link)
      modifies link.buffer, link.buffer.outputBuf, link.out
      ensures LinkOk(link)
      ensures var l := old(link.View(writer.poller));
        && n == WriteCount(l, n) && n == Least(count, old(link.buffer.Front()))
        && n <= count && (l.pending != [] && count > 0 ==> n > 0)
        && link.View(writer.poller) == l.(pending := l.pending[n..])
        && link.out.bytes == old(link.out.bytes) + l.pending[..n]
    {
      hide Watched, Once;
      n := link.buffer.WriteData(link.out, count);
    }

    /** Only the link k0 has changed; the others are as in `before`. */
    ghost predicate OnlyAt(k0: Short, before: map<Short, Link>)
      reads `linkMap, Footprint(), writer, writer.poller
    {
      forall k :: k in linkMap && k != k0 ==>
        k in before && LinkOk(linkMap[k]) && linkMap[k].View(writer.poller) == before[k]
    }

    lemma Reassemble(k0: Short, before: map<Short, Link>)
      requires writer.Valid() && Apart() && OnlyAt(k0, before)
      requires k0 in linkMap && LinkOk(linkMap[k0])
      requires linkMap.Keys == before.Keys + {k0}
      ensures Valid() && View() == before[k0 := linkMap[k0].View(writer.poller)]
    {
      hide LinkOk, ConnectionLink.View, CustomWriteStream.Valid;
    }

    /** A new link and its place in the map; an old link under the same id is forgotten. */
    method NewLink(lid: Short, socket: int) returns (link: ConnectionLink)
      requires Valid()
      modifies this`linkMap
      ensures Valid() && Fresh(link) && link.socket == socket
      ensures fresh(link) && fresh(link.buffer) && fresh(link.buffer.outputBuf)
        && fresh(link.out)
      ensures lid in linkMap && linkMap[lid] == link && linkMap == old(linkMap)[lid := link]
      ensures Watched(writer.poller.polled, link, link.socket) == None
      ensures View() == old(View())[lid := FRESH]
    {
      hide CustomWriteStream.Valid, LinkOk, ConnectionLink.View, Valid, View, Watched, Footprint;
      WriterIsValid();
      FootprintAllocated();
      PartsAreMine();
      link := MakeLink(lid, socket);
      FileLink(link);
    }

    method FileLink(link: ConnectionLink)
      requires Valid() && LinkOk(link) && link.View(writer.poller) == FRESH
      requires forall k :: k in linkMap ==>
        linkMap[k].buffer != link.buffer && linkMap[k].buffer.outputBuf != link.buffer.outputBuf
      modifies this`linkMap
      ensures Valid() && linkMap == old(linkMap)[link.id := link] && View() == old(View())[link.id := FRESH]
    {
      hide CustomWriteStream.Valid, Steady, LinkOk, ConnectionLink.View, ConnectionLink.ViewIn, Valid, View, Watched,
        ApartLinks;
      ghost var before := View();
      Everyone();
      ApartWith(linkMap, link);
      linkMap := linkMap[link.id := link];
      Reassemble(link.id, before);
    }

    lemma PartsAreMine()
      ensures forall k :: k in linkMap ==>
        (linkMap[k] as object) in Footprint() && (linkMap[k].buffer as object) in Footprint()
        && (linkMap[k].buffer.outputBuf as object) in Footprint()
    {}

    /** What a link's socket has been written so far: nothing. */
    ghost predicate Fresh(link: ConnectionLink)
      reads link.out
    {
      link.out.bytes == []
    }

    method MakeLink(lid: Short, socket: int) returns (link: ConnectionLink)
      requires writer.Valid()
      ensures fresh(link) && fresh(link.buffer) && fresh(link.buffer.outputBuf) && fresh(link.out)
      ensures Fresh(link) && link.id == lid && link.socket == socket
      ensures LinkOk(link) && link.View(writer.poller) == FRESH
      ensures Watched(writer.poller.polled, link, link.socket) == None
    {
      hide CustomWriteStream.Valid, Watched, Once;
      link := new ConnectionLink(lid, socket);
      NotWatched(writer.poller.polled, link, socket);
    }

    /** ListenSide::polled, with the socket that accept() returned. */
    method Accept(socket: int) returns (ghost link: ConnectionLink)
      requires Valid() && listening
      modifies this`linkMap, this`nextId,
        writer.stream`queue, writer.stream`packets, writer.stream`sent, writer.poller`polled
      ensures Valid() && nextId == old(nextId) + 1
      ensures Fresh(link) && link.socket == socket && fresh(PartsOf(link))
      ensures linkMap == old(linkMap)[ToShort(old(nextId)) := link]
      ensures Others(old(writer.poller.polled), link, writer.owner) == Others(writer.poller.polled, link, writer.owner)
      ensures View() == old(View())[ToShort(old(nextId)) := FRESH]
      ensures writer.stream.sent == old(writer.stream.sent) + Payloads(id, ToShort(old(nextId)), [Create])
    {
      hide Valid, Apart, ConnectionLink.View, LinkOk, ToShort, Payloads, Others;
      var lid := TakeId();
      link := NewLink(lid, socket);
      SendFor(lid, LINK_CREATE, Create);
    }

    /** m_next_id++, as a link id. */
    method TakeId() returns (lid: Short)
      requires Valid()
      modifies this`nextId
      ensures Valid() && View() == old(View()) && lid == ToShort(old(nextId)) && nextId == old(nextId) + 1
    {
      hide CustomWriteStream.Valid, Steady, ConnectionLink.ViewIn, Valid, View, Apart, ToShort;
      ghost var before := View();
      Everyone();
      lid := ToShort(nextId);
      nextId := nextId + 1;
      forall k | k in linkMap ensures LinkOk(linkMap[k]) && linkMap[k].View(writer.poller) == before[k] {}
      ReassembleSame(before);
    }

    method SendFor(lid: Short, code: Short, ghost m: LinkMsg)
      requires Valid() && lid in linkMap
      requires (code, m) in {(LINK_CREATE as Short, Create), (LINK_CLOSE as Short, Close), (LINK_ACK as Short, Ack)}
      modifies writer.stream`queue, writer.stream`packets, writer.stream`sent, writer.poller`polled
      ensures Valid() && View() == old(View())
      ensures writer.stream.sent == old(writer.stream.sent) + Payloads(id, lid, [m])
      ensures Others(old(writer.poller.polled), linkMap[lid], writer.owner)
              == Others(writer.poller.polled, linkMap[lid], writer.owner)
    {
      hide CustomWriteStream.Valid, Steady, ConnectionLink.ViewIn, Others, Payloads, Valid, View, Apart, Footprint;
      var link := linkMap[lid];
      ghost var es, before := writer.poller.polled, View();
      Inside(lid);
      Everyone();
      SendCode(link, code, m);
      forall k | k in linkMap && k != lid
        ensures LinkOk(linkMap[k]) && linkMap[k].View(writer.poller) == before[k]
      {
        LinkKept(linkMap[k], es, link);
      }
      Reassemble(lid, before);
    }

    lemma ReassembleSame(before: map<Short, Link>)
      requires writer.Valid() && Apart() && linkMap.Keys == before.Keys
      requires forall k :: k in linkMap ==> LinkOk(linkMap[k]) && linkMap[k].View(writer.poller) == before[k]
      ensures Valid() && View() == before
    {}

    lemma ReassembleWithout(k0: Short, before: map<Short, Link>)
      requires writer.Valid() && Apart() && OnlyAt(k0, before) && k0 !in linkMap
      requires linkMap.Keys == before.Keys - {k0}
      ensures Valid() && View() == before - {k0}
    {}

    method EraseLink(lid: Short)
      requires Valid() && lid in linkMap
      modifies this`linkMap
      ensures Valid() && View() == old(View()) - {lid} && linkMap == old(linkMap) - {lid}
      ensures !old(View()[lid]).registered ==> Absent(writer.poller.polled, old(linkMap)[lid])
    {
      hide CustomWriteStream.Valid, Steady, LinkOk, ConnectionLink.View, ConnectionLink.ViewIn, Valid, View, Absent,
        ApartLinks;
      ghost var before := View();
      Everyone();
      if !before[lid].registered { UnregisteredIsAbsent(linkMap[lid]); }
      ApartWithout(linkMap, lid);
      linkMap := linkMap - {lid};
      ReassembleWithout(lid, before);
    }

    /** getPoller().addPolled(link->getPolled()) */
    method RegisterLink(lid: Short)
      requires Valid() && lid in linkMap && !View()[lid].registered && !View()[lid].closing
      modifies writer.poller`polled, writer.poller`nextSerial
      ensures Valid() && View() == old(View())[lid := Links.AddPolled(old(View())[lid])]
      ensures writer.stream.sent == old(writer.stream.sent)
      ensures Others(old(writer.poller.polled), linkMap[lid], writer.owner)
              == Others(writer.poller.polled, linkMap[lid], writer.owner)
    {
      hide CustomWriteStream.Valid, Steady, ConnectionLink.ViewIn, Others, Valid, View, Apart, Footprint;
      var link := linkMap[lid];
      ghost var es, before := writer.poller.polled, View();
      Inside(lid);
      Everyone();
      ClosingInView(link);
      AddToPoller(link);
      forall k | k in linkMap && k != lid
        ensures LinkOk(linkMap[k]) && linkMap[k].View(writer.poller) == before[k]
      {
        LinkKept(linkMap[k], es, link);
      }
      Reassemble(lid, before);
    }

    lemma ClosingInView(link: ConnectionLink)
      requires LinkOk(link)
      ensures link.View(writer.poller).closing == link.closing
    {}

    method AddToPoller(link: ConnectionLink)
      requires writer.Valid() && LinkOk(link) && !link.View(writer.poller).registered && !link.closing
      modifies writer.poller`polled, writer.poller`nextSerial
      ensures writer.Valid() && LinkOk(link)
      ensures link.View(writer.poller) == Links.AddPolled(old(link.View(writer.poller)))
      ensures Others(writer.poller.polled, link, writer.owner) == old(Others(writer.poller.polled, link, writer.owner))
    {
      link.Register(writer.poller, writer.owner);
    }

    /** The new link map and what was sent are those of a reaction at one link id. */
    ghost predicate Reacted(r: Reaction, lid: Short, before: map<Short, Link>, after: map<Short, Link>,
                            sentBefore: seq<Payload>, sent: seq<Payload>, errors: seq<Payload>)
    {
      && r.Reaction?
      && sent == sentBefore + errors + Payloads(id, lid, r.replies)
      && after == match r.slot case Some(l) => before[lid := l] case None => before - {lid}
    }

    /** tunnel.reportError: at the remote end the text travels to the local end, which prints it. */
    method ReportError(text: seq<Byte>)
      requires writer.Valid()
      modifies writer.stream`queue, writer.stream`packets, writer.stream`sent, writer.poller`polled
      ensures writer.Valid() && writer.stream.sent == old(writer.stream.sent) + Errors(atRemote, text)
      ensures var o := writer.owner; Others(writer.poller.polled, o, o) == old(Others(writer.poller.polled, o, o))
    {
      hide PutShort, PutString, CustomWriteStream.Valid, CustomWriteStream.Listed, WriteStream.Valid, Others;
      writer.Idle();
      if atRemote {
        writer.stream.WriteShort(CMD_ERROR);
        writer.stream.WriteString(text);
        assert writer.stream.queue == ErrorPayload(text);
        writer.Send(writer.owner);
      }
    }

    method SendReply(lid: Short, ok: bool)
      requires writer.Valid()
      modifies writer.stream`queue, writer.stream`packets, writer.stream`sent, writer.poller`polled
      ensures writer.Valid() && writer.stream.sent == old(writer.stream.sent) + Payloads(id, lid, [CreateReply(ok)])
      ensures var o := writer.owner; Others(writer.poller.polled, o, o) == old(Others(writer.poller.polled, o, o))
    {
      hide PutShort, CustomWriteStream.Valid, CustomWriteStream.Listed, WriteStream.Valid, Others;
      writer.Idle();
      WriteHead(LINK_CREATE, lid);
      writer.stream.WriteShort(if ok then LINK_SUCCESS else LINK_FAILURE);
      PayloadsOne(id, lid, CreateReply(ok));
      assert writer.stream.queue == LinkPayload(id, lid, CreateReply(ok));
      writer.Send(writer.owner);
    }

    /** The answer to LINK_CREATE, after the error report if there is one. */
    method Answer(lid: Short, ok: bool, text: seq<Byte>)
      requires Valid()
      modifies writer.stream`queue, writer.stream`packets, writer.stream`sent, writer.poller`polled
      ensures Valid() && View() == old(View())
      ensures writer.stream.sent
        == old(writer.stream.sent) + Errors(atRemote && !ok, text) + Payloads(id, lid, [CreateReply(ok)])
      ensures Others(old(writer.poller.polled), writer.owner, writer.owner)
              == Others(writer.poller.polled, writer.owner, writer.owner)
    {
      hide CustomWriteStream.Valid, Steady, ConnectionLink.ViewIn, Others, Payloads, ErrorPayload, Valid, View, Apart,
        Footprint;
      Everyone();
      ghost var es, o, sent0, before := writer.poller.polled, writer.owner, writer.stream.sent, View();
      if !ok {
        ReportError(text);
      } else {
        assert sent0 + [] == sent0;
      }
      SendReply(lid, ok);
      forall k | k in linkMap ensures LinkOk(linkMap[k]) && linkMap[k].View(writer.poller) == before[k]
      {
        LinkKept(linkMap[k], es, o);
      }
      ReassembleSame(before);
    }

    /** ConnectSide's LINK_CREATE; `socket` is the socket that was connected, `text` the error otherwise. */
    method Connect(lid: Short, socket: int, connected: bool, text: seq<Byte>) returns (ghost touched: object)
      requires Valid()
      modifies this`linkMap,
        writer.stream`queue, writer.stream`packets, writer.stream`sent, writer.poller`polled, writer.poller`nextSerial
      ensures Valid()
      ensures View() == if connected then old(View())[lid := Links.AddPolled(FRESH)] else old(View())
      ensures writer.stream.sent
        == old(writer.stream.sent) + Errors(atRemote && !connected, text) + Payloads(id, lid, [CreateReply(connected)])
      ensures KeptBut(lid, old(linkMap))
      ensures lid in linkMap && (lid !in old(linkMap) || linkMap[lid] != old(linkMap)[lid]) ==>
                Fresh(linkMap[lid]) && linkMap[lid] == touched && fresh(PartsOf(linkMap[lid]))
                && linkMap[lid].socket == socket
      ensures lid in old(linkMap) ==> lid in linkMap
      ensures Accounted(touched)
      ensures touched == writer.owner || fresh(touched)
      ensures Others(old(writer.poller.polled), touched, writer.owner)
        == Others(writer.poller.polled, touched, writer.owner)
    {
      hide Valid, View, Payloads, Errors, Others;
      touched := writer.owner;
      if connected {
        var link := NewLink(lid, socket);
        RegisterLink(lid);
        touched := link;
      }
      ghost var es := writer.poller.polled;
      Answer(lid, connected, text);
      OthersTwice(es, touched, writer.owner);
      OthersTwice(writer.poller.polled, touched, writer.owner);
    }

    /** ListenSide::processMessage. The Poller never holds a link before its reply arrives: see Protocol.Granted. */
    method ListenMessage(reader: ReadStream) returns (fault: Option<Fault>, ghost touched: object)
      requires Valid() && listening && GetLink(true, reader.queue).Some?
      requires var f := GetLink(true, reader.queue).value;
        f.msg.CreateReply? && f.lid in View() ==> !View()[f.lid].registered && !View()[f.lid].closing
      modifies this`linkMap, reader`queue, Footprint(),
        writer.stream`queue, writer.stream`packets, writer.stream`sent,
        writer.poller`polled, writer.poller`origSize, writer.poller`index, writer.poller`nextSerial
      ensures fault == None ==> Valid()
      ensures var f := GetLink(true, old(reader.queue)).value;
        var r := Receive(true, Slot(old(View()), f.lid), f.msg, true);
        && fault == FaultOf(r)
        && (fault == None ==>
              && reader.queue == f.rest
              && Reacted(r, f.lid, old(View()), View(), old(writer.stream.sent), writer.stream.sent, []))
      ensures var f := GetLink(true, old(reader.queue)).value;
        Taken(f, old(linkMap), touched)
          && (f.lid in linkMap ==> f.lid in old(linkMap) && linkMap[f.lid] == old(linkMap)[f.lid])
      ensures touched == writer.owner || exists k :: k in old(linkMap) && touched == old(linkMap)[k]
      ensures Others(old(writer.poller.polled), touched, writer.owner)
        == Others(writer.poller.polled, touched, writer.owner)
    {
      hide Others, Absent, Valid, View, Apart, Footprint, LinkOk, ConnectionLink.View, CustomWriteStream.Valid,
        Payloads, GetShort, Links.ProcessLinkMessage, Links.AddPolled;
      ViewKeys();
      SilentReaction(GetShort(reader.queue[2..]), View(), writer.stream.sent);
      var command := NextShort(reader);
      var lid := NextShort(reader);
      touched := writer.owner;
      if lid !in linkMap {
        return Some(LinkNotFound), touched;
      }
      touched := linkMap[lid];
      if command == LINK_CREATE {
        fault := None;
        var result := NextShort(reader);
        if result == LINK_SUCCESS {
          RegisterLink(lid);
        } else {
          EraseLink(lid);
        }
      } else {
        fault := HandleLinkMessage(reader, command, lid);
      }
    }

    /** ConnectSide::processMessage. */
    method ConnectMessage(reader: ReadStream, socket: int, connected: bool, text: seq<Byte>)
      returns (fault: Option<Fault>, ghost touched: object)
      requires Valid() && !listening && GetLink(false, reader.queue).Some?
      modifies this`linkMap, reader`queue, Footprint(),
        writer.stream`queue, writer.stream`packets, writer.stream`sent,
        writer.poller`polled, writer.poller`origSize, writer.poller`index, writer.poller`nextSerial
      ensures fault == None ==> Valid()
      ensures var f := GetLink(false, old(reader.queue)).value;
        var r := Receive(false, Slot(old(View()), f.lid), f.msg, connected);
        && fault == FaultOf(r)
        && (fault == None ==>
              && reader.queue == f.rest
              && Reacted(r, f.lid, old(View()), View(), old(writer.stream.sent), writer.stream.sent,
                         Errors(atRemote && f.msg == Create && !connected, text)))
      ensures var f := GetLink(false, old(reader.queue)).value;
        && Taken(f, old(linkMap), touched)
        && (f.lid in linkMap && (f.lid !in old(linkMap) || linkMap[f.lid] != old(linkMap)[f.lid]) ==>
              fresh(PartsOf(linkMap[f.lid])) && linkMap[f.lid].socket == socket)
      ensures touched == writer.owner || fresh(touched) || exists k :: k in old(linkMap) && touched == old(linkMap)[k]
      ensures Others(old(writer.poller.polled), touched, writer.owner)
        == Others(writer.poller.polled, touched, writer.owner)
    {
      hide Others, Valid, View, Apart, Footprint, LinkOk, ConnectionLink.View, CustomWriteStream.Valid, Payloads,
        GetShort, Links.ProcessLinkMessage, Links.AddPolled;
      ViewKeys();
      SilentReaction(GetShort(reader.queue[2..]), View(), writer.stream.sent);
      var command := NextShort(reader);
      var lid := NextShort(reader);
      if command == LINK_CREATE {
        touched := Connect(lid, socket, connected, text);
        return None, touched;
      }
      touched := writer.owner;
      if lid !in linkMap {
        // The rest of a data message would stay in the queue and be taken for the next command.
        return if command == LINK_SEND || command == LINK_SEND_FOR_ACK then Some(Desynchronised) else None, touched;
      }
      touched := linkMap[lid];
      fault := HandleLinkMessage(reader, command, lid);
    }

    /** The Poller holds the object only as the tunnel end itself or as a link of this connection. */
    ghost predicate Accounted(o: object)
      reads `linkMap, writer.poller
    {
      o == writer.owner || (exists k :: k in linkMap && linkMap[k] == o) || Absent(writer.poller.polled, o)
    }

    /** The links other than lid are those there were. */
    ghost predicate KeptBut(lid: Short, before: map<Short, ConnectionLink>)
      reads `linkMap
    {
      forall k :: k != lid ==> (k in linkMap <==> k in before) && (k in linkMap ==> linkMap[k] == before[k])
    }

    /** What handling the message f has done to the link map: a link may go, a request may make one, and the
        Poller has no entry of a link that went. */
    ghost predicate Taken(f: LinkFrame, before: map<Short, ConnectionLink>, touched: object)
      reads this, set k | k in linkMap :: linkMap[k].out, writer.poller
    {
      && KeptBut(f.lid, before)
      && (f.lid in before && f.lid !in linkMap ==> before[f.lid] == touched)
      && (f.lid in linkMap && (f.lid !in before || linkMap[f.lid] != before[f.lid]) ==>
            f.msg == Create && !listening && Fresh(linkMap[f.lid]) && linkMap[f.lid] == touched)
      && Accounted(touched)
    }

    lemma UnregisteredIsAbsent(link: ConnectionLink)
      requires LinkOk(link) && !link.View(writer.poller).registered
      ensures Absent(writer.poller.polled, link)
    {
      UnwatchedIsAbsent(writer.poller.polled, link, link.socket);
    }

    /** The default branch of both processMessage functions, for the link lid. */
    method HandleLinkMessage(reader: ReadStream, code: Short, lid: Short) returns (fault: Option<Fault>)
      requires Valid() && lid in linkMap && code != LINK_CREATE
      requires GetBody(listening, code, reader.queue).Some?
      modifies this`linkMap, reader`queue, Footprint(),
        writer.poller`polled, writer.poller`origSize, writer.poller`index,
        writer.stream`queue, writer.stream`packets, writer.stream`sent
      ensures fault == None ==> Valid()
      ensures var b := GetBody(listening, code, old(reader.queue)).value;
        var r := Links.ProcessLinkMessage(old(View()[lid]), b.0);
        && (r.Failed? <==> fault.Some?) && (r.Failed? ==> fault == Some(r.fault))
        && (fault == None ==>
              reader.queue == b.1
              && Reacted(r, lid, old(View()), View(), old(writer.stream.sent), writer.stream.sent, []))
      ensures linkMap == old(linkMap)
        || (linkMap == old(linkMap) - {lid} && Absent(writer.poller.polled, old(linkMap)[lid]))
      ensures var link := old(linkMap)[lid];
        Others(old(writer.poller.polled), link, writer.owner) == Others(writer.poller.polled, link, writer.owner)
    {
      hide Others, Valid, View, Apart, Footprint, LinkOk, ConnectionLink.View, CustomWriteStream.Valid, Payloads,
        GetBody, Links.ProcessLinkMessage, OnlyAt;
      ghost var before, sent0 := View(), writer.stream.sent;
      ViewKeys();
      ghost var body := GetBody(listening, code, reader.queue).value;
      fault := TouchLink(reader, code, lid, body.0, body.1);
      if fault == None {
        if lid in linkMap { Reassemble(lid, before); } else { ReassembleWithout(lid, before); }
        assert sent0 + [] == sent0;
      }
    }

    /** tunnel.getReader().readShort() */
    method NextShort(reader: ReadStream) returns (x: Short)
      requires Valid() && |reader.queue| >= 2
      modifies reader`queue
      ensures x == GetShort(old(reader.queue)) && reader.queue == old(reader.queue)[2..]
      ensures Valid() && View() == old(View())
    {
      hide GetShort, WriteStream.Valid, CustomWriteStream.Valid, SockBuffer.Valid, SockBuffer.Pending, Watched, Once;
      ghost var before := View();
      x := reader.ReadShort();
      forall k | k in linkMap ensures LinkOk(linkMap[k]) && linkMap[k].View(writer.poller) == before[k] {}
      ReassembleSame(before);
    }

    /** A link of another connection, and its buffer, are no part of this one. */
    lemma NotMine(link: ConnectionLink)
      requires forall k :: k in linkMap ==>
        linkMap[k] != link && linkMap[k].buffer != link.buffer && linkMap[k].buffer.outputBuf != link.buffer.outputBuf
      ensures (link as object) !in Footprint() && (link.buffer as object) !in Footprint()
      ensures (link.buffer.outputBuf as object) !in Footprint()
    {}

    /** Only links, buffers and their arrays are part of a connection's footprint. */
    lemma OutsideFootprint(o: object)
      requires !(o is ConnectionLink) && !(o is SockBuffer) && !(o is array<Byte>)
      ensures o !in Footprint()
    {}

    lemma ArrayOutside(a: array<Byte>)
      requires forall k :: k in linkMap ==> linkMap[k].buffer.outputBuf != a
      ensures (a as object) !in Footprint()
    {}

    lemma WriterIsValid()
      requires Valid()
      ensures writer.Valid()
    {
      hide CustomWriteStream.Valid, LinkOk;
    }

    lemma Everyone()
      requires Valid()
      ensures writer.Valid() && Apart() && View().Keys == linkMap.Keys
      ensures var es := writer.poller.polled;
        forall k :: k in linkMap ==>
          && LinkOk(linkMap[k]) && Steady(linkMap[k], es)
          && View()[k] == linkMap[k].View(writer.poller) == linkMap[k].ViewIn(es)
    {
      hide CustomWriteStream.Valid, Steady, ConnectionLink.ViewIn;
    }

    /** What is known of one link, and of the others, in a valid connection. */
    lemma Inside(lid: Short)
      requires Valid() && lid in linkMap
      ensures var link := linkMap[lid];
        && link.id == lid && writer.Valid() && Apart() && LinkOk(link)
        && {link as object, link.buffer, link.buffer.outputBuf} <= Footprint()
        && (forall k :: k in linkMap && k != lid ==>
              && linkMap[k] != link && linkMap[k].buffer != link.buffer
              && linkMap[k].buffer.outputBuf != link.buffer.outputBuf)
      ensures var es := writer.poller.polled;
        forall k :: k in linkMap ==> Steady(linkMap[k], es) && k in View() && View()[k] == linkMap[k].ViewIn(es)
    {
      hide CustomWriteStream.Valid, Steady, ConnectionLink.ViewIn;
    }

    /** An entry of one of the links is its only one, is at its socket, and shows it open. */
    lemma HeldOnce(lid: Short, n: Node)
      requires Valid() && lid in linkMap && n in writer.poller.polled && n.polled == linkMap[lid]
      ensures n.fd == linkMap[lid].socket && !linkMap[lid].closing
      ensures forall i, j :: 0 <= i < j < |writer.poller.polled| ==>
        !(writer.poller.polled[i].polled == n.polled && writer.poller.polled[j].polled == n.polled)
    {
      Inside(lid);
      var link := linkMap[lid];
      if link.closing { UnwatchedIsAbsent(writer.poller.polled, link, link.socket); }
    }

    lemma FootprintIs(o: object) returns (lid: Short)
      requires o in Footprint()
      ensures lid in linkMap && o in PartsOf(linkMap[lid])
    {
      lid :| lid in linkMap && o in {linkMap[lid] as object, linkMap[lid].buffer, linkMap[lid].buffer.outputBuf};
    }

    lemma FootprintAllocated()
      ensures forall o :: o in Footprint() ==> allocated(o)
    {}

    /** The links are those of `before` when the Poller holds `es`; says nothing of the Poller as it is. */
    ghost predicate Quiet(es: seq<Node>, before: map<Short, Link>)
      reads `linkMap, Footprint()
    {
      && Apart() && linkMap.Keys == before.Keys
      && (forall k :: k in linkMap ==>
            Steady(linkMap[k], es) && linkMap[k].ViewIn(es) == before[k])
    }

    lemma QuietAvoidsOwner(es: seq<Node>, before: map<Short, Link>)
      requires Quiet(es, before)
      ensures forall k :: k in linkMap ==> linkMap[k] as object != writer.owner
    {}

    lemma QuietNow()
      requires Valid()
      ensures Quiet(writer.poller.polled, View())
    {
      hide Once, Watched, SockBuffer.Valid, SockBuffer.Pending, CustomWriteStream.Valid, Apart;
    }

    /** A connection none of whose links has been touched since the Poller held `es`. */
    lemma Undisturbed(es: seq<Node>, touched: object, before: map<Short, Link>)
      requires writer.Valid() && Quiet(es, before)
      requires Others(es, touched, writer.owner) == Others(writer.poller.polled, touched, writer.owner)
      requires forall k :: k in linkMap ==> linkMap[k] as object != touched
      ensures Valid() && View() == before
    {
      hide Others, Once, Watched, SockBuffer.Valid, SockBuffer.Pending, CustomWriteStream.Valid;
      forall k | k in linkMap ensures LinkOk(linkMap[k]) && linkMap[k].View(writer.poller) == before[k] {
        LinkKept(linkMap[k], es, touched);
      }
      ReassembleSame(before);
    }

    /** A link when poll() has answered. */
    ghost function ReportFor(link: ConnectionLink, es: seq<Node>, answer: nat -> Events): Events {
      answer(Find(es, link, link.socket))
    }

    lemma LinkReported(link: ConnectionLink, es: seq<Node>, answer: nat -> Events)
      requires Steady(link, es) && writer.poller.polled == Reported(es, answer)
      ensures LinkOk(link)
      ensures var l := link.ViewIn(es);
        link.View(writer.poller) == if l.registered then l.(revents := ReportFor(link, es, answer)) else l
    {
      hide Once, Watched, SockBuffer.Valid, SockBuffer.Pending;
      AfterReport(es, answer, link, link.socket);
    }

    /** A connection when poll() has answered. */
    lemma AllReported(es: seq<Node>, before: map<Short, Link>, answer: nat -> Events)
      requires writer.Valid() && Quiet(es, before) && writer.poller.polled == Reported(es, answer)
      ensures Valid() && View().Keys == linkMap.Keys == before.Keys
      ensures forall k :: k in linkMap ==>
        View()[k]
        == if before[k].registered then before[k].(revents := ReportFor(linkMap[k], es, answer)) else before[k]
    {
      hide Once, Watched, SockBuffer.Valid, SockBuffer.Pending, CustomWriteStream.Valid, ReportFor, Reported;
      forall k | k in linkMap
        ensures LinkOk(linkMap[k])
        ensures linkMap[k].View(writer.poller)
                == if before[k].registered then before[k].(revents := ReportFor(linkMap[k], es, answer)) else before[k]
      {
        LinkReported(linkMap[k], es, answer);
      }
    }

    /** Who is watched has its answer among what it asked for, or an error. */
    lemma AnswerIsAsked(link: ConnectionLink, es: seq<Node>, answer: nat -> Events)
      requires Steady(link, es) && link.ViewIn(es).registered
      requires forall i :: 0 <= i < |es| ==>
        (answer(i).pin ==> es[i].events.pin) && (answer(i).pout ==> es[i].events.pout)
      ensures Reportable(link.ViewIn(es), ReportFor(link, es, answer))
    {
      hide Once, SockBuffer.Valid, SockBuffer.Pending;
    }

    /** And it is the answer for an entry with its armed events. */
    lemma AnswerIsFound(link: ConnectionLink, es: seq<Node>, answer: nat -> Events)
      requires Steady(link, es) && link.ViewIn(es).registered
      ensures var i := Find(es, link, link.socket);
        i < |es| && es[i].events == link.ViewIn(es).events && ReportFor(link, es, answer) == answer(i)
    {
      hide Once, SockBuffer.Valid, SockBuffer.Pending;
    }

    /** processMessage, which is virtual in the source. */
    method ProcessMessage(reader: ReadStream, socket: int, connected: bool, text: seq<Byte>)
      returns (fault: Option<Fault>, ghost touched: object)
      requires Valid() && GetLink(listening, reader.queue).Some?
      requires var f := GetLink(listening, reader.queue).value;
        listening && f.msg.CreateReply? && f.lid in View() ==> !View()[f.lid].registered && !View()[f.lid].closing
      modifies this`linkMap, reader`queue, Footprint(),
        writer.stream`queue, writer.stream`packets, writer.stream`sent,
        writer.poller`polled, writer.poller`origSize, writer.poller`index, writer.poller`nextSerial
      ensures fault == None ==> Valid()
      ensures var f := GetLink(listening, old(reader.queue)).value;
        var r := Receive(listening, Slot(old(View()), f.lid), f.msg, connected);
        && fault == FaultOf(r)
        && (fault == None ==>
              && reader.queue == f.rest
              && Reacted(r, f.lid, old(View()), View(), old(writer.stream.sent), writer.stream.sent,
                         Errors(atRemote && !listening && f.msg == Create && !connected, text)))
      ensures var f := GetLink(listening, old(reader.queue)).value;
        && Taken(f, old(linkMap), touched)
        && (f.lid in linkMap && (f.lid !in old(linkMap) || linkMap[f.lid] != old(linkMap)[f.lid]) ==>
              fresh(PartsOf(linkMap[f.lid])) && linkMap[f.lid].socket == socket)
      ensures touched == writer.owner || fresh(touched) || exists k :: k in old(linkMap) && touched == old(linkMap)[k]
      ensures Others(old(writer.poller.polled), touched, writer.owner)
        == Others(writer.poller.polled, touched, writer.owner)
    {
      hide Others, Valid, View, Apart, Footprint, Payloads, GetLink, Links.ProcessLinkMessage;
      if listening {
        fault, touched := ListenMessage(reader);
      } else {
        fault, touched := ConnectMessage(reader, socket, connected, text);
      }
    }

    lemma SilentReaction(lid: Short, links: map<Short, Link>, sent: seq<Payload>)
      ensures sent + [] == sent && sent + Payloads(id, lid, []) == sent && (lid !in links ==> links - {lid} == links)
    {}

    lemma ViewKeys()
      requires Valid()
      ensures View().Keys == linkMap.Keys
    {}

    /** The Poller's callback for the link lid: what it does to the link, the writer and the socket is
        Links.Polled, and no other link of the connection changes. */
    method PollLink(lid: Short, ready: Events, rd: ReadResult, count: nat) returns (ghost n: nat)
      requires Valid() && lid in linkMap && View()[lid].registered && View()[lid].revents == ready
      requires rd.Bytes? ==> 0 < |rd.data| <= MAX_DATA
      modifies Footprint(), linkMap[lid].out,
        writer.stream`queue, writer.stream`packets, writer.stream`sent, writer.poller`polled, writer.poller`origSize,
        writer.poller`index
      ensures Valid() && lid in View() && View() == old(View())[lid := View()[lid]]
      ensures LinkTurn(old(View()[lid]), rd, n, View()[lid],
                       writer.stream.sent, old(writer.stream.sent),
                       lid, linkMap[lid].out.bytes, old(linkMap[lid].out.bytes))
      ensures WritesSome(old(View()[lid]), rd, count, n)
      ensures linkMap == old(linkMap)
      ensures Others(old(writer.poller.polled), linkMap[lid], writer.owner)
              == Others(writer.poller.polled, linkMap[lid], writer.owner)
    {
      hide Others, Valid, View, Apart, Footprint, LinkOk, ConnectionLink.View, CustomWriteStream.Valid, LinkTurn,
        OnlyAt, WritesSome;
      ghost var before := View();
      ViewKeys();
      n := PollOnly(lid, ready, rd, count);
      Reassemble(lid, before);
    }

    method PollOnly(lid: Short, ready: Events, rd: ReadResult, count: nat) returns (ghost n: nat)
      requires Valid() && lid in linkMap && View()[lid].registered && View()[lid].revents == ready
      requires rd.Bytes? ==> 0 < |rd.data| <= MAX_DATA
      modifies Footprint(), linkMap[lid].out,
        writer.stream`queue, writer.stream`packets, writer.stream`sent, writer.poller`polled, writer.poller`origSize,
        writer.poller`index
      ensures linkMap == old(linkMap) && writer.Valid() && Apart() && LinkOk(linkMap[lid]) && OnlyAt(lid, old(View()))
      ensures LinkTurn(old(View()[lid]), rd, n, linkMap[lid].View(writer.poller),
                       writer.stream.sent, old(writer.stream.sent),
                       lid, linkMap[lid].out.bytes, old(linkMap[lid].out.bytes))
      ensures WritesSome(old(View()[lid]), rd, count, n)
      ensures Others(old(writer.poller.polled), linkMap[lid], writer.owner)
              == Others(writer.poller.polled, linkMap[lid], writer.owner)
    {
      hide CustomWriteStream.Valid, Steady, ConnectionLink.ViewIn, Others, LinkTurn, Valid, View, Apart, Footprint,
        WritesSome;
      var link := linkMap[lid];
      ghost var es := writer.poller.polled;
      Inside(lid);
      ReadyIs(link);
      n := LinkPolled(link, ready, rd, count);
      forall k | k in linkMap && k != lid
        ensures LinkOk(linkMap[k]) && linkMap[k].View(writer.poller) == old(linkMap[k].ViewIn(es))
      {
        LinkKept(linkMap[k], es, link);
      }
    }

    /** As above, saying of the other links only that they have not changed. */
    method TouchLink(reader: ReadStream, code: Short, lid: Short, ghost m: LinkMsg, ghost rest: seq<Byte>)
      returns (fault: Option<Fault>)
      requires Valid() && lid in linkMap && code != LINK_CREATE
      requires GetBody(listening, code, reader.queue) == Some((m, rest))
      modifies this`linkMap, reader`queue, Footprint(),
        writer.poller`polled, writer.poller`origSize, writer.poller`index,
        writer.stream`queue, writer.stream`packets, writer.stream`sent
      ensures match Links.ProcessLinkMessage(old(View()[lid]), m)
        case Failed(why) => fault == Some(why)
        case Reaction(slot, replies) =>
          && fault == None && reader.queue == rest
          && writer.stream.sent == old(writer.stream.sent) + Payloads(id, lid, replies)
          && (match slot
              case Some(l) => linkMap == old(linkMap) && LinkOk(linkMap[lid]) && linkMap[lid].View(writer.poller) == l
              case None => linkMap == old(linkMap) - {lid} && Absent(writer.poller.polled, old(linkMap)[lid]))
      ensures fault == None ==> writer.Valid() && Apart() && OnlyAt(lid, old(View()))
      ensures linkMap == old(linkMap)
        || (linkMap == old(linkMap) - {lid} && Absent(writer.poller.polled, old(linkMap)[lid]))
      ensures var link := old(linkMap)[lid];
        Others(old(writer.poller.polled), link, writer.owner) == Others(writer.poller.polled, link, writer.owner)
    {
      hide CustomWriteStream.Valid, Steady, ConnectionLink.ViewIn, Others, Payloads, GetBody, Links.ProcessLinkMessage,
        Valid, View, Footprint, Absent, ApartLinks;
      var link := linkMap[lid];
      ghost var es, before, views := writer.poller.polled, linkMap, View();
      Inside(lid);
      ApartWithout(linkMap, lid);
      fault := ProcessLinkMessage(reader, code, link);
      if fault == None {
        forall k | k in before && k != lid
          ensures LinkOk(before[k]) && before[k].View(writer.poller) == views[k]
        {
          LinkKept(before[k], es, link);
        }
      }
    }
  }

  lemma {:induction false} PayloadsAppend(cid: Short, lid: Short, a: seq<LinkMsg>, b: seq<LinkMsg>)
    ensures Payloads(cid, lid, a + b) == Payloads(cid, lid, a) + Payloads(cid, lid, b)
  {
    hide LinkPayload;
    if a == [] {
      assert a + b == b;
    } else {
      assert a == [a[0]] + a[1..];
      PayloadsAppend(cid, lid, a[1..], b);
      assert (a + b)[1..] == a[1..] + b && (a + b)[0] == a[0];
    }
  }

  lemma NotWatched(es: seq<Node>, o: object, fd: int)
    requires forall i :: 0 <= i < |es| ==> es[i].polled != o
    ensures Watched(es, o, fd) == None && Once(es, o, fd)
  {}
}
