/** Both ends and the two byte streams between them: whatever the objects do, in any order, is a run of
    module Tunnel, and the bytes of every socket are conserved. */
module Session {
  import opened Wire
  import opened Codec
  import opened Framing
  import opened Streams
  import opened Polling
  import opened Links
  import opened Endpoint
  import opened Messages
  import opened Moves
  import opened Ends
  import T = Tunnel
  import Protocol
  import Effects
  import Magic
  import Handshake

  /** What may happen next, and at which end. A LinkReady is the turn of one link in the round its end is in. */
  datatype Event =
    | Accept(atLocal: bool, cid: Short, socket: int)
    | Poll(atLocal: bool, answer: nat -> Events)
    | LinkReady(atLocal: bool, key: T.Key, rd: ReadResult, count: nat)
    | Read(atLocal: bool, n1: nat, n2: nat, socket: int, connected: bool, text: seq<Byte>, failed: set<Short>)
    | Write(atLocal: bool, writable: bool, count: nat)

  predicate Possible(e: Event) {
    match e
    case LinkReady(_, _, rd, _) => rd.Bytes? ==> 0 < |rd.data| <= MAX_DATA
    case Read(_, n1, _, _, _, text, _) => n1 > 0 && |text| <= MAX_TEXT
    case _ => true
  }

  // ---------------------------------------------------------------- one direction

  /** What one end has sent is with the other, or on its way in packets and bytes. */
  ghost predicate Lane(from: TunnelEnd, to: TunnelEnd, pipe: Pipe, s: T.System)
    reads from.writer.stream, from.writer.stream.packets, to.reader, to.reader.readBuf, pipe
  {
    && Joined(from.writer.stream, to.reader, pipe) && to.reader.queue == []
    && LongEnough(from.writer.stream.sent) && to.Underway(s, from.writer.stream)
  }

  lemma LaneIs(from: TunnelEnd, to: TunnelEnd, pipe: Pipe, s: T.System)
    requires Lane(from, to, pipe, s)
    ensures var w, r := from.writer.stream, to.reader;
      && w.Valid() && r.Valid() && r.queue == [] && w.queue == [] && w.emitted == r.consumed + pipe.bytes
      && Fits(w.sent, MAX_PAYLOAD) && LongEnough(w.sent)
      && |r.received| <= |w.sent| && Carries(w.sent[|r.received|..], T.Incoming(s, to.atLocal))
  {}

  /** Nothing has happened in that direction. */
  lemma LaneStays(from: TunnelEnd, to: TunnelEnd, pipe: Pipe, s: T.System, s': T.System)
    requires Lane(from, to, pipe, s) && T.Incoming(s', to.atLocal) == T.Incoming(s, to.atLocal)
    ensures Lane(from, to, pipe, s')
  {}

  lemma {:induction false} LongEnoughMore(a: seq<Payload>, ms: seq<T.Msg>, sent: seq<Payload>)
    requires LongEnough(a) && |a| <= |sent| && sent[..|a|] == a && Carries(sent[|a|..], ms)
    ensures LongEnough(sent)
  {
    CarriedIsLong(sent[|a|..], ms);
    forall i | 0 <= i < |sent| ensures |sent[i]| >= 2 {
      if i < |a| { assert sent[i] == a[i]; } else { assert sent[i] == sent[|a|..][i - |a|]; }
    }
  }

  lemma FitsMore(a: seq<Payload>, sent: seq<Payload>)
    requires Fits(a, MAX_PAYLOAD) && |a| <= |sent| && sent[..|a|] == a && Fits(sent[|a|..], MAX_PAYLOAD)
    ensures Fits(sent, MAX_PAYLOAD)
  {
    forall i | 0 <= i < |sent| ensures |sent[i]| <= MAX_PAYLOAD {
      if i < |a| { assert sent[i] == a[i]; } else { assert sent[i] == sent[|a|..][i - |a|]; }
    }
  }

  /** The sender has sent more. */
  lemma LaneGrows(from: TunnelEnd, to: TunnelEnd, pipe: Pipe, s: T.System, s': T.System, sent0: seq<Payload>)
    requires from.atLocal != to.atLocal
    requires var w, r := from.writer.stream, to.reader;
      && w.Valid() && r.Valid() && r.queue == [] && w.queue == [] && w.emitted == r.consumed + pipe.bytes
      && Fits(sent0, MAX_PAYLOAD) && LongEnough(sent0)
      && |r.received| <= |sent0| && Carries(sent0[|r.received|..], T.Incoming(s, to.atLocal))
      && Answered(s, from.atLocal, s', sent0, w.sent) && Fits(w.sent[|sent0|..], MAX_PAYLOAD)
    ensures Lane(from, to, pipe, s')
  {
    var w, r := from.writer.stream, to.reader;
    var ms, ms' := T.Incoming(s, to.atLocal), T.Incoming(s', to.atLocal);
    LongEnoughMore(sent0, ms'[|ms|..], w.sent);
    FitsMore(sent0, w.sent);
    CarriesOn(sent0, w.sent, |r.received|, ms, ms');
    hide Carries, WriteStream.Valid, ReadStream.Valid, Fits, LongEnough;
  }

  lemma CarriesOn(before: seq<Payload>, sent: seq<Payload>, had: nat, ms: seq<T.Msg>, ms': seq<T.Msg>)
    requires |before| <= |sent| && sent[..|before|] == before && |ms| <= |ms'| && ms'[..|ms|] == ms
    requires had <= |before| && Carries(before[had..], ms) && Carries(sent[|before|..], ms'[|ms|..])
    ensures Carries(sent[had..], ms')
  {
    hide Carries;
    CarriesMore(before[had..], ms, sent[|before|..], ms'[|ms|..]);
    assert sent == before + sent[|before|..];
    assert sent[had..] == before[had..] + sent[|before|..];
    assert ms' == ms + ms'[|ms|..];
  }

  // ---------------------------------------------------------------- both ends

  /** The two ends are in the state s, all their bytes accounted for, and share nothing but the two pipes. */
  ghost predicate Coupled(me: TunnelEnd, peer: TunnelEnd, inn: Pipe, out: Pipe, s: T.System)
    reads me, me.reader, me.Repr(), me.writer.stream.packets, peer, peer.reader, peer.Repr(),
      peer.writer.stream.packets,
          me.connections.Values, peer.connections.Values, me.writer.poller, peer.writer.poller, inn, out
  {
    && me.atLocal != peer.atLocal && T.Inv(s) && (T.Awaiting(s) ==> Sendable(s.up[0].entries))
    && me.IsIn(s) && peer.IsIn(s) && me.Ledger(s) && peer.Ledger(s) && SameSpecs(me, peer, s)
    && Lane(me, peer, out, s) && Lane(peer, me, inn, s)
    && Unshared(me, peer, inn, out)
  }

  /** The connections of the remote end are those of the local end, as they come out of the table: with the same host,
      ports and flags, as far as these pass through a short. Until it arrives the table says what the local end has. */
  ghost predicate Agreed(local: map<Short, ConnectionSpec>, remote: map<Short, ConnectionSpec>, s: T.System) {
    && (T.Awaiting(s) ==> Specifies(local, s.up[0].entries))
    && (s.greeted ==> forall cid :: cid in remote ==> cid in local && remote[cid] == WireImage(local[cid]))
  }

  ghost predicate SameSpecs(me: TunnelEnd, peer: TunnelEnd, s: T.System)
    reads me`connections, peer`connections
  {
    if me.atLocal then Agreed(me.Specs(), peer.Specs(), s) else Agreed(peer.Specs(), me.Specs(), s)
  }

  /** A step other than reading the table changes nothing in this. */
  lemma StillAgreed(local: map<Short, ConnectionSpec>, remote: map<Short, ConnectionSpec>, s: T.System, a: T.Action,
                    s': T.System)
    requires Agreed(local, remote, s) && T.Inv(s) && T.Permitted(s, a) && T.Step(s, a) == T.Running(s')
    requires s'.greeted == s.greeted
    ensures Agreed(local, remote, s')
  {
    T.TableWaits(s, a);
    AwaitingIsUngreeted(s);
    hide T.Inv, T.Permitted, T.Step, Specifies, WireImage, T.Awaiting;
  }

  lemma AwaitingIsUngreeted(s: T.System)
    ensures T.Awaiting(s) ==> !s.greeted && s.up != [] && s.up[0].CreateTable?
  {}

  /** Reading the table makes the remote end agree with the local one. */
  lemma TableAgrees(local: map<Short, ConnectionSpec>, none: map<Short, ConnectionSpec>,
                    remote: map<Short, ConnectionSpec>, s: T.System, s': T.System)
    requires T.Awaiting(s) && Agreed(local, none, s) && s'.greeted
    requires SpecsFrom(remote, Images(s.up[0].entries))
    ensures Agreed(local, remote, s')
  {
    var es := s.up[0].entries;
    hide WireImage, T.Tabled;
    forall cid | cid in remote ensures cid in local && remote[cid] == WireImage(local[cid]) {
      var i :| 0 <= i < |es| && Images(es)[i] == (cid, remote[cid]);
      assert es[i].0 == cid;
    }
  }

  ghost predicate Unshared(me: TunnelEnd, peer: TunnelEnd, inn: Pipe, out: Pipe)
    reads me, me.connections.Values, me.reader, me.writer.poller, peer, peer.connections.Values, peer.reader,
          peer.writer.poller
  {
    && me.Repr() !! peer.Repr() && inn != out && {inn as object, out} !! me.Repr()
      && {inn as object, out} !! peer.Repr()
    && me.writer.poller.pollfds.Length > 0 && peer.writer.poller.pollfds.Length > 0
  }

  /** The actions of module Tunnel by which s becomes s': one, or none. */
  ghost predicate Follows(s: T.System, actions: seq<T.Action>, s': T.System) {
    if actions == [] then s' == s
    else |actions| == 1 && T.Permitted(s, actions[0]) && T.Step(s, actions[0]) == T.Running(s')
  }

  // ---------------------------------------------------------------- what an event does

  /** What there is to see from one end: the state, how far the stream it writes and the one it reads have come, and
      where the links in its Poller and in the other one stand. */
  datatype View = View(s: T.System, out: Moment, inn: Moment, mine: map<T.Key, nat>, theirs: map<T.Key, nat>)

  ghost function Seen(me: TunnelEnd, peer: TunnelEnd, s: T.System): View
    reads me, me.connections.Values, me.writer.stream, me.writer.poller, me.reader,
          peer, peer.connections.Values, peer.writer.stream, peer.writer.poller, peer.reader
  {
    View(s, Now(me.writer.stream, peer.reader), Now(peer.writer.stream, me.reader), me.Places(), peer.Places())
  }

  /** The same seen from the other end. */
  ghost function Across(v: View): View {
    View(v.s, v.inn, v.out, v.theirs, v.mine)
  }

  /** Packets may have been sent; no byte has moved. */
  ghost predicate OnlySends(a: View, b: View) {
    b.inn == a.inn && b.out == a.out.(sent := b.out.sent) && a.out.sent <= b.out.sent
  }

  /** As many bytes of the packet in front have left as the kernel takes. */
  ghost predicate OnlyWrites(a: View, count: nat, b: View) {
    && b.inn == a.inn && b.out == a.out.(emitted := b.out.emitted) && a.out.emitted <= b.out.emitted
    && |b.out.emitted| == |a.out.emitted| + Least(count, ToBoundary(a.out.sent, |a.out.emitted|))
    && (a.out.emitted < b.out.emitted <==> count > 0 && a.out.emitted < Frames(a.out.sent))
  }

  /** As many bytes of the frame begun have been taken as there are and the kernel gives, and answers may have been
      sent. */
  ghost predicate OnlyReads(a: View, n1: nat, n2: nat, b: View) {
    && b.out == a.out.(sent := b.out.sent) && a.out.sent <= b.out.sent
    && b.inn == a.inn.(consumed := b.inn.consumed, received := b.inn.received)
    && a.inn.consumed <= b.inn.consumed && a.inn.received <= b.inn.received
    && |b.inn.consumed| == |a.inn.consumed|
         + (if Waiting(a.inn) == [] then 0 else Taken(Begun(a.inn), Waiting(a.inn), n1, n2))
    && (n2 > 0 && a.inn.consumed < a.inn.emitted ==> a.inn.consumed < b.inn.consumed)
  }

  /** What the event e does at its end, from a to b: it is the action of module Tunnel of that name with the same
      data, and is passed over only if it cannot happen. A packet read is a message delivered. */
  ghost predicate Takes(a: View, e: Event, actions: seq<T.Action>, b: View) {
    && Follows(a.s, actions, b.s)
    && match e
       case Accept(at, cid, _) =>
         && OnlySends(a, b)
         && actions == if MayListen(T.ConnsAt(a.s, at), cid) then [T.Accept(at, cid)] else []
       case Poll(at, answer) =>
         && b.out == a.out && b.inn == a.inn
         && |actions| == 1 && actions[0].Poll? && actions[0].atLocal == at
         && Relays(T.ConnsAt(a.s, at), a.mine, answer, actions[0].reports)
       case LinkReady(at, k, rd, count) =>
         && OnlySends(a, b)
         && var slot := T.SlotOf(T.ConnsAt(a.s, at), k);
         if slot.Some? && slot.value.registered && Something(slot.value.revents) then
           |actions| == 1 && Turns(a.s, at, k, rd, count, actions[0])
         else actions == []
       case Read(at, n1, n2, _, connected, _, failed) =>
         && OnlyReads(a, n1, n2, b) && |b.inn.received| == |a.inn.received| + |actions|
         && (actions != [] ==> actions == [T.Deliver(at, connected, failed)])
       case Write(_, writable, count) => OnlyWrites(a, if writable then count else 0, b) && actions == []
  }

  /** The connection is a listener, and the id it would hand out next is not in use. */
  predicate MayListen(cs: T.Conns, cid: Short) {
    cid in cs && cs[cid].listening && ToShort(cs[cid].nextId) !in cs[cid].links
  }

  lemma PermittedIsMayListen(s: T.System, at: bool, cid: Short)
    ensures T.Permitted(s, T.Accept(at, cid)) <==> MayListen(T.ConnsAt(s, at), cid)
  {}

  /** There is input, room or an error to report. */
  predicate Something(e: Events) {
    e.pin || e.pout || e.perr
  }

  /** The turn of the link k with what read() returns, and as much written as the kernel takes. */
  ghost predicate Turns(s: T.System, at: bool, k: T.Key, rd: ReadResult, count: nat, a: T.Action) {
    && a.LinkPolled? && a == T.LinkPolled(at, k, rd, a.n)
    && T.SlotOf(T.ConnsAt(s, at), k).Some? && WritesSome(T.SlotOf(T.ConnsAt(s, at), k).value, rd, count, a.n)
  }

  /** The packets sent and not received are the messages on their way. */
  ghost predicate Carried(m: Moment, ms: seq<T.Msg>) {
    Whole(m) && Carries(m.sent[|m.received|..], ms)
  }

  ghost predicate Sound(v: View, at: bool) {
    T.Inv(v.s) && Carried(v.out, T.Incoming(v.s, !at)) && Carried(v.inn, T.Incoming(v.s, at))
  }

  lemma SeenIsSound(me: TunnelEnd, peer: TunnelEnd, inn: Pipe, out: Pipe, s: T.System)
    requires Coupled(me, peer, inn, out, s)
    ensures Sound(Seen(me, peer, s), me.atLocal)
  {
    CoupledParts(me, peer, inn, out, s);
    LaneIsCarried(me, peer, out, s);
    LaneIsCarried(peer, me, inn, s);
    hide Coupled, T.Inv, TunnelEnd.IsIn, TunnelEnd.Ledger, Lane, Carried, Unshared;
  }

  lemma LaneIsCarried(from: TunnelEnd, to: TunnelEnd, pipe: Pipe, s: T.System)
    requires Lane(from, to, pipe, s)
    ensures Carried(Now(from.writer.stream, to.reader), T.Incoming(s, to.atLocal))
  {
    LaneIs(from, to, pipe, s);
    NowIsWhole(from.writer.stream, to.reader, pipe);
    hide Whole, WriteStream.Valid, ReadStream.Valid, Carries;
  }

  lemma AnsweredGrows(s: T.System, at: bool, s': T.System, before: seq<Payload>, sent: seq<Payload>)
    requires Answered(s, at, s', before, sent)
    ensures before <= sent
  {}

  // ---------------------------------------------------------------- the steps

  lemma CoupledParts(me: TunnelEnd, peer: TunnelEnd, inn: Pipe, out: Pipe, s: T.System)
    requires Coupled(me, peer, inn, out, s)
    ensures me.atLocal != peer.atLocal && T.Inv(s) && (T.Awaiting(s) ==> Sendable(s.up[0].entries))
    ensures me.IsIn(s) && peer.IsIn(s) && me.Ledger(s) && peer.Ledger(s) && SameSpecs(me, peer, s)
    ensures Lane(me, peer, out, s) && Lane(peer, me, inn, s) && Unshared(me, peer, inn, out)
  {}

  lemma CoupledWhole(me: TunnelEnd, peer: TunnelEnd, inn: Pipe, out: Pipe, s: T.System)
    requires me.atLocal != peer.atLocal && T.Inv(s) && (T.Awaiting(s) ==> Sendable(s.up[0].entries))
    requires me.IsIn(s) && peer.IsIn(s) && me.Ledger(s) && peer.Ledger(s) && SameSpecs(me, peer, s)
    requires Lane(me, peer, out, s) && Lane(peer, me, inn, s) && Unshared(me, peer, inn, out)
    ensures Coupled(me, peer, inn, out, s)
  {}

  /** What an end changes on handling a message is nothing of its peer's and nothing of the streams. */
  lemma MineAlone(me: TunnelEnd, peer: TunnelEnd, inn: Pipe, out: Pipe, s: T.System)
    requires Coupled(me, peer, inn, out, s)
    ensures {me as object, me.reader, me.reader.readBuf, me.writer.stream, me.writer.poller, inn, out} !! me.Objects()
    ensures me.Objects() !! peer.Repr() && me.Objects() <= me.Repr() && peer.Objects() <= peer.Repr()
    ensures forall i :: 0 <= i < |me.writer.stream.packets| ==> (me.writer.stream.packets[i] as object) !in me.Objects()
    ensures forall i :: 0 <= i < |peer.writer.stream.packets| ==>
      (peer.writer.stream.packets[i] as object) !in me.Objects()
    ensures me.BuffersApart()
  {
    hide T.Inv, TunnelEnd.Valid, TunnelEnd.Repr, TunnelEnd.Objects, Lane, TunnelEnd.Ledger, TunnelEnd.Real,
      TunnelEnd.Tidy, TunnelEnd.BuffersApart;
    me.ReprHas();
    peer.ReprHas();
    me.NotAnObject(me.writer.poller);
    me.InputApart(me.writer.stream, inn);
    me.InputApart(peer.writer.stream, out);
  }

  lemma PeerUntouched(s: T.System, at: bool, s': T.System, before: seq<Payload>, sent: seq<Payload>)
    requires Answered(s, at, s', before, sent)
    ensures T.ConnsAt(s', !at) == T.ConnsAt(s, !at)
  {}

  lemma WriterReady(me: TunnelEnd, s: T.System)
    requires me.IsIn(s)
    ensures me.writer.Valid() && me.writer.stream.Valid() && me.writer.stream.queue == []
  {
    hide TunnelEnd.Real, TunnelEnd.Tidy, TunnelEnd.BuffersApart, TunnelConnection.Valid;
  }

  /** A step of one end leaves the other in its state. */
  lemma SameToPeer(peer: TunnelEnd, s: T.System, s': T.System)
    requires peer.IsIn(s) && T.ConnsAt(s', peer.atLocal) == T.ConnsAt(s, peer.atLocal)
    requires !peer.atLocal ==> s'.greeted == s.greeted
    ensures peer.IsIn(s')
  {}

  /** The table, while it has not arrived, stays what it is. */
  lemma StillSendable(s: T.System, a: T.Action)
    requires T.Inv(s) && T.Permitted(s, a) && (T.Awaiting(s) ==> Sendable(s.up[0].entries))
    ensures var o := T.Step(s, a); o.Running? && T.Inv(o.s) && (T.Awaiting(o.s) ==> Sendable(o.s.up[0].entries))
  {
    T.StepPreserves(s, a);
    T.TableWaits(s, a);
    hide T.Inv, T.Step, Sendable;
  }

  /** After a step of one end that takes nothing off the incoming stream. */
  lemma AfterSending(me: TunnelEnd, peer: TunnelEnd, inn: Pipe, out: Pipe, s: T.System, a: T.Action, s': T.System,
                     sent0: seq<Payload>)
    requires me.atLocal != peer.atLocal && T.Inv(s) && (T.Awaiting(s) ==> Sendable(s.up[0].entries))
    requires T.Permitted(s, a) && T.Step(s, a) == T.Running(s')
    requires peer.IsIn(s) && me.IsIn(s') && me.Ledger(s') && peer.Ledger(s') && SameSpecs(me, peer, s)
    requires s'.greeted == s.greeted && T.Incoming(s', me.atLocal) == T.Incoming(s, me.atLocal)
    requires Lane(peer, me, inn, s) && Unshared(me, peer, inn, out)
    requires var w, r := me.writer.stream, peer.reader;
      && r.Valid() && r.queue == [] && w.emitted == r.consumed + out.bytes
      && Fits(sent0, MAX_PAYLOAD) && LongEnough(sent0)
      && |r.received| <= |sent0| && Carries(sent0[|r.received|..], T.Incoming(s, peer.atLocal))
      && Answered(s, me.atLocal, s', sent0, w.sent) && Fits(w.sent[|sent0|..], MAX_PAYLOAD)
    ensures Coupled(me, peer, inn, out, s')
  {
    hide Coupled, T.Inv, T.Awaiting, T.Permitted, T.Step, TunnelEnd.IsIn, TunnelEnd.Ledger, Lane, Answered, Carries,
      TunnelEnd.Objects, TunnelEnd.Outs, TunnelEnd.Repr, TunnelEnd.Table, WriteStream.Valid, ReadStream.Valid, Fits,
      LongEnough, Unshared, Agreed;
    PeerUntouched(s, me.atLocal, s', sent0, me.writer.stream.sent);
    WriterReady(me, s');
    SameToPeer(peer, s, s');
    LaneStays(peer, me, inn, s, s');
    LaneGrows(me, peer, out, s, s', sent0);
    StillSendable(s, a);
    if me.atLocal { StillAgreed(me.Specs(), peer.Specs(), s, a, s'); }
    else { StillAgreed(peer.Specs(), me.Specs(), s, a, s'); }
    CoupledWhole(me, peer, inn, out, s');
  }

  /** ListenSide::polled at one end. */
  method AcceptStep(me: TunnelEnd, peer: TunnelEnd, inn: Pipe, out: Pipe, cid: Short, socket: int, ghost s: T.System)
    returns (ghost s': T.System)
    requires Coupled(me, peer, inn, out, s) && T.Permitted(s, T.Accept(me.atLocal, cid))
    modifies me.Objects(), me.writer.stream`queue, me.writer.stream`packets, me.writer.stream`sent,
      me.writer.poller`polled
    ensures Coupled(me, peer, inn, out, s') && Follows(s, [T.Accept(me.atLocal, cid)], s')
    ensures OnlySends(old(Seen(me, peer, s)), Seen(me, peer, s'))
    ensures fresh(me.Repr() - old(me.Repr())) && peer.Repr() == old(peer.Repr())
    ensures peer.Specs() == old(peer.Specs()) && me.Specs() == old(me.Specs())
  {
    hide Coupled, T.Inv, T.Awaiting, T.Permitted, T.Step, TunnelEnd.IsIn, TunnelEnd.Ledger, Lane, Answered, Carries,
      TunnelEnd.Objects, TunnelEnd.Outs, TunnelEnd.Repr, TunnelEnd.Table, WriteStream.Valid, ReadStream.Valid, Fits,
      LongEnough, Agreed, TunnelEnd.Places, TunnelEnd.Specs;
    ghost var sent0 := me.writer.stream.sent;
    CoupledParts(me, peer, inn, out, s);
    LaneIs(me, peer, out, s);
    me.ReprHolds();
    peer.ReprHolds();
    MineAlone(me, peer, inn, out, s);
    s' := me.Accept(cid, socket, s);
    AcceptIs(s, me.atLocal, cid, sent0);
    AcceptAtPeer(s, me.atLocal, cid, peer);
    AnsweredGrows(s, me.atLocal, s', sent0, me.writer.stream.sent);
    AfterSending(me, peer, inn, out, s, T.Accept(me.atLocal, cid), s', sent0);
  }

  lemma AcceptAtPeer(s: T.System, at: bool, cid: Short, peer: TunnelEnd)
    requires T.Inv(s) && T.Permitted(s, T.Accept(at, cid)) && peer.Ledger(s) && peer.atLocal != at
    ensures cid in T.ConnsAt(s, at) && peer.Ledger(T.AcceptAt(s, at, cid))
  {
    hide T.Inv, T.Permitted, Booked;
    PermittedIsFree(s, at, cid);
    AcceptBookedAtPeer(s, at, cid, peer.Given());
  }

  /** The turn of one link in the round its end is in. */
  method LinkStep(me: TunnelEnd, peer: TunnelEnd, inn: Pipe, out: Pipe, k: T.Key, ready: Events, rd: ReadResult,
                  count: nat, ghost s: T.System)
    returns (ghost s': T.System, ghost a: T.Action)
    requires Coupled(me, peer, inn, out, s) && k in me.Table() && k in me.due && ready != NOTHING
    requires var slot := T.SlotOf(T.ConnsAt(s, me.atLocal), k);
      slot.Some? && slot.value.registered && slot.value.revents == ready
    requires rd.Bytes? ==> 0 < |rd.data| <= MAX_DATA
    modifies me`due, me.Objects(), me.Table()[k].out,
      me.writer.stream`queue, me.writer.stream`packets, me.writer.stream`sent,
      me.writer.poller`polled, me.writer.poller`origSize, me.writer.poller`index
    ensures Coupled(me, peer, inn, out, s') && Follows(s, [a], s')
    ensures OnlySends(old(Seen(me, peer, s)), Seen(me, peer, s')) && Turns(s, me.atLocal, k, rd, count, a)
    ensures me.Repr() <= old(me.Repr()) && peer.Repr() == old(peer.Repr())
    ensures peer.Specs() == old(peer.Specs()) && me.Specs() == old(me.Specs())
  {
    hide Coupled, T.Inv, T.Awaiting, T.Permitted, T.Step, TunnelEnd.IsIn, TunnelEnd.Ledger, Lane, Answered, Carries,
      TunnelEnd.Objects, TunnelEnd.Outs, TunnelEnd.Repr, TunnelEnd.Table, WriteStream.Valid, ReadStream.Valid, Fits,
      LongEnough, Polled, WritesSome, Agreed, TunnelEnd.Places, TunnelEnd.Specs;
    ghost var sent0 := me.writer.stream.sent;
    CoupledParts(me, peer, inn, out, s);
    LaneIs(me, peer, out, s);
    me.ReprHolds();
    peer.ReprHolds();
    MineAlone(me, peer, inn, out, s);
    OutAlone(me, peer, inn, out, s, k);
    ghost var n;
    s', n := me.PollLink(k, ready, rd, count, s);
    a := T.LinkPolled(me.atLocal, k, rd, n);
    LinkPolledAtPeer(s, me.atLocal, k, rd, n, s', peer);
    AnsweredGrows(s, me.atLocal, s', sent0, me.writer.stream.sent);
    AfterSending(me, peer, inn, out, s, a, s', sent0);
  }

  /** A link's socket is a part of its end and of nothing else. */
  lemma OutAlone(me: TunnelEnd, peer: TunnelEnd, inn: Pipe, out: Pipe, s: T.System, k: T.Key)
    requires Coupled(me, peer, inn, out, s) && k in me.Table()
    ensures var o := me.Table()[k].out as object;
      o in me.Repr() && o !in peer.Repr() && o != inn && o != out && allocated(o)
  {
    CoupledParts(me, peer, inn, out, s);
    hide Coupled, TunnelEnd.IsIn, TunnelEnd.Ledger, Lane, SameSpecs, TunnelEnd.Objects, TunnelEnd.Outs, TunnelEnd.Repr,
      TunnelEnd.Table;
    me.OutsOutside();
    me.ReprHas();
  }

  lemma LinkPolledAtPeer(s: T.System, at: bool, k: T.Key, rd: ReadResult, n: nat, s': T.System, peer: TunnelEnd)
    requires T.Inv(s) && T.Permitted(s, T.LinkPolled(at, k, rd, n)) && peer.Ledger(s) && peer.atLocal != at
    requires T.Step(s, T.LinkPolled(at, k, rd, n)) == T.Running(s')
    ensures peer.Ledger(s') && s'.greeted == s.greeted && T.Incoming(s', at) == T.Incoming(s, at)
  {
    hide T.Inv, Booked, T.Permitted, Answered, Polled, Payloads, T.SetSlot;
    PermittedIsEnabled(s, T.LinkPolled(at, k, rd, n));
    LinkPolledIs(s, at, k, rd, n, []);
    LinkPolledBookedAtPeer(s, at, k, rd, n, peer.Given());
  }

  /** poll() at one end. */
  method PollStep(me: TunnelEnd, peer: TunnelEnd, inn: Pipe, out: Pipe, answer: nat -> Events, ghost s: T.System)
    returns (ghost s': T.System, ghost a: T.Action)
    requires Coupled(me, peer, inn, out, s)
    modifies me`due, me.writer.poller`polled, me.writer.poller`pollfds, me.writer.poller.pollfds
    ensures Coupled(me, peer, inn, out, s') && Follows(s, [a], s')
    ensures Seen(me, peer, s') == old(Seen(me, peer, s)).(s := s')
    ensures a.Poll? && a.atLocal == me.atLocal && Relays(T.ConnsAt(s, me.atLocal), old(me.Places()), answer, a.reports)
    ensures fresh(me.Repr() - old(me.Repr())) && peer.Repr() == old(peer.Repr())
    ensures peer.Specs() == old(peer.Specs()) && me.Specs() == old(me.Specs())
  {
    hide Coupled, T.Inv, T.Awaiting, T.Permitted, T.Step, TunnelEnd.IsIn, TunnelEnd.Ledger, Lane, Answered, Carries,
      TunnelEnd.Objects, TunnelEnd.Outs, TunnelEnd.Repr, TunnelEnd.Table, WriteStream.Valid, ReadStream.Valid, Fits,
      LongEnough, T.PollAt, Relays, Agreed, TunnelEnd.Places, TunnelEnd.Specs;
    ghost var sent0 := me.writer.stream.sent;
    CoupledParts(me, peer, inn, out, s);
    LaneIs(me, peer, out, s);
    me.ReprHolds();
    peer.ReprHolds();
    MineAlone(me, peer, inn, out, s);
    ghost var reports;
    s', reports := me.Poll(answer, s);
    a := T.Poll(me.atLocal, reports);
    PermittedIsEnabled(s, a);
    PollIs(s, me.atLocal, reports);
    NotAnswered(s, me.atLocal, sent0);
    PollAtPeer(s, me.atLocal, reports, peer);
    AfterSending(me, peer, inn, out, s, a, s', sent0);
  }

  lemma PollAtPeer(s: T.System, at: bool, reports: map<T.Key, Events>, peer: TunnelEnd)
    requires T.Inv(s) && T.Enabled(s, T.Poll(at, reports)) && peer.Ledger(s)
    ensures peer.Ledger(T.PollAt(s, at, reports))
  {
    hide T.Inv, Booked;
    PollBooked(s, at, reports, peer.Given(), peer.atLocal);
  }

  /** The write callback at one end. */
  method WriteStep(me: TunnelEnd, peer: TunnelEnd, inn: Pipe, out: Pipe, writable: bool, count: nat, ghost s: T.System)
    requires Coupled(me, peer, inn, out, s)
    modifies me.writer.stream`packets, me.writer.stream`emitted, me.writer.stream.packets, out, me.writer.poller`polled
    ensures Coupled(me, peer, inn, out, s)
    ensures OnlyWrites(old(Seen(me, peer, s)), if writable then count else 0, Seen(me, peer, s))
    ensures me.Repr() == old(me.Repr()) && peer.Repr() == old(peer.Repr())
    ensures peer.Specs() == old(peer.Specs()) && me.Specs() == old(me.Specs())
  {
    hide Coupled, T.Inv, T.Awaiting, T.Permitted, T.Step, TunnelEnd.IsIn, TunnelEnd.Ledger, Lane, Answered, Carries,
      TunnelEnd.Objects, TunnelEnd.Outs, TunnelEnd.Repr, TunnelEnd.Table, WriteStream.Valid, ReadStream.Valid, Fits,
      LongEnough, Agreed, TunnelEnd.Places, TunnelEnd.Specs;
    ghost var sent0 := me.writer.stream.sent;
    CoupledParts(me, peer, inn, out, s);
    LaneIs(me, peer, out, s);
    me.ReprHolds();
    peer.ReprHolds();
    MineAlone(me, peer, inn, out, s);
    PacketsApart(me, peer, s);
    PendingIs(me.writer.stream);
    LeftIs(me.writer.stream);
    me.WriteReady(out, writable, count, s);
    NotAnswered(s, me.atLocal, sent0);
    AfterReading(me, peer, inn, out, s, s, sent0);
  }

  /** The two writers' packets are not the same objects, nor parts of anything else. */
  lemma PacketsApart(me: TunnelEnd, peer: TunnelEnd, s: T.System)
    requires me.IsIn(s) && peer.IsIn(s) && me.writer.stream != peer.writer.stream
    ensures forall i :: 0 <= i < |me.writer.stream.packets| ==>
      && me.writer.stream.packets[i] !in peer.writer.stream.packets
      && (me.writer.stream.packets[i] as object) !in me.Repr()
        && (me.writer.stream.packets[i] as object) !in peer.Repr()
  {
    WriterReady(me, s);
    WriterReady(peer, s);
    hide TunnelEnd.IsIn, TunnelEnd.Repr, Frames;
    var ps := me.writer.stream.packets;
    forall i | 0 <= i < |ps|
      ensures (ps[i] as object) !in me.Repr() && (ps[i] as object) !in peer.Repr()
    {
      NoPacket(me, ps[i]);
      NoPacket(peer, ps[i]);
    }
  }

  lemma NoPacket(e: TunnelEnd, p: WritePacket)
    ensures (p as object) !in e.Repr()
  {
    hide TunnelEnd.Repr;
    if (p as object) in e.Repr() { e.ReprIs(p); }
  }

  /** The read callback at one end, when there are bytes for it. */
  method ReadStep(me: TunnelEnd, peer: TunnelEnd, inn: Pipe, out: Pipe, n1: nat, n2: nat,
                  socket: int, connected: bool, text: seq<Byte>, failed: set<Short>, ghost s: T.System)
    returns (ghost s': T.System, ghost actions: seq<T.Action>)
    requires Coupled(me, peer, inn, out, s) && inn.bytes != [] && n1 > 0 && |text| <= MAX_TEXT
    modifies me.reader, me.reader.readBuf, inn, me`connections, me`greeted, me.Objects(),
      me.writer.stream`queue, me.writer.stream`packets, me.writer.stream`sent,
      me.writer.poller`polled, me.writer.poller`origSize, me.writer.poller`index, me.writer.poller`nextSerial
    ensures Coupled(me, peer, inn, out, s') && Follows(s, actions, s')
    ensures var a, b := old(Seen(me, peer, s)), Seen(me, peer, s');
      && OnlyReads(a, n1, n2, b) && |b.inn.received| == |a.inn.received| + |actions|
      && (actions != [] ==> actions == [T.Deliver(me.atLocal, connected, failed)])
    ensures fresh(me.Repr() - old(me.Repr())) && peer.Repr() == old(peer.Repr())
    ensures peer.Specs() == old(peer.Specs()) && (me.atLocal ==> me.Specs() == old(me.Specs()))
  {
    hide Coupled, T.Inv, T.Awaiting, T.Permitted, T.Step, TunnelEnd.IsIn, TunnelEnd.Ledger, Answered, Carries, Joined,
      TunnelEnd.Objects, TunnelEnd.Outs, TunnelEnd.Repr, TunnelEnd.Table, WriteStream.Valid, ReadStream.Valid, Fits,
      LongEnough, TunnelEnd.Underway, Leads, Sendable, Whole, Agreed, TunnelEnd.Places, TunnelEnd.Specs,
      TunnelEnd.Respecified, SameSpecs, Taken, Waiting, Begun, Follows;
    ghost var sent0 := me.writer.stream.sent;
    CoupledParts(me, peer, inn, out, s);
    LaneIs(me, peer, out, s);
    me.ReprHolds();
    peer.ReprHolds();
    MineAlone(me, peer, inn, out, s);
    NowIsWhole(peer.writer.stream, me.reader, inn);
    NowIs(peer.writer.stream, me.reader, inn);
    ghost var before, specs := Now(peer.writer.stream, me.reader), me.Specs();
    var took;
    took, s' := me.Deliver(s, peer.writer.stream, inn, n1, n2, socket, connected, text, failed);
    actions := if took then [T.Deliver(me.atLocal, connected, failed)] else [];
    NowIsWhole(peer.writer.stream, me.reader, inn);
    AnsweredGrows(s, me.atLocal, s', sent0, me.writer.stream.sent);
    ReceivedGrows(before, Now(peer.writer.stream, me.reader));
    WhatWasRead(me, peer, s, took, connected, failed, s', specs);
    AfterReading(me, peer, inn, out, s, s', sent0);
  }

  lemma WhatWasRead(me: TunnelEnd, peer: TunnelEnd, s: T.System, took: bool, connected: bool, failed: set<Short>,
                    s': T.System, specs: map<Short, ConnectionSpec>)
    requires me.atLocal != peer.atLocal && T.Inv(s) && (T.Awaiting(s) ==> Sendable(s.up[0].entries))
    requires if me.atLocal then Agreed(specs, peer.Specs(), s) else Agreed(peer.Specs(), specs, s)
    requires if took then Leads(s, me.atLocal, connected, failed, s') else s' == s
    requires me.Respecified(s, took, specs) && peer.Ledger(s)
    ensures Follows(s, if took then [T.Deliver(me.atLocal, connected, failed)] else [], s')
    ensures SameSpecs(me, peer, s') && (me.atLocal ==> me.Specs() == specs) && peer.Ledger(s')
    ensures (T.Awaiting(s') ==> Sendable(s'.up[0].entries)) && (!peer.atLocal ==> s'.greeted == s.greeted)
  {
    hide T.Inv, Agreed, TunnelEnd.Specs, TunnelEnd.Respecified, TunnelEnd.Ledger, T.Awaiting, Sendable, Leads,
      SameSpecs,
      Follows;
    if took { ReadFollows(s, me.atLocal, connected, failed, s', peer); } else { NothingFollows(s); }
    SpecsAfterReading(me, peer, s, took, connected, failed, s', specs);
    if me.atLocal { LocalKeepsSpecs(me, s, took, specs); }
  }

  lemma NothingFollows(s: T.System)
    ensures Follows(s, [], s)
  {}

  lemma SpecsAfterReading(me: TunnelEnd, peer: TunnelEnd, s: T.System, took: bool, connected: bool, failed: set<Short>,
                          s': T.System, specs: map<Short, ConnectionSpec>)
    requires me.atLocal != peer.atLocal && T.Inv(s)
    requires if me.atLocal then Agreed(specs, peer.Specs(), s) else Agreed(peer.Specs(), specs, s)
    requires if took then Leads(s, me.atLocal, connected, failed, s') else s' == s
    requires me.Respecified(s, took, specs)
    ensures SameSpecs(me, peer, s')
  {
    hide TunnelEnd.Specs, Agreed, T.Inv;
    if took {
      TableIsFirst(s, me.atLocal, connected, failed);
      if T.Incoming(s, me.atLocal)[0].CreateTable? {
        AwaitingIsUngreeted(s);
        TableAgrees(peer.Specs(), specs, me.Specs(), s, s');
      } else if me.atLocal {
        StillAgreed(me.Specs(), peer.Specs(), s, T.Deliver(me.atLocal, connected, failed), s');
      } else {
        StillAgreed(peer.Specs(), me.Specs(), s, T.Deliver(me.atLocal, connected, failed), s');
      }
    }
  }

  lemma LocalKeepsSpecs(me: TunnelEnd, s: T.System, took: bool, specs: map<Short, ConnectionSpec>)
    requires me.atLocal && T.Inv(s) && me.Respecified(s, took, specs)
    ensures me.Specs() == specs
  {
    hide TunnelEnd.Specs, T.Inv;
    if s.down != [] { NoTableDown(s); }
  }

  /** A table comes in at the remote end only, and then as the first message. */
  lemma TableIsFirst(s: T.System, at: bool, connected: bool, failed: set<Short>)
    requires T.Inv(s) && T.Incoming(s, at) != []
    ensures var o := T.Step(s, T.Deliver(at, connected, failed));
      && o.Running?
      && (T.Incoming(s, at)[0].CreateTable? ==> !at && T.Awaiting(s) && o.s.greeted)
      && (!T.Incoming(s, at)[0].CreateTable? ==> o.s.greeted == s.greeted)
  {
    T.StepPreserves(s, T.Deliver(at, connected, failed));
    if T.Incoming(s, at)[0].OnLink? {
      Effects.Dispatched(s, at, connected, failed);
    } else if at {
      Effects.NoticeDoes(s, connected, failed);
      NoTableDown(s);
    } else {
      Effects.TableTaken(s, connected, failed);
    }
    hide T.Inv, T.Step, Receive, T.Awaiting;
  }

  lemma NoTableDown(s: T.System)
    requires T.Inv(s) && s.down != []
    ensures !s.down[0].CreateTable?
  {
    hide T.LinksFine, T.Complementary;
  }

  lemma ReceivedGrows(a: Moment, b: Moment)
    requires Whole(a) && Whole(b) && b.sent == a.sent && |a.received| <= |b.received|
    ensures a.received <= b.received && a.consumed <= a.emitted
  {
    hide Frames, Partial;
  }

  lemma AfterReading(me: TunnelEnd, peer: TunnelEnd, inn: Pipe, out: Pipe, s: T.System, s': T.System,
                     sent0: seq<Payload>)
    requires me.atLocal != peer.atLocal && T.Inv(s') && (T.Awaiting(s') ==> Sendable(s'.up[0].entries))
    requires peer.IsIn(s) && me.IsIn(s') && me.Ledger(s') && peer.Ledger(s') && SameSpecs(me, peer, s')
      && (!peer.atLocal ==> s'.greeted == s.greeted)
    requires Lane(peer, me, inn, s') && Unshared(me, peer, inn, out)
    requires var w, r := me.writer.stream, peer.reader;
      && r.Valid() && r.queue == [] && w.emitted == r.consumed + out.bytes
      && Fits(sent0, MAX_PAYLOAD) && LongEnough(sent0)
      && |r.received| <= |sent0| && Carries(sent0[|r.received|..], T.Incoming(s, peer.atLocal))
      && Answered(s, me.atLocal, s', sent0, w.sent) && Fits(w.sent[|sent0|..], MAX_PAYLOAD)
    ensures Coupled(me, peer, inn, out, s')
  {
    hide Coupled, T.Inv, T.Awaiting, TunnelEnd.IsIn, TunnelEnd.Ledger, Lane, Answered, Carries, TunnelEnd.Objects,
      TunnelEnd.Outs, TunnelEnd.Repr, TunnelEnd.Table, WriteStream.Valid, ReadStream.Valid, Fits, LongEnough, Unshared,
      SameSpecs;
    PeerUntouched(s, me.atLocal, s', sent0, me.writer.stream.sent);
    SameToPeer(peer, s, s');
    WriterReady(me, s');
    LaneGrows(me, peer, out, s, s', sent0);
    CoupledWhole(me, peer, inn, out, s');
  }

  lemma ReadFollows(s: T.System, at: bool, connected: bool, failed: set<Short>, s': T.System, peer: TunnelEnd)
    requires T.Inv(s) && Leads(s, at, connected, failed, s') && peer.Ledger(s) && peer.atLocal != at
    requires T.Awaiting(s) ==> Sendable(s.up[0].entries)
    ensures Follows(s, [T.Deliver(at, connected, failed)], s') && peer.Ledger(s')
    ensures T.Awaiting(s') ==> Sendable(s'.up[0].entries)
    ensures !peer.atLocal ==> s'.greeted == s.greeted
  {
    hide T.Inv, Booked, T.Awaiting, Sendable, T.DeliverUp, T.Dispatch, TunnelEnd.Given;
    DeliverBookedAtPeer(s, at, connected, failed, peer.Given());
    StillSendable(s, T.Deliver(at, connected, failed));
    DeliverIs(s, at, connected, failed);
    if at { DownGreetsNobody(s, connected, failed); }
    hide T.Step, FaultAt, ConnsAfter, Sends;
  }

  lemma DownGreetsNobody(s: T.System, connected: bool, failed: set<Short>)
    requires T.Inv(s) && T.Incoming(s, true) != []
    ensures var o := T.Step(s, T.Deliver(true, connected, failed)); o.Running? ==> o.s.greeted == s.greeted
  {
    hide T.Inv, Receive, T.Wrap, T.SetSlot;
  }

  // ---------------------------------------------------------------- runs

  lemma MeInRun(me: TunnelEnd, peer: TunnelEnd, inn: Pipe, out: Pipe, s: T.System)
    requires Coupled(me, peer, inn, out, s)
    ensures me.IsIn(s) && me.atLocal != peer.atLocal
    ensures peer.writer.stream.emitted == me.reader.consumed + inn.bytes
  {}

  /** One event at the end `me`. What cannot happen in the present state is passed over. */
  method Act(me: TunnelEnd, peer: TunnelEnd, inn: Pipe, out: Pipe, e: Event, ghost s: T.System)
    returns (ghost s': T.System, ghost actions: seq<T.Action>)
    requires Coupled(me, peer, inn, out, s) && Possible(e) && e.atLocal == me.atLocal
    modifies me.Repr(), inn, out, me.writer.stream.packets
    ensures Coupled(me, peer, inn, out, s') && Takes(old(Seen(me, peer, s)), e, actions, Seen(me, peer, s'))
    ensures peer.Specs() == old(peer.Specs()) && (me.atLocal ==> me.Specs() == old(me.Specs()))
    ensures fresh(me.Repr() - old(me.Repr())) && peer.Repr() == old(peer.Repr())
  {
    hide Coupled, T.Inv, T.Permitted, TunnelEnd.IsIn, TunnelEnd.Objects, TunnelEnd.Outs, TunnelEnd.Repr,
      TunnelEnd.Table, T.Step, T.Enabled, Relays, Turns, Frames, TunnelEnd.Specs,
      TunnelEnd.Places, MayListen, Taken, Begun, ToBoundary;
    MeInRun(me, peer, inn, out, s);
    me.ReprHas();
    me.OutsOutside();
    s', actions := s, [];
    match e {
      case Accept(_, cid, socket) =>
        me.AcceptIsPermitted(cid, s);
        PermittedIsMayListen(s, me.atLocal, cid);
        if me.MayAccept(cid) {
          s' := AcceptStep(me, peer, inn, out, cid, socket, s);
          actions := [T.Accept(me.atLocal, cid)];
        }
      case Poll(_, answer) =>
        ghost var a;
        s', a := PollStep(me, peer, inn, out, answer, s);
        actions := [a];
      case LinkReady(_, k, rd, count) =>
        me.ReadyIsDue(k, s);
        if me.Ready(k) != NOTHING {
          ghost var a;
          s', a := LinkStep(me, peer, inn, out, k, me.Ready(k), rd, count, s);
          actions := [a];
        }
      case Read(_, n1, n2, socket, connected, text, failed) =>
        if inn.bytes != [] {
          s', actions := ReadStep(me, peer, inn, out, n1, n2, socket, connected, text, failed, s);
        }
      case Write(_, writable, count) =>
        WriteStep(me, peer, inn, out, writable, count, s);
    }
  }

  lemma Turned(me: TunnelEnd, peer: TunnelEnd, inn: Pipe, out: Pipe, s: T.System)
    requires Coupled(me, peer, inn, out, s)
    ensures Coupled(peer, me, out, inn, s) && me.atLocal != peer.atLocal
  {
    hide T.Inv, TunnelEnd.IsIn, Lane, TunnelEnd.Ledger, TunnelEnd.Repr;
  }

  lemma {:induction false} RunFollows(start: T.System, actions: seq<T.Action>, s: T.System, more: seq<T.Action>,
                                      s': T.System)
    requires T.Schedule(start, actions) && T.Run(start, actions) == T.Running(s) && Follows(s, more, s')
    ensures T.Schedule(start, actions + more) && T.Run(start, actions + more) == T.Running(s')
    decreases |actions|
  {
    hide T.Step, T.Permitted, T.Enabled;
    if actions == [] {
      assert actions + more == more;
      if more != [] { assert more[1..] == []; }
    } else {
      assert (actions + more)[0] == actions[0] && (actions + more)[1..] == actions[1..] + more;
      PermittedIsEnabled(start, actions[0]);
      RunFollows(T.Step(start, actions[0]).s, actions[1..], s, more, s');
    }
  }

  /** A run, moment by moment as seen from the local end, and the actions each event takes. */
  datatype History = History(views: seq<View>, steps: seq<seq<T.Action>>)

  ghost predicate Happens(a: View, e: Event, actions: seq<T.Action>, b: View) {
    if e.atLocal then Takes(a, e, actions, b) else Takes(Across(a), e, actions, Across(b))
  }

  ghost predicate Tells(h: History, events: seq<Event>) {
    && |h.steps| == |events| && |h.views| == |events| + 1
    && (forall i :: 0 <= i < |events| ==> Happens(h.views[i], events[i], h.steps[i], h.views[i + 1]))
    && (forall i :: 0 <= i < |h.views| ==> Sound(h.views[i], true))
  }

  ghost function Actions(steps: seq<seq<T.Action>>): seq<T.Action> {
    if steps == [] then [] else Actions(steps[..|steps| - 1]) + steps[|steps| - 1]
  }

  /** The history is that of a run of module Tunnel. */
  ghost predicate IsRun(h: History) {
    && h.views != [] && T.Schedule(h.views[0].s, Actions(h.steps))
    && T.Run(h.views[0].s, Actions(h.steps)) == T.Running(Final(h).s)
  }

  ghost function Final(h: History): View
    requires h.views != []
  {
    h.views[|h.views| - 1]
  }

  lemma Sizes(h: History, events: seq<Event>)
    requires Tells(h, events)
    ensures |h.steps| == |events| && |h.views| == |events| + 1
  {}

  lemma TellsAt(h: History, events: seq<Event>, i: nat)
    requires Tells(h, events) && i < |events|
    ensures Happens(h.views[i], events[i], h.steps[i], h.views[i + 1]) && T.Inv(h.views[i].s)
  {
    assert Sound(h.views[i], true);
    hide Happens, T.Inv, Carried;
  }

  lemma TellsMore(h: History, events: seq<Event>, i: nat, actions: seq<T.Action>, v: View)
    requires i < |events| && Tells(h, events[..i]) && Happens(h.views[i], events[i], actions, v) && Sound(v, true)
    ensures Tells(History(h.views + [v], h.steps + [actions]), events[..i + 1])
  {
    hide Happens, Sound;
    assert forall j :: 0 <= j < i ==> events[..i + 1][j] == events[..i][j];
  }

  lemma HappensFollows(a: View, e: Event, actions: seq<T.Action>, b: View)
    requires Happens(a, e, actions, b)
    ensures Follows(a.s, actions, b.s)
  {
    hide Follows, OnlySends, OnlyReads, OnlyWrites, Turns, Relays;
  }

  lemma {:induction false} HistoryIsRun(h: History, events: seq<Event>, n: nat)
    requires Tells(h, events) && n <= |events|
    ensures var actions := Actions(h.steps[..n]);
      T.Schedule(h.views[0].s, actions) && T.Run(h.views[0].s, actions) == T.Running(h.views[n].s)
  {
    hide Tells, Happens, T.Schedule, T.Run, Follows, T.Inv;
    Sizes(h, events);
    if n == 0 {
      NoSteps(h.views[0].s);
    } else {
      HistoryIsRun(h, events, n - 1);
      TellsAt(h, events, n - 1);
      HappensFollows(h.views[n - 1], events[n - 1], h.steps[n - 1], h.views[n]);
      RunFollows(h.views[0].s, Actions(h.steps[..n - 1]), h.views[n - 1].s, h.steps[n - 1], h.views[n].s);
      assert h.steps[..n][..n - 1] == h.steps[..n - 1] && h.steps[..n][n - 1] == h.steps[n - 1];
    }
  }

  lemma WholeHistory(h: History, events: seq<Event>)
    requires Tells(h, events)
    ensures IsRun(h)
  {
    hide Tells, T.Schedule, T.Run, Actions;
    Sizes(h, events);
    HistoryIsRun(h, events, |events|);
    assert h.steps[..|events|] == h.steps;
  }

  /** What the objects do in any order of events: each event does what it says, all of them make a run of module
      Tunnel, and at its end the objects are where that run leads. */
  method Run(local: TunnelEnd, remote: TunnelEnd, down: Pipe, up: Pipe, events: seq<Event>, ghost s: T.System)
    returns (ghost h: History)
    requires Coupled(local, remote, down, up, s) && local.atLocal
    requires forall i :: 0 <= i < |events| ==> Possible(events[i])
    modifies local.Repr(), remote.Repr(), down, up,
      set p: WritePacket | allocated(p) && (p.home == local.writer.stream || p.home == remote.writer.stream)
    ensures Tells(h, events) && IsRun(h) && h.views[0] == old(Seen(local, remote, s))
    ensures Coupled(local, remote, down, up, Final(h).s) && Final(h) == Seen(local, remote, Final(h).s)
    ensures local.Specs() == old(local.Specs())
  {
    hide TunnelEnd.Specs, Coupled, T.Schedule, T.Run, TunnelEnd.Repr, Tells, Happens, Takes, Possible, Seen, Across,
      Sound, IsRun;
    SeenIsSound(local, remote, down, up, s);
    TellsNothing(Seen(local, remote, s));
    h := History([Seen(local, remote, s)], []);
    SeenIs(local, remote, s);
    for i := 0 to |events|
      invariant |h.views| == i + 1 && Tells(h, events[..i]) && h.views[0] == old(Seen(local, remote, s))
      invariant Coupled(local, remote, down, up, Final(h).s) && Final(h) == Seen(local, remote, Final(h).s)
      invariant local.Specs() == old(local.Specs())
      invariant forall o :: o in local.Repr() && o !in old(local.Repr()) ==> fresh(o)
      invariant forall o :: o in remote.Repr() && o !in old(remote.Repr()) ==> fresh(o)
    {
      ghost var s1, more;
      ghost var mine, theirs := local.Repr(), remote.Repr();
      PacketsHome(local, remote, down, up, Final(h).s);
      label Before:
      s1, more := Next(local, remote, down, up, events[i], Final(h).s);
      forall o | o in local.Repr() && o !in old(local.Repr()) ensures fresh(o) {
        if o !in mine {
          assert !old@Before(allocated(o));
          assert old(allocated(o)) ==> old@Before(allocated(o));
        }
      }
      forall o | o in remote.Repr() && o !in old(remote.Repr()) ensures fresh(o) {
        if o !in theirs {
          assert !old@Before(allocated(o));
          assert old(allocated(o)) ==> old@Before(allocated(o));
        }
      }
      TellsMore(h, events, i, more, Seen(local, remote, s1));
      h := History(h.views + [Seen(local, remote, s1)], h.steps + [more]);
      SeenIs(local, remote, s1);
    }
    assert events[..|events|] == events;
    WholeHistory(h, events);
  }

  lemma SeenIs(local: TunnelEnd, remote: TunnelEnd, s: T.System)
    ensures Seen(local, remote, s).s == s && Across(Seen(local, remote, s)) == Seen(remote, local, s)
  {}

  lemma TellsNothing(v: View)
    requires Sound(v, true)
    ensures Tells(History([v], []), []) && Final(History([v], [])) == v
  {
    hide Sound;
  }

  /** One event at one of the two ends. */
  method Next(local: TunnelEnd, remote: TunnelEnd, down: Pipe, up: Pipe, e: Event, ghost s: T.System)
    returns (ghost s': T.System, ghost actions: seq<T.Action>)
    requires Coupled(local, remote, down, up, s) && local.atLocal && Possible(e)
    modifies local.Repr(), remote.Repr(), down, up, local.writer.stream.packets, remote.writer.stream.packets
    ensures Coupled(local, remote, down, up, s') && Sound(Seen(local, remote, s'), true)
    ensures Happens(old(Seen(local, remote, s)), e, actions, Seen(local, remote, s'))
    ensures local.Specs() == old(local.Specs())
    ensures fresh(local.Repr() - old(local.Repr())) && fresh(remote.Repr() - old(remote.Repr()))
  {
    hide TunnelEnd.Specs, Coupled, TunnelEnd.Repr, Takes, Possible, Seen, Across, Sound;
    Turned(local, remote, down, up, s);
    SeenIs(local, remote, s);
    if e.atLocal {
      s', actions := Act(local, remote, down, up, e, s);
    } else {
      s', actions := Act(remote, local, up, down, e, s);
      Turned(remote, local, up, down, s');
    }
    SeenIs(local, remote, s');
    SeenIsSound(local, remote, down, up, s');
  }

  lemma PacketsHome(me: TunnelEnd, peer: TunnelEnd, inn: Pipe, out: Pipe, s: T.System)
    requires Coupled(me, peer, inn, out, s)
    ensures forall i :: 0 <= i < |me.writer.stream.packets| ==> me.writer.stream.packets[i].home == me.writer.stream
    ensures forall i :: 0 <= i < |peer.writer.stream.packets| ==>
      peer.writer.stream.packets[i].home == peer.writer.stream
  {
    CoupledParts(me, peer, inn, out, s);
    hide Coupled, TunnelEnd.IsIn, Lane, TunnelEnd.Ledger, Unshared, Frames;
    WriterReady(me, s);
    WriterReady(peer, s);
  }

  /** What the event e adds to what has been read from the socket of link k at the end `at`: what read() returned,
      if the link's turn has come with something to read; a listener that hands out the id begins it anew. */
  ghost function ReadMore(s: T.System, e: Event, at: bool, k: T.Key, read: seq<Byte>): seq<Byte> {
    match e
    case Accept(end, cid, _) =>
      if MayListen(T.ConnsAt(s, end), cid) && T.NextKey(T.ConnsAt(s, end), cid) == k then [] else read
    case LinkReady(end, j, rd, _) =>
      if end == at && j == k && rd.Bytes? && Reporting(s, at, k).pin then read + rd.data else read
    case _ => read
  }

  /** All that the first n events have read there. */
  ghost function ReadBy(h: History, events: seq<Event>, at: bool, k: T.Key, n: nat): seq<Byte>
    requires n <= |events| < |h.views|
  {
    if n == 0 then [] else ReadMore(h.views[n - 1].s, events[n - 1], at, k, ReadBy(h, events, at, k, n - 1))
  }

  lemma OneRead(a: View, e: Event, actions: seq<T.Action>, b: View, at: bool, k: T.Key)
    requires Happens(a, e, actions, b) && T.Inv(a.s) && k.cid in a.s.local
    ensures k.cid in b.s.local && T.ReadAt(b.s, at, k) == ReadMore(a.s, e, at, k, T.ReadAt(a.s, at, k))
  {
    hide T.Inv, T.Permitted, T.Step, T.ReadAt, OnlySends, OnlyReads, OnlyWrites, Relays, T.NextKey, ToShort,
      WritesSome;
    if e.Accept? { PermittedIsMayListen(a.s, e.atLocal, e.cid); }
    if actions != [] {
      StepReads(a.s, actions[0], at, k);
    }
  }

  /** What module Tunnel has on record as read is what the events have read. */
  lemma {:induction false} ReadByIs(h: History, events: seq<Event>, at: bool, k: T.Key, n: nat)
    requires Tells(h, events) && n <= |events| && T.Init(h.views[0].s) && k.cid in h.views[0].s.local
    ensures k.cid in h.views[n].s.local && T.ReadAt(h.views[n].s, at, k) == ReadBy(h, events, at, k, n)
  {
    hide Tells, Happens, T.Init, T.Inv, T.ReadAt, ReadMore;
    Sizes(h, events);
    if n == 0 {
      NothingReadYet(h.views[0].s, at, k);
    } else {
      ReadByIs(h, events, at, k, n - 1);
      TellsAt(h, events, n - 1);
      OneRead(h.views[n - 1], events[n - 1], h.steps[n - 1], h.views[n], at, k);
    }
  }

  /** The view from the end `at`. */
  ghost function ViewFrom(h: History, at: bool, i: nat): View
    requires i < |h.views|
  {
    if at then h.views[i] else Across(h.views[i])
  }

  ghost predicate Held(s: T.System, at: bool, k: T.Key) {
    T.SlotOf(T.ConnsAt(s, at), k).Some? && T.SlotOf(T.ConnsAt(s, at), k).value.registered
  }

  /** Nothing at the end `at` that would take the report on link k away: no further poll(), and not its turn. */
  predicate Elsewhere(e: Event, at: bool, k: T.Key) {
    !(e.Poll? && e.atLocal == at) && !(e.LinkReady? && e.atLocal == at && e.key == k)
  }

  /** If poll() finds input at the socket of a link that waits for it, the link's next turn in that round, while the
      Poller still holds it, reads what there is, whatever happens in between; and that is sent on. */
  lemma InputIsRead(h: History, events: seq<Event>, i: nat, j: nat, at: bool, k: T.Key)
    requires Tells(h, events) && i < j < |events|
    requires events[i].Poll? && events[i].atLocal == at && k in ViewFrom(h, at, i).mine
    requires Held(h.views[i].s, at, k) && T.SlotOf(T.ConnsAt(h.views[i].s, at), k).value.events.pin
    requires events[i].answer(ViewFrom(h, at, i).mine[k]).pin
    requires forall m :: i < m < j ==> Elsewhere(events[m], at, k)
    requires forall m :: i < m <= j ==> Held(h.views[m].s, at, k)
    requires events[j].LinkReady? && events[j].atLocal == at && events[j].key == k && events[j].rd.Bytes?
    ensures |h.steps[j]| == 1 && h.steps[j][0].LinkPolled? && h.steps[j][0].atLocal == at && h.steps[j][0].key == k
    ensures h.steps[j][0].rd == events[j].rd
    ensures ReadBy(h, events, at, k, j + 1) == ReadBy(h, events, at, k, j) + events[j].rd.data
  {
    Sizes(h, events);
    TellsAt(h, events, i);
    TellsAt(h, events, j);
    InputReported(ViewFrom(h, at, i), events[i], h.steps[i], ViewFrom(h, at, i + 1), at, k);
    ReportLasts(h, events, i, j, at, k);
    TurnTaken(ViewFrom(h, at, j), events[j], h.steps[j], ViewFrom(h, at, j + 1), at, k);
    hide Tells, Takes, T.Inv, T.Permitted, T.NextKey, Reporting, Held;
  }

  lemma InputReported(a: View, e: Event, actions: seq<T.Action>, b: View, at: bool, k: T.Key)
    requires Takes(a, e, actions, b) && e.Poll? && e.atLocal == at && k in a.mine && e.answer(a.mine[k]).pin
    requires Held(a.s, at, k) && T.SlotOf(T.ConnsAt(a.s, at), k).value.events.pin
    ensures Reporting(b.s, at, k).pin
  {
    PermittedIsEnabled(a.s, actions[0]);
    Effects.PollDoes(a.s, at, actions[0].reports);
    hide T.Step, T.Permitted;
  }

  lemma TurnTaken(a: View, e: Event, actions: seq<T.Action>, b: View, at: bool, k: T.Key)
    requires Takes(a, e, actions, b) && e.LinkReady? && e.atLocal == at && e.key == k && Reporting(a.s, at, k).pin
    ensures |actions| == 1 && actions[0].LinkPolled? && actions[0].atLocal == at && actions[0].key == k
    ensures actions[0].rd == e.rd
  {
    hide Follows, OnlySends;
  }

  lemma {:induction false} ReportLasts(h: History, events: seq<Event>, i: nat, j: nat, at: bool, k: T.Key)
    requires Tells(h, events) && i < j < |events| && Reporting(h.views[i + 1].s, at, k).pin
    requires forall m :: i < m < j ==> Elsewhere(events[m], at, k)
    requires forall m :: i < m <= j ==> Held(h.views[m].s, at, k)
    ensures Reporting(h.views[j].s, at, k).pin
    decreases j
  {
    hide Tells, Happens, T.Inv, Elsewhere, Held, Reporting;
    Sizes(h, events);
    if i + 1 < j {
      ReportLasts(h, events, i, j - 1, at, k);
      TellsAt(h, events, j - 1);
      assert Held(h.views[j - 1].s, at, k) && Held(h.views[j].s, at, k) && Elsewhere(events[j - 1], at, k);
      OneLasts(h.views[j - 1], events[j - 1], h.steps[j - 1], h.views[j], at, k);
    }
  }

  lemma OneLasts(a: View, e: Event, actions: seq<T.Action>, b: View, at: bool, k: T.Key)
    requires Happens(a, e, actions, b) && T.Inv(a.s) && Elsewhere(e, at, k)
    requires Held(a.s, at, k) && Held(b.s, at, k) && Reporting(a.s, at, k).pin
    ensures Reporting(b.s, at, k).pin
  {
    hide T.Inv, T.Permitted, T.Step, OnlySends, OnlyReads, OnlyWrites, Relays, WritesSome;
    if actions != [] {
      Effects.ReportStays(a.s, actions[0], at, k);
    }
  }

  lemma NothingReadYet(s: T.System, at: bool, k: T.Key)
    requires T.Init(s) && k.cid in s.local
    ensures T.ReadAt(s, at, k) == []
  {}

  /** For every link the Poller of this end holds, what the events have read from its socket at the other end is what
      is written here, then what is buffered here, then what is in messages on their way. */
  ghost predicate Accounted(me: TunnelEnd, h: History, events: seq<Event>)
    requires |events| < |h.views|
    reads me, me.connections.Values, me.writer.poller, me.Outs(), me.Buffers()
  {
    forall k :: k in me.Table() && me.Holds(k) ==>
      me.Accounts(k, ReadBy(h, events, !me.atLocal, k, |events|),
                  Protocol.Data(T.Only(T.Incoming(Final(h).s, me.atLocal), k)))
  }

  /** End to end, on the objects: after any run, for every link that an end's Poller holds, the bytes the events
      have read from its socket at the other end are those given to this end's socket, then those in the link's
      buffer, then those in packets on their way, of which every byte is in a writer's packet, in the pipe, or in
      the reader's partial frame. */
  lemma SocketsConserved(me: TunnelEnd, peer: TunnelEnd, inn: Pipe, out: Pipe, h: History, events: seq<Event>)
    requires Tells(h, events) && T.Init(h.views[0].s) && Coupled(me, peer, inn, out, Final(h).s)
    ensures Accounted(me, h, events)
    ensures var sent, received := peer.writer.stream.sent, me.reader.received;
      && received <= sent && Carries(sent[|received|..], T.Incoming(Final(h).s, me.atLocal))
      && peer.writer.stream.emitted == me.reader.consumed + inn.bytes
  {
    CoupledParts(me, peer, inn, out, Final(h).s);
    LaneIs(peer, me, inn, Final(h).s);
    Delivered(peer.writer.stream, me.reader, inn);
    Sizes(h, events);
    WholeHistory(h, events);
    hide Coupled, TunnelEnd.IsIn, Lane, TunnelEnd.Ledger, Unshared, T.Schedule, T.Run, T.Init, TunnelEnd.Accounts,
      TunnelEnd.Table, TunnelEnd.Holds, T.ReadAt, Carries, T.Only, Protocol.Data, Tells;
    forall k | k in me.Table() && me.Holds(k)
      ensures me.Accounts(k, ReadBy(h, events, !me.atLocal, k, |events|),
                          Protocol.Data(T.Only(T.Incoming(Final(h).s, me.atLocal), k)))
    {
      LinkAccounted(me, h.views[0].s, Actions(h.steps), Final(h).s, k);
      ReadByIs(h, events, !me.atLocal, k, |events|);
    }
  }

  lemma LinkAccounted(me: TunnelEnd, start: T.System, actions: seq<T.Action>, s: T.System, k: T.Key)
    requires me.IsIn(s) && me.Ledger(s) && k in me.Table() && me.Holds(k)
    requires T.Init(start) && T.Schedule(start, actions) && T.Run(start, actions) == T.Running(s)
    ensures k.cid in s.local && k.cid in start.local
    ensures me.Accounts(k, T.ReadAt(s, !me.atLocal, k), Protocol.Data(T.Only(T.Incoming(s, me.atLocal), k)))
  {
    hide TunnelEnd.IsIn, TunnelEnd.Ledger, T.Schedule, T.Run, T.Init, TunnelEnd.Accounts, TunnelEnd.Table,
      TunnelEnd.Holds, T.ReadAt, T.WrittenAt, T.Only, Protocol.Data, T.Inv;
    me.HeldLink(k, s, Protocol.Data(T.Only(T.Incoming(s, me.atLocal), k)));
    T.InitIsInv(start);
    T.LocalStays(start, actions);
    T.EveryRunIsSafe(start, actions);
    T.EndToEndConservation(start, actions, me.atLocal, k);
    T.WatchedIsHealthy(s, me.atLocal, k);
  }

  // ---------------------------------------------------------------- the beginning

  /** An end as made, before anything has happened. */
  ghost predicate Unused(e: TunnelEnd)
    reads e, e.connections.Values, e.Objects(), e.writer, e.writer.stream, e.writer.stream.packets, e.writer.poller,
          e.reader, e.reader.readBuf
  {
    && e.connections == map[] && e.due == {} && !e.greeted && e.Valid() && e.Tidy()
    && e.writer.stream.sent == [] && e.writer.stream.emitted == []
    && e.reader.Valid() && e.reader.queue == [] && e.reader.received == [] && e.reader.consumed == []
  }

  /** What the command line may ask for. */
  ghost predicate Askable(specs: seq<ConnectionSpec>) {
    |specs| <= 0x7fff
    && forall spec :: spec in specs ==> spec.direction in {LISTEN, CONNECT} && |spec.host| < LONG_LIMIT
  }

  lemma StartIsGood(specs: seq<ConnectionSpec>, failed: set<Short>)
    requires Askable(specs)
    ensures var es := Requested(specs, failed);
      Sendable(es) && T.Init(T.StartState(es)) && T.Inv(T.StartState(es))
  {
    RequestedAre(specs, failed);
    var es := Requested(specs, failed);
    hide T.Init, T.Inv, T.StartState, Requested;
    T.StartIsInit(es);
    T.InitIsInv(T.StartState(es));
  }

  /** Nobody has been given anything yet. */
  lemma NothingGiven(e: TunnelEnd, s: T.System)
    requires e.Table() == map[] && T.Init(s)
    ensures e.Ledger(s)
  {
    e.GivenIs();
    hide TunnelEnd.Given, TunnelEnd.Table;
    assert e.Given() == map[];
  }

  lemma NobodyThere(e: TunnelEnd, s: T.System)
    requires Unused(e) && T.ConnsAt(s, e.atLocal) == map[] && !s.greeted
    ensures e.IsIn(s) && e.Table() == map[]
  {
    hide TunnelEnd.Valid, TunnelEnd.Tidy;
    assert e.Real() == map[];
  }

  lemma StartAgrees(local: TunnelEnd, remote: TunnelEnd, s: T.System, entries: seq<Entry>)
    requires local.atLocal && local.Specified(entries)
    requires s.up == [T.CreateTable(entries)] && !s.greeted
    ensures SameSpecs(local, remote, s)
  {
    hide T.Awaiting, Specifies;
  }

  lemma StartIs(entries: seq<Entry>)
    ensures var s := T.HandshakeSent(T.Started(entries), entries);
      && s == T.StartState(entries) && s.up == [T.CreateTable(entries)] && s.down == [] && s.remote == map[]
        && !s.greeted
  {}

  /** The table is the only packet sent, and nothing of it has arrived. */
  lemma TableOnItsWay(from: TunnelEnd, to: TunnelEnd, pipe: Pipe, s: T.System, entries: seq<Entry>)
    requires var w, r := from.writer.stream, to.reader;
      && w.Valid() && r.Valid() && r.queue == [] && w.queue == [] && w.emitted == [] && r.consumed == []
        && r.received == []
      && w.sent == [PutMsg(T.CreateTable(entries), [])] && pipe.bytes == []
    requires |PutMsg(T.CreateTable(entries), [])| <= MAX_PAYLOAD
      && T.Incoming(s, to.atLocal) == [T.CreateTable(entries)]
    ensures Lane(from, to, pipe, s)
  {
    hide WriteStream.Valid, ReadStream.Valid, PutMsg, Carries;
    OneCarries(T.CreateTable(entries), []);
    var sent := from.writer.stream.sent;
    assert sent[0..] == sent;
    CarriedIsLong(sent, [T.CreateTable(entries)]);
  }

  lemma NothingOnItsWay(from: TunnelEnd, to: TunnelEnd, pipe: Pipe, s: T.System)
    requires var w, r := from.writer.stream, to.reader;
      && w.Valid() && r.Valid() && r.queue == [] && w.queue == [] && w.emitted == [] && r.consumed == []
        && r.received == []
      && w.sent == [] && pipe.bytes == []
    requires T.Incoming(s, to.atLocal) == []
    ensures Lane(from, to, pipe, s)
  {
    hide WriteStream.Valid, ReadStream.Valid;
  }

  /** What is to be seen when handshaking starts: the table has been sent and nothing has moved. */
  ghost function FirstView(es: seq<Entry>): View {
    View(T.StartState(es), Moment([PutMsg(T.CreateTable(es), [])], [], [], []), Moment([], [], [], []), map[], map[])
  }

  /** An end whose start() has made the connections of these entries, before anything has been sent. */
  ghost predicate Prepared(e: TunnelEnd, entries: seq<Entry>)
    reads e, e.connections.Values, e.Objects(), e.writer, e.writer.stream, e.writer.stream.packets, e.writer.poller,
          e.reader, e.reader.readBuf
  {
    && e.IsIn(T.Started(entries)) && e.Specified(entries) && e.Table() == map[]
    && e.writer.stream.sent == [] && e.writer.stream.emitted == []
    && e.reader.Valid() && e.reader.queue == [] && e.reader.received == [] && e.reader.consumed == []
  }

  lemma NoPackets(w: WriteStream)
    requires w.Valid() && w.sent == []
    ensures w.packets == []
  {}

  lemma NothingToSend(e: TunnelEnd, entries: seq<Entry>)
    requires Unused(e) || Prepared(e, entries)
    ensures e.writer.stream.packets == []
  {
    hide TunnelEnd.Tidy, TunnelEnd.BuffersApart, TunnelConnection.Valid, TunnelEnd.Real;
    NoPackets(e.writer.stream);
  }

  /** start(), as far as it makes connections. */
  method Prepare(local: TunnelEnd, specs: seq<ConnectionSpec>, failed: set<Short>) returns (ghost entries: seq<Entry>)
    requires local.atLocal && Unused(local) && |specs| <= 0x7fff
    modifies local`connections
    ensures entries == Requested(specs, failed) && Prepared(local, entries) && local.AsAsked(specs, failed)
    ensures fresh(local.Repr() - old(local.Repr()))
  {
    hide TunnelEnd.IsIn, TunnelEnd.Repr, TunnelEnd.Table, TunnelEnd.Valid, TunnelEnd.Tidy, TunnelEnd.Objects,
      TunnelEnd.Outs, Requested, TunnelEnd.Specified, WriteStream.Valid, ReadStream.Valid;
    ghost var repr := local.Repr();
    local.ReprHas();
    entries := local.MakeConnections(specs, failed);
    forall o | o in local.Repr() && o !in repr ensures fresh(o) {
      local.ReprIs(o);
    }
  }

  /** startHandshaking at the local end, while the remote end has not been heard of. */
  method Open(local: TunnelEnd, remote: TunnelEnd, down: Pipe, up: Pipe, ghost entries: seq<Entry>)
    returns (ghost s: T.System)
    requires local.atLocal && !remote.atLocal && Prepared(local, entries) && Unused(remote)
    requires Unshared(local, remote, down, up) && up.bytes == [] && down.bytes == []
    requires Sendable(entries) && T.Init(T.StartState(entries)) && T.Inv(T.StartState(entries))
    requires |PutMsg(T.CreateTable(entries), [])| <= MAX_PAYLOAD
    modifies local.writer.stream`queue, local.writer.stream`packets, local.writer.stream`sent,
      local.writer.poller`polled
    ensures s == T.StartState(entries) && Coupled(local, remote, down, up, s)
    ensures Seen(local, remote, s) == FirstView(entries)
    ensures local.Repr() == old(local.Repr()) && remote.Repr() == old(remote.Repr())
  {
    hide T.Init, T.Inv, T.Started, T.HandshakeSent, TunnelEnd.IsIn, TunnelEnd.Repr, TunnelEnd.Table, TunnelEnd.Valid,
      TunnelEnd.Tidy, TunnelEnd.Objects, TunnelEnd.Outs, PutMsg, TunnelEnd.Specified, WriteStream.Valid,
      ReadStream.Valid, TunnelEnd.Ledger, Lane, SameSpecs;
    local.ReprHas();
    remote.ReprHas();
    s := local.StartHandshaking(T.Started(entries), entries);
    StartIs(entries);
    NothingGiven(local, s);
    NobodyThere(remote, s);
    NothingGiven(remote, s);
    WriterReady(local, s);
    WriterReady(remote, s);
    TableOnItsWay(local, remote, up, s, entries);
    NothingOnItsWay(remote, local, down, s);
    StartAgrees(local, remote, s, entries);
    CoupledWhole(local, remote, down, up, s);
  }

  /** start() at the local end, the pass-through state until the greeting is recognised, and startHandshaking, while
      the remote end has written its greeting after whatever the login has written. */
  method Begin(local: TunnelEnd, remote: TunnelEnd, down: Pipe, up: Pipe, specs: seq<ConnectionSpec>,
               failed: set<Short>, detector: Magic.MagicStringDetector, counts: seq<nat>, ghost noise: seq<Byte>)
    returns (ghost s: T.System)
    requires local.atLocal && !remote.atLocal && Unused(local) && Unused(remote) && Unshared(local, remote, down, up)
    requires (detector as object) !in local.Repr() + remote.Repr()
    requires detector.View() == Magic.START && !Magic.FeedAll(detector.wanted, Magic.START, noise).detected
    requires up.bytes == [] && down.bytes == noise + Magic.Greeting()
    requires |specs| <= 0x7fff && Askable(specs) && |PutMsg(T.CreateTable(Requested(specs, failed)), [])| <= MAX_PAYLOAD
    modifies local`connections, local.writer.stream`queue, local.writer.stream`packets, local.writer.stream`sent,
      local.writer.poller`polled, detector, down
    ensures detector.handshaking <==>
              down.bytes == [] && Magic.FeedAll(detector.wanted, Magic.START, noise).count == 0
    ensures |counts| >= |noise| + |Magic.Greeting()| && (forall i :: 0 <= i < |counts| ==> counts[i] > 0) ==>
              down.bytes == []
    ensures detector.handshaking ==>
      && s == T.StartState(Requested(specs, failed)) && T.Init(s) && Coupled(local, remote, down, up, s)
      && Seen(local, remote, s) == FirstView(Requested(specs, failed)) && local.AsAsked(specs, failed)
    ensures fresh(local.Repr() - old(local.Repr())) && remote.Repr() == old(remote.Repr())
  {
    hide T.Init, T.Inv, Prepared, Unused, TunnelEnd.Repr, TunnelEnd.Objects, Requested, Askable, PutMsg, Magic.FeedAll,
      Magic.Greeting, Coupled, Seen, FirstView, TunnelEnd.IsIn, TunnelEnd.AsAsked;
    local.ReprHas();
    remote.ReprHas();
    StartIsGood(specs, failed);
    NothingToSend(remote, []);
    ghost var entries := Prepare(local, specs, failed);
    s := T.StartState(entries);
    local.ReprHas();
    NothingToSend(local, entries);
    Handshake.AwaitGreeting(detector, down, counts, noise);
    if detector.handshaking {
      s := Open(local, remote, down, up, entries);
    }
  }

  /** From the command line on: whatever happens afterwards, in any order, no callback meets a fault, and every
      byte read from a socket is accounted for as long as the Poller holds the link at the other end. */
  method Play(local: TunnelEnd, remote: TunnelEnd, down: Pipe, up: Pipe, specs: seq<ConnectionSpec>,
              failed: set<Short>, detector: Magic.MagicStringDetector, counts: seq<nat>, ghost noise: seq<Byte>,
              events: seq<Event>)
    returns (ghost h: History)
    requires local.atLocal && !remote.atLocal && Unused(local) && Unused(remote) && Unshared(local, remote, down, up)
    requires (detector as object) !in local.Repr() + remote.Repr()
    requires detector.View() == Magic.START && !Magic.FeedAll(detector.wanted, Magic.START, noise).detected
    requires up.bytes == [] && down.bytes == noise + Magic.Greeting()
    requires |specs| <= 0x7fff && Askable(specs) && |PutMsg(T.CreateTable(Requested(specs, failed)), [])| <= MAX_PAYLOAD
    requires forall i :: 0 <= i < |events| ==> Possible(events[i])
    modifies local.Repr(), remote.Repr(), down, up, detector,
      set p: WritePacket | allocated(p) && (p.home == local.writer.stream || p.home == remote.writer.stream)
    ensures |counts| >= |noise| + |Magic.Greeting()| && (forall i :: 0 <= i < |counts| ==> counts[i] > 0) ==>
              (detector.handshaking <==> Magic.FeedAll(detector.wanted, Magic.START, noise).count == 0)
    ensures detector.handshaking ==> Magic.FeedAll(detector.wanted, Magic.START, noise).count == 0
    ensures detector.handshaking ==>
      && Tells(h, events) && IsRun(h)
      && h.views[0] == FirstView(Requested(specs, failed)) && T.Init(h.views[0].s)
      && Final(h) == Seen(local, remote, Final(h).s) && Coupled(local, remote, down, up, Final(h).s)
      && Accounted(local, h, events) && Accounted(remote, h, events)
      && AllMade(local.Specs(), specs, failed) && InPlace(specs, failed, Final(h).s)
  {
    hide Coupled, T.Schedule, T.Run, T.Init, T.StartState, TunnelEnd.Repr, Possible, PutMsg, Requested, Accounted,
      TunnelEnd.IsIn, TunnelEnd.Ledger, Unused, Unshared, Lane, T.Inv, Tells, IsRun, Magic.FeedAll, Magic.Greeting,
      Seen, FirstView, AllMade, InPlace, TunnelEnd.Specs;
    h := History([], []);
    local.ReprHas();
    ghost var start := Begin(local, remote, down, up, specs, failed, detector, counts, noise);
    if detector.handshaking {
      h := Run(local, remote, down, up, events, start);
      Sizes(h, events);
      FirstIsStart(Requested(specs, failed));
      SocketsConserved(local, remote, down, up, h, events);
      Turned(local, remote, down, up, Final(h).s);
      SocketsConserved(remote, local, up, down, h, events);
      AllInPlace(specs, failed, h);
    }
  }

  /** The connections of both ends: each one asked for is listened for at the end its direction says, and connected from
      the other one; see Effects.Roles. */
  ghost predicate InPlace(specs: seq<ConnectionSpec>, failed: set<Short>, s: T.System) {
    && (forall i: Short :: 0 <= i < |specs| ==>
          if specs[i].direction == CONNECT && i in failed then i !in s.local && i !in s.remote
          else Effects.Roles(s, (i, specs[i])))
    && (forall i :: i in s.local ==> 0 <= i < |specs|) && (forall i :: i in s.remote ==> i in s.local)
  }

  lemma AllInPlace(specs: seq<ConnectionSpec>, failed: set<Short>, h: History)
    requires |specs| <= 0x7fff && h.views != [] && h.views[0].s == T.StartState(Requested(specs, failed))
    requires T.Init(h.views[0].s) && IsRun(h)
    ensures InPlace(specs, failed, Final(h).s)
  {
    var es, s := Requested(specs, failed), Final(h).s;
    Effects.RolesFollowDirection(h.views[0].s, Actions(h.steps));
    RequestedExactly(specs, failed);
    StartIs(es);
    hide T.Init, T.StartState, IsRun, Requested, T.Schedule, T.Run, Effects.Roles;
    forall i: Short | 0 <= i < |specs| && (i, specs[i]) in es ensures Effects.Roles(s, (i, specs[i])) {
      var j :| 0 <= j < |es| && es[j] == (i, specs[i]);
    }
    forall i | i in s.local ensures 0 <= i < |specs| && (i, specs[i]) in es {
      var j :| 0 <= j < |es| && es[j].0 == i;
      assert es[j] in es;
    }
  }

  lemma FirstIsStart(es: seq<Entry>)
    ensures FirstView(es).s == T.StartState(es)
  {}

  lemma NoSteps(s: T.System)
    ensures T.Schedule(s, []) && T.Run(s, []) == T.Running(s)
  {}

  // ---------------------------------------------------------------- from nothing

  /** What the Poller calls for the descriptors of the pipe: StdioTunnelLocal or StdioTunnelRemote itself. */
  class Process {}

  method MakeWriter(fd: int) returns (writer: CustomWriteStream)
    ensures writer.Valid() && writer.stream.sent == [] && writer.stream.emitted == []
    ensures !(writer.owner is ConnectionLink) && HoldsOnly(writer.poller.polled, {})
    ensures fresh({writer as object, writer.stream, writer.poller, writer.poller.pollfds})
    ensures writer.poller.pollfds.Length > 0
  {
    var owner := new Process;
    var poller := new Poller();
    poller.AddPolled(owner, fd, NOTHING);
    writer := new CustomWriteStream(poller, owner, fd);
    assert writer.stream.emitted == Frames([]);
  }

  method Make(atLocal: bool, fd: int) returns (e: TunnelEnd)
    ensures Unused(e) && e.atLocal == atLocal && e.writer.poller.pollfds.Length > 0 && fresh(e.Repr())
  {
    hide WriteStream.Valid, CustomWriteStream.Valid, ReadStream.Valid, TunnelEnd.Valid, TunnelEnd.Repr, TunnelEnd.Tidy,
      TunnelEnd.Objects, TunnelEnd.Shows, TunnelEnd.BuffersApart, HoldsOnly;
    var writer := MakeWriter(fd);
    var reader := new ReadStream();
    e := new TunnelEnd(atLocal, reader, writer);
    NoLinksYet(e);
    forall o | o in e.Repr() ensures fresh(o) {
      e.ReprIs(o);
    }
  }

  lemma NoLinksYet(e: TunnelEnd)
    requires e.connections == map[]
    ensures e.Table() == map[]
  {}

  /** Both ends as made, and the bytes between them: the login has written what it has, the remote end's start() its
      greeting. */
  method MakeBoth(fd: int, noise: seq<Byte>)
    returns (local: TunnelEnd, remote: TunnelEnd, down: Pipe, up: Pipe)
    ensures local.atLocal && !remote.atLocal && Unused(local) && Unused(remote) && Unshared(local, remote, down, up)
    ensures up.bytes == [] && down.bytes == noise + Magic.Greeting() && fresh({down as object, up})
    ensures fresh(local.Repr()) && fresh(remote.Repr()) && fresh({local.writer.stream as object, remote.writer.stream})
  {
    hide TunnelEnd.Repr, TunnelEnd.Valid, TunnelEnd.Tidy, TunnelEnd.Objects, ReadStream.Valid, Magic.Greeting;
    up := new Pipe(null);
    down := Written(noise);
    local := Make(true, fd);
    local.ReprHas();
    remote := Make(false, fd);
    remote.ReprHas();
  }

  method Written(noise: seq<Byte>) returns (down: Pipe)
    ensures fresh(down) && down.bytes == noise + Magic.Greeting()
  {
    hide Magic.Greeting;
    down := new Pipe(null);
    var _ := down.Write(noise, |noise|);
    var _ := down.Write(Magic.Greeting(), |Magic.Greeting()|);
    assert noise[..|noise|] == noise && Magic.Greeting()[..|Magic.Greeting()|] == Magic.Greeting();
  }

  /** The whole program for any command line, any noise of the login that is no greeting itself, and any events: two
      ends are made, the greeting follows the noise, and if it is recognised the table is exchanged and whatever
      can happen happens. It is recognised, once all of it is read, exactly if the noise leaves the matcher's
      counter at zero. */
  method Tunnel(fd: int, specs: seq<ConnectionSpec>, failed: set<Short>, pattern: seq<Byte>, hasCommand: bool,
                noise: seq<Byte>, counts: seq<nat>, events: seq<Event>)
    returns (greeted: bool, local: TunnelEnd, remote: TunnelEnd, down: Pipe, up: Pipe, ghost h: History)
    requires |specs| <= 0x7fff && Askable(specs) && |PutMsg(T.CreateTable(Requested(specs, failed)), [])| <= MAX_PAYLOAD
    requires !Magic.FeedAll(Magic.Wanted(pattern, hasCommand), Magic.START, noise).detected
    requires forall i :: 0 <= i < |events| ==> Possible(events[i])
    ensures var clean := Magic.FeedAll(Magic.Wanted(pattern, hasCommand), Magic.START, noise).count == 0;
      && (greeted ==> clean)
      && (|counts| >= |noise| + |Magic.Greeting()| && (forall i :: 0 <= i < |counts| ==> counts[i] > 0) ==>
            (greeted <==> clean))
    ensures greeted ==>
      && Tells(h, events) && IsRun(h)
      && h.views[0] == FirstView(Requested(specs, failed)) && T.Init(h.views[0].s)
      && Final(h) == Seen(local, remote, Final(h).s) && Coupled(local, remote, down, up, Final(h).s)
      && Accounted(local, h, events) && Accounted(remote, h, events)
      && AllMade(local.Specs(), specs, failed) && InPlace(specs, failed, Final(h).s)
  {
    hide T.Schedule, T.Run, T.Init, T.StartState, TunnelEnd.Repr, Possible, PutMsg, Requested, Accounted, Coupled,
      TunnelEnd.IsIn, Unused, Unshared, Askable, Tells, IsRun, Magic.FeedAll, Magic.Greeting, Seen, FirstView, Final,
      AllMade, InPlace, TunnelEnd.Specs;
    var detector := new Magic.MagicStringDetector(pattern, hasCommand);
    local, remote, down, up := MakeBoth(fd, noise);
    h := Play(local, remote, down, up, specs, failed, detector, counts, noise, events);
    greeted := detector.handshaking;
  }
}
