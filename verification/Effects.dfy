/** What each step of module Tunnel does in a reachable state, spelled out: the fields of the one link it is about, the
    messages it sends, and that it touches nothing else. */
module Effects {
  import opened Wire
  import opened Codec
  import opened Polling
  import opened Links
  import opened Tunnel
  import Protocol

  /** A link in the Poller that holds no bytes and waits for input only. */
  ghost predicate Opened(slot: Option<Link>) {
    && slot.Some? && slot.value.pending == [] && !slot.value.closing && slot.value.acknowledged
    && slot.value.registered && slot.value.events.pin && !slot.value.events.pout && slot.value.revents == NOTHING
  }

  /** Of all links of both ends only the one under k at the end `at` may have changed; the messages `out` have been
      sent from there, and `taken` have been taken off what comes in. */
  ghost predicate OnlyThere(s: System, at: bool, k: Key, taken: nat, out: seq<Msg>, s': System) {
    && ConnsAt(s', !at) == ConnsAt(s, !at)
    && OnlySlot(ConnsAt(s, at), ConnsAt(s', at), k, SlotOf(ConnsAt(s', at), k))
    && taken <= |Incoming(s, at)| && Incoming(s', at) == Incoming(s, at)[taken..]
    && Incoming(s', !at) == Incoming(s, !at) + out
    && s'.greeted == s.greeted
  }

  // ---------------------------------------------------------------- messages about a link

  lemma Dispatched(s: System, at: bool, connected: bool, failed: set<Short>)
    requires Inv(s) && Incoming(s, at) != [] && Incoming(s, at)[0].OnLink?
    ensures var m, o := Incoming(s, at)[0], Step(s, Deliver(at, connected, failed));
      var k := m.key;
      && k.cid in s.local && k.cid in ConnsAt(s, at)
      && var here, listening := SlotOf(ConnsAt(s, at), k), ConnsAt(s, at)[k.cid].listening;
      var r := Receive(listening, here, m.body, connected);
      && o.Running? && r.Reaction? && SlotOf(ConnsAt(o.s, at), k) == r.slot
      && OnlyThere(s, at, k, 1, (if !at && !listening && m.body == Create && !connected then [ErrorText] else [])
                                + Wrap(k, r.replies), o.s)
  {
    var m, cs := Incoming(s, at)[0], ConnsAt(s, at);
    LinkHead(s, at);
    DeliverOnLink(s, at, connected, failed);
    DispatchPair(s, at, connected);
    var r := Receive(cs[m.key.cid].listening, SlotOf(cs, m.key), m.body, connected);
    SetSlotIsOnly(cs, m.key, r.slot);
    hide Inv, Step, Receive, SetSlot, Wrap, Connected, Protocol.Inv, PairAfter, Pair;
  }

  /** What is known of the link a message is about before it is handled. */
  lemma HeadKnows(s: System, at: bool)
    requires Inv(s) && Incoming(s, at) != [] && Incoming(s, at)[0].OnLink?
    ensures var k, body := Incoming(s, at)[0].key, Incoming(s, at)[0].body;
      && k.cid in ConnsAt(s, at)
      && var here, conn := SlotOf(ConnsAt(s, at), k), ConnsAt(s, at)[k.cid];
      && (here.None? <==> body == Create) && (body == Create ==> !conn.listening)
      && (body.CreateReply? ==> here == Some(FRESH) && conn.listening)
      && (body != Create && !body.CreateReply? ==>
            Healthy(conn.ack, here.value) && (body == Close || Protocol.DataOrAck(conn.ack, body)))
  {
    var k := Incoming(s, at)[0].key;
    LinkHead(s, at);
    HeadFinds(s, at);
    RoleAt(s, at, k.cid);
    SlotInPair(s, at, k);
    OnlyHead(Incoming(s, at), k);
    var ack, p := s.local[k.cid].ack, Pair(s, k);
    assert Protocol.Inv(ack, p);
    Protocol.OtherFindsHealthy(ack, p);
    Protocol.OnlyDecodable(ack, p);
    hide Protocol.Inv, Protocol.DataOrAck, Healthy, Connected;
  }

  /** A request makes a link, in the Poller and waiting for input, exactly if connect() succeeds, and is answered
      accordingly; the remote end reports a failure first. */
  lemma RequestDoes(s: System, at: bool, connected: bool, failed: set<Short>)
    requires Inv(s) && Incoming(s, at) != [] && Incoming(s, at)[0].OnLink? && Incoming(s, at)[0].body == Create
    ensures var k, o := Incoming(s, at)[0].key, Step(s, Deliver(at, connected, failed));
      && o.Running? && SlotOf(ConnsAt(s, at), k).None?
      && (if connected then Opened(SlotOf(ConnsAt(o.s, at), k)) else SlotOf(ConnsAt(o.s, at), k).None?)
      && OnlyThere(s, at, k, 1,
           (if connected || at then [] else [ErrorText]) + [OnLink(k, CreateReply(connected))], o.s)
  {
    Dispatched(s, at, connected, failed);
    HeadKnows(s, at);
    WrapOne(Incoming(s, at)[0].key, CreateReply(connected));
    hide Inv, Step, OnlyThere, SlotOf;
  }

  /** A granted link is opened, a refused one forgotten; nothing is answered. */
  lemma ReplyDoes(s: System, at: bool, connected: bool, failed: set<Short>)
    requires Inv(s) && Incoming(s, at) != [] && Incoming(s, at)[0].OnLink? && Incoming(s, at)[0].body.CreateReply?
    ensures var k, o := Incoming(s, at)[0].key, Step(s, Deliver(at, connected, failed));
      && o.Running? && SlotOf(ConnsAt(s, at), k).Some?
      && (if Incoming(s, at)[0].body.ok then Opened(SlotOf(ConnsAt(o.s, at), k))
          else SlotOf(ConnsAt(o.s, at), k).None?)
      && OnlyThere(s, at, k, 1, [], o.s)
  {
    Dispatched(s, at, connected, failed);
    HeadKnows(s, at);
    hide Inv, Step, OnlyThere, SlotOf;
    assert [] + Wrap(Incoming(s, at)[0].key, []) == [];
  }

  /** Data joins the bytes an open link has still to write; the link then waits for room only, and answers if it is
      asked to. A closing link drops it. Which of the two kinds of packet it is, is a matter of the connection. */
  lemma DataDoes(s: System, at: bool, connected: bool, failed: set<Short>)
    requires Inv(s) && Incoming(s, at) != [] && Incoming(s, at)[0].OnLink?
    requires Incoming(s, at)[0].body.Send? || Incoming(s, at)[0].body.SendForAck?
    ensures var k, body := Incoming(s, at)[0].key, Incoming(s, at)[0].body;
      var here, o := SlotOf(ConnsAt(s, at), k), Step(s, Deliver(at, connected, failed));
      && here.Some? && (body.SendForAck? <==> ConnsAt(s, at)[k.cid].ack)
      && o.Running? && SlotOf(ConnsAt(o.s, at), k).Some?
      && var there := SlotOf(ConnsAt(o.s, at), k).value;
      && there.closing == here.value.closing && there.registered == here.value.registered
      && (here.value.registered ==>
            && there.pending == here.value.pending + body.data && there.acknowledged == here.value.acknowledged
            && !there.events.pin && there.events.pout && there.revents == here.value.revents)
      && (here.value.closing ==>
            && there.pending == here.value.pending
            && there.acknowledged == (here.value.acknowledged || body.SendForAck?))
      && OnlyThere(s, at, k, 1, if body.SendForAck? && here.value.registered then [OnLink(k, Ack)] else [], o.s)
  {
    Dispatched(s, at, connected, failed);
    HeadKnows(s, at);
    WrapOne(Incoming(s, at)[0].key, Ack);
    hide Inv, Step, OnlyThere, SlotOf;
    assert [] + Wrap(Incoming(s, at)[0].key, []) == [];
  }

  /** An acknowledgement makes an open link wait for input again, whatever it has still to write, and for room exactly
      while it has; nothing is answered. */
  lemma AckDoes(s: System, at: bool, connected: bool, failed: set<Short>)
    requires Inv(s) && Incoming(s, at) != [] && Incoming(s, at)[0].OnLink? && Incoming(s, at)[0].body == Ack
    ensures var k := Incoming(s, at)[0].key;
      var here, o := SlotOf(ConnsAt(s, at), k), Step(s, Deliver(at, connected, failed));
      && here.Some? && ConnsAt(s, at)[k.cid].ack
      && o.Running? && SlotOf(ConnsAt(o.s, at), k).Some?
      && var there := SlotOf(ConnsAt(o.s, at), k).value;
      && there.acknowledged && there.pending == here.value.pending
      && there.closing == here.value.closing && there.registered == here.value.registered
      && (here.value.registered ==>
            && there.events.pin && (there.events.pout <==> there.pending != []) && there.revents == here.value.revents)
      && OnlyThere(s, at, k, 1, [], o.s)
  {
    Dispatched(s, at, connected, failed);
    HeadKnows(s, at);
    hide Inv, Step, OnlyThere, SlotOf;
    assert [] + Wrap(Incoming(s, at)[0].key, []) == [];
  }

  /** A LINK_CLOSE ends the link here, and is answered in kind exactly if the link was still open. */
  lemma CloseDoes(s: System, at: bool, connected: bool, failed: set<Short>)
    requires Inv(s) && Incoming(s, at) != [] && Incoming(s, at)[0].OnLink? && Incoming(s, at)[0].body == Close
    ensures var k := Incoming(s, at)[0].key;
      var here, o := SlotOf(ConnsAt(s, at), k), Step(s, Deliver(at, connected, failed));
      && here.Some? && o.Running? && SlotOf(ConnsAt(o.s, at), k).None?
      && OnlyThere(s, at, k, 1, if here.value.registered then [OnLink(k, Close)] else [], o.s)
  {
    Dispatched(s, at, connected, failed);
    HeadKnows(s, at);
    WrapOne(Incoming(s, at)[0].key, Close);
    hide Inv, Step, OnlyThere, SlotOf;
    assert [] + Wrap(Incoming(s, at)[0].key, []) == [];
  }

  /** The other two messages an end can get from a connected remote end change nothing. */
  lemma NoticeDoes(s: System, connected: bool, failed: set<Short>)
    requires Inv(s) && s.down != [] && !s.down[0].OnLink?
    ensures Step(s, Deliver(true, connected, failed)) == Running(s.(down := s.down[1..]))
  {
    hide LinksFine, Complementary, Tabled, FromListener, Dispatch;
  }

  // ---------------------------------------------------------------- accepts

  /** A listener makes a link under the next id, which is not in the Poller yet and on which nothing has been read or
      written, and asks the other end for a partner. */
  lemma AcceptDoes(s: System, at: bool, cid: Short)
    requires Inv(s) && Permitted(s, Accept(at, cid))
    ensures cid in ConnsAt(s, at) && cid in s.local
    ensures var k, s' := Key(cid, ToShort(ConnsAt(s, at)[cid].nextId)), AcceptAt(s, at, cid);
      && Step(s, Accept(at, cid)) == Running(s')
      && SlotOf(ConnsAt(s, at), k).None? && SlotOf(ConnsAt(s', at), k).Some?
      && var l := SlotOf(ConnsAt(s', at), k).value;
      && l.pending == [] && !l.closing && l.acknowledged && !l.registered
      && ConnsAt(s', at)[cid].nextId == ConnsAt(s, at)[cid].nextId + 1
      && (forall end :: ReadAt(s', end, k) == [] && WrittenAt(s', end, k) == [])
      && OnlyThere(s, at, k, 0, [OnLink(k, Create)], s')
  {
    RoleAt(s, at, cid);
    AcceptOnlySlot(ConnsAt(s, at), cid);
    hide Inv, ToShort;
  }

  /** Among the accepts a listener could do, those permitted are exactly those that leave the whole system sound. */
  lemma PermittedAcceptsAreSafe(s: System, at: bool, cid: Short)
    requires Inv(s) && Enabled(s, Accept(at, cid))
    ensures Permitted(s, Accept(at, cid)) <==> Inv(AcceptAt(s, at, cid))
  {
    if Permitted(s, Accept(at, cid)) {
      AcceptPreserves(s, at, cid);
    } else {
      AcceptedPair(s, at, cid);
      var k, s' := NextKey(ConnsAt(s, at), cid), AcceptAt(s, at, cid);
      var ack := s.local[cid].ack;
      assert Protocol.Inv(ack, Pair(s, k));
      Protocol.AcceptSafe(ack, Pair(s, k));
      hide Protocol.Inv, Pair, ToShort, Update, Accepted;
      assert !Protocol.Inv(s'.local[k.cid].ack, Pair(s', k));
    }
  }

  /** Seen at the link id it hands out, an accept is an accept of module Protocol. */
  lemma AcceptedPair(s: System, at: bool, cid: Short)
    requires Inv(s) && Enabled(s, Accept(at, cid))
    ensures cid in s.local && cid in AcceptAt(s, at, cid).local
    ensures AcceptAt(s, at, cid).local[cid].ack == s.local[cid].ack
    ensures var k := NextKey(ConnsAt(s, at), cid);
      && Protocol.Step(s.local[cid].ack, Pair(s, k), Protocol.Accept) == Protocol.Running(Pair(AcceptAt(s, at, cid), k))
      && (IdFree(s, at, cid) <==> Pair(s, k).l == None)
  {
    var cs, k := ConnsAt(s, at), NextKey(ConnsAt(s, at), cid);
    RoleAt(s, at, cid);
    SlotInPair(s, at, k);
    AcceptOnlySlot(cs, cid);
    hide Inv, ToShort, Accepted, Protocol.Inv;
    WrapOne(k, Create);
    UpdatePair(s, at, Accepted(cs, cid), Some(FRESH), [], [Create], k, Protocol.SILENCE, k);
  }

  // ---------------------------------------------------------------- the Poller

  /** What the turn of a link makes of it; as in Links.PolledExactly. */
  ghost predicate Turned(l: Link, ack: bool, rd: ReadResult, w: nat, there: Link) {
    && w <= |l.pending| && there.pending == l.pending[w..]
    && (there.closing <==> (l.revents.pin && rd.Eof?) || l.revents.perr) && (there.registered <==> !there.closing)
    && there.revents == NOTHING
    && (!there.closing ==>
          && there.acknowledged == (l.acknowledged && !(l.revents.pin && ack))
          && (there.events.pout <==> w < |l.pending|)
          && (there.events.pin <==> there.acknowledged && (l.events.pin || (l.revents.pout && w == |l.pending|))))
  }

  /** How much it writes: as many of the oldest bytes as the kernel takes of a bufferful, if it is reported writable. */
  function Written(l: Link, rd: ReadResult, n: nat): nat {
    if l.revents.pout && !(l.revents.pin && rd.Eof?) then Least(n, Least(|l.pending|, MAX_DATA)) else 0
  }

  /** What it sends: what it has read, in one packet of the connection's kind, and a LINK_CLOSE last if it closes. */
  function SentBy(k: Key, l: Link, ack: bool, rd: ReadResult, closing: bool): seq<Msg> {
    (if !(l.revents.pin && rd.Bytes?) then []
     else if ack then [OnLink(k, SendForAck(rd.data))] else [OnLink(k, Send(rd.data))])
    + (if closing then [OnLink(k, Close)] else [])
  }

  /** The turn of a link: what it reads goes to the other end and on record, what it writes to its socket. */
  lemma TurnDoes(s: System, at: bool, k: Key, rd: ReadResult, n: nat)
    requires Inv(s) && Enabled(s, LinkPolled(at, k, rd, n))
    ensures k.cid in s.local && k.cid in ConnsAt(s, at)
    ensures var l, ack := SlotOf(ConnsAt(s, at), k).value, ConnsAt(s, at)[k.cid].ack;
      var o := Step(s, LinkPolled(at, k, rd, n));
      var w := Written(l, rd, n);
      && o.Running? && k.cid in o.s.local && SlotOf(ConnsAt(o.s, at), k).Some?
      && var there := SlotOf(ConnsAt(o.s, at), k).value;
      && Turned(l, ack, rd, w, there)
      && ReadAt(o.s, at, k) == ReadAt(s, at, k) + (if l.revents.pin && rd.Bytes? then rd.data else [])
      && WrittenAt(o.s, at, k) == WrittenAt(s, at, k) + l.pending[..w]
      && OnlyThere(s, at, k, 0, SentBy(k, l, ack, rd, there.closing), o.s)
  {
    var cs := ConnsAt(s, at);
    var l, ack := SlotOf(cs, k).value, cs[k.cid].ack;
    RegisteredAtBoth(s, at, k);
    WatchedIsHealthy(s, at, k);
    RoleAt(s, at, k.cid);
    hide Inv, Polled, SetSlot, Connected, Wrap, OnlyThere, Turned, SentBy, Written;
    var t := Polled(l, ack, rd, n);
    TurnIs(k, l, ack, rd, n);
    SetSlotIsOnly(cs, k, Some(Visited(t.link)));
    TurnUpdates(s, at, k, rd, n, t);
  }

  lemma TurnIs(k: Key, l: Link, ack: bool, rd: ReadResult, n: nat)
    requires Healthy(ack, l) && l.registered && (rd.Bytes? ==> 0 < |rd.data| <= MAX_DATA)
    ensures var t, w := Polled(l, ack, rd, n), Written(l, rd, n);
      && w <= |l.pending| && Turned(l, ack, rd, w, Visited(t.link))
      && t.read == (if l.revents.pin && rd.Bytes? then rd.data else []) && t.wrote == l.pending[..w]
      && Wrap(k, t.sends) == SentBy(k, l, ack, rd, Visited(t.link).closing)
  {
    PolledExactly(ack, l, rd, n);
    var t := Polled(l, ack, rd, n);
    hide Polled, Healthy, Wrap, SentBy;
    SendsAre(k, l, ack, rd, t.link.closing, t.sends);
  }

  lemma SendsAre(k: Key, l: Link, ack: bool, rd: ReadResult, closing: bool, sends: seq<LinkMsg>)
    requires var got := l.revents.pin && rd.Bytes?;
      sends == (if !got then [] else if ack then [SendForAck(rd.data)] else [Send(rd.data)])
               + (if closing then [Close] else [])
    ensures Wrap(k, sends) == SentBy(k, l, ack, rd, closing)
  {
    WrapOne(k, Close);
    if l.revents.pin && rd.Bytes? {
      var m := if ack then SendForAck(rd.data) else Send(rd.data);
      WrapOne(k, m);
      if closing {
        assert sends == [m, Close] && sends[1..] == [Close];
      } else {
        assert sends == [m];
      }
    }
  }

  lemma TurnUpdates(s: System, at: bool, k: Key, rd: ReadResult, n: nat, t: Turn)
    requires Enabled(s, LinkPolled(at, k, rd, n)) && k.cid in s.local
    requires ConnsAt(s, at)[k.cid].listening == AtListener(s, at, k.cid)
    requires t == Polled(SlotOf(ConnsAt(s, at), k).value, ConnsAt(s, at)[k.cid].ack, rd, n)
    requires OnlySlot(ConnsAt(s, at), SetSlot(ConnsAt(s, at), k, Some(Visited(t.link))), k, Some(Visited(t.link)))
    ensures var o := Step(s, LinkPolled(at, k, rd, n));
      && o.Running? && k.cid in o.s.local && SlotOf(ConnsAt(o.s, at), k) == Some(Visited(t.link))
      && ReadAt(o.s, at, k) == ReadAt(s, at, k) + t.read && WrittenAt(o.s, at, k) == WrittenAt(s, at, k) + t.wrote
      && OnlyThere(s, at, k, 0, Wrap(k, t.sends), o.s)
  {
    hide Polled, SetSlot, Wrap;
  }

  /** poll() writes its report into every link of that end that is in the Poller, and does nothing else. */
  lemma PollDoes(s: System, at: bool, reports: map<Key, Events>)
    requires Enabled(s, Poll(at, reports))
    ensures var o := Step(s, Poll(at, reports));
      && o.Running? && o.s.greeted == s.greeted && o.s.up == s.up && o.s.down == s.down
      && ConnsAt(o.s, !at) == ConnsAt(s, !at)
      && forall k :: SlotOf(ConnsAt(o.s, at), k).Some? == SlotOf(ConnsAt(s, at), k).Some? &&
           (SlotOf(ConnsAt(s, at), k).Some? ==>
              var l := SlotOf(ConnsAt(s, at), k).value;
              SlotOf(ConnsAt(o.s, at), k).value ==
                if !l.registered then l
                else if k in reports then l.(revents := reports[k]) else l.(revents := NOTHING))
  {
    forall k {
      ReportedSlot(ConnsAt(s, at), reports, k);
    }
    hide Tunnel.Reported;
  }

  // ---------------------------------------------------------------- who listens

  /** Of connections made at one end exactly those are missing that should listen and cannot. */
  lemma {:induction false} MadeUnlessFailed(isLocal: bool, es: seq<Entry>, failed: set<Short>, i: nat)
    requires i < |es|
    requires forall j :: 0 <= j < |es| && es[j].0 == es[i].0 ==> es[j].1.direction == es[i].1.direction
    ensures es[i].0 in MakeConns(isLocal, es, failed)
            <==> !(es[i].1.direction == (if isLocal then CONNECT else LISTEN) && es[i].0 in failed)
  {
    var n := |es| - 1;
    if es[n].0 != es[i].0 {
      assert forall j :: 0 <= j < n ==> es[..n][j] == es[j];
      MadeUnlessFailed(isLocal, es[..n], failed, i);
    } else if es[n].1.ListensAt(isLocal) && es[n].0 in failed && es[i].0 in MakeConns(isLocal, es, failed) {
      MakeConnsFrom(isLocal, es[..n], failed, es[i].0);
      assert forall j :: 0 <= j < n ==> es[..n][j] == es[j];
      NoneOfThem(isLocal, es[..n], failed, es[i].0);
    }
  }

  lemma {:induction false} NoneOfThem(isLocal: bool, es: seq<Entry>, failed: set<Short>, id: Short)
    requires id in failed && forall j :: 0 <= j < |es| && es[j].0 == id ==> es[j].1.ListensAt(isLocal)
    ensures id !in MakeConns(isLocal, es, failed)
  {
    if es != [] {
      var n := |es| - 1;
      assert forall j :: 0 <= j < n ==> es[..n][j] == es[j];
      NoneOfThem(isLocal, es[..n], failed, id);
    }
  }

  /** A connection that is to be listened for locally (CONNECT) has its ListenSide at the local end and its ConnectSide
      at the remote end, one to be listened for remotely (LISTEN) the other way round; both acknowledge every packet
      exactly if the lowest bit of the flags asks for it. */
  ghost predicate Roles(s: System, e: Entry) {
    && e.0 in s.local
    && (e.1.direction == CONNECT ==> s.local[e.0].listening) && (e.1.direction == LISTEN ==> !s.local[e.0].listening)
    && (s.local[e.0].ack <==> e.1.flags % 2 == 1)
    && (e.0 in s.remote ==>
          && (e.1.direction == CONNECT ==> !s.remote[e.0].listening)
          && (e.1.direction == LISTEN ==> s.remote[e.0].listening)
          && (s.remote[e.0].ack <==> e.1.flags % 2 == 1))
    && (s.greeted && e.1.direction == CONNECT ==> e.0 in s.remote)
    && (!s.greeted ==> e.0 !in s.remote)
  }

  /** In every state of every run this is so of every entry of the table, and no other connection exists. */
  lemma RolesFollowDirection(start: System, actions: seq<Action>)
    requires Init(start) && Schedule(start, actions)
    ensures var o, es := Run(start, actions), start.up[0].entries;
      && o.Running?
      && (forall i :: 0 <= i < |es| ==> es[i].1.direction in {LISTEN, CONNECT} && Roles(o.s, es[i]))
      && (forall cid :: cid in o.s.local ==> exists i :: 0 <= i < |es| && es[i].0 == cid)
      && (forall cid :: cid in o.s.remote ==> cid in o.s.local)
  {
    InitIsInv(start);
    EveryRunIsSafe(start, actions);
    LocalRolesStay(start, actions);
    var es := start.up[0].entries;
    hide LinksFine, Run, Schedule, FromListener;
    forall i | 0 <= i < |es| ensures es[i].1.direction in {LISTEN, CONNECT} && Roles(Run(start, actions).s, es[i]) {
      assert es[i].0 in start.local;
    }
  }

  lemma {:induction false} LocalRolesStay(s: System, actions: seq<Action>)
    requires Inv(s) && Schedule(s, actions)
    ensures var o := Run(s, actions); o.Running? && SameRoles(s.local, o.s.local)
    decreases |actions|
  {
    hide Inv, Step, Enabled, IdFree;
    if actions != [] {
      StepPreserves(s, actions[0]);
      StepKeepsRoles(s, actions[0]);
      LocalRolesStay(Step(s, actions[0]).s, actions[1..]);
    }
  }

  ghost predicate SameRoles(cs: Conns, cs': Conns) {
    && cs.Keys == cs'.Keys
    && forall cid :: cid in cs ==> cs'[cid].listening == cs[cid].listening && cs'[cid].ack == cs[cid].ack
  }

  lemma StepKeepsRoles(s: System, a: Action)
    requires Inv(s) && Permitted(s, a)
    ensures var o := Step(s, a); o.Running? && SameRoles(s.local, o.s.local)
  {
    hide Inv, DeliverUp, DeliverDown;
    match a
    case Accept(at, cid) => AcceptDoes(s, at, cid); hide AcceptAt, ToShort;
    case Poll(at, reports) =>
      ReportedKeys(s.local, reports);
      hide Tunnel.Reported;
    case LinkPolled(at, k, rd, n) => TurnDoes(s, at, k, rd, n); hide LinkPolledAt, Turned, Written, SentBy;
    case Deliver(at, connected, failed) => DeliveryKeepsRoles(s, at, connected, failed);
  }

  lemma DeliveryKeepsRoles(s: System, at: bool, connected: bool, failed: set<Short>)
    requires Inv(s) && Incoming(s, at) != []
    ensures var o := Step(s, Deliver(at, connected, failed)); o.Running? && SameRoles(s.local, o.s.local)
  {
    hide Inv;
    if Incoming(s, at)[0].OnLink? {
      Dispatched(s, at, connected, failed);
      hide Receive, Step;
    } else if at {
      NoticeDoes(s, connected, failed);
    } else {
      TableDoes(s, connected, failed);
      hide Roles, Step;
    }
  }

  /** The remote end gets the table as its first message: it makes a connection for every entry, unless that is to
      listen there and cannot, and answers once. */
  lemma TableDoes(s: System, connected: bool, failed: set<Short>)
    requires Inv(s) && s.up != [] && !s.up[0].OnLink?
    ensures var o := Step(s, Deliver(false, connected, failed));
      && !s.greeted && s.up[0].CreateTable? && s.remote == map[] && s.down == []
      && o.Running? && o.s.greeted && o.s.local == s.local && o.s.up == s.up[1..] && o.s.down == [CreateDone]
      && var es := s.up[0].entries;
      (forall i :: 0 <= i < |es| ==>
         && (es[i].0 in o.s.remote <==> !(es[i].1.direction == LISTEN && es[i].0 in failed))
         && Roles(o.s, es[i]))
      && (forall cid :: cid in o.s.remote ==>
            && o.s.remote[cid].links == map[] && o.s.remote[cid].nextId == 501
            && exists i :: 0 <= i < |es| && es[i].0 == cid)
  {
    TableTaken(s, connected, failed);
    StepPreserves(s, Deliver(false, connected, failed));
    var es, o := s.up[0].entries, Step(s, Deliver(false, connected, failed));
    hide LinksFine, FromListener, Step, Images, MakeConns, Awaiting;
    var sent := Images(es);
    forall i | 0 <= i < |es|
      ensures es[i].0 in o.s.remote <==> !(es[i].1.direction == LISTEN && es[i].0 in failed)
      ensures Roles(o.s, es[i])
    {
      SameDirection(s, i);
      SentDirection(es, i);
      assert es[i].0 in s.local;
      MadeUnlessFailed(false, sent, failed, i);
    }
    forall cid | cid in o.s.remote
      ensures o.s.remote[cid].links == map[] && o.s.remote[cid].nextId == 501
      ensures exists i :: 0 <= i < |es| && es[i].0 == cid
    {
      NewConnNumbers(false, sent, failed, cid);
      MakeConnsFrom(false, sent, failed, cid);
      var i :| 0 <= i < |sent| && sent[i].0 == cid;
      assert es[i].0 == cid;
    }
  }

  lemma TableTaken(s: System, connected: bool, failed: set<Short>)
    requires Inv(s) && s.up != [] && !s.up[0].OnLink?
    ensures Awaiting(s) && s.up[0].CreateTable? && Tabled(s.local, s.up[0].entries)
    ensures Step(s, Deliver(false, connected, failed)) ==
      Running(s.(up := s.up[1..], remote := MakeConns(false, Images(s.up[0].entries), failed), greeted := true,
                 down := [CreateDone]))
  {
    hide LinksFine, Complementary, FromListener, MakeConns, Images, Dispatch;
    assert [] + [CreateDone] == [CreateDone];
  }

  /** Two entries with the same id ask for the same direction, as the table agrees with the local connections. */
  lemma SameDirection(s: System, i: nat)
    requires Inv(s) && Awaiting(s) && i < |s.up[0].entries|
    ensures var es := s.up[0].entries;
      && es[i].1.direction in {LISTEN, CONNECT}
      && forall j :: 0 <= j < |es| && es[j].0 == es[i].0 ==> es[j].1.direction == es[i].1.direction
  {
    hide LinksFine, FromListener;
  }

  lemma SentDirection(es: seq<Entry>, i: nat)
    requires i < |es| && es[i].1.direction in {LISTEN, CONNECT}
    requires forall j :: 0 <= j < |es| && es[j].0 == es[i].0 ==> es[j].1.direction == es[i].1.direction
    ensures var sent := Images(es);
      && |sent| == |es| && sent[i].0 == es[i].0 && sent[i].1.direction == es[i].1.direction
      && forall j :: 0 <= j < |sent| && sent[j].0 == sent[i].0 ==> sent[j].1.direction == sent[i].1.direction
  {}

  // ---------------------------------------------------------------- waiting for input

  /** In the Poller, the link waits for input. */
  ghost predicate Waits(s: System, at: bool, k: Key) {
    var slot := SlotOf(ConnsAt(s, at), k);
    slot.Some? && slot.value.registered ==> slot.value.events.pin
  }

  /** Data comes in for the link, or is read from it into a packet that asks for an acknowledgement. */
  ghost predicate Disarms(s: System, a: Action, at: bool, k: Key)
    requires Enabled(s, a)
  {
    match a
    case Deliver(end, _, _) =>
      end == at && Incoming(s, at)[0].OnLink? && Incoming(s, at)[0].key == k
      && (Incoming(s, at)[0].body.Send? || Incoming(s, at)[0].body.SendForAck?)
    case LinkPolled(end, j, rd, _) =>
      && end == at && j == k && ConnsAt(s, at)[k.cid].ack
      && SlotOf(ConnsAt(s, at), k).value.revents.pin && rd.Bytes?
    case _ => false
  }

  /** One more step: a link that waits for input goes on doing so, if it stays in the Poller, unless data comes in or
      goes out unacknowledged; and then it does not. */
  lemma WaitingStep(s: System, a: Action, at: bool, k: Key)
    requires Inv(s) && Permitted(s, a) && Waits(s, at, k)
    ensures var o := Step(s, a);
      && o.Running?
      && (!Disarms(s, a, at, k) ==> Waits(o.s, at, k))
      && var slot := SlotOf(ConnsAt(o.s, at), k);
      (Disarms(s, a, at, k) && slot.Some? && slot.value.registered ==> !slot.value.events.pin)
  {
    hide Inv, DeliverUp, DeliverDown;
    match a
    case Accept(end, cid) => AcceptDoes(s, end, cid); hide AcceptAt, ToShort;
    case Poll(end, reports) => PollDoes(s, end, reports); hide PollAt;
    case LinkPolled(end, j, rd, n) =>
      TurnDoes(s, end, j, rd, n);
      WatchedIsHealthy(s, end, j);
      hide LinkPolledAt, Written, SentBy;
    case Deliver(end, connected, failed) => WaitingDelivery(s, end, connected, failed, at, k);
  }

  lemma WaitingDelivery(s: System, end: bool, connected: bool, failed: set<Short>, at: bool, k: Key)
    requires Inv(s) && Incoming(s, end) != [] && Waits(s, at, k)
    ensures var a := Deliver(end, connected, failed);
      var o := Step(s, a);
      && o.Running?
      && (!Disarms(s, a, at, k) ==> Waits(o.s, at, k))
      && var slot := SlotOf(ConnsAt(o.s, at), k);
      (Disarms(s, a, at, k) && slot.Some? && slot.value.registered ==> !slot.value.events.pin)
  {
    if Incoming(s, end)[0].OnLink? {
      MessageDoes(s, end, connected, failed, at, k);
    } else if end {
      NoticeDoes(s, connected, failed);
    } else {
      TableDoes(s, connected, failed);
      hide Roles;
    }
    hide Inv, Step;
  }

  lemma MessageDoes(s: System, end: bool, connected: bool, failed: set<Short>, at: bool, k: Key)
    requires Inv(s) && Incoming(s, end) != [] && Incoming(s, end)[0].OnLink?
    ensures var m, o := Incoming(s, end)[0], Step(s, Deliver(end, connected, failed));
      var slot := SlotOf(ConnsAt(s, at), k);
      && o.Running?
      && var slot' := SlotOf(ConnsAt(o.s, at), k);
      && (end != at || m.key != k ==> slot' == slot)
      && (end == at && m.key == k && slot'.Some? && slot'.value.registered ==>
            && (slot'.value.events.pin <==> !(m.body.Send? || m.body.SendForAck?))
            && (slot.Some? && slot.value.registered ==> slot'.value.revents == slot.value.revents))
  {
    Dispatched(s, end, connected, failed);
    HeadKnows(s, end);
    var body := Incoming(s, end)[0].body;
    if body == Create {
      RequestDoes(s, end, connected, failed);
    } else if body.CreateReply? {
      ReplyDoes(s, end, connected, failed);
    } else if body.Send? || body.SendForAck? {
      DataDoes(s, end, connected, failed);
    } else if body == Ack {
      AckDoes(s, end, connected, failed);
    } else {
      CloseDoes(s, end, connected, failed);
    }
    hide Inv, Step, Receive, Wrap, Healthy;
  }

  ghost predicate NeverDisarmed(s: System, actions: seq<Action>, at: bool, k: Key)
    requires Schedule(s, actions)
    decreases |actions|
  {
    actions == []
    || (!Disarms(s, actions[0], at, k)
        && (Step(s, actions[0]).Running? ==> NeverDisarmed(Step(s, actions[0]).s, actions[1..], at, k)))
  }

  /** From an acknowledgement on until data comes in or goes out again, the link waits for input, however much it has
      still to write. */
  lemma AcknowledgedLinkWaits(s: System, connected: bool, failed: set<Short>, actions: seq<Action>, at: bool, k: Key)
    requires Inv(s) && Incoming(s, at) != [] && Incoming(s, at)[0] == OnLink(k, Ack)
    requires var o := Step(s, Deliver(at, connected, failed));
      o.Running? ==> Schedule(o.s, actions) && NeverDisarmed(o.s, actions, at, k)
    ensures var o := Step(s, Deliver(at, connected, failed));
      o.Running? && Run(o.s, actions).Running? && Waits(Run(o.s, actions).s, at, k)
  {
    AckDoes(s, at, connected, failed);
    StepPreserves(s, Deliver(at, connected, failed));
    hide Inv, Step, Disarms;
    WaitsOn(Step(s, Deliver(at, connected, failed)).s, actions, at, k);
  }

  lemma {:induction false} WaitsOn(s: System, actions: seq<Action>, at: bool, k: Key)
    requires Inv(s) && Schedule(s, actions) && Waits(s, at, k) && NeverDisarmed(s, actions, at, k)
    ensures Run(s, actions).Running? && Waits(Run(s, actions).s, at, k)
    decreases |actions|
  {
    hide Inv, Step, Disarms, Waits, Enabled, IdFree;
    if actions != [] {
      WaitingStep(s, actions[0], at, k);
      StepPreserves(s, actions[0]);
      WaitsOn(Step(s, actions[0]).s, actions[1..], at, k);
    }
  }

  // ---------------------------------------------------------------- reports

  /** What poll() has reported on a link stays reported until its turn, or the next poll(), as long as the link is in
      the Poller. */
  lemma ReportStays(s: System, a: Action, at: bool, k: Key)
    requires Inv(s) && Permitted(s, a)
    requires !(a.Poll? && a.atLocal == at) && !(a.LinkPolled? && a.atLocal == at && a.key == k)
    requires SlotOf(ConnsAt(s, at), k).Some? && SlotOf(ConnsAt(s, at), k).value.registered
    ensures var o := Step(s, a);
      && o.Running?
      && var slot := SlotOf(ConnsAt(o.s, at), k);
      (slot.Some? && slot.value.registered ==> slot.value.revents == SlotOf(ConnsAt(s, at), k).value.revents)
  {
    hide Inv, DeliverUp, DeliverDown;
    match a
    case Accept(end, cid) => AcceptDoes(s, end, cid); hide AcceptAt, ToShort;
    case Poll(end, reports) => PollDoes(s, end, reports); hide PollAt;
    case LinkPolled(end, j, rd, n) => TurnDoes(s, end, j, rd, n); hide LinkPolledAt, Written, SentBy;
    case Deliver(end, connected, failed) =>
      if Incoming(s, end)[0].OnLink? {
        MessageDoes(s, end, connected, failed, at, k);
      } else if end {
        NoticeDoes(s, connected, failed);
      } else {
        TableDoes(s, connected, failed);
        hide Roles;
      }
  }
}
