/** The whole tunnel: both connection maps, both message channels, every connection and link. */
module Tunnel {
  import opened Wire
  import opened Codec
  import opened Polling
  import opened Links
  import Protocol

  /** A ListenSide or ConnectSide; nextId is ListenSide::m_next_id. */
  datatype Conn = Conn(listening: bool, ack: bool, links: map<Short, Link>, nextId: int)

  type Conns = map<Short, Conn>

  datatype Key = Key(cid: Short, lid: Short)

  datatype Msg =
    | CreateTable(entries: seq<Entry>)
    | CreateDone
    | OnLink(key: Key, body: LinkMsg)
    | ErrorText

  /** up carries messages to the remote end, down to the local end.
      greeted: the remote end has left HANDSHAKING. io: socket traffic per link. */
  datatype System = System(
    local: Conns, remote: Conns, up: seq<Msg>, down: seq<Msg>, greeted: bool, io: map<Key, Protocol.Traffic>)

  datatype Action =
    | Accept(atLocal: bool, cid: Short)
    | Poll(atLocal: bool, reports: map<Key, Events>)
    | LinkPolled(atLocal: bool, key: Key, rd: ReadResult, n: nat)
    | Deliver(toLocal: bool, connected: bool, failed: set<Short>)

  datatype Outcome = Running(s: System) | Stopped(fault: Fault)

  // ---------------------------------------------------------------- access

  function ConnsAt(s: System, atLocal: bool): Conns {
    if atLocal then s.local else s.remote
  }

  function IoOf(s: System, k: Key): Protocol.Traffic {
    if k in s.io then s.io[k] else Protocol.SILENCE
  }

  function SlotOf(cs: Conns, k: Key): Option<Link> {
    if k.cid in cs && k.lid in cs[k.cid].links then Some(cs[k.cid].links[k.lid]) else None
  }

  function SetSlot(cs: Conns, k: Key, slot: Option<Link>): Conns
    requires k.cid in cs
  {
    var conn := cs[k.cid];
    match slot
    case None => cs[k.cid := conn.(links := conn.links - {k.lid})]
    case Some(l) => cs[k.cid := conn.(links := conn.links[k.lid := l])]
  }

  function Wrap(k: Key, bodies: seq<LinkMsg>): seq<Msg> {
    if bodies == [] then [] else [OnLink(k, bodies[0])] + Wrap(k, bodies[1..])
  }

  /** Puts an end's new connections and outgoing messages back into the system. */
  function Update(s: System, atLocal: bool, cs: Conns, out: seq<Msg>, k: Key, io: Protocol.Traffic): System {
    if atLocal then s.(local := cs, up := s.up + out, io := s.io[k := io])
    else s.(remote := cs, down := s.down + out, io := s.io[k := io])
  }

  // ---------------------------------------------------------------- handshake

  /** CreateConnection over the table at one end; a ListenSide whose initialize() fails is left out. */
  function MakeConns(isLocal: bool, es: seq<Entry>, failed: set<Short>): Conns {
    if es == [] then map[]
    else
      var rest, id, spec := MakeConns(isLocal, es[..|es| - 1], failed), es[|es| - 1].0, es[|es| - 1].1;
      if spec.ListensAt(isLocal) && id in failed then rest
      else rest[id := Conn(spec.ListensAt(isLocal), spec.AckPackets(), map[], 501)]
  }

  // ---------------------------------------------------------------- steps

  predicate Enabled(s: System, a: Action) {
    match a
    case Accept(at, cid) => cid in ConnsAt(s, at) && ConnsAt(s, at)[cid].listening
    case Poll(at, reports) =>
      forall k :: k in reports ==>
        SlotOf(ConnsAt(s, at), k).Some? && Reportable(SlotOf(ConnsAt(s, at), k).value, reports[k])
    case LinkPolled(at, k, rd, _) =>
      && SlotOf(ConnsAt(s, at), k).Some? && SlotOf(ConnsAt(s, at), k).value.registered
      && SlotOf(ConnsAt(s, at), k).value.revents != NOTHING
      && (rd.Bytes? ==> 0 < |rd.data| <= MAX_DATA)
    case Deliver(toLocal, _, _) => (if toLocal then s.down else s.up) != []
  }

  /** The id under which ListenSide::polled makes its next link. */
  function NextKey(cs: Conns, cid: Short): Key
    requires cid in cs
  {
    Key(cid, ToShort(cs[cid].nextId))
  }

  function Accepted(cs: Conns, cid: Short): Conns
    requires cid in cs
  {
    cs[cid := cs[cid].(links := cs[cid].links[NextKey(cs, cid).lid := FRESH], nextId := cs[cid].nextId + 1)]
  }

  /** ListenSide::polled */
  function AcceptAt(s: System, at: bool, cid: Short): System
    requires cid in ConnsAt(s, at)
  {
    var cs := ConnsAt(s, at);
    var k := NextKey(cs, cid);
    Update(s, at, Accepted(cs, cid), [OnLink(k, Create)], k, Protocol.SILENCE)
  }

  function Record(io: Protocol.Traffic, listening: bool, t: Turn): Protocol.Traffic {
    if listening then io.(lRead := io.lRead + t.read, lWritten := io.lWritten + t.wrote)
    else io.(cRead := io.cRead + t.read, cWritten := io.cWritten + t.wrote)
  }

  function LinkPolledAt(s: System, at: bool, k: Key, rd: ReadResult, n: nat): System
    requires SlotOf(ConnsAt(s, at), k).Some?
  {
    var cs := ConnsAt(s, at);
    var t := Polled(SlotOf(cs, k).value, cs[k.cid].ack, rd, n);
    Update(s, at, SetSlot(cs, k, Some(Visited(t.link))), Wrap(k, t.sends), k,
      Record(IoOf(s, k), cs[k.cid].listening, t))
  }

  /** poll() writes a report into every entry; links not named in `reports` have nothing to report. */
  function Report(l: Link, k: Key, reports: map<Key, Events>): Link {
    if l.registered then l.(revents := if k in reports then reports[k] else NOTHING) else l
  }

  function Reported(cs: Conns, reports: map<Key, Events>): Conns {
    map cid | cid in cs :: cs[cid].(links := ReportedLinks(cid, cs[cid].links, reports))
  }

  function ReportedLinks(cid: Short, links: map<Short, Link>, reports: map<Key, Events>): map<Short, Link> {
    map lid | lid in links :: Report(links[lid], Key(cid, lid), reports)
  }

  function PollAt(s: System, at: bool, reports: map<Key, Events>): System {
    if at then s.(local := Reported(s.local, reports)) else s.(remote := Reported(s.remote, reports))
  }

  /** A CMD_CONNECTION message: m_connection_map[id]->processMessage. */
  function Dispatch(s: System, at: bool, k: Key, body: LinkMsg, connected: bool): Outcome {
    var cs := ConnsAt(s, at);
    if k.cid !in cs then Stopped(NoConnection)
    else
      match Receive(cs[k.cid].listening, SlotOf(cs, k), body, connected)
      case Failed(why) => Stopped(why)
      case Reaction(slot, replies) =>
        var error := if !at && !cs[k.cid].listening && body == Create && !connected then [ErrorText] else [];
        Running(Update(s, at, SetSlot(cs, k, slot), error + Wrap(k, replies), k, IoOf(s, k)))
  }

  function DeliverUp(s: System, connected: bool, failed: set<Short>): Outcome
    requires s.up != []
  {
    var s' := s.(up := s.up[1..]);
    match s.up[0]
    case CreateTable(es) =>
      if s.greeted then Stopped(UnexpectedCommand)
      else if |es| > 0x7fff then Stopped(Desynchronised)
      else Running(s'.(remote := MakeConns(false, Images(es), failed), greeted := true, down := s.down + [CreateDone]))
    case OnLink(k, body) =>
      if s.greeted then Dispatch(s', false, k, body, connected) else Stopped(UnexpectedCommand)
    case _ => Stopped(UnexpectedCommand)
  }

  function DeliverDown(s: System, connected: bool): Outcome
    requires s.down != []
  {
    var s' := s.(down := s.down[1..]);
    match s.down[0]
    case CreateTable(_) => Stopped(Desynchronised)
    case CreateDone => Running(s')
    case OnLink(k, body) => Dispatch(s', true, k, body, connected)
    case ErrorText => Running(s')
  }

  function Step(s: System, a: Action): Outcome
    requires Enabled(s, a)
  {
    match a
    case Accept(at, cid) => Running(AcceptAt(s, at, cid))
    case Poll(at, reports) => Running(PollAt(s, at, reports))
    case LinkPolled(at, k, rd, n) => Running(LinkPolledAt(s, at, k, rd, n))
    case Deliver(toLocal, connected, failed) =>
      if toLocal then DeliverDown(s, connected) else DeliverUp(s, connected, failed)
  }

  // ---------------------------------------------------------------- projection to one link id

  /** The messages of one link in a channel. */
  function Only(ch: seq<Msg>, k: Key): seq<LinkMsg> {
    if ch == [] then []
    else (if ch[0].OnLink? && ch[0].key == k then [ch[0].body] else []) + Only(ch[1..], k)
  }

  function Pair(s: System, k: Key): Protocol.Pair
    requires k.cid in s.local
  {
    if s.local[k.cid].listening then
      Protocol.Pair(SlotOf(s.local, k), SlotOf(s.remote, k), Only(s.up, k), Only(s.down, k), IoOf(s, k))
    else
      Protocol.Pair(SlotOf(s.remote, k), SlotOf(s.local, k), Only(s.down, k), Only(s.up, k), IoOf(s, k))
  }

  lemma {:induction false} OnlyAppend(a: seq<Msg>, b: seq<Msg>, k: Key)
    ensures Only(a + b, k) == Only(a, k) + Only(b, k)
  {
    if a == [] {
      assert a + b == b;
    } else {
      OnlyAppend(a[1..], b, k);
      assert (a + b)[1..] == a[1..] + b && (a + b)[0] == a[0];
    }
  }

  lemma {:induction false} OnlyWrap(k: Key, bodies: seq<LinkMsg>, k': Key)
    ensures Only(Wrap(k, bodies), k') == if k' == k then bodies else []
  {
    if bodies != [] {
      OnlyWrap(k, bodies[1..], k');
      assert Wrap(k, bodies)[1..] == Wrap(k, bodies[1..]);
    }
  }

  // ---------------------------------------------------------------- invariant

  /** The remote connections mirror local ones: opposite role, same ACK flag, and every local
      ListenSide has its remote ConnectSide. */
  predicate Complementary(local: Conns, remote: Conns) {
    && (forall cid :: cid in remote ==>
          cid in local && remote[cid].listening == !local[cid].listening && remote[cid].ack == local[cid].ack)
    && (forall cid :: cid in local && local[cid].listening ==> cid in remote)
  }

  /** The local map is what startHandshaking serialises. */
  predicate Tabled(local: Conns, es: seq<Entry>) {
    && |es| <= 0x7fff
    && (forall i :: 0 <= i < |es| ==>
          && es[i].1.direction in {LISTEN, CONNECT}
          && es[i].0 in local
          && local[es[i].0].listening == es[i].1.ListensAt(true)
          && local[es[i].0].ack == es[i].1.AckPackets())
    && (forall cid :: cid in local ==> exists i :: 0 <= i < |es| && es[i].0 == cid)
  }

  predicate FromListener(local: Conns, m: Msg) {
    m.OnLink? && m.key.cid in local && local[m.key.cid].listening
  }

  /** Before the remote end has seen CMD_CREATE it has no connection and has sent nothing. */
  predicate Awaiting(s: System) {
    && !s.greeted && s.remote == map[] && s.down == []
    && s.up != [] && s.up[0].CreateTable? && Tabled(s.local, s.up[0].entries)
    && (forall i :: 0 < i < |s.up| ==> FromListener(s.local, s.up[i]))
  }

  predicate Connected(s: System) {
    && s.greeted && Complementary(s.local, s.remote)
    && (forall i :: 0 <= i < |s.up| ==> s.up[i].OnLink? && s.up[i].key.cid in s.local && s.up[i].key.cid in s.remote)
    && (forall i :: 0 <= i < |s.down| ==>
          s.down[i].CreateDone? || s.down[i].ErrorText? || (s.down[i].OnLink? && s.down[i].key.cid in s.remote))
  }

  ghost predicate LinksFine(s: System) {
    forall k: Key :: k.cid in s.local ==> Protocol.Inv(s.local[k.cid].ack, Pair(s, k))
  }

  ghost predicate Inv(s: System) {
    (Awaiting(s) || Connected(s)) && LinksFine(s)
  }

  /** The state in which startHandshaking leaves the local end. */
  predicate Init(s: System) {
    && !s.greeted && s.remote == map[] && s.down == [] && s.io == map[]
    && |s.up| == 1 && s.up[0].CreateTable? && Tabled(s.local, s.up[0].entries)
    && (forall cid :: cid in s.local ==> s.local[cid].links == map[] && s.local[cid].nextId == 501)
  }

  lemma InitIsInv(s: System)
    requires Init(s)
    ensures Inv(s)
  {
    forall k: Key | k.cid in s.local ensures Protocol.Inv(s.local[k.cid].ack, Pair(s, k)) {
      assert s.up[1..] == [] && Pair(s, k) == Protocol.UNUSED;
      Protocol.UnusedIsInv(s.local[k.cid].ack);
    }
  }

  // ---------------------------------------------------------------- the handshake establishes roles

  lemma {:induction false} MakeConnsFrom(isLocal: bool, es: seq<Entry>, failed: set<Short>, cid: Short)
    ensures var cs := MakeConns(isLocal, es, failed);
      && (cid in cs ==> cs[cid].links == map[]
                        && (exists i :: 0 <= i < |es| && es[i].0 == cid
                              && cs[cid].listening == es[i].1.ListensAt(isLocal)
                              && cs[cid].ack == es[i].1.AckPackets()))
      && ((exists i :: 0 <= i < |es| && es[i].0 == cid && !es[i].1.ListensAt(isLocal)) ==> cid in cs)
  {
    if es != [] {
      var n := |es| - 1;
      MakeConnsFrom(isLocal, es[..n], failed, cid);
      assert forall i :: 0 <= i < n ==> es[..n][i] == es[i];
      if cid == es[n].0 {
        assert es[n].0 == cid;
      }
    }
  }

  /** Processing CMD_CREATE gives every transferred connection the opposite role and the same ACK flag. */
  lemma HandshakeComplements(local: Conns, es: seq<Entry>, failed: set<Short>)
    requires Tabled(local, es)
    ensures Complementary(local, MakeConns(false, Images(es), failed))
  {
    var remote := MakeConns(false, Images(es), failed);
    var sent := Images(es);
    forall i | 0 <= i < |es|
      ensures sent[i].0 == es[i].0
      ensures sent[i].1.ListensAt(false) == !es[i].1.ListensAt(true) && sent[i].1.AckPackets() == es[i].1.AckPackets()
    {
      WireImageKeeps(es[i].1);
    }
    hide Images, WireImage;
    forall cid
      ensures cid in remote ==>
                cid in local && remote[cid].listening == !local[cid].listening && remote[cid].ack == local[cid].ack
      ensures cid in local && local[cid].listening ==> cid in remote
    {
      MakeConnsFrom(false, sent, failed, cid);
    }
  }

  /** The local end once start() has made its connections, those whose listener failed left out. Its
      listeners are in the Poller from now on. */
  function Started(es: seq<Entry>): System {
    System(MakeConns(true, es, {}), map[], [], [], false, map[])
  }

  /** startHandshaking */
  function HandshakeSent(s: System, es: seq<Entry>): System {
    s.(up := s.up + [CreateTable(es)])
  }

  function StartState(es: seq<Entry>): System {
    HandshakeSent(Started(es), es)
  }

  predicate Listeners(local: Conns, cids: seq<Short>) {
    forall i :: 0 <= i < |cids| ==> cids[i] in local && local[cids[i]].listening
  }

  /** Accepts at local listeners, one after the other. */
  function AcceptAll(s: System, cids: seq<Short>): System
    requires Listeners(s.local, cids)
    decreases |cids|
  {
    if cids == [] then s else AcceptAll(AcceptAt(s, true, cids[0]), cids[1..])
  }

  lemma {:induction false} AcceptsQueue(s: System, cids: seq<Short>)
    requires Listeners(s.local, cids)
    ensures var s' := AcceptAll(s, cids);
      && |s'.up| == |s.up| + |cids| && s'.up[..|s.up|] == s.up
      && (forall i :: |s.up| <= i < |s'.up| ==> s'.up[i].OnLink?)
      && s'.greeted == s.greeted && s'.remote == s.remote && s'.local.Keys == s.local.Keys
      && (forall cid :: cid in s.local ==> s'.local[cid].listening == s.local[cid].listening)
    decreases |cids|
  {
    hide ToShort;
    if cids != [] {
      var t := AcceptAt(s, true, cids[0]);
      AcceptsQueue(t, cids[1..]);
      hide AcceptAt;
      assert t.up[..|s.up|] == s.up && |t.up| == |s.up| + 1;
      assert AcceptAll(s, cids).up[..|s.up|] == AcceptAll(s, cids).up[..|t.up|][..|s.up|];
    }
  }

  /** Listeners may accept before and after startHandshaking, while nothing has been delivered yet. Whatever
      they do, the remote end takes the first message it is given if and only if nobody has accepted before
      startHandshaking and the table has at most 32767 entries. */
  lemma FirstDelivery(es: seq<Entry>, before: seq<Short>, after: seq<Short>, connected: bool, failed: set<Short>)
    requires Listeners(Started(es).local, before) && Listeners(Started(es).local, after)
    ensures var s1 := HandshakeSent(AcceptAll(Started(es), before), es);
      && Listeners(s1.local, after)
      && var s := AcceptAll(s1, after);
      && s.up != []
      && var o := Step(s, Deliver(false, connected, failed));
      && (o.Running? <==> before == [] && |es| <= 0x7fff)
      && (before != [] ==> o == Stopped(UnexpectedCommand))
      && (before == [] && |es| > 0x7fff ==> o == Stopped(Desynchronised))
  {
    AcceptsQueue(Started(es), before);
    var s1 := HandshakeSent(AcceptAll(Started(es), before), es);
    AcceptsQueue(s1, after);
    var s := AcceptAll(s1, after);
    assert s.up[0] == s.up[..|s1.up|][0] == s1.up[0];
    hide AcceptAll, MakeConns, Images;
    if before != [] {
      assert s1.up[0] == AcceptAll(Started(es), before).up[0];
    }
  }

  /** Such a run: one listener, one connection accepted while the login is still going on. */
  lemma EarlyAcceptStopsTheRun()
    ensures var es := [(0, ConnectionSpec(CONNECT, [104], 80, 8080, 0))];
      && Listeners(Started(es).local, [0])
      && Step(HandshakeSent(AcceptAll(Started(es), [0]), es), Deliver(false, true, {})) == Stopped(UnexpectedCommand)
  {
    var es: seq<Entry> := [(0, ConnectionSpec(CONNECT, [104], 80, 8080, 0))];
    AllMade(true, es, 0);
    MakeConnsFrom(true, es, {}, 0);
    assert Listeners(Started(es).local, [0]);
    FirstDelivery(es, [0], [], true, {});
    hide Step, MakeConns;
    assert AcceptAll(HandshakeSent(AcceptAll(Started(es), [0]), es), [])
      == HandshakeSent(AcceptAll(Started(es), [0]), es);
  }

  /** With ids handed out one by one, that is a state from which runs begin. */
  lemma StartIsInit(es: seq<Entry>)
    requires |es| <= 0x7fff
    requires forall i :: 0 <= i < |es| ==> es[i].1.direction in {LISTEN, CONNECT}
    requires forall i, j :: 0 <= i < j < |es| ==> es[i].0 != es[j].0
    ensures Init(StartState(es))
  {
    var local := MakeConns(true, es, {});
    forall cid ensures cid in local ==> local[cid].links == map[] && local[cid].nextId == 501 {
      NewConnNumbers(true, es, {}, cid);
    }
    forall i | 0 <= i < |es|
      ensures es[i].0 in local
      ensures local[es[i].0].listening == es[i].1.ListensAt(true) && local[es[i].0].ack == es[i].1.AckPackets()
    {
      AllMade(true, es, i);
      MakeConnsFrom(true, es, {}, es[i].0);
    }
    forall cid ensures cid in local ==> exists i :: 0 <= i < |es| && es[i].0 == cid {
      MakeConnsFrom(true, es, {}, cid);
    }
  }

  lemma {:induction false} AllMade(isLocal: bool, es: seq<Entry>, i: nat)
    requires i < |es|
    ensures es[i].0 in MakeConns(isLocal, es, {})
  {
    if i < |es| - 1 {
      AllMade(isLocal, es[..|es| - 1], i);
    }
  }

  // ---------------------------------------------------------------- every step is a step of one pair

  /** The end `at` is the ListenSide of connection cid. */
  predicate AtListener(s: System, at: bool, cid: Short)
    requires cid in s.local
  {
    at == s.local[cid].listening
  }

  function PairAfter(p: Protocol.Pair, atListener: bool, slot: Option<Link>, sent: seq<LinkMsg>, io: Protocol.Traffic)
    : Protocol.Pair
  {
    if atListener then p.(l := slot, lc := p.lc + sent, io := io) else p.(c := slot, cl := p.cl + sent, io := io)
  }

  /** cs' differs from cs in the slot k only, and keeps every connection's role. */
  ghost predicate OnlySlot(cs: Conns, cs': Conns, k: Key, slot: Option<Link>) {
    && cs.Keys == cs'.Keys
    && (forall cid :: cid in cs ==> cs'[cid].listening == cs[cid].listening && cs'[cid].ack == cs[cid].ack)
    && SlotOf(cs', k) == slot
    && (forall k' :: k' != k ==> SlotOf(cs', k') == SlotOf(cs, k'))
  }

  lemma SetSlotIsOnly(cs: Conns, k: Key, slot: Option<Link>)
    requires k.cid in cs
    ensures OnlySlot(cs, SetSlot(cs, k, slot), k, slot)
  {}

  lemma UpdatePair(s: System, at: bool, cs: Conns, slot: Option<Link>, prefix: seq<Msg>, bodies: seq<LinkMsg>,
                   k: Key, io: Protocol.Traffic, k': Key)
    requires k.cid in s.local && k'.cid in s.local
    requires OnlySlot(ConnsAt(s, at), cs, k, slot)
    requires prefix == [] || prefix == [ErrorText]
    ensures var s' := Update(s, at, cs, prefix + Wrap(k, bodies), k, io);
      && s'.local.Keys == s.local.Keys && s'.local[k'.cid].ack == s.local[k'.cid].ack
      && s'.local[k'.cid].listening == s.local[k'.cid].listening
      && Pair(s', k')
         == if k' == k then PairAfter(Pair(s, k), AtListener(s, at, k.cid), slot, bodies, io) else Pair(s, k')
  {
    OnlyOut(if at then s.up else s.down, prefix, k, bodies, k');
    hide Only, Wrap;
    assert forall s: seq<LinkMsg> :: s + [] == s;
  }

  lemma OnlyOut(ch: seq<Msg>, prefix: seq<Msg>, k: Key, bodies: seq<LinkMsg>, k': Key)
    requires prefix == [] || prefix == [ErrorText]
    ensures Only(ch + (prefix + Wrap(k, bodies)), k') == Only(ch, k') + (if k' == k then bodies else [])
  {
    OnlyAppend(ch, prefix + Wrap(k, bodies), k');
    OnlyAppend(prefix, Wrap(k, bodies), k');
    OnlyWrap(k, bodies, k');
    assert Only(prefix, k') == [] by { assert [ErrorText][1..] == []; }
    assert [] + bodies == bodies;
  }

  /** If one pair moved by a permitted step and the others stood still, all links are still fine. */
  lemma OnePairMoves(s: System, s': System, k: Key, p': Protocol.Pair)
    requires LinksFine(s) && k.cid in s.local && s'.local.Keys == s.local.Keys
    requires Protocol.Inv(s.local[k.cid].ack, p')
    requires forall k': Key :: k'.cid in s.local ==>
      s'.local[k'.cid].ack == s.local[k'.cid].ack && Pair(s', k') == if k' == k then p' else Pair(s, k')
    ensures LinksFine(s')
  {}

  /** Messages sent by an end over one of its connections fit the channel invariants. */
  lemma UpdateKeepsShape(s: System, at: bool, cs: Conns, slot: Option<Link>, prefix: seq<Msg>, bodies: seq<LinkMsg>,
                         k: Key, io: Protocol.Traffic)
    requires Awaiting(s) || Connected(s)
    requires k.cid in ConnsAt(s, at)
    requires OnlySlot(ConnsAt(s, at), cs, k, slot)
    requires prefix == [] || (prefix == [ErrorText] && !at)
    requires Awaiting(s) ==> s.local[k.cid].listening
    requires s.greeted && at ==> k.cid in s.remote
    ensures var s' := Update(s, at, cs, prefix + Wrap(k, bodies), k, io);
      (Awaiting(s) ==> Awaiting(s')) && (Connected(s) ==> Connected(s'))
  {
    WrapShape(k, bodies);
    hide Wrap, SlotOf;
  }

  lemma {:induction false} WrapShape(k: Key, bodies: seq<LinkMsg>)
    ensures forall i :: 0 <= i < |Wrap(k, bodies)| ==> Wrap(k, bodies)[i].OnLink? && Wrap(k, bodies)[i].key == k
  {
    if bodies != [] {
      WrapShape(k, bodies[1..]);
    }
  }

  // ---------------------------------------------------------------- preservation

  /** The id ListenSide::polled is about to hand out is not in its link map. */
  predicate IdFree(s: System, at: bool, cid: Short)
    requires cid in ConnsAt(s, at)
  {
    ToShort(ConnsAt(s, at)[cid].nextId) !in ConnsAt(s, at)[cid].links
  }

  predicate Permitted(s: System, a: Action) {
    Enabled(s, a) && (a.Accept? ==> IdFree(s, a.atLocal, a.cid))
  }

  /** An end's connection in a good state: known locally, role and flag as the local map says. */
  lemma RoleAt(s: System, at: bool, cid: Short)
    requires Awaiting(s) || Connected(s)
    requires cid in ConnsAt(s, at)
    ensures cid in s.local && ConnsAt(s, at)[cid].listening == AtListener(s, at, cid)
    ensures ConnsAt(s, at)[cid].ack == s.local[cid].ack
  {}

  lemma SlotInPair(s: System, at: bool, k: Key)
    requires k.cid in s.local
    ensures SlotOf(ConnsAt(s, at), k) == Protocol.SlotAt(Pair(s, k), AtListener(s, at, k.cid))
  {}

  /** Until the remote end has answered nothing is registered. */
  lemma NothingRegisteredYet(s: System, at: bool, k: Key)
    requires Inv(s) && Awaiting(s)
    requires SlotOf(ConnsAt(s, at), k).Some?
    ensures !SlotOf(ConnsAt(s, at), k).value.registered
  {}

  /** The common part of all steps that touch one link: `base` is s0 without a message just taken. */
  lemma UpdatePreserves(s0: System, base: System, at: bool, cs: Conns, slot: Option<Link>,
                        prefix: seq<Msg>, bodies: seq<LinkMsg>, k: Key, io: Protocol.Traffic)
    requires LinksFine(s0) && s0.local == base.local
    requires Awaiting(base) || Connected(base)
    requires k.cid in ConnsAt(base, at) && k.cid in base.local
    requires OnlySlot(ConnsAt(base, at), cs, k, slot)
    requires prefix == [] || (prefix == [ErrorText] && !at)
    requires Awaiting(base) ==> base.local[k.cid].listening
    requires base.greeted && at ==> k.cid in base.remote
    requires forall k': Key :: k'.cid in s0.local && k' != k ==> Pair(base, k') == Pair(s0, k')
    requires Protocol.Inv(s0.local[k.cid].ack, PairAfter(Pair(base, k), AtListener(base, at, k.cid), slot, bodies, io))
    ensures Inv(Update(base, at, cs, prefix + Wrap(k, bodies), k, io))
  {
    UpdateKeepsShape(base, at, cs, slot, prefix, bodies, k, io);
    var s' := Update(base, at, cs, prefix + Wrap(k, bodies), k, io);
    var p' := PairAfter(Pair(base, k), AtListener(base, at, k.cid), slot, bodies, io);
    UpdatePair(base, at, cs, slot, prefix, bodies, k, io, k);
    hide Protocol.Inv, Pair, OnlySlot, Awaiting, Connected, PairAfter, Update;
    forall k': Key | k'.cid in s0.local ensures
      s'.local[k'.cid].ack == s0.local[k'.cid].ack && Pair(s', k') == if k' == k then p' else Pair(s0, k')
    {
      UpdatePair(base, at, cs, slot, prefix, bodies, k, io, k');
    }
    OnePairMoves(s0, s', k, p');
  }

  lemma AcceptOnlySlot(cs: Conns, cid: Short)
    requires cid in cs
    ensures OnlySlot(cs, Accepted(cs, cid), NextKey(cs, cid), Some(FRESH))
  {}

  lemma AcceptPair(s: System, at: bool, cid: Short)
    requires Inv(s) && Enabled(s, Accept(at, cid)) && IdFree(s, at, cid)
    ensures var k := NextKey(ConnsAt(s, at), cid);
      && cid in s.local && AtListener(s, at, cid)
      && (Awaiting(s) ==> s.local[cid].listening) && (s.greeted && at ==> cid in s.remote)
      && Protocol.Inv(s.local[cid].ack, PairAfter(Pair(s, k), true, Some(FRESH), [Create], Protocol.SILENCE))
  {
    var k := NextKey(ConnsAt(s, at), cid);
    RoleAt(s, at, cid);
    SlotInPair(s, at, k);
    hide ToShort, Protocol.Inv;
    Protocol.AcceptSafe(s.local[cid].ack, Pair(s, k));
  }

  lemma AcceptPreserves(s: System, at: bool, cid: Short)
    requires Inv(s) && Enabled(s, Accept(at, cid)) && IdFree(s, at, cid)
    ensures Inv(AcceptAt(s, at, cid))
  {
    hide Protocol.Inv, Pair, Wrap, ToShort, PairAfter, OnlySlot, LinksFine, Awaiting, Connected, IdFree, Update;
    var cs, k := ConnsAt(s, at), NextKey(ConnsAt(s, at), cid);
    AcceptPair(s, at, cid);
    AcceptOnlySlot(cs, cid);
    WrapOne(k, Create);
    UpdatePreserves(s, s, at, Accepted(cs, cid), Some(FRESH), [], [Create], k, Protocol.SILENCE);
  }

  lemma WrapOne(k: Key, m: LinkMsg)
    ensures [] + Wrap(k, [m]) == [OnLink(k, m)]
  {}

  lemma ReportedSlot(cs: Conns, reports: map<Key, Events>, k: Key)
    ensures SlotOf(Reported(cs, reports), k)
            == match SlotOf(cs, k) case None => None case Some(l) => Some(Report(l, k, reports))
  {}

  lemma PollPair(s: System, at: bool, reports: map<Key, Events>, k: Key)
    requires Inv(s) && Enabled(s, Poll(at, reports)) && k.cid in s.local
    ensures var s' := PollAt(s, at, reports);
      && k.cid in s'.local && s'.local[k.cid].ack == s.local[k.cid].ack
      && Protocol.Inv(s.local[k.cid].ack, Pair(s', k))
  {
    assert Protocol.Inv(s.local[k.cid].ack, Pair(s, k));
    SlotInPair(s, at, k);
    ReportedPair(s, at, reports, k);
    hide Protocol.Inv, Reported, Pair, Inv;
    var p, atL, slot := Pair(s, k), AtListener(s, at, k.cid), SlotOf(ConnsAt(s, at), k);
    if slot.Some? && slot.value.registered {
      Protocol.PollPreserves(s.local[k.cid].ack, p, atL, if k in reports then reports[k] else NOTHING);
    }
  }

  lemma ReportedPair(s: System, at: bool, reports: map<Key, Events>, k: Key)
    requires k.cid in s.local
    ensures var s' := PollAt(s, at, reports);
      && k.cid in s'.local && s'.local[k.cid].ack == s.local[k.cid].ack
      && var p, slot := Pair(s, k), SlotOf(ConnsAt(s, at), k);
      var slot' := match slot case None => None case Some(l) => Some(Report(l, k, reports));
      Pair(s', k) == if AtListener(s, at, k.cid) then p.(l := slot') else p.(c := slot')
  {
    hide Reported, Report;
    ReportedSlot(ConnsAt(s, at), reports, k);
    ReportedKeys(ConnsAt(s, at), reports);
  }

  lemma ReportedKeys(cs: Conns, reports: map<Key, Events>)
    ensures Reported(cs, reports).Keys == cs.Keys
    ensures forall cid :: cid in cs ==>
      Reported(cs, reports)[cid].listening == cs[cid].listening && Reported(cs, reports)[cid].ack == cs[cid].ack
  {}

  lemma PollPreserves(s: System, at: bool, reports: map<Key, Events>)
    requires Inv(s) && Enabled(s, Poll(at, reports))
    ensures Inv(PollAt(s, at, reports))
  {
    hide Protocol.Inv, Pair, Reported;
    ReportedKeys(ConnsAt(s, at), reports);
    var s' := PollAt(s, at, reports);
    assert Awaiting(s) ==> Awaiting(s');
    assert Connected(s) ==> Connected(s');
    hide Awaiting, Connected;
    forall k: Key | k.cid in s'.local ensures Protocol.Inv(s'.local[k.cid].ack, Pair(s', k)) {
      PollPair(s, at, reports, k);
    }
  }

  lemma PairIo(s: System, k: Key)
    requires k.cid in s.local
    ensures Pair(s, k).io == IoOf(s, k)
  {}

  lemma LinkPolledPair(s: System, at: bool, k: Key, rd: ReadResult, n: nat)
    requires Inv(s) && Enabled(s, LinkPolled(at, k, rd, n))
    ensures k.cid in s.local && (Awaiting(s) ==> s.local[k.cid].listening)
    ensures s.greeted && at ==> k.cid in s.remote
    ensures var cs, ack := ConnsAt(s, at), s.local[k.cid].ack;
      var t := Polled(SlotOf(cs, k).value, ack, rd, n);
      && cs[k.cid].ack == ack
      && Protocol.Inv(ack, PairAfter(Pair(s, k), AtListener(s, at, k.cid), Some(Visited(t.link)), t.sends,
                                     Record(IoOf(s, k), cs[k.cid].listening, t)))
  {
    RoleAt(s, at, k.cid);
    SlotInPair(s, at, k);
    if Awaiting(s) { NothingRegisteredYet(s, at, k); }
    hide Polled;
    var p, atL, ack := Pair(s, k), AtListener(s, at, k.cid), s.local[k.cid].ack;
    Protocol.LinkPolledPreserves(ack, p, atL, rd, n);
    PairIo(s, k);
    RegisteredAtBoth(s, at, k);
  }

  /** A link can only be registered once both ends have the connection. */
  lemma RegisteredAtBoth(s: System, at: bool, k: Key)
    requires Inv(s) && SlotOf(ConnsAt(s, at), k).Some? && SlotOf(ConnsAt(s, at), k).value.registered
    ensures Connected(s) && k.cid in s.local && k.cid in s.remote
  {}

  lemma LinkPolledPreserves(s: System, at: bool, k: Key, rd: ReadResult, n: nat)
    requires Inv(s) && Enabled(s, LinkPolled(at, k, rd, n))
    ensures Inv(LinkPolledAt(s, at, k, rd, n))
  {
    hide Protocol.Inv, Pair, Wrap, Polled, PairAfter, OnlySlot, LinksFine, SetSlot;
    var cs := ConnsAt(s, at);
    LinkPolledPair(s, at, k, rd, n);
    var t := Polled(SlotOf(cs, k).value, cs[k.cid].ack, rd, n);
    var slot, io := Some(Visited(t.link)), Record(IoOf(s, k), cs[k.cid].listening, t);
    SetSlotIsOnly(cs, k, slot);
    assert [] + Wrap(k, t.sends) == Wrap(k, t.sends);
    UpdatePreserves(s, s, at, SetSlot(cs, k, slot), slot, [], t.sends, k, io);
  }

  /** The incoming channel of an end, and the system after its oldest message is taken off. */
  function Incoming(s: System, at: bool): seq<Msg> {
    if at then s.down else s.up
  }

  function Popped(s: System, at: bool): System
    requires Incoming(s, at) != []
  {
    if at then s.(down := s.down[1..]) else s.(up := s.up[1..])
  }

  lemma PoppedPair(s: System, at: bool, k': Key)
    requires Incoming(s, at) != [] && k'.cid in s.local
    ensures var m, p, toL := Incoming(s, at)[0], Pair(s, k'), AtListener(s, at, k'.cid);
      Pair(Popped(s, at), k') ==
        if m.OnLink? && m.key == k' then (if toL then p.(cl := p.cl[1..]) else p.(lc := p.lc[1..])) else p
    ensures var m, p, toL := Incoming(s, at)[0], Pair(s, k'), AtListener(s, at, k'.cid);
      m.OnLink? && m.key == k' ==> if toL then p.cl != [] && p.cl[0] == m.body else p.lc != [] && p.lc[0] == m.body
  {
    OnlyHead(Incoming(s, at), k');
    hide Only, SlotOf, IoOf;
  }

  lemma OnlyHead(ch: seq<Msg>, k: Key)
    requires ch != []
    ensures ch[0].OnLink? && ch[0].key == k ==>
      Only(ch, k) != [] && Only(ch, k)[0] == ch[0].body && Only(ch, k)[1..] == Only(ch[1..], k)
    ensures !(ch[0].OnLink? && ch[0].key == k) ==> Only(ch, k) == Only(ch[1..], k)
  {}

  /** A link's message only travels once both ends are connected; delivering it is handling it. */
  lemma LinkHead(s: System, at: bool)
    requires Inv(s) && Incoming(s, at) != [] && Incoming(s, at)[0].OnLink?
    ensures Connected(s) && s.greeted
  {
    hide LinksFine, Complementary, Tabled, FromListener;
  }

  lemma DeliverOnLink(s: System, at: bool, connected: bool, failed: set<Short>)
    requires Incoming(s, at) != [] && Incoming(s, at)[0].OnLink? && s.greeted
    ensures var m := Incoming(s, at)[0];
      Step(s, Deliver(at, connected, failed)) == Dispatch(Popped(s, at), at, m.key, m.body, connected)
  {
    hide Dispatch, MakeConns, Images;
  }

  lemma DispatchPair(s: System, at: bool, connected: bool)
    requires Inv(s) && Connected(s) && Incoming(s, at) != [] && Incoming(s, at)[0].OnLink?
    ensures var m, cs := Incoming(s, at)[0], ConnsAt(s, at);
      var k := m.key;
      && k.cid in s.local && k.cid in s.remote && cs[k.cid].listening == AtListener(s, at, k.cid)
      && var r := Receive(cs[k.cid].listening, SlotOf(cs, k), m.body, connected);
      && r.Reaction?
      && Protocol.Inv(s.local[k.cid].ack,
           PairAfter(Pair(Popped(s, at), k), AtListener(s, at, k.cid), r.slot, r.replies, IoOf(s, k)))
  {
    var m, cs := Incoming(s, at)[0], ConnsAt(s, at);
    var k := m.key;
    RoleAt(s, at, k.cid);
    SlotInPair(s, at, k);
    PairIo(s, k);
    PoppedPair(s, at, k);
    var p, toL, ack := Pair(s, k), AtListener(s, at, k.cid), s.local[k.cid].ack;
    assert Protocol.Inv(ack, p);
    hide Receive, Pair, Protocol.Inv;
    Protocol.StepPreserves(ack, p, Protocol.Deliver(toL, connected));
  }

  lemma DispatchPreserves(s: System, at: bool, connected: bool)
    requires Inv(s) && Connected(s) && Incoming(s, at) != [] && Incoming(s, at)[0].OnLink?
    ensures var m := Incoming(s, at)[0];
      var o := Dispatch(Popped(s, at), at, m.key, m.body, connected);
      o.Running? && Inv(o.s)
  {
    hide Receive, Pair, Protocol.Inv, PairAfter, SetSlot, OnlySlot, Wrap, Connected;
    var m, s1, cs := Incoming(s, at)[0], Popped(s, at), ConnsAt(s, at);
    var k := m.key;
    DispatchPair(s, at, connected);
    var r := Receive(cs[k.cid].listening, SlotOf(cs, k), m.body, connected);
    SetSlotIsOnly(cs, k, r.slot);
    var prefix := if !at && !cs[k.cid].listening && m.body == Create && !connected then [ErrorText] else [];
    PoppedConnected(s, at);
    forall k': Key | k'.cid in s.local && k' != k ensures Pair(s1, k') == Pair(s, k') {
      PoppedPair(s, at, k');
    }
    NotBoth(s1);
    UpdatePreserves(s, s1, at, SetSlot(cs, k, r.slot), r.slot, prefix, r.replies, k, IoOf(s, k));
  }

  lemma NotBoth(s: System)
    ensures !(Awaiting(s) && Connected(s))
  {}

  lemma PoppedConnected(s: System, at: bool)
    requires Connected(s) && Incoming(s, at) != []
    ensures Connected(Popped(s, at))
  {}

  /** Messages that belong to no link leave every link as it was. */
  lemma PoppedKeeps(s: System, at: bool)
    requires LinksFine(s) && Incoming(s, at) != [] && !Incoming(s, at)[0].OnLink?
    ensures LinksFine(Popped(s, at))
  {
    forall k: Key | k.cid in s.local ensures Pair(Popped(s, at), k) == Pair(s, k) {
      PoppedPair(s, at, k);
    }
  }

  lemma GreetPair(s: System, failed: set<Short>, k: Key)
    requires Awaiting(s) && k.cid in s.local
    ensures Pair(DeliverUp(s, true, failed).s, k) == Pair(s, k)
  {
    hide MakeConns, Images, FromListener;
    MakeConnsFrom(false, Images(s.up[0].entries), failed, k.cid);
    PoppedPair(s, false, k);
    assert s.down + [CreateDone] == [CreateDone] && [CreateDone][1..] == [];
    assert Only([CreateDone], k) == [];
    assert SlotOf(DeliverUp(s, true, failed).s.remote, k) == None == SlotOf(s.remote, k);
  }

  lemma GreetConnects(s: System, failed: set<Short>)
    requires Awaiting(s)
    ensures var o := DeliverUp(s, true, failed); o.Running? && Connected(o.s)
  {
    HandshakeComplements(s.local, s.up[0].entries, failed);
    hide MakeConns, Images;
  }

  lemma GreetPreserves(s: System, connected: bool, failed: set<Short>)
    requires Inv(s) && Awaiting(s)
    ensures var o := DeliverUp(s, connected, failed); o.Running? && Inv(o.s) && Connected(o.s)
  {
    hide MakeConns, Images, Tabled, FromListener, Pair, Protocol.Inv, Complementary;
    GreetConnects(s, failed);
    var s' := DeliverUp(s, connected, failed).s;
    forall k: Key | k.cid in s'.local ensures Protocol.Inv(s'.local[k.cid].ack, Pair(s', k)) {
      GreetPair(s, failed, k);
    }
  }

  lemma DeliverPreserves(s: System, toLocal: bool, connected: bool, failed: set<Short>)
    requires Inv(s) && Incoming(s, toLocal) != []
    ensures var o := Step(s, Deliver(toLocal, connected, failed)); o.Running? && Inv(o.s)
  {
    hide LinksFine, Pair, Complementary, Tabled, Dispatch, MakeConns;
    if Awaiting(s) {
      GreetPreserves(s, connected, failed);
    } else if Incoming(s, toLocal)[0].OnLink? {
      DispatchPreserves(s, toLocal, connected);
    } else {
      PoppedKeeps(s, toLocal);
      PoppedConnected(s, toLocal);
    }
  }

  /** Any permitted step of any party, in any order, keeps the invariant and stops nobody. */
  lemma StepPreserves(s: System, a: Action)
    requires Inv(s) && Permitted(s, a)
    ensures var o := Step(s, a); o.Running? && Inv(o.s)
  {
    hide Inv, DeliverUp, DeliverDown;
    match a
    case Accept(at, cid) => AcceptPreserves(s, at, cid);
    case Poll(at, reports) => PollPreserves(s, at, reports);
    case LinkPolled(at, k, rd, n) => LinkPolledPreserves(s, at, k, rd, n);
    case Deliver(toLocal, connected, failed) => DeliverPreserves(s, toLocal, connected, failed);
  }

  /** While the remote end has not been greeted the table stays first in its channel. */
  lemma TableWaits(s: System, a: Action)
    requires Inv(s) && Permitted(s, a)
    ensures var o := Step(s, a); o.Running? && Awaiting(o.s) ==> Awaiting(s) && o.s.up[0] == s.up[0]
  {
    if a.Deliver? && !a.toLocal {
      hide LinksFine, Tabled, FromListener, Complementary, Dispatch, MakeConns, Images;
      if s.up[0].OnLink? && s.greeted {
        DispatchGreets(Popped(s, false), false, s.up[0].key, s.up[0].body, a.connected);
      }
    } else {
      UpOnlyGrows(s, a);
      hide LinksFine, Tabled, FromListener, Complementary, Step, Enabled;
    }
  }

  lemma DispatchGreets(s: System, at: bool, k: Key, body: LinkMsg, connected: bool)
    ensures var o := Dispatch(s, at, k, body, connected);
      o.Running? ==> o.s.greeted == s.greeted && |s.up| <= |o.s.up| && o.s.up[..|s.up|] == s.up
  {
    hide Receive, Wrap, SetSlot;
  }

  lemma UpOnlyGrows(s: System, a: Action)
    requires Enabled(s, a) && !(a.Deliver? && !a.toLocal)
    ensures var o := Step(s, a);
      o.Running? ==> o.s.greeted == s.greeted && |s.up| <= |o.s.up| && o.s.up[..|s.up|] == s.up
  {
    hide Polled, SetSlot, Wrap, Reported, Accepted, Dispatch;
    match a
    case Deliver(_, connected, _) =>
      if s.down[0].OnLink? { DispatchGreets(Popped(s, true), true, s.down[0].key, s.down[0].body, connected); }
    case _ =>
  }

  // ---------------------------------------------------------------- whole runs

  /** The run from s under a list of actions; it stops at the first fault. */
  function Run(s: System, actions: seq<Action>): Outcome
    requires Schedule(s, actions)
    decreases |actions|
  {
    if actions == [] then Running(s)
    else
      match Step(s, actions[0])
      case Stopped(why) => Stopped(why)
      case Running(s') => Run(s', actions[1..])
  }

  /** Every action is permitted in the state in which it is taken. */
  predicate Schedule(s: System, actions: seq<Action>)
    decreases |actions|
  {
    actions == []
    || (Permitted(s, actions[0])
        && (Step(s, actions[0]).Running? ==> Schedule(Step(s, actions[0]).s, actions[1..])))
  }

  /** No run of the two ends ever looks up a missing link or connection, meets an unexpected command
      or loses its place in the message stream; and the invariant holds at its end. */
  lemma {:induction false} EveryRunIsSafe(s: System, actions: seq<Action>)
    requires Inv(s) && Schedule(s, actions)
    ensures var o := Run(s, actions); o.Running? && Inv(o.s)
    decreases |actions|
  {
    if actions != [] {
      StepPreserves(s, actions[0]);
      EveryRunIsSafe(Step(s, actions[0]).s, actions[1..]);
    }
  }

  // ---------------------------------------------------------------- link ids never clash in short runs

  /** Every link of a ListenSide carries an id that has been handed out. */
  ghost predicate Numbered(cs: Conns) {
    forall cid :: cid in cs && cs[cid].listening ==> HandedOut(cs[cid].links.Keys, cs[cid].nextId)
  }

  ghost predicate HandedOut(lids: set<Short>, nextId: int) {
    501 <= nextId && forall lid :: lid in lids ==> exists i :: 501 <= i < nextId && ToShort(i) == lid
  }

  /** An id clashes with a live link at the earliest after 65536 accepts. */
  lemma IdFreeWithin(s: System, at: bool, cid: Short)
    requires Numbered(ConnsAt(s, at))
    requires cid in ConnsAt(s, at) && ConnsAt(s, at)[cid].listening && ConnsAt(s, at)[cid].nextId < 501 + 0x10000
    ensures IdFree(s, at, cid)
  {}

  /** Only accepts add links to a ListenSide and advance its counter. */
  ghost predicate NoMoreLinks(cs: Conns, cs': Conns) {
    forall cid :: cid in cs' ==>
      && (cid in cs ==> cs'[cid].nextId == cs[cid].nextId && cs'[cid].listening == cs[cid].listening
                        && (cs[cid].listening ==> cs'[cid].links.Keys <= cs[cid].links.Keys))
      && (cid !in cs ==> cs'[cid].nextId == 501 && cs'[cid].links == map[])
  }

  lemma StillNumbered(cs: Conns, cs': Conns)
    requires Numbered(cs) && NoMoreLinks(cs, cs')
    ensures Numbered(cs')
  {}

  lemma ListenerKeepsSlots(slot: Option<Link>, m: LinkMsg, connected: bool)
    ensures var r := Receive(true, slot, m, connected); r.Reaction? && r.slot.Some? ==> slot.Some?
  {}

  lemma SameNumbers(cs: Conns)
    ensures NoMoreLinks(cs, cs)
  {}

  /** An update of one slot at one end. */
  lemma UpdateNumbers(s: System, here: bool, k: Key, slot: Option<Link>, out: seq<Msg>, io: Protocol.Traffic, at: bool)
    requires k.cid in ConnsAt(s, here)
    requires slot.Some? ==> SlotOf(ConnsAt(s, here), k).Some? || !ConnsAt(s, here)[k.cid].listening
    ensures NoMoreLinks(ConnsAt(s, at), ConnsAt(Update(s, here, SetSlot(ConnsAt(s, here), k, slot), out, k, io), at))
  {}

  lemma ReportedNumbers(cs: Conns, reports: map<Key, Events>)
    ensures NoMoreLinks(cs, Reported(cs, reports))
  {}

  lemma DispatchNumbers(s: System, here: bool, connected: bool, at: bool)
    requires Incoming(s, here) != [] && Incoming(s, here)[0].OnLink?
    ensures var m := Incoming(s, here)[0];
      var o := Dispatch(Popped(s, here), here, m.key, m.body, connected);
      o.Running? ==> NoMoreLinks(ConnsAt(s, at), ConnsAt(o.s, at))
  {
    var m, s1 := Incoming(s, here)[0], Popped(s, here);
    var cs := ConnsAt(s1, here);
    if m.key.cid in cs {
      ListenerKeepsSlots(SlotOf(cs, m.key), m.body, connected);
      var r := Receive(cs[m.key.cid].listening, SlotOf(cs, m.key), m.body, connected);
      var error := if !here && !cs[m.key.cid].listening && m.body == Create && !connected then [ErrorText] else [];
      hide Receive, SetSlot, SlotOf, NoMoreLinks, Update;
      if r.Reaction? {
        UpdateNumbers(s1, here, m.key, r.slot, error + Wrap(m.key, r.replies), IoOf(s1, m.key), at);
      }
    }
  }

  lemma DeliveryNumbers(s: System, toLocal: bool, connected: bool, failed: set<Short>, at: bool)
    requires Inv(s) && Incoming(s, toLocal) != []
    requires Step(s, Deliver(toLocal, connected, failed)).Running?
    ensures NoMoreLinks(ConnsAt(s, at), ConnsAt(Step(s, Deliver(toLocal, connected, failed)).s, at))
  {
    if Incoming(s, toLocal)[0].OnLink? {
      LinkHead(s, toLocal);
      DeliverOnLink(s, toLocal, connected, failed);
      DispatchNumbers(s, toLocal, connected, at);
    } else {
      OtherNumbers(s, toLocal, connected, failed, at);
    }
    hide Inv, Step, Dispatch, NoMoreLinks;
  }

  lemma OtherNumbers(s: System, toLocal: bool, connected: bool, failed: set<Short>, at: bool)
    requires Inv(s) && Incoming(s, toLocal) != [] && !Incoming(s, toLocal)[0].OnLink?
    requires Step(s, Deliver(toLocal, connected, failed)).Running?
    ensures NoMoreLinks(ConnsAt(s, at), ConnsAt(Step(s, Deliver(toLocal, connected, failed)).s, at))
  {
    SameNumbers(ConnsAt(s, at));
    if Incoming(s, toLocal)[0].CreateTable? && !toLocal {
      FreshTable(s, failed);
    }
    hide MakeConns, Inv, Dispatch, Images;
  }

  /** A step other than an accept hands out no id. */
  lemma OnlyAcceptsNumber(s: System, a: Action, at: bool)
    requires Inv(s) && Permitted(s, a) && !a.Accept?
    ensures Step(s, a).Running? && NoMoreLinks(ConnsAt(s, at), ConnsAt(Step(s, a).s, at))
  {
    StepPreserves(s, a);
    hide Inv, Polled, SetSlot, DeliverUp, DeliverDown, NoMoreLinks, Update;
    match a
    case Poll(here, reports) =>
      ReportedNumbers(ConnsAt(s, here), reports);
      SameNumbers(ConnsAt(s, at));
    case LinkPolled(here, k, rd, n) =>
      var cs := ConnsAt(s, here);
      var t := Polled(SlotOf(cs, k).value, cs[k.cid].ack, rd, n);
      UpdateNumbers(s, here, k, Some(Visited(t.link)), Wrap(k, t.sends),
                    Record(IoOf(s, k), cs[k.cid].listening, t), at);
    case Deliver(toLocal, connected, failed) =>
      DeliveryNumbers(s, toLocal, connected, failed, at);
  }

  lemma FreshTable(s: System, failed: set<Short>)
    requires Inv(s) && s.up != [] && s.up[0].CreateTable?
    ensures s.remote == map[]
    ensures forall cid :: var cs := MakeConns(false, Images(s.up[0].entries), failed);
      cid in cs ==> cs[cid].nextId == 501 && cs[cid].links == map[]
  {
    forall cid ensures var cs := MakeConns(false, Images(s.up[0].entries), failed);
      cid in cs ==> cs[cid].nextId == 501 && cs[cid].links == map[]
    {
      NewConnNumbers(false, Images(s.up[0].entries), failed, cid);
    }
  }

  lemma {:induction false} NewConnNumbers(isLocal: bool, es: seq<Entry>, failed: set<Short>, cid: Short)
    ensures var cs := MakeConns(isLocal, es, failed); cid in cs ==> cs[cid].nextId == 501 && cs[cid].links == map[]
  {
    if es != [] {
      NewConnNumbers(isLocal, es[..|es| - 1], failed, cid);
    }
  }

  /** Every action is possible in the state in which it is taken; nothing is said about ids. */
  ghost predicate Feasible(s: System, actions: seq<Action>)
    decreases |actions|
  {
    actions == []
    || (Enabled(s, actions[0])
        && (Step(s, actions[0]).Running? ==> Feasible(Step(s, actions[0]).s, actions[1..])))
  }

  /** Accepts of one ListenSide. */
  function Accepts(actions: seq<Action>, at: bool, cid: Short): nat {
    if actions == [] then 0
    else (if actions[0] == Accept(at, cid) then 1 else 0) + Accepts(actions[1..], at, cid)
  }

  /** Every ListenSide of an end can do its accepts before an id of its comes round again. */
  ghost predicate IdsLeft(cs: Conns, at: bool, actions: seq<Action>) {
    && (forall cid :: cid in cs && cs[cid].listening ==> cs[cid].nextId + Accepts(actions, at, cid) <= 501 + 0x10000)
    && (forall cid :: Accepts(actions, at, cid) <= 0x10000)
  }

  lemma AcceptNumbers(s: System, at: bool, cid: Short)
    requires Enabled(s, Accept(at, cid)) && Numbered(s.local) && Numbered(s.remote)
    ensures var s' := AcceptAt(s, at, cid); Numbered(s'.local) && Numbered(s'.remote)
  {}

  lemma AcceptUsesId(s: System, actions: seq<Action>, at: bool)
    requires actions != [] && actions[0].Accept? && Enabled(s, actions[0])
    requires IdsLeft(ConnsAt(s, at), at, actions)
    ensures IdsLeft(ConnsAt(AcceptAt(s, actions[0].atLocal, actions[0].cid), at), at, actions[1..])
  {
    assert forall cid :: Accepts(actions, at, cid) >= Accepts(actions[1..], at, cid);
  }

  lemma OthersUseNoId(cs: Conns, cs': Conns, at: bool, actions: seq<Action>)
    requires actions != [] && !actions[0].Accept?
    requires IdsLeft(cs, at, actions) && NoMoreLinks(cs, cs')
    ensures IdsLeft(cs', at, actions[1..])
  {
    assert forall cid :: Accepts(actions, at, cid) == Accepts(actions[1..], at, cid);
  }

  /** At most 65536 accepts per listener: whatever the parties do, no listener hands out an id twice, so
      that everything proved of permitted schedules holds. */
  lemma {:induction false} FewAcceptsArePermitted(s: System, actions: seq<Action>)
    requires Inv(s) && Numbered(s.local) && Numbered(s.remote)
    requires IdsLeft(s.local, true, actions) && IdsLeft(s.remote, false, actions)
    requires Feasible(s, actions)
    ensures Schedule(s, actions)
    decreases |actions|
  {
    hide Inv, Numbered, Step, IdsLeft;
    if actions != [] {
      var a := actions[0];
      if a.Accept? {
        NextIdFree(s, actions);
        AcceptNumbers(s, a.atLocal, a.cid);
        AcceptUsesId(s, actions, true);
        AcceptUsesId(s, actions, false);
        AcceptIs(s, a.atLocal, a.cid);
      } else {
        OnlyAcceptsNumber(s, a, true);
        OnlyAcceptsNumber(s, a, false);
        StillNumbered(s.local, Step(s, a).s.local);
        StillNumbered(s.remote, Step(s, a).s.remote);
        OthersUseNoId(s.local, Step(s, a).s.local, true, actions);
        OthersUseNoId(s.remote, Step(s, a).s.remote, false, actions);
      }
      StepPreserves(s, a);
      FewAcceptsArePermitted(Step(s, a).s, actions[1..]);
    }
  }

  lemma NextIdFree(s: System, actions: seq<Action>)
    requires actions != [] && actions[0].Accept? && Enabled(s, actions[0])
    requires Numbered(ConnsAt(s, actions[0].atLocal))
    requires IdsLeft(ConnsAt(s, actions[0].atLocal), actions[0].atLocal, actions)
    ensures IdFree(s, actions[0].atLocal, actions[0].cid)
  {
    var a := actions[0];
    assert Accepts(actions, a.atLocal, a.cid) >= 1;
    IdFreeWithin(s, a.atLocal, a.cid);
  }

  lemma AcceptIs(s: System, at: bool, cid: Short)
    requires Enabled(s, Accept(at, cid))
    ensures Step(s, Accept(at, cid)) == Running(AcceptAt(s, at, cid))
  {}

  /** From the start: no run in which each listener accepts at most 65536 times ever goes wrong. */
  lemma FewAcceptsAreSafe(start: System, actions: seq<Action>)
    requires Init(start) && Feasible(start, actions)
    requires forall at, cid :: Accepts(actions, at, cid) <= 0x10000
    ensures Schedule(start, actions) && Run(start, actions).Running? && Inv(Run(start, actions).s)
  {
    InitIsInv(start);
    FewAcceptsArePermitted(start, actions);
    EveryRunIsSafe(start, actions);
  }

  // ---------------------------------------------------------------- what a run guarantees

  /** Socket traffic at the end `at` of a link, and at the other end. */
  function ReadAt(s: System, at: bool, k: Key): seq<Byte>
    requires k.cid in s.local
  {
    if AtListener(s, at, k.cid) then IoOf(s, k).lRead else IoOf(s, k).cRead
  }

  function WrittenAt(s: System, at: bool, k: Key): seq<Byte>
    requires k.cid in s.local
  {
    if AtListener(s, at, k.cid) then IoOf(s, k).lWritten else IoOf(s, k).cWritten
  }

  /** After any run: what an end has written to its socket is a prefix of what the other end has read
      from its own; and while the link is open here, even if the other end has closed already, the missing
      rest is exactly what the end has buffered followed by what travels towards it. */
  lemma EndToEndConservation(start: System, actions: seq<Action>, at: bool, k: Key)
    requires Init(start) && Schedule(start, actions) && k.cid in start.local
    ensures var o := Run(start, actions);
      && o.Running? && k.cid in o.s.local
      && var s := o.s;
      && WrittenAt(s, at, k) <= ReadAt(s, !at, k)
      && var here, there := SlotOf(ConnsAt(s, at), k), SlotOf(ConnsAt(s, !at), k);
      (here.Some? && here.value.registered
       ==> there.Some?
           && ReadAt(s, !at, k) == WrittenAt(s, at, k) + here.value.pending + Protocol.Data(Only(Incoming(s, at), k)))
  {
    InitIsInv(start);
    EveryRunIsSafe(start, actions);
    LocalStays(start, actions);
    var s := Run(start, actions).s;
    SlotInPair(s, at, k);
    SlotInPair(s, !at, k);
    assert Protocol.Inv(s.local[k.cid].ack, Pair(s, k));
    Protocol.BytesConserved(s.local[k.cid].ack, Pair(s, k));
    hide Protocol.Inv;
  }

  /** After any run, every link the Poller watches waits for the right thing: for POLLOUT exactly when it
      holds unsent bytes, for POLLIN only when acknowledged, and if for neither then for an
      acknowledgement whose packet, answer or closing counterpart is on its way. */
  lemma NoLinkSleepsForever(start: System, actions: seq<Action>, at: bool, k: Key)
    requires Init(start) && Schedule(start, actions) && k.cid in start.local
    ensures var o := Run(start, actions);
      && o.Running? && k.cid in o.s.local
      && var s := o.s;
      && var here := SlotOf(ConnsAt(s, at), k);
      here.Some? && here.value.registered ==>
        && !here.value.closing
        && (here.value.events.pout <==> here.value.pending != [])
        && (here.value.events.pin ==> here.value.acknowledged)
        && (!here.value.events.pin && !here.value.events.pout ==>
              && s.local[k.cid].ack && !here.value.acknowledged
              && (Protocol.Outstanding(Only(Incoming(s, !at), k), Only(Incoming(s, at), k)) == 1
                  || Close in Only(Incoming(s, at), k)))
  {
    InitIsInv(start);
    EveryRunIsSafe(start, actions);
    LocalStays(start, actions);
    var s := Run(start, actions).s;
    SlotInPair(s, at, k);
    var ack, p := s.local[k.cid].ack, Pair(s, k);
    assert Protocol.Inv(ack, p);
    Protocol.RegisteredIsHealthy(ack, p, AtListener(s, at, k.cid));
    Protocol.NoEternalWait(ack, p);
    hide Protocol.Inv;
  }

  /** After any run, a message about to be handled finds what it needs: its link if it is about an existing
      one, no link if it asks for a new one. */
  lemma EveryLookupSucceeds(start: System, actions: seq<Action>, at: bool)
    requires Init(start) && Schedule(start, actions)
    ensures var o := Run(start, actions);
      && o.Running?
      && (Incoming(o.s, at) != [] && Incoming(o.s, at)[0].OnLink? && o.s.greeted ==>
            var k, body := Incoming(o.s, at)[0].key, Incoming(o.s, at)[0].body;
            && k.cid in ConnsAt(o.s, at)
            && (SlotOf(ConnsAt(o.s, at), k).None? <==> body == Create)
            && (body.CreateReply? ==> SlotOf(ConnsAt(o.s, at), k) == Some(FRESH)))
  {
    InitIsInv(start);
    EveryRunIsSafe(start, actions);
    var s := Run(start, actions).s;
    if Incoming(s, at) != [] && Incoming(s, at)[0].OnLink? && s.greeted {
      HeadFinds(s, at);
    }
  }

  lemma HeadFinds(s: System, at: bool)
    requires Inv(s) && Connected(s) && Incoming(s, at) != [] && Incoming(s, at)[0].OnLink?
    ensures var k, body := Incoming(s, at)[0].key, Incoming(s, at)[0].body;
      && k.cid in ConnsAt(s, at)
      && (SlotOf(ConnsAt(s, at), k).None? <==> body == Create)
      && (body.CreateReply? ==> SlotOf(ConnsAt(s, at), k) == Some(FRESH))
  {
    var k := Incoming(s, at)[0].key;
    RoleAt(s, at, k.cid);
    SlotInPair(s, at, k);
    OnlyHead(Incoming(s, at), k);
    var ack, p := s.local[k.cid].ack, Pair(s, k);
    assert Protocol.Inv(ack, p);
    Protocol.LinkIsFound(ack, p);
    Protocol.OnlyDecodable(ack, p);
    if AtListener(s, at, k.cid) && p.cl[0].CreateReply? { Protocol.ReplyFindsFresh(ack, p); }
    hide Protocol.Inv;
  }

  /** A link id is being established: the request or the answer to it is on its way. */
  predicate BeingMade(s: System, at: bool, k: Key) {
    var out, back := Only(Incoming(s, !at), k), Only(Incoming(s, at), k);
    Create in out || CreateReply(true) in back || CreateReply(false) in back
  }

  /** After any run, a link that is in its map is in the Poller exactly while it is established and not
      closing; at the ListenSide it is established when neither its LINK_CREATE nor the answer is on its
      way any more. That the Poller holds nothing else is shown of the objects: Ends.TunnelEnd.Tidy. */
  lemma PollerHoldsOpenLinks(start: System, actions: seq<Action>, at: bool, k: Key)
    requires Init(start) && Schedule(start, actions) && k.cid in start.local
    ensures var o := Run(start, actions);
      && o.Running? && k.cid in o.s.local
      && var s := o.s;
      var slot := SlotOf(ConnsAt(s, at), k);
      && (slot.Some? ==>
            (slot.value.registered <==> !slot.value.closing && !(AtListener(s, at, k.cid) && BeingMade(s, at, k))))
      && (slot.None? && AtListener(s, at, k.cid) ==> !BeingMade(s, at, k))
  {
    InitIsInv(start);
    EveryRunIsSafe(start, actions);
    LocalStays(start, actions);
    var s := Run(start, actions).s;
    SlotInPair(s, at, k);
    var ack, p := s.local[k.cid].ack, Pair(s, k);
    assert Protocol.Inv(ack, p);
    Protocol.RegisteredWhileOpen(ack, p);
    hide Protocol.Inv;
  }

  /** After any run, stop-and-wait: while a link is open at both ends, an end is unacknowledged exactly when
      one data packet of its, or the acknowledgement of it, is on its way, and there is never more than one.
      In ACK mode at most 4096 bytes travel per link and direction at any time, in any state of the link. */
  lemma StopAndWait(start: System, actions: seq<Action>, at: bool, k: Key)
    requires Init(start) && Schedule(start, actions) && k.cid in start.local
    ensures var o := Run(start, actions);
      && o.Running? && k.cid in o.s.local
      && var s := o.s;
      var here, there := SlotOf(ConnsAt(s, at), k), SlotOf(ConnsAt(s, !at), k);
      && (OpenSlot(here) && OpenSlot(there) ==>
            Protocol.Outstanding(Only(Incoming(s, !at), k), Only(Incoming(s, at), k))
            == (if here.value.acknowledged then 0 else 1))
      && (s.local[k.cid].ack ==>
            Protocol.Sends(Only(Incoming(s, at), k)) <= 1 && |Protocol.Data(Only(Incoming(s, at), k))| <= MAX_DATA)
  {
    InitIsInv(start);
    EveryRunIsSafe(start, actions);
    LocalStays(start, actions);
    var s := Run(start, actions).s;
    SlotInPair(s, at, k);
    SlotInPair(s, !at, k);
    var ack, p := s.local[k.cid].ack, Pair(s, k);
    assert Protocol.Inv(ack, p);
    if OpenSlot(p.l) && OpenSlot(p.c) { Protocol.WaitsForOnePacket(ack, p); }
    if ack { Protocol.AtMostOnePacketInFlight(p); }
    hide Protocol.Inv;
  }

  /** After any run past the handshake: every remote connection has a local one of the opposite role and
      with the same ACK flag, every local listener has its remote partner, and every message on its way
      names a connection that its receiver has. */
  lemma ConnectionsResolve(start: System, actions: seq<Action>)
    requires Init(start) && Schedule(start, actions)
    ensures var o := Run(start, actions);
      && o.Running?
      && (o.s.greeted ==>
            && Complementary(o.s.local, o.s.remote)
            && (forall m :: m in o.s.up && m.OnLink? ==> m.key.cid in o.s.remote)
            && (forall m :: m in o.s.down && m.OnLink? ==> m.key.cid in o.s.local))
  {
    InitIsInv(start);
    EveryRunIsSafe(start, actions);
    hide LinksFine, Complementary;
    assert Run(start, actions).s.greeted ==> Connected(Run(start, actions).s);
    GreetedResolves(Run(start, actions).s);
  }

  lemma GreetedResolves(s: System)
    ensures Connected(s) ==> (forall m :: m in s.up && m.OnLink? ==> m.key.cid in s.remote)
    ensures Connected(s) ==> (forall m :: m in s.down && m.OnLink? ==> m.key.cid in s.local)
  {}

  /** A run never changes which connections the local end has. */
  lemma {:induction false} LocalStays(s: System, actions: seq<Action>)
    requires Inv(s) && Schedule(s, actions)
    ensures var o := Run(s, actions); o.Running? && o.s.local.Keys == s.local.Keys
    decreases |actions|
  {
    if actions != [] {
      StepPreserves(s, actions[0]);
      StepKeepsLocal(s, actions[0]);
      LocalStays(Step(s, actions[0]).s, actions[1..]);
    }
  }

  lemma StepKeepsLocal(s: System, a: Action)
    requires Enabled(s, a)
    ensures Step(s, a).Running? ==> Step(s, a).s.local.Keys == s.local.Keys
  {
    hide Receive, Polled, MakeConns, Wrap;
  }

  /** Once both channels are empty, both ends hold the same links and every one of them is open. */
  lemma QuietMeansAgreement(s: System, k: Key)
    requires Inv(s) && s.up == [] && s.down == [] && k.cid in s.local
    ensures var l, r := SlotOf(s.local, k), SlotOf(s.remote, k);
      && (l.Some? <==> r.Some?)
      && (l.Some? ==> l.value.registered && r.value.registered && !l.value.closing && !r.value.closing)
  {}

  // ---------------------------------------------------------------- draining

  function Weight(m: Msg): nat {
    match m
    case CreateTable(_) => 2
    case OnLink(_, Create) => 4
    case OnLink(_, SendForAck(_)) => 2
    case _ => 1
  }

  function Load(ch: seq<Msg>): nat {
    if ch == [] then 0 else Weight(ch[0]) + Load(ch[1..])
  }

  predicate OpenSlot(slot: Option<Link>) {
    slot.Some? && !slot.value.closing
  }

  function OpenLinks(cs: Conns): set<Key> {
    set cid, lid | cid in cs && lid in cs[cid].links && OpenSlot(SlotOf(cs, Key(cid, lid))) :: Key(cid, lid)
  }

  /** How much delivering is left to do. */
  function Measure(s: System): nat {
    Load(s.up) + Load(s.down) + |OpenLinks(s.local)| + |OpenLinks(s.remote)|
  }

  lemma {:induction false} LoadAppend(a: seq<Msg>, b: seq<Msg>)
    ensures Load(a + b) == Load(a) + Load(b)
  {
    if a == [] {
      assert a + b == b;
    } else {
      LoadAppend(a[1..], b);
      assert (a + b)[1..] == a[1..] + b && (a + b)[0] == a[0];
    }
  }

  lemma OpenLinksOf(cs: Conns, k: Key)
    ensures k in OpenLinks(cs) <==> OpenSlot(SlotOf(cs, k))
  {}

  lemma OpenLinksChange(cs: Conns, cs': Conns, k: Key, slot: Option<Link>)
    requires OnlySlot(cs, cs', k, slot)
    ensures |OpenLinks(cs')| + (if OpenSlot(SlotOf(cs, k)) then 1 else 0)
            == |OpenLinks(cs)| + (if OpenSlot(slot) then 1 else 0)
  {
    OpenLinksOf(cs, k);
    OpenLinksOf(cs', k);
    forall k' | k' != k ensures k' in OpenLinks(cs) <==> k' in OpenLinks(cs') {
      OpenLinksOf(cs, k');
      OpenLinksOf(cs', k');
    }
    hide OpenLinks, OpenSlot, SlotOf;
    SizeChange(OpenLinks(cs), OpenLinks(cs'), k);
  }

  lemma SizeChange(a: set<Key>, b: set<Key>, k: Key)
    requires forall k' :: k' != k ==> (k' in a <==> k' in b)
    ensures |b| + (if k in a then 1 else 0) == |a| + (if k in b then 1 else 0)
  {
    assert a - {k} == b - {k};
    assert a == if k in a then (a - {k}) + {k} else a - {k};
    assert b == if k in b then (b - {k}) + {k} else b - {k};
  }

  /** A message costs more than the answers and the open link it may leave behind. */
  lemma ReactionIsLighter(k: Key, listening: bool, slot: Option<Link>, m: LinkMsg, connected: bool)
    ensures var r := Receive(listening, slot, m, connected);
      r.Reaction? ==>
        Load(Wrap(k, r.replies)) + (if m == Create && !connected then 1 else 0) + (if OpenSlot(r.slot) then 1 else 0)
        < Weight(OnLink(k, m)) + (if OpenSlot(slot) then 1 else 0)
  {}

  lemma DispatchIsLighter(s: System, at: bool, connected: bool)
    requires Inv(s) && Connected(s) && Incoming(s, at) != [] && Incoming(s, at)[0].OnLink?
    ensures var m := Incoming(s, at)[0];
      var o := Dispatch(Popped(s, at), at, m.key, m.body, connected);
      o.Running? && Measure(o.s) < Measure(s)
  {
    hide Receive, OnlySlot, OpenLinks, Protocol.Inv, Pair, PairAfter;
    var m, cs := Incoming(s, at)[0], ConnsAt(s, at);
    DispatchPair(s, at, connected);
    var r := Receive(cs[m.key.cid].listening, SlotOf(cs, m.key), m.body, connected);
    ReactionIsLighter(m.key, cs[m.key.cid].listening, SlotOf(cs, m.key), m.body, connected);
    SetSlotIsOnly(cs, m.key, r.slot);
    OpenLinksChange(cs, SetSlot(cs, m.key, r.slot), m.key, r.slot);
    var error := if !at && !cs[m.key.cid].listening && m.body == Create && !connected then [ErrorText] else [];
    LoadAppend(if at then s.up else s.down, error + Wrap(m.key, r.replies));
    LoadAppend(error, Wrap(m.key, r.replies));
    assert Load([ErrorText]) == 1 by { assert [ErrorText][1..] == []; }
    hide SetSlot, SlotOf, OpenSlot, Wrap;
    assert Load(Incoming(s, at)) == Weight(m) + Load(Incoming(s, at)[1..]);
  }

  lemma GreetIsLighter(s: System, failed: set<Short>)
    requires Awaiting(s)
    ensures Measure(DeliverUp(s, true, failed).s) < Measure(s)
  {
    var s' := DeliverUp(s, true, failed).s;
    forall k ensures k !in OpenLinks(s'.remote) {
      MakeConnsFrom(false, Images(s.up[0].entries), failed, k.cid);
      OpenLinksOf(s'.remote, k);
    }
    assert OpenLinks(s'.remote) == {};
    LoadAppend(s.down, [CreateDone]);
    assert Load([CreateDone]) == 1 by { assert [CreateDone][1..] == []; }
    assert Load(s.up) == 2 + Load(s.up[1..]);
  }

  lemma DeliverIsLighter(s: System, toLocal: bool, connected: bool, failed: set<Short>)
    requires Inv(s) && Incoming(s, toLocal) != []
    ensures var o := Step(s, Deliver(toLocal, connected, failed)); o.Running? && Measure(o.s) < Measure(s)
  {
    hide LinksFine, Pair, Complementary, Tabled, Dispatch, MakeConns, OpenLinks;
    if Awaiting(s) {
      GreetConnects(s, failed);
      GreetIsLighter(s, failed);
    } else if Incoming(s, toLocal)[0].OnLink? {
      DispatchIsLighter(s, toLocal, connected);
    }
  }

  /** The callback reads bytes from the link's socket. */
  predicate ReadsBytes(s: System, a: Action)
    requires Enabled(s, a)
  {
    a.LinkPolled? && a.rd.Bytes? && SlotOf(ConnsAt(s, a.atLocal), a.key).value.revents.pin
  }

  /** Nothing new comes in: no accepts and no bytes from sockets. Sockets may be written to, report errors
      and be closed, and poll() may report what it likes. */
  ghost predicate NoInput(s: System, actions: seq<Action>)
    requires Schedule(s, actions)
    decreases |actions|
  {
    actions == []
    || (!actions[0].Accept? && !ReadsBytes(s, actions[0])
        && (Step(s, actions[0]).Running? ==> NoInput(Step(s, actions[0]).s, actions[1..])))
  }

  function Deliveries(actions: seq<Action>): nat {
    if actions == [] then 0 else (if actions[0].Deliver? then 1 else 0) + Deliveries(actions[1..])
  }

  lemma ReportedOpen(cs: Conns, reports: map<Key, Events>)
    ensures OpenLinks(Reported(cs, reports)) == OpenLinks(cs)
  {
    forall k ensures k in OpenLinks(Reported(cs, reports)) <==> k in OpenLinks(cs) {
      ReportedSlot(cs, reports, k);
      OpenLinksOf(cs, k);
      OpenLinksOf(Reported(cs, reports), k);
    }
  }

  /** A callback that reads nothing costs nothing: a LINK_CLOSE it sends replaces an open link. */
  lemma WritingKeepsMeasure(s: System, at: bool, k: Key, rd: ReadResult, n: nat)
    requires Inv(s) && Enabled(s, LinkPolled(at, k, rd, n)) && !ReadsBytes(s, LinkPolled(at, k, rd, n))
    ensures Measure(LinkPolledAt(s, at, k, rd, n)) == Measure(s)
  {
    hide Inv, Polled, OpenLinks, Healthy, Measure, OnlySlot, SetSlot;
    var cs, slot := ConnsAt(s, at), SlotOf(ConnsAt(s, at), k).value;
    WatchedIsHealthy(s, at, k);
    var t := Polled(slot, cs[k.cid].ack, rd, n);
    QuietTurn(cs[k.cid].ack, slot, rd, n);
    SetSlotIsOnly(cs, k, Some(Visited(t.link)));
    OpenLinksChange(cs, SetSlot(cs, k, Some(Visited(t.link))), k, Some(Visited(t.link)));
    LoadAppend(Incoming(s, !at), Wrap(k, t.sends));
    LoadOfClose(k, t.link.closing);
    MeasureAt(s, at);
    MeasureAt(LinkPolledAt(s, at, k, rd, n), at);
  }

  lemma MeasureAt(s: System, at: bool)
    ensures Measure(s) == Load(Incoming(s, at)) + Load(Incoming(s, !at)) + |OpenLinks(ConnsAt(s, at))|
      + |OpenLinks(ConnsAt(s, !at))|
  {}

  lemma WatchedIsHealthy(s: System, at: bool, k: Key)
    requires Inv(s) && SlotOf(ConnsAt(s, at), k).Some? && SlotOf(ConnsAt(s, at), k).value.registered
    ensures Healthy(ConnsAt(s, at)[k.cid].ack, SlotOf(ConnsAt(s, at), k).value)
      && !SlotOf(ConnsAt(s, at), k).value.closing
  {
    RegisteredAtBoth(s, at, k);
    SlotInPair(s, at, k);
    RoleAt(s, at, k.cid);
    assert Protocol.Inv(s.local[k.cid].ack, Pair(s, k));
    hide Protocol.Inv;
    Protocol.RegisteredIsHealthy(s.local[k.cid].ack, Pair(s, k), AtListener(s, at, k.cid));
  }

  lemma LoadOfClose(k: Key, closing: bool)
    ensures Load(Wrap(k, ClosePart(closing))) == if closing then 1 else 0
  {
    assert Wrap(k, []) == [] && [OnLink(k, Close)][1..] == [];
  }

  lemma QuietTurn(ack: bool, l: Link, rd: ReadResult, n: nat)
    requires Healthy(ack, l) && l.registered && !(rd.Bytes? && l.revents.pin)
    requires rd.Bytes? ==> 0 < |rd.data| <= MAX_DATA
    ensures Polled(l, ack, rd, n).sends == ClosePart(Polled(l, ack, rd, n).link.closing)
  {
    PolledTraffic(ack, l, rd, n);
  }

  lemma QuietStep(s: System, a: Action)
    requires Inv(s) && Permitted(s, a) && !a.Accept? && !ReadsBytes(s, a)
    ensures Step(s, a).Running?
    ensures (if a.Deliver? then 1 else 0) + Measure(Step(s, a).s) <= Measure(s)
  {
    StepPreserves(s, a);
    match a
    case Poll(at, reports) => ReportedOpen(ConnsAt(s, at), reports);
    case LinkPolled(at, k, rd, n) =>
      WritingKeepsMeasure(s, at, k, rd, n);
      hide Measure, Inv;
    case Deliver(toLocal, connected, failed) =>
      DeliverIsLighter(s, toLocal, connected, failed);
      hide Measure, Inv;
  }

  /** With no new accepts and no bytes read from sockets, whatever else happens in between, at most
      Measure(s) messages can be delivered; and if both channels are empty then, both ends hold the same
      links and all of them are open. */
  lemma {:induction false} DeliveringTerminates(s: System, actions: seq<Action>)
    requires Inv(s) && Schedule(s, actions) && NoInput(s, actions)
    ensures var o := Run(s, actions);
      && o.Running? && Inv(o.s)
      && Deliveries(actions) + Measure(o.s) <= Measure(s)
      && (o.s.up == [] && o.s.down == [] ==>
            forall k: Key :: k.cid in o.s.local ==> OpenAtBoth(SlotOf(o.s.local, k), SlotOf(o.s.remote, k)))
    decreases |actions|
  {
    hide Measure, LinksFine;
    if actions == [] {
      if s.up == [] && s.down == [] {
        forall k: Key | k.cid in s.local ensures OpenAtBoth(SlotOf(s.local, k), SlotOf(s.remote, k)) {
          QuietMeansAgreement(s, k);
        }
      }
    } else {
      QuietStep(s, actions[0]);
      StepPreserves(s, actions[0]);
      DeliveringTerminates(Step(s, actions[0]).s, actions[1..]);
    }
  }

  /** The link is unknown to both ends, or open at both. */
  predicate OpenAtBoth(l: Option<Link>, r: Option<Link>) {
    (l.Some? <==> r.Some?) && (l.Some? ==> OpenSlot(l) && OpenSlot(r) && l.value.registered && r.value.registered)
  }
}
