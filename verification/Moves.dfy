/** What the steps of module Tunnel mean for one end: its connections, what it sends, and how much of the
    present round of the Poller is still to come. */
module Moves {
  import opened Wire
  import opened Codec
  import opened Framing
  import opened Polling
  import opened Links
  import opened Endpoint
  import opened Messages
  import T = Tunnel
  import Protocol

  // ---------------------------------------------------------------- what a message means

  /** A reply is only awaited by a link that is open and not in the Poller yet, a request by none. */
  predicate Awaited(cs: T.Conns, k: T.Key, body: LinkMsg) {
    && (Listens(cs, k.cid) && body.CreateReply? && T.SlotOf(cs, k).Some? ==>
          !T.SlotOf(cs, k).value.registered && !T.SlotOf(cs, k).value.closing)
    && (!Listens(cs, k.cid) && body == Create ==> T.SlotOf(cs, k).None?)
  }

  /** How handling message m ends. */
  function FaultAt(cs: T.Conns, m: T.Msg, connected: bool): Option<Fault> {
    if !m.OnLink? then None
    else if m.key.cid !in cs then Some(NoConnection)
    else FaultOf(Receive(cs[m.key.cid].listening, T.SlotOf(cs, m.key), m.body, connected))
  }

  /** What it makes of an end's connections. */
  function ConnsAfter(cs: T.Conns, m: T.Msg, connected: bool, failed: set<Short>): T.Conns
    requires FaultAt(cs, m, connected) == None
  {
    match m
    case CreateTable(es) => T.MakeConns(false, es, failed)
    case OnLink(k, body) => T.SetSlot(cs, k, Receive(cs[k.cid].listening, T.SlotOf(cs, k), body, connected).slot)
    case _ => cs
  }

  /** And what it sends back. */
  function Replies(atLocal: bool, cs: T.Conns, m: T.Msg, connected: bool, text: seq<Byte>): seq<Payload>
    requires FaultAt(cs, m, connected) == None
  {
    match m
    case CreateTable(_) => [PutMsg(T.CreateDone, [])]
    case OnLink(k, body) =>
      Errors(!atLocal && !cs[k.cid].listening && body == Create && !connected, text)
      + Payloads(k.cid, k.lid, Receive(cs[k.cid].listening, T.SlotOf(cs, k), body, connected).replies)
    case _ => []
  }

  /** What an end sends on handling a message. */
  function Sends(atLocal: bool, cs: T.Conns, m: T.Msg, connected: bool): seq<T.Msg>
    requires FaultAt(cs, m, connected) == None
  {
    match m
    case CreateTable(_) => [T.CreateDone]
    case OnLink(k, body) =>
      (if !atLocal && !cs[k.cid].listening && body == Create && !connected then [T.ErrorText] else [])
      + T.Wrap(k, Receive(cs[k.cid].listening, T.SlotOf(cs, k), body, connected).replies)
    case _ => []
  }

  // ---------------------------------------------------------------- rounds of the Poller

  /** What module Tunnel knows of a link: once the Poller has visited it, it has nothing to report. */
  function FacedLink(l: Link, due: bool): Link {
    if due then l else Visited(l)
  }

  function FacedSlot(slot: Option<Link>, due: bool): Option<Link> {
    match slot case None => None case Some(l) => Some(FacedLink(l, due))
  }

  /** And of an end whose present round has the links `due` still to visit. */
  function Faced(cs: T.Conns, due: set<T.Key>): T.Conns {
    map cid | cid in cs :: cs[cid].(links := FacedLinks(cid, cs[cid].links, due))
  }

  function FacedLinks(cid: Short, links: map<Short, Link>, due: set<T.Key>): map<Short, Link> {
    map lid | lid in links :: FacedLink(links[lid], T.Key(cid, lid) in due)
  }

  lemma FacedKeeps(cs: T.Conns, due: set<T.Key>)
    ensures Faced(cs, due).Keys == cs.Keys
    ensures forall cid :: cid in cs ==>
      && Faced(cs, due)[cid].listening == cs[cid].listening && Faced(cs, due)[cid].ack == cs[cid].ack
      && Faced(cs, due)[cid].nextId == cs[cid].nextId && Faced(cs, due)[cid].links.Keys == cs[cid].links.Keys
    ensures forall cid :: Listens(Faced(cs, due), cid) == Listens(cs, cid)
  {}

  lemma FacedAt(cs: T.Conns, due: set<T.Key>, k: T.Key)
    ensures T.SlotOf(Faced(cs, due), k) == FacedSlot(T.SlotOf(cs, k), k in due)
  {}

  lemma FacedSet(cs: T.Conns, due: set<T.Key>, due': set<T.Key>, k: T.Key, slot: Option<Link>)
    requires k.cid in cs && forall k' :: k' != k ==> (k' in due <==> k' in due')
    ensures k.cid in Faced(cs, due)
    ensures Faced(T.SetSlot(cs, k, slot), due') == T.SetSlot(Faced(cs, due), k, FacedSlot(slot, k in due'))
  {
    forall cid | cid in cs && cid != k.cid
      ensures FacedLinks(cid, cs[cid].links, due) == FacedLinks(cid, cs[cid].links, due') {}
    match slot {
      case None => assert FacedLinks(k.cid, cs[k.cid].links - {k.lid}, due')
                       == FacedLinks(k.cid, cs[k.cid].links, due) - {k.lid};
      case Some(l) => assert FacedLinks(k.cid, cs[k.cid].links[k.lid := l], due')
                       == FacedLinks(k.cid, cs[k.cid].links, due)[k.lid := FacedLink(l, k in due')];
    }
    hide FacedLinks, FacedLink;
  }

  lemma PermittedIsFree(s: T.System, at: bool, cid: Short)
    requires T.Permitted(s, T.Accept(at, cid))
    ensures cid in T.ConnsAt(s, at) && ToShort(T.ConnsAt(s, at)[cid].nextId) !in T.ConnsAt(s, at)[cid].links
  {}

  lemma PermittedIsEnabled(s: T.System, a: T.Action)
    requires T.Permitted(s, a)
    ensures T.Enabled(s, a)
  {}

  lemma FacedAccepted(cs: T.Conns, due: set<T.Key>, cid: Short)
    requires cid in cs
    ensures cid in Faced(cs, due) && T.NextKey(Faced(cs, due), cid) == T.NextKey(cs, cid)
    ensures Faced(T.Accepted(cs, cid), due) == T.Accepted(Faced(cs, due), cid)
  {
    var k := T.NextKey(cs, cid);
    hide ToShort;
    assert FacedLinks(cid, cs[cid].links[k.lid := FRESH], due) == FacedLinks(cid, cs[cid].links, due)[k.lid := FRESH];
    hide FacedLinks;
  }

  /** No handler looks at what an entry has to report. */
  lemma FacedReceive(listening: bool, slot: Option<Link>, m: LinkMsg, connected: bool, due: bool)
    ensures Receive(listening, FacedSlot(slot, due), m, connected)
            == match Receive(listening, slot, m, connected)
               case Failed(why) => Failed(why)
               case Reaction(after, replies) => Reaction(FacedSlot(after, due), replies)
  {}

  lemma FacedMessage(cs: T.Conns, due: set<T.Key>, m: T.Msg, connected: bool, failed: set<Short>)
    ensures FaultAt(Faced(cs, due), m, connected) == FaultAt(cs, m, connected)
    ensures FaultAt(cs, m, connected) == None ==>
      && ConnsAfter(Faced(cs, due), m, connected, failed) == Faced(ConnsAfter(cs, m, connected, failed), due)
      && (forall atLocal, text ::
            Replies(atLocal, Faced(cs, due), m, connected, text) == Replies(atLocal, cs, m, connected, text))
  {
    FacedKeeps(cs, due);
    hide Receive, T.SetSlot, T.SlotOf, Faced, FacedSlot, Payloads, Errors, T.MakeConns;
    match m
    case OnLink(k, body) =>
      if k.cid in cs {
        FacedAt(cs, due, k);
        FacedReceive(cs[k.cid].listening, T.SlotOf(cs, k), body, connected, k in due);
        var r := Receive(cs[k.cid].listening, T.SlotOf(cs, k), body, connected);
        if r.Reaction? { FacedSet(cs, due, due, k, r.slot); }
      }
    case CreateTable(es) => NoLinksToFace(false, es, failed, due);
    case _ =>
  }

  lemma NoLinksToFace(isLocal: bool, es: seq<Entry>, failed: set<Short>, due: set<T.Key>)
    ensures Faced(T.MakeConns(isLocal, es, failed), due) == T.MakeConns(isLocal, es, failed)
  {
    var cs := T.MakeConns(isLocal, es, failed);
    forall cid | cid in cs ensures cs[cid].links == map[] {
      T.NewConnNumbers(isLocal, es, failed, cid);
    }
    BlankToFace(cs, due);
  }

  lemma BlankToFace(cs: T.Conns, due: set<T.Key>)
    requires forall cid :: cid in cs ==> cs[cid].links == map[]
    ensures Faced(cs, due) == cs
  {}

  lemma FacedReading(cs: T.Conns, due: set<T.Key>, atLocal: bool, greeted: bool, bs: seq<Byte>)
    ensures GetMsg(atLocal, greeted, Faced(cs, due), bs) == GetMsg(atLocal, greeted, cs, bs)
    ensures forall k, body :: Awaited(Faced(cs, due), k, body) ==> Awaited(cs, k, body)
  {
    FacedKeeps(cs, due);
    hide Faced, GetShort, GetTable, GetString, GetLink, Listens;
    forall k, body | Awaited(Faced(cs, due), k, body) ensures Awaited(cs, k, body) {
      FacedAt(cs, due, k);
    }
  }

  // ---------------------------------------------------------------- what Tunnel.Step says of a delivery

  /** Packets sent for a link's messages carry those messages. */
  lemma {:induction false} PayloadsCarry(k: T.Key, bodies: seq<LinkMsg>)
    ensures Carries(Payloads(k.cid, k.lid, bodies), T.Wrap(k, bodies))
  {
    hide LinkPayload;
    if bodies != [] {
      PayloadsCarry(k, bodies[1..]);
      OneCarries(T.OnLink(k, bodies[0]), []);
      CarriesMore([LinkPayload(k.cid, k.lid, bodies[0])], [T.OnLink(k, bodies[0])],
                  Payloads(k.cid, k.lid, bodies[1..]), T.Wrap(k, bodies[1..]));
    }
  }

  lemma OneCarries(m: T.Msg, text: seq<Byte>)
    requires |text| < LONG_LIMIT
    ensures Carries([PutMsg(m, text)], [m])
  {
    assert Encodes(PutMsg(m, text), m);
  }

  lemma RepliesCarry(atLocal: bool, cs: T.Conns, m: T.Msg, connected: bool, text: seq<Byte>)
    requires FaultAt(cs, m, connected) == None && |text| < LONG_LIMIT
    ensures Carries(Replies(atLocal, cs, m, connected, text), Sends(atLocal, cs, m, connected))
  {
    hide Receive, PutMsg;
    match m
    case CreateTable(_) => OneCarries(T.CreateDone, []);
    case OnLink(k, body) =>
      var replies := Receive(cs[k.cid].listening, T.SlotOf(cs, k), body, connected).replies;
      PayloadsCarry(k, replies);
      ErrorsCarry(!atLocal && !cs[k.cid].listening && body == Create && !connected, text);
      hide Payloads, T.Wrap, Errors, Carries;
      CarriesMore(Errors(!atLocal && !cs[k.cid].listening && body == Create && !connected, text),
                  if !atLocal && !cs[k.cid].listening && body == Create && !connected then [T.ErrorText] else [],
                  Payloads(k.cid, k.lid, replies), T.Wrap(k, replies));
    case _ =>
  }

  lemma ErrorsCarry(failed: bool, text: seq<Byte>)
    requires |text| < LONG_LIMIT
    ensures Carries(Errors(failed, text), if failed then [T.ErrorText] else [])
  {
    if failed {
      OneCarries(T.ErrorText, text);
    }
  }

  /** In any reachable state, what module Tunnel lets a delivery do to an end is what Handle does. */
  lemma DeliverIs(s: T.System, at: bool, connected: bool, failed: set<Short>)
    requires T.Inv(s) && T.Incoming(s, at) != []
    ensures var m, cs := Arrived(T.Incoming(s, at)[0]), T.ConnsAt(s, at);
      var o := T.Step(s, T.Deliver(at, connected, failed));
      && o.Running? && FaultAt(cs, m, connected) == None
      && T.ConnsAt(o.s, at) == ConnsAfter(cs, m, connected, failed)
      && T.ConnsAt(o.s, !at) == T.ConnsAt(s, !at)
      && T.Incoming(o.s, at) == T.Incoming(s, at)[1..]
      && T.Incoming(o.s, !at) == T.Incoming(s, !at) + Sends(at, cs, m, connected)
      && o.s.greeted == (s.greeted || m.CreateTable?)
  {
    T.StepPreserves(s, T.Deliver(at, connected, failed));
    var m := T.Incoming(s, at)[0];
    if m.OnLink? {
      T.LinkHead(s, at);
      T.DeliverOnLink(s, at, connected, failed);
      DispatchIs(T.Popped(s, at), at, m.key, m.body, connected);
      hide T.Inv, T.Step, T.Dispatch, ConnsAfter, Sends, FaultAt, T.Connected;
    } else {
      DeliverOther(s, at, connected, failed);
      hide T.Inv, T.Step, ConnsAfter, Sends, FaultAt;
    }
  }

  lemma DeliverOther(s: T.System, at: bool, connected: bool, failed: set<Short>)
    requires T.Inv(s) && T.Incoming(s, at) != [] && !T.Incoming(s, at)[0].OnLink?
    ensures var m, cs := Arrived(T.Incoming(s, at)[0]), T.ConnsAt(s, at);
      var o := T.Step(s, T.Deliver(at, connected, failed));
      o.Running? ==>
        && FaultAt(cs, m, connected) == None
        && T.ConnsAt(o.s, at) == ConnsAfter(cs, m, connected, failed)
        && T.ConnsAt(o.s, !at) == T.ConnsAt(s, !at)
        && T.Incoming(o.s, at) == T.Incoming(s, at)[1..]
        && T.Incoming(o.s, !at) == T.Incoming(s, !at) + Sends(at, cs, m, connected)
        && o.s.greeted == (s.greeted || m.CreateTable?)
  {
    hide T.LinksFine, Receive, T.Dispatch, T.MakeConns, Images, T.Tabled, T.Complementary;
  }

  lemma DispatchIs(s: T.System, at: bool, k: T.Key, body: LinkMsg, connected: bool)
    requires T.Dispatch(s, at, k, body, connected).Running?
    ensures var m, cs, o := T.OnLink(k, body), T.ConnsAt(s, at), T.Dispatch(s, at, k, body, connected);
      && FaultAt(cs, m, connected) == None
      && T.ConnsAt(o.s, at) == ConnsAfter(cs, m, connected, {})
      && T.ConnsAt(o.s, !at) == T.ConnsAt(s, !at)
      && T.Incoming(o.s, at) == T.Incoming(s, at)
      && T.Incoming(o.s, !at) == T.Incoming(s, !at) + Sends(at, cs, m, connected)
      && o.s.greeted == s.greeted
  {
    hide Receive, T.SetSlot, T.SlotOf, T.Wrap;
  }

  lemma AcceptIs(s: T.System, at: bool, cid: Short, sent: seq<Payload>)
    requires T.Inv(s) && T.Permitted(s, T.Accept(at, cid))
    ensures var cs, s' := T.ConnsAt(s, at), T.AcceptAt(s, at, cid);
      && cid in cs && cs[cid].listening
      && T.Step(s, T.Accept(at, cid)) == T.Running(s') && T.Inv(s') && s'.greeted == s.greeted
      && T.Incoming(s', at) == T.Incoming(s, at)
      && T.ConnsAt(s', at) == T.Accepted(cs, cid)
      && Answered(s, at, s', sent, sent + Payloads(cid, ToShort(cs[cid].nextId), [Create]))
      && Fits(Payloads(cid, ToShort(cs[cid].nextId), [Create]), MAX_PAYLOAD)
  {
    hide T.Inv, ToShort, Carries, Payloads, T.Wrap;
    T.StepPreserves(s, T.Accept(at, cid));
    var k := T.Key(cid, ToShort(T.ConnsAt(s, at)[cid].nextId));
    PayloadsCarry(k, [Create]);
    PayloadsFit(cid, k.lid, [Create]);
    T.WrapOne(k, Create);
    assert [] + T.Wrap(k, [Create]) == T.Wrap(k, [Create]);
    hide Answered;
    AnsweredBy(s, at, T.AcceptAt(s, at, cid), sent, Payloads(cid, k.lid, [Create]), [T.OnLink(k, Create)]);
  }

  /** What a link's callback may send fits into packets. */
  lemma {:induction false} PayloadsFit(cid: Short, lid: Short, bodies: seq<LinkMsg>)
    requires forall i :: 0 <= i < |bodies| ==> |Protocol.Payload(bodies[i])| <= MAX_DATA
    ensures Fits(Payloads(cid, lid, bodies), MAX_PAYLOAD)
  {
    if bodies != [] {
      PayloadsFit(cid, lid, bodies[1..]);
      PayloadFits(cid, lid, bodies[0]);
      hide LinkPayload;
    }
  }

  /** And so does what it is answered, if an error message is not too long. */
  const MAX_TEXT := MAX_PAYLOAD - 6

  lemma RepliesFit(atLocal: bool, cs: T.Conns, m: T.Msg, connected: bool, text: seq<Byte>)
    requires FaultAt(cs, m, connected) == None && |text| <= MAX_TEXT
    ensures Fits(Replies(atLocal, cs, m, connected, text), MAX_PAYLOAD)
  {
    match m
    case CreateTable(_) =>
    case OnLink(k, body) =>
      var r := Receive(cs[k.cid].listening, T.SlotOf(cs, k), body, connected);
      assert forall i :: 0 <= i < |r.replies| ==> |Protocol.Payload(r.replies[i])| <= MAX_DATA;
      PayloadsFit(k.cid, k.lid, r.replies);
      hide Receive, Payloads;
    case _ =>
  }

  lemma PayloadFits(cid: Short, lid: Short, m: LinkMsg)
    requires |Protocol.Payload(m)| <= MAX_DATA
    ensures |LinkPayload(cid, lid, m)| <= MAX_PAYLOAD
  {
    hide PutShort;
  }

  /** A link's callback is the step of module Tunnel. */
  lemma LinkPolledIs(s: T.System, at: bool, k: T.Key, rd: ReadResult, n: nat, sent: seq<Payload>)
    requires T.Inv(s) && T.Enabled(s, T.LinkPolled(at, k, rd, n))
    ensures var cs, s' := T.ConnsAt(s, at), T.LinkPolledAt(s, at, k, rd, n);
      var t := Polled(T.SlotOf(cs, k).value, cs[k.cid].ack, rd, n);
      && T.Step(s, T.LinkPolled(at, k, rd, n)) == T.Running(s') && T.Inv(s') && s'.greeted == s.greeted
      && T.Incoming(s', at) == T.Incoming(s, at)
      && T.ConnsAt(s', at) == T.SetSlot(cs, k, Some(Visited(t.link)))
      && Answered(s, at, s', sent, sent + Payloads(k.cid, k.lid, t.sends))
      && Fits(Payloads(k.cid, k.lid, t.sends), MAX_PAYLOAD)
  {
    var cs, s' := T.ConnsAt(s, at), T.LinkPolledAt(s, at, k, rd, n);
    var t := Polled(T.SlotOf(cs, k).value, cs[k.cid].ack, rd, n);
    TurnFits(k, T.SlotOf(cs, k).value, cs[k.cid].ack, rd, n);
    T.StepPreserves(s, T.LinkPolled(at, k, rd, n));
    PayloadsCarry(k, t.sends);
    LinkPolledParts(s, at, k, rd, n);
    hide T.Inv, Carries, Payloads, T.Wrap, Polled, T.SetSlot, Answered, T.LinkPolledAt;
    AnsweredBy(s, at, s', sent, Payloads(k.cid, k.lid, t.sends), T.Wrap(k, t.sends));
  }

  lemma LinkPolledParts(s: T.System, at: bool, k: T.Key, rd: ReadResult, n: nat)
    requires T.Enabled(s, T.LinkPolled(at, k, rd, n))
    ensures var cs, s' := T.ConnsAt(s, at), T.LinkPolledAt(s, at, k, rd, n);
      var t := Polled(T.SlotOf(cs, k).value, cs[k.cid].ack, rd, n);
      && s'.greeted == s.greeted && T.ConnsAt(s', at) == T.SetSlot(cs, k, Some(Visited(t.link)))
      && T.ConnsAt(s', !at) == T.ConnsAt(s, !at)
      && T.Incoming(s', at) == T.Incoming(s, at) && T.Incoming(s', !at) == T.Incoming(s, !at) + T.Wrap(k, t.sends)
  {
    hide Polled, T.SetSlot, T.Wrap;
  }

  lemma TurnFits(k: T.Key, l: Link, ack: bool, rd: ReadResult, n: nat)
    requires rd.Bytes? ==> |rd.data| <= MAX_DATA
    ensures Fits(Payloads(k.cid, k.lid, Polled(l, ack, rd, n).sends), MAX_PAYLOAD)
  {
    var sends := Polled(l, ack, rd, n).sends;
    assert forall i :: 0 <= i < |sends| ==> |Protocol.Payload(sends[i])| <= MAX_DATA;
    hide Polled;
    PayloadsFit(k.cid, k.lid, sends);
  }

  /** Only links in the Poller have something to report. */
  ghost predicate Silent(cs: T.Conns) {
    forall cid, lid :: cid in cs && lid in cs[cid].links && !cs[cid].links[lid].registered ==>
      cs[cid].links[lid].revents == NOTHING
  }

  function KeysOf(cs: T.Conns): set<T.Key> {
    set cid, lid | cid in cs && lid in cs[cid].links :: T.Key(cid, lid)
  }

  /** With every entry reported anew, the whole round is to come, and it does not matter who had been visited. */
  lemma FacedReported(cs: T.Conns, due: set<T.Key>, reports: map<T.Key, Events>)
    requires Silent(cs)
    ensures Faced(T.Reported(cs, reports), KeysOf(cs)) == T.Reported(Faced(cs, due), reports)
  {
    forall cid | cid in cs
      ensures FacedLinks(cid, T.ReportedLinks(cid, cs[cid].links, reports), KeysOf(cs))
              == T.ReportedLinks(cid, FacedLinks(cid, cs[cid].links, due), reports)
    {
      FacedLinksReported(cid, cs[cid].links, due, KeysOf(cs), reports);
    }
    hide T.ReportedLinks, FacedLinks, KeysOf;
  }

  lemma FacedLinksReported(cid: Short, links: map<Short, Link>, due: set<T.Key>, all: set<T.Key>,
                           reports: map<T.Key, Events>)
    requires forall lid :: lid in links ==> T.Key(cid, lid) in all
    requires forall lid :: lid in links && !links[lid].registered ==> links[lid].revents == NOTHING
    ensures FacedLinks(cid, T.ReportedLinks(cid, links, reports), all)
            == T.ReportedLinks(cid, FacedLinks(cid, links, due), reports)
  {
    forall lid | lid in links
      ensures T.Report(FacedLink(links[lid], T.Key(cid, lid) in due), T.Key(cid, lid), reports)
              == T.Report(links[lid], T.Key(cid, lid), reports)
    {}
    hide T.Report;
  }

  lemma FacedReports(cs: T.Conns, due: set<T.Key>, reports: map<T.Key, Events>)
    requires forall k :: k in reports ==> T.SlotOf(cs, k).Some? && Reportable(T.SlotOf(cs, k).value, reports[k])
    ensures forall k :: k in reports ==>
      T.SlotOf(Faced(cs, due), k).Some? && Reportable(T.SlotOf(Faced(cs, due), k).value, reports[k])
  {
    hide Faced;
    forall k | k in reports
      ensures T.SlotOf(Faced(cs, due), k).Some? && Reportable(T.SlotOf(Faced(cs, due), k).value, reports[k])
    {
      FacedAt(cs, due, k);
    }
  }

  /** poll() changes nothing but the reports. */
  lemma PollIs(s: T.System, at: bool, reports: map<T.Key, Events>)
    requires T.Inv(s) && T.Enabled(s, T.Poll(at, reports))
    ensures var s' := T.PollAt(s, at, reports);
      && T.Step(s, T.Poll(at, reports)) == T.Running(s') && T.Inv(s') && s'.greeted == s.greeted
      && T.ConnsAt(s', at) == T.Reported(T.ConnsAt(s, at), reports)
      && (forall sent :: Answered(s, at, s', sent, sent))
      && T.Incoming(s', at) == T.Incoming(s, at)
  {
    hide T.Inv, T.Reported;
    T.StepPreserves(s, T.Poll(at, reports));
  }

  /** s' is where the delivery of the oldest message to the end `at` leads. */
  ghost predicate Leads(s: T.System, at: bool, connected: bool, failed: set<Short>, s': T.System) {
    T.Incoming(s, at) != [] && T.Step(s, T.Deliver(at, connected, failed)) == T.Running(s')
  }

  /** The end `at` has sent what reaches the other end's channel in s', and nothing else has changed there. */
  ghost predicate Answered(s: T.System, at: bool, s': T.System, before: seq<Payload>, sent: seq<Payload>) {
    && T.ConnsAt(s', !at) == T.ConnsAt(s, !at)
    && |before| <= |sent| && sent[..|before|] == before
    && |T.Incoming(s, !at)| <= |T.Incoming(s', !at)|
      && T.Incoming(s', !at)[..|T.Incoming(s, !at)|] == T.Incoming(s, !at)
    && Carries(sent[|before|..], T.Incoming(s', !at)[|T.Incoming(s, !at)|..])
  }

  lemma AnsweredBy(s: T.System, at: bool, s': T.System, sent: seq<Payload>, ps: seq<Payload>, ms: seq<T.Msg>)
    requires T.ConnsAt(s', !at) == T.ConnsAt(s, !at) && T.Incoming(s', !at) == T.Incoming(s, !at) + ms
    requires Carries(ps, ms)
    ensures Answered(s, at, s', sent, sent + ps)
  {
    var out := T.Incoming(s, !at);
    assert (sent + ps)[..|sent|] == sent && (sent + ps)[|sent|..] == ps;
    assert (out + ms)[..|out|] == out && (out + ms)[|out|..] == ms;
  }

  lemma CarriedLength(ps: seq<Payload>, ms: seq<T.Msg>)
    requires Carries(ps, ms)
    ensures |ps| == |ms|
  {}

  lemma CreateDoneIsLocal(atLocal: bool, greeted: bool, cs: T.Conns, bs: seq<Byte>)
    ensures var r := GetMsg(atLocal, greeted, cs, bs); r.Some? && r.value.0.CreateDone? ==> atLocal
  {
    hide GetTable, GetString, GetShort, GetLink;
  }

  lemma SentSince(before: seq<Payload>, ps: seq<Payload>)
    ensures (before + ps)[|before|..] == ps
  {}

  lemma NotAnswered(s: T.System, at: bool, sent: seq<Payload>)
    ensures Answered(s, at, s, sent, sent) && Fits(sent[|sent|..], MAX_PAYLOAD)
  {}

  /** Handling the oldest message, with what it makes and sends, is the step. */
  lemma DeliveredState(s: T.System, at: bool, connected: bool, text: seq<Byte>, failed: set<Short>, sent: seq<Payload>)
    returns (s': T.System)
    requires T.Inv(s) && T.Incoming(s, at) != [] && |text| < LONG_LIMIT
    ensures var m, cs := Arrived(T.Incoming(s, at)[0]), T.ConnsAt(s, at);
      && FaultAt(cs, m, connected) == None
      && T.ConnsAt(s', at) == ConnsAfter(cs, m, connected, failed)
      && T.Incoming(s', at) == T.Incoming(s, at)[1..]
      && s'.greeted == (s.greeted || m.CreateTable?)
      && T.Inv(s') && Leads(s, at, connected, failed, s')
      && Answered(s, at, s', sent, sent + Replies(at, cs, m, connected, text))
  {
    hide T.Inv, T.Step, ConnsAfter, Sends, Replies, Carries, FaultAt;
    T.StepPreserves(s, T.Deliver(at, connected, failed));
    DeliverIs(s, at, connected, failed);
    s' := T.Step(s, T.Deliver(at, connected, failed)).s;
    var m, cs := Arrived(T.Incoming(s, at)[0]), T.ConnsAt(s, at);
    RepliesCarry(at, cs, m, connected, text);
    hide Answered;
    AnsweredBy(s, at, s', sent, Replies(at, cs, m, connected, text), Sends(at, cs, m, connected));
  }

  /** A message is only delivered when its receiver is ready for it. */
  lemma ReceiverIsReady(s: T.System, at: bool)
    requires T.Inv(s) && T.Incoming(s, at) != []
    ensures var m, cs := T.Incoming(s, at)[0], T.ConnsAt(s, at);
      && (m.CreateTable? ==> cs == map[])
      && (m.OnLink? ==> Awaited(cs, m.key, m.body))
  {
    if T.Incoming(s, at)[0].OnLink? {
      T.LinkHead(s, at);
      T.HeadFinds(s, at);
      hide T.Inv, T.Connected;
    } else {
      hide T.LinksFine, T.Complementary, T.Tabled;
    }
  }

  // ---------------------------------------------------------------- what sockets have been given

  type Books = map<T.Key, seq<Byte>>

  /** For every link of the end `at`, `books` holds what its socket has been given; while the link is open
      that is what module Tunnel has recorded. */
  ghost predicate Booked(books: Books, s: T.System, at: bool) {
    forall k :: BookedAt(books, s, at, k)
  }

  ghost predicate BookedAt(books: Books, s: T.System, at: bool, k: T.Key) {
    var slot := T.SlotOf(T.ConnsAt(s, at), k);
    && (k in books <==> slot.Some?)
    && (k in books ==> k.cid in s.local && (T.OpenSlot(slot) ==> books[k] == T.WrittenAt(s, at, k)))
  }

  ghost predicate SameBut(books: Books, books': Books, k: T.Key) {
    forall k' :: k' != k ==> (k' in books' <==> k' in books) && (k' in books ==> books'[k'] == books[k'])
  }

  lemma UpdateBooked(s: T.System, at: bool, cs: T.Conns, slot: Option<Link>, out: seq<T.Msg>, k: T.Key,
                     io: Protocol.Traffic, who: bool, books: Books, books': Books)
    requires T.OnlySlot(T.ConnsAt(s, at), cs, k, slot)
    requires Booked(books, s, who) && SameBut(books, books', k)
    requires BookedAt(books', T.Update(s, at, cs, out, k, io), who, k)
    ensures Booked(books', T.Update(s, at, cs, out, k, io), who)
  {
    var s' := T.Update(s, at, cs, out, k, io);
    assert s'.local.Keys == s.local.Keys;
    forall k' | k' != k ensures BookedAt(books', s', who, k') {
      assert BookedAt(books, s, who, k');
      assert T.SlotOf(T.ConnsAt(s', who), k') == T.SlotOf(T.ConnsAt(s, who), k') && T.IoOf(s', k') == T.IoOf(s, k');
      hide T.SlotOf, T.IoOf, T.Update;
    }
  }

  lemma AcceptBooked(s: T.System, at: bool, cid: Short, books: Books, books': Books)
    requires T.Inv(s) && T.Permitted(s, T.Accept(at, cid)) && Booked(books, s, at)
    requires var k := T.NextKey(T.ConnsAt(s, at), cid); SameBut(books, books', k) && k in books' && books'[k] == []
    ensures Booked(books', T.AcceptAt(s, at, cid), at)
  {
    T.RoleAt(s, at, cid);
    hide T.Inv, ToShort, Booked, SameBut;
    var cs, k := T.ConnsAt(s, at), T.NextKey(T.ConnsAt(s, at), cid);
    T.AcceptOnlySlot(cs, cid);
    hide T.Accepted, T.OnlySlot, T.Permitted;
    UpdateBooked(s, at, T.Accepted(cs, cid), Some(FRESH), [T.OnLink(k, Create)], k,
                 Protocol.SILENCE, at, books, books');
  }

  lemma AcceptBookedAtPeer(s: T.System, at: bool, cid: Short, books: Books)
    requires T.Inv(s) && T.Permitted(s, T.Accept(at, cid)) && Booked(books, s, !at)
    ensures Booked(books, T.AcceptAt(s, at, cid), !at)
  {
    var cs, k := T.ConnsAt(s, at), T.NextKey(T.ConnsAt(s, at), cid);
    NoOpenPeer(s, at, cid);
    assert BookedAt(books, s, !at, k);
    hide T.Inv, ToShort, Booked;
    T.AcceptOnlySlot(cs, cid);
    hide T.Accepted, T.OnlySlot, T.Permitted;
    UpdateBooked(s, at, T.Accepted(cs, cid), Some(FRESH), [T.OnLink(k, Create)], k,
                 Protocol.SILENCE, !at, books, books);
  }

  /** The other end has no open link under the id a listener is about to hand out. */
  lemma NoOpenPeer(s: T.System, at: bool, cid: Short)
    requires T.Inv(s) && T.Permitted(s, T.Accept(at, cid))
    ensures !T.OpenSlot(T.SlotOf(T.ConnsAt(s, !at), T.NextKey(T.ConnsAt(s, at), cid))) && cid in s.local
  {
    var k := T.NextKey(T.ConnsAt(s, at), cid);
    T.RoleAt(s, at, cid);
    T.SlotInPair(s, at, k);
    T.SlotInPair(s, !at, k);
    assert Protocol.Inv(s.local[cid].ack, T.Pair(s, k));
    hide T.Inv, ToShort;
    Protocol.UnusedIsNotOpen(s.local[cid].ack, T.Pair(s, k));
    hide Protocol.Inv, T.Pair;
  }

  lemma LinkPolledBooked(s: T.System, at: bool, k: T.Key, rd: ReadResult, n: nat, books: Books, books': Books)
    requires T.Inv(s) && T.Enabled(s, T.LinkPolled(at, k, rd, n)) && Booked(books, s, at)
    requires SameBut(books, books', k) && k in books && k in books'
    requires var cs := T.ConnsAt(s, at);
      books'[k] == books[k] + Polled(T.SlotOf(cs, k).value, cs[k.cid].ack, rd, n).wrote
    ensures Booked(books', T.LinkPolledAt(s, at, k, rd, n), at)
  {
    var cs := T.ConnsAt(s, at);
    T.RoleAt(s, at, k.cid);
    T.WatchedIsHealthy(s, at, k);
    assert BookedAt(books, s, at, k);
    hide T.Inv, Polled, Healthy, Booked, SameBut, T.SetSlot;
    var t := Polled(T.SlotOf(cs, k).value, cs[k.cid].ack, rd, n);
    T.SetSlotIsOnly(cs, k, Some(Visited(t.link)));
    UpdateBooked(s, at, T.SetSlot(cs, k, Some(Visited(t.link))), Some(Visited(t.link)), T.Wrap(k, t.sends), k,
                 T.Record(T.IoOf(s, k), cs[k.cid].listening, t), at, books, books');
  }

  lemma LinkPolledBookedAtPeer(s: T.System, at: bool, k: T.Key, rd: ReadResult, n: nat, books: Books)
    requires T.Inv(s) && T.Enabled(s, T.LinkPolled(at, k, rd, n)) && Booked(books, s, !at)
    ensures Booked(books, T.LinkPolledAt(s, at, k, rd, n), !at)
  {
    var cs := T.ConnsAt(s, at);
    T.RoleAt(s, at, k.cid);
    assert BookedAt(books, s, !at, k);
    hide T.Inv, Polled, Booked, T.SetSlot;
    var t := Polled(T.SlotOf(cs, k).value, cs[k.cid].ack, rd, n);
    T.SetSlotIsOnly(cs, k, Some(Visited(t.link)));
    UpdateBooked(s, at, T.SetSlot(cs, k, Some(Visited(t.link))), Some(Visited(t.link)), T.Wrap(k, t.sends), k,
                 T.Record(T.IoOf(s, k), cs[k.cid].listening, t), !at, books, books);
  }

  lemma PollBooked(s: T.System, at: bool, reports: map<T.Key, Events>, books: Books, who: bool)
    requires T.Inv(s) && T.Enabled(s, T.Poll(at, reports)) && Booked(books, s, who)
    ensures Booked(books, T.PollAt(s, at, reports), who)
  {
    T.ReportedKeys(s.local, reports);
    hide T.Inv, T.Reported;
    forall k ensures BookedAt(books, T.PollAt(s, at, reports), who, k) {
      assert BookedAt(books, s, who, k);
      T.ReportedSlot(T.ConnsAt(s, at), reports, k);
    }
  }

  /** No message reopens a link. */
  lemma StaysClosed(listening: bool, slot: Option<Link>, m: LinkMsg, connected: bool)
    ensures var r := Receive(listening, slot, m, connected);
      r.Reaction? && T.OpenSlot(r.slot) && (listening || m != Create) ==> T.OpenSlot(slot)
  {}

  // ---------------------------------------------------------------- what an end has read

  /** What the present round has to report on a link in the Poller. */
  function Reporting(s: T.System, at: bool, k: T.Key): Events {
    var slot := T.SlotOf(T.ConnsAt(s, at), k);
    if slot.Some? && slot.value.registered then slot.value.revents else NOTHING
  }

  /** What an end has read for a link after one more step: a readable link takes what read() returns, and a link
      newly accepted starts from nothing. */
  function ReadNext(s: T.System, a: T.Action, at: bool, k: T.Key, read: seq<Byte>): seq<Byte>
    requires T.Permitted(s, a)
  {
    match a
    case Accept(end, cid) => if T.NextKey(T.ConnsAt(s, end), cid) == k then [] else read
    case LinkPolled(end, j, rd, _) =>
      if end == at && j == k && rd.Bytes? && Reporting(s, at, k).pin then read + rd.data else read
    case _ => read
  }

  lemma StepReads(s: T.System, a: T.Action, at: bool, k: T.Key)
    requires T.Inv(s) && T.Permitted(s, a) && k.cid in s.local
    ensures var o := T.Step(s, a);
      o.Running? && k.cid in o.s.local && T.ReadAt(o.s, at, k) == ReadNext(s, a, at, k, T.ReadAt(s, at, k))
  {
    hide T.Inv, T.AcceptAt, T.PollAt, T.LinkPolledAt, T.DeliverUp, T.DeliverDown, T.ReadAt, ToShort, Reporting;
    match a
    case Accept(end, cid) => AcceptReads(s, end, cid, at, k);
    case Poll(end, reports) => PollReads(s, end, reports, at, k);
    case LinkPolled(end, j, rd, n) => LinkReads(s, end, j, rd, n, at, k);
    case Deliver(end, connected, failed) => DeliverReads(s, end, connected, failed, at, k);
  }

  lemma DeliverReads(s: T.System, end: bool, connected: bool, failed: set<Short>, at: bool, k: T.Key)
    requires T.Inv(s) && T.Incoming(s, end) != [] && k.cid in s.local
    ensures var o := T.Step(s, T.Deliver(end, connected, failed));
      o.Running? && k.cid in o.s.local && T.ReadAt(o.s, at, k) == T.ReadAt(s, at, k)
  {
    hide T.Inv, T.Step, T.IoOf;
    DeliverKeepsIo(s, end, connected, failed);
  }

  lemma PollReads(s: T.System, end: bool, reports: map<T.Key, Events>, at: bool, k: T.Key)
    requires k.cid in s.local
    ensures var s' := T.PollAt(s, end, reports); k.cid in s'.local && T.ReadAt(s', at, k) == T.ReadAt(s, at, k)
  {
    hide T.Reported;
    T.ReportedKeys(s.local, reports);
  }

  lemma AcceptReads(s: T.System, end: bool, cid: Short, at: bool, k: T.Key)
    requires cid in T.ConnsAt(s, end) && k.cid in s.local
    ensures var s' := T.AcceptAt(s, end, cid);
      && k.cid in s'.local
      && T.ReadAt(s', at, k) == if T.NextKey(T.ConnsAt(s, end), cid) == k then [] else T.ReadAt(s, at, k)
  {
    var cs, j := T.ConnsAt(s, end), T.NextKey(T.ConnsAt(s, end), cid);
    T.AcceptOnlySlot(cs, cid);
    UpdateReads(s, end, T.Accepted(cs, cid), Some(FRESH), [T.OnLink(j, Create)], j, Protocol.SILENCE, at, k);
    hide T.Accepted, ToShort, T.Update, T.ReadAt;
  }

  lemma LinkReads(s: T.System, end: bool, j: T.Key, rd: ReadResult, n: nat, at: bool, k: T.Key)
    requires T.Inv(s) && T.Permitted(s, T.LinkPolled(end, j, rd, n)) && k.cid in s.local
    ensures var s' := T.LinkPolledAt(s, end, j, rd, n);
      && k.cid in s'.local
      && T.ReadAt(s', at, k) == ReadNext(s, T.LinkPolled(end, j, rd, n), at, k, T.ReadAt(s, at, k))
  {
    var cs := T.ConnsAt(s, end);
    T.RoleAt(s, end, j.cid);
    hide T.Inv, T.SetSlot, T.Wrap, Polled, T.Update, T.OnlySlot;
    var t := Polled(T.SlotOf(cs, j).value, cs[j.cid].ack, rd, n);
    T.SetSlotIsOnly(cs, j, Some(Visited(t.link)));
    TurnReads(T.SlotOf(cs, j).value, cs[j.cid].ack, rd, n);
    UpdateReads(s, end, T.SetSlot(cs, j, Some(Visited(t.link))), Some(Visited(t.link)), T.Wrap(j, t.sends), j,
                T.Record(T.IoOf(s, j), cs[j.cid].listening, t), at, k);
  }

  lemma UpdateReads(s: T.System, end: bool, cs: T.Conns, slot: Option<Link>, out: seq<T.Msg>, j: T.Key,
                    io: Protocol.Traffic, at: bool, k: T.Key)
    requires T.OnlySlot(T.ConnsAt(s, end), cs, j, slot) && k.cid in s.local
    ensures var s' := T.Update(s, end, cs, out, j, io);
      && k.cid in s'.local
      && T.ReadAt(s', at, k) == if j != k then T.ReadAt(s, at, k) else if T.AtListener(s, at, k.cid) then io.lRead
                                else io.cRead
  {}

  lemma TurnReads(l: Link, ack: bool, rd: ReadResult, n: nat)
    ensures Polled(l, ack, rd, n).read == if rd.Bytes? && l.revents.pin then rd.data else []
  {}

  /** What handling message m may do to the books: links go, and a request may make a new one. */
  ghost predicate BooksAfter(books: Books, m: T.Msg, books': Books) {
    forall k :: k in books' ==> (k in books && books'[k] == books[k]) || (m == T.OnLink(k, Create) && books'[k] == [])
  }

  ghost predicate BookKeys(books: Books, cs: T.Conns) {
    forall k :: k in books <==> T.SlotOf(cs, k).Some?
  }

  lemma DeliverKeepsIo(s: T.System, at: bool, connected: bool, failed: set<Short>)
    requires T.Inv(s) && T.Incoming(s, at) != []
    ensures var o := T.Step(s, T.Deliver(at, connected, failed));
      && o.Running? && o.s.local.Keys == s.local.Keys
      && (forall cid :: cid in s.local ==> o.s.local[cid].listening == s.local[cid].listening)
      && (forall k :: T.IoOf(o.s, k) == T.IoOf(s, k))
  {
    T.StepPreserves(s, T.Deliver(at, connected, failed));
    var m := T.Incoming(s, at)[0];
    if m.OnLink? {
      T.LinkHead(s, at);
      T.DeliverOnLink(s, at, connected, failed);
      DispatchKeepsIo(T.Popped(s, at), at, m.key, m.body, connected);
      hide T.Inv, T.Step, T.Dispatch, T.Connected;
    } else {
      OtherKeepsIo(s, at, connected, failed);
      hide T.Inv, T.Step;
    }
  }

  lemma OtherKeepsIo(s: T.System, at: bool, connected: bool, failed: set<Short>)
    requires T.Incoming(s, at) != [] && !T.Incoming(s, at)[0].OnLink?
    ensures var o := T.Step(s, T.Deliver(at, connected, failed));
      o.Running? ==> o.s.local == s.local && o.s.io == s.io
  {
    hide T.Dispatch, T.MakeConns, Images;
  }

  lemma DispatchKeepsIo(s: T.System, at: bool, k: T.Key, body: LinkMsg, connected: bool)
    ensures var o := T.Dispatch(s, at, k, body, connected);
      o.Running? ==>
        && o.s.local.Keys == s.local.Keys
        && (forall cid :: cid in s.local ==> o.s.local[cid].listening == s.local[cid].listening)
        && (forall k :: T.IoOf(o.s, k) == T.IoOf(s, k))
  {
    hide Receive, T.Wrap;
  }

  lemma SlotAfter(cs: T.Conns, m: T.Msg, connected: bool, failed: set<Short>, k: T.Key)
    requires FaultAt(cs, m, connected) == None
    ensures var slot := T.SlotOf(ConnsAfter(cs, m, connected, failed), k);
      T.OpenSlot(slot) ==> T.OpenSlot(T.SlotOf(cs, k)) || (m == T.OnLink(k, Create) && !cs[k.cid].listening)
  {
    match m
    case OnLink(key, body) =>
      StaysClosed(cs[key.cid].listening, T.SlotOf(cs, key), body, connected);
      hide Receive;
    case CreateTable(es) => T.NewConnNumbers(false, es, failed, k.cid); hide T.MakeConns;
    case _ =>
  }

  lemma DeliverBooked(s: T.System, at: bool, connected: bool, failed: set<Short>, books: Books, books': Books)
    requires T.Inv(s) && T.Incoming(s, at) != [] && Booked(books, s, at)
    requires BooksAfter(books, T.Incoming(s, at)[0], books')
    requires var o := T.Step(s, T.Deliver(at, connected, failed)); o.Running? ==> BookKeys(books', T.ConnsAt(o.s, at))
    ensures var o := T.Step(s, T.Deliver(at, connected, failed)); o.Running? && Booked(books', o.s, at)
  {
    hide T.Inv, T.Step, ConnsAfter, FaultAt;
    DeliverKeepsIo(s, at, connected, failed);
    DeliverIs(s, at, connected, failed);
    var s', m := T.Step(s, T.Deliver(at, connected, failed)).s, T.Incoming(s, at)[0];
    forall k ensures BookedAt(books', s', at, k) {
      assert BookedAt(books, s, at, k);
      SlotAfter(T.ConnsAt(s, at), Arrived(m), connected, failed, k);
      if m == T.OnLink(k, Create) { RequestIsSilent(s, at); }
    }
  }

  /** A request finds no link, and a receiver that has written nothing for it. */
  lemma RequestIsSilent(s: T.System, at: bool)
    requires T.Inv(s) && T.Incoming(s, at) != [] && T.Incoming(s, at)[0].OnLink? && T.Incoming(s, at)[0].body == Create
    ensures var k := T.Incoming(s, at)[0].key;
      k.cid in s.local && T.SlotOf(T.ConnsAt(s, at), k).None? && T.IoOf(s, k) == Protocol.SILENCE
  {
    var k := T.Incoming(s, at)[0].key;
    assert T.Connected(s);
    T.HeadFinds(s, at);
    T.RoleAt(s, at, k.cid);
    T.OnlyHead(T.Incoming(s, at), k);
    T.PairIo(s, k);
    assert Protocol.Inv(s.local[k.cid].ack, T.Pair(s, k));
    hide T.Inv, T.Only, Protocol.Inv;
    Protocol.RequestFindsSilence(s.local[k.cid].ack, T.Pair(s, k));
  }

  lemma DeliverBookedAtPeer(s: T.System, at: bool, connected: bool, failed: set<Short>, books: Books)
    requires T.Inv(s) && T.Incoming(s, at) != [] && Booked(books, s, !at)
    ensures var o := T.Step(s, T.Deliver(at, connected, failed)); o.Running? && Booked(books, o.s, !at)
  {
    hide T.Inv, T.Step, ConnsAfter, FaultAt;
    DeliverKeepsIo(s, at, connected, failed);
    DeliverIs(s, at, connected, failed);
    var s', peer := T.Step(s, T.Deliver(at, connected, failed)).s, !at;
    forall k ensures BookedAt(books, s', peer, k) {
      assert BookedAt(books, s, peer, k);
    }
  }

  // ---------------------------------------------------------------- reading the table

  lemma IsOnLink(cs: T.Conns, bs: seq<Byte>)
    ensures GetOnLink(cs, bs).Some? ==> GetOnLink(cs, bs).value.0.OnLink?
  {}

  lemma AllRead(es: seq<Entry>, rest: seq<Byte>)
    ensures Prefixed(es, GetEntries(0, rest)) == Some((es, rest))
  {
    assert es + [] == es;
  }

  lemma MakeOneMore(isLocal: bool, es: seq<Entry>, e: Entry, failed: set<Short>)
    ensures T.MakeConns(isLocal, es + [e], failed)
            == if e.1.ListensAt(isLocal) && e.0 in failed then T.MakeConns(isLocal, es, failed)
               else T.MakeConns(isLocal, es, failed)
                    [e.0 := T.Conn(e.1.ListensAt(isLocal), e.1.AckPackets(), map[], 501)]
  {
    assert (es + [e])[..|es|] == es;
  }

  /** What start() makes of the command line: ids are handed out in order, and who cannot listen is left out. */
  function Requested(specs: seq<ConnectionSpec>, failed: set<Short>): seq<Entry>
    requires |specs| <= 0x8000
  {
    if specs == [] then []
    else
      var i := |specs| - 1;
      var rest := Requested(specs[..i], failed);
      if specs[i].ListensAt(true) && i in failed then rest else rest + [(i, specs[i])]
  }

  /** The requests' ids ascend, and their specifications are among those asked for. */
  lemma {:induction false} RequestedAre(specs: seq<ConnectionSpec>, failed: set<Short>)
    requires |specs| <= 0x8000
    ensures var es := Requested(specs, failed);
      && |es| <= |specs|
      && (forall i :: 0 <= i < |es| ==> 0 <= es[i].0 < |specs| && es[i].1 in specs)
      && (forall i, j :: 0 <= i < j < |es| ==> es[i].0 < es[j].0)
  {
    if specs != [] {
      RequestedAre(specs[..|specs| - 1], failed);
      assert forall x :: x in specs[..|specs| - 1] ==> x in specs;
    }
  }

  /** Each of the connections asked for is made, under its place in the list and as asked for, unless it is to listen
      here and cannot; and there are no others. */
  lemma {:induction false} RequestedExactly(specs: seq<ConnectionSpec>, failed: set<Short>)
    requires |specs| <= 0x8000
    ensures var es := Requested(specs, failed);
      && (forall i: Short :: 0 <= i < |specs| ==>
            ((i, specs[i]) in es <==> !(specs[i].direction == CONNECT && i in failed)))
      && (forall e :: e in es ==> 0 <= e.0 < |specs| && e.1 == specs[e.0])
  {
    if specs != [] {
      var n := |specs| - 1;
      RequestedExactly(specs[..n], failed);
      assert forall i :: 0 <= i < n ==> specs[..n][i] == specs[i];
    }
  }

  lemma PrefixedNone(r: Option<(seq<Entry>, seq<Byte>)>)
    ensures Prefixed([], r) == r
  {
    if r.Some? {
      assert [] + r.value.0 == r.value.0;
    }
  }

  function Prefixed(es: seq<Entry>, r: Option<(seq<Entry>, seq<Byte>)>): Option<(seq<Entry>, seq<Byte>)> {
    match r
    case None => None
    case Some((more, rest)) => Some((es + more, rest))
  }

  lemma PrefixedMore(es: seq<Entry>, e: Entry, r: Option<(seq<Entry>, seq<Byte>)>)
    ensures Prefixed(es + [e], r) == Prefixed(es, Prefixed([e], r))
  {
    if r.Some? {
      assert es + ([e] + r.value.0) == (es + [e]) + r.value.0;
    }
  }
}
