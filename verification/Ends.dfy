/** A whole end of the tunnel: StdioTunnelLocal after startHandshaking, or StdioTunnelRemote. */
module Ends {
  import opened Wire
  import opened Codec
  import opened Framing
  import opened Streams
  import opened SockBuffers
  import opened Polling
  import opened Watching
  import opened Links
  import opened Endpoint
  import opened Messages
  import opened Moves
  import T = Tunnel
  import Handshake

  /** No link and no buffer belongs to both connections. */
  ghost predicate Disjoint(c: TunnelConnection, d: TunnelConnection)
    reads c`linkMap, d`linkMap
  {
    DisjointMaps(c.linkMap, d.linkMap)
  }

  ghost predicate DisjointMaps(m: map<Short, ConnectionLink>, n: map<Short, ConnectionLink>) {
    forall k, j :: k in m && j in n ==>
      m[k] != n[j] && m[k].buffer != n[j].buffer && m[k].buffer.outputBuf != n[j].buffer.outputBuf
  }

  lemma DisjointBoth(c: TunnelConnection, d: TunnelConnection)
    requires Disjoint(c, d)
    ensures Disjoint(d, c)
  {}

  lemma FootprintsApart(c: TunnelConnection, d: TunnelConnection)
    requires Disjoint(c, d)
    ensures c.Footprint() !! d.Footprint()
  {
    hide ConnectionLink.ViewIn;
    forall o | o in d.Footprint() ensures o !in c.Footprint() {
      var k :| k in d.linkMap && o in {d.linkMap[k] as object, d.linkMap[k].buffer, d.linkMap[k].buffer.outputBuf};
      c.NotMine(d.linkMap[k]);
    }
  }

  /** A new link, if any, shares nothing with the other connection. */
  lemma StillDisjoint(c: TunnelConnection, d: TunnelConnection, f: LinkFrame, mine: map<Short, ConnectionLink>,
                      touched: object)
    requires c.Taken(f, mine, touched) && DisjointMaps(mine, d.linkMap)
    requires f.lid in c.linkMap && (f.lid !in mine || c.linkMap[f.lid] != mine[f.lid]) ==>
               PartsOf(c.linkMap[f.lid]) !! d.Footprint()
    ensures Disjoint(c, d)
  {
    forall k, j | k in c.linkMap && j in d.linkMap
      ensures c.linkMap[k] != d.linkMap[j] && c.linkMap[k].buffer != d.linkMap[j].buffer
      ensures c.linkMap[k].buffer.outputBuf != d.linkMap[j].buffer.outputBuf
    {
      assert d.linkMap[j] in d.Footprint() && d.linkMap[j].buffer in d.Footprint();
      assert d.linkMap[j].buffer.outputBuf in d.Footprint();
    }
  }

  /** poll() reports what was asked for, and errors. */
  function Within(answer: nat -> Events, es: seq<Node>): nat -> Events {
    (i: nat) =>
      if i < |es| then Asked(answer(i), es[i].events) else NOTHING
  }

  function Asked(a: Events, armed: Events): Events {
    Events(a.pin && armed.pin, a.pout && armed.pout, a.perr)
  }

  /** What poll() reports on an entry: input and room if the kernel has them and they are asked for, errors always. */
  predicate Reflects(report: Events, answer: Events, armed: Events) {
    && (report.pin <==> answer.pin && armed.pin)
    && (report.pout <==> answer.pout && armed.pout)
    && (report.perr <==> answer.perr)
  }

  lemma WithinIsAsked(answer: nat -> Events, es: seq<Node>)
    ensures forall i :: 0 <= i < |es| ==> Reflects(Within(answer, es)(i), answer(i), es[i].events)
  {}

  lemma AskWithin(answer: nat -> Events, es: seq<Node>)
    ensures forall i :: 0 <= i < |es| ==>
      (Within(answer, es)(i).pin ==> es[i].events.pin) && (Within(answer, es)(i).pout ==> es[i].events.pout)
  {
    WithinIsAsked(answer, es);
    hide Within;
  }

  /** After poll() every entry is as it was, and tells what the kernel has answered for it. */
  ghost predicate AllTold(es: seq<Node>, answer: nat -> Events, es': seq<Node>) {
    && |es'| == |es|
    && forall i :: 0 <= i < |es| ==>
         && es'[i] == es[i].(revents := es'[i].revents)
         && Reflects(es'[i].revents, answer(i), es[i].events)
  }

  lemma ReportedIsTold(es: seq<Node>, answer: nat -> Events)
    ensures AllTold(es, answer, Reported(es, Within(answer, es)))
  {
    WithinIsAsked(answer, es);
    hide Within, Reflects;
  }

  /** Every link in the Poller gets as its report the answer for its own entry, which stands at its place. */
  ghost predicate Relayed(cs: T.Conns, places: map<T.Key, nat>, es: seq<Node>, answer: nat -> Events,
                          reports: map<T.Key, Events>) {
    forall k :: T.SlotOf(cs, k).Some? && T.SlotOf(cs, k).value.registered ==>
      && k in reports && k in places && places[k] < |es|
      && es[places[k]].events == T.SlotOf(cs, k).value.events && reports[k] == answer(places[k])
  }

  /** The same in terms of what the link asks for. */
  ghost predicate Relays(cs: T.Conns, places: map<T.Key, nat>, answer: nat -> Events, reports: map<T.Key, Events>) {
    forall k :: T.SlotOf(cs, k).Some? && T.SlotOf(cs, k).value.registered ==>
      k in reports && k in places && Reflects(reports[k], answer(places[k]), T.SlotOf(cs, k).value.events)
  }

  lemma RelayedWithin(cs: T.Conns, due: set<T.Key>, places: map<T.Key, nat>, es: seq<Node>, answer: nat -> Events,
                      reports: map<T.Key, Events>)
    requires Relayed(cs, places, es, Within(answer, es), reports)
    ensures Relays(Faced(cs, due), places, answer, reports)
  {
    hide Faced;
    WithinIsAsked(answer, es);
    var seen := Faced(cs, due);
    forall k | T.SlotOf(seen, k).Some? && T.SlotOf(seen, k).value.registered
      ensures k in reports && k in places && Reflects(reports[k], answer(places[k]), T.SlotOf(seen, k).value.events)
    {
      FacedAt(cs, due, k);
    }
  }

  type LinkMap = map<Short, ConnectionLink>

  /** All links under their connection's and their own id. */
  ghost function Flatten(maps: map<Short, LinkMap>): map<T.Key, ConnectionLink> {
    map cid, lid | cid in maps && lid in maps[cid] :: T.Key(cid, lid) := maps[cid][lid]
  }

  ghost function WithLink(links: LinkMap, lid: Short, link: ConnectionLink): LinkMap {
    links[lid := link]
  }

  lemma FlattenMoved(maps: map<Short, LinkMap>, cid: Short, links: LinkMap, lid: Short)
    requires cid in maps
    requires forall l :: l != lid ==> (l in links <==> l in maps[cid]) && (l in links ==> links[l] == maps[cid][l])
    ensures var k, before, after := T.Key(cid, lid), Flatten(maps), Flatten(maps[cid := links]);
      && Moved(before, after, k)
      && (k in before <==> lid in maps[cid]) && (k in before ==> before[k] == maps[cid][lid])
      && (k in after <==> lid in links) && (k in after ==> after[k] == links[lid])
  {}

  /** No link writes from that array. */
  ghost predicate Clear(table: map<T.Key, ConnectionLink>, a: array<Byte>) {
    forall k :: k in table ==> table[k].buffer.outputBuf != a
  }

  lemma StillClear(before: map<T.Key, ConnectionLink>, after: map<T.Key, ConnectionLink>, k: T.Key, a: array<Byte>)
    requires Moved(before, after, k) && Clear(before, a)
    requires k in after ==> (k in before && after[k] == before[k]) || a !in PartsOf(after[k])
    ensures Clear(after, a)
  {}

  /** Whatever has happened under k, only `touched` may have gone. */
  lemma OnlyTouchedGoes(before: map<T.Key, ConnectionLink>, after: map<T.Key, ConnectionLink>, k: T.Key,
                        touched: object)
    requires Moved(before, after, k)
    requires k in before ==> (k in after && after[k] == before[k]) || before[k] == touched
    ensures LinksOf(before) - {touched} <= LinksOf(after)
    ensures k in after ==> after[k] as object in LinksOf(after)
  {
    forall k' | k' in before && before[k'] as object != touched ensures before[k'] as object in LinksOf(after) {
      assert k' in after;
    }
  }

  lemma LinkIsThere(table: map<T.Key, ConnectionLink>, k: T.Key)
    requires k in table
    ensures table[k] as object in LinksOf(table)
  {}

  /** An additional link shares nothing with the other connection. */
  lemma NewDisjoint(c: TunnelConnection, d: TunnelConnection, mine: LinkMap, lid: Short, link: ConnectionLink)
    requires c.linkMap == WithLink(mine, lid, link) && DisjointMaps(mine, d.linkMap) && PartsOf(link) !! d.Footprint()
    ensures Disjoint(c, d) && forall j :: j in d.linkMap ==> d.linkMap[j] != link
  {
    forall j | j in d.linkMap
      ensures d.linkMap[j] != link && d.linkMap[j].buffer != link.buffer
        && d.linkMap[j].buffer.outputBuf != link.buffer.outputBuf
    {
      assert {d.linkMap[j] as object, d.linkMap[j].buffer, d.linkMap[j].buffer.outputBuf} <= d.Footprint();
    }
  }

  /** Only what is filed under k may have changed. */
  ghost predicate Moved(before: map<T.Key, ConnectionLink>, after: map<T.Key, ConnectionLink>, k: T.Key) {
    forall k' :: k' != k ==> (k' in after <==> k' in before) && (k' in before ==> after[k'] == before[k'])
  }

  ghost function LinksOf(table: map<T.Key, ConnectionLink>): set<object> {
    set k | k in table :: table[k] as object
  }

  /** Every link the Poller holds is one of these. */
  ghost predicate HoldsOnly(es: seq<Node>, links: set<object>) {
    forall n :: n in es && n.polled is ConnectionLink ==> n.polled in links
  }

  /** Only entries of one object have changed, and if that is no longer one of the links the Poller has let it go. */
  lemma StillHoldsOnly(es: seq<Node>, es': seq<Node>, links: set<object>, links': set<object>, touched: object,
                       owner: object)
    requires HoldsOnly(es, links) && !(owner is ConnectionLink)
    requires Others(es, touched, owner) == Others(es', touched, owner)
    requires links - {touched} <= links'
    requires touched == owner || touched in links' || Absent(es', touched)
    ensures HoldsOnly(es', links')
  {
    forall n | n in es' && n.polled is ConnectionLink ensures n.polled in links' {
      if n.polled != touched {
        AmongOthers(es, touched, owner, n);
        AmongOthers(es', touched, owner, n);
      }
    }
  }

  lemma ReportedHolds(es: seq<Node>, answer: nat -> Events, links: set<object>)
    requires HoldsOnly(es, links)
    ensures HoldsOnly(Reported(es, answer), links)
  {
    forall n | n in Reported(es, answer) && n.polled is ConnectionLink ensures n.polled in links {
      var i :| 0 <= i < |es| && Reported(es, answer)[i] == n;
      assert es[i] in es;
    }
  }

  ghost function PlacesIn(table: map<T.Key, ConnectionLink>, es: seq<Node>): map<T.Key, nat> {
    map k | k in table && Find(es, table[k], table[k].socket) < |es| :: Find(es, table[k], table[k].socket)
  }

  lemma StillPlaced(table: map<T.Key, ConnectionLink>, es: seq<Node>, answer: nat -> Events, es': seq<Node>)
    requires AllTold(es, answer, es')
    ensures PlacesIn(table, es') == PlacesIn(table, es)
  {
    forall k | k in table ensures Find(es', table[k], table[k].socket) == Find(es, table[k], table[k].socket) {}
  }

  /** The entries are those of the map, in the order of its keys. */
  ghost predicate Specifies(specs: map<Short, ConnectionSpec>, es: seq<Entry>) {
    && (forall i :: 0 <= i < |es| ==> es[i].0 in specs && specs[es[i].0] == es[i].1)
    && (forall cid :: cid in specs ==> exists i :: 0 <= i < |es| && es[i].0 == cid)
    && (forall i, j :: 0 <= i < j < |es| ==> es[i].0 < es[j].0)
  }

  /** Every specification comes from an entry under its id. */
  ghost predicate SpecsFrom(specs: map<Short, ConnectionSpec>, es: seq<Entry>) {
    forall cid :: cid in specs ==> exists i :: 0 <= i < |es| && es[i] == (cid, specs[cid])
  }

  lemma SpecsFromMore(specs: map<Short, ConnectionSpec>, es: seq<Entry>, e: Entry)
    requires SpecsFrom(specs, es)
    ensures SpecsFrom(specs, es + [e]) && SpecsFrom(specs[e.0 := e.1], es + [e])
  {
    var es', specs' := es + [e], specs[e.0 := e.1];
    assert es'[|es|] == e;
    forall cid | cid in specs ensures exists i :: 0 <= i < |es'| && es'[i] == (cid, specs[cid]) {
      var i :| 0 <= i < |es| && es[i] == (cid, specs[cid]);
      assert es'[i] == es[i];
    }
    forall cid | cid in specs' ensures exists i :: 0 <= i < |es'| && es'[i] == (cid, specs'[cid]) {
      if cid == e.0 { assert es'[|es|] == (cid, specs'[cid]); }
    }
  }

  lemma OneMoreSpec(specs: map<Short, ConnectionSpec>, es: seq<Entry>, id: Short, spec: ConnectionSpec)
    requires Specifies(specs, es) && forall cid :: cid in specs ==> cid < id
    ensures Specifies(specs[id := spec], es + [(id, spec)])
  {
    var es', specs' := es + [(id, spec)], specs[id := spec];
    forall cid | cid in specs' ensures exists i :: 0 <= i < |es'| && es'[i].0 == cid {
      if cid == id {
        assert es'[|es|].0 == cid;
      } else {
        var i :| 0 <= i < |es| && es[i].0 == cid;
        assert es'[i].0 == cid;
      }
    }
  }

  /** Each connection asked for is there, under its place in the list and as asked for, unless it is to listen here
      (CONNECT) and cannot; and there are no others. */
  ghost predicate AllMade(made: map<Short, ConnectionSpec>, specs: seq<ConnectionSpec>, failed: set<Short>) {
    && (forall i: Short :: 0 <= i < |specs| ==>
          && (i in made <==> !(specs[i].direction == CONNECT && i in failed))
          && (i in made ==> made[i] == specs[i]))
    && (forall i :: i in made ==> 0 <= i < |specs|)
  }

  lemma SpecsAreAsked(made: map<Short, ConnectionSpec>, specs: seq<ConnectionSpec>, failed: set<Short>)
    requires |specs| <= 0x8000 && Specifies(made, Requested(specs, failed))
    ensures AllMade(made, specs, failed)
  {
    var es := Requested(specs, failed);
    RequestedExactly(specs, failed);
    hide Requested;
    forall i | i in made ensures 0 <= i < |specs| && made[i] == specs[i] && (i, specs[i]) in es {
      var j :| 0 <= j < |es| && es[j].0 == i;
      assert es[j] in es;
    }
    forall i: Short | 0 <= i < |specs| && (i, specs[i]) in es ensures i in made {
      var j :| 0 <= j < |es| && es[j] == (i, specs[i]);
      assert es[j].0 in made;
    }
  }

  ghost function IdAt(es: seq<Entry>, n: int): Short {
    if 0 <= n < |es| then es[n].0 else 0
  }

  /** Walking the map in the order of its keys, the n-th one found is the n-th entry. */
  lemma NextSpec(specs: map<Short, ConnectionSpec>, es: seq<Entry>, n: nat, id: Short)
    requires Specifies(specs, es) && n <= |es|
    requires forall i :: 0 <= i < n ==> es[i].0 < id
    requires forall i :: n <= i < |es| ==> id <= es[i].0
    ensures id in specs ==> n < |es| && es[n] == (id, specs[id]) && es[..n] + [es[n]] == es[..n + 1]
    ensures forall i :: (if id in specs then n + 1 else n) <= i < |es| ==> id + 1 <= es[i].0
  {
    if id in specs {
      var i :| 0 <= i < |es| && es[i].0 == id;
      assert n < i ==> IdAt(es, n) < IdAt(es, i);
    }
  }

  lemma OutIsPart(link: ConnectionLink)
    ensures (link.out as object) in PartsOf(link)
  {}

  class TunnelEnd {
    const atLocal: bool
    const reader: ReadStream
    const writer: CustomWriteStream
    var connections: map<Short, TunnelConnection>
    /** m_state == CONNECTED */
    var greeted: bool
    /** Of the entries that Poller::pollOnce has still to visit in the present round, those of links. */
    var due: set<T.Key>

    /** An end that has no connections yet; its owner is not a link, and no link is in the Poller. */
    constructor (atLocal: bool, reader: ReadStream, writer: CustomWriteStream)
      requires writer.Valid() && !(writer.owner is ConnectionLink) && HoldsOnly(writer.poller.polled, {})
      ensures connections == map[] && due == {} && Valid() && Shows(map[]) && Tidy() && BuffersApart()
      ensures this.atLocal == atLocal && this.reader == reader && this.writer == writer && !greeted
    {
      hide CustomWriteStream.Valid, Valid, Shows, HoldsOnly, BuffersApart, Tidy, Table, LinkMaps;
      this.atLocal, this.reader, this.writer, connections, greeted, due := atLocal, reader, writer, map[], false, {};
      new;
      NothingYet();
    }

    lemma NothingYet()
      requires connections == map[] && writer.Valid() && !(writer.owner is ConnectionLink)
      requires HoldsOnly(writer.poller.polled, {})
      ensures Valid() && Shows(map[]) && Tidy() && BuffersApart()
    {
      hide CustomWriteStream.Valid, Valid, Shows, HoldsOnly, BuffersApart;
      NothingMade({});
      BlankIsValid(T.MakeConns(atLocal, [], {}));
      BlankHasNoLinks(T.MakeConns(atLocal, [], {}));
    }

    // -------------------------------------------------------------- the objects and what they show

    ghost function LinkMaps(): map<Short, LinkMap>
      reads `connections, connections.Values
    {
      map cid | cid in connections :: connections[cid].linkMap
    }

    lemma TableAt(k: T.Key)
      ensures k in Table() <==> k.cid in connections && k.lid in connections[k.cid].linkMap
      ensures k in Table() ==> Table()[k] == connections[k.cid].linkMap[k.lid]
    {}

    lemma LinkMapsNow()
      ensures LinkMaps().Keys == connections.Keys
      ensures forall cid :: cid in connections ==> LinkMaps()[cid] == connections[cid].linkMap
    {}

    lemma LinkMapsAre(maps: map<Short, LinkMap>, cid: Short, links: LinkMap)
      requires cid in connections && maps.Keys == connections.Keys && connections[cid].linkMap == links
      requires forall j :: j in connections && j != cid ==> connections[j].linkMap == maps[j]
      ensures LinkMaps() == maps[cid := links]
    {}

    ghost function Table(): map<T.Key, ConnectionLink>
      reads `connections, connections.Values
    {
      Flatten(LinkMaps())
    }

    ghost function Links(): set<object>
      reads `connections, connections.Values
    {
      LinksOf(Table())
    }

    /** The sockets' sending directions, and what they have been given. */
    ghost function Outs(): set<object>
      reads `connections, connections.Values
    {
      set k | k in Table() :: Table()[k].out as object
    }

    ghost function Given(): Books
      reads `connections, connections.Values, Outs()
    {
      map k | k in Table() :: Table()[k].out.bytes
    }

    /** The Poller holds no link but those in the link maps. */
    ghost predicate Tidy()
      reads `connections, connections.Values, writer.poller
    {
      !(writer.owner is ConnectionLink) && HoldsOnly(writer.poller.polled, Links())
    }

    ghost function Objects(): set<object>
      reads `connections, connections.Values
    {
      (set cid | cid in connections :: connections[cid] as object)
      + (set cid, o | cid in connections && o in connections[cid].Footprint() :: o)
    }

    ghost predicate Valid()
      reads `connections, connections.Values, Objects(), writer, writer.stream, writer.stream.packets, writer.poller
    {
      && writer.Valid()
      && (forall cid :: cid in connections ==>
            IsMine(cid) && connections[cid].Valid())
      && (forall cid, j :: cid in connections && j in connections && cid != j ==>
            Disjoint(connections[cid], connections[j]))
    }

    /** The connections are, as values, those of cs. */
    ghost predicate Shows(cs: T.Conns)
      requires Valid()
      reads `connections, connections.Values, Objects(), writer, writer.stream, writer.stream.packets, writer.poller
    {
      && (forall cid: Short :: cid in connections <==> cid in cs)
      && (forall cid :: cid in connections ==> AsValue(connections[cid]) == cs[cid])
    }

    /** No link writes from the array the reader fills. */
    ghost predicate BuffersApart()
      reads `connections, connections.Values, reader`readBuf
    {
      Clear(Table(), reader.readBuf)
    }

    ghost function AsValue(c: TunnelConnection): T.Conn
      requires c.Valid()
      reads c, c.Footprint(), c.writer, c.writer.stream, c.writer.stream.packets, c.writer.poller
    {
      T.Conn(c.listening, c.ack, c.View(), c.nextId)
    }

    /** The connections as values. */
    ghost function Real(): T.Conns
      requires Valid()
      reads `connections, connections.Values, Objects(), writer, writer.stream, writer.stream.packets, writer.poller
    {
      map cid | cid in connections :: AsValue(connections[cid])
    }

    lemma RealShows()
      requires Valid()
      ensures Shows(Real()) && forall cs :: Shows(cs) ==> cs == Real()
    {
      hide TunnelConnection.Valid, TunnelConnection.View, CustomWriteStream.Valid, TunnelConnection.Footprint;
    }

    lemma SameKeys(cs: T.Conns)
      requires Valid() && Shows(cs)
      ensures forall cid: Short :: cid in connections <==> cid in cs
    {}

    /** This end is in the state that s gives it, as far as its present round of the Poller has got. */
    ghost predicate IsIn(s: T.System)
      reads this, connections.Values, Objects(), writer, writer.stream, writer.stream.packets, writer.poller, reader
    {
      && Valid() && BuffersApart() && Tidy()
      && Faced(Real(), due) == T.ConnsAt(s, atLocal) && (!atLocal ==> greeted == s.greeted)
    }

    /** What each open link's socket has been given is what s has recorded. */
    ghost predicate Ledger(s: T.System)
      reads this, connections.Values, Outs()
    {
      Booked(Given(), s, atLocal)
    }

    /** Everything this end is made of. */
    ghost function Repr(): set<object>
      reads this, connections.Values, reader`readBuf, writer.poller`pollfds
    {
      {this as object, reader, reader.readBuf, writer, writer.stream, writer.poller, writer.poller.pollfds}
      + Objects() + Outs()
    }

    lemma ReprHas()
      ensures {this as object, reader, reader.readBuf, writer, writer.stream} <= Repr()
      ensures {writer.poller as object, writer.poller.pollfds} <= Repr()
      ensures Objects() <= Repr() && Outs() <= Repr()
      ensures forall k :: k in Table() ==> PartsOf(Table()[k]) <= Repr()
      ensures forall cid :: cid in connections ==> (connections[cid] as object) in Repr()
      ensures forall o :: o in Repr() ==> allocated(o)
    {
      ObjectsAllocated();
      forall k | k in Table() ensures PartsOf(Table()[k]) <= Repr() {
        assert {Table()[k] as object, Table()[k].buffer, Table()[k].buffer.outputBuf} <= connections[k.cid].Footprint();
      }
    }

    /** As far as they are always the same objects. */
    lemma ReprHolds()
      ensures {this as object, reader, reader.readBuf, writer, writer.stream} <= Repr()
      ensures {writer.poller as object, writer.poller.pollfds} <= Repr()
      ensures Objects() <= Repr() && Outs() <= Repr()
      ensures forall cid :: cid in connections ==> (connections[cid] as object) in Repr()
      ensures forall o :: o in Repr() ==> allocated(o)
    {
      ReprHas();
    }

    lemma ReprIs(o: object)
      requires o in Repr()
      ensures || o in {this as object, reader, reader.readBuf, writer, writer.stream}
              || o in {writer.poller as object, writer.poller.pollfds}
              || (exists cid :: cid in connections && o == connections[cid])
              || (exists k :: k in Table() && o in PartsOf(Table()[k]))
    {
      hide TunnelConnection.Footprint, PartsOf;
      if cid :| cid in connections && o in connections[cid].Footprint() {
        var lid := connections[cid].FootprintIs(o);
        assert T.Key(cid, lid) in Table();
      } else if k :| k in Table() && o == Table()[k].out {
        OutIsPart(Table()[k]);
      }
    }

    /** Sockets are not changed on handling a message. */
    lemma OutsOutside()
      ensures forall k :: k in Table() ==>
        (Table()[k].out as object) !in Objects() && (Table()[k].out as object) in Outs() && allocated(Table()[k].out)
      ensures {this as object, reader, writer.poller} !! Objects()
    {
      NotAnObject(this);
      NotAnObject(reader);
      NotAnObject(writer.poller);
      forall k | k in Table()
        ensures (Table()[k].out as object) !in Objects() && (Table()[k].out as object) in Outs()
        ensures allocated(Table()[k].out)
      {
        NotAnObject(Table()[k].out);
      }
    }

    lemma GivenIs()
      ensures Given().Keys == Table().Keys && forall k :: k in Table() ==> Given()[k] == Table()[k].out.bytes
    {}

    lemma GivenMoved(k: T.Key, table: map<T.Key, ConnectionLink>, given: Books)
      requires Moved(table, Table(), k) && given.Keys == table.Keys
      requires forall k' :: k' in table ==> table[k'].out.bytes == given[k']
      ensures SameBut(given, Given(), k) && Given().Keys == Table().Keys
      ensures k in Table() ==> Given()[k] == Table()[k].out.bytes
    {}

    /** So every link the Poller holds is alive: it is in its connection's link map, open, and held once, at
        its own socket. */
    lemma HeldLinksAreAlive(n: Node)
      requires Valid() && Tidy() && n in writer.poller.polled && n.polled is ConnectionLink
      ensures exists k :: k in Table() && Table()[k] == n.polled && Table()[k].socket == n.fd && !Table()[k].closing
      ensures forall i, j :: 0 <= i < j < |writer.poller.polled| ==>
        !(writer.poller.polled[i].polled == n.polled && writer.poller.polled[j].polled == n.polled)
    {
      hide TunnelConnection.Valid, CustomWriteStream.Valid, Disjoint;
      var k :| k in Table() && Table()[k] == n.polled;
      assert connections[k.cid].Valid() && connections[k.cid].writer == writer;
      connections[k.cid].HeldOnce(k.lid, n);
    }

    /** tunnel.getReader().readShort() */
    method NextShort(ghost cs: T.Conns) returns (x: Short)
      requires Valid() && Shows(cs) && BuffersApart() && |reader.queue| >= 2
      modifies reader`queue
      ensures x == GetShort(old(reader.queue)) && reader.queue == old(reader.queue)[2..]
      ensures Valid() && Shows(cs) && BuffersApart()
    {
      hide GetShort, Valid, Shows, Objects, BuffersApart;
      NotAnObject(reader);
      ObjectsAllocated();
      x := reader.ReadShort();
    }

    /** reportError(getReader().readString()); the text goes to the user. */
    method NextString(ghost cs: T.Conns) returns (x: seq<Byte>)
      requires Valid() && Shows(cs) && BuffersApart() && GetString(reader.queue).Some?
      modifies reader`queue
      ensures GetString(old(reader.queue)) == Some((x, reader.queue))
      ensures Valid() && Shows(cs) && BuffersApart()
    {
      hide GetString, Valid, Shows, Objects, BuffersApart;
      NotAnObject(reader);
      ObjectsAllocated();
      x := reader.ReadString();
    }

    /** Only connections, links, buffers and their arrays are changed on handling a message. */
    lemma NotAnObject(o: object)
      requires !(o is TunnelConnection) && !(o is ConnectionLink) && !(o is SockBuffer) && !(o is array<Byte>)
      ensures o !in Objects()
    {
      hide TunnelConnection.Footprint;
      forall cid | cid in connections ensures o !in connections[cid].Footprint() {
        connections[cid].OutsideFootprint(o);
      }
    }

    lemma ObjectsAllocated()
      ensures forall o :: o in Objects() ==> allocated(o)
    {
      hide TunnelConnection.Footprint;
      forall cid | cid in connections ensures forall o :: o in connections[cid].Footprint() ==> allocated(o) {
        connections[cid].FootprintAllocated();
      }
    }

    /** m_connection_map[id]->processMessage(*this), for the message f */
    method ProcessMessage(cid: Short, socket: int, connected: bool, text: seq<Byte>, ghost cs: T.Conns,
                          ghost f: LinkFrame)
      returns (fault: Option<Fault>)
      requires Valid() && Shows(cs) && BuffersApart() && Tidy() && cid in connections
      requires GetLink(cs[cid].listening, reader.queue) == Some(f) && Awaited(cs, T.Key(cid, f.lid), f.msg)
      modifies reader`queue, Objects(), writer.stream`queue, writer.stream`packets, writer.stream`sent,
        writer.poller`polled, writer.poller`origSize, writer.poller`index, writer.poller`nextSerial
      ensures connections == old(connections) && greeted == old(greeted) && due == old(due) && BuffersApart() && Tidy()
      ensures var k := T.Key(cid, f.lid);
        var r := Receive(cs[cid].listening, T.SlotOf(cs, k), f.msg, connected);
        && fault == FaultOf(r)
        && (fault == None ==>
              && Valid() && Shows(T.SetSlot(cs, k, r.slot)) && reader.queue == f.rest
              && writer.stream.sent == old(writer.stream.sent)
                 + Errors(!atLocal && !cs[cid].listening && f.msg == Create && !connected, text)
                 + Payloads(cid, f.lid, r.replies))
      ensures var k := T.Key(cid, f.lid);
        && Moved(old(Table()), Table(), k)
        && (k in Table() ==>
              || (k in old(Table()) && Table()[k] == old(Table())[k])
              || (f.msg == Create && !cs[cid].listening && Table()[k].out.bytes == [] && Table()[k].socket == socket
                  && fresh(PartsOf(Table()[k]))))
    {
      hide GetLink, CustomWriteStream.Valid, TunnelConnection.Valid, TunnelConnection.View, TunnelConnection.Quiet,
        Receive, Payloads, Errors, Others, TunnelConnection.Footprint, OthersQuiet, SetAside, Disjoint, Clear,
        Flatten, LinkMaps, Valid, Shows, Objects, HoldsOnly, Absent, TunnelConnection.Taken, Awaited, PartsOf,
        T.SetSlot, DisjointMaps;
      SameKeys(cs);
      NotAnObject(reader);
      LinkMapsNow();
      TableAt(T.Key(cid, f.lid));
      ghost var es, touched, maps := writer.poller.polled, writer.owner, LinkMaps();
      ghost var k, r := T.Key(cid, f.lid),
        Receive(cs[cid].listening, T.SlotOf(cs, T.Key(cid, f.lid)), f.msg, connected);
      OthersAreQuiet(cid, cs);
      RequestsAreNew(cid, cs, f);
      fault, touched := TurnOne(cid, socket, connected, text, cs, f);
      TableAt(k);
      AfterTaken(cid, f, maps, es, touched);
      if fault == None {
        LiftSlot(k, es, touched, cs, r.slot);
      }
    }

    /** What has become of the table, the buffers and the Poller once the message f has been handled. */
    lemma AfterTaken(cid: Short, f: LinkFrame, maps: map<Short, LinkMap>, es: seq<Node>, touched: object)
      requires cid in connections && cid in maps && LinkMaps() == maps[cid := connections[cid].linkMap]
      requires connections[cid].writer == writer && connections[cid].Taken(f, maps[cid], touched)
      requires f.msg == Create && !connections[cid].listening ==> f.lid !in maps[cid]
      requires var links := connections[cid].linkMap;
        f.lid in links && (f.lid !in maps[cid] || links[f.lid] != maps[cid][f.lid]) ==>
          reader.readBuf !in PartsOf(links[f.lid])
      requires Clear(Flatten(maps), reader.readBuf) && HoldsOnly(es, LinksOf(Flatten(maps)))
      requires !(writer.owner is ConnectionLink)
      requires Others(es, touched, writer.owner) == Others(writer.poller.polled, touched, writer.owner)
      ensures BuffersApart() && Tidy()
      ensures var k, before := T.Key(cid, f.lid), Flatten(maps);
        && Moved(before, Table(), k)
        && (k in Table() ==>
              && Table()[k] == connections[cid].linkMap[f.lid]
              && ((k in before && Table()[k] == before[k])
                  || (f.lid !in maps[cid] && f.msg == Create && !connections[cid].listening
                    && Table()[k].out.bytes == [])))
    {
      hide Flatten, Clear, HoldsOnly, LinksOf, PartsOf, Others, Absent;
      var k, before := T.Key(cid, f.lid), Flatten(maps);
      FlattenMoved(maps, cid, connections[cid].linkMap, f.lid);
      StillClear(before, Table(), k, reader.readBuf);
      OnlyTouchedGoes(before, Table(), k, touched);
      StillAccounted(cid, touched);
      StillHoldsOnly(es, writer.poller.polled, LinksOf(before), Links(), touched, writer.owner);
    }

    lemma StillAccounted(cid: Short, touched: object)
      requires cid in connections && connections[cid].writer == writer && connections[cid].Accounted(touched)
      ensures touched == writer.owner || touched in Links() || Absent(writer.poller.polled, touched)
    {
      hide Absent;
      if lid :| lid in connections[cid].linkMap && connections[cid].linkMap[lid] == touched {
        assert T.Key(cid, lid) in Table();
      }
    }

    lemma RequestsAreNew(cid: Short, cs: T.Conns, f: LinkFrame)
      requires Valid() && Shows(cs) && cid in connections && Awaited(cs, T.Key(cid, f.lid), f.msg)
      ensures f.msg == Create && !cs[cid].listening ==> f.lid !in connections[cid].linkMap
      ensures var c := connections[cid];
        && c.listening == cs[cid].listening
        && (c.listening && f.msg.CreateReply? && f.lid in c.View() ==>
              !c.View()[f.lid].registered && !c.View()[f.lid].closing)
    {
      hide CustomWriteStream.Valid, TunnelConnection.Valid, ConnectionLink.View, Disjoint;
    }

    /** The same, saying of the other connections only that nothing of theirs has been touched. */
    method TurnOne(cid: Short, socket: int, connected: bool, text: seq<Byte>, ghost cs: T.Conns, ghost f: LinkFrame)
      returns (fault: Option<Fault>, ghost touched: object)
      requires Valid() && Shows(cs) && cid in connections
      requires OthersQuiet(cid, writer.poller.polled, cs)
      requires GetLink(cs[cid].listening, reader.queue) == Some(f) && Awaited(cs, T.Key(cid, f.lid), f.msg)
      modifies reader`queue, Objects(), writer.stream`queue, writer.stream`packets, writer.stream`sent,
        writer.poller`polled, writer.poller`origSize, writer.poller`index, writer.poller`nextSerial
      ensures connections == old(connections) && greeted == old(greeted) && due == old(due) && IsMine(cid)
      ensures var c := connections[cid];
        var r := Receive(c.listening, Slot(cs[cid].links, f.lid), f.msg, connected);
        && fault == FaultOf(r)
        && (fault == None ==>
              && c.Valid() && reader.queue == f.rest
              && AsValue(c) == cs[cid].(links := c.View())
              && c.Reacted(r, f.lid, cs[cid].links, c.View(), old(writer.stream.sent), writer.stream.sent,
                           Errors(c.atRemote && !c.listening && f.msg == Create && !connected, text)))
      ensures LinkMaps() == old(LinkMaps())[cid := connections[cid].linkMap]
      ensures connections[cid].Taken(f, old(connections[cid].linkMap), touched)
      ensures var c := connections[cid];
        f.lid in c.linkMap && (f.lid !in old(c.linkMap) || c.linkMap[f.lid] != old(c.linkMap)[f.lid]) ==>
          fresh(PartsOf(c.linkMap[f.lid])) && c.linkMap[f.lid].socket == socket
      ensures OthersQuiet(cid, old(writer.poller.polled), cs) && SetAside(cid, touched)
      ensures Others(old(writer.poller.polled), touched, writer.owner)
        == Others(writer.poller.polled, touched, writer.owner)
    {
      hide BuffersApart, GetLink, CustomWriteStream.Valid, TunnelConnection.Valid, TunnelConnection.View,
        TunnelConnection.Quiet, Receive, Payloads, Errors, Others, TunnelConnection.Footprint,
        TunnelConnection.Reacted, Valid, Shows, Objects, TunnelConnection.Taken, PartsOf, Awaited, DisjointMaps,
        LinkMaps;
      LinkMapsNow();
      ghost var maps := LinkMaps();
      ghost var es, c, mine := writer.poller.polled, connections[cid], connections[cid].linkMap;
      ConnectionAt(cid, cs);
      SeparateFrom(cid);
      OneOfObjects(cid);
      RequestsAreNew(cid, cs, f);
      fault, touched := connections[cid].ProcessMessage(reader, socket, connected, text);
      forall j | j in connections && j != cid
        ensures connections[j].Quiet(es, cs[j].links) && Untouched(connections[j], touched)
        ensures connections[j].linkMap == old(connections[j].linkMap) && Disjoint(c, connections[j])
      {
        var d := connections[j];
        assert d.Footprint() == old(d.Footprint());
        d.QuietAvoidsOwner(es, cs[j].links);
        ForeignLinks(mine, d, touched);
        StillDisjoint(c, d, f, mine, touched);
      }
      LinkMapsAre(maps, cid, connections[cid].linkMap);
    }

    /** Nothing of the other connections is the object touched, or belongs to the connection cid as well. */
    ghost predicate SetAside(cid: Short, touched: object)
      requires cid in connections
      reads `connections, connections.Values
    {
      forall j :: j in connections && j != cid ==>
        Untouched(connections[j], touched) && Disjoint(connections[cid], connections[j])
    }

    /** One connection has changed, the others have been left alone. */
    lemma Lift(cid: Short, es: seq<Node>, touched: object, cs: T.Conns, cs': T.Conns)
      requires cid in connections && IsMine(cid) && connections[cid].Valid() && OthersQuiet(cid, es, cs)
      requires Others(es, touched, writer.owner) == Others(writer.poller.polled, touched, writer.owner)
      requires SetAside(cid, touched)
      requires cs'.Keys == cs.Keys && cid in cs && cs'[cid] == AsValue(connections[cid])
      requires forall j :: j in cs && j != cid ==> cs'[j] == cs[j]
      requires forall j: Short :: j in connections <==> j in cs
      ensures Valid() && Shows(cs')
    {
      hide CustomWriteStream.Valid, TunnelConnection.View, TunnelConnection.Quiet, Others, TunnelConnection.Footprint,
        TunnelConnection.Valid, DisjointMaps;
      connections[cid].WriterIsValid();
      forall j | j in connections && j != cid
        ensures connections[j].Valid() && connections[j].View() == cs[j].links
        ensures Disjoint(connections[j], connections[cid])
      {
        connections[j].Undisturbed(es, touched, cs[j].links);
        DisjointBoth(connections[cid], connections[j]);
      }
    }

    lemma LiftSlot(k: T.Key, es: seq<Node>, touched: object, cs: T.Conns, slot: Option<Link>)
      requires k.cid in connections && IsMine(k.cid) && connections[k.cid].Valid() && OthersQuiet(k.cid, es, cs)
      requires Others(es, touched, writer.owner) == Others(writer.poller.polled, touched, writer.owner)
      requires SetAside(k.cid, touched)
      requires forall j: Short :: j in connections <==> j in cs
      requires AsValue(connections[k.cid]) == cs[k.cid].(links := match slot
                                                         case None => cs[k.cid].links - {k.lid}
                                                         case Some(l) => cs[k.cid].links[k.lid := l])
      ensures Valid() && Shows(T.SetSlot(cs, k, slot))
    {
      hide Valid, Shows, TunnelConnection.Valid, OthersQuiet, SetAside, Others, TunnelConnection.View;
      Lift(k.cid, es, touched, cs, T.SetSlot(cs, k, slot));
    }

    ghost predicate Untouched(c: TunnelConnection, touched: object)
      reads c`linkMap
    {
      forall k :: k in c.linkMap ==> c.linkMap[k] as object != touched
    }

    lemma LinkIsForeign(c: TunnelConnection, d: TunnelConnection, lid: Short)
      requires Disjoint(c, d) && lid in c.linkMap
      ensures Untouched(d, c.linkMap[lid])
    {}

    lemma ForeignLinks(mine: map<Short, ConnectionLink>, d: TunnelConnection, touched: object)
      requires DisjointMaps(mine, d.linkMap)
      ensures (exists k :: k in mine && touched == mine[k]) ==> Untouched(d, touched)
    {}

    /** All connections but one are as cs says if the Poller is as `es` says, and share nothing with that one. */
    ghost predicate OthersQuiet(cid: Short, es: seq<Node>, cs: T.Conns)
      reads `connections, connections.Values, Objects()
    {
      forall j :: j in connections && j != cid ==>
        && j in cs && IsMine(j)
        && connections[j].Quiet(es, cs[j].links)
        && T.Conn(connections[j].listening, connections[j].ack, cs[j].links, connections[j].nextId) == cs[j]
        && (forall i :: i in connections && i != cid && i != j ==> Disjoint(connections[i], connections[j]))
    }

    predicate IsMine(cid: Short)
      requires cid in connections
      reads `connections
    {
      connections[cid].id == cid && connections[cid].writer == writer && connections[cid].atRemote == !atLocal
    }

    lemma ConnectionAt(cid: Short, cs: T.Conns)
      requires Valid() && Shows(cs) && cid in connections
      ensures var c := connections[cid];
        && c.id == cid && c.writer == writer && c.atRemote == !atLocal && c.Valid() && AsValue(c) == cs[cid]
      ensures forall j :: j in connections && j != cid ==>
        connections[j] != connections[cid] && connections[j].writer == writer
          && Disjoint(connections[cid], connections[j])
    {
      hide TunnelConnection.Valid, TunnelConnection.View, Disjoint, CustomWriteStream.Valid;
    }

    lemma OneOfObjects(cid: Short)
      requires cid in connections
      ensures (connections[cid] as object) in Objects() && connections[cid].Footprint() <= Objects()
    {
      hide TunnelConnection.Footprint;
    }

    /** What one connection may change is apart from this object, its connections and their footprints. */
    lemma SeparateFrom(cid: Short)
      requires cid in connections
      requires forall j :: j in connections && j != cid ==> Disjoint(connections[cid], connections[j])
      ensures (this as object) !in connections[cid].Footprint()
      ensures forall j :: j in connections ==> (connections[j] as object) !in connections[cid].Footprint()
      ensures forall j, o :: j in connections && o in connections[j].Footprint() ==> allocated(o)
      ensures forall j :: j in connections && j != cid ==> connections[cid].Footprint() !! connections[j].Footprint()
      ensures forall j :: j in connections ==>
        {reader as object, writer.stream, writer.poller, connections[cid]} !! connections[j].Footprint()
    {
      hide TunnelConnection.Footprint, Disjoint;
      var c := connections[cid];
      c.OutsideFootprint(this);
      forall j | j in connections
        ensures (connections[j] as object) !in c.Footprint()
        ensures forall o :: o in connections[j].Footprint() ==> allocated(o)
        ensures j != cid ==> c.Footprint() !! connections[j].Footprint()
        ensures {reader as object, writer.stream, writer.poller, c} !! connections[j].Footprint()
      {
        c.OutsideFootprint(connections[j]);
        connections[j].FootprintAllocated();
        if j != cid { FootprintsApart(c, connections[j]); }
        connections[j].OutsideFootprint(reader);
        connections[j].OutsideFootprint(writer.stream);
        connections[j].OutsideFootprint(writer.poller);
        connections[j].OutsideFootprint(c);
      }
    }

    lemma OthersAreQuiet(cid: Short, cs: T.Conns)
      requires Valid() && Shows(cs) && cid in connections
      ensures OthersQuiet(cid, writer.poller.polled, cs)
    {
      hide CustomWriteStream.Valid, TunnelConnection.Valid, TunnelConnection.View, TunnelConnection.Quiet,
        TunnelConnection.Footprint;
      forall j | j in connections && j != cid ensures connections[j].Quiet(writer.poller.polled, cs[j].links) {
        connections[j].QuietNow();
      }
    }

    // -------------------------------------------------------------- the other callbacks

    /** The sockets of different links are different, and none changes on handling a message. */
    lemma OutsApart(k: T.Key)
      requires Valid() && k in Table()
      ensures forall k' :: k' in Table() && k' != k ==> Table()[k'].out != Table()[k].out
      ensures forall k' :: k' in Table() ==> (Table()[k'].out as object) !in Objects()
    {
      hide CustomWriteStream.Valid, TunnelConnection.Footprint, TunnelConnection.Valid, Objects;
      forall k' | k' in Table() ensures k' != k ==> Table()[k'].out != Table()[k].out
        ensures (Table()[k'].out as object) !in Objects()
      {
        NotAnObject(Table()[k'].out);
        connections[k.cid].Inside(k.lid);
        connections[k'.cid].Inside(k'.lid);
        if k'.cid != k.cid { assert Disjoint(connections[k.cid], connections[k'.cid]); }
      }
    }

    /** ListenSide::polled, in an end with other connections: the accept of module Tunnel. */
    method Accept(cid: Short, socket: int, ghost s: T.System) returns (ghost s': T.System)
      requires IsIn(s) && T.Inv(s) && T.Permitted(s, T.Accept(atLocal, cid))
      modifies Objects(), writer.stream`queue, writer.stream`packets, writer.stream`sent, writer.poller`polled
      ensures T.Step(s, T.Accept(atLocal, cid)) == T.Running(s') && T.Inv(s') && IsIn(s')
      ensures old(Ledger(s)) ==> Ledger(s')
      ensures Answered(s, atLocal, s', old(writer.stream.sent), writer.stream.sent)
      ensures Fits(writer.stream.sent[|old(writer.stream.sent)|..], MAX_PAYLOAD)
      ensures fresh(Repr() - old(Repr()))
      ensures var k := T.NextKey(T.ConnsAt(s, atLocal), cid);
        Moved(old(Table()), Table(), k) && k in Table() && Table()[k].socket == socket
    {
      hide IsIn, T.Inv, T.Permitted, Answered, T.Step, Objects, Outs, Repr, Table, Booked, Fits, PartsOf, ToShort,
        T.AcceptAt;
      ghost var table, given, repr := Table(), Given(), Repr();
      PermittedIsFree(s, atLocal, cid);
      ghost var k := T.NextKey(T.ConnsAt(s, atLocal), cid);
      ReprHas();
      OutsOutside();
      GivenIs();
      s' := AcceptLink(cid, socket, s);
      assert forall k' :: k' in table ==> table[k'].out.bytes == given[k'];
      GivenMoved(k, table, given);
      if Booked(given, s, atLocal) {
        AcceptBooked(s, atLocal, cid, given, Given());
      }
      forall o | o in Repr() && o !in repr ensures fresh(o) {
        ReprIs(o);
      }
    }

    /** The same, saying what became of the links instead of what their sockets have been given. */
    method AcceptLink(cid: Short, socket: int, ghost s: T.System) returns (ghost s': T.System)
      requires IsIn(s) && T.Inv(s) && T.Permitted(s, T.Accept(atLocal, cid))
      modifies Objects(), writer.stream`queue, writer.stream`packets, writer.stream`sent, writer.poller`polled
      ensures connections == old(connections) && due == old(due)
      ensures s' == T.AcceptAt(s, atLocal, cid)
      ensures IsIn(s') && T.Inv(s') && T.Step(s, T.Accept(atLocal, cid)) == T.Running(s')
      ensures Answered(s, atLocal, s', old(writer.stream.sent), writer.stream.sent)
      ensures Fits(writer.stream.sent[|old(writer.stream.sent)|..], MAX_PAYLOAD)
      ensures var k := T.NextKey(T.ConnsAt(s, atLocal), cid);
        && Moved(old(Table()), Table(), k)
        && k in Table() && Table()[k].out.bytes == [] && Table()[k].socket == socket
            && fresh(PartsOf(Table()[k]))
    {
      hide Valid, Shows, BuffersApart, Objects, T.Inv, T.Permitted, Answered, T.Step, Faced, Real, Tidy, T.Accepted,
        Payloads, PartsOf, ToShort, Table, Moved, Fits;
      ghost var cs, sent0 := Real(), writer.stream.sent;
      RealShows();
      FacedKeeps(cs, due);
      AcceptIs(s, atLocal, cid, sent0);
      PermittedIsFree(s, atLocal, cid);
      FacedAccepted(cs, due, cid);
      SentSince(sent0, Payloads(cid, ToShort(cs[cid].nextId), [Create]));
      Admit(cid, socket, cs);
      s' := T.AcceptAt(s, atLocal, cid);
      RealShows();
    }

    /** The same on the values of the connections. */
    method Admit(cid: Short, socket: int, ghost cs: T.Conns)
      requires Valid() && Shows(cs) && BuffersApart() && Tidy()
      requires cid in cs && cs[cid].listening && ToShort(cs[cid].nextId) !in cs[cid].links
      modifies Objects(), writer.stream`queue, writer.stream`packets, writer.stream`sent, writer.poller`polled
      ensures connections == old(connections) && greeted == old(greeted) && due == old(due)
      ensures Valid() && Shows(T.Accepted(cs, cid)) && BuffersApart() && Tidy()
      ensures writer.stream.sent == old(writer.stream.sent) + Payloads(cid, ToShort(cs[cid].nextId), [Create])
      ensures var k := T.NextKey(cs, cid);
        && Moved(old(Table()), Table(), k)
        && k in Table() && Table()[k].out.bytes == [] && Table()[k].socket == socket
            && fresh(PartsOf(Table()[k]))
    {
      hide Valid, Shows, Clear, Flatten, LinkMaps, Objects, OthersQuiet, SetAside, Others, IsMine, T.Accepted,
        Payloads, Absent, PartsOf, HoldsOnly, ToShort, LinksOf, WithLink;
      SameKeys(cs);
      NotAnObject(reader);
      LinkMapsNow();
      NextIsNew(cid, cs);
      OthersAreQuiet(cid, cs);
      ghost var es, maps := writer.poller.polled, LinkMaps();
      ghost var link := AcceptOne(cid, socket, cs);
      LiftAccepted(cid, es, link, cs);
      AfterAccepted(T.NextKey(cs, cid), maps, link, es);
    }

    lemma AfterAccepted(k: T.Key, maps: map<Short, LinkMap>, link: ConnectionLink, es: seq<Node>)
      requires k.cid in maps && LinkMaps() == maps[k.cid := WithLink(maps[k.cid], k.lid, link)] && k.lid !in maps[k.cid]
      requires Clear(Flatten(maps), reader.readBuf) && HoldsOnly(es, LinksOf(Flatten(maps)))
      requires reader.readBuf !in PartsOf(link) && !(writer.owner is ConnectionLink)
      requires Others(es, link, writer.owner) == Others(writer.poller.polled, link, writer.owner)
      ensures BuffersApart() && Tidy()
      ensures Moved(Flatten(maps), Table(), k) && k in Table() && Table()[k] == link
    {
      hide Flatten, Clear, HoldsOnly, LinksOf, PartsOf, Others, Absent;
      FlattenMoved(maps, k.cid, WithLink(maps[k.cid], k.lid, link), k.lid);
      StillClear(Flatten(maps), Table(), k, reader.readBuf);
      OnlyTouchedGoes(Flatten(maps), Table(), k, link);
      StillHoldsOnly(es, writer.poller.polled, LinksOf(Flatten(maps)), Links(), link, writer.owner);
    }

    lemma LiftAccepted(cid: Short, es: seq<Node>, touched: object, cs: T.Conns)
      requires cid in connections && IsMine(cid) && connections[cid].Valid() && OthersQuiet(cid, es, cs)
      requires Others(es, touched, writer.owner) == Others(writer.poller.polled, touched, writer.owner)
      requires SetAside(cid, touched)
      requires forall j: Short :: j in connections <==> j in cs
      requires AsValue(connections[cid])
               == cs[cid].(links := cs[cid].links[ToShort(cs[cid].nextId) := FRESH], nextId := cs[cid].nextId + 1)
      ensures Valid() && Shows(T.Accepted(cs, cid))
    {
      hide Valid, Shows, TunnelConnection.Valid, OthersQuiet, SetAside, Others, TunnelConnection.View, ToShort;
      Lift(cid, es, touched, cs, T.Accepted(cs, cid));
    }

    lemma NextIsNew(cid: Short, cs: T.Conns)
      requires Valid() && Shows(cs) && cid in connections && ToShort(cs[cid].nextId) !in cs[cid].links
      ensures ToShort(cs[cid].nextId) !in connections[cid].linkMap
    {
      hide CustomWriteStream.Valid, TunnelConnection.Valid, ConnectionLink.View, Disjoint, ToShort;
    }

    method AcceptOne(cid: Short, socket: int, ghost cs: T.Conns) returns (ghost link: ConnectionLink)
      requires Valid() && Shows(cs) && cid in connections && cs[cid].listening
      requires OthersQuiet(cid, writer.poller.polled, cs)
      modifies Objects(), writer.stream`queue, writer.stream`packets, writer.stream`sent, writer.poller`polled
      ensures connections == old(connections) && greeted == old(greeted) && due == old(due) && IsMine(cid)
      ensures var c, lid := connections[cid], ToShort(cs[cid].nextId);
        && c.Valid()
        && AsValue(c) == cs[cid].(links := cs[cid].links[lid := FRESH], nextId := cs[cid].nextId + 1)
        && writer.stream.sent == old(writer.stream.sent) + Payloads(cid, lid, [Create])
      ensures fresh(PartsOf(link)) && link.out.bytes == [] && link.socket == socket
      ensures LinkMaps() == old(LinkMaps())[cid := WithLink(old(LinkMaps())[cid], ToShort(cs[cid].nextId), link)]
      ensures OthersQuiet(cid, old(writer.poller.polled), cs) && SetAside(cid, link)
      ensures Others(old(writer.poller.polled), link, writer.owner) == Others(writer.poller.polled, link, writer.owner)
    {
      hide CustomWriteStream.Valid, TunnelConnection.Valid, TunnelConnection.View, TunnelConnection.Quiet,
        Payloads, Others, TunnelConnection.Footprint, Valid, Shows, Objects, ToShort, LinkMaps, DisjointMaps, PartsOf;
      LinkMapsNow();
      ghost var es, maps := writer.poller.polled, LinkMaps();
      var c := connections[cid];
      ghost var lid := ToShort(c.nextId);
      ConnectionAt(cid, cs);
      SeparateFrom(cid);
      OneOfObjects(cid);
      link := c.Accept(socket);
      forall j | j in connections && j != cid
        ensures connections[j].Quiet(es, cs[j].links) && Untouched(connections[j], link)
        ensures connections[j].linkMap == old(connections[j].linkMap) && Disjoint(c, connections[j])
      {
        assert connections[j].Footprint() == old(connections[j].Footprint());
        NewDisjoint(c, connections[j], maps[cid], lid, link);
      }
      LinkMapsAre(maps, cid, WithLink(maps[cid], lid, link));
    }

    /** ConnectionLink::polled for one link the round has still to visit: the link's step of module Tunnel. */
    method PollLink(k: T.Key, ready: Events, rd: ReadResult, count: nat, ghost s: T.System)
      returns (ghost s': T.System, ghost n: nat)
      requires IsIn(s) && T.Inv(s) && k in Table() && k in due && ready != NOTHING
      requires var slot := T.SlotOf(T.ConnsAt(s, atLocal), k);
        slot.Some? && slot.value.registered && slot.value.revents == ready
      requires rd.Bytes? ==> 0 < |rd.data| <= MAX_DATA
      modifies `due, Objects(), Table()[k].out, writer.stream`queue, writer.stream`packets, writer.stream`sent,
        writer.poller`polled, writer.poller`origSize, writer.poller`index
      ensures T.Permitted(s, T.LinkPolled(atLocal, k, rd, n)) && T.Inv(s') && IsIn(s')
      ensures T.Step(s, T.LinkPolled(atLocal, k, rd, n)) == T.Running(s')
      ensures due == old(due) - {k} && (old(Ledger(s)) ==> Ledger(s'))
      ensures Answered(s, atLocal, s', old(writer.stream.sent), writer.stream.sent)
      ensures Fits(writer.stream.sent[|old(writer.stream.sent)|..], MAX_PAYLOAD)
      ensures WritesSome(T.SlotOf(T.ConnsAt(s, atLocal), k).value, rd, count, n)
      ensures Repr() <= old(Repr())
    {
      hide T.Inv, T.Permitted, Answered, T.Step, Objects, Outs, Repr, Table, Booked, Fits, Polled, T.LinkPolledAt,
        Faced, Real, Tidy, BuffersApart, Shows, Valid, PartsOf, WritesSome;
      ghost var table, given, repr := Table(), Given(), Repr();
      ReprHas();
      OutsApart(k);
      OutsOutside();
      GivenIs();
      s', n := TurnLink(k, ready, rd, count, s);
      assert forall k' :: k' in table && k' != k ==> table[k'].out.bytes == given[k'];
      GivenTurned(k, table, given);
      if Booked(given, s, atLocal) {
        PermittedIsEnabled(s, T.LinkPolled(atLocal, k, rd, n));
        LinkPolledBooked(s, atLocal, k, rd, n, given, Given());
      }
      forall o | o in Repr() ensures o in repr {
        ReprIs(o);
      }
    }

    lemma GivenTurned(k: T.Key, table: map<T.Key, ConnectionLink>, given: Books)
      requires table == Table() && given.Keys == table.Keys && k in table
      requires forall k' :: k' in table && k' != k ==> table[k'].out.bytes == given[k']
      ensures SameBut(given, Given(), k) && k in Given() && Given()[k] == Table()[k].out.bytes
    {}

    /** The same, saying what this socket has been given. */
    method TurnLink(k: T.Key, ready: Events, rd: ReadResult, count: nat, ghost s: T.System)
      returns (ghost s': T.System, ghost n: nat)
      requires IsIn(s) && T.Inv(s) && k in Table() && k in due && ready != NOTHING
      requires var slot := T.SlotOf(T.ConnsAt(s, atLocal), k);
        slot.Some? && slot.value.registered && slot.value.revents == ready
      requires rd.Bytes? ==> 0 < |rd.data| <= MAX_DATA
      modifies `due, Objects(), Table()[k].out, writer.stream`queue, writer.stream`packets, writer.stream`sent,
        writer.poller`polled, writer.poller`origSize, writer.poller`index
      ensures connections == old(connections) && due == old(due) - {k} && Table() == old(Table())
      ensures s' == T.LinkPolledAt(s, atLocal, k, rd, n)
      ensures T.Permitted(s, T.LinkPolled(atLocal, k, rd, n)) && T.Inv(s') && IsIn(s')
      ensures T.Step(s, T.LinkPolled(atLocal, k, rd, n)) == T.Running(s')
      ensures Answered(s, atLocal, s', old(writer.stream.sent), writer.stream.sent)
      ensures Fits(writer.stream.sent[|old(writer.stream.sent)|..], MAX_PAYLOAD)
      ensures Table()[k].out.bytes == old(Table()[k].out.bytes)
        + Polled(T.SlotOf(T.ConnsAt(s, atLocal), k).value, T.ConnsAt(s, atLocal)[k.cid].ack, rd, n).wrote
      ensures WritesSome(T.SlotOf(T.ConnsAt(s, atLocal), k).value, rd, count, n)
    {
      hide Valid, Shows, BuffersApart, Objects, T.Inv, Answered, T.Step, Faced, Real, Tidy, Payloads, Polled, Table,
        T.SetSlot, Fits, WritesSome;
      ghost var cs, sent0 := Real(), writer.stream.sent;
      RealShows();
      FacedKeeps(cs, due);
      FacedAt(cs, due, k);
      n := VisitLink(k, ready, rd, count, cs);
      LinkPolledIs(s, atLocal, k, rd, n, sent0);
      s' := T.LinkPolledAt(s, atLocal, k, rd, n);
      ghost var t := Polled(cs[k.cid].links[k.lid], cs[k.cid].ack, rd, n);
      FacedSet(cs, due, due - {k}, k, Some(t.link));
      RealShows();
      SentSince(sent0, Payloads(k.cid, k.lid, t.sends));
      NotAnObject(this);
      due := due - {k};
    }

    /** The same on the values of the connections: link, packets and socket traffic are those of Links.Polled,
        and all other links of all connections stay as they are. */
    method VisitLink(k: T.Key, ready: Events, rd: ReadResult, count: nat, ghost cs: T.Conns) returns (ghost n: nat)
      requires Valid() && Shows(cs) && BuffersApart() && Tidy() && k in Table()
      requires T.SlotOf(cs, k).Some? && T.SlotOf(cs, k).value.registered && T.SlotOf(cs, k).value.revents == ready
      requires rd.Bytes? ==> 0 < |rd.data| <= MAX_DATA
      modifies Objects(), Table()[k].out, writer.stream`queue, writer.stream`packets, writer.stream`sent,
        writer.poller`polled, writer.poller`origSize, writer.poller`index
      ensures connections == old(connections) && greeted == old(greeted) && due == old(due) && Table() == old(Table())
      ensures var t := Polled(cs[k.cid].links[k.lid], cs[k.cid].ack, rd, n);
        && Valid() && Shows(T.SetSlot(cs, k, Some(t.link))) && BuffersApart() && Tidy()
        && writer.stream.sent == old(writer.stream.sent) + Payloads(k.cid, k.lid, t.sends)
        && Table()[k].out.bytes == old(Table()[k].out.bytes) + t.wrote
      ensures WritesSome(cs[k.cid].links[k.lid], rd, count, n)
    {
      hide CustomWriteStream.Valid, TunnelConnection.Valid, TunnelConnection.View, Polled, Payloads, Others, Valid,
        Shows, Objects, OthersQuiet, SetAside, Clear, Flatten, LinkMaps, LinksOf, HoldsOnly, Absent, T.SetSlot,
        WritesSome;
      ghost var es := writer.poller.polled;
      SameKeys(cs);
      NotAnObject(reader);
      TableAt(k);
      NotAnObject(this);
      OthersAreQuiet(k.cid, cs);
      ghost var link, before := Table()[k], Table();
      n := VisitOne(k.cid, k.lid, ready, rd, count, cs);
      LiftSlot(k, es, link, cs, Some(Polled(cs[k.cid].links[k.lid], cs[k.cid].ack, rd, n).link));
      LinkIsThere(before, k);
      StillHoldsOnly(es, writer.poller.polled, LinksOf(before), Links(), link, writer.owner);
    }

    method VisitOne(cid: Short, lid: Short, ready: Events, rd: ReadResult, count: nat, ghost cs: T.Conns)
      returns (ghost n: nat)
      requires Valid() && Shows(cs) && cid in connections && lid in connections[cid].linkMap && lid in cs[cid].links
      requires cs[cid].links[lid].registered && cs[cid].links[lid].revents == ready
      requires rd.Bytes? ==> 0 < |rd.data| <= MAX_DATA
      requires OthersQuiet(cid, writer.poller.polled, cs)
      modifies Objects(), connections[cid].linkMap[lid].out,
        writer.stream`queue, writer.stream`packets, writer.stream`sent,
        writer.poller`polled, writer.poller`origSize, writer.poller`index
      ensures connections == old(connections) && greeted == old(greeted) && due == old(due) && IsMine(cid)
      ensures LinkMaps() == old(LinkMaps())
      ensures var link, t := old(connections[cid].linkMap[lid]), Polled(cs[cid].links[lid], cs[cid].ack, rd, n);
        && connections[cid].Valid() && AsValue(connections[cid]) == cs[cid].(links := cs[cid].links[lid := t.link])
        && writer.stream.sent == old(writer.stream.sent) + Payloads(cid, lid, t.sends)
        && link.out.bytes == old(connections[cid].linkMap[lid].out.bytes) + t.wrote
        && SetAside(cid, link)
        && Others(old(writer.poller.polled), link, writer.owner) == Others(writer.poller.polled, link, writer.owner)
      ensures WritesSome(cs[cid].links[lid], rd, count, n)
      ensures OthersQuiet(cid, old(writer.poller.polled), cs)
    {
      hide CustomWriteStream.Valid, TunnelConnection.Valid, TunnelConnection.View, TunnelConnection.Quiet,
        Payloads, Others, TunnelConnection.Footprint, Valid, Shows, Objects, Polled, Disjoint, LinkMaps, Untouched,
        WritesSome;
      ghost var es, maps, link := writer.poller.polled, LinkMaps(), connections[cid].linkMap[lid];
      var c := connections[cid];
      ConnectionAt(cid, cs);
      SeparateFrom(cid);
      OneOfObjects(cid);
      SocketOutside(link.out);
      c.ViewKeys();
      forall j | j in connections && j != cid ensures Untouched(connections[j], link) {
        LinkIsForeign(c, connections[j], lid);
      }
      n := c.PollLink(lid, ready, rd, count);
      forall j | j in connections && j != cid ensures connections[j].Quiet(es, cs[j].links) {
        assert connections[j].Footprint() == old(connections[j].Footprint());
      }
    }

    lemma SocketOutside(out: Pipe)
      ensures forall cid :: cid in connections ==> (out as object) !in connections[cid].Footprint()
    {
      forall cid | cid in connections ensures (out as object) !in connections[cid].Footprint() {
        connections[cid].OutsideFootprint(out);
      }
    }

    // -------------------------------------------------------------- reading the table

    /** The connections are those of cs and have no links yet. */
    ghost predicate Blank(cs: T.Conns)
      reads `connections, connections.Values
    {
      && (forall cid: Short :: cid in connections <==> cid in cs)
      && (forall cid :: cid in connections ==>
            && IsMine(cid) && connections[cid].linkMap == map[]
            && T.Conn(connections[cid].listening, connections[cid].ack, map[], connections[cid].nextId) == cs[cid])
    }

    lemma BlankIsValid(cs: T.Conns)
      requires writer.Valid() && Blank(cs)
      ensures Valid() && Shows(cs)
    {
      hide CustomWriteStream.Valid;
      forall cid | cid in connections ensures connections[cid].Valid() && connections[cid].View() == map[] {}
    }

    /** The remote end's CMD_CREATE after the command word: read every entry and make its connection.
        `failed` are the ids whose listener does not come up. */
    method ReadTable(failed: set<Short>) returns (ghost entries: seq<Entry>)
      requires writer.Valid() && connections == map[] && !atLocal
      requires GetTable(reader.queue).Some?
      modifies reader`queue, this`connections
      ensures GetTable(old(reader.queue)) == Some((entries, reader.queue))
      ensures writer.Valid() && Blank(T.MakeConns(false, entries, failed)) && SpecsFrom(Specs(), entries)
      ensures forall cid :: cid in connections ==> fresh(connections[cid])
    {
      hide GetShort, GetSpec, GetEntries, CustomWriteStream.Valid, Blank, T.MakeConns, SpecsFrom;
      var count := reader.ReadShort();
      ghost var rounds := Rounds(count);
      ghost var tail := reader.queue;
      entries := [];
      PrefixedNone(GetEntries(rounds, tail));
      NothingMade(failed);
      NoSpecs();
      var i := 0;
      while i < count
        invariant 0 <= i <= rounds && |entries| == i
        invariant GetEntries(rounds, tail) == Prefixed(entries, GetEntries(rounds - i, reader.queue))
        invariant writer.Valid() && Blank(T.MakeConns(false, entries, failed)) && SpecsFrom(Specs(), entries)
        invariant forall cid :: cid in connections ==> fresh(connections[cid])
      {
        var id, spec := ReadEntry(rounds - i);
        ghost var specs := Specs();
        SpecsFromMore(specs, entries, (id, spec));
        PrefixedMore(entries, (id, spec), GetEntries(rounds - i - 1, reader.queue));
        MakeOneMore(false, entries, (id, spec), failed);
        entries := entries + [(id, spec)];
        if !(spec.ListensAt(false) && id in failed) {
          AddConnection(id, spec, T.MakeConns(false, entries[..i], failed));
          assert Specs() == specs[id := spec];
        }
        i := i + 1;
      }
      AllRead(entries, reader.queue);
    }

    lemma NoSpecs()
      requires connections == map[]
      ensures SpecsFrom(Specs(), [])
    {}

    lemma NothingMade(failed: set<Short>)
      requires connections == map[]
      ensures forall isLocal :: Blank(T.MakeConns(isLocal, [], failed))
    {}

    /** One round of the loop reads one entry. */
    method ReadEntry(ghost n: nat) returns (id: Short, spec: ConnectionSpec)
      requires n > 0 && GetEntries(n, reader.queue).Some?
      modifies reader`queue
      ensures GetEntries(n, old(reader.queue)) == Prefixed([(id, spec)], GetEntries(n - 1, reader.queue))
    {
      hide GetShort, GetSpec;
      id := reader.ReadShort();
      spec := Handshake.Deserialize(reader);
    }

    /** CreateConnection and its entry in m_connection_map. */
    method AddConnection(id: Short, spec: ConnectionSpec, ghost cs: T.Conns)
      requires writer.Valid() && Blank(cs)
      modifies this`connections
      ensures writer.Valid() && Blank(cs[id := T.Conn(spec.ListensAt(atLocal), spec.AckPackets(), map[], 501)])
      ensures id in connections && fresh(connections[id]) && connections[id].spec == spec
      ensures atLocal ==> InRole(connections[id])
      ensures connections == old(connections)[id := connections[id]]
    {
      hide CustomWriteStream.Valid, TunnelConnection.Valid;
      var connection := new TunnelConnection(id, spec, atLocal, writer);
      connections := connections[id := connection];
    }

    // -------------------------------------------------------------- the read callbacks

    /** The CMD_CONNECTION branch of both read callbacks. */
    method ConnectionCommand(socket: int, connected: bool, text: seq<Byte>,
                             ghost cs: T.Conns, ghost k: T.Key, ghost body: LinkMsg)
      returns (fault: Option<Fault>)
      requires Valid() && Shows(cs) && BuffersApart() && Tidy()
      requires GetOnLink(cs, reader.queue) == Some((T.OnLink(k, body), []))
      requires Awaited(cs, k, body)
      modifies reader`queue, Objects(), writer.stream`queue, writer.stream`packets, writer.stream`sent,
        writer.poller`polled, writer.poller`origSize, writer.poller`index, writer.poller`nextSerial
      ensures connections == old(connections) && greeted == old(greeted) && due == old(due) && BuffersApart() && Tidy()
      ensures fault == FaultAt(cs, T.OnLink(k, body), connected)
      ensures fault == None ==>
        && Valid() && Shows(ConnsAfter(cs, T.OnLink(k, body), connected, {})) && reader.queue == []
        && writer.stream.sent == old(writer.stream.sent) + Replies(atLocal, cs, T.OnLink(k, body), connected, text)
      ensures forall k' :: k' in Table() ==>
        || (k' in old(Table()) && Table()[k'] == old(Table())[k'])
        || (k' == k && body == Create && Table()[k'].out.bytes == [] && Table()[k'].socket == socket
            && fresh(PartsOf(Table()[k'])))
    {
      hide Valid, Shows, BuffersApart, Tidy, GetLink, GetShort, Receive, Payloads, Errors, Objects, Table, PartsOf,
        Awaited;
      SameKeys(cs);
      var cid := NextShort(cs);
      if cid !in connections {
        return Some(NoConnection);
      }
      fault := ProcessMessage(cid, socket, connected, text, cs, LinkFrame(k.lid, body, []));
    }

    /** CMD_CREATE at the remote end: the table, the new state, and the answer. */
    method CreateCommand(failed: set<Short>) returns (ghost entries: seq<Entry>)
      requires Valid() && connections == map[] && Tidy() && !atLocal && GetTable(reader.queue).Some?
      modifies reader`queue, this`connections, this`greeted,
        writer.stream`queue, writer.stream`packets, writer.stream`sent, writer.poller`polled
      ensures GetTable(old(reader.queue)) == Some((entries, reader.queue))
      ensures greeted && Valid() && Shows(T.MakeConns(false, entries, failed)) && BuffersApart() && Tidy()
      ensures writer.stream.sent == old(writer.stream.sent) + [PutMsg(T.CreateDone, [])]
      ensures Table() == map[] && forall cid :: cid in connections ==> fresh(connections[cid])
      ensures SpecsFrom(Specs(), entries)
    {
      hide SpecsFrom, GetTable, CustomWriteStream.Valid, TunnelConnection.Valid, T.MakeConns, HoldsOnly, Shows, Blank,
        PutMsg;
      assert Links() == {};
      entries := ReadTable(failed);
      greeted := true;
      Announce();
      BlankHasNoLinks(T.MakeConns(false, entries, failed));
      BlankIsValid(T.MakeConns(false, entries, failed));
    }

    /** The answer to CMD_CREATE. */
    method Announce()
      requires writer.Valid() && !(writer.owner is ConnectionLink) && HoldsOnly(writer.poller.polled, {})
      modifies writer.stream`queue, writer.stream`packets, writer.stream`sent, writer.poller`polled
      ensures writer.Valid() && writer.stream.sent == old(writer.stream.sent) + [PutMsg(T.CreateDone, [])]
      ensures HoldsOnly(writer.poller.polled, {})
    {
      hide PutShort, WriteStream.Valid, Others, CustomWriteStream.Valid, CustomWriteStream.Listed, HoldsOnly;
      ghost var es := writer.poller.polled;
      writer.Idle();
      writer.stream.WriteShort(CMD_CREATE);
      assert writer.stream.queue == PutShort(CMD_CREATE);
      writer.Send(writer.owner);
      StillHoldsOnly(es, writer.poller.polled, {}, {}, writer.owner, writer.owner);
    }

    lemma BlankHasNoLinks(cs: T.Conns)
      requires Blank(cs)
      ensures Table() == map[] && Links() == {} && BuffersApart()
    {}

    /** What follows the command word in StdioTunnelLocal::polled and StdioTunnelRemote::polled, for a packet
        p that decodes as message m: the whole packet is used up, and connections and answers are those of m. */
    method Handle(command: Short, socket: int, connected: bool, text: seq<Byte>, failed: set<Short>,
                  ghost cs: T.Conns, ghost p: Payload, ghost m: T.Msg) returns (fault: Option<Fault>)
      requires Valid() && Shows(cs) && BuffersApart() && Tidy()
      requires |p| >= 2 && command == GetShort(p) && reader.queue == p[2..]
      requires GetMsg(atLocal, greeted, cs, p) == Some((m, []))
      requires m.CreateTable? ==> connections == map[]
      requires m.OnLink? ==> Awaited(cs, m.key, m.body)
      modifies reader`queue, this`connections, this`greeted, Objects(),
        writer.stream`queue, writer.stream`packets, writer.stream`sent,
        writer.poller`polled, writer.poller`origSize, writer.poller`index, writer.poller`nextSerial
      ensures due == old(due) && fault == FaultAt(cs, m, connected)
      ensures fault == None ==>
        && Valid() && Shows(ConnsAfter(cs, m, connected, failed)) && BuffersApart() && Tidy() && reader.queue == []
        && writer.stream.sent == old(writer.stream.sent) + Replies(atLocal, cs, m, connected, text)
        && greeted == (old(greeted) || m.CreateTable? || m.CreateDone?)
      ensures fault == None ==>
        && (forall k :: k in Table() ==>
              || (k in old(Table()) && Table()[k] == old(Table())[k])
              || (m == T.OnLink(k, Create) && Table()[k].out.bytes == [] && Table()[k].socket == socket
                  && fresh(PartsOf(Table()[k]))))
        && (connections == old(connections) || forall cid :: cid in connections ==> fresh(connections[cid]))
        && (if m.CreateTable? then SpecsFrom(Specs(), m.entries) else connections == old(connections))
    {
      hide Valid, Shows, BuffersApart, Tidy, Table, PartsOf, Awaited, Objects, GetShort, GetTable, GetString,
        GetOnLink, Receive, Payloads, Errors, T.MakeConns, SpecsFrom;
      fault := None;
      IsOnLink(cs, p[2..]);
      SameKeys(cs);
      NotAnObject(this);
      if atLocal {
        if command == CMD_ERROR {
          var message := NextString(cs);
        } else if command == CMD_CREATE {
          greeted := true;
        } else if command == CMD_CONNECTION {
          fault := ConnectionCommand(socket, connected, text, cs, m.key, m.body);
        }
      } else if !greeted {
        if command != CMD_CREATE {
          return Some(UnexpectedCommand);
        }
        ghost var entries := CreateCommand(failed);
      } else if command != CMD_CONNECTION {
        return Some(UnexpectedCommand);
      } else {
        fault := ConnectionCommand(socket, connected, text, cs, m.key, m.body);
      }
    }

    /** fill() and the command word: nothing of the connections is involved. */
    method TakeCommand(ghost cs: T.Conns, ghost w: WriteStream, pipe: Pipe, n1: nat, n2: nat)
      returns (command: Option<Short>)
      requires Valid() && Shows(cs) && BuffersApart() && Tidy()
      requires Joined(w, reader, pipe) && reader.queue == [] && LongEnough(w.sent) && pipe.bytes != [] && n1 > 0
      modifies reader, reader.readBuf, pipe
      ensures Valid() && Shows(cs) && BuffersApart() && Tidy()
      ensures Joined(w, reader, pipe) && (reader.readBuf == old(reader.readBuf) || fresh(reader.readBuf))
      ensures old(reader.consumed) <= reader.consumed && (n2 > 0 ==> old(reader.consumed) < reader.consumed)
      ensures |reader.consumed| == |old(reader.consumed)|
        + Taken(old(reader.readBuf[..reader.readCount]), old(pipe.bytes), n1, n2)
      ensures command == None ==> reader.received == old(reader.received) && reader.queue == []
      ensures command.Some? ==>
                && |old(reader.received)| < |w.sent| && reader.received == w.sent[..|old(reader.received)| + 1]
                && var p := w.sent[|old(reader.received)|];
                |p| >= 2 && command.value == GetShort(p) && reader.queue == p[2..]
    {
      hide Taken, GetShort, Joined, Valid, Shows, Objects, HoldsOnly;
      InputApart(w, pipe);
      ObjectsAllocated();
      command := NextCommand(w, reader, pipe, n1, n2);
    }

    lemma BuffersOf(cid: Short)
      requires BuffersApart() && cid in connections
      ensures forall lid :: lid in connections[cid].linkMap ==>
        connections[cid].linkMap[lid].buffer.outputBuf != reader.readBuf
    {
      forall lid | lid in connections[cid].linkMap
        ensures connections[cid].linkMap[lid].buffer.outputBuf != reader.readBuf
      {
        assert T.Key(cid, lid) in Table();
      }
    }

    /** The input side is no part of any connection. */
    lemma InputOutside(pipe: Pipe)
      requires BuffersApart()
      ensures forall cid :: cid in connections ==>
        {reader as object, reader.readBuf, pipe} !! connections[cid].Footprint()
      ensures forall cid, o :: cid in connections && o in connections[cid].Footprint() ==> allocated(o)
    {
      hide TunnelConnection.Footprint;
      forall cid | cid in connections
        ensures {reader as object, reader.readBuf, pipe} !! connections[cid].Footprint()
        ensures forall o :: o in connections[cid].Footprint() ==> allocated(o)
      {
        connections[cid].FootprintAllocated();
        connections[cid].OutsideFootprint(reader);
        connections[cid].OutsideFootprint(pipe);
        BuffersOf(cid);
        connections[cid].ArrayOutside(reader.readBuf);
      }
    }

    /** What the peer has sent and this end has not had carries the messages on their way to it. */
    ghost predicate Underway(s: T.System, w: WriteStream)
      reads w`sent, reader`received
    {
      |reader.received| <= |w.sent| && Carries(w.sent[|reader.received|..], T.Incoming(s, atLocal))
    }

    /** The input side is apart from everything this end may change on handling a message. */
    lemma InputApart(w: WriteStream, pipe: Pipe)
      requires BuffersApart()
      ensures {reader as object, reader.readBuf, pipe, w, this} !! Objects()
      ensures forall i :: 0 <= i < |w.packets| ==> (w.packets[i] as object) !in Objects()
    {
      hide TunnelConnection.Footprint;
      InputOutside(pipe);
      forall cid | cid in connections
        ensures (w as object) !in connections[cid].Footprint() && (this as object) !in connections[cid].Footprint()
        ensures forall i :: 0 <= i < |w.packets| ==> (w.packets[i] as object) !in connections[cid].Footprint()
      {
        connections[cid].OutsideFootprint(w);
        connections[cid].OutsideFootprint(this);
        forall i | 0 <= i < |w.packets| ensures (w.packets[i] as object) !in connections[cid].Footprint() {
          connections[cid].OutsideFootprint(w.packets[i]);
        }
      }
    }

    /** The oldest packet decodes as the oldest message, and this end is ready for it. */
    lemma Oldest(s: T.System, ps: seq<Payload>)
      requires IsIn(s) && T.Inv(s) && (T.Awaiting(s) ==> Sendable(s.up[0].entries))
      requires ps != [] && Carries(ps, T.Incoming(s, atLocal))
      ensures T.Incoming(s, atLocal) != []
      ensures var m := Arrived(T.Incoming(s, atLocal)[0]);
        && GetMsg(atLocal, greeted, Real(), ps[0]) == Some((m, []))
        && (m.CreateTable? ==> connections == map[])
        && (m.CreateDone? ==> atLocal)
        && (m.OnLink? ==> Awaited(Real(), m.key, m.body))
      ensures Carries(ps[1..], T.Incoming(s, atLocal)[1..])
    {
      hide T.Inv, Carries, Awaited, Shows, Valid, Faced, Real, BuffersApart, Tidy, GetMsg, T.Awaiting, Sendable;
      RealShows();
      SameKeys(Real());
      CarriedLength(ps, T.Incoming(s, atLocal));
      PacketAlignment(s, atLocal, ps);
      ReceiverIsReady(s, atLocal);
      FacedReading(Real(), due, atLocal, s.greeted, ps[0]);
      GreetingSeen(s.greeted, greeted, Real(), ps[0]);
      FacedKeeps(Real(), due);
      CreateDoneIsLocal(atLocal, greeted, Real(), ps[0]);
      if T.Incoming(s, atLocal)[0].CreateTable? {
        assert connections.Keys == {};
      }
    }

    /** Only the remote end looks at whether it has been greeted. */
    lemma GreetingSeen(a: bool, b: bool, cs: T.Conns, bs: seq<Byte>)
      requires !atLocal ==> a == b
      ensures GetMsg(atLocal, a, cs, bs) == GetMsg(atLocal, b, cs, bs)
    {
      hide GetOnLink, GetTable, GetString, GetShort;
    }

    /** The read callback of an end when bytes are there to be read, in any state the two ends can reach:
        either only bytes move and s' is s, or the oldest message on its way is handled, and s' is where
        module Tunnel says that leads. No fault is met, and the read queue is empty again. */
    method Deliver(ghost s: T.System, ghost w: WriteStream, pipe: Pipe, n1: nat, n2: nat,
                   socket: int, connected: bool, text: seq<Byte>, failed: set<Short>)
      returns (took: bool, ghost s': T.System)
      requires IsIn(s) && T.Inv(s) && (T.Awaiting(s) ==> Sendable(s.up[0].entries)) && |text| < LONG_LIMIT
      requires Joined(w, reader, pipe) && reader.queue == [] && LongEnough(w.sent) && pipe.bytes != [] && n1 > 0
      requires w != writer.stream && Underway(s, w) && pipe !in Outs()
      modifies reader, reader.readBuf, pipe, this`connections, this`greeted, Objects(),
        writer.stream`queue, writer.stream`packets, writer.stream`sent,
        writer.poller`polled, writer.poller`origSize, writer.poller`index, writer.poller`nextSerial
      ensures IsIn(s') && T.Inv(s') && Underway(s', w) && Joined(w, reader, pipe) && reader.queue == []
      ensures old(reader.consumed) <= reader.consumed && (n2 > 0 ==> old(reader.consumed) < reader.consumed)
      ensures |reader.consumed| == |old(reader.consumed)|
        + Taken(old(reader.readBuf[..reader.readCount]), old(pipe.bytes), n1, n2)
      ensures |reader.received| == |old(reader.received)| + (if took then 1 else 0)
      ensures !took ==> reader.received == old(reader.received) && connections == old(connections)
      ensures Respecified(s, took, old(Specs()))
      ensures if took then Leads(s, atLocal, connected, failed, s') else s' == s
      ensures Answered(s, atLocal, s', old(writer.stream.sent), writer.stream.sent)
      ensures |text| <= MAX_TEXT ==> Fits(writer.stream.sent[|old(writer.stream.sent)|..], MAX_PAYLOAD)
      ensures due == old(due) && (old(Ledger(s)) ==> Ledger(s'))
      ensures fresh(Repr() - old(Repr()))
      ensures forall k :: k in Table() ==>
        || (k in old(Table()) && Table()[k] == old(Table())[k])
        || (took && T.Incoming(s, atLocal) != [] && T.Incoming(s, atLocal)[0] == T.OnLink(k, Create)
            && Table()[k].socket == socket)
    {
      hide Taken, IsIn, T.Inv, T.Awaiting, Sendable, Answered, T.Step, Objects, Outs, Repr, Table, Booked, Fits,
        PartsOf,
        Joined, Underway, LongEnough, Leads;
      ghost var table, given := Table(), Given();
      OutsOutside();
      GivenIs();
      took, s' := DeliverMessage(s, w, pipe, n1, n2, socket, connected, text, failed);
      GivenIs();
      GivenKeys(s');
      assert forall k :: k in table ==> table[k].out.bytes == given[k];
      if Booked(given, s, atLocal) {
        LedgerAfter(s, took, connected, failed, s', given);
      }
    }

    lemma GivenKeys(s: T.System)
      requires IsIn(s)
      ensures BookKeys(Given(), T.ConnsAt(s, atLocal))
    {
      hide BuffersApart, Tidy, CustomWriteStream.Valid, TunnelConnection.Valid, ConnectionLink.View, DisjointMaps;
      FacedKeeps(Real(), due);
      forall cid | cid in connections ensures Real()[cid].links.Keys == connections[cid].linkMap.Keys {
        connections[cid].ViewKeys();
      }
    }

    lemma LedgerAfter(s: T.System, took: bool, connected: bool, failed: set<Short>, s': T.System, given: Books)
      requires T.Inv(s) && Booked(given, s, atLocal) && BookKeys(Given(), T.ConnsAt(s', atLocal))
      requires if took then Leads(s, atLocal, connected, failed, s') else s' == s
      requires forall k :: k in Given() ==>
        || (k in given && Given()[k] == given[k])
        || (took && T.Incoming(s, atLocal) != [] && T.Incoming(s, atLocal)[0] == T.OnLink(k, Create)
          && Given()[k] == [])
      ensures Ledger(s')
    {
      hide T.Inv, T.Step;
      if took {
        DeliverBooked(s, atLocal, connected, failed, given, Given());
      } else {
        forall k ensures BookedAt(Given(), s, atLocal, k) {
          assert BookedAt(given, s, atLocal, k);
        }
      }
    }

    /** The same, saying what became of the links instead of what their sockets have been given. */
    method DeliverMessage(ghost s: T.System, ghost w: WriteStream, pipe: Pipe, n1: nat, n2: nat,
                   socket: int, connected: bool, text: seq<Byte>, failed: set<Short>)
      returns (took: bool, ghost s': T.System)
      requires IsIn(s) && T.Inv(s) && (T.Awaiting(s) ==> Sendable(s.up[0].entries)) && |text| < LONG_LIMIT
      requires Joined(w, reader, pipe) && reader.queue == [] && LongEnough(w.sent) && pipe.bytes != [] && n1 > 0
      requires w != writer.stream && Underway(s, w)
      modifies reader, reader.readBuf, pipe, this`connections, this`greeted, Objects(),
        writer.stream`queue, writer.stream`packets, writer.stream`sent,
        writer.poller`polled, writer.poller`origSize, writer.poller`index, writer.poller`nextSerial
      ensures IsIn(s') && T.Inv(s') && Underway(s', w) && Joined(w, reader, pipe) && reader.queue == []
      ensures old(reader.consumed) <= reader.consumed && (n2 > 0 ==> old(reader.consumed) < reader.consumed)
      ensures |reader.consumed| == |old(reader.consumed)|
        + Taken(old(reader.readBuf[..reader.readCount]), old(pipe.bytes), n1, n2)
      ensures |reader.received| == |old(reader.received)| + (if took then 1 else 0)
      ensures !took ==> reader.received == old(reader.received) && connections == old(connections)
      ensures took ==> Tabulates(s, old(connections))
      ensures if took then Leads(s, atLocal, connected, failed, s') else s' == s
      ensures Answered(s, atLocal, s', old(writer.stream.sent), writer.stream.sent)
      ensures |text| <= MAX_TEXT ==> Fits(writer.stream.sent[|old(writer.stream.sent)|..], MAX_PAYLOAD)
      ensures due == old(due) && (reader.readBuf == old(reader.readBuf) || fresh(reader.readBuf))
      ensures fresh(Repr() - old(Repr()))
      ensures forall k :: k in Table() ==>
        || (k in old(Table()) && Table()[k] == old(Table())[k])
        || (took && T.Incoming(s, atLocal) != [] && T.Incoming(s, atLocal)[0] == T.OnLink(k, Create)
            && Table()[k].out.bytes == [] && Table()[k].socket == socket
            && fresh(PartsOf(Table()[k])))
    {
      hide Taken, PartsOf, Fits, Valid, Shows, BuffersApart, Tidy, Table, Objects, GetShort, GetMsg, WriteStream.Valid,
        Frames,
        Partial, GetLong, T.Inv, T.Step, T.Awaiting, Carries, Answered, Leads, Faced, Real, Repr, Outs;
      ghost var cs, had, repr := Real(), |reader.received|, Repr();
      ReprHas();
      OutsOutside();
      RealShows();
      NotAnswered(s, atLocal, writer.stream.sent);
      var command := TakeCommand(cs, w, pipe, n1, n2);
      RealShows();
      took, s' := command.Some?, s;
      if took {
        InputApart(w, pipe);
        s' := TakeMessage(command.value, socket, connected, text, failed, s, w.sent[had..]);
        assert w.sent[had..][1..] == w.sent[had + 1..];
      }
      forall o | o in Repr() && o !in repr ensures fresh(o) {
        ReprIs(o);
      }
    }

    /** Handling the oldest message of s has made connections only of a table, as its entries say. */
    ghost predicate Tabulates(s: T.System, before: map<Short, TunnelConnection>)
      reads `connections
    {
      if T.Incoming(s, atLocal) != [] && T.Incoming(s, atLocal)[0].CreateTable? then
        SpecsFrom(Specs(), Images(T.Incoming(s, atLocal)[0].entries))
      else connections == before
    }

    /** The same of what the connections were made for. */
    ghost predicate Respecified(s: T.System, took: bool, before: map<Short, ConnectionSpec>)
      reads `connections
    {
      if took && T.Incoming(s, atLocal) != [] && T.Incoming(s, atLocal)[0].CreateTable? then
        SpecsFrom(Specs(), Images(T.Incoming(s, atLocal)[0].entries))
      else Specs() == before
    }

    /** A whole packet is in the queue, its command word read already. */
    method TakeMessage(command: Short, socket: int, connected: bool, text: seq<Byte>, failed: set<Short>,
                       ghost s: T.System, ghost ps: seq<Payload>)
      returns (ghost s': T.System)
      requires IsIn(s) && T.Inv(s) && (T.Awaiting(s) ==> Sendable(s.up[0].entries)) && |text| < LONG_LIMIT
      requires ps != [] && Carries(ps, T.Incoming(s, atLocal))
      requires |ps[0]| >= 2 && command == GetShort(ps[0]) && reader.queue == ps[0][2..]
      modifies reader`queue, this`connections, this`greeted, Objects(),
        writer.stream`queue, writer.stream`packets, writer.stream`sent,
        writer.poller`polled, writer.poller`origSize, writer.poller`index, writer.poller`nextSerial
      ensures IsIn(s') && T.Inv(s') && Leads(s, atLocal, connected, failed, s')
      ensures reader.queue == [] && due == old(due) && Carries(ps[1..], T.Incoming(s', atLocal))
      ensures Answered(s, atLocal, s', old(writer.stream.sent), writer.stream.sent)
      ensures |text| <= MAX_TEXT ==> Fits(writer.stream.sent[|old(writer.stream.sent)|..], MAX_PAYLOAD)
      ensures connections == old(connections) || forall cid :: cid in connections ==> fresh(connections[cid])
      ensures Tabulates(s, old(connections))
      ensures forall k :: k in Table() ==>
        || (k in old(Table()) && Table()[k] == old(Table())[k])
        || (T.Incoming(s, atLocal) != [] && T.Incoming(s, atLocal)[0] == T.OnLink(k, Create)
            && Table()[k].out.bytes == [] && Table()[k].socket == socket
            && fresh(PartsOf(Table()[k])))
    {
      hide PartsOf, Fits, Valid, Shows, BuffersApart, Tidy, Table, Objects, GetShort, GetMsg, T.Inv, T.Step, T.Awaiting,
        ConnsAfter, Replies, Sends, FaultAt, Carries, Awaited, Answered, Leads, Faced, Real, T.MakeConns, SpecsFrom;
      ghost var cs, sent0, round := Real(), writer.stream.sent, due;
      RealShows();
      Oldest(s, ps);
      ghost var p, m := ps[0], Arrived(T.Incoming(s, atLocal)[0]);
      FacedMessage(cs, round, m, connected, failed);
      s' := DeliveredState(s, atLocal, connected, text, failed, sent0);
      var fault := Handle(command, socket, connected, text, failed, cs, p, m);
      RealShows();
      SentSince(sent0, Replies(atLocal, cs, m, connected, text));
      if |text| <= MAX_TEXT { RepliesFit(atLocal, cs, m, connected, text); }
    }

    // -------------------------------------------------------------- a round of the Poller

    ghost function ReportsFor(cs: T.Conns, es: seq<Node>, answer: nat -> Events): map<T.Key, Events>
      reads `connections, connections.Values
    {
      map k | k in Table() && T.SlotOf(cs, k).Some? && T.SlotOf(cs, k).value.registered ::
        connections[k.cid].ReportFor(Table()[k], es, answer)
    }

    /** Everyone is as cs says while the Poller holds es. */
    ghost predicate AllQuiet(es: seq<Node>, cs: T.Conns)
      reads `connections, connections.Values, Objects()
    {
      && (forall cid: Short :: cid in connections <==> cid in cs)
      && (forall cid :: cid in connections ==>
            && IsMine(cid) && connections[cid].Quiet(es, cs[cid].links)
            && T.Conn(connections[cid].listening, connections[cid].ack, cs[cid].links, connections[cid].nextId)
              == cs[cid])
      && (forall i, j :: i in connections && j in connections && i != j ==> Disjoint(connections[i], connections[j]))
    }

    lemma AllAreQuiet(cs: T.Conns)
      requires Valid() && Shows(cs)
      ensures AllQuiet(writer.poller.polled, cs) && writer.Valid()
    {
      hide CustomWriteStream.Valid, TunnelConnection.Valid, TunnelConnection.View, TunnelConnection.Quiet,
        TunnelConnection.Footprint, DisjointMaps;
      forall j | j in connections ensures connections[j].Quiet(writer.poller.polled, cs[j].links) {
        connections[j].QuietNow();
      }
    }

    /** The answers as reports on links: no more than was asked for. */
    lemma ReportsAreAsked(cs: T.Conns, es: seq<Node>, answer: nat -> Events)
      requires AllQuiet(es, cs)
      requires forall i :: 0 <= i < |es| ==>
        (answer(i).pin ==> es[i].events.pin) && (answer(i).pout ==> es[i].events.pout)
      ensures var reports := ReportsFor(cs, es, answer);
        forall k :: k in reports ==> T.SlotOf(cs, k).Some? && Reportable(T.SlotOf(cs, k).value, reports[k])
    {
      hide TunnelConnection.ReportFor, TunnelConnection.Steady, ConnectionLink.ViewIn, Reportable, DisjointMaps;
      var reports := ReportsFor(cs, es, answer);
      forall k | k in reports ensures Reportable(T.SlotOf(cs, k).value, reports[k]) {
        connections[k.cid].AnswerIsAsked(Table()[k], es, answer);
      }
    }

    /** Where the entry of each link in the Poller stands. */
    ghost function Places(): map<T.Key, nat>
      reads `connections, connections.Values, writer.poller
    {
      PlacesIn(Table(), writer.poller.polled)
    }

    /** No two links have the same entry. */
    lemma PlacesApart(k: T.Key, j: T.Key)
      requires Valid() && k in Places() && j in Places() && k != j
      ensures Places()[k] != Places()[j]
    {
      hide Valid;
      OutsApart(k);
    }

    lemma ReportsAreRelayed(cs: T.Conns, es: seq<Node>, answer: nat -> Events)
      requires AllQuiet(es, cs) && writer.poller.polled == es
      ensures Relayed(cs, Places(), es, answer, ReportsFor(cs, es, answer))
    {
      hide AllQuiet, ReportsFor, Places;
      var reports := ReportsFor(cs, es, answer);
      forall k | T.SlotOf(cs, k).Some? && T.SlotOf(cs, k).value.registered
        ensures k in reports && k in Places() && Places()[k] < |es|
        ensures es[Places()[k]].events == T.SlotOf(cs, k).value.events && reports[k] == answer(Places()[k])
      {
        OneRelayed(k, cs, es, answer);
      }
    }

    lemma OneRelayed(k: T.Key, cs: T.Conns, es: seq<Node>, answer: nat -> Events)
      requires AllQuiet(es, cs) && writer.poller.polled == es
      requires T.SlotOf(cs, k).Some? && T.SlotOf(cs, k).value.registered
      ensures var reports := ReportsFor(cs, es, answer);
        && k in reports && k in Places() && Places()[k] < |es|
        && es[Places()[k]].events == T.SlotOf(cs, k).value.events && reports[k] == answer(Places()[k])
    {
      hide TunnelConnection.ReportFor, TunnelConnection.Steady, ConnectionLink.ViewIn, DisjointMaps, Table, Find;
      TableAt(k);
      connections[k.cid].AnswerIsFound(Table()[k], es, answer);
    }

    lemma OneReported(cid: Short, cs: T.Conns, es: seq<Node>, answer: nat -> Events)
      requires writer.Valid() && AllQuiet(es, cs) && writer.poller.polled == Reported(es, answer) && cid in connections
      ensures connections[cid].Valid()
      ensures connections[cid].View() == T.ReportedLinks(cid, cs[cid].links, ReportsFor(cs, es, answer))
    {
      hide CustomWriteStream.Valid, TunnelConnection.Valid, TunnelConnection.View, TunnelConnection.ReportFor, Reported,
        TunnelConnection.Quiet, DisjointMaps, ReportsFor;
      var c, links, reports := connections[cid], cs[cid].links, ReportsFor(cs, es, answer);
      QuietKeys(cid, es, cs);
      c.AllReported(es, links, answer);
      forall lid | lid in links
        ensures T.Report(links[lid], T.Key(cid, lid), reports)
                == if links[lid].registered then links[lid].(revents := c.ReportFor(c.linkMap[lid], es, answer))
                   else links[lid]
      {
        ReportIs(cid, lid, cs, es, answer);
      }
      hide T.Report, AllQuiet;
    }

    lemma QuietKeys(cid: Short, es: seq<Node>, cs: T.Conns)
      requires AllQuiet(es, cs) && cid in connections
      ensures connections[cid].linkMap.Keys == cs[cid].links.Keys
    {
      hide TunnelConnection.Steady, ConnectionLink.ViewIn;
    }

    lemma ReportIs(cid: Short, lid: Short, cs: T.Conns, es: seq<Node>, answer: nat -> Events)
      requires cid in connections && lid in connections[cid].linkMap && cid in cs && lid in cs[cid].links
      ensures var c, l, reports := connections[cid], cs[cid].links[lid], ReportsFor(cs, es, answer);
        T.Report(l, T.Key(cid, lid), reports)
        == if l.registered then l.(revents := c.ReportFor(c.linkMap[lid], es, answer)) else l
    {
      hide TunnelConnection.ReportFor, Table;
      TableAt(T.Key(cid, lid));
    }

    lemma EveryoneReported(cs: T.Conns, es: seq<Node>, answer: nat -> Events)
      requires writer.Valid() && AllQuiet(es, cs) && writer.poller.polled == Reported(es, answer)
      ensures Valid() && Shows(T.Reported(cs, ReportsFor(cs, es, answer)))
    {
      hide CustomWriteStream.Valid, TunnelConnection.Valid, TunnelConnection.View, Reported, ReportsFor,
        T.ReportedLinks, TunnelConnection.Quiet, DisjointMaps;
      forall cid | cid in connections
        ensures connections[cid].Valid()
        ensures connections[cid].View() == T.ReportedLinks(cid, cs[cid].links, ReportsFor(cs, es, answer))
      {
        OneReported(cid, cs, es, answer);
      }
    }

    /** poll() itself: every entry gets its answer, and so every link its report. */
    method Ask(answer: nat -> Events, ghost cs: T.Conns) returns (ghost reports: map<T.Key, Events>)
      requires Valid() && Shows(cs) && BuffersApart() && Tidy() && writer.poller.pollfds.Length > 0
      requires var es := writer.poller.polled;
        forall i :: 0 <= i < |es| ==> (answer(i).pin ==> es[i].events.pin) && (answer(i).pout ==> es[i].events.pout)
      modifies writer.poller`polled, writer.poller`pollfds, writer.poller.pollfds
      ensures Valid() && Shows(T.Reported(cs, reports)) && BuffersApart() && Tidy()
      ensures forall k :: k in reports ==> T.SlotOf(cs, k).Some? && Reportable(T.SlotOf(cs, k).value, reports[k])
      ensures Relayed(cs, old(Places()), old(writer.poller.polled), answer, reports)
      ensures writer.poller.polled == Reported(old(writer.poller.polled), answer)
      ensures writer.poller.pollfds.Length > 0
      ensures writer.poller.pollfds == old(writer.poller.pollfds) || fresh(writer.poller.pollfds)
    {
      hide Valid, Shows, BuffersApart, Objects, ReportsFor, TunnelConnection.Quiet, CustomWriteStream.Valid, T.Reported,
        AllQuiet, Reportable, WriteStream.Valid, HoldsOnly, Relayed, Places;
      ghost var es := writer.poller.polled;
      AllAreQuiet(cs);
      writer.Idle();
      ReportsAreAsked(cs, es, answer);
      ReportsAreRelayed(cs, es, answer);
      reports := ReportsFor(cs, es, answer);
      NotAnObject(writer.poller.pollfds);
      NotAnObject(writer.poller);
      ObjectsAllocated();
      writer.poller.Reserve();
      writer.poller.AskKernel(answer);
      writer.StillValid(es, answer);
      EveryoneReported(cs, es, answer);
      ReportedHolds(es, answer, Links());
    }

    /** The start of a round: who is to be visited is decided by what poll() reports now. */
    method Poll(answer: nat -> Events, ghost s: T.System)
      returns (ghost s': T.System, ghost reports: map<T.Key, Events>)
      requires IsIn(s) && T.Inv(s) && writer.poller.pollfds.Length > 0
      modifies `due, writer.poller`polled, writer.poller`pollfds, writer.poller.pollfds
      ensures T.Permitted(s, T.Poll(atLocal, reports)) && T.Inv(s') && IsIn(s')
      ensures T.Step(s, T.Poll(atLocal, reports)) == T.Running(s')
      ensures Relays(T.ConnsAt(s, atLocal), old(Places()), answer, reports)
      ensures AllTold(old(writer.poller.polled), answer, writer.poller.polled) && Places() == old(Places())
      ensures due == Table().Keys && (old(Ledger(s)) ==> Ledger(s'))
      ensures writer.poller.pollfds.Length > 0 && fresh(Repr() - old(Repr()))
    {
      hide IsIn, T.Inv, T.Permitted, T.Step, Objects, Outs, Repr, Table, Booked, T.PollAt, PartsOf, Relays, AllTold,
        Places;
      ghost var repr, given := Repr(), Given();
      ReprHas();
      OutsOutside();
      GivenIs();
      s', reports := ReportLinks(answer, s);
      GivenIs();
      assert Given() == given;
      if Booked(given, s, atLocal) {
        PermittedIsEnabled(s, T.Poll(atLocal, reports));
        PollBooked(s, atLocal, reports, given, atLocal);
      }
      forall o | o in Repr() && o !in repr ensures fresh(o) {
        ReprIs(o);
      }
    }

    /** The same, saying that the links are the same as before. */
    method ReportLinks(answer: nat -> Events, ghost s: T.System)
      returns (ghost s': T.System, ghost reports: map<T.Key, Events>)
      requires IsIn(s) && T.Inv(s) && writer.poller.pollfds.Length > 0
      modifies `due, writer.poller`polled, writer.poller`pollfds, writer.poller.pollfds
      ensures connections == old(connections) && Table() == old(Table()) && s' == T.PollAt(s, atLocal, reports)
      ensures T.Permitted(s, T.Poll(atLocal, reports)) && T.Inv(s') && IsIn(s')
      ensures T.Step(s, T.Poll(atLocal, reports)) == T.Running(s')
      ensures due == Table().Keys && Relays(T.ConnsAt(s, atLocal), old(Places()), answer, reports)
      ensures AllTold(old(writer.poller.polled), answer, writer.poller.polled) && Places() == old(Places())
      ensures writer.poller.pollfds.Length > 0
      ensures writer.poller.pollfds == old(writer.poller.pollfds) || fresh(writer.poller.pollfds)
    {
      hide Valid, Shows, BuffersApart, Objects, T.Inv, T.Step, Faced, Real, Tidy, Table, T.Reported, KeysOf, Silent,
        Relayed, Relays, Within, PlacesIn, AllTold, Reflects, Reported;
      ghost var cs, es, table, places := Real(), writer.poller.polled, Table(), Places();
      RealShows();
      RealIsSilent();
      KeysOfTable(cs);
      NotAnObject(this);
      AskWithin(answer, es);
      reports := Ask(Within(answer, writer.poller.polled), cs);
      RealShows();
      FacedReported(cs, old(due), reports);
      FacedReports(cs, old(due), reports);
      RelayedWithin(cs, old(due), places, es, answer, reports);
      ReportedIsTold(es, answer);
      StillPlaced(table, es, answer, writer.poller.polled);
      PollIs(s, atLocal, reports);
      s' := T.PollAt(s, atLocal, reports);
      due := set cid, lid | cid in connections && lid in connections[cid].linkMap :: T.Key(cid, lid);
      assert due == KeysOf(cs);
      assert Real() == T.Reported(cs, reports);
      assert Valid() && BuffersApart() && Tidy();
    }

    lemma RealIsSilent()
      requires Valid()
      ensures Silent(Real())
    {
      hide CustomWriteStream.Valid, TunnelConnection.Valid, Watched, SockBuffer.Pending, DisjointMaps;
    }

    lemma KeysOfTable(cs: T.Conns)
      requires Valid() && Shows(cs)
      ensures (set cid, lid | cid in connections && lid in connections[cid].linkMap :: T.Key(cid, lid)) == KeysOf(cs)
      ensures (set cid, lid | cid in connections && lid in connections[cid].linkMap :: T.Key(cid, lid)) == Table().Keys
    {
      hide CustomWriteStream.Valid, TunnelConnection.Valid, ConnectionLink.View, DisjointMaps;
      forall cid | cid in connections ensures cs[cid].links.Keys == connections[cid].linkMap.Keys {
        connections[cid].ViewKeys();
      }
    }

    /** The write callback: packets move, the links do not notice. */
    method WriteReady(pipe: Pipe, writable: bool, count: nat, ghost s: T.System)
      requires IsIn(s) && pipe !in Outs()
      modifies writer.stream`packets, writer.stream`emitted, writer.stream.packets, pipe, writer.poller`polled
      ensures IsIn(s) && (old(Ledger(s)) ==> Ledger(s))
      ensures old(writer.stream.emitted) <= writer.stream.emitted
      ensures pipe.bytes == old(pipe.bytes) + writer.stream.emitted[|old(writer.stream.emitted)|..]
      ensures |writer.stream.emitted| == |old(writer.stream.emitted)|
        + if writable then Least(count, old(writer.stream.Left())) else 0
      ensures |writer.stream.emitted| > |old(writer.stream.emitted)|
              <==> writable && count > 0 && old(writer.stream.PendingWrite())
    {
      hide Valid, Shows, BuffersApart, Objects, Faced, Real, Table, AllQuiet, HoldsOnly, CustomWriteStream.Valid,
        Others;
      ghost var cs, es, given := Real(), writer.poller.polled, Given();
      OutsOutside();
      GivenIs();
      RealShows();
      AllAreQuiet(cs);
      ObjectsAllocated();
      NotAnObject(pipe);
      NotAnObject(writer.stream);
      NotAnObject(writer.poller);
      forall i | 0 <= i < |writer.stream.packets| ensures (writer.stream.packets[i] as object) !in Objects() {
        NotAnObject(writer.stream.packets[i]);
      }
      writer.Flush(pipe, writable, count);
      GivenIs();
      assert Given() == given;
      AllUndisturbed(es, cs);
      RealShows();
      StillHoldsOnly(es, writer.poller.polled, Links(), Links(), writer.owner, writer.owner);
    }

    lemma AllUndisturbed(es: seq<Node>, cs: T.Conns)
      requires writer.Valid() && AllQuiet(es, cs)
      requires Others(es, writer.owner, writer.owner) == Others(writer.poller.polled, writer.owner, writer.owner)
      ensures Valid() && Shows(cs)
    {
      hide CustomWriteStream.Valid, TunnelConnection.View, TunnelConnection.Valid, TunnelConnection.Quiet, Others,
        TunnelConnection.Footprint, DisjointMaps;
      forall j | j in connections ensures connections[j].Valid() && connections[j].View() == cs[j].links {
        connections[j].QuietAvoidsOwner(es, cs[j].links);
        connections[j].Undisturbed(es, writer.owner, cs[j].links);
      }
    }

    // -------------------------------------------------------------- the local end's start

    /** The connections are those of the entries, which are in the order of their ids. */
    ghost predicate Specified(es: seq<Entry>)
      reads `connections
    {
      Specifies(Specs(), es)
    }

    ghost function Specs(): map<Short, ConnectionSpec>
      reads `connections
    {
      map cid | cid in connections :: connections[cid].spec
    }

    /** All connections asked for are there; those to be connected from here listen, and those whose flags ask for it
        acknowledge every packet. */
    ghost predicate AsAsked(specs: seq<ConnectionSpec>, failed: set<Short>)
      reads `connections
    {
      && AllMade(Specs(), specs, failed)
      && (forall cid :: cid in connections ==>
            && (connections[cid].listening <==> connections[cid].spec.direction == CONNECT)
            && (connections[cid].ack <==> connections[cid].spec.flags % 2 == 1))
    }

    lemma AskedFor(specs: seq<ConnectionSpec>, failed: set<Short>)
      requires |specs| <= 0x8000 && Specified(Requested(specs, failed))
      requires forall cid :: cid in connections ==>
        && (connections[cid].listening <==> connections[cid].spec.direction == CONNECT)
        && (connections[cid].ack <==> connections[cid].spec.flags % 2 == 1)
      ensures AsAsked(specs, failed)
    {
      SpecsAreAsked(Specs(), specs, failed);
    }

    /** StdioTunnelLocal::start, as far as it makes connections: one for each thing asked for on the command
        line, under the next id, unless its listener does not come up. */
    method MakeConnections(specs: seq<ConnectionSpec>, failed: set<Short>) returns (ghost entries: seq<Entry>)
      requires atLocal && connections == map[] && due == {} && Valid() && Tidy() && |specs| <= 0x8000
      modifies this`connections
      ensures entries == Requested(specs, failed) && Specified(entries) && AsAsked(specs, failed)
      ensures IsIn(T.Started(entries)) && Table() == map[]
      ensures forall cid :: cid in connections ==> fresh(connections[cid])
    {
      hide CustomWriteStream.Valid, TunnelConnection.Valid, Blank, T.MakeConns, HoldsOnly, Faced, Specified, Real,
        AsAsked;
      assert Links() == {};
      NothingSpecified();
      entries := [];
      NothingMade({});
      for i := 0 to |specs|
        invariant entries == Requested(specs[..i], failed) && Specified(entries)
        invariant forall cid :: cid in connections ==> cid < i
        invariant writer.Valid() && Blank(T.MakeConns(atLocal, entries, {}))
        invariant forall cid :: cid in connections ==> fresh(connections[cid]) && InRole(connections[cid])
      {
        assert specs[..i + 1][..i] == specs[..i];
        if !(specs[i].ListensAt(true) && i in failed) {
          AddNext(i, specs[i], entries);
          entries := entries + [(i, specs[i])];
        }
      }
      assert specs[..|specs|] == specs;
      BlankHasNoLinks(T.MakeConns(true, entries, {}));
      BlankIsValid(T.MakeConns(true, entries, {}));
      NoLinksToFace(true, entries, {}, due);
      RealShows();
      AskedFor(specs, failed);
    }

    /** A connection of the local end listens exactly if it is to be connected from here. */
    ghost predicate InRole(c: TunnelConnection) {
      && (c.listening <==> c.spec.direction == CONNECT) && (c.ack <==> c.spec.flags % 2 == 1)
    }

    method AddNext(id: Short, spec: ConnectionSpec, ghost entries: seq<Entry>)
      requires writer.Valid() && Blank(T.MakeConns(atLocal, entries, {})) && Specified(entries)
      requires forall cid :: cid in connections ==> cid < id
      modifies this`connections
      ensures writer.Valid() && Blank(T.MakeConns(atLocal, entries + [(id, spec)], {}))
        && Specified(entries + [(id, spec)])
      ensures id in connections && fresh(connections[id]) && connections == old(connections)[id := connections[id]]
      ensures atLocal ==> InRole(connections[id])
    {
      hide CustomWriteStream.Valid, Blank, T.MakeConns, Specifies;
      ghost var before := Specs();
      OneMoreSpec(before, entries, id, spec);
      MakeOneMore(atLocal, entries, (id, spec), {});
      AddConnection(id, spec, T.MakeConns(atLocal, entries, {}));
      assert Specs() == before[id := spec];
    }

    lemma NothingSpecified()
      requires connections == map[]
      ensures Specified([])
    {}

    /** The loop of startHandshaking over the connection map, in the order of its keys. */
    method Entries(ghost entries: seq<Entry>) returns (es: seq<Entry>)
      requires Specified(entries)
      ensures es == entries
    {
      es := [];
      for id := -0x8000 to 0x8000
        invariant |es| <= |entries| && es == entries[..|es|]
        invariant forall i :: 0 <= i < |es| ==> entries[i].0 < id
        invariant forall i :: |es| <= i < |entries| ==> id <= entries[i].0
      {
        NextSpec(Specs(), entries, |es|, id);
        if id in connections {
          es := es + [(id, connections[id].spec)];
        }
      }
      assert IdAt(entries, |es|) < 0x8000;
    }

    /** startHandshaking: what is in the connection map goes into one packet. */
    method StartHandshaking(ghost s: T.System, ghost entries: seq<Entry>) returns (ghost s': T.System)
      requires atLocal && IsIn(s) && Specified(entries)
      modifies writer.stream`queue, writer.stream`packets, writer.stream`sent, writer.poller`polled
      ensures s' == T.HandshakeSent(s, entries) && IsIn(s')
      ensures writer.stream.sent == old(writer.stream.sent) + [PutMsg(T.CreateTable(entries), [])]
    {
      hide Valid, Shows, BuffersApart, Objects, Faced, Real, Table, AllQuiet, HoldsOnly, CustomWriteStream.Valid,
        Others, Specified, PutMsg;
      ghost var cs, es := Real(), writer.poller.polled;
      RealShows();
      AllAreQuiet(cs);
      ObjectsAllocated();
      NotAnObject(writer.stream);
      NotAnObject(writer.poller);
      var table := Entries(entries);
      Handshake.StartHandshaking(writer, table);
      AllUndisturbed(es, cs);
      RealShows();
      StillHoldsOnly(es, writer.poller.polled, Links(), Links(), writer.owner, writer.owner);
      s' := T.HandshakeSent(s, entries);
    }

    // -------------------------------------------------------------- what may happen next

    /** A listener may accept if the id it would hand out is not in use. */
    predicate MayAccept(cid: Short)
      reads `connections, connections.Values
    {
      cid in connections && connections[cid].listening && ToShort(connections[cid].nextId) !in connections[cid].linkMap
    }

    lemma AcceptIsPermitted(cid: Short, s: T.System)
      requires IsIn(s)
      ensures MayAccept(cid) <==> T.Permitted(s, T.Accept(atLocal, cid))
    {
      hide CustomWriteStream.Valid, TunnelConnection.Valid, ConnectionLink.View, Disjoint, ToShort, BuffersApart, Tidy;
      RealShows();
      FacedKeeps(Real(), due);
      if cid in connections {
        connections[cid].ViewKeys();
      }
    }

    /** What the Poller has to report on a link that the round has still to visit; nothing otherwise. */
    function Ready(k: T.Key): Events
      reads this, connections.Values, writer.poller
    {
      if k in due && k.cid in connections && k.lid in connections[k.cid].linkMap then
        var link := connections[k.cid].linkMap[k.lid];
        var i := Find(writer.poller.polled, link, link.socket);
        if i < |writer.poller.polled| then writer.poller.polled[i].revents else NOTHING
      else NOTHING
    }

    /** It is what module Tunnel says the round has to report. */
    lemma ReadyIsDue(k: T.Key, s: T.System)
      requires IsIn(s)
      ensures var slot := T.SlotOf(T.ConnsAt(s, atLocal), k);
        Ready(k) == if slot.Some? && slot.value.registered then slot.value.revents else Events(false, false, false)
      ensures Ready(k) != NOTHING ==> k in Table() && k in due
    {
      hide Valid, Real, BuffersApart, Tidy, Faced, Table, Find, T.SlotOf;
      FacedAt(Real(), due, k);
      TableAt(k);
      RealHas(k);
      if k in Table() { ReportShown(k); }
    }

    lemma RealHas(k: T.Key)
      requires Valid()
      ensures T.SlotOf(Real(), k).Some? ==> k in Table()
    {
      hide CustomWriteStream.Valid, TunnelConnection.Valid, ConnectionLink.View, Disjoint;
      if k.cid in connections { connections[k.cid].ViewKeys(); }
    }

    lemma ReportShown(k: T.Key)
      requires Valid() && k in Table()
      ensures var link, es := Table()[k], writer.poller.polled;
        var slot, i := T.SlotOf(Real(), k), Find(es, link, link.socket);
        && slot.Some? && (slot.value.registered <==> i < |es|)
        && (i < |es| ==> slot.value.revents == es[i].revents)
    {
      hide Valid, Real, SockBuffer.Pending;
      LinkShown(k);
    }

    /** The Poller holds the link under k. */
    ghost predicate Holds(k: T.Key)
      requires k in Table()
      reads `connections, connections.Values, writer.poller
    {
      Watched(writer.poller.polled, Table()[k], Table()[k].socket).Some?
    }

    ghost function Buffers(): set<object>
      reads `connections, connections.Values
    {
      (set k | k in Table() :: Table()[k].buffer as object)
        + (set k | k in Table() :: Table()[k].buffer.outputBuf as object)
    }

    /** What the other end has read from its socket for this link is what this end's socket has been given,
        then what is still buffered for it, then what is on its way here. */
    ghost predicate Accounts(k: T.Key, read: seq<Byte>, flying: seq<Byte>)
      reads `connections, connections.Values, Outs(), Buffers()
    {
      && k in Table() && Table()[k].buffer.Valid()
      && read == Table()[k].out.bytes + Table()[k].buffer.Pending() + flying
    }

    lemma HeldLink(k: T.Key, s: T.System, flying: seq<Byte>)
      requires IsIn(s) && Ledger(s) && k in Table() && Holds(k)
      ensures k.cid in s.local
      ensures var slot := T.SlotOf(T.ConnsAt(s, atLocal), k);
        && slot.Some? && slot.value.registered
        && (!slot.value.closing ==> Accounts(k, T.WrittenAt(s, atLocal, k) + slot.value.pending + flying, flying))
    {
      assert BookedAt(Given(), s, atLocal, k);
      hide Valid, Real, BuffersApart, Tidy, Faced, T.WrittenAt, Booked, Table;
      GivenIs();
      FacedAt(Real(), due, k);
      LinkShown(k);
      HeldIsShown(k);
      hide Holds;
    }

    lemma HeldIsShown(k: T.Key)
      requires k in Table() && Table()[k].buffer.Valid()
      ensures var l := Table()[k].ViewIn(writer.poller.polled);
        l.registered == Holds(k) && l.pending == Table()[k].buffer.Pending()
    {
      hide SockBuffer.Pending;
    }

    /** A link of this end as a value. */
    lemma LinkShown(k: T.Key)
      requires Valid() && k in Table()
      ensures T.SlotOf(Real(), k) == Some(Table()[k].ViewIn(writer.poller.polled)) && Table()[k].buffer.Valid()
    {
      hide CustomWriteStream.Valid, TunnelConnection.Valid, ConnectionLink.ViewIn, Disjoint;
      connections[k.cid].ViewKeys();
      connections[k.cid].Inside(k.lid);
    }
  }
}
