# StdioTunnel, verified

StdioTunnel carries many TCP connections over the standard input and output of one remote login. A local
and a remote process exchange a table of connections after the remote end has announced itself with a magic
string; from then on every accepted TCP connection is a *link* that is created, carries data in both
directions, optionally waits for an acknowledgement after each packet, and is closed from either side.

This project models that program in layers and proves what it is for: bytes read from a socket at one end
are written to the matching socket at the other end, whole, in order and without mixing links, whatever the
two ends, the kernel and the byte channel do in between.

| file | content |
|---|---|
| `Wire.dfy` | shorts, longs and strings on the wire, with C++'s conversions to `short` |
| `Codec.dfy` | connection specifications, the handshake table, link messages |
| `Streams.dfy` | packets on a byte stream: `WriteStream`, `ReadStream`, and any schedule of short writes and reads |
| `SockBuffers.dfy` | `SockBuffer`, a queue feeding a right-justified array |
| `Polling.dfy`, `Watching.dfy` | `Poller`, its dispatch loop under changes made by callbacks, and what it knows of one object |
| `Links.dfy` | what one end does to one link, as functions on values |
| `Endpoint.dfy` | `CustomWriteStream`, `ConnectionLink`, `TunnelConnection`: the objects, working in place, proved against `Links` |
| `Protocol.dfy` | both ends of one link and its messages under every interleaving |
| `Tunnel.dfy` | both processes with all connections and links; whole runs; draining |
| `Messages.dfy` | one packet is one message: the byte streams of `Streams` are the queues of `Tunnel` |
| `Magic.dfy`, `Handshake.dfy` | the magic string detector, who may write when, and the exchange of the table |
| `Moves.dfy` | what the steps of `Tunnel` mean for one end: its connections, its answers, what its sockets have been given |
| `Effects.dfy` | what each step of `Tunnel` does, spelled out for every field and message, and that it touches nothing else; who listens; how long a link waits for input |
| `Ends.dfy` | a whole end of the tunnel as objects, with all its connections, proved to take the steps of `Tunnel` |
| `Session.dfy` | two such ends and the byte streams between them, from the command line on: every run of the objects is a run of `Tunnel` |
| `BlockList.dfy` | `sblist` and `Socks5Server::collect` |

How the layers meet. `Streams.Run` shows that the packets a reader has are always a prefix of those sent.
`Messages.PacketAlignment` and `Messages.NextCommand` show that each is decoded as exactly one message and
leaves the read queue empty. `Endpoint` shows that the code does to a link, its Poller entry and the writer
what the functions of `Links` say. `Protocol` and `Tunnel` let all parties take those steps in any order and
prove the invariants, `Tunnel.EveryRunIsSafe` and `Tunnel.EndToEndConservation` above all. `Ends.TunnelEnd`
closes the circle for one end: in every state `Tunnel` can reach, its accept, poll, read, write and link
callbacks, working on bytes, objects and the shared Poller, take exactly the steps `Tunnel` describes.
`Session.Tunnel` closes it for both: from any command line, after any noise in front of the greeting, with any
events in any order, each event is the action of `Tunnel` of its name with its own data and none is dropped that
can happen; the two ends as objects run as `Tunnel` says; and for every link a Poller holds, all bytes the events
have read from its socket at the other end are written to this end's socket, in the link's buffer, or in packets
on their way. All connections asked for are in place: each under its number, as asked for, with its ListenSide at the
end its direction names, and the remote end has exactly what comes out of the table of the local end's.

`Effects` is the second opinion on the functions the runs are made of. For each message, accept, callback and poll it says
without those functions which fields of which link change and how, which messages are sent, and that every other link,
connection and message stays; it does so in every reachable state, so a step that did anything else would contradict it.

## What is assumed

- The byte channel is reliable and ordered. `read` and `write` move any number of bytes up to the number asked for.
- A thrown exception ends a run. `Links.Fault` and `ReadStatus` name the exceptions and the other ways a run
  can go astray; that no run meets one is proved.
- No listener accepts before `startHandshaking`: the runs of `Tunnel` start in the state that leaves behind.
  `Tunnel.FirstDelivery` shows that this is exactly what is needed: with an earlier accept the remote end
  stops at the first message it reads (`Tunnel.EarlyAcceptStopsTheRun` is such a run).
- A listener does not hand out an id it still uses, which holds for the first 65536 accepts of each listener:
  `Tunnel.FewAcceptsAreSafe` needs no more than that. `Protocol.AcceptSafe` says exactly when an accept is
  harmless and `Protocol.ReuseOfLiveIdMixesStreams` what happens otherwise. `Session` passes such an accept over.
- `poll` reports what was asked for, and errors; links are visited in any order, each at most once a round,
  which is what `Polling.RoundIsExact` and `Polling.SubsequenceOfDistinct` prove of the loop.
- A packet's payload has at most 50,000,000 bytes, the limit the reader enforces, and the table at most
  32767 connections; `Codec.TableRoundTrip` shows that this bound is exact. An error message has at most
  50,000,000 bytes less its header.
- What the login writes before the remote end starts is not itself taken for the greeting: then the local end would
  start too early.
- The length header and `long` values are four-byte big-endian fields.
- Bytes still buffered at a link when it closes are discarded, as the code does; conservation is stated for
  open links, and for closed ones that what was written is a prefix.

## Model

| member | source | states |
|---|---|---|
| Wire.ShortRoundTrip | src/com/antlersoft/net/ReadStream.cpp:40-47 | reading a short gives the argument of the write reduced to its low sixteen bits and sign-extended, for every integer, and takes two bytes |
| Wire.SameLowBits | src/com/antlersoft/net/WriteStream.cpp:37-42 | integers congruent modulo 65536 are the same short, hence the same port for htons |
| Wire.LongRoundTrip | src/com/antlersoft/net/ReadStream.cpp:49-62 | a four-byte big-endian value is read back and nothing after it is touched |
| Wire.LongBigEndian | src/com/antlersoft/net/WriteStream.cpp:44-48 | the bytes of a long are in the order of the number: of two values below 2^32 the smaller one has the smaller bytes, compared as in a dictionary |
| Wire.ShortBigEndian | src/com/antlersoft/net/WriteStream.cpp:37-42 | the same for shorts |
| Wire.StringRoundTrip | src/com/antlersoft/net/ReadStream.cpp:64-72 | a string is read back whole and the bytes after it stay |
| Codec.SpecRoundTrip | src/com/antlersoft/stdio_tunnel/StdioTunnel.cpp:79-95 | deserialize undoes serialize up to the conversion of its integers to short, whatever follows |
| Codec.WireImageKeeps | src/com/antlersoft/stdio_tunnel/StdioTunnel.h:69-69 | the received specification has the same host, ports (as htons sees them), direction and ACK flag, and flags that agree modulo 65536; it is a SOCKS5 request as before if and only if the host is non-empty, the port is zero, or the port is no multiple of 65536 |
| Codec.EntriesRoundTrip | src/com/antlersoft/stdio_tunnel/StdioTunnel.cpp:383-386 | any number of table entries is read back in order, leaving what follows |
| Codec.TablePrefix | src/com/antlersoft/stdio_tunnel/StdioTunnel.cpp:693-728 | of a table of any size the receiver recovers exactly as many entries as its short loop counter allows and leaves the rest in the queue |
| Codec.TableRoundTrip | src/com/antlersoft/stdio_tunnel/StdioTunnel.cpp:381-387 | the whole table arrives with nothing left over if and only if it has at most 32767 entries |
| Codec.LinkRoundTrip | src/com/antlersoft/stdio_tunnel/StdioTunnel.cpp:1065-1113 | every link message an end can send is decoded by the peer's handler as that message, and exactly its bytes are consumed |
| Framing.FrameUnique | src/com/antlersoft/net/WriteStream.cpp:15-20 | two frames that start the same byte stream carry the same payload |
| Framing.PrefixOfFrames | src/com/antlersoft/net/ReadStream.cpp:107-140 | whatever whole packets can be decoded from a prefix of a framed stream are a prefix of the packets framed |
| Framing.BoundedHeader | src/com/antlersoft/net/ReadStream.cpp:108-108 | a length above the limit is never met in a stream of packets within it |
| Framing.AllOfFrames | src/com/antlersoft/net/ReadStream.cpp:137-140 | once every byte of the stream is consumed every packet has been delivered |
| Streams.WritePacket.SendPacket | src/com/antlersoft/net/WriteStream.cpp:22-28 | a partial write moves exactly the next bytes of the frame, and the packet is done exactly when all are out |
| Streams.WriteStream.Send | src/com/antlersoft/net/WriteStream.cpp:50-53 | a non-empty queue becomes one more packet, behind the others; an empty one sends nothing |
| Streams.WriteStream.Empty | src/com/antlersoft/net/WriteStream.cpp:55-65 | only the front packet advances, by exactly as many bytes as the kernel takes of what is left of it, and not at all unless the descriptor is writable; POLLOUT is cleared in the notified entry exactly when the last packet has gone; the bytes emitted so far stay the frames of the finished packets and the written part of the front one |
| Streams.ReadStream.Store | src/com/antlersoft/net/ReadStream.cpp:104-136 | new bytes extend the partial frame |
| Streams.ReadStream.Grow | src/com/antlersoft/net/ReadStream.cpp:109-115 | the partial frame survives regrowth of the buffer |
| Streams.ReadStream.Fill | src/com/antlersoft/net/ReadStream.cpp:81-142 | one readable notification takes exactly what is missing of the header and then of the body, as far as the bytes are there and the kernel gives them; it delivers at most one payload, whole, and does deliver one if the whole frame can be had; all bytes consumed are the frames delivered followed by the partial frame in the buffer; the two error exits are taken only at end of file and on an announced length above the limit |
| Streams.ReadStream.ReadString | src/com/antlersoft/net/ReadStream.cpp:64-72 | takes exactly one string off the queue |
| Streams.ReadStream.ReadBytes | src/com/antlersoft/net/ReadStream.cpp:74-79 | takes exactly that many bytes off the queue |
| Streams.Happen | src/com/antlersoft/net/WriteStream.cpp:50-65 | one such event: a send adds its payload, unless it is empty; a write notification writes exactly what the kernel takes of the packet in front; a read notification reads exactly what there is of the frame begun, as far as the kernel gives it; and the reader is not stopped |
| Streams.Run | src/com/antlersoft/net/ReadStream.cpp:81-142 | for any sequence of sends, partial writes and short or empty reads, moment by moment: the payloads sent are those of the send events; every notification moves exactly the bytes the kernel lets it, and nothing else moves any; the payloads received are exactly those the bytes taken complete, and a prefix of those sent; nothing stops the reader; and all have arrived once nothing is under way |
| Streams.AllSentSplit | src/com/antlersoft/net/WriteStream.cpp:50-53 | what a sequence of events sends is what its parts send, one after the other |
| Streams.AllSentAre | src/com/antlersoft/net/WriteStream.cpp:50-53 | sends of non-empty payloads send exactly those, in order; notifications and empty sends send nothing |
| Streams.Drain | src/com/antlersoft/net/Poller.cpp:111-121 | write and read notifications in turn, each moving at least one byte if it can, deliver everything sent, after no more turns than there were bytes under way, those not yet written counted twice |
| Streams.Delivered | src/com/antlersoft/net/ReadStream.cpp:107-140 | the same for the two streams at any one moment |
| Streams.EmittedIsPrefix | src/com/antlersoft/net/WriteStream.cpp:50-65 | the bytes on the descriptor are a prefix of the frames of everything sent |
| SockBuffers.SockBuffer.UnsentData | src/com/antlersoft/net/SockBuffer.h:39-39 | true exactly when bytes are pending |
| SockBuffers.SockBuffer.PushOnBuffer | src/com/antlersoft/net/SockBuffer.cpp:75-75 | appends to the pending bytes |
| SockBuffers.SockBuffer.ReadData | src/com/antlersoft/net/SockBuffer.cpp:24-42 | appends exactly the bytes read, in order, over all reads of one call; it reads on as long as the kernel fills the buffer, and stops at the first read that does not |
| SockBuffers.SockBuffer.Refill | src/com/antlersoft/net/SockBuffer.cpp:47-56 | moving bytes from the queue to the end of the array changes neither the pending bytes nor their order |
| SockBuffers.SockBuffer.WriteData | src/com/antlersoft/net/SockBuffer.cpp:44-63 | the oldest pending bytes go out in order and leave the buffer, exactly as many as the kernel takes of the array or, if that is empty, of the next bufferful of the queue; everything accepted is what was written followed by what is pending |
| SockBuffers.SockBuffer.GetCopyOfBuffer | src/com/antlersoft/net/SockBuffer.cpp:69-73 | the copy is the part of the pending bytes not yet in the output array |
| SockBuffers.SockBuffer.Clear | src/com/antlersoft/net/SockBuffer.cpp:77-80 | nothing is pending afterwards |
| Polling.Poller.FindPolled | src/com/antlersoft/net/Poller.cpp:140-150 | the first entry of that object and descriptor, or the end |
| Polling.Poller.AddPolled | src/com/antlersoft/net/Poller.cpp:133-138 | a new entry at the end, nothing else changed |
| Polling.Poller.SetPolledEvents | src/com/antlersoft/net/Poller.cpp:152-157 | the events of the first matching entry, nothing else changed |
| Polling.Poller.RemovePolled | src/com/antlersoft/net/Poller.cpp:159-167 | the first matching entry goes, the loop's bound and index are corrected by one where it stood below them |
| Polling.Poller.AskKernel | src/com/antlersoft/net/Poller.cpp:90-100 | every entry gets its own answer |
| Polling.AddKeepsStep | src/com/antlersoft/net/Poller.cpp:133-138 | an add during dispatch leaves the loop's window the still registered rest of the original entries |
| Polling.RemoveKeepsStep | src/com/antlersoft/net/Poller.cpp:159-167 | so does any removal, of the current entry or entry 0 included, thanks to the corrections of index and bound |
| Polling.Poller.Dispatch | src/com/antlersoft/net/Poller.cpp:101-107 | the index loop visits what the reference dispatcher over a snapshot visits, in the same order, and ends in the same vector |
| Polling.Poller.PollOnce | src/com/antlersoft/net/Poller.cpp:80-109 | one round equals the reference dispatcher over the entries as poll() reported them, for all callbacks; without events nothing is called |
| Polling.WalkVisits | src/com/antlersoft/net/Poller.cpp:101-107 | a visited entry was registered with something to report; an unvisited one with something to report is gone at the end, and no removed entry comes back |
| Polling.WalkIsExact | src/com/antlersoft/net/Poller.cpp:101-107 | whatever the callbacks do, an entry is visited if and only if it had something to report and is still registered when its turn comes |
| Polling.RoundIsExact | src/com/antlersoft/net/Poller.cpp:101-107 | one round visits a subsequence of the original entries, and of them exactly those with something to report that no earlier callback of the round has removed; a removed one does not come back |
| Polling.SubsequenceOfDistinct | src/com/antlersoft/net/Poller.cpp:101-107 | so no entry is visited twice and no newly added one at all |
| Endpoint.CustomWriteStream.Send | src/com/antlersoft/stdio_tunnel/StdioTunnel.cpp:123-130 | one packet is sent and POLLOUT armed for it in the writer's entry, which is there; afterwards POLLOUT is armed exactly if packets wait, unconditionally |
| Endpoint.CustomWriteStream.Flush | src/com/antlersoft/stdio_tunnel/StdioTunnel.cpp:641-646 | clearing POLLOUT, by the stream and by the end, leaves it armed exactly while packets wait: the writer never stalls and never spins |
| Endpoint.ConnectionLink.SetAcknowledged | src/com/antlersoft/stdio_tunnel/StdioTunnel.cpp:171-178 | flag and armed events of the link become those of Links.SetAcknowledged (see Links.ReceiveTraffic and Effects.AckDoes for what that means); no other Poller entry changes |
| Endpoint.ConnectionLink.SetClosing | src/com/antlersoft/stdio_tunnel/StdioTunnel.cpp:180-185 | the link is closing and out of the Poller; no other Poller entry changes |
| Endpoint.TunnelConnection.CloseLink | src/com/antlersoft/stdio_tunnel/StdioTunnel.cpp:1054-1063 | the first call closes the link and sends one LINK_CLOSE, a later one does nothing |
| Endpoint.TunnelConnection.SendData | src/com/antlersoft/stdio_tunnel/StdioTunnel.cpp:1065-1074 | exactly one packet, the encoding of the data message of the connection's ACK mode |
| Endpoint.TunnelConnection.ReceiveData | src/com/antlersoft/stdio_tunnel/StdioTunnel.cpp:1076-1086 | exactly the message's bytes leave the read queue and join the link's buffer, or are dropped if it is closing; a length above 4096 stops the run |
| Endpoint.TunnelConnection.ProcessLinkMessage | src/com/antlersoft/stdio_tunnel/StdioTunnel.cpp:1088-1113 | new link state, packets sent, queue position and erasure are those of Links.ProcessLinkMessage, the ACK fall-through included; a link that is erased has no entry in the Poller any more |
| Endpoint.TunnelConnection.LinkPolled | src/com/antlersoft/stdio_tunnel/StdioTunnel.cpp:135-158 | link, packets and socket traffic of one callback are those of Links.Polled; as many bytes are written as the kernel takes of what the buffer offers; other Poller entries do not change |
| Endpoint.TunnelConnection.PollLink | src/com/antlersoft/stdio_tunnel/StdioTunnel.cpp:135-158 | the same for a link in its connection, all other links unchanged |
| Endpoint.TunnelConnection.Accept | src/com/antlersoft/stdio_tunnel/StdioTunnel.cpp:1169-1185 | a fresh, unregistered link at the accepted socket under the next id as a short, one LINK_CREATE packet, and nothing else changed |
| Endpoint.TunnelConnection.ListenMessage | src/com/antlersoft/stdio_tunnel/StdioTunnel.cpp:1118-1141 | the link map, the packets sent, the faults and the bytes left in the queue are those of Links.Receive at the message's link; no link object is replaced, and one that goes has left the Poller |
| Endpoint.TunnelConnection.Connect | src/com/antlersoft/stdio_tunnel/StdioTunnel.cpp:1220-1257 | a registered fresh link at the connected socket or none, an error report before a refusal at the remote end, and the reply |
| Endpoint.TunnelConnection.ConnectMessage | src/com/antlersoft/stdio_tunnel/StdioTunnel.cpp:1198-1262 | as ListenMessage, for the connecting side, where only a request makes a link, at the connected socket, which has been given nothing; data for an unknown link is the one case that loses the place in the stream |
| Links.PolledKeepsHealthy | src/com/antlersoft/stdio_tunnel/StdioTunnel.cpp:135-158 | every callback, for any read and write results and any reported events, keeps a link healthy |
| Links.PolledTraffic | src/com/antlersoft/stdio_tunnel/StdioTunnel.cpp:135-158 | what was pending is what is written and what stays; what is read is sent; a LINK_CLOSE comes last and exactly on closing; only an acknowledged link reads |
| Links.PolledExactly | src/com/antlersoft/stdio_tunnel/StdioTunnel.cpp:135-158 | one callback, field by field: it reads if and only if readable is reported, and sends what it has read as one packet of the kind the ACK mode says; it writes if and only if writable is reported, as much of the oldest bytes as the kernel takes of a bufferful; it closes if and only if it meets end of file or an error; a link that stays open waits for room exactly while bytes are left, and for input exactly if it is acknowledged and either did so before or has just been emptied |
| Links.ReceiveTraffic | src/com/antlersoft/stdio_tunnel/StdioTunnel.cpp:1076-1113 | data joins the buffer of an open link and is answered by one LINK_ACK in ACK mode; a closing link takes and answers nothing; links stay healthy; a link in the Poller waits for input after an acknowledgement, whatever is pending, not after data, and for room exactly while bytes are pending |
| Links.StrangeMessages | src/com/antlersoft/stdio_tunnel/StdioTunnel.cpp:1088-1218 | the exits no run takes: an unknown link at the ListenSide, data for an unknown link at the ConnectSide, data that is too long; everything else about a link an end does not know, or that no sender writes, changes nothing |
| Protocol.ClosingReceives | src/com/antlersoft/stdio_tunnel/StdioTunnel.cpp:1091-1112 | a closing link discards what still arrives, answers nothing and goes exactly at the peer's LINK_CLOSE |
| Protocol.LinkPolledPreserves | src/com/antlersoft/stdio_tunnel/StdioTunnel.cpp:135-158 | a callback at either end keeps the two-ended invariant |
| Protocol.DeliverToConnectorPreserves | src/com/antlersoft/stdio_tunnel/StdioTunnel.cpp:1198-1262 | every message reaching the ConnectSide is handled without fault and keeps the invariant |
| Protocol.DeliverToListenerPreserves | src/com/antlersoft/stdio_tunnel/StdioTunnel.cpp:1118-1141 | every message reaching the ListenSide finds its link and keeps the invariant |
| Protocol.CloseAtConnector | src/com/antlersoft/stdio_tunnel/StdioTunnel.cpp:1094-1097 | a LINK_CLOSE is the last message of its link; the other end is told once, also when both close at the same time |
| Protocol.AcceptSafe | src/com/antlersoft/stdio_tunnel/StdioTunnel.cpp:1177-1184 | giving an id to a new link keeps the invariant if and only if the ListenSide has no link under it |
| Protocol.ReuseOfLiveIdMixesStreams | src/com/antlersoft/stdio_tunnel/StdioTunnel.cpp:1177-1179 | a run, step by step from an unused id, in which reusing the id of a live link gives the new link a byte of the old one |
| Protocol.StepPreserves | src/com/antlersoft/stdio_tunnel/StdioTunnel.cpp:1054-1262 | every possible step of every party keeps the two-ended invariant and stops nobody, if only unused ids are handed out |
| Protocol.WaitsForOnePacket | src/com/antlersoft/stdio_tunnel/StdioTunnel.cpp:144-148 | while both ends are open an end is unacknowledged if and only if exactly one packet of its, or the acknowledgement of it, is on its way |
| Protocol.AtMostOnePacketInFlight | src/com/antlersoft/stdio_tunnel/StdioTunnel.cpp:144-148 | in ACK mode at most one data packet, at most 4096 bytes, travels per link and direction, in every state of the link |
| Tunnel.HandshakeComplements | src/com/antlersoft/stdio_tunnel/StdioTunnel.cpp:693-731 | the connections made from the received table have the opposite role and the same ACK flag as the local ones, and every local listener has its partner, whichever remote listeners fail; which end listens is Effects.RolesFollowDirection |
| Tunnel.ConnectionsResolve | src/com/antlersoft/stdio_tunnel/StdioTunnel.cpp:630-633 | after any run past the handshake this holds, and every CMD_CONNECTION on its way names a connection its receiver has |
| Tunnel.FirstDelivery | src/com/antlersoft/stdio_tunnel/StdioTunnel.cpp:377-389 | whatever the local listeners accept before and after startHandshaking, the remote end takes the first message it is given if and only if nobody has accepted before startHandshaking and the table has at most 32767 entries; otherwise the run stops there |
| Tunnel.EarlyAcceptStopsTheRun | src/com/antlersoft/stdio_tunnel/StdioTunnel.cpp:690-693 | one listener and one connection accepted during the login are such a failing run |
| Tunnel.StepPreserves | src/com/antlersoft/stdio_tunnel/StdioTunnel.cpp:584-760 | any permitted step at either end, for any connection and link, keeps the invariant of the whole system |
| Tunnel.EveryRunIsSafe | src/com/antlersoft/stdio_tunnel/StdioTunnel.cpp:584-760 | no run looks up a missing link or connection, meets an unexpected command or length, or loses its place in the stream |
| Tunnel.FewAcceptsAreSafe | src/com/antlersoft/stdio_tunnel/StdioTunnel.cpp:1177-1179 | the same for every run in which each listener accepts at most 65536 times, with no condition on ids |
| Tunnel.EndToEndConservation | src/com/antlersoft/stdio_tunnel/StdioTunnel.cpp:135-158 | after any run, what an end wrote to a link's socket is a prefix of what the other end read from its own; and while the link is open here, even if the other end has closed, it is known there too and the rest is exactly what is buffered here followed by what is in flight |
| Tunnel.EveryLookupSucceeds | src/com/antlersoft/stdio_tunnel/StdioTunnel.cpp:1122-1125 | after any run, the message about to be handled finds its link, a request finds none, and a reply finds its link as it was made, so neither the "not found" exception nor the early return can happen |
| Tunnel.PollerHoldsOpenLinks | src/com/antlersoft/stdio_tunnel/StdioTunnel.cpp:180-185 | after any run, a link in its map is in the Poller if and only if it is not closing and, at the ListenSide, neither its LINK_CREATE nor the answer is on its way; without a link neither is |
| Tunnel.StopAndWait | src/com/antlersoft/stdio_tunnel/StdioTunnel.cpp:144-148 | after any run, while a link is open at both ends, an end is unacknowledged if and only if exactly one packet of its or the acknowledgement is on its way; in ACK mode at most 4096 bytes travel per link and direction in any state |
| Tunnel.NoLinkSleepsForever | src/com/antlersoft/stdio_tunnel/StdioTunnel.cpp:150-178 | after any run, every watched link waits for the right events, or for an acknowledgement that is on its way |
| Tunnel.QuietMeansAgreement | src/com/antlersoft/stdio_tunnel/StdioTunnel.cpp:1088-1141 | with both channels empty both ends hold the same links and all are open |
| Tunnel.DeliverIsLighter | src/com/antlersoft/stdio_tunnel/StdioTunnel.cpp:1088-1261 | delivering a message always lowers the measure, whatever it triggers |
| Tunnel.DeliveringTerminates | src/com/antlersoft/stdio_tunnel/StdioTunnel.cpp:1088-1261 | with no accepts and no bytes read from sockets, whatever sockets are written to, closed or reported meanwhile, the number of deliveries plus the measure at the end is at most the measure at the start; and with both channels empty then, both ends hold the same links, all open and in the Poller |
| Effects.RequestDoes | src/com/antlersoft/stdio_tunnel/StdioTunnel.cpp:1220-1257 | in every reachable state a link request makes a link, in the Poller, empty, acknowledged and waiting for input only, if connect() succeeds, and none otherwise; the answer says which, after an error report if the remote end fails; it and nothing else is sent, and no other link changes |
| Effects.ReplyDoes | src/com/antlersoft/stdio_tunnel/StdioTunnel.cpp:1128-1137 | a granted link enters the Poller, empty and waiting for input only, a refused one is forgotten; nothing is sent and no other link changes |
| Effects.DataDoes | src/com/antlersoft/stdio_tunnel/StdioTunnel.cpp:1076-1112 | data comes as LINK_SEND_FOR_ACK if and only if the connection is in ACK mode; at an open link it is appended to what is to be written, after which the link waits for room and not for input, and is answered by one LINK_ACK exactly in ACK mode; a closing link drops it unanswered; no other link changes |
| Effects.AckDoes | src/com/antlersoft/stdio_tunnel/StdioTunnel.cpp:171-178 | after a LINK_ACK a link in the Poller waits for input, whatever is still to be written, and for room if and only if something is; bytes, registration and reports stay, nothing is sent and no other link changes |
| Effects.CloseDoes | src/com/antlersoft/stdio_tunnel/StdioTunnel.cpp:1094-1097 | a LINK_CLOSE erases the link and is answered by one LINK_CLOSE if and only if the link was still open; no other link changes |
| Effects.NoticeDoes | src/com/antlersoft/stdio_tunnel/StdioTunnel.cpp:620-629 | an error report or the answer to the table changes no connection and sends nothing |
| Effects.TableDoes | src/com/antlersoft/stdio_tunnel/StdioTunnel.cpp:690-732 | the table makes one connection per entry, unless it is one to be listened for remotely whose listener fails, with no links and first id 501, and no others; one CMD_CREATE answers it and the local end is as before |
| Effects.AcceptDoes | src/com/antlersoft/stdio_tunnel/StdioTunnel.cpp:1169-1185 | a permitted accept makes a link under the listener's next id, empty, acknowledged and not in the Poller, with nothing read or written on record; one LINK_CREATE is sent and no other link changes |
| Effects.PermittedAcceptsAreSafe | src/com/antlersoft/stdio_tunnel/StdioTunnel.cpp:1177-1184 | of the accepts a listener can do, those permitted in runs are exactly those that keep the invariant of the whole system |
| Effects.TurnDoes | src/com/antlersoft/stdio_tunnel/StdioTunnel.cpp:135-158 | the callback of a link, in every reachable state: what is on record as read and written grows by exactly what Links.PolledExactly says, the link is as it says, exactly those packets are sent, LINK_SEND_FOR_ACK in ACK mode and LINK_SEND otherwise, and no other link changes |
| Effects.PollDoes | src/com/antlersoft/net/Poller.cpp:90-100 | poll() puts its report on every link of that end in the Poller and changes nothing else |
| Effects.RolesFollowDirection | src/com/antlersoft/stdio_tunnel/StdioTunnel.cpp:1037-1052 | in every state of every run: an entry with direction CONNECT has its ListenSide at the local end and, past the handshake, a ConnectSide at the remote end; one with LISTEN has its ConnectSide at the local end and at the remote end a ListenSide, if any; both are in ACK mode if and only if the lowest bit of the flags is set; and there are no other connections |
| Effects.WaitingStep | src/com/antlersoft/stdio_tunnel/StdioTunnel.cpp:171-178 | a link in the Poller that waits for input goes on doing so at every permitted step of anyone, unless that step takes in data for it or sends data of it in ACK mode; and then it stops |
| Effects.AcknowledgedLinkWaits | src/com/antlersoft/stdio_tunnel/StdioTunnel.cpp:171-178 | from the handling of a LINK_ACK on, over any run without such a step, the link waits for input as long as it is in the Poller, however much it has still to write |
| Effects.ReportStays | src/com/antlersoft/net/Poller.cpp:97-105 | what poll() has reported on a link stays reported through every step but the link's own turn and the next poll of that end, while the link is in the Poller |
| Messages.MessageRoundTrip | src/com/antlersoft/stdio_tunnel/StdioTunnel.cpp:620-640 | decoding a whole packet undoes encoding it for every kind of message and leaves exactly what follows |
| Messages.LinksOnTheWire | src/com/antlersoft/stdio_tunnel/StdioTunnel.cpp:1065-1113 | the bytes of one packet of each kind of link message, written out: command, connection, code and link as big-endian shorts in this order, 0x188 for LINK_SEND_FOR_ACK and 0x184 for LINK_SEND |
| Messages.TableOnTheWire | src/com/antlersoft/stdio_tunnel/StdioTunnel.cpp:381-387 | the bytes of a table of one entry, of the answer to it, of an error report and of the header in front of a packet, written out |
| Messages.NextIsReadable | src/com/antlersoft/stdio_tunnel/StdioTunnel.cpp:615-640 | in every reachable state the oldest message on its way to an end is one that end can decode in its present state and role |
| Messages.PacketAlignment | src/com/antlersoft/stdio_tunnel/StdioTunnel.cpp:687-748 | in every reachable state the oldest packet is decoded as exactly the message it carries and nothing of it stays in the queue |
| Messages.CarriedIsLong | src/com/antlersoft/stdio_tunnel/StdioTunnel.cpp:620-622 | every packet an end sends has a command word |
| Messages.NextCommand | src/com/antlersoft/stdio_tunnel/StdioTunnel.cpp:620-622 | after fill() the queue is empty or holds exactly the oldest packet not yet received, of which the command word is taken |
| Magic.MagicStringDetector.ProcessReadData | src/com/antlersoft/stdio_tunnel/StdioTunnel.cpp:333-353 | the two counters, the detection and the number of commands sent are those of the matcher run over the chunk |
| Magic.ChunksJoin | src/com/antlersoft/stdio_tunnel/StdioTunnel.cpp:333-353 | how the input is cut into chunks makes no difference |
| Magic.CountIsPrefix | src/com/antlersoft/stdio_tunnel/StdioTunnel.cpp:336-342 | the last m_recognized_count bytes are that much of the magic string, likewise for the login pattern; so a detection or a command is never false |
| Magic.CommandOnlyOnce | src/com/antlersoft/stdio_tunnel/StdioTunnel.cpp:344-351 | the remote command is sent at most once, and exactly when the whole login pattern has been counted; Magic.CommandAtPattern says when that comes about |
| Magic.NoCommandNever | src/com/antlersoft/stdio_tunnel/StdioTunnel.cpp:344-351 | without a remote command none is ever sent, for any input |
| Magic.LoginCountsUp | src/com/antlersoft/stdio_tunnel/StdioTunnel.cpp:344-351 | with a remote command, from a zero counter and until the greeting is recognised, the first k bytes of the login pattern are counted as k, for every k, and the command is sent at the last one and not before |
| Magic.CommandAtPattern | src/com/antlersoft/stdio_tunnel/StdioTunnel.cpp:344-351 | so after any input that leaves the login counter at zero, the login pattern makes the command be sent, unless the greeting has been recognised by then, and whatever follows does not make it be sent again |
| Magic.CountsUp | src/com/antlersoft/stdio_tunnel/StdioTunnel.cpp:336-340 | an occurrence that begins with the counter at zero is detected, at its last byte and not before |
| Magic.MissedOccurrence | src/com/antlersoft/stdio_tunnel/StdioTunnel.cpp:341-343 | an occurrence that begins with any other counter is missed |
| Magic.GreetingAfterNoise | src/com/antlersoft/stdio_tunnel/StdioTunnel.cpp:335-343 | after any noise the greeting is recognised if and only if the noise left the counter at zero, and never before its end |
| Magic.LineEndResets | src/com/antlersoft/stdio_tunnel/StdioTunnel.cpp:341-343 | noise ending in a byte foreign to the magic string, such as a line end, leaves the counter at zero |
| Magic.CleanNoiseIsHarmless | src/com/antlersoft/stdio_tunnel/StdioTunnel.cpp:335-343 | if no non-empty proper beginning of the greeting ends the noise, the counter is at zero after it and the greeting is recognised |
| Magic.SHidesGreeting | src/com/antlersoft/stdio_tunnel/StdioTunnel.cpp:341-343 | one letter S in front of the greeting hides it |
| Handshake.NextIsOrderly | src/com/antlersoft/stdio_tunnel/StdioTunnel.cpp:586-640 | every step of the far side and the local end keeps the order of the bytes: absorbed, framed, on their way |
| Handshake.FramesStartAligned | src/com/antlersoft/stdio_tunnel/StdioTunnel.cpp:333-340 | if the noise is no greeting, detection happens exactly when all of the greeting is read after a zero counter, and the ReadStream starts at the first frame byte |
| Handshake.HandshakeCausality | src/com/antlersoft/stdio_tunnel/StdioTunnel.cpp:665-731 | in no run is a frame byte absorbed into the pass-through buffer |
| Handshake.FramesGetThrough | src/com/antlersoft/stdio_tunnel/StdioTunnel.cpp:586-640 | there are such runs: after any noise that leaves the counter at zero, and the greeting, the frames the remote end writes reach the ReadStream byte for byte |
| Handshake.AwaitGreeting | src/com/antlersoft/stdio_tunnel/StdioTunnel.cpp:588-592 | what the far side has written, noise and then the greeting, is read as the kernel gives it; handshaking starts if and only if all of it has been read and the noise has left the counter at zero, so that nothing is left over for the ReadStream; with enough non-empty reads all of it is read |
| Handshake.Serialize | src/com/antlersoft/stdio_tunnel/StdioTunnel.cpp:88-95 | appends the encoding of the specification to the write queue |
| Handshake.Deserialize | src/com/antlersoft/stdio_tunnel/StdioTunnel.cpp:79-86 | takes exactly one specification off the read queue |
| Handshake.StartHandshaking | src/com/antlersoft/stdio_tunnel/StdioTunnel.cpp:381-387 | the loop over the entries sends the whole table as one packet, and changes nothing in the Poller but the writer's entry |
| Tunnel.StartIsInit | src/com/antlersoft/stdio_tunnel/StdioTunnel.cpp:524-529 | whatever is asked for on the command line, the connections made by start() and the table sent are a state from which the runs above begin; which connections these are is Moves.RequestedExactly |
| Moves.RequestedExactly | src/com/antlersoft/stdio_tunnel/StdioTunnel.cpp:524-529 | of the list asked for, entry i gives a connection under id i, as asked for, if and only if it is not one to be listened for locally (CONNECT) whose listener fails; and there are no others |
| Ends.TunnelEnd.MakeConnections | src/com/antlersoft/stdio_tunnel/StdioTunnel.cpp:524-529 | start() leaves in the connection map, for every entry asked for, a connection under its number with its specification, if and only if it is not one to be listened for locally whose listener fails, and no others; each is a ListenSide if and only if its direction is CONNECT, and in ACK mode if and only if its flags are odd; they are the connections of Tunnel.Started |
| Ends.TunnelEnd.Entries | src/com/antlersoft/stdio_tunnel/StdioTunnel.cpp:383-386 | the walk over the connection map in the order of its keys gives exactly the entries the connections were made from |
| Ends.TunnelEnd.StartHandshaking | src/com/antlersoft/stdio_tunnel/StdioTunnel.cpp:381-387 | what is in the connection map goes into one packet, and the end is in the state in which the runs of Tunnel begin |
| Ends.TunnelEnd.ReadTable | src/com/antlersoft/stdio_tunnel/StdioTunnel.cpp:693-728 | the receiving loop reads exactly the decoded table, leaves what follows, and makes of it the connections Tunnel.MakeConns says, each with the specification of an entry under its id |
| Ends.TunnelEnd.CreateCommand | src/com/antlersoft/stdio_tunnel/StdioTunnel.cpp:690-732 | after the table the remote end is connected, with connections as the entries specify them, and has sent one CMD_CREATE packet |
| Ends.TunnelEnd.ProcessMessage | src/com/antlersoft/stdio_tunnel/StdioTunnel.cpp:630-633 | a message changes the one link it names, as Links.Receive says; every other link of every connection stays the object and the value it is, though all share one Poller and one writer; and the Poller still holds only links in the maps |
| Ends.TunnelEnd.Handle | src/com/antlersoft/stdio_tunnel/StdioTunnel.cpp:620-640 | the branches on the command word, for both ends: state, connections, packets sent and faults are those of the decoded message, whose packet is used up |
| Ends.TunnelEnd.Deliver | src/com/antlersoft/stdio_tunnel/StdioTunnel.cpp:687-748 | in every reachable state the read callback meets no fault, leaves the read queue empty, takes exactly the bytes ReadStream.Fill takes, and exactly if they complete a packet takes the delivery step of Tunnel, in connections, answers and channel; a link it makes is at the connected socket; connections and their specifications change only by the table |
| Ends.TunnelEnd.Accept | src/com/antlersoft/stdio_tunnel/StdioTunnel.cpp:1169-1185 | an accept takes exactly the accept step of Tunnel, and the new link is at the accepted socket |
| Ends.TunnelEnd.PollLink | src/com/antlersoft/stdio_tunnel/StdioTunnel.cpp:135-158 | the callback of a link the round has still to visit takes exactly the step of Tunnel at that link with the same read result, writing some of what is buffered if the kernel takes any: link, packets and socket, and nothing at any other link of the end |
| Ends.TunnelEnd.Poll | src/com/antlersoft/net/Poller.cpp:90-100 | poll() with any answers takes the poll step of Tunnel: the report on every link in the Poller has input if and only if the answer for its own entry has and it is armed for it, room likewise, and an error if and only if the answer has; so do all other entries, whose order and armed events stay; and all links are to be visited then |
| Ends.TunnelEnd.PlacesApart | src/com/antlersoft/net/Poller.cpp:90-100 | two links never share an entry, so each gets its own answer |
| Ends.TunnelEnd.WriteReady | src/com/antlersoft/stdio_tunnel/StdioTunnel.cpp:641-646 | the write callback moves exactly as many bytes of the oldest packet as the kernel takes and changes no connection, link or answer |
| Ends.TunnelEnd.HeldLinksAreAlive | src/com/antlersoft/stdio_tunnel/StdioTunnel.cpp:180-185 | every link the Poller holds is in its connection's link map, open, held once and at its own socket: no entry refers to an erased link, in any state the ends reach |
| Ends.TunnelEnd.ReadyIsDue | src/com/antlersoft/net/Poller.cpp:101-104 | what the Poller has to report on a link the round has still to visit is the report Tunnel has for it, for every link and in both directions |
| Session.Begin | src/com/antlersoft/stdio_tunnel/StdioTunnel.cpp:524-592 | start(), the pass-through state and startHandshaking: the connections asked for are made, each in the role its direction says (Ends.TunnelEnd.MakeConnections); if the greeting is recognised both ends are, the table sent and nothing else, in an initial state of Tunnel; it is, once all has been read, if and only if the noise left the counter at zero |
| Session.Act | src/com/antlersoft/net/Poller.cpp:101-107 | one event at one end does what it says, as an action of Tunnel with the same data: an accept if and only if the connection listens and its next id is free; a poll whose reports are the answers at the links' own entries, cut down to what they wait for; the turn of a link with this read result if and only if the round has input, room or an error to report on it; a delivery if and only if the bytes read complete a packet; none for a write; the bytes moved are exactly those the kernel lets move; and the local end's specifications stay |
| Session.Run | src/com/antlersoft/net/Poller.cpp:111-121 | for any events at both ends in any order: each does what it says (Session.Act), none being dropped unless it cannot happen; together they are a permitted run of Tunnel; both byte streams are aligned at every moment; the objects are where that run leads; and the remote end's specifications are what the table makes of the local ones, which never change |
| Session.TableAgrees | src/com/antlersoft/stdio_tunnel/StdioTunnel.cpp:693-728 | reading the table leaves every connection of the remote end with the specification the local end has under that id, its integers passed through short |
| Session.InputIsRead | src/com/antlersoft/stdio_tunnel/StdioTunnel.cpp:135-148 | if poll() answers readable for the entry of a link armed for input, then the next turn of that link in the round with bytes to read, while it stays in the Poller, takes the callback, whatever happens at both ends in between, and what has been read there grows by exactly those bytes |
| Session.ReadByIs | src/com/antlersoft/stdio_tunnel/StdioTunnel.cpp:135-148 | what Tunnel has on record as read from a socket is, after any run, what the events of that run have read there |
| Session.SocketsConserved | src/com/antlersoft/stdio_tunnel/StdioTunnel.cpp:135-158 | after such a run, for every link an end's Poller holds, the data the events have read from the link's socket at the other end is what this socket was given, then what is buffered, then the data of messages on their way; those are the packets sent and not received, whose bytes are in the writer, the pipe and the reader |
| Session.Tunnel | src/com/antlersoft/stdio_tunnel/StdioTunnel.cpp:524-760 | from the command line on, with both ends made afresh, for any noise before the greeting and any cut of the bytes: the greeting is recognised, once read, if and only if the noise left the counter at zero; and then the whole program keeps all of this for any events, with all connections asked for made and in place at both ends (Session.AllInPlace) |
| Session.AllInPlace | src/com/antlersoft/stdio_tunnel/StdioTunnel.cpp:524-529 | after any run begun with the connections asked for, entry i is in neither map if it is to be listened for locally and its listener failed, and otherwise in the local one under id i with the ListenSide at the end its direction names; nothing else is in either map |
| Moves.DeliverIs | src/com/antlersoft/stdio_tunnel/StdioTunnel.cpp:687-748 | what Tunnel lets a delivery do is what the message means for the receiving end: no fault, its new connections, its answers, and the rest of both channels |
| Moves.FacedReceive | src/com/antlersoft/stdio_tunnel/StdioTunnel.cpp:1088-1141 | no handler looks at what an entry has to report, so what is left over of a round cannot influence it |
| Moves.DeliverBooked | src/com/antlersoft/stdio_tunnel/StdioTunnel.cpp:1198-1262 | handling a message writes to no socket, and a link made by a request starts with nothing written and nothing recorded |
| Moves.StepReads | src/com/antlersoft/stdio_tunnel/StdioTunnel.cpp:135-148 | what Tunnel records as read at an end of a link grows by exactly the data of each read of that link reported readable, and begins anew when the id is handed out |
| BlockList.FlatAt | src/microsocks/sblist.c:43-45 | item i occupies the bytes from i * itemsize on |
| BlockList.SbList.Get | src/microsocks/sblist.c:47-50 | the item at an index below count, otherwise none |
| BlockList.SbList.Set | src/microsocks/sblist.c:52-56 | replaces that item only; refused at or beyond count |
| BlockList.SbList.GrowIfNeeded | src/microsocks/sblist.c:58-67 | keeps the list and makes room, unless it is full and realloc fails |
| BlockList.SbList.Add | src/microsocks/sblist.c:69-73 | appends the item, or changes nothing if there is no memory |
| BlockList.SbList.Delete | src/microsocks/sblist_delete.c:4-9 | removes that item by an overlapping move and keeps the order of the others; out of range it does nothing |
| BlockList.Collect | src/com/antlersoft/stdio_tunnel/StdioTunnel.cpp:828-838 | ends with exactly the threads not done, in order, having joined the others, each looked at once; see BlockList.KeptUnlessDone |
| BlockList.NothingLost | src/com/antlersoft/stdio_tunnel/StdioTunnel.cpp:828-838 | kept and joined threads together are the threads there were |
| BlockList.HowMany | src/com/antlersoft/stdio_tunnel/StdioTunnel.cpp:828-838 | as many are kept as are not done, and as many joined as are done |
| BlockList.JoinedIfDone | src/com/antlersoft/stdio_tunnel/StdioTunnel.cpp:828-838 | a thread that is done is joined, after exactly those before it that are done |
| BlockList.KeptUnlessDone | src/com/antlersoft/stdio_tunnel/StdioTunnel.cpp:828-838 | a thread that is not done is kept, behind exactly those before it that are not done |

Where code and intent differ, the model follows the code. The magic string matcher does not try the byte that
breaks a match as the start of a new one (`Magic.SHidesGreeting`). A table of more than 32767 connections
loses its tail (`Codec.TablePrefix`). A port that is a non-zero multiple of 65536 with an empty host turns
into a SOCKS5 request on the way (`Codec.WireImageKeeps`). In `Magic` and `Handshake` the byte sequence of
the magic string is spelled out as numbers.

## Left out

- Sockets, bind, accept, connect, name lookup, fcntl, fork, forkpty, termios, signals and daemon mode: foreign calls; their results are parameters (counts, flags, sockets, error texts).
- SOCKS5 request handling, the copy loop and its threads, and the special treatment of a SOCKS5 entry while the table is read (starting the server, the exception for a second one, the new host and port).
- CMD_SHUTDOWN: it is only sent after one has been received, so it never occurs.
- Command line, usage text, tracing and the select-based replacement of poll.
- Host-width effects of the casts to long and size_t on the header.
- What the matcher does after its first detection within one read.
- Poll bits: POLLERR, POLLHUP and POLLNVAL are one flag, since the code never tells them apart.
- Inheritance: a ListenSide or ConnectSide is a TunnelConnection with a flag, a link's poll callback is a method of its connection, and StdioTunnelLocal and StdioTunnelRemote are one class with a flag; MagicStringDetector is modelled apart from the SockBuffer it extends.
- The pass-through state of the local end apart from the matcher and the order of the bytes, and the remote end's shutdown when its output closes.
- Ends.TunnelEnd.StartHandshaking: what else the source does there (state, clearing of the pass-through write buffer, removal of stdin from the Poller, terminal mode, daemon) is not modelled; nor are the end's own Poller entries other than the writer's, and those of listeners.
- Handshake.StartHandshaking: models the writing of the table, not the clearing of the write buffer before it; takes the entries as a parameter; Ends.TunnelEnd.StartHandshaking passes those of the connection map.
- Session.Run: takes the callbacks of one round in any order instead of the order of the Poller's vector, which covers that order; the loop itself is Polling.Poller.PollOnce.
- Links.Visited clears an entry's reported events after its callback; the source leaves them until poll() overwrites them. Ends.TunnelEnd.due says which links the round has still to visit, and Ends.TunnelEnd.IsIn compares the others with their reports cleared.
- Endpoint.TunnelConnection.ListenMessage: requires that a reply, granted or refused, arrives only for a link that is open and not yet in the Poller, as otherwise a second entry or an entry of an erased link would come about; Moves.ReceiverIsReady proves that of every reachable state.
- BlockList.SbList.constructor: excludes an item size above 4096 without a given block length, for which the C code computes blocks of no items and later writes past its array.
- Endpoint.TunnelConnection.ConnectMessage: requires, like ListenMessage, a whole message in the queue; Messages.PacketAlignment proves that of every run.
- The text of an error message is not kept in Tunnel, only that it was sent.
- Delivery of bytes that are buffered when a link closes: the code discards them.
