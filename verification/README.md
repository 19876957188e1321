# mqtt-rust-scion: a verified model

mqtt-rust-scion carries MQTT over SCION. A proxy sits next to an MQTT broker and serves clients on the
SCION network in one of two modes: it ends their QUIC connections and relays stream 0 to the broker over
TCP, or it relays their datagrams to the broker over UDP/IP. A client library speaks MQTT 5.0 over QUIC.

This project models the concurrent core of both programs and proves what holds in all their runs.
`dafny verify dfyconfig.toml` checks it.

| file | what it models |
|---|---|
| `Token.dfy` | the address-validation token: minting, validating, and what the byte layout can and cannot tell apart |
| `Outbound.dfy` | the bounded channel from the connection tasks to the main loop, with its first-come-first-served line of waiting senders |
| `Manager.dfy` | the connection manager as an interleaved step system: main loop, table behind its lock, one spawned connection task per entry; generic in the key type |
| `Safety.dfy`, `Progress.dfy`, `History.dfy`, `Delivery.dfy` | its invariant and what follows; why it cannot deadlock and must come to rest; what its log says about every session; that nothing is lost on the way out |
| `Shared.dfy`, `Proxy.dfy` | the main loop itself, imperative, in the order of the program, refining the step system |
| `Retry.dfy`, `Handshake.dfy` | QUIC mode: stateless Retry (RFC 9000 sections 8.1.2 and 17.2.5), and one conforming client on a network that loses, repeats and reorders |
| `UdpMode.dfy`, `UdpRelay.dfy`, `UdpSystem.dfy` | UDP mode: sessions keyed by SCION address, the datagram relay of one session, and the manager with all its relays as one system |
| `QuicRelay.dfy`, `QuicSession.dfy`, `QuicSystem.dfy` | the relay of one QUIC connection, with its nested drain loops, its send loops and the certificate gate; what it is fed and what that says; and the manager with all its relays as one system |
| `MqttConnection.dfy`, `MqttSystem.dfy`, `MqttSafety.dfy`, `MqttRequests.dfy`, `MqttClient.dfy` | the MQTT client: the event reducer, the two actors as a step system, what holds in its runs, what becomes of its requests, and the calls of the API |
| `MqttReconnect.dfy` | several `connect` calls of one client, which share a notification, and the requests between them |
| `Pipe.dfy` | client, QUIC and proxy composed, in both directions |

**How concurrency is modelled.** An actor's code between two suspension points is one step; a run is any
interleaving of enabled steps. The table's lock is explicit: taking it and leaving the critical section are
separate steps. The imperative methods of the main loop and of the client's API take the schedules of the
other actors as arguments and run them at every suspension point, so what they ensure holds for every
schedule. Select branches and what the outside world does are arguments in the same way. A wait on the broker
outside a select is a phase of its own, in which a task sees no packet and no cancellation. In `UdpSystem.dfy`
and `QuicSystem.dfy` a task takes, sends and finishes only as its own loop says; what those systems can do is
exactly what the manager alone can do with packets that a loop can build (`ComposedIff` in both).

**Histories.** Fields that the program does not keep, such as `log`, `socket`, `taken`, `offered`, `discarded`,
`born`, `gone`, `wire`, `dropped`, `abandoned`, `told`, `trace` and `arrived0`, are there to state properties and
never decide a branch; each is named as history where it is declared.

**Hypotheses.** HMAC is an arbitrary function to 32-byte tags. Collision-freedom and unforgeability are
assumptions on one run, made where they are used: `Handshake.Foreign` and `Retry.Unforged`. That a client
reads in a Retry or Version Negotiation packet what the library wrote into it is one on the codec
(`Retry.Codec`). The QUIC library is asked for: streams delivered in order, reads that are non-empty while
there is data, a reset stream that reports its error once and brings nothing more, nothing received after
either side has closed, a `close` that fails if the connection is closing already, and no finished handshake
before the second packet. The MQTT library and the broker are asked for the contracts in `MqttSystem.dfy` and
`MqttReconnect.dfy`: sending a packet asks for that packet, incoming bytes provoke no requests of the client,
a packet id in use is not handed out, and each use is acknowledged at most once; where it is used, that a
connection gets one CONNACK, in answer to its CONNECT. In `QuicSystem.dfy` the library's work on a connection
is an arbitrary function of the packets it was fed.

**Where code and documentation differ, the code is followed.** The repository's README says that in
UdpEndpoint mode the proxy forwards packets between client and broker; the datagram that creates a session is
not forwarded (src/proxy/mod.rs:443-489), see `History.SessionInOrder`. Datagrams for the client over 1200 bytes
are cut (`UdpRelay.ReplyIntactIffItFits`). docs/PYTHON_BINDINGS.md:172-188 promises an error when a subscription
or a publication fails; reason codes are not looked at (src/client/mod.rs:483-487, 488-498, 534-542), see below. A
request to close drops the rest of its event list (src/client/mod.rs:555-558).

**Promises that fail, and when exactly they hold.**

- A token is meant to stand for one address and one id. It does within one address family
  (`Token.SameFamilyInjective`); across families it does not, in exactly the cases of
  `Token.CrossFamilyAmbiguity` and `Token.CrossFamilyValidation`.
- Bytes handed to `stream_send` are meant to arrive. The number taken is ignored, so they all arrive exactly
  when every send found room (`Pipe.NothingLostIffAllWhole`), and arrive as a prefix, whatever they are,
  exactly when nothing was taken after a send that was cut short (`Pipe.PrefixIffGapless`).
- A new request is not meant to replace a pending one. It can come to that, without any further call being
  abandoned, exactly when the connection is alive and a request its caller has given up is still in the
  channel or pending (`MqttRequests.ReplacedIffOrphan`). The request replaced is always that of an abandoned
  call (`MqttRequests.OnlyAbandonedIsReplaced`), and so none is if none is abandoned
  (`MqttRequests.OneOutstanding`).
- `subscribe` and `publish` that return Ok are meant to have succeeded. They return Ok on a refusal as well
  (`MqttRequests.CallCompletes`), so they have exactly if the one acknowledgement they got was not a refusal
  (`MqttRequests.OkIsGrantedOrRefused`).
- The same holds of `connect`: it returns Ok on a refusal (`MqttRequests.ConnectIgnoresReason`), so it has succeeded
  exactly if the one CONNACK it was told of was not one (`MqttRequests.ConnectIsAcceptedOrRefused`).
- `connect` is meant to return when its own connection has been accepted. A later `connect` can return before
  any CONNACK on its own connection exactly when a permit is left over or an older connection that still runs
  owes its CONNACK (`MqttReconnect.MisledIff`); without abandoned calls that never is the case
  (`MqttReconnect.EveryConnectSawItsConnack`).
- A request is meant to go to a connection that has been accepted. It does if no `connect` is abandoned
  (`MqttReconnect.RequestsFollowConnack`); after an abandoned one it can go to a connection that has not even sent
  CONNECT (`MqttReconnect.RequestBeforeConnect`), exactly while the client counts as connected and its newest
  connection runs and has handled no CONNACK (`MqttReconnect.HandEarlyIff`).
- What a session in UDP mode sends to its client is meant to come from the broker. The sender is not looked at
  (`UdpRelay.StrangerReachesClient`), so it does exactly if nobody else writes to the session's socket
  (`UdpRelay.ClientHearsBrokerIff`, `UdpSystem.BrokerReachesSocketIff`).

## Model

| member | source | states |
|---|---|---|
| Token.MintToken | src/proxy/mod.rs:493-510 | the token is the 15 bytes of the prefix, IP octets, id and the 32-byte tag over them, and validates to that id for the same source |
| Token.ValidateInvertsMint | src/proxy/mod.rs:512-549 | validation yields an id if and only if the token is byte for byte the one minted for that id and the source's IP: any length, both families |
| Token.ValidationBindsIpNotPort | src/proxy/mod.rs:525-534 | of two sources of one family, a token valid for one is valid for the other exactly if the IPs agree; the port never matters |
| Token.SameFamilyInjective | src/proxy/mod.rs:496-507 | within one family tokens are equal exactly if address and id are |
| Token.TokenDeterminesData | src/proxy/mod.rs:506-507 | tokens are equal exactly if the tagged data are |
| Token.CrossFamilyAmbiguity | src/proxy/mod.rs:496-504 | the only ambiguity across families: IPv6 octets are IPv4 octets plus 12 bytes of the id, the rest is the other id |
| Token.TaggedDataMeaning | src/proxy/mod.rs:496-504 | whatever the families, equal tagged data mean equal address and id, or that overlap |
| Token.CrossFamilyValidation | src/proxy/mod.rs:525-548 | an IPv4 token is accepted from an IPv6 source under exactly that condition, and for the shortened id |
| Outbound.PositionAfterReceive | src/proxy/mod.rs:172-175 | each message received moves a waiting sender one place forward, or gives the first one a slot |
| Outbound.PositionAfterOthers | src/proxy/mod.rs:248-257 | nothing another sender does changes a waiter's place |
| Safety.ReachableInvariant | src/proxy/mod.rs:203-209 | in every state of every run: table and live tasks correspond, lock and actors agree, channels are within capacity, cancels are stale |
| Safety.StepKeepsInvariant | src/proxy/mod.rs:382-402 | every single step of every actor keeps that invariant |
| Safety.InsertNeverOverwrites | src/proxy/mod.rs:382-388 | an insert adds one key and leaves every entry in place, although lookup and insert lock separately |
| Safety.RemoveTakesOwnEntry | src/proxy/mod.rs:401-401 | the remove at the end of a connection deletes the entry made for it, and no other |
| Safety.EntriesAreLiveTasks | src/proxy/mod.rs:391-402 | entry and live task correspond one to one; an entry's receiver is alive and its task not cancelled |
| Safety.ClosedArmIsStale | src/proxy/mod.rs:224-230 | a closed channel is found only for an entry already gone, and the cancel touches no other task |
| Safety.LookupRoutes | src/proxy/mod.rs:203-209 | a lookup finds exactly the live tasks with one of the datagram's two names, the first name first |
| Safety.TrySendOutcome | src/proxy/mod.rs:210-231 | a packet for a task is queued last while fewer than 200 are queued, and lost otherwise; a closed channel cancels the task |
| Safety.ChannelsHold | src/proxy/mod.rs:94-95 | in every run the channels hold at most 10000 and 200 packets |
| Progress.MainNeverWaitsForTasks | src/proxy/mod.rs:203-209 | mid-datagram, and whatever it decides, the main loop can move now, or after one release of the lock that its holder can always make |
| Progress.MainComesHome | src/proxy/mod.rs:147-177 | each of its own steps brings it nearer its select, at most six in all, and no task sets it back |
| Progress.TaskNeverStuck | src/proxy/connection_mode_quic.rs:201-213 | phase by phase, all a task can wait for: its spawn, a place in the line, the broker, or the lock, whose holder can leave with its next step |
| Progress.AdmissionBound | src/proxy/connection_mode_quic.rs:72-72 | in every run a sender at place i is i - n places from a slot after n receives, and has one after i + 1 |
| Progress.AdmissionSchedule | src/proxy/connection_mode_udp.rs:106-106 | in any mode, from every state, a schedule that the mode allows and that needs no outside event admits that sender, of at most 12 + 2(i + 1) steps |
| Progress.ComesToRest | src/proxy/mod.rs:393-402 | in any mode, from every state, such a schedule of at most 6 + 3 tasks + 2 line steps ends with the main loop at its select, the lock free, the line empty, and exactly the tasks that were over dropped and out of the table |
| Progress.EveryRunComesToRest | src/proxy/mod.rs:147-177 | in any mode every run of the proxy's own steps, in any order, is at most 6 + 3 tasks + queue + 3 line steps long, and one that cannot go on has brought rest, sent everything and admitted everyone in line |
| Progress.NothingLeftIff | src/proxy/mod.rs:147-177 | the proxy has no step of its own left exactly when it is at rest with nothing to send |
| UdpMode.UdpAdmission | src/proxy/connection_mode_udp.rs:106-106 | the first of these in UDP mode, where an unknown source always gets a session |
| UdpMode.UdpComesToRest | src/proxy/mod.rs:479-488 | the second in UDP mode |
| UdpMode.UdpRunsComeToRest | src/proxy/mod.rs:479-488 | and every run of its own steps does so in UDP mode |
| Retry.QuicAdmission | src/proxy/connection_mode_quic.rs:72-72 | the first in QUIC mode, whatever the library says of the datagrams |
| Retry.QuicComesToRest | src/proxy/mod.rs:393-402 | the second in QUIC mode |
| Retry.QuicRunsComeToRest | src/proxy/mod.rs:393-402 | and every run of its own steps does so in QUIC mode |
| History.SessionInOrder | src/proxy/mod.rs:443-489 | what a session took, has queued or left in its channel at its end is an ordered part of the datagrams naming its key after the one that created it |
| History.SessionConservation | src/proxy/mod.rs:421-442 | every datagram routed to a session was taken, is queued, met a full or closed channel, or was lost with the channel at the end; before the end nothing is lost that way |
| History.SessionGetsItsDatagrams | src/proxy/mod.rs:416-427 | from birth until its entry is removed a session is offered every datagram whose first name is its key |
| History.RunKeepsLedger | src/proxy/mod.rs:210-231 | log, channels and tasks agree after every run |
| Delivery.NothingLostOnTheWayOut | src/proxy/mod.rs:94-95 | in every run all a task ever sent is on the socket, queued or in line, once each and in order |
| Delivery.StepKeepsDelivery | src/proxy/connection_mode_quic.rs:201-213 | every single step of every actor keeps that, for all tasks together |
| Shared.Connections.Interleave | src/proxy/mod.rs:393-402 | any schedule of the tasks at a suspension point extends the run by task steps only, and leaves the state that the schedule says |
| Shared.ScheduledFollows | src/proxy/mod.rs:393-402 | whatever the tasks can do by themselves, in any order, is the outcome of a schedule |
| Shared.Connections.LockTable | src/proxy/mod.rs:204-204 | waiting for the lock ends with the main loop holding it, whatever the tasks did meanwhile |
| Shared.Connections.Insert | src/proxy/mod.rs:382-388 | the entry is added under a key that was free |
| Proxy.Proxy.HandleUdpPacketModeQuic | src/proxy/mod.rs:180-407 | one turn: an unreadable datagram changes nothing; another adds exactly one record, given to the connection that the lookup under the id or the first 20 bytes of its tag finds, or with the decided outcome; it fails exactly if an answer is due that cannot be built |
| Proxy.Proxy.HandleNewConnection | src/proxy/mod.rs:232-402 | the outcome for an unmatched Initial packet is the decided one: negotiation, Retry, drop or new connection; it fails exactly if that is an answer and cannot be built, and leaves everything as it was |
| Proxy.Proxy.HandleUdpPacketModeUdp | src/proxy/mod.rs:409-491 | the same for UDP mode: the datagram is given to the session of its source, or opens one exactly if there is none |
| Proxy.Proxy.TurnQuic | src/proxy/mod.rs:147-177 | each branch of the select does what it is for; the first packet of the outbound queue goes to the socket; an error exactly for a packet that cannot be sent or a due answer that cannot be built |
| Proxy.Proxy.TurnUdp | src/proxy/mod.rs:147-177 | the same for UDP mode, whose handler has no errors |
| Proxy.Proxy.RunQuic | src/proxy/mod.rs:147-178 | for any sequence of events and schedules the loop takes these turns, state by state, through reachable states of QUIC mode only, and ends early exactly at the first turn that is an error; a complete run has one record more for every readable datagram, in order, and n turns with the outbound channel ready send the first n packets queued |
| Proxy.Proxy.RunUdp | src/proxy/mod.rs:147-178 | the same for UDP mode |
| Proxy.QuicRecordsEach | src/proxy/mod.rs:149-169 | over all the turns of a complete run every readable datagram gets exactly one record, in order |
| Proxy.CourseForwards | src/proxy/mod.rs:172-175 | n turns in which the outbound channel is ready send the first n packets of its queue, in order, and leave the rest |
| Retry.AnswersAreDue | src/proxy/mod.rs:232-305 | in every run, of the datagrams that match no connection exactly the Initials of an unsupported version or without token are answered, from the proxy to the sender; a negotiation names both ids; a Retry names both ids, the first 20 bytes of the tag over the destination id as the new id, and a token valid for that address and destination id |
| Retry.AcceptedOnMintedToken | src/proxy/mod.rs:307-343 | every connection goes back to an Initial with a 20-byte id, its key, and the token minted for the source IP and the original id it was accepted with |
| Retry.AcceptedAfterRetry | src/proxy/mod.rs:272-305 | with unforged tags it was preceded by a Retry for the same IP and original id, or, in a log of both families, for one that overlaps with them |
| Retry.OnlyCreateAddsState | src/proxy/mod.rs:232-319 | Retry, negotiation and drops leave table and tasks alone; a task is added exactly for a usable Initial with a valid token and 20-byte id |
| Handshake.HandshakeIdentity | src/proxy/mod.rs:321-388 | a connection is keyed by H(d0) exactly if a datagram the client sent opened it, and then it was accepted with original id d0; at most one is in the table |
| Handshake.HandshakeRouting | src/proxy/mod.rs:198-231 | while it is there, datagrams addressed to d0 or H(d0) and only those go to it; without it they go nowhere |
| Handshake.RetryTakenIsOwn | src/proxy/mod.rs:272-305 | the Retry packet that reached the client and that it reads its new id and token from was made for it: they are H(d0) and the token for its address and d0 |
| Handshake.CourseKeepsWorld | src/proxy/mod.rs:261-305 | a conforming client, which takes its new id and token from a Retry packet it read, only ever sends the two kinds of Initial and addresses the two ids, under any loss, repetition and reordering |
| Handshake.HandshakeCompletes | src/proxy/mod.rs:272-388 | if both Initials and the Retry arrive and the library accepts, the connection enters the table under H(d0) |
| Handshake.ReopensAfterRemoval | src/proxy/mod.rs:307-388 | the token does not expire: once the entry is gone a late copy of the second Initial opens a connection again |
| UdpMode.QueuedFromKey | src/proxy/mod.rs:416-427 | every packet ever put into a session's channel was sent from the session's key |
| UdpMode.TakenInOrder | src/proxy/mod.rs:421-442 | a session takes its own client's later datagrams in order |
| UdpMode.EveryDatagramAccounted | src/proxy/mod.rs:421-442 | while a session is in the table its client's later datagrams are exactly those taken, queued or turned away |
| UdpRelay.Session.ReceiveFrom | src/proxy/connection_mode_udp.rs:85-100 | the buffer's front holds the datagram, or its first 1200 bytes; the rest of the buffer stays |
| UdpRelay.Session.HandleClientConnection | src/proxy/connection_mode_udp.rs:41-118 | the loop computes the reference fold of its events, buffer reuse included |
| UdpRelay.SessionIsFaithful | src/proxy/connection_mode_udp.rs:65-106 | with one source the address never changes, the broker gets the packets taken in order and unaltered but for one lost at the end, replies go to that client in order |
| UdpRelay.ReplyIntactIffItFits | src/proxy/connection_mode_udp.rs:85-104 | a datagram read from the session's socket comes to the client byte for byte exactly if it has at most 1200 bytes |
| UdpRelay.EndsIff | src/proxy/connection_mode_udp.rs:44-116 | a session ends exactly at its timeout, at a closed channel, at a cancel or at a send that fails; a failing read does not end it |
| UdpRelay.AnswersLastSource | src/proxy/connection_mode_udp.rs:65-75 | whatever its channel brings, a session answers to the source of the last packet taken |
| UdpSystem.SessionEndToEnd | src/proxy/connection_mode_udp.rs:57-106 | in every course of manager and loops the broker gets an ordered part of that client's later payloads and nobody else is answered |
| UdpRelay.ClientHearsBrokerIff | src/proxy/connection_mode_udp.rs:85-106 | what the loop sends to its client are the broker's datagrams exactly if nobody else wrote to the task's unconnected socket |
| UdpRelay.StrangerReachesClient | src/proxy/connection_mode_udp.rs:85-98 | anybody's datagram on that socket goes to the client just like the broker's |
| UdpSystem.CourseKeepsWorld | src/proxy/mod.rs:479-488 | manager and session loops together: in every course what a loop took is what its channel gave, and what it sent is what the way out was given |
| UdpSystem.ComposedIff | src/proxy/mod.rs:463-488 | these courses are exactly the manager's runs in which every packet sent is one that a session's loop can build |
| UdpSystem.RepliesReachSocket | src/proxy/connection_mode_udp.rs:100-106 | in every course what leaves the socket for a session are the first of the datagrams it read, whoever sent them, in order, each addressed to the session's client |
| UdpSystem.BrokerReachesSocketIff | src/proxy/connection_mode_udp.rs:85-106 | all that left or is on its way are the broker's datagrams exactly if nobody else wrote to the socket |
| UdpSystem.SessionConserves | src/proxy/connection_mode_udp.rs:57-82 | in every course routed equals forwarded plus queued plus turned away plus at most one in hand plus what was in the channel when the session ended |
| QuicRelay.QuicConn.Recv | src/proxy/connection_mode_quic.rs:234-235 | contract of the library: bytes are appended per stream in order, a reset discards the unread and all that follows; nothing comes in once either side has closed |
| QuicRelay.QuicConn.StreamRecv | src/proxy/connection_mode_quic.rs:252-252 | contract of the library: a read takes some next bytes or only the end mark, and the measure drops; a reset stream gives an error once and is readable no more |
| QuicRelay.QuicConn.Readable | src/proxy/connection_mode_quic.rs:250-250 | contract of the library: every readable stream once, in any order |
| QuicRelay.TcpStream.WriteAll | src/proxy/connection_mode_quic.rs:257-261 | the whole buffer is written, or a first part and an error |
| QuicRelay.Connection.DrainStream | src/proxy/connection_mode_quic.rs:252-265 | terminates for any buffered data; stream 0 goes to the broker in order, other streams change nothing seen outside; the stream is empty after |
| QuicRelay.Connection.DrainAll | src/proxy/connection_mode_quic.rs:248-267 | every readable stream is empty after, the broker has all of stream 0, whatever the order of streams; the broker connection is never missing here |
| QuicRelay.Connection.ProcessUdpPacket | src/proxy/connection_mode_quic.rs:220-270 | agrees with the reference that knows neither chunks nor other streams; nothing is relayed without a certificate |
| QuicRelay.Connection.ProcessTcpRead | src/proxy/connection_mode_quic.rs:139-158 | the first bytes of what was there, 1200 at most and as many as there is room for, go to stream 0 unchanged; end of stream closes, which fails if the connection is closing already |
| QuicRelay.Connection.HandleEvent | src/proxy/connection_mode_quic.rs:104-170 | each select branch has its reference effect |
| QuicRelay.Connection.Flush | src/proxy/connection_mode_quic.rs:190-214 | the packets go to the main loop in order, each with the bytes, the sender and the addressee that the library says, up to the first that cannot be sent, which ends the task |
| QuicRelay.Connection.TakeTurn | src/proxy/connection_mode_quic.rs:98-215 | a turn ends the loop if the connection is closed and sends what is due otherwise, neither after a read that would block |
| QuicRelay.Connection.HandleClientConnection | src/proxy/connection_mode_quic.rs:46-218 | for any script the whole task computes the reference: first packets, broker, turns; and what was written stays the first part of what arrived |
| QuicRelay.FlushCounts | src/proxy/connection_mode_quic.rs:190-214 | sending ends the task exactly if a packet cannot be sent, and stops at the first of these |
| QuicRelay.FlushAdds | src/proxy/connection_mode_quic.rs:60-70 | what sending adds: per packet its source host in the local AS, its target host in the remote AS, its bytes |
| QuicRelay.ClosesIff | src/proxy/connection_mode_quic.rs:139-164 | a connection begins to close exactly when the client closes it, five seconds are over without a certificate, or the broker has ended or failed |
| QuicRelay.SignalEndsIff | src/proxy/connection_mode_quic.rs:104-170 | which events other than datagrams end the task, and exactly when |
| QuicRelay.PacketEndsIff | src/proxy/connection_mode_quic.rs:220-270 | a datagram ends the task exactly if it has no IP address, the library rejects it, the close for want of a certificate fails, or the broker takes no more |
| QuicRelay.TurnEndsIff | src/proxy/connection_mode_quic.rs:172-214 | a turn ends the task exactly if its event does or, unless a read would block, the connection is closed or a packet cannot be sent |
| QuicRelay.ConnectedEndsIff | src/proxy/connection_mode_quic.rs:56-92 | before the loop the task ends exactly if a packet cannot be sent or the close for want of a broker fails; without a broker the connection is closing |
| QuicRelay.BrokerGetsPrefix | src/proxy/connection_mode_quic.rs:235-267 | at every point the broker's bytes are a prefix of stream 0's, all but the unread and what a reset took, and none precede certificate and handshake |
| QuicRelay.OtherStreamsIrrelevant | src/proxy/connection_mode_quic.rs:250-264 | two scripts that bring the same on stream 0 have the same outcome: data and resets on other streams and the cutting into chunks never change anything |
| QuicSession.GivenNamesKey | src/proxy/mod.rs:203-217 | every packet ever put into a connection's channel carries its id or the id it was derived from |
| QuicSession.OnlyTheClientsPackets | src/proxy/mod.rs:198-231 | without id collisions every packet the client's connection was ever given was sent by that client |
| QuicSession.ArrivedIsHeard | src/proxy/connection_mode_quic.rs:234-235 | what arrived on stream 0 is a first part of what the library heard in the packets, all of it until close, reset or end |
| QuicSystem.CourseKeepsWorld | src/proxy/mod.rs:393-402 | manager and relays together: in every course what a relay was fed is what its channel gave, each delivery is the library's for those packets, and what it sent is what the way out was given |
| QuicSystem.ComposedIff | src/proxy/mod.rs:368-402 | these courses are exactly the manager's runs with datagrams sent to the proxy and packets that a relay can build |
| QuicSystem.FedInOrder | src/proxy/connection_mode_quic.rs:119-128 | in every course what the QUIC connection is fed is an ordered part of the datagrams naming its key after the one that created it |
| QuicSystem.OutputReachesSocket | src/proxy/connection_mode_quic.rs:60-72 | in every course what leaves the socket for a connection are the first of all the packets the library wanted sent, in order, none lost: each with its bytes, from its host in the proxy's AS to its host in the AS of the datagram that opened the connection |
| QuicSystem.BrokerGetsWhatWasHeard | src/proxy/connection_mode_quic.rs:234-261 | in every course the broker's bytes are a first part of what the library heard on stream 0 in the connection's own packets |
| QuicSystem.BrokerHearsTheClient | src/proxy/connection_mode_quic.rs:234-261 | and for the client's connection, without id collisions, all of these packets were sent by the client |
| MqttConnection.Connection.HandleEvents | src/client/mod.rs:465-568 | the loop computes the reducer, stops at a request to close, and stream 0 holds what the sends placed |
| MqttConnection.Connection.HandlePacket | src/client/mod.rs:482-548 | acknowledgements finish the pending request only with its id and kind, whatever their reason code, as CONNACK gives its permit; messages are queued up to 100 |
| MqttConnection.Connection.ProcessUdpPacket | src/client/mod.rs:404-463 | CONNECT once, before anything read on stream 0 is handled |
| MqttConnection.Connection.ProcessRequest | src/client/mod.rs:308-351 | the packet's events are handled, then the request is stored with its id and notification |
| MqttConnection.CloseDropsRest | src/client/mod.rs:555-558 | whatever follows a request to close in a list of events is not acted on |
| MqttSystem.OkMeansAcknowledged | src/client/mod.rs:488-511 | a call that returned Ok was acknowledged with the right kind for the packet id use of that very call, abandoned calls or not |
| MqttSystem.InboundKeepsAcks | src/client/mod.rs:534-543 | an acknowledgement that matches the pending id is for the latest use of it |
| MqttRequests.OneOutstanding | src/client/mod.rs:100-109 | without abandoned calls one request is outstanding, in one place, and none is taken while another is pending |
| MqttRequests.ReplacedIffOrphan | src/client/mod.rs:328-349 | in every state of every run a pending request can come to be replaced, without a further abandoned call, exactly if the connection is alive and a request its caller does not wait for is in the channel or pending |
| MqttRequests.OnlyAbandonedIsReplaced | src/client/mod.rs:328-328 | in every run a pending request that is replaced belongs to an earlier call that a step of the run abandoned, that was not answered and did not return |
| MqttRequests.AbandonedRequestIsReplaced | src/client/mod.rs:349-349 | such a run, for any two requests and distinct ids, both packets sent |
| MqttRequests.CallCompletes | src/client/mod.rs:97-111 | a call whose packet leaves and is acknowledged does return Ok, for any request and id, accepted or refused |
| MqttRequests.OkIsGrantedOrRefused | src/client/mod.rs:488-498 | a call that returned Ok was granted exactly if it was not refused: its packet was answered one way only |
| MqttRequests.ConnectIgnoresReason | src/client/mod.rs:483-487 | connect returns Ok whether the CONNACK accepts or refuses |
| MqttRequests.ConnectIsAcceptedOrRefused | src/client/mod.rs:483-487 | in every run with one CONNACK at most, a client past connect was accepted exactly if it was not refused |
| MqttSafety.ConnectComesFirst | src/client/mod.rs:422-438 | CONNECT is the first packet sent or handled and is sent once; SUBSCRIBE and PUBLISH leave only after a CONNACK |
| MqttSafety.MessagesInOrder | src/client/mod.rs:516-528 | messages returned and queued are an ordered part of the PUBLISH packets handled; each other one met a queue of 100 |
| MqttSafety.OkMeansPacketLeft | src/client/mod.rs:308-351 | in every run a call that returned Ok sent its own packet before: SUBSCRIBE with its topic or PUBLISH with its topic and payload, under the packet id of its own, which the SUBACK or PUBACK that came after it names |
| MqttReconnect.MisledIff | src/client/mod.rs:60-90 | a connect can return Ok before a CONNACK on its own connection exactly if a permit is left over or an older live connection owes its CONNACK |
| MqttReconnect.EveryConnectSawItsConnack | src/client/mod.rs:41-90 | if none is abandoned, every connect that returned Ok did so after its own connection's CONNACK |
| MqttReconnect.RequestsFollowConnack | src/client/mod.rs:86-110 | if none is abandoned, every request went to a connection that had sent CONNECT and handled its CONNACK |
| MqttReconnect.HandEarlyIff | src/client/mod.rs:92-108 | a request can go to a connection without a handled CONNACK exactly if the client counts as connected and its newest connection runs and has handled none |
| MqttReconnect.EarlyRequestIsTraced | src/client/mod.rs:60-90 | such a connection's connect was abandoned, or returned Ok for another connection's CONNACK |
| MqttReconnect.RequestBeforeConnect | src/client/mod.rs:115-117 | a run in which a request goes to a connection that has not sent CONNECT |
| MqttClient.Client.Connect | src/client/mod.rs:60-90 | the first connect returns Ok exactly if it was notified by then, only after a CONNACK was handled, and uses the notification up |
| MqttClient.Client.Perform | src/client/mod.rs:97-111 | the common course of subscribe and publish: Ok exactly if the request was handed over and its notification given, an error exactly without a connection or with one that is gone; given up only if neither |
| MqttClient.Client.Subscribe | src/client/mod.rs:92-112 | Ok means a SUBSCRIBE for this topic left under an id acquired for this call, and then a SUBACK for it was handled, accepting or not |
| MqttClient.Client.Publish | src/client/mod.rs:114-137 | Ok means a PUBLISH of this topic and payload with QoS 1 left under an id acquired for this call, and then a PUBACK for it was handled, accepting or not |
| MqttClient.Client.Rcv | src/client/mod.rs:139-148 | the oldest queued message, if there is one by then; what was returned and is queued stays an ordered part of what came in |
| Pipe.NothingLostIffAllWhole | src/client/mod.rs:471-478 | all bytes offered to a stream are in it exactly if every send took its whole buffer |
| Pipe.PrefixIffGapless | src/client/mod.rs:471-478 | for all contents of given lengths the bytes in the stream are a prefix of those offered, exactly if nothing follows a short send |
| Pipe.BrokerInputIsPrefix | src/proxy/connection_mode_quic.rs:250-261 | client, QUIC and relay composed: the broker's input is a prefix of what the client placed, and without gaps of the encoded packets |
| Pipe.BrokerReadsConnectFirst | src/client/mod.rs:422-438 | without gaps the broker's input begins with the encoded CONNECT |
| Pipe.BrokerBytesReachStream | src/proxy/connection_mode_quic.rs:139-148 | towards the client stream 0 carries the bytes of all the reads, one after the other, unchanged, exactly if each read found at most 1200 bytes and room for them |

## Left out

- SCION stack construction, path policies, certificates, command line, logging and Python bindings: input and output without a protocol of their own.
- QUIC packet protection, loss recovery and flow control, and the loops in which the client sends its QUIC packets: the QUIC library is a small contract.
- MQTT encoding and framing, and how many packets one read yields: event lists are inputs; the encoding is an arbitrary function.
- What the tasks do after an error has ended the proxy's main loop, and the packet that the failed send had in hand.
- Wall-clock time: timers and the five-second certificate limit are nondeterministic.
- The first-come-first-served order among actors waiting for the table's lock: any waiter may get it.
- Panics: a connection task is taken to return, so that its cleanup is reached; that the one `unwrap` on the data path never fails is proved from the QUIC contract (`QuicRelay.Connection.DrainAll`).
- MqttClient.Client.Connect: models the first `connect` of a client; several in turn are modelled in `MqttReconnect.dfy`, where a request is followed until it is handed over and not until it is acknowledged.
- Streams other than 0 on the client side, which it never reads.
- Liveness across the network, such as `publish` returning at all: the code does not promise it.
