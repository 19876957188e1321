/** QUIC mode from end to end: what the manager's channel gave a connection is what its relay was fed, and
    what the relay sent is what the way out was given. */
module QuicSession {
  import opened Net
  import opened Manager
  import opened History
  import opened Retry
  import opened Handshake
  import Relay = QuicRelay

  /** The packet carries the connection's id, or the id that it was derived from. */
  predicate NamesKey(e: Endpoint, key: ConnectionId, pkt: UdpPacket) {
    Readable(e, pkt) && (HeaderOf(e, pkt).dcid == key || DerivedId(e, HeaderOf(e, pkt).dcid) == key)
  }

  /** Everything that was ever put into a task's channel. */
  function Given(t: Task<ConnectionId>): seq<UdpPacket> { t.taken + t.queue + t.discarded }

  lemma GivenIsOnRecord(e: Endpoint, s: State<ConnectionId>, id: nat, k: nat) returns (j: nat)
    requires Ledger(s) && QuicState(e, s) && id < |s.tasks| && k < |Given(s.tasks[id])|
    ensures j < |s.log| && s.log[j].pkt == Given(s.tasks[id])[k] && s.log[j].fate == Queued(id)
    ensures NamesKey(e, s.tasks[id].key, s.log[j].pkt)
  {
    LedgerParts(s, id);
    QueuedComesFromLog(s.log, id, k);
    j :| j < |s.log| && s.log[j].pkt == QueuedFor(s.log, id)[k] && s.log[j].fate == Queued(id);
    assert RecordOk(s, j) && QuicRecord(e, s.log[j]);
  }

  /** No crosstalk in QUIC mode: every packet that was ever put into a connection's channel names its key. */
  lemma GivenNamesKey(e: Endpoint, s: State<ConnectionId>, id: nat, k: nat)
    requires QuicReachable(e, s) && id < |s.tasks| && k < |Given(s.tasks[id])|
    ensures NamesKey(e, s.tasks[id].key, Given(s.tasks[id])[k])
  {
    QuicReachableFacts(e, s);
    var j := GivenIsOnRecord(e, s, id, k);
  }

  lemma TakenNamesKey(e: Endpoint, s: State<ConnectionId>, id: nat, k: nat)
    requires QuicReachable(e, s) && id < |s.tasks| && k < |s.tasks[id].taken|
    ensures NamesKey(e, s.tasks[id].key, s.tasks[id].taken[k])
  {
    assert Given(s.tasks[id])[k] == s.tasks[id].taken[k];
    GivenNamesKey(e, s, id, k);
  }

  lemma TakenInOrder(e: Endpoint, s: State<ConnectionId>, id: nat)
    requires QuicReachable(e, s) && id < |s.tasks|
    ensures var t := s.tasks[id]; IsSubsequence(t.taken, Addressed(s.log, t.born + 1, t.key))
  {
    QuicReachableFacts(e, s);
    TakenAreOrdered(s, id);
  }

  lemma TakenIsOwn(e: Endpoint, s: State<ConnectionId>, id: nat)
    requires QuicReachable(e, s) && id < |s.tasks|
    ensures var t := s.tasks[id];
            && IsSubsequence(t.taken, Addressed(s.log, t.born + 1, t.key))
            && forall k | 0 <= k < |t.taken| :: NamesKey(e, t.key, t.taken[k])
  {
    TakenInOrder(e, s, id);
    forall k | 0 <= k < |s.tasks[id].taken| ensures NamesKey(e, s.tasks[id].key, s.tasks[id].taken[k]) {
      TakenNamesKey(e, s, id, k);
    }
  }

  /** Where no ids collide, every packet that the client's connection was ever given is one the client
      sent: nobody else can feed it anything. */
  lemma OnlyTheClientsPackets(e: Endpoint, c: Peer, w: World, id: nat, k: nat)
    requires CanHappen(e, c, w) && id < |w.proxy.tasks| && w.proxy.tasks[id].key == HomeId(e, c)
    requires k < |Given(w.proxy.tasks[id])|
    ensures Given(w.proxy.tasks[id])[k] in w.sent
  {
    CanHappenOk(e, c, w);
    var j := GivenIsOnRecord(e, w.proxy, id, k);
    assert Expected(e, c, w, w.proxy.log[j].pkt);
  }

  // ---- What a relay was fed, and what it heard ----

  /** The packets that a script feeds to the QUIC connection. */
  function Fed(turns: seq<Relay.Turn>): seq<UdpPacket> {
    if turns == [] then []
    else
      var last := turns[|turns| - 1].event;
      Fed(turns[..|turns| - 1]) + (if last.Packet? then [last.pkt] else [])
  }

  lemma FedSnoc(turns: seq<Relay.Turn>, turn: Relay.Turn)
    ensures Fed(turns + [turn]) == Fed(turns) + (if turn.event.Packet? then [turn.event.pkt] else [])
  {
    assert (turns + [turn])[..|turns|] == turns;
  }

  /** What the QUIC library makes of the last of the packets that connection `id` was fed. */
  type Library = (nat, seq<UdpPacket>) -> Relay.Delivery

  /** The stream-0 bytes that the library finds in a connection's packets, one after the other. */
  function Heard(library: Library, id: nat, packets: seq<UdpPacket>): Bytes {
    if packets == [] then []
    else Heard(library, id, packets[..|packets| - 1]) + Relay.BytesFor(library(id, packets).data, 0)
  }

  lemma HeardSnoc(library: Library, id: nat, packets: seq<UdpPacket>, pkt: UdpPacket)
    ensures Heard(library, id, packets + [pkt])
         == Heard(library, id, packets) + Relay.BytesFor(library(id, packets + [pkt]).data, 0)
  {
    assert (packets + [pkt])[..|packets|] == packets;
  }

  /** The loop got to every turn, and each delivery is what the library made of the packets so far. */
  ghost predicate Played(library: Library, id: nat, start: Relay.View, here: Relay.Setting, turns: seq<Relay.Turn>) {
    turns == [] ||
    var before, last := turns[..|turns| - 1], turns[|turns| - 1].event;
    && Played(library, id, start, here, before) && !Relay.OnTurns(start, here, before).ended
    && (last.Packet? ==> last.delivery == library(id, Fed(turns)))
  }

  lemma EventKeepsClosing(w: Relay.View, here: Relay.Setting, event: Relay.Event)
    ensures w.closing ==> Relay.OnEvent(w, here, event).closing
    ensures w.reset ==> Relay.OnEvent(w, here, event).reset
  {
    if event.Packet? {
      var r := Relay.AfterRecv(w, event.delivery);
      assert (w.closing ==> r.closing) && (w.reset ==> r.reset);
    }
  }

  lemma TurnKeepsClosing(w: Relay.View, here: Relay.Setting, turn: Relay.Turn)
    ensures w.closing ==> Relay.OnTurn(w, here, turn).closing
    ensures w.reset ==> Relay.OnTurn(w, here, turn).reset
  {
    var v := Relay.OnEvent(w, here, turn.event);
    EventKeepsClosing(w, here, turn.event);
    Relay.FlushOnlySends(v, here, turn.flush);
    TurnAfterEvent(w, here, turn, v);
  }

  /** After its event a turn only sends, or ends. */
  lemma TurnAfterEvent(w: Relay.View, here: Relay.Setting, turn: Relay.Turn, v: Relay.View)
    requires v == Relay.OnEvent(w, here, turn.event)
    ensures Relay.OnTurn(w, here, turn)
         == if turn.event.TcpWouldBlock? || v.ended then v
            else if turn.closedNow then v.(ended := true) else Relay.OnFlush(v, here, turn.flush)
  {
  }

  lemma BadPacketEnds(w: Relay.View, here: Relay.Setting, turn: Relay.Turn)
    requires turn.event.Packet? && !(Relay.Addressed(turn.event.pkt) && turn.event.delivery.ok)
    ensures Relay.OnTurn(w, here, turn).ended
  {
  }

  /** What arrived on stream 0 is a first part of what the library heard in the packets, and all of it until
      the connection is closed, the stream reset or the task over. */
  lemma {:induction false} ArrivedIsHeard(library: Library, id: nat, start: Relay.View, here: Relay.Setting,
                                          turns: seq<Relay.Turn>)
    requires Played(library, id, start, here, turns)
    ensures var w, arrived := Relay.OnTurns(start, here, turns), Relay.Arrived0(start, here, turns);
            var heard := start.pending + Heard(library, id, Fed(turns));
            arrived <= heard && (arrived == heard || w.closing || w.reset || w.ended)
  {
    if turns == [] {
      assert start.pending + [] == start.pending;
    } else {
      var before, last := turns[..|turns| - 1], turns[|turns| - 1];
      ArrivedIsHeard(library, id, start, here, before);
      var w, arrived := Relay.OnTurns(start, here, before), Relay.Arrived0(start, here, before);
      TurnKeepsClosing(w, here, last);
      if last.event.Packet? {
        HeardSnoc(library, id, Fed(before), last.event.pkt);
        OneMoreHeard(arrived, start.pending, Heard(library, id, Fed(before)),
                     Relay.BytesFor(last.event.delivery.data, 0), Relay.Brings(w, last.event));
        if !(Relay.Addressed(last.event.pkt) && last.event.delivery.ok) {
          BadPacketEnds(w, here, last);
        }
      } else {
        assert arrived + [] == arrived && Fed(turns) == Fed(before);
      }
    }
  }

  lemma OneMoreHeard(arrived: Bytes, pending: Bytes, heard: Bytes, more: Bytes, brought: Bytes)
    requires arrived <= pending + heard && (brought == [] || (brought == more && arrived == pending + heard))
    ensures arrived + brought <= pending + (heard + more)
    ensures arrived == pending + heard && brought == more ==> arrived + brought == pending + (heard + more)
  {
    assert (pending + heard) + more == pending + (heard + more);
    assert brought == [] ==> arrived + brought == arrived;
  }

  lemma EventSendsNothing(v: Relay.View, here: Relay.Setting, event: Relay.Event)
    ensures Relay.OnEvent(v, here, event).toMain == v.toMain
  {
  }
}
