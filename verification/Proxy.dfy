/** The proxy's main loop: the two datagram handlers and the loop around them, in the order of the
    program, suspended wherever it awaits.  Whatever the tasks do meanwhile, the loop's actions and
    theirs together form a run of the connection manager under the rule of the mode. */
module Proxy {
  import opened Net
  import opened Token
  import opened Manager
  import opened Shared
  import opened Retry
  import opened UdpMode

  /** What happens at one turn of the main select.  `first`, `second` and `third` are what the tasks try
      to do at the suspension points of the handler; `usable` is the QUIC library's verdict, and `built`
      says whether it can build the answer, if there is to be one.  A socket that does not send, and an
      answer that cannot be built, end the loop. */
  datatype Event<K> =
    | Datagram(pkt: UdpPacket, usable: bool, built: bool,
               first: seq<Step<K>>, second: seq<Step<K>>, third: seq<Step<K>>)
    | OutboundReady(sent: bool)
    | Waiting(schedule: seq<Step<K>>)

  /** The fate on record is the one the decision calls for. */
  predicate Outcome(d: Decision, fate: Fate) {
    match d
    case Ignore => fate == Ignored
    case Reply(p) => fate == Answered(p)
    case Create => fate.Opened?
  }

  /** The datagram was put into the channel of that connection, unless it was full or closed. */
  predicate GivenTo(id: nat, fate: Fate) { fate in {Queued(id), Full(id), Closed(id)} }

  /** The log has grown by one record, of this datagram. */
  ghost predicate OneRecord<K>(s: State<K>, pkt: UdpPacket, s': State<K>) {
    |s'.log| == |s.log| + 1 && s'.log[..|s.log|] == s.log && s'.log[|s.log|].pkt == pkt
  }

  /** The first packet of the outbound queue, if there is one, has gone to the socket. */
  ghost predicate Forwards<K>(s: State<K>, s': State<K>) {
    if s.out.queue == [] then s' == s
    else
      && s'.socket == s.socket + [s.out.queue[0]] && s'.out.queue == s.out.queue[1..]
      && s' == s.(socket := s'.socket, out := s'.out)
  }

  /** The connection a datagram is for, after the tasks have run: the one under its destination id, or
      else the one under the first 20 bytes of that id's tag. */
  function QuicTarget(e: Endpoint, s: State<ConnectionId>, pkt: UdpPacket, schedule: seq<Step<ConnectionId>>)
    : Option<nat>
    requires Readable(e, pkt)
  {
    var dcid := e.parse(pkt.data).value.dcid;
    FoundAfter(s, Route(dcid, Some(e.connIdSeed(dcid)[..20])), pkt, schedule)
  }

  /** What a turn in QUIC mode does, if it does not end the loop. */
  ghost predicate QuicTurn(e: Endpoint, s: State<ConnectionId>, event: Event<ConnectionId>, s': State<ConnectionId>) {
    match event
    case Datagram(pkt, usable, _, first, _, _) =>
      && s'.socket == s.socket
      && if !Readable(e, pkt) then s' == s
         else
           && OneRecord(s, pkt, s')
           && var found, fate := QuicTarget(e, s, pkt, first), s'.log[|s.log|].fate;
           && (found.Some? ==> GivenTo(found.value, fate))
           && (found.None? ==> Outcome(Decide(e, pkt, usable), fate))
    case OutboundReady(_) => Forwards(s, s')
    case Waiting(schedule) => s' == Scheduled(s, schedule)
  }

  /** What ends the loop in QUIC mode: a packet that cannot be sent, and an answer that is due, to an
      Initial packet that matches no connection, and cannot be built. */
  ghost predicate QuicStop(e: Endpoint, s: State<ConnectionId>, event: Event<ConnectionId>) {
    match event
    case Datagram(pkt, _, built, first, _, _) =>
      && !built && Readable(e, pkt) && QuicTarget(e, s, pkt, first).None?
      && var hdr := e.parse(pkt.data).value;
      && hdr.initial && (!e.versionIsSupported(hdr.version) || hdr.token == [])
    case OutboundReady(sent) => !sent && s.out.queue != []
    case Waiting(_) => false
  }

  /** What a turn in UDP mode does, if it does not end the loop. */
  ghost predicate UdpTurn(s: State<ScionAddr>, event: Event<ScionAddr>, s': State<ScionAddr>) {
    match event
    case Datagram(pkt, _, _, first, _, _) =>
      && s'.socket == s.socket
      && if pkt.src.host.None? then s' == s
         else
           && OneRecord(s, pkt, s')
           && var found, fate := FoundAfter(s, Route(pkt.src, None), pkt, first), s'.log[|s.log|].fate;
           && (found.Some? ==> GivenTo(found.value, fate))
           && (found.None? ==> fate.Opened?)
    case OutboundReady(_) => Forwards(s, s')
    case Waiting(schedule) => s' == Scheduled(s, schedule)
  }

  /** In UDP mode only a packet that cannot be sent ends the loop. */
  ghost predicate UdpStop(s: State<ScionAddr>, event: Event<ScionAddr>) {
    event == OutboundReady(false) && s.out.queue != []
  }

  /** The states between the turns of a loop that has come to the last of them. */
  ghost predicate QuicCourse(e: Endpoint, seen: seq<State<ConnectionId>>, events: seq<Event<ConnectionId>>) {
    && 0 < |seen| <= |events| + 1
    && forall i | 0 <= i < |seen| - 1 ::
         !QuicStop(e, seen[i], events[i]) && QuicTurn(e, seen[i], events[i], seen[i + 1])
  }

  ghost predicate UdpCourse(seen: seq<State<ScionAddr>>, events: seq<Event<ScionAddr>>) {
    && 0 < |seen| <= |events| + 1
    && forall i | 0 <= i < |seen| - 1 :: !UdpStop(seen[i], events[i]) && UdpTurn(seen[i], events[i], seen[i + 1])
  }

  // ---- What a course amounts to ----

  /** The datagrams among the events that the mode takes notice of. */
  function Arrivals<K>(events: seq<Event<K>>, noticed: UdpPacket -> bool): seq<UdpPacket> {
    if events == [] then []
    else
      var last := events[|events| - 1];
      Arrivals(events[..|events| - 1], noticed)
        + (if last.Datagram? && noticed(last.pkt) then [last.pkt] else [])
  }

  /** A record for each of these datagrams has been added, in order. */
  ghost predicate RecordsAdded<K>(s: State<K>, pkts: seq<UdpPacket>, s': State<K>) {
    && |s'.log| == |s.log| + |pkts| && s'.log[..|s.log|] == s.log
    && forall k | 0 <= k < |pkts| :: s'.log[|s.log| + k].pkt == pkts[k]
  }

  lemma {:induction false} CourseKeepsRecords<K>(seen: seq<State<K>>, events: seq<Event<K>>,
                                                 noticed: UdpPacket -> bool, n: nat)
    requires n < |seen| <= |events| + 1
    requires forall i | 0 <= i < |seen| - 1 ::
               if events[i].Datagram? && noticed(events[i].pkt) then OneRecord(seen[i], events[i].pkt, seen[i + 1])
               else seen[i + 1].log == seen[i].log
    ensures RecordsAdded(seen[0], Arrivals(events[..n], noticed), seen[n])
    decreases n
  {
    if n > 0 {
      CourseKeepsRecords(seen, events, noticed, n - 1);
      assert events[..n][..n - 1] == events[..n - 1];
    }
  }

  lemma {:induction false} CourseForwards<K>(seen: seq<State<K>>, events: seq<Event<K>>, n: nat)
    requires n < |seen| <= |events| + 1
    requires forall i | 0 <= i < |seen| - 1 :: events[i].OutboundReady? && Forwards(seen[i], seen[i + 1])
    ensures var sent := Min(n, |seen[0].out.queue|);
            && seen[n].socket == seen[0].socket + seen[0].out.queue[..sent]
            && seen[n].out.queue == seen[0].out.queue[sent..]
    decreases n
  {
    if n > 0 {
      CourseForwards(seen, events, n - 1);
    }
  }

  function ReadableBy(e: Endpoint): UdpPacket -> bool { pkt => Readable(e, pkt) }

  predicate HasHost(pkt: UdpPacket) { pkt.src.host.Some? }

  lemma QuicTurnRecords(e: Endpoint, s: State<ConnectionId>, event: Event<ConnectionId>, s': State<ConnectionId>)
    requires QuicTurn(e, s, event, s')
    ensures if event.Datagram? && Readable(e, event.pkt) then OneRecord(s, event.pkt, s') else s'.log == s.log
  {
    if event.Waiting? {
      ScheduleLeavesMainAlone(s, event.schedule);
    }
  }

  lemma UdpTurnRecords(s: State<ScionAddr>, event: Event<ScionAddr>, s': State<ScionAddr>)
    requires UdpTurn(s, event, s')
    ensures if event.Datagram? && HasHost(event.pkt) then OneRecord(s, event.pkt, s') else s'.log == s.log
  {
    if event.Waiting? {
      ScheduleLeavesMainAlone(s, event.schedule);
    }
  }

  /** A complete course adds one record for every readable datagram, in order. */
  lemma QuicRecordsEach(e: Endpoint, seen: seq<State<ConnectionId>>, events: seq<Event<ConnectionId>>)
    requires QuicCourse(e, seen, events) && |seen| == |events| + 1
    ensures RecordsAdded(seen[0], Arrivals(events, ReadableBy(e)), seen[|events|])
  {
    forall i | 0 <= i < |events|
      ensures if events[i].Datagram? && ReadableBy(e)(events[i].pkt) then OneRecord(seen[i], events[i].pkt, seen[i + 1])
              else seen[i + 1].log == seen[i].log
    {
      QuicTurnRecords(e, seen[i], events[i], seen[i + 1]);
    }
    assert events[..|events|] == events;
    CourseKeepsRecords(seen, events, ReadableBy(e), |events|);
  }

  lemma UdpRecordsEach(seen: seq<State<ScionAddr>>, events: seq<Event<ScionAddr>>)
    requires UdpCourse(seen, events) && |seen| == |events| + 1
    ensures RecordsAdded(seen[0], Arrivals(events, HasHost), seen[|events|])
  {
    forall i | 0 <= i < |events|
      ensures if events[i].Datagram? && HasHost(events[i].pkt) then OneRecord(seen[i], events[i].pkt, seen[i + 1])
              else seen[i + 1].log == seen[i].log
    {
      UdpTurnRecords(seen[i], events[i], seen[i + 1]);
    }
    assert events[..|events|] == events;
    CourseKeepsRecords(seen, events, HasHost, |events|);
  }

  lemma QuicCourseGoesOn(e: Endpoint, seen: seq<State<ConnectionId>>, events: seq<Event<ConnectionId>>,
                         s': State<ConnectionId>)
    requires QuicCourse(e, seen, events) && |seen| <= |events|
    requires var event := events[|seen| - 1];
             !QuicStop(e, seen[|seen| - 1], event) && QuicTurn(e, seen[|seen| - 1], event, s')
    ensures QuicCourse(e, seen + [s'], events)
  {
  }

  lemma UdpCourseGoesOn(seen: seq<State<ScionAddr>>, events: seq<Event<ScionAddr>>, s': State<ScionAddr>)
    requires UdpCourse(seen, events) && |seen| <= |events|
    requires var event := events[|seen| - 1];
             !UdpStop(seen[|seen| - 1], event) && UdpTurn(seen[|seen| - 1], event, s')
    ensures UdpCourse(seen + [s'], events)
  {
  }

  class Proxy {
    const e: Endpoint
    const quic: Connections<ConnectionId>
    const udp: Connections<ScionAddr>

    constructor (e: Endpoint)
      ensures this.e == e && fresh(quic) && fresh(udp) && quic.View() == Initial() && udp.View() == Initial()
      ensures Valid()
    {
      this.e := e;
      quic := new Connections<ConnectionId>(RuleOf(e));
      udp := new Connections<ScionAddr>(UdpRule);
    }

    ghost predicate Valid()
      reads this, quic, udp
    {
      QuicValid() && quic.main.Idle? && UdpValid() && udp.main.Idle?
    }

    ghost predicate QuicValid()
      reads this, quic
    {
      quic.Valid() && forall s, step :: quic.rule(s, step) == QuicRule(e, s, step)
    }

    ghost predicate UdpValid()
      reads this, udp
    {
      udp.Valid() && forall s, step :: udp.rule(s, step) == UdpRule(s, step)
    }

    method HandleUdpPacketModeQuic(pkt: UdpPacket, usable: bool, built: bool, first: seq<Step<ConnectionId>>,
                                   second: seq<Step<ConnectionId>>, third: seq<Step<ConnectionId>>)
      returns (ok: bool)
      requires QuicValid() && quic.main.Idle? && pkt.src.host.Some?
      modifies quic
      ensures QuicValid() && (ok ==> quic.main.Idle?)
      ensures ok == !QuicStop(e, old(quic.View()), Datagram(pkt, usable, built, first, second, third))
      ensures ok ==>
                QuicTurn(e, old(quic.View()), Datagram(pkt, usable, built, first, second, third), quic.View())
    {
      ok := true;
      if e.parse(pkt.data).None? {
        return;
      }
      var hdr := e.parse(pkt.data).value;
      var connId := e.connIdSeed(hdr.dcid)[..MAX_CONN_ID_LEN];

      var client := quic.Locate(Route(hdr.dcid, Some(connId)), pkt, first);
      if client.Some? {
        quic.Deliver(client.value, pkt, second);
      } else if hdr.initial {
        ok := HandleNewConnection(pkt, hdr, connId, usable, built, second, third);
      } else {
        quic.Discard();
      }
    }

    /** The branch for an Initial packet that matches no connection. */
    method HandleNewConnection(pkt: UdpPacket, hdr: Header, connId: ConnectionId, usable: bool, built: bool,
                               second: seq<Step<ConnectionId>>, third: seq<Step<ConnectionId>>)
      returns (ok: bool)
      requires quic.Valid() && Readable(e, pkt) && quic.main == Missed(RouteOf(e, pkt), pkt)
      requires hdr == HeaderOf(e, pkt) && hdr.initial && connId == DerivedId(e, hdr.dcid)
      requires forall s, step :: quic.rule(s, step) == QuicRule(e, s, step)
      modifies quic
      ensures quic.Valid() && ok == (built || !Decide(e, pkt, usable).Reply?)
      ensures !ok ==> quic.View() == old(quic.View())
      ensures ok ==>
                && quic.main.Idle? && quic.socket == old(quic.socket) && OneRecord(old(quic.View()), pkt, quic.View())
                && Outcome(Decide(e, pkt, usable), quic.log[|old(quic.log)|].fate)
    {
      var src := pkt.src.host.value;
      ok := true;
      if !e.versionIsSupported(hdr.version) {
        if !built {
          return false;
        }
        quic.Answer(UdpPacket(e.local, pkt.src, e.negotiateVersion(hdr.scid, hdr.dcid)));
        return;
      }
      var scid := connId;
      if hdr.token == [] {
        var token := MintToken(e.tokenKey, hdr.dcid, src);
        if !built {
          return false;
        }
        quic.Answer(UdpPacket(e.local, pkt.src, e.retry(hdr.scid, hdr.dcid, scid, token, hdr.version)));
        return;
      }
      var odcid := ValidateToken(e.tokenKey, src, hdr.token);
      if odcid.None? {
        quic.Discard();
        return;
      }
      if |scid| != |hdr.dcid| {
        quic.Discard();
        return;
      }
      if !usable {
        quic.Discard();
        return;
      }
      quic.Establish(second, third);
    }

    method HandleUdpPacketModeUdp(pkt: UdpPacket, first: seq<Step<ScionAddr>>, second: seq<Step<ScionAddr>>,
                                  third: seq<Step<ScionAddr>>)
      requires UdpValid() && udp.main.Idle?
      modifies udp
      ensures UdpValid() && udp.main.Idle?
      ensures forall usable, built | pkt.src.host.Some? ::
                UdpTurn(old(udp.View()), Datagram(pkt, usable, built, first, second, third), udp.View())
    {
      var client := udp.Locate(Route(pkt.src, None), pkt, first);
      if client.Some? {
        udp.Deliver(client.value, pkt, second);
      } else {
        udp.Establish(second, third);
      }
    }

    /** One turn of the main select in QUIC mode. */
    method TurnQuic(event: Event<ConnectionId>) returns (ok: bool)
      requires Valid()
      modifies quic
      ensures QuicValid() && (ok ==> Valid())
      ensures ok == !QuicStop(e, old(quic.View()), event)
      ensures ok ==> QuicTurn(e, old(quic.View()), event, quic.View())
    {
      ok := true;
      match event {
        case Datagram(pkt, usable, built, first, second, third) =>
          if pkt.src.host.Some? {
            ok := HandleUdpPacketModeQuic(pkt, usable, built, first, second, third);
          }
        case OutboundReady(sent) =>
          if quic.out.queue != [] {
            if sent {
              quic.ForwardOne();
            } else {
              ok := false;
            }
          }
        case Waiting(schedule) => quic.Interleave(schedule);
      }
    }

    /** One turn of the main select in UDP mode, whose handler has no errors. */
    method TurnUdp(event: Event<ScionAddr>) returns (ok: bool)
      requires Valid()
      modifies udp
      ensures Valid() && ok == !UdpStop(old(udp.View()), event)
      ensures if ok then UdpTurn(old(udp.View()), event, udp.View()) else udp.View() == old(udp.View())
    {
      ok := true;
      match event {
        case Datagram(pkt, _, _, first, second, third) =>
          if pkt.src.host.Some? {
            HandleUdpPacketModeUdp(pkt, first, second, third);
          }
        case OutboundReady(sent) =>
          if udp.out.queue != [] {
            if sent {
              udp.ForwardOne();
            } else {
              ok := false;
            }
          }
        case Waiting(schedule) => udp.Interleave(schedule);
      }
    }

    /** The main loop in QUIC mode, for any sequence of events.  Every state it passes through is a reachable
        state of the connection manager in that mode; turn by turn it does what the event calls for; and it
        ends early exactly when a packet cannot be sent or an answer that is due cannot be built. */
    method RunQuic(events: seq<Event<ConnectionId>>) returns (ended: bool, ghost seen: seq<State<ConnectionId>>)
      requires Valid()
      modifies quic
      ensures QuicValid() && QuicReachable(e, quic.View()) && (!ended ==> Valid())
      ensures QuicCourse(e, seen, events) && seen[0] == old(quic.View())
      ensures ended <==> |seen| <= |events| && QuicStop(e, seen[|seen| - 1], events[|seen| - 1])
      ensures !ended ==> |seen| == |events| + 1 && seen[|events|] == quic.View()
      ensures !ended ==> RecordsAdded(old(quic.View()), Arrivals(events, ReadableBy(e)), quic.View())
      ensures (forall i | 0 <= i < |events| :: events[i] == OutboundReady(true)) ==>
                !ended && quic.socket == old(quic.socket) + old(quic.out.queue)[..Min(|events|, |old(quic.out.queue)|)]
    {
      ended, seen := false, [quic.View()];
      for i := 0 to |events|
        invariant Valid() && !ended
        invariant QuicCourse(e, seen, events) && seen[0] == old(quic.View())
        invariant |seen| == i + 1 && seen[i] == quic.View()
      {
        var ok := TurnQuic(events[i]);
        if !ok {
          ended := true;
          break;
        }
        QuicCourseGoesOn(e, seen, events, quic.View());
        seen := seen + [quic.View()];
      }
      SameRule(quic.rule, RuleOf(e), Initial(), quic.trace);
      if !ended {
        QuicRecordsEach(e, seen, events);
      }
      if forall i | 0 <= i < |events| :: events[i] == OutboundReady(true) {
        CourseForwards(seen, events, |events|);
      }
    }

    /** The main loop in UDP mode. */
    method RunUdp(events: seq<Event<ScionAddr>>) returns (ended: bool, ghost seen: seq<State<ScionAddr>>)
      requires Valid()
      modifies udp
      ensures Valid() && UdpReachable(udp.View())
      ensures UdpCourse(seen, events) && seen[0] == old(udp.View()) && seen[|seen| - 1] == udp.View()
      ensures ended <==> |seen| <= |events| && UdpStop(seen[|seen| - 1], events[|seen| - 1])
      ensures !ended ==> |seen| == |events| + 1
      ensures !ended ==> RecordsAdded(old(udp.View()), Arrivals(events, HasHost), udp.View())
      ensures (forall i | 0 <= i < |events| :: events[i] == OutboundReady(true)) ==>
                !ended && udp.socket == old(udp.socket) + old(udp.out.queue)[..Min(|events|, |old(udp.out.queue)|)]
    {
      ended, seen := false, [udp.View()];
      for i := 0 to |events|
        invariant Valid() && !ended
        invariant UdpCourse(seen, events) && seen[0] == old(udp.View())
        invariant |seen| == i + 1 && seen[i] == udp.View()
      {
        var ok := TurnUdp(events[i]);
        if !ok {
          ended := true;
          break;
        }
        UdpCourseGoesOn(seen, events, udp.View());
        seen := seen + [udp.View()];
      }
      SameRule(udp.rule, UdpRule, Initial(), udp.trace);
      if !ended {
        UdpRecordsEach(seen, events);
      }
      if forall i | 0 <= i < |events| :: events[i] == OutboundReady(true) {
        CourseForwards(seen, events, |events|);
      }
    }
  }
}
