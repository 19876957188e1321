/** More that holds in every run of the MQTT client: CONNECT first, and what becomes of the messages that
    come in. */
module MqttSafety {
  import opened Net
  import opened MqttConnection
  import opened MqttSystem

  // ---- The order of packets ----

  predicate IsConnect(x: Wire) { x.Out? && x.packet == ConnectPacket }

  /** CONNECT is the first packet handled and leaves only once; SUBSCRIBE and PUBLISH leave only after a
      CONNACK was handled. */
  ghost predicate WireInOrder(wire: seq<Wire>) {
    && (wire != [] ==> IsConnect(wire[0]))
    && (forall j | 1 <= j < |wire| :: !IsConnect(wire[j]))
    && (forall j | 0 <= j < |wire| && wire[j].Out?
                  && (wire[j].packet.SubscribePacket? || wire[j].packet.PublishPacket?) ::
          SawConnack(wire[..j]))
  }

  ghost predicate SawConnack(wire: seq<Wire>) {
    In(Connack(true)) in wire || In(Connack(false)) in wire
  }

  /** The permit of the connect notification comes from a CONNACK. */
  ghost predicate PermitTrue(v: View) { v.connack ==> SawConnack(v.wire) }

  ghost predicate OrderInv(s: System) {
    && WireInOrder(s.conn.wire) && PermitTrue(s.conn)
    && (s.conn.initSent <==> s.conn.wire != [])
    && (s.channel.Some? || !(s.caller.Unconnected? || s.caller.Connecting?) ==> SawConnack(s.conn.wire))
  }

  lemma WireSnoc(wire: seq<Wire>, x: Wire)
    requires WireInOrder(wire) && wire != [] && !IsConnect(x)
    requires x.Out? && (x.packet.SubscribePacket? || x.packet.PublishPacket?) ==> SawConnack(wire)
    ensures WireInOrder(wire + [x])
    ensures SawConnack(wire) ==> SawConnack(wire + [x])
  {
    forall j | 0 <= j < |wire| ensures (wire + [x])[..j] == wire[..j] {
    }
    assert (wire + [x])[..|wire|] == wire;
  }

  /** A connection that has sent CONNECT keeps its order through whatever comes in. */
  ghost predicate Going(v: View) { WireInOrder(v.wire) && v.wire != [] && PermitTrue(v) }

  lemma {:induction false} BatchKeepsOrder(v: View, calls: seq<Request>, uses: seq<Use>, acked: set<nat>,
                                           events: seq<Event>)
    requires Going(v) && BatchContract(calls, uses, acked, events)
    ensures Going(OnEvents(v, events)) && (SawConnack(v.wire) ==> SawConnack(OnEvents(v, events).wire))
    decreases |events|
  {
    if events != [] && !events[0].RequestClose? {
      var e := events[0];
      if e.RequestSendPacket? {
        WireSnoc(v.wire, Out(e.packet, e.room));
      } else if e.NotifyPacketReceived? {
        WireSnoc(v.wire, In(e.packet));
        assert e.packet.Connack? ==> (v.wire + [In(e.packet)])[|v.wire|] == In(e.packet);
      }
      BatchKeepsOrder(OnEvent(v, e), calls, uses, Acked(acked, e), events[1..]);
    }
  }

  lemma {:induction false} BatchesKeepOrder(v: View, calls: seq<Request>, uses: seq<Use>, acked: set<nat>,
                                            batches: seq<seq<Event>>)
    requires Going(v) && BatchesContract(calls, uses, acked, batches)
    ensures Going(OnBatches(v, batches)) && (SawConnack(v.wire) ==> SawConnack(OnBatches(v, batches).wire))
    ensures OnBatches(v, batches).initSent == v.initSent
    decreases |batches|
  {
    if batches != [] {
      BatchKeepsOrder(v, calls, uses, acked, batches[0]);
      BatchKeepsInit(v, batches[0]);
      BatchesKeepOrder(OnEvents(v, batches[0]), calls, uses, AckedByBatch(acked, batches[0]), batches[1..]);
    }
  }

  lemma {:induction false} BatchKeepsInit(v: View, events: seq<Event>)
    ensures OnEvents(v, events).initSent == v.initSent && OnEvents(v, events).receiverAlive == v.receiverAlive
    decreases |events|
  {
    if events != [] && !events[0].RequestClose? {
      BatchKeepsInit(OnEvent(v, events[0]), events[1..]);
    }
  }

  /** The events of a request add its packet and nothing else to what has left. */
  lemma {:induction false} SendKeepsOrder(v: View, events: seq<Event>, p: Packet)
    requires Going(v) && SawConnack(v.wire) && SendContract(events, p) && (p.SubscribePacket? || p.PublishPacket?)
    ensures Going(OnEvents(v, events)) && SawConnack(OnEvents(v, events).wire)
    ensures OnEvents(v, events).initSent == v.initSent
    decreases |events|
  {
    if events != [] && !events[0].RequestClose? {
      if events[0].RequestSendPacket? {
        WireSnoc(v.wire, Out(p, events[0].room));
      }
      SendKeepsOrder(OnEvent(v, events[0]), events[1..], p);
    }
  }

  /** The events of CONNECT on a connection that has sent nothing: CONNECT leaves, alone. */
  lemma ConnectSendsConnect(v: View, events: seq<Event>)
    requires ConnectContract(events)
    ensures OnEvents(v, events) == OnEvent(v, events[0])
  {
    NothingMore(OnEvent(v, events[0]), events[1..]);
  }

  lemma {:induction false} NothingMore(v: View, events: seq<Event>)
    requires forall i | 0 <= i < |events| :: events[i].NoEffect? || events[i].RequestClose?
    ensures OnEvents(v, events) == v
    decreases |events|
  {
    if events != [] {
      NothingMore(v, events[1..]);
    }
  }

  lemma StepKeepsOrder(s: System, step: Step)
    requires OrderInv(s) && Enabled(s, step)
    ensures OrderInv(Next(s, step))
  {
    match step
    case Take(id, events) => SendKeepsOrder(s.conn, events, PacketFor(s.calls[s.channel.value], id));
    case Datagram(established, connectEvents, batches) =>
      if established {
        if s.conn.initSent {
          BatchesKeepOrder(s.conn, s.calls, s.uses, s.acked, batches);
        } else {
          ConnectSendsConnect(s.conn, connectEvents);
          BatchesKeepOrder(OnEvents(s.conn, connectEvents).(initSent := true), s.calls, s.uses, s.acked, batches);
        }
      }
    case _ =>
  }

  lemma {:induction false} RunKeepsOrder(s: System, steps: seq<Step>)
    requires OrderInv(s) && IsRun(s, steps)
    ensures OrderInv(After(s, steps))
    decreases |steps|
  {
    if steps != [] {
      StepKeepsOrder(s, steps[0]);
      RunKeepsOrder(Next(s, steps[0]), steps[1..]);
    }
  }

  /** In every run CONNECT is the first packet that is sent or handled at all, it is sent once, and no
      SUBSCRIBE or PUBLISH is sent before a CONNACK was handled (MQTT 5.0, section 3.1). */
  lemma ConnectComesFirst(steps: seq<Step>)
    requires IsRun(NEW_SYSTEM, steps)
    ensures WireInOrder(After(NEW_SYSTEM, steps).conn.wire)
    ensures After(NEW_SYSTEM, steps).caller.Ready? ==> SawConnack(After(NEW_SYSTEM, steps).conn.wire)
  {
    RunKeepsOrder(NEW_SYSTEM, steps);
  }

  // ---- The packet of a request ----

  /** The request's packet is among the first `n` packets on the wire. */
  ghost predicate LeftBefore(wire: seq<Wire>, n: nat, calls: seq<Request>, use: Use) {
    && use.call < |calls|
    && exists i :: 0 <= i < n && i < |wire| && wire[i].Out? && wire[i].packet == PacketFor(calls[use.call], use.id)
  }

  /** The packet of every use that was sent is on the wire, before its acknowledgement. */
  ghost predicate PacketsLeft(wire: seq<Wire>, calls: seq<Request>, uses: seq<Use>) {
    && (forall u | 0 <= u < |uses| && uses[u].sent :: LeftBefore(wire, |wire|, calls, uses[u]))
    && (forall j | 0 <= j < |wire| && wire[j].In? && wire[j].packet.Ack? ::
          wire[j].packet.answers < |uses| && LeftBefore(wire, j, calls, uses[wire[j].packet.answers]))
  }

  lemma LongerWireKeepsLeft(wire: seq<Wire>, longer: seq<Wire>, n: nat, m: nat,
                            calls: seq<Request>, more: seq<Request>, use: Use)
    requires LeftBefore(wire, n, calls, use) && wire <= longer && n <= m && calls <= more
    ensures LeftBefore(longer, m, more, use)
  {
    var i :| 0 <= i < n && i < |wire| && wire[i].Out? && wire[i].packet == PacketFor(calls[use.call], use.id);
    assert longer[i].Out? && longer[i].packet == PacketFor(more[use.call], use.id);
  }

  lemma WireKeepsLeft(wire: seq<Wire>, calls: seq<Request>, uses: seq<Use>, x: Wire)
    requires PacketsLeft(wire, calls, uses)
    requires x.In? && x.packet.Ack? ==> x.packet.answers < |uses| && uses[x.packet.answers].sent
    ensures PacketsLeft(wire + [x], calls, uses)
  {
    var longer := wire + [x];
    forall u | 0 <= u < |uses| && uses[u].sent ensures LeftBefore(longer, |longer|, calls, uses[u]) {
      LongerWireKeepsLeft(wire, longer, |wire|, |longer|, calls, calls, uses[u]);
    }
    forall j | 0 <= j < |longer| && longer[j].In? && longer[j].packet.Ack?
      ensures longer[j].packet.answers < |uses| && LeftBefore(longer, j, calls, uses[longer[j].packet.answers])
    {
      LongerWireKeepsLeft(wire, longer, j, j, calls, calls, uses[longer[j].packet.answers]);
    }
  }

  lemma {:induction false} BatchKeepsLeft(v: View, calls: seq<Request>, uses: seq<Use>, acked: set<nat>,
                                          events: seq<Event>)
    requires PacketsLeft(v.wire, calls, uses) && BatchContract(calls, uses, acked, events)
    ensures PacketsLeft(OnEvents(v, events).wire, calls, uses)
    decreases |events|
  {
    if events != [] && !events[0].RequestClose? {
      var e := events[0];
      if e.RequestSendPacket? {
        WireKeepsLeft(v.wire, calls, uses, Out(e.packet, e.room));
      } else if e.NotifyPacketReceived? {
        WireKeepsLeft(v.wire, calls, uses, In(e.packet));
      }
      BatchKeepsLeft(OnEvent(v, e), calls, uses, Acked(acked, e), events[1..]);
    }
  }

  lemma {:induction false} BatchesKeepLeft(v: View, calls: seq<Request>, uses: seq<Use>, acked: set<nat>,
                                           batches: seq<seq<Event>>)
    requires PacketsLeft(v.wire, calls, uses) && BatchesContract(calls, uses, acked, batches)
    ensures PacketsLeft(OnBatches(v, batches).wire, calls, uses)
    decreases |batches|
  {
    if batches != [] {
      BatchKeepsLeft(v, calls, uses, acked, batches[0]);
      BatchesKeepLeft(OnEvents(v, batches[0]), calls, uses, AckedByBatch(acked, batches[0]), batches[1..]);
    }
  }

  lemma {:induction false} SendKeepsLeft(v: View, calls: seq<Request>, uses: seq<Use>, events: seq<Event>)
    requires PacketsLeft(v.wire, calls, uses)
    requires forall i | 0 <= i < |events| :: !events[i].NotifyPacketReceived?
    ensures PacketsLeft(OnEvents(v, events).wire, calls, uses)
    decreases |events|
  {
    if events != [] && !events[0].RequestClose? {
      if events[0].RequestSendPacket? {
        WireKeepsLeft(v.wire, calls, uses, Out(events[0].packet, events[0].room));
      }
      SendKeepsLeft(OnEvent(v, events[0]), calls, uses, events[1..]);
    }
  }

  /** What is sent before a request to close does get to the wire. */
  lemma {:induction false} SendLeaves(v: View, events: seq<Event>, p: Packet) returns (i: nat)
    requires SendContract(events, p) && Leaves(events)
    ensures var w := OnEvents(v, events).wire; i < |w| && w[i].Out? && w[i].packet == p
    decreases |events|
  {
    var w := OnEvent(v, events[0]);
    if events[0].RequestSendPacket? {
      i := |v.wire|;
      SendEventsOnlySend(w, events[1..]);
      assert w.wire[i] == Out(p, events[0].room);
    } else {
      var k :| 0 <= k < |events| && events[k].RequestSendPacket? && forall n | 0 <= n < k :: !events[n].RequestClose?;
      assert events[1..][k - 1].RequestSendPacket?;
      i := SendLeaves(w, events[1..], p);
    }
  }

  lemma TakeKeepsLeft(s: System, id: nat, events: seq<Event>)
    requires PacketsLeft(s.conn.wire, s.calls, s.uses) && Enabled(s, Take(id, events))
    ensures var s' := Next(s, Take(id, events)); PacketsLeft(s'.conn.wire, s'.calls, s'.uses)
  {
    SendKeepsLeft(s.conn, s.calls, s.uses, events);
    var s' := Next(s, Take(id, events));
    if Leaves(events) {
      var i := SendLeaves(s.conn, events, PacketFor(s.calls[s.channel.value], id));
      assert s'.conn.wire[i].packet == PacketFor(s'.calls[s.channel.value], id);
    }
  }

  lemma DatagramKeepsLeft(s: System, step: Step)
    requires PacketsLeft(s.conn.wire, s.calls, s.uses) && step.Datagram? && Enabled(s, step)
    ensures PacketsLeft(Next(s, step).conn.wire, s.calls, s.uses)
  {
    if step.established {
      var w := if s.conn.initSent then s.conn else OnEvents(s.conn, step.connectEvents).(initSent := true);
      if !s.conn.initSent {
        SendKeepsLeft(s.conn, s.calls, s.uses, step.connectEvents);
      }
      BatchesKeepLeft(w, s.calls, s.uses, s.acked, step.batches);
    }
  }

  /** More calls leave what was sent for the others where it is. */
  lemma CallKeepsLeft(wire: seq<Wire>, calls: seq<Request>, more: seq<Request>, uses: seq<Use>)
    requires PacketsLeft(wire, calls, uses) && calls <= more
    ensures PacketsLeft(wire, more, uses)
  {
    forall u, n: nat | 0 <= u < |uses| && LeftBefore(wire, n, calls, uses[u])
      ensures LeftBefore(wire, n, more, uses[u])
    {
      LongerWireKeepsLeft(wire, wire, n, n, calls, more, uses[u]);
    }
  }

  lemma {:induction false} RunKeepsLeft(s: System, steps: seq<Step>)
    requires PacketsLeft(s.conn.wire, s.calls, s.uses) && IsRun(s, steps)
    ensures var t := After(s, steps); PacketsLeft(t.conn.wire, t.calls, t.uses)
    decreases |steps|
  {
    if steps != [] {
      var t := Next(s, steps[0]);
      match steps[0] {
        case Take(id, events) => TakeKeepsLeft(s, id, events);
        case Datagram(_, _, _) => DatagramKeepsLeft(s, steps[0]);
        case _ => CallKeepsLeft(s.conn.wire, s.calls, t.calls, s.uses);
      }
      RunKeepsLeft(t, steps[1..]);
    }
  }

  /** This packet has left and after that an acknowledgement of this kind, for this use of its packet id,
      was handled. */
  ghost predicate Exchanged(s: System, u: nat, packet: Packet, kind: AckKind)
    requires u < |s.uses|
  {
    exists i, j, accepted | 0 <= i < j < |s.conn.wire| ::
      && s.conn.wire[i].Out? && s.conn.wire[i].packet == packet
      && s.conn.wire[j] == In(Ack(kind, s.uses[u].id, u, accepted))
  }

  /** A SUBSCRIBE for this topic has left, under the packet id acquired for this call, and a SUBACK came. */
  ghost predicate SubscribeAnswered(s: System, call: nat, topic: string) {
    exists u | 0 <= u < |s.uses| ::
      s.uses[u].call == call && Exchanged(s, u, SubscribePacket(s.uses[u].id, topic, AtLeastOnce), Suback)
  }

  /** A PUBLISH with this very message has left, under the packet id acquired for this call, and a PUBACK came. */
  ghost predicate PublishAnswered(s: System, call: nat, message: Message) {
    exists u | 0 <= u < |s.uses| ::
      s.uses[u].call == call && Exchanged(s, u, PublishPacket(s.uses[u].id, message), Puback)
  }

  lemma PacketBeforeAck(s: System, call: nat, j: int, u: nat, kind: AckKind, accepted: bool)
    requires PacketsLeft(s.conn.wire, s.calls, s.uses)
    requires AcknowledgedAt(s.conn.wire, s.calls, s.uses, call, j, u, kind, accepted)
    ensures Exchanged(s, u, PacketFor(s.calls[call], s.uses[u].id), kind)
  {
    assert LeftBefore(s.conn.wire, j, s.calls, s.uses[u]);
    var i :| 0 <= i < j && s.conn.wire[i].Out? && s.conn.wire[i].packet == PacketFor(s.calls[call], s.uses[u].id);
    assert s.conn.wire[j] == In(Ack(kind, s.uses[u].id, u, accepted));
  }

  /** The request and its answer, in the terms of its kind. */
  ghost predicate RequestAnswered(s: System, call: nat) {
    && call < |s.calls|
    && (s.calls[call].Subscribe? ==> SubscribeAnswered(s, call, s.calls[call].topic))
    && (s.calls[call].Publish? && s.calls[call].message.qos == AtLeastOnce ==>
          PublishAnswered(s, call, s.calls[call].message))
  }

  lemma AcknowledgedIsAnswered(s: System, call: nat)
    requires PacketsLeft(s.conn.wire, s.calls, s.uses) && Acknowledged(s.conn.wire, s.calls, s.uses, call)
    ensures RequestAnswered(s, call)
  {
    var j, u: nat, kind, accepted :| AcknowledgedAt(s.conn.wire, s.calls, s.uses, call, j, u, kind, accepted);
    PacketBeforeAck(s, call, j, u, kind, accepted);
  }

  /** Before a call returns Ok its own packet has left, with its topic and, for a `publish`, its payload,
      and then the acknowledgement of that packet was handled. */
  lemma OkMeansPacketLeft(steps: seq<Step>, call: nat)
    requires IsRun(NEW_SYSTEM, steps) && call in After(NEW_SYSTEM, steps).returned
    ensures RequestAnswered(After(NEW_SYSTEM, steps), call)
  {
    OkMeansAcknowledged(steps, call);
    RunKeepsLeft(NEW_SYSTEM, steps);
    AcknowledgedIsAnswered(After(NEW_SYSTEM, steps), call);
  }

  // ---- Incoming messages ----

  /** The PUBLISH messages handled, in order. */
  function Published(wire: seq<Wire>): seq<Message> {
    if wire == [] then []
    else
      var x := wire[|wire| - 1];
      Published(wire[..|wire| - 1]) + (if x.In? && x.packet.PublishPacket? then [x.packet.message] else [])
  }

  /** What `rcv` returned and what is queued, against what was handled. */
  ghost predicate InboxTrue(v: View, got: seq<Message>) {
    && v.receiverAlive && |v.inbox| <= MESSAGE_CAPACITY
    && IsSubsequence(got + v.inbox, Published(v.wire))
    && |Published(v.wire)| == |got| + |v.inbox| + |v.dropped|
    && (forall i | 0 <= i < |v.dropped| :: v.dropped[i].1 == MESSAGE_CAPACITY)
  }

  lemma PublishedSnoc(wire: seq<Wire>, x: Wire)
    ensures Published(wire + [x])
         == if x.In? && x.packet.PublishPacket? then Published(wire) + [x.packet.message] else Published(wire)
  {
    assert (wire + [x])[..|wire|] == wire;
  }

  lemma MessageKeepsInbox(v: View, got: seq<Message>, id: nat, m: Message)
    requires InboxTrue(v, got)
    ensures InboxTrue(OnEvent(v, NotifyPacketReceived(PublishPacket(id, m))), got)
  {
    PublishedSnoc(v.wire, In(PublishPacket(id, m)));
    if |v.inbox| < MESSAGE_CAPACITY {
      assert (got + v.inbox) + [m] == got + (v.inbox + [m]);
      SubsequenceKeep(got + v.inbox, Published(v.wire), m);
    } else {
      SubsequenceSkip(got + v.inbox, Published(v.wire), m);
    }
  }

  /** What is not a PUBLISH that came in leaves the account of messages alone. */
  lemma OtherWireKeepsInbox(v: View, w: View, got: seq<Message>, x: Wire)
    requires InboxTrue(v, got) && !(x.In? && x.packet.PublishPacket?)
    requires w.wire == v.wire + [x] && w.inbox == v.inbox && w.dropped == v.dropped
    requires w.receiverAlive == v.receiverAlive
    ensures InboxTrue(w, got)
  {
    PublishedSnoc(v.wire, x);
  }

  lemma EventKeepsInbox(v: View, got: seq<Message>, e: Event)
    requires InboxTrue(v, got)
    ensures InboxTrue(OnEvent(v, e), got)
  {
    if e.NotifyPacketReceived? && e.packet.PublishPacket? {
      MessageKeepsInbox(v, got, e.packet.id, e.packet.message);
    } else if e.RequestSendPacket? {
      OtherWireKeepsInbox(v, OnEvent(v, e), got, Out(e.packet, e.room));
    } else if e.NotifyPacketReceived? {
      OtherWireKeepsInbox(v, OnEvent(v, e), got, In(e.packet));
    }
  }

  lemma {:induction false} EventsKeepInbox(v: View, got: seq<Message>, events: seq<Event>)
    requires InboxTrue(v, got)
    ensures InboxTrue(OnEvents(v, events), got)
    decreases |events|
  {
    if events != [] && !events[0].RequestClose? {
      EventKeepsInbox(v, got, events[0]);
      EventsKeepInbox(OnEvent(v, events[0]), got, events[1..]);
    }
  }

  lemma {:induction false} BatchesKeepInbox(v: View, got: seq<Message>, batches: seq<seq<Event>>)
    requires InboxTrue(v, got)
    ensures InboxTrue(OnBatches(v, batches), got)
    decreases |batches|
  {
    if batches != [] {
      EventsKeepInbox(v, got, batches[0]);
      BatchesKeepInbox(OnEvents(v, batches[0]), got, batches[1..]);
    }
  }

  lemma StepKeepsInbox(s: System, step: Step)
    requires InboxTrue(s.conn, s.got) && Enabled(s, step)
    ensures InboxTrue(Next(s, step).conn, Next(s, step).got)
  {
    match step
    case Take(_, events) => EventsKeepInbox(s.conn, s.got, events);
    case Datagram(_, connectEvents, batches) =>
      EventsKeepInbox(s.conn, s.got, connectEvents);
      var w := if s.conn.initSent then s.conn else OnEvents(s.conn, connectEvents).(initSent := true);
      BatchesKeepInbox(w, s.got, batches);
    case Receive => assert s.got + s.conn.inbox == (s.got + [s.conn.inbox[0]]) + s.conn.inbox[1..];
    case _ =>
  }

  lemma {:induction false} RunKeepsInbox(s: System, steps: seq<Step>)
    requires InboxTrue(s.conn, s.got) && IsRun(s, steps)
    ensures InboxTrue(After(s, steps).conn, After(s, steps).got)
    decreases |steps|
  {
    if steps != [] {
      StepKeepsInbox(s, steps[0]);
      RunKeepsInbox(Next(s, steps[0]), steps[1..]);
    }
  }

  /** In every run what `rcv` returned, followed by what is queued, is an order-preserving part of the
      PUBLISH messages handled, unaltered; each of the others met a queue of 100. */
  lemma MessagesInOrder(steps: seq<Step>)
    requires IsRun(NEW_SYSTEM, steps)
    ensures var s := After(NEW_SYSTEM, steps);
            && IsSubsequence(s.got + s.conn.inbox, Published(s.conn.wire))
            && |Published(s.conn.wire)| == |s.got| + |s.conn.inbox| + |s.conn.dropped|
            && |s.conn.inbox| <= 100
            && (forall i | 0 <= i < |s.conn.dropped| :: s.conn.dropped[i].1 == 100)
  {
    RunKeepsInbox(NEW_SYSTEM, steps);
  }
}
