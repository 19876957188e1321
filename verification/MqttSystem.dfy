/** The MQTT client as two actors, the caller and the connection, joined by a request channel of
    capacity 1, a message channel, and one-shot notifications.  The caller may abandon a request while
    it waits; the connection may die.  A run is any interleaving. */
module MqttSystem {
  import opened Net
  import opened MqttConnection

  /** Where the one caller stands.  Request number `call` is the index of the call that made it. */
  datatype Caller = Unconnected | Connecting | Ready | Handing(call: nat) | Awaiting(call: nat)

  /** One use of a packet id: for which call, and whether the packet left. */
  datatype Use = Use(id: nat, call: nat, sent: bool)

  /** `calls`, `uses`, `acked`, `abandoned`, `returned` and `got` are history: the requests made, the packet
      ids used for them, the uses the broker has acknowledged, the calls whose future was dropped, the calls
      that returned Ok and the messages that `rcv` returned. */
  datatype System = System(
    caller: Caller, channel: Option<nat>, conn: View, alive: bool, calls: seq<Request>, uses: seq<Use>,
    acked: set<nat>, abandoned: set<nat>, returned: seq<nat>, got: seq<Message>)
  {
    /** The caller is in this call. */
    predicate InCall(call: nat) { caller == Handing(call) || caller == Awaiting(call) }
  }

  const NEW_SYSTEM := System(Unconnected, None, NEW_CONNECTION, true, [], [], {}, {}, [], [])

  const MAX_PACKET_ID: nat := 0xFFFF

  datatype Step =
    | Connect
    | ConnectReturns
    | Call(request: Request)
    | Hand
    | HandFails
    | CallReturns
    | Abandon
    | Receive
    | Take(id: nat, events: seq<Event>)
    | Datagram(established: bool, connectEvents: seq<Event>, batches: seq<seq<Event>>)
    | Die

  function PacketFor(request: Request, id: nat): Packet {
    match request
    case Subscribe(topic) => SubscribePacket(id, topic, AtLeastOnce)
    case Publish(m) => PublishPacket(id, m)
  }

  // ---- What is asked of the MQTT protocol machine and of the broker ----

  /** Sending a packet asks for nothing but that packet to be sent. */
  predicate SendContract(events: seq<Event>, p: Packet) {
    forall i | 0 <= i < |events| ::
      (events[i].RequestSendPacket? ==> events[i].packet == p) && !events[i].NotifyPacketReceived?
  }

  /** A packet is sent before any request to close, which drops what comes after it. */
  predicate Leaves(events: seq<Event>) {
    exists i | 0 <= i < |events| ::
      events[i].RequestSendPacket? && forall k | 0 <= k < i :: !events[k].RequestClose?
  }

  /** Sending CONNECT on a new connection asks for it to be sent, first thing and once. */
  predicate ConnectContract(events: seq<Event>) {
    && events != [] && events[0].RequestSendPacket? && events[0].packet == ConnectPacket
    && forall i | 1 <= i < |events| :: events[i].NoEffect? || events[i].RequestClose?
  }

  /** Incoming bytes never make the machine send a request of its own; and the broker acknowledges each
      use of a packet id at most once, only after it was sent, and with the right kind (MQTT 5.0, 2.2.1). */
  predicate InboundContract(calls: seq<Request>, uses: seq<Use>, acked: set<nat>, e: Event) {
    match e
    case RequestSendPacket(p, _) => p.Ack? || p.OtherPacket?
    case NotifyPacketReceived(Ack(kind, id, u, _)) =>
      && u < |uses| && u !in acked && uses[u].sent && uses[u].id == id
      && uses[u].call < |calls| && Completes(kind, calls[uses[u].call])
    case _ => true
  }

  function Acked(acked: set<nat>, e: Event): set<nat> {
    if e.NotifyPacketReceived? && e.packet.Ack? then acked + {e.packet.answers} else acked
  }

  predicate BatchContract(calls: seq<Request>, uses: seq<Use>, acked: set<nat>, events: seq<Event>)
    decreases |events|
  {
    events == []
    || (InboundContract(calls, uses, acked, events[0])
        && BatchContract(calls, uses, Acked(acked, events[0]), events[1..]))
  }

  function AckedByBatch(acked: set<nat>, events: seq<Event>): set<nat>
    decreases |events|
  {
    if events == [] then acked else AckedByBatch(Acked(acked, events[0]), events[1..])
  }

  predicate BatchesContract(calls: seq<Request>, uses: seq<Use>, acked: set<nat>, batches: seq<seq<Event>>)
    decreases |batches|
  {
    batches == []
    || (BatchContract(calls, uses, acked, batches[0])
        && BatchesContract(calls, uses, AckedByBatch(acked, batches[0]), batches[1..]))
  }

  function AckedByBatches(acked: set<nat>, batches: seq<seq<Event>>): set<nat>
    decreases |batches|
  {
    if batches == [] then acked else AckedByBatches(AckedByBatch(acked, batches[0]), batches[1..])
  }

  /** The packet id allocator never hands out an id with a use that was sent and not acknowledged yet. */
  predicate NotInUse(uses: seq<Use>, acked: set<nat>, id: nat) {
    forall u | 0 <= u < |uses| && uses[u].sent && u !in acked :: uses[u].id != id
  }

  predicate Enabled(s: System, step: Step) {
    match step
    case Connect => s.caller.Unconnected?
    case ConnectReturns => s.caller.Connecting? && s.conn.connack
    case Call(request) => s.caller.Ready? && (request.Publish? ==> request.message.qos == AtLeastOnce)
    case Hand => s.caller.Handing? && s.channel.None? && s.alive
    case HandFails => s.caller.Handing? && !s.alive
    case CallReturns => s.caller.Awaiting? && s.caller.call in s.conn.notified
    case Abandon => s.caller.Handing? || s.caller.Awaiting?
    case Receive => s.caller.Ready? && s.conn.inbox != []
    case Take(id, events) =>
      && s.alive && s.channel.Some? && s.channel.value < |s.calls|
      && 1 <= id <= MAX_PACKET_ID && NotInUse(s.uses, s.acked, id)
      && SendContract(events, PacketFor(s.calls[s.channel.value], id))
    case Datagram(established, connectEvents, batches) =>
      && s.alive && !s.caller.Unconnected?
      && (established && !s.conn.initSent ==> ConnectContract(connectEvents))
      && (established ==> BatchesContract(s.calls, s.uses, s.acked, batches))
    case Die => s.alive
  }

  function Next(s: System, step: Step): System
    requires Enabled(s, step)
  {
    match step
    case Connect => s.(caller := Connecting)
    case ConnectReturns => s.(caller := Ready, conn := s.conn.(connack := false))
    case Call(request) => s.(caller := Handing(|s.calls|), calls := s.calls + [request])
    case Hand => s.(caller := Awaiting(s.caller.call), channel := Some(s.caller.call))
    case HandFails => s.(caller := Ready)
    case CallReturns => s.(caller := Ready, returned := s.returned + [s.caller.call])
    case Abandon => s.(caller := Ready, abandoned := s.abandoned + {s.caller.call})
    case Receive => s.(got := s.got + [s.conn.inbox[0]], conn := s.conn.(inbox := s.conn.inbox[1..]))
    case Take(id, events) =>
      var call := s.channel.value;
      s.(channel := None, conn := OnRequest(s.conn, s.calls[call], id, call, events),
         uses := s.uses + [Use(id, call, Leaves(events))])
    case Datagram(established, connectEvents, batches) =>
      s.(conn := OnDatagram(s.conn, established, connectEvents, batches),
         acked := if established then AckedByBatches(s.acked, batches) else s.acked)
    case Die => s.(alive := false, channel := None)
  }

  predicate IsRun(s: System, steps: seq<Step>)
    decreases |steps|
  {
    steps == [] || (Enabled(s, steps[0]) && IsRun(Next(s, steps[0]), steps[1..]))
  }

  function After(s: System, steps: seq<Step>): System
    requires IsRun(s, steps)
    decreases |steps|
  {
    if steps == [] then s else After(Next(s, steps[0]), steps[1..])
  }

  lemma {:induction false} RunSnoc(s: System, a: seq<Step>, step: Step)
    requires IsRun(s, a) && Enabled(After(s, a), step)
    ensures IsRun(s, a + [step]) && After(s, a + [step]) == Next(After(s, a), step)
    decreases |a|
  {
    if a == [] {
      assert a + [step] == [step] && [step][1..] == [];
    } else {
      assert (a + [step])[1..] == a[1..] + [step];
      RunSnoc(Next(s, a[0]), a[1..], step);
    }
  }

  lemma {:induction false} RunSplit(s: System, a: seq<Step>, step: Step)
    requires IsRun(s, a + [step])
    ensures IsRun(s, a) && Enabled(After(s, a), step) && After(s, a + [step]) == Next(After(s, a), step)
    decreases |a|
  {
    if a == [] {
      assert a + [step] == [step] && [step][1..] == [];
    } else {
      assert (a + [step])[1..] == a[1..] + [step];
      RunSplit(Next(s, a[0]), a[1..], step);
    }
  }

  lemma {:induction false} RunConcat(s: System, a: seq<Step>, b: seq<Step>)
    requires IsRun(s, a) && IsRun(After(s, a), b)
    ensures IsRun(s, a + b) && After(s, a + b) == After(After(s, a), b)
    decreases |a|
  {
    if a == [] {
      assert a + b == b;
    } else {
      assert (a + b)[1..] == a[1..] + b;
      RunConcat(Next(s, a[0]), a[1..], b);
    }
  }

  // ---- Acknowledgements reach the request they are for ----

  /** The acknowledgement of the very use of a packet id made for this call has been handled. */
  ghost predicate Acknowledged(wire: seq<Wire>, calls: seq<Request>, uses: seq<Use>, call: nat) {
    exists j, u: nat, kind, accepted :: AcknowledgedAt(wire, calls, uses, call, j, u, kind, accepted)
  }

  ghost predicate AcknowledgedAt(wire: seq<Wire>, calls: seq<Request>, uses: seq<Use>, call: nat, j: int, u: nat,
                                 kind: AckKind, accepted: bool)
  {
    && 0 <= j < |wire| && u < |uses| && wire[j] == In(Ack(kind, uses[u].id, u, accepted))
    && uses[u].call == call && uses[u].sent && call < |calls| && Completes(kind, calls[call])
  }

  /** The pending request is the one the latest packet id was acquired for. */
  ghost predicate CurrentIsLatest(v: View, calls: seq<Request>, uses: seq<Use>) {
    v.current.Some? ==>
      && uses != [] && var last := uses[|uses| - 1];
      last.call < |calls| && v.current.value == Current(calls[last.call], last.id, last.call)
  }

  ghost predicate AcksTrue(v: View, calls: seq<Request>, uses: seq<Use>) {
    && CurrentIsLatest(v, calls, uses)
    && forall n | n in v.notified :: Acknowledged(v.wire, calls, uses, n)
  }

  /** An id in use belongs to one use, unless a later use was given it after the acknowledgement. */
  ghost predicate IdsDistinct(uses: seq<Use>, acked: set<nat>) {
    forall u, w | 0 <= u < w < |uses| && uses[u].sent && u !in acked :: uses[u].id != uses[w].id
  }

  lemma LaterWireKeepsAcks(v: View, w: View, calls: seq<Request>, uses: seq<Use>, more: seq<Request>, later: seq<Use>)
    requires forall n | n in v.notified :: Acknowledged(v.wire, calls, uses, n)
    requires v.wire <= w.wire && w.notified == v.notified && calls <= more && uses <= later
    ensures forall n | n in w.notified :: Acknowledged(w.wire, more, later, n)
  {
    forall n | n in w.notified ensures Acknowledged(w.wire, more, later, n) {
      var j, u: nat, kind, accepted :| AcknowledgedAt(v.wire, calls, uses, n, j, u, kind, accepted);
      assert AcknowledgedAt(w.wire, more, later, n, j, u, kind, accepted);
    }
  }

  lemma InboundKeepsAcks(v: View, calls: seq<Request>, uses: seq<Use>, acked: set<nat>, e: Event)
    requires AcksTrue(v, calls, uses) && IdsDistinct(uses, acked) && InboundContract(calls, uses, acked, e)
    ensures AcksTrue(OnEvent(v, e), calls, uses) && IdsDistinct(uses, Acked(acked, e))
  {
    var w := OnEvent(v, e);
    LaterWireKeepsAcks(v, w.(notified := v.notified), calls, uses, calls, uses);
    if w.notified != v.notified {
      var n := v.current.value.notify;
      var u := e.packet.answers;
      assert u == |uses| - 1;
      assert AcknowledgedAt(w.wire, calls, uses, n, |v.wire|, u, e.packet.kind, e.packet.accepted);
    }
  }

  lemma {:induction false} BatchKeepsAcks(v: View, calls: seq<Request>, uses: seq<Use>, acked: set<nat>,
                                          events: seq<Event>)
    requires AcksTrue(v, calls, uses) && IdsDistinct(uses, acked) && BatchContract(calls, uses, acked, events)
    ensures AcksTrue(OnEvents(v, events), calls, uses) && IdsDistinct(uses, AckedByBatch(acked, events))
    decreases |events|
  {
    if events != [] {
      InboundKeepsAcks(v, calls, uses, acked, events[0]);
      var w := if events[0].RequestClose? then v else OnEvent(v, events[0]);
      BatchKeepsAcks(w, calls, uses, Acked(acked, events[0]), events[1..]);
    }
  }

  lemma {:induction false} BatchesKeepAcks(v: View, calls: seq<Request>, uses: seq<Use>, acked: set<nat>,
                                           batches: seq<seq<Event>>)
    requires AcksTrue(v, calls, uses) && IdsDistinct(uses, acked) && BatchesContract(calls, uses, acked, batches)
    ensures AcksTrue(OnBatches(v, batches), calls, uses) && IdsDistinct(uses, AckedByBatches(acked, batches))
    decreases |batches|
  {
    if batches != [] {
      BatchKeepsAcks(v, calls, uses, acked, batches[0]);
      BatchesKeepAcks(OnEvents(v, batches[0]), calls, uses, AckedByBatch(acked, batches[0]), batches[1..]);
    }
  }

  /** Handling the events of a send changes nothing but the record of what left. */
  lemma {:induction false} SendEventsOnlySend(v: View, events: seq<Event>)
    requires forall i | 0 <= i < |events| :: !events[i].NotifyPacketReceived?
    ensures var w := OnEvents(v, events); w == v.(wire := w.wire) && v.wire <= w.wire
    decreases |events|
  {
    if events != [] && !events[0].RequestClose? {
      SendEventsOnlySend(OnEvent(v, events[0]), events[1..]);
    }
  }

  ghost predicate AcksInv(s: System) {
    && AcksTrue(s.conn, s.calls, s.uses) && IdsDistinct(s.uses, s.acked)
    && (s.channel.Some? ==> s.channel.value < |s.calls|)
    && (s.caller.Handing? || s.caller.Awaiting? ==> s.caller.call < |s.calls|)
    && (forall n | n in s.returned :: n in s.conn.notified)
  }

  lemma TakeKeepsAcks(s: System, id: nat, events: seq<Event>)
    requires AcksInv(s) && Enabled(s, Take(id, events))
    ensures AcksInv(Next(s, Take(id, events)))
  {
    SendEventsOnlySend(s.conn, events);
    var s' := Next(s, Take(id, events));
    LaterWireKeepsAcks(s.conn, s'.conn, s.calls, s.uses, s'.calls, s'.uses);
  }

  lemma DatagramKeepsAcks(s: System, step: Step)
    requires AcksInv(s) && step.Datagram? && Enabled(s, step)
    ensures AcksInv(Next(s, step))
  {
    if step.established {
      var w := if s.conn.initSent then s.conn else OnEvents(s.conn, step.connectEvents).(initSent := true);
      if !s.conn.initSent {
        SendEventsOnlySend(s.conn, step.connectEvents);
        LaterWireKeepsAcks(s.conn, w, s.calls, s.uses, s.calls, s.uses);
      }
      BatchesKeepAcks(w, s.calls, s.uses, s.acked, step.batches);
      BatchesOnlyNotify(w, step.batches);
    }
  }

  lemma {:induction false} BatchesOnlyNotify(v: View, batches: seq<seq<Event>>)
    ensures v.notified <= OnBatches(v, batches).notified
    decreases |batches|
  {
    if batches != [] {
      BatchOnlyNotifies(v, batches[0]);
      BatchesOnlyNotify(OnEvents(v, batches[0]), batches[1..]);
    }
  }

  lemma {:induction false} BatchOnlyNotifies(v: View, events: seq<Event>)
    ensures v.notified <= OnEvents(v, events).notified
    decreases |events|
  {
    if events != [] && !events[0].RequestClose? {
      BatchOnlyNotifies(OnEvent(v, events[0]), events[1..]);
    }
  }

  lemma CallerStepKeepsAcks(s: System, step: Step)
    requires AcksInv(s) && Enabled(s, step) && !step.Take? && !step.Datagram?
    ensures AcksInv(Next(s, step))
  {
    var s' := Next(s, step);
    LaterWireKeepsAcks(s.conn, s'.conn, s.calls, s.uses, s'.calls, s'.uses);
  }

  lemma {:induction false} RunKeepsAcks(s: System, steps: seq<Step>)
    requires AcksInv(s) && IsRun(s, steps)
    ensures AcksInv(After(s, steps))
    decreases |steps|
  {
    if steps != [] {
      match steps[0] {
        case Take(id, events) => TakeKeepsAcks(s, id, events);
        case Datagram(_, _, _) => DatagramKeepsAcks(s, steps[0]);
        case _ => CallerStepKeepsAcks(s, steps[0]);
      }
      RunKeepsAcks(Next(s, steps[0]), steps[1..]);
    }
  }

  /** A `subscribe` or `publish` that returned Ok did so after an acknowledgement was handled that has the
      right kind for its request and answers the use of the packet id acquired for that very call, even
      if earlier calls were abandoned at any point. */
  lemma OkMeansAcknowledged(steps: seq<Step>, call: nat)
    requires IsRun(NEW_SYSTEM, steps) && call in After(NEW_SYSTEM, steps).returned
    ensures var s := After(NEW_SYSTEM, steps); Acknowledged(s.conn.wire, s.calls, s.uses, call)
  {
    RunKeepsAcks(NEW_SYSTEM, steps);
  }
}
