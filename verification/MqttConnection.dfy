/** The client's connection actor: it turns requests into MQTT packets, feeds the bytes of stream 0 to
    the MQTT protocol machine and acts on the events that machine returns. */
module MqttConnection {
  import opened Net

  datatype Qos = AtMostOnce | AtLeastOnce | ExactlyOnce

  datatype Message = Message(topic: string, qos: Qos, payload: Bytes)

  datatype Request = Subscribe(topic: string) | Publish(message: Message)

  datatype AckKind = Suback | Puback | Pubrec

  /** Packets, as far as the client tells them apart, and a little further.  `accepted` says whether the
      reason code is one of success; it is on the wire, and the code only logs it, if that.  `answers` says
      which use of the packet id an acknowledgement is for; it is not on the wire.  A PUBLISH has a packet id
      unless it is sent at most once. */
  datatype Packet =
    | ConnectPacket
    | Connack(accepted: bool)
    | SubscribePacket(id: nat, topic: string, qos: Qos)
    | PublishPacket(id: nat, message: Message)
    | Ack(kind: AckKind, id: nat, answers: nat, accepted: bool)
    | OtherPacket(tag: nat)

  /** What the MQTT protocol machine asks its user to do.  `room` is how many bytes of the packet the QUIC
      stream will take, 0 if the send fails. */
  datatype Event =
    | RequestSendPacket(packet: Packet, room: nat)
    | NotifyPacketReceived(packet: Packet)
    | RequestClose
    | NoEffect

  /** One MQTT packet leaving for stream 0, with the room there was for it, or arriving from there. */
  datatype Wire = Out(packet: Packet, room: nat) | In(packet: Packet)

  const MESSAGE_CAPACITY: nat := 100

  /** The notification object of a request is identified by the number of the call that made it. */
  datatype Current = Current(request: Request, id: nat, notify: nat)

  /** What the actor changes.  `connack` is the pending permit of the connect notification, `notified`
      the requests whose notification was given; `wire` and `dropped` are history: the packets in the order
      the client handled them, and the messages it dropped, each with the number queued then. */
  datatype View = View(
    current: Option<Current>, connack: bool, notified: set<nat>, inbox: seq<Message>, receiverAlive: bool,
    initSent: bool, wire: seq<Wire>, dropped: seq<(Message, nat)>)

  /** The kind of acknowledgement that completes a request. */
  predicate Completes(kind: AckKind, request: Request) {
    match kind
    case Suback => request.Subscribe?
    case Puback => request.Publish? && request.message.qos == AtLeastOnce
    case Pubrec => request.Publish? && request.message.qos == ExactlyOnce
  }

  function OnReceived(v: View, packet: Packet): View {
    match packet
    case Connack(_) => v.(connack := true)
    case Ack(kind, id, _, _) =>
      if v.current.Some? && v.current.value.id == id && Completes(kind, v.current.value.request)
      then v.(notified := v.notified + {v.current.value.notify}, current := None)
      else v
    case PublishPacket(_, m) =>
      if v.receiverAlive && |v.inbox| < MESSAGE_CAPACITY then v.(inbox := v.inbox + [m])
      else v.(dropped := v.dropped + [(m, |v.inbox|)])
    case _ => v
  }

  function OnEvent(v: View, event: Event): View {
    match event
    case RequestSendPacket(p, room) => v.(wire := v.wire + [Out(p, room)])
    case NotifyPacketReceived(p) => OnReceived(v.(wire := v.wire + [In(p)]), p)
    case _ => v
  }

  /** Events are handled in order, up to a request to close, which drops the rest of the list. */
  function OnEvents(v: View, events: seq<Event>): View
    decreases |events|
  {
    if events == [] || events[0].RequestClose? then v else OnEvents(OnEvent(v, events[0]), events[1..])
  }

  /** Whatever comes after a request to close is not acted on. */
  lemma {:induction false} CloseDropsRest(v: View, before: seq<Event>, rest: seq<Event>)
    ensures OnEvents(v, before + [RequestClose] + rest) == OnEvents(v, before)
    decreases |before|
  {
    var all := before + [RequestClose] + rest;
    if before != [] && !before[0].RequestClose? {
      assert all[1..] == before[1..] + [RequestClose] + rest;
      CloseDropsRest(OnEvent(v, before[0]), before[1..], rest);
    }
  }

  /** The lists of events for the successive reads of one drain of stream 0. */
  function OnBatches(v: View, batches: seq<seq<Event>>): View
    decreases |batches|
  {
    if batches == [] then v else OnBatches(OnEvents(v, batches[0]), batches[1..])
  }

  /** A datagram: the first one that finds the connection established sends CONNECT before anything is read. */
  function OnDatagram(v: View, established: bool, connectEvents: seq<Event>, batches: seq<seq<Event>>): View {
    if !established then v
    else
      var w := if v.initSent then v else OnEvents(v, connectEvents).(initSent := true);
      OnBatches(w, batches)
  }

  function OnRequest(v: View, request: Request, id: nat, notify: nat, events: seq<Event>): View {
    OnEvents(v, events).(current := Some(Current(request, id, notify)))
  }

  const NEW_CONNECTION := View(None, false, {}, [], true, false, [], [])

  class Connection {
    var current: Option<Current>
    var connack: bool
    var notified: set<nat>
    var inbox: seq<Message>
    var receiverAlive: bool
    var mqttInitSent: bool
    /** What stream 0 has accepted for sending. */
    var accepted0: Bytes
    const encode: Packet -> Bytes
    var wire: seq<Wire>
    var dropped: seq<(Message, nat)>

    constructor (encode: Packet -> Bytes)
      ensures this.encode == encode && State() == NEW_CONNECTION && Valid()
    {
      this.encode := encode;
      current, connack, notified, inbox, receiverAlive, mqttInitSent := None, false, {}, [], true, false;
      accepted0, wire, dropped := [], [], [];
    }

    function State(): View
      reads this
    {
      View(current, connack, notified, inbox, receiverAlive, mqttInitSent, wire, dropped)
    }

    ghost predicate Valid()
      reads this
    {
      accepted0 == Placed(encode, wire)
    }

    method HandleEvents(events: seq<Event>)
      requires Valid()
      modifies this
      ensures Valid() && State() == OnEvents(old(State()), events)
    {
      var i := 0;
      while i < |events|
        invariant i <= |events| && Valid()
        invariant OnEvents(State(), events[i..]) == OnEvents(old(State()), events)
      {
        assert events[i..][0] == events[i] && events[i..][1..] == events[i + 1..];
        match events[i] {
          case RequestSendPacket(packet, room) =>
            var buffer := encode(packet);
            accepted0 := accepted0 + buffer[..Min(room, |buffer|)];
            assert (wire + [Out(packet, room)])[..|wire|] == wire;
            wire := wire + [Out(packet, room)];
          case NotifyPacketReceived(packet) =>
            assert (wire + [In(packet)])[..|wire|] == wire;
            wire := wire + [In(packet)];
            HandlePacket(packet);
          case RequestClose => return;
          case NoEffect =>
        }
        i := i + 1;
      }
    }

    method HandlePacket(packet: Packet)
      modifies this`connack, this`current, this`notified, this`inbox, this`dropped
      ensures State() == OnReceived(old(State()), packet)
    {
      match packet {
        case Connack(_) => connack := true;
        case Ack(Puback, id, _, _) =>
          if current.Some? && current.value.request.Publish? && current.value.id == id
             && current.value.request.message.qos == AtLeastOnce {
            notified := notified + {current.value.notify};
            current := None;
          }
        case Ack(Pubrec, id, _, _) =>
          if current.Some? && current.value.request.Publish? && current.value.id == id
             && current.value.request.message.qos == ExactlyOnce {
            notified := notified + {current.value.notify};
            current := None;
          }
        case Ack(Suback, id, _, _) =>
          if current.Some? && current.value.request.Subscribe? && current.value.id == id {
            notified := notified + {current.value.notify};
            current := None;
          }
        case PublishPacket(_, m) =>
          // try_send on the message channel
          if receiverAlive && |inbox| < MESSAGE_CAPACITY {
            inbox := inbox + [m];
          } else {
            dropped := dropped + [(m, |inbox|)];
          }
        case _ =>
      }
    }

    /** A datagram that the QUIC library accepts; `batches` are the event lists of the successive reads. */
    method ProcessUdpPacket(established: bool, connectEvents: seq<Event>, batches: seq<seq<Event>>)
      requires Valid()
      modifies this
      ensures Valid() && State() == OnDatagram(old(State()), established, connectEvents, batches)
    {
      if established && !mqttInitSent {
        HandleEvents(connectEvents);
        mqttInitSent := true;
      }
      if established {
        var i := 0;
        while i < |batches|
          invariant i <= |batches| && Valid()
          invariant OnBatches(State(), batches[i..]) == OnDatagram(old(State()), established, connectEvents, batches)
        {
          assert batches[i..][0] == batches[i] && batches[i..][1..] == batches[i + 1..];
          HandleEvents(batches[i]);
          i := i + 1;
        }
      }
    }

    /** A request from the caller, for which packet id `id` was acquired. */
    method ProcessRequest(request: Request, id: nat, notify: nat, events: seq<Event>)
      requires Valid()
      modifies this
      ensures Valid() && State() == OnRequest(old(State()), request, id, notify, events)
      ensures current == Some(Current(request, id, notify))
    {
      HandleEvents(events);
      current := Some(Current(request, id, notify));
    }
  }

  /** What stream 0 has taken: of each packet that left, the part there was room for. */
  function Placed(encode: Packet -> Bytes, wire: seq<Wire>): Bytes {
    if wire == [] then []
    else
      var x := wire[|wire| - 1];
      Placed(encode, wire[..|wire| - 1])
      + (if x.Out? then encode(x.packet)[..Min(x.room, |encode(x.packet)|)] else [])
  }
}
