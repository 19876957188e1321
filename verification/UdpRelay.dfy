/** The task of one session in UDP mode: it forwards the client's datagrams to the broker and the
    broker's datagrams to the client, translating addresses, until it ends. */
module UdpRelay {
  import opened Net

  /** One turn of the task's select.  `ok` says whether the send that the branch performs succeeds.  The
      task's socket is not connected: a datagram on it may come from anybody. */
  datatype Event =
    | FromMain(pkt: UdpPacket, ok: bool)
    | FromSocket(sender: SocketAddr, data: Bytes, ok: bool)
    | ReceiveError
    | Timeout
    | ChannelClosed
    | Cancelled

  /** Everything the task changes.  `ended` is set once it leaves its loop, for whatever reason;
      `lost` is what it had taken but could not forward. */
  datatype View = View(client: ScionAddr, toBroker: seq<Bytes>, toClient: seq<UdpPacket>, lost: seq<Bytes>, ended: bool)

  function Received(d: Bytes): Bytes { d[..Min(|d|, MAX_DATAGRAM_SIZE)] }

  /** The effect of one event on a session that is still running. */
  function OnEvent(proxy: ScionAddr, v: View, event: Event): View {
    match event
    case FromMain(pkt, ok) =>
      if ok then v.(client := pkt.src, toBroker := v.toBroker + [pkt.data])
      else v.(client := pkt.src, lost := v.lost + [pkt.data], ended := true)
    case FromSocket(_, d, ok) =>
      if ok then v.(toClient := v.toClient + [UdpPacket(proxy, v.client, Received(d))])
      else v.(ended := true)
    case ReceiveError => v
    case _ => v.(ended := true)
  }

  function OnEvents(proxy: ScionAddr, v: View, events: seq<Event>): View {
    if events == [] then v
    else
      var w := OnEvents(proxy, v, events[..|events| - 1]);
      if w.ended then w else OnEvent(proxy, w, events[|events| - 1])
  }

  function Fresh(client: ScionAddr): View { View(client, [], [], [], false) }

  /** One session task.  `buf` is the receive buffer it reuses for every datagram from the broker. */
  class Session {
    const proxyAddr: ScionAddr
    var remoteClientAddr: ScionAddr
    var toBroker: seq<Bytes>
    var toClient: seq<UdpPacket>
    var lost: seq<Bytes>
    var ended: bool

    constructor (proxyAddr: ScionAddr, client: ScionAddr)
      ensures this.proxyAddr == proxyAddr && State() == Fresh(client)
    {
      this.proxyAddr := proxyAddr;
      remoteClientAddr, toBroker, toClient, lost, ended := client, [], [], [], false;
    }

    function State(): View
      reads this
    {
      View(remoteClientAddr, toBroker, toClient, lost, ended)
    }

    /** `recv_from`: the datagram, or as much of it as fits, replaces the front of the buffer. */
    static method ReceiveFrom(buf: array<byte>, datagram: Bytes) returns (size: nat)
      modifies buf
      ensures size == Min(|datagram|, buf.Length) && buf[..size] == datagram[..size]
      ensures buf[size..] == old(buf[size..])
    {
      size := Min(|datagram|, buf.Length);
      for i := 0 to size
        invariant buf[..i] == datagram[..i] && buf[i..] == old(buf[i..])
      {
        assert old(buf[i..])[1..] == old(buf[i + 1..]);
        buf[i] := datagram[i];
      }
    }

    /** `bound` says whether the task's own socket could be bound. */
    method HandleClientConnection(bound: bool, events: seq<Event>)
      requires State() == Fresh(remoteClientAddr)
      modifies this
      ensures bound ==> State() == OnEvents(proxyAddr, old(State()), events)
      ensures !bound ==> State() == old(State()).(ended := true)
    {
      var buf := new byte[MAX_DATAGRAM_SIZE];
      if !bound {
        ended := true;
        return;
      }
      for i := 0 to |events|
        invariant State() == OnEvents(proxyAddr, old(State()), events[..i])
      {
        assert events[..i + 1][..i] == events[..i];
        if !ended {
          match events[i] {
            case FromMain(pkt, ok) =>
              if pkt.src != remoteClientAddr {
                remoteClientAddr := pkt.src;
              }
              if ok {
                toBroker := toBroker + [pkt.data];
              } else {
                lost, ended := lost + [pkt.data], true;
              }
            case FromSocket(_, datagram, ok) =>
              var size := ReceiveFrom(buf, datagram);
              var packet := UdpPacket(proxyAddr, remoteClientAddr, buf[..size]);
              if ok {
                toClient := toClient + [packet];
              } else {
                ended := true;
              }
            case ReceiveError =>
            case _ => ended := true;
          }
        }
      }
      assert events[..|events|] == events;
    }
  }

  // ---- What the session's loop guarantees ----

  /** The part of a script that the loop gets to before it ends. */
  function Handled(proxy: ScionAddr, v: View, events: seq<Event>): seq<Event> {
    if events == [] then []
    else
      var before := events[..|events| - 1];
      if OnEvents(proxy, v, before).ended then Handled(proxy, v, before)
      else Handled(proxy, v, before) + [events[|events| - 1]]
  }

  /** The packets taken from the session's channel. */
  function Taken(events: seq<Event>): seq<UdpPacket> {
    if events == [] then []
    else
      var last := events[|events| - 1];
      Taken(events[..|events| - 1]) + (if last.FromMain? then [last.pkt] else [])
  }

  /** The datagrams that were read from the task's socket and passed on, whoever sent them. */
  function Replies(events: seq<Event>): seq<Bytes> {
    if events == [] then []
    else
      var last := events[|events| - 1];
      Replies(events[..|events| - 1]) + (if last.FromSocket? && last.ok then [last.data] else [])
  }

  /** Those of them that one sender sent. */
  function RepliesOf(broker: SocketAddr, events: seq<Event>): seq<Bytes> {
    if events == [] then []
    else
      var last := events[|events| - 1];
      RepliesOf(broker, events[..|events| - 1])
      + (if last.FromSocket? && last.ok && last.sender == broker then [last.data] else [])
  }

  predicate OnlyFrom(broker: SocketAddr, events: seq<Event>) {
    forall i | 0 <= i < |events| && events[i].FromSocket? && events[i].ok :: events[i].sender == broker
  }

  function Payloads(packets: seq<UdpPacket>): (r: seq<Bytes>)
    ensures |r| == |packets| && forall i | 0 <= i < |r| :: r[i] == packets[i].data
  {
    if packets == [] then [] else Payloads(packets[..|packets| - 1]) + [packets[|packets| - 1].data]
  }

  function RepliesTo(proxy: ScionAddr, client: ScionAddr, datagrams: seq<Bytes>): (r: seq<UdpPacket>)
    ensures |r| == |datagrams|
  {
    if datagrams == [] then []
    else
      var n := |datagrams| - 1;
      RepliesTo(proxy, client, datagrams[..n]) + [UdpPacket(proxy, client, Received(datagrams[n]))]
  }

  /** The address never changed, the broker got the packets taken, in order and unaltered, except for
      one on which the session ended, and every datagram read was passed on to the client, in order. */
  ghost predicate Faithful(proxy: ScionAddr, client: ScionAddr, v: View, done: seq<Event>) {
    && v.client == client
    && v.toClient == RepliesTo(proxy, client, Replies(done))
    && Payloads(Taken(done)) == v.toBroker + v.lost
    && |v.lost| <= 1 && (v.lost != [] ==> v.ended)
  }

  lemma TakenSnoc(done: seq<Event>, event: Event)
    ensures Taken(done + [event]) == if event.FromMain? then Taken(done) + [event.pkt] else Taken(done)
  {
    assert (done + [event])[..|done|] == done;
  }

  lemma RepliesSnoc(done: seq<Event>, event: Event)
    ensures Replies(done + [event])
         == if event.FromSocket? && event.ok then Replies(done) + [event.data] else Replies(done)
  {
    assert (done + [event])[..|done|] == done;
  }

  lemma RepliesToSnoc(proxy: ScionAddr, client: ScionAddr, datagrams: seq<Bytes>, d: Bytes)
    ensures RepliesTo(proxy, client, datagrams + [d])
         == RepliesTo(proxy, client, datagrams) + [UdpPacket(proxy, client, Received(d))]
  {
    assert (datagrams + [d])[..|datagrams|] == datagrams;
  }

  lemma PayloadsSnoc(packets: seq<UdpPacket>, p: UdpPacket)
    ensures Payloads(packets + [p]) == Payloads(packets) + [p.data]
  {
    assert (packets + [p])[..|packets|] == packets;
  }

  /** While nothing is lost, one more packet is one more forwarded, or the first lost. */
  lemma OneMore<T>(all: seq<T>, forwarded: seq<T>, lost: seq<T>, x: T)
    requires all == forwarded + lost && lost == []
    ensures all + [x] == (forwarded + [x]) + lost && all + [x] == forwarded + (lost + [x])
  {
  }

  lemma PacketKeepsFaithful(proxy: ScionAddr, client: ScionAddr, v: View, done: seq<Event>, pkt: UdpPacket, ok: bool)
    requires Faithful(proxy, client, v, done) && !v.ended && pkt.src == client
    ensures Faithful(proxy, client, OnEvent(proxy, v, FromMain(pkt, ok)), done + [FromMain(pkt, ok)])
  {
    TakenSnoc(done, FromMain(pkt, ok));
    RepliesSnoc(done, FromMain(pkt, ok));
    PayloadsSnoc(Taken(done), pkt);
    OneMore(Payloads(Taken(done)), v.toBroker, v.lost, pkt.data);
  }

  lemma DatagramKeepsFaithful(proxy: ScionAddr, client: ScionAddr, v: View, done: seq<Event>, event: Event)
    requires Faithful(proxy, client, v, done) && event.FromSocket?
    ensures Faithful(proxy, client, OnEvent(proxy, v, event), done + [event])
  {
    TakenSnoc(done, event);
    RepliesSnoc(done, event);
    RepliesToSnoc(proxy, client, Replies(done), event.data);
  }

  lemma OtherEventKeepsFaithful(proxy: ScionAddr, client: ScionAddr, v: View, done: seq<Event>, event: Event)
    requires Faithful(proxy, client, v, done) && !event.FromMain? && !event.FromSocket?
    ensures Faithful(proxy, client, OnEvent(proxy, v, event), done + [event])
  {
    TakenSnoc(done, event);
    RepliesSnoc(done, event);
  }

  lemma EventKeepsFaithful(proxy: ScionAddr, client: ScionAddr, v: View, done: seq<Event>, event: Event)
    requires Faithful(proxy, client, v, done) && !v.ended
    requires event.FromMain? ==> event.pkt.src == client
    ensures Faithful(proxy, client, OnEvent(proxy, v, event), done + [event])
  {
    match event
    case FromMain(pkt, ok) => PacketKeepsFaithful(proxy, client, v, done, pkt, ok);
    case FromSocket(_, _, _) => DatagramKeepsFaithful(proxy, client, v, done, event);
    case _ => OtherEventKeepsFaithful(proxy, client, v, done, event);
  }

  /** If every packet in the channel comes from the client the session was made for, the session is
      faithful to it at every point of every run. */
  lemma {:induction false} SessionIsFaithful(proxy: ScionAddr, client: ScionAddr, events: seq<Event>)
    requires forall i | 0 <= i < |events| && events[i].FromMain? :: events[i].pkt.src == client
    ensures Faithful(proxy, client, OnEvents(proxy, Fresh(client), events), Handled(proxy, Fresh(client), events))
  {
    if events != [] {
      var before := events[..|events| - 1];
      SessionIsFaithful(proxy, client, before);
      if !OnEvents(proxy, Fresh(client), before).ended {
        EventKeepsFaithful(proxy, client, OnEvents(proxy, Fresh(client), before),
                           Handled(proxy, Fresh(client), before), events[|events| - 1]);
      }
    }
  }

  /** The datagrams come back in order, to the client alone, and each of them byte for byte if and only if
      it fits the receive buffer; a longer one is cut short. */
  lemma {:induction false} ReplyIntactIffItFits(proxy: ScionAddr, client: ScionAddr, datagrams: seq<Bytes>, i: nat)
    requires i < |datagrams|
    ensures var r := RepliesTo(proxy, client, datagrams)[i];
            && r.src == proxy && r.dst == client && r.data <= datagrams[i] && |r.data| == Min(|datagrams[i]|, 1200)
            && (r.data == datagrams[i] <==> |datagrams[i]| <= 1200)
    decreases |datagrams|
  {
    var n := |datagrams| - 1;
    if i < n {
      ReplyIntactIffItFits(proxy, client, datagrams[..n], i);
      assert datagrams[..n][i] == datagrams[i];
    }
  }

  /** The session ends at its timeout, when its channel closes, when it is cancelled, or with a send that fails,
      and at nothing else: a read that fails, in particular, does not end it. */
  lemma {:induction false} EndsIff(proxy: ScionAddr, client: ScionAddr, events: seq<Event>)
    ensures OnEvents(proxy, Fresh(client), events).ended <==>
            exists i | 0 <= i < |events| ::
              || events[i].Timeout? || events[i].ChannelClosed? || events[i].Cancelled?
              || (events[i].FromMain? && !events[i].ok) || (events[i].FromSocket? && !events[i].ok)
  {
    if events != [] {
      EndsIff(proxy, client, events[..|events| - 1]);
      assert forall i | 0 <= i < |events| - 1 :: events[..|events| - 1][i] == events[i];
    }
  }

  /** The session answers to where its client's last packet came from, or, before there was one, to where the
      datagram came from that created it. */
  lemma {:induction false} AnswersLastSource(proxy: ScionAddr, client: ScionAddr, events: seq<Event>)
    ensures var taken := Taken(Handled(proxy, Fresh(client), events));
            OnEvents(proxy, Fresh(client), events).client == if taken == [] then client else taken[|taken| - 1].src
  {
    if events != [] {
      var before := events[..|events| - 1];
      AnswersLastSource(proxy, client, before);
      if !OnEvents(proxy, Fresh(client), before).ended {
        TakenSnoc(Handled(proxy, Fresh(client), before), events[|events| - 1]);
      }
    }
  }

  lemma {:induction false} TakenContains(events: seq<Event>, i: nat)
    requires i < |events| && events[i].FromMain?
    ensures events[i].pkt in Taken(events)
  {
    var before := events[..|events| - 1];
    if i < |before| {
      TakenContains(before, i);
      assert before[i] == events[i];
    }
  }

  lemma {:induction false} PayloadsSubsequence(a: seq<UdpPacket>, b: seq<UdpPacket>)
    requires IsSubsequence(a, b)
    ensures IsSubsequence(Payloads(a), Payloads(b))
    decreases |b|
  {
    if a != [] {
      var a', b', x := a[..|a| - 1], b[..|b| - 1], b[|b| - 1].data;
      if a[|a| - 1] == b[|b| - 1] {
        PayloadsSubsequence(a', b');
        SubsequenceKeep(Payloads(a'), Payloads(b'), x);
      } else {
        PayloadsSubsequence(a, b');
        SubsequenceSkip(Payloads(a), Payloads(b'), x);
      }
    }
  }

  lemma {:induction false} RepliesOfCount(broker: SocketAddr, events: seq<Event>)
    ensures |RepliesOf(broker, events)| <= |Replies(events)|
    ensures |RepliesOf(broker, events)| == |Replies(events)| <==> OnlyFrom(broker, events)
  {
    if events != [] {
      var n := |events| - 1;
      RepliesOfCount(broker, events[..n]);
      assert OnlyFrom(broker, events) <==>
             OnlyFrom(broker, events[..n]) && (events[n].FromSocket? && events[n].ok ==> events[n].sender == broker);
    }
  }

  lemma {:induction false} AllAreBrokers(broker: SocketAddr, events: seq<Event>)
    requires OnlyFrom(broker, events)
    ensures Replies(events) == RepliesOf(broker, events)
  {
    if events != [] {
      AllAreBrokers(broker, events[..|events| - 1]);
    }
  }

  lemma RepliesAreBrokersIff(broker: SocketAddr, events: seq<Event>)
    ensures Replies(events) == RepliesOf(broker, events) <==> OnlyFrom(broker, events)
  {
    RepliesOfCount(broker, events);
    if OnlyFrom(broker, events) {
      AllAreBrokers(broker, events);
    }
  }

  /** What the loop sends to its client are the broker's datagrams, if and only if nobody else wrote to the
      task's socket while it ran: the loop does not look at the sender. */
  lemma ClientHearsBrokerIff(proxy: ScionAddr, client: ScionAddr, broker: SocketAddr, events: seq<Event>)
    requires forall i | 0 <= i < |events| && events[i].FromMain? :: events[i].pkt.src == client
    ensures var done := Handled(proxy, Fresh(client), events);
            OnEvents(proxy, Fresh(client), events).toClient == RepliesTo(proxy, client, RepliesOf(broker, done))
            <==> OnlyFrom(broker, done)
  {
    var done := Handled(proxy, Fresh(client), events);
    SessionIsFaithful(proxy, client, events);
    RepliesOfCount(broker, done);
    RepliesAreBrokersIff(broker, done);
  }

  /** And it does fail: a datagram that anybody else writes to the socket goes to the client like the
      broker's, and nothing in it tells them apart. */
  lemma StrangerReachesClient(proxy: ScionAddr, client: ScionAddr, broker: SocketAddr, other: SocketAddr, data: Bytes)
    requires other != broker
    ensures var events := [FromSocket(other, data, true)];
            && OnEvents(proxy, Fresh(client), events).toClient == [UdpPacket(proxy, client, Received(data))]
            && OnEvents(proxy, Fresh(client), events)
               == OnEvents(proxy, Fresh(client), [FromSocket(broker, data, true)])
            && RepliesOf(broker, Handled(proxy, Fresh(client), events)) == []
  {
    var a, b := [FromSocket(other, data, true)], [FromSocket(broker, data, true)];
    assert a[..0] == [] && b[..0] == [];
    assert Handled(proxy, Fresh(client), a) == [] + [a[0]] == a;
  }
}
