/** The task of one connection in QUIC mode: it terminates QUIC and relays stream 0 to the broker's TCP
    connection and back. */
module QuicRelay {
  import opened Net

  // ---- What is asked of the QUIC library ----

  /** The receive side of one stream: what has arrived in order and was not read yet, and whether an end
      mark is still to be delivered; or the peer has reset it, and the reader may not have been told yet. */
  datatype Stream = Flowing(unread: Bytes, endMark: bool) | WasReset(told: bool) {
    predicate HasData() { if Flowing? then unread != [] || endMark else !told }
  }

  /** What one datagram brings.  `ok` is false if the QUIC library rejects it; `peerCloses` if the client
      ends the connection with it. */
  datatype Delivery = Delivery(ok: bool, data: seq<Chunk>, established: bool, certificate: bool, peerCloses: bool)

  /** Bytes that become readable next on a stream, possibly with the end mark; or the end of the stream by
      reset, with which the bytes that were not read are gone. */
  datatype Chunk = Data(stream: nat, bytes: Bytes, endMark: bool) | Reset(stream: nat)

  predicate HasReset(data: seq<Chunk>, stream: nat) {
    exists i | 0 <= i < |data| :: data[i] == Reset(stream)
  }

  /** The bytes a list of chunks carries for one stream, up to a reset. */
  function BytesFor(data: seq<Chunk>, stream: nat): Bytes {
    if data == [] then []
    else
      var before, c := data[..|data| - 1], data[|data| - 1];
      BytesFor(before, stream) + (if c.Data? && c.stream == stream && !HasReset(before, stream) then c.bytes else [])
  }

  type Streams = map<nat, Stream>

  function UnreadIn(m: Streams, stream: nat): Bytes {
    if stream in m && m[stream].Flowing? then m[stream].unread else []
  }

  predicate ResetIn(m: Streams, stream: nat) {
    stream in m && m[stream].WasReset?
  }

  /** The receive buffers after one chunk has come in: what follows a reset is ignored. */
  function Put(m: Streams, c: Chunk): Streams {
    if ResetIn(m, c.stream) then m
    else
      match c
      case Reset(id) => m[id := WasReset(false)]
      case Data(id, bytes, endMark) =>
        m[id := Flowing(UnreadIn(m, id) + bytes, (id in m && m[id].endMark) || endMark)]
  }

  function Absorb(m: Streams, data: seq<Chunk>): Streams {
    if data == [] then m else Put(Absorb(m, data[..|data| - 1]), data[|data| - 1])
  }

  lemma HasResetSnoc(data: seq<Chunk>, stream: nat)
    requires data != []
    ensures HasReset(data, stream)
       <==> HasReset(data[..|data| - 1], stream) || data[|data| - 1] == Reset(stream)
  {
    var n := |data| - 1;
    if i :| 0 <= i < n && data[..n][i] == Reset(stream) {
      assert data[i] == Reset(stream);
    }
    if i :| 0 <= i < |data| && data[i] == Reset(stream) {
      assert i < n ==> data[..n][i] == Reset(stream);
    }
  }

  lemma PutUnread(m: Streams, c: Chunk, stream: nat)
    ensures ResetIn(Put(m, c), stream) == (ResetIn(m, stream) || c == Reset(stream))
    ensures !ResetIn(Put(m, c), stream) ==>
              UnreadIn(Put(m, c), stream)
              == UnreadIn(m, stream) + (if c.Data? && c.stream == stream then c.bytes else [])
    ensures ResetIn(Put(m, c), stream) ==> UnreadIn(Put(m, c), stream) == []
  {
    assert UnreadIn(m, stream) + [] == UnreadIn(m, stream);
  }

  lemma {:induction false} AbsorbUnread(m: Streams, data: seq<Chunk>, stream: nat)
    ensures ResetIn(Absorb(m, data), stream) == (ResetIn(m, stream) || HasReset(data, stream))
    ensures UnreadIn(Absorb(m, data), stream)
         == if ResetIn(m, stream) || HasReset(data, stream) then [] else UnreadIn(m, stream) + BytesFor(data, stream)
  {
    if data == [] {
      assert UnreadIn(m, stream) + [] == UnreadIn(m, stream);
    } else {
      var before, c := data[..|data| - 1], data[|data| - 1];
      AbsorbUnread(m, before, stream);
      HasResetSnoc(data, stream);
      PutUnread(Absorb(m, before), c, stream);
      var more := if c.Data? && c.stream == stream then c.bytes else [];
      assert (UnreadIn(m, stream) + BytesFor(before, stream)) + more
          == UnreadIn(m, stream) + (BytesFor(before, stream) + more);
    }
  }

  /** What was written stays the first part of what arrived, all of it but for the unread. */
  lemma ArrivalStaysInOrder(m: Streams, written: Bytes, arrived: Bytes, data: seq<Chunk>)
    requires written <= arrived && (!ResetIn(m, 0) ==> arrived == written + UnreadIn(m, 0))
    ensures var arrived' := arrived + (if ResetIn(m, 0) then [] else BytesFor(data, 0));
            && written <= arrived'
            && (!ResetIn(Absorb(m, data), 0) ==> arrived' == written + UnreadIn(Absorb(m, data), 0))
  {
    AbsorbUnread(m, data, 0);
    Regroup(written, UnreadIn(m, 0), BytesFor(data, 0));
  }

  lemma Regroup(a: Bytes, b: Bytes, c: Bytes)
    ensures (a + b) + c == a + (b + c)
  {
  }

  /** The QUIC connection as its user sees it.  Once either side has closed it nothing more comes in. */
  class QuicConn {
    var streams: Streams
    var established: bool
    var certificate: bool
    var closing: bool
    /** Everything that ever became readable on stream 0. */
    ghost var arrived0: Bytes
    /** What stream 0 has accepted for sending. */
    var accepted0: Bytes

    constructor ()
      ensures streams == map[] && !established && !certificate && !closing && arrived0 == [] && accepted0 == []
    {
      streams, established, certificate, closing := map[], false, false, false;
      arrived0, accepted0 := [], [];
    }

    predicate IsReadable(stream: nat)
      reads this`streams
    {
      stream in streams && streams[stream].HasData()
    }

    method Recv(d: Delivery) returns (ok: bool)
      modifies this`streams, this`established, this`certificate, this`closing, this`arrived0
      ensures ok == d.ok
      ensures old(closing) || !ok ==>
                && streams == old(streams) && established == old(established)
                && certificate == old(certificate) && closing == old(closing) && arrived0 == old(arrived0)
      ensures ok && !old(closing) ==>
                && established == (old(established) || d.established)
                && certificate == (old(certificate) || d.certificate)
                && closing == d.peerCloses
                && arrived0 == old(arrived0) + (if ResetIn(old(streams), 0) then [] else BytesFor(d.data, 0))
                && streams == Absorb(old(streams), d.data)
    {
      ok := d.ok;
      if ok && !closing {
        established := established || d.established;
        certificate := certificate || d.certificate;
        closing := d.peerCloses;
        arrived0 := arrived0 + (if ResetIn(streams, 0) then [] else BytesFor(d.data, 0));
        streams := Absorb(streams, d.data);
      }
    }

    /** Read at most `capacity` bytes of a stream, as many as the library pleases but at least one if
        there are any; an end mark comes with the last bytes or, if they are gone, in an empty read.
        A stream that was reset tells so once, by an error. */
    method StreamRecv(stream: nat, capacity: nat) returns (read: Option<Bytes>)
      requires capacity > 0
      modifies this`streams
      ensures read.Some? <==> old(IsReadable(stream)) && !ResetIn(old(streams), stream)
      ensures read.None? ==>
                && !IsReadable(stream)
                && (streams == old(streams) || streams == old(streams)[stream := WasReset(true)])
                && UnreadIn(streams, stream) == UnreadIn(old(streams), stream)
                && ResetIn(streams, stream) == ResetIn(old(streams), stream)
      ensures read.Some? ==>
                && |read.value| <= capacity
                && UnreadIn(old(streams), stream) == read.value + UnreadIn(streams, stream)
                && Measure(stream) < old(Measure(stream))
                && stream in streams && streams[stream].Flowing? && streams == old(streams)[stream := streams[stream]]
    {
      if !IsReadable(stream) {
        return None;
      }
      var s := streams[stream];
      if s.WasReset? {
        streams := streams[stream := WasReset(true)];
        return None;
      }
      var most := Min(capacity, |s.unread|);
      var n: nat :| (most > 0 ==> 0 < n) && n <= most;
      read := Some(s.unread[..n]);
      streams := streams[stream := Flowing(s.unread[n..], s.endMark && n < |s.unread|)];
    }

    /** Bytes still buffered and end marks still to be delivered. */
    function Measure(stream: nat): nat
      reads this`streams
    {
      if stream in streams && streams[stream].Flowing?
      then |streams[stream].unread| + (if streams[stream].endMark then 1 else 0)
      else 0
    }

    /** The readable streams, each once, in an order of the library's choosing. */
    method Readable() returns (ids: seq<nat>)
      ensures forall id: nat :: id in ids <==> IsReadable(id)
      ensures forall i, j | 0 <= i < j < |ids| :: ids[i] != ids[j]
    {
      var left := set id | id in streams && streams[id].HasData();
      ids := [];
      while left != {}
        invariant forall id: nat :: id in ids || id in left <==> IsReadable(id)
        invariant forall id | id in ids :: id !in left
        invariant forall i, j | 0 <= i < j < |ids| :: ids[i] != ids[j]
        decreases |left|
      {
        var id :| id in left;
        ids, left := ids + [id], left - {id};
      }
    }

    /** Stream 0 takes the first `room` bytes of a buffer. */
    method StreamSend(buffer: Bytes, room: nat)
      modifies this`accepted0
      ensures accepted0 == old(accepted0) + buffer[..Min(room, |buffer|)]
    {
      accepted0 := accepted0 + buffer[..Min(room, |buffer|)];
    }

    /** `close`: fails if the connection is being closed already, by whichever side. */
    method Close() returns (ok: bool)
      modifies this`closing
      ensures ok == !old(closing) && closing
    {
      ok := !closing;
      closing := true;
    }
  }

  /** The TCP connection to the broker.  `limit` is how many bytes it takes before it fails, if it does. */
  class TcpStream {
    const limit: Option<nat>
    var written: Bytes

    constructor (limit: Option<nat>)
      ensures this.limit == limit && written == []
    {
      this.limit := limit;
      written := [];
    }

    /** Write the whole buffer, or fail with a part of it written. */
    method WriteAll(buffer: Bytes) returns (ok: bool)
      requires Fits(written, limit)
      modifies this
      ensures written == Cut(old(written) + buffer, limit)
      ensures ok == Fits(old(written) + buffer, limit) && Fits(written, limit)
    {
      ok := Fits(written + buffer, limit);
      written := Cut(written + buffer, limit);
    }
  }

  predicate Fits(b: Bytes, limit: Option<nat>) { limit.Some? ==> |b| <= limit.value }

  function Cut(b: Bytes, limit: Option<nat>): Bytes {
    if Fits(b, limit) then b else b[..limit.value]
  }

  /** Writing a part now and the rest later comes to the same as writing all of it. */
  lemma CutStays(written: Bytes, part: Bytes, rest: Bytes, limit: Option<nat>)
    ensures (written + part) + rest == written + (part + rest)
    ensures Cut(written + part, limit) <= written + (part + rest)
    ensures !Fits(written + part, limit) ==>
              && !Fits(written + (part + rest), limit)
              && Cut(written + part, limit) == Cut(written + (part + rest), limit)
  {
  }

  // ---- The reference ----

  /** One branch of the task's select; a read of no bytes is the end of the TCP stream. */
  datatype Event =
    | Packet(pkt: UdpPacket, delivery: Delivery, certTimerElapsed: bool)
    | TcpRead(data: Bytes, room: nat, sendOk: bool)
    | TcpError
    | TcpWouldBlock
    | Timeout
    | Keepalive(sendOk: bool)
    | ChannelClosed
    | Cancelled

  /** A packet that the QUIC library wants sent; `ok` is false if the main loop is gone. */
  datatype Outgoing = Outgoing(source: SocketAddr, target: SocketAddr, data: Bytes, ok: bool)

  /** One turn of the loop: the branch, what the QUIC library says of the connection afterwards, and what
      it then wants sent. */
  datatype Turn = Turn(event: Event, closedNow: bool, flush: seq<Outgoing>)

  /** What the relay has done, seen from outside.  `pending` is the stream-0 data it has not read yet,
      `reset` whether the client has reset stream 0, and `toMain` what was sent to the main loop. */
  datatype View = View(pending: Bytes, reset: bool, written: Bytes, toStream: Bytes, toMain: seq<UdpPacket>,
                       established: bool, certificate: bool, closing: bool, ended: bool)

  /** What stays the same while the task runs: the numbers of both ASes, whether the broker was reached,
      and how much it takes. */
  datatype Setting = Setting(localIsdAs: nat, remoteIsdAs: nat, tcp: bool, limit: Option<nat>)

  predicate Addressed(pkt: UdpPacket) { pkt.src.host.Some? && pkt.dst.host.Some? }

  function AfterRecv(v: View, d: Delivery): View {
    if v.closing then v
    else
      var reset := v.reset || HasReset(d.data, 0);
      v.(pending := if reset then [] else v.pending + BytesFor(d.data, 0), reset := reset,
         established := v.established || d.established, certificate := v.certificate || d.certificate,
         closing := d.peerCloses)
  }

  function OnClose(v: View): View { v.(closing := true, ended := v.closing) }

  function OnDrain(v: View, limit: Option<nat>): View {
    var all := v.written + v.pending;
    v.(written := Cut(all, limit), pending := [], ended := !Fits(all, limit))
  }

  /** How a datagram changes the view: there are no streams other than 0, no chunks and no buffers here. */
  function OnPacket(v: View, here: Setting, pkt: UdpPacket, d: Delivery, certTimerElapsed: bool): View {
    if !Addressed(pkt) || !d.ok then v.(ended := true)
    else
      var w := AfterRecv(v, d);
      if !w.certificate then if certTimerElapsed then OnClose(w) else w
      else if w.established && here.tcp then OnDrain(w, here.limit)
      else w
  }

  function OnEvent(v: View, here: Setting, event: Event): View {
    match event
    case Packet(pkt, d, elapsed) => OnPacket(v, here, pkt, d, elapsed)
    case TcpRead(data, room, sendOk) =>
      if !here.tcp then v
      else if data == [] then OnClose(v)
      else if !sendOk then v.(ended := true)
      else v.(toStream := v.toStream + ReadPart(data)[..Min(room, |ReadPart(data)|)])
    case TcpError => if here.tcp then OnClose(v) else v
    case TcpWouldBlock => v
    case Timeout => v
    case Keepalive(sendOk) => v.(ended := v.established && !sendOk)
    case _ => v.(ended := true)
  }

  /** What one `try_read` gets of the bytes that are there. */
  function ReadPart(data: Bytes): Bytes { data[..Min(|data|, MAX_DATAGRAM_SIZE)] }

  /** A packet of the QUIC library as it goes to the main loop. */
  function PacketOf(here: Setting, o: Outgoing): UdpPacket {
    UdpPacket(ScionAddr(here.localIsdAs, Some(o.source)), ScionAddr(here.remoteIsdAs, Some(o.target)), o.data)
  }

  /** Packets are sent one by one until one cannot be. */
  function OnFlush(v: View, here: Setting, flush: seq<Outgoing>): View
    decreases |flush|
  {
    if v.ended || flush == [] then v
    else if flush[0].ok then OnFlush(v.(toMain := v.toMain + [PacketOf(here, flush[0])]), here, flush[1..])
    else v.(ended := true)
  }

  /** A read that would block goes straight back to the select. */
  function OnTurn(v: View, here: Setting, turn: Turn): View {
    var w := OnEvent(v, here, turn.event);
    if turn.event.TcpWouldBlock? || w.ended then w
    else if turn.closedNow then w.(ended := true)
    else OnFlush(w, here, turn.flush)
  }

  function OnTurns(v: View, here: Setting, turns: seq<Turn>): View {
    if turns == [] then v
    else
      var w := OnTurns(v, here, turns[..|turns| - 1]);
      if w.ended then w else OnTurn(w, here, turns[|turns| - 1])
  }

  /** The view once the first packets are sent and the attempt to reach the broker is over. */
  function Connected(v: View, here: Setting, first: seq<Outgoing>): View {
    var w := OnFlush(v, here, first);
    if w.ended || here.tcp then w else OnClose(w)
  }

  /** Two views that agree on everything but what a task that is over has left unread. */
  predicate SameOutcome(v: View, w: View) {
    if w.ended then v.(pending := []) == w.(pending := []) else v == w
  }

  // ---- The task ----

  class Connection {
    const conn: QuicConn
    const localIsdAs: nat
    const remoteIsdAs: nat
    var tcp: TcpStream?
    var toMain: seq<UdpPacket>
    var ended: bool

    constructor (conn: QuicConn, localIsdAs: nat, remoteIsdAs: nat)
      ensures this.conn == conn && this.localIsdAs == localIsdAs && this.remoteIsdAs == remoteIsdAs
      ensures tcp == null && toMain == [] && !ended
    {
      this.conn, this.localIsdAs, this.remoteIsdAs := conn, localIsdAs, remoteIsdAs;
      tcp, toMain, ended := null, [], false;
    }

    function State(): View
      reads this, conn, tcp
    {
      View(UnreadIn(conn.streams, 0), ResetIn(conn.streams, 0), if tcp == null then [] else tcp.written,
           conn.accepted0, toMain, conn.established, conn.certificate, conn.closing, ended)
    }

    function SettingFor(broker: TcpStream?): Setting {
      Setting(localIsdAs, remoteIsdAs, broker != null, if broker == null then None else broker.limit)
    }

    function Here(): Setting
      reads this
    {
      SettingFor(tcp)
    }

    /** What was written is, in order, the first part of what arrived on stream 0, all of it but for what is
        still unread or went with a reset. */
    ghost predicate InOrderSoFar()
      reads this, conn, tcp
    {
      && (tcp != null ==> Fits(tcp.written, tcp.limit))
      && State().written <= conn.arrived0
      && (!ended && !State().reset ==> conn.arrived0 == State().written + State().pending)
    }

    /** Without a broker connection nothing gets as far as using it. */
    ghost predicate Valid()
      reads this, conn, tcp
    {
      InOrderSoFar() && (tcp == null && !ended ==> conn.closing && !(conn.established && conn.certificate))
    }

    /** Bytes just read from stream 0 go to the broker; if they do not, the task ends. */
    method WriteToBroker(buffer: Bytes) returns (ok: bool)
      requires tcp != null && !ended && Fits(tcp.written, tcp.limit)
      requires conn.arrived0 == tcp.written + (buffer + State().pending)
      modifies this`ended, tcp
      ensures Valid() && ok == !ended && tcp.limit == old(tcp.limit)
      ensures State() == old(State()).(written := Cut(old(tcp.written) + buffer, tcp.limit), ended := !ok)
      ensures ok ==> State().written + State().pending == conn.arrived0
      ensures !ok ==> !Fits(conn.arrived0, tcp.limit) && State().written == Cut(conn.arrived0, tcp.limit)
    {
      CutStays(tcp.written, buffer, State().pending, tcp.limit);
      ok := tcp.WriteAll(buffer);
      ended := !ok;
    }

    /** Read one stream until there is no more data.  Stream 0 goes to the broker, the rest nowhere. */
    method DrainStream(stream: nat) returns (ok: bool)
      requires Valid() && !ended && tcp != null
      modifies this`ended, conn`streams, tcp
      ensures Valid() && ok == !ended && tcp.limit == old(tcp.limit)
      ensures ok ==> !conn.IsReadable(stream)
      ensures ok ==> forall id: nat :: conn.IsReadable(id) ==> old(conn.IsReadable(id))
      ensures stream != 0 ==> ok && State() == old(State())
      ensures stream == 0 ==> ok == Fits(old(State()).written + old(State()).pending, Here().limit)
      ensures stream == 0 ==> State().written == Cut(old(State()).written + old(State()).pending, Here().limit)
      ensures State().reset == old(State()).reset
      ensures stream == 0 && ok ==> State().pending == []
    {
      ghost var all := State().written + State().pending;
      ok := true;
      while true
        invariant Valid() && !ended && tcp == old(tcp)
        invariant State().written + State().pending == all && State().reset == old(State()).reset
        invariant stream != 0 ==> State() == old(State())
        invariant forall id: nat :: conn.IsReadable(id) ==> old(conn.IsReadable(id))
        decreases conn.Measure(stream)
      {
        var read := conn.StreamRecv(stream, MAX_DATAGRAM_SIZE);
        if read.None? {
          break;
        }
        if stream == 0 {
          ok := WriteToBroker(read.value);
          if !ok {
            return;
          }
        }
      }
    }

    method ReceiveDatagram(d: Delivery) returns (ok: bool)
      requires Valid() && !ended
      modifies conn`streams, conn`established, conn`certificate, conn`closing, conn`arrived0
      ensures InOrderSoFar()
      ensures ok == d.ok && State() == if ok then AfterRecv(old(State()), d) else old(State())
    {
      AbsorbUnread(conn.streams, d.data, 0);
      ArrivalStaysInOrder(conn.streams, State().written, conn.arrived0, d.data);
      ok := conn.Recv(d);
    }

    /** One datagram from the client. */
    method ProcessUdpPacket(pkt: UdpPacket, d: Delivery, certTimerElapsed: bool) returns (ok: bool)
      requires Valid() && !ended
      modifies this`ended, conn`streams, conn`established, conn`certificate, conn`closing, conn`arrived0, tcp
      ensures Valid() && Here() == old(Here())
      ensures SameOutcome(State(), OnPacket(old(State()), Here(), pkt, d, certTimerElapsed))
      ensures ok == !ended
      ensures ok && tcp != null && conn.established && conn.certificate ==> forall id: nat :: !conn.IsReadable(id)
    {
      ok := Addressed(pkt);
      if ok {
        ok := ReceiveDatagram(d);
      }
      if !ok {
        ended := true;
        return;
      }
      if !conn.certificate {
        if certTimerElapsed {
          ok := conn.Close();
          ended := !ok;
        }
        return;
      }
      if conn.established {
        ok := DrainAll();
      }
    }

    /** Every readable stream, in whatever order the library lists them. */
    method DrainAll() returns (ok: bool)
      requires Valid() && !ended && conn.established && conn.certificate
      modifies this`ended, conn`streams, tcp
      ensures Valid() && ok == !ended && tcp != null && Here() == old(Here())
      ensures SameOutcome(State(), OnDrain(old(State()), Here().limit))
      ensures ok ==> forall id: nat :: !conn.IsReadable(id)
    {
      var ids := conn.Readable();
      var n := 0;
      ok := true;
      ghost var v := State();
      assert v.pending == [] ==> v.written + v.pending == v.written;
      while n < |ids|
        invariant n <= |ids| && Valid() && !ended && Here() == old(Here())
        invariant forall id: nat :: conn.IsReadable(id) ==> id in ids[n..]
        invariant 0 in ids[n..] || 0 !in ids ==> State() == v
        invariant 0 in ids && 0 !in ids[n..] ==>
                    && Fits(v.written + v.pending, Here().limit)
                    && State() == v.(written := v.written + v.pending, pending := [])
      {
        var rest := ids[n..];
        assert rest[1..] == ids[n + 1..] && ids[n] == rest[0];
        ok := DrainStream(ids[n]);
        if !ok {
          return;
        }
        n := n + 1;
      }
    }

    /** Bytes from the broker, or the end of its stream. */
    method ProcessTcpRead(data: Bytes, room: nat, sendOk: bool)
      requires Valid() && !ended && tcp != null
      modifies this`ended, conn`accepted0, conn`closing
      ensures Valid() && State() == OnEvent(old(State()), Here(), TcpRead(data, room, sendOk))
      ensures conn.accepted0 == old(conn.accepted0) + (if sendOk then data[..Min(room, Min(|data|, 1200))] else [])
      ensures data == [] ==> conn.closing
    {
      var tcpBuf := data[..Min(|data|, MAX_DATAGRAM_SIZE)];
      if |tcpBuf| == 0 {
        var ok := conn.Close();
        ended := !ok;
      } else if sendOk {
        conn.StreamSend(tcpBuf, room);
      } else {
        ended := true;
      }
    }

    /** A branch of the select that brings no data. */
    method HandleSignal(event: Event)
      requires Valid() && !ended && !event.Packet? && !event.TcpRead?
      modifies this`ended, conn`closing
      ensures Valid() && State() == OnEvent(old(State()), Here(), event)
    {
      if event.TcpError? {
        if tcp != null {
          var ok := conn.Close();
          ended := !ok;
        }
      } else if event.Keepalive? {
        ended := conn.established && !event.sendOk;
      } else if event.ChannelClosed? || event.Cancelled? {
        ended := true;
      }
    }

    method HandleEvent(event: Event)
      requires Valid() && !ended
      modifies this`ended, conn, tcp
      ensures Valid() && Here() == old(Here())
      ensures SameOutcome(State(), OnEvent(old(State()), Here(), event))
    {
      match event {
        case Packet(pkt, d, elapsed) =>
          var ok := ProcessUdpPacket(pkt, d, elapsed);
        case TcpRead(data, room, sendOk) =>
          if tcp != null {
            ProcessTcpRead(data, room, sendOk);
          }
        case _ => HandleSignal(event);
      }
    }

    /** Everything the QUIC library wants sent goes to the main loop. */
    method Flush(flush: seq<Outgoing>)
      requires !ended
      modifies this`ended, this`toMain
      ensures State() == OnFlush(old(State()), Here(), flush)
      ensures old(InOrderSoFar()) ==> InOrderSoFar()
      ensures ended <==> exists i | 0 <= i < |flush| :: !flush[i].ok
      ensures old(toMain) <= toMain && (!ended ==> |toMain| == |old(toMain)| + |flush|)
      ensures ended ==> |toMain| < |old(toMain)| + |flush| && !flush[|toMain| - |old(toMain)|].ok
      ensures forall i: nat | |old(toMain)| + i < |toMain| ::
                && i < |flush| && flush[i].ok
                && toMain[|old(toMain)| + i].src == ScionAddr(localIsdAs, Some(flush[i].source))
                && toMain[|old(toMain)| + i].dst == ScionAddr(remoteIsdAs, Some(flush[i].target))
                && toMain[|old(toMain)| + i].data == flush[i].data
    {
      FlushCounts(State(), Here(), flush);
      FlushAdds(State(), Here(), flush);
      FlushLoop(flush);
    }

    /** One packet after the other, until one cannot be sent. */
    method FlushLoop(flush: seq<Outgoing>)
      requires !ended
      modifies this`ended, this`toMain
      ensures State() == OnFlush(old(State()), Here(), flush)
    {
      var i := 0;
      while i < |flush|
        invariant i <= |flush| && !ended
        invariant State() == old(State()).(toMain := toMain)
        invariant OnFlush(State(), Here(), flush[i..]) == OnFlush(old(State()), Here(), flush)
      {
        var rest := flush[i..];
        assert rest[0] == flush[i] && rest[1..] == flush[i + 1..];
        if !flush[i].ok {
          ended := true;
          return;
        }
        toMain := toMain + [PacketOf(Here(), flush[i])];
        i := i + 1;
      }
    }

    method TakeTurn(turn: Turn)
      requires Valid() && !ended
      modifies this`ended, this`toMain, conn, tcp
      ensures Valid() && Here() == old(Here())
      ensures SameOutcome(State(), OnTurn(old(State()), Here(), turn))
    {
      HandleEvent(turn.event);
      if turn.event.TcpWouldBlock? || ended {
        return;
      }
      if turn.closedNow {
        ended := true;
        return;
      }
      Flush(turn.flush);
    }

    /** The loop around the select: turn after turn, until one of them ends it. */
    method TakeTurns(turns: seq<Turn>, ghost here: Setting)
      requires Valid() && (!ended ==> Here() == here)
      modifies this`ended, this`toMain, conn, tcp
      ensures Valid() && SameOutcome(State(), OnTurns(old(State()), here, turns))
    {
      for i := 0 to |turns|
        invariant Valid() && (!ended ==> Here() == here)
        invariant SameOutcome(State(), OnTurns(old(State()), here, turns[..i]))
      {
        assert turns[..i + 1][..i] == turns[..i];
        if !ended {
          TakeTurn(turns[i]);
        }
      }
      assert turns[..|turns|] == turns;
    }

    /** The whole life of the task: send what the library has to send first, connect to the broker (`broker`
        is null if that fails), then take turns until one of them ends it.  The handshake cannot be over
        before the task starts, as only the client's first packet was processed by then. */
    method HandleClientConnection(first: seq<Outgoing>, broker: TcpStream?, turns: seq<Turn>)
      requires tcp == null && !ended && InOrderSoFar() && !(conn.established && conn.certificate)
      requires broker != null ==> broker.written == []
      modifies this, conn, broker
      ensures Valid()
      ensures var here := SettingFor(broker);
              SameOutcome(State(), OnTurns(Connected(old(State()), here, first), here, turns))
    {
      ghost var here := SettingFor(broker);
      ghost var v := State();
      FlushSetting(v, Here(), here, first);
      Flush(first);
      if !ended {
        tcp := broker;
        if broker == null {
          var ok := conn.Close();
          ended := !ok;
        }
      }
      ghost var start := State();
      assert start == Connected(v, here, first);
      TakeTurns(turns, here);
    }
  }

  lemma {:induction false} FlushSnoc(v: View, here: Setting, flush: seq<Outgoing>, o: Outgoing)
    ensures var w := OnFlush(v, here, flush);
            OnFlush(v, here, flush + [o])
            == if w.ended then w
               else if o.ok then w.(toMain := w.toMain + [PacketOf(here, o)]) else w.(ended := true)
    decreases |flush|
  {
    if !v.ended {
      if flush == [] {
        assert flush + [o] == [o] && [o][1..] == [];
      } else if flush[0].ok {
        assert (flush + [o])[1..] == flush[1..] + [o];
        FlushSnoc(v.(toMain := v.toMain + [PacketOf(here, flush[0])]), here, flush[1..], o);
      }
    }
  }

  /** Sending stops at the first packet that cannot be sent, and only there. */
  lemma {:induction false} FlushCounts(v: View, here: Setting, flush: seq<Outgoing>)
    requires !v.ended
    ensures var w, n := OnFlush(v, here, flush), |v.toMain|;
            && (w.ended <==> exists i | 0 <= i < |flush| :: !flush[i].ok)
            && v.toMain <= w.toMain && |w.toMain| <= n + |flush| && (!w.ended ==> |w.toMain| == n + |flush|)
            && (w.ended ==> |w.toMain| < n + |flush| && !flush[|w.toMain| - n].ok)
    decreases |flush|
  {
    if flush != [] {
      var before, last := flush[..|flush| - 1], flush[|flush| - 1];
      assert flush == before + [last];
      FlushSnoc(v, here, before, last);
      FlushCounts(v, here, before);
      if i :| 0 <= i < |before| && !before[i].ok {
        assert !flush[i].ok;
      }
    }
  }

  /** The packet that goes out for one of the library's: from the host and to the host that the library says. */
  ghost predicate GoesOutAs(here: Setting, o: Outgoing, p: UdpPacket) {
    && p.src == ScionAddr(here.localIsdAs, Some(o.source)) && p.dst == ScionAddr(here.remoteIsdAs, Some(o.target))
    && p.data == o.data
  }

  /** What sending adds, one packet after the other. */
  lemma {:induction false} FlushAdds(v: View, here: Setting, flush: seq<Outgoing>)
    requires !v.ended
    ensures var w, n := OnFlush(v, here, flush), |v.toMain|;
            forall i: nat | n + i < |w.toMain| ::
              i < |flush| && flush[i].ok && GoesOutAs(here, flush[i], w.toMain[n + i])
    decreases |flush|
  {
    if flush != [] {
      var before, last := flush[..|flush| - 1], flush[|flush| - 1];
      assert flush == before + [last];
      FlushSnoc(v, here, before, last);
      FlushCounts(v, here, before);
      FlushAdds(v, here, before);
    }
  }

  /** Sending does not depend on the broker. */
  lemma {:induction false} FlushSetting(v: View, a: Setting, b: Setting, flush: seq<Outgoing>)
    requires a.localIsdAs == b.localIsdAs && a.remoteIsdAs == b.remoteIsdAs
    ensures OnFlush(v, a, flush) == OnFlush(v, b, flush)
    decreases |flush|
  {
    if !v.ended && flush != [] && flush[0].ok {
      FlushSetting(v.(toMain := v.toMain + [PacketOf(a, flush[0])]), a, b, flush[1..]);
    }
  }

  // ---- What the relay guarantees, for every script ----

  /** The stream-0 bytes that one event brings. */
  function Brings(w: View, event: Event): Bytes {
    if !w.ended && !w.closing && !w.reset && event.Packet? && Addressed(event.pkt) && event.delivery.ok
    then BytesFor(event.delivery.data, 0) else []
  }

  /** The stream-0 bytes that a script brings before anything closes the connection or resets the stream. */
  function Arrived0(v: View, here: Setting, turns: seq<Turn>): Bytes {
    if turns == [] then v.pending
    else
      var before := turns[..|turns| - 1];
      Arrived0(v, here, before) + Brings(OnTurns(v, here, before), turns[|turns| - 1].event)
  }

  ghost predicate InOrder(w: View, all: Bytes) {
    && w.written <= all
    && (!w.ended ==> w.written + w.pending <= all)
    && (!w.ended && !w.reset ==> w.written + w.pending == all)
    && (w.written != [] ==> w.certificate && w.established)
  }

  /** More arrives: what was written, followed by what is unread, is still all there was or a part of it. */
  lemma RecvKeepsOrder(w: View, d: Delivery, all: Bytes)
    requires InOrder(w, all)
    ensures InOrder(AfterRecv(w, d), all + (if w.closing || w.reset then [] else BytesFor(d.data, 0)))
  {
    assert (w.written + w.pending) + BytesFor(d.data, 0) == w.written + (w.pending + BytesFor(d.data, 0));
    assert all + [] == all && w.written + [] == w.written;
  }

  lemma DrainKeepsOrder(w: View, limit: Option<nat>, all: Bytes)
    requires InOrder(w, all) && !w.ended && w.certificate && w.established
    ensures InOrder(OnDrain(w, limit), all)
  {
    assert (w.written + w.pending) + [] == w.written + w.pending;
  }

  lemma PacketKeepsOrder(w: View, here: Setting, pkt: UdpPacket, d: Delivery, elapsed: bool, all: Bytes)
    requires InOrder(w, all) && !w.ended && Addressed(pkt) && d.ok
    ensures InOrder(OnPacket(w, here, pkt, d, elapsed), all + Brings(w, Packet(pkt, d, elapsed)))
  {
    RecvKeepsOrder(w, d, all);
    var r := AfterRecv(w, d);
    if r.certificate && r.established {
      DrainKeepsOrder(r, here.limit, all + Brings(w, Packet(pkt, d, elapsed)));
    }
  }

  lemma EventKeepsOrder(w: View, here: Setting, event: Event, all: Bytes)
    requires InOrder(w, all) && !w.ended
    ensures InOrder(OnEvent(w, here, event), all + Brings(w, event))
  {
    if event.Packet? && Addressed(event.pkt) && event.delivery.ok {
      PacketKeepsOrder(w, here, event.pkt, event.delivery, event.certTimerElapsed, all);
    } else {
      assert all + [] == all;
    }
  }

  lemma {:induction false} FlushOnlySends(w: View, here: Setting, flush: seq<Outgoing>)
    ensures var v := OnFlush(w, here, flush); v == w.(toMain := v.toMain, ended := v.ended)
    ensures w.ended ==> OnFlush(w, here, flush) == w
    decreases |flush|
  {
    if !w.ended && flush != [] && flush[0].ok {
      FlushOnlySends(w.(toMain := w.toMain + [PacketOf(here, flush[0])]), here, flush[1..]);
    }
  }

  /** At every point of every run, what the broker was sent is in order the first part of what arrived on
      stream 0, all of it but for what is unread or went with a reset; and nothing is sent before the
      client has shown a certificate on an established connection. */
  lemma {:induction false} BrokerGetsPrefix(v: View, here: Setting, turns: seq<Turn>)
    requires v.written == []
    ensures InOrder(OnTurns(v, here, turns), Arrived0(v, here, turns))
  {
    if turns != [] {
      var before, last := turns[..|turns| - 1], turns[|turns| - 1];
      BrokerGetsPrefix(v, here, before);
      var w, all := OnTurns(v, here, before), Arrived0(v, here, before);
      if w.ended {
        assert all + Brings(w, last.event) == all;
      } else {
        EventKeepsOrder(w, here, last.event, all);
        FlushOnlySends(OnEvent(w, here, last.event), here, last.flush);
      }
    }
  }

  /** When a connection that is not closing begins to: the client closes it, or five seconds are over without a
      certificate, or the broker has ended its stream or failed. */
  lemma ClosesIff(v: View, here: Setting, event: Event)
    requires !v.ended && !v.closing
    ensures OnEvent(v, here, event).closing <==>
            || (event.Packet? && event.pkt.src.host.Some? && event.pkt.dst.host.Some? && event.delivery.ok
                && (event.delivery.peerCloses
                    || (event.certTimerElapsed && !v.certificate && !event.delivery.certificate)))
            || (here.tcp && event.TcpRead? && event.data == [])
            || (here.tcp && event.TcpError?)
  {
  }

  /** When an event ends the task, if it brings no datagram: the channel is closed, the task cancelled, the
      library refuses to send or to close, and nothing else. */
  lemma SignalEndsIff(v: View, here: Setting, event: Event)
    requires !v.ended && !event.Packet?
    ensures OnEvent(v, here, event).ended <==>
            || event.ChannelClosed? || event.Cancelled?
            || (event.Keepalive? && v.established && !event.sendOk)
            || (here.tcp && event.TcpRead? && event.data != [] && !event.sendOk)
            || (here.tcp && v.closing && (event.TcpError? || (event.TcpRead? && event.data == [])))
  {
  }

  /** When a datagram ends it: it has no address with an IP part, the library rejects it, the connection cannot
      be closed for want of a certificate, or the broker takes no more. */
  lemma PacketEndsIff(v: View, here: Setting, pkt: UdpPacket, d: Delivery, elapsed: bool)
    requires !v.ended
    ensures var w := AfterRecv(v, d);
            OnEvent(v, here, Packet(pkt, d, elapsed)).ended <==>
            || pkt.src.host.None? || pkt.dst.host.None? || !d.ok
            || (!w.certificate && elapsed && w.closing)
            || (w.certificate && w.established && here.tcp && here.limit.Some?
                && |w.written| + |w.pending| > here.limit.value)
  {
  }

  /** When a turn ends the task: its event does, or the connection is closed by then, or a packet cannot be
      sent; but a read that would block goes straight back to the select. */
  lemma TurnEndsIff(v: View, here: Setting, turn: Turn)
    requires !v.ended
    ensures OnTurn(v, here, turn).ended <==>
            || OnEvent(v, here, turn.event).ended
            || (!turn.event.TcpWouldBlock? && (turn.closedNow || exists i | 0 <= i < |turn.flush| :: !turn.flush[i].ok))
  {
    var w := OnEvent(v, here, turn.event);
    if !w.ended {
      FlushCounts(w, here, turn.flush);
    }
  }

  /** Before the loop: the task is over if a packet cannot be sent, or if the broker cannot be reached and the
      connection is closing already; without a broker it is closing from there on. */
  lemma ConnectedEndsIff(v: View, here: Setting, first: seq<Outgoing>)
    requires !v.ended
    ensures var w := Connected(v, here, first);
            && (w.ended <==> (exists i | 0 <= i < |first| :: !first[i].ok) || (!here.tcp && v.closing))
            && (!w.ended ==> (w.closing <==> v.closing || !here.tcp))
  {
    FlushCounts(v, here, first);
    FlushOnlySends(v, here, first);
  }

  /** Two events that bring the same on stream 0, in whatever chunks, and anything on other streams. */
  predicate SameOnStream0(a: Event, b: Event) {
    a == b ||
    (a.Packet? && b.Packet? && a == b.(delivery := a.delivery)
     && a.delivery == b.delivery.(data := a.delivery.data)
     && BytesFor(a.delivery.data, 0) == BytesFor(b.delivery.data, 0)
     && (HasReset(a.delivery.data, 0) <==> HasReset(b.delivery.data, 0)))
  }

  predicate SameScript(a: seq<Turn>, b: seq<Turn>) {
    |a| == |b| && forall i | 0 <= i < |a| ::
      SameOnStream0(a[i].event, b[i].event) && a[i].closedNow == b[i].closedNow && a[i].flush == b[i].flush
  }

  /** Other streams, what is sent or reset on them, and how stream 0 is cut into chunks never make a
      difference to anything the relay does. */
  lemma {:induction false} OtherStreamsIrrelevant(v: View, here: Setting, a: seq<Turn>, b: seq<Turn>)
    requires SameScript(a, b)
    ensures OnTurns(v, here, a) == OnTurns(v, here, b)
    decreases |a|
  {
    if a != [] {
      var n := |a| - 1;
      OtherStreamsIrrelevant(v, here, a[..n], b[..n]);
      var w := OnTurns(v, here, a[..n]);
      assert SameOnStream0(a[n].event, b[n].event);
      assert OnEvent(w, here, a[n].event) == OnEvent(w, here, b[n].event);
    }
  }

  /** What the broker had sent when one turn read it and sent it on, and how much of it there is room for, in
      the task's buffer of 1200 bytes and in stream 0. */
  function OfferOf(w: View, here: Setting, event: Event): seq<(Bytes, nat)> {
    if !w.ended && here.tcp && event.TcpRead? && event.data != [] && event.sendOk
    then [(event.data, Min(event.room, 1200))] else []
  }

  function Offers(v: View, here: Setting, turns: seq<Turn>): seq<(Bytes, nat)> {
    if turns == [] then []
    else
      var before := turns[..|turns| - 1];
      Offers(v, here, before) + OfferOf(OnTurns(v, here, before), here, turns[|turns| - 1].event)
  }
}
