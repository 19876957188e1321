/** One client that follows RFC 9000 sections 8.1.2 and 17.2.5, talking to the proxy over a network that
    loses, repeats and reorders datagrams and carries anybody else's traffic as well. */
module Handshake {
  import opened Net
  import opened Token
  import opened Outbound
  import opened Manager
  import opened Safety
  import opened History
  import opened Retry

  /** The client's own choice: its first destination id and its address. */
  datatype Peer = Peer(id0: ConnectionId, ip: IpAddr)

  /** `dcid` and `token` are what the client puts into its packets now; `sent` is every datagram it ever
      sent, each of which the network may deliver at any later time, any number of times. */
  datatype World = World(proxy: State<ConnectionId>, dcid: ConnectionId, token: Bytes, sent: set<UdpPacket>)

  datatype Action =
    | Proxy(step: Step<ConnectionId>)
    | Send(pkt: UdpPacket)
    | TakeRetry(k: nat)
    | TakeServerId(id: nat)

  function Start(c: Peer): World { World(Initial(), c.id0, [], {}) }

  /** The id under which the client's connection should be known. */
  function HomeId(e: Endpoint, c: Peer): ConnectionId { DerivedId(e, c.id0) }

  /** A datagram somebody else sent, whose ids collide with none of this handshake's. */
  predicate Foreign(e: Endpoint, c: Peer, pkt: UdpPacket) {
    && Readable(e, pkt)
    && HeaderOf(e, pkt).dcid !in {c.id0, HomeId(e, c), DerivedId(e, HomeId(e, c))}
    && DerivedId(e, HeaderOf(e, pkt).dcid) != HomeId(e, c)
  }

  /** A datagram built from the client's present id and token, sent from its address. */
  predicate Built(e: Endpoint, c: Peer, w: World, pkt: UdpPacket) {
    && Readable(e, pkt) && pkt.src.host.value.ip == c.ip
    && HeaderOf(e, pkt).dcid == w.dcid
    && (HeaderOf(e, pkt).initial ==> HeaderOf(e, pkt).token == w.token)
  }

  predicate Allowed(e: Endpoint, c: Peer, w: World, a: Action) {
    match a
    case Proxy(step) =>
      && Enabled(w.proxy, step) && QuicRule(e, w.proxy, step)
      && (step.Arrive? ==> step.pkt in w.sent || Foreign(e, c, step.pkt))
    case Send(pkt) => Built(e, c, w, pkt)
    case TakeRetry(k) =>
      // A client takes at most one Retry, and only one that reached it and was made for its own first id.
      && w.token == [] && k < |w.proxy.socket| && w.proxy.socket[k].sender.None?
      && var m := w.proxy.socket[k].msg;
      && m.dst.host.Some? && m.dst.host.value.ip == c.ip
      && e.readRetry(m.data).Some? && e.readRetry(m.data).value.odcid == c.id0
    case TakeServerId(id) =>
      // The server's choice of id, learnt from the connection one of the client's datagrams opened.
      && id < |w.proxy.tasks| && w.proxy.tasks[id].born < |w.proxy.log|
      && w.proxy.log[w.proxy.tasks[id].born].pkt in w.sent
  }

  function Act(e: Endpoint, c: Peer, w: World, a: Action): World
    requires Allowed(e, c, w, a)
  {
    match a
    case Proxy(step) => w.(proxy := Next(w.proxy, step))
    case Send(pkt) => w.(sent := w.sent + {pkt})
    case TakeRetry(k) =>
      var r := e.readRetry(w.proxy.socket[k].msg.data).value;
      w.(dcid := r.scid, token := r.token)
    case TakeServerId(id) => w.(dcid := w.proxy.tasks[id].key)
  }

  ghost predicate Course(e: Endpoint, c: Peer, w: World, actions: seq<Action>)
    decreases |actions|
  {
    actions == [] || (Allowed(e, c, w, actions[0]) && Course(e, c, Act(e, c, w, actions[0]), actions[1..]))
  }

  ghost function End(e: Endpoint, c: Peer, w: World, actions: seq<Action>): World
    requires Course(e, c, w, actions)
    decreases |actions|
  {
    if actions == [] then w else End(e, c, Act(e, c, w, actions[0]), actions[1..])
  }

  // ---- The invariant ----

  /** The only two kinds of Initial packet the client ever sends, and the only ids it ever addresses. */
  predicate Own(e: Endpoint, c: Peer, pkt: UdpPacket) {
    && Readable(e, pkt) && pkt.src.host.value.ip == c.ip
    && var hdr := HeaderOf(e, pkt);
    && (hdr.dcid == c.id0 || hdr.dcid == HomeId(e, c))
    && (hdr.initial ==> hdr.token == [] || (hdr.dcid == HomeId(e, c) && hdr.token == Minted(e.tokenKey, c.ip, c.id0)))
  }

  /** Everything that reaches the proxy was sent by the client, or by somebody else under unrelated ids. */
  predicate Expected(e: Endpoint, c: Peer, w: World, pkt: UdpPacket) { pkt in w.sent || Foreign(e, c, pkt) }

  ghost predicate WorldOk(e: Endpoint, c: Peer, w: World) {
    && Codec(e) && Invariant(w.proxy) && Ledger(w.proxy) && QuicState(e, w.proxy) && AnswersTraced(w.proxy)
    && (w.dcid == c.id0 || w.dcid == HomeId(e, c))
    && (w.token == [] || (w.dcid == HomeId(e, c) && w.token == Minted(e.tokenKey, c.ip, c.id0)))
    && (forall pkt | pkt in w.sent :: Own(e, c, pkt))
    && (w.proxy.main.Looking? || w.proxy.main.Missed? || w.proxy.main.Sending? ==> Expected(e, c, w, w.proxy.main.pkt))
    && (forall j | 0 <= j < |w.proxy.log| :: Expected(e, c, w, w.proxy.log[j].pkt))
  }

  /** What opened a task tells whose it is: this client's, known by the derived id and accepted with the
      first id, or somebody else's under an unrelated id. */
  lemma OpenedByWhom(e: Endpoint, c: Peer, w: World, id: nat)
    requires WorldOk(e, c, w) && id < |w.proxy.tasks|
    ensures w.proxy.tasks[id].born < |w.proxy.log| && Readable(e, w.proxy.log[w.proxy.tasks[id].born].pkt)
    ensures var t := w.proxy.tasks[id];
            var pkt := w.proxy.log[t.born].pkt;
            if pkt in w.sent then t.key == HomeId(e, c) && OriginalId(e, pkt) == Some(c.id0)
            else t.key !in {c.id0, HomeId(e, c), DerivedId(e, HomeId(e, c))}
  {
    assert LifeOk(w.proxy, id);
    var r := w.proxy.log[w.proxy.tasks[id].born];
    assert QuicRecord(e, r) && Expected(e, c, w, r.pkt);
    if r.pkt in w.sent {
      MintedValidates(e.tokenKey, r.pkt.src.host.value, c.id0);
    }
  }

  lemma ProxyStepKeepsWorld(e: Endpoint, c: Peer, w: World, step: Step<ConnectionId>)
    requires WorldOk(e, c, w) && Allowed(e, c, w, Proxy(step))
    ensures WorldOk(e, c, Act(e, c, w, Proxy(step)))
  {
    StepKeepsProxy(e, w.proxy, step);
    LogStaysExpected(e, c, w, step);
  }

  lemma StepKeepsProxy(e: Endpoint, s: State<ConnectionId>, step: Step<ConnectionId>)
    requires Enabled(s, step) && QuicRule(e, s, step)
    requires Invariant(s) && Ledger(s) && QuicState(e, s) && AnswersTraced(s)
    ensures var t := Next(s, step); Invariant(t) && Ledger(t) && QuicState(e, t) && AnswersTraced(t)
  {
    StepKeepsInvariant(s, step);
    QuicStepKeepsState(e, s, step);
    StepKeepsLedger(s, step);
    StepKeepsAnswers(s, step);
  }

  lemma LogStaysExpected(e: Endpoint, c: Peer, w: World, step: Step<ConnectionId>)
    requires Allowed(e, c, w, Proxy(step))
    requires w.proxy.main.Looking? || w.proxy.main.Missed? || w.proxy.main.Sending? ==>
               Expected(e, c, w, w.proxy.main.pkt)
    requires forall j | 0 <= j < |w.proxy.log| :: Expected(e, c, w, w.proxy.log[j].pkt)
    ensures var s := Next(w.proxy, step);
            && (s.main.Looking? || s.main.Missed? || s.main.Sending? ==> Expected(e, c, w, s.main.pkt))
            && (forall j | 0 <= j < |s.log| :: Expected(e, c, w, s.log[j].pkt))
  {
    var s := Next(w.proxy, step);
    assert s.log == w.proxy.log || (s.log[..|w.proxy.log|] == w.proxy.log && |s.log| == |w.proxy.log| + 1
                                    && s.log[|w.proxy.log|].pkt == w.proxy.main.pkt);
  }

  /** The Retry that a client takes answers a packet of its own: it names the derived id and carries the token
      minted for the client's address and first id. */
  lemma RetryTakenIsOwn(e: Endpoint, c: Peer, w: World, k: nat)
    requires WorldOk(e, c, w) && Allowed(e, c, w, TakeRetry(k))
    ensures var r := e.readRetry(w.proxy.socket[k].msg.data).value;
            r.scid == HomeId(e, c) && r.token == Minted(e.tokenKey, c.ip, c.id0)
  {
    var m := w.proxy.socket[k].msg;
    assert OnRecord(w.proxy, m);
    var j: nat :| j < |w.proxy.log| && w.proxy.log[j].fate == Answered(m);
    assert QuicRecord(e, w.proxy.log[j]) && Expected(e, c, w, w.proxy.log[j].pkt);
  }

  lemma ClientActionKeepsWorld(e: Endpoint, c: Peer, w: World, a: Action)
    requires WorldOk(e, c, w) && Allowed(e, c, w, a) && !a.Proxy?
    ensures WorldOk(e, c, Act(e, c, w, a))
  {
    match a
    case TakeRetry(k) => RetryTakenIsOwn(e, c, w, k);
    case TakeServerId(id) => OpenedByWhom(e, c, w, id);
    case Send(_) =>
  }

  lemma {:induction false} CourseKeepsWorld(e: Endpoint, c: Peer, w: World, actions: seq<Action>)
    requires WorldOk(e, c, w) && Course(e, c, w, actions)
    ensures WorldOk(e, c, End(e, c, w, actions))
    decreases |actions|
  {
    if actions != [] {
      if actions[0].Proxy? {
        ProxyStepKeepsWorld(e, c, w, actions[0].step);
      } else {
        ClientActionKeepsWorld(e, c, w, actions[0]);
      }
      CourseKeepsWorld(e, c, Act(e, c, w, actions[0]), actions[1..]);
    }
  }

  lemma StartOk(e: Endpoint, c: Peer)
    requires Codec(e)
    ensures WorldOk(e, c, Start(c))
  {
  }

  /** With a codec that reads what it wrote, some course leads to this world. */
  ghost predicate CanHappen(e: Endpoint, c: Peer, w: World) {
    Codec(e) && exists actions :: Course(e, c, Start(c), actions) && End(e, c, Start(c), actions) == w
  }

  lemma CanHappenOk(e: Endpoint, c: Peer, w: World)
    requires CanHappen(e, c, w)
    ensures WorldOk(e, c, w)
  {
    var actions :| Course(e, c, Start(c), actions) && End(e, c, Start(c), actions) == w;
    StartOk(e, c);
    CourseKeepsWorld(e, c, Start(c), actions);
  }

  // ---- The handshake's identity ----

  /** A connection is keyed by H(d0) exactly if a datagram that the client sent opened it; it was then
      accepted with original id d0; and no two connections of the handshake are in the table together. */
  lemma HandshakeIdentity(e: Endpoint, c: Peer, w: World, id: nat)
    requires CanHappen(e, c, w) && id < |w.proxy.tasks|
    ensures var t := w.proxy.tasks[id];
            && t.born < |w.proxy.log|
            && var pkt := w.proxy.log[t.born].pkt;
            && Readable(e, pkt)
            && (t.key == HomeId(e, c) <==> pkt in w.sent)
            && (pkt in w.sent ==> Own(e, c, pkt) && OriginalId(e, pkt) == Some(c.id0))
    ensures forall other | 0 <= other < |w.proxy.tasks|
              && w.proxy.tasks[id].key == w.proxy.tasks[other].key
              && w.proxy.tasks[id].phase.Live() && w.proxy.tasks[other].phase.Live() :: other == id
  {
    CanHappenOk(e, c, w);
    OpenedByWhom(e, c, w, id);
  }

  /** While the handshake's connection is in the table, a datagram addressed to d0 or to H(d0) is routed
      to it, and nothing else is.  Without it, such a datagram is routed to no connection at all. */
  lemma HandshakeRouting(e: Endpoint, c: Peer, w: World)
    requires CanHappen(e, c, w) && Enabled(w.proxy, MainLookup)
    ensures Readable(e, w.proxy.main.pkt)
    ensures var dcid, table, after := HeaderOf(e, w.proxy.main.pkt).dcid, w.proxy.table, Next(w.proxy, MainLookup).main;
            var mine := dcid == c.id0 || dcid == HomeId(e, c);
            && (HomeId(e, c) in table && mine ==> after.Sending? && after.id == table[HomeId(e, c)])
            && (HomeId(e, c) in table && !mine && after.Sending? ==> after.id != table[HomeId(e, c)])
            && (HomeId(e, c) !in table && mine ==> after.Missed?)
  {
    CanHappenOk(e, c, w);
    forall k | k in w.proxy.table ensures k == HomeId(e, c) || k !in {c.id0, DerivedId(e, HomeId(e, c))} {
      OpenedByWhom(e, c, w, w.proxy.table[k]);
    }
  }

  // ---- The handshake does complete ----

  lemma {:induction false} CourseSnoc(e: Endpoint, c: Peer, w: World, actions: seq<Action>, a: Action)
    requires Course(e, c, w, actions) && Allowed(e, c, End(e, c, w, actions), a)
    ensures Course(e, c, w, actions + [a]) && End(e, c, w, actions + [a]) == Act(e, c, End(e, c, w, actions), a)
    decreases |actions|
  {
    if actions == [] {
      assert actions + [a] == [a] && [a][1..] == [];
    } else {
      assert (actions + [a])[1..] == actions[1..] + [a];
      CourseSnoc(e, c, Act(e, c, w, actions[0]), actions[1..], a);
    }
  }

  lemma CanGoOn(e: Endpoint, c: Peer, w: World, a: Action)
    requires CanHappen(e, c, w) && Allowed(e, c, w, a)
    ensures CanHappen(e, c, Act(e, c, w, a))
  {
    var actions :| Course(e, c, Start(c), actions) && End(e, c, Start(c), actions) == w;
    CourseSnoc(e, c, Start(c), actions, a);
  }

  /** The datagrams of one handshake: the first Initial, and the Initial that answers the Retry. */
  predicate Pair(e: Endpoint, c: Peer, ask: UdpPacket, answer: UdpPacket) {
    && AsksForRetry(e, ask) && HeaderOf(e, ask).dcid == c.id0 && ask.src.host.value.ip == c.ip
    && Readable(e, answer) && answer.src.host.value.ip == c.ip
    && HeaderOf(e, answer).initial && e.versionIsSupported(HeaderOf(e, answer).version)
    && HeaderOf(e, answer).dcid == HomeId(e, c) && HeaderOf(e, answer).token == Minted(e.tokenKey, c.ip, c.id0)
  }

  /** After the first Initial was answered with a Retry, that was sent, and the client took it. */
  function Retried(e: Endpoint, c: Peer, ask: UdpPacket): World
    requires Readable(e, ask)
  {
    World(State(map[], [], Idle, Nobody, EMPTY_CHANNEL,
                [Record(RouteOf(e, ask), ask, Answered(RetryPacket(e, ask)))],
                [Pending(None, RetryPacket(e, ask))]),
          HomeId(e, c), Minted(e.tokenKey, c.ip, c.id0), {ask})
  }

  /** A datagram of the client that matches no connection gets as far as the proxy's decision. */
  lemma ReachesDecision(e: Endpoint, c: Peer, w: World, pkt: UdpPacket)
    requires CanHappen(e, c, w) && pkt in w.sent && Readable(e, pkt)
    requires w.proxy.main.Idle? && w.proxy.lock.Nobody? && Find(w.proxy.table, RouteOf(e, pkt)).None?
    ensures CanHappen(e, c, w.(proxy := w.proxy.(main := Missed(RouteOf(e, pkt), pkt))))
  {
    var s, to := w.proxy, RouteOf(e, pkt);
    CanGoOn(e, c, w, Proxy(Arrive(to, pkt)));
    s := s.(main := Looking(to, pkt, false));
    CanGoOn(e, c, w.(proxy := s), Proxy(MainLock));
    s := s.(lock := ByMain, main := Looking(to, pkt, true));
    CanGoOn(e, c, w.(proxy := s), Proxy(MainLookup));
  }

  /** The first Initial is sent, arrives, and matches no connection. */
  function Asked(e: Endpoint, c: Peer, ask: UdpPacket): World
    requires Readable(e, ask)
  {
    Start(c).(proxy := Initial().(main := Missed(RouteOf(e, ask), ask)), sent := {ask})
  }

  lemma AskCanHappen(e: Endpoint, c: Peer, ask: UdpPacket)
    requires AsksForRetry(e, ask) && HeaderOf(e, ask).dcid == c.id0 && ask.src.host.value.ip == c.ip && Codec(e)
    ensures CanHappen(e, c, Asked(e, c, ask))
  {
    var w := Start(c);
    assert Course(e, c, w, []) && End(e, c, w, []) == w;
    CanGoOn(e, c, w, Send(ask));
    assert Act(e, c, w, Send(ask)) == w.(sent := {ask});
    ReachesDecision(e, c, w.(sent := {ask}), ask);
  }

  lemma RetryCanHappen(e: Endpoint, c: Peer, ask: UdpPacket)
    requires AsksForRetry(e, ask) && HeaderOf(e, ask).dcid == c.id0 && ask.src.host.value.ip == c.ip && Codec(e)
    ensures CanHappen(e, c, Retried(e, c, ask))
  {
    AskCanHappen(e, c, ask);
    var asked := Asked(e, c, ask);
    var reply := Proxy(MainDecide(Decide(e, ask, false)));
    CanGoOn(e, c, asked, reply);
    var answered := Act(e, c, asked, reply);
    CanGoOn(e, c, answered, Proxy(MainForward));
    var sent := asked.(proxy := Retried(e, c, ask).proxy);
    assert Act(e, c, answered, Proxy(MainForward)) == sent;
    CanGoOn(e, c, sent, TakeRetry(0));
  }

  /** From the decision to open a connection to its entry in the table. */
  lemma ReachesTable(e: Endpoint, c: Peer, w: World) returns (w': World)
    requires CanHappen(e, c, w) && w.proxy.main.Missed? && Readable(e, w.proxy.main.pkt) && w.proxy.lock.Nobody?
    requires Decide(e, w.proxy.main.pkt, true) == Create
    ensures CanHappen(e, c, w') && w.proxy.main.to.key in w'.proxy.table
    ensures w'.proxy.log == w.proxy.log + [Record(w.proxy.main.to, w.proxy.main.pkt, Opened(|w.proxy.tasks|))]
  {
    CanGoOn(e, c, w, Proxy(MainDecide(Create)));
    var s := Decided(w.proxy, Create);
    CanGoOn(e, c, w.(proxy := s), Proxy(MainLock));
    s := s.(lock := ByMain, main := Creating(|w.proxy.tasks|, true));
    CanGoOn(e, c, w.(proxy := s), Proxy(MainInsert));
    w' := w.(proxy := Next(s, MainInsert));
  }

  /** A client whose two datagrams arrive, and whose connection the QUIC library accepts, does get its
      connection, under H(d0). */
  lemma HandshakeCompletes(e: Endpoint, c: Peer, ask: UdpPacket, answer: UdpPacket) returns (w: World)
    requires Pair(e, c, ask, answer) && Codec(e)
    ensures CanHappen(e, c, w) && HomeId(e, c) in w.proxy.table
    ensures |w.proxy.log| == 2 && w.proxy.log[0].fate == Answered(RetryPacket(e, ask))
    ensures w.proxy.log[1] == Record(RouteOf(e, answer), answer, Opened(0))
  {
    RetryCanHappen(e, c, ask);
    w := Retried(e, c, ask);
    CanGoOn(e, c, w, Send(answer));
    assert Act(e, c, w, Send(answer)) == w.(sent := {ask} + {answer});
    w := w.(sent := {ask} + {answer});
    ReachesDecision(e, c, w, answer);
    w := w.(proxy := w.proxy.(main := Missed(RouteOf(e, answer), answer)));
    MintedValidates(e.tokenKey, answer.src.host.value, c.id0);
    w := ReachesTable(e, c, w);
  }

  /** One connection at a time is not one connection ever: the token does not expire, so whenever the
      entry is gone and the main loop is free, a late copy of the second datagram opens a new one. */
  lemma ReopensAfterRemoval(e: Endpoint, c: Peer, w: World, ask: UdpPacket, answer: UdpPacket) returns (w': World)
    requires CanHappen(e, c, w) && Pair(e, c, ask, answer) && answer in w.sent
    requires w.proxy.main.Idle? && w.proxy.lock.Nobody? && HomeId(e, c) !in w.proxy.table
    ensures CanHappen(e, c, w') && HomeId(e, c) in w'.proxy.table
    ensures w'.proxy.log == w.proxy.log + [Record(RouteOf(e, answer), answer, Opened(|w.proxy.tasks|))]
  {
    CanHappenOk(e, c, w);
    forall k | k in w.proxy.table ensures k != DerivedId(e, HomeId(e, c)) {
      OpenedByWhom(e, c, w, w.proxy.table[k]);
    }
    ReachesDecision(e, c, w, answer);
    MintedValidates(e.tokenKey, answer.src.host.value, c.id0);
    w' := ReachesTable(e, c, w.(proxy := w.proxy.(main := Missed(RouteOf(e, answer), answer))));
  }
}
