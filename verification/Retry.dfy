/** QUIC mode: what the proxy does with a datagram that matches no connection (stateless Retry, RFC 9000
    sections 8.1.2 and 17.2.5), and what every run of the proxy in this mode guarantees. */
module Retry {
  import opened Net
  import opened Token
  import opened Outbound
  import opened Manager
  import opened Safety
  import opened Progress
  import opened History

  const MAX_CONN_ID_LEN: nat := 20

  type ConnectionId = Bytes

  /** A parsed packet header.  `token` is meaningful in Initial packets, where it is always present. */
  datatype Header = Header(initial: bool, version: nat, dcid: ConnectionId, scid: ConnectionId, token: Bytes)

  /** What a client finds in a Retry packet: whom it is for, the id of the packet it answers (which its
      integrity tag covers), the id to use from now on, and the token. */
  datatype RetryHeader = RetryHeader(dcid: ConnectionId, odcid: ConnectionId, scid: ConnectionId, token: Bytes,
                                     version: nat)

  /** The keys and codecs of one proxy.  Header parsing and the bytes of Version Negotiation and Retry
      packets belong to the QUIC library and are arbitrary functions here, as is what a client reads in them. */
  datatype Endpoint = Endpoint(
    local: ScionAddr,
    tokenKey: Mac,
    connIdSeed: Mac,
    parse: Bytes -> Option<Header>,
    versionIsSupported: nat -> bool,
    negotiateVersion: (ConnectionId, ConnectionId) -> Bytes,
    retry: (ConnectionId, ConnectionId, ConnectionId, Bytes, nat) -> Bytes,
    readRetry: Bytes -> Option<RetryHeader>,
    readNegotiation: Bytes -> Option<(ConnectionId, ConnectionId)>)

  /** A client reads in such packets what the library wrote into them, and does not take one for the other. */
  ghost predicate Codec(e: Endpoint) {
    && (forall scid, dcid, id, token, version ::
          e.readRetry(e.retry(scid, dcid, id, token, version)) == Some(RetryHeader(scid, dcid, id, token, version)))
    && (forall scid, dcid ::
          && e.readNegotiation(e.negotiateVersion(scid, dcid)) == Some((scid, dcid))
          && e.readRetry(e.negotiateVersion(scid, dcid)).None?)
  }

  /** The id the proxy derives from a destination connection id. */
  function DerivedId(e: Endpoint, dcid: ConnectionId): ConnectionId {
    e.connIdSeed(dcid)[..MAX_CONN_ID_LEN]
  }

  predicate Readable(e: Endpoint, pkt: UdpPacket) {
    pkt.src.host.Some? && e.parse(pkt.data).Some?
  }

  function HeaderOf(e: Endpoint, pkt: UdpPacket): Header
    requires Readable(e, pkt)
  {
    e.parse(pkt.data).value
  }

  function RouteOf(e: Endpoint, pkt: UdpPacket): Route<ConnectionId>
    requires Readable(e, pkt)
  {
    var dcid := HeaderOf(e, pkt).dcid;
    Route(dcid, Some(DerivedId(e, dcid)))
  }

  function NegotiationPacket(e: Endpoint, pkt: UdpPacket): UdpPacket
    requires Readable(e, pkt)
  {
    var hdr := HeaderOf(e, pkt);
    UdpPacket(e.local, pkt.src, e.negotiateVersion(hdr.scid, hdr.dcid))
  }

  function RetryPacket(e: Endpoint, pkt: UdpPacket): UdpPacket
    requires Readable(e, pkt)
  {
    var hdr := HeaderOf(e, pkt);
    var token := Minted(e.tokenKey, pkt.src.host.value.ip, hdr.dcid);
    UdpPacket(e.local, pkt.src, e.retry(hdr.scid, hdr.dcid, DerivedId(e, hdr.dcid), token, hdr.version))
  }

  /** The original destination id that the datagram's token vouches for. */
  function OriginalId(e: Endpoint, pkt: UdpPacket): Option<ConnectionId>
    requires Readable(e, pkt)
  {
    ValidateToken(e.tokenKey, pkt.src.host.value, HeaderOf(e, pkt).token)
  }

  /** The outcome for a datagram that matches no connection; `usable` says whether the QUIC library
      accepts the connection and its first packet. */
  function Decide(e: Endpoint, pkt: UdpPacket, usable: bool): Decision
    requires Readable(e, pkt)
  {
    var hdr := HeaderOf(e, pkt);
    if !hdr.initial then Ignore
    else if !e.versionIsSupported(hdr.version) then Reply(NegotiationPacket(e, pkt))
    else if hdr.token == [] then Reply(RetryPacket(e, pkt))
    else if OriginalId(e, pkt).None? then Ignore
    else if |DerivedId(e, hdr.dcid)| != |hdr.dcid| then Ignore
    else if !usable then Ignore
    else Create
  }

  /** The datagram that asks for a Retry. */
  predicate AsksForRetry(e: Endpoint, pkt: UdpPacket) {
    && Readable(e, pkt)
    && HeaderOf(e, pkt).initial && e.versionIsSupported(HeaderOf(e, pkt).version) && HeaderOf(e, pkt).token == []
  }

  /** What QUIC mode adds to a step of the connection manager. */
  predicate QuicRule(e: Endpoint, s: State<ConnectionId>, step: Step<ConnectionId>) {
    match step
    case Arrive(to, pkt) => Readable(e, pkt) && to == RouteOf(e, pkt)
    case MainDecide(d) =>
      s.main.Missed? && Readable(e, s.main.pkt)
      && (d == Decide(e, s.main.pkt, true) || d == Decide(e, s.main.pkt, false))
    case _ => true
  }

  function RuleOf(e: Endpoint): (State<ConnectionId>, Step<ConnectionId>) -> bool {
    (s, step) => QuicRule(e, s, step)
  }

  ghost predicate QuicRun(e: Endpoint, steps: seq<Step<ConnectionId>>) {
    IsRunOf(RuleOf(e), Initial(), steps)
  }

  ghost predicate QuicReachable(e: Endpoint, s: State<ConnectionId>) {
    exists steps :: QuicRun(e, steps) && After(Initial(), steps) == s
  }

  // ---- What every log of QUIC mode looks like ----

  ghost predicate QuicRecord(e: Endpoint, r: Record<ConnectionId>) {
    && Readable(e, r.pkt) && r.to == RouteOf(e, r.pkt)
    && (r.fate.Opened? ==> Decide(e, r.pkt, true) == Create)
    && (r.fate.Answered? ==> Decide(e, r.pkt, false) == Reply(r.fate.reply))
    && (r.fate.Ignored? ==> Decide(e, r.pkt, false) == Ignore)
  }

  ghost predicate QuicMain(e: Endpoint, main: Main<ConnectionId>) {
    main.Looking? || main.Missed? || main.Sending? ==> Readable(e, main.pkt) && main.to == RouteOf(e, main.pkt)
  }

  ghost predicate QuicState(e: Endpoint, s: State<ConnectionId>) {
    QuicMain(e, s.main) && forall j | 0 <= j < |s.log| :: QuicRecord(e, s.log[j])
  }

  lemma QuicStepKeepsState(e: Endpoint, s: State<ConnectionId>, step: Step<ConnectionId>)
    requires QuicState(e, s) && Enabled(s, step) && QuicRule(e, s, step)
    ensures QuicState(e, Next(s, step))
  {
    var s' := Next(s, step);
    forall j | 0 <= j < |s'.log| ensures QuicRecord(e, s'.log[j]) {
      if j < |s.log| {
        assert s'.log[j] == s.log[j] && QuicRecord(e, s.log[j]);
      }
    }
  }

  lemma {:induction false} QuicRunKeepsState(e: Endpoint, s: State<ConnectionId>, steps: seq<Step<ConnectionId>>)
    requires QuicState(e, s) && IsRunOf(RuleOf(e), s, steps)
    ensures QuicState(e, After(s, steps))
    decreases |steps|
  {
    if steps != [] {
      QuicStepKeepsState(e, s, steps[0]);
      QuicRunKeepsState(e, Next(s, steps[0]), steps[1..]);
    }
  }

  lemma QuicReachableFacts(e: Endpoint, s: State<ConnectionId>)
    requires QuicReachable(e, s)
    ensures Reachable(s) && Invariant(s) && Ledger(s) && QuicState(e, s)
  {
    var steps :| QuicRun(e, steps) && After(Initial(), steps) == s;
    QuicRunKeepsState(e, Initial(), steps);
    ReachableInvariant(s);
    ReachableLedger(s);
  }

  /** Who gets an answer, and what is in it.  Of the datagrams that match no connection exactly the Initial
      packets of an unsupported version or without a token are answered, from the proxy's address to the
      sender's.  The first kind gets a Version Negotiation packet with its two ids.  The second gets a Retry
      for its source id and its destination id, with the first 20 bytes of the tag over the latter as the new
      id, and with a token that is valid for that address and that destination id. */
  lemma AnswersAreDue(e: Endpoint, s: State<ConnectionId>, j: nat)
    requires Codec(e) && QuicReachable(e, s) && j < |s.log|
    ensures var pkt, fate := s.log[j].pkt, s.log[j].fate;
            && pkt.src.host.Some? && e.parse(pkt.data).Some?
            && var hdr := e.parse(pkt.data).value;
            && (Session(fate).None? ==>
                  (fate.Answered? <==> hdr.initial && (!e.versionIsSupported(hdr.version) || hdr.token == [])))
            && (fate.Answered? ==> fate.reply.src == e.local && fate.reply.dst == pkt.src)
            && (fate.Answered? && !e.versionIsSupported(hdr.version) ==>
                  e.readNegotiation(fate.reply.data) == Some((hdr.scid, hdr.dcid)))
            && (fate.Answered? && e.versionIsSupported(hdr.version) ==>
                  && e.readRetry(fate.reply.data).Some?
                  && var r := e.readRetry(fate.reply.data).value;
                  && r.dcid == hdr.scid && r.odcid == hdr.dcid && r.version == hdr.version
                  && r.scid == e.connIdSeed(hdr.dcid)[..20]
                  && ValidateToken(e.tokenKey, pkt.src.host.value, r.token) == Some(hdr.dcid))
  {
    QuicReachableFacts(e, s);
    var pkt := s.log[j].pkt;
    assert QuicRecord(e, s.log[j]);
    MintedValidates(e.tokenKey, pkt.src.host.value, HeaderOf(e, pkt).dcid);
  }

  /** What the main loop itself has sent or queued are answers on record. */
  ghost predicate AnswersTraced<K>(s: State<K>) {
    && (forall k | 0 <= k < |s.socket| && s.socket[k].sender.None? :: OnRecord(s, s.socket[k].msg))
    && (forall k | 0 <= k < |s.out.queue| && s.out.queue[k].sender.None? :: OnRecord(s, s.out.queue[k].msg))
  }

  ghost predicate OnRecord<K>(s: State<K>, reply: UdpPacket) {
    exists j :: 0 <= j < |s.log| && s.log[j].fate == Answered(reply)
  }

  lemma RecordsStay<K>(s: State<K>, step: Step<K>, reply: UdpPacket)
    requires Enabled(s, step) && OnRecord(s, reply)
    ensures OnRecord(Next(s, step), reply)
  {
    var j :| 0 <= j < |s.log| && s.log[j].fate == Answered(reply);
    assert Next(s, step).log[j] == s.log[j];
  }

  /** What is new on the socket was in the queue, and what is new in the queue has just been put on record. */
  lemma StepKeepsAnswers<K>(s: State<K>, step: Step<K>)
    requires AnswersTraced(s) && ChannelsBounded(s) && Enabled(s, step)
    ensures AnswersTraced(Next(s, step))
  {
    var s' := Next(s, step);
    forall k | 0 <= k < |s'.socket| && s'.socket[k].sender.None? ensures OnRecord(s', s'.socket[k].msg) {
      assert OnRecord(s, s'.socket[k].msg);
      RecordsStay(s, step, s'.socket[k].msg);
    }
    forall k | 0 <= k < |s'.out.queue| && s'.out.queue[k].sender.None? ensures OnRecord(s', s'.out.queue[k].msg) {
      var m := s'.out.queue[k].msg;
      if step.MainDecide? && step.decision == Reply(m) {
        assert s'.log[|s.log|].fate == Answered(m);
      } else {
        assert OnRecord(s, m);
        RecordsStay(s, step, m);
      }
    }
  }

  /** Every entry of the table, and every connection there ever was, goes back to an Initial packet with
      a 20-byte destination id, which became the key, and a token that is byte for byte the one minted
      for the packet's IP address and the original id the connection was accepted with. */
  lemma AcceptedOnMintedToken(e: Endpoint, s: State<ConnectionId>, id: nat)
    requires QuicReachable(e, s) && id < |s.tasks|
    ensures var t := s.tasks[id];
            && t.born < |s.log| && s.log[t.born].fate == Opened(id)
            && var pkt := s.log[t.born].pkt;
            && Readable(e, pkt) && HeaderOf(e, pkt).initial
            && t.key == HeaderOf(e, pkt).dcid && |t.key| == 20
            && OriginalId(e, pkt).Some?
            && HeaderOf(e, pkt).token == Minted(e.tokenKey, pkt.src.host.value.ip, OriginalId(e, pkt).value)
  {
    QuicReachableFacts(e, s);
    assert LifeOk(s, id);
    var pkt := s.log[s.tasks[id].born].pkt;
    assert QuicRecord(e, s.log[s.tasks[id].born]);
    ValidatedWasMinted(e.tokenKey, pkt.src.host.value, HeaderOf(e, pkt).token);
  }

  /** No forged tags in this log: whatever arrived with a correct tag had been tagged before, by a Retry. */
  ghost predicate Unforged(e: Endpoint, log: seq<Record<ConnectionId>>) {
    forall j, data | 0 <= j < |log| && Readable(e, log[j].pkt) && HeaderOf(e, log[j].pkt).token == Signed(e, data) ::
      exists i | 0 <= i < j ::
        log[i].fate.Answered? && AsksForRetry(e, log[i].pkt) && RetryData(e, log[i].pkt) == data
  }

  function Signed(e: Endpoint, data: Bytes): Bytes { data + e.tokenKey(data) }

  function RetryData(e: Endpoint, pkt: UdpPacket): Bytes
    requires Readable(e, pkt)
  {
    TaggedData(pkt.src.host.value.ip, HeaderOf(e, pkt).dcid)
  }

  ghost predicate OneFamily(log: seq<Record<ConnectionId>>) {
    forall i, j | 0 <= i < |log| && 0 <= j < |log| && log[i].pkt.src.host.Some? && log[j].pkt.src.host.Some? ::
      log[i].pkt.src.host.value.ip.V4? == log[j].pkt.src.host.value.ip.V4?
  }

  /** With unforged tags an accepted connection was preceded by a Retry, answered with that very token. It
      was made for the same IP address and the same original id, or, if clients of both families are
      about, for one of the other family that overlaps with them (`Token.CrossFamilyAmbiguity`). */
  lemma AcceptedAfterRetry(e: Endpoint, s: State<ConnectionId>, id: nat) returns (i: nat)
    requires QuicReachable(e, s) && id < |s.tasks| && Unforged(e, s.log)
    ensures i < s.tasks[id].born < |s.log|
    ensures var asked, accepted := s.log[i].pkt, s.log[s.tasks[id].born].pkt;
            && AsksForRetry(e, asked) && Readable(e, accepted) && OriginalId(e, accepted).Some?
            && s.log[i].fate == Answered(RetryPacket(e, asked))
            && var ip, dcid := asked.src.host.value.ip, HeaderOf(e, asked).dcid;
               var ip', dcid' := accepted.src.host.value.ip, OriginalId(e, accepted).value;
               && ((ip == ip' && dcid == dcid') || Overlap(ip, dcid, ip', dcid') || Overlap(ip', dcid', ip, dcid))
               && (OneFamily(s.log) ==> ip == ip' && dcid == dcid')
  {
    QuicReachableFacts(e, s);
    AcceptedOnMintedToken(e, s, id);
    var j := s.tasks[id].born;
    var accepted := s.log[j].pkt;
    var ip, odcid := accepted.src.host.value.ip, OriginalId(e, accepted).value;
    assert HeaderOf(e, accepted).token == Signed(e, TaggedData(ip, odcid));
    i :| 0 <= i < j && s.log[i].fate.Answered? && AsksForRetry(e, s.log[i].pkt)
         && RetryData(e, s.log[i].pkt) == TaggedData(ip, odcid);
    assert QuicRecord(e, s.log[i]);
    TaggedDataMeaning(s.log[i].pkt.src.host.value.ip, HeaderOf(e, s.log[i].pkt).dcid, ip, odcid);
  }

  /** A connection is opened for a usable Initial packet of a supported version, with a destination id of 20
      bytes and a token minted for the sender's IP address, and for nothing else. */
  lemma CreateIff(e: Endpoint, pkt: UdpPacket, usable: bool)
    requires Readable(e, pkt)
    ensures Decide(e, pkt, usable).Create? <==>
              && usable && HeaderOf(e, pkt).initial && e.versionIsSupported(HeaderOf(e, pkt).version)
              && |HeaderOf(e, pkt).dcid| == 20
              && exists odcid :: HeaderOf(e, pkt).token == Minted(e.tokenKey, pkt.src.host.value.ip, odcid)
  {
    var hdr, src := HeaderOf(e, pkt), pkt.src.host.value;
    if OriginalId(e, pkt).Some? {
      ValidatedWasMinted(e.tokenKey, src, hdr.token);
    }
    if odcid :| hdr.token == Minted(e.tokenKey, src.ip, odcid) {
      MintedValidates(e.tokenKey, src, odcid);
      assert hdr.token != [];
    }
  }

  /** Answering is stateless: a datagram that is not accepted, in particular one answered with a Retry or
      a Version Negotiation packet, leaves table and tasks as they were.  An answer goes to the end of the
      outbound queue, unless that is full, and then it is dropped rather than waited for. */
  lemma OnlyCreateAddsState(e: Endpoint, s: State<ConnectionId>, usable: bool)
    requires QuicReachable(e, s) && s.main.Missed?
    ensures Readable(e, s.main.pkt)
    ensures var d := Decide(e, s.main.pkt, usable);
            && Next(s, MainDecide(d)).table == s.table
            && Next(s, MainDecide(d)).out.queue
               == s.out.queue + (if d.Reply? && s.out.HasFreeSlot() then [Pending(None, d.packet)] else [])
            && (Next(s, MainDecide(d)).tasks != s.tasks <==>
                  && usable && HeaderOf(e, s.main.pkt).initial
                  && e.versionIsSupported(HeaderOf(e, s.main.pkt).version)
                  && |HeaderOf(e, s.main.pkt).dcid| == 20
                  && exists odcid ::
                       HeaderOf(e, s.main.pkt).token == Minted(e.tokenKey, s.main.pkt.src.host.value.ip, odcid))
  {
    QuicReachableFacts(e, s);
    CreateIff(e, s.main.pkt, usable);
  }

  // ---- QUIC mode keeps moving ----

  /** `usable` stands for what the QUIC library says of a datagram in each state. */
  ghost function QuicProxy(e: Endpoint, usable: State<ConnectionId> -> bool): Mode<ConnectionId> {
    Mode(RuleOf(e),
         (s: State<ConnectionId>) =>
           if s.main.Missed? && Readable(e, s.main.pkt) then Decide(e, s.main.pkt, usable(s)) else Ignore,
         s => QuicState(e, s))
  }

  lemma QuicProxyIsMode(e: Endpoint, usable: State<ConnectionId> -> bool)
    ensures IsMode(QuicProxy(e, usable))
  {
    var m := QuicProxy(e, usable);
    forall s, step | m.good(s) && Enabled(s, step) && m.rule(s, step) ensures m.good(Next(s, step)) {
      QuicStepKeepsState(e, s, step);
    }
  }

  /** Whatever the QUIC library says of the datagrams, a waiting sender is admitted after a bounded
      schedule of the proxy's own steps. */
  lemma QuicAdmission(e: Endpoint, usable: State<ConnectionId> -> bool, s: State<ConnectionId>, p: Pending, i: nat)
    returns (steps: seq<Step<ConnectionId>>)
    requires QuicReachable(e, s) && s.out.Waits(p, i)
    ensures IsRunOf(RuleOf(e), s, steps) && AllInternal(steps) && AdmittedDuring(s, steps, p)
    ensures |steps| <= 12 + 2 * (i + 1)
  {
    QuicReachableFacts(e, s);
    QuicProxyIsMode(e, usable);
    steps := AdmissionSchedule(QuicProxy(e, usable), s, p, i);
  }

  /** And from every state it reaches, the proxy comes to rest by a bounded schedule of its own steps. */
  lemma QuicComesToRest(e: Endpoint, usable: State<ConnectionId> -> bool, s: State<ConnectionId>)
    returns (steps: seq<Step<ConnectionId>>)
    requires QuicReachable(e, s)
    ensures IsRunOf(RuleOf(e), s, steps) && BringsRest(s, steps)
  {
    QuicReachableFacts(e, s);
    QuicProxyIsMode(e, usable);
    steps := ComesToRest(QuicProxy(e, usable), s);
  }

  /** Whatever it does by itself, it comes to rest. */
  lemma QuicRunsComeToRest(e: Endpoint, usable: State<ConnectionId> -> bool, s: State<ConnectionId>,
                           steps: seq<Step<ConnectionId>>)
    requires QuicReachable(e, s) && IsRunOf(RuleOf(e), s, steps) && AllInternal(steps)
    ensures |steps| <= 6 + 3 * |s.tasks| + |s.out.queue| + 3 * |s.out.line|
    ensures NothingLeft(QuicProxy(e, usable), After(s, steps)) ==> RestAfter(s, steps)
  {
    QuicReachableFacts(e, s);
    QuicProxyIsMode(e, usable);
    EveryRunComesToRest(QuicProxy(e, usable), s, steps);
  }
}
