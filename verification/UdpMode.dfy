/** UDP mode: sessions are keyed by the client's SCION address.  What every run of the proxy in this
    mode guarantees about who gets which datagram. */
module UdpMode {
  import opened Net
  import opened Outbound
  import opened Manager
  import opened Safety
  import opened Progress
  import opened History

  /** The first datagram of an unknown source always opens a session. */
  predicate UdpRule(s: State<ScionAddr>, step: Step<ScionAddr>) {
    match step
    case Arrive(to, pkt) => to == Route(pkt.src, None)
    case MainDecide(d) => d == Create
    case _ => true
  }

  ghost predicate UdpReachable(s: State<ScionAddr>) {
    exists steps :: IsRunOf(UdpRule, Initial(), steps) && After(Initial(), steps) == s
  }

  ghost predicate UdpState(s: State<ScionAddr>) {
    && (s.main.Looking? || s.main.Missed? || s.main.Sending? ==> s.main.to == Route(s.main.pkt.src, None))
    && (forall j | 0 <= j < |s.log| :: s.log[j].to == Route(s.log[j].pkt.src, None))
    && (forall j | 0 <= j < |s.log| :: Session(s.log[j].fate).Some? || s.log[j].fate.Opened?)
  }

  lemma {:induction false} UdpRunKeepsState(s: State<ScionAddr>, steps: seq<Step<ScionAddr>>)
    requires UdpState(s) && IsRunOf(UdpRule, s, steps)
    ensures UdpState(After(s, steps))
    decreases |steps|
  {
    if steps != [] {
      UdpRunKeepsState(Next(s, steps[0]), steps[1..]);
    }
  }

  lemma UdpReachableFacts(s: State<ScionAddr>)
    requires UdpReachable(s)
    ensures Reachable(s) && Ledger(s) && UdpState(s)
  {
    var steps :| IsRunOf(UdpRule, Initial(), steps) && After(Initial(), steps) == s;
    UdpRunKeepsState(Initial(), steps);
    ReachableLedger(s);
  }

  /** The datagrams of one client, from record `first` on. */
  function FromClient(log: seq<Record<ScionAddr>>, first: nat, client: ScionAddr): seq<UdpPacket> {
    if |log| <= first then []
    else
      var r := log[|log| - 1];
      FromClient(log[..|log| - 1], first, client) + (if r.pkt.src == client then [r.pkt] else [])
  }

  lemma {:induction false} AddressedIsFromClient(log: seq<Record<ScionAddr>>, first: nat, client: ScionAddr)
    requires forall j | 0 <= j < |log| :: log[j].to == Route(log[j].pkt.src, None)
    ensures Addressed(log, first, client) == FromClient(log, first, client)
  {
    if |log| > first {
      AddressedIsFromClient(log[..|log| - 1], first, client);
    }
  }

  /** No crosstalk into a session: every packet that was ever put into a session's channel was sent by the
      client whose address is the session's key. */
  lemma QueuedFromKey(s: State<ScionAddr>, id: nat, k: nat)
    requires UdpReachable(s) && id < |s.tasks|
    requires k < |s.tasks[id].taken + s.tasks[id].queue + s.tasks[id].discarded|
    ensures (s.tasks[id].taken + s.tasks[id].queue + s.tasks[id].discarded)[k].src == s.tasks[id].key
  {
    UdpReachableFacts(s);
    LedgerParts(s, id);
    QueuedComesFromLog(s.log, id, k);
    var j :| 0 <= j < |s.log| && s.log[j].pkt == QueuedFor(s.log, id)[k] && s.log[j].fate == Queued(id);
    assert RecordOk(s, j);
  }

  /** Order: a session takes its client's datagrams, those after the one that created it, in order. */
  lemma TakenInOrder(s: State<ScionAddr>, id: nat)
    requires UdpReachable(s) && id < |s.tasks|
    ensures var t := s.tasks[id];
            IsSubsequence(t.taken + t.queue + t.discarded, FromClient(s.log, t.born + 1, t.key))
  {
    UdpReachableFacts(s);
    SessionInOrder(s, id);
    AddressedIsFromClient(s.log, s.tasks[id].born + 1, s.tasks[id].key);
  }

  lemma TakenFromClientInOrder(s: State<ScionAddr>, id: nat)
    requires UdpReachable(s) && id < |s.tasks|
    ensures var t := s.tasks[id]; IsSubsequence(t.taken, FromClient(s.log, t.born + 1, t.key))
  {
    UdpReachableFacts(s);
    TakenAreOrdered(s, id);
    AddressedIsFromClient(s.log, s.tasks[id].born + 1, s.tasks[id].key);
  }

  lemma {:induction false} RoutedWhileAlive(s: State<ScionAddr>, id: nat, n: nat)
    requires UdpState(s) && Ledger(s) && id < |s.tasks| && n <= |s.log|
    requires s.tasks[id].gone.Some? ==> n <= s.tasks[id].gone.value
    ensures FromClient(s.log[..n], s.tasks[id].born + 1, s.tasks[id].key) == RoutedTo(s.log[..n], id)
    decreases n
  {
    assert LifeOk(s, id);
    if n > 0 {
      assert s.log[..n][..n - 1] == s.log[..n - 1];
      assert RecordOk(s, n - 1);
      RoutedWhileAlive(s, id, n - 1);
    }
  }

  /** Conservation: as long as a session is in the table, its client's datagrams after the creating one
      are exactly those it has taken, those in its channel and those a full channel turned away. */
  lemma EveryDatagramAccounted(s: State<ScionAddr>, id: nat)
    requires UdpReachable(s) && id < |s.tasks| && s.tasks[id].gone.None?
    ensures var t := s.tasks[id];
            && FromClient(s.log, t.born + 1, t.key) == RoutedTo(s.log, id)
            && |FromClient(s.log, t.born + 1, t.key)| == |t.taken| + |t.queue| + TurnedAway(s.log, id)
  {
    UdpReachableFacts(s);
    RoutedWhileAlive(s, id, |s.log|);
    assert s.log[..|s.log|] == s.log && LifeOk(s, id);
    SessionConservation(s, id);
  }

  // ---- UDP mode keeps moving ----

  ghost function UdpProxy(): Mode<ScionAddr> { Mode(UdpRule, _ => Create, _ => true) }

  /** In UDP mode too, where every datagram of an unknown source opens a session, a waiting sender is
      admitted after a bounded schedule of the proxy's own steps. */
  lemma UdpAdmission(s: State<ScionAddr>, p: Pending, i: nat) returns (steps: seq<Step<ScionAddr>>)
    requires UdpReachable(s) && s.out.Waits(p, i)
    ensures IsRunOf(UdpRule, s, steps) && AllInternal(steps) && AdmittedDuring(s, steps, p)
    ensures |steps| <= 12 + 2 * (i + 1)
  {
    UdpReachableFacts(s);
    ReachableInvariant(s);
    assert UdpProxy().good(s);
    steps := AdmissionSchedule(UdpProxy(), s, p, i);
  }

  /** And from every state it reaches, the proxy comes to rest by a bounded schedule of its own steps. */
  lemma UdpComesToRest(s: State<ScionAddr>) returns (steps: seq<Step<ScionAddr>>)
    requires UdpReachable(s)
    ensures IsRunOf(UdpRule, s, steps) && BringsRest(s, steps)
  {
    UdpReachableFacts(s);
    ReachableInvariant(s);
    assert UdpProxy().good(s);
    steps := ComesToRest(UdpProxy(), s);
  }

  /** Whatever it does by itself, it comes to rest. */
  lemma UdpRunsComeToRest(s: State<ScionAddr>, steps: seq<Step<ScionAddr>>)
    requires UdpReachable(s) && IsRunOf(UdpRule, s, steps) && AllInternal(steps)
    ensures |steps| <= 6 + 3 * |s.tasks| + |s.out.queue| + 3 * |s.out.line|
    ensures NothingLeft(UdpProxy(), After(s, steps)) ==> RestAfter(s, steps)
  {
    UdpReachableFacts(s);
    ReachableInvariant(s);
    assert UdpProxy().good(s);
    EveryRunComesToRest(UdpProxy(), s, steps);
  }
}
