/** What the log of handled datagrams says about each session: which ones it was offered, in which order
    it got them, and where every one of them is. */
module History {
  import opened Net
  import opened Manager
  import opened Safety

  /** The session a datagram was routed to. */
  function Session(fate: Fate): Option<nat> {
    match fate
    case Queued(id) => Some(id)
    case Full(id) => Some(id)
    case Closed(id) => Some(id)
    case _ => None
  }

  function QueuedFor<K>(log: seq<Record<K>>, id: nat): seq<UdpPacket> {
    if log == [] then []
    else
      var r := log[|log| - 1];
      QueuedFor(log[..|log| - 1], id) + (if r.fate == Queued(id) then [r.pkt] else [])
  }

  function RoutedTo<K>(log: seq<Record<K>>, id: nat): seq<UdpPacket> {
    if log == [] then []
    else
      var r := log[|log| - 1];
      RoutedTo(log[..|log| - 1], id) + (if Session(r.fate) == Some(id) then [r.pkt] else [])
  }

  /** Packets for the session that its channel did not take. */
  function TurnedAway<K>(log: seq<Record<K>>, id: nat): nat {
    if log == [] then 0
    else
      var r := log[|log| - 1];
      TurnedAway(log[..|log| - 1], id) + (if r.fate == Full(id) || r.fate == Closed(id) then 1 else 0)
  }

  /** The datagrams that name `k`, from record `first` on. */
  ghost function Addressed<K>(log: seq<Record<K>>, first: nat, k: K): seq<UdpPacket> {
    if |log| <= first then []
    else
      var r := log[|log| - 1];
      Addressed(log[..|log| - 1], first, k) + (if r.to.Names(k) then [r.pkt] else [])
  }

  /** One record agrees with the tasks: its session was created earlier and answers to one of its names;
      a record that opens a session is that session's birth. */
  ghost predicate RecordOk<K>(s: State<K>, j: nat)
    requires j < |s.log|
  {
    var r := s.log[j];
    && (Session(r.fate).Some? ==>
          var id := Session(r.fate).value;
          id < |s.tasks| && s.tasks[id].born < j && r.to.Names(s.tasks[id].key))
    && (r.fate.Opened? ==> r.fate.id < |s.tasks| && s.tasks[r.fate.id].born == j)
  }

  /** The life of a task covers the log from its birth on, and while it lasted every datagram whose first
      name was the task's key went to it. */
  ghost predicate LifeOk<K>(s: State<K>, id: nat)
    requires id < |s.tasks|
  {
    var t := s.tasks[id];
    && t.born < |s.log| && s.log[t.born].fate == Opened(id) && s.log[t.born].to.key == t.key
    && (t.gone.None? <==> t.phase.Created? || t.phase.Live())
    && (t.gone.Some? ==> t.gone.value <= |s.log|)
    && (forall j | t.born < j < |s.log| && (t.gone.Some? ==> j < t.gone.value) && s.log[j].to.key == t.key ::
          Session(s.log[j].fate) == Some(id))
  }

  /** What was put into a task's channel and not taken: it is still there, or went with the channel. */
  function Untaken<K>(t: Task<K>): seq<UdpPacket> {
    if t.phase == Dropped then t.discarded else t.queue
  }

  ghost predicate ChannelOk<K>(t: Task<K>) {
    if t.phase == Dropped then t.queue == [] else t.discarded == []
  }

  ghost predicate LedgerOk<K>(s: State<K>, id: nat)
    requires id < |s.tasks|
  {
    ChannelOk(s.tasks[id]) && QueuedFor(s.log, id) == s.tasks[id].taken + Untaken(s.tasks[id])
  }

  ghost predicate Ledger<K>(s: State<K>) {
    && (forall id | 0 <= id < |s.tasks| :: LedgerOk(s, id))
    && (forall id | 0 <= id < |s.tasks| :: LifeOk(s, id))
    && (forall j | 0 <= j < |s.log| :: RecordOk(s, j))
    && (s.main.Sending? && s.main.to.key in s.table ==> s.table[s.main.to.key] == s.main.id)
  }

  /** A task keeps its name, its birth and the packets it was given; it may only come to its end. */
  ghost predicate SameHistory<K>(t: Task<K>, t': Task<K>, now: nat) {
    && t'.key == t.key && t'.born == t.born && t'.taken + Untaken(t') == t.taken + Untaken(t)
    && (ChannelOk(t) ==> ChannelOk(t'))
    && (t.gone.None? <==> t.phase.Created? || t.phase.Live())
    && (t'.gone.None? <==> t'.phase.Created? || t'.phase.Live())
    && (t'.gone == t.gone || (t.gone.None? && t'.gone == Some(now)))
  }

  /** A packet that is taken moves from the channel to what was taken. */
  lemma ReceiveFrame<K>(t: Task<K>)
    requires t.phase != Dropped && t.queue != []
    ensures var t' := t.(queue := t.queue[1..], taken := t.taken + [t.queue[0]]);
            t'.taken + Untaken(t') == t.taken + Untaken(t)
  {
    assert t.queue == [t.queue[0]] + t.queue[1..];
  }

  lemma MainStepFrame<K>(s: State<K>, step: Step<K>, id: nat)
    requires id < |s.tasks| && LifeOk(s, id) && MainConsistent(s)
    requires Enabled(s, step) && !step.ByTask() && !step.MainTrySend? && !step.MainDecide?
    ensures Next(s, step).log == s.log && |Next(s, step).tasks| == |s.tasks|
    ensures SameHistory(s.tasks[id], Next(s, step).tasks[id], |s.log|)
  {
  }

  lemma TaskStepFrame<K>(s: State<K>, step: Step<K>, id: nat)
    requires id < |s.tasks| && LifeOk(s, id)
    requires Enabled(s, step) && step.ByTask()
    ensures Next(s, step).log == s.log && |Next(s, step).tasks| == |s.tasks|
    ensures SameHistory(s.tasks[id], Next(s, step).tasks[id], |s.log|)
  {
    if step.TaskReceive? && step.id == id {
      ReceiveFrame(s.tasks[id]);
    }
  }

  lemma SilentStepTarget<K>(s: State<K>, step: Step<K>)
    requires Ledger(s) && Enabled(s, step) && !step.MainTrySend? && !step.MainDecide?
    ensures Next(s, step).log == s.log && |Next(s, step).tasks| == |s.tasks|
    ensures var s' := Next(s, step);
            s'.main.Sending? && s'.main.to.key in s'.table ==> s'.table[s'.main.to.key] == s'.main.id
  {
  }

  lemma SilentStepKeepsLedger<K>(s: State<K>, step: Step<K>)
    requires Invariant(s) && Ledger(s) && Enabled(s, step) && !step.MainTrySend? && !step.MainDecide?
    ensures Ledger(Next(s, step))
  {
    SilentStepTarget(s, step);
    forall id | 0 <= id < |s.tasks| ensures SameHistory(s.tasks[id], Next(s, step).tasks[id], |s.log|) {
      assert LifeOk(s, id) && LedgerOk(s, id);
      if step.ByTask() {
        TaskStepFrame(s, step, id);
      } else {
        MainStepFrame(s, step, id);
      }
    }
    FrameKeepsLedger(s, Next(s, step));
  }

  lemma FrameKeepsLedger<K>(s: State<K>, s': State<K>)
    requires Ledger(s) && s'.log == s.log && |s'.tasks| == |s.tasks|
    requires forall id | 0 <= id < |s.tasks| :: SameHistory(s.tasks[id], s'.tasks[id], |s.log|)
    requires s'.main.Sending? && s'.main.to.key in s'.table ==> s'.table[s'.main.to.key] == s'.main.id
    ensures Ledger(s')
  {
    forall id | 0 <= id < |s.tasks| ensures LedgerOk(s', id) && LifeOk(s', id) {
      assert SameHistory(s.tasks[id], s'.tasks[id], |s.log|);
      assert LedgerOk(s, id) && LifeOk(s, id);
    }
    forall j | 0 <= j < |s.log| ensures RecordOk(s', j) {
      assert RecordOk(s, j);
    }
  }

  lemma QueuedForSnoc<K>(log: seq<Record<K>>, r: Record<K>, id: nat)
    ensures r.fate == Queued(id) ==> QueuedFor(log + [r], id) == QueuedFor(log, id) + [r.pkt]
    ensures r.fate != Queued(id) ==> QueuedFor(log + [r], id) == QueuedFor(log, id)
  {
    assert (log + [r])[..|log|] == log;
  }

  /** Nothing was queued for the task, and its channel is as it was. */
  lemma AccountStays<K>(s: State<K>, s': State<K>, id: nat)
    requires id < |s.tasks| && id < |s'.tasks| && LedgerOk(s, id)
    requires s'.tasks[id] == s.tasks[id].(cancelled := s'.tasks[id].cancelled)
    requires QueuedFor(s'.log, id) == QueuedFor(s.log, id)
    ensures LedgerOk(s', id)
  {
  }

  /** One more packet was queued for the task. */
  lemma AccountGrows<K>(s: State<K>, s': State<K>, id: nat, p: UdpPacket)
    requires id < |s.tasks| && id < |s'.tasks| && LedgerOk(s, id) && s.tasks[id].phase != Dropped
    requires s'.tasks[id] == s.tasks[id].(queue := s.tasks[id].queue + [p])
    requires QueuedFor(s'.log, id) == QueuedFor(s.log, id) + [p]
    ensures LedgerOk(s', id)
  {
    var t := s.tasks[id];
    assert (t.taken + t.queue) + [p] == t.taken + (t.queue + [p]);
  }

  lemma TrySendSeen<K>(s: State<K>, id: nat)
    requires Enabled(s, MainTrySend) && id < |s.tasks|
    ensures var s' := TriedToSend(s);
            && |s'.tasks| == |s.tasks|
            && s'.tasks[id] == (if id == s.main.id then Offered(s.tasks[id], s.main.pkt) else s.tasks[id])
            && s'.log == s.log + [Record(s.main.to, s.main.pkt, FateOf(s.tasks[s.main.id], s.main.id))]
  {
  }

  lemma OfferKeepsAccount<K>(s: State<K>, s': State<K>, id: nat)
    requires s.main.Sending? && s.main.id < |s.tasks| && id < |s.tasks| && LedgerOk(s, id) && id < |s'.tasks|
    requires s'.tasks[id] == if id == s.main.id then Offered(s.tasks[id], s.main.pkt) else s.tasks[id]
    requires s'.log == s.log + [Record(s.main.to, s.main.pkt, FateOf(s.tasks[s.main.id], s.main.id))]
    ensures LedgerOk(s', id)
  {
    var fate := FateOf(s.tasks[s.main.id], s.main.id);
    QueuedForSnoc(s.log, Record(s.main.to, s.main.pkt, fate), id);
    if fate == Queued(id) {
      AccountGrows(s, s', id, s.main.pkt);
    } else {
      AccountStays(s, s', id);
    }
  }

  lemma TrySendKeepsAccount<K>(s: State<K>, id: nat)
    requires Enabled(s, MainTrySend) && id < |s.tasks| && LedgerOk(s, id)
    ensures LedgerOk(TriedToSend(s), id)
  {
    TrySendSeen(s, id);
    OfferKeepsAccount(s, TriedToSend(s), id);
  }

  lemma TrySendKeepsLife<K>(s: State<K>, id: nat)
    requires Invariant(s) && Ledger(s) && Enabled(s, MainTrySend) && id < |s.tasks|
    ensures LifeOk(Next(s, MainTrySend), id)
  {
    assert LifeOk(s, id);
  }

  lemma TrySendKeepsLedger<K>(s: State<K>)
    requires Invariant(s) && Ledger(s) && Enabled(s, MainTrySend)
    ensures Ledger(Next(s, MainTrySend))
  {
    var s', n := Next(s, MainTrySend), |s.log|;
    forall id | 0 <= id < |s'.tasks| ensures LedgerOk(s', id) && LifeOk(s', id) {
      assert LedgerOk(s, id);
      TrySendKeepsAccount(s, id);
      TrySendKeepsLife(s, id);
    }
    assert LifeOk(s, s.main.id);
    forall j | 0 <= j < |s'.log| ensures RecordOk(s', j) {
      assert j < n ==> RecordOk(s, j);
    }
  }

  /** What a decision does to the tasks there are and to the log. */
  lemma DecideSeen<K>(s: State<K>, d: Decision, id: nat)
    requires s.main.Missed? && id < |s.tasks|
    ensures var s' := Decided(s, d);
            && |s.tasks| <= |s'.tasks| && s'.tasks[id] == s.tasks[id]
            && |s'.log| == |s.log| + 1 && s'.log == s.log + [s'.log[|s.log|]]
            && s'.log[|s.log|].to == s.main.to && Session(s'.log[|s.log|].fate).None?
  {
  }

  lemma RecordKeepsLife<K>(s: State<K>, s': State<K>, id: nat)
    requires id < |s.tasks| <= |s'.tasks| && s'.tasks[id] == s.tasks[id] && LifeOk(s, id)
    requires |s'.log| == |s.log| + 1 && s'.log == s.log + [s'.log[|s.log|]]
    requires s.tasks[id].gone.None? ==> s'.log[|s.log|].to.key != s.tasks[id].key
    ensures LifeOk(s', id)
  {
  }

  lemma DecideKeepsTask<K>(s: State<K>, d: Decision, id: nat)
    requires TableMatchesTasks(s) && MainConsistent(s)
    requires s.main.Missed? && id < |s.tasks| && LedgerOk(s, id) && LifeOk(s, id)
    ensures id < |Decided(s, d).tasks| && LedgerOk(Decided(s, d), id) && LifeOk(Decided(s, d), id)
  {
    var s' := Decided(s, d);
    DecideSeen(s, d, id);
    QueuedForSnoc(s.log, s'.log[|s.log|], id);
    AccountStays(s, s', id);
    RecordKeepsLife(s, s', id);
  }

  lemma CreateStartsTask<K>(s: State<K>)
    requires Ledger(s) && Enabled(s, MainDecide(Create))
    ensures var s' := Next(s, MainDecide(Create)); LedgerOk(s', |s.tasks|) && LifeOk(s', |s.tasks|)
  {
    assert Next(s, MainDecide(Create)).log[..|s.log|] == s.log;
    NothingForTheUnborn(s, |s.tasks|, |s.log|);
  }

  lemma DecideKeepsRecord<K>(s: State<K>, d: Decision, j: nat)
    requires s.main.Missed? && j < |Decided(s, d).log| && (j < |s.log| ==> RecordOk(s, j))
    ensures RecordOk(Decided(s, d), j)
  {
  }

  lemma DecideKeepsLedger<K>(s: State<K>, d: Decision)
    requires Invariant(s) && Ledger(s) && Enabled(s, MainDecide(d))
    ensures Ledger(Next(s, MainDecide(d)))
  {
    var s' := Decided(s, d);
    forall id | 0 <= id < |s'.tasks| ensures LedgerOk(s', id) && LifeOk(s', id) {
      if id < |s.tasks| {
        assert LedgerOk(s, id) && LifeOk(s, id);
        DecideKeepsTask(s, d, id);
      } else {
        CreateStartsTask(s);
      }
    }
    DecideKeepsRecords(s, d);
  }

  lemma DecideKeepsRecords<K>(s: State<K>, d: Decision)
    requires s.main.Missed? && forall j | 0 <= j < |s.log| :: RecordOk(s, j)
    ensures forall j | 0 <= j < |Decided(s, d).log| :: RecordOk(Decided(s, d), j)
  {
    forall j | 0 <= j < |Decided(s, d).log| ensures RecordOk(Decided(s, d), j) {
      assert j < |s.log| ==> RecordOk(s, j);
      DecideKeepsRecord(s, d, j);
    }
  }

  lemma {:induction false} NothingForTheUnborn<K>(s: State<K>, id: nat, n: nat)
    requires Ledger(s) && id >= |s.tasks| && n <= |s.log|
    ensures QueuedFor(s.log[..n], id) == []
    ensures n == |s.log| ==> QueuedFor(s.log, id) == []
    decreases n
  {
    if n > 0 {
      assert s.log[..n][..n - 1] == s.log[..n - 1];
      assert RecordOk(s, n - 1);
      NothingForTheUnborn(s, id, n - 1);
    }
    assert n == |s.log| ==> s.log[..n] == s.log;
  }

  lemma StepKeepsLedger<K>(s: State<K>, step: Step<K>)
    requires Invariant(s) && Ledger(s) && Enabled(s, step)
    ensures Ledger(Next(s, step))
  {
    match step
    case MainTrySend => TrySendKeepsLedger(s);
    case MainDecide(d) => DecideKeepsLedger(s, d);
    case _ => SilentStepKeepsLedger(s, step);
  }

  lemma {:induction false} RunKeepsLedger<K>(s: State<K>, steps: seq<Step<K>>)
    requires Invariant(s) && Ledger(s) && IsRun(s, steps)
    ensures Ledger(After(s, steps))
    decreases |steps|
  {
    if steps != [] {
      StepKeepsInvariant(s, steps[0]);
      StepKeepsLedger(s, steps[0]);
      RunKeepsLedger(Next(s, steps[0]), steps[1..]);
    }
  }

  lemma ReachableLedger<K(!new)>(s: State<K>)
    requires Reachable(s)
    ensures Ledger(s)
  {
    var steps :| IsRun(Initial(), steps) && After(Initial(), steps) == s;
    InvariantInitially<K>();
    RunKeepsLedger(Initial(), steps);
  }

  // ---- What the ledger means ----

  lemma {:induction false} RoutedSplits<K>(log: seq<Record<K>>, id: nat)
    ensures |RoutedTo(log, id)| == |QueuedFor(log, id)| + TurnedAway(log, id)
  {
    if log != [] {
      RoutedSplits(log[..|log| - 1], id);
    }
  }

  lemma {:induction false} QueuedComesFromLog<K>(log: seq<Record<K>>, id: nat, k: nat)
    requires k < |QueuedFor(log, id)|
    ensures exists j | 0 <= j < |log| :: log[j].pkt == QueuedFor(log, id)[k] && log[j].fate == Queued(id)
    decreases |log|
  {
    var n := |log| - 1;
    if k < |QueuedFor(log[..n], id)| {
      QueuedComesFromLog(log[..n], id, k);
      var j :| 0 <= j < n && log[..n][j].pkt == QueuedFor(log, id)[k] && log[..n][j].fate == Queued(id);
      assert log[j] == log[..n][j];
    } else {
      assert log[n].pkt == QueuedFor(log, id)[k] && log[n].fate == Queued(id);
    }
  }

  lemma {:induction false} QueuedIsSubsequence<K>(log: seq<Record<K>>, id: nat, first: nat, k: K)
    requires forall j | 0 <= j < |log| && log[j].fate == Queued(id) :: j >= first && log[j].to.Names(k)
    ensures IsSubsequence(QueuedFor(log, id), Addressed(log, first, k))
  {
    if log != [] {
      var rest, r := log[..|log| - 1], log[|log| - 1];
      QueuedIsSubsequence(rest, id, first, k);
      if r.fate == Queued(id) {
        SubsequenceKeep(QueuedFor(rest, id), Addressed(rest, first, k), r.pkt);
      } else {
        assert QueuedFor(log, id) == QueuedFor(rest, id);
        if |log| > first && r.to.Names(k) {
          SubsequenceSkip(QueuedFor(rest, id), Addressed(rest, first, k), r.pkt);
        } else {
          assert Addressed(log, first, k) == Addressed(rest, first, k);
        }
      }
    }
  }

  lemma LedgerParts<K>(s: State<K>, id: nat)
    requires Ledger(s) && id < |s.tasks|
    ensures var t := s.tasks[id]; QueuedFor(s.log, id) == t.taken + t.queue + t.discarded
    ensures s.tasks[id].discarded != [] ==> s.tasks[id].phase == Dropped
    ensures s.tasks[id].queue != [] ==> s.tasks[id].phase != Dropped
  {
    assert LedgerOk(s, id);
    var t := s.tasks[id];
    assert t.taken + [] == t.taken && (t.taken + t.queue) + [] == t.taken + t.queue;
  }

  /** Order: what a session has taken, followed by what is still in its channel or was when the channel
      went, are datagrams that name its key and came after the one that created it, in their order of
      arrival.  The creating datagram is not among them. */
  lemma SessionInOrder<K(!new)>(s: State<K>, id: nat)
    requires Reachable(s) && id < |s.tasks|
    ensures var t := s.tasks[id];
            IsSubsequence(t.taken + t.queue + t.discarded, Addressed(s.log, t.born + 1, t.key))
  {
    ReachableLedger(s);
    LedgerParts(s, id);
    forall j | 0 <= j < |s.log| && s.log[j].fate == Queued(id)
      ensures j >= s.tasks[id].born + 1 && s.log[j].to.Names(s.tasks[id].key)
    {
      assert RecordOk(s, j);
    }
    QueuedIsSubsequence(s.log, id, s.tasks[id].born + 1, s.tasks[id].key);
  }

  lemma TakenAreOrdered<K(!new)>(s: State<K>, id: nat)
    requires Reachable(s) && id < |s.tasks|
    ensures var t := s.tasks[id]; IsSubsequence(t.taken, Addressed(s.log, t.born + 1, t.key))
  {
    SessionInOrder(s, id);
    var t := s.tasks[id];
    var addressed := Addressed(s.log, t.born + 1, t.key);
    SubsequencePrefix(t.taken + t.queue, t.discarded, addressed);
    SubsequencePrefix(t.taken, t.queue, addressed);
  }

  /** Conservation: every datagram routed to a session was taken by its task, is in its channel, was
      dropped because the channel was full or closed, or was lost with the channel when the session was
      over; and before that nothing is lost with the channel. */
  lemma SessionConservation<K(!new)>(s: State<K>, id: nat)
    requires Reachable(s) && id < |s.tasks|
    ensures var t := s.tasks[id];
            && |RoutedTo(s.log, id)| == |t.taken| + |t.queue| + TurnedAway(s.log, id) + |t.discarded|
            && (if t.phase == Dropped then t.queue == [] else t.discarded == [])
  {
    ReachableLedger(s);
    LedgerParts(s, id);
    RoutedSplits(s.log, id);
  }

  /** Completeness: from its birth until its entry is removed a session is offered every single datagram
      whose first name is its key, and only the task's own end stops that. */
  lemma SessionGetsItsDatagrams<K(!new)>(s: State<K>, id: nat, j: nat)
    requires Reachable(s) && id < |s.tasks| && s.tasks[id].born < j < |s.log|
    requires s.log[j].to.key == s.tasks[id].key
    requires s.tasks[id].gone.Some? ==> j < s.tasks[id].gone.value
    ensures Session(s.log[j].fate) == Some(id)
    ensures s.tasks[id].gone.Some? <==> s.tasks[id].phase.Removed? || s.tasks[id].phase.Dropped?
  {
    ReachableLedger(s);
    assert LifeOk(s, id);
  }
}
