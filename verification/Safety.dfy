/** What holds in every state of every run of the connection manager, whatever the interleaving. */
module Safety {
  import opened Net
  import opened Outbound
  import opened Manager

  /** Live tasks and table entries correspond one to one. */
  ghost predicate TableMatchesTasks<K>(s: State<K>) {
    && (forall k | k in s.table ::
          s.table[k] < |s.tasks| && s.tasks[s.table[k]].key == k && s.tasks[s.table[k]].phase.Live())
    && (forall i | 0 <= i < |s.tasks| && s.tasks[i].phase.Live() ::
          s.tasks[i].key in s.table && s.table[s.tasks[i].key] == i)
  }

  ghost predicate MainConsistent<K>(s: State<K>) {
    && (forall i | 0 <= i < |s.tasks| :: s.tasks[i].phase == Created <==> s.main.Creating? && s.main.id == i)
    && (forall i | 0 <= i < |s.tasks| :: s.tasks[i].phase == Inserted <==> s.main.Spawning? && s.main.id == i)
    && (s.main.Creating? || s.main.Spawning? || s.main.Sending? ==> s.main.id < |s.tasks|)
    && (s.main.Creating? ==> s.tasks[s.main.id].key !in s.table)
    && (s.main.Missed? ==> Find(s.table, s.main.to).None?)
    && (s.main.Sending? ==> s.main.to.Names(s.tasks[s.main.id].key))
  }

  ghost predicate LockConsistent<K>(s: State<K>) {
    && (s.lock == ByMain <==> (s.main.Looking? || s.main.Creating?) && s.main.locked)
    && (s.lock.ByTask? ==> InPhase(s, s.lock.id, Removing))
    && (forall i | 0 <= i < |s.tasks| && s.tasks[i].phase == Removing :: s.lock == ByTask(i))
  }

  ghost predicate ChannelsBounded<K>(s: State<K>) {
    && s.out.Valid()
    && (forall i | 0 <= i < |s.out.line| ::
          s.out.line[i].sender.Some? && InPhase(s, s.out.line[i].sender.value, Running))
    && (forall i | 0 <= i < |s.tasks| :: |s.tasks[i].queue| <= CLIENT_CHANNEL_CAPACITY)
  }

  /** Nobody is ever cancelled while its entry, or even its receiver, is alive. */
  ghost predicate CancelsAreStale<K>(s: State<K>) {
    forall i | 0 <= i < |s.tasks| && s.tasks[i].cancelled :: s.tasks[i].phase == Dropped
  }

  ghost predicate Invariant<K>(s: State<K>) {
    TableMatchesTasks(s) && MainConsistent(s) && LockConsistent(s) && ChannelsBounded(s) && CancelsAreStale(s)
  }

  lemma InvariantInitially<K>()
    ensures Invariant(Initial<K>())
  {
  }

  // ---- A step that changes one task and nothing else ----

  lemma EditKeepsTable<K>(s: State<K>, id: nat, t: Task<K>)
    requires TableMatchesTasks(s) && id < |s.tasks|
    requires t.key == s.tasks[id].key && (t.phase.Live() <==> s.tasks[id].phase.Live())
    ensures TableMatchesTasks(SetTask(s, id, t))
  {
  }

  lemma EditKeepsMain<K>(s: State<K>, id: nat, t: Task<K>)
    requires MainConsistent(s) && id < |s.tasks| && t.key == s.tasks[id].key
    requires t.phase == Created <==> s.tasks[id].phase == Created
    requires t.phase == Inserted <==> s.tasks[id].phase == Inserted
    ensures MainConsistent(SetTask(s, id, t))
  {
  }

  lemma EditKeepsLock<K>(s: State<K>, id: nat, t: Task<K>)
    requires LockConsistent(s) && id < |s.tasks| && (t.phase == Removing <==> s.tasks[id].phase == Removing)
    ensures LockConsistent(SetTask(s, id, t))
  {
  }

  lemma EditKeepsChannels<K>(s: State<K>, id: nat, t: Task<K>)
    requires ChannelsBounded(s) && id < |s.tasks| && |t.queue| <= CLIENT_CHANNEL_CAPACITY
    requires s.tasks[id].phase == Running && s.out.InLine(id) ==> t.phase == Running
    ensures ChannelsBounded(SetTask(s, id, t))
  {
  }

  lemma EditKeepsCancels<K>(s: State<K>, id: nat, t: Task<K>)
    requires CancelsAreStale(s) && id < |s.tasks| && (t.cancelled ==> t.phase == Dropped)
    ensures CancelsAreStale(SetTask(s, id, t))
  {
  }

  /** A task may change what is in its channel and its histories, and it may change its phase so far as
      table, main loop and lock do not see it. */
  ghost predicate HarmlessEdit<K>(s: State<K>, id: nat, t: Task<K>) {
    && id < |s.tasks| && t.key == s.tasks[id].key && (t.phase.Live() <==> s.tasks[id].phase.Live())
    && (t.phase == Created <==> s.tasks[id].phase == Created)
    && (t.phase == Inserted <==> s.tasks[id].phase == Inserted)
    && (t.phase == Removing <==> s.tasks[id].phase == Removing)
    && (s.tasks[id].phase == Running && s.out.InLine(id) ==> t.phase == Running)
    && |t.queue| <= CLIENT_CHANNEL_CAPACITY && (t.cancelled ==> t.phase == Dropped)
  }

  lemma EditKeepsInvariant<K>(s: State<K>, id: nat, t: Task<K>)
    requires Invariant(s) && HarmlessEdit(s, id, t)
    ensures Invariant(SetTask(s, id, t))
  {
    EditKeepsTable(s, id, t);
    EditKeepsMain(s, id, t);
    EditKeepsLock(s, id, t);
    EditKeepsChannels(s, id, t);
    EditKeepsCancels(s, id, t);
  }

  // ---- The steps of the main loop ----

  lemma WaitingForLockKeepsInvariant<K>(s: State<K>, step: Step<K>)
    requires Invariant(s) && Enabled(s, step)
    requires step.Arrive? || step.MainLock? || step.MainLookup?
    ensures Invariant(Next(s, step))
  {
  }

  /** Back at its select, the main loop asks nothing of the tasks. */
  lemma GoingIdleKeepsInvariant<K>(s: State<K>, log: seq<Record<K>>)
    requires Invariant(s) && (s.main.Sending? || s.main.Missed?)
    ensures Invariant(s.(main := Idle, log := log))
  {
  }

  lemma TrySendKeepsInvariant<K>(s: State<K>)
    requires Invariant(s) && Enabled(s, MainTrySend)
    ensures Invariant(Next(s, MainTrySend))
  {
    var s' := Next(s, MainTrySend);
    assert HarmlessEdit(s, s.main.id, s'.tasks[s.main.id]);
    EditKeepsInvariant(s, s.main.id, s'.tasks[s.main.id]);
    GoingIdleKeepsInvariant(SetTask(s, s.main.id, s'.tasks[s.main.id]), s'.log);
  }

  lemma CreateKeepsInvariant<K>(s: State<K>)
    requires Invariant(s) && Enabled(s, MainDecide(Create))
    ensures Invariant(Next(s, MainDecide(Create)))
  {
  }

  lemma DecideKeepsInvariant<K>(s: State<K>, d: Decision)
    requires Invariant(s) && Enabled(s, MainDecide(d))
    ensures Invariant(Next(s, MainDecide(d)))
  {
    if d.Create? {
      CreateKeepsInvariant(s);
    } else {
      GoingIdleKeepsInvariant(s, Next(s, MainDecide(d)).log);
    }
  }

  lemma InsertKeepsTable<K>(s: State<K>)
    requires TableMatchesTasks(s) && MainConsistent(s) && Enabled(s, MainInsert)
    ensures TableMatchesTasks(Next(s, MainInsert))
  {
  }

  lemma InsertKeepsActors<K>(s: State<K>)
    requires MainConsistent(s) && LockConsistent(s) && Enabled(s, MainInsert)
    ensures MainConsistent(Next(s, MainInsert)) && LockConsistent(Next(s, MainInsert))
  {
  }

  lemma StartKeepsChannels<K>(s: State<K>, step: Step<K>)
    requires MainConsistent(s) && ChannelsBounded(s) && CancelsAreStale(s)
    requires Enabled(s, step) && (step.MainInsert? || step.MainSpawn?)
    ensures ChannelsBounded(Next(s, step)) && CancelsAreStale(Next(s, step))
  {
  }

  lemma InsertKeepsInvariant<K>(s: State<K>)
    requires Invariant(s) && Enabled(s, MainInsert)
    ensures Invariant(Next(s, MainInsert))
  {
    InsertKeepsTable(s);
    InsertKeepsActors(s);
    StartKeepsChannels(s, MainInsert);
  }

  lemma SpawnKeepsActors<K>(s: State<K>)
    requires MainConsistent(s) && LockConsistent(s) && Enabled(s, MainSpawn)
    ensures MainConsistent(Next(s, MainSpawn)) && LockConsistent(Next(s, MainSpawn))
  {
  }

  lemma SpawnKeepsInvariant<K>(s: State<K>)
    requires Invariant(s) && Enabled(s, MainSpawn)
    ensures Invariant(Next(s, MainSpawn))
  {
    EditKeepsTable(s, s.main.id, s.tasks[s.main.id].(phase := Running));
    SpawnKeepsActors(s);
    StartKeepsChannels(s, MainSpawn);
  }

  lemma ForwardKeepsInvariant<K>(s: State<K>)
    requires Invariant(s) && Enabled(s, MainForward)
    ensures Invariant(Next(s, MainForward))
  {
  }

  // ---- The steps of a task ----

  lemma SendKeepsLine<K>(s: State<K>, id: nat, pkt: UdpPacket)
    requires ChannelsBounded(s) && CanRun(s, id)
    ensures ChannelsBounded(s.(out := Send(s.out, Pending(Some(id), pkt))))
  {
  }

  lemma SendKeepsInvariant<K>(s: State<K>, id: nat, pkt: UdpPacket)
    requires Invariant(s) && Enabled(s, TaskSend(id, pkt))
    ensures Invariant(Next(s, TaskSend(id, pkt)))
  {
    var t := Next(s, TaskSend(id, pkt)).tasks[id];
    EditKeepsInvariant(s, id, t);
    SendKeepsLine(SetTask(s, id, t), id, pkt);
  }

  lemma ResumeKeepsInvariant<K>(s: State<K>, place: nat)
    requires Invariant(s) && Enabled(s, TaskResume(place))
    ensures Invariant(Next(s, TaskResume(place)))
  {
  }

  /** Taking a packet, turning to the broker and back, coming to an end and dropping the channel are the
      task's own affair. */
  lemma OwnAffairKeepsInvariant<K>(s: State<K>, step: Step<K>)
    requires Invariant(s) && Enabled(s, step)
    requires step.TaskReceive? || step.TaskWait? || step.TaskWake? || step.TaskFinish? || step.TaskDrop?
    ensures Invariant(Next(s, step))
  {
    EditKeepsInvariant(s, step.id, Next(s, step).tasks[step.id]);
  }

  lemma LockKeepsActors<K>(s: State<K>, id: nat)
    requires LockConsistent(s) && Enabled(s, TaskLock(id))
    ensures LockConsistent(Next(s, TaskLock(id)))
  {
  }

  lemma LockKeepsInvariant<K>(s: State<K>, id: nat)
    requires Invariant(s) && Enabled(s, TaskLock(id))
    ensures Invariant(Next(s, TaskLock(id)))
  {
    var t := s.tasks[id].(phase := Removing);
    EditKeepsTable(s, id, t);
    EditKeepsMain(s, id, t);
    LockKeepsActors(s, id);
    EditKeepsChannels(s, id, t);
    EditKeepsCancels(s, id, t);
  }

  lemma RemoveKeepsTable<K>(s: State<K>, id: nat)
    requires TableMatchesTasks(s) && Enabled(s, TaskRemove(id))
    ensures TableMatchesTasks(Next(s, TaskRemove(id)))
  {
    assert s.table[s.tasks[id].key] == id;
  }

  lemma RemoveKeepsActors<K>(s: State<K>, id: nat)
    requires MainConsistent(s) && LockConsistent(s) && Enabled(s, TaskRemove(id))
    ensures MainConsistent(Next(s, TaskRemove(id))) && LockConsistent(Next(s, TaskRemove(id)))
  {
  }

  lemma RemoveKeepsInvariant<K>(s: State<K>, id: nat)
    requires Invariant(s) && Enabled(s, TaskRemove(id))
    ensures Invariant(Next(s, TaskRemove(id)))
  {
    var t := Next(s, TaskRemove(id)).tasks[id];
    RemoveKeepsTable(s, id);
    RemoveKeepsActors(s, id);
    EditKeepsChannels(s, id, t);
    EditKeepsCancels(s, id, t);
  }

  lemma StepKeepsInvariant<K>(s: State<K>, step: Step<K>)
    requires Invariant(s) && Enabled(s, step)
    ensures Invariant(Next(s, step))
  {
    match step
    case MainTrySend => TrySendKeepsInvariant(s);
    case MainDecide(d) => DecideKeepsInvariant(s, d);
    case MainInsert => InsertKeepsInvariant(s);
    case MainSpawn => SpawnKeepsInvariant(s);
    case MainForward => ForwardKeepsInvariant(s);
    case TaskSend(id, pkt) => SendKeepsInvariant(s, id, pkt);
    case TaskResume(place) => ResumeKeepsInvariant(s, place);
    case TaskLock(id) => LockKeepsInvariant(s, id);
    case TaskRemove(id) => RemoveKeepsInvariant(s, id);
    case Arrive(_, _) => WaitingForLockKeepsInvariant(s, step);
    case MainLock => WaitingForLockKeepsInvariant(s, step);
    case MainLookup => WaitingForLockKeepsInvariant(s, step);
    case _ => OwnAffairKeepsInvariant(s, step);
  }

  lemma {:induction false} RunKeepsInvariant<K>(s: State<K>, steps: seq<Step<K>>)
    requires Invariant(s) && IsRun(s, steps)
    ensures Invariant(After(s, steps))
    decreases |steps|
  {
    if steps != [] {
      StepKeepsInvariant(s, steps[0]);
      RunKeepsInvariant(Next(s, steps[0]), steps[1..]);
    }
  }

  ghost predicate Reachable<K(!new)>(s: State<K>) {
    exists steps: seq<Step<K>> :: IsRun(Initial(), steps) && After(Initial(), steps) == s
  }

  lemma ReachableInvariant<K(!new)>(s: State<K>)
    requires Reachable(s)
    ensures Invariant(s)
  {
    var steps :| IsRun(Initial(), steps) && After(Initial(), steps) == s;
    InvariantInitially<K>();
    RunKeepsInvariant(Initial(), steps);
  }

  /** Lookup and insert are separate critical sections, and still an insert never replaces an entry: it
      adds exactly one key, and every entry that was there stays. */
  lemma InsertNeverOverwrites<K(!new)>(s: State<K>)
    requires Reachable(s) && Enabled(s, MainInsert)
    ensures s.tasks[s.main.id].key !in s.table
    ensures Next(s, MainInsert).table.Keys == s.table.Keys + {s.tasks[s.main.id].key}
    ensures forall k | k in s.table :: Next(s, MainInsert).table[k] == s.table[k]
  {
    ReachableInvariant(s);
  }

  /** A finishing task's `remove` deletes the entry made for that very task, never a successor's, and
      no other entry. */
  lemma RemoveTakesOwnEntry<K(!new)>(s: State<K>, id: nat)
    requires Reachable(s) && Enabled(s, TaskRemove(id))
    ensures s.tasks[id].key in s.table && s.table[s.tasks[id].key] == id
    ensures forall j | 0 <= j < |s.tasks| && j != id && s.tasks[j].phase.Live() ::
              var t := Next(s, TaskRemove(id)).table; s.tasks[j].key in t && t[s.tasks[j].key] == j
  {
    ReachableInvariant(s);
  }

  /** Live tasks and entries correspond one to one, and an entry's receiver is alive. */
  lemma EntriesAreLiveTasks<K(!new)>(s: State<K>, k: K, id: nat)
    requires Reachable(s) && id < |s.tasks|
    ensures (k in s.table && s.table[k] == id) <==> (s.tasks[id].key == k && s.tasks[id].phase.Live())
    ensures k in s.table && s.table[k] == id ==> s.tasks[id].phase != Dropped && !s.tasks[id].cancelled
  {
    ReachableInvariant(s);
  }

  /** `try_send` finds a channel closed only for a task whose entry is already gone, and the cancel that
      follows touches that task alone, so no task that is still in the table is ever cancelled. */
  lemma ClosedArmIsStale<K(!new)>(s: State<K>)
    requires Reachable(s) && Enabled(s, MainTrySend) && s.tasks[s.main.id].phase == Dropped
    ensures forall k | k in s.table :: s.table[k] != s.main.id
    ensures var s' := Next(s, MainTrySend);
            && s'.table == s.table
            && (forall i | 0 <= i < |s.tasks| && i != s.main.id :: s'.tasks[i] == s.tasks[i])
            && (forall i | 0 <= i < |s'.tasks| && s'.tasks[i].cancelled :: s'.tasks[i].phase == Dropped)
  {
    ReachableInvariant(s);
    TrySendKeepsInvariant(s);
  }

  /** What becomes of a packet for a task: it is queued behind the others if there are fewer than 200, and lost
      if there are 200, or if the channel is closed, and then the task is cancelled. */
  lemma TrySendOutcome<K>(s: State<K>)
    requires Enabled(s, MainTrySend)
    ensures var s', t, n := Next(s, MainTrySend), s.tasks[s.main.id], |s.log|;
            && |s'.tasks| == |s.tasks| && |s'.log| == n + 1 && s'.log[n].to == s.main.to && s'.log[n].pkt == s.main.pkt
            && var t', fate := s'.tasks[s.main.id], s'.log[n].fate;
            && (t.phase == Dropped ==> fate == Closed(s.main.id) && t'.cancelled && t'.queue == t.queue)
            && (t.phase != Dropped && |t.queue| < 200 ==>
                  fate == Queued(s.main.id) && t'.queue == t.queue + [s.main.pkt] && t'.cancelled == t.cancelled)
            && (t.phase != Dropped && |t.queue| >= 200 ==> fate == Full(s.main.id) && t' == t)
  {
  }

  /** The channels hold 10000 and 200 packets at most. */
  lemma ChannelsHold<K(!new)>(s: State<K>, id: nat)
    requires Reachable(s)
    ensures |s.out.queue| <= 10000 && (s.out.line != [] ==> |s.out.queue| + s.out.granted == 10000 || s.out.granted > 0)
    ensures id < |s.tasks| ==> |s.tasks[id].queue| <= 200
  {
    ReachableInvariant(s);
  }

  /** The task chosen by a lookup answers to one of the two names the datagram carries; a datagram whose
      first name has an entry goes to that entry. */
  lemma LookupRoutes<K(!new)>(s: State<K>)
    requires Reachable(s) && Enabled(s, MainLookup)
    ensures var s', to := Next(s, MainLookup), s.main.to;
            && (to.key in s.table ==> s'.main == Sending(to, s.main.pkt, s.table[to.key]))
            && (s'.main.Sending? ==>
                  var id := s'.main.id; id < |s.tasks| && to.Names(s.tasks[id].key) && s.tasks[id].phase.Live())
            && (s'.main.Missed? <==>
                  forall id | 0 <= id < |s.tasks| && s.tasks[id].phase.Live() :: !to.Names(s.tasks[id].key))
  {
    ReachableInvariant(s);
    var to := s.main.to;
    if Find(s.table, to).None? {
      forall id | 0 <= id < |s.tasks| && s.tasks[id].phase.Live() ensures !to.Names(s.tasks[id].key) {
        assert s.tasks[id].key in s.table;
      }
    }
  }
}
