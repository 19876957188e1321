/** The connection manager: one main loop, one shared table, one task per connection.

    A state is what they share plus where each of them stands; a step is one indivisible action of one
    of them.  A run is any interleaving of steps.  The table's key type is a parameter: connection ids
    in QUIC mode, SCION addresses in UDP mode. */
module Manager {
  import opened Net
  import opened Outbound

  const CLIENT_CHANNEL_CAPACITY: nat := 200

  /** Where a packet is looked up: under `key`, and failing that under `alias`.  A new connection is
      always entered under `key`. */
  datatype Route<K> = Route(key: K, alias: Option<K>) {
    ghost predicate Names(k: K) { k == key || alias == Some(k) }
  }

  /** Life of a connection task.  `OnBroker` is a wait on the broker's socket outside the task's select,
      where it sees no timer, no packet and no cancellation.  The channel's receiver is dropped last,
      after the table entry. */
  datatype Phase = Created | Inserted | Running | OnBroker | Finished | Removing | Removed | Dropped {
    /** The table has an entry for the task in exactly these phases. */
    predicate Live() { Inserted? || Running? || OnBroker? || Finished? || Removing? }

    /** The task has left its code for good. */
    predicate Over() { Finished? || Removing? || Removed? || Dropped? }
  }

  /** Five fields are history that the program does not keep: the packets the task took from its channel,
      those it sent to the main loop so far and those that were still in its channel when that was
      dropped, and the length of the log when it was created and when its entry was removed. */
  datatype Task<K> = Task(key: K, phase: Phase, queue: seq<UdpPacket>, cancelled: bool, taken: seq<UdpPacket>,
                          offered: seq<UdpPacket>, discarded: seq<UdpPacket>, born: nat, gone: Option<nat>)

  /** Where the main loop stands in handling one datagram. */
  datatype Main<K> =
    | Idle
    | Looking(to: Route<K>, pkt: UdpPacket, locked: bool)
    | Missed(to: Route<K>, pkt: UdpPacket)
    | Sending(to: Route<K>, pkt: UdpPacket, id: nat)
    | Creating(id: nat, locked: bool)
    | Spawning(id: nat)

  datatype Holder = Nobody | ByMain | ByTask(id: nat)

  /** What became of a datagram. */
  datatype Fate =
    | Ignored
    | Answered(reply: UdpPacket)
    | Opened(id: nat)
    | Queued(id: nat)
    | Full(id: nat)
    | Closed(id: nat)

  datatype Record<K> = Record(to: Route<K>, pkt: UdpPacket, fate: Fate)

  /** `log` and `socket` are history: the datagrams handled and the packets handed to the SCION socket. */
  datatype State<K> = State(table: map<K, nat>, tasks: seq<Task<K>>, main: Main<K>, lock: Holder,
                            out: Channel, log: seq<Record<K>>, socket: seq<Pending>)

  /** What the main loop does with a datagram that matches no connection. */
  datatype Decision = Ignore | Reply(packet: UdpPacket) | Create

  datatype Step<K> =
    | Arrive(to: Route<K>, pkt: UdpPacket)
    | MainLock
    | MainLookup
    | MainTrySend
    | MainDecide(decision: Decision)
    | MainInsert
    | MainSpawn
    | MainForward
    | TaskReceive(id: nat)
    | TaskSend(id: nat, pkt: UdpPacket)
    | TaskResume(place: nat)
    | TaskWait(id: nat)
    | TaskWake(id: nat)
    | TaskFinish(id: nat)
    | TaskLock(id: nat)
    | TaskRemove(id: nat)
    | TaskDrop(id: nat)
  {
    predicate ByTask() {
      || TaskReceive? || TaskSend? || TaskResume? || TaskWait? || TaskWake?
      || TaskFinish? || TaskLock? || TaskRemove? || TaskDrop?
    }
  }

  function Initial<K>(): State<K> { State(map[], [], Idle, Nobody, Outbound.EMPTY_CHANNEL, [], []) }

  function Find<K(==)>(table: map<K, nat>, to: Route<K>): Option<nat> {
    if to.key in table then Some(table[to.key])
    else if to.alias.Some? && to.alias.value in table then Some(table[to.alias.value])
    else None
  }

  predicate InPhase<K(==)>(s: State<K>, id: nat, phase: Phase) {
    id < |s.tasks| && s.tasks[id].phase == phase
  }

  /** A task that runs its own code, waiting neither in `send` on the outbound channel nor on the broker. */
  predicate CanRun<K(==)>(s: State<K>, id: nat) {
    InPhase(s, id, Running) && !s.out.InLine(id)
  }

  predicate Enabled<K(==)>(s: State<K>, step: Step<K>) {
    match step
    case Arrive(_, _) => s.main.Idle?
    case MainLock => s.lock.Nobody? && (s.main.Looking? || s.main.Creating?)
    case MainLookup => s.main.Looking? && s.main.locked
    case MainTrySend => s.main.Sending? && s.main.id < |s.tasks|
    case MainDecide(_) => s.main.Missed?
    case MainInsert => s.main.Creating? && s.main.locked && s.main.id < |s.tasks|
    case MainSpawn => s.main.Spawning? && s.main.id < |s.tasks|
    case MainForward => s.main.Idle? && s.out.queue != []
    case TaskReceive(id) => CanRun(s, id) && s.tasks[id].queue != []
    case TaskSend(id, _) => CanRun(s, id)
    case TaskResume(i) => i < s.out.granted && i < |s.out.line|
    case TaskWait(id) => CanRun(s, id)
    case TaskWake(id) => InPhase(s, id, OnBroker)
    case TaskFinish(id) => CanRun(s, id)
    case TaskLock(id) => InPhase(s, id, Finished) && s.lock.Nobody?
    case TaskRemove(id) => InPhase(s, id, Removing)
    case TaskDrop(id) => InPhase(s, id, Removed)
  }

  function SetTask<K>(s: State<K>, id: nat, task: Task<K>): State<K>
    requires id < |s.tasks|
  {
    s.(tasks := s.tasks[id := task])
  }

  function SetPhase<K>(s: State<K>, id: nat, phase: Phase): State<K>
    requires id < |s.tasks|
  {
    SetTask(s, id, s.tasks[id].(phase := phase))
  }

  function Looked<K(==)>(s: State<K>): State<K>
    requires s.main.Looking?
  {
    var main := match Find(s.table, s.main.to)
      case Some(id) => Sending(s.main.to, s.main.pkt, id)
      case None => Missed(s.main.to, s.main.pkt);
    s.(main := main, lock := Nobody)
  }

  /** What `try_send` makes of a packet for a task, and of the task: if its channel is closed, the task is
      cancelled. */
  function FateOf<K>(task: Task<K>, id: nat): Fate {
    if task.phase == Dropped then Closed(id)
    else if |task.queue| < CLIENT_CHANNEL_CAPACITY then Queued(id)
    else Full(id)
  }

  function Offered<K>(task: Task<K>, pkt: UdpPacket): Task<K> {
    if task.phase == Dropped then task.(cancelled := true)
    else if |task.queue| < CLIENT_CHANNEL_CAPACITY then task.(queue := task.queue + [pkt])
    else task
  }

  function TriedToSend<K>(s: State<K>): State<K>
    requires s.main.Sending? && s.main.id < |s.tasks|
  {
    var id := s.main.id;
    SetTask(s, id, Offered(s.tasks[id], s.main.pkt))
      .(main := Idle, log := s.log + [Record(s.main.to, s.main.pkt, FateOf(s.tasks[id], id))])
  }

  function Decided<K>(s: State<K>, d: Decision): State<K>
    requires s.main.Missed?
  {
    match d
    case Ignore => s.(main := Idle, log := s.log + [Record(s.main.to, s.main.pkt, Ignored)])
    case Reply(p) =>
      s.(main := Idle, out := TrySend(s.out, p), log := s.log + [Record(s.main.to, s.main.pkt, Answered(p))])
    case Create =>
      s.(main := Creating(|s.tasks|, false),
         tasks := s.tasks + [Task(s.main.to.key, Created, [], false, [], [], [], |s.log|, None)],
         log := s.log + [Record(s.main.to, s.main.pkt, Opened(|s.tasks|))])
  }

  function Next<K(==)>(s: State<K>, step: Step<K>): State<K>
    requires Enabled(s, step)
  {
    match step
    case Arrive(to, pkt) => s.(main := Looking(to, pkt, false))
    case MainLock => s.(lock := ByMain, main := s.main.(locked := true))
    case MainLookup => Looked(s)
    case MainTrySend => TriedToSend(s)
    case MainDecide(d) => Decided(s, d)
    case MainInsert =>
      SetPhase(s, s.main.id, Inserted)
        .(table := s.table[s.tasks[s.main.id].key := s.main.id], lock := Nobody, main := Spawning(s.main.id))
    case MainSpawn => SetPhase(s, s.main.id, Running).(main := Idle)
    case MainForward => s.(out := Receive(s.out), socket := s.socket + [s.out.queue[0]])
    case TaskReceive(id) =>
      var t := s.tasks[id];
      SetTask(s, id, t.(queue := t.queue[1..], taken := t.taken + [t.queue[0]]))
    case TaskSend(id, pkt) =>
      SetTask(s, id, s.tasks[id].(offered := s.tasks[id].offered + [pkt])).(out := Send(s.out, Pending(Some(id), pkt)))
    case TaskResume(i) => s.(out := Resume(s.out, i))
    case TaskWait(id) => SetPhase(s, id, OnBroker)
    case TaskWake(id) => SetPhase(s, id, Running)
    case TaskFinish(id) => SetPhase(s, id, Finished)
    case TaskLock(id) => SetPhase(s, id, Removing).(lock := ByTask(id))
    case TaskRemove(id) =>
      SetTask(s, id, s.tasks[id].(phase := Removed, gone := Some(|s.log|)))
        .(table := s.table - {s.tasks[id].key}, lock := Nobody)
    case TaskDrop(id) =>
      SetTask(s, id, s.tasks[id].(phase := Dropped, queue := [], discarded := s.tasks[id].queue))
  }

  predicate IsRun<K(==)>(s: State<K>, steps: seq<Step<K>>)
    decreases |steps|
  {
    steps == [] || (Enabled(s, steps[0]) && IsRun(Next(s, steps[0]), steps[1..]))
  }

  function After<K(==)>(s: State<K>, steps: seq<Step<K>>): State<K>
    requires IsRun(s, steps)
    decreases |steps|
  {
    if steps == [] then s else After(Next(s, steps[0]), steps[1..])
  }

  /** A run in which every step also obeys the rule of one mode of the proxy. */
  ghost predicate IsRunOf<K>(rule: (State<K>, Step<K>) -> bool, s: State<K>, steps: seq<Step<K>>)
    ensures IsRunOf(rule, s, steps) ==> IsRun(s, steps)
    decreases |steps|
  {
    steps == [] || (Enabled(s, steps[0]) && rule(s, steps[0]) && IsRunOf(rule, Next(s, steps[0]), steps[1..]))
  }

  lemma {:induction false} RunOfSnoc<K>(rule: (State<K>, Step<K>) -> bool, s: State<K>, a: seq<Step<K>>, step: Step<K>)
    requires IsRunOf(rule, s, a) && Enabled(After(s, a), step) && rule(After(s, a), step)
    ensures IsRunOf(rule, s, a + [step]) && After(s, a + [step]) == Next(After(s, a), step)
    decreases |a|
  {
    if a == [] {
      assert [step][1..] == [] && IsRunOf(rule, Next(s, step), []);
      assert a + [step] == [step];
    } else {
      assert (a + [step])[1..] == a[1..] + [step];
      RunOfSnoc(rule, Next(s, a[0]), a[1..], step);
    }
  }

  /** A run obeys a rule as much as any rule that says the same. */
  lemma {:induction false} SameRule<K(!new)>(a: (State<K>, Step<K>) -> bool, b: (State<K>, Step<K>) -> bool,
                                             s: State<K>, steps: seq<Step<K>>)
    requires IsRunOf(a, s, steps) && forall s, step :: a(s, step) == b(s, step)
    ensures IsRunOf(b, s, steps)
    decreases |steps|
  {
    if steps != [] {
      SameRule(a, b, Next(s, steps[0]), steps[1..]);
    }
  }
}
