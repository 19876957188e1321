/** The objects the main loop shares with the tasks of one mode, updated in place: the table behind its
    lock, the channels and the tasks themselves.  Every method of the main loop below is one step of the
    connection manager; `Interleave` lets the other actors run where the main loop may be suspended. */
module Shared {
  import opened Net
  import opened Outbound
  import opened Manager
  import opened Safety

  /** What the tasks make of a schedule: of the steps offered, those that are a task's and possible are taken. */
  function Scheduled<K(==)>(s: State<K>, schedule: seq<Step<K>>): State<K> {
    if schedule == [] then s
    else
      var before, last := Scheduled(s, schedule[..|schedule| - 1]), schedule[|schedule| - 1];
      if last.ByTask() && Enabled(before, last) then Next(before, last) else before
  }

  /** Once a task that holds the lock has left its critical section. */
  function Released<K(==)>(s: State<K>): State<K> {
    if s.lock.ByTask? && Enabled(s, TaskRemove(s.lock.id)) then Next(s, TaskRemove(s.lock.id)) else s
  }

  /** What a lookup finds, after the tasks have run and the lock is free. */
  function FoundAfter<K(==)>(s: State<K>, to: Route<K>, pkt: UdpPacket, schedule: seq<Step<K>>): Option<nat> {
    Find(Released(Scheduled(s.(main := Looking(to, pkt, false)), schedule)).table, to)
  }

  lemma {:induction false} LastOfRun<K>(s: State<K>, steps: seq<Step<K>>, last: Step<K>)
    requires IsRun(s, steps + [last])
    ensures IsRun(s, steps) && Enabled(After(s, steps), last)
    ensures After(s, steps + [last]) == Next(After(s, steps), last)
    decreases |steps|
  {
    if steps != [] {
      assert (steps + [last])[1..] == steps[1..] + [last];
      LastOfRun(Next(s, steps[0]), steps[1..], last);
    } else {
      assert (steps + [last])[1..] == [];
    }
  }

  /** Whatever the tasks can do by themselves is the outcome of a schedule. */
  lemma {:induction false} ScheduledFollows<K>(s: State<K>, steps: seq<Step<K>>)
    requires IsRun(s, steps) && (forall i | 0 <= i < |steps| :: steps[i].ByTask())
    ensures Scheduled(s, steps) == After(s, steps)
    decreases |steps|
  {
    if steps != [] {
      var before, last := steps[..|steps| - 1], steps[|steps| - 1];
      assert steps == before + [last];
      LastOfRun(s, before, last);
      ScheduledFollows(s, before);
    }
  }

  lemma TasksLeaveMainAlone<K>(s: State<K>, step: Step<K>)
    requires Enabled(s, step) && step.ByTask()
    ensures var s' := Next(s, step); s'.main == s.main && s'.log == s.log && s'.socket == s.socket
  {
  }

  lemma {:induction false} ScheduleLeavesMainAlone<K>(s: State<K>, schedule: seq<Step<K>>)
    ensures var s' := Scheduled(s, schedule); s'.main == s.main && s'.log == s.log && s'.socket == s.socket
    decreases |schedule|
  {
    if schedule != [] {
      var before, last := Scheduled(s, schedule[..|schedule| - 1]), schedule[|schedule| - 1];
      ScheduleLeavesMainAlone(s, schedule[..|schedule| - 1]);
      if last.ByTask() && Enabled(before, last) {
        TasksLeaveMainAlone(before, last);
      }
    }
  }

  class Connections<K(==,!new)> {
    var table: map<K, nat>
    var tasks: seq<Task<K>>
    var main: Main<K>
    var lock: Holder
    var out: Channel
    var log: seq<Record<K>>
    var socket: seq<Pending>

    /** Everything that happened so far, and what the mode asks of it. */
    ghost var trace: seq<Step<K>>
    ghost const rule: (State<K>, Step<K>) -> bool

    ghost predicate Valid()
      reads this
    {
      && (forall s: State<K>, step: Step<K> | !step.Arrive? && !step.MainDecide? :: rule(s, step))
      && IsRunOf(rule, Initial(), trace)
      && After(Initial(), trace) == View()
    }

    function View(): State<K>
      reads this
    {
      State(table, tasks, main, lock, out, log, socket)
    }

    constructor (ghost rule: (State<K>, Step<K>) -> bool)
      requires forall s: State<K>, step: Step<K> | !step.Arrive? && !step.MainDecide? :: rule(s, step)
      ensures Valid() && View() == Initial() && this.rule == rule
    {
      table, tasks, main, lock, out, log, socket := map[], [], Idle, Nobody, Outbound.EMPTY_CHANNEL, [], [];
      trace := [];
      this.rule := rule;
    }

    lemma ValidInvariant()
      requires Valid()
      ensures Reachable(View()) && Invariant(View())
    {
      ReachableInvariant(View());
    }

    /** Put a step on record before taking it. */
    ghost method Note(step: Step<K>)
      requires Valid() && Enabled(View(), step) && rule(View(), step)
      modifies this`trace
      ensures trace == old(trace) + [step]
      ensures IsRunOf(rule, Initial(), trace) && After(Initial(), trace) == Next(View(), step)
    {
      RunOfSnoc(rule, Initial(), trace, step);
      trace := trace + [step];
    }

    method Become(s: State<K>)
      requires s.main == main && s.log == log && s.socket == socket
      modifies this`table, this`tasks, this`lock, this`out
      ensures View() == s
    {
      table, tasks, lock, out := s.table, s.tasks, s.lock, s.out;
    }

    method TaskStep(step: Step<K>)
      requires Valid() && Enabled(View(), step) && step.ByTask()
      modifies this
      ensures Valid() && trace == old(trace) + [step] && View() == Next(old(View()), step)
      ensures main == old(main) && log == old(log) && socket == old(socket)
    {
      Note(step);
      TasksLeaveMainAlone(View(), step);
      Become(Next(View(), step));
    }

    /** Any schedule of the tasks: of the steps offered, those that are a task's and possible are taken. */
    method Interleave(schedule: seq<Step<K>>)
      requires Valid()
      modifies this
      ensures Valid() && old(trace) <= trace && (forall i | |old(trace)| <= i < |trace| :: trace[i].ByTask())
      ensures View() == Scheduled(old(View()), schedule)
      ensures main == old(main) && log == old(log) && socket == old(socket)
    {
      for i := 0 to |schedule|
        invariant View() == Scheduled(old(View()), schedule[..i]) && socket == old(socket)
        invariant Valid() && old(trace) <= trace && (forall i | |old(trace)| <= i < |trace| :: trace[i].ByTask())
        invariant main == old(main) && log == old(log)
      {
        assert schedule[..i + 1][..i] == schedule[..i];
        if schedule[i].ByTask() && Enabled(View(), schedule[i]) {
          TaskStep(schedule[i]);
        }
      }
      assert schedule[..|schedule|] == schedule;
    }

    /** While the main loop waits for the lock, its holder is a task that can release it at once. */
    method AwaitRelease()
      requires Valid() && (main.Looking? || main.Creating?) && !main.locked
      modifies this
      ensures Valid() && lock == Nobody && View() == Released(old(View()))
      ensures main == old(main) && log == old(log) && socket == old(socket)
      ensures trace == old(trace) || exists id :: trace == old(trace) + [TaskRemove(id)]
    {
      ValidInvariant();
      if lock.ByTask? {
        TaskStep(TaskRemove(lock.id));
      }
    }

    /** `lock().await`: the others run, and whoever holds the lock leaves its critical section, which
        needs nothing from anybody. */
    method LockTable(schedule: seq<Step<K>>)
      requires Valid() && (main.Looking? || main.Creating?) && !main.locked
      modifies this
      ensures Valid() && old(trace) < trace && trace[|trace| - 1] == MainLock
      ensures forall i | |old(trace)| <= i < |trace| - 1 :: trace[i].ByTask()
      ensures View() == Released(Scheduled(old(View()), schedule)).(lock := ByMain, main := main)
      ensures main == old(main).(locked := true) && log == old(log) && socket == old(socket)
    {
      Interleave(schedule);
      AwaitRelease();
      Note(MainLock);
      lock, main := ByMain, main.(locked := true);
    }

    /** A datagram has arrived and its names are known. */
    method Arrived(to: Route<K>, pkt: UdpPacket)
      requires Valid() && main.Idle? && rule(View(), Arrive(to, pkt))
      modifies this
      ensures Valid() && trace == old(trace) + [Arrive(to, pkt)]
      ensures View() == old(View()).(main := Looking(to, pkt, false))
    {
      Note(Arrive(to, pkt));
      main := Looking(to, pkt, false);
    }

    /** Look up under the lock and release it. */
    method Lookup() returns (found: Option<nat>)
      requires Valid() && main.Looking? && main.locked
      modifies this
      ensures Valid() && trace == old(trace) + [MainLookup]
      ensures found == Find(old(table), old(main).to) && log == old(log) && socket == old(socket)
      ensures match found
              case Some(id) => main == Sending(old(main).to, old(main).pkt, id)
              case None => main == Missed(old(main).to, old(main).pkt)
    {
      Note(MainLookup);
      var to, pkt := main.to, main.pkt;
      found := None;
      if to.key in table {
        found := Some(table[to.key]);
      } else if to.alias.Some? && to.alias.value in table {
        found := Some(table[to.alias.value]);
      }
      match found {
        case Some(id) => main := Sending(to, pkt, id);
        case None => main := Missed(to, pkt);
      }
      lock := Nobody;
    }

    /** `try_send` into the session's channel; a closed channel gets its task cancelled. */
    method TrySendTo(id: nat, pkt: UdpPacket)
      requires Valid() && main.Sending? && main.id == id && main.pkt == pkt
      modifies this
      ensures Valid() && trace == old(trace) + [MainTrySend] && main.Idle?
      ensures id < |old(tasks)| && socket == old(socket)
      ensures log == old(log) + [Record(old(main).to, pkt,
                if old(tasks)[id].phase == Dropped then Closed(id)
                else if |old(tasks)[id].queue| < CLIENT_CHANNEL_CAPACITY then Queued(id)
                else Full(id))]
    {
      ValidInvariant();
      Note(MainTrySend);
      var fate: Fate;
      var task := tasks[id];
      if task.phase == Dropped {
        task := task.(cancelled := true);
        fate := Closed(id);
      } else if |task.queue| < CLIENT_CHANNEL_CAPACITY {
        task := task.(queue := task.queue + [pkt]);
        fate := Queued(id);
      } else {
        fate := Full(id);
      }
      tasks := tasks[id := task];
      log := log + [Record(main.to, pkt, fate)];
      main := Idle;
    }

    /** Answer without a connection, unless the outbound channel is full. */
    method Answer(reply: UdpPacket)
      requires Valid() && main.Missed? && rule(View(), MainDecide(Reply(reply)))
      modifies this
      ensures Valid() && trace == old(trace) + [MainDecide(Reply(reply))] && main.Idle?
      ensures socket == old(socket)
      ensures log == old(log) + [Record(old(main).to, old(main).pkt, Answered(reply))]
    {
      Note(MainDecide(Reply(reply)));
      log := log + [Record(main.to, main.pkt, Answered(reply))];
      if out.HasFreeSlot() {
        out := out.(queue := out.queue + [Pending(None, reply)]);
      }
      main := Idle;
    }

    method Discard()
      requires Valid() && main.Missed? && rule(View(), MainDecide(Ignore))
      modifies this
      ensures Valid() && trace == old(trace) + [MainDecide(Ignore)] && main.Idle? && socket == old(socket)
      ensures log == old(log) + [Record(old(main).to, old(main).pkt, Ignored)]
    {
      Note(MainDecide(Ignore));
      log := log + [Record(main.to, main.pkt, Ignored)];
      main := Idle;
    }

    /** Make the channel, the token and the connection object. */
    method Open() returns (id: nat)
      requires Valid() && main.Missed? && rule(View(), MainDecide(Create))
      modifies this
      ensures Valid() && trace == old(trace) + [MainDecide(Create)]
      ensures id == |old(tasks)| && main == Creating(id, false) && socket == old(socket)
      ensures log == old(log) + [Record(old(main).to, old(main).pkt, Opened(id))]
    {
      Note(MainDecide(Create));
      id := |tasks|;
      tasks := tasks + [Task(main.to.key, Created, [], false, [], [], [], |log|, None)];
      log := log + [Record(main.to, main.pkt, Opened(id))];
      main := Creating(id, false);
    }

    method Insert(id: nat)
      requires Valid() && main == Creating(id, true)
      modifies this
      ensures Valid() && trace == old(trace) + [MainInsert] && main == Spawning(id) && log == old(log)
      ensures socket == old(socket)
      ensures id < |old(tasks)| && old(tasks)[id].key !in old(table)
      ensures table == old(table)[old(tasks)[id].key := id]
    {
      ValidInvariant();
      Note(MainInsert);
      table := table[tasks[id].key := id];
      tasks := tasks[id := tasks[id].(phase := Inserted)];
      lock, main := Nobody, Spawning(id);
    }

    method Spawn(id: nat)
      requires Valid() && main == Spawning(id)
      modifies this
      ensures Valid() && trace == old(trace) + [MainSpawn] && main.Idle? && log == old(log) && socket == old(socket)
      ensures InPhase(View(), id, Running)
    {
      ValidInvariant();
      Note(MainSpawn);
      tasks := tasks[id := tasks[id].(phase := Running)];
      main := Idle;
    }

    /** The other branch of the main select: one outbound packet goes to the socket. */
    method ForwardOne()
      requires Valid() && main.Idle? && out.queue != []
      modifies this
      ensures Valid() && trace == old(trace) + [MainForward] && main.Idle? && log == old(log)
      ensures socket == old(socket) + [old(out).queue[0]] && out == Receive(old(out))
      ensures out.queue == old(out).queue[1..] && table == old(table) && tasks == old(tasks) && lock == old(lock)
    {
      Note(MainForward);
      socket := socket + [out.queue[0]];
      out := Receive(out);
    }

    /** From the arrival of a datagram to the outcome of its lookup. */
    method Locate(to: Route<K>, pkt: UdpPacket, schedule: seq<Step<K>>) returns (found: Option<nat>)
      requires Valid() && main.Idle? && rule(View(), Arrive(to, pkt))
      modifies this
      ensures Valid() && old(trace) < trace && log == old(log) && socket == old(socket)
      ensures found == FoundAfter(old(View()), to, pkt, schedule)
      ensures main == match found case Some(id) => Sending(to, pkt, id) case None => Missed(to, pkt)
    {
      Arrived(to, pkt);
      LockTable(schedule);
      found := Lookup();
    }

    /** From a lookup's hit to the packet's delivery, or its loss. */
    method Deliver(id: nat, pkt: UdpPacket, schedule: seq<Step<K>>)
      requires Valid() && main.Sending? && main.id == id && main.pkt == pkt
      modifies this
      ensures Valid() && old(trace) < trace && main.Idle? && socket == old(socket)
      ensures |log| == |old(log)| + 1 && log[..|old(log)|] == old(log)
      ensures log[|old(log)|].to == old(main).to && log[|old(log)|].pkt == pkt
      ensures log[|old(log)|].fate in {Queued(id), Full(id), Closed(id)}
    {
      Interleave(schedule);
      TrySendTo(id, pkt);
    }

    /** From the decision to open a connection to its running task. */
    method Establish(second: seq<Step<K>>, third: seq<Step<K>>)
      requires Valid() && main.Missed? && rule(View(), MainDecide(Create))
      modifies this
      ensures Valid() && old(trace) < trace && main.Idle? && socket == old(socket)
      ensures exists id: nat | InPhase(View(), id, Running) ::
                log == old(log) + [Record(old(main).to, old(main).pkt, Opened(id))]
    {
      var id := Open();
      LockTable(second);
      Insert(id);
      Interleave(third);
      Spawn(id);
    }
  }
}
