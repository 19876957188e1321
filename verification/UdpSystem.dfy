/** UDP mode as a whole: the manager and the loops of its sessions run together, so that what a loop takes
    is what its channel gives, and what the way out is given is what a loop sends. */
module UdpSystem {
  import opened Net
  import opened Manager
  import opened Safety
  import opened History
  import opened Delivery
  import opened UdpMode
  import opened UdpRelay

  /** The manager's state, and for each task what its loop has been through.  (A session whose socket cannot
      be bound is over at once, as after `Cancelled`.) */
  datatype World = World(s: State<ScionAddr>, scripts: seq<seq<Event>>)

  /** A step of the manager, or one turn of a session's loop. */
  datatype Action = Manage(step: Step<ScionAddr>) | Turn(id: nat, event: Event)

  function LoopOf(proxy: ScionAddr, w: World, id: nat): View
    requires id < |w.s.tasks| && id < |w.scripts|
  {
    OnEvents(proxy, Fresh(w.s.tasks[id].key), w.scripts[id])
  }

  /** A task takes packets, sends them and finishes only as its loop says. */
  predicate Allowed(proxy: ScionAddr, w: World, a: Action) {
    match a
    case Manage(step) =>
      && Enabled(w.s, step) && UdpRule(w.s, step) && !step.TaskReceive? && !step.TaskSend?
      && (step.TaskFinish? ==> step.id < |w.scripts| && LoopOf(proxy, w, step.id).ended)
    case Turn(id, event) =>
      && CanRun(w.s, id) && id < |w.scripts| && !LoopOf(proxy, w, id).ended
      && (event.FromMain? ==> w.s.tasks[id].queue != [] && event.pkt == w.s.tasks[id].queue[0])
  }

  /** What a turn means for the manager. */
  function StepOf(proxy: ScionAddr, w: World, id: nat, event: Event): Option<Step<ScionAddr>>
    requires id < |w.s.tasks| && id < |w.scripts|
  {
    match event
    case FromMain(_, _) => Some(TaskReceive(id))
    case FromSocket(_, data, ok) =>
      if ok then Some(TaskSend(id, UdpPacket(proxy, LoopOf(proxy, w, id).client, Received(data)))) else None
    case _ => None
  }

  function Act(proxy: ScionAddr, w: World, a: Action): World
    requires Allowed(proxy, w, a)
  {
    match a
    case Manage(step) =>
      World(Next(w.s, step), if step.MainDecide? then w.scripts + [[]] else w.scripts)
    case Turn(id, event) =>
      World(match StepOf(proxy, w, id, event) case Some(step) => Next(w.s, step) case None => w.s,
            w.scripts[id := w.scripts[id] + [event]])
  }

  ghost predicate Course(proxy: ScionAddr, w: World, actions: seq<Action>)
    decreases |actions|
  {
    actions == [] || (Allowed(proxy, w, actions[0]) && Course(proxy, Act(proxy, w, actions[0]), actions[1..]))
  }

  ghost function End(proxy: ScionAddr, w: World, actions: seq<Action>): World
    requires Course(proxy, w, actions)
    decreases |actions|
  {
    if actions == [] then w else End(proxy, Act(proxy, w, actions[0]), actions[1..])
  }

  const START := World(Initial(), [])

  ghost predicate CanHappen(proxy: ScionAddr, w: World) {
    exists actions :: Course(proxy, START, actions) && End(proxy, START, actions) == w
  }

  // ---- The loops and the manager fit together ----

  /** The manager's own runs in which every packet sent is one that a session's loop can build. */
  ghost predicate SessionRule(proxy: ScionAddr, s: State<ScionAddr>, step: Step<ScionAddr>) {
    && UdpRule(s, step)
    && (step.TaskSend? ==> step.id < |s.tasks| && Sendable(proxy, s.tasks[step.id].key, step.pkt))
  }

  ghost predicate Sendable(proxy: ScionAddr, client: ScionAddr, pkt: UdpPacket) {
    exists data :: pkt == UdpPacket(proxy, client, Received(data))
  }

  ghost function RuleOf(proxy: ScionAddr): (State<ScionAddr>, Step<ScionAddr>) -> bool {
    (s, step) => SessionRule(proxy, s, step)
  }

  ghost predicate SessionReachable(proxy: ScionAddr, s: State<ScionAddr>) {
    exists steps :: IsRunOf(RuleOf(proxy), Initial(), steps) && After(Initial(), steps) == s
  }

  lemma SessionGoesOn(proxy: ScionAddr, s: State<ScionAddr>, step: Step<ScionAddr>)
    requires SessionReachable(proxy, s) && Enabled(s, step) && SessionRule(proxy, s, step)
    ensures SessionReachable(proxy, Next(s, step))
  {
    var steps :| IsRunOf(RuleOf(proxy), Initial(), steps) && After(Initial(), steps) == s;
    RunOfSnoc(RuleOf(proxy), Initial(), steps, step);
  }

  lemma {:induction false} SessionRunIsUdpRun(proxy: ScionAddr, s: State<ScionAddr>, steps: seq<Step<ScionAddr>>)
    requires IsRunOf(RuleOf(proxy), s, steps)
    ensures IsRunOf(UdpRule, s, steps)
    decreases |steps|
  {
    if steps != [] {
      SessionRunIsUdpRun(proxy, Next(s, steps[0]), steps[1..]);
    }
  }

  lemma SessionReachableIsUdp(proxy: ScionAddr, s: State<ScionAddr>)
    requires SessionReachable(proxy, s)
    ensures UdpReachable(s)
  {
    var steps :| IsRunOf(RuleOf(proxy), Initial(), steps) && After(Initial(), steps) == s;
    SessionRunIsUdpRun(proxy, Initial(), steps);
  }

  /** The task and its loop agree: the loop got to every event of the script, the packets it took are those
      the channel gave out, its client is still the one it was made for, and the packets it sent are those
      the way out was given.  (A send counts from its start: it may still wait in line.) */
  ghost predicate Agree(proxy: ScionAddr, t: Task<ScionAddr>, events: seq<Event>) {
    && Handled(proxy, Fresh(t.key), events) == events
    && Taken(events) == t.taken
    && OnEvents(proxy, Fresh(t.key), events).client == t.key
    && OnEvents(proxy, Fresh(t.key), events).toClient == t.offered
  }

  ghost predicate WorldOk(proxy: ScionAddr, w: World) {
    && SessionReachable(proxy, w.s) && |w.scripts| == |w.s.tasks|
    && forall id | 0 <= id < |w.s.tasks| :: Agree(proxy, w.s.tasks[id], w.scripts[id])
  }

  lemma FreshAgrees(proxy: ScionAddr, t: Task<ScionAddr>)
    requires t.taken == [] && t.offered == []
    ensures Agree(proxy, t, [])
  {
  }

  /** Other steps of the manager leave a task's records alone. */
  lemma RecordsStay(s: State<ScionAddr>, step: Step<ScionAddr>, id: nat)
    requires Enabled(s, step) && id < |s.tasks|
    requires !(step.TaskReceive? && step.id == id) && !(step.TaskSend? && step.id == id)
    ensures id < |Next(s, step).tasks|
    ensures var t, t' := s.tasks[id], Next(s, step).tasks[id];
            t'.key == t.key && t'.taken == t.taken && t'.offered == t.offered
  {
  }

  lemma ManageKeepsWorld(proxy: ScionAddr, w: World, step: Step<ScionAddr>)
    requires WorldOk(proxy, w) && Allowed(proxy, w, Manage(step))
    ensures WorldOk(proxy, Act(proxy, w, Manage(step)))
  {
    var w' := Act(proxy, w, Manage(step));
    SessionGoesOn(proxy, w.s, step);
    forall id | 0 <= id < |w'.s.tasks| ensures Agree(proxy, w'.s.tasks[id], w'.scripts[id]) {
      if id < |w.s.tasks| {
        RecordsStay(w.s, step, id);
        assert Agree(proxy, w.s.tasks[id], w.scripts[id]);
      } else {
        FreshAgrees(proxy, w'.s.tasks[id]);
      }
    }
  }

  lemma {:induction false} HandledSnoc(proxy: ScionAddr, v: View, events: seq<Event>, event: Event)
    requires Handled(proxy, v, events) == events && !OnEvents(proxy, v, events).ended
    ensures Handled(proxy, v, events + [event]) == events + [event]
    ensures OnEvents(proxy, v, events + [event]) == OnEvent(proxy, OnEvents(proxy, v, events), event)
  {
    assert (events + [event])[..|events|] == events;
  }

  /** One more turn of the loop, and what it means for the task's records. */
  lemma TurnAgrees(proxy: ScionAddr, t: Task<ScionAddr>, t': Task<ScionAddr>, events: seq<Event>, event: Event)
    requires Agree(proxy, t, events) && !OnEvents(proxy, Fresh(t.key), events).ended && t'.key == t.key
    requires event.FromMain? ==> event.pkt.src == t.key
    requires t'.taken == if event.FromMain? then t.taken + [event.pkt] else t.taken
    requires t'.offered == if event.FromSocket? && event.ok
                           then t.offered + [UdpPacket(proxy, t.key, Received(event.data))] else t.offered
    ensures Agree(proxy, t', events + [event])
  {
    HandledSnoc(proxy, Fresh(t.key), events, event);
    TakenSnoc(events, event);
  }

  lemma TurnKeepsWorld(proxy: ScionAddr, w: World, id: nat, event: Event)
    requires WorldOk(proxy, w) && Allowed(proxy, w, Turn(id, event))
    ensures WorldOk(proxy, Act(proxy, w, Turn(id, event)))
  {
    var w' := Act(proxy, w, Turn(id, event));
    assert Agree(proxy, w.s.tasks[id], w.scripts[id]);
    var next := StepOf(proxy, w, id, event);
    if next.Some? {
      if event.FromSocket? {
        assert Sendable(proxy, w.s.tasks[id].key, next.value.pkt);
      }
      SessionGoesOn(proxy, w.s, next.value);
    }
    if event.FromMain? {
      HeadFromKey(proxy, w.s, id);
    }
    TurnAgrees(proxy, w.s.tasks[id], w'.s.tasks[id], w.scripts[id], event);
    forall other | 0 <= other < |w.s.tasks| && other != id ensures Agree(proxy, w'.s.tasks[other], w'.scripts[other]) {
      if next.Some? {
        RecordsStay(w.s, next.value, other);
      }
      assert Agree(proxy, w.s.tasks[other], w.scripts[other]);
    }
  }

  /** What a session's channel gives out next came from the session's client. */
  lemma HeadFromKey(proxy: ScionAddr, s: State<ScionAddr>, id: nat)
    requires SessionReachable(proxy, s) && id < |s.tasks| && s.tasks[id].queue != []
    ensures s.tasks[id].queue[0].src == s.tasks[id].key
  {
    SessionReachableIsUdp(proxy, s);
    var t := s.tasks[id];
    assert (t.taken + t.queue + t.discarded)[|t.taken|] == t.queue[0];
    QueuedFromKey(s, id, |t.taken|);
  }

  lemma {:induction false} CourseKeepsWorld(proxy: ScionAddr, w: World, actions: seq<Action>)
    requires WorldOk(proxy, w) && Course(proxy, w, actions)
    ensures WorldOk(proxy, End(proxy, w, actions))
    decreases |actions|
  {
    if actions != [] {
      match actions[0] {
        case Manage(step) => ManageKeepsWorld(proxy, w, step);
        case Turn(id, event) => TurnKeepsWorld(proxy, w, id, event);
      }
      CourseKeepsWorld(proxy, Act(proxy, w, actions[0]), actions[1..]);
    }
  }

  lemma StartOk(proxy: ScionAddr)
    ensures WorldOk(proxy, START)
  {
    var none: seq<Step<ScionAddr>> := [];
    assert IsRunOf(RuleOf(proxy), Initial(), none) && After(Initial(), none) == START.s;
  }

  /** In every course the loops and the manager agree about every task. */
  lemma CanHappenOk(proxy: ScionAddr, w: World)
    requires CanHappen(proxy, w)
    ensures WorldOk(proxy, w)
  {
    var actions :| Course(proxy, START, actions) && End(proxy, START, actions) == w;
    StartOk(proxy);
    CourseKeepsWorld(proxy, START, actions);
  }

  // ---- Nothing of the manager is lost by composing it ----

  lemma {:induction false} CourseSnoc(proxy: ScionAddr, w: World, actions: seq<Action>, a: Action)
    requires Course(proxy, w, actions) && Allowed(proxy, End(proxy, w, actions), a)
    ensures Course(proxy, w, actions + [a]) && End(proxy, w, actions + [a]) == Act(proxy, End(proxy, w, actions), a)
    decreases |actions|
  {
    if actions == [] {
      assert actions + [a] == [a] && [a][1..] == [];
    } else {
      assert (actions + [a])[1..] == actions[1..] + [a];
      CourseSnoc(proxy, Act(proxy, w, actions[0]), actions[1..], a);
    }
  }

  lemma CanGoOn(proxy: ScionAddr, w: World, a: Action)
    requires CanHappen(proxy, w) && Allowed(proxy, w, a)
    ensures CanHappen(proxy, Act(proxy, w, a))
  {
    var actions :| Course(proxy, START, actions) && End(proxy, START, actions) == w;
    CourseSnoc(proxy, START, actions, a);
  }

  /** The loop of every task that is not over still runs. */
  ghost predicate Lively(proxy: ScionAddr, w: World) {
    && |w.scripts| == |w.s.tasks|
    && forall id | 0 <= id < |w.s.tasks| && !w.s.tasks[id].phase.Over() :: !LoopOf(proxy, w, id).ended
  }

  /** What a turn does to the loops and the phases. */
  lemma TurnLoops(proxy: ScionAddr, w: World, id: nat, event: Event, other: nat)
    requires |w.scripts| == |w.s.tasks| && Allowed(proxy, w, Turn(id, event)) && other < |w.s.tasks|
    ensures var w' := Act(proxy, w, Turn(id, event));
            && |w'.scripts| == |w'.s.tasks| == |w.s.tasks|
            && w'.s.tasks[other].phase == w.s.tasks[other].phase
            && LoopOf(proxy, w', other)
               == if other == id then OnEvent(proxy, LoopOf(proxy, w, id), event) else LoopOf(proxy, w, other)
  {
    if other == id {
      assert (w.scripts[id] + [event])[..|w.scripts[id]|] == w.scripts[id];
    }
  }

  /** A turn that does not end the loop. */
  lemma TurnStaysLively(proxy: ScionAddr, w: World, id: nat, event: Event)
    requires Lively(proxy, w) && Allowed(proxy, w, Turn(id, event))
    requires !OnEvent(proxy, LoopOf(proxy, w, id), event).ended
    ensures Lively(proxy, Act(proxy, w, Turn(id, event)))
  {
    var w' := Act(proxy, w, Turn(id, event));
    TurnLoops(proxy, w, id, event, id);
    forall other | 0 <= other < |w'.s.tasks| && !w'.s.tasks[other].phase.Over()
      ensures !LoopOf(proxy, w', other).ended
    {
      TurnLoops(proxy, w, id, event, other);
    }
  }

  /** No step revives a task that is over. */
  lemma OverStaysOver(s: State<ScionAddr>, step: Step<ScionAddr>, id: nat)
    requires MainConsistent(s) && Enabled(s, step) && id < |s.tasks| && s.tasks[id].phase.Over()
    ensures id < |Next(s, step).tasks| && Next(s, step).tasks[id].phase.Over()
  {
  }

  lemma ManageStaysLively(proxy: ScionAddr, w: World, step: Step<ScionAddr>)
    requires Lively(proxy, w) && MainConsistent(w.s) && Allowed(proxy, w, Manage(step))
    ensures Lively(proxy, Act(proxy, w, Manage(step)))
  {
    var w' := Act(proxy, w, Manage(step));
    forall id | 0 <= id < |w'.s.tasks| && !w'.s.tasks[id].phase.Over() ensures !LoopOf(proxy, w', id).ended {
      if id < |w.s.tasks| {
        RecordsStay(w.s, step, id);
        if w.s.tasks[id].phase.Over() {
          OverStaysOver(w.s, step, id);
        }
      }
    }
  }

  /** A task comes to its end: its loop times out, and then it finishes. */
  lemma FinishFollows(proxy: ScionAddr, w: World, id: nat) returns (w': World)
    requires CanHappen(proxy, w) && Lively(proxy, w) && Enabled(w.s, TaskFinish(id))
    ensures CanHappen(proxy, w') && Lively(proxy, w') && w'.s == Next(w.s, TaskFinish(id))
  {
    CanGoOn(proxy, w, Turn(id, Timeout));
    var u := Act(proxy, w, Turn(id, Timeout));
    TurnLoops(proxy, w, id, Timeout, id);
    CanGoOn(proxy, u, Manage(TaskFinish(id)));
    w' := Act(proxy, u, Manage(TaskFinish(id)));
    forall other | 0 <= other < |w'.s.tasks| && !w'.s.tasks[other].phase.Over()
      ensures !LoopOf(proxy, w', other).ended
    {
      TurnLoops(proxy, w, id, Timeout, other);
    }
  }

  /** Each step of the manager is one the loops can go along with. */
  lemma StepFollows(proxy: ScionAddr, w: World, step: Step<ScionAddr>) returns (w': World)
    requires CanHappen(proxy, w) && Lively(proxy, w) && Enabled(w.s, step) && SessionRule(proxy, w.s, step)
    ensures CanHappen(proxy, w') && Lively(proxy, w') && w'.s == Next(w.s, step)
  {
    CanHappenOk(proxy, w);
    if step.TaskFinish? {
      w' := FinishFollows(proxy, w, step.id);
    } else if step.TaskReceive? || step.TaskSend? {
      assert Agree(proxy, w.s.tasks[step.id], w.scripts[step.id]);
      var event := SomeTurn(proxy, w, step);
      CanGoOn(proxy, w, Turn(step.id, event));
      TurnStaysLively(proxy, w, step.id, event);
      w' := Act(proxy, w, Turn(step.id, event));
    } else {
      SessionReachableIsUdp(proxy, w.s);
      UdpReachableFacts(w.s);
      ReachableInvariant(w.s);
      CanGoOn(proxy, w, Manage(step));
      ManageStaysLively(proxy, w, step);
      w' := Act(proxy, w, Manage(step));
    }
  }

  /** The turn of a loop behind a packet taken or sent. */
  lemma SomeTurn(proxy: ScionAddr, w: World, step: Step<ScionAddr>) returns (event: Event)
    requires WorldOk(proxy, w) && Lively(proxy, w) && Enabled(w.s, step) && SessionRule(proxy, w.s, step)
    requires step.TaskReceive? || step.TaskSend?
    ensures Allowed(proxy, w, Turn(step.id, event)) && StepOf(proxy, w, step.id, event) == Some(step)
    ensures !OnEvent(proxy, LoopOf(proxy, w, step.id), event).ended
  {
    assert Agree(proxy, w.s.tasks[step.id], w.scripts[step.id]);
    if step.TaskReceive? {
      event := FromMain(w.s.tasks[step.id].queue[0], true);
    } else {
      var data :| step.pkt == UdpPacket(proxy, w.s.tasks[step.id].key, Received(data));
      event := FromSocket(SocketAddr(V4([0, 0, 0, 0]), 0), data, true);
    }
  }

  lemma {:induction false} RunFollows(proxy: ScionAddr, w: World, steps: seq<Step<ScionAddr>>) returns (w': World)
    requires CanHappen(proxy, w) && Lively(proxy, w) && IsRunOf(RuleOf(proxy), w.s, steps)
    ensures CanHappen(proxy, w') && w'.s == After(w.s, steps)
    decreases |steps|
  {
    if steps == [] {
      w' := w;
    } else {
      w' := StepFollows(proxy, w, steps[0]);
      w' := RunFollows(proxy, w', steps[1..]);
    }
  }

  /** The courses of manager and loops together are exactly the manager's runs in UDP mode in which every
      packet sent is one that a session's loop can build. */
  lemma ComposedIff(proxy: ScionAddr, s: State<ScionAddr>)
    ensures SessionReachable(proxy, s) <==> exists w :: CanHappen(proxy, w) && w.s == s
  {
    if SessionReachable(proxy, s) {
      var steps :| IsRunOf(RuleOf(proxy), Initial(), steps) && After(Initial(), steps) == s;
      var none: seq<Action> := [];
      assert Course(proxy, START, none) && End(proxy, START, none) == START;
      var w := RunFollows(proxy, START, steps);
    }
    if w :| CanHappen(proxy, w) && w.s == s {
      CanHappenOk(proxy, w);
    }
  }

  // ---- UDP mode end to end ----

  /** Every packet a session took came from the client it was made for. */
  lemma TakenFromClient(proxy: ScionAddr, w: World, id: nat, i: nat)
    requires WorldOk(proxy, w) && id < |w.s.tasks| && i < |w.scripts[id]| && w.scripts[id][i].FromMain?
    ensures w.scripts[id][i].pkt.src == w.s.tasks[id].key
  {
    SessionReachableIsUdp(proxy, w.s);
    assert Agree(proxy, w.s.tasks[id], w.scripts[id]);
    TakenContains(w.scripts[id], i);
    var t := w.s.tasks[id];
    var k: nat :| k < |t.taken| && t.taken[k] == w.scripts[id][i].pkt;
    assert (t.taken + t.queue + t.discarded)[k] == t.taken[k];
    QueuedFromKey(w.s, id, k);
  }

  lemma LoopIsFaithful(proxy: ScionAddr, w: World, id: nat)
    requires WorldOk(proxy, w) && id < |w.s.tasks|
    ensures Faithful(proxy, w.s.tasks[id].key, LoopOf(proxy, w, id), w.scripts[id])
    ensures Handled(proxy, Fresh(w.s.tasks[id].key), w.scripts[id]) == w.scripts[id]
    ensures Taken(w.scripts[id]) == w.s.tasks[id].taken
    ensures forall i | 0 <= i < |w.scripts[id]| && w.scripts[id][i].FromMain? ::
              w.scripts[id][i].pkt.src == w.s.tasks[id].key
  {
    assert Agree(proxy, w.s.tasks[id], w.scripts[id]);
    forall i | 0 <= i < |w.scripts[id]| && w.scripts[id][i].FromMain?
      ensures w.scripts[id][i].pkt.src == w.s.tasks[id].key
    {
      TakenFromClient(proxy, w, id, i);
    }
    SessionIsFaithful(proxy, w.s.tasks[id].key, w.scripts[id]);
  }

  lemma ForwardedInOrder(proxy: ScionAddr, client: ScionAddr, v: View, done: seq<Event>, later: seq<UdpPacket>)
    requires Faithful(proxy, client, v, done) && IsSubsequence(Taken(done), later)
    ensures IsSubsequence(v.toBroker, Payloads(later))
  {
    PayloadsSubsequence(Taken(done), later);
    SubsequencePrefix(v.toBroker, v.lost, Payloads(later));
  }

  lemma TakenInCourse(proxy: ScionAddr, w: World, id: nat)
    requires WorldOk(proxy, w) && id < |w.s.tasks|
    ensures var t := w.s.tasks[id]; IsSubsequence(t.taken, FromClient(w.s.log, t.born + 1, t.key))
  {
    SessionReachableIsUdp(proxy, w.s);
    TakenFromClientInOrder(w.s, id);
  }

  /** In every course a session sends the broker an order-preserving subsequence of the payloads its own
      client sent after the datagram that created it, and answers nobody but that client. */
  lemma SessionEndToEnd(proxy: ScionAddr, w: World, id: nat)
    requires CanHappen(proxy, w) && id < |w.s.tasks| && id < |w.scripts|
    ensures var t, v := w.s.tasks[id], LoopOf(proxy, w, id);
            && v.client == t.key
            && v.toClient == RepliesTo(proxy, t.key, Replies(w.scripts[id]))
            && IsSubsequence(v.toBroker, Payloads(FromClient(w.s.log, t.born + 1, t.key)))
  {
    CanHappenOk(proxy, w);
    LoopIsFaithful(proxy, w, id);
    TakenInCourse(proxy, w, id);
    var t := w.s.tasks[id];
    ForwardedInOrder(proxy, t.key, LoopOf(proxy, w, id), w.scripts[id], FromClient(w.s.log, t.born + 1, t.key));
  }

  /** In every course what leaves the SCION socket on behalf of a session are the first of the datagrams it
      read, in order, each addressed to the session's own client, with the proxy's address as source. */
  lemma RepliesReachSocket(proxy: ScionAddr, w: World, id: nat)
    requires CanHappen(proxy, w) && id < |w.s.tasks| && id < |w.scripts|
    ensures var s, replies := w.s, RepliesTo(proxy, w.s.tasks[id].key, Replies(w.scripts[id]));
            Of(s.socket, id) <= replies && Of(s.socket, id) + Of(s.out.queue, id) + Of(s.out.line, id) == replies
  {
    CanHappenOk(proxy, w);
    LoopIsFaithful(proxy, w, id);
    assert Agree(proxy, w.s.tasks[id], w.scripts[id]);
    SessionReachableIsUdp(proxy, w.s);
    UdpReachableFacts(w.s);
    NothingLostOnTheWayOut(w.s, id);
  }

  /** And all that is on its way to the client, or has left, are the broker's datagrams exactly if nobody
      else wrote to the socket of the session's task. */
  lemma BrokerReachesSocketIff(proxy: ScionAddr, w: World, id: nat, broker: SocketAddr)
    requires CanHappen(proxy, w) && id < |w.s.tasks| && id < |w.scripts|
    ensures var s, replies := w.s, RepliesTo(proxy, w.s.tasks[id].key, RepliesOf(broker, w.scripts[id]));
            Of(s.socket, id) + Of(s.out.queue, id) + Of(s.out.line, id) == replies
            <==> OnlyFrom(broker, w.scripts[id])
  {
    CanHappenOk(proxy, w);
    RepliesReachSocket(proxy, w, id);
    LoopIsFaithful(proxy, w, id);
    ClientHearsBrokerIff(proxy, w.s.tasks[id].key, broker, w.scripts[id]);
  }

  /** In every course nothing vanishes: each datagram routed to a session was forwarded, is queued, was turned
      away by a full or closed channel, was the one in hand when the session ended, or was then still in its
      channel. */
  lemma SessionConserves(proxy: ScionAddr, w: World, id: nat)
    requires CanHappen(proxy, w) && id < |w.s.tasks| && id < |w.scripts|
    ensures var t, v := w.s.tasks[id], LoopOf(proxy, w, id);
            && |RoutedTo(w.s.log, id)|
               == |v.toBroker| + |t.queue| + TurnedAway(w.s.log, id) + |v.lost| + |t.discarded|
            && |v.lost| <= 1 && (v.lost != [] ==> v.ended)
            && (if t.phase == Dropped then t.queue == [] else t.discarded == [])
  {
    CanHappenOk(proxy, w);
    LoopIsFaithful(proxy, w, id);
    SessionReachableIsUdp(proxy, w.s);
    UdpReachableFacts(w.s);
    SessionConservation(w.s, id);
  }
}
