/** QUIC mode as a whole: the manager and the relays of its connections run together, so that what a relay is
    fed is what its channel gives, and what the way out is given is what a relay sends. */
module QuicSystem {
  import opened Net
  import opened Manager
  import opened Safety
  import opened History
  import opened Delivery
  import opened Retry
  import opened QuicSession

  /** Whether the task has tried to reach the broker, and how much the broker takes. */
  datatype Reach = Untried | Reached(limit: Option<nat>) | Unreachable

  /** What the task of one connection has been through: the ASes of both ends, the connection as the main loop
      left it, the packets sent first, the attempt to reach the broker, and the turns of the loop. */
  datatype Script = Script(localIsdAs: nat, remoteIsdAs: nat, made: Relay.View, first: seq<Relay.Outgoing>,
                           reach: Reach, turns: seq<Relay.Turn>)

  function SettingOf(sc: Script): Relay.Setting {
    Relay.Setting(sc.localIsdAs, sc.remoteIsdAs, sc.reach.Reached?, if sc.reach.Reached? then sc.reach.limit else None)
  }

  /** The relay when its loop begins. */
  function StartOf(sc: Script): Relay.View { Relay.Connected(sc.made, SettingOf(sc), sc.first) }

  function RelayOf(sc: Script): Relay.View {
    if sc.reach.Untried? then Relay.OnFlush(sc.made, SettingOf(sc), sc.first)
    else Relay.OnTurns(StartOf(sc), SettingOf(sc), sc.turns)
  }

  /** The manager's state, and for each task its script. */
  datatype World = World(s: State<ConnectionId>, scripts: seq<Script>)

  /** A step of the manager, which makes the connection `made` if it opens one; one more packet that the QUIC
      library wants sent; the attempt to reach the broker; or a branch of a task's select. */
  datatype Action =
    | Manage(step: Step<ConnectionId>, made: Relay.View)
    | Emit(id: nat, packet: Relay.Outgoing)
    | Connect(id: nat, reach: Reach)
    | Turn(id: nat, event: Relay.Event, closedNow: bool)

  /** A connection that has processed one packet: nothing was relayed, and the handshake is not over. */
  predicate JustMade(v: Relay.View) {
    v.written == [] && v.toMain == [] && !v.ended && !(v.established && v.certificate)
  }

  /** The task is where it sends what the library wants sent: before its loop, or at the end of a turn. */
  predicate Sends(sc: Script) {
    sc.reach.Untried? ||
    (sc.turns != [] && var last := sc.turns[|sc.turns| - 1]; !last.event.TcpWouldBlock? && !last.closedNow)
  }

  /** The task runs its own code, and its relay is not over. */
  predicate Acts(w: World, id: nat) {
    CanRun(w.s, id) && id < |w.scripts| && !RelayOf(w.scripts[id]).ended
  }

  predicate Allowed(e: Endpoint, library: Library, w: World, a: Action) {
    match a
    case Manage(step, made) =>
      && Enabled(w.s, step) && QuicRule(e, w.s, step) && !step.TaskReceive? && !step.TaskSend?
      && (step.Arrive? ==> step.pkt.dst == e.local)
      && (step == MainDecide(Create) ==> JustMade(made))
      && (step.TaskFinish? ==> step.id < |w.scripts| && RelayOf(w.scripts[step.id]).ended)
    case Emit(id, _) => Acts(w, id) && Sends(w.scripts[id])
    case Connect(id, reach) => Acts(w, id) && w.scripts[id].reach.Untried? && !reach.Untried?
    case Turn(id, event, _) =>
      && Acts(w, id) && !w.scripts[id].reach.Untried?
      && (event.Packet? ==>
            && w.s.tasks[id].queue != [] && event.pkt == w.s.tasks[id].queue[0]
            && event.delivery == library(id, Fed(w.scripts[id].turns) + [event.pkt]))
  }

  function Emitted(sc: Script, o: Relay.Outgoing): Script
    requires Sends(sc)
  {
    if sc.reach.Untried? then sc.(first := sc.first + [o])
    else
      var n := |sc.turns| - 1;
      sc.(turns := sc.turns[..n] + [sc.turns[n].(flush := sc.turns[n].flush + [o])])
  }

  /** What a task's action means for the manager. */
  function StepOf(w: World, a: Action): Option<Step<ConnectionId>>
    requires a.Manage? || a.id < |w.scripts|
  {
    match a
    case Manage(step, _) => Some(step)
    case Emit(id, o) => if o.ok then Some(TaskSend(id, Relay.PacketOf(SettingOf(w.scripts[id]), o))) else None
    case Connect(_, _) => None
    case Turn(id, event, _) => if event.Packet? then Some(TaskReceive(id)) else None
  }

  function Scripts(e: Endpoint, library: Library, w: World, a: Action): seq<Script>
    requires Allowed(e, library, w, a)
  {
    match a
    case Manage(step, made) =>
      if step == MainDecide(Create)
      then w.scripts + [Script(e.local.isdAsn, w.s.main.pkt.src.isdAsn, made, [], Untried, [])]
      else w.scripts
    case Emit(id, o) => w.scripts[id := Emitted(w.scripts[id], o)]
    case Connect(id, reach) => w.scripts[id := w.scripts[id].(reach := reach)]
    case Turn(id, event, closedNow) =>
      w.scripts[id := w.scripts[id].(turns := w.scripts[id].turns + [Relay.Turn(event, closedNow, [])])]
  }

  function Act(e: Endpoint, library: Library, w: World, a: Action): World
    requires Allowed(e, library, w, a)
  {
    World(match StepOf(w, a) case Some(step) => Next(w.s, step) case None => w.s, Scripts(e, library, w, a))
  }

  ghost predicate Course(e: Endpoint, library: Library, w: World, actions: seq<Action>)
    decreases |actions|
  {
    actions == []
    || (Allowed(e, library, w, actions[0]) && Course(e, library, Act(e, library, w, actions[0]), actions[1..]))
  }

  ghost function End(e: Endpoint, library: Library, w: World, actions: seq<Action>): World
    requires Course(e, library, w, actions)
    decreases |actions|
  {
    if actions == [] then w else End(e, library, Act(e, library, w, actions[0]), actions[1..])
  }

  const START := World(Initial(), [])

  ghost predicate CanHappen(e: Endpoint, library: Library, w: World) {
    exists actions :: Course(e, library, START, actions) && End(e, library, START, actions) == w
  }

  // ---- The manager's runs behind the courses ----

  /** The manager's own runs in which every datagram was sent to the proxy and every packet sent is one that a
      connection's relay can build. */
  ghost predicate SessionRule(e: Endpoint, s: State<ConnectionId>, step: Step<ConnectionId>) {
    && QuicRule(e, s, step)
    && (step.Arrive? ==> step.pkt.dst == e.local)
    && (step.TaskSend? ==> Sendable(e, s, step.id, step.pkt))
  }

  /** From the proxy's AS to the AS of the datagram that opened the connection. */
  predicate Sendable(e: Endpoint, s: State<ConnectionId>, id: nat, pkt: UdpPacket) {
    && id < |s.tasks| && s.tasks[id].born < |s.log| && pkt.src.host.Some? && pkt.dst.host.Some?
    && pkt.src.isdAsn == e.local.isdAsn && pkt.dst.isdAsn == s.log[s.tasks[id].born].pkt.src.isdAsn
  }

  ghost function SessionRuleOf(e: Endpoint): (State<ConnectionId>, Step<ConnectionId>) -> bool {
    (s, step) => SessionRule(e, s, step)
  }

  ghost predicate SessionReachable(e: Endpoint, s: State<ConnectionId>) {
    exists steps :: IsRunOf(SessionRuleOf(e), Initial(), steps) && After(Initial(), steps) == s
  }

  lemma SessionGoesOn(e: Endpoint, s: State<ConnectionId>, step: Step<ConnectionId>)
    requires SessionReachable(e, s) && Enabled(s, step) && SessionRule(e, s, step)
    ensures SessionReachable(e, Next(s, step))
  {
    var steps :| IsRunOf(SessionRuleOf(e), Initial(), steps) && After(Initial(), steps) == s;
    RunOfSnoc(SessionRuleOf(e), Initial(), steps, step);
  }

  lemma {:induction false} SessionRunIsQuicRun(e: Endpoint, s: State<ConnectionId>, steps: seq<Step<ConnectionId>>)
    requires IsRunOf(SessionRuleOf(e), s, steps)
    ensures IsRunOf(RuleOf(e), s, steps)
    decreases |steps|
  {
    if steps != [] {
      SessionRunIsQuicRun(e, Next(s, steps[0]), steps[1..]);
    }
  }

  /** Every datagram that was handled had been sent to the proxy. */
  ghost predicate SentHere(e: Endpoint, s: State<ConnectionId>) {
    && (s.main.Looking? || s.main.Missed? || s.main.Sending? ==> s.main.pkt.dst == e.local)
    && (forall j | 0 <= j < |s.log| :: s.log[j].pkt.dst == e.local)
  }

  lemma StepSentHere(e: Endpoint, s: State<ConnectionId>, step: Step<ConnectionId>)
    requires SentHere(e, s) && Enabled(s, step) && (step.Arrive? ==> step.pkt.dst == e.local)
    ensures SentHere(e, Next(s, step))
  {
  }

  lemma {:induction false} RunSentHere(e: Endpoint, s: State<ConnectionId>, steps: seq<Step<ConnectionId>>)
    requires SentHere(e, s) && IsRunOf(SessionRuleOf(e), s, steps)
    ensures SentHere(e, After(s, steps))
    decreases |steps|
  {
    if steps != [] {
      StepSentHere(e, s, steps[0]);
      RunSentHere(e, Next(s, steps[0]), steps[1..]);
    }
  }

  lemma SessionFacts(e: Endpoint, s: State<ConnectionId>)
    requires SessionReachable(e, s)
    ensures QuicReachable(e, s) && SentHere(e, s)
  {
    var steps :| IsRunOf(SessionRuleOf(e), Initial(), steps) && After(Initial(), steps) == s;
    SessionRunIsQuicRun(e, Initial(), steps);
    RunSentHere(e, Initial(), steps);
  }

  // ---- What was to be sent ----

  /** Those packets that the library wanted sent and the main loop was there to take. */
  function Oks(flush: seq<Relay.Outgoing>): seq<Relay.Outgoing> {
    if flush == [] then []
    else Oks(flush[..|flush| - 1]) + (if flush[|flush| - 1].ok then [flush[|flush| - 1]] else [])
  }

  function TurnOuts(turns: seq<Relay.Turn>): seq<Relay.Outgoing> {
    if turns == [] then [] else TurnOuts(turns[..|turns| - 1]) + Oks(turns[|turns| - 1].flush)
  }

  /** All of them in the life of one connection: first those before the loop, then turn by turn. */
  function Outs(sc: Script): seq<Relay.Outgoing> { Oks(sc.first) + TurnOuts(sc.turns) }

  /** The packets are these, each from the host and to the host that the library says, in the two ASes. */
  predicate SentAs(sc: Script, outs: seq<Relay.Outgoing>, sent: seq<UdpPacket>) {
    && |sent| == |outs|
    && forall k | 0 <= k < |sent| ::
         && sent[k].src == ScionAddr(sc.localIsdAs, Some(outs[k].source))
         && sent[k].dst == ScionAddr(sc.remoteIsdAs, Some(outs[k].target))
         && sent[k].data == outs[k].data
  }

  lemma OutsAfterEmit(sc: Script, o: Relay.Outgoing)
    requires Sends(sc) && (sc.reach.Untried? ==> sc.turns == [])
    ensures Outs(Emitted(sc, o)) == Outs(sc) + (if o.ok then [o] else [])
  {
    var more := if o.ok then [o] else [];
    if sc.reach.Untried? {
      assert (sc.first + [o])[..|sc.first|] == sc.first;
      assert Oks(sc.first + [o]) == Oks(sc.first) + more;
    } else {
      var n := |sc.turns| - 1;
      var last, turns' := sc.turns[n], Emitted(sc, o).turns;
      assert turns'[..n] == sc.turns[..n] && (last.flush + [o])[..|last.flush|] == last.flush;
      assert Oks(turns'[n].flush) == Oks(last.flush) + more;
      assert TurnOuts(turns') == TurnOuts(sc.turns) + more;
    }
  }

  lemma OneMoreSent(sc: Script, outs: seq<Relay.Outgoing>, sent: seq<UdpPacket>, o: Relay.Outgoing)
    requires SentAs(sc, outs, sent)
    ensures SentAs(sc, outs + [o], sent + [Relay.PacketOf(SettingOf(sc), o)])
  {
  }

  lemma OutsAfterTurn(sc: Script, turn: Relay.Turn)
    requires turn.flush == []
    ensures Outs(sc.(turns := sc.turns + [turn])) == Outs(sc)
  {
    assert (sc.turns + [turn])[..|sc.turns|] == sc.turns;
  }

  // ---- The relays and the manager fit together ----

  /** The task and its relay agree: the relay was fed what the channel gave out, each delivery is what the
      library made of that, and what the relay sent is what the way out was given.  (A send counts from its
      start: it may still wait in line.) */
  ghost predicate Agree(library: Library, id: nat, t: Task<ConnectionId>, sc: Script) {
    && JustMade(sc.made) && (sc.reach.Untried? ==> sc.turns == [])
    && Fed(sc.turns) == t.taken && RelayOf(sc).toMain == t.offered
    && Played(library, id, StartOf(sc), SettingOf(sc), sc.turns)
    && SentAs(sc, Outs(sc), t.offered)
  }

  /** The ASes are the proxy's and that of the datagram that opened the connection. */
  predicate Placed(e: Endpoint, s: State<ConnectionId>, id: nat, sc: Script)
    requires id < |s.tasks|
  {
    && s.tasks[id].born < |s.log|
    && sc.localIsdAs == e.local.isdAsn && sc.remoteIsdAs == s.log[s.tasks[id].born].pkt.src.isdAsn
  }

  ghost predicate WorldOk(e: Endpoint, library: Library, w: World) {
    && SessionReachable(e, w.s) && |w.scripts| == |w.s.tasks|
    && (forall id | 0 <= id < |w.s.tasks| :: Agree(library, id, w.s.tasks[id], w.scripts[id]))
    && (forall id | 0 <= id < |w.s.tasks| :: Placed(e, w.s, id, w.scripts[id]))
  }

  /** Other steps of the manager leave a task's records alone. */
  lemma RecordsStay(s: State<ConnectionId>, step: Step<ConnectionId>, id: nat)
    requires Enabled(s, step) && id < |s.tasks|
    requires !(step.TaskReceive? && step.id == id) && !(step.TaskSend? && step.id == id)
    ensures id < |Next(s, step).tasks|
    ensures var t, t' := s.tasks[id], Next(s, step).tasks[id]; t'.taken == t.taken && t'.offered == t.offered
  {
  }

  /** A task's birth, once on record, stays there. */
  lemma BirthStays(e: Endpoint, s: State<ConnectionId>, step: Step<ConnectionId>, id: nat, sc: Script)
    requires Enabled(s, step) && id < |s.tasks| && Placed(e, s, id, sc)
    ensures Placed(e, Next(s, step), id, sc)
  {
  }

  lemma FreshAgrees(library: Library, id: nat, t: Task<ConnectionId>, sc: Script)
    requires t.taken == [] && t.offered == [] && JustMade(sc.made) && sc.first == [] && sc.turns == []
    ensures Agree(library, id, t, sc)
  {
  }

  /** One more packet at the end of the last turn. */
  lemma EmitInTurn(library: Library, id: nat, start: Relay.View, here: Relay.Setting, turns: seq<Relay.Turn>,
                   o: Relay.Outgoing)
    requires turns != [] && Played(library, id, start, here, turns) && !Relay.OnTurns(start, here, turns).ended
    requires var last := turns[|turns| - 1]; !last.event.TcpWouldBlock? && !last.closedNow
    ensures var n, w := |turns| - 1, Relay.OnTurns(start, here, turns);
            var turns' := turns[..n] + [turns[n].(flush := turns[n].flush + [o])];
            && Fed(turns') == Fed(turns) && Played(library, id, start, here, turns')
            && Relay.OnTurns(start, here, turns')
               == if o.ok then w.(toMain := w.toMain + [Relay.PacketOf(here, o)]) else w.(ended := true)
  {
    var n := |turns| - 1;
    var last, last' := turns[n], turns[n].(flush := turns[n].flush + [o]);
    assert turns == turns[..n] + [last] && (turns[..n] + [last'])[..n] == turns[..n];
    FedSnoc(turns[..n], last);
    FedSnoc(turns[..n], last');
    var w := Relay.OnTurns(start, here, turns[..n]);
    var v := Relay.OnEvent(w, here, last.event);
    TurnAfterEvent(w, here, last, v);
    TurnAfterEvent(w, here, last', v);
    Relay.FlushSnoc(v, here, last.flush, o);
  }

  /** What one more packet does to the account of what was sent. */
  lemma EmitCounts(sc: Script, sent: seq<UdpPacket>, o: Relay.Outgoing)
    requires Sends(sc) && (sc.reach.Untried? ==> sc.turns == []) && SentAs(sc, Outs(sc), sent)
    ensures SentAs(Emitted(sc, o), Outs(Emitted(sc, o)),
                   if o.ok then sent + [Relay.PacketOf(SettingOf(sc), o)] else sent)
  {
    OutsAfterEmit(sc, o);
    if o.ok {
      OneMoreSent(sc, Outs(sc), sent, o);
    } else {
      assert Outs(sc) + [] == Outs(sc);
    }
  }

  /** What one more packet does to the relay. */
  lemma EmitPlays(library: Library, id: nat, sc: Script, o: Relay.Outgoing)
    requires Sends(sc) && !RelayOf(sc).ended && (sc.reach.Untried? ==> sc.turns == [])
    requires Played(library, id, StartOf(sc), SettingOf(sc), sc.turns)
    ensures var v, sc' := RelayOf(sc), Emitted(sc, o);
            && RelayOf(sc').toMain == (if o.ok then v.toMain + [Relay.PacketOf(SettingOf(sc), o)] else v.toMain)
            && RelayOf(sc').ended == !o.ok && Fed(sc'.turns) == Fed(sc.turns)
            && Played(library, id, StartOf(sc'), SettingOf(sc'), sc'.turns)
  {
    if sc.reach.Untried? {
      Relay.FlushSnoc(sc.made, SettingOf(sc), sc.first, o);
    } else {
      EmitInTurn(library, id, StartOf(sc), SettingOf(sc), sc.turns, o);
    }
  }

  lemma EmitAgrees(library: Library, id: nat, t: Task<ConnectionId>, t': Task<ConnectionId>, sc: Script,
                   o: Relay.Outgoing)
    requires Agree(library, id, t, sc) && Sends(sc) && !RelayOf(sc).ended && t'.taken == t.taken
    requires t'.offered == if o.ok then t.offered + [Relay.PacketOf(SettingOf(sc), o)] else t.offered
    ensures Agree(library, id, t', Emitted(sc, o)) && RelayOf(Emitted(sc, o)).ended == !o.ok
  {
    EmitCounts(sc, t.offered, o);
    EmitPlays(library, id, sc, o);
  }

  lemma ConnectAgrees(library: Library, id: nat, t: Task<ConnectionId>, sc: Script, reach: Reach)
    requires Agree(library, id, t, sc) && sc.reach.Untried?
    ensures Agree(library, id, t, sc.(reach := reach))
  {
    Relay.FlushSetting(sc.made, SettingOf(sc), SettingOf(sc.(reach := reach)), sc.first);
  }

  /** One more branch of the select, with nothing to send yet. */
  lemma PlayedSnoc(library: Library, id: nat, start: Relay.View, here: Relay.Setting, turns: seq<Relay.Turn>,
                   turn: Relay.Turn)
    requires Played(library, id, start, here, turns) && !Relay.OnTurns(start, here, turns).ended
    requires turn.event.Packet? ==> turn.event.delivery == library(id, Fed(turns + [turn]))
    ensures Played(library, id, start, here, turns + [turn])
    ensures Relay.OnTurns(start, here, turns + [turn]) == Relay.OnTurn(Relay.OnTurns(start, here, turns), here, turn)
  {
    assert (turns + [turn])[..|turns|] == turns;
  }

  lemma EmptyTurnSendsNothing(w: Relay.View, here: Relay.Setting, event: Relay.Event, closedNow: bool)
    ensures Relay.OnTurn(w, here, Relay.Turn(event, closedNow, [])).toMain == w.toMain
  {
    EventSendsNothing(w, here, event);
    TurnAfterEvent(w, here, Relay.Turn(event, closedNow, []), Relay.OnEvent(w, here, event));
  }

  lemma ManageKeepsWorld(e: Endpoint, library: Library, w: World, a: Action)
    requires WorldOk(e, library, w) && Allowed(e, library, w, a) && a.Manage?
    ensures WorldOk(e, library, Act(e, library, w, a))
  {
    var w' := Act(e, library, w, a);
    SessionGoesOn(e, w.s, a.step);
    forall id | 0 <= id < |w'.s.tasks|
      ensures Agree(library, id, w'.s.tasks[id], w'.scripts[id]) && Placed(e, w'.s, id, w'.scripts[id])
    {
      if id < |w.s.tasks| {
        assert Agree(library, id, w.s.tasks[id], w.scripts[id]) && Placed(e, w.s, id, w.scripts[id]);
        RecordsStay(w.s, a.step, id);
        BirthStays(e, w.s, a.step, id, w.scripts[id]);
      } else {
        FreshAgrees(library, id, w'.s.tasks[id], w'.scripts[id]);
      }
    }
  }

  /** What a task's action does to the tasks and the scripts. */
  lemma ActionSeen(e: Endpoint, library: Library, w: World, a: Action)
    requires Allowed(e, library, w, a) && !a.Manage?
    ensures var w', t := Act(e, library, w, a), w.s.tasks[a.id];
            && |w'.s.tasks| == |w.s.tasks| && |w'.scripts| == |w.scripts|
            && w'.s.tasks[a.id]
               == (match a
                   case Emit(_, o) =>
                     if o.ok then t.(offered := t.offered + [Relay.PacketOf(SettingOf(w.scripts[a.id]), o)]) else t
                   case Turn(_, event, _) =>
                     if event.Packet? then t.(queue := t.queue[1..], taken := t.taken + [event.pkt]) else t
                   case _ => t)
  {
  }

  lemma EmitKeepsAgreement(e: Endpoint, library: Library, w: World, id: nat, o: Relay.Outgoing)
    requires Allowed(e, library, w, Emit(id, o)) && Agree(library, id, w.s.tasks[id], w.scripts[id])
    ensures var w' := Act(e, library, w, Emit(id, o));
            |w'.s.tasks| == |w.s.tasks| && Agree(library, id, w'.s.tasks[id], w'.scripts[id])
  {
    ActionSeen(e, library, w, Emit(id, o));
    EmitAgrees(library, id, w.s.tasks[id], Act(e, library, w, Emit(id, o)).s.tasks[id], w.scripts[id], o);
  }

  lemma TurnKeepsAgreement(e: Endpoint, library: Library, w: World, id: nat, event: Relay.Event, closedNow: bool)
    requires Allowed(e, library, w, Turn(id, event, closedNow)) && Agree(library, id, w.s.tasks[id], w.scripts[id])
    ensures var w' := Act(e, library, w, Turn(id, event, closedNow));
            |w'.s.tasks| == |w.s.tasks| && Agree(library, id, w'.s.tasks[id], w'.scripts[id])
  {
    var sc, turn := w.scripts[id], Relay.Turn(event, closedNow, []);
    ActionSeen(e, library, w, Turn(id, event, closedNow));
    FedSnoc(sc.turns, turn);
    OutsAfterTurn(sc, turn);
    PlayedSnoc(library, id, StartOf(sc), SettingOf(sc), sc.turns, turn);
    EmptyTurnSendsNothing(RelayOf(sc), SettingOf(sc), event, closedNow);
  }

  /** The acting task's own side. */
  lemma ActingTaskAgrees(e: Endpoint, library: Library, w: World, a: Action)
    requires Allowed(e, library, w, a) && !a.Manage? && Agree(library, a.id, w.s.tasks[a.id], w.scripts[a.id])
    ensures var w' := Act(e, library, w, a);
            |w'.s.tasks| == |w.s.tasks| && Agree(library, a.id, w'.s.tasks[a.id], w'.scripts[a.id])
  {
    match a
    case Emit(id, o) => EmitKeepsAgreement(e, library, w, id, o);
    case Connect(id, reach) => ConnectAgrees(library, id, w.s.tasks[id], w.scripts[id], reach);
    case Turn(id, event, closedNow) => TurnKeepsAgreement(e, library, w, id, event, closedNow);
  }

  /** A task's action is one the manager's runs have. */
  lemma ActionIsStep(e: Endpoint, library: Library, w: World, a: Action)
    requires WorldOk(e, library, w) && Allowed(e, library, w, a) && !a.Manage?
    ensures SessionReachable(e, Act(e, library, w, a).s)
  {
    var next := StepOf(w, a);
    if next.Some? {
      assert Placed(e, w.s, a.id, w.scripts[a.id]);
      SessionGoesOn(e, w.s, next.value);
    }
  }

  lemma TaskActionKeepsWorld(e: Endpoint, library: Library, w: World, a: Action)
    requires WorldOk(e, library, w) && Allowed(e, library, w, a) && !a.Manage?
    ensures WorldOk(e, library, Act(e, library, w, a))
  {
    var w', next := Act(e, library, w, a), StepOf(w, a);
    ActionIsStep(e, library, w, a);
    assert Agree(library, a.id, w.s.tasks[a.id], w.scripts[a.id]);
    ActingTaskAgrees(e, library, w, a);
    forall id | 0 <= id < |w'.s.tasks|
      ensures Agree(library, id, w'.s.tasks[id], w'.scripts[id]) && Placed(e, w'.s, id, w'.scripts[id])
    {
      assert Agree(library, id, w.s.tasks[id], w.scripts[id]) && Placed(e, w.s, id, w.scripts[id]);
      if next.Some? {
        BirthStays(e, w.s, next.value, id, w.scripts[id]);
        if id != a.id {
          RecordsStay(w.s, next.value, id);
        }
      }
    }
  }

  lemma {:induction false} CourseKeepsWorld(e: Endpoint, library: Library, w: World, actions: seq<Action>)
    requires WorldOk(e, library, w) && Course(e, library, w, actions)
    ensures WorldOk(e, library, End(e, library, w, actions))
    decreases |actions|
  {
    if actions != [] {
      if actions[0].Manage? {
        ManageKeepsWorld(e, library, w, actions[0]);
      } else {
        TaskActionKeepsWorld(e, library, w, actions[0]);
      }
      CourseKeepsWorld(e, library, Act(e, library, w, actions[0]), actions[1..]);
    }
  }

  lemma StartOk(e: Endpoint, library: Library)
    ensures WorldOk(e, library, START)
  {
    var none: seq<Step<ConnectionId>> := [];
    assert IsRunOf(SessionRuleOf(e), Initial(), none) && After(Initial(), none) == START.s;
  }

  /** In every course the relays and the manager agree about every task. */
  lemma CanHappenOk(e: Endpoint, library: Library, w: World)
    requires CanHappen(e, library, w)
    ensures WorldOk(e, library, w)
  {
    var actions :| Course(e, library, START, actions) && End(e, library, START, actions) == w;
    StartOk(e, library);
    CourseKeepsWorld(e, library, START, actions);
  }

  // ---- Nothing of the manager is lost by composing it ----

  lemma {:induction false} CourseSnoc(e: Endpoint, library: Library, w: World, actions: seq<Action>, a: Action)
    requires Course(e, library, w, actions) && Allowed(e, library, End(e, library, w, actions), a)
    ensures Course(e, library, w, actions + [a])
    ensures End(e, library, w, actions + [a]) == Act(e, library, End(e, library, w, actions), a)
    decreases |actions|
  {
    if actions == [] {
      assert actions + [a] == [a] && [a][1..] == [];
    } else {
      assert (actions + [a])[1..] == actions[1..] + [a];
      CourseSnoc(e, library, Act(e, library, w, actions[0]), actions[1..], a);
    }
  }

  lemma CanGoOn(e: Endpoint, library: Library, w: World, a: Action)
    requires CanHappen(e, library, w) && Allowed(e, library, w, a)
    ensures CanHappen(e, library, Act(e, library, w, a))
  {
    var actions :| Course(e, library, START, actions) && End(e, library, START, actions) == w;
    CourseSnoc(e, library, START, actions, a);
  }

  /** A library that accepts every packet and finds nothing in it. */
  const SILENT: Library :=
    (id: nat, packets: seq<UdpPacket>) => Relay.Delivery(true, [], false, false, false)

  const NEW_RELAY := Relay.View([], false, [], [], [], false, false, false, false)

  /** A relay that goes on and can send; if it has a broker, that takes everything. */
  predicate Lives(sc: Script) {
    !RelayOf(sc).ended && Sends(sc) && (sc.reach.Untried? || sc.reach == Reached(None))
  }

  /** The relay of every task that is not over lives, but perhaps that of task `but`. */
  ghost predicate Lively(w: World, but: Option<nat>) {
    && |w.scripts| == |w.s.tasks|
    && forall id | 0 <= id < |w.s.tasks| && !w.s.tasks[id].phase.Over() && but != Some(id) :: Lives(w.scripts[id])
  }

  /** A task's action leaves the other relays, and all phases, alone. */
  lemma OthersLive(e: Endpoint, library: Library, w: World, a: Action)
    requires Allowed(e, library, w, a) && !a.Manage? && Lively(w, Some(a.id))
    ensures Lively(Act(e, library, w, a), Some(a.id))
    ensures Act(e, library, w, a).s.tasks[a.id].phase == w.s.tasks[a.id].phase
  {
  }

  lemma OverStaysOver(s: State<ConnectionId>, step: Step<ConnectionId>, id: nat)
    requires MainConsistent(s) && Enabled(s, step) && id < |s.tasks| && s.tasks[id].phase.Over()
    ensures id < |Next(s, step).tasks| && Next(s, step).tasks[id].phase.Over()
  {
  }

  lemma ManageStaysLively(e: Endpoint, w: World, step: Step<ConnectionId>)
    requires Lively(w, None) && MainConsistent(w.s) && Allowed(e, SILENT, w, Manage(step, NEW_RELAY))
    ensures Lively(Act(e, SILENT, w, Manage(step, NEW_RELAY)), None)
  {
    var w' := Act(e, SILENT, w, Manage(step, NEW_RELAY));
    forall id | 0 <= id < |w'.s.tasks| && !w'.s.tasks[id].phase.Over() ensures Lives(w'.scripts[id]) {
      if id < |w.s.tasks| && w.s.tasks[id].phase.Over() {
        OverStaysOver(w.s, step, id);
      }
    }
  }

  lemma CourseInvariant(e: Endpoint, w: World)
    requires CanHappen(e, SILENT, w)
    ensures MainConsistent(w.s)
  {
    CanHappenOk(e, SILENT, w);
    SessionFacts(e, w.s);
    QuicReachableFacts(e, w.s);
  }

  lemma ManageFollows(e: Endpoint, w: World, step: Step<ConnectionId>) returns (w': World)
    requires CanHappen(e, SILENT, w) && Lively(w, None) && Enabled(w.s, step) && SessionRule(e, w.s, step)
    requires !step.TaskReceive? && !step.TaskSend? && !step.TaskFinish?
    ensures CanHappen(e, SILENT, w') && Lively(w', None) && w'.s == Next(w.s, step)
  {
    CourseInvariant(e, w);
    CanGoOn(e, SILENT, w, Manage(step, NEW_RELAY));
    ManageStaysLively(e, w, step);
    w' := Act(e, SILENT, w, Manage(step, NEW_RELAY));
  }

  /** What a connection's channel gives out next is a datagram between two addresses with an IP part. */
  lemma HeadAddressed(e: Endpoint, s: State<ConnectionId>, id: nat)
    requires SessionReachable(e, s) && e.local.host.Some? && id < |s.tasks| && s.tasks[id].queue != []
    ensures Relay.Addressed(s.tasks[id].queue[0])
  {
    SessionFacts(e, s);
    QuicReachableFacts(e, s);
    var t := s.tasks[id];
    assert Given(t)[|t.taken|] == t.queue[0];
    var j := GivenIsOnRecord(e, s, id, |t.taken|);
    assert s.log[j].pkt.dst == e.local;
  }

  /** A relay that has not tried yet reaches its broker. */
  lemma ReachFollows(e: Endpoint, w: World, id: nat) returns (w': World)
    requires CanHappen(e, SILENT, w) && Lively(w, None) && CanRun(w.s, id)
    ensures CanHappen(e, SILENT, w') && Lively(w', Some(id)) && w'.s == w.s
    ensures !RelayOf(w'.scripts[id]).ended && w'.scripts[id].reach == Reached(None)
  {
    var sc := w.scripts[id];
    assert Lives(sc);
    CanHappenOk(e, SILENT, w);
    assert Agree(SILENT, id, w.s.tasks[id], sc);
    if sc.reach.Untried? {
      var a := Connect(id, Reached(None));
      CanGoOn(e, SILENT, w, a);
      OthersLive(e, SILENT, w, a);
      w' := Act(e, SILENT, w, a);
      Relay.FlushSetting(sc.made, SettingOf(sc), SettingOf(w'.scripts[id]), sc.first);
    } else {
      w' := w;
    }
  }

  lemma TurnsSnoc(sc: Script, turn: Relay.Turn)
    requires !sc.reach.Untried? && !RelayOf(sc).ended
    ensures RelayOf(sc.(turns := sc.turns + [turn])) == Relay.OnTurn(RelayOf(sc), SettingOf(sc), turn)
  {
    assert (sc.turns + [turn])[..|sc.turns|] == sc.turns;
  }

  lemma SilentPacket(v: Relay.View, here: Relay.Setting, pkt: UdpPacket, d: Relay.Delivery)
    requires !v.ended && here.limit.None? && Relay.Addressed(pkt) && d.ok
    ensures !Relay.OnTurn(v, here, Relay.Turn(Relay.Packet(pkt, d, false), false, [])).ended
  {
  }

  lemma ReceiveFollows(e: Endpoint, w: World, id: nat) returns (w': World)
    requires CanHappen(e, SILENT, w) && Lively(w, None) && Enabled(w.s, TaskReceive(id)) && e.local.host.Some?
    ensures CanHappen(e, SILENT, w') && Lively(w', None) && w'.s == Next(w.s, TaskReceive(id))
  {
    var u := ReachFollows(e, w, id);
    CanHappenOk(e, SILENT, u);
    HeadAddressed(e, u.s, id);
    var sc, pkt := u.scripts[id], u.s.tasks[id].queue[0];
    var event := Relay.Packet(pkt, SILENT(id, Fed(sc.turns) + [pkt]), false);
    var a := Turn(id, event, false);
    CanGoOn(e, SILENT, u, a);
    OthersLive(e, SILENT, u, a);
    w' := Act(e, SILENT, u, a);
    TurnsSnoc(sc, Relay.Turn(event, false, []));
    SilentPacket(RelayOf(sc), SettingOf(sc), pkt, event.delivery);
    assert Lives(w'.scripts[id]);
  }

  lemma SendFollows(e: Endpoint, w: World, id: nat, pkt: UdpPacket) returns (w': World)
    requires CanHappen(e, SILENT, w) && Lively(w, None) && Enabled(w.s, TaskSend(id, pkt))
    requires Sendable(e, w.s, id, pkt)
    ensures CanHappen(e, SILENT, w') && Lively(w', None) && w'.s == Next(w.s, TaskSend(id, pkt))
  {
    CanHappenOk(e, SILENT, w);
    var sc, t := w.scripts[id], w.s.tasks[id];
    assert Agree(SILENT, id, t, sc) && Placed(e, w.s, id, sc) && Lives(sc);
    var o := Relay.Outgoing(pkt.src.host.value, pkt.dst.host.value, pkt.data, true);
    assert Relay.PacketOf(SettingOf(sc), o) == pkt;
    var a := Emit(id, o);
    CanGoOn(e, SILENT, w, a);
    OthersLive(e, SILENT, w, a);
    w' := Act(e, SILENT, w, a);
    EmitAgrees(SILENT, id, t, w'.s.tasks[id], sc, o);
    assert Lives(w'.scripts[id]);
  }

  lemma CancelEnds(sc: Script)
    requires !sc.reach.Untried? && !RelayOf(sc).ended
    ensures RelayOf(sc.(turns := sc.turns + [Relay.Turn(Relay.Cancelled, false, [])])).ended
  {
    TurnsSnoc(sc, Relay.Turn(Relay.Cancelled, false, []));
  }

  lemma FinishStaysLively(e: Endpoint, w: World, id: nat)
    requires Lively(w, Some(id)) && Allowed(e, SILENT, w, Manage(TaskFinish(id), NEW_RELAY))
    ensures Lively(Act(e, SILENT, w, Manage(TaskFinish(id), NEW_RELAY)), None)
  {
  }

  lemma FinishFollows(e: Endpoint, w: World, id: nat) returns (w': World)
    requires CanHappen(e, SILENT, w) && Lively(w, None) && Enabled(w.s, TaskFinish(id))
    ensures CanHappen(e, SILENT, w') && Lively(w', None) && w'.s == Next(w.s, TaskFinish(id))
  {
    var u := ReachFollows(e, w, id);
    var a := Turn(id, Relay.Cancelled, false);
    CanGoOn(e, SILENT, u, a);
    OthersLive(e, SILENT, u, a);
    CancelEnds(u.scripts[id]);
    var v := Act(e, SILENT, u, a);
    CanGoOn(e, SILENT, v, Manage(TaskFinish(id), NEW_RELAY));
    FinishStaysLively(e, v, id);
    w' := Act(e, SILENT, v, Manage(TaskFinish(id), NEW_RELAY));
  }

  lemma {:induction false} RunFollows(e: Endpoint, w: World, steps: seq<Step<ConnectionId>>) returns (w': World)
    requires CanHappen(e, SILENT, w) && Lively(w, None) && e.local.host.Some?
    requires IsRunOf(SessionRuleOf(e), w.s, steps)
    ensures CanHappen(e, SILENT, w') && w'.s == After(w.s, steps)
    decreases |steps|
  {
    if steps == [] {
      w' := w;
    } else {
      match steps[0] {
        case TaskReceive(id) => w' := ReceiveFollows(e, w, id);
        case TaskSend(id, pkt) => w' := SendFollows(e, w, id, pkt);
        case TaskFinish(id) => w' := FinishFollows(e, w, id);
        case _ => w' := ManageFollows(e, w, steps[0]);
      }
      w' := RunFollows(e, w', steps[1..]);
    }
  }

  /** The courses of manager and relays together, whatever the library, are exactly the manager's runs in QUIC
      mode in which datagrams were sent to the proxy and every packet sent is one that a relay can build. */
  lemma ComposedIff(e: Endpoint, s: State<ConnectionId>)
    requires e.local.host.Some?
    ensures SessionReachable(e, s) <==> exists library, w :: CanHappen(e, library, w) && w.s == s
  {
    if SessionReachable(e, s) {
      var steps :| IsRunOf(SessionRuleOf(e), Initial(), steps) && After(Initial(), steps) == s;
      var none: seq<Action> := [];
      assert Course(e, SILENT, START, none) && End(e, SILENT, START, none) == START;
      var w := RunFollows(e, START, steps);
    }
    if library, w :| CanHappen(e, library, w) && w.s == s {
      CanHappenOk(e, library, w);
    }
  }

  // ---- QUIC mode end to end ----

  /** In every course a connection is fed, in order, a part of the datagrams that name its key after the one
      that created it, and nothing else. */
  lemma FedInOrder(e: Endpoint, library: Library, w: World, id: nat)
    requires CanHappen(e, library, w) && id < |w.s.tasks| && id < |w.scripts|
    ensures var t, fed := w.s.tasks[id], Fed(w.scripts[id].turns);
            && IsSubsequence(fed, Addressed(w.s.log, t.born + 1, t.key))
            && forall k | 0 <= k < |fed| :: NamesKey(e, t.key, fed[k])
  {
    CanHappenOk(e, library, w);
    assert Agree(library, id, w.s.tasks[id], w.scripts[id]);
    SessionFacts(e, w.s);
    TakenIsOwn(e, w.s, id);
  }

  /** In every course what leaves the SCION socket on behalf of a connection are the first of the packets that
      the QUIC library wanted sent, in order, none lost on the way and none changed: each goes from the host to
      the host that the library says, from the proxy's AS to that of the datagram that opened the connection. */
  lemma OutputReachesSocket(e: Endpoint, library: Library, w: World, id: nat)
    requires CanHappen(e, library, w) && id < |w.s.tasks| && id < |w.scripts|
    ensures w.s.tasks[id].born < |w.s.log|
    ensures var s, outs := w.s, Outs(w.scripts[id]);
            var sent := Of(s.socket, id) + Of(s.out.queue, id) + Of(s.out.line, id);
            && Of(s.socket, id) <= sent && |sent| == |outs|
            && forall k | 0 <= k < |sent| ::
                 && sent[k].src == ScionAddr(e.local.isdAsn, Some(outs[k].source))
                 && sent[k].dst == ScionAddr(s.log[s.tasks[id].born].pkt.src.isdAsn, Some(outs[k].target))
                 && sent[k].data == outs[k].data
  {
    CanHappenOk(e, library, w);
    assert Agree(library, id, w.s.tasks[id], w.scripts[id]) && Placed(e, w.s, id, w.scripts[id]);
    SessionFacts(e, w.s);
    QuicReachableFacts(e, w.s);
    NothingLostOnTheWayOut(w.s, id);
  }

  lemma StartKeeps(sc: Script)
    ensures StartOf(sc).pending == sc.made.pending && StartOf(sc).written == sc.made.written
  {
    Relay.FlushOnlySends(sc.made, SettingOf(sc), sc.first);
  }

  /** In every course what the broker gets on behalf of a connection is a first part of what the QUIC library
      heard on stream 0, in the datagram that opened it and then in the packets its channel gave it. */
  lemma BrokerGetsWhatWasHeard(e: Endpoint, library: Library, w: World, id: nat)
    requires CanHappen(e, library, w) && id < |w.s.tasks| && id < |w.scripts|
    ensures RelayOf(w.scripts[id]).written
         <= w.scripts[id].made.pending + Heard(library, id, w.s.tasks[id].taken)
  {
    CanHappenOk(e, library, w);
    var sc := w.scripts[id];
    assert Agree(library, id, w.s.tasks[id], sc);
    if sc.reach.Untried? {
      Relay.FlushOnlySends(sc.made, SettingOf(sc), sc.first);
    } else {
      StartKeeps(sc);
      Relay.BrokerGetsPrefix(StartOf(sc), SettingOf(sc), sc.turns);
      ArrivedIsHeard(library, id, StartOf(sc), SettingOf(sc), sc.turns);
    }
  }

  /** For the client's own connection, where no ids collide, all of these packets were sent by the client:
      what the broker gets on its behalf, nobody else has said. */
  lemma BrokerHearsTheClient(e: Endpoint, library: Library, w: World, c: Handshake.Peer, h: Handshake.World, id: nat)
    requires CanHappen(e, library, w) && Handshake.CanHappen(e, c, h) && h.proxy == w.s
    requires id < |w.s.tasks| && id < |w.scripts| && w.s.tasks[id].key == Handshake.HomeId(e, c)
    ensures RelayOf(w.scripts[id]).written
         <= w.scripts[id].made.pending + Heard(library, id, w.s.tasks[id].taken)
    ensures w.s.tasks[id].born < |w.s.log| && w.s.log[w.s.tasks[id].born].pkt in h.sent
    ensures forall p | p in w.s.tasks[id].taken :: p in h.sent
  {
    BrokerGetsWhatWasHeard(e, library, w, id);
    Handshake.HandshakeIdentity(e, c, h, id);
    var t := w.s.tasks[id];
    forall p | p in t.taken ensures p in h.sent {
      var k: nat :| k < |t.taken| && t.taken[k] == p;
      assert Given(t)[k] == t.taken[k];
      OnlyTheClientsPackets(e, c, h, id, k);
    }
  }
}
