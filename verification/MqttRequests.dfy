/** What becomes of the requests of the MQTT client: one at a time, which of them can be replaced and when
    exactly, and what a call that returned Ok was told. */
module MqttRequests {
  import opened Net
  import opened MqttConnection
  import opened MqttSystem
  import opened MqttSafety

  // ---- One request at a time ----

  predicate NeverAbandons(steps: seq<Step>) {
    forall i | 0 <= i < |steps| :: !steps[i].Abandon?
  }

  /** The places a request can be in: with the caller, in the channel, pending, or notified. */
  ghost predicate Place(s: System, call: nat, place: nat) {
    match place
    case 0 => s.caller == Handing(call)
    case 1 => s.channel == Some(call)
    case 2 => s.conn.current.Some? && s.conn.current.value.notify == call
    case 3 => s.caller == Awaiting(call) && call in s.conn.notified
    case _ => false
  }

  /** Whatever is outstanding belongs to the call the caller is in, and is in one place. */
  ghost predicate OneAtATime(s: System) {
    && (s.caller.Handing? ==> s.channel.None? && s.conn.current.None? && s.caller.call !in s.conn.notified)
    && (s.channel.Some? ==> s.caller == Awaiting(s.channel.value) && s.channel.value !in s.conn.notified)
    && (s.channel.Some? ==> s.conn.current.None?)
    && (s.conn.current.Some? ==> s.caller == Awaiting(s.conn.current.value.notify))
    && (s.conn.current.Some? ==> s.conn.current.value.notify !in s.conn.notified)
    && (forall n | n in s.conn.notified :: n < |s.calls|)
    && (s.caller.Handing? || s.caller.Awaiting? ==> s.caller.call < |s.calls|)
  }

  /** Events that come in only ever finish the pending request. */
  ghost predicate OnlyFinishes(v: View, w: View) {
    (w.current == v.current && w.notified == v.notified)
    || (v.current.Some? && w.current.None? && w.notified == v.notified + {v.current.value.notify})
  }

  lemma {:induction false} BatchOnlyFinishes(v: View, events: seq<Event>)
    ensures OnlyFinishes(v, OnEvents(v, events))
    decreases |events|
  {
    if events != [] && !events[0].RequestClose? {
      BatchOnlyFinishes(OnEvent(v, events[0]), events[1..]);
    }
  }

  lemma {:induction false} BatchesOnlyFinish(v: View, batches: seq<seq<Event>>)
    ensures OnlyFinishes(v, OnBatches(v, batches))
    decreases |batches|
  {
    if batches != [] {
      BatchOnlyFinishes(v, batches[0]);
      BatchesOnlyFinish(OnEvents(v, batches[0]), batches[1..]);
    }
  }

  lemma DatagramOnlyFinishes(v: View, established: bool, connectEvents: seq<Event>, batches: seq<seq<Event>>)
    ensures OnlyFinishes(v, OnDatagram(v, established, connectEvents, batches))
  {
    BatchOnlyFinishes(v, connectEvents);
    BatchesOnlyFinish(if v.initSent then v else OnEvents(v, connectEvents).(initSent := true), batches);
  }

  lemma StepKeepsOneAtATime(s: System, step: Step)
    requires OneAtATime(s) && Enabled(s, step) && !step.Abandon?
    ensures OneAtATime(Next(s, step))
  {
    match step
    case Take(id, events) => SendEventsOnlySend(s.conn, events);
    case Datagram(established, connectEvents, batches) =>
      DatagramOnlyFinishes(s.conn, established, connectEvents, batches);
    case _ =>
  }

  lemma {:induction false} RunKeepsOneAtATime(s: System, steps: seq<Step>)
    requires OneAtATime(s) && IsRun(s, steps) && NeverAbandons(steps)
    ensures OneAtATime(After(s, steps))
    decreases |steps|
  {
    if steps != [] {
      StepKeepsOneAtATime(s, steps[0]);
      RunKeepsOneAtATime(Next(s, steps[0]), steps[1..]);
    }
  }

  /** Without abandoned calls at most one request is outstanding, in one place, and it is the request of
      the call the caller is in; so a request is never taken from the channel while another is pending. */
  lemma OneOutstanding(steps: seq<Step>)
    requires IsRun(NEW_SYSTEM, steps) && NeverAbandons(steps)
    ensures var s := After(NEW_SYSTEM, steps);
            && (forall a, b, p, q | Place(s, a, p) && Place(s, b, q) :: a == b && p == q && s.InCall(a))
            && (s.channel.Some? ==> s.conn.current.None?)
  {
    RunKeepsOneAtATime(NEW_SYSTEM, steps);
  }

  // ---- What holds whether calls are abandoned or not ----

  /** Calls are numbered in order: what is in the channel is younger than what is pending, and the caller
      waits for nothing older than what is in the channel. */
  ghost predicate Numbered(s: System) {
    && (s.conn.current.Some? ==> s.conn.current.value.notify < |s.calls|)
    && (s.channel.Some? ==> s.alive && s.channel.value < |s.calls|)
    && (s.channel.Some? && s.conn.current.Some? ==> s.conn.current.value.notify < s.channel.value)
    && (s.caller.Handing? || s.caller.Awaiting? ==> s.caller.call == |s.calls| - 1)
    && (s.caller.Handing? && s.channel.Some? ==> s.channel.value < s.caller.call)
    && (s.caller.Handing? && s.conn.current.Some? ==> s.conn.current.value.notify < s.caller.call)
    && (s.caller.Awaiting? && s.channel.Some? ==> s.caller.call == s.channel.value)
    && (s.caller.Unconnected? || s.caller.Connecting? ==> s.calls == [])
  }

  /** A request in the channel or pending was not answered yet, and the caller waits for it unless it was
      abandoned; and the request the caller waits for is in the channel, pending, or answered. */
  ghost predicate Owned(s: System) {
    && (s.channel.Some? ==> s.channel.value !in s.conn.notified)
    && (s.channel.Some? ==> s.caller == Awaiting(s.channel.value) || s.channel.value in s.abandoned)
    && (s.conn.current.Some? ==> s.conn.current.value.notify !in s.conn.notified)
    && (s.conn.current.Some? ==>
          s.caller == Awaiting(s.conn.current.value.notify) || s.conn.current.value.notify in s.abandoned)
    && (s.caller.Handing? ==> s.caller.call !in s.conn.notified)
    && (s.alive && s.caller.Awaiting? && s.channel.None? && s.caller.call !in s.conn.notified ==>
          s.conn.current.Some? && s.conn.current.value.notify == s.caller.call)
  }

  /** What is answered, abandoned or returned is a call that was made; no call returned and was abandoned. */
  ghost predicate Ended(s: System) {
    && (forall n | n in s.conn.notified :: n < |s.calls|)
    && (forall n | n in s.abandoned :: n < |s.calls| && !s.InCall(n) && n !in s.returned)
    && (forall n | n in s.returned :: n < |s.calls| && !s.InCall(n) && n in s.conn.notified)
    && (forall i | 0 <= i < |s.calls| && s.calls[i].Publish? :: s.calls[i].message.qos == AtLeastOnce)
    && (forall u | 0 <= u < |s.uses| :: s.uses[u].call < |s.calls|)
  }

  ghost predicate Serial(s: System) { Numbered(s) && Owned(s) && Ended(s) }

  lemma TakeKeepsSerial(s: System, id: nat, events: seq<Event>)
    requires Serial(s) && Enabled(s, Take(id, events))
    ensures Serial(Next(s, Take(id, events)))
  {
    SendEventsOnlySend(s.conn, events);
  }

  lemma DatagramKeepsSerial(s: System, step: Step)
    requires Serial(s) && step.Datagram? && Enabled(s, step)
    ensures Serial(Next(s, step))
  {
    DatagramOnlyFinishes(s.conn, step.established, step.connectEvents, step.batches);
  }

  lemma CallerStepKeepsNumbers(s: System, step: Step)
    requires Numbered(s) && Enabled(s, step) && !step.Datagram?
    ensures Numbered(Next(s, step))
  {
  }

  lemma CallerStepKeepsOwners(s: System, step: Step)
    requires Serial(s) && Enabled(s, step) && !step.Take? && !step.Datagram?
    ensures Owned(Next(s, step))
  {
  }

  lemma AbandonKeepsEnded(s: System)
    requires Numbered(s) && Ended(s) && Enabled(s, Abandon)
    ensures Ended(Next(s, Abandon))
  {
  }

  lemma ReturnKeepsEnded(s: System)
    requires Ended(s) && Enabled(s, CallReturns)
    ensures Ended(Next(s, CallReturns))
  {
  }

  lemma CallKeepsEnded(s: System, request: Request)
    requires Ended(s) && Enabled(s, Call(request))
    ensures Ended(Next(s, Call(request)))
  {
  }

  /** Everything else that a caller does changes no call's standing. */
  lemma OtherStepKeepsEnded(s: System, step: Step)
    requires Ended(s) && Enabled(s, step) && !step.Take? && !step.Datagram?
    requires !step.Abandon? && !step.CallReturns? && !step.Call?
    ensures Ended(Next(s, step))
  {
  }

  lemma CallerStepKeepsEnded(s: System, step: Step)
    requires Numbered(s) && Ended(s) && Enabled(s, step) && !step.Take? && !step.Datagram?
    ensures Ended(Next(s, step))
  {
    match step
    case Abandon => AbandonKeepsEnded(s);
    case CallReturns => ReturnKeepsEnded(s);
    case Call(request) => CallKeepsEnded(s, request);
    case _ => OtherStepKeepsEnded(s, step);
  }

  lemma CallerStepKeepsSerial(s: System, step: Step)
    requires Serial(s) && Enabled(s, step) && !step.Take? && !step.Datagram?
    ensures Serial(Next(s, step))
  {
    CallerStepKeepsNumbers(s, step);
    CallerStepKeepsOwners(s, step);
    CallerStepKeepsEnded(s, step);
  }

  /** All invariants of the client together. */
  ghost predicate Sound(s: System) { Serial(s) && AcksInv(s) && OrderInv(s) }

  lemma StepKeepsSound(s: System, step: Step)
    requires Sound(s) && Enabled(s, step)
    ensures Sound(Next(s, step))
  {
    StepKeepsOrder(s, step);
    match step
    case Take(id, events) =>
      TakeKeepsSerial(s, id, events);
      TakeKeepsAcks(s, id, events);
    case Datagram(_, _, _) =>
      DatagramKeepsSerial(s, step);
      DatagramKeepsAcks(s, step);
    case _ =>
      CallerStepKeepsSerial(s, step);
      CallerStepKeepsAcks(s, step);
  }

  lemma {:induction false} RunKeepsSound(s: System, steps: seq<Step>)
    requires Sound(s) && IsRun(s, steps)
    ensures Sound(After(s, steps))
    decreases |steps|
  {
    if steps != [] {
      StepKeepsSound(s, steps[0]);
      RunKeepsSound(Next(s, steps[0]), steps[1..]);
    }
  }

  // ---- Which requests are replaced ----

  /** Step `k` of a run abandons the call. */
  ghost predicate AbandonedAt(steps: seq<Step>, k: nat, call: nat) {
    && k < |steps| && steps[k].Abandon?
    && IsRun(NEW_SYSTEM, steps[..k]) && After(NEW_SYSTEM, steps[..k]).InCall(call)
  }

  lemma {:induction false} AbandonedByStep(steps: seq<Step>, call: nat) returns (k: nat)
    requires IsRun(NEW_SYSTEM, steps) && call in After(NEW_SYSTEM, steps).abandoned
    ensures AbandonedAt(steps, k, call)
    decreases |steps|
  {
    var n := |steps| - 1;
    assert steps == steps[..n] + [steps[n]];
    RunSplit(NEW_SYSTEM, steps[..n], steps[n]);
    if call in After(NEW_SYSTEM, steps[..n]).abandoned {
      k := AbandonedByStep(steps[..n], call);
      assert steps[..n][..k] == steps[..k];
    } else {
      k := n;
    }
  }

  /** The next request replaces the pending one as soon as the connection takes it from the channel, with
      this packet id, and sends its packet. */
  ghost predicate Replaces(s: System, id: nat, room: nat) {
    && s.channel.Some? && s.channel.value < |s.calls| && s.conn.current.Some?
    && Enabled(s, Take(id, SendOf(s, id, room)))
  }

  function SendOf(s: System, id: nat, room: nat): seq<Event>
    requires s.channel.Some? && s.channel.value < |s.calls|
  {
    [RequestSendPacket(PacketFor(s.calls[s.channel.value], id), room)]
  }

  /** In every run a pending request that is replaced belongs to an earlier call, which some step of the
      run abandoned and which did not return. */
  lemma OnlyAbandonedIsReplaced(steps: seq<Step>, id: nat, room: nat) returns (k: nat)
    requires IsRun(NEW_SYSTEM, steps) && Replaces(After(NEW_SYSTEM, steps), id, room)
    ensures var s, n := After(NEW_SYSTEM, steps), After(NEW_SYSTEM, steps).conn.current.value.notify;
            && n < s.channel.value && AbandonedAt(steps, k, n)
            && !s.InCall(n) && n !in s.returned && n !in s.conn.notified
  {
    RunKeepsSound(NEW_SYSTEM, steps);
    k := AbandonedByStep(steps, After(NEW_SYSTEM, steps).conn.current.value.notify);
  }

  /** A request is in the channel or pending that the caller does not wait for. */
  predicate Orphan(s: System) {
    || (s.channel.Some? && s.caller != Awaiting(s.channel.value))
    || (s.conn.current.Some? && s.caller != Awaiting(s.conn.current.value.notify))
  }

  /** Without any further call being abandoned, a pending request can come to be replaced. */
  ghost predicate CanReplace(s: System) {
    exists steps, id, room :: IsRun(s, steps) && NeverAbandons(steps) && Replaces(After(s, steps), id, room)
  }

  lemma NoOrphanOneAtATime(s: System)
    requires Serial(s) && !Orphan(s)
    ensures OneAtATime(s)
  {
  }

  lemma {:induction false} StaysDead(s: System, steps: seq<Step>)
    requires !s.alive && IsRun(s, steps)
    ensures !After(s, steps).alive
    decreases |steps|
  {
    if steps != [] {
      StaysDead(Next(s, steps[0]), steps[1..]);
    }
  }

  /** A datagram that brings one packet. */
  lemma OneEvent(v: View, calls: seq<Request>, uses: seq<Use>, acked: set<nat>, e: Event)
    requires InboundContract(calls, uses, acked, e) && e.NotifyPacketReceived?
    ensures BatchesContract(calls, uses, acked, [[e]])
    ensures OnBatches(v, [[e]]) == OnEvent(v, e) && AckedByBatches(acked, [[e]]) == Acked(acked, e)
  {
    var batch: seq<Event> := [e];
    var batches: seq<seq<Event>> := [batch];
    assert batch[1..] == [] && batches[1..] == [];
    assert OnBatches(v, batches) == OnEvents(v, batch) == OnEvent(v, e);
    assert AckedByBatches(acked, batches) == AckedByBatch(acked, batch) == Acked(acked, e);
  }

  /** The broker's acknowledgement of a use whose id is not the pending one: nothing but a free id comes of it. */
  lemma AckFreesId(s: System, u: nat) returns (step: Step)
    requires Sound(s) && s.alive
    requires u < |s.uses| && s.uses[u].sent && u !in s.acked
    requires s.conn.current.Some? ==> s.conn.current.value.id != s.uses[u].id
    ensures Enabled(s, step) && !step.Abandon? && NotInUse(s.uses, Next(s, step).acked, s.uses[u].id)
    ensures Next(s, step) == s.(conn := s.conn.(wire := Next(s, step).conn.wire), acked := Next(s, step).acked)
  {
    var kind := if s.calls[s.uses[u].call].Subscribe? then Suback else Puback;
    var ack := NotifyPacketReceived(Ack(kind, s.uses[u].id, u, true));
    step := Datagram(true, [], [[ack]]);
    OneEvent(s.conn, s.calls, s.uses, s.acked, ack);
    forall w | 0 <= w < |s.uses| && s.uses[w].sent && w !in s.acked + {u} ensures s.uses[w].id != s.uses[u].id {
      assert if w < u then s.uses[w].id != s.uses[u].id else s.uses[u].id != s.uses[w].id;
    }
  }

  /** A packet id can always be had that is not the pending one. */
  lemma FreeId(s: System) returns (steps: seq<Step>, id: nat)
    requires Sound(s) && s.alive
    ensures IsRun(s, steps) && NeverAbandons(steps) && Sound(After(s, steps))
    ensures var t := After(s, steps);
            && t == s.(conn := s.conn.(wire := t.conn.wire), acked := t.acked)
            && 1 <= id <= MAX_PACKET_ID && NotInUse(t.uses, t.acked, id)
  {
    id := if s.conn.current.Some? && s.conn.current.value.id == 1 then 2 else 1;
    if NotInUse(s.uses, s.acked, id) {
      steps := [];
    } else {
      var u: nat :| u < |s.uses| && s.uses[u].sent && u !in s.acked && s.uses[u].id == id;
      var step := AckFreesId(s, u);
      steps := [step];
      assert steps[1..] == [];
      StepKeepsSound(s, step);
    }
  }

  /** A caller that waits for nothing pending makes its next call. */
  lemma NextCall(s: System) returns (steps: seq<Step>)
    requires Sound(s) && s.alive && s.channel.None? && (s.caller.Ready? || s.caller.Handing?)
    ensures IsRun(s, steps) && NeverAbandons(steps) && Sound(After(s, steps))
    ensures var t := After(s, steps);
            t.alive && t.channel.Some? && t.conn == s.conn && !t.caller.Unconnected?
  {
    if s.caller.Handing? {
      steps := [Hand];
      assert steps[1..] == [];
    } else {
      steps := [Call(Request.Subscribe("")), Hand];
      assert steps[1..] == [Hand] && [Hand][1..] == [];
    }
    RunKeepsSound(s, steps);
  }

  /** The request in the channel is taken and its packet sent. */
  lemma TakeIt(s: System) returns (steps: seq<Step>)
    requires Sound(s) && s.channel.Some?
    ensures IsRun(s, steps) && NeverAbandons(steps) && Sound(After(s, steps))
    ensures var t := After(s, steps);
            t.alive && t.channel.None? && t.conn.current.Some? && t.caller == s.caller
  {
    var first, id := FreeId(s);
    var t := After(s, first);
    var take := Take(id, SendOf(t, id, 0));
    assert Enabled(t, take);
    RunSnoc(s, first, take);
    steps := first + [take];
    RunKeepsSound(s, steps);
  }

  /** The request in the channel is taken, or the call it answers returns, and the caller makes its next. */
  lemma ThenNextCall(s: System, first: seq<Step>) returns (steps: seq<Step>)
    requires IsRun(s, first) && NeverAbandons(first) && Sound(After(s, first))
    requires var t := After(s, first); t.alive && t.channel.None? && (t.caller.Ready? || t.caller.Handing?)
    ensures IsRun(s, steps) && NeverAbandons(steps) && Sound(After(s, steps))
    ensures var t := After(s, steps);
            t.alive && t.channel.Some? && t.conn == After(s, first).conn && !t.caller.Unconnected?
  {
    var more := NextCall(After(s, first));
    RunConcat(s, first, more);
    steps := first + more;
  }

  /** From a state with an orphan, a request comes into the channel while another one is pending. */
  lemma OrphanMeetsRequest(s: System) returns (steps: seq<Step>)
    requires Sound(s) && s.alive && Orphan(s)
    ensures IsRun(s, steps) && NeverAbandons(steps) && Sound(After(s, steps))
    ensures var t := After(s, steps);
            t.alive && t.channel.Some? && t.conn.current.Some? && !t.caller.Unconnected?
  {
    if s.channel.Some? && s.conn.current.Some? {
      steps := [];
    } else if s.channel.Some? {
      var first := TakeIt(s);
      steps := ThenNextCall(s, first);
    } else if s.caller.Awaiting? {
      var first := [CallReturns];
      assert first[1..] == [];
      StepKeepsSound(s, CallReturns);
      steps := ThenNextCall(s, first);
    } else {
      steps := NextCall(s);
    }
  }

  lemma OrphanCanBeReplaced(s: System)
    requires Sound(s) && s.alive && Orphan(s)
    ensures CanReplace(s)
  {
    var first := OrphanMeetsRequest(s);
    var t := After(s, first);
    var more, id := FreeId(t);
    RunConcat(s, first, more);
    var steps := first + more;
    assert Replaces(After(s, steps), id, 0);
  }

  /** In every state of every run: without a further call being abandoned a pending request can be replaced
      if and only if the connection is alive and a request that the caller does not wait for is in the
      channel or pending.  After an abandoned call it is this that the next call has to wait out. */
  lemma ReplacedIffOrphan(run: seq<Step>)
    requires IsRun(NEW_SYSTEM, run)
    ensures var s := After(NEW_SYSTEM, run); CanReplace(s) <==> s.alive && Orphan(s)
  {
    var s := After(NEW_SYSTEM, run);
    RunKeepsSound(NEW_SYSTEM, run);
    if s.alive && Orphan(s) {
      OrphanCanBeReplaced(s);
    } else {
      forall steps, id, room | IsRun(s, steps) && NeverAbandons(steps) ensures !Replaces(After(s, steps), id, room) {
        RunKeepsSound(s, steps);
        if s.alive {
          NoOrphanOneAtATime(s);
          RunKeepsOneAtATime(s, steps);
        } else {
          StaysDead(s, steps);
        }
      }
    }
  }

  // ---- Runs that do happen ----

  lemma RunPrepend(s: System, step: Step, rest: seq<Step>)
    requires Enabled(s, step) && IsRun(Next(s, step), rest)
    ensures IsRun(s, [step] + rest) && After(s, [step] + rest) == After(Next(s, step), rest)
  {
    assert ([step] + rest)[1..] == rest;
  }

  function Hello(accepted: bool): Step {
    Datagram(true, [RequestSendPacket(ConnectPacket, 0)], [[NotifyPacketReceived(Connack(accepted))]])
  }

  /** A client whose `connect` has returned Ok, and the CONNACK it was told of. */
  function Opened(accepted: bool): System {
    NEW_SYSTEM.(caller := Ready,
      conn := NEW_CONNECTION.(initSent := true, wire := [Out(ConnectPacket, 0), In(Connack(accepted))]))
  }

  /** `connect` returns Ok whether the CONNACK accepts or refuses. */
  lemma ConnectIgnoresReason(accepted: bool, rest: seq<Step>) returns (steps: seq<Step>)
    requires IsRun(Opened(accepted), rest)
    ensures IsRun(NEW_SYSTEM, steps) && After(NEW_SYSTEM, steps) == After(Opened(accepted), rest)
  {
    var hello := Hello(accepted);
    var s1 := Next(NEW_SYSTEM, Connect);
    var sent := OnEvents(s1.conn, hello.connectEvents).(initSent := true);
    assert OnBatches(sent, hello.batches) == OnEvents(sent, hello.batches[0]);
    assert Enabled(s1, hello);
    var s2 := Next(s1, hello);
    assert Next(s2, ConnectReturns) == Opened(accepted);
    RunPrepend(s2, ConnectReturns, rest);
    steps := [ConnectReturns] + rest;
    RunPrepend(s1, hello, steps);
    steps := [hello] + steps;
    RunPrepend(NEW_SYSTEM, Connect, steps);
    steps := [Connect] + steps;
  }

  predicate IsConnack(x: Wire) { x.In? && x.packet.Connack? }

  /** The broker has sent CONNACK once at most (MQTT 5.0, section 3.2). */
  predicate OneConnack(wire: seq<Wire>) {
    forall i, j | 0 <= i < j < |wire| && IsConnack(wire[i]) :: !IsConnack(wire[j])
  }

  /** In every run a client whose `connect` has returned Ok was either accepted or refused, never both: its
      `connect` has succeeded exactly if the CONNACK it was told of did not refuse. */
  lemma ConnectIsAcceptedOrRefused(steps: seq<Step>)
    requires IsRun(NEW_SYSTEM, steps) && OneConnack(After(NEW_SYSTEM, steps).conn.wire)
    requires !After(NEW_SYSTEM, steps).caller.Unconnected? && !After(NEW_SYSTEM, steps).caller.Connecting?
    ensures var wire := After(NEW_SYSTEM, steps).conn.wire; In(Connack(true)) in wire <==> In(Connack(false)) !in wire
  {
    RunKeepsOrder(NEW_SYSTEM, steps);
  }

  /** A pending request is replaced, both packets having left under ids of their own: for any two requests
      there is such a run. */
  lemma AbandonedRequestIsReplaced(a: Request, b: Request, id: nat, other: nat, room: nat) returns (steps: seq<Step>)
    requires (a.Publish? ==> a.message.qos == AtLeastOnce) && (b.Publish? ==> b.message.qos == AtLeastOnce)
    requires 1 <= id <= 0xFFFF && 1 <= other <= 0xFFFF && id != other
    ensures IsRun(NEW_SYSTEM, steps)
    ensures var s := After(NEW_SYSTEM, steps);
            && s.conn.current == Some(Current(a, id, 0)) && Replaces(s, other, room)
            && Out(PacketFor(a, id), room) in s.conn.wire
            && var t := Next(s, Take(other, SendOf(s, other, room)));
               && t.conn.current == Some(Current(b, other, 1))
               && Out(PacketFor(b, other), room) in t.conn.wire && 0 !in t.conn.notified
  {
    var s := Opened(true);
    steps := AbandonFrom(s, a, b, id, room);
    var t := After(s, steps);
    OneSend(t.conn, PacketFor(b, other), room);
    steps := ConnectIgnoresReason(true, steps);
  }

  /** Sending one packet. */
  lemma OneSend(v: View, p: Packet, room: nat)
    ensures SendContract([RequestSendPacket(p, room)], p)
    ensures OnEvents(v, [RequestSendPacket(p, room)]) == v.(wire := v.wire + [Out(p, room)])
    ensures Leaves([RequestSendPacket(p, room)])
  {
    var send := [RequestSendPacket(p, room)];
    assert OnEvents(v, send) == OnEvent(v, send[0]);
    assert send[0].RequestSendPacket?;
  }

  lemma AbandonFrom(s: System, a: Request, b: Request, id: nat, room: nat) returns (steps: seq<Step>)
    requires s == Opened(true) && 1 <= id <= MAX_PACKET_ID
    requires (a.Publish? ==> a.message.qos == AtLeastOnce) && (b.Publish? ==> b.message.qos == AtLeastOnce)
    ensures IsRun(s, steps)
    ensures After(s, steps)
         == s.(caller := Awaiting(1), channel := Some(1), calls := [a, b], uses := [Use(id, 0, true)], abandoned := {0},
               conn := s.conn.(current := Some(Current(a, id, 0)), wire := s.conn.wire + [Out(PacketFor(a, id), room)]))
  {
    var take := Take(id, [RequestSendPacket(PacketFor(a, id), room)]);
    OneSend(s.conn, PacketFor(a, id), room);
    var s4 := Next(s, Call(a));
    var s5 := Next(s4, Hand);
    var s6 := Next(s5, take);
    var s7 := Next(s6, Abandon);
    var s8 := Next(s7, Call(b));
    assert s7.abandoned == {0};
    steps := [Hand];
    RunPrepend(s8, Hand, []);
    RunPrepend(s7, Call(b), steps);
    steps := [Call(b)] + steps;
    RunPrepend(s6, Abandon, steps);
    steps := [Abandon] + steps;
    RunPrepend(s5, take, steps);
    steps := [take] + steps;
    RunPrepend(s4, Hand, steps);
    steps := [Hand] + steps;
    RunPrepend(s, Call(a), steps);
    steps := [Call(a)] + steps;
  }

  /** A call whose packet leaves and is acknowledged does return Ok, whether the acknowledgement accepts or
      refuses. */
  lemma CallCompletes(r: Request, id: nat, accepted: bool) returns (steps: seq<Step>)
    requires (r.Publish? ==> r.message.qos == AtLeastOnce) && 1 <= id <= MAX_PACKET_ID
    ensures IsRun(NEW_SYSTEM, steps)
    ensures var s := After(NEW_SYSTEM, steps);
            s.returned == [0] && s.calls == [r] && (if accepted then Granted(s, 0) else Refused(s, 0))
  {
    var opened' := Opened(true);
    var s4 := Next(opened', Call(r));
    var s5 := Next(s4, Hand);
    steps := CompleteFrom(s5, r, id, accepted);
    RunPrepend(s4, Hand, steps);
    steps := [Hand] + steps;
    RunPrepend(opened', Call(r), steps);
    steps := [Call(r)] + steps;
    steps := ConnectIgnoresReason(true, steps);
  }

  lemma CompleteFrom(s: System, r: Request, id: nat, accepted: bool) returns (steps: seq<Step>)
    requires (r.Publish? ==> r.message.qos == AtLeastOnce) && 1 <= id <= 0xFFFF
    requires s == Opened(true).(caller := Awaiting(0), calls := [r], channel := Some(0))
    ensures IsRun(s, steps)
    ensures var t := After(s, steps);
            t.returned == [0] && t.calls == [r] && (if accepted then Granted(t, 0) else Refused(t, 0))
  {
    var take := Take(id, [RequestSendPacket(PacketFor(r, id), 0)]);
    OneSend(s.conn, PacketFor(r, id), 0);
    var t := s.(channel := None, uses := [Use(id, 0, true)],
                conn := s.conn.(current := Some(Current(r, id, 0)), wire := s.conn.wire + [Out(PacketFor(r, id), 0)]));
    assert Next(s, take) == t;
    steps := AnswerFrom(t, r, id, accepted);
    RunPrepend(s, take, steps);
    steps := [take] + steps;
  }

  /** The pending request is acknowledged and its call returns. */
  lemma AnswerFrom(s: System, r: Request, id: nat, accepted: bool) returns (steps: seq<Step>)
    requires r.Publish? ==> r.message.qos == AtLeastOnce
    requires s.caller == Awaiting(0) && s.calls == [r] && s.uses == [Use(id, 0, true)] && s.acked == {}
    requires s.conn.current == Some(Current(r, id, 0)) && s.conn.initSent && s.alive && s.returned == []
    ensures IsRun(s, steps)
    ensures var t := After(s, steps);
            t.returned == [0] && t.calls == [r] && (if accepted then Granted(t, 0) else Refused(t, 0))
  {
    var kind := if r.Subscribe? then Suback else Puback;
    var ack := NotifyPacketReceived(Ack(kind, id, 0, accepted));
    var reply := Datagram(true, [], [[ack]]);
    OneEvent(s.conn, s.calls, s.uses, s.acked, ack);
    var t := Next(s, reply);
    var u := Next(t, CallReturns);
    assert AcknowledgedAt(u.conn.wire, u.calls, u.uses, 0, |s.conn.wire|, 0, kind, accepted);
    RunPrepend(t, CallReturns, []);
    steps := [CallReturns];
    RunPrepend(s, reply, steps);
    steps := [reply] + steps;
  }

  // ---- What a call that returned Ok was told ----

  /** The broker's acknowledgement of this call's packet accepts it; or refuses it. */
  ghost predicate Granted(s: System, call: nat) {
    exists j, u: nat, kind :: AcknowledgedAt(s.conn.wire, s.calls, s.uses, call, j, u, kind, true)
  }

  ghost predicate Refused(s: System, call: nat) {
    exists j, u: nat, kind :: AcknowledgedAt(s.conn.wire, s.calls, s.uses, call, j, u, kind, false)
  }

  predicate IsAck(x: Wire) { x.In? && x.packet.Ack? }

  /** No use of a packet id has been acknowledged twice. */
  ghost predicate AcksOnce(wire: seq<Wire>, acked: set<nat>) {
    && (forall j | 0 <= j < |wire| && IsAck(wire[j]) :: wire[j].packet.answers in acked)
    && (forall i, j | 0 <= i < j < |wire| && IsAck(wire[i]) && IsAck(wire[j]) ::
          wire[i].packet.answers != wire[j].packet.answers)
  }

  /** Every call has one use of a packet id at most: they come in the order of the calls. */
  ghost predicate UsesInOrder(s: System) {
    && (forall u, w | 0 <= u < w < |s.uses| :: s.uses[u].call < s.uses[w].call)
    && (s.channel.Some? ==> forall u | 0 <= u < |s.uses| :: s.uses[u].call < s.channel.value)
    && (s.caller.Handing? ==> forall u | 0 <= u < |s.uses| :: s.uses[u].call < s.caller.call)
  }

  ghost predicate AnswersInv(s: System) { UsesInOrder(s) && AcksOnce(s.conn.wire, s.acked) }

  lemma EventKeepsAcksOnce(v: View, calls: seq<Request>, uses: seq<Use>, acked: set<nat>, e: Event)
    requires AcksOnce(v.wire, acked) && InboundContract(calls, uses, acked, e)
    ensures AcksOnce(OnEvent(v, e).wire, Acked(acked, e))
  {
  }

  lemma {:induction false} AckedGrows(acked: set<nat>, events: seq<Event>)
    ensures acked <= AckedByBatch(acked, events)
    decreases |events|
  {
    if events != [] {
      AckedGrows(Acked(acked, events[0]), events[1..]);
    }
  }

  lemma {:induction false} BatchKeepsAcksOnce(v: View, calls: seq<Request>, uses: seq<Use>, acked: set<nat>,
                                              events: seq<Event>)
    requires AcksOnce(v.wire, acked) && BatchContract(calls, uses, acked, events)
    ensures AcksOnce(OnEvents(v, events).wire, AckedByBatch(acked, events))
    decreases |events|
  {
    if events != [] {
      if events[0].RequestClose? {
        AckedGrows(acked, events);
      } else {
        EventKeepsAcksOnce(v, calls, uses, acked, events[0]);
        BatchKeepsAcksOnce(OnEvent(v, events[0]), calls, uses, Acked(acked, events[0]), events[1..]);
      }
    }
  }

  lemma {:induction false} BatchesKeepAcksOnce(v: View, calls: seq<Request>, uses: seq<Use>, acked: set<nat>,
                                               batches: seq<seq<Event>>)
    requires AcksOnce(v.wire, acked) && BatchesContract(calls, uses, acked, batches)
    ensures AcksOnce(OnBatches(v, batches).wire, AckedByBatches(acked, batches))
    decreases |batches|
  {
    if batches != [] {
      BatchKeepsAcksOnce(v, calls, uses, acked, batches[0]);
      BatchesKeepAcksOnce(OnEvents(v, batches[0]), calls, uses, AckedByBatch(acked, batches[0]), batches[1..]);
    }
  }

  lemma {:induction false} SendKeepsAcksOnce(v: View, events: seq<Event>, acked: set<nat>)
    requires AcksOnce(v.wire, acked) && forall i | 0 <= i < |events| :: !events[i].NotifyPacketReceived?
    ensures AcksOnce(OnEvents(v, events).wire, acked)
    decreases |events|
  {
    if events != [] && !events[0].RequestClose? {
      SendKeepsAcksOnce(OnEvent(v, events[0]), events[1..], acked);
    }
  }

  lemma DatagramKeepsAnswers(s: System, step: Step)
    requires AnswersInv(s) && step.Datagram? && Enabled(s, step)
    ensures AnswersInv(Next(s, step))
  {
    if step.established {
      var w := if s.conn.initSent then s.conn else OnEvents(s.conn, step.connectEvents).(initSent := true);
      if !s.conn.initSent {
        SendKeepsAcksOnce(s.conn, step.connectEvents, s.acked);
      }
      BatchesKeepAcksOnce(w, s.calls, s.uses, s.acked, step.batches);
    }
  }

  lemma StepKeepsAnswers(s: System, step: Step)
    requires Serial(s) && AnswersInv(s) && Enabled(s, step)
    ensures AnswersInv(Next(s, step))
  {
    match step
    case Take(_, events) => SendKeepsAcksOnce(s.conn, events, s.acked);
    case Datagram(_, _, _) => DatagramKeepsAnswers(s, step);
    case _ =>
  }

  lemma {:induction false} RunKeepsAnswers(s: System, steps: seq<Step>)
    requires Sound(s) && AnswersInv(s) && IsRun(s, steps)
    ensures AnswersInv(After(s, steps))
    decreases |steps|
  {
    if steps != [] {
      StepKeepsSound(s, steps[0]);
      StepKeepsAnswers(s, steps[0]);
      RunKeepsAnswers(Next(s, steps[0]), steps[1..]);
    }
  }

  /** Two acknowledgements of the same call's packet are one. */
  lemma OneAnswer(s: System, call: nat, j: int, u: nat, kind: AckKind, a: bool,
                  j': int, u': nat, kind': AckKind, b: bool)
    requires AnswersInv(s)
    requires AcknowledgedAt(s.conn.wire, s.calls, s.uses, call, j, u, kind, a)
    requires AcknowledgedAt(s.conn.wire, s.calls, s.uses, call, j', u', kind', b)
    ensures j == j' && u == u' && a == b
  {
    assert u == u';
    assert IsAck(s.conn.wire[j]) && IsAck(s.conn.wire[j']);
  }

  /** A call that returned Ok was either granted or refused, never both; Ok by itself does not say which. */
  lemma OkIsGrantedOrRefused(steps: seq<Step>, call: nat)
    requires IsRun(NEW_SYSTEM, steps) && call in After(NEW_SYSTEM, steps).returned
    ensures var s := After(NEW_SYSTEM, steps); Granted(s, call) <==> !Refused(s, call)
  {
    var s := After(NEW_SYSTEM, steps);
    OkMeansAcknowledged(steps, call);
    RunKeepsAnswers(NEW_SYSTEM, steps);
    var j, u: nat, kind, a :| AcknowledgedAt(s.conn.wire, s.calls, s.uses, call, j, u, kind, a);
    forall j', u': nat, kind', b | AcknowledgedAt(s.conn.wire, s.calls, s.uses, call, j', u', kind', b)
      ensures a == b
    {
      OneAnswer(s, call, j, u, kind, a, j', u', kind', b);
    }
  }
}
