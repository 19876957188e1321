/** The `connect` calls of one client, one after the other, and the requests between them.  All connections
    share one notification, and one that was replaced lives on until it ends by itself: a permit left over,
    or a CONNACK that comes late on an older connection, completes a later `connect`.  And the client counts
    as connected from its first success on: a request goes to the newest connection, whatever that has seen. */
module MqttReconnect {
  import opened Net

  /** One connection actor: whether it has sent CONNECT, has handled its CONNACK, and still runs. */
  datatype Link = Link(hello: bool, connack: bool, alive: bool)

  /** Where the caller stands: between calls, or in the `connect` that made this link. */
  datatype Caller = Free | Connecting(link: nat)

  /** A request handed over: to which link, and what that had sent and handled by then. */
  datatype Handover = Handover(link: nat, hello: bool, connack: bool)

  /** `permit` is the pending permit of the notification all links share, `connected` the client's flag, and
      `stream` the link its requests go to, if there is one at the other end.  History: for each `connect`
      that returned Ok, `told` has its link and whether that had handled its CONNACK; `abandoned` has the
      links whose `connect` was dropped, `handed` the requests that were handed over. */
  datatype State = State(caller: Caller, links: seq<Link>, permit: bool, connected: bool, stream: Option<nat>,
                         told: seq<(nat, bool)>, abandoned: set<nat>, handed: seq<Handover>)

  const NEW_CLIENT := State(Free, [], false, false, None, [], {}, [])

  /** `made` says whether the connection object could be made; if not, requests have nowhere to go.  `Hand` is
      a request that found room in the newest connection's channel. */
  datatype Step =
    | Connect(made: bool)
    | Hello(link: nat)
    | Connack(link: nat)
    | ConnectReturns
    | Abandon
    | Hand
    | Die(link: nat)

  /** A broker sends CONNACK once on each connection, and only in answer to CONNECT (MQTT 5.0, section 3.2). */
  predicate Enabled(s: State, step: Step) {
    match step
    case Connect(_) => s.caller.Free?
    case Hello(k) => k < |s.links| && s.links[k].alive && !s.links[k].hello
    case Connack(k) => k < |s.links| && s.links[k].alive && s.links[k].hello && !s.links[k].connack
    case ConnectReturns => s.caller.Connecting? && s.caller.link < |s.links| && s.permit
    case Abandon => s.caller.Connecting?
    case Hand =>
      s.caller.Free? && s.connected && s.stream.Some? && s.stream.value < |s.links| && s.links[s.stream.value].alive
    case Die(k) => k < |s.links| && s.links[k].alive
  }

  function Next(s: State, step: Step): State
    requires Enabled(s, step)
  {
    match step
    case Connect(made) =>
      if made then
        s.(caller := Connecting(|s.links|), stream := Some(|s.links|), links := s.links + [Link(false, false, true)])
      else s.(stream := None)
    case Hello(k) => s.(links := s.links[k := s.links[k].(hello := true)])
    case Connack(k) => s.(links := s.links[k := s.links[k].(connack := true)], permit := true)
    case ConnectReturns =>
      s.(caller := Free, permit := false, connected := true,
         told := s.told + [(s.caller.link, s.links[s.caller.link].connack)])
    case Abandon => s.(caller := Free, abandoned := s.abandoned + {s.caller.link})
    case Hand =>
      var k := s.stream.value;
      s.(handed := s.handed + [Handover(k, s.links[k].hello, s.links[k].connack)])
    case Die(k) => s.(links := s.links[k := s.links[k].(alive := false)])
  }

  predicate IsRun(s: State, steps: seq<Step>)
    decreases |steps|
  {
    steps == [] || (Enabled(s, steps[0]) && IsRun(Next(s, steps[0]), steps[1..]))
  }

  function After(s: State, steps: seq<Step>): State
    requires IsRun(s, steps)
    decreases |steps|
  {
    if steps == [] then s else After(Next(s, steps[0]), steps[1..])
  }

  lemma RunPrepend(s: State, step: Step, rest: seq<Step>)
    requires Enabled(s, step) && IsRun(Next(s, step), rest)
    ensures IsRun(s, [step] + rest) && After(s, [step] + rest) == After(Next(s, step), rest)
  {
    assert ([step] + rest)[1..] == rest;
  }

  // ---- Which CONNACK a `connect` was told of ----

  /** A link that runs and has not handled its CONNACK yet. */
  predicate Owes(s: State, k: nat) { k < |s.links| && s.links[k].alive && !s.links[k].connack }

  /** `told` has one more entry: the link made first after `s`, without its CONNACK. */
  predicate Misled(t: State, s: State) { |t.told| > |s.told| && t.told[|s.told|] == (|s.links|, false) }

  /** The next `connect` returns Ok although the connection it made has handled no CONNACK. */
  ghost predicate CanBeMisled(s: State)
    requires s.caller.Free?
  {
    var t := Next(s, Connect(true));
    exists steps :: IsRun(t, steps) && Misled(After(t, steps), s)
  }

  /** While the `connect` that made link `n` waits, and the other links owe nothing, a permit is its own. */
  ghost predicate OwnPermit(s: State, n: nat) {
    && s.caller == Connecting(n) && n == |s.links| - 1
    && (s.permit ==> s.links[n].connack)
    && (forall k: nat | Owes(s, k) :: k == n)
  }

  lemma OwnPermitStays(s: State, n: nat, step: Step)
    requires OwnPermit(s, n) && Enabled(s, step) && !step.ConnectReturns? && !step.Abandon?
    ensures OwnPermit(Next(s, step), n) && Next(s, step).told == s.told
  {
    assert step.Connack? ==> Owes(s, step.link);
    assert forall k: nat | Owes(Next(s, step), k) :: Owes(s, k);
  }

  /** From there on, that `connect` does not return before its own CONNACK was handled. */
  lemma {:induction false} OwnPermitNotMisled(s: State, n: nat, before: State, steps: seq<Step>)
    requires IsRun(s, steps) && OwnPermit(s, n) && n == |before.links| && s.told == before.told
    ensures !Misled(After(s, steps), before)
    decreases |steps|
  {
    if steps != [] {
      var t := Next(s, steps[0]);
      if steps[0].ConnectReturns? {
        LaterEntries(t, steps[1..]);
      } else if steps[0].Abandon? {
        OtherLinks(t, n, steps[1..]);
      } else {
        OwnPermitStays(s, n, steps[0]);
        OwnPermitNotMisled(t, n, before, steps[1..]);
      }
    }
  }

  lemma {:induction false} LaterEntries(s: State, steps: seq<Step>)
    requires IsRun(s, steps)
    ensures s.told <= After(s, steps).told
    decreases |steps|
  {
    if steps != [] {
      LaterEntries(Next(s, steps[0]), steps[1..]);
    }
  }

  /** No later `connect` makes an earlier link. */
  lemma {:induction false} OtherLinks(s: State, n: nat, steps: seq<Step>)
    requires IsRun(s, steps) && n < |s.links| && (s.caller.Connecting? ==> s.caller.link > n)
    ensures var t := After(s, steps).told;
            |s.told| <= |t| && forall i | |s.told| <= i < |t| :: t[i].0 > n
    decreases |steps|
  {
    if steps != [] {
      OtherLinks(Next(s, steps[0]), n, steps[1..]);
      LaterEntries(Next(s, steps[0]), steps[1..]);
    }
  }

  lemma ReturnsMisled(t: State, s: State) returns (steps: seq<Step>)
    requires t.caller == Connecting(|s.links|) && |t.links| == |s.links| + 1 && !t.links[|s.links|].connack
    requires t.permit && t.told == s.told
    ensures IsRun(t, steps) && Misled(After(t, steps), s)
  {
    steps := [ConnectReturns];
    assert steps[1..] == [];
  }

  /** A late CONNACK on an older link gives the permit. */
  lemma LateConnack(t: State, k: nat) returns (steps: seq<Step>)
    requires Owes(t, k)
    ensures IsRun(t, steps) && After(t, steps).permit && After(t, steps).caller == t.caller
    ensures After(t, steps).told == t.told && |After(t, steps).links| == |t.links|
    ensures forall j | 0 <= j < |t.links| && j != k :: After(t, steps).links[j] == t.links[j]
  {
    if t.links[k].hello {
      steps := [Connack(k)];
      RunPrepend(t, Connack(k), []);
    } else {
      var u := Next(t, Hello(k));
      RunPrepend(u, Connack(k), []);
      RunPrepend(t, Hello(k), [Connack(k)]);
      steps := [Hello(k)] + [Connack(k)];
    }
  }

  lemma {:induction false} RunConcat(s: State, a: seq<Step>, b: seq<Step>)
    requires IsRun(s, a) && IsRun(After(s, a), b)
    ensures IsRun(s, a + b) && After(s, a + b) == After(After(s, a), b)
    decreases |a|
  {
    if a == [] {
      assert a + b == b;
    } else {
      assert (a + b)[1..] == a[1..] + b;
      RunConcat(Next(s, a[0]), a[1..], b);
    }
  }

  /** A `connect` can return Ok before its own CONNACK if and only if a permit is left over or an older
      connection that still runs has not handled its CONNACK. */
  lemma MisledIff(s: State)
    requires s.caller.Free?
    ensures CanBeMisled(s) <==> s.permit || exists k: nat :: Owes(s, k)
  {
    var t := Next(s, Connect(true));
    if s.permit {
      var steps := ReturnsMisled(t, s);
    } else if k: nat :| Owes(s, k) {
      assert Owes(t, k);
      var first := LateConnack(t, k);
      var rest := ReturnsMisled(After(t, first), s);
      RunConcat(t, first, rest);
      assert Misled(After(t, first + rest), s);
    } else {
      assert forall k: nat | Owes(t, k) :: k < |s.links| ==> Owes(s, k);
      forall steps | IsRun(t, steps) ensures !Misled(After(t, steps), s) {
        OwnPermitNotMisled(t, |s.links|, s, steps);
      }
    }
  }

  predicate NeverAbandons(steps: seq<Step>) {
    forall i | 0 <= i < |steps| :: !steps[i].Abandon?
  }

  /** Between calls nothing is left over, and the link that requests go to has handled its CONNACK; within a
      call, only its own link can give a permit. */
  ghost predicate Clean(s: State) {
    && (s.caller.Free? ==> !s.permit && forall k: nat :: !Owes(s, k))
    && (s.caller.Connecting? ==> OwnPermit(s, s.caller.link))
    && (s.stream.Some? ==> s.stream.value < |s.links|)
    && (s.caller.Free? && s.stream.Some? ==> s.links[s.stream.value].connack)
    && (s.caller.Connecting? ==> s.stream == Some(s.caller.link))
    && (forall i | 0 <= i < |s.told| :: s.told[i].1)
    && (forall i | 0 <= i < |s.handed| :: s.handed[i].connack)
  }

  lemma StepKeepsClean(s: State, step: Step)
    requires Clean(s) && Enabled(s, step) && !step.Abandon?
    ensures Clean(Next(s, step))
  {
    var t := Next(s, step);
    assert step.Connack? ==> Owes(s, step.link);
    assert forall k: nat | Owes(t, k) && k < |s.links| :: Owes(s, k);
  }

  lemma {:induction false} RunKeepsClean(s: State, steps: seq<Step>)
    requires Clean(s) && IsRun(s, steps) && NeverAbandons(steps)
    ensures Clean(After(s, steps))
    decreases |steps|
  {
    if steps != [] {
      StepKeepsClean(s, steps[0]);
      RunKeepsClean(Next(s, steps[0]), steps[1..]);
    }
  }

  /** If no `connect` is abandoned, every one of them that returned Ok did so after the CONNACK of its own
      connection, however many there were and whatever became of the older connections. */
  lemma EveryConnectSawItsConnack(steps: seq<Step>, i: nat)
    requires IsRun(NEW_CLIENT, steps) && NeverAbandons(steps) && i < |After(NEW_CLIENT, steps).told|
    ensures After(NEW_CLIENT, steps).told[i].1
  {
    RunKeepsClean(NEW_CLIENT, steps);
  }

  // ---- Which connections get requests ----

  /** CONNACK answers CONNECT; and the link that requests go to, if it has handled none, was made by a
      `connect` that was abandoned, or returned Ok before it. */
  ghost predicate Traced(s: State) {
    && (forall k | 0 <= k < |s.links| && s.links[k].connack :: s.links[k].hello)
    && (s.stream.Some? ==> s.stream.value < |s.links|)
    && (s.caller.Connecting? ==> s.stream == Some(s.caller.link))
    && (s.caller.Free? && s.stream.Some? ==> Excused(s, s.stream.value))
    && (forall i | 0 <= i < |s.handed| :: HandoverTraced(s, s.handed[i]))
  }

  ghost predicate Excused(s: State, k: nat)
    requires k < |s.links|
  {
    s.links[k].connack || k in s.abandoned || (k, false) in s.told
  }

  ghost predicate HandoverTraced(s: State, h: Handover) {
    (h.connack ==> h.hello) && (h.connack || h.link in s.abandoned || (h.link, false) in s.told)
  }

  lemma StepKeepsTraced(s: State, step: Step)
    requires Traced(s) && Enabled(s, step)
    ensures Traced(Next(s, step))
  {
    var t := Next(s, step);
    assert s.told <= t.told && s.abandoned <= t.abandoned;
    forall i | 0 <= i < |t.handed| ensures HandoverTraced(t, t.handed[i]) {
      assert i < |s.handed| ==> HandoverTraced(s, s.handed[i]);
    }
    if step.ConnectReturns? {
      assert t.told[|s.told|] in t.told;
    }
  }

  lemma {:induction false} RunKeepsTraced(s: State, steps: seq<Step>)
    requires Traced(s) && IsRun(s, steps)
    ensures Traced(After(s, steps))
    decreases |steps|
  {
    if steps != [] {
      StepKeepsTraced(s, steps[0]);
      RunKeepsTraced(Next(s, steps[0]), steps[1..]);
    }
  }

  /** In every run a request that was handed to a connection without a handled CONNACK went to one whose
      `connect` was abandoned, or returned Ok for another connection's CONNACK. */
  lemma EarlyRequestIsTraced(steps: seq<Step>, i: nat)
    requires IsRun(NEW_CLIENT, steps) && i < |After(NEW_CLIENT, steps).handed|
    ensures var s := After(NEW_CLIENT, steps); var h := s.handed[i];
            h.connack || h.link in s.abandoned || (h.link, false) in s.told
  {
    RunKeepsTraced(NEW_CLIENT, steps);
    assert HandoverTraced(After(NEW_CLIENT, steps), After(NEW_CLIENT, steps).handed[i]);
  }

  /** If no `connect` is abandoned, every request went to a connection that had sent CONNECT and handled its
      CONNACK. */
  lemma RequestsFollowConnack(steps: seq<Step>, i: nat)
    requires IsRun(NEW_CLIENT, steps) && NeverAbandons(steps) && i < |After(NEW_CLIENT, steps).handed|
    ensures After(NEW_CLIENT, steps).handed[i].connack && After(NEW_CLIENT, steps).handed[i].hello
  {
    RunKeepsClean(NEW_CLIENT, steps);
    RunKeepsTraced(NEW_CLIENT, steps);
    assert HandoverTraced(After(NEW_CLIENT, steps), After(NEW_CLIENT, steps).handed[i]);
  }

  predicate NoConnect(steps: seq<Step>) {
    forall i | 0 <= i < |steps| :: !steps[i].Connect?
  }

  /** Before the next `connect` a request is handed to a connection that has handled no CONNACK. */
  ghost predicate CanHandEarly(s: State) {
    exists steps, i: nat :: IsRun(s, steps) && NoConnect(steps) && EarlyIn(s, After(s, steps), i)
  }

  predicate EarlyIn(s: State, t: State, i: nat) { |s.handed| <= i < |t.handed| && !t.handed[i].connack }

  /** The link that requests go to can never get one early: there is none, or it is gone, or it has handled
      its CONNACK, or the client does not count as connected. */
  predicate InTime(s: State) {
    s.caller.Free?
    && (s.stream.Some? && s.stream.value < |s.links| && s.links[s.stream.value].alive && s.connected ==>
          s.links[s.stream.value].connack)
  }

  lemma {:induction false} InTimeStays(s: State, steps: seq<Step>, i: nat)
    requires InTime(s) && IsRun(s, steps) && NoConnect(steps)
    ensures !EarlyIn(s, After(s, steps), i) && s.handed <= After(s, steps).handed
    decreases |steps|
  {
    if steps != [] {
      var t := Next(s, steps[0]);
      InTimeStays(t, steps[1..], i);
    }
  }

  /** Between calls, and before the next `connect`, a request can be handed to a connection that has handled no
      CONNACK exactly if the client counts as connected and the newest connection runs and has handled none. */
  lemma HandEarlyIff(s: State)
    requires s.caller.Free?
    ensures CanHandEarly(s)
       <==> s.connected && s.stream.Some? && Owes(s, s.stream.value)
  {
    if s.connected && s.stream.Some? && Owes(s, s.stream.value) {
      var steps := [Hand];
      assert steps[1..] == [];
      assert IsRun(s, steps) && EarlyIn(s, After(s, steps), |s.handed|);
    } else {
      assert InTime(s);
      forall steps, i: nat | IsRun(s, steps) && NoConnect(steps) ensures !EarlyIn(s, After(s, steps), i) {
        InTimeStays(s, steps, i);
      }
    }
  }

  /** And that does happen: a first `connect` succeeds, a second is abandoned at once, and the next request goes
      to a connection that has not even sent CONNECT. */
  lemma RequestBeforeConnect() returns (steps: seq<Step>)
    ensures IsRun(NEW_CLIENT, steps) && After(NEW_CLIENT, steps).handed == [Handover(1, false, false)]
  {
    var s1 := Next(NEW_CLIENT, Connect(true));
    var s2 := Next(s1, Hello(0));
    var s3 := Next(s2, Connack(0));
    var s4 := Next(s3, ConnectReturns);
    var s5 := Next(s4, Connect(true));
    var s6 := Next(s5, Abandon);
    steps := [Hand];
    RunPrepend(s6, Hand, []);
    RunPrepend(s5, Abandon, steps);
    steps := [Abandon] + steps;
    RunPrepend(s4, Connect(true), steps);
    steps := [Connect(true)] + steps;
    RunPrepend(s3, ConnectReturns, steps);
    steps := [ConnectReturns] + steps;
    RunPrepend(s2, Connack(0), steps);
    steps := [Connack(0)] + steps;
    RunPrepend(s1, Hello(0), steps);
    steps := [Hello(0)] + steps;
    RunPrepend(NEW_CLIENT, Connect(true), steps);
    steps := [Connect(true)] + steps;
  }
}
