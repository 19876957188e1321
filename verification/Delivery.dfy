/** The way out: what the connection tasks send reaches the SCION socket, none of it lost or overtaken. */
module Delivery {
  import opened Net
  import opened Outbound
  import opened Manager
  import opened Safety

  /** The messages of one task, in order. */
  function Of(ps: seq<Pending>, id: nat): seq<UdpPacket> {
    if ps == [] then []
    else
      var p := ps[|ps| - 1];
      Of(ps[..|ps| - 1], id) + (if p.sender == Some(id) then [p.msg] else [])
  }

  lemma OfSnoc(ps: seq<Pending>, p: Pending, id: nat)
    ensures Of(ps + [p], id) == Of(ps, id) + (if p.sender == Some(id) then [p.msg] else [])
  {
    assert (ps + [p])[..|ps|] == ps;
  }

  lemma {:induction false} OfConcat(a: seq<Pending>, b: seq<Pending>, id: nat)
    ensures Of(a + b, id) == Of(a, id) + Of(b, id)
    decreases |b|
  {
    if b == [] {
      assert a + b == a;
    } else {
      var n := |b| - 1;
      assert (a + b)[..|a + b| - 1] == a + b[..n];
      OfConcat(a, b[..n], id);
    }
  }

  lemma {:induction false} OfNobody(ps: seq<Pending>, id: nat)
    requires forall i | 0 <= i < |ps| :: ps[i].sender != Some(id)
    ensures Of(ps, id) == []
  {
    if ps != [] {
      OfNobody(ps[..|ps| - 1], id);
    }
  }

  lemma OfThree(a: seq<Pending>, p: Pending, b: seq<Pending>, id: nat)
    ensures Of(a + [p] + b, id) == Of(a, id) + (if p.sender == Some(id) then [p.msg] else []) + Of(b, id)
  {
    OfConcat(a + [p], b, id);
    OfSnoc(a, p, id);
  }

  /** In a line where every task stands once at most, taking out one place takes out that task's message. */
  lemma OfWithout(a: seq<Pending>, p: Pending, b: seq<Pending>, id: nat)
    requires forall i | 0 <= i < |a| :: a[i].sender != p.sender
    requires forall i | 0 <= i < |b| :: b[i].sender != p.sender
    ensures Of(a + [p] + b, id) == if p.sender == Some(id) then [p.msg] else Of(a + b, id)
    ensures p.sender == Some(id) ==> Of(a + b, id) == []
  {
    OfThree(a, p, b, id);
    OfConcat(a, b, id);
    if p.sender == Some(id) {
      OfNobody(a, id);
      OfNobody(b, id);
    } else {
      assert Of(a, id) + [] == Of(a, id);
    }
  }

  /** The packets of a task on the socket, in the queue, and in line, one after the other. */
  function Underway<K>(s: State<K>, id: nat): seq<UdpPacket> {
    Of(s.socket, id) + Of(s.out.queue, id) + Of(s.out.line, id)
  }

  ghost predicate AllUnderway<K>(s: State<K>) {
    forall id | 0 <= id < |s.tasks| :: Underway(s, id) == s.tasks[id].offered
  }

  ghost predicate NobodyUnborn<K>(s: State<K>) {
    && (forall i | 0 <= i < |s.out.queue| && s.out.queue[i].sender.Some? :: s.out.queue[i].sender.value < |s.tasks|)
    && (forall i | 0 <= i < |s.socket| && s.socket[i].sender.Some? :: s.socket[i].sender.value < |s.tasks|)
  }

  ghost predicate DeliveryInv<K>(s: State<K>) { AllUnderway(s) && NobodyUnborn(s) }

  lemma OfCons(p: Pending, ps: seq<Pending>, id: nat)
    ensures Of([p] + ps, id) == (if p.sender == Some(id) then [p.msg] else []) + Of(ps, id)
  {
    OfConcat([p], ps, id);
    assert [p][..0] == [];
  }

  lemma ForwardKeepsUnderway<K>(s: State<K>, id: nat)
    requires Enabled(s, MainForward)
    ensures Underway(Next(s, MainForward), id) == Underway(s, id)
  {
    var q := s.out.queue;
    assert q == [q[0]] + q[1..];
    OfCons(q[0], q[1..], id);
    OfSnoc(s.socket, q[0], id);
    ThreeParts(Of(s.socket, id), if q[0].sender == Some(id) then [q[0].msg] else [], Of(q[1..], id));
  }

  /** A message that moves from the line to the queue stays where it was among its sender's messages. */
  lemma ResumeMoves(c: Channel, i: nat, id: nat)
    requires c.Valid() && i < c.granted
    ensures var c' := Resume(c, i); Of(c'.queue, id) + Of(c'.line, id) == Of(c.queue, id) + Of(c.line, id)
  {
    var p := c.line[i];
    OfSnoc(c.queue, p, id);
    assert c.line == c.line[..i] + [p] + c.line[i + 1..];
    OfWithout(c.line[..i], p, c.line[i + 1..], id);
    ThreeParts(Of(c.queue, id), if p.sender == Some(id) then [p.msg] else [], Of(Resume(c, i).line, id));
  }

  lemma ResumeKeepsUnderway<K>(s: State<K>, i: nat, id: nat)
    requires s.out.Valid() && Enabled(s, TaskResume(i))
    ensures Underway(Next(s, TaskResume(i)), id) == Underway(s, id)
  {
    ResumeMoves(s.out, i, id);
    var c' := Resume(s.out, i);
    ThreeParts(Of(s.socket, id), Of(c'.queue, id), Of(c'.line, id));
    ThreeParts(Of(s.socket, id), Of(s.out.queue, id), Of(s.out.line, id));
  }

  /** A packet sent goes to the end of the queue, or, if that is full, to the end of the line. */
  lemma SendAppends(c: Channel, p: Pending, id: nat)
    requires p.sender.Some? && !c.InLine(p.sender.value)
    ensures var c' := Send(c, p);
            Of(c'.queue, id) + Of(c'.line, id)
            == Of(c.queue, id) + Of(c.line, id) + (if p.sender == Some(id) then [p.msg] else [])
  {
    var q, l, m := Of(c.queue, id), Of(c.line, id), if p.sender == Some(id) then [p.msg] else [];
    if m != [] {
      OfNobody(c.line, id);
    }
    OneIsEmpty(q, l, m);
    if c.HasFreeSlot() {
      OfSnoc(c.queue, p, id);
    } else {
      OfSnoc(c.line, p, id);
    }
  }

  lemma OneIsEmpty<T>(q: seq<T>, l: seq<T>, m: seq<T>)
    requires l == [] || m == []
    ensures q + l + m == q + m + l == q + (l + m)
  {
  }

  lemma SendGoesUnderway<K>(s: State<K>, id: nat, pkt: UdpPacket, other: nat)
    requires Enabled(s, TaskSend(id, pkt))
    ensures Underway(Next(s, TaskSend(id, pkt)), other) == Underway(s, other) + (if other == id then [pkt] else [])
  {
    SendAppends(s.out, Pending(Some(id), pkt), other);
    var c' := Send(s.out, Pending(Some(id), pkt));
    ThreeParts(Of(s.socket, other), Of(c'.queue, other), Of(c'.line, other));
    ThreeParts(Of(s.socket, other), Of(s.out.queue, other), Of(s.out.line, other));
  }

  lemma ThreeParts<T>(a: seq<T>, b: seq<T>, c: seq<T>)
    ensures a + b + c == a + (b + c)
  {
  }

  /** Steps that leave the way out alone, or only add the main loop's own answers to it. */
  lemma OthersKeepUnderway<K>(s: State<K>, step: Step<K>, id: nat)
    requires Enabled(s, step) && !step.MainForward? && !step.TaskResume? && !step.TaskSend?
    ensures Underway(Next(s, step), id) == Underway(s, id)
    ensures Next(s, step).socket == s.socket
  {
    if step.MainDecide? && step.decision.Reply? {
      OfSnoc(s.out.queue, Pending(None, step.decision.packet), id);
    }
  }

  lemma OfferedGrowsBySend<K>(s: State<K>, step: Step<K>, id: nat)
    requires Enabled(s, step) && id < |Next(s, step).tasks|
    ensures Next(s, step).tasks[id].offered
         == if id >= |s.tasks| then []
            else s.tasks[id].offered + (if step.TaskSend? && step.id == id then [step.pkt] else [])
  {
    if id < |s.tasks| {
      assert s.tasks[id].offered + [] == s.tasks[id].offered;
    }
  }

  lemma NobodyStaysUnborn<K>(s: State<K>, step: Step<K>)
    requires ChannelsBounded(s) && NobodyUnborn(s) && Enabled(s, step)
    ensures NobodyUnborn(Next(s, step))
  {
  }

  lemma UnbornHasNothing<K>(s: State<K>, id: nat)
    requires Invariant(s) && NobodyUnborn(s) && id >= |s.tasks|
    ensures Underway(s, id) == []
  {
    OfNobody(s.socket, id);
    OfNobody(s.out.queue, id);
    OfNobody(s.out.line, id);
  }

  lemma StepKeepsDelivery<K>(s: State<K>, step: Step<K>)
    requires Invariant(s) && DeliveryInv(s) && Enabled(s, step)
    ensures DeliveryInv(Next(s, step))
  {
    var s' := Next(s, step);
    NobodyStaysUnborn(s, step);
    forall id | 0 <= id < |s'.tasks| ensures Underway(s', id) == s'.tasks[id].offered {
      OfferedGrowsBySend(s, step, id);
      if id >= |s.tasks| {
        UnbornHasNothing(s, id);
      }
      match step {
        case MainForward => ForwardKeepsUnderway(s, id);
        case TaskResume(i) => ResumeKeepsUnderway(s, i, id);
        case TaskSend(from, pkt) => SendGoesUnderway(s, from, pkt, id);
        case _ => OthersKeepUnderway(s, step, id);
      }
    }
  }

  lemma {:induction false} RunKeepsDelivery<K>(s: State<K>, steps: seq<Step<K>>)
    requires Invariant(s) && DeliveryInv(s) && IsRun(s, steps)
    ensures DeliveryInv(After(s, steps))
    decreases |steps|
  {
    if steps != [] {
      StepKeepsInvariant(s, steps[0]);
      StepKeepsDelivery(s, steps[0]);
      RunKeepsDelivery(Next(s, steps[0]), steps[1..]);
    }
  }

  /** In every run, everything a task ever sent is on the socket, in the queue or in line, each packet
      once and in the order it was sent: a full channel makes a task wait, it never costs a packet. */
  lemma NothingLostOnTheWayOut<K(!new)>(s: State<K>, id: nat)
    requires Reachable(s) && id < |s.tasks|
    ensures Of(s.socket, id) + Of(s.out.queue, id) + Of(s.out.line, id) == s.tasks[id].offered
    ensures Of(s.socket, id) <= s.tasks[id].offered
  {
    var steps :| IsRun(Initial(), steps) && After(Initial(), steps) == s;
    InvariantInitially<K>();
    RunKeepsDelivery(Initial(), steps);
    assert Underway(s, id) == s.tasks[id].offered;
  }
}
