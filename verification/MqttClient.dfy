/** The client's calls, in the order of the program: each may be suspended while the connection actor
    runs, and dropped by its caller at any point where it waits. */
module MqttClient {
  import opened Net
  import opened MqttConnection
  import opened MqttSystem
  import opened MqttSafety
  import opened MqttRequests

  /** The connection actor's own steps. */
  predicate ByConnection(step: Step) { step.Take? || step.Datagram? || step.Die? }

  /** What the connection actor makes of a schedule: of the steps offered, those that are its own and
      possible are taken. */
  function Scheduled(s: System, schedule: seq<Step>): (r: System)
    ensures r.caller == s.caller && r.calls == s.calls
    ensures r.returned == s.returned && r.abandoned == s.abandoned && r.got == s.got
  {
    if schedule == [] then s
    else
      var before, last := Scheduled(s, schedule[..|schedule| - 1]), schedule[|schedule| - 1];
      if ByConnection(last) && Enabled(before, last) then Next(before, last) else before
  }

  /** Whatever the connection actor can do by itself is the outcome of a schedule. */
  lemma {:induction false} ScheduledFollows(s: System, steps: seq<Step>)
    requires IsRun(s, steps) && (forall i | 0 <= i < |steps| :: ByConnection(steps[i]))
    ensures Scheduled(s, steps) == After(s, steps)
    decreases |steps|
  {
    if steps != [] {
      var before, last := steps[..|steps| - 1], steps[|steps| - 1];
      assert before + [last] == steps && IsRun(s, before + [last]);
      RunSplit(s, before, last);
      ScheduledFollows(s, before);
    }
  }

  /** Nobody answers a call that has not handed over its request. */
  lemma NotNotifiedYet(steps: seq<Step>)
    requires IsRun(NEW_SYSTEM, steps) && After(NEW_SYSTEM, steps).caller.Handing?
    ensures var s := After(NEW_SYSTEM, steps); s.caller.call !in s.conn.notified
  {
    RunKeepsSound(NEW_SYSTEM, steps);
  }

  /** How a call ends.  `GivenUp` is a call whose future is dropped while it waits. */
  datatype Result = Ok | NotConnected | ConnectionGone | GivenUp

  class Client {
    var s: System
    /** Everything that happened so far. */
    ghost var trace: seq<Step>

    ghost predicate Valid()
      reads this
    {
      IsRun(NEW_SYSTEM, trace) && After(NEW_SYSTEM, trace) == s
    }

    predicate Connected()
      reads this
    {
      !s.caller.Unconnected? && !s.caller.Connecting?
    }

    constructor ()
      ensures Valid() && s == NEW_SYSTEM
    {
      s := NEW_SYSTEM;
      trace := [];
    }

    method Do(step: Step)
      requires Valid() && Enabled(s, step)
      modifies this
      ensures Valid() && s == Next(old(s), step) && trace == old(trace) + [step]
    {
      RunSnoc(NEW_SYSTEM, trace, step);
      trace := trace + [step];
      s := Next(s, step);
    }

    /** The connection actor runs. */
    method Interleave(schedule: seq<Step>)
      requires Valid()
      modifies this
      ensures Valid() && s == Scheduled(old(s), schedule)
    {
      for i := 0 to |schedule|
        invariant Valid() && s == Scheduled(old(s), schedule[..i])
      {
        assert schedule[..i + 1][..i] == schedule[..i];
        if ByConnection(schedule[i]) && Enabled(s, schedule[i]) {
          Do(schedule[i]);
        }
      }
      assert schedule[..|schedule|] == schedule;
    }

    /** Ok exactly if the notification was given by the time the schedule is over, and then its permit is
        used up. */
    method Connect(schedule: seq<Step>) returns (r: Result)
      requires Valid() && s.caller.Unconnected?
      modifies this
      ensures Valid() && r in {Ok, GivenUp} && (r == Ok <==> Connected())
      ensures r == Ok ==> SawConnack(s.conn.wire) && s.caller.Ready?
      ensures r == Ok <==> Scheduled(Next(old(s), Step.Connect), schedule).conn.connack
      ensures !s.conn.connack
    {
      Do(Step.Connect);
      Interleave(schedule);
      if !s.conn.connack {
        return GivenUp;
      }
      Do(ConnectReturns);
      ConnectComesFirst(trace);
      return Ok;
    }

    /** The common course of `subscribe` and `publish`: hand the request over, then wait to be notified.
        The call fails if the connection is gone when there is something to hand over; it is given up if the
        channel is still full when the first schedule is over, or there was no notification in the second. */
    method Perform(request: Request, first: seq<Step>, second: seq<Step>) returns (r: Result)
      requires Valid() && (s.caller.Ready? || !Connected())
      requires request.Publish? ==> request.message.qos == AtLeastOnce
      modifies this
      ensures Valid()
      ensures !old(Connected()) <==> r == NotConnected
      ensures r == NotConnected ==> s == old(s)
      ensures r != NotConnected ==> s.caller.Ready? && s.calls == old(s).calls + [request]
      ensures r != NotConnected ==>
                var called := Scheduled(Next(old(s), Call(request)), first);
                && (r == ConnectionGone <==> !called.alive)
                && (called.alive && called.channel.Some? ==> r == GivenUp)
                && (called.alive && called.channel.None? ==>
                      (r == Ok <==> |old(s).calls| in Scheduled(Next(called, Hand), second).conn.notified))
      ensures r == Ok ==> s.returned == old(s).returned + [|old(s).calls|] && RequestAnswered(s, |old(s).calls|)
      ensures r != Ok ==> s.returned == old(s).returned
      ensures r == GivenUp ==> |old(s).calls| !in s.conn.notified
      ensures s.abandoned == old(s).abandoned + (if r == GivenUp then {|old(s).calls|} else {})
    {
      if !Connected() {
        return NotConnected;
      }
      var call := |s.calls|;
      Do(Call(request));
      Interleave(first);
      if !s.alive {
        Do(HandFails);
        return ConnectionGone;
      }
      if s.channel.Some? {
        NotNotifiedYet(trace);
        Do(Abandon);
        return GivenUp;
      }
      Do(Hand);
      Interleave(second);
      if call !in s.conn.notified {
        Do(Abandon);
        return GivenUp;
      }
      Do(CallReturns);
      OkMeansPacketLeft(trace, call);
      return Ok;
    }

    method Subscribe(topic: string, first: seq<Step>, second: seq<Step>) returns (r: Result)
      requires Valid() && (s.caller.Ready? || !Connected())
      modifies this
      ensures Valid()
      ensures r == NotConnected <==> !old(Connected())
      ensures r != NotConnected ==> s.calls == old(s).calls + [Request.Subscribe(topic)]
      ensures r == Ok ==> SubscribeAnswered(s, |old(s).calls|, topic)
      ensures r == GivenUp ==> |old(s).calls| !in s.conn.notified
    {
      r := Perform(Request.Subscribe(topic), first, second);
    }

    method Publish(topic: string, payload: Bytes, first: seq<Step>, second: seq<Step>) returns (r: Result)
      requires Valid() && (s.caller.Ready? || !Connected())
      modifies this
      ensures Valid()
      ensures r == NotConnected <==> !old(Connected())
      ensures r != NotConnected ==> s.calls == old(s).calls + [Request.Publish(Message(topic, AtLeastOnce, payload))]
      ensures r == Ok ==> PublishAnswered(s, |old(s).calls|, Message(topic, AtLeastOnce, payload))
      ensures r == GivenUp ==> |old(s).calls| !in s.conn.notified
    {
      r := Perform(Request.Publish(Message(topic, AtLeastOnce, payload)), first, second);
    }

    /** The next queued message, if there is one by the time the schedule is over. */
    method Rcv(schedule: seq<Step>) returns (m: Option<Message>)
      requires Valid() && s.caller.Ready?
      modifies this
      ensures Valid() && s.caller.Ready?
      ensures s.got == old(s).got + (if m.Some? then [m.value] else [])
      ensures m.None? ==> s.conn.inbox == []
      ensures m.Some? <==> Scheduled(old(s), schedule).conn.inbox != []
      ensures IsSubsequence(s.got + s.conn.inbox, Published(s.conn.wire))
    {
      Interleave(schedule);
      m := None;
      if s.conn.inbox != [] {
        m := Some(s.conn.inbox[0]);
        Do(Receive);
      }
      MessagesInOrder(trace);
    }
  }
}
