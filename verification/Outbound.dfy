/** The bounded channel from the connection tasks to the main loop.  A sender that finds no free slot
    joins a first-come-first-served line; a slot freed by the receiver is handed to the head of the
    line, which then still has to run in order to put its message in. */
module Outbound {
  import opened Net

  const MAIN_CHANNEL_CAPACITY: nat := 10000

  /** A message with the task that sent it, or none for the main loop's own. */
  datatype Pending = Pending(sender: Option<nat>, msg: UdpPacket)

  /** The first `granted` members of the line own a slot each; the others wait. */
  datatype Channel = Channel(queue: seq<Pending>, line: seq<Pending>, granted: nat) {
    predicate HasFreeSlot() {
      |queue| + granted < MAIN_CHANNEL_CAPACITY
    }

    ghost predicate Valid() {
      && granted <= |line|
      && |queue| + granted <= MAIN_CHANNEL_CAPACITY
      && (granted < |line| ==> !HasFreeSlot())
      && (forall i, j | 0 <= i < j < |line| :: line[i].sender != line[j].sender)
    }

    predicate InLine(sender: nat) {
      exists i | 0 <= i < |line| :: line[i].sender == Some(sender)
    }

    predicate Waits(p: Pending, position: nat) {
      granted + position < |line| && line[granted + position] == p
    }

    ghost predicate Admitted(p: Pending) {
      exists i | 0 <= i < |line| && i < granted :: line[i] == p
    }
  }

  const EMPTY_CHANNEL := Channel([], [], 0)

  function TrySend(c: Channel, m: UdpPacket): (r: Channel)
    ensures c.Valid() ==> r.Valid()
  {
    if c.HasFreeSlot() then c.(queue := c.queue + [Pending(None, m)]) else c
  }

  function Send(c: Channel, p: Pending): (r: Channel)
    ensures c.Valid() && p.sender.Some? && !c.InLine(p.sender.value) ==> r.Valid()
  {
    if c.HasFreeSlot() then c.(queue := c.queue + [p]) else c.(line := c.line + [p])
  }

  function Resume(c: Channel, i: nat): (r: Channel)
    requires i < c.granted && i < |c.line|
    ensures c.Valid() ==> r.Valid()
  {
    Channel(c.queue + [c.line[i]], c.line[..i] + c.line[i + 1..], c.granted - 1)
  }

  function Receive(c: Channel): (r: Channel)
    requires c.queue != []
    ensures c.Valid() ==> r.Valid()
  {
    Channel(c.queue[1..], c.line, if c.granted < |c.line| then c.granted + 1 else c.granted)
  }

  /** Only the receiver moves the line: a waiter keeps its position whatever the senders do, and each
      message received brings it one place forward or, from the front, a slot. */
  lemma PositionAfterReceive(c: Channel, p: Pending, i: nat)
    requires c.queue != [] && c.Waits(p, i)
    ensures i > 0 ==> Receive(c).Waits(p, i - 1)
    ensures i == 0 ==> Receive(c).Admitted(p)
  {
    if i == 0 {
      assert Receive(c).line[c.granted] == p;
    }
  }

  lemma PositionAfterOthers(c: Channel, p: Pending, i: nat, m: UdpPacket, q: Pending, j: nat)
    requires c.Waits(p, i)
    ensures TrySend(c, m).Waits(p, i)
    ensures Send(c, q).Waits(p, i)
    ensures j < c.granted ==> Resume(c, j).Waits(p, i)
  {
  }
}
