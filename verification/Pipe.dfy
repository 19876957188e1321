/** Both ends together: MQTT packets go into stream 0 at the client and come out of the proxy's TCP
    connection to the broker, and the broker's bytes go the other way.  A send on stream 0 takes as much
    as there is room for, and neither end looks at how much that was. */
module Pipe {
  import opened Net
  import opened MqttConnection
  import opened MqttSystem
  import opened MqttSafety
  import Relay = QuicRelay

  /** A buffer offered to a stream and the room there was for it. */
  type Offer = (Bytes, nat)

  function Part(o: Offer): Bytes { o.0[..Min(o.1, |o.0|)] }

  predicate Whole(o: Offer) { |o.0| <= o.1 }

  /** What the stream took. */
  function TakenOf(offers: seq<Offer>): Bytes {
    if offers == [] then [] else TakenOf(offers[..|offers| - 1]) + Part(offers[|offers| - 1])
  }

  /** What was offered. */
  function OfferedOf(offers: seq<Offer>): Bytes {
    if offers == [] then [] else OfferedOf(offers[..|offers| - 1]) + offers[|offers| - 1].0
  }

  predicate AllWhole(offers: seq<Offer>) { forall i | 0 <= i < |offers| :: Whole(offers[i]) }

  lemma {:induction false} TakenLength(offers: seq<Offer>)
    ensures |TakenOf(offers)| <= |OfferedOf(offers)|
    ensures |TakenOf(offers)| == |OfferedOf(offers)| <==> AllWhole(offers)
  {
    if offers != [] {
      var n := |offers| - 1;
      TakenLength(offers[..n]);
      assert AllWhole(offers) <==> AllWhole(offers[..n]) && Whole(offers[n]);
    }
  }

  /** Nothing is lost in the stream if and only if every send found room for its whole buffer. */
  lemma {:induction false} NothingLostIffAllWhole(offers: seq<Offer>)
    ensures TakenOf(offers) == OfferedOf(offers) <==> AllWhole(offers)
  {
    TakenLength(offers);
    if AllWhole(offers) && offers != [] {
      var n := |offers| - 1;
      assert AllWhole(offers[..n]);
      NothingLostIffAllWhole(offers[..n]);
      assert Part(offers[n]) == offers[n].0;
    }
  }

  /** After a send that was cut short, nothing more was taken. */
  predicate Gapless(offers: seq<Offer>) {
    offers == [] ||
    var before := offers[..|offers| - 1];
    Gapless(before) && (Part(offers[|offers| - 1]) == [] || AllWhole(before))
  }

  predicate SameShape(a: seq<Offer>, b: seq<Offer>) {
    |a| == |b| && forall i | 0 <= i < |a| :: |a[i].0| == |b[i].0| && a[i].1 == b[i].1
  }

  lemma {:induction false} GaplessIsPrefix(offers: seq<Offer>)
    requires Gapless(offers)
    ensures TakenOf(offers) <= OfferedOf(offers)
  {
    if offers != [] {
      var n := |offers| - 1;
      GaplessIsPrefix(offers[..n]);
      NothingLostIffAllWhole(offers[..n]);
    }
  }

  lemma {:induction false} GaplessByShape(a: seq<Offer>, b: seq<Offer>)
    requires SameShape(a, b)
    ensures Gapless(a) <==> Gapless(b)
    decreases |a|
  {
    if a != [] {
      var n := |a| - 1;
      GaplessByShape(a[..n], b[..n]);
      AllWholeByShape(a[..n], b[..n]);
    }
  }

  function Zeros(offers: seq<Offer>): (r: seq<Offer>)
    ensures SameShape(offers, r)
  {
    if offers == [] then []
    else
      var n := |offers| - 1;
      Zeros(offers[..n]) + [(seq(|offers[n].0|, _ => 0), offers[n].1)]
  }

  lemma {:induction false} ZerosAreZero(offers: seq<Offer>)
    ensures forall k | 0 <= k < |OfferedOf(Zeros(offers))| :: OfferedOf(Zeros(offers))[k] == 0
  {
    if offers != [] {
      var n := |offers| - 1;
      ZerosAreZero(offers[..n]);
      var z := Zeros(offers);
      assert z[..n] == Zeros(offers[..n]);
    }
  }

  /** A send that places something after one that was cut short: a mark at its front comes out too early. */
  lemma MarkShows(before: seq<Offer>, last: Offer) returns (other: seq<Offer>)
    requires !AllWhole(before) && Part(last) != []
    ensures SameShape(before + [last], other) && !(TakenOf(other) <= OfferedOf(other))
  {
    var z := Zeros(before);
    var mark := ([1] + seq(|last.0| - 1, _ => 0), last.1);
    other := z + [mark];
    assert other[..|z|] == z;
    TakenLength(z);
    ZerosAreZero(before);
    AllWholeByShape(before, z);
    var k := |TakenOf(z)|;
    assert TakenOf(other) == TakenOf(z) + Part(mark) && OfferedOf(other) == OfferedOf(z) + mark.0;
    assert TakenOf(other)[k] == Part(mark)[0] == 1;
    assert OfferedOf(other)[k] == OfferedOf(z)[k] == 0;
  }

  /** Sends to come do not mend a gap. */
  lemma GapStays(o: seq<Offer>, last: Offer)
    requires !(TakenOf(o) <= OfferedOf(o))
    ensures !(TakenOf(o + [last]) <= OfferedOf(o + [last]))
  {
    assert (o + [last])[..|o|] == o;
    TakenLength(o);
    var i :| 0 <= i < |TakenOf(o)| && TakenOf(o)[i] != OfferedOf(o)[i];
    assert TakenOf(o + [last])[i] == TakenOf(o)[i] && OfferedOf(o + [last])[i] == OfferedOf(o)[i];
  }

  /** For a script of sends with a gap there are contents of the same lengths that show it. */
  lemma {:induction false} GapShows(offers: seq<Offer>) returns (other: seq<Offer>)
    requires !Gapless(offers)
    ensures SameShape(offers, other) && !(TakenOf(other) <= OfferedOf(other))
    decreases |offers|
  {
    var n := |offers| - 1;
    assert offers == offers[..n] + [offers[n]];
    if !Gapless(offers[..n]) {
      var o := GapShows(offers[..n]);
      GapStays(o, offers[n]);
      other := o + [offers[n]];
    } else {
      other := MarkShows(offers[..n], offers[n]);
    }
  }

  lemma AllWholeByShape(a: seq<Offer>, b: seq<Offer>)
    requires SameShape(a, b)
    ensures AllWhole(a) <==> AllWhole(b)
  {
    forall i | 0 <= i < |a| ensures Whole(a[i]) <==> Whole(b[i]) {
    }
  }

  /** What the stream took is a prefix of what was offered, for all contents of the given lengths, exactly
      when nothing was taken after a send that was cut short. */
  lemma PrefixIffGapless(offers: seq<Offer>)
    ensures Gapless(offers) <==> forall other | SameShape(offers, other) :: TakenOf(other) <= OfferedOf(other)
  {
    if Gapless(offers) {
      forall other | SameShape(offers, other) ensures TakenOf(other) <= OfferedOf(other) {
        GaplessByShape(offers, other);
        GaplessIsPrefix(other);
      }
    } else {
      var other := GapShows(offers);
    }
  }

  // ---- From the client to the broker ----

  /** The sends behind a client's packets. */
  function Sends(encode: Packet -> Bytes, wire: seq<Wire>): seq<Offer> {
    if wire == [] then []
    else
      var x := wire[|wire| - 1];
      Sends(encode, wire[..|wire| - 1]) + (if x.Out? then [(encode(x.packet), x.room)] else [])
  }

  lemma {:induction false} PlacedIsTaken(encode: Packet -> Bytes, wire: seq<Wire>)
    ensures Placed(encode, wire) == TakenOf(Sends(encode, wire))
  {
    if wire != [] {
      var n := |wire| - 1;
      PlacedIsTaken(encode, wire[..n]);
      if wire[n].Out? {
        var s := Sends(encode, wire[..n]);
        assert (s + [(encode(wire[n].packet), wire[n].room)])[..|s|] == s;
      } else {
        assert Sends(encode, wire) == Sends(encode, wire[..n]);
      }
    }
  }

  lemma {:induction false} FirstSendIsConnect(encode: Packet -> Bytes, wire: seq<Wire>)
    requires wire != [] && IsConnect(wire[0])
    ensures Sends(encode, wire) != [] && Sends(encode, wire)[0] == (encode(ConnectPacket), wire[0].room)
    decreases |wire|
  {
    if |wire| > 1 {
      FirstSendIsConnect(encode, wire[..|wire| - 1]);
    } else {
      assert Sends(encode, wire[..0]) == [];
    }
  }

  lemma {:induction false} OfferedStartsWithFirst(offers: seq<Offer>)
    requires offers != []
    ensures offers[0].0 <= OfferedOf(offers)
    decreases |offers|
  {
    if |offers| > 1 {
      OfferedStartsWithFirst(offers[..|offers| - 1]);
    } else {
      assert OfferedOf(offers[..0]) == [];
    }
  }

  /** QUIC delivers stream 0 in order and without loss: what has become readable at the proxy is a first
      part of what the client's stream took. */
  ghost predicate Delivered(encode: Packet -> Bytes, client: View, start: Relay.View, here: Relay.Setting,
                            turns: seq<Relay.Turn>)
  {
    start.written == [] && Relay.Arrived0(start, here, turns) <= Placed(encode, client.wire)
  }

  /** For every run of the client and every run of the relay, the broker's input is at every moment a
      prefix of what the client's sends placed; and if no send placed anything after one that was cut
      short, it is a prefix of the encoded packets themselves. */
  lemma BrokerInputIsPrefix(encode: Packet -> Bytes, steps: seq<Step>, start: Relay.View,
                            here: Relay.Setting, turns: seq<Relay.Turn>)
    requires IsRun(NEW_SYSTEM, steps)
    requires Delivered(encode, After(NEW_SYSTEM, steps).conn, start, here, turns)
    ensures var wire := After(NEW_SYSTEM, steps).conn.wire;
            var input := Relay.OnTurns(start, here, turns).written;
            && input <= Placed(encode, wire)
            && (Gapless(Sends(encode, wire)) ==> input <= OfferedOf(Sends(encode, wire)))
  {
    var wire := After(NEW_SYSTEM, steps).conn.wire;
    Relay.BrokerGetsPrefix(start, here, turns);
    PlacedIsTaken(encode, wire);
    if Gapless(Sends(encode, wire)) {
      GaplessIsPrefix(Sends(encode, wire));
    }
  }

  /** In particular the broker never reads anything but, first of all, the encoded CONNECT packet. */
  lemma BrokerReadsConnectFirst(encode: Packet -> Bytes, steps: seq<Step>, start: Relay.View,
                                here: Relay.Setting, turns: seq<Relay.Turn>)
    requires IsRun(NEW_SYSTEM, steps)
    requires Delivered(encode, After(NEW_SYSTEM, steps).conn, start, here, turns)
    requires Gapless(Sends(encode, After(NEW_SYSTEM, steps).conn.wire))
    ensures var input, hello := Relay.OnTurns(start, here, turns).written, encode(ConnectPacket);
            input <= hello || hello <= input
  {
    var wire := After(NEW_SYSTEM, steps).conn.wire;
    BrokerInputIsPrefix(encode, steps, start, here, turns);
    ConnectComesFirst(steps);
    if wire != [] {
      FirstSendIsConnect(encode, wire);
      OfferedStartsWithFirst(Sends(encode, wire));
    }
  }

  // ---- From the broker to the client ----

  lemma ToStreamInOneEvent(w: Relay.View, here: Relay.Setting, event: Relay.Event)
    requires !w.ended
    ensures var more := Relay.OfferOf(w, here, event);
            && |more| <= 1
            && Relay.OnEvent(w, here, event).toStream == w.toStream + (if more == [] then [] else Part(more[0]))
  {
    assert w.toStream + [] == w.toStream;
  }

  lemma TurnAddsNothing(w: Relay.View, here: Relay.Setting, turn: Relay.Turn)
    ensures Relay.OnTurn(w, here, turn).toStream == Relay.OnEvent(w, here, turn.event).toStream
  {
    Relay.FlushOnlySends(Relay.OnEvent(w, here, turn.event), here, turn.flush);
  }

  lemma TakenSnoc(offers: seq<Offer>, o: Offer)
    ensures TakenOf(offers + [o]) == TakenOf(offers) + Part(o)
  {
    assert (offers + [o])[..|offers|] == offers;
  }

  lemma {:induction false} ToStreamIsTaken(v: Relay.View, here: Relay.Setting, turns: seq<Relay.Turn>)
    requires v.toStream == []
    ensures Relay.OnTurns(v, here, turns).toStream == TakenOf(Relay.Offers(v, here, turns))
  {
    if turns != [] {
      var before := turns[..|turns| - 1];
      ToStreamIsTaken(v, here, before);
      var w, o := Relay.OnTurns(v, here, before), Relay.Offers(v, here, before);
      var more := Relay.OfferOf(w, here, turns[|turns| - 1].event);
      if more == [] {
        assert o + more == o;
      } else {
        assert more == [more[0]];
        TakenSnoc(o, more[0]);
      }
      if !w.ended {
        ToStreamInOneEvent(w, here, turns[|turns| - 1].event);
        TurnAddsNothing(w, here, turns[|turns| - 1]);
      }
    }
  }

  /** The reads of a script that the relay got to, that found bytes of the broker, and whose send did not fail. */
  function Reads(v: Relay.View, here: Relay.Setting, turns: seq<Relay.Turn>): seq<Relay.Event> {
    if turns == [] then []
    else
      var before, last := turns[..|turns| - 1], turns[|turns| - 1].event;
      Reads(v, here, before)
      + (if !Relay.OnTurns(v, here, before).ended && here.tcp && last.TcpRead? && last.data != [] && last.sendOk
         then [last] else [])
  }

  /** The broker's bytes behind them, one read after the other. */
  function BytesOf(got: seq<Relay.Event>): Bytes
    requires forall i | 0 <= i < |got| :: got[i].TcpRead?
  {
    if got == [] then [] else BytesOf(got[..|got| - 1]) + got[|got| - 1].data
  }

  lemma {:induction false} ReadsAreOffers(v: Relay.View, here: Relay.Setting, turns: seq<Relay.Turn>)
    ensures var got, offers := Reads(v, here, turns), Relay.Offers(v, here, turns);
            && |offers| == |got| && (forall i | 0 <= i < |got| :: got[i].TcpRead?)
            && (forall i | 0 <= i < |got| :: offers[i] == (got[i].data, Min(got[i].room, 1200)))
            && OfferedOf(offers) == BytesOf(got)
  {
    if turns != [] {
      var before := turns[..|turns| - 1];
      ReadsAreOffers(v, here, before);
      var got, offers := Reads(v, here, before), Relay.Offers(v, here, before);
      var more := Relay.OfferOf(Relay.OnTurns(v, here, before), here, turns[|turns| - 1].event);
      if more == [] {
        assert offers + more == offers && Reads(v, here, turns) == got;
      } else {
        var last := turns[|turns| - 1].event;
        assert (offers + more)[..|offers|] == offers && (got + [last])[..|got|] == got;
      }
    }
  }

  /** In every run of the relay, stream 0 towards the client carries the broker's bytes, read after read and
      unchanged, if and only if each read and its send took all there was: what was there fits both the
      buffer of 1200 bytes and the room on the stream.  Of every read it carries a first part in any case. */
  lemma BrokerBytesReachStream(v: Relay.View, here: Relay.Setting, turns: seq<Relay.Turn>)
    requires v.toStream == []
    ensures forall i | 0 <= i < |Reads(v, here, turns)| :: Reads(v, here, turns)[i].TcpRead?
    ensures Relay.OnTurns(v, here, turns).toStream == BytesOf(Reads(v, here, turns))
       <==> forall i | 0 <= i < |Reads(v, here, turns)| ::
              var r := Reads(v, here, turns)[i]; |r.data| <= 1200 && |r.data| <= r.room
  {
    ReadsAreOffers(v, here, turns);
    ToStreamIsTaken(v, here, turns);
    var got, offers := Reads(v, here, turns), Relay.Offers(v, here, turns);
    NothingLostIffAllWhole(offers);
    forall i | 0 <= i < |got|
      ensures Whole(offers[i]) <==> |got[i].data| <= 1200 && |got[i].data| <= got[i].room
    {
    }
  }
}
