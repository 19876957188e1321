/** Values shared by every part of the model: bytes, addresses and the packets that travel
    between the main loop, the tasks and the sockets. */
module Net {
  newtype byte = x: int | 0 <= x < 256

  type Bytes = seq<byte>

  datatype Option<+T> = None | Some(value: T)

  type Octets4 = s: Bytes | |s| == 4 witness [0, 0, 0, 0]

  type Octets16 = s: Bytes | |s| == 16 witness seq(16, i => 0)

  datatype IpAddr = V4(v4: Octets4) | V6(v6: Octets16) {
    function Octets(): Bytes {
      match this
      case V4(a) => a
      case V6(a) => a
    }
  }

  datatype SocketAddr = SocketAddr(ip: IpAddr, port: nat)

  /** A SCION address.  Only a host address has an IP part; a service address has none. */
  datatype ScionAddr = ScionAddr(isdAsn: nat, host: Option<SocketAddr>)

  datatype UdpPacket = UdpPacket(src: ScionAddr, dst: ScionAddr, data: Bytes)

  /** The size of every buffer that receives one datagram or one read. */
  const MAX_DATAGRAM_SIZE: nat := 1200

  function Min(a: nat, b: nat): nat { if a < b then a else b }

  /** `a` can be obtained from `b` by deleting elements. */
  predicate IsSubsequence<T(==)>(a: seq<T>, b: seq<T>) {
    if a == [] then true
    else if b == [] then false
    else if a[|a| - 1] == b[|b| - 1] then IsSubsequence(a[..|a| - 1], b[..|b| - 1])
    else IsSubsequence(a, b[..|b| - 1])
  }

  /** Dropping the last element of the longer side is always a legal deletion. */
  lemma {:induction false} SubsequenceSkip<T>(a: seq<T>, b: seq<T>, x: T)
    requires IsSubsequence(a, b)
    ensures IsSubsequence(a, b + [x])
    decreases |b|, 1
  {
    assert (b + [x])[..|b|] == b;
    if a != [] && a[|a| - 1] == x {
      SubsequenceInit(a, b);
    }
  }

  /** A subsequence stays one when its own last element goes. */
  lemma {:induction false} SubsequenceInit<T>(a: seq<T>, b: seq<T>)
    requires a != [] && IsSubsequence(a, b)
    ensures IsSubsequence(a[..|a| - 1], b)
    decreases |b|, 0
  {
    var a', b' := a[..|a| - 1], b[..|b| - 1];
    assert b == b' + [b[|b| - 1]];
    if a[|a| - 1] == b[|b| - 1] {
      SubsequenceSkip(a', b', b[|b| - 1]);
    } else {
      SubsequenceInit(a, b');
      SubsequenceSkip(a', b', b[|b| - 1]);
    }
  }

  lemma SubsequenceKeep<T>(a: seq<T>, b: seq<T>, x: T)
    requires IsSubsequence(a, b)
    ensures IsSubsequence(a + [x], b + [x])
  {
    assert (a + [x])[..|a|] == a && (b + [x])[..|b|] == b;
  }

  lemma {:induction false} SubsequencePrefix<T>(a: seq<T>, b: seq<T>, c: seq<T>)
    requires IsSubsequence(a + b, c)
    ensures IsSubsequence(a, c)
    decreases |b|
  {
    if b == [] {
      assert a + b == a;
    } else {
      SubsequenceInit(a + b, c);
      assert (a + b)[..|a + b| - 1] == a + b[..|b| - 1];
      SubsequencePrefix(a, b[..|b| - 1], c);
    }
  }
}
