/** The address-validation token of the stateless Retry (RFC 9000 section 8.1.2): minting,
    validating, and exactly which (address, id) pairs a token can stand for. */
module Token {
  import opened Net

  const HMAC_TAG_LEN: nat := 32

  type Tag = s: Bytes | |s| == HMAC_TAG_LEN witness seq(HMAC_TAG_LEN, i => 0)

  /** HMAC-SHA256 under one key: any function from messages to 32-byte tags. */
  type Mac = Bytes -> Tag

  /** "mqtt-rust-scion" */
  const TOKEN_PREFIX: Bytes := [109, 113, 116, 116, 45, 114, 117, 115, 116, 45, 115, 99, 105, 111, 110]

  /** The part of a token that the tag covers. */
  function TaggedData(ip: IpAddr, dcid: Bytes): Bytes {
    TOKEN_PREFIX + ip.Octets() + dcid
  }

  function Minted(key: Mac, ip: IpAddr, dcid: Bytes): Bytes {
    TaggedData(ip, dcid) + key(TaggedData(ip, dcid))
  }

  method MintToken(key: Mac, dcid: Bytes, src: SocketAddr) returns (token: Bytes)
    ensures token == Minted(key, src.ip, dcid)
    ensures ValidateToken(key, src, token) == Some(dcid)
    ensures var data: Bytes := [109, 113, 116, 116, 45, 114, 117, 115, 116, 45, 115, 99, 105, 111, 110]
                               + (match src.ip case V4(a) => a case V6(a) => a) + dcid;
            token == data + key(data) && |token| == |data| + 32
  {
    token := [];
    token := token + TOKEN_PREFIX;
    var addr := src.ip.Octets();
    token := token + addr;
    token := token + dcid;
    var tag := key(token);
    assert token == TaggedData(src.ip, dcid);
    token := token + tag;
    MintedValidates(key, src, dcid);
  }

  function ValidateToken(key: Mac, src: SocketAddr, token: Bytes): Option<Bytes> {
    if |token| < |TOKEN_PREFIX| then None
    else if token[..|TOKEN_PREFIX|] != TOKEN_PREFIX then None
    else
      var addr := src.ip.Octets();
      if |token[|TOKEN_PREFIX|..]| < |addr|
         || token[|TOKEN_PREFIX|..|TOKEN_PREFIX| + |addr|] != addr then None
      else if |token| < |TOKEN_PREFIX| + |addr| + HMAC_TAG_LEN then None
      else
        var data, tag := token[..|token| - HMAC_TAG_LEN], token[|token| - HMAC_TAG_LEN..];
        if key(data) != tag then None
        else Some(token[|TOKEN_PREFIX| + |addr|..|token| - HMAC_TAG_LEN])
  }

  lemma MintedValidates(key: Mac, src: SocketAddr, dcid: Bytes)
    ensures ValidateToken(key, src, Minted(key, src.ip, dcid)) == Some(dcid)
  {
    var token, addr := Minted(key, src.ip, dcid), src.ip.Octets();
    var data := TaggedData(src.ip, dcid);
    assert token[..|TOKEN_PREFIX|] == TOKEN_PREFIX;
    assert token[|TOKEN_PREFIX|..|TOKEN_PREFIX| + |addr|] == addr;
    assert token[..|token| - HMAC_TAG_LEN] == data;
    assert token[|token| - HMAC_TAG_LEN..] == key(data);
    assert token[|TOKEN_PREFIX| + |addr|..|token| - HMAC_TAG_LEN] == dcid;
  }

  lemma ValidatedWasMinted(key: Mac, src: SocketAddr, token: Bytes)
    requires ValidateToken(key, src, token).Some?
    ensures token == Minted(key, src.ip, ValidateToken(key, src, token).value)
  {
    var addr, d := src.ip.Octets(), ValidateToken(key, src, token).value;
    var data := token[..|token| - HMAC_TAG_LEN];
    assert data == token[..|TOKEN_PREFIX|] + token[|TOKEN_PREFIX|..|TOKEN_PREFIX| + |addr|] + d;
    assert token == data + token[|token| - HMAC_TAG_LEN..];
  }

  /** Validation is the exact inverse of minting: for every byte string, every id length and both
      address families. */
  lemma ValidateInvertsMint(key: Mac, src: SocketAddr, token: Bytes, dcid: Bytes)
    ensures ValidateToken(key, src, token) == Some(dcid) <==> token == Minted(key, src.ip, dcid)
  {
    MintedValidates(key, src, dcid);
    if ValidateToken(key, src, token).Some? {
      ValidatedWasMinted(key, src, token);
    }
  }

  /** The port of the source never matters, the IP address always does: a token that two sources of one
      family both accept names one address. */
  lemma ValidationBindsIpNotPort(key: Mac, a: SocketAddr, b: SocketAddr, token: Bytes)
    requires a.ip.V4? == b.ip.V4?
    requires ValidateToken(key, a, token).Some?
    ensures ValidateToken(key, b, token).Some? <==> a.ip == b.ip
    ensures a.ip == b.ip ==> ValidateToken(key, a, token) == ValidateToken(key, b, token)
  {
    ValidatedWasMinted(key, a, token);
    if ValidateToken(key, b, token).Some? {
      ValidatedWasMinted(key, b, token);
      SameFamilyInjective(key, a.ip, ValidateToken(key, a, token).value, b.ip, ValidateToken(key, b, token).value);
    }
  }

  lemma TaggedDataInjective(a: IpAddr, da: Bytes, b: IpAddr, db: Bytes)
    requires a.V4? == b.V4?
    requires TaggedData(a, da) == TaggedData(b, db)
    ensures a == b && da == db
  {
    var p, n := |TOKEN_PREFIX|, |a.Octets()|;
    assert a.Octets() == TaggedData(a, da)[p..p + n] == b.Octets();
    assert da == TaggedData(a, da)[p + n..] == db;
  }

  /** Within one address family a token determines the tagged data, the address and the id. */
  lemma SameFamilyInjective(key: Mac, a: IpAddr, da: Bytes, b: IpAddr, db: Bytes)
    requires a.V4? == b.V4?
    ensures Minted(key, a, da) == Minted(key, b, db) <==> a == b && da == db
  {
    if Minted(key, a, da) == Minted(key, b, db) {
      TokenDeterminesData(key, a, da, b, db);
      TaggedDataInjective(a, da, b, db);
    }
  }

  lemma TokenDeterminesData(key: Mac, a: IpAddr, da: Bytes, b: IpAddr, db: Bytes)
    ensures Minted(key, a, da) == Minted(key, b, db) <==> TaggedData(a, da) == TaggedData(b, db)
  {
    var ta, tb := Minted(key, a, da), Minted(key, b, db);
    assert TaggedData(a, da) == ta[..|ta| - HMAC_TAG_LEN];
    assert TaggedData(b, db) == tb[..|tb| - HMAC_TAG_LEN];
  }

  /** Across families the layout is ambiguous in exactly one way: the IPv6 octets are the IPv4 octets
      followed by the first 12 bytes of the IPv4 id, and the IPv6 id is what is left of it. */
  lemma CrossFamilyAmbiguity(a: Octets4, d4: Bytes, b: Octets16, d6: Bytes)
    ensures TaggedData(V4(a), d4) == TaggedData(V6(b), d6)
       <==> |d4| >= 12 && b == a + d4[..12] && d6 == d4[12..]
  {
    var p, x, y := |TOKEN_PREFIX|, a + d4, b + d6;
    assert TaggedData(V4(a), d4) == TOKEN_PREFIX + x && TaggedData(V6(b), d6) == TOKEN_PREFIX + y;
    assert (TOKEN_PREFIX + x)[p..] == x && (TOKEN_PREFIX + y)[p..] == y;
    AddressOverlap(a, d4, b, d6);
  }

  lemma AddressOverlap(a: Octets4, d4: Bytes, b: Octets16, d6: Bytes)
    ensures a + d4 == b + d6 <==> |d4| >= 12 && b == a + d4[..12] && d6 == d4[12..]
  {
    if a + d4 == b + d6 {
      assert |a + d4| >= 16;
      assert b == (a + d4)[..16] == a + d4[..12];
      assert d6 == (a + d4)[16..] == d4[12..];
    }
  }

  /** The one overlap of an IPv4 address and id with an IPv6 address and id. */
  predicate Overlap(a: IpAddr, da: Bytes, b: IpAddr, db: Bytes) {
    a.V4? && b.V6? && |da| >= 12 && b.v6 == a.v4 + da[..12] && db == da[12..]
  }

  /** Whatever the families, equal tagged data mean the same address and id, or that overlap. */
  lemma TaggedDataMeaning(a: IpAddr, da: Bytes, b: IpAddr, db: Bytes)
    ensures TaggedData(a, da) == TaggedData(b, db)
       <==> (a == b && da == db) || Overlap(a, da, b, db) || Overlap(b, db, a, da)
  {
    match (a, b) {
      case (V4(x), V6(y)) => CrossFamilyAmbiguity(x, da, y, db);
      case (V6(y), V4(x)) => CrossFamilyAmbiguity(x, db, y, da);
      case _ =>
        if TaggedData(a, da) == TaggedData(b, db) {
          TaggedDataInjective(a, da, b, db);
        }
    }
  }

  /** So a token minted for an IPv4 source is accepted from an IPv6 source under exactly that
      condition, and then for the shortened id. */
  lemma CrossFamilyValidation(key: Mac, a: Octets4, d4: Bytes, b: Octets16, port: nat)
    ensures ValidateToken(key, SocketAddr(V6(b), port), Minted(key, V4(a), d4))
         == if |d4| >= 12 && b == a + d4[..12] then Some(d4[12..]) else None
  {
    var src, token := SocketAddr(V6(b), port), Minted(key, V4(a), d4);
    if ValidateToken(key, src, token).Some? {
      ValidatedWasMinted(key, src, token);
      var d6 := ValidateToken(key, src, token).value;
      TokenDeterminesData(key, V4(a), d4, V6(b), d6);
      CrossFamilyAmbiguity(a, d4, b, d6);
    } else if |d4| >= 12 && b == a + d4[..12] {
      CrossFamilyAmbiguity(a, d4, b, d4[12..]);
      MintedValidates(key, src, d4[12..]);
    }
  }
}
