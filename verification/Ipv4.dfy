/** IPv4: the header builder, the input checks with their dispatch, and the transmit queue. */
module Ipv4 {
  import opened NetTypes
  import opened Checksum
  import opened Buffers

  const HEADER_LENGTH: nat := 20
  const MAX_PAYLOAD: nat := 0xFFFF - HEADER_LENGTH
  const ICMP_PROTOCOL: Byte := 1
  const TCP_PROTOCOL: Byte := 6

  datatype Params = Params(src: Ip, dst: Ip, protocol: Byte, data: seq<Byte>)

  /** The header up to the checksum field. */
  function Front(protocol: Byte, dataLen: nat): seq<Byte>
    requires dataLen <= MAX_PAYLOAD
  {
    [0x45, 0] + Write16(HEADER_LENGTH + dataLen) + [0, 0, 0x40, 0x00] + [128, protocol]
  }

  function HeaderChecksum(p: Params): U16
    requires |p.data| <= MAX_PAYLOAD
  {
    InternetChecksum(Front(p.protocol, |p.data|) + [0, 0] + (p.src + p.dst))
  }

  function Header(p: Params): (h: seq<Byte>)
    requires |p.data| <= MAX_PAYLOAD
    ensures |h| == HEADER_LENGTH
  {
    Front(p.protocol, |p.data|) + Write16(HeaderChecksum(p)) + (p.src + p.dst)
  }

  function Packet(p: Params): (b: seq<Byte>)
    requires |p.data| <= MAX_PAYLOAD
    ensures |b| == HEADER_LENGTH + |p.data|
  {
    Header(p) + p.data
  }

  /** Byte by byte through a moving pointer, the checksum patched in at the end. */
  method BuildPacket(p: Params) returns (buf: array<Byte>)
    requires |p.data| <= MAX_PAYLOAD
    ensures fresh(buf) && buf[..] == Packet(p)
  {
    buf := new Byte[HEADER_LENGTH + |p.data|](_ => 0);
    var q := FillFront(buf, p);
    q := Put(buf, q, [0, 0]);
    q := Put(buf, q, p.src);
    q := Put(buf, q, p.dst);
    ghost var front := Front(p.protocol, |p.data|);
    assert buf[..q] == front + [0, 0] + (p.src + p.dst);
    var checksum := NetChecksum(buf[..HEADER_LENGTH]);
    PatchChecksum(buf, q - 10, checksum, front, p.src + p.dst);
    q := Put(buf, q, p.data);
    assert buf[..] == buf[..q];
  }

  method FillFront(buf: array<Byte>, p: Params) returns (q: nat)
    requires |p.data| <= MAX_PAYLOAD && buf.Length == HEADER_LENGTH + |p.data|
    modifies buf
    ensures q == 10 && buf[..q] == Front(p.protocol, |p.data|)
  {
    q := Put(buf, 0, [4 * 16 + HEADER_LENGTH / 4, 0]);
    q := Put(buf, q, Net16(HEADER_LENGTH + |p.data|));
    q := Put(buf, q, [0, 0]);
    q := Put(buf, q, Net16(0x4000));
    q := Put(buf, q, [128, p.protocol]);
  }

  // ----- input -----

  /** Where an arriving packet goes.  `Overrun` marks a TCP packet whose length field is below the header length:
      the code then computes a payload length modulo 2^16 and copies beyond the packet. */
  datatype Dispatch = Dropped | ToIcmp(packet: seq<Byte>) | ToTcp(data: seq<Byte>, src: Ip) | Overrun

  function Ipv4Input(self: Ip, b: seq<Byte>): Dispatch {
    if |b| < HEADER_LENGTH then Dropped
    else if b[0] / 16 != 4 then Dropped
    else
      var headerLen := b[0] % 16 * 4;
      var totalLen := Host16(b[2], b[3]);
      if totalLen > |b| then Dropped
      else if headerLen > |b| then Dropped   // whatever the checksum of the bytes beyond, see the header length test
      else if InternetChecksum(b[..headerLen]) != 0 then Dropped
      else if b[16..20] != self then Dropped
      else if headerLen != HEADER_LENGTH then Dropped
      else if b[9] == ICMP_PROTOCOL then ToIcmp(b[..totalLen])
      else if b[9] == TCP_PROTOCOL then
        if totalLen < headerLen then Overrun else ToTcp(b[headerLen..totalLen], b[12..16])
      else Dropped
  }

  lemma FrontBytes(protocol: Byte, dataLen: nat)
    requires dataLen <= MAX_PAYLOAD
    ensures var f := Front(protocol, dataLen);
            |f| == 10 && f[0] == 0x45 && f[2..4] == Write16(HEADER_LENGTH + dataLen) && f[9] == protocol
  {
  }

  lemma HeaderVerifies(p: Params)
    requires |p.data| <= MAX_PAYLOAD
    ensures InternetChecksum(Header(p)) == 0
  {
    FrontBytes(p.protocol, |p.data|);
    InsertVerifies(Front(p.protocol, |p.data|), p.src + p.dst);
  }

  /** The fields of a built packet, wherever padding puts its end. */
  lemma PacketFields(p: Params, padding: seq<Byte>)
    requires |p.data| <= MAX_PAYLOAD
    ensures var b := Packet(p) + padding;
            b[0] == 0x45 && b[9] == p.protocol && Read16(b[2], b[3]) == HEADER_LENGTH + |p.data| &&
            b[12..16] == p.src && b[16..20] == p.dst && b[..20] == Header(p) &&
            b[20..20 + |p.data|] == p.data && b[..20 + |p.data|] == Packet(p)
  {
    var b := Packet(p) + padding;
    var f := Front(p.protocol, |p.data|);
    FrontBytes(p.protocol, |p.data|);
    var h := Header(p);
    assert b[..20] == h;
    assert h[12..] == p.src + p.dst && h[..10] == f;
    assert b[12..16] == h[12..][..4] && b[16..20] == h[12..][4..];
    assert f[2] == f[2..4][0] && f[3] == f[2..4][1];
  }

  /** The bytes no parameter sets: no service class, no identification, do not fragment, 128 hops. */
  lemma PacketConstants(p: Params, padding: seq<Byte>)
    requires |p.data| <= MAX_PAYLOAD
    ensures var b := Packet(p) + padding;
            b[1] == 0 && b[4] == 0 && b[5] == 0 && b[6] == 0x40 && b[7] == 0 && b[8] == 128
  {
    var b := Packet(p) + padding;
    var f := Front(p.protocol, |p.data|);
    assert b[..20] == Header(p) by { PacketFields(p, padding); }
    assert b[..10] == Header(p)[..10] == f;
    assert f[4..8] == [0, 0, 0x40, 0];
    assert f[4] == f[4..8][0] && f[5] == f[4..8][1] && f[6] == f[4..8][2] && f[7] == f[4..8][3];
  }

  /** Version 4 and five words of header, a length that fits, a verifying header, this host and a known protocol: these
      and nothing else get a packet in, and what is behind the header goes on without its padding. */
  lemma AcceptedIff(self: Ip, b: seq<Byte>)
    ensures var r := Ipv4Input(self, b);
            r != Dropped <==>
            |b| >= 20 && b[0] == 0x45 && Read16(b[2], b[3]) <= |b| && InternetChecksum(b[..20]) == 0 &&
            b[16..20] == self && (b[9] == 1 || b[9] == 6)
    ensures var r := Ipv4Input(self, b);
            r != Dropped ==>
              var total := Read16(b[2], b[3]);
              (b[9] == 1 ==> r == ToIcmp(b[..total])) &&
              (b[9] == 6 ==> if total < 20 then r == Overrun else r == ToTcp(b[20..total], b[12..16]))
  {
    if |b| >= 20 && b[0] / 16 == 4 {
      assert b[0] % 16 * 4 == 20 <==> b[0] == 0x45;
    }
  }

  /** The expected destination of a packet built from `p`. */
  function Delivery(p: Params): Dispatch
    requires |p.data| <= MAX_PAYLOAD
  {
    if p.protocol == ICMP_PROTOCOL then ToIcmp(Packet(p))
    else if p.protocol == TCP_PROTOCOL then ToTcp(p.data, p.src)
    else Dropped
  }

  /** A built packet with any trailing padding passes every check at its destination, and is dropped elsewhere. */
  lemma BuildAcceptRoundTrip(self: Ip, p: Params, padding: seq<Byte>)
    requires |p.data| <= MAX_PAYLOAD
    ensures Ipv4Input(self, Packet(p) + padding) == if self == p.dst then Delivery(p) else Dropped
  {
    var b := Packet(p) + padding;
    PacketFields(p, padding);
    HeaderVerifies(p);
  }

  /** The two values one's complement arithmetic does not tell apart. */
  predicate ZeroFlip(x: U16, y: U16) { (x == 0 && y == ONES) || (x == ONES && y == 0) }

  /** A header with word `k` replaced. */
  function Corrupt(h: seq<Byte>, k: nat, v: seq<Byte>): (c: seq<Byte>)
    requires |h| == HEADER_LENGTH && k < 10 && |v| == 2
    ensures |c| == HEADER_LENGTH && c[2 * k] == v[0] && c[2 * k + 1] == v[1]
    ensures forall i :: 0 <= i < 2 * k || 2 * k + 2 <= i < HEADER_LENGTH ==> c[i] == h[i]
  {
    h[..2 * k] + v + h[2 * k + 2..]
  }

  function WordAt(h: seq<Byte>, k: nat): U16
    requires |h| == HEADER_LENGTH && k < 10
  {
    Read16(h[2 * k], h[2 * k + 1])
  }

  lemma CorruptVerifies(h: seq<Byte>, k: nat, v: seq<Byte>)
    requires |h| == HEADER_LENGTH && k < 10 && |v| == 2
    requires h[0] != 0 && h[8] != 0 && InternetChecksum(h) == 0
    ensures InternetChecksum(Corrupt(h, k, v)) == 0 <==> WordAt(h, k) % ONES == Read16(v[0], v[1]) % ONES
  {
    var pre, w, post := h[..2 * k], h[2 * k..2 * k + 2], h[2 * k + 2..];
    var c := Corrupt(h, k, v);
    assert h == pre + w + post;
    assert c == pre + v + post;
    DetectsIff(pre, w, v, post);
    assert c[0] != 0 || c[8] != 0;
    ZeroSumIff(c);
  }

  lemma SameRemainderIff(x: U16, y: U16)
    ensures x % ONES == y % ONES <==> x == y || ZeroFlip(x, y)
  {
  }

  /** One header word of a built packet changed in transit.  At its destination it is caught exactly unless 0x0000
      became 0xFFFF or the reverse outside the destination address. */
  lemma HeaderCorruptionIff(p: Params, padding: seq<Byte>, k: nat, v: seq<Byte>)
    requires |p.data| <= MAX_PAYLOAD && k < 10 && |v| == 2
    requires p.protocol == ICMP_PROTOCOL || p.protocol == TCP_PROTOCOL
    requires WordAt(Header(p), k) != Read16(v[0], v[1])
    ensures Ipv4Input(p.dst, Corrupt(Header(p), k, v) + (p.data + padding)) == Dropped <==>
            !(k < 8 && ZeroFlip(WordAt(Header(p), k), Read16(v[0], v[1])))
  {
    var h := Header(p);
    PacketFields(p, []);
    HeaderVerifies(p);
    FrontBytes(p.protocol, |p.data|);
    assert h == (Packet(p) + [])[..20];
    assert h[16..20] == p.dst;
    CorruptVerifies(h, k, v);
    SameRemainderIff(WordAt(h, k), Read16(v[0], v[1]));
    var b := Corrupt(h, k, v) + (p.data + padding);
    assert b[..20] == Corrupt(h, k, v);
    if InternetChecksum(b[..20]) != 0 {
      BadHeaderDropped(p.dst, b);
    } else if k >= 8 {
      DestinationHit(p.dst, h, k, v, p.data + padding);
    } else {
      FlipPasses(p.dst, h, k, v, p.data + padding);
    }
  }

  lemma DestinationHit(dst: Ip, h: seq<Byte>, k: nat, v: seq<Byte>, rest: seq<Byte>)
    requires |h| == HEADER_LENGTH && 8 <= k < 10 && |v| == 2
    requires h[16..20] == dst && [h[2 * k], h[2 * k + 1]] != v
    ensures Ipv4Input(dst, Corrupt(h, k, v) + rest) == Dropped
  {
    var b := Corrupt(h, k, v) + rest;
    assert b[16..20][2 * k - 16] == v[0] && b[16..20][2 * k - 15] == v[1];
    assert h[16..20][2 * k - 16] == h[2 * k] && h[16..20][2 * k - 15] == h[2 * k + 1];
    assert b[16..20] != h[16..20];
  }

  lemma FlipPasses(dst: Ip, h: seq<Byte>, k: nat, v: seq<Byte>, rest: seq<Byte>)
    requires |h| == HEADER_LENGTH && k < 8 && |v| == 2
    requires h[0] == 0x45 && h[8] == 128 && (h[9] == ICMP_PROTOCOL || h[9] == TCP_PROTOCOL) && h[16..20] == dst
    requires HEADER_LENGTH + |rest| >= Read16(h[2], h[3])
    requires InternetChecksum(Corrupt(h, k, v)) == 0 && ZeroFlip(WordAt(h, k), Read16(v[0], v[1]))
    requires k == 1 ==> WordAt(h, k) != 0
    ensures Ipv4Input(dst, Corrupt(h, k, v) + rest) != Dropped
  {
    var c := Corrupt(h, k, v);
    var b := c + rest;
    FlippedWord(h, k, Read16(v[0], v[1]));
    assert b[0] == 0x45 && b[9] == h[9];
    assert b[16..20] == h[16..20];
    assert b[..20] == c;
    if k == 1 {
      assert Read16(b[2], b[3]) == 0;
    } else {
      assert b[2] == h[2] && b[3] == h[3];
    }
    GoodHeaderPasses(dst, b);
  }

  lemma FlippedWord(h: seq<Byte>, k: nat, y: U16)
    requires |h| == HEADER_LENGTH && k < 10 && h[0] == 0x45 && h[8] == 128 && ZeroFlip(WordAt(h, k), y)
    ensures k != 0 && k != 4
  {
  }

  lemma GoodHeaderPasses(self: Ip, b: seq<Byte>)
    requires |b| >= HEADER_LENGTH && b[0] == 0x45 && (b[9] == ICMP_PROTOCOL || b[9] == TCP_PROTOCOL)
    requires b[16..20] == self && Read16(b[2], b[3]) <= |b| && InternetChecksum(b[..HEADER_LENGTH]) == 0
    ensures Ipv4Input(self, b) != Dropped
  {
  }

  /** No packet passes unless its first twenty bytes verify. */
  lemma BadHeaderDropped(self: Ip, b: seq<Byte>)
    requires |b| >= HEADER_LENGTH && InternetChecksum(b[..HEADER_LENGTH]) != 0
    ensures Ipv4Input(self, b) == Dropped
  {
  }
}
