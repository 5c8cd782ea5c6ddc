/** ARP packets: the request and reply builders and what the receiver extracts from them. */
module ArpPacket {
  import opened NetTypes
  import opened Buffers
  import opened ArpCache
  import opened ArpResolver

  const PACKET_LENGTH: nat := 28
  const IPV4_ETHERTYPE: U16 := 0x800
  const OP_REQUEST: U16 := 1
  const OP_REPLY: U16 := 2

  datatype Host = Host(ip: Ip, mac: Mac)

  /** The 28 bytes of an ARP packet for IPv4 over Ethernet. */
  function Frame(op: U16, srcMac: Mac, srcIp: Ip, dstMac: Mac, dstIp: Ip): (f: seq<Byte>)
    ensures |f| == PACKET_LENGTH
  {
    Write16(1) + Write16(IPV4_ETHERTYPE) + [6, 4] + Write16(op) + srcMac + srcIp + dstMac + dstIp
  }

  /** Every byte of a frame, whatever padding follows: Ethernet and IPv4 with addresses of six and four bytes, the
      operation, the sender and the target. */
  lemma FrameFields(op: U16, srcMac: Mac, srcIp: Ip, dstMac: Mac, dstIp: Ip, padding: seq<Byte>)
    ensures var f := Frame(op, srcMac, srcIp, dstMac, dstIp) + padding;
            Read16(f[0], f[1]) == 1 && Read16(f[2], f[3]) == IPV4_ETHERTYPE && Read16(f[6], f[7]) == op &&
            f[4] == 6 && f[5] == 4 && f[8..14] == srcMac && f[14..18] == srcIp && f[18..24] == dstMac &&
            f[24..28] == dstIp
  {
    var head := Write16(1) + Write16(IPV4_ETHERTYPE) + [6, 4] + Write16(op);
    var f := Frame(op, srcMac, srcIp, dstMac, dstIp) + padding;
    assert f == head + (srcMac + srcIp + dstMac + dstIp + padding);
    assert f[4] == head[4] && f[5] == head[5];
    assert f[6] == head[6] == Write16(op)[0] && f[7] == head[7] == Write16(op)[1];
  }

  /** `send_arp_request`; the six target bytes are whatever the stack held before. */
  method BuildRequest(self: Host, ip: Ip, stale: seq<Byte>) returns (buf: array<Byte>)
    requires |stale| == PACKET_LENGTH
    ensures fresh(buf) && buf[..] == Frame(OP_REQUEST, self.mac, self.ip, stale[18..24], ip)
  {
    buf := new Byte[PACKET_LENGTH](i requires 0 <= i < PACKET_LENGTH => stale[i]);
    assert buf[..] == stale;
    var p := FillSender(buf, self, OP_REQUEST);
    assert buf[18..24] == stale[18..][..6] == stale[18..24];
    assert buf[..24] == buf[..p] + buf[18..24];
    p := p + 6;
    p := Put(buf, p, ip);
    assert buf[..] == buf[..p];
  }

  /** `send_arp_reply`. */
  method BuildReply(self: Host, mac: Mac, ip: Ip) returns (buf: array<Byte>)
    ensures fresh(buf) && buf[..] == Frame(OP_REPLY, self.mac, self.ip, mac, ip)
  {
    buf := new Byte[PACKET_LENGTH](_ => 0);
    var p := FillSender(buf, self, OP_REPLY);
    p := Put(buf, p, mac);
    p := Put(buf, p, ip);
    assert buf[..] == buf[..p];
  }

  /** The fields both builders write alike. */
  method FillSender(buf: array<Byte>, self: Host, op: U16) returns (p: nat)
    requires buf.Length == PACKET_LENGTH
    modifies buf
    ensures p == 18 && buf[18..] == old(buf[18..])
    ensures buf[..p] == Write16(1) + Write16(IPV4_ETHERTYPE) + [6, 4] + Write16(op) + self.mac + self.ip
  {
    p := Put(buf, 0, Net16(1));
    p := Put(buf, p, Net16(IPV4_ETHERTYPE));
    p := Put(buf, p, [6, 4]);
    p := Put(buf, p, Net16(op));
    p := Put(buf, p, self.mac);
    p := Put(buf, p, self.ip);
  }

  /** What an arriving packet makes a host do. */
  datatype Action = Discard | Learned(entry: Entry) | Answer(mac: Mac, ip: Ip)

  function ArpInput(self: Ip, b: seq<Byte>): Action
    requires |b| >= PACKET_LENGTH
  {
    if Host16(b[0], b[1]) != 1 then Discard
    else if Host16(b[2], b[3]) != IPV4_ETHERTYPE then Discard
    else if b[24..28] != self then Discard
    else if Host16(b[6], b[7]) == OP_REPLY then Learned(Entry(b[14..18], b[8..14]))
    else if Host16(b[6], b[7]) == OP_REQUEST then Answer(b[8..14], b[14..18])
    else Discard
  }

  /** Which packets of at least 28 bytes get a reaction: those for Ethernet, IPv4 and this host with a known operation.
      */
  lemma ActsIff(self: Ip, b: seq<Byte>)
    requires |b| >= PACKET_LENGTH
    ensures var known := Read16(b[0], b[1]) == 1 && Read16(b[2], b[3]) == 0x800 && b[24..28] == self;
            var op := Read16(b[6], b[7]);
            ArpInput(self, b) ==
            if known && op == 2 then Learned(Entry(b[14..18], b[8..14]))
            else if known && op == 1 then Answer(b[8..14], b[14..18])
            else Discard
  {
  }

  /** The exchange: the request of `a` for the address of `b`, whatever its six unset bytes hold and whatever padding
      both packets pick up, is answered by `b` alone, to `a`, and `a` extracts exactly the address pair of `b`. */
  lemma Exchange(a: Host, b: Host, other: Host, stale: Mac, pad1: seq<Byte>, pad2: seq<Byte>)
    requires other.ip != b.ip
    ensures var request := Frame(OP_REQUEST, a.mac, a.ip, stale, b.ip) + pad1;
            ArpInput(b.ip, request) == Answer(a.mac, a.ip) && ArpInput(other.ip, request) == Discard
    ensures var reply := Frame(OP_REPLY, b.mac, b.ip, a.mac, a.ip) + pad2;
            ArpInput(a.ip, reply) == Learned(Entry(b.ip, b.mac))
  {
    FrameFields(OP_REQUEST, a.mac, a.ip, stale, b.ip, pad1);
    FrameFields(OP_REPLY, b.mac, b.ip, a.mac, a.ip, pad2);
  }

  /** When the pair reaches the worker, every waiter for `b` is notified and would find exactly the MAC of `b`. */
  lemma ExchangeResolves(a: Host, b: Host, arp: Arp, pad: seq<Byte>)
    requires RingOk(arp.ring) && TableOk(arp)
    ensures var reply := ArpInput(a.ip, Frame(OP_REPLY, b.mac, b.ip, a.mac, a.ip) + pad);
            reply.Learned? &&
            var after := Learn(arp, reply.entry);
            LookupRing(after.ring, b.ip) == Found(b.mac) &&
            forall i :: 0 <= i < |arp.pending| && arp.pending[i].ip == b.ip ==>
              after.pending[i].waiting == [] && multiset(arp.pending[i].waiting) <= after.notes
  {
    FrameFields(OP_REPLY, b.mac, b.ip, a.mac, a.ip, pad);
    var e := Entry(b.ip, b.mac);
    ReleasedFindsMac(arp, e);
    var after := Learn(arp, e);
    forall i | 0 <= i < |arp.pending| && arp.pending[i].ip == b.ip
      ensures after.pending[i].waiting == [] && multiset(arp.pending[i].waiting) <= after.notes
    {
      var k := FindPending(arp.pending, b.ip);
      if arp.pending[i].waiting != [] { assert Active(arp.pending[i], b.ip) && i == k; }
    }
  }
}
