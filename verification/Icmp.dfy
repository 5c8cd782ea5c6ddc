/** ICMP echo: parsing a request inside its IPv4 packet and building the reply. */
module Icmp {
  import opened NetTypes
  import opened Checksum
  import opened Buffers
  import opened Ipv4

  const ECHO_HEADER: nat := 8
  const MAX_ECHO_DATA: nat := MAX_PAYLOAD - ECHO_HEADER

  /** What `icmpv4_input` does with a packet.  `Overread` marks a length field that leaves no room for both headers or
      goes past the buffer: the code would then take a wrapped or oversized payload length. */
  datatype Reaction = Silent | Reply(to: Ip, id: U16, seqNum: U16, data: seq<Byte>) | Overread

  function IcmpInput(b: seq<Byte>): Reaction {
    if |b| < HEADER_LENGTH + ECHO_HEADER then Silent
    else if b[20] == 8 && b[21] == 0 then
      var total := Host16(b[2], b[3]);
      if total < HEADER_LENGTH + ECHO_HEADER || total > |b| then Overread
      else Reply(b[12..16], Host16(b[24], b[25]), Host16(b[26], b[27]), b[28..total])
    else Silent
  }

  function EchoChecksum(id: U16, seqNum: U16, data: seq<Byte>): U16 {
    InternetChecksum([0, 0] + [0, 0] + (Write16(id) + Write16(seqNum) + data))
  }

  function EchoReply(id: U16, seqNum: U16, data: seq<Byte>): seq<Byte> {
    [0, 0] + Write16(EchoChecksum(id, seqNum, data)) + (Write16(id) + Write16(seqNum) + data)
  }

  method BuildReply(id: U16, seqNum: U16, data: seq<Byte>) returns (buf: array<Byte>)
    requires |data| <= MAX_ECHO_DATA
    ensures fresh(buf) && buf[..] == EchoReply(id, seqNum, data)
  {
    buf := new Byte[ECHO_HEADER + |data|](_ => 0);
    var q := Put(buf, 0, [0, 0]);
    q := Put(buf, q, [0, 0]);
    q := Put(buf, q, Net16(id));
    q := Put(buf, q, Net16(seqNum));
    q := Put(buf, q, data);
    ghost var rest := Write16(id) + Write16(seqNum) + data;
    assert buf[..q] == [0, 0] + [0, 0] + rest;
    assert buf[..] == buf[..q];
    var checksum := NetChecksum(buf[..]);
    PatchChecksum(buf, 2, checksum, [0, 0], rest);
    assert buf[..] == buf[..q];
  }

  /** `send_icmpv4_ping_reply`: what is handed to `send_ipv4_packet`, or nothing when allocation fails. */
  method SendPingReply(self: Ip, to: Ip, id: U16, seqNum: U16, data: seq<Byte>, allocOk: bool)
    returns (sent: bool, p: Params)
    requires |data| <= MAX_ECHO_DATA
    ensures sent == allocOk
    ensures sent ==> p == ReplyParams(self, to, id, seqNum, data)
  {
    sent, p := false, Params(self, to, ICMP_PROTOCOL, []);
    if allocOk {
      var buf := BuildReply(id, seqNum, data);
      sent, p := true, p.(data := buf[..]);
    }
  }

  function ReplyParams(self: Ip, to: Ip, id: U16, seqNum: U16, data: seq<Byte>): Params {
    Params(self, to, ICMP_PROTOCOL, EchoReply(id, seqNum, data))
  }

  lemma ReplyVerifies(id: U16, seqNum: U16, data: seq<Byte>)
    ensures InternetChecksum(EchoReply(id, seqNum, data)) == 0
  {
    InsertVerifies([0, 0], Write16(id) + Write16(seqNum) + data);
  }

  /** What `ipv4_input` hands to ICMP is exactly as long as its own length field says. */
  lemma IcmpPacketLength(self: Ip, b: seq<Byte>)
    requires Ipv4Input(self, b).ToIcmp?
    ensures var pkt := Ipv4Input(self, b).packet;
            |pkt| >= 4 ==> Read16(pkt[2], pkt[3]) == |pkt|
  {
  }

  /** The payload length never underflows on anything `ipv4_input` lets through. */
  lemma NeverOverreads(self: Ip, b: seq<Byte>)
    requires Ipv4Input(self, b).ToIcmp?
    ensures !IcmpInput(Ipv4Input(self, b).packet).Overread?
  {
    IcmpPacketLength(self, b);
  }

  /** Every echo request `ipv4_input` accepts, whatever its ICMP checksum, is answered to its source with a reply that
      repeats identifier, sequence number and data byte for byte, fits a packet and verifies. */
  lemma EchoIsAnswered(self: Ip, b: seq<Byte>)
    requires Ipv4Input(self, b).ToIcmp?
    requires var pkt := Ipv4Input(self, b).packet; |pkt| >= 28 && pkt[20] == 8 && pkt[21] == 0
    ensures var pkt := Ipv4Input(self, b).packet;
            var r := IcmpInput(pkt);
            r.Reply? && r.to == pkt[12..16] && r.data == pkt[28..] && |r.data| <= MAX_ECHO_DATA &&
            var reply := EchoReply(r.id, r.seqNum, r.data);
            |reply| == |pkt| - HEADER_LENGTH && reply[..2] == [0, 0] && reply[4..] == pkt[24..] &&
            InternetChecksum(reply) == 0
  {
    var pkt := Ipv4Input(self, b).packet;
    IcmpPacketLength(self, b);
    var r := IcmpInput(pkt);
    ReplyVerifies(r.id, r.seqNum, r.data);
    ReplyBytes(r.id, r.seqNum, r.data);
    Rewrite16(pkt[24], pkt[25]);
    Rewrite16(pkt[26], pkt[27]);
    TwoWords(pkt, 24);
  }

  lemma TwoWords(b: seq<Byte>, i: nat)
    requires i + 4 <= |b|
    ensures b[i..] == [b[i], b[i + 1]] + [b[i + 2], b[i + 3]] + b[i + 4..]
  {
  }

  /** Nothing else is answered: of what `ipv4_input` lets through only type 8 with code 0 gets a reaction. */
  lemma OnlyEchoIsAnswered(self: Ip, b: seq<Byte>)
    requires Ipv4Input(self, b).ToIcmp?
    ensures var pkt := Ipv4Input(self, b).packet;
            if |pkt| >= 28 && pkt[20] == 8 && pkt[21] == 0 then IcmpInput(pkt).Reply? else IcmpInput(pkt) == Silent
  {
    NeverOverreads(self, b);
  }

  /** The packet that answers an accepted echo request `b`: from this host to the sender of `b`, accepted there, an echo
      reply whose checksum verifies and whose identifier, number and data are those of `b` byte for byte. */
  lemma AnswerGoesBack(self: Ip, b: seq<Byte>, padding: seq<Byte>)
    requires Ipv4Input(self, b).ToIcmp? && |Ipv4Input(self, b).packet| >= 28 && b[20] == 8 && b[21] == 0
    ensures var pkt := Ipv4Input(self, b).packet;
            var r := IcmpInput(pkt);
            r.Reply? && |r.data| <= MAX_ECHO_DATA &&
            var answer := Packet(ReplyParams(self, r.to, r.id, r.seqNum, r.data));
            |answer| == |pkt| && answer[12..16] == self == b[16..20] && answer[16..20] == b[12..16] &&
            answer[20] == 0 && answer[21] == 0 && answer[24..] == b[24..|pkt|] && InternetChecksum(answer[20..]) == 0 &&
            Ipv4Input(b[12..16], answer + padding) == ToIcmp(answer)
  {
    var pkt := Ipv4Input(self, b).packet;
    AcceptedIff(self, b);
    assert pkt == b[..|pkt|];
    WithoutPadding(b, |pkt|);
    EchoIsAnswered(self, b);
    var r := IcmpInput(pkt);
    AnswerBytes(ReplyParams(self, r.to, r.id, r.seqNum, r.data), padding);
  }

  lemma WithoutPadding(b: seq<Byte>, n: nat)
    requires 28 <= n <= |b|
    ensures var pkt := b[..n];
            pkt[12..16] == b[12..16] && pkt[24..] == b[24..n] && pkt[20] == b[20] && pkt[21] == b[21]
  {
  }

  lemma AnswerBytes(p: Params, padding: seq<Byte>)
    requires ECHO_HEADER <= |p.data| <= MAX_PAYLOAD && p.data[..2] == [0, 0] && p.protocol == ICMP_PROTOCOL
    ensures var answer := Packet(p);
            answer[12..16] == p.src && answer[16..20] == p.dst && answer[20] == 0 && answer[21] == 0 &&
            answer[20..] == p.data && answer[24..] == p.data[4..] &&
            Ipv4Input(p.dst, answer + padding) == ToIcmp(answer)
  {
    var answer := Packet(p);
    assert answer + [] == answer;
    PacketFields(p, []);
    BuildAcceptRoundTrip(p.dst, p, padding);
    assert answer[20..] == p.data;
    assert answer[24..] == p.data[4..];
    assert answer[20] == p.data[..2][0] && answer[21] == p.data[..2][1];
  }

  lemma ReplyBytes(id: U16, seqNum: U16, data: seq<Byte>)
    ensures var reply := EchoReply(id, seqNum, data);
            |reply| == ECHO_HEADER + |data| && reply[..2] == [0, 0] &&
            reply[4..] == Write16(id) + Write16(seqNum) + data
  {
  }

  lemma Rewrite16(b0: Byte, b1: Byte)
    ensures Write16(Read16(b0, b1)) == [b0, b1]
  {
  }

  /** An echo request, whatever checksum it carries. */
  function EchoRequest(checksum: U16, id: U16, seqNum: U16, data: seq<Byte>): seq<Byte> {
    [8, 0] + Write16(checksum) + (Write16(id) + Write16(seqNum) + data)
  }

  /** A full exchange: a request built and sent by `a`, padded on the way, is answered by `b` with a packet that reaches
      `a` carrying the same identifier, sequence number and data. */
  lemma PingPong(a: Ip, b: Ip, checksum: U16, id: U16, seqNum: U16, data: seq<Byte>, pad1: seq<Byte>, pad2: seq<Byte>)
    requires |data| <= MAX_ECHO_DATA
    ensures var request := Packet(Params(a, b, ICMP_PROTOCOL, EchoRequest(checksum, id, seqNum, data)));
            var reply := Packet(ReplyParams(b, a, id, seqNum, data));
            Ipv4Input(b, request + pad1) == ToIcmp(request) && IcmpInput(request) == Reply(a, id, seqNum, data) &&
            Ipv4Input(a, reply + pad2) == ToIcmp(reply) && reply[20..] == EchoReply(id, seqNum, data) &&
            reply[28..] == data
  {
    RequestLeg(Params(a, b, ICMP_PROTOCOL, EchoRequest(checksum, id, seqNum, data)), checksum, id, seqNum, data, pad1);
    ReplyLeg(ReplyParams(b, a, id, seqNum, data), id, seqNum, data, pad2);
  }

  lemma RequestLeg(p: Params, checksum: U16, id: U16, seqNum: U16, data: seq<Byte>, pad: seq<Byte>)
    requires |data| <= MAX_ECHO_DATA && p.protocol == ICMP_PROTOCOL && p.data == EchoRequest(checksum, id, seqNum, data)
    ensures Ipv4Input(p.dst, Packet(p) + pad) == ToIcmp(Packet(p))
    ensures IcmpInput(Packet(p)) == Reply(p.src, id, seqNum, data)
  {
    BuildAcceptRoundTrip(p.dst, p, pad);
    RequestParsed(p, checksum, id, seqNum, data);
  }

  lemma ReplyLeg(p: Params, id: U16, seqNum: U16, data: seq<Byte>, pad: seq<Byte>)
    requires |data| <= MAX_ECHO_DATA && p.protocol == ICMP_PROTOCOL && p.data == EchoReply(id, seqNum, data)
    ensures Ipv4Input(p.dst, Packet(p) + pad) == ToIcmp(Packet(p)) && Packet(p)[20..] == p.data
    ensures Packet(p)[28..] == data
  {
    BuildAcceptRoundTrip(p.dst, p, pad);
    ReplyBytes(id, seqNum, data);
    assert Packet(p)[20..] == p.data;
    assert Packet(p)[28..] == p.data[4..][4..];
  }

  lemma RequestParsed(p: Params, checksum: U16, id: U16, seqNum: U16, data: seq<Byte>)
    requires |data| <= MAX_ECHO_DATA && p.data == EchoRequest(checksum, id, seqNum, data)
    ensures IcmpInput(Packet(p)) == Reply(p.src, id, seqNum, data)
  {
    var b := Packet(p);
    var d := p.data;
    PacketFields(p, []);
    assert b + [] == b;
    assert b[20..] == d;
    assert forall i :: 0 <= i < |d| ==> b[20 + i] == d[i];
    var w, x := Write16(id), Write16(seqNum);
    assert d[4] == w[0] && d[5] == w[1] && d[6] == x[0] && d[7] == x[1];
    assert d[8..] == data;
    assert b[24] == d[4] && b[25] == d[5] && b[26] == d[6] && b[27] == d[7] && b[20] == d[0] && b[21] == d[1];
    assert b[28..20 + |d|] == d[8..];
  }
}
