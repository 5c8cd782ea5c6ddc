/** TCP segments as bytes: the datagram `tcp_send_internal` builds behind its pseudo-header, what `input_tcp_internal`
    reads from it, and the whole way through an IPv4 packet. */
module TcpWire {
  import opened NetTypes
  import opened Checksum
  import opened Buffers
  import opened TcpPort
  import Ipv4

  const TCP_HEADER: nat := 20
  const PSEUDO_HEADER: nat := 12
  const WINDOW: U16 := 1500

  /** The ranges the fields' C types give every segment. */
  predicate Representable(s: Segment) {
    s.srcAddr < WORD && s.dstAddr < WORD && s.srcPort < 0x1_0000 && s.dstPort < 0x1_0000 &&
    s.seqNum < WORD && s.ackNum < WORD
  }

  function Bit(b: bool): nat { if b then 1 else 0 }

  function ControlByte(c: Control): Byte {
    Bit(c.fin) + 2 * Bit(c.syn) + 4 * Bit(c.rst) + 8 * Bit(c.psh) + 16 * Bit(c.ack)
  }

  function ControlOf(b: Byte): Control {
    Control(b % 2 == 1, b / 2 % 2 == 1, b / 4 % 2 == 1, b / 8 % 2 == 1, b / 16 % 2 == 1)
  }

  lemma ControlRoundTrip(c: Control)
    ensures ControlOf(ControlByte(c)) == c
  {
    var low := Bit(c.fin) + 2 * Bit(c.syn) + 4 * Bit(c.rst);
    assert low < 8;
  }

  function Pseudo(s: Segment): (h: seq<Byte>)
    requires Representable(s)
    ensures |h| == PSEUDO_HEADER
  {
    Write32(s.srcAddr) + Write32(s.dstAddr) + [0, Ipv4.TCP_PROTOCOL] + Write16(TCP_HEADER + |s.bytes|)
  }

  /** The header up to the checksum field. */
  function Front(s: Segment): (h: seq<Byte>)
    requires Representable(s)
    ensures |h| == 16
  {
    Write16(s.srcPort) + Write16(s.dstPort) + Write32(s.seqNum) + Write32(s.ackNum) +
    [TCP_HEADER / 4 * 16, ControlByte(s.control)] + Write16(WINDOW)
  }

  function SegmentChecksum(s: Segment): U16
    requires Representable(s)
  {
    InternetChecksum(Pseudo(s) + Front(s) + [0, 0] + ([0, 0] + s.bytes))
  }

  function Datagram(s: Segment): (d: seq<Byte>)
    requires Representable(s)
    ensures |d| == TCP_HEADER + |s.bytes|
  {
    Front(s) + Write16(SegmentChecksum(s)) + ([0, 0] + s.bytes)
  }

  /** Pseudo-header, header and data in one buffer, the checksum patched in, then the datagram moved to its start. */
  method BuildDatagram(s: Segment) returns (buf: array<Byte>)
    requires Representable(s)
    ensures fresh(buf) && buf.Length == PSEUDO_HEADER + TCP_HEADER + |s.bytes|
    ensures buf[..TCP_HEADER + |s.bytes|] == Datagram(s)
  {
    buf := new Byte[PSEUDO_HEADER + TCP_HEADER + |s.bytes|](_ => 0);
    FillUnsigned(buf, s);
    var checksum := NetChecksum(buf[..]);
    ghost var n, pre, post := buf.Length, Pseudo(s) + Front(s), [0, 0] + s.bytes;
    assert buf[..n] == buf[..];
    PatchChecksum(buf, PSEUDO_HEADER + 16, checksum, pre, post);
    assert buf[..] == buf[..n];
    SignedTail(s);
    MoveDown(buf, PSEUDO_HEADER);
  }

  lemma SignedTail(s: Segment)
    requires Representable(s)
    ensures var whole := Pseudo(s) + Front(s) + Write16(SegmentChecksum(s)) + ([0, 0] + s.bytes);
            whole == Pseudo(s) + Datagram(s) && whole[PSEUDO_HEADER..] == Datagram(s)
  {
    Regroup(Pseudo(s), Front(s), Write16(SegmentChecksum(s)), [0, 0] + s.bytes);
  }

  lemma Regroup(a: seq<Byte>, b: seq<Byte>, c: seq<Byte>, d: seq<Byte>)
    ensures a + b + c + d == a + (b + c + d) && (a + b + c + d)[|a|..] == b + c + d
  {
  }

  /** Everything with the checksum field still zero. */
  method FillUnsigned(buf: array<Byte>, s: Segment)
    requires Representable(s) && buf.Length == PSEUDO_HEADER + TCP_HEADER + |s.bytes|
    modifies buf
    ensures buf[..] == Pseudo(s) + Front(s) + [0, 0] + ([0, 0] + s.bytes)
  {
    var q := FillPseudo(buf, s);
    q := FillFront(buf, q, s);
    q := Put(buf, q, [0, 0]);
    q := Put(buf, q, [0, 0]);
    q := Put(buf, q, s.bytes);
    assert buf[..] == buf[..q];
  }

  method FillPseudo(buf: array<Byte>, s: Segment) returns (q: nat)
    requires Representable(s) && buf.Length >= PSEUDO_HEADER
    modifies buf
    ensures q == PSEUDO_HEADER && buf[..q] == Pseudo(s)
  {
    q := Put(buf, 0, Write32(s.srcAddr));
    q := Put(buf, q, Write32(s.dstAddr));
    q := Put(buf, q, [0, Ipv4.TCP_PROTOCOL]);
    q := Put(buf, q, Net16(TCP_HEADER + |s.bytes|));
  }

  method FillFront(buf: array<Byte>, p: nat, s: Segment) returns (q: nat)
    requires Representable(s) && p + 16 <= buf.Length
    modifies buf
    ensures q == p + 16 && buf[..q] == old(buf[..p]) + Front(s)
  {
    ghost var before := buf[..p];
    q := Put(buf, p, Net16(s.srcPort));
    q := Put(buf, q, Net16(s.dstPort));
    q := Put(buf, q, Net32(s.seqNum));
    q := Put(buf, q, Net32(s.ackNum));
    assert buf[..q] == before + (Write16(s.srcPort) + Write16(s.dstPort) + Write32(s.seqNum) + Write32(s.ackNum));
    q := Put(buf, q, [TCP_HEADER / 4 * 16, ControlByte(s.control)]);
    q := Put(buf, q, Net16(WINDOW));
    assert buf[..q] == before + Front(s);
  }

  /** `memmove` of everything from `from` on to the start of the buffer. */
  method MoveDown(buf: array<Byte>, from: nat)
    requires 0 < from <= buf.Length
    modifies buf
    ensures buf[..buf.Length - from] == old(buf[from..])
  {
    var n := buf.Length - from;
    for i := 0 to n
      invariant forall j :: 0 <= j < i ==> buf[j] == old(buf[from + j])
      invariant forall j :: i <= j < buf.Length ==> buf[j] == old(buf[j])
    {
      buf[i] := buf[i + from];
    }
  }

  // ----- reading -----

  /** `Overread` marks datagrams shorter than the header they announce; the code does not check for them. */
  datatype Decoded = Rejected | Overread | Decoded(segment: Segment)

  function Decode(src: Ip, dst: Ip, d: seq<Byte>): Decoded
    requires |d| <= Ipv4.MAX_PAYLOAD
  {
    if |d| < TCP_HEADER then Overread
    else
      var headerLen := d[12] / 16 * 4;
      if headerLen < TCP_HEADER then Rejected
      else if headerLen > |d| then Overread
      else
        Decoded(Segment(Read32(src[0], src[1], src[2], src[3]), Read32(dst[0], dst[1], dst[2], dst[3]),
                        Host16(d[0], d[1]), Host16(d[2], d[3]),
                        Host32(d[4], d[5], d[6], d[7]), Host32(d[8], d[9], d[10], d[11]),
                        ControlOf(d[13]), d[headerLen..]))
  }

  lemma DatagramFields(s: Segment)
    requires Representable(s)
    ensures var d := Datagram(s);
            d[0..2] == Write16(s.srcPort) && d[2..4] == Write16(s.dstPort) && d[4..8] == Write32(s.seqNum) &&
            d[8..12] == Write32(s.ackNum) && d[12] == 0x50 && d[13] == ControlByte(s.control) && d[20..] == s.bytes
  {
    var p, q, m, n := Write16(s.srcPort), Write16(s.dstPort), Write32(s.seqNum), Write32(s.ackNum);
    var flags, win, sum := [0x50, ControlByte(s.control)], Write16(WINDOW), Write16(SegmentChecksum(s));
    Regroup(p + q + m + n + flags, win, sum, [0, 0] + s.bytes);
    Layout(p, q, m, n, flags, win + sum + ([0, 0] + s.bytes));
    TailBytes(win, sum, [0, 0], s.bytes);
  }

  /** Where the parts of a header stand. */
  lemma Layout(p: seq<Byte>, q: seq<Byte>, m: seq<Byte>, n: seq<Byte>, flags: seq<Byte>, tail: seq<Byte>)
    requires |p| == |q| == |flags| == 2 && |m| == |n| == 4
    ensures var d := p + q + m + n + flags + tail;
            d[0..2] == p && d[2..4] == q && d[4..8] == m && d[8..12] == n && d[12] == flags[0] && d[13] == flags[1] &&
            d[14..] == tail && (|tail| >= 6 ==> d[20..] == tail[6..])
  {
  }

  lemma TailBytes(win: seq<Byte>, sum: seq<Byte>, urgent: seq<Byte>, bytes: seq<Byte>)
    requires |win| == |sum| == |urgent| == 2
    ensures (win + sum + (urgent + bytes))[6..] == bytes
  {
  }

  lemma Word16(d: seq<Byte>, i: nat, x: U16)
    requires i + 2 <= |d| && d[i..i + 2] == Write16(x)
    ensures Read16(d[i], d[i + 1]) == x
  {
    var w := d[i..i + 2];
    assert w[0] == d[i] && w[1] == d[i + 1];
  }

  lemma Word32(d: seq<Byte>, i: nat, x: U32)
    requires i + 4 <= |d| && d[i..i + 4] == Write32(x)
    ensures Read32(d[i], d[i + 1], d[i + 2], d[i + 3]) == x
  {
    var w := d[i..i + 4];
    assert w[0] == d[i] && w[1] == d[i + 1] && w[2] == d[i + 2] && w[3] == d[i + 3];
    ReadWrite32(x);
  }

  /** Decoding inverts encoding. */
  lemma SegmentRoundTrip(s: Segment)
    requires Representable(s)
    ensures Decode(Write32(s.srcAddr), Write32(s.dstAddr), Datagram(s)) == Decoded(s)
  {
    var d := Datagram(s);
    DatagramFields(s);
    Word16(d, 0, s.srcPort);
    Word16(d, 2, s.dstPort);
    Word32(d, 4, s.seqNum);
    Word32(d, 8, s.ackNum);
    ReadWrite32(s.srcAddr);
    ReadWrite32(s.dstAddr);
    ControlRoundTrip(s.control);
  }

  /** The segment that a fixed header and the payload behind any options stand for, big-endian field by field. */
  function Meant(src: Ip, dst: Ip, h: seq<Byte>, payload: Chunk): Segment
    requires |h| == TCP_HEADER
  {
    Segment(Read32(src[0], src[1], src[2], src[3]), Read32(dst[0], dst[1], dst[2], dst[3]),
            Read16(h[0], h[1]), Read16(h[2], h[3]), Read32(h[4], h[5], h[6], h[7]), Read32(h[8], h[9], h[10], h[11]),
            Control(h[13] % 2 == 1, h[13] / 2 % 2 == 1, h[13] / 4 % 2 == 1, h[13] / 8 % 2 == 1, h[13] / 16 % 2 == 1),
            payload)
  }

  /** A datagram laid out as section 3.1 of RFC 9293 has it: the offset nibble counts header and options in words. */
  predicate LaidOut(h: seq<Byte>, options: seq<Byte>, payload: seq<Byte>) {
    |h| == TCP_HEADER && |options| <= 40 && |options| % 4 == 0 && h[12] / 16 == 5 + |options| / 4 &&
    TCP_HEADER + |options| + |payload| <= Ipv4.MAX_PAYLOAD
  }

  /** Whatever the options, they are skipped: the decoded data is exactly the payload behind them. */
  lemma OptionsSkipped(src: Ip, dst: Ip, h: seq<Byte>, options: seq<Byte>, payload: seq<Byte>)
    requires LaidOut(h, options, payload)
    ensures Decode(src, dst, h + options + payload) == Decoded(Meant(src, dst, h, payload))
  {
    var d := h + options + payload;
    assert d[..TCP_HEADER] == h;
    assert forall i :: 0 <= i < TCP_HEADER ==> d[i] == h[i];
    assert d[TCP_HEADER + |options|..] == payload;
  }

  /** A datagram is decoded exactly when its offset leaves room for the fixed header and stays within it; an offset
      below five words is refused whatever follows. */
  lemma DecodedIff(src: Ip, dst: Ip, d: seq<Byte>)
    requires |d| <= Ipv4.MAX_PAYLOAD
    ensures Decode(src, dst, d).Decoded? <==> |d| >= TCP_HEADER && 5 <= d[12] / 16 && d[12] / 16 * 4 <= |d|
    ensures Decode(src, dst, d) == Rejected <==> |d| >= TCP_HEADER && d[12] / 16 < 5
  {
  }

  /** A segment with options sent in any packet with any padding is heard by its destination as the same fields and
      exactly the payload. */
  lemma WireSkipsOptions(src: Ip, dst: Ip, h: seq<Byte>, options: seq<Byte>, payload: seq<Byte>, padding: seq<Byte>)
    requires LaidOut(h, options, payload)
    ensures var b := Ipv4.Packet(Ipv4.Params(src, dst, Ipv4.TCP_PROTOCOL, h + options + payload)) + padding;
            var r := Ipv4.Ipv4Input(dst, b);
            r.ToTcp? && |r.data| <= Ipv4.MAX_PAYLOAD &&
            Decode(r.src, dst, r.data) == Decoded(Meant(src, dst, h, payload))
  {
    Ipv4.BuildAcceptRoundTrip(dst, Ipv4.Params(src, dst, Ipv4.TCP_PROTOCOL, h + options + payload), padding);
    OptionsSkipped(src, dst, h, options, payload);
  }

  /** The checksum verifies over pseudo-header and datagram, as a receiver following RFC 9293 section 3.1 requires. */
  lemma SegmentVerifies(s: Segment)
    requires Representable(s)
    ensures InternetChecksum(Pseudo(s) + Datagram(s)) == 0
  {
    InsertVerifies(Pseudo(s) + Front(s), [0, 0] + s.bytes);
    SignedTail(s);
  }

  /** The bytes that carry no field of the segment: five words of header, the fixed window, no urgent pointer. */
  lemma SegmentConstants(s: Segment)
    requires Representable(s)
    ensures var d := Datagram(s);
            d[12] == 0x50 && d[13] < 0x20 && Read16(d[14], d[15]) == 1500 && d[18] == 0 && d[19] == 0
  {
    var d := Datagram(s);
    DatagramFields(s);
    assert d[..16] == Front(s);
    assert d[14..16] == Write16(WINDOW);
    Word16(d, 14, WINDOW);
    assert d[16..] == Write16(SegmentChecksum(s)) + ([0, 0] + s.bytes);
    assert d[18..][..2] == [0, 0] && d[18] == d[18..][0] && d[19] == d[18..][1];
  }

  function SegmentParams(s: Segment): Ipv4.Params
    requires Representable(s)
  {
    Ipv4.Params(Write32(s.srcAddr), Write32(s.dstAddr), Ipv4.TCP_PROTOCOL, Datagram(s))
  }

  /** The network of the two-endpoint proofs, byte for byte: a segment put into a packet, padded and taken in by its
      destination host is the same segment; any other host drops it. */
  lemma WireCarriesSegment(s: Segment, host: Ip, padding: seq<Byte>)
    requires Representable(s)
    ensures var b := Ipv4.Packet(SegmentParams(s)) + padding;
            var r := Ipv4.Ipv4Input(host, b);
            if host == Write32(s.dstAddr)
            then r.ToTcp? && |r.data| <= Ipv4.MAX_PAYLOAD && Decode(r.src, host, r.data) == Decoded(s)
            else r == Ipv4.Dropped
  {
    Ipv4.BuildAcceptRoundTrip(host, SegmentParams(s), padding);
    SegmentRoundTrip(s);
  }

  /** A receiver that makes up the pseudo-header from what reached it, the addresses of the packet, the protocol number
      and the length of the datagram, finds the checksum in order (section 3.1 of RFC 9293). */
  lemma WireVerifies(s: Segment, padding: seq<Byte>)
    requires Representable(s)
    ensures var host := Write32(s.dstAddr);
            var r := Ipv4.Ipv4Input(host, Ipv4.Packet(SegmentParams(s)) + padding);
            r.ToTcp? && r.src == Write32(s.srcAddr) && |r.data| < 0x1_0000 &&
            InternetChecksum(r.src + host + [0, 6] + Write16(|r.data|) + r.data) == 0
  {
    Ipv4.BuildAcceptRoundTrip(Write32(s.dstAddr), SegmentParams(s), padding);
    SegmentVerifies(s);
  }
}
