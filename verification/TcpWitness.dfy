/** Two short runs that show the conditions of other theorems can fail: bytes swallowed in SYN_RECEIVED although the
    completing segment is bare, and a byte released before it was ever sent. */
module TcpWitness {
  import opened TcpPort
  import opened TcpConnection
  import opened TcpSoundness
  import opened TcpPair
  import opened TcpHandshake
  import opened TcpPassive
  import opened TcpStranded

  const TA := Triple(10, 20, 2)
  const TB := Triple(20, 10, 1)
  const OK := Env(true, true)
  const REFUSED := Env(true, false)
  const FIRST: Payload := Heap(1, [42])
  const SECOND: Payload := Heap(2, [43])
  const ANSWER: Payload := Heap(3, [7])

  // ----- single steps, from any state -----

  lemma SendIs(c: Conn, data: Payload)
    requires c.phase == Live && c.port.sem > 0 && c.port.state != Closed
    ensures Enabled(c, Send(data, 8))
    ensures Next(c, Send(data, 8), c.now) ==
            c.(port := c.port.(sem := c.port.sem - 1), queue := c.queue + [DataTx(c.id, data)])
  {
    assert c.(now := c.now) == c;
  }

  /** A bare acknowledgement leaves as it was queued. */
  lemma TransmitAckIs(c: Conn)
    requires c.phase == Live && c.queue != [] && c.queue[0].control == ACK && c.queue[0].data == Null
    ensures Enabled(c, Transmit(OK))
    ensures Next(c, Transmit(OK), c.now) ==
            c.(queue := c.queue[1..], sent := c.sent + [Wire(c.self, c.port, c.queue[0], c.queue[0].seqNum)])
  {
    assert c.(now := c.now) == c;
  }

  lemma TransmitIs(c: Conn, env: Env)
    requires c.phase == Live && c.queue != [] && Consumes(c.queue[0].control, Bytes(c.queue[0].data)) > 0
    requires FirstFree(c.port.unacked) < |c.port.unacked| && env.allocOk
    ensures Enabled(c, Transmit(env)) && Next(c, Transmit(env), c.now) == Recorded(c, env.ipv4Ok)
  {
    assert c.(now := c.now) == c;
  }

  /** An arrival outside LISTEN and SYN_SENT that is in sequence. */
  lemma ArriveIs(c: Conn, s: Segment, next: Conn)
    requires c.phase == Live && Addressed(c.id, s) && !s.control.rst && !Ignored(c.port, s)
    requires |Receive(c.port, s, TickOf(c.now)).acks| <= 8 && Receive(c.port, s, TickOf(c.now)).reliable == []
    requires next == Heard(c, Receive(c.port, s, TickOf(c.now)), 8)
    ensures Enabled(c, Arrive(s, 8)) && Next(c, Arrive(s, 8), c.now) == next
  {
    assert c.(now := c.now) == c;
  }

  /** Some run ends in `p`. */
  ghost predicate Reachable(p: Pair) {
    exists ps: seq<Pair>, ms: seq<Move> :: IsRun(ps, ms) && ps[|ms|] == p
  }

  lemma MoveReaches(p: Pair, m: Move, q: Pair)
    requires Reachable(p) && CanMove(p, m) && q == Moved(p, m) && NoWrap(q)
    ensures Reachable(q)
  {
    var ps: seq<Pair>, ms: seq<Move> :| IsRun(ps, ms) && ps[|ms|] == p;
    ExtendRun(ps, ms, m, q);
    assert IsRun(ps + [q], ms + [m]) && (ps + [q])[|ms + [m]|] == q;
  }

  /** `d` follows `c` by `step` at time zero. */
  predicate Goes(c: Conn, step: Step, d: Conn) {
    c.now == 0 && Enabled(c, step) && Next(c, step, 0) == d && |d.hist.stream| < WORD
  }

  lemma LeftReaches(a: Conn, b: Conn, step: Step, next: Conn)
    requires Reachable(Pair(a, b)) && Goes(a, step, next) && FromPeer(step, b) && |b.hist.stream| < WORD
    ensures Reachable(Pair(next, b))
  {
    assert a.(now := 0) == a;
    MoveReaches(Pair(a, b), Move(true, step, 0), Pair(next, b));
  }

  lemma RightReaches(a: Conn, b: Conn, step: Step, next: Conn)
    requires Reachable(Pair(a, b)) && Goes(b, step, next) && FromPeer(step, a) && |a.hist.stream| < WORD
    ensures Reachable(Pair(a, next))
  {
    assert b.(now := 0) == b;
    MoveReaches(Pair(a, b), Move(false, step, 0), Pair(a, next));
  }

  // ----- acknowledging the first slots -----

  function Cleared(slots: seq<Slot>, m: nat): (r: seq<Slot>)
    requires m <= |slots|
    ensures |r| == |slots|
    ensures forall i :: 0 <= i < |slots| ==> r[i] == if i < m then slots[i].(inUse := false, data := Null) else slots[i]
  {
    seq(|slots|, i requires 0 <= i < |slots| => if i < m then slots[i].(inUse := false, data := Null) else slots[i])
  }

  /** Exactly the first `m` slots are in use, and `ack` reaches all of them. */
  predicate Reached(slots: seq<Slot>, ack: nat, m: nat) {
    m <= |slots| && forall i :: 0 <= i < |slots| ==> (slots[i].inUse <==> i < m) && (i < m ==> slots[i].seqNum <= ack)
  }

  lemma {:induction false} CountReached(slots: seq<Slot>, ack: nat, m: nat)
    requires Reached(slots, ack, m)
    ensures ReleaseCount(slots, ack) == m
  {
    if slots != [] {
      var n := |slots| - 1;
      CountReached(slots[..n], ack, if m <= n then m else n);
    }
  }

  lemma AbsorbIs(p: Port, s: Segment, m: nat)
    requires Reached(p.unacked, s.ackNum, m) && p.sem + m <= MAX_UNACKED && s.control.ack && s.ackNum <= p.seqNum
    requires p.state != LastAck && p.state != Listen
    ensures Absorb(p, s) ==
            p.(unacked := Cleared(p.unacked, m), sem := p.sem + m,
               ackNum :=
                 if Consumes(s.control, s.bytes) > 0 then Wrap(s.seqNum + Consumes(s.control, s.bytes)) else p.ackNum)
  {
    CountReached(p.unacked, s.ackNum, m);
    assert ReleaseSlots(p.unacked, s.ackNum) == Cleared(p.unacked, m);
  }

  /** A bare acknowledgement in ESTABLISHED only releases. */
  lemma BareAckIs(c: Conn, s: Segment, m: nat)
    requires c.phase == Live && c.port.state == Established && Addressed(c.id, s) && s.control == ACK && s.bytes == []
    requires s.seqNum == c.port.ackNum && s.ackNum <= c.port.seqNum && |c.port.unacked| == MAX_UNACKED
    requires Reached(c.port.unacked, s.ackNum, m) && c.port.sem + m <= MAX_UNACKED
    ensures Enabled(c, Arrive(s, 8))
    ensures Next(c, Arrive(s, 8), c.now) ==
            c.(port := c.port.(unacked := Cleared(c.port.unacked, m), sem := c.port.sem + m))
  {
    AbsorbIs(c.port, s, m);
    var next := c.(port := c.port.(unacked := Cleared(c.port.unacked, m), sem := c.port.sem + m));
    var eff := Receive(c.port, s, TickOf(c.now));
    assert eff.port == next.port && eff.acks == [] && eff.calls == [] && eff.reliable == [];
    assert c.hist.trace + [] == c.hist.trace && c.queue + [] + [] == c.queue;
    ArriveIs(c, s, next);
  }

  // ----- the common opening -----

  function Row(id: Triple, state: State, ack: nat, seqNum: nat, slots: seq<Slot>, sem: nat): Port {
    Port(id, state, 0, ack, seqNum, slots, sem)
  }

  const SYN_TX: Tx := Tx(TA, 0, SYN, Null)
  const SYN_ACK_TX: Tx := Tx(TB, 0, SYN_ACK, Null)
  const SYN_SEGMENT: Segment := Segment(1, 2, 10, 20, 0, 0, SYN, [])
  const SYN_ACK_SEGMENT: Segment := Segment(2, 1, 20, 10, 0, 1, SYN_ACK, [])

  const A_SLOTS: seq<Slot> := EMPTY_SLOTS[0 := Slot(true, 0, SYN, Null, 0)]
  const B_SLOTS: seq<Slot> := EMPTY_SLOTS[0 := Slot(true, 0, SYN_ACK, Null, 0)]
  const A_OPENED: History := Record(NEW_HISTORY, 0, SYN_TX, 0)
  const B_OPENED: History := Record(NEW_HISTORY, 0, SYN_ACK_TX, 0)

  const A1: Conn := Conn(Live, true, 1, TA, Row(TA, SynSent, 0, 0, EMPTY_SLOTS, 7), [SYN_TX], [], NEW_HISTORY, 0)
  const A2: Conn := Conn(Live, true, 1, TA, Row(TA, SynSent, 0, 1, A_SLOTS, 7), [], [SYN_SEGMENT], A_OPENED, 0)
  const B1: Conn :=
    Conn(Live, false, 2, TB, Row(TB, SynReceived, 1, 0, EMPTY_SLOTS, 7), [SYN_ACK_TX], [], NEW_HISTORY, 0)
  const B2: Conn := Conn(Live, false, 2, TB, Row(TB, SynReceived, 1, 1, B_SLOTS, 7), [], [SYN_ACK_SEGMENT], B_OPENED, 0)

  /** `a` has had its SYN answered: connected, with the acknowledgement of the answer queued. */
  const A3: Conn :=
    Conn(Live, true, 1, TA, Row(TA, Established, 1, 1, Cleared(A_SLOTS, 1), 8), [Tx(TA, 1, ACK, Null)], [SYN_SEGMENT],
         A_OPENED.(trace := [OnConnect], start := 1), 0)

  lemma AOpens()
    ensures Goes(NewConn(1, TA, 0), Connect(8), A1)
  {
  }

  lemma ASendsSyn()
    ensures Goes(A1, Transmit(OK), A2)
  {
    TransmitIs(A1, OK);
    assert FirstFree(EMPTY_SLOTS) == 0;
  }

  lemma BAccepts()
    ensures Goes(NewConn(2, TB, 0), Accept(SYN_SEGMENT, 8), B1)
  {
    AcceptShape(20, SYN_SEGMENT, 0);
  }

  lemma BSendsSynAck()
    ensures Goes(B1, Transmit(OK), B2)
  {
    TransmitIs(B1, OK);
    assert FirstFree(EMPTY_SLOTS) == 0;
  }

  lemma AConnects()
    ensures Goes(A2, Arrive(SYN_ACK_SEGMENT, 8), A3)
  {
    AbsorbIs(A2.port, SYN_ACK_SEGMENT, 1);
    var eff := Receive(A2.port, SYN_ACK_SEGMENT, 0);
    assert eff.port == A3.port && eff.acks == [Tx(TA, 1, ACK, Null)] && eff.calls == [OnConnect] && eff.reliable == [];
    ArriveIs(A2, SYN_ACK_SEGMENT, A3);
  }

  lemma StartReached()
    ensures Reachable(Pair(NewConn(1, TA, 0), NewConn(2, TB, 0)))
  {
    var ps, ms: seq<Move> := [Pair(NewConn(1, TA, 0), NewConn(2, TB, 0))], [];
    assert IsRun(ps, ms) && ps[|ms|] == ps[0];
  }

  lemma SynOut()
    ensures Reachable(Pair(A2, NewConn(2, TB, 0)))
  {
    StartReached();
    AOpens();
    LeftReaches(NewConn(1, TA, 0), NewConn(2, TB, 0), Connect(8), A1);
    ASendsSyn();
    LeftReaches(A1, NewConn(2, TB, 0), Transmit(OK), A2);
  }

  /** The five moves that open the connection. */
  lemma HandshakeOpened()
    ensures Reachable(Pair(A3, B2))
  {
    SynOut();
    BAccepts();
    RightReaches(A2, NewConn(2, TB, 0), Accept(SYN_SEGMENT, 8), B1);
    BSendsSynAck();
    RightReaches(A2, B1, Transmit(OK), B2);
    AConnects();
    LeftReaches(A2, B2, Arrive(SYN_ACK_SEGMENT, 8), A3);
  }

  // ----- a byte acknowledged before it was sent -----

  const ACK_SEGMENT: Segment := Segment(1, 2, 10, 20, 1, 1, ACK, [])
  const FIRST_SEGMENT: Segment := Segment(1, 2, 10, 20, 1, 1, ACK_PSH, [42])
  const FIRST_SLOTS: seq<Slot> := Cleared(A_SLOTS, 1)[0 := Slot(true, 1, ACK_PSH, FIRST, 0)]
  const BOTH_SLOTS: seq<Slot> := FIRST_SLOTS[1 := Slot(true, 2, ACK_PSH, SECOND, 0)]

  const A4: Conn := A3.(port := A3.port.(sem := 7), queue := [Tx(TA, 1, ACK, Null), DataTx(TA, FIRST)])
  const A5: Conn :=
    A4.(port := A4.port.(sem := 6), queue := [Tx(TA, 1, ACK, Null), DataTx(TA, FIRST), DataTx(TA, SECOND)])
  const A6: Conn := A5.(queue := [DataTx(TA, FIRST), DataTx(TA, SECOND)], sent := [SYN_SEGMENT, ACK_SEGMENT])
  const A7: Conn :=
    A6.(queue := [DataTx(TA, SECOND)], port := Row(TA, Established, 1, 2, FIRST_SLOTS, 6),
        sent := [SYN_SEGMENT, ACK_SEGMENT, FIRST_SEGMENT], hist := Record(A6.hist, 0, DataTx(TA, FIRST), 0))
  const A8: Conn :=
    A7.(queue := [], port := Row(TA, Established, 1, 3, BOTH_SLOTS, 6),
        hist := Record(A7.hist, 1, DataTx(TA, SECOND), 0))
  const A9: Conn := A8.(port := Row(TA, Established, 1, 3, Cleared(BOTH_SLOTS, 2), 8))

  const B3: Conn :=
    B2.(port := Row(TB, Established, 1, 1, Cleared(B_SLOTS, 1), 8), hist := B_OPENED.(trace := [OnConnect], start := 1))
  const B4: Conn :=
    B3.(port := Row(TB, Established, 2, 1, Cleared(B_SLOTS, 1), 8), queue := [Tx(TB, 1, ACK, Null)],
        hist := B3.hist.(trace := [OnConnect, OnReceive([42])]))
  const ONE_ACKED: Segment := Segment(2, 1, 20, 10, 1, 2, ACK, [])
  const B5: Conn := B4.(queue := [], sent := [SYN_ACK_SEGMENT, ONE_ACKED])

  lemma ASendsTwice()
    ensures Goes(A3, Send(FIRST, 8), A4) && Goes(A4, Send(SECOND, 8), A5) && Goes(A5, Transmit(OK), A6)
  {
    SendIs(A3, FIRST);
    SendIs(A4, SECOND);
    TransmitAckIs(A5);
  }

  lemma ANumbersFirst()
    ensures Goes(A6, Transmit(OK), A7)
  {
    assert FirstFree(A6.port.unacked) == 0;
    TransmitIs(A6, OK);
  }

  lemma ANumbersSecond()
    ensures Goes(A7, Transmit(REFUSED), A8)
  {
    assert FirstFree(A7.port.unacked) == 1;
    TransmitIs(A7, REFUSED);
  }

  lemma BConnects()
    ensures Goes(B2, Arrive(ACK_SEGMENT, 8), B3)
  {
    AbsorbIs(B2.port, ACK_SEGMENT, 1);
    var eff := Receive(B2.port, ACK_SEGMENT, 0);
    assert eff.port == B3.port && eff.acks == [] && eff.calls == [OnConnect] && eff.reliable == [];
    ArriveIs(B2, ACK_SEGMENT, B3);
  }

  lemma BTakesFirst()
    ensures Goes(B3, Arrive(FIRST_SEGMENT, 8), B4)
  {
    AbsorbIs(B3.port, FIRST_SEGMENT, 0);
    assert Cleared(B3.port.unacked, 0) == B3.port.unacked;
    var eff := Receive(B3.port, FIRST_SEGMENT, 0);
    assert eff.port == B4.port && eff.acks == B4.queue && eff.calls == [OnReceive([42])] && eff.reliable == [];
    ArriveIs(B3, FIRST_SEGMENT, B4);
  }

  lemma BAcknowledges()
    ensures Goes(B4, Transmit(OK), B5)
  {
    TransmitAckIs(B4);
  }

  lemma BothReached()
    ensures |BOTH_SLOTS| == MAX_UNACKED && Reached(BOTH_SLOTS, 2, 2)
  {
    assert Reached(A_SLOTS, 0, 1);
  }

  lemma AReleasesBoth()
    ensures Goes(A8, Arrive(ONE_ACKED, 8), A9)
  {
    BothReached();
    BareAckIs(A8, ONE_ACKED, 2);
    NumberedSoFar();
  }

  lemma FirstNumbered()
    ensures Reachable(Pair(A7, B2))
  {
    HandshakeOpened();
    ASendsTwice();
    LeftReaches(A3, B2, Send(FIRST, 8), A4);
    LeftReaches(A4, B2, Send(SECOND, 8), A5);
    LeftReaches(A5, B2, Transmit(OK), A6);
    ANumbersFirst();
    LeftReaches(A6, B2, Transmit(OK), A7);
  }

  /** The peer connects, takes the first byte and acknowledges it. */
  lemma FirstAcknowledged(a: Conn)
    requires Reachable(Pair(a, B2)) && ACK_SEGMENT in a.sent && FIRST_SEGMENT in a.sent && |a.hist.stream| < WORD
    ensures Reachable(Pair(a, B5))
  {
    BConnects();
    RightReaches(a, B2, Arrive(ACK_SEGMENT, 8), B3);
    BTakesFirst();
    RightReaches(a, B3, Arrive(FIRST_SEGMENT, 8), B4);
    BAcknowledges();
    RightReaches(a, B4, Transmit(OK), B5);
  }

  lemma NumberedSoFar()
    ensures A7.hist.stream == [Syn, Data(42)] && |A7.hist.tiles| == 2
    ensures A9.hist.stream == [Syn, Data(42), Data(43)]
    ensures |A9.hist.tiles| == 3 && A9.hist.tiles[2] == Tile(2, ACK_PSH, [43])
  {
    assert A_OPENED.stream == [Syn] && |A_OPENED.tiles| == 1;
    assert Items(ACK_PSH, [42]) == [Data(42)] && Items(ACK_PSH, [43]) == [Data(43)];
  }

  lemma SecondStranded()
    ensures Stranded(A9, 2, 0)
  {
    NumberedSoFar();
    assert A9.sent == [SYN_SEGMENT, ACK_SEGMENT, FIRST_SEGMENT];
    assert |A9.hist.owner| == MAX_UNACKED;
  }

  lemma SecondNotTaken()
    ensures Held(B5, 2)
  {
    assert B5.hist.trace[..1] == [OnConnect] && [OnConnect][..0] == [];
    assert Delivered([OnConnect]) == [];
    assert Delivered(B5.hist.trace) == [42];
  }

  /** Two bytes in flight, the second refused by the IPv4 queue; the acknowledgement of exactly the first releases both
      slots.  The second byte is numbered, in no slot and was never sent: by `StuckForever` no continuation sends it and
      the peer never gets past the first. */
  lemma ReleasedUnsent()
    ensures Reachable(Pair(A8, B5)) && Goes(A8, Arrive(ONE_ACKED, 8), A9) && Reachable(Pair(A9, B5))
    ensures A8.port.unacked[1].inUse && A8.port.unacked[1].seqNum == ONE_ACKED.ackNum && !A9.port.unacked[1].inUse
    ensures A9.hist.stream == [Syn, Data(42), Data(43)] && A9.hist.tiles[2].pos == 2
    ensures Stranded(A9, 2, 0) && Held(B5, 2)
  {
    NumberedSoFar();
    FirstNumbered();
    ANumbersSecond();
    LeftReaches(A7, B2, Transmit(REFUSED), A8);
    FirstAcknowledged(A8);
    AReleasesBoth();
    LeftReaches(A8, B5, Arrive(ONE_ACKED, 8), A9);
    SecondStranded();
    SecondNotTaken();
  }

  // ----- the same with the second byte handed to IPv4 -----

  const SECOND_SEGMENT: Segment := Segment(1, 2, 10, 20, 2, 1, ACK_PSH, [43])
  const E8: Conn := A8.(sent := [SYN_SEGMENT, ACK_SEGMENT, FIRST_SEGMENT, SECOND_SEGMENT])
  const E9: Conn := A9.(sent := [SYN_SEGMENT, ACK_SEGMENT, FIRST_SEGMENT, SECOND_SEGMENT])

  lemma ESendsSecond()
    ensures Goes(A7, Transmit(OK), E8)
  {
    assert FirstFree(A7.port.unacked) == 1;
    TransmitIs(A7, OK);
    NumberedSoFar();
  }

  lemma EReleasesBoth()
    ensures Goes(E8, Arrive(ONE_ACKED, 8), E9)
  {
    BothReached();
    BareAckIs(E8, ONE_ACKED, 2);
    NumberedSoFar();
  }

  /** Two bytes in flight, both sent, only the first received so far; its ordinary acknowledgement releases both slots.
      By `NeverResent` the second byte is never handed to IPv4 again, and by `StuckUnlessBrought` the peer never gets
      past the first in any continuation in which the one copy in the network does not arrive. */
  lemma ReleasedInTransit()
    ensures Reachable(Pair(E8, B5)) && Goes(E8, Arrive(ONE_ACKED, 8), E9) && Reachable(Pair(E9, B5))
    ensures E8.sent[3] == SECOND_SEGMENT && E8.port.unacked[1].inUse && !E9.port.unacked[1].inUse
    ensures E9.hist.stream == [Syn, Data(42), Data(43)] && |E9.hist.tiles| == 3 && E9.hist.tiles[2].pos == 2
    ensures Dropped(E9, 2) && Held(B5, 2)
  {
    NumberedSoFar();
    FirstNumbered();
    ESendsSecond();
    LeftReaches(A7, B2, Transmit(OK), E8);
    FirstAcknowledged(E8);
    EReleasesBoth();
    LeftReaches(E8, B5, Arrive(ONE_ACKED, 8), E9);
    SecondStranded();
    SecondNotTaken();
  }

  // ----- bytes swallowed although the completing segment is bare -----

  const ANSWER_SEGMENT: Segment := Segment(2, 1, 20, 10, 1, 1, ACK_PSH, [7])
  const TWO_SLOTS: seq<Slot> := B_SLOTS[1 := Slot(true, 1, ACK_PSH, ANSWER, 0)]
  const LAST_ACK_SEGMENT: Segment := Segment(1, 2, 10, 20, 2, 2, ACK, [])

  /** `b` sends a byte before it is connected. */
  const C3: Conn := B2.(port := B2.port.(sem := 6), queue := [DataTx(TB, ANSWER)])
  const C4: Conn :=
    C3.(queue := [], port := Row(TB, SynReceived, 1, 2, TWO_SLOTS, 6), sent := [SYN_ACK_SEGMENT, ANSWER_SEGMENT],
        hist := Record(C3.hist, 1, DataTx(TB, ANSWER), 0))
  const C5: Conn :=
    C4.(port := Row(TB, SynReceived, 2, 2, Cleared(TWO_SLOTS, 2), 8), queue := [Tx(TB, 2, ACK, Null)])
  const C6: Conn :=
    C5.(port := C5.port.(state := Established), hist := C5.hist.(trace := [OnConnect], start := 2))

  const D5: Conn := A4.(queue := [DataTx(TA, FIRST)], sent := [SYN_SEGMENT, ACK_SEGMENT])
  const D6: Conn :=
    D5.(queue := [], port := Row(TA, Established, 1, 2, FIRST_SLOTS, 7),
        sent := [SYN_SEGMENT, ACK_SEGMENT, FIRST_SEGMENT], hist := Record(D5.hist, 0, DataTx(TA, FIRST), 0))
  const D7: Conn :=
    D6.(port := Row(TA, Established, 2, 2, Cleared(FIRST_SLOTS, 1), 8), queue := [Tx(TA, 2, ACK, Null)],
        hist := D6.hist.(trace := [OnConnect, OnReceive([7])]))
  const D8: Conn := D7.(queue := [], sent := [SYN_SEGMENT, ACK_SEGMENT, FIRST_SEGMENT, LAST_ACK_SEGMENT])

  lemma CSendsEarly()
    ensures Goes(B2, Send(ANSWER, 8), C3) && Goes(C3, Transmit(OK), C4)
  {
    SendIs(B2, ANSWER);
    assert FirstFree(C3.port.unacked) == 1;
    TransmitIs(C3, OK);
  }

  lemma DSends()
    ensures Goes(A3, Send(FIRST, 8), A4) && Goes(A4, Transmit(OK), D5)
  {
    SendIs(A3, FIRST);
    TransmitAckIs(A4);
  }

  lemma DNumbers()
    ensures Goes(D5, Transmit(OK), D6)
  {
    assert FirstFree(D5.port.unacked) == 0;
    TransmitIs(D5, OK);
  }

  lemma CSwallows()
    ensures Goes(C4, Arrive(FIRST_SEGMENT, 8), C5) && Swallows(C4, Arrive(FIRST_SEGMENT, 8))
  {
    AbsorbIs(C4.port, FIRST_SEGMENT, 2);
    var eff := Receive(C4.port, FIRST_SEGMENT, 0);
    assert eff.port == C5.port && eff.acks == C5.queue && eff.calls == [] && eff.reliable == [];
    ArriveIs(C4, FIRST_SEGMENT, C5);
  }

  lemma DTakesAnswer()
    ensures Goes(D6, Arrive(ANSWER_SEGMENT, 8), D7)
  {
    AbsorbIs(D6.port, ANSWER_SEGMENT, 1);
    var eff := Receive(D6.port, ANSWER_SEGMENT, 0);
    assert eff.port == D7.port && eff.acks == D7.queue && eff.calls == [OnReceive([7])] && eff.reliable == [];
    ArriveIs(D6, ANSWER_SEGMENT, D7);
  }

  lemma DAcknowledges()
    ensures Goes(D7, Transmit(OK), D8)
  {
    TransmitAckIs(D7);
  }

  lemma CConnects()
    ensures Goes(C5, Arrive(LAST_ACK_SEGMENT, 8), C6)
  {
    AbsorbIs(C5.port, LAST_ACK_SEGMENT, 0);
    assert Cleared(C5.port.unacked, 0) == C5.port.unacked;
    var eff := Receive(C5.port, LAST_ACK_SEGMENT, 0);
    assert eff.port == C6.port && eff.acks == [] && eff.calls == [OnConnect] && eff.reliable == [];
    ArriveIs(C5, LAST_ACK_SEGMENT, C6);
  }

  lemma BothSent()
    ensures Reachable(Pair(D6, C4))
  {
    HandshakeOpened();
    CSendsEarly();
    RightReaches(A3, B2, Send(ANSWER, 8), C3);
    RightReaches(A3, C3, Transmit(OK), C4);
    DSends();
    LeftReaches(A3, C4, Send(FIRST, 8), A4);
    LeftReaches(A4, C4, Transmit(OK), D5);
    DNumbers();
    LeftReaches(D5, C4, Transmit(OK), D6);
  }

  lemma AnswerTaken()
    ensures Reachable(Pair(D8, C5))
  {
    BothSent();
    CSwallows();
    RightReaches(D6, C4, Arrive(FIRST_SEGMENT, 8), C5);
    DTakesAnswer();
    LeftReaches(D6, C5, Arrive(ANSWER_SEGMENT, 8), D7);
    DAcknowledges();
    LeftReaches(D7, C5, Transmit(OK), D8);
  }

  lemma LateStart()
    ensures Connected(C6) && !C6.active && C6.hist.start == 2 && Delivered(C6.hist.trace) == []
    ensures D8.hist.stream == [Syn, Data(42)] && !Swallows(C5, Arrive(LAST_ACK_SEGMENT, 8))
  {
    assert [OnConnect][..0] == [];
  }

  lemma CompletionReached()
    ensures Reachable(Pair(D8, C6))
  {
    AnswerTaken();
    CConnects();
    RightReaches(D8, C5, Arrive(LAST_ACK_SEGMENT, 8), C6);
  }

  /** The passive application sends a byte before it is connected, so the peer's first byte does not complete the
      handshake; the bare acknowledgement that does leaves delivery to start after that byte, which is lost. */
  lemma SwallowedBeforeBareCompletion()
    ensures Reachable(Pair(D6, C4)) && Swallows(C4, Arrive(FIRST_SEGMENT, 8)) && FIRST_SEGMENT in D6.sent
    ensures Reachable(Pair(D8, C5)) && !Swallows(C5, Arrive(LAST_ACK_SEGMENT, 8)) && LAST_ACK_SEGMENT in D8.sent
    ensures Reachable(Pair(D8, C6)) && Connected(C6) && !C6.active && C6.hist.start == 2
    ensures D8.hist.stream == [Syn, Data(42)] && Delivered(C6.hist.trace) == []
  {
    BothSent();
    CSwallows();
    AnswerTaken();
    CompletionReached();
    LateStart();
  }
}
