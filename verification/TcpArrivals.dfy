/** What an arriving segment does to a connection past LISTEN, by flags and numbers alone: which state it leads to,
    which callback it makes, what it acknowledges, releases and queues. */
module TcpArrivals {
  import opened TcpPort
  import opened TcpConnection
  import opened TcpSoundness
  import opened TcpPair
  import opened TcpTheorems

  // ----- conditions -----

  /** The segment is looked at: no reset, in sequence (not asked for in SYN_SENT), and with ACK or SYN. */
  predicate Takes(p: Port, s: Segment) {
    !s.control.rst && (p.state == SynSent || s.seqNum == p.ackNum) && (s.control.ack || s.control.syn)
  }

  /** The handshake completes. */
  predicate Completes(p: Port, s: Segment) {
    Takes(p, s) && s.control.ack &&
    ((p.state == SynSent && s.control.syn) || (p.state == SynReceived && s.ackNum == p.seqNum))
  }

  /** The peer closes first. */
  predicate PeerCloses(p: Port, s: Segment) { Takes(p, s) && p.state == Established && s.control.fin }

  /** Everything sent is acknowledged after the peer closed first. */
  predicate Finishes(p: Port, s: Segment) {
    Takes(p, s) && p.state == LastAck && s.control.ack && s.ackNum == p.seqNum
  }

  /** After this side closed first: an acknowledgement, and the peer's FIN. */
  predicate CloseHeard(p: Port, s: Segment) { Takes(p, s) && p.state == FinWait1 && s.control.ack && !s.control.fin }

  predicate PeerFollows(p: Port, s: Segment) {
    Takes(p, s) && (p.state == FinWait1 || p.state == FinWait2) && s.control.fin
  }

  /** New sequence numbers are acknowledged. */
  predicate Acknowledges(p: Port, s: Segment) {
    Takes(p, s) && p.state != LastAck && (s.bytes != [] || s.control.syn || s.control.fin)
  }

  /** The slot is given back. */
  predicate Frees(p: Port, s: Segment, u: Slot) {
    Takes(p, s) && s.control.ack && s.ackNum <= p.seqNum && u.inUse && u.seqNum <= s.ackNum
  }

  function CallsMade(p: Port, s: Segment): seq<Callback> {
    if Completes(p, s) then [OnConnect]
    else if Takes(p, s) && p.state == Established && s.bytes != [] then [OnReceive(s.bytes)]
    else if Finishes(p, s) || PeerFollows(p, s) then [OnDisconnect]
    else []
  }

  /** Sequence numbers the segment occupies: its bytes, and one for SYN or FIN. */
  function Length(s: Segment): nat { |s.bytes| + if s.control.syn || s.control.fin then 1 else 0 }

  // ----- outcomes -----

  /** Each change of state happens on exactly its condition. */
  predicate StateOutcome(p: Port, s: Segment, q: Port) {
    (q.state == Closed <==> s.control.rst || Finishes(p, s)) &&
    (p.state != Established ==> (q.state == Established <==> Completes(p, s))) &&
    (p.state != LastAck ==> (q.state == LastAck <==> PeerCloses(p, s))) &&
    (p.state != FinWait2 ==> (q.state == FinWait2 <==> CloseHeard(p, s))) &&
    (p.state != TimeWait ==> (q.state == TimeWait <==> PeerFollows(p, s))) &&
    (q.state != p.state ==> q.state in {Closed, Established, LastAck, FinWait2, TimeWait})
  }

  /** Numbers and slots of a row that is not reset. */
  ghost predicate NumbersOutcome(p: Port, s: Segment, tick: Tick, q: Port) {
    q.id == p.id && q.seqNum == p.seqNum && |q.unacked| == |p.unacked| &&
    q.ackNum == (if Acknowledges(p, s) then (s.seqNum + Length(s)) % WORD else p.ackNum) &&
    q.enteredAt == (if PeerFollows(p, s) then tick else p.enteredAt) &&
    forall i :: 0 <= i < |p.unacked| ==>
      q.unacked[i] == if Frees(p, s, p.unacked[i]) then p.unacked[i].(inUse := false, data := Null) else p.unacked[i]
  }

  /** A row that was reset: unused, no payload left in a slot, and all slots may be taken. */
  predicate Emptied(q: Port) {
    q.state == Closed && q.id.self == 0 && q.sem == MAX_UNACKED &&
    forall k :: 0 <= k < |q.unacked| && q.unacked[k].inUse ==> q.unacked[k].data == Null
  }

  /** What is sent back: an acknowledgement at once, and a FIN of this side's own when the peer closes first. */
  function AckBack(p: Port, s: Segment): seq<Tx> {
    if Acknowledges(p, s) then [Tx(Triple(p.id.self, p.id.other, s.srcAddr), p.seqNum, ACK, Null)] else []
  }

  function FinBack(p: Port, s: Segment): seq<Tx> {
    if PeerCloses(p, s) then [Tx(Triple(p.id.self, p.id.other, s.srcAddr), p.seqNum, FIN_ACK, Null)] else []
  }

  predicate PastOpen(p: Port) { p.state !in {Closed, Listen, CloseWait} }

  lemma AbsorbOutcome(p: Port, s: Segment)
    requires PastOpen(p) && Takes(p, s)
    ensures var q := Absorb(p, s);
            q == p.(unacked := q.unacked, sem := q.sem, ackNum := q.ackNum) && |q.unacked| == |p.unacked| &&
            q.ackNum == (if Acknowledges(p, s) then (s.seqNum + Length(s)) % WORD else p.ackNum) &&
            forall i :: 0 <= i < |p.unacked| ==>
              q.unacked[i] == if Frees(p, s, p.unacked[i]) then p.unacked[i].(inUse := false, data := Null)
                else p.unacked[i]
    ensures AckFor(p, s) == AckBack(p, s)
  {
    WrapIsMod(s.seqNum + Length(s));
  }

  /** Everything an arrival does, before a reliable reply is enqueued. */
  lemma ReceiveOutcome(p: Port, s: Segment, tick: Tick)
    requires PastOpen(p)
    ensures var e := Receive(p, s, tick);
            StateOutcome(p, s, e.port) &&
            (if e.port.state == Closed then Emptied(e.port) else NumbersOutcome(p, s, tick, e.port)) &&
            e.calls == CallsMade(p, s) && e.acks == (if s.control.rst then [] else AckBack(p, s)) &&
            e.reliable == FinBack(p, s)
  {
    if Takes(p, s) {
      AbsorbOutcome(p, s);
      SwitchOutcome(Absorb(p, s), p, s, tick, AckFor(p, s), AbsorbMem(p, s));
    }
  }

  lemma SwitchOutcome(q: Port, p: Port, s: Segment, tick: Tick, acks: seq<Tx>, mem: seq<MemEvent>)
    requires PastOpen(p) && Takes(p, s) && q == p.(unacked := q.unacked, sem := q.sem, ackNum := q.ackNum)
    ensures var e := Switch(q, s, tick, acks, mem);
            StateOutcome(p, s, e.port) && e.calls == CallsMade(p, s) && e.acks == acks && e.reliable == FinBack(p, s) &&
            (e.port.state == Closed ==> Emptied(e.port)) &&
            (e.port.state != Closed ==>
               e.port == q.(state := e.port.state, enteredAt := if PeerFollows(p, s) then tick else p.enteredAt))
  {
  }

  // ----- one connection -----

  /** What hearing `s` at time `now` makes of connection `c`. */
  ghost predicate ArrivalOutcome(c: Conn, s: Segment, room: nat, now: nat, d: Conn) {
    var p := c.port;
    (d.phase == Dead <==> s.control.rst || Finishes(p, s)) && (d.phase != Dead ==> d.phase == Live) &&
    StateOutcome(p, s, d.port) && (d.phase == Live ==> NumbersOutcome(p, s, TickOf(now), d.port)) &&
    d.hist.trace == c.hist.trace + CallsMade(p, s) && d.sent == c.sent && d.hist.stream == c.hist.stream &&
    d.queue == c.queue + Replies(p, s, room)
  }

  /** The replies that find room in the send queue. */
  function Replies(p: Port, s: Segment, room: nat): seq<Tx> {
    var acks := if s.control.rst then [] else AckBack(p, s);
    acks + if |acks| < room then FinBack(p, s) else []
  }

  lemma LivePastOpen(c: Conn)
    requires Sound(c) && c.phase == Live
    ensures PastOpen(c.port)
  {
  }

  lemma HeardQueueIs(c: Conn, eff: Effect, room: nat)
    requires Fits(eff, room) && |eff.reliable| <= 1 && (eff.port.state == Closed ==> eff.reliable == [])
    ensures var d := Heard(c, eff, room);
            d.queue == c.queue + (eff.acks + if |eff.acks| < room then eff.reliable else []) &&
            d.port == eff.port.(sem := d.port.sem) && d.hist.trace == c.hist.trace + eff.calls &&
            d.sent == c.sent && d.hist.stream == c.hist.stream
    ensures Heard(c, eff, room).phase == if eff.port.state == Closed then Dead else c.phase
  {
    assert eff.reliable != [] ==> eff.reliable == [eff.reliable[0]];
    assert c.queue + eff.acks + [] == c.queue + (eff.acks + []);
  }

  lemma HeardOutcome(c: Conn, s: Segment, room: nat)
    requires Sound(c) && Enabled(c, Arrive(s, room))
    ensures ArrivalOutcome(c, s, room, c.now, Heard(c, Receive(c.port, s, TickOf(c.now)), room))
  {
    LivePastOpen(c);
    ReceiveOutcome(c.port, s, TickOf(c.now));
    HeardQueueIs(c, Receive(c.port, s, TickOf(c.now)), room);
    var eff := Receive(c.port, s, TickOf(c.now));
    OutcomeIs(c, s, room, eff, Heard(c, eff, room));
  }

  lemma OutcomeIs(c: Conn, s: Segment, room: nat, eff: Effect, d: Conn)
    requires c.phase == Live && StateOutcome(c.port, s, eff.port) && eff.calls == CallsMade(c.port, s)
    requires eff.port.state != Closed ==> NumbersOutcome(c.port, s, TickOf(c.now), eff.port)
    requires eff.acks == if s.control.rst then [] else AckBack(c.port, s)
    requires eff.reliable == FinBack(c.port, s)
    requires d.phase == (if eff.port.state == Closed then Dead else c.phase) && d.sent == c.sent
    requires d.port == eff.port.(sem := d.port.sem) && d.hist.trace == c.hist.trace + eff.calls
    requires d.hist.stream == c.hist.stream
    requires d.queue == c.queue + (eff.acks + if |eff.acks| < room then eff.reliable else [])
    ensures ArrivalOutcome(c, s, room, c.now, d)
  {
  }

  /** In every run, every arrival at a live connection has exactly this outcome: the connection ends on a reset or on
      the acknowledgement of everything in LAST_ACK and on nothing else, and every other change of state, callback,
      number, slot and reply comes on exactly its condition. */
  lemma ArrivalInRun(cs: seq<Conn>, ts: seq<Timed>, n: nat)
    requires IsConnRun(cs, ts) && n < |ts| && ts[n].step.Arrive?
    ensures ArrivalOutcome(cs[n], ts[n].step.s, ts[n].step.room, ts[n].now, cs[n + 1])
  {
    ConnRunSound(cs, ts, n);
    assert StepsAt(cs, ts, n);
    Later(cs[n], ts[n].now);
    HeardOutcome(cs[n].(now := ts[n].now), ts[n].step.s, ts[n].step.room);
  }

  // ----- a passive close completes -----

  /** `cs` is a run from `c` by the steps `ts`. */
  ghost predicate RunsFrom(c: Conn, cs: seq<Conn>, ts: seq<Timed>) {
    |cs| == |ts| + 1 && cs[0] == c && forall i :: 0 <= i < |ts| ==> StepsAt(cs, ts, i)
  }

  lemma RunsOn(c: Conn, cs: seq<Conn>, ts: seq<Timed>, t: Timed, d: Conn)
    requires RunsFrom(c, cs, ts) && cs[|ts|].now <= t.now && Enabled(cs[|ts|].(now := t.now), t.step)
    requires d == Next(cs[|ts|], t.step, t.now)
    ensures RunsFrom(c, cs + [d], ts + [t])
  {
    forall i | 0 <= i < |ts + [t]| ensures StepsAt(cs + [d], ts + [t], i) {
      if i < |ts| { assert StepsAt(cs, ts, i); }
    }
  }

  lemma FirstStep(c: Conn, t: Timed)
    requires t.now == c.now && Enabled(c, t.step)
    ensures RunsFrom(c, [c, Next(c, t.step, t.now)], [t])
  {
    assert c.(now := c.now) == c;
    assert StepsAt([c, Next(c, t.step, t.now)], [t], 0);
  }

  const OK: Env := Env(true, true)

  /** With memory and room the head of the queue leaves as a segment. */
  lemma TransmitSends(c: Conn)
    requires Sound(c) && c.phase == Live && c.queue != []
    ensures var d := DoTransmit(c, OK);
            Sound(d) && d.phase == Live && d.queue == c.queue[1..] && d.port.state == c.port.state &&
            d.port.ackNum == c.port.ackNum && d.hist.trace == c.hist.trace && d.id == c.id && d.now == c.now &&
            |d.sent| == |c.sent| + 1 && d.sent[..|c.sent|] == c.sent && d.sent[|c.sent|].control == c.queue[0].control
  {
    TransmitSound(c, OK);
    assert TxOk(c.queue[0], c.id, c.hist.stream);
    if Consumes(c.queue[0].control, Bytes(c.queue[0].data)) > 0 { TransmitIsRecorded(c, OK); }
  }

  /** A segment with these flags was handed to IPv4 between two states. */
  ghost predicate SentSince(c: Conn, d: Conn, control: Control) {
    exists x :: |c.sent| <= x < |d.sent| && d.sent[x].control == control
  }

  /** Transmitting the whole queue. */
  lemma {:induction false} Drains(b: Conn, bs: seq<Conn>, us: seq<Timed>) returns (cs: seq<Conn>, ts: seq<Timed>)
    requires RunsFrom(b, bs, us) && Sound(bs[|us|]) && bs[|us|].phase == Live
    ensures RunsFrom(b, cs, ts) && us <= ts && bs <= cs
    ensures forall i :: |us| <= i < |ts| ==> ts[i].step == Transmit(OK)
    ensures var c, d := bs[|us|], cs[|ts|];
            Sound(d) && d.phase == Live && d.queue == [] && d.port.state == c.port.state &&
            d.port.ackNum == c.port.ackNum && d.hist.trace == c.hist.trace && d.id == c.id && d.now == c.now &&
            c.sent <= d.sent && forall tx <- c.queue :: SentSince(c, d, tx.control)
    decreases |bs[|us|].queue|
  {
    var c := bs[|us|];
    if c.queue == [] {
      cs, ts := bs, us;
    } else {
      TransmitSends(c);
      var d := DoTransmit(c, OK);
      assert c.(now := c.now) == c;
      RunsOn(b, bs, us, Timed(Transmit(OK), c.now), d);
      cs, ts := Drains(b, bs + [d], us + [Timed(Transmit(OK), c.now)]);
      var last := cs[|ts|];
      forall tx | tx in c.queue ensures SentSince(c, last, tx.control) {
        if tx in d.queue {
          assert SentSince(d, last, tx.control);
        } else {
          assert last.sent[|c.sent|].control == tx.control;
        }
      }
    }
  }

  lemma ReleaseGives(p: Port, s: Segment)
    requires p.sem > 0
    ensures Absorb(p, s).sem > 0
  {
  }

  /** Hearing the peer's FIN in ESTABLISHED with a slot free. */
  lemma HearsFin(c: Conn, s: Segment)
    requires Sound(c) && c.phase == Live && c.port.sem > 0 && Addressed(c.id, s) && PeerCloses(c.port, s)
    ensures Enabled(c, Arrive(s, 2))
    ensures var d := Next(c, Arrive(s, 2), c.now);
            Sound(d) && d.phase == Live && d.port.state == LastAck && d.id == c.id && d.sent == c.sent &&
            d.now == c.now &&
            Tx(c.id, c.port.seqNum, FIN_ACK, Null) in d.queue && d.hist.trace == c.hist.trace + CallsMade(c.port, s)
  {
    LivePastOpen(c);
    assert c.(now := c.now) == c;
    ReceiveOutcome(c.port, s, TickOf(c.now));
    ReleaseGives(c.port, s);
    var eff := Receive(c.port, s, TickOf(c.now));
    assert eff.port.sem == Absorb(c.port, s).sem;
    HeardOutcome(c, s, 2);
    NextSound(c, Arrive(s, 2), c.now);
    var d := Next(c, Arrive(s, 2), c.now);
    assert d.queue == c.queue + (AckBack(c.port, s) + FinBack(c.port, s));
    assert FinBack(c.port, s)[0] in d.queue;
  }

  function LastAckFor(c: Conn): Segment {
    Segment(c.id.addr, c.self, c.id.other, c.id.self, c.port.ackNum, c.port.seqNum, ACK, [])
  }

  lemma HearsLastAck(c: Conn)
    requires Sound(c) && c.phase == Live && c.port.state == LastAck
    ensures Enabled(c, Arrive(LastAckFor(c), 0))
    ensures var d := Next(c, Arrive(LastAckFor(c), 0), c.now);
            d.phase == Dead && d.hist.trace == c.hist.trace + [OnDisconnect] && d.sent == c.sent
  {
    assert c.(now := c.now) == c;
    ReceiveOutcome(c.port, LastAckFor(c), TickOf(c.now));
    HeardOutcome(c, LastAckFor(c), 0);
  }

  /** A passive close completes: from any ESTABLISHED state with a slot and room, hearing the peer's FIN, transmitting
      what is queued and hearing the acknowledgement of it all ends the connection, with its own FIN sent and the
      disconnection reported. */
  lemma PassiveCloseCompletes(c: Conn, s: Segment) returns (cs: seq<Conn>, ts: seq<Timed>)
    requires Sound(c) && c.phase == Live && c.port.sem > 0 && Addressed(c.id, s) && PeerCloses(c.port, s)
    ensures RunsFrom(c, cs, ts) && |ts| >= 2 && ts[0].step == Arrive(s, 2)
    ensures forall i :: 1 <= i < |ts| - 1 ==> ts[i].step == Transmit(OK)
    ensures ts[|ts| - 1].step == Arrive(LastAckFor(cs[|ts| - 1]), 0)
    ensures cs[|ts|].phase == Dead && cs[|ts|].hist.trace == c.hist.trace + CallsMade(c.port, s) + [OnDisconnect]
    ensures SentSince(c, cs[|ts|], FIN_ACK)
  {
    cs, ts := FinAnswered(c, s);
    var e := cs[|ts|];
    var f := LastAckEnds(c, cs, ts);
    cs, ts := cs + [f], ts + [Timed(Arrive(LastAckFor(e), 0), e.now)];
  }

  /** Up to the moment everything queued has left. */
  lemma FinAnswered(c: Conn, s: Segment) returns (cs: seq<Conn>, ts: seq<Timed>)
    requires Sound(c) && c.phase == Live && c.port.sem > 0 && Addressed(c.id, s) && PeerCloses(c.port, s)
    ensures RunsFrom(c, cs, ts) && |ts| >= 1 && ts[0].step == Arrive(s, 2)
    ensures forall i :: 1 <= i < |ts| ==> ts[i].step == Transmit(OK)
    ensures var e := cs[|ts|];
            Sound(e) && e.phase == Live && e.port.state == LastAck && SentSince(c, e, FIN_ACK) &&
            e.hist.trace == c.hist.trace + CallsMade(c.port, s)
  {
    HearsFin(c, s);
    var d := Next(c, Arrive(s, 2), c.now);
    var bs, us := [c, d], [Timed(Arrive(s, 2), c.now)];
    FirstStep(c, Timed(Arrive(s, 2), c.now));
    cs, ts := Drains(c, bs, us);
    assert SentSince(d, cs[|ts|], FIN_ACK);
  }

  lemma LastAckEnds(c: Conn, cs: seq<Conn>, ts: seq<Timed>) returns (f: Conn)
    requires RunsFrom(c, cs, ts) && Sound(cs[|ts|]) && cs[|ts|].phase == Live && cs[|ts|].port.state == LastAck
    ensures var e := cs[|ts|];
            RunsFrom(c, cs + [f], ts + [Timed(Arrive(LastAckFor(e), 0), e.now)]) && f.phase == Dead &&
            f.hist.trace == e.hist.trace + [OnDisconnect] && f.sent == e.sent
  {
    var e := cs[|ts|];
    HearsLastAck(e);
    assert e.(now := e.now) == e;
    f := Next(e, Arrive(LastAckFor(e), 0), e.now);
    RunsOn(c, cs, ts, Timed(Arrive(LastAckFor(e), 0), e.now), f);
  }
}
