/** The order of the handshake when applications act on a connection only after its `on_connect`. */
module TcpHandshake {
  import opened TcpPort
  import opened TcpConnection
  import opened TcpSoundness
  import opened TcpPair

  predicate Connected(c: Conn) { OnConnect in c.hist.trace }

  /** `a` connects, `b` listens, and neither application sends or closes before its `on_connect`. */
  predicate Disciplined(p: Pair, m: Move) {
    (m.left ==> !m.step.Accept?) && (!m.left ==> !m.step.Connect?) &&
    (m.step.Send? || m.step.Close? ==> Connected(if m.left then p.a else p.b))
  }

  /** Everything the connection has queued, sent or recorded carries the control bits `k`. */
  ghost predicate Only(c: Conn, k: Control) {
    (forall i :: 0 <= i < |c.sent| ==> c.sent[i].control == k) &&
    (forall i :: 0 <= i < |c.queue| ==> c.queue[i].control == k) &&
    (forall i :: 0 <= i < |c.hist.tiles| ==> c.hist.tiles[i].control == k)
  }

  lemma RetryOnly(c: Conn, i: nat, env: Env, k: Control)
    requires Sound(c) && c.phase == Live && Only(c, k) && i < MAX_UNACKED
    ensures Only(RetrySlot(c, i, env), k)
  {
    if Due(c.port.unacked[i], TickOf(c.now)) {
      assert SlotHolds(c.port.unacked[i], c.hist.owner[i], c.hist.tiles, c.hist.last);
    }
  }

  lemma {:induction false} ScanOnly(c: Conn, envs: seq<Env>, n: nat, k: Control)
    requires Sound(c) && c.phase == Live && Only(c, k) && n <= |envs| == MAX_UNACKED
    ensures Only(ScanSlots(c, envs, n), k)
  {
    if n > 0 {
      ScanOnly(c, envs, n - 1, k);
      ScanSlotsSound(c, envs, n - 1);
      RetryOnly(ScanSlots(c, envs, n - 1), n - 1, envs[n - 1], k);
    }
  }

  lemma TransmitOnly(c: Conn, env: Env, k: Control)
    requires Only(c, k) && c.queue != []
    ensures Only(DoTransmit(c, env), k)
  {
  }

  /** Transmitting and scanning add nothing new. */
  lemma NextOnly(c: Conn, step: Step, now: nat, k: Control)
    requires Sound(c) && c.now <= now && Enabled(c.(now := now), step) && Only(c, k)
    requires step.Transmit? || step.Scan?
    ensures Only(Next(c, step, now), k)
  {
    var d := c.(now := now);
    Later(c, now);
    if step.Transmit? { TransmitOnly(d, step.env, k); } else { ScanOnly(d, step.envs, MAX_UNACKED, k); }
  }

  ghost predicate AcksPastSyn(sent: seq<Segment>) {
    forall i :: 0 <= i < |sent| && sent[i].control.ack ==> sent[i].ackNum >= 1
  }

  /** Before its `on_connect` a connection has made no callback and is idle or in its opening state. */
  predicate Opening(c: Conn, state: State) {
    !Connected(c) ==> c.hist.trace == [] && (c.phase == Idle || (c.phase == Live && c.port.state == state))
  }

  ghost predicate Ordered(p: Pair) {
    Opening(p.a, SynSent) && Opening(p.b, SynReceived) &&
    (!Connected(p.a) ==> !Connected(p.b) && Only(p.a, SYN) && Only(p.b, SYN_ACK)) &&
    (Connected(p.a) ==> p.a.port.ackNum >= 1) && AcksPastSyn(p.a.sent) &&
    (p.b.phase != Idle ==> p.b.port.ackNum >= 1) &&
    (Connected(p.b) ==> |p.b.hist.stream| >= 1)
  }

  // ----- what a step may do to the opening -----

  lemma ReceiveAckNum(p: Port, s: Segment, tick: Tick)
    requires p.state != Closed && p.state != Listen && !s.control.rst
    ensures var q := Receive(p, s, tick).port;
            q.ackNum == p.ackNum || (Consumes(s.control, s.bytes) > 0 &&
                                     q.ackNum == Wrap(s.seqNum + Consumes(s.control, s.bytes)))
  {
  }

  lemma HeardAckNum(c: Conn, peer: Conn, s: Segment, room: nat)
    requires Sound(peer) && |peer.hist.stream| < WORD && s in peer.sent && c.port.ackNum >= 1
    requires c.port.state != Closed && c.port.state != Listen && Fits(Receive(c.port, s, TickOf(c.now)), room)
    ensures Heard(c, Receive(c.port, s, TickOf(c.now)), room).port.ackNum >= 1
  {
    SentIsSlice(peer, s);
    SliceEnd(s, peer.hist.stream);
    ReceiveAckNum(c.port, s, TickOf(c.now));
    HeardFields(c, Receive(c.port, s, TickOf(c.now)), room);
  }

  /** The acknowledgement number never returns to zero. */
  lemma AckNumStays(me: Conn, peer: Conn, step: Step, now: nat)
    requires Sound(me) && Sound(peer) && |peer.hist.stream| < WORD && me.phase != Idle && me.port.ackNum >= 1
    requires me.now <= now && Enabled(me.(now := now), step) && FromPeer(step, peer)
    ensures Next(me, step, now).port.ackNum >= 1
  {
    if step.Arrive? { HeardAckNum(me.(now := now), peer, step.s, step.room); } else { NextDeaf(me, step, now); }
  }

  lemma TraceGrows(c: Conn, step: Step, now: nat)
    requires c.now <= now && Enabled(c.(now := now), step)
    ensures Connected(c) ==> Connected(Next(c, step, now))
  {
    if step.Scan? { ScanSpeaks(c.(now := now), step.envs, MAX_UNACKED); }
  }

  /** The active side before `on_connect`: only a SYN+ACK can arrive, and it connects. */
  lemma OpenerHears(a: Conn, b: Conn, s: Segment, room: nat)
    requires Sound(a) && Sound(b) && |b.hist.stream| < WORD && a.phase == Live && a.port.state == SynSent
    requires s in b.sent && s.control == SYN_ACK && Fits(Receive(a.port, s, TickOf(a.now)), room)
    ensures var next := Heard(a, Receive(a.port, s, TickOf(a.now)), room); Connected(next) && next.port.ackNum >= 1
  {
    SentIsSlice(b, s);
    SliceEnd(s, b.hist.stream);
    HeardFields(a, Receive(a.port, s, TickOf(a.now)), room);
  }

  /** The passive side before `on_connect`. */
  lemma ListenerHears(b: Conn, s: Segment, room: nat)
    requires b.phase == Live && b.port.state == SynReceived && b.port.ackNum >= 1 && b.hist.trace == []
    requires !s.control.rst && Fits(Receive(b.port, s, TickOf(b.now)), room)
    ensures var next := Heard(b, Receive(b.port, s, TickOf(b.now)), room);
            (Connected(next) ==> s.control.ack && s.ackNum == b.port.seqNum) &&
            (!Connected(next) ==> next.hist.trace == [] && next.phase == Live && next.port.state == SynReceived) &&
            (s.seqNum == 0 ==> next.queue == b.queue && !Connected(next))
  {
    HeardFields(b, Receive(b.port, s, TickOf(b.now)), room);
  }

  // ----- one move -----

  lemma OpenerConnectedMoves(p: Pair, step: Step, now: nat, next: Conn)
    requires Sound(p.a) && Sound(p.b) && NoWrap(p) && Ordered(p) && Connected(p.a)
    requires CanMove(p, Move(true, step, now)) && next == Next(p.a, step, now)
    ensures Ordered(p.(a := next))
  {
    TraceGrows(p.a, step, now);
    AckNumStays(p.a, p.b, step, now);
    NextSpeaks(p.a, step, now);
  }

  lemma OpenerConnected(p: Pair, next: Conn)
    requires Ordered(p) && next.sent == p.a.sent && Connected(next) && next.port.ackNum >= 1
    ensures Ordered(p.(a := next))
  {
  }

  lemma ConnectShape(c: Conn, room: nat)
    ensures var d := DoConnect(c, room);
            d.phase == Live && d.port.state == SynSent && d.sent == c.sent && d.hist == c.hist &&
            (d.queue == c.queue || d.queue == c.queue + [ReplyTx(FreshPort(c.id, SynSent), c.id.addr, SYN)])
  {
    assert c.queue + [] == c.queue;
  }

  lemma OpenerConnects(p: Pair, step: Step, now: nat, next: Conn)
    requires Ordered(p) && !Connected(p.a) && step.Connect? && p.a.queue == []
    requires p.a.now <= now && Enabled(p.a.(now := now), step) && next == Next(p.a, step, now)
    ensures Ordered(p.(a := next))
  {
    ConnectShape(p.a.(now := now), step.room);
    ConnectedAway(p, next);
  }

  lemma ConnectedAway(p: Pair, next: Conn)
    requires Ordered(p) && !Connected(p.a) && next.hist == p.a.hist && next.sent == p.a.sent
    requires next.phase == Live && next.port.state == SynSent &&
             forall i :: 0 <= i < |next.queue| ==> next.queue[i].control == SYN
    ensures Ordered(p.(a := next))
  {
  }

  lemma OpenerMoves(p: Pair, step: Step, now: nat, next: Conn)
    requires Sound(p.a) && Sound(p.b) && NoWrap(p) && Ordered(p) && !Connected(p.a)
    requires CanMove(p, Move(true, step, now)) && Disciplined(p, Move(true, step, now)) && next == Next(p.a, step, now)
    ensures Ordered(p.(a := next))
  {
    if step.Arrive? {
      Later(p.a, now);
      OpenerHears(p.a.(now := now), p.b, step.s, step.room);
      HeardFields(p.a.(now := now), Receive(p.a.port, step.s, TickOf(now)), step.room);
      OpenerConnected(p, next);
    } else if step.Connect? {
      IdleQueue(p.a);
      OpenerConnects(p, step, now, next);
    } else {
      OpenerQuiet(p, step, now, next);
    }
  }

  lemma IdleQueue(c: Conn)
    requires Sound(c) && c.phase == Idle
    ensures c.queue == []
  {
  }

  lemma OpenerQuiet(p: Pair, step: Step, now: nat, next: Conn)
    requires Sound(p.a) && Ordered(p) && !Connected(p.a) && (step.Transmit? || step.Scan?)
    requires p.a.now <= now && Enabled(p.a.(now := now), step) && next == Next(p.a, step, now)
    ensures Ordered(p.(a := next))
  {
    NextOnly(p.a, step, now, SYN);
    OpenerStays(p.a, step, now);
  }

  lemma OpenerStays(c: Conn, step: Step, now: nat)
    requires Sound(c) && c.phase == Live && c.now <= now && Enabled(c.(now := now), step)
    requires (step.Transmit? || step.Scan?) && (c.port.state == SynSent || c.port.state == SynReceived)
    ensures Next(c, step, now).phase == Live && Next(c, step, now).port.state == c.port.state
    ensures Next(c, step, now).hist.trace == c.hist.trace
  {
    var d := c.(now := now);
    Later(c, now);
    if step.Scan? {
      ScanSpeaks(d, step.envs, MAX_UNACKED);
      ScanSlotsSound(d, step.envs, MAX_UNACKED);
    }
  }

  lemma ListenerConnectedMoves(p: Pair, step: Step, now: nat, next: Conn)
    requires Sound(p.a) && Sound(p.b) && NoWrap(p) && Ordered(p) && Connected(p.b)
    requires CanMove(p, Move(false, step, now)) && next == Next(p.b, step, now)
    ensures Ordered(p.(b := next))
  {
    TraceGrows(p.b, step, now);
    AckNumStays(p.b, p.a, step, now);
    NextSpeaks(p.b, step, now);
  }

  lemma ListenerAccepts(p: Pair, step: Step, now: nat, next: Conn)
    requires Sound(p.a) && Sound(p.b) && NoWrap(p) && Ordered(p) && !Connected(p.b) && step.Accept?
    requires CanMove(p, Move(false, step, now)) && next == Next(p.b, step, now)
    ensures Ordered(p.(b := next))
  {
    SentIsSlice(p.a, step.s);
    AcceptShape(p.b.id.self, step.s, TickOf(now));
    assert Only(next, SYN_ACK);
  }

  lemma ListenerArrives(p: Pair, s: Segment, room: nat, now: nat, next: Conn)
    requires Sound(p.a) && NoWrap(p) && Ordered(p) && !Connected(p.b) && s in p.a.sent
    requires p.b.phase == Live && p.b.port.seqNum == |p.b.hist.stream|
    requires var d := p.b.(now := now);
             Fits(Receive(d.port, s, TickOf(now)), room) && next == Heard(d, Receive(d.port, s, TickOf(now)), room)
    ensures Ordered(p.(b := next))
  {
    var d := p.b.(now := now);
    SentIsSlice(p.a, s);
    ListenerHears(d, s, room);
    HeardAckNum(d, p.a, s, room);
    HeardFields(d, Receive(d.port, s, TickOf(now)), room);
    assert next.hist.tiles == p.b.hist.tiles;
    ListenerAnswered(p, s, next);
  }

  lemma ListenerAnswered(p: Pair, s: Segment, next: Conn)
    requires Ordered(p) && !Connected(p.b) && s in p.a.sent && p.b.port.seqNum == |p.b.hist.stream|
    requires next.sent == p.b.sent && next.hist.stream == p.b.hist.stream && next.hist.tiles == p.b.hist.tiles
    requires next.port.ackNum >= 1 && Opening(next, SynReceived)
    requires Connected(next) ==> s.control.ack && s.ackNum == p.b.port.seqNum
    requires s.control.syn ==> s.seqNum == 0
    requires s.seqNum == 0 ==> next.queue == p.b.queue && !Connected(next)
    ensures Ordered(p.(b := next))
  {
    var i :| 0 <= i < |p.a.sent| && p.a.sent[i] == s;
    if !Connected(p.a) {
      assert p.a.sent[i].control == SYN;
    }
  }

  lemma ListenerMoves(p: Pair, step: Step, now: nat, next: Conn)
    requires Sound(p.a) && Sound(p.b) && NoWrap(p) && Ordered(p) && !Connected(p.b)
    requires CanMove(p, Move(false, step, now)) && Disciplined(p, Move(false, step, now)) &&
             next == Next(p.b, step, now)
    ensures Ordered(p.(b := next))
  {
    if step.Arrive? {
      Later(p.b, now);
      ListenerArrives(p, step.s, step.room, now, next);
    } else if step.Accept? {
      ListenerAccepts(p, step, now, next);
    } else {
      ListenerQuiet(p, step, now, next);
    }
  }

  lemma ListenerQuiet(p: Pair, step: Step, now: nat, next: Conn)
    requires Sound(p.b) && Ordered(p) && !Connected(p.b) && (step.Transmit? || step.Scan?)
    requires p.b.now <= now && Enabled(p.b.(now := now), step) && next == Next(p.b, step, now)
    ensures Ordered(p.(b := next))
  {
    if !Connected(p.a) { NextOnly(p.b, step, now, SYN_ACK); }
    OpenerStays(p.b, step, now);
    NextDeaf(p.b, step, now);
  }

  lemma MovedOrdered(p: Pair, m: Move)
    requires Sound(p.a) && Sound(p.b) && NoWrap(p) && Ordered(p) && CanMove(p, m) && Disciplined(p, m)
    ensures Ordered(Moved(p, m))
  {
    var next := Moved(p, m);
    if m.left && Connected(p.a) { OpenerConnectedMoves(p, m.step, m.now, next.a); }
    else if m.left { OpenerMoves(p, m.step, m.now, next.a); }
    else if Connected(p.b) { ListenerConnectedMoves(p, m.step, m.now, next.b); }
    else { ListenerMoves(p, m.step, m.now, next.b); }
  }

  ghost predicate IsDisciplinedRun(ps: seq<Pair>, ms: seq<Move>) {
    IsRun(ps, ms) && forall i :: 0 <= i < |ms| ==> Disciplined(ps[i], ms[i])
  }

  lemma {:induction false} RunOrdered(ps: seq<Pair>, ms: seq<Move>, n: nat)
    requires IsDisciplinedRun(ps, ms) && n < |ps|
    ensures Ordered(ps[n])
  {
    if n > 0 {
      RunOrdered(ps, ms, n - 1);
      StepOrdered(ps, ms, n - 1);
    }
  }

  lemma StepOrdered(ps: seq<Pair>, ms: seq<Move>, i: nat)
    requires IsDisciplinedRun(ps, ms) && i < |ms| && Ordered(ps[i])
    ensures Ordered(ps[i + 1])
  {
    RunStep(ps, ms, i);
    MovedOrdered(ps[i], ms[i]);
  }
}
