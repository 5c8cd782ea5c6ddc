/** What the release test `seq_num <= ack` can cost: a first transmission released before it arrived is never handed to
    IPv4 again, and unless a copy still in the network arrives the peer never gets past it. */
module TcpStranded {
  import opened TcpPort
  import opened TcpConnection
  import opened TcpSoundness
  import opened TcpPair
  import opened TcpTheorems

  /** The segment consumes sequence numbers from `pos` on. */
  predicate StartsAt(s: Segment, pos: nat) { Consumes(s.control, s.bytes) > 0 && s.seqNum == pos }

  /** From index `base` on no segment carries the numbers at `pos`. */
  ghost predicate UnsentFrom(sent: seq<Segment>, base: nat, pos: nat) {
    forall i :: base <= i < |sent| ==> !StartsAt(sent[i], pos)
  }

  /** No in-use slot holds tile `k`. */
  ghost predicate Unheld(c: Conn, k: nat) {
    |c.port.unacked| == MAX_UNACKED == |c.hist.owner| &&
    forall i :: 0 <= i < MAX_UNACKED && c.port.unacked[i].inUse ==> c.hist.owner[i] != k
  }

  /** Tile `k` was numbered and no slot of the live connection holds it any more. */
  ghost predicate Dropped(c: Conn, k: nat) {
    k < |c.hist.tiles| && (c.phase == Live ==> Unheld(c, k))
  }

  /** Tile `k` has been dropped, and since index `base` no segment has carried it. */
  ghost predicate Stranded(c: Conn, k: nat, base: nat) {
    Dropped(c, k) && UnsentFrom(c.sent, base, c.hist.tiles[k].pos)
  }

  lemma RetryStranded(c: Conn, i: nat, env: Env, k: nat, base: nat)
    requires Sound(c) && c.phase == Live && |c.hist.stream| < WORD && Stranded(c, k, base) && i < MAX_UNACKED
    ensures Stranded(RetrySlot(c, i, env), k, base)
  {
    if Due(c.port.unacked[i], TickOf(c.now)) {
      var j := c.hist.owner[i];
      assert SlotHolds(c.port.unacked[i], j, c.hist.tiles, c.hist.last);
      OtherTile(c, j, k);
    }
  }

  lemma {:induction false} ScanStranded(c: Conn, envs: seq<Env>, n: nat, k: nat, base: nat)
    requires Sound(c) && c.phase == Live && |c.hist.stream| < WORD && Stranded(c, k, base) && n <= |envs| == MAX_UNACKED
    ensures Stranded(ScanSlots(c, envs, n), k, base) && ScanSlots(c, envs, n).hist.tiles == c.hist.tiles
    ensures ScanSlots(c, envs, n).hist.stream == c.hist.stream
  {
    if n > 0 {
      ScanStranded(c, envs, n - 1, k, base);
      ScanSlotsSound(c, envs, n - 1);
      ScanKeepsPhase(c, envs, n - 1);
      RetryStranded(ScanSlots(c, envs, n - 1), n - 1, envs[n - 1], k, base);
    }
  }

  lemma TransmitStranded(c: Conn, env: Env, k: nat, base: nat)
    requires Sound(c) && c.phase == Live && c.queue != [] && |c.hist.stream| < WORD && Stranded(c, k, base)
    ensures Stranded(DoTransmit(c, env), k, base)
  {
    var tx := c.queue[0];
    assert TileOk(c.hist.stream, c.hist.tiles, k);
    assert TxOk(tx, c.id, c.hist.stream);
    if env.allocOk && Consumes(tx.control, Bytes(tx.data)) > 0 {
      TransmitIsRecorded(c, env);
    }
  }

  lemma HeardStranded(c: Conn, eff: Effect, room: nat, k: nat, base: nat)
    requires Stranded(c, k, base) && Fits(eff, room) &&
             (c.phase == Live ==> Answered(c.port, eff.port) || eff.port.state == Closed)
    requires |eff.reliable| <= 1
    ensures Stranded(Heard(c, eff, room), k, base)
  {
  }

  lemma NextStranded(c: Conn, step: Step, now: nat, k: nat, base: nat)
    requires Sound(c) && |c.hist.stream| < WORD && Stranded(c, k, base) && c.now <= now && Enabled(c.(now := now), step)
    ensures Stranded(Next(c, step, now), k, base)
  {
    var d := c.(now := now);
    Later(c, now);
    match step
    case Transmit(env) => TransmitStranded(d, env, k, base);
    case Arrive(s, room) =>
      ReceiveShape(d.port, s, TickOf(now));
      HeardStranded(d, Receive(d.port, s, TickOf(now)), room, k, base);
    case Scan(envs) => ScanStranded(d, envs, MAX_UNACKED, k, base);
    case _ =>
  }

  // ----- the receiving side -----

  /** The receiver is past its opening, and neither its acknowledgement number nor what it delivered is past `limit`. */
  predicate Held(r: Conn, limit: nat) {
    r.phase != Idle && (r.phase == Live ==> r.port.state != SynSent) && r.port.ackNum <= limit &&
    r.hist.start + |Delivered(r.hist.trace)| <= limit
  }

  /** A segment that starts before a tile ends before it. */
  lemma EndsBefore(c: Conn, k: nat, s: Segment)
    requires Sound(c) && |c.hist.stream| < WORD && k < |c.hist.tiles| && s in c.sent
    requires Consumes(s.control, s.bytes) > 0 && s.seqNum < c.hist.tiles[k].pos
    ensures s.seqNum + Consumes(s.control, s.bytes) <= c.hist.tiles[k].pos
  {
    var i :| 0 <= i < |c.sent| && c.sent[i] == s;
    assert SentOk(s, c.hist.stream, c.hist.tiles);
    var j :| 0 <= j < |c.hist.tiles| && Repeats(s, c.hist.tiles[j]);
    assert TileOk(c.hist.stream, c.hist.tiles, j);
    assert Wrap(c.hist.tiles[j].pos) == c.hist.tiles[j].pos;
    OtherTile(c, j, k);
  }

  /** The callbacks an arrival past the opening may make, and the acknowledgement number it leaves. */
  predicate PastOpening(p: Port, s: Segment, e: Effect) {
    e.port.state != SynSent &&
    (e.port.ackNum == p.ackNum ||
     (Consumes(s.control, s.bytes) > 0 && s.seqNum == p.ackNum &&
      e.port.ackNum == Wrap(s.seqNum + Consumes(s.control, s.bytes)))) &&
    (e.calls == [] || e.calls == [OnDisconnect] || (e.calls == [OnConnect] && p.state == SynReceived) ||
     (e.calls == [OnReceive(s.bytes)] && s.bytes != [] && p.state == Established && s.seqNum == p.ackNum))
  }

  lemma SwitchPastOpening(p: Port, s: Segment, tick: Tick, acks: seq<Tx>, mem: seq<MemEvent>)
    requires p.state !in {Closed, Listen, SynSent}
    ensures var e := Switch(p, s, tick, acks, mem);
            e.port.state != SynSent && e.port.ackNum == p.ackNum &&
            (e.calls == [] || e.calls == [OnDisconnect] || (e.calls == [OnConnect] && p.state == SynReceived) ||
             (e.calls == [OnReceive(s.bytes)] && s.bytes != [] && p.state == Established))
  {
  }

  lemma ReceivePastOpening(p: Port, s: Segment, tick: Tick)
    requires p.state !in {Closed, Listen, SynSent} && !s.control.rst
    ensures PastOpening(p, s, Receive(p, s, tick))
  {
    if !Ignored(p, s) { SwitchPastOpening(Absorb(p, s), s, tick, AckFor(p, s), AbsorbMem(p, s)); }
  }

  lemma HeardHeld(r: Conn, s: Segment, eff: Effect, room: nat, limit: nat)
    requires Held(r, limit) && r.phase == Live && Fits(eff, room) && eff.port.state != SynSent
    requires eff.port.ackNum <= limit
    requires eff.calls == [] || eff.calls == [OnDisconnect] || (eff.calls == [OnConnect] && r.hist.trace == []) ||
             (eff.calls == [OnReceive(s.bytes)] && r.hist.start + |Delivered(r.hist.trace)| + |s.bytes| <= limit)
    ensures Held(Heard(r, eff, room), limit)
  {
    HeardFields(r, eff, room);
    DeliveredAppend(r.hist.trace, eff.calls);
    assert eff.calls != [] ==> eff.calls[..0] == [] && Delivered(eff.calls[..0]) == [];
  }

  lemma ArriveHeld(c: Conn, r: Conn, s: Segment, room: nat, k: nat)
    requires Sound(c) && Sound(r) && |c.hist.stream| < WORD && Dir(c, r) && k < |c.hist.tiles| && s in c.sent
    requires !StartsAt(s, c.hist.tiles[k].pos)
    requires Held(r, c.hist.tiles[k].pos) && r.phase == Live && Fits(Receive(r.port, s, TickOf(r.now)), room)
    ensures Held(Heard(r, Receive(r.port, s, TickOf(r.now)), room), c.hist.tiles[k].pos)
  {
    SentIsSlice(c, s);
    SliceEnd(s, c.hist.stream);
    ReceivePastOpening(r.port, s, TickOf(r.now));
    if Consumes(s.control, s.bytes) > 0 && s.seqNum < c.hist.tiles[k].pos { EndsBefore(c, k, s); }
    HeardHeld(r, s, Receive(r.port, s, TickOf(r.now)), room, c.hist.tiles[k].pos);
  }

  /** The step takes in a segment that carries the numbers at `pos`. */
  predicate Brings(step: Step, pos: nat) { step.Arrive? && StartsAt(step.s, pos) }

  lemma NextHeld(c: Conn, r: Conn, step: Step, now: nat, k: nat)
    requires Sound(c) && Sound(r) && |c.hist.stream| < WORD && Dir(c, r) && k < |c.hist.tiles|
    requires !Brings(step, c.hist.tiles[k].pos)
    requires Held(r, c.hist.tiles[k].pos) && r.now <= now && Enabled(r.(now := now), step) && FromPeer(step, c)
    ensures Held(Next(r, step, now), c.hist.tiles[k].pos)
  {
    if step.Arrive? {
      Later(r, now);
      ArriveHeld(c, r.(now := now), step.s, step.room, k);
    } else {
      NextDeaf(r, step, now);
      NextPastOpening(r, step, now);
    }
  }

  lemma NextPastOpening(r: Conn, step: Step, now: nat)
    requires r.now <= now && Enabled(r.(now := now), step) && !step.Arrive?
    requires r.phase != Idle && (r.phase == Live ==> r.port.state != SynSent)
    ensures var d := Next(r, step, now); d.phase != Idle && (d.phase == Live ==> d.port.state != SynSent)
  {
    if step.Scan? {
      ScanSpeaks(r.(now := now), step.envs, MAX_UNACKED);
      ScanKeepsPhase(r.(now := now), step.envs, MAX_UNACKED);
    }
  }

  // ----- every continuation: the sender -----

  lemma MovedStranded(p: Pair, m: Move, left: bool, k: nat, base: nat)
    requires Agree(p) && NoWrap(p) && CanMove(p, m) && Stranded(SideOf(p, left), k, base)
    ensures Stranded(SideOf(Moved(p, m), left), k, base) && KeepsTile(SideOf(p, left), SideOf(Moved(p, m), left), k)
  {
    if m.left == left {
      NextStranded(SideOf(p, left), m.step, m.now, k, base);
      NextSpeaks(SideOf(p, left), m.step, m.now);
    }
  }

  predicate KeepsTile(c: Conn, d: Conn, k: nat) {
    k < |c.hist.tiles| && k < |d.hist.tiles| && d.hist.tiles[k] == c.hist.tiles[k]
  }

  lemma StepStranded(ps: seq<Pair>, ms: seq<Move>, i: nat, left: bool, k: nat, base: nat)
    requires IsRun(ps, ms) && i < |ms| && Stranded(SideOf(ps[i], left), k, base)
    ensures Stranded(SideOf(ps[i + 1], left), k, base) && KeepsTile(SideOf(ps[i], left), SideOf(ps[i + 1], left), k)
  {
    RunStep(ps, ms, i);
    MovedStranded(ps[i], ms[i], left, k, base);
  }

  lemma {:induction false} RunStranded(ps: seq<Pair>, ms: seq<Move>, i: nat, n: nat, left: bool, k: nat, base: nat)
    requires IsRun(ps, ms) && i <= n < |ps| && Stranded(SideOf(ps[i], left), k, base)
    ensures Stranded(SideOf(ps[n], left), k, base) && KeepsTile(SideOf(ps[i], left), SideOf(ps[n], left), k)
    decreases n - i
  {
    if i < n {
      RunStranded(ps, ms, i, n - 1, left, k, base);
      StepStranded(ps, ms, n - 1, left, k, base);
    }
  }

  /** Once a first transmission is in no slot, whether or not copies of it were sent before, no continuation hands IPv4
      another segment at its sequence number. */
  lemma NeverResent(ps: seq<Pair>, ms: seq<Move>, i: nat, n: nat, left: bool, k: nat)
    requires IsRun(ps, ms) && i <= n < |ps| && Dropped(SideOf(ps[i], left), k)
    ensures Dropped(SideOf(ps[n], left), k)
    ensures UnsentFrom(SideOf(ps[n], left).sent, |SideOf(ps[i], left).sent|, SideOf(ps[i], left).hist.tiles[k].pos)
  {
    RunStranded(ps, ms, i, n, left, k, |SideOf(ps[i], left).sent|);
  }

  // ----- every continuation: the receiver -----

  /** Move `j` brings the side opposite to `left` a segment that carries the numbers at `pos`. */
  predicate BringsAt(ms: seq<Move>, j: nat, left: bool, pos: nat) {
    j < |ms| && ms[j].left != left && Brings(ms[j].step, pos)
  }

  lemma MovedHeld(p: Pair, m: Move, left: bool, k: nat)
    requires Agree(p) && NoWrap(p) && CanMove(p, m) && k < |SideOf(p, left).hist.tiles|
    requires Held(SideOf(p, !left), SideOf(p, left).hist.tiles[k].pos)
    requires m.left != left ==> !Brings(m.step, SideOf(p, left).hist.tiles[k].pos)
    ensures Held(SideOf(Moved(p, m), !left), SideOf(p, left).hist.tiles[k].pos)
    ensures KeepsTile(SideOf(p, left), SideOf(Moved(p, m), left), k)
  {
    if m.left == left {
      NextSpeaks(SideOf(p, left), m.step, m.now);
    } else {
      NextHeld(SideOf(p, left), SideOf(p, !left), m.step, m.now, k);
    }
  }

  lemma StepHeld(ps: seq<Pair>, ms: seq<Move>, i: nat, left: bool, k: nat, pos: nat)
    requires IsRun(ps, ms) && i < |ms| && k < |SideOf(ps[i], left).hist.tiles|
    requires SideOf(ps[i], left).hist.tiles[k].pos == pos && Held(SideOf(ps[i], !left), pos)
    requires !BringsAt(ms, i, left, pos)
    ensures Held(SideOf(ps[i + 1], !left), pos) && KeepsTile(SideOf(ps[i], left), SideOf(ps[i + 1], left), k)
  {
    RunStep(ps, ms, i);
    MovedHeld(ps[i], ms[i], left, k);
  }

  lemma {:induction false} RunHeld(ps: seq<Pair>, ms: seq<Move>, i: nat, n: nat, left: bool, k: nat, pos: nat)
    requires IsRun(ps, ms) && i <= n < |ps| && k < |SideOf(ps[i], left).hist.tiles|
    requires SideOf(ps[i], left).hist.tiles[k].pos == pos && Held(SideOf(ps[i], !left), pos)
    requires forall j :: i <= j < n ==> !BringsAt(ms, j, left, pos)
    ensures Held(SideOf(ps[n], !left), pos) && KeepsTile(SideOf(ps[i], left), SideOf(ps[n], left), k)
    decreases n - i
  {
    if i < n {
      RunHeld(ps, ms, i, n - 1, left, k, pos);
      StepHeld(ps, ms, n - 1, left, k, pos);
    }
  }

  /** A receiver short of a tile never acknowledges or delivers past it in any continuation in which no segment that
      carries it arrives.  Once the tile is dropped only copies sent before that can (`NeverResent`). */
  lemma StuckUnlessBrought(ps: seq<Pair>, ms: seq<Move>, i: nat, n: nat, left: bool, k: nat)
    requires IsRun(ps, ms) && i <= n < |ps| && Dropped(SideOf(ps[i], left), k)
    requires Held(SideOf(ps[i], !left), SideOf(ps[i], left).hist.tiles[k].pos)
    requires forall j :: i <= j < n ==> !BringsAt(ms, j, left, SideOf(ps[i], left).hist.tiles[k].pos)
    ensures Held(SideOf(ps[n], !left), SideOf(ps[i], left).hist.tiles[k].pos)
    ensures UnsentFrom(SideOf(ps[n], left).sent, |SideOf(ps[i], left).sent|, SideOf(ps[i], left).hist.tiles[k].pos)
  {
    RunHeld(ps, ms, i, n, left, k, SideOf(ps[i], left).hist.tiles[k].pos);
    NeverResent(ps, ms, i, n, left, k);
  }

  /** What arrives was sent: an arrival that carries a tile needs a segment that carries it in the peer's log. */
  lemma BroughtWasSent(ps: seq<Pair>, ms: seq<Move>, j: nat, left: bool, pos: nat)
    requires IsRun(ps, ms) && BringsAt(ms, j, left, pos)
    ensures !UnsentFrom(SideOf(ps[j], left).sent, 0, pos)
  {
    RunStep(ps, ms, j);
    var x :| 0 <= x < |SideOf(ps[j], left).sent| && SideOf(ps[j], left).sent[x] == ms[j].step.s;
  }

  /** A dropped tile of which no copy was ever sent is never sent, and the receiver never gets past it. */
  lemma StuckForever(ps: seq<Pair>, ms: seq<Move>, i: nat, n: nat, left: bool, k: nat)
    requires IsRun(ps, ms) && i <= n < |ps| && Stranded(SideOf(ps[i], left), k, 0)
    requires Held(SideOf(ps[i], !left), SideOf(ps[i], left).hist.tiles[k].pos)
    ensures Stranded(SideOf(ps[n], left), k, 0)
    ensures Held(SideOf(ps[n], !left), SideOf(ps[i], left).hist.tiles[k].pos)
  {
    RunStranded(ps, ms, i, n, left, k, 0);
    var pos := SideOf(ps[i], left).hist.tiles[k].pos;
    forall j | i <= j < n ensures !BringsAt(ms, j, left, pos) {
      RunStranded(ps, ms, i, j, left, k, 0);
      if BringsAt(ms, j, left, pos) { BroughtWasSent(ps, ms, j, left, pos); }
    }
    RunHeld(ps, ms, i, n, left, k, pos);
  }
}
