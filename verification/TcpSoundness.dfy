/** Every step of a connection keeps `Sound`: sequence-space tiling, slot ownership, slot conservation,
    launch spacing and the shape of everything sent. */
module TcpSoundness {
  import opened TcpPort
  import opened TcpConnection

  // ----- counting slots and queued segments -----

  lemma {:induction false} InUseUpdate(slots: seq<Slot>, k: nat, u: Slot)
    requires k < |slots|
    ensures InUse(slots[k := u]) + (if slots[k].inUse then 1 else 0) == InUse(slots) + (if u.inUse then 1 else 0)
  {
    var n := |slots| - 1;
    if k == n {
      assert slots[k := u][..n] == slots[..n];
    } else {
      assert slots[k := u][..n] == slots[..n][k := u];
      InUseUpdate(slots[..n], k, u);
    }
  }

  lemma {:induction false} InUseRelease(slots: seq<Slot>, ack: nat)
    ensures InUse(ReleaseSlots(slots, ack)) + ReleaseCount(slots, ack) == InUse(slots)
  {
    if slots != [] {
      var n := |slots| - 1;
      assert ReleaseSlots(slots, ack)[..n] == ReleaseSlots(slots[..n], ack);
      InUseRelease(slots[..n], ack);
    }
  }

  lemma {:induction false} AllInUse(slots: seq<Slot>)
    requires forall i :: 0 <= i < |slots| ==> slots[i].inUse
    ensures InUse(slots) == |slots|
  {
    if slots != [] { AllInUse(slots[..|slots| - 1]); }
  }

  lemma {:induction false} NoneInUse(slots: seq<Slot>)
    requires forall i :: 0 <= i < |slots| ==> !slots[i].inUse
    ensures InUse(slots) == 0
  {
    if slots != [] { NoneInUse(slots[..|slots| - 1]); }
  }

  lemma {:induction false} ReliableCountAppend(q: seq<Tx>, r: seq<Tx>)
    ensures ReliableCount(q + r) == ReliableCount(q) + ReliableCount(r)
  {
    if q == [] {
      assert q + r == r;
    } else {
      assert (q + r)[1..] == q[1..] + r;
      ReliableCountAppend(q[1..], r);
    }
  }

  // ----- the history only grows -----

  predicate Extends(h: History, g: History) {
    h.stream <= g.stream && h.tiles <= g.tiles
  }

  lemma AllSentExtend(sent: seq<Segment>, h: History, g: History)
    requires AllSentOk(sent, h.stream, h.tiles) && Extends(h, g)
    ensures AllSentOk(sent, g.stream, g.tiles)
  {
    forall i | 0 <= i < |sent| ensures SentOk(sent[i], g.stream, g.tiles) {
      var s := sent[i];
      assert SentOk(s, h.stream, h.tiles);
      if Consumes(s.control, s.bytes) != 0 {
        var k :| 0 <= k < |h.tiles| && Repeats(s, h.tiles[k]);
        assert Repeats(s, g.tiles[k]);
      }
    }
  }

  // ----- recording a first transmission -----

  lemma RecordTiled(h: History, g: History, slot: nat, tx: Tx, now: nat)
    requires Tiled(h.stream, h.tiles) && GoodControl(tx.control, Bytes(tx.data)) &&
             Consumes(tx.control, Bytes(tx.data)) > 0
    requires g == Record(h, slot, tx, now)
    ensures Tiled(g.stream, g.tiles) && Extends(h, g)
  {
    forall k | 0 <= k < |g.tiles| ensures TileOk(g.stream, g.tiles, k) {
      var t := g.tiles[k];
      if k < |h.tiles| {
        assert TileOk(h.stream, h.tiles, k);
        assert g.stream[t.pos..End(t)] == h.stream[t.pos..End(t)];
      } else {
        assert g.stream[t.pos..End(t)] == Items(t.control, t.bytes);
      }
    }
  }

  lemma RecordHolds(p: Port, h: History, g: History, tx: Tx, now: nat, k: nat)
    requires SlotsHoldTiles(p.unacked, h.owner, h.tiles, h.last) && |h.last| == |h.tiles|
    requires k < |p.unacked| && !p.unacked[k].inUse && p.seqNum == Wrap(|h.stream|)
    requires g == Record(h, k, tx, now)
    ensures SlotsHoldTiles(Stow(p, k, tx, TickOf(now)).unacked, g.owner, g.tiles, g.last)
  {
  }

  /** The "unacked buffer is full" branch is unreachable for a connection that conserves its slots. */
  lemma SlotAvailable(c: Conn)
    requires LiveOk(c) && c.queue != [] && Reliable(c.queue[0])
    ensures FirstFree(c.port.unacked) < MAX_UNACKED
  {
    if FirstFree(c.port.unacked) == MAX_UNACKED { AllInUse(c.port.unacked); }
  }

  lemma WrapAdd(x: nat, n: nat)
    ensures Wrap(Wrap(x) + n) == Wrap(x + n)
  {
    WrapIsMod(x);
    WrapIsMod(Wrap(x) + n);
    WrapIsMod(x + n);
  }

  lemma RecordSpaced(h: History, tile: nat, now: nat)
    requires Spaced(h.log, h.last, now) && tile == |h.last|
    ensures Spaced(h.log + [Launch(tile, now)], h.last + [now], now)
  {
    var log, last := h.log + [Launch(tile, now)], h.last + [now];
    forall i | 0 <= i < |log| ensures LaunchedBy(log, last, i) {
      if i < |h.log| { assert LaunchedBy(h.log, h.last, i); }
    }
    forall i, j | 0 <= i < j < |log| ensures Apart(log, i, j) {
      assert LaunchedBy(h.log, h.last, i);
      if j < |h.log| { assert Apart(h.log, i, j); }
    }
  }

  lemma RelaunchSpaced(log: seq<Launch>, last: seq<nat>, tile: nat, now: nat)
    requires Spaced(log, last, now) && tile < |last| && last[tile] + RETRANSMIT_TIMEOUT <= now
    ensures Spaced(log + [Launch(tile, now)], last[tile := now], now)
  {
    var log', last' := log + [Launch(tile, now)], last[tile := now];
    forall i | 0 <= i < |log'| ensures LaunchedBy(log', last', i) {
      if i < |log| { assert LaunchedBy(log, last, i); }
    }
    forall i, j | 0 <= i < j < |log'| ensures Apart(log', i, j) {
      assert LaunchedBy(log, last, i);
      if j < |log| { assert Apart(log, i, j); }
    }
  }

  /** A recorded first transmission keeps the history side of the invariant. */
  lemma RecordSound(h: History, g: History, sent: seq<Segment>, s: Segment, tx: Tx, slot: nat, now: nat)
    requires Tiled(h.stream, h.tiles) && SynOnlyFirst(h.stream) && |h.last| == |h.tiles| && Spaced(h.log, h.last, now)
    requires AllSentOk(sent, h.stream, h.tiles) && GoodControl(tx.control, Bytes(tx.data))
    requires Consumes(tx.control, Bytes(tx.data)) > 0 && (tx.control.syn ==> h.stream == [])
    requires g == Record(h, slot, tx, now) && Repeats(s, Tile(|h.stream|, tx.control, Bytes(tx.data)))
    ensures Tiled(g.stream, g.tiles) && SynOnlyFirst(g.stream) && |g.last| == |g.tiles| && Spaced(g.log, g.last, now)
    ensures AllSentOk(sent, g.stream, g.tiles) && AllSentOk(sent + [s], g.stream, g.tiles) && Extends(h, g)
  {
    RecordTiled(h, g, slot, tx, now);
    RecordSpaced(h, |h.tiles|, now);
    AllSentExtend(sent, h, g);
    assert Repeats(s, g.tiles[|h.tiles|]);
  }

  function Recorded(c: Conn, ipv4Ok: bool): Conn
    requires c.queue != [] && FirstFree(c.port.unacked) < |c.port.unacked|
  {
    var tx := c.queue[0];
    var k := FirstFree(c.port.unacked);
    var sent := if ipv4Ok then c.sent + [Wire(c.self, c.port, tx, c.port.seqNum)] else c.sent;
    c.(queue := c.queue[1..], hist := Record(c.hist, k, tx, c.now), sent := sent,
       port := Stow(c.port, k, tx, TickOf(c.now)))
  }

  lemma RecordedSlots(c: Conn, ipv4Ok: bool, k: nat)
    requires Sound(c) && c.phase == Live && c.queue != [] && k == FirstFree(c.port.unacked) < |c.port.unacked|
    requires Consumes(c.queue[0].control, Bytes(c.queue[0].data)) > 0
    ensures var r := Recorded(c, ipv4Ok);
            SlotsHoldTiles(r.port.unacked, r.hist.owner, r.hist.tiles, r.hist.last) && Conserved(r)
  {
    var r := Recorded(c, ipv4Ok);
    RecordHolds(c.port, c.hist, r.hist, c.queue[0], c.now, k);
    InUseUpdate(c.port.unacked, k, r.port.unacked[k]);
  }

  lemma QueueTail(q: seq<Tx>, id: Triple, stream: seq<Item>, longer: seq<Item>)
    requires QueueOk(q, id, stream) && q != [] && stream <= longer
    ensures QueueOk(q[1..], id, longer)
  {
  }

  lemma RecordedLive(c: Conn, ipv4Ok: bool)
    requires Sound(c) && c.phase == Live && c.queue != []
    requires Consumes(c.queue[0].control, Bytes(c.queue[0].data)) > 0
    requires FirstFree(c.port.unacked) < |c.port.unacked|
    ensures LiveOk(Recorded(c, ipv4Ok))
  {
    RecordedSlots(c, ipv4Ok, FirstFree(c.port.unacked));
    QueueTail(c.queue, c.id, c.hist.stream, Recorded(c, ipv4Ok).hist.stream);
  }

  lemma TransmitIsRecorded(c: Conn, env: Env)
    requires LiveOk(c) && c.queue != [] && env.allocOk && Consumes(c.queue[0].control, Bytes(c.queue[0].data)) > 0
    ensures FirstFree(c.port.unacked) < |c.port.unacked| && DoTransmit(c, env) == Recorded(c, env.ipv4Ok)
  {
    assert TxOk(c.queue[0], c.id, c.hist.stream);
    SlotAvailable(c);
  }

  lemma RecordedHistory(c: Conn, ipv4Ok: bool)
    requires Sound(c) && c.phase == Live && c.queue != []
    requires Consumes(c.queue[0].control, Bytes(c.queue[0].data)) > 0
    requires FirstFree(c.port.unacked) < |c.port.unacked|
    ensures var r := Recorded(c, ipv4Ok);
            var h := r.hist;
            Tiled(h.stream, h.tiles) && SynOnlyFirst(h.stream) && |h.last| == |h.tiles| &&
            Spaced(h.log, h.last, c.now) &&
            AllSentOk(r.sent, h.stream, h.tiles) && Extends(c.hist, h)
  {
    var tx := c.queue[0];
    assert TxOk(tx, c.id, c.hist.stream);
    var g := Record(c.hist, FirstFree(c.port.unacked), tx, c.now);
    RecordSound(c.hist, g, c.sent, Wire(c.self, c.port, tx, c.port.seqNum), tx, FirstFree(c.port.unacked), c.now);
  }

  lemma RecordedRow(c: Conn, ipv4Ok: bool)
    requires Sound(c) && c.queue != [] && FirstFree(c.port.unacked) < |c.port.unacked|
    requires TxOk(c.queue[0], c.id, c.hist.stream)
    ensures Recorded(c, ipv4Ok).port.seqNum == Wrap(|Recorded(c, ipv4Ok).hist.stream|)
  {
    WrapAdd(|c.hist.stream|, Consumes(c.queue[0].control, Bytes(c.queue[0].data)));
  }

  lemma RecordedSound(c: Conn, ipv4Ok: bool)
    requires Sound(c) && c.phase == Live && c.queue != []
    requires Consumes(c.queue[0].control, Bytes(c.queue[0].data)) > 0
    requires FirstFree(c.port.unacked) < |c.port.unacked|
    ensures Sound(Recorded(c, ipv4Ok)) && Extends(c.hist, Recorded(c, ipv4Ok).hist)
  {
    assert TxOk(c.queue[0], c.id, c.hist.stream);
    RecordedLive(c, ipv4Ok);
    RecordedHistory(c, ipv4Ok);
    RecordedRow(c, ipv4Ok);
  }

  /** A transmission that numbers nothing: a bare acknowledgement, a zero-length send or no memory. */
  lemma PoppedSound(c: Conn, env: Env)
    requires Sound(c) && c.phase == Live && c.queue != []
    requires !env.allocOk || Consumes(c.queue[0].control, Bytes(c.queue[0].data)) == 0
    ensures Sound(DoTransmit(c, env)) && DoTransmit(c, env).phase == Live &&
            DoTransmit(c, env).hist.stream == c.hist.stream
    ensures DoTransmit(c, env).hist.tiles == c.hist.tiles
  {
    var tx := c.queue[0];
    assert TxOk(tx, c.id, c.hist.stream);
    QueueTail(c.queue, c.id, c.hist.stream, c.hist.stream);
    assert env.allocOk ==> SentOk(Wire(c.self, c.port, tx, tx.seqNum), c.hist.stream, c.hist.tiles);
  }

  lemma TransmitSound(c: Conn, env: Env)
    requires Sound(c) && c.phase == Live && c.queue != []
    ensures Sound(DoTransmit(c, env)) && DoTransmit(c, env).phase == Live
    ensures Extends(c.hist, DoTransmit(c, env).hist)
  {
    if env.allocOk && Consumes(c.queue[0].control, Bytes(c.queue[0].data)) > 0 {
      TransmitIsRecorded(c, env);
      RecordedSound(c, env.ipv4Ok);
    } else {
      PoppedSound(c, env);
    }
  }

  // ----- retransmission -----

  lemma ElapsedReal(now: nat, since: nat)
    requires since <= now
    ensures Elapsed(TickOf(now), TickOf(since)) == Wrap(now - since) <= now - since
  {
    WrapIsMod(now);
    WrapIsMod(since);
    WrapIsMod(now - since);
  }

  /** Relaunching slot `k` keeps ownership and spacing. */
  lemma RelaunchSound(slots: seq<Slot>, h: History, k: nat, now: nat)
    requires SlotsHoldTiles(slots, h.owner, h.tiles, h.last) && |h.last| == |h.tiles| && Spaced(h.log, h.last, now)
    requires k < MAX_UNACKED && Due(slots[k], TickOf(now))
    ensures var g := Relaunch(h, k, now);
            Spaced(g.log, g.last, now) && |g.last| == |g.tiles| &&
            SlotsHoldTiles(slots[k := slots[k].(sentAt := TickOf(now))], g.owner, g.tiles, g.last) &&
            SlotsHoldTiles(slots[k := slots[k].(sentAt := TickOf(now), data := Null, inUse := false)], g.owner, g.tiles,
                           g.last)
  {
    assert SlotHolds(slots[k], h.owner[k], h.tiles, h.last);
    ElapsedReal(now, h.last[h.owner[k]]);
    RelaunchSpaced(h.log, h.last, h.owner[k], now);
  }

  /** A due slot of a sound connection, retried with history `h` and row `p`. */
  lemma RetriedSound(c: Conn, k: nat, h: History, p: Port, sent: seq<Segment>)
    requires Sound(c) && c.phase == Live && k < MAX_UNACKED && |p.unacked| == MAX_UNACKED
    requires h == c.hist.(log := h.log, last := h.last) && |h.last| == |h.tiles| && Spaced(h.log, h.last, c.now)
    requires SlotsHoldTiles(p.unacked, h.owner, h.tiles, h.last)
    requires p == c.port.(unacked := p.unacked, sem := p.sem) &&
             p.sem + InUse(p.unacked) == c.port.sem + InUse(c.port.unacked)
    requires AllSentOk(sent, h.stream, h.tiles)
    ensures Sound(c.(port := p, sent := c.sent + sent, hist := h))
  {
    var r := c.(port := p, sent := c.sent + sent, hist := h);
    assert AllSentOk(r.sent, h.stream, h.tiles);
  }

  lemma RetryRow(p: Port, k: nat, tick: Tick, q: Port)
    requires k < |p.unacked| == MAX_UNACKED && p.unacked[k].inUse && p.sem + InUse(p.unacked) <= MAX_UNACKED
    requires q == Abandon(p, k, tick) || q == p.(unacked := p.unacked[k := p.unacked[k].(sentAt := tick)])
    ensures q.sem + InUse(q.unacked) == p.sem + InUse(p.unacked)
  {
    InUseUpdate(p.unacked, k, q.unacked[k]);
  }

  /** The history after retrying slot `k`. */
  lemma RetryHistory(c: Conn, k: nat, env: Env, h: History)
    requires Sound(c) && c.phase == Live && k < MAX_UNACKED && Due(c.port.unacked[k], TickOf(c.now))
    requires h == if env.allocOk then Relaunch(c.hist, k, c.now) else c.hist
    ensures h == c.hist.(log := h.log, last := h.last) && |h.last| == |h.tiles| && Spaced(h.log, h.last, c.now)
    ensures SlotsHoldTiles(Abandon(c.port, k, TickOf(c.now)).unacked, h.owner, h.tiles, h.last)
    ensures env.allocOk ==>
              SlotsHoldTiles(c.port.unacked[k := c.port.unacked[k].(sentAt := TickOf(c.now))], h.owner, h.tiles, h.last)
  {
    RelaunchSound(c.port.unacked, c.hist, k, c.now);
  }

  lemma RetrySound(c: Conn, k: nat, env: Env)
    requires Sound(c) && c.phase == Live && k < MAX_UNACKED
    ensures Sound(RetrySlot(c, k, env)) && RetrySlot(c, k, env).phase == Live
    ensures RetrySlot(c, k, env).hist.stream == c.hist.stream
    ensures RetrySlot(c, k, env).hist.tiles == c.hist.tiles
  {
    var u, r := c.port.unacked[k], RetrySlot(c, k, env);
    if Due(u, TickOf(c.now)) {
      var o := c.hist.owner[k];
      assert SlotHolds(u, o, c.hist.tiles, c.hist.last) && TileOk(c.hist.stream, c.hist.tiles, o);
      RetryHistory(c, k, env, r.hist);
      RetryRow(c.port, k, TickOf(c.now), r.port);
      var sent := Retry(c.self, c.port, c.port.ackNum, k, TickOf(c.now), env).sent;
      assert sent != [] ==> Repeats(sent[0], r.hist.tiles[o]);
      RetriedSound(c, k, r.hist, r.port, sent);
    } else {
      assert c.sent + [] == c.sent;
    }
  }

  lemma {:induction false} ScanSlotsSound(c: Conn, envs: seq<Env>, n: nat)
    requires Sound(c) && c.phase == Live && n <= |envs| == MAX_UNACKED
    ensures Sound(ScanSlots(c, envs, n)) && ScanSlots(c, envs, n).phase == Live
    ensures ScanSlots(c, envs, n).hist.stream == c.hist.stream
    ensures ScanSlots(c, envs, n).hist.tiles == c.hist.tiles
  {
    if n > 0 {
      ScanSlotsSound(c, envs, n - 1);
      RetrySound(ScanSlots(c, envs, n - 1), n - 1, envs[n - 1]);
    }
  }

  // ----- enqueueing -----

  lemma QueueOkOne(q: seq<Tx>, tx: Tx, id: Triple, stream: seq<Item>)
    requires QueueOk(q, id, stream) && TxOk(tx, id, stream) && (tx.control.syn ==> q == [] && stream == [])
    ensures QueueOk(q + [tx], id, stream)
  {
  }

  lemma EnqueueSound(c: Conn, tx: Tx, room: nat)
    requires Sound(c) && c.phase == Live && c.port.sem > 0 && Reliable(tx)
    requires TxOk(tx, c.id, c.hist.stream) && (tx.control.syn ==> c.queue == [] && c.hist.stream == [])
    ensures Sound(DoEnqueue(c, tx, room)) && DoEnqueue(c, tx, room).phase == Live
  {
    ReliableCountAppend(c.queue, [tx]);
    QueueOkOne(c.queue, tx, c.id, c.hist.stream);
    assert ReliableCount([tx]) == 1 + ReliableCount([]);
    assert c.queue + [] == c.queue;
  }

  // ----- arrival -----

  /** A port row changed by the arrival of a segment: slots may only be released, each release is
      matched by one semaphore give, and sending is untouched. */
  ghost predicate Answered(p: Port, q: Port) {
    |q.unacked| == |p.unacked| && q.seqNum == p.seqNum && q.sem + InUse(q.unacked) == p.sem + InUse(p.unacked) &&
    forall i :: 0 <= i < |p.unacked| && q.unacked[i].inUse ==> q.unacked[i] == p.unacked[i]
  }

  lemma ReleaseAnswered(p: Port, ack: nat)
    requires p.sem + InUse(p.unacked) <= MAX_UNACKED
    ensures Answered(p, Release(p, ack))
  {
    InUseRelease(p.unacked, ack);
  }

  lemma SwitchShape(p: Port, s: Segment, tick: Tick, acks: seq<Tx>, mem: seq<MemEvent>)
    requires p.state != Closed
    ensures var e := Switch(p, s, tick, acks, mem);
            e.acks == acks && |e.reliable| <= 1 && e.port.seqNum == p.seqNum && |e.port.unacked| == |p.unacked| &&
            (e.port.state != Closed ==> e.port.unacked == p.unacked && e.port.sem == p.sem)
  {
  }

  lemma AbsorbShape(p: Port, s: Segment)
    requires p.sem + InUse(p.unacked) <= MAX_UNACKED
    ensures Answered(p, Absorb(p, s)) && Absorb(p, s).state == p.state
  {
    ReleaseAnswered(p, s.ackNum);
  }

  lemma ReceiveShape(p: Port, s: Segment, tick: Tick)
    requires p.sem + InUse(p.unacked) <= MAX_UNACKED && p.state != Closed
    ensures var e := Receive(p, s, tick);
            |e.port.unacked| == |p.unacked| && e.port.seqNum == p.seqNum &&
            (e.port.state != Closed ==> Answered(p, e.port)) && |e.acks| <= 1 && |e.reliable| <= 1
  {
    if !s.control.rst && !Ignored(p, s) {
      AbsorbShape(p, s);
      SwitchShape(Absorb(p, s), s, tick, AckFor(p, s), AbsorbMem(p, s));
    }
  }

  /** What an arrival may enqueue and call, by state. */
  lemma ReceiveReplies(p: Port, s: Segment, tick: Tick)
    requires p.state != Closed
    ensures var e := Receive(p, s, tick);
            (forall tx <- e.acks :: tx == Tx(Triple(p.id.self, p.id.other, s.srcAddr), p.seqNum, ACK, Null)) &&
            (p.state != Listen ==>
               forall tx <- e.reliable ::
                 tx == Tx(Triple(p.id.self, p.id.other, s.srcAddr), p.seqNum, FIN_ACK, Null)) &&
            (e.port.state != Closed && p.state != Listen ==> e.port.id == p.id)
  {
  }

  /** The segments an arrival adds to the queue, with the semaphore they cost. */
  lemma HeardQueue(c: Conn, eff: Effect, room: nat) returns (more: seq<Tx>)
    requires Fits(eff, room) && |eff.acks| <= 1 && |eff.reliable| <= 1 && eff.port.state != Closed
    requires (forall tx <- eff.acks :: !Reliable(tx)) && (forall tx <- eff.reliable :: Reliable(tx))
    ensures Heard(c, eff, room).queue == c.queue + more
    ensures more == eff.acks || more == eff.acks + eff.reliable
    ensures Heard(c, eff, room).port.sem + ReliableCount(more) == eff.port.sem
  {
    more := Heard(c, eff, room).queue[|c.queue|..];
    assert eff.acks + [] == eff.acks;
    assert |eff.acks| == 1 ==> eff.acks == [eff.acks[0]];
    assert |eff.reliable| == 1 ==> eff.reliable == [eff.reliable[0]];
    ReliableCountAppend(eff.acks, eff.reliable);
    assert |eff.acks| == 1 ==> ReliableCount(eff.acks) == 0 + ReliableCount([]);
    assert |eff.reliable| == 1 ==> ReliableCount(eff.reliable) == 1 + ReliableCount([]);
  }

  /** What `Receive` guarantees of a row that survives, in terms that do not mention the segment. */
  ghost predicate EffectOk(p: Port, eff: Effect, id: Triple, tick: Tick) {
    Answered(p, eff.port) && eff.port.id == id && |eff.acks| <= 1 && |eff.reliable| <= 1 &&
    (forall tx <- eff.acks :: tx == Tx(id, p.seqNum, ACK, Null)) &&
    (forall tx <- eff.reliable :: tx == Tx(id, p.seqNum, FIN_ACK, Null)) &&
    eff.port.state != Closed && eff.port.state != Listen && eff.port.state != CloseWait &&
    (eff.port.state == SynSent || eff.port.state == SynReceived ==> eff.port.state == p.state && eff.calls == []) &&
    (eff.port.state == TimeWait ==>
       if p.state == TimeWait then eff.port.enteredAt == p.enteredAt else eff.port.enteredAt == tick)
  }

  lemma ReceiveStates(p: Port, s: Segment, tick: Tick)
    requires p.state != Closed && p.state != Listen && p.state != CloseWait
    ensures var q := Receive(p, s, tick).port;
            (q.state != Closed ==> q.state != Listen && q.state != CloseWait) &&
            (q.state == SynSent || q.state == SynReceived ==> q.state == p.state && Receive(p, s, tick).calls == []) &&
            (q.state == TimeWait ==> if p.state == TimeWait then q.enteredAt == p.enteredAt else q.enteredAt == tick)
  {
  }

  lemma ReceiveOk(c: Conn, s: Segment)
    requires LiveOk(c) && Addressed(c.id, s)
    requires Receive(c.port, s, TickOf(c.now)).port.state != Closed
    ensures EffectOk(c.port, Receive(c.port, s, TickOf(c.now)), c.id, TickOf(c.now))
  {
    ReceiveShape(c.port, s, TickOf(c.now));
    ReceiveReplies(c.port, s, TickOf(c.now));
    ReceiveStates(c.port, s, TickOf(c.now));
  }

  lemma QueueOkAppend(q: seq<Tx>, more: seq<Tx>, id: Triple, stream: seq<Item>)
    requires QueueOk(q, id, stream) && forall tx <- more :: TxOk(tx, id, stream) && !tx.control.syn
    ensures QueueOk(q + more, id, stream)
  {
  }

  lemma LiveAfter(c: Conn, next: Conn, more: seq<Tx>)
    requires LiveOk(c) && next.id == c.id && next.queue == c.queue + more
    requires forall tx <- more :: TxOk(tx, c.id, c.hist.stream) && !tx.control.syn
    requires Answered(c.port, next.port.(sem := next.port.sem + ReliableCount(more))) && next.port.id == c.id
    requires next.hist == c.hist.(trace := next.hist.trace, start := next.hist.start, waitSince := next.hist.waitSince)
    requires next.port.state != Closed && next.port.state != Listen && next.port.state != CloseWait
    requires next.port.state == SynSent || next.port.state == SynReceived ==> next.hist.trace == []
    requires next.port.state == TimeWait ==>
               next.hist.waitSince <= next.now && next.port.enteredAt == TickOf(next.hist.waitSince)
    ensures LiveOk(next)
  {
    ReliableCountAppend(c.queue, more);
    QueueOkAppend(c.queue, more, c.id, c.hist.stream);
  }

  /** What an arrival queues is in order for the connection. */
  lemma HeardReplies(c: Conn, eff: Effect, more: seq<Tx>)
    requires c.port.seqNum == Wrap(|c.hist.stream|) && (more == eff.acks || more == eff.acks + eff.reliable)
    requires forall tx <- eff.acks :: tx == Tx(c.id, c.port.seqNum, ACK, Null)
    requires forall tx <- eff.reliable :: tx == Tx(c.id, c.port.seqNum, FIN_ACK, Null)
    ensures forall tx <- more :: TxOk(tx, c.id, c.hist.stream) && !tx.control.syn
  {
    assert forall tx <- more :: tx in eff.acks || tx in eff.reliable;
  }

  /** The row and history an arrival leaves. */
  lemma HeardRow(c: Conn, eff: Effect, room: nat, next: Conn)
    requires Fits(eff, room) && next == Heard(c, eff, room) && eff.port.state != Closed
    ensures next.id == c.id && next.now == c.now && next.port == eff.port.(sem := next.port.sem)
    ensures next.hist == c.hist.(trace := c.hist.trace + eff.calls, start := next.hist.start,
                                 waitSince := next.hist.waitSince)
    ensures next.hist.waitSince ==
            if eff.port.state == TimeWait && c.port.state != TimeWait then c.now else c.hist.waitSince
  {
  }

  lemma HeardLive(c: Conn, eff: Effect, room: nat)
    requires LiveOk(c) && c.port.seqNum == Wrap(|c.hist.stream|)
    requires Fits(eff, room) && EffectOk(c.port, eff, c.id, TickOf(c.now))
    ensures LiveOk(Heard(c, eff, room))
  {
    var next := Heard(c, eff, room);
    var more := HeardQueue(c, eff, room);
    HeardReplies(c, eff, more);
    HeardRow(c, eff, room, next);
    assert next.port.(sem := next.port.sem + ReliableCount(more)) == eff.port;
    LiveAfter(c, next, more);
  }

  lemma HeardSound(c: Conn, s: Segment, room: nat)
    requires Sound(c) && c.phase == Live && Addressed(c.id, s) && Fits(Receive(c.port, s, TickOf(c.now)), room)
    ensures Sound(Heard(c, Receive(c.port, s, TickOf(c.now)), room))
  {
    var eff := Receive(c.port, s, TickOf(c.now));
    ReceiveShape(c.port, s, TickOf(c.now));
    if eff.port.state != Closed {
      ReceiveOk(c, s);
      HeardLive(c, eff, room);
    }
  }

  lemma AcceptShape(self: nat, s: Segment, tick: Tick)
    requires s.control.syn && !s.control.rst
    ensures var e := Receive(Listener(self), s, tick);
            var q := FreshPort(Triple(self, s.srcPort, s.srcAddr), SynReceived).(ackNum := Wrap(s.seqNum + 1));
            e == Effect(q, [], [ReplyTx(q, s.srcAddr, SYN_ACK)], [], [])
  {
    var p := Listener(self);
    NoneInUse(p.unacked);
    InUseRelease(p.unacked, s.ackNum);
    NothingToRelease(p.unacked, s.ackNum);
    assert ReleaseSlots(p.unacked, s.ackNum) == p.unacked;
  }

  lemma {:induction false} NothingToRelease(slots: seq<Slot>, ack: nat)
    requires forall i :: 0 <= i < |slots| ==> !slots[i].inUse
    ensures ReleaseMem(slots, ack) == []
  {
    if slots != [] { NothingToRelease(slots[..|slots| - 1], ack); }
  }

  /** A connection just created with its first control segment still to be queued. */
  lemma OpenSound(c: Conn, active: bool, p: Port, tx: Tx, room: nat)
    requires Sound(c) && c.phase == Idle && tx.to == c.id && tx.control.syn && !tx.control.fin && !tx.control.rst &&
             tx.data == Null
    requires p.state == SynSent || p.state == SynReceived
    requires p == FreshPort(c.id, p.state).(ackNum := p.ackNum)
    ensures var d := c.(phase := Live, active := active, port := p); Sound(d) && Sound(DoEnqueue(d, tx, room))
  {
    NoneInUse(p.unacked);
    var d := c.(phase := Live, active := active, port := p);
    assert Sound(d);
    EnqueueSound(d, tx, room);
  }

  lemma ConnectSound(c: Conn, room: nat)
    requires Sound(c) && c.phase == Idle
    ensures Sound(DoConnect(c, room))
  {
    var p := FreshPort(c.id, SynSent);
    OpenSound(c, true, p, ReplyTx(p, c.id.addr, SYN), room);
  }

  lemma HeardOpening(c: Conn, q: Port, tx: Tx, room: nat)
    requires q.state == SynReceived && q.sem > 0
    ensures Heard(c, Effect(q, [], [tx], [], []), room) == DoEnqueue(c.(port := q), tx, room)
  {
    assert c.queue + [] == c.queue;
    assert c.hist.trace + [] == c.hist.trace;
  }

  lemma AcceptSound(c: Conn, s: Segment, room: nat)
    requires Sound(c) && Enabled(c, Accept(s, room))
    ensures Sound(Heard(c.(phase := Live), Receive(Listener(c.id.self), s, TickOf(c.now)), room))
  {
    AcceptShape(c.id.self, s, TickOf(c.now));
    var q := FreshPort(c.id, SynReceived).(ackNum := Wrap(s.seqNum + 1));
    OpenSound(c, false, q, ReplyTx(q, s.srcAddr, SYN_ACK), room);
    HeardOpening(c.(phase := Live), q, ReplyTx(q, s.srcAddr, SYN_ACK), room);
  }

  lemma CloseSound(c: Conn, room: nat)
    requires Sound(c) && Enabled(c, Close(room))
    ensures Sound(DoEnqueue(c.(port := c.port.(state := FinWait1)), ReplyTx(c.port, c.id.addr, FIN), room))
  {
    EnqueueSound(c.(port := c.port.(state := FinWait1)), ReplyTx(c.port, c.id.addr, FIN), room);
  }

  lemma ScanSound(c: Conn, envs: seq<Env>)
    requires Sound(c) && Enabled(c, Scan(envs))
    ensures Sound(DoScan(c, envs))
  {
    if !TimedOut(c.port, TickOf(c.now)) { ScanSlotsSound(c, envs, MAX_UNACKED); }
  }

  lemma {:induction false} ScanKeepsPhase(c: Conn, envs: seq<Env>, n: nat)
    requires n <= |envs| == MAX_UNACKED && |c.port.unacked| == MAX_UNACKED
    ensures ScanSlots(c, envs, n).phase == c.phase
  {
    if n > 0 { ScanKeepsPhase(c, envs, n - 1); }
  }

  lemma {:induction false} ScanKeepsQueue(c: Conn, envs: seq<Env>, n: nat)
    requires n <= |envs| == MAX_UNACKED && |c.port.unacked| == MAX_UNACKED
    ensures ScanSlots(c, envs, n).hist.stream == c.hist.stream && ScanSlots(c, envs, n).queue == c.queue
  {
    if n > 0 { ScanKeepsQueue(c, envs, n - 1); }
  }

  lemma Later(c: Conn, now: nat)
    requires Sound(c) && c.now <= now
    ensures Sound(c.(now := now))
  {
  }

  /** Every enabled step of a connection keeps the invariant. */
  lemma NextSound(c: Conn, step: Step, now: nat)
    requires Sound(c) && c.now <= now && Enabled(c.(now := now), step)
    ensures Sound(Next(c, step, now))
  {
    Later(c, now);
    var d := c.(now := now);
    match step
    case Connect(room) => ConnectSound(d, room);
    case Accept(s, room) => AcceptSound(d, s, room);
    case Send(data, room) => if d.port.sem > 0 { EnqueueSound(d, DataTx(d.id, data), room); }
    case Close(room) => CloseSound(d, room);
    case Transmit(env) => TransmitSound(d, env);
    case Arrive(s, room) => HeardSound(d, s, room);
    case Scan(envs) => ScanSound(d, envs);
  }

  lemma {:induction false} ScanClock(c: Conn, envs: seq<Env>, n: nat)
    requires n <= |envs| == MAX_UNACKED && |c.port.unacked| == MAX_UNACKED
    ensures ScanSlots(c, envs, n).now == c.now
  {
    if n > 0 { ScanClock(c, envs, n - 1); }
  }

  lemma NextClock(c: Conn, step: Step, now: nat)
    requires c.now <= now && Enabled(c.(now := now), step)
    ensures Next(c, step, now).now == now
  {
    if step.Scan? { ScanClock(c.(now := now), step.envs, MAX_UNACKED); }
  }
}
