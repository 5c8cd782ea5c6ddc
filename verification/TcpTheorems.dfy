/** What the TCP code guarantees in every run, stated from the invariants of the other modules. */
module TcpTheorems {
  import opened TcpPort
  import opened TcpConnection
  import opened TcpSoundness
  import opened TcpPair
  import opened TcpHandshake
  import opened TcpCallbacks

  // ----- runs of one connection, against any peer -----

  datatype Timed = Timed(step: Step, now: nat)

  predicate StepsAt(cs: seq<Conn>, ts: seq<Timed>, i: nat) {
    i < |ts| && i + 1 < |cs| && cs[i].now <= ts[i].now && Enabled(cs[i].(now := ts[i].now), ts[i].step) &&
    cs[i + 1] == Next(cs[i], ts[i].step, ts[i].now)
  }

  ghost predicate IsConnRun(cs: seq<Conn>, ts: seq<Timed>) {
    |cs| == |ts| + 1 && cs[0] == NewConn(cs[0].self, cs[0].id, cs[0].now) &&
    forall i :: 0 <= i < |ts| ==> StepsAt(cs, ts, i)
  }

  lemma {:induction false} ConnRunSound(cs: seq<Conn>, ts: seq<Timed>, n: nat)
    requires IsConnRun(cs, ts) && n < |cs|
    ensures Sound(cs[n])
  {
    if n == 0 {
      NewSound(cs[0].self, cs[0].id, cs[0].now);
    } else {
      ConnRunSound(cs, ts, n - 1);
      StepSound(cs, ts, n - 1);
    }
  }

  lemma ExtendConnRun(cs: seq<Conn>, ts: seq<Timed>, t: Timed, d: Conn)
    requires IsConnRun(cs, ts) && cs[|ts|].now <= t.now && Enabled(cs[|ts|].(now := t.now), t.step)
    requires d == Next(cs[|ts|], t.step, t.now)
    ensures IsConnRun(cs + [d], ts + [t])
  {
    forall i | 0 <= i < |ts + [t]| ensures StepsAt(cs + [d], ts + [t], i) {
      if i < |ts| { assert StepsAt(cs, ts, i); }
    }
  }

  lemma StepSound(cs: seq<Conn>, ts: seq<Timed>, i: nat)
    requires IsConnRun(cs, ts) && i < |ts| && Sound(cs[i])
    ensures Sound(cs[i + 1])
  {
    assert StepsAt(cs, ts, i);
    NextSound(cs[i], ts[i].step, ts[i].now);
  }

  lemma NewSound(self: Addr, id: Triple, now: nat)
    ensures Sound(NewConn(self, id, now))
  {
  }

  lemma {:induction false} TilesOrdered(stream: seq<Item>, tiles: seq<Tile>, j: nat, k: nat)
    requires Tiled(stream, tiles) && j < k < |tiles|
    ensures End(tiles[j]) <= tiles[k].pos
    decreases k - j
  {
    assert TileOk(stream, tiles, j);
    if j + 1 < k {
      TilesOrdered(stream, tiles, j + 1, k);
      assert TileOk(stream, tiles, j + 1);
    }
  }

  /** Two tiles start at different positions, and the earlier ends before the later. */
  lemma OtherTile(c: Conn, j: nat, k: nat)
    requires Sound(c) && j < |c.hist.tiles| && k < |c.hist.tiles| && j != k
    ensures c.hist.tiles[j].pos != c.hist.tiles[k].pos && End(c.hist.tiles[j]) <= |c.hist.stream|
    ensures c.hist.tiles[j].pos < c.hist.tiles[k].pos ==> End(c.hist.tiles[j]) <= c.hist.tiles[k].pos
  {
    assert TileOk(c.hist.stream, c.hist.tiles, j) && TileOk(c.hist.stream, c.hist.tiles, k);
    if j < k {
      TilesOrdered(c.hist.stream, c.hist.tiles, j, k);
    } else {
      TilesOrdered(c.hist.stream, c.hist.tiles, k, j);
    }
  }

  lemma {:induction false} TilesCover(stream: seq<Item>, tiles: seq<Tile>, q: nat, n: nat) returns (k: nat)
    requires Tiled(stream, tiles) && 0 < n <= |tiles| && q < End(tiles[n - 1])
    ensures k < n && tiles[k].pos <= q < End(tiles[k])
  {
    if tiles[n - 1].pos <= q {
      k := n - 1;
    } else {
      assert TileOk(stream, tiles, n - 2);
      k := TilesCover(stream, tiles, q, n - 1);
    }
  }

  predicate Covers(t: Tile, q: nat) { t.pos <= q < End(t) }

  ghost predicate Covered(tiles: seq<Tile>, q: nat) {
    exists k :: 0 <= k < |tiles| && Covers(tiles[k], q)
  }

  /** The tiles cut `[0, |stream|)` into consecutive stretches and spell each of them out. */
  ghost predicate Partition(stream: seq<Item>, tiles: seq<Tile>) {
    (forall q: nat :: q < |stream| ==> Covered(tiles, q)) &&
    (forall j, k :: 0 <= j < k < |tiles| ==> End(tiles[j]) <= tiles[k].pos) &&
    (forall k :: 0 <= k < |tiles| ==>
       End(tiles[k]) <= |stream| && stream[tiles[k].pos..End(tiles[k])] == Items(tiles[k].control, tiles[k].bytes))
  }

  lemma TiledIsPartition(stream: seq<Item>, tiles: seq<Tile>)
    requires Tiled(stream, tiles)
    ensures Partition(stream, tiles)
  {
    forall q: nat | q < |stream| ensures Covered(tiles, q) {
      assert TileOk(stream, tiles, |tiles| - 1);
      var k := TilesCover(stream, tiles, q, |tiles|);
      assert Covers(tiles[k], q);
    }
    forall j, k | 0 <= j < k < |tiles| ensures End(tiles[j]) <= tiles[k].pos { TilesOrdered(stream, tiles, j, k); }
    forall k | 0 <= k < |tiles|
      ensures End(tiles[k]) <= |stream| &&
              stream[tiles[k].pos..End(tiles[k])] == Items(tiles[k].control, tiles[k].bytes)
    {
      assert TileOk(stream, tiles, k);
    }
  }

  /** Sequence-space tiling: the first transmissions partition `[0, seq_num)`, in-use slots hold distinct tiles,
      and whatever was sent and consumes numbers repeats a tile's sequence number, control bits and bytes. */
  lemma SequenceTiling(cs: seq<Conn>, ts: seq<Timed>, n: nat)
    requires IsConnRun(cs, ts) && n < |cs|
    ensures var c := cs[n];
            c.port.seqNum == Wrap(|c.hist.stream|) && Partition(c.hist.stream, c.hist.tiles) &&
            (c.phase == Live ==> SlotsHoldTiles(c.port.unacked, c.hist.owner, c.hist.tiles, c.hist.last)) &&
            (forall s <- c.sent :: Consumes(s.control, s.bytes) > 0 ==>
               exists k :: 0 <= k < |c.hist.tiles| && Repeats(s, c.hist.tiles[k]))
  {
    ConnRunSound(cs, ts, n);
    var c := cs[n];
    TiledIsPartition(c.hist.stream, c.hist.tiles);
    forall s | s in c.sent ensures SentOk(s, c.hist.stream, c.hist.tiles) {
      var i :| 0 <= i < |c.sent| && c.sent[i] == s;
    }
  }

  // ----- slot conservation -----

  /** A first send that fails before it is recorded, or a zero-length `tcp_send`. */
  predicate Loses(c: Conn, step: Step) {
    step.Transmit? && c.queue != [] && Reliable(c.queue[0]) &&
    (!step.env.allocOk || Consumes(c.queue[0].control, Bytes(c.queue[0].data)) == 0)
  }

  function Losses(cs: seq<Conn>, ts: seq<Timed>, n: nat): nat
    requires n <= |ts| && n <= |cs|
  {
    if n == 0 then 0 else Losses(cs, ts, n - 1) + if Loses(cs[n - 1], ts[n - 1].step) then 1 else 0
  }

  lemma {:induction false} ScanLoses(c: Conn, envs: seq<Env>, n: nat)
    requires n <= |envs| == MAX_UNACKED && |c.port.unacked| == MAX_UNACKED
    ensures ScanSlots(c, envs, n).hist.lost == c.hist.lost
  {
    if n > 0 { ScanLoses(c, envs, n - 1); }
  }

  lemma NextLoses(c: Conn, step: Step, now: nat)
    requires Sound(c) && c.now <= now && Enabled(c.(now := now), step)
    ensures Next(c, step, now).hist.lost == c.hist.lost + if Loses(c, step) then 1 else 0
  {
    if step.Scan? {
      ScanLoses(c.(now := now), step.envs, MAX_UNACKED);
    } else if step.Transmit? {
      assert TxOk(c.queue[0], c.id, c.hist.stream);
      if Reliable(c.queue[0]) { SlotAvailable(c); }
    }
  }

  lemma {:induction false} LostIsLosses(cs: seq<Conn>, ts: seq<Timed>, n: nat)
    requires IsConnRun(cs, ts) && n < |cs|
    ensures cs[n].hist.lost == Losses(cs, ts, n)
  {
    if n > 0 {
      LostIsLosses(cs, ts, n - 1);
      StepLoses(cs, ts, n - 1);
    }
  }

  lemma StepLoses(cs: seq<Conn>, ts: seq<Timed>, i: nat)
    requires IsConnRun(cs, ts) && i < |ts|
    ensures cs[i + 1].hist.lost == cs[i].hist.lost + if Loses(cs[i], ts[i].step) then 1 else 0
  {
    ConnRunSound(cs, ts, i);
    assert StepsAt(cs, ts, i);
    NextLoses(cs[i], ts[i].step, ts[i].now);
  }

  /** Slot conservation, with the exact shortfall; the full-buffer branch is unreachable. */
  lemma SlotConservation(cs: seq<Conn>, ts: seq<Timed>, n: nat)
    requires IsConnRun(cs, ts) && n < |cs| && cs[n].phase == Live
    ensures cs[n].port.sem + InUse(cs[n].port.unacked) + ReliableCount(cs[n].queue) + Losses(cs, ts, n) == MAX_UNACKED
    ensures cs[n].queue != [] && Reliable(cs[n].queue[0]) ==> FirstFree(cs[n].port.unacked) < MAX_UNACKED
  {
    ConnRunSound(cs, ts, n);
    LostIsLosses(cs, ts, n);
    if cs[n].queue != [] && Reliable(cs[n].queue[0]) { SlotAvailable(cs[n]); }
  }

  // ----- acknowledgement processing -----

  predicate Released(c: Conn, ack: nat, i: nat)
    requires i < |c.port.unacked|
  {
    c.port.unacked[i].inUse && !Release(c.port, ack).unacked[i].inUse
  }

  function TileAt(c: Conn, i: nat): Tile
    requires i < |c.hist.owner| && c.hist.owner[i] < |c.hist.tiles|
  {
    c.hist.tiles[c.hist.owner[i]]
  }

  /** An accepted acknowledgement releases every slot that ends at or before it and at most one more, the one
      whose range contains it; later slots are untouched and the semaphore is given once per release. */
  lemma AcknowledgementProcessing(c: Conn, ack: nat)
    requires Sound(c) && c.phase == Live && |c.hist.stream| < WORD && ack <= c.port.seqNum
    ensures forall i :: 0 <= i < MAX_UNACKED && c.port.unacked[i].inUse ==>
              c.hist.owner[i] < |c.hist.tiles| &&
              (Released(c, ack, i) <==> TileAt(c, i).pos <= ack) &&
              (End(TileAt(c, i)) <= ack ==> Released(c, ack, i)) &&
              (TileAt(c, i).pos > ack ==> Release(c.port, ack).unacked[i] == c.port.unacked[i])
    ensures forall i, j :: 0 <= i < j < MAX_UNACKED && Released(c, ack, i) && Released(c, ack, j) ==>
              End(TileAt(c, i)) <= ack || End(TileAt(c, j)) <= ack
    ensures Release(c.port, ack).sem == c.port.sem + (InUse(c.port.unacked) - InUse(Release(c.port, ack).unacked))
  {
    InUseRelease(c.port.unacked, ack);
    forall i | 0 <= i < MAX_UNACKED && c.port.unacked[i].inUse
      ensures c.hist.owner[i] < |c.hist.tiles| &&
              c.port.unacked[i].seqNum == TileAt(c, i).pos <= End(TileAt(c, i)) <= |c.hist.stream|
    {
      assert SlotHolds(c.port.unacked[i], c.hist.owner[i], c.hist.tiles, c.hist.last);
      assert TileOk(c.hist.stream, c.hist.tiles, c.hist.owner[i]);
    }
    forall i, j | 0 <= i < j < MAX_UNACKED && Released(c, ack, i) && Released(c, ack, j)
      ensures End(TileAt(c, i)) <= ack || End(TileAt(c, j)) <= ack
    {
      var a, b := c.hist.owner[i], c.hist.owner[j];
      if a < b {
        TilesOrdered(c.hist.stream, c.hist.tiles, a, b);
      } else {
        TilesOrdered(c.hist.stream, c.hist.tiles, b, a);
      }
    }
  }

  /** "Only fully acknowledged data is released" fails exactly when some slot's range contains the
      acknowledgement number. */
  lemma ReleaseIsExactIff(c: Conn, ack: nat)
    requires Sound(c) && c.phase == Live && |c.hist.stream| < WORD && ack <= c.port.seqNum
    ensures (forall i :: 0 <= i < MAX_UNACKED && Released(c, ack, i) ==>
               c.hist.owner[i] < |c.hist.tiles| && End(TileAt(c, i)) <= ack) <==>
            !(exists i :: 0 <= i < MAX_UNACKED && c.port.unacked[i].inUse && c.port.unacked[i].seqNum <= ack <
                c.port.unacked[i].seqNum + Consumes(c.port.unacked[i].control, Bytes(c.port.unacked[i].data)))
  {
    AcknowledgementProcessing(c, ack);
    forall i | 0 <= i < MAX_UNACKED && c.port.unacked[i].inUse
      ensures c.port.unacked[i].seqNum + Consumes(c.port.unacked[i].control, Bytes(c.port.unacked[i].data)) ==
              End(TileAt(c, i))
    {
      assert SlotHolds(c.port.unacked[i], c.hist.owner[i], c.hist.tiles, c.hist.last);
      assert TileOk(c.hist.stream, c.hist.tiles, c.hist.owner[i]);
    }
  }

  // ----- timers -----

  /** No tile is launched twice within the retransmission timeout, on the real clock, across tick wrap. */
  lemma LaunchSpacing(cs: seq<Conn>, ts: seq<Timed>, n: nat)
    requires IsConnRun(cs, ts) && n < |cs|
    ensures var log := cs[n].hist.log;
            forall i, j :: 0 <= i < j < |log| && log[i].tile == log[j].tile ==>
              log[j].at - log[i].at >= RETRANSMIT_TIMEOUT
  {
    ConnRunSound(cs, ts, n);
    var log := cs[n].hist.log;
    forall i, j | 0 <= i < j < |log| && log[i].tile == log[j].tile ensures log[j].at - log[i].at >= RETRANSMIT_TIMEOUT {
      assert Apart(log, i, j);
    }
  }

  /** A scan resets a TIME_WAIT port only after more than `TIME_WAIT_DURATION` real ticks, and exactly when
      that holds of the elapsed time modulo 2^32. */
  lemma TimeWaitExpiry(cs: seq<Conn>, ts: seq<Timed>, n: nat)
    requires IsConnRun(cs, ts) && n < |ts| && ts[n].step.Scan? && cs[n].phase == Live && cs[n].port.state == TimeWait
    ensures cs[n].hist.waitSince <= ts[n].now
    ensures cs[n + 1].phase == Dead <==> Wrap(ts[n].now - cs[n].hist.waitSince) > TIME_WAIT_DURATION
    ensures cs[n + 1].phase == Dead ==> ts[n].now - cs[n].hist.waitSince > TIME_WAIT_DURATION
  {
    ConnRunSound(cs, ts, n);
    assert StepsAt(cs, ts, n);
    ElapsedReal(ts[n].now, cs[n].hist.waitSince);
    ScanKeepsPhase(cs[n].(now := ts[n].now), ts[n].step.envs, MAX_UNACKED);
  }

  // ----- callbacks -----

  lemma {:induction false} RunInPhase(cs: seq<Conn>, ts: seq<Timed>, n: nat)
    requires IsConnRun(cs, ts) && n < |cs|
    requires forall i :: 0 <= i < n ==> CloseAllowed(cs[i], ts[i].step)
    ensures InPhase(cs[n])
  {
    if n > 0 {
      RunInPhase(cs, ts, n - 1);
      assert StepsAt(cs, ts, n - 1) && AllowedAt(cs, ts, n - 1);
      StepInPhase(cs, ts, n - 1);
    }
  }

  /** In runs whose close commands are handled between connect and disconnect, the callbacks of an incarnation are
      a prefix of connect, receive*, disconnect, and CLOSE_WAIT is never entered. */
  lemma CallbackLanguage(cs: seq<Conn>, ts: seq<Timed>, n: nat)
    requires IsConnRun(cs, ts) && n < |cs|
    requires forall i :: 0 <= i < n ==> CloseAllowed(cs[i], ts[i].step)
    ensures InLanguage(cs[n].hist.trace)
    ensures cs[n].phase == Live ==> cs[n].port.state != CloseWait
  {
    RunInPhase(cs, ts, n);
  }

  // ----- the close condition is exact -----

  predicate AllowedAt(cs: seq<Conn>, ts: seq<Timed>, i: nat) {
    StepsAt(cs, ts, i) && CloseAllowed(cs[i], ts[i].step)
  }

  lemma StepInPhase(cs: seq<Conn>, ts: seq<Timed>, i: nat)
    requires AllowedAt(cs, ts, i) && InPhase(cs[i])
    ensures InPhase(cs[i + 1])
  {
    NextInPhase(cs[i], ts[i].step, ts[i].now);
  }

  /** `cs` continues from `c` by steps whose close commands are all allowed. */
  ghost predicate Continues(c: Conn, cs: seq<Conn>, ts: seq<Timed>) {
    |cs| == |ts| + 1 && cs[0] == c && forall i :: 0 <= i < |ts| ==> AllowedAt(cs, ts, i)
  }

  /** Whatever happens next, the callbacks stay in the language. */
  ghost predicate StaysInLanguage(c: Conn) {
    forall cs: seq<Conn>, ts: seq<Timed> :: Continues(c, cs, ts) ==> InLanguage(cs[|ts|].hist.trace)
  }

  lemma {:induction false} ContinuesInPhase(c: Conn, cs: seq<Conn>, ts: seq<Timed>, n: nat)
    requires InPhase(c) && Continues(c, cs, ts) && n < |cs|
    ensures InPhase(cs[n])
  {
    if n > 0 {
      ContinuesInPhase(c, cs, ts, n - 1);
      StepInPhase(cs, ts, n - 1);
    }
  }

  lemma PhaseStays(c: Conn)
    requires InPhase(c)
    ensures StaysInLanguage(c)
  {
    forall cs: seq<Conn>, ts: seq<Timed> | Continues(c, cs, ts) ensures InLanguage(cs[|ts|].hist.trace) {
      ContinuesInPhase(c, cs, ts, |ts|);
    }
  }

  function FinFor(c: Conn): Segment {
    Segment(c.id.addr, c.self, c.id.other, c.id.self, c.port.ackNum, 0, FIN_ACK, [])
  }

  /** A FIN answers a port in FIN_WAIT_1 with a disconnection. */
  lemma FinDisconnects(c: Conn)
    requires c.phase == Live && c.port.state == FinWait1
    ensures Enabled(c, Arrive(FinFor(c), 1))
    ensures Next(c, Arrive(FinFor(c), 1), c.now).hist.trace == c.hist.trace + [OnDisconnect]
  {
    HeardFields(c, Receive(c.port, FinFor(c), TickOf(c.now)), 1);
  }

  /** A port that has not connected, or has already disconnected, must not disconnect. */
  lemma ExtraDisconnect(t: seq<Callback>)
    requires t == [] || (InLanguage(t) && !Open(t))
    ensures !InLanguage(t + [OnDisconnect])
  {
    var u := t + [OnDisconnect];
    assert u[..|u| - 1] == t;
    if t != [] { assert u[|t| - 1] == OnDisconnect; }
  }

  lemma ForbiddenClose(d: Conn)
    requires d.phase == Live && d.port.state == FinWait1
    requires d.hist.trace == [] || (InLanguage(d.hist.trace) && !Open(d.hist.trace))
    ensures !StaysInLanguage(d)
  {
    FinDisconnects(d);
    var cs, ts := [d, Next(d, Arrive(FinFor(d), 1), d.now)], [Timed(Arrive(FinFor(d), 1), d.now)];
    assert d.(now := d.now) == d;
    assert AllowedAt(cs, ts, 0);
    assert Continues(d, cs, ts);
    ExtraDisconnect(d.hist.trace);
  }

  /** Exactly the close commands handled between connection and disconnection keep the callbacks of every continuation
      in the language: after any other, a FIN from the peer makes a disconnection too many. */
  lemma CloseKeepsLanguageIff(cs: seq<Conn>, ts: seq<Timed>, n: nat)
    requires IsConnRun(cs, ts) && n < |ts| && ts[n].step.Close?
    requires forall i :: 0 <= i < n ==> CloseAllowed(cs[i], ts[i].step)
    ensures StaysInLanguage(cs[n + 1]) <==> CloseAllowed(cs[n], ts[n].step)
  {
    RunInPhase(cs, ts, n);
    assert StepsAt(cs, ts, n);
    if CloseAllowed(cs[n], ts[n].step) {
      StepInPhase(cs, ts, n);
      PhaseStays(cs[n + 1]);
    } else {
      ForbiddenClose(cs[n + 1]);
    }
  }

  function StateOf(c: Conn): State { if c.phase == Live then c.port.state else Closed }

  /** The transition graph: a step of a run leaves it exactly when it is a close command handled outside ESTABLISHED
      and FIN_WAIT_1. */
  lemma TransitionGraphIff(cs: seq<Conn>, ts: seq<Timed>, n: nat)
    requires IsConnRun(cs, ts) && n < |ts|
    ensures Edge(StateOf(cs[n]), StateOf(cs[n + 1])) <==>
            !(ts[n].step.Close? && cs[n].port.state !in {Established, FinWait1})
  {
    ConnRunSound(cs, ts, n);
    assert StepsAt(cs, ts, n);
    NextEdge(cs[n], ts[n].step, ts[n].now);
  }

  lemma ArriveEdge(c: Conn, s: Segment, room: nat)
    requires Sound(c) && Enabled(c, Arrive(s, room))
    ensures Edge(StateOf(c), StateOf(Heard(c, Receive(c.port, s, TickOf(c.now)), room)))
  {
    ReceiveProper(c.port, s, TickOf(c.now));
    HeardFields(c, Receive(c.port, s, TickOf(c.now)), room);
  }

  lemma ScanEdge(c: Conn, envs: seq<Env>)
    requires Enabled(c, Scan(envs))
    ensures Edge(StateOf(c), StateOf(DoScan(c, envs)))
  {
    ScanSpeaks(c, envs, MAX_UNACKED);
    ScanKeepsPhase(c, envs, MAX_UNACKED);
  }

  lemma AcceptEdge(c: Conn, s: Segment, room: nat)
    requires Enabled(c, Accept(s, room))
    ensures Edge(StateOf(c), StateOf(Heard(c.(phase := Live), Receive(Listener(c.id.self), s, TickOf(c.now)), room)))
  {
    AcceptShape(c.id.self, s, TickOf(c.now));
  }

  lemma TransmitEdge(c: Conn, env: Env)
    requires Enabled(c, Transmit(env))
    ensures StateOf(DoTransmit(c, env)) == StateOf(c)
  {
  }

  lemma CloseEdge(c: Conn, room: nat)
    requires Sound(c) && Enabled(c, Close(room))
    ensures Edge(StateOf(c), FinWait1) <==> c.port.state in {Established, FinWait1}
  {
  }

  lemma NextEdge(c: Conn, step: Step, now: nat)
    requires Sound(c) && c.now <= now && Enabled(c.(now := now), step)
    ensures Edge(StateOf(c), StateOf(Next(c, step, now))) <==>
            !(step.Close? && c.port.state !in {Established, FinWait1})
  {
    var d := c.(now := now);
    Later(c, now);
    match step
    case Arrive(s, room) => ArriveEdge(d, s, room);
    case Scan(envs) => ScanEdge(d, envs);
    case Accept(s, room) => AcceptEdge(d, s, room);
    case Transmit(env) => TransmitEdge(d, env);
    case Close(room) => CloseEdge(d, room);
    case _ =>
  }

  // ----- two endpoints -----

  /** End-to-end delivery, for the direction from `s` to `r` of a pair in a run. */
  ghost predicate DeliversFrom(s: Conn, r: Conn) {
    var got := Delivered(r.hist.trace);
    var start := r.hist.start;
    start + |got| <= |s.hist.stream| && Text(got) == s.hist.stream[start..start + |got|] &&
    (r.phase == Live && r.port.state == Established ==> start + |got| == r.port.ackNum) &&
    (Connected(r) ==> s.hist.stream != [] && s.hist.stream[0] == Syn && 1 <= start) &&
    (r.active && Connected(r) ==> Text(got) <= s.hist.stream[1..])
  }

  /** What each application received is an in-order, gap-free, duplicate-free stretch of the peer's numbered stream
      from `ack_num` on entering ESTABLISHED up to `ack_num`; for the active opener a prefix of the peer's data. */
  lemma EndToEndDelivery(ps: seq<Pair>, ms: seq<Move>, n: nat)
    requires IsRun(ps, ms) && n < |ps|
    ensures DeliversFrom(ps[n].a, ps[n].b) && DeliversFrom(ps[n].b, ps[n].a)
  {
    RunAgrees(ps, ms, n);
    DirDelivers(ps[n].a, ps[n].b);
    DirDelivers(ps[n].b, ps[n].a);
  }

  lemma DirDelivers(s: Conn, r: Conn)
    requires Dir(s, r)
    ensures DeliversFrom(s, r)
  {
  }

  /** Acknowledgement numbers never run ahead: the receiver's, and every one in flight, so the guard
      `received_ack_num <= seq_num` always passes. */
  lemma AcknowledgementSafety(ps: seq<Pair>, ms: seq<Move>, n: nat)
    requires IsRun(ps, ms) && n < |ps|
    ensures ps[n].b.port.ackNum <= ps[n].a.port.seqNum && ps[n].a.port.ackNum <= ps[n].b.port.seqNum
    ensures forall s <- ps[n].b.sent :: s.ackNum <= ps[n].a.port.seqNum
    ensures forall s <- ps[n].a.sent :: s.ackNum <= ps[n].b.port.seqNum
  {
    RunAgrees(ps, ms, n);
  }

  /** With applications that act only after `on_connect`, the passive side connects only after the active side has,
      and then each acknowledgement number is past the other's SYN. */
  lemma HandshakeOrder(ps: seq<Pair>, ms: seq<Move>, n: nat)
    requires IsDisciplinedRun(ps, ms) && n < |ps| && Connected(ps[n].b)
    ensures Connected(ps[n].a) && ps[n].a.port.ackNum >= 1 && ps[n].b.port.ackNum >= 1
    ensures ps[n].a.port.seqNum >= 1 && ps[n].b.port.seqNum >= 1
    ensures [Syn] <= ps[n].a.hist.stream && [Syn] <= ps[n].b.hist.stream
  {
    RunOrdered(ps, ms, n);
    RunAgrees(ps, ms, n);
  }
}
