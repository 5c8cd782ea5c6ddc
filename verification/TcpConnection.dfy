/** One connection: the port row it lives in, its share of the send queue, the segments it has handed
    to IPv4, and a history of the sequence space.  The invariant `Sound` holds in every run, with
    allocation failures, queue refusals and sequence or tick wrap-around allowed. */
module TcpConnection {
  import opened NetTypes
  import opened TcpPort

  /** What occupies one sequence number. */
  datatype Item = Syn | Data(b: Byte) | Fin

  function Text(bytes: seq<Byte>): (t: seq<Item>)
    ensures |t| == |bytes|
    ensures forall i :: 0 <= i < |bytes| ==> t[i] == Data(bytes[i])
  {
    seq(|bytes|, i requires 0 <= i < |bytes| => Data(bytes[i]))
  }

  function Items(control: Control, bytes: Chunk): (t: seq<Item>)
    ensures !(control.syn && control.fin) ==> |t| == Consumes(control, bytes)
  {
    (if control.syn then [Syn] else []) + Text(bytes) + (if control.fin then [Fin] else [])
  }

  /** A first transmission that consumed sequence numbers, at an unbounded stream position. */
  datatype Tile = Tile(pos: nat, control: Control, bytes: Chunk)

  function End(t: Tile): nat { t.pos + Consumes(t.control, t.bytes) }

  datatype Launch = Launch(tile: nat, at: nat)

  /** `stream`: everything numbered so far; `tiles`: the first transmissions in order; `last[k]`: when tile
      `k` was last launched; `log`: every launch; `owner[i]`: the tile slot `i` holds; `lost`: semaphore
      slots consumed for good; `trace`: callbacks; `start`: `ack_num` on entering ESTABLISHED. */
  datatype History = History(stream: seq<Item>, tiles: seq<Tile>, last: seq<nat>, log: seq<Launch>, owner: seq<nat>,
                             lost: nat, trace: seq<Callback>, start: nat, waitSince: nat)

  const NEW_HISTORY := History([], [], [], [], [0, 0, 0, 0, 0, 0, 0, 0], 0, [], 0, 0)

  datatype Phase = Idle | Live | Dead

  datatype Conn = Conn(phase: Phase, active: bool, self: Addr, id: Triple, port: Port,
                       queue: seq<Tx>, sent: seq<Segment>, hist: History, now: nat)

  function NewConn(self: Addr, id: Triple, now: nat): Conn {
    Conn(Idle, false, self, id, FreshPort(id, Closed), [], [], NEW_HISTORY, now)
  }

  function TickOf(now: nat): Tick { Wrap(now) }

  // ----- steps -----

  datatype Step =
    | Connect(room: nat)
    | Accept(s: Segment, room: nat)
    | Send(data: Payload, room: nat)
    | Close(room: nat)
    | Transmit(env: Env)
    | Arrive(s: Segment, room: nat)
    | Scan(envs: seq<Env>)

  predicate Addressed(id: Triple, s: Segment) {
    s.srcAddr == id.addr && s.srcPort == id.other && s.dstPort == id.self
  }

  /** The calls made with an unlimited timeout return only when there is room. */
  predicate Fits(eff: Effect, room: nat) {
    |eff.acks| <= room && (eff.reliable != [] ==> eff.port.sem > 0)
  }

  predicate Enabled(c: Conn, step: Step) {
    match step
    case Connect(_) => c.phase == Idle
    case Accept(s, room) =>
      c.phase == Idle && Addressed(c.id, s) && s.control.syn && !s.control.rst &&
      Fits(Receive(Listener(c.id.self), s, TickOf(c.now)), room)
    case Send(_, _) => c.phase == Live
    case Close(_) => c.phase == Live && c.port.sem > 0
    case Transmit(_) => c.phase == Live && c.queue != []
    case Arrive(s, room) => c.phase == Live && Addressed(c.id, s) && Fits(Receive(c.port, s, TickOf(c.now)), room)
    case Scan(envs) => c.phase == Live && |envs| == MAX_UNACKED && |c.port.unacked| == MAX_UNACKED
  }

  function Listener(self: nat): Port { FreshPort(Triple(self, 0, 0), Listen) }

  function Next(c: Conn, step: Step, now: nat): Conn
    requires c.now <= now && Enabled(c.(now := now), step)
  {
    var d := c.(now := now);
    match step
    case Connect(room) => DoConnect(d, room)
    case Accept(s, room) => Heard(d.(phase := Live), Receive(Listener(d.id.self), s, TickOf(now)), room)
    case Send(data, room) => if d.port.sem == 0 then d else DoEnqueue(d, DataTx(d.id, data), room)
    case Close(room) => DoEnqueue(d.(port := d.port.(state := FinWait1)), ReplyTx(d.port, d.id.addr, FIN), room)
    case Transmit(env) => DoTransmit(d, env)
    case Arrive(s, room) => Heard(d, Receive(d.port, s, TickOf(now)), room)
    case Scan(envs) => DoScan(d, envs)
  }

  function DoEnqueue(c: Conn, tx: Tx, room: nat): Conn
    requires c.port.sem > 0
  {
    var e := EnqueueOn(c.port, tx, room);
    c.(port := e.port, queue := c.queue + e.queued)
  }

  function DoConnect(c: Conn, room: nat): Conn {
    var p := FreshPort(c.id, SynSent);
    DoEnqueue(c.(phase := Live, active := true, port := p), ReplyTx(p, c.id.addr, SYN), room)
  }

  function Heard(c: Conn, eff: Effect, room: nat): Conn
    requires Fits(eff, room)
  {
    var e :=
      if eff.reliable == [] then Enqueued(eff.port, [], [])
      else EnqueueOn(eff.port, eff.reliable[0], room - |eff.acks|);
    c.(phase := if e.port.state == Closed then Dead else c.phase,
       port := e.port,
       queue := c.queue + eff.acks + e.queued,
       hist := c.hist.(trace := c.hist.trace + eff.calls,
                       start := if OnConnect in eff.calls then e.port.ackNum else c.hist.start,
                       waitSince :=
                         if e.port.state == TimeWait && c.port.state != TimeWait then c.now else c.hist.waitSince))
  }

  predicate Reliable(tx: Tx) { tx.control != ACK }

  function DoTransmit(c: Conn, env: Env): Conn
    requires c.queue != []
  {
    var tx := c.queue[0];
    var d := c.(queue := c.queue[1..]);
    var lose := d.(hist := c.hist.(lost := c.hist.lost + if Reliable(tx) then 1 else 0));
    if !env.allocOk then lose
    else
      match SendOn(c.self, c.port, tx, TickOf(c.now))
      case Unsent(_) => lose
      case Sent(p, s, _) =>
        var sent := if env.ipv4Ok then c.sent + [s] else c.sent;
        if Consumes(tx.control, Bytes(tx.data)) == 0 then lose.(port := p, sent := sent)
        else d.(port := p, sent := sent, hist := Record(c.hist, FirstFree(c.port.unacked), tx, c.now))
  }

  function Record(h: History, slot: nat, tx: Tx, now: nat): History {
    h.(stream := h.stream + Items(tx.control, Bytes(tx.data)),
       tiles := h.tiles + [Tile(|h.stream|, tx.control, Bytes(tx.data))],
       last := h.last + [now],
       log := h.log + [Launch(|h.tiles|, now)],
       owner := if slot < |h.owner| then h.owner[slot := |h.tiles|] else h.owner)
  }

  function DoScan(c: Conn, envs: seq<Env>): Conn
    requires |envs| == MAX_UNACKED && |c.port.unacked| == MAX_UNACKED
  {
    if TimedOut(c.port, TickOf(c.now)) then c.(phase := Dead, port := Reset(c.port))
    else ScanSlots(c, envs, MAX_UNACKED)
  }

  /** The retransmission loop up to slot `n`. */
  function ScanSlots(c: Conn, envs: seq<Env>, n: nat): (r: Conn)
    requires n <= |envs| == MAX_UNACKED && |c.port.unacked| == MAX_UNACKED
    ensures |r.port.unacked| == MAX_UNACKED
  {
    if n == 0 then c else RetrySlot(ScanSlots(c, envs, n - 1), n - 1, envs[n - 1])
  }

  function RetrySlot(c: Conn, k: nat, env: Env): (r: Conn)
    requires k < |c.port.unacked| == MAX_UNACKED
    ensures |r.port.unacked| == MAX_UNACKED
  {
    var r := Retry(c.self, c.port, c.port.ackNum, k, TickOf(c.now), env);
    var h := if Due(c.port.unacked[k], TickOf(c.now)) && env.allocOk then Relaunch(c.hist, k, c.now) else c.hist;
    c.(port := r.port, sent := c.sent + r.sent, hist := h)
  }

  function Relaunch(h: History, k: nat, now: nat): History {
    if k < |h.owner| && h.owner[k] < |h.last|
    then h.(last := h.last[h.owner[k] := now], log := h.log + [Launch(h.owner[k], now)])
    else h
  }

  // ----- the invariant -----

  predicate GoodControl(control: Control, bytes: Chunk) {
    !control.rst && !(control.syn && control.fin) && (control.syn || control.fin ==> bytes == [])
  }

  predicate TileOk(stream: seq<Item>, tiles: seq<Tile>, k: nat)
    requires k < |tiles|
  {
    var t := tiles[k];
    GoodControl(t.control, t.bytes) && Consumes(t.control, t.bytes) > 0 &&
    End(t) == (if k + 1 < |tiles| then tiles[k + 1].pos else |stream|) &&
    End(t) <= |stream| &&
    stream[t.pos..End(t)] == Items(t.control, t.bytes)
  }

  /** The tiles cover `[0, |stream|)` in order without gap or overlap, and spell out the stream. */
  ghost predicate Tiled(stream: seq<Item>, tiles: seq<Tile>) {
    (tiles == [] ==> stream == []) && (tiles != [] ==> tiles[0].pos == 0) &&
    forall k :: 0 <= k < |tiles| ==> TileOk(stream, tiles, k)
  }

  predicate Holds(u: Slot, t: Tile) {
    u.seqNum == Wrap(t.pos) && u.control == t.control && Bytes(u.data) == t.bytes
  }

  predicate SlotHolds(u: Slot, owner: nat, tiles: seq<Tile>, last: seq<nat>) {
    owner < |tiles| && owner < |last| && Holds(u, tiles[owner]) && u.sentAt == TickOf(last[owner])
  }

  /** Every in-use slot holds exactly one tile, and no two hold the same. */
  ghost predicate SlotsHoldTiles(slots: seq<Slot>, owner: seq<nat>, tiles: seq<Tile>, last: seq<nat>) {
    |slots| == MAX_UNACKED == |owner| &&
    (forall i :: 0 <= i < |slots| && slots[i].inUse ==> SlotHolds(slots[i], owner[i], tiles, last)) &&
    (forall i, j :: 0 <= i < j < |slots| && slots[i].inUse && slots[j].inUse ==> owner[i] != owner[j])
  }

  predicate Repeats(s: Segment, t: Tile) {
    s.seqNum == Wrap(t.pos) && s.control == t.control && s.bytes == t.bytes
  }

  predicate Within(seqNum: nat, stream: seq<Item>) {
    |stream| < WORD ==> seqNum <= |stream|
  }

  /** A sent segment either repeats a tile or is a bare acknowledgement. */
  ghost predicate SentOk(s: Segment, stream: seq<Item>, tiles: seq<Tile>) {
    if Consumes(s.control, s.bytes) == 0 then s.control.ack && !s.control.rst && Within(s.seqNum, stream)
    else exists k :: 0 <= k < |tiles| && Repeats(s, tiles[k])
  }

  ghost predicate AllSentOk(sent: seq<Segment>, stream: seq<Item>, tiles: seq<Tile>) {
    forall i :: 0 <= i < |sent| ==> SentOk(sent[i], stream, tiles)
  }

  predicate TxOk(tx: Tx, id: Triple, stream: seq<Item>) {
    tx.to == id && GoodControl(tx.control, Bytes(tx.data)) &&
    (Consumes(tx.control, Bytes(tx.data)) == 0 ==> tx.control.ack && Within(tx.seqNum, stream)) &&
    (tx.control == ACK ==> tx.data == Null)
  }

  function ReliableCount(q: seq<Tx>): nat {
    if q == [] then 0 else (if Reliable(q[0]) then 1 else 0) + ReliableCount(q[1..])
  }

  ghost predicate QueueOk(q: seq<Tx>, id: Triple, stream: seq<Item>) {
    (forall i :: 0 <= i < |q| ==> TxOk(q[i], id, stream)) &&
    (forall i :: 0 <= i < |q| && q[i].control.syn ==> i == 0 && stream == [])
  }

  predicate Conserved(c: Conn) {
    c.port.sem + InUse(c.port.unacked) + ReliableCount(c.queue) + c.hist.lost == MAX_UNACKED
  }

  predicate LaunchedBy(log: seq<Launch>, last: seq<nat>, i: nat)
    requires i < |log|
  {
    log[i].tile < |last| && log[i].at <= last[log[i].tile]
  }

  predicate Apart(log: seq<Launch>, i: nat, j: nat)
    requires i < j < |log|
  {
    log[i].tile == log[j].tile ==> log[i].at + RETRANSMIT_TIMEOUT <= log[j].at
  }

  /** Two launches of one tile are at least a retransmission timeout apart, on the real clock. */
  ghost predicate Spaced(log: seq<Launch>, last: seq<nat>, now: nat) {
    (forall k :: 0 <= k < |last| ==> last[k] <= now) &&
    (forall i :: 0 <= i < |log| ==> LaunchedBy(log, last, i)) &&
    (forall i, j :: 0 <= i < j < |log| ==> Apart(log, i, j))
  }

  predicate SynOnlyFirst(stream: seq<Item>) {
    forall j :: 0 <= j < |stream| && stream[j] == Syn ==> j == 0
  }

  /** What the port row, the queue and the history agree on while the connection lives. */
  ghost predicate LiveOk(c: Conn) {
    c.port.id == c.id && c.port.state != Closed && c.port.state != Listen && c.port.state != CloseWait &&
    SlotsHoldTiles(c.port.unacked, c.hist.owner, c.hist.tiles, c.hist.last) &&
    QueueOk(c.queue, c.id, c.hist.stream) && Conserved(c) &&
    (c.port.state == SynSent || c.port.state == SynReceived ==> c.hist.trace == []) &&
    (c.port.state == TimeWait ==> c.hist.waitSince <= c.now && c.port.enteredAt == TickOf(c.hist.waitSince))
  }

  ghost predicate Sound(c: Conn) {
    var h := c.hist;
    (c.phase == Idle ==> !c.active && c.queue == [] && c.sent == [] && c.hist == NEW_HISTORY && c.port.ackNum == 0) &&
    Tiled(h.stream, h.tiles) && SynOnlyFirst(h.stream) && |h.last| == |h.tiles| && Spaced(h.log, h.last, c.now) &&
    c.port.seqNum == Wrap(|h.stream|) &&
    AllSentOk(c.sent, h.stream, h.tiles) &&
    (c.phase == Live ==> LiveOk(c))
  }
}
