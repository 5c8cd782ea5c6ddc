/** One row of the TCP port table and what the code does to it: recording a first
    transmission, releasing acknowledged slots, resetting, retrying one slot and
    reacting to an arriving segment.  Everything here is a function of one port;
    the connection, table and task modules build on it. */
module TcpPort {
  import opened NetTypes

  const WORD: nat := 0x1_0000_0000
  const MAX_UNACKED: nat := 8
  const MAX_DATA: nat := 65495          // largest payload that fits an IPv4 packet with both headers
  const RETRANSMIT_TIMEOUT: nat := 100
  const TIME_WAIT_DURATION: nat := 1000

  type Chunk = s: seq<Byte> | |s| <= MAX_DATA
  type Addr = nat                       // 0 is the all-zeroes address
  type Tick = t: nat | t < WORD witness 0

  /** Unsigned 32-bit wrap-around, `x % 2^32` written so that small values stay themselves. */
  function Wrap(x: nat): Tick {
    if x < WORD then x else Wrap(x - WORD)
  }

  lemma {:induction false} WrapIsMod(x: nat)
    ensures Wrap(x) == x % WORD
  {
    if x >= WORD { WrapIsMod(x - WORD); }
  }

  datatype State =
    | Closed | Listen | SynSent | SynReceived | Established
    | FinWait1 | CloseWait | FinWait2 | LastAck | TimeWait

  datatype Control = Control(fin: bool, syn: bool, rst: bool, psh: bool, ack: bool)

  const SYN := Control(false, true, false, false, false)
  const FIN := Control(true, false, false, false, false)
  const ACK := Control(false, false, false, false, true)
  const ACK_PSH := Control(false, false, false, true, true)
  const SYN_ACK := Control(false, true, false, false, true)
  const FIN_ACK := Control(true, false, false, false, true)

  /** A data pointer: NULL, or a heap block with an identity and its contents. */
  datatype Payload = Null | Heap(id: nat, bytes: Chunk)

  function Bytes(d: Payload): Chunk {
    if d.Heap? then d.bytes else []
  }

  datatype Triple = Triple(self: nat, other: nat, addr: Addr)

  /** An entry of the send queue. */
  datatype Tx = Tx(to: Triple, seqNum: nat, control: Control, data: Payload)

  /** A segment as the peer's stack sees it. */
  datatype Segment = Segment(srcAddr: Addr, dstAddr: Addr, srcPort: nat, dstPort: nat,
                             seqNum: nat, ackNum: nat, control: Control, bytes: Chunk)

  datatype Slot = Slot(inUse: bool, seqNum: nat, control: Control, data: Payload, sentAt: Tick)

  const EMPTY_SLOT := Slot(false, 0, Control(false, false, false, false, false), Null, 0)

  const EMPTY_SLOTS: seq<Slot> :=
    [EMPTY_SLOT, EMPTY_SLOT, EMPTY_SLOT, EMPTY_SLOT, EMPTY_SLOT, EMPTY_SLOT, EMPTY_SLOT, EMPTY_SLOT]

  datatype Port = Port(id: Triple, state: State, enteredAt: Tick, ackNum: nat, seqNum: nat,
                       unacked: seq<Slot>, sem: nat)

  datatype Callback = OnConnect | OnReceive(bytes: Chunk) | OnDisconnect

  /** What happens to application payloads.  `Drop` marks the last pointer being overwritten. */
  datatype MemEvent = Give(id: nat) | Read(id: nat) | Free(id: nat) | Drop(id: nat)

  /** What the environment answers during one `tcp_send_internal` call. */
  datatype Env = Env(allocOk: bool, ipv4Ok: bool)

  /** Sequence numbers a segment occupies. */
  function Consumes(control: Control, bytes: Chunk): nat {
    |bytes| + if control.syn || control.fin then 1 else 0
  }

  function FreshPort(id: Triple, state: State): Port {
    Port(id, state, 0, 0, 0, EMPTY_SLOTS, MAX_UNACKED)
  }

  function Give1(sem: nat): nat {
    if sem < MAX_UNACKED then sem + 1 else sem
  }

  function FreeOf(d: Payload): seq<MemEvent> {
    if d.Heap? then [Free(d.id)] else []
  }

  function ReadOf(d: Payload): seq<MemEvent> {
    if d.Heap? && d.bytes != [] then [Read(d.id)] else []
  }

  function DropOf(d: Payload): seq<MemEvent> {
    if d.Heap? then [Drop(d.id)] else []
  }

  // ----- slots -----

  function FirstFree(slots: seq<Slot>): (k: nat)
    ensures k <= |slots|
    ensures forall i :: 0 <= i < k ==> slots[i].inUse
    ensures k < |slots| ==> !slots[k].inUse
  {
    if slots == [] || !slots[0].inUse then 0
    else 1 + FirstFree(slots[1..])
  }

  function InUse(slots: seq<Slot>): (n: nat)
    ensures n <= |slots|
  {
    if slots == [] then 0
    else InUse(slots[..|slots| - 1]) + if slots[|slots| - 1].inUse then 1 else 0
  }

  predicate Acked(u: Slot, ack: nat) {
    u.inUse && u.seqNum <= ack
  }

  function ReleaseSlot(u: Slot, ack: nat): Slot {
    if Acked(u, ack) then u.(inUse := false, data := Null) else u
  }

  function ReleaseSlots(slots: seq<Slot>, ack: nat): (r: seq<Slot>)
    ensures |r| == |slots|
    ensures forall i :: 0 <= i < |slots| ==> r[i] == ReleaseSlot(slots[i], ack)
  {
    seq(|slots|, i requires 0 <= i < |slots| => ReleaseSlot(slots[i], ack))
  }

  function ReleaseCount(slots: seq<Slot>, ack: nat): nat {
    if slots == [] then 0
    else ReleaseCount(slots[..|slots| - 1], ack) + if Acked(slots[|slots| - 1], ack) then 1 else 0
  }

  function ReleaseMem(slots: seq<Slot>, ack: nat): seq<MemEvent> {
    if slots == [] then []
    else ReleaseMem(slots[..|slots| - 1], ack) +
         if Acked(slots[|slots| - 1], ack) then FreeOf(slots[|slots| - 1].data) else []
  }

  function Min(a: nat, b: nat): nat { if a < b then a else b }

  /** `tcp.c` 336-350: free and give once for every slot at or below the acknowledgement. */
  function Release(p: Port, ack: nat): Port {
    p.(unacked := ReleaseSlots(p.unacked, ack),
       sem := if p.sem <= MAX_UNACKED then Min(MAX_UNACKED, p.sem + ReleaseCount(p.unacked, ack)) else p.sem)
  }

  // ----- reset -----

  function ClearSlots(slots: seq<Slot>): (r: seq<Slot>)
    ensures |r| == |slots|
    ensures forall i :: 0 <= i < |slots| ==>
              r[i] == if slots[i].inUse then slots[i].(data := Null) else slots[i]
  {
    seq(|slots|, i requires 0 <= i < |slots| => if slots[i].inUse then slots[i].(data := Null) else slots[i])
  }

  function ResetMem(slots: seq<Slot>): seq<MemEvent> {
    if slots == [] then []
    else ResetMem(slots[..|slots| - 1]) +
         if slots[|slots| - 1].inUse then FreeOf(slots[|slots| - 1].data) else []
  }

  function Reset(p: Port): Port {
    p.(state := Closed, id := p.id.(self := 0), unacked := ClearSlots(p.unacked), sem := MAX_UNACKED)
  }

  // ----- sending -----

  function Wire(self: Addr, p: Port, tx: Tx, seqNum: nat): Segment {
    Segment(self, tx.to.addr, tx.to.self, tx.to.other, seqNum, p.ackNum, tx.control, Bytes(tx.data))
  }

  datatype SendResult = Unsent(freed: seq<MemEvent>) | Sent(port: Port, segment: Segment, read: seq<MemEvent>)

  /** Recording a first transmission in slot `k`: `tcp.c` 185-193. */
  function Stow(p: Port, k: nat, tx: Tx, tick: Tick): Port
    requires k < |p.unacked|
  {
    p.(unacked := p.unacked[k := Slot(true, p.seqNum, tx.control, tx.data, tick)],
       seqNum := Wrap(p.seqNum + Consumes(tx.control, Bytes(tx.data))))
  }

  /** A first transmission, after allocation and port lookup: `tcp.c` 149-199. */
  function SendOn(self: Addr, p: Port, tx: Tx, tick: Tick): SendResult {
    var n := Consumes(tx.control, Bytes(tx.data));
    if n == 0 then
      // Nothing is recorded, so the pointer of a zero-length payload is lost here.
      Sent(p, Wire(self, p, tx, tx.seqNum), DropOf(tx.data))
    else
      var k := FirstFree(p.unacked);
      if k == |p.unacked| then
        Unsent(ReadOf(tx.data) + FreeOf(tx.data))
      else
        Sent(Stow(p, k, tx, tick), Wire(self, p, tx, p.seqNum), ReadOf(tx.data))
  }

  /** `now - since` in unsigned 32-bit arithmetic. */
  function Elapsed(now: Tick, since: Tick): Tick {
    if since <= now then now - since else now - since + WORD
  }

  predicate Due(u: Slot, tick: Tick) {
    u.inUse && Elapsed(tick, u.sentAt) >= RETRANSMIT_TIMEOUT
  }

  predicate TimedOut(p: Port, tick: Tick) {
    p.state == TimeWait && Elapsed(tick, p.enteredAt) > TIME_WAIT_DURATION
  }

  datatype RetryResult = RetryResult(port: Port, sent: seq<Segment>, mem: seq<MemEvent>)

  /** A retransmission that fails gives its slot back: `tcp.c` 767-771. */
  function Abandon(p: Port, k: nat, tick: Tick): Port
    requires k < |p.unacked|
  {
    p.(unacked := p.unacked[k := p.unacked[k].(sentAt := tick, data := Null, inUse := false)], sem := Give1(p.sem))
  }

  /** The body of the retransmission loop for slot `k`: `tcp.c` 748-772.  `ack` is the acknowledgement number of
      the row the lookup inside `tcp_send_internal` resolves to. */
  function Retry(self: Addr, p: Port, ack: nat, k: nat, tick: Tick, env: Env): (r: RetryResult)
    requires k < |p.unacked|
    ensures |r.port.unacked| == |p.unacked|
  {
    var u := p.unacked[k];
    if !Due(u, tick) then RetryResult(p, [], [])
    else
      if !env.allocOk then
        RetryResult(Abandon(p, k, tick), [], FreeOf(u.data))
      else if !env.ipv4Ok then
        RetryResult(Abandon(p, k, tick), [], ReadOf(u.data) + DropOf(u.data))
      else
        RetryResult(p.(unacked := p.unacked[k := u.(sentAt := tick)]),
                    [Segment(self, p.id.addr, p.id.self, p.id.other, u.seqNum, ack, u.control, Bytes(u.data))],
                    ReadOf(u.data))
  }

  /** The retransmission loop over the first `n` slots. */
  function RetryAll(self: Addr, p: Port, ack: nat, tick: Tick, envs: seq<Env>, n: nat): (r: RetryResult)
    requires n <= |envs| && n <= |p.unacked|
    ensures |r.port.unacked| == |p.unacked|
  {
    if n == 0 then RetryResult(p, [], [])
    else
      var r := RetryAll(self, p, ack, tick, envs, n - 1);
      var x := Retry(self, r.port, ack, n - 1, tick, envs[n - 1]);
      RetryResult(x.port, r.sent + x.sent, r.mem + x.mem)
  }

  // ----- receiving -----

  /** The outcome of an arriving segment for its port: the new row, the unreliable acknowledgement and
      the reliable control segment to enqueue, the callbacks made and the payloads freed. */
  datatype Effect = Effect(port: Port, acks: seq<Tx>, reliable: seq<Tx>, calls: seq<Callback>, mem: seq<MemEvent>)

  function ReplyTx(p: Port, addr: Addr, control: Control): Tx {
    Tx(Triple(p.id.self, p.id.other, addr), p.seqNum, control, Null)
  }

  predicate Advances(p: Port, s: Segment) {
    Consumes(s.control, s.bytes) > 0 && p.state != LastAck && p.state != Listen
  }

  /** Segments that leave no mark: out of sequence, or neither ACK nor SYN (`tcp.c` 325-332, 352-356). */
  predicate Ignored(p: Port, s: Segment) {
    (p.state != Listen && p.state != SynSent && s.seqNum != p.ackNum) || (!s.control.ack && !s.control.syn)
  }

  predicate AckAccepted(p: Port, s: Segment) {
    s.control.ack && s.ackNum <= p.seqNum
  }

  /** The row after acknowledgement processing and after acknowledging the data (`tcp.c` 334-372). */
  function Absorb(p: Port, s: Segment): Port {
    var q := if AckAccepted(p, s) then Release(p, s.ackNum) else p;
    if Advances(p, s) then q.(ackNum := Wrap(s.seqNum + Consumes(s.control, s.bytes))) else q
  }

  function AckFor(p: Port, s: Segment): seq<Tx> {
    if Advances(p, s) then [ReplyTx(p, s.srcAddr, ACK)] else []
  }

  function AbsorbMem(p: Port, s: Segment): seq<MemEvent> {
    if AckAccepted(p, s) then ReleaseMem(p.unacked, s.ackNum) else []
  }

  /** Everything of `tcp.c` 318-518 after the lookup, for a port that is not CLOSED. */
  function Receive(p: Port, s: Segment, tick: Tick): Effect {
    if s.control.rst then Effect(Reset(p), [], [], [], ResetMem(p.unacked))
    else if Ignored(p, s) then Effect(p, [], [], [], [])
    else Switch(Absorb(p, s), s, tick, AckFor(p, s), AbsorbMem(p, s))
  }

  function Switch(p: Port, s: Segment, tick: Tick, acks: seq<Tx>, mem: seq<MemEvent>): Effect {
    var stay := Effect(p, acks, [], [], mem);
    match p.state
    case Listen =>
      if !s.control.syn then stay
      else
        var q := p.(state := SynReceived, id := Triple(p.id.self, s.srcPort, s.srcAddr), ackNum := Wrap(s.seqNum + 1));
        stay.(port := q, reliable := [ReplyTx(q, s.srcAddr, SYN_ACK)])
    case SynSent =>
      if s.control.syn && s.control.ack then stay.(port := p.(state := Established), calls := [OnConnect])
      else stay
    case SynReceived =>
      if s.control.ack && s.ackNum == p.seqNum then stay.(port := p.(state := Established), calls := [OnConnect])
      else stay
    case Established =>
      var calls := if s.bytes != [] then [OnReceive(s.bytes)] else [];
      if s.control.fin then
        stay.(port := p.(state := LastAck), reliable := [ReplyTx(p, s.srcAddr, FIN_ACK)], calls := calls)
      else
        stay.(calls := calls)
    case LastAck =>
      if s.control.ack && s.ackNum == p.seqNum then
        Effect(Reset(p), acks, [], [OnDisconnect], mem + ResetMem(p.unacked))
      else stay
    case FinWait1 =>
      if s.control.fin then stay.(port := p.(state := TimeWait, enteredAt := tick), calls := [OnDisconnect])
      else if s.control.ack then stay.(port := p.(state := FinWait2))
      else stay
    case FinWait2 =>
      if s.control.fin then stay.(port := p.(state := TimeWait, enteredAt := tick), calls := [OnDisconnect])
      else stay
    case _ => stay
  }

  // ----- enqueueing on a port that was found -----

  datatype Enqueued = Enqueued(port: Port, queued: seq<Tx>, mem: seq<MemEvent>)

  /** `tcp_enqueue_reliable` once the slot semaphore is available: `tcp.c` 229-239. */
  function EnqueueOn(p: Port, tx: Tx, room: nat): Enqueued
    requires p.sem > 0
  {
    if p.state == Closed then Enqueued(p.(sem := p.sem - 1), [], FreeOf(tx.data))
    else if room == 0 then Enqueued(p, [], FreeOf(tx.data))
    else Enqueued(p.(sem := p.sem - 1), [tx], [])
  }

  function DataTx(id: Triple, data: Payload): Tx {
    Tx(id, 0, ACK_PSH, data)
  }
}
