/** The table of eight ports with its send queue, following the lookups of `tcp.c` literally: every call that
    takes a (self port, other port, address) triple resolves it to the first matching row. */
module TcpEngine {
  import opened TcpPort

  const MAX_PORTS: nat := 8
  const SEND_QUEUE_LENGTH: nat := 8

  datatype Call = Call(id: Triple, what: Callback)

  /** `sent`, `calls` and `mem` log what was handed to IPv4, which callbacks were made and what became of payloads. */
  datatype Engine = Engine(self: Addr, ports: seq<Port>, queue: seq<Tx>,
                           sent: seq<Segment>, calls: seq<Call>, mem: seq<MemEvent>)

  datatype Reply = Blocked | Done(e: Engine)

  function NewEngine(self: Addr): Engine {
    var unused := FreshPort(Triple(0, 0, 0), Closed);
    Engine(self, [unused, unused, unused, unused, unused, unused, unused, unused], [], [], [], [])
  }

  function FindPort(ports: seq<Port>, id: Triple): (i: nat)
    ensures i <= |ports| && (i < |ports| ==> ports[i].id == id)
    ensures forall k :: 0 <= k < i ==> ports[k].id != id
  {
    if ports == [] || ports[0].id == id then 0 else 1 + FindPort(ports[1..], id)
  }

  predicate Listening(p: Port, self: nat) {
    p.id.self == self && p.state == Listen && p.id.addr == 0
  }

  function FindListening(ports: seq<Port>, self: nat): (i: nat)
    ensures i <= |ports| && (i < |ports| ==> Listening(ports[i], self))
    ensures forall k :: 0 <= k < i ==> !Listening(ports[k], self)
  {
    if ports == [] || Listening(ports[0], self) then 0 else 1 + FindListening(ports[1..], self)
  }

  function FindUnused(ports: seq<Port>): (i: nat)
    ensures i <= |ports| && (i < |ports| ==> ports[i].id.self == 0)
    ensures forall k :: 0 <= k < i ==> ports[k].id.self != 0
  {
    if ports == [] || ports[0].id.self == 0 then 0 else 1 + FindUnused(ports[1..])
  }

  function Room(e: Engine): nat {
    if |e.queue| < SEND_QUEUE_LENGTH then SEND_QUEUE_LENGTH - |e.queue| else 0
  }

  function Freed(e: Engine, d: Payload): Engine { e.(mem := e.mem + FreeOf(d)) }

  /** `tcp_enqueue_reliable`; `Blocked` when the semaphore of the port found is exhausted. */
  function Enqueue(e: Engine, tx: Tx): Reply {
    var i := FindPort(e.ports, tx.to);
    if i == |e.ports| then Done(Freed(e, tx.data))
    else if e.ports[i].sem == 0 then Blocked
    else
      var q := EnqueueOn(e.ports[i], tx, Room(e));
      Done(e.(ports := e.ports[i := q.port], queue := e.queue + q.queued, mem := e.mem + q.mem))
  }

  function GiveOf(d: Payload): seq<MemEvent> { if d.Heap? then [Give(d.id)] else [] }

  /** `tcp_send` from an application task; a semaphore that stays exhausted times out. */
  function AppSend(e: Engine, id: Triple, data: Payload): Engine {
    var given := e.(mem := e.mem + GiveOf(data));
    match Enqueue(given, DataTx(id, data))
    case Blocked => Freed(given, data)
    case Done(r) => r
  }

  /** `tcp_send_internal` for a first transmission. */
  function SendFirst(e: Engine, tx: Tx, tick: Tick, env: Env): Engine {
    var i := FindPort(e.ports, tx.to);
    if !env.allocOk || i == |e.ports| then Freed(e, tx.data)
    else
      match SendOn(e.self, e.ports[i], tx, tick)
      case Unsent(freed) => e.(mem := e.mem + freed)
      case Sent(p, s, read) =>
        e.(ports := e.ports[i := p], mem := e.mem + read, sent := if env.ipv4Ok then e.sent + [s] else e.sent)
  }

  /** `tcp_send_internal` for a retransmission: nothing is recorded. */
  function Resend(e: Engine, tx: Tx, env: Env): Engine {
    var i := FindPort(e.ports, tx.to);
    if !env.allocOk || i == |e.ports| then Freed(e, tx.data)
    else e.(mem := e.mem + ReadOf(tx.data),
            sent := if env.ipv4Ok then e.sent + [Wire(e.self, e.ports[i], tx, tx.seqNum)] else e.sent)
  }

  /** One item of the send queue. */
  function ServeQueue(e: Engine, tick: Tick, env: Env): Engine
    requires e.queue != []
  {
    SendFirst(e.(queue := e.queue[1..]), e.queue[0], tick, env)
  }

  function Calls(id: Triple, calls: seq<Callback>): (r: seq<Call>)
    ensures |r| == |calls|
  {
    seq(|calls|, i requires 0 <= i < |calls| => Call(id, calls[i]))
  }

  /** The row a segment is for: an exact match, else a listener if it carries SYN. */
  function Target(ports: seq<Port>, s: Segment): (i: nat)
    ensures i <= |ports|
  {
    var i := FindPort(ports, Triple(s.dstPort, s.srcPort, s.srcAddr));
    if i == |ports| && s.control.syn then FindListening(ports, s.dstPort) else i
  }

  /** The table after row `i` has taken a segment in, before any reliable reply is enqueued. */
  function Heeded(e: Engine, i: nat, s: Segment, eff: Effect): Engine
    requires i < |e.ports|
  {
    e.(ports := e.ports[i := eff.port], queue := e.queue + eff.acks,
       calls := e.calls + Calls(Triple(s.dstPort, s.srcPort, s.srcAddr), eff.calls), mem := e.mem + eff.mem)
  }

  /** `input_tcp_internal`. */
  function Input(e: Engine, s: Segment, tick: Tick): Reply {
    var i := Target(e.ports, s);
    if i == |e.ports| || e.ports[i].state == Closed then Done(e)
    else
      var eff := Receive(e.ports[i], s, tick);
      if |eff.acks| > Room(e) then Blocked
      else
        var r := Heeded(e, i, s, eff);
        if eff.reliable == [] then Done(r) else Enqueue(r, eff.reliable[0])
  }

  /** `tcp_connect_port_internal`. */
  function ConnectPort(e: Engine, id: Triple): Reply {
    var i := FindUnused(e.ports);
    if i == |e.ports| then Done(e)
    else
      var p := FreshPort(id, SynSent);
      Enqueue(e.(ports := e.ports[i := p]), ReplyTx(p, id.addr, SYN))
  }

  /** `tcp_listen_port_internal`. */
  function ListenPort(e: Engine, self: nat): Engine {
    var i := FindUnused(e.ports);
    if i == |e.ports| then e else e.(ports := e.ports[i := FreshPort(Triple(self, 0, 0), Listen)])
  }

  /** `tcp_close_port_internal`. */
  function ClosePort(e: Engine, id: Triple): Reply {
    var i := FindPort(e.ports, id);
    if i == |e.ports| then Done(e)
    else
      var p := e.ports[i].(state := FinWait1);
      Enqueue(e.(ports := e.ports[i := p]), ReplyTx(p, id.addr, FIN))
  }

  // ----- the idle scan -----

  predicate Scannable(e: Engine, envs: seq<seq<Env>>) {
    |e.ports| == |envs| == MAX_PORTS &&
    (forall i :: 0 <= i < |e.ports| ==> |e.ports[i].unacked| == MAX_UNACKED) &&
    (forall i :: 0 <= i < |envs| ==> |envs[i]| == MAX_UNACKED)
  }

  /** Row `p` replaced by the outcome of retransmissions. */
  function Patched(e: Engine, p: nat, r: RetryResult): Engine
    requires p < |e.ports|
  {
    e.(ports := e.ports[p := r.port], sent := e.sent + r.sent, mem := e.mem + r.mem)
  }

  /** One port of the scan: `tcp.c` 737-773. */
  function ScanPort(e: Engine, p: nat, tick: Tick, envs: seq<Env>): (r: Engine)
    requires p < |e.ports| && |e.ports[p].unacked| == |envs| == MAX_UNACKED
    ensures |r.ports| == |e.ports| && |r.ports[p].unacked| == MAX_UNACKED && r.ports == e.ports[p := r.ports[p]]
  {
    var row := e.ports[p];
    if row.id.self == 0 then e
    else if TimedOut(row, tick) then
      e.(ports := e.ports[p := Reset(row)], mem := e.mem + ResetMem(row.unacked))
    else
      var r := RetryAll(e.self, row, e.ports[FindPort(e.ports, row.id)].ackNum, tick, envs, MAX_UNACKED);
      Patched(e, p, r)
  }

  function ScanPorts(e: Engine, tick: Tick, envs: seq<seq<Env>>, n: nat): (r: Engine)
    requires Scannable(e, envs) && n <= MAX_PORTS
    ensures Scannable(r, envs)
  {
    if n == 0 then e else ScanPort(ScanPorts(e, tick, envs, n - 1), n - 1, tick, envs[n - 1])
  }

  // ----- steps -----

  datatype Event =
    | Sends(id: Triple, data: Payload)
    | Serves(env: Env)
    | Hears(s: Segment)
    | Connects(id: Triple)
    | Listens(self: nat)
    | Closes(id: Triple)
    | Scans(envs: seq<seq<Env>>)

  /** Local port numbers are nonzero: zero marks an unused row. */
  predicate Admissible(e: Engine, ev: Event) {
    match ev
    case Sends(id, _) => id.self != 0
    case Serves(_) => e.queue != []
    case Hears(_) => true
    case Connects(id) => id.self != 0
    case Listens(self) => self != 0
    case Closes(id) => id.self != 0
    case Scans(envs) => Scannable(e, envs)
  }

  function Handle(e: Engine, ev: Event, tick: Tick): Reply
    requires Admissible(e, ev)
  {
    match ev
    case Sends(id, data) => Done(AppSend(e, id, data))
    case Serves(env) => Done(ServeQueue(e, tick, env))
    case Hears(s) => Input(e, s, tick)
    case Connects(id) => ConnectPort(e, id)
    case Listens(self) => Done(ListenPort(e, self))
    case Closes(id) => ClosePort(e, id)
    case Scans(envs) => Done(ScanPorts(e, tick, envs, MAX_PORTS))
  }

  // ----- runs of one table -----

  datatype At = At(ev: Event, tick: Tick)

  predicate HandlesAt(es: seq<Engine>, ats: seq<At>, i: nat) {
    i < |ats| && i + 1 < |es| && Admissible(es[i], ats[i].ev) &&
    Handle(es[i], ats[i].ev, ats[i].tick) == Done(es[i + 1])
  }

  ghost predicate IsTableRun(es: seq<Engine>, ats: seq<At>) {
    |es| == |ats| + 1 && es[0] == NewEngine(es[0].self) && forall i :: 0 <= i < |ats| ==> HandlesAt(es, ats, i)
  }
}
