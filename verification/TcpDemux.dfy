/** Live rows of the port table never share a (self port, other port, address) triple, so a triple resolves to the
    same row when a segment is enqueued, transmitted, retransmitted and answered. */
module TcpDemux {
  import opened TcpPort
  import opened TcpConnection
  import opened TcpSoundness
  import opened TcpEngine

  predicate Remote(id: Triple) { id.self != 0 && id.other != 0 && id.addr != 0 }

  /** The row of a listener that was closed: it keeps the listener's zero remote. */
  predicate IsShut(p: Port) { p.state == FinWait1 && p.id.self != 0 && p.id == Triple(p.id.self, 0, 0) }

  predicate RowKind(p: Port) {
    |p.unacked| == MAX_UNACKED &&
    (p.id.self == 0 <==> p.state == Closed) &&
    (p.state == Listen ==> p.id == Triple(p.id.self, 0, 0)) &&
    (p.state != Closed && p.state != Listen ==> Remote(p.id) || IsShut(p))
  }

  /** Live rows have pairwise distinct triples. */
  ghost predicate Distinct(ports: seq<Port>) {
    |ports| == MAX_PORTS && (forall i :: 0 <= i < |ports| ==> RowKind(ports[i])) &&
    forall i, j :: 0 <= i < j < |ports| && ports[i].id.self != 0 && ports[j].id.self != 0 ==> ports[i].id != ports[j].id
  }

  predicate Unclaimed(ports: seq<Port>, id: Triple) {
    forall i :: 0 <= i < |ports| ==> ports[i].id != id
  }

  /** Create commands use triples no live port has, and remote endpoints are nonzero. */
  predicate Fresh(e: Engine, ev: Event) {
    match ev
    case Sends(_, _) => true
    case Hears(s) => s.srcPort != 0 && s.srcAddr != 0
    case Connects(id) => Remote(id) && Unclaimed(e.ports, id)
    case Listens(self) => self != 0 && Unclaimed(e.ports, Triple(self, 0, 0))
    case Closes(_) => true
    case Serves(_) => true
    case Scans(_) => true
  }

  /** Looking up a live row's triple finds that row. */
  lemma FindsItself(ports: seq<Port>, i: nat)
    requires Distinct(ports) && i < |ports| && ports[i].id.self != 0
    ensures FindPort(ports, ports[i].id) == i
  {
    var k := FindPort(ports, ports[i].id);
    assert k <= i;
  }

  /** Replacing row `i` keeps the table distinct if the row keeps its triple, is reset, or takes an unclaimed one. */
  lemma DistinctUpdate(ports: seq<Port>, i: nat, p: Port)
    requires Distinct(ports) && i < |ports| && RowKind(p)
    requires p.id.self == 0 || p.id == ports[i].id || Unclaimed(ports, p.id)
    ensures Distinct(ports[i := p])
  {
  }

  lemma EnqueueDistinct(e: Engine, tx: Tx)
    requires Distinct(e.ports) && Enqueue(e, tx).Done?
    ensures Distinct(Enqueue(e, tx).e.ports)
  {
    var i := FindPort(e.ports, tx.to);
    if i < |e.ports| {
      assert RowKind(e.ports[i]);
      DistinctUpdate(e.ports, i, EnqueueOn(e.ports[i], tx, Room(e)).port);
    }
  }

  lemma SendFirstDistinct(e: Engine, tx: Tx, tick: Tick, env: Env)
    requires Distinct(e.ports)
    ensures Distinct(SendFirst(e, tx, tick, env).ports)
  {
    var i := FindPort(e.ports, tx.to);
    if i < |e.ports| {
      assert RowKind(e.ports[i]);
      var s := SendOn(e.self, e.ports[i], tx, tick);
      if s.Sent? { DistinctUpdate(e.ports, i, s.port); }
    }
  }

  /** What an arrival makes of a row. */
  lemma ReceiveKind(p: Port, s: Segment, tick: Tick)
    requires RowKind(p) && Remote(p.id) && p.state != Closed && p.state != Listen && s.srcAddr == p.id.addr
    ensures var e := Receive(p, s, tick);
            RowKind(e.port) && (e.port.id.self == 0 || e.port.id == p.id) &&
            (forall tx <- e.acks :: tx.to == p.id) && (forall tx <- e.reliable :: tx.to == p.id) &&
            (e.reliable != [] ==> e.port.id == p.id && e.port.state != Closed)
  {
    ReceiveReplies(p, s, tick);
    ReceiveStates2(p, s, tick);
  }

  lemma ReceiveStates2(p: Port, s: Segment, tick: Tick)
    requires p.state != Closed && p.state != Listen && p.id.self != 0
    ensures var e := Receive(p, s, tick);
            |e.port.unacked| == |p.unacked| && (e.port.id.self == 0 <==> e.port.state == Closed) &&
            e.port.state != Listen &&
            (e.reliable != [] ==> e.port.state != Closed)
  {
  }

  /** What an arrival makes of a listener. */
  lemma ListenerKind(p: Port, s: Segment, tick: Tick)
    requires RowKind(p) && p.state == Listen && s.control.syn && s.srcPort != 0 && s.srcAddr != 0
    ensures var e := Receive(p, s, tick);
            RowKind(e.port) && e.acks == [] &&
            (s.control.rst ==> e.port.id.self == 0 && e.reliable == [] && e.calls == []) &&
            (!s.control.rst ==>
               e.port.id == Triple(p.id.self, s.srcPort, s.srcAddr) && |e.reliable| == 1 &&
               e.reliable[0].to == e.port.id)
  {
  }

  lemma HeededDistinct(e: Engine, i: nat, s: Segment, tick: Tick)
    requires Distinct(e.ports) && Fresh(e, Hears(s)) && i == Target(e.ports, s) < |e.ports| &&
             e.ports[i].state != Closed
    ensures var eff := Receive(e.ports[i], s, tick);
            Distinct(Heeded(e, i, s, eff).ports) && (forall tx <- eff.reliable :: Remote(tx.to)) && |eff.reliable| <= 1
  {
    var p := e.ports[i];
    assert RowKind(p);
    if p.state == Listen {
      ListenerKind(p, s, tick);
    } else {
      ReceiveKind(p, s, tick);
      ReceiveReplyCount(p, s, tick);
    }
    DistinctUpdate(e.ports, i, Receive(p, s, tick).port);
  }

  lemma ReceiveReplyCount(p: Port, s: Segment, tick: Tick)
    ensures |Receive(p, s, tick).reliable| <= 1 && |Receive(p, s, tick).acks| <= 1
  {
  }

  lemma InputDistinct(e: Engine, s: Segment, tick: Tick)
    requires Distinct(e.ports) && Fresh(e, Hears(s)) && Input(e, s, tick).Done?
    ensures Distinct(Input(e, s, tick).e.ports)
  {
    var i := Target(e.ports, s);
    if i < |e.ports| && e.ports[i].state != Closed {
      HeededDistinct(e, i, s, tick);
      var eff := Receive(e.ports[i], s, tick);
      if eff.reliable != [] { EnqueueDistinct(Heeded(e, i, s, eff), eff.reliable[0]); }
    }
  }

  lemma {:induction false} RetryAllKind(self: Addr, p: Port, ack: nat, tick: Tick, envs: seq<Env>, n: nat)
    requires n <= |envs| && n <= |p.unacked|
    ensures var r := RetryAll(self, p, ack, tick, envs, n);
            r.port.id == p.id && r.port.state == p.state && r.port.ackNum == p.ackNum &&
            ((forall k :: 0 <= k < |p.unacked| ==> !p.unacked[k].inUse) ==> r.port == p && r.sent == [] && r.mem == [])
  {
    if n > 0 { RetryAllKind(self, p, ack, tick, envs, n - 1); }
  }

  lemma ScanPortDistinct(e: Engine, p: nat, tick: Tick, envs: seq<Env>)
    requires Distinct(e.ports) && p < |e.ports| && |e.ports[p].unacked| == |envs| == MAX_UNACKED
    ensures Distinct(ScanPort(e, p, tick, envs).ports)
  {
    var row := e.ports[p];
    assert RowKind(row);
    if row.id.self != 0 {
      if TimedOut(row, tick) {
        DistinctUpdate(e.ports, p, Reset(row));
      } else {
        var ack := e.ports[FindPort(e.ports, row.id)].ackNum;
        RetryAllKind(e.self, row, ack, tick, envs, MAX_UNACKED);
        DistinctUpdate(e.ports, p, RetryAll(e.self, row, ack, tick, envs, MAX_UNACKED).port);
      }
    }
  }

  lemma {:induction false} ScanPortsDistinct(e: Engine, tick: Tick, envs: seq<seq<Env>>, n: nat)
    requires Distinct(e.ports) && Scannable(e, envs) && n <= MAX_PORTS
    ensures Distinct(ScanPorts(e, tick, envs, n).ports)
  {
    if n > 0 {
      ScanPortsDistinct(e, tick, envs, n - 1);
      ScanPortDistinct(ScanPorts(e, tick, envs, n - 1), n - 1, tick, envs[n - 1]);
    }
  }

  lemma ConnectDistinct(e: Engine, id: Triple)
    requires Distinct(e.ports) && Fresh(e, Connects(id)) && ConnectPort(e, id).Done?
    ensures Distinct(ConnectPort(e, id).e.ports)
  {
    var i := FindUnused(e.ports);
    if i < |e.ports| {
      var p := FreshPort(id, SynSent);
      DistinctUpdate(e.ports, i, p);
      EnqueueDistinct(e.(ports := e.ports[i := p]), ReplyTx(p, id.addr, SYN));
    }
  }

  lemma CloseDistinct(e: Engine, id: Triple)
    requires Distinct(e.ports) && id.self != 0 && ClosePort(e, id).Done?
    ensures Distinct(ClosePort(e, id).e.ports)
  {
    var i := FindPort(e.ports, id);
    if i < |e.ports| {
      assert RowKind(e.ports[i]);
      var p := e.ports[i].(state := FinWait1);
      DistinctUpdate(e.ports, i, p);
      EnqueueDistinct(e.(ports := e.ports[i := p]), ReplyTx(p, id.addr, FIN));
    }
  }

  predicate AllRemote(q: seq<Tx>) { forall i :: 0 <= i < |q| ==> Remote(q[i].to) }

  lemma HandleDistinct(e: Engine, ev: Event, tick: Tick)
    requires Distinct(e.ports) && Admissible(e, ev) && Fresh(e, ev) && Handle(e, ev, tick).Done?
    ensures Distinct(Handle(e, ev, tick).e.ports)
  {
    match ev
    case Sends(id, data) =>
      var given := e.(mem := e.mem + GiveOf(data));
      if Enqueue(given, DataTx(id, data)).Done? { EnqueueDistinct(given, DataTx(id, data)); }
    case Serves(env) => SendFirstDistinct(e.(queue := e.queue[1..]), e.queue[0], tick, env);
    case Hears(s) => InputDistinct(e, s, tick);
    case Connects(id) => ConnectDistinct(e, id);
    case Listens(self) =>
      var i := FindUnused(e.ports);
      if i < |e.ports| { DistinctUpdate(e.ports, i, FreshPort(Triple(self, 0, 0), Listen)); }
    case Closes(id) => CloseDistinct(e, id);
    case Scans(envs) => ScanPortsDistinct(e, tick, envs, MAX_PORTS);
  }

  // ----- queued transmissions -----

  /** No call names a triple with a zero remote, as only a listener's own has. */
  predicate RemoteCalls(ev: Event) { (ev.Sends? || ev.Closes? ==> Remote(ev.id)) }

  lemma EnqueueRemote(e: Engine, tx: Tx)
    requires AllRemote(e.queue) && Remote(tx.to) && Enqueue(e, tx).Done?
    ensures AllRemote(Enqueue(e, tx).e.queue) && Enqueue(e, tx).e.self == e.self && e.sent <= Enqueue(e, tx).e.sent
  {
  }

  lemma InputRemote(e: Engine, s: Segment, tick: Tick)
    requires Distinct(e.ports) && AllRemote(e.queue) && Fresh(e, Hears(s)) && Input(e, s, tick).Done?
    ensures AllRemote(Input(e, s, tick).e.queue) && Input(e, s, tick).e.self == e.self &&
            e.sent <= Input(e, s, tick).e.sent
  {
    var i := Target(e.ports, s);
    if i < |e.ports| && e.ports[i].state != Closed {
      assert RowKind(e.ports[i]);
      HeededDistinct(e, i, s, tick);
      var eff := Receive(e.ports[i], s, tick);
      if e.ports[i].state == Listen { ListenerKind(e.ports[i], s, tick); } else { ReceiveKind(e.ports[i], s, tick); }
      assert AllRemote(Heeded(e, i, s, eff).queue);
      if eff.reliable != [] { EnqueueRemote(Heeded(e, i, s, eff), eff.reliable[0]); }
    }
  }

  lemma {:induction false} ScanPortsKeep(e: Engine, tick: Tick, envs: seq<seq<Env>>, n: nat)
    requires Scannable(e, envs) && n <= MAX_PORTS
    ensures var r := ScanPorts(e, tick, envs, n); r.queue == e.queue && r.self == e.self && e.sent <= r.sent
  {
    if n > 0 { ScanPortsKeep(e, tick, envs, n - 1); }
  }

  lemma CommandRemote(e: Engine, ev: Event, tick: Tick)
    requires AllRemote(e.queue) && Admissible(e, ev) && Fresh(e, ev) && Handle(e, ev, tick).Done?
    requires RemoteCalls(ev) && (ev.Connects? || ev.Closes?)
    ensures var r := Handle(e, ev, tick).e; AllRemote(r.queue) && r.self == e.self && e.sent <= r.sent
  {
    if ev.Connects? {
      var i := FindUnused(e.ports);
      var p := FreshPort(ev.id, SynSent);
      if i < |e.ports| { EnqueueRemote(e.(ports := e.ports[i := p]), ReplyTx(p, ev.id.addr, SYN)); }
    } else {
      var i := FindPort(e.ports, ev.id);
      if i < |e.ports| {
        var p := e.ports[i].(state := FinWait1);
        EnqueueRemote(e.(ports := e.ports[i := p]), ReplyTx(p, ev.id.addr, FIN));
      }
    }
  }

  lemma HandleRemote(e: Engine, ev: Event, tick: Tick)
    requires Distinct(e.ports) && AllRemote(e.queue) && Admissible(e, ev) && Fresh(e, ev) && Handle(e, ev, tick).Done?
    requires RemoteCalls(ev)
    ensures var r := Handle(e, ev, tick).e; AllRemote(r.queue) && r.self == e.self && e.sent <= r.sent
  {
    match ev
    case Sends(id, data) =>
      var given := e.(mem := e.mem + GiveOf(data));
      if Enqueue(given, DataTx(id, data)).Done? { EnqueueRemote(given, DataTx(id, data)); }
    case Serves(env) =>
    case Hears(s) => InputRemote(e, s, tick);
    case Connects(_) => CommandRemote(e, ev, tick);
    case Listens(_) =>
    case Closes(_) => CommandRemote(e, ev, tick);
    case Scans(envs) => ScanPortsKeep(e, tick, envs, MAX_PORTS);
  }

  /** A table keeps its address, and its log of segments only grows. */
  lemma HandleGrows(e: Engine, ev: Event, tick: Tick)
    requires Admissible(e, ev) && Handle(e, ev, tick).Done?
    ensures Handle(e, ev, tick).e.self == e.self && e.sent <= Handle(e, ev, tick).e.sent
  {
    if ev.Scans? { ScanPortsKeep(e, tick, ev.envs, MAX_PORTS); }
  }

  // ----- every run -----

  lemma StepDistinct(es: seq<Engine>, ats: seq<At>, i: nat)
    requires HandlesAt(es, ats, i) && Fresh(es[i], ats[i].ev) && Distinct(es[i].ports)
    ensures Distinct(es[i + 1].ports)
  {
    HandleDistinct(es[i], ats[i].ev, ats[i].tick);
  }

  lemma {:induction false} RunDistinct(es: seq<Engine>, ats: seq<At>, n: nat)
    requires IsTableRun(es, ats) && n < |es| && forall i :: 0 <= i < |ats| ==> Fresh(es[i], ats[i].ev)
    ensures Distinct(es[n].ports)
  {
    if n > 0 {
      RunDistinct(es, ats, n - 1);
      StepDistinct(es, ats, n - 1);
    }
  }

  /** In every run with fresh create commands live rows have pairwise distinct triples, each found under its own. */
  lemma DemuxUniqueness(es: seq<Engine>, ats: seq<At>, n: nat)
    requires IsTableRun(es, ats) && n < |es| && forall i :: 0 <= i < |ats| ==> Fresh(es[i], ats[i].ev)
    ensures Distinct(es[n].ports)
    ensures forall i :: 0 <= i < MAX_PORTS && es[n].ports[i].id.self != 0 ==>
              FindPort(es[n].ports, es[n].ports[i].id) == i
  {
    RunDistinct(es, ats, n);
    forall i | 0 <= i < MAX_PORTS && es[n].ports[i].id.self != 0 ensures FindPort(es[n].ports, es[n].ports[i].id) == i {
      FindsItself(es[n].ports, i);
    }
  }

  lemma StepRemote(es: seq<Engine>, ats: seq<At>, i: nat)
    requires HandlesAt(es, ats, i) && Fresh(es[i], ats[i].ev) && RemoteCalls(ats[i].ev)
    requires Distinct(es[i].ports) && AllRemote(es[i].queue)
    ensures AllRemote(es[i + 1].queue)
  {
    HandleRemote(es[i], ats[i].ev, ats[i].tick);
  }

  /** When no call names a listener's own triple, every queued segment is for a remote endpoint. */
  lemma {:induction false} QueueIsRemote(es: seq<Engine>, ats: seq<At>, n: nat)
    requires IsTableRun(es, ats) && n < |es|
    requires forall i :: 0 <= i < |ats| ==> Fresh(es[i], ats[i].ev) && RemoteCalls(ats[i].ev)
    ensures AllRemote(es[n].queue)
  {
    if n > 0 {
      QueueIsRemote(es, ats, n - 1);
      RunDistinct(es, ats, n - 1);
      StepRemote(es, ats, n - 1);
    }
  }

  /** A bound row keeps its triple until it is reset. */
  predicate Keeps(p: Port, q: Port) { q.id == p.id || q.state == Closed }

  lemma EnqueueKeeps(e: Engine, tx: Tx, k: nat)
    requires Enqueue(e, tx).Done? && k < |e.ports|
    ensures var r := Enqueue(e, tx).e;
            |r.ports| == |e.ports| && r.ports[k].id == e.ports[k].id && r.ports[k].state == e.ports[k].state
  {
  }

  lemma InputKeeps(e: Engine, s: Segment, tick: Tick, k: nat)
    requires Distinct(e.ports) && Fresh(e, Hears(s)) && Input(e, s, tick).Done? && k < |e.ports| &&
             e.ports[k].state !in {Closed, Listen}
    ensures Keeps(e.ports[k], Input(e, s, tick).e.ports[k])
  {
    var i := Target(e.ports, s);
    if i < |e.ports| && e.ports[i].state != Closed {
      assert RowKind(e.ports[i]);
      var eff := Receive(e.ports[i], s, tick);
      if i == k { ReceiveKind(e.ports[k], s, tick); }
      if eff.reliable != [] { EnqueueKeeps(Heeded(e, i, s, eff), eff.reliable[0], k); }
    }
  }

  lemma {:induction false} ScanKeeps(e: Engine, tick: Tick, envs: seq<seq<Env>>, n: nat, k: nat)
    requires Scannable(e, envs) && n <= MAX_PORTS && k < MAX_PORTS
    ensures Keeps(e.ports[k], ScanPorts(e, tick, envs, n).ports[k]) &&
            (n <= k ==> ScanPorts(e, tick, envs, n).ports[k] == e.ports[k])
  {
    if n > 0 {
      ScanKeeps(e, tick, envs, n - 1, k);
      var f := ScanPorts(e, tick, envs, n - 1);
      if n - 1 == k && f.ports[k].id.self != 0 {
        RetryAllKind(f.self, f.ports[k], f.ports[FindPort(f.ports, f.ports[k].id)].ackNum, tick, envs[k], MAX_UNACKED);
      }
    }
  }

  /** Whatever the task handles next, a bound row keeps its triple or is reset, so the lookups of a queued segment
      resolve to the row it was queued for as long as that row lives. */
  lemma RowKeepsTriple(e: Engine, ev: Event, tick: Tick, k: nat)
    requires Distinct(e.ports) && Admissible(e, ev) && Fresh(e, ev) && Handle(e, ev, tick).Done?
    requires k < MAX_PORTS && e.ports[k].state !in {Closed, Listen}
    ensures |Handle(e, ev, tick).e.ports| == MAX_PORTS && Keeps(e.ports[k], Handle(e, ev, tick).e.ports[k])
  {
    assert RowKind(e.ports[k]);
    match ev
    case Sends(id, data) =>
      var given := e.(mem := e.mem + GiveOf(data));
      if Enqueue(given, DataTx(id, data)).Done? { EnqueueKeeps(given, DataTx(id, data), k); }
    case Serves(env) =>
    case Hears(s) => InputKeeps(e, s, tick, k); InputDistinct(e, s, tick);
    case Connects(id) => ConnectKeeps(e, id, k);
    case Listens(self) =>
    case Closes(id) => CloseKeeps(e, id, k);
    case Scans(envs) => ScanKeeps(e, tick, envs, MAX_PORTS, k);
  }

  lemma ConnectKeeps(e: Engine, id: Triple, k: nat)
    requires ConnectPort(e, id).Done? && k < |e.ports| && e.ports[k].id.self != 0
    ensures |ConnectPort(e, id).e.ports| == |e.ports| && ConnectPort(e, id).e.ports[k].id == e.ports[k].id
  {
    var i := FindUnused(e.ports);
    var p := FreshPort(id, SynSent);
    if i < |e.ports| { EnqueueKeeps(e.(ports := e.ports[i := p]), ReplyTx(p, id.addr, SYN), k); }
  }

  lemma CloseKeeps(e: Engine, id: Triple, k: nat)
    requires ClosePort(e, id).Done? && k < |e.ports|
    ensures |ClosePort(e, id).e.ports| == |e.ports| && ClosePort(e, id).e.ports[k].id == e.ports[k].id
  {
    var i := FindPort(e.ports, id);
    if i < |e.ports| {
      var p := e.ports[i].(state := FinWait1);
      EnqueueKeeps(e.(ports := e.ports[i := p]), ReplyTx(p, id.addr, FIN), k);
    }
  }

  /** Lookups are stable: as long as row `k` is neither reset nor listening, the triple it was bound to at step `i`
      still resolves to row `k` at step `j`, so enqueueing and transmitting find the same port. */
  lemma {:induction false} LookupStable(es: seq<Engine>, ats: seq<At>, i: nat, j: nat, k: nat)
    requires IsTableRun(es, ats) && i <= j < |es| && k < MAX_PORTS
    requires forall m :: 0 <= m < |ats| ==> Fresh(es[m], ats[m].ev)
    requires forall m :: i <= m <= j ==> |es[m].ports| == MAX_PORTS && es[m].ports[k].state !in {Closed, Listen}
    ensures es[j].ports[k].id == es[i].ports[k].id && FindPort(es[j].ports, es[i].ports[k].id) == k
  {
    if i == j {
      RowFound(es, ats, j, k);
    } else {
      LookupStable(es, ats, i, j - 1, k);
      StepKeeps(es, ats, j - 1, k);
      RowFound(es, ats, j, k);
    }
  }

  lemma RowFound(es: seq<Engine>, ats: seq<At>, j: nat, k: nat)
    requires IsTableRun(es, ats) && j < |es| && forall m :: 0 <= m < |ats| ==> Fresh(es[m], ats[m].ev)
    requires k < MAX_PORTS == |es[j].ports| && es[j].ports[k].state != Closed
    ensures FindPort(es[j].ports, es[j].ports[k].id) == k
  {
    RunDistinct(es, ats, j);
    assert RowKind(es[j].ports[k]);
    FindsItself(es[j].ports, k);
  }

  lemma StepKeeps(es: seq<Engine>, ats: seq<At>, i: nat, k: nat)
    requires IsTableRun(es, ats) && i < |ats| && forall m :: 0 <= m < |ats| ==> Fresh(es[m], ats[m].ev)
    requires k < MAX_PORTS == |es[i].ports| && es[i].ports[k].state !in {Closed, Listen}
    ensures |es[i + 1].ports| == MAX_PORTS && Keeps(es[i].ports[k], es[i + 1].ports[k])
  {
    RunDistinct(es, ats, i);
    assert HandlesAt(es, ats, i);
    RowKeepsTriple(es[i], ats[i].ev, ats[i].tick, k);
  }
}
