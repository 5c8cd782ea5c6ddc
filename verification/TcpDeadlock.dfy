/** When the TCP task waits for itself.  It is the only reader of the send queue and the only one to give slots back,
    and its calls without a timeout wait on exactly these: once it waits, nothing an application does lets it go on. */
module TcpDeadlock {
  import opened TcpPort
  import opened TcpEngine
  import opened TcpDemux

  // ----- when -----

  /** The segment makes the task enqueue a reliable reply. */
  predicate Replies(p: Port, s: Segment) {
    (p.state == Listen && s.control.syn) || (p.state == Established && s.control.fin)
  }

  /** An arrival for row `p` with `queued` entries in the send queue makes the task wait. */
  predicate ArrivalWaits(p: Port, s: Segment, queued: nat) {
    p.state != Closed && !s.control.rst && !Ignored(p, s) &&
    ((Advances(p, s) && queued >= SEND_QUEUE_LENGTH) || (Replies(p, s) && Absorb(p, s).sem == 0))
  }

  predicate Waits(e: Engine, ev: Event) {
    match ev
    case Hears(s) => Target(e.ports, s) < |e.ports| && ArrivalWaits(e.ports[Target(e.ports, s)], s, |e.queue|)
    case Closes(id) => FindPort(e.ports, id) < |e.ports| && e.ports[FindPort(e.ports, id)].sem == 0
    case _ => false
  }

  lemma ReceiveWaits(p: Port, s: Segment, tick: Tick)
    requires p.state != Closed && (p.state == Listen || p.id.addr == s.srcAddr)
    ensures var eff := Receive(p, s, tick);
            (eff.acks != [] <==> !s.control.rst && !Ignored(p, s) && Advances(p, s)) && |eff.acks| <= 1 &&
            (eff.reliable != [] <==> !s.control.rst && !Ignored(p, s) && Replies(p, s)) &&
            (eff.reliable != [] ==>
               eff.port.sem == Absorb(p, s).sem && eff.reliable[0].to == eff.port.id &&
               eff.port.id == if p.state == Listen then Triple(p.id.self, s.srcPort, s.srcAddr) else p.id)
  {
  }

  /** The row an arrival is for is found again under its triple after the arrival. */
  lemma FoundAgain(e: Engine, s: Segment, i: nat, p: Port)
    requires Distinct(e.ports) && Fresh(e, Hears(s)) && i == Target(e.ports, s) < |e.ports| &&
             e.ports[i].state != Closed
    requires p.id == if e.ports[i].state == Listen then Triple(e.ports[i].id.self, s.srcPort, s.srcAddr)
             else e.ports[i].id
    ensures FindPort(e.ports[i := p], p.id) == i
  {
    var row := e.ports[i];
    assert RowKind(row);
    var k := FindPort(e.ports[i := p], p.id);
    assert e.ports[i := p][i].id == p.id && k <= i;
    assert forall j :: 0 <= j < i ==> e.ports[j].id != p.id;
  }

  lemma HearsBlockedIff(e: Engine, s: Segment, tick: Tick)
    requires Distinct(e.ports) && Fresh(e, Hears(s))
    ensures Input(e, s, tick) == Blocked <==> Waits(e, Hears(s))
  {
    var i := Target(e.ports, s);
    if i < |e.ports| && e.ports[i].state != Closed {
      assert RowKind(e.ports[i]);
      ReceiveWaits(e.ports[i], s, tick);
      var eff := Receive(e.ports[i], s, tick);
      if eff.reliable != [] { FoundAgain(e, s, i, eff.port); }
    }
  }

  /** The task waits for itself exactly when an arrival must be acknowledged and the send queue is full, or when it must
      be answered reliably, or the port closed, and the port has no slot left; a connect command never waits. */
  lemma BlockedIff(e: Engine, ev: Event, tick: Tick)
    requires Distinct(e.ports) && Admissible(e, ev) && Fresh(e, ev)
    ensures Handle(e, ev, tick) == Blocked <==> Waits(e, ev)
  {
    match ev
    case Hears(s) => HearsBlockedIff(e, s, tick);
    case Connects(id) => ConnectNeverWaits(e, id);
    case Closes(id) => CloseBlockedIff(e, id);
    case _ =>
  }

  lemma ConnectNeverWaits(e: Engine, id: Triple)
    requires Unclaimed(e.ports, id)
    ensures ConnectPort(e, id).Done?
  {
    var i := FindUnused(e.ports);
    if i < |e.ports| {
      var ports := e.ports[i := FreshPort(id, SynSent)];
      var k := FindPort(ports, id);
      assert ports[i].id == id;
      assert forall j :: 0 <= j < i ==> ports[j].id != id;
    }
  }

  lemma CloseBlockedIff(e: Engine, id: Triple)
    ensures ClosePort(e, id) == Blocked <==> Waits(e, Closes(id))
  {
    var i := FindPort(e.ports, id);
    if i < |e.ports| {
      var ports := e.ports[i := e.ports[i].(state := FinWait1)];
      assert ports[i].id == id;
      var k := FindPort(ports, id);
      assert forall j :: 0 <= j < i ==> ports[j].id != id;
      assert ReplyTx(ports[i], id.addr, FIN).to == id;
    }
  }

  // ----- for how long -----

  predicate TighterRow(p: Port, q: Port) { q == p.(sem := q.sem) && q.sem <= p.sem }

  /** `f` differs from `e` only by fewer free slots and a longer queue. */
  ghost predicate Tighter(e: Engine, f: Engine) {
    |f.ports| == |e.ports| && |f.queue| >= |e.queue| &&
    forall i :: 0 <= i < |e.ports| ==> TighterRow(e.ports[i], f.ports[i])
  }

  lemma AppSendTighter(e: Engine, id: Triple, data: Payload)
    ensures Tighter(e, AppSend(e, id, data))
  {
  }

  lemma AbsorbTighter(p: Port, q: Port, s: Segment)
    requires TighterRow(p, q) && q.sem <= p.sem
    ensures Absorb(q, s).sem <= Absorb(p, s).sem
  {
  }

  lemma SameFind(a: seq<Port>, b: seq<Port>, id: Triple)
    requires |a| == |b| && forall i :: 0 <= i < |a| ==> TighterRow(a[i], b[i])
    ensures FindPort(a, id) == FindPort(b, id)
  {
    var i, j := FindPort(a, id), FindPort(b, id);
    if i < |a| { assert b[i].id == id; }
    if j < |b| { assert a[j].id == id; }
  }

  lemma SameListening(a: seq<Port>, b: seq<Port>, self: nat)
    requires |a| == |b| && forall i :: 0 <= i < |a| ==> TighterRow(a[i], b[i])
    ensures FindListening(a, self) == FindListening(b, self)
  {
    var i, j := FindListening(a, self), FindListening(b, self);
    if i < |a| { assert Listening(b[i], self); }
    if j < |b| { assert Listening(a[j], self); }
  }

  lemma TighterWaits(e: Engine, f: Engine, ev: Event)
    requires Tighter(e, f) && Waits(e, ev)
    ensures Waits(f, ev)
  {
    match ev
    case Hears(s) =>
      SameFind(e.ports, f.ports, Triple(s.dstPort, s.srcPort, s.srcAddr));
      SameListening(e.ports, f.ports, s.dstPort);
      var i := Target(e.ports, s);
      AbsorbTighter(e.ports[i], f.ports[i], s);
    case Closes(id) => SameFind(e.ports, f.ports, id);
  }

  /** `es` is the table under application sends alone, all that can happen while the task waits. */
  predicate SendsAt(es: seq<Engine>, ids: seq<Triple>, data: seq<Payload>, i: nat) {
    i < |ids| && i < |data| && i + 1 < |es| && es[i + 1] == AppSend(es[i], ids[i], data[i])
  }

  /** Once the task waits, it waits for good, whatever the applications send. */
  lemma {:induction false} WaitsForever(es: seq<Engine>, ids: seq<Triple>, data: seq<Payload>, ev: Event, n: nat)
    requires |es| == |ids| + 1 == |data| + 1 && n < |es| && forall i :: 0 <= i < |ids| ==> SendsAt(es, ids, data, i)
    requires Waits(es[0], ev)
    ensures Waits(es[n], ev)
  {
    if n > 0 {
      WaitsForever(es, ids, data, ev, n - 1);
      assert SendsAt(es, ids, data, n - 1);
      AppSendTighter(es[n - 1], ids[n - 1], data[n - 1]);
      TighterWaits(es[n - 1], es[n], ev);
    }
  }
}
