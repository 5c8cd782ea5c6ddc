/** What each event does to a whole table, without the functions that do it: arrivals at live rows and at listeners, the
    commands, and sends. */
module TcpEffects {
  import opened TcpPort
  import opened TcpConnection
  import opened TcpSoundness
  import opened TcpEngine
  import opened TcpDemux
  import opened TcpListeners
  import opened TcpProjection
  import opened TcpArrivals
  import opened TcpTable
  import TcpTheorems

  /** Only row `i` differs. */
  predicate OnlyRow(e: Engine, r: Engine, i: nat) {
    i < |e.ports| == |r.ports| && r.self == e.self &&
    forall j :: 0 <= j < |e.ports| && j != i ==> r.ports[j] == e.ports[j]
  }

  /** No slot is in use and all eight may be taken. */
  predicate AllFree(p: Port) {
    |p.unacked| == MAX_UNACKED && p.sem == MAX_UNACKED && forall k :: 0 <= k < MAX_UNACKED ==> !p.unacked[k].inUse
  }

  /** Row `i` is the first that is free. */
  predicate FirstUnused(ports: seq<Port>, i: nat) {
    i < |ports| && ports[i].id.self == 0 && forall j :: 0 <= j < i ==> ports[j].id.self != 0
  }

  predicate Full(ports: seq<Port>) { forall j :: 0 <= j < |ports| ==> ports[j].id.self != 0 }

  lemma UnusedIs(ports: seq<Port>, i: nat)
    requires FirstUnused(ports, i)
    ensures FindUnused(ports) == i
  {
  }

  // ----- listening -----

  /** Listening puts one fresh row into the first free place and changes nothing else; with no free place it changes
      nothing at all. */
  lemma ListenOutcome(e: Engine, self: nat, tick: Tick, r: Engine)
    requires self != 0 && Handle(e, Listens(self), tick) == Done(r)
    ensures Full(e.ports) ==> r == e
    ensures forall i: nat :: FirstUnused(e.ports, i) ==>
              OnlyRow(e, r, i) && r.queue == e.queue && r.sent == e.sent && r.calls == e.calls && r.mem == e.mem &&
              r.ports[i].id == Triple(self, 0, 0) && r.ports[i].state == Listen && AllFree(r.ports[i]) &&
              r.ports[i].seqNum == 0 && r.ports[i].ackNum == 0
  {
    forall i: nat | FirstUnused(e.ports, i) ensures FindUnused(e.ports) == i { UnusedIs(e.ports, i); }
  }

  /** A SYN for a listening port from a remote that has no row of its own reaches a listener. */
  lemma SynReachesListener(ports: seq<Port>, s: Segment, i: nat)
    requires s.control.syn && i < |ports| && ports[i].id == Triple(s.dstPort, 0, 0) && ports[i].state == Listen
    requires Unclaimed(ports, Source(s))
    ensures Target(ports, s) < |ports|
    ensures var p := ports[Target(ports, s)]; p.state == Listen && p.id.self == s.dstPort && p.id.addr == 0
  {
  }

  /** Listening and then hearing a SYN from an unknown remote: the listener's row becomes the connection's, one past the
      SYN, with the SYN+ACK queued. */
  lemma AcceptOutcome(e: Engine, i: nat, s: Segment, tick: Tick)
    requires Distinct(e.ports) && Tame(e) && Fresh(e, Hears(s)) && Unclaimed(e.ports, Source(s))
    requires i < |e.ports| && e.ports[i].id == Triple(s.dstPort, 0, 0) && e.ports[i].state == Listen && s.dstPort != 0
    requires s.control.syn && !s.control.rst && Room(e) > 0
    ensures Handle(e, Hears(s), tick).Done?
    ensures var r := Handle(e, Hears(s), tick).e;
            OnlyRow(e, r, i) && r.sent == e.sent && r.calls == e.calls &&
            r.ports[i].id == Triple(s.dstPort, s.srcPort, s.srcAddr) && r.ports[i].state == SynReceived &&
            r.ports[i].ackNum == (s.seqNum + 1) % WORD && r.ports[i].seqNum == 0 &&
            AllFree(r.ports[i].(sem := MAX_UNACKED)) && r.ports[i].sem == MAX_UNACKED - 1 &&
            r.queue == e.queue + [Tx(Triple(s.dstPort, s.srcPort, s.srcAddr), 0, SYN_ACK, Null)]
  {
    SynReachesListener(e.ports, s, i);
    var j := Target(e.ports, s);
    ListenerAlone(e.ports, i, j);
    assert FreshListener(e.ports[i]) && RowKind(e.ports[i]);
    AcceptShapeIs(s, tick);
    var eff := Receive(Listener(s.dstPort), s, tick);
    InputOnListener(e, i, s, tick, eff.port, eff.reliable[0]);
    WrapOnePast(s.seqNum);
  }

  lemma WrapOnePast(x: nat)
    ensures Wrap(x + 1) == (x + 1) % WORD
  {
    WrapIsMod(x + 1);
  }

  lemma ListenerAlone(ports: seq<Port>, i: nat, j: nat)
    requires Distinct(ports) && i < |ports| && j < |ports| && ports[i].state == Listen && ports[j].state == Listen
    requires ports[i].id.self == ports[j].id.self != 0
    ensures i == j
  {
    assert RowKind(ports[i]) && RowKind(ports[j]);
  }

  lemma AcceptShapeIs(s: Segment, tick: Tick)
    requires s.control.syn && !s.control.rst
    ensures var e := Receive(Listener(s.dstPort), s, tick);
            var q := FreshPort(Triple(s.dstPort, s.srcPort, s.srcAddr), SynReceived).(ackNum := Wrap(s.seqNum + 1));
            e == Effect(q, [], [Tx(q.id, 0, SYN_ACK, Null)], [], [])
  {
    AcceptShape(s.dstPort, s, tick);
  }

  lemma InputOnListener(e: Engine, i: nat, s: Segment, tick: Tick, q: Port, tx: Tx)
    requires i == Target(e.ports, s) < |e.ports| && e.ports[i].state != Closed && Room(e) > 0
    requires Unclaimed(e.ports, q.id) && tx.to == q.id && q.sem == MAX_UNACKED && q.state == SynReceived &&
             tx.data == Null
    requires Receive(e.ports[i], s, tick) == Effect(q, [], [tx], [], [])
    ensures Input(e, s, tick).Done?
    ensures var r := Input(e, s, tick).e;
            r == e.(ports := e.ports[i := q.(sem := MAX_UNACKED - 1)], queue := e.queue + [tx])
  {
    var mid := Heeded(e, i, s, Effect(q, [], [tx], [], []));
    assert mid.queue == e.queue && mid.calls == e.calls && mid.mem == e.mem;
    assert mid.ports[i].id == q.id && FindPort(mid.ports, q.id) <= i;
    assert forall j :: 0 <= j < i ==> mid.ports[j].id != q.id;
    assert mid.ports[i := q.(sem := MAX_UNACKED - 1)] == e.ports[i := q.(sem := MAX_UNACKED - 1)];
    assert mid.mem + [] == e.mem;
  }

  /** A segment from a remote without a row is dropped unless it is a SYN for a listening port. */
  lemma StrangerIgnored(e: Engine, s: Segment, tick: Tick)
    requires Unclaimed(e.ports, Source(s))
    requires s.control.syn ==> forall i :: 0 <= i < |e.ports| ==>
             !(e.ports[i].state == Listen && e.ports[i].id.self == s.dstPort)
    ensures Handle(e, Hears(s), tick) == Done(e)
  {
  }

  // ----- arrivals at live rows -----

  /** What hearing `s` makes of the table whose row `i` it is for. */
  ghost predicate TableArrival(e: Engine, i: nat, s: Segment, tick: Tick, r: Engine)
    requires i < |e.ports|
  {
    var p := e.ports[i];
    OnlyRow(e, r, i) && StateOutcome(p, s, r.ports[i]) &&
    (if r.ports[i].state == Closed then Emptied(r.ports[i]) else NumbersOutcome(p, s, tick, r.ports[i])) &&
    r.sent == e.sent && r.queue == e.queue + Replies(p, s, Room(e)) && CallsGrew(e, r, Source(s), CallsMade(p, s))
  }

  /** The callbacks of one event, all for one triple. */
  ghost predicate CallsGrew(e: Engine, r: Engine, t: Triple, calls: seq<Callback>) {
    |r.calls| == |e.calls| + |calls| && e.calls <= r.calls &&
    forall k :: 0 <= k < |calls| ==> r.calls[|e.calls| + k] == Call(t, calls[k])
  }

  /** Every arrival at a live row past LISTEN that the task handles has exactly this outcome. */
  lemma ArrivalOutcomeInTable(e: Engine, i: nat, s: Segment, tick: Tick, r: Engine)
    requires Distinct(e.ports) && Fresh(e, Hears(s)) && i < |e.ports| && e.ports[i].id == Source(s) &&
             PastOpen(e.ports[i])
    requires Handle(e, Hears(s), tick) == Done(r)
    ensures TableArrival(e, i, s, tick, r)
  {
    assert RowKind(e.ports[i]);
    FindsItself(e.ports, i);
    var p := e.ports[i];
    ReceiveOutcome(p, s, tick);
    ReceiveKind(p, s, tick);
    InputIs(e, s, tick, i);
    ReplyEnqueued(e, i, s, Receive(p, s, tick), r);
  }

  lemma ReplyEnqueued(e: Engine, i: nat, s: Segment, eff: Effect, r: Engine)
    requires Distinct(e.ports) && i < |e.ports| && e.ports[i].id.self != 0 && AfterArrival(e, i, s, eff) == Done(r)
    requires |eff.acks| <= Room(e) && |eff.reliable| <= 1
    requires eff.reliable != [] ==>
               eff.port.id == e.ports[i].id && eff.port.state != Closed && eff.reliable[0].to == e.ports[i].id &&
               eff.reliable[0].data == Null
    ensures OnlyRow(e, r, i) && r.ports[i] == eff.port.(sem := r.ports[i].sem) && r.sent == e.sent
    ensures r.queue == e.queue + (eff.acks + if |eff.acks| < Room(e) then eff.reliable else [])
    ensures CallsGrew(e, r, Source(s), eff.calls)
  {
    var mid := Heeded(e, i, s, eff);
    assert mid.queue == e.queue + eff.acks;
    if eff.reliable != [] {
      assert forall j :: 0 <= j < i ==> mid.ports[j].id != eff.port.id;
      assert FindPort(mid.ports, eff.reliable[0].to) == i by { assert mid.ports[i].id == eff.port.id; }
      assert eff.reliable == [eff.reliable[0]];
    }
  }

  /** The same in every run of a table, for a triple that comes to life at most once. */
  lemma ArrivalInTableRun(es: seq<Engine>, ats: seq<At>, clock: seq<nat>, n: nat, i: nat, s: Segment)
    requires IsTimedRun(es, ats, clock) && n < |ats| && ats[n].ev == Hears(s) && Remote(Source(s))
    requires OpensOnce(es, ats, Source(s)) && i == FindPort(es[n].ports, Source(s)) < |es[n].ports|
    ensures TableArrival(es[n], i, s, ats[n].tick, es[n + 1])
  {
    RunTame(es, ats, n);
    assert OrderlyAt(es, ats, n);
    var cs, ts := TableRunIsConnRun(es, ats, clock, n, Source(s));
    TcpTheorems.ConnRunSound(cs, ts, |ts|);
    LivePastOpen(cs[|ts|]);
    ArrivalOutcomeInTable(es[n], i, s, ats[n].tick, es[n + 1]);
  }

  // ----- commands and sends -----

  /** A reliable segment enqueued for row `i` takes a slot, if the queue has room. */
  function Taken(sem: nat, room: nat): nat { if sem > 0 && room > 0 then sem - 1 else sem }

  function IfRoom(e: Engine, tx: Tx): seq<Tx> { if Room(e) > 0 then [tx] else [] }

  /** Connecting puts one fresh row into the first free place and queues its SYN. */
  lemma ConnectOutcome(e: Engine, id: Triple, tick: Tick, i: nat)
    requires Unclaimed(e.ports, id) && id.self != 0 && FirstUnused(e.ports, i)
    ensures Handle(e, Connects(id), tick).Done?
    ensures var r := Handle(e, Connects(id), tick).e;
            OnlyRow(e, r, i) && r.sent == e.sent && r.calls == e.calls &&
            r.queue == e.queue + IfRoom(e, Tx(id, 0, SYN, Null)) &&
            r.ports[i].id == id && r.ports[i].state == SynSent && r.ports[i].seqNum == 0 && r.ports[i].ackNum == 0 &&
            AllFree(r.ports[i].(sem := MAX_UNACKED)) && r.ports[i].sem == Taken(MAX_UNACKED, Room(e))
  {
    UnusedIs(e.ports, i);
    var ports := e.ports[i := FreshPort(id, SynSent)];
    assert forall j :: 0 <= j < i ==> ports[j].id != id;
    assert FindPort(ports, id) == i by { assert ports[i].id == id; }
  }

  /** Closing puts the port into FIN_WAIT_1 from whatever state and queues a FIN; an unknown triple is left alone. */
  lemma CloseOutcome(e: Engine, id: Triple, tick: Tick, r: Engine)
    requires Distinct(e.ports) && id.self != 0 && Handle(e, Closes(id), tick) == Done(r)
    ensures Unclaimed(e.ports, id) ==> r == e
    ensures forall i: nat :: i < |e.ports| && e.ports[i].id == id ==>
              OnlyRow(e, r, i) && r.sent == e.sent && r.calls == e.calls &&
              r.queue == e.queue + IfRoom(e, Tx(id, e.ports[i].seqNum, FIN, Null)) &&
              r.ports[i] == e.ports[i].(state := FinWait1, sem := Taken(e.ports[i].sem, Room(e)))
  {
    forall i: nat | i < |e.ports| && e.ports[i].id == id
      ensures OnlyRow(e, r, i) && r.sent == e.sent && r.calls == e.calls &&
              r.queue == e.queue + IfRoom(e, Tx(id, e.ports[i].seqNum, FIN, Null)) &&
              r.ports[i] == e.ports[i].(state := FinWait1, sem := Taken(e.ports[i].sem, Room(e)))
    {
      FindsItself(e.ports, i);
      var ports := e.ports[i := e.ports[i].(state := FinWait1)];
      assert forall j :: 0 <= j < i ==> ports[j].id != id;
      assert FindPort(ports, id) == i by { assert ports[i].id == id; }
    }
  }

  /** An application send with a slot and room queues the payload on its port, and otherwise frees it at once. */
  lemma SendOutcome(e: Engine, id: Triple, data: Payload, tick: Tick)
    requires Distinct(e.ports) && id.self != 0
    ensures Handle(e, Sends(id, data), tick).Done?
    ensures var r := Handle(e, Sends(id, data), tick).e;
            r.sent == e.sent && r.calls == e.calls
    ensures forall i: nat :: i < |e.ports| && e.ports[i].id == id && e.ports[i].sem > 0 && Room(e) > 0 ==>
              var r := Handle(e, Sends(id, data), tick).e;
              OnlyRow(e, r, i) && r.ports[i] == e.ports[i].(sem := e.ports[i].sem - 1) &&
              r.queue == e.queue + [Tx(id, 0, ACK_PSH, data)] && r.mem == e.mem + GiveOf(data)
    ensures (Unclaimed(e.ports, id) || Room(e) == 0 ||
             exists i :: 0 <= i < |e.ports| && e.ports[i].id == id && e.ports[i].sem == 0) ==>
              var r := Handle(e, Sends(id, data), tick).e;
              r.ports == e.ports && r.queue == e.queue && r.mem == e.mem + GiveOf(data) + FreeOf(data)
  {
    forall i: nat | i < |e.ports| && e.ports[i].id == id ensures FindPort(e.ports, id) == i &&
    e.ports[i].state != Closed {
      assert RowKind(e.ports[i]);
      FindsItself(e.ports, i);
    }
    var k := FindPort(e.ports, id);
    if k < |e.ports| { assert e.ports[k := e.ports[k]] == e.ports; }
    assert e.queue + [] == e.queue;
  }

  /** Serving the queue on a live port with memory: a segment that consumes numbers is recorded in the first free slot
      under the port's next number, and leaves with its contents, that number and the port's acknowledgement number; a
      bare one leaves as it was queued. */
  lemma ServeOutcome(e: Engine, i: nat, k: nat, env: Env, tick: Tick)
    requires Distinct(e.ports) && e.queue != [] && i < |e.ports| && e.ports[i].id == e.queue[0].to &&
             e.ports[i].id.self != 0
    requires env.allocOk && k < MAX_UNACKED && !e.ports[i].unacked[k].inUse
    requires forall j :: 0 <= j < k ==> e.ports[i].unacked[j].inUse
    ensures Handle(e, Serves(env), tick).Done?
    ensures var tx, p, r := e.queue[0], e.ports[i], Handle(e, Serves(env), tick).e;
            var bytes := Bytes(tx.data);
            var n := |bytes| + if tx.control.syn || tx.control.fin then 1 else 0;
            var number := if n > 0 then p.seqNum else tx.seqNum;
            OnlyRow(e, r, i) && r.queue == e.queue[1..] &&
            r.calls == e.calls &&
            r.sent == e.sent +
              (if env.ipv4Ok
               then [Segment(e.self, tx.to.addr, tx.to.self, tx.to.other, number, p.ackNum, tx.control, bytes)]
                 else []) &&
            r.ports[i] ==
              if n > 0
              then p.(seqNum := (p.seqNum + n) % WORD,
                      unacked := p.unacked[k := Slot(true, p.seqNum, tx.control, tx.data, tick)])
              else p
  {
    var tx, p := e.queue[0], e.ports[i];
    assert RowKind(p);
    FindsItself(e.ports, i);
    assert FirstFree(p.unacked) == k;
    WrapIsMod(p.seqNum + Consumes(tx.control, Bytes(tx.data)));
    assert e.sent + [] == e.sent && e.ports[i := p] == e.ports;
  }

  /** Without memory, or for a triple no row has, the head of the queue is freed and nothing else happens. */
  lemma ServeFails(e: Engine, env: Env, tick: Tick)
    requires e.queue != [] && (!env.allocOk || Unclaimed(e.ports, e.queue[0].to))
    ensures Handle(e, Serves(env), tick) == Done(e.(queue := e.queue[1..], mem := e.mem + FreeOf(e.queue[0].data)))
  {
  }

  /** A SYN with RST set resets the listener it reaches. */
  lemma ResetOutcome(e: Engine, i: nat, s: Segment, tick: Tick)
    requires i == Target(e.ports, s) < |e.ports| && e.ports[i].state != Closed && s.control.rst
    ensures Handle(e, Hears(s), tick).Done?
    ensures var r := Handle(e, Hears(s), tick).e;
            OnlyRow(e, r, i) && Emptied(r.ports[i]) && r.queue == e.queue &&
            r.sent == e.sent && r.calls == e.calls
  {
    assert e.queue + [] == e.queue && e.calls + [] == e.calls;
  }
}
