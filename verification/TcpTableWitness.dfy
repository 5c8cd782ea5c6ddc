/** Short runs of one port table that lose a payload or leave the task waiting for itself. */
module TcpTableWitness {
  import opened TcpPort
  import opened TcpEngine
  import opened TcpOwnership
  import opened TcpLeaks
  import opened TcpDeadlock
  import opened TcpDemux
  import opened TcpListeners
  import opened TcpArrivals
  import opened TcpEffects

  const T: Triple := Triple(10, 20, 2)
  const OK: Env := Env(true, true)
  const NO_MEMORY: Env := Env(false, true)
  const REFUSED: Env := Env(true, false)

  /** Some run of the table ends in `e`. */
  ghost predicate TableReachable(e: Engine) {
    exists es: seq<Engine>, ats: seq<At> :: IsTableRun(es, ats) && es[|ats|] == e
  }

  lemma ExtendTable(es: seq<Engine>, ats: seq<At>, at: At, f: Engine)
    requires IsTableRun(es, ats) && Admissible(es[|ats|], at.ev) && Handle(es[|ats|], at.ev, at.tick) == Done(f)
    ensures IsTableRun(es + [f], ats + [at])
  {
    forall i | 0 <= i < |ats + [at]| ensures HandlesAt(es + [f], ats + [at], i) {
      if i < |ats| { assert HandlesAt(es, ats, i); }
    }
  }

  lemma HandleReaches(e: Engine, ev: Event, tick: Tick, f: Engine)
    requires TableReachable(e) && Admissible(e, ev) && Handle(e, ev, tick) == Done(f)
    ensures TableReachable(f)
  {
    var es: seq<Engine>, ats: seq<At> :| IsTableRun(es, ats) && es[|ats|] == e;
    ExtendTable(es, ats, At(ev, tick), f);
    assert (es + [f])[|ats + [At(ev, tick)]|] == f;
  }

  /** An event that drops a payload leaves a payload that is neither held nor freed. */
  lemma DropLeaks(e: Engine, ev: Event, tick: Tick, f: Engine)
    requires TableReachable(e) && Admissible(e, ev) && Handle(e, ev, tick) == Done(f) && Drops(e, At(ev, tick))
    ensures TableReachable(f) && !Accounted(f)
  {
    var es: seq<Engine>, ats: seq<At> :| IsTableRun(es, ats) && es[|ats|] == e;
    var n, at := |ats|, At(ev, tick);
    ExtendTable(es, ats, at, f);
    HandleReaches(e, ev, tick, f);
    NoLeakIff(es + [f], ats + [at], n + 1);
    assert DropsAt(es + [f], ats + [at], n);
  }

  // ----- an open port -----

  const SYN_TX: Tx := Tx(T, 0, SYN, Null)
  const UNUSED: Port := FreshPort(Triple(0, 0, 0), Closed)

  /** The table whose only port in use is `p`. */
  function Single(p: Port, queue: seq<Tx>, sent: seq<Segment>, mem: seq<MemEvent>): Engine {
    Engine(1, [p, UNUSED, UNUSED, UNUSED, UNUSED, UNUSED, UNUSED, UNUSED], queue, sent, [], mem)
  }

  function Opening(sem: nat): Port { FreshPort(T, SynSent).(sem := sem) }

  lemma StartReached()
    ensures TableReachable(NewEngine(1))
  {
    var es, ats: seq<At> := [NewEngine(1)], [];
    assert IsTableRun(es, ats) && es[|ats|] == NewEngine(1);
  }

  lemma ConnectIs()
    ensures ConnectPort(NewEngine(1), T) == Done(Single(Opening(7), [SYN_TX], [], []))
  {
    var e := NewEngine(1);
    assert FindUnused(e.ports) == 0;
    var mid := e.(ports := e.ports[0 := FreshPort(T, SynSent)]);
    assert FindPort(mid.ports, T) == 0;
    assert mid.ports[0 := Opening(7)] == Single(Opening(7), [], [], []).ports;
  }

  lemma Connected()
    ensures TableReachable(Single(Opening(7), [SYN_TX], [], []))
  {
    StartReached();
    ConnectIs();
    HandleReaches(NewEngine(1), Connects(T), 0, Single(Opening(7), [SYN_TX], [], []));
  }

  /** One application send on the opening port. */
  lemma SendReaches(sem: nat, queue: seq<Tx>, mem: seq<MemEvent>, data: Payload)
    requires data.Heap? && sem > 0 && |queue| < SEND_QUEUE_LENGTH &&
             TableReachable(Single(Opening(sem), queue, [], mem))
    ensures TableReachable(Single(Opening(sem - 1), queue + [DataTx(T, data)], [], mem + [Give(data.id)]))
  {
    var e := Single(Opening(sem), queue, [], mem);
    var f := Single(Opening(sem - 1), queue + [DataTx(T, data)], [], mem + [Give(data.id)]);
    assert FindPort(e.ports, T) == 0;
    assert e.ports[0 := Opening(sem - 1)] == f.ports;
    assert mem + [Give(data.id)] + [] == f.mem;
    HandleReaches(e, Sends(T, data), 0, f);
  }

  /** The head of the queue recorded in slot `k` and sent. */
  lemma ServeIs(p: Port, k: nat, tx: Tx, queue: seq<Tx>, sent: seq<Segment>, mem: seq<MemEvent>)
    requires p.id == T == tx.to && k < |p.unacked| && k == FirstFree(p.unacked)
    requires Consumes(tx.control, Bytes(tx.data)) > 0
    ensures ServeQueue(Single(p, [tx] + queue, sent, mem), 0, OK) ==
            Single(Stow(p, k, tx, 0), queue, sent + [Wire(1, p, tx, p.seqNum)], mem + ReadOf(tx.data))
  {
    var e := Single(p, [tx] + queue, sent, mem);
    assert FindPort(e.ports, T) == 0;
    assert e.queue[1..] == queue;
    assert e.ports[0 := Stow(p, k, tx, 0)] == Single(Stow(p, k, tx, 0), [], [], []).ports;
  }

  lemma ServeReaches(p: Port, k: nat, tx: Tx, queue: seq<Tx>, sent: seq<Segment>, mem: seq<MemEvent>)
    requires p.id == T == tx.to && k < |p.unacked| && k == FirstFree(p.unacked)
    requires Consumes(tx.control, Bytes(tx.data)) > 0 && TableReachable(Single(p, [tx] + queue, sent, mem))
    ensures TableReachable(Single(Stow(p, k, tx, 0), queue, sent + [Wire(1, p, tx, p.seqNum)], mem + ReadOf(tx.data)))
  {
    ServeIs(p, k, tx, queue, sent, mem);
    HandleReaches(Single(p, [tx] + queue, sent, mem), Serves(OK), 0,
                  Single(Stow(p, k, tx, 0), queue, sent + [Wire(1, p, tx, p.seqNum)], mem + ReadOf(tx.data)));
  }

  // ----- a zero-length payload -----

  const EMPTY: Payload := Heap(5, [])

  /** Connect, send nothing, and let memory fail for the SYN only: the payload of length zero is then lost. */
  lemma EmptyPayloadLost()
    ensures exists e: Engine ::
              TableReachable(e) && Admissible(e, Serves(OK)) && Drops(e, At(Serves(OK), 0)) &&
              TableReachable(ServeQueue(e, 0, OK)) && !Accounted(ServeQueue(e, 0, OK))
  {
    Connected();
    SendReaches(7, [SYN_TX], [], EMPTY);
    var e := Single(Opening(6), [SYN_TX, DataTx(T, EMPTY)], [], [Give(5)]);
    assert [SYN_TX] + [DataTx(T, EMPTY)] == e.queue && [] + [Give(5)] == e.mem;
    var f := Single(Opening(6), [DataTx(T, EMPTY)], [], [Give(5)]);
    assert e.queue[1..] == f.queue && e.mem + [] == f.mem;
    HandleReaches(e, Serves(NO_MEMORY), 0, f);
    assert FindPort(f.ports, T) == 0;
    DropLeaks(f, Serves(OK), 0, ServeQueue(f, 0, OK));
  }

  // ----- a refused retransmission -----

  const ONE: Payload := Heap(5, [42])
  const SYN_OUT: Segment := Segment(1, 2, 10, 20, 0, 0, SYN, [])
  const ONE_OUT: Segment := Segment(1, 2, 10, 20, 1, 0, ACK_PSH, [42])
  const SYN_SLOTS: seq<Slot> := EMPTY_SLOTS[0 := Slot(true, 0, SYN, Null, 0)]
  const BOTH_SLOTS: seq<Slot> := SYN_SLOTS[1 := Slot(true, 1, ACK_PSH, ONE, 0)]

  function AllRefused(): seq<seq<Env>> {
    seq(MAX_PORTS, _ => seq(MAX_UNACKED, _ => REFUSED))
  }

  function Launched(slots: seq<Slot>, seqNum: nat): Port { Opening(6).(unacked := slots, seqNum := seqNum) }

  lemma SynServed()
    ensures TableReachable(Single(Launched(SYN_SLOTS, 1), [DataTx(T, ONE)], [SYN_OUT], [Give(5)]))
  {
    Connected();
    SendReaches(7, [SYN_TX], [], ONE);
    assert FirstFree(EMPTY_SLOTS) == 0;
    assert [] + [Give(5)] == [Give(5)] && [Give(5)] + [] == [Give(5)] && [] + [SYN_OUT] == [SYN_OUT];
    assert Wire(1, Opening(6), SYN_TX, 0) == SYN_OUT && Stow(Opening(6), 0, SYN_TX, 0) == Launched(SYN_SLOTS, 1);
    ServeReaches(Opening(6), 0, SYN_TX, [DataTx(T, ONE)], [], [Give(5)]);
  }

  lemma DataStowed(p: Port, tx: Tx)
    requires p == Launched(SYN_SLOTS, 1) && tx == DataTx(T, ONE)
    ensures FirstFree(p.unacked) == 1
    ensures Single(Stow(p, 1, tx, 0), [], [SYN_OUT] + [Wire(1, p, tx, p.seqNum)], [Give(5)] + ReadOf(tx.data)) ==
            Single(Launched(BOTH_SLOTS, 2), [], [SYN_OUT, ONE_OUT], [Give(5), Read(5)])
  {
    assert Wire(1, p, tx, 1) == ONE_OUT && Stow(p, 1, tx, 0) == Launched(BOTH_SLOTS, 2);
  }

  lemma DataServed()
    ensures TableReachable(Single(Launched(BOTH_SLOTS, 2), [], [SYN_OUT, ONE_OUT], [Give(5), Read(5)]))
  {
    var p, tx := Launched(SYN_SLOTS, 1), DataTx(T, ONE);
    SynServed();
    DataStowed(p, tx);
    assert [tx] + [] == [tx];
    ServeReaches(p, 1, tx, [], [SYN_OUT], [Give(5)]);
  }

  /** Connect, send a byte, serve both, and scan a hundred ticks later with the IPv4 queue refusing: the byte is lost.
      */
  lemma RefusedRetransmissionLost()
    ensures exists e: Engine ::
              TableReachable(e) && Admissible(e, Scans(AllRefused())) && Drops(e, At(Scans(AllRefused()), 100)) &&
              TableReachable(ScanPorts(e, 100, AllRefused(), MAX_PORTS)) &&
              !Accounted(ScanPorts(e, 100, AllRefused(), MAX_PORTS))
  {
    DataServed();
    var p := Launched(BOTH_SLOTS, 2);
    var e := Single(p, [], [SYN_OUT, ONE_OUT], [Give(5), Read(5)]);
    assert Scannable(e, AllRefused());
    assert SlotDrops(p.unacked[1], 100, AllRefused()[0][1]);
    assert SlotsDrop(p.unacked, 100, AllRefused()[0], MAX_UNACKED);
    assert RowDrops(e.ports[0], 100, AllRefused()[0]);
    DropLeaks(e, Scans(AllRefused()), 100, ScanPorts(e, 100, AllRefused(), MAX_PORTS));
  }

  // ----- the task waiting for itself -----

  /** The queue and the log after the SYN and `n` one-byte sends. */
  function Queued(n: nat): (q: seq<Tx>)
    ensures |q| == n + 1
  {
    if n == 0 then [SYN_TX] else Queued(n - 1) + [DataTx(T, Heap(n, [1]))]
  }

  function Handed(n: nat): seq<MemEvent> { if n == 0 then [] else Handed(n - 1) + [Give(n)] }

  lemma {:induction false} SentSoFar(n: nat)
    requires n <= 7
    ensures TableReachable(Single(Opening(7 - n), Queued(n), [], Handed(n)))
  {
    if n == 0 {
      Connected();
    } else {
      SentSoFar(n - 1);
      SendReaches(7 - (n - 1), Queued(n - 1), Handed(n - 1), Heap(n, [1]));
    }
  }

  const SYN_ACK_IN: Segment := Segment(2, 1, 20, 10, 0, 0, SYN_ACK, [])

  /** Connect and send seven bytes before the task gets to its queue: a close command then waits for a slot, and the
      arrival of the SYN+ACK for room in the queue, which only the waiting task itself could provide. */
  lemma TaskWaits()
    ensures exists e: Engine ::
              TableReachable(e) &&
              Admissible(e, Closes(T)) && Handle(e, Closes(T), 0) == Blocked && Waits(e, Closes(T)) &&
              Handle(e, Hears(SYN_ACK_IN), 0) == Blocked && Waits(e, Hears(SYN_ACK_IN))
  {
    SentSoFar(7);
    var e := Single(Opening(0), Queued(7), [], Handed(7));
    CloseWaits(e);
    SynAckWaits(e);
  }

  lemma CloseWaits(e: Engine)
    requires |e.ports| > 0 && e.ports[0] == Opening(0)
    ensures Handle(e, Closes(T), 0) == Blocked && Waits(e, Closes(T))
  {
    assert FindPort(e.ports, T) == 0;
    CloseBlockedIff(e, T);
  }

  lemma SynAckWaits(e: Engine)
    requires |e.ports| > 0 && e.ports[0] == Opening(0) && |e.queue| == SEND_QUEUE_LENGTH
    ensures Handle(e, Hears(SYN_ACK_IN), 0) == Blocked && Waits(e, Hears(SYN_ACK_IN))
  {
    assert FindPort(e.ports, T) == 0;
    assert Receive(e.ports[0], SYN_ACK_IN, 0).acks == AckFor(e.ports[0], SYN_ACK_IN);
  }

  // ----- a listener connects -----

  const U: Triple := Triple(80, 20, 2)
  const SYN_IN: Segment := Segment(2, 1, 20, 80, 0, 0, SYN, [])
  const ACK_IN: Segment := Segment(2, 1, 20, 80, 1, 1, ACK, [])

  /** A reachable table with everything its next event needs. */
  ghost predicate Ready(e: Engine) { TableReachable(e) && Distinct(e.ports) && Tame(e) && e.self == 1 }

  lemma HandleReady(e: Engine, ev: Event, tick: Tick, r: Engine)
    requires Ready(e) && Admissible(e, ev) && Fresh(e, ev) && Orderly(e, ev) && Handle(e, ev, tick) == Done(r)
    ensures Ready(r)
  {
    HandleReaches(e, ev, tick, r);
    HandleDistinct(e, ev, tick);
    HandleTame(e, ev, tick);
    HandleGrows(e, ev, tick);
  }

  lemma StartReady()
    ensures Ready(NewEngine(1)) && FirstUnused(NewEngine(1).ports, 0)
    ensures forall j :: 0 <= j < MAX_PORTS ==> NewEngine(1).ports[j].id == Triple(0, 0, 0)
  {
    StartReached();
    StartTame(1);
  }

  lemma Listening80() returns (e: Engine)
    ensures Ready(e) && e.queue == [] && e.sent == [] && e.calls == []
    ensures e.ports[0].id == Triple(80, 0, 0) && e.ports[0].state == Listen
    ensures forall j :: 0 < j < MAX_PORTS ==> e.ports[j].id == Triple(0, 0, 0)
  {
    StartReady();
    e := Handle(NewEngine(1), Listens(80), 0).e;
    ListenOutcome(NewEngine(1), 80, 0, e);
    assert Unclaimed(NewEngine(1).ports, Triple(80, 0, 0));
    HandleReady(NewEngine(1), Listens(80), 0, e);
  }

  lemma SynHeard() returns (e: Engine)
    ensures Ready(e) && e.queue == [Tx(U, 0, SYN_ACK, Null)] && e.sent == [] && e.calls == []
    ensures e.ports[0].id == U && e.ports[0].state == SynReceived && e.ports[0].ackNum == 1 && e.ports[0].seqNum == 0
    ensures AllFree(e.ports[0].(sem := MAX_UNACKED))
  {
    var b := Listening80();
    AcceptOutcome(b, 0, SYN_IN, 0);
    e := Handle(b, Hears(SYN_IN), 0).e;
    assert Orderly(b, Hears(SYN_IN)) && Fresh(b, Hears(SYN_IN));
    HandleReady(b, Hears(SYN_IN), 0, e);
  }

  lemma SynAnswered() returns (e: Engine)
    ensures Ready(e) && e.queue == [] && e.sent == [Segment(1, 2, 80, 20, 0, 1, SYN_ACK, [])] && e.calls == []
    ensures e.ports[0].id == U && e.ports[0].state == SynReceived && e.ports[0].ackNum == 1 && e.ports[0].seqNum == 1
  {
    var b := SynHeard();
    ServeOutcome(b, 0, 0, OK, 0);
    e := Handle(b, Serves(OK), 0).e;
    HandleReady(b, Serves(OK), 0, e);
  }

  /** Listen, hear a SYN, answer it and hear the acknowledgement: the port is ESTABLISHED and the application told. */
  lemma ListenerConnects() returns (e: Engine)
    ensures TableReachable(e) && |e.ports| == MAX_PORTS && e.ports[0].id == U && e.ports[0].state == Established
    ensures e.calls == [Call(U, OnConnect)] && e.sent == [Segment(1, 2, 80, 20, 0, 1, SYN_ACK, [])]
  {
    var b := SynAnswered();
    FindsItself(b.ports, 0);
    assert Target(b.ports, ACK_IN) == 0 && !Waits(b, Hears(ACK_IN));
    HearsBlockedIff(b, ACK_IN, 0);
    e := Handle(b, Hears(ACK_IN), 0).e;
    ArrivalOutcomeInTable(b, 0, ACK_IN, 0, e);
    assert Completes(b.ports[0], ACK_IN);
    HandleReaches(b, Hears(ACK_IN), 0, e);
    assert e.calls[0] == Call(U, OnConnect);
  }
}
