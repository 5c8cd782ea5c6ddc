/** The TCP task as the code runs it: a table of port rows changed in place, a send queue and the loops that scan
    them.  Every operation is proved to have exactly the effect of its function in `TcpEngine`. */
module TcpTask {
  import opened TcpPort
  import opened TcpEngine
  import opened TcpDemux

  class Task {
    const self: Addr
    const ports: array<Port>
    var sendQueue: seq<Tx>
    ghost var sent: seq<Segment>
    ghost var calls: seq<Call>
    ghost var mem: seq<MemEvent>

    ghost predicate Valid()
      reads this, ports
    {
      ports.Length == MAX_PORTS &&
      forall i :: 0 <= i < MAX_PORTS ==> |ports[i].unacked| == MAX_UNACKED && ports[i].sem <= MAX_UNACKED
    }

    ghost function Model(): Engine
      reads this, ports
    {
      Engine(self, ports[..], sendQueue, sent, calls, mem)
    }

    constructor (self: Addr)
      ensures Valid() && fresh(ports) && Model() == NewEngine(self)
    {
      this.self := self;
      this.ports := new Port[MAX_PORTS](_ => FreshPort(Triple(0, 0, 0), Closed));
      this.sendQueue, this.sent, this.calls, this.mem := [], [], [], [];
      new;
      assert ports[..] == NewEngine(self).ports;
    }

    // ----- lookups -----

    method FindIndex(id: Triple) returns (i: nat)
      requires Valid()
      ensures i == FindPort(ports[..], id)
    {
      i := 0;
      while i < MAX_PORTS && ports[i].id != id
        invariant 0 <= i <= MAX_PORTS
        invariant forall k :: 0 <= k < i ==> ports[k].id != id
      {
        i := i + 1;
      }
      FirstIs(ports[..], id, i);
    }

    method FindListeningIndex(port: nat) returns (i: nat)
      requires Valid()
      ensures i == FindListening(ports[..], port)
    {
      i := 0;
      while i < MAX_PORTS && !Listening(ports[i], port)
        invariant 0 <= i <= MAX_PORTS
        invariant forall k :: 0 <= k < i ==> !Listening(ports[k], port)
      {
        i := i + 1;
      }
      FirstListeningIs(ports[..], port, i);
    }

    method FindUnusedIndex() returns (i: nat)
      requires Valid()
      ensures i == FindUnused(ports[..])
    {
      i := 0;
      while i < MAX_PORTS && ports[i].id.self != 0
        invariant 0 <= i <= MAX_PORTS
        invariant forall k :: 0 <= k < i ==> ports[k].id.self != 0
      {
        i := i + 1;
      }
      FirstUnusedIs(ports[..], i);
    }

    method FindEmptySlot(i: nat) returns (k: nat)
      requires Valid() && i < MAX_PORTS
      ensures k == FirstFree(ports[i].unacked)
    {
      k := 0;
      while k < MAX_UNACKED && ports[i].unacked[k].inUse
        invariant 0 <= k <= MAX_UNACKED
        invariant forall j :: 0 <= j < k ==> ports[i].unacked[j].inUse
      {
        k := k + 1;
      }
    }

    // ----- rows changed in place -----

    method ReleaseAcked(i: nat, ack: nat)
      requires Valid() && i < MAX_PORTS
      modifies ports, `mem
      ensures Valid()
      ensures Model() == old(Model()).(ports := old(ports[..])[i := Release(old(ports[i]), ack)],
                                       mem := old(mem) + ReleaseMem(old(ports[i]).unacked, ack))
    {
      var q, freed := ReleaseRow(ports[i], ack);
      ports[i] := q;
      mem := mem + freed;
    }

    method ResetPort(i: nat)
      requires Valid() && i < MAX_PORTS
      modifies ports, `mem
      ensures Valid()
      ensures Model() == old(Model()).(ports := old(ports[..])[i := Reset(old(ports[i]))],
                                       mem := old(mem) + ResetMem(old(ports[i]).unacked))
    {
      var q, freed := ResetRow(ports[i]);
      ports[i] := q;
      mem := mem + freed;
    }
  
    // ----- sending -----

    /** `tcp_send_internal`. */
    method SendInternal(tx: Tx, isRetransmission: bool, tick: Tick, env: Env) returns (ok: bool)
      requires Valid()
      modifies ports, `sent, `mem
      ensures Valid()
      ensures !isRetransmission ==> Model() == SendFirst(old(Model()), tx, tick, env)
      ensures isRetransmission ==> Model() == Resend(old(Model()), tx, env)
      ensures isRetransmission ==> ok == (env.allocOk && env.ipv4Ok && FindPort(old(ports[..]), tx.to) < MAX_PORTS)
    {
      var i := FindIndex(tx.to);
      if !env.allocOk || i == MAX_PORTS {
        mem := mem + FreeOf(tx.data);
        return false;
      }
      var n := Consumes(tx.control, Bytes(tx.data));
      var seqNum := tx.seqNum;
      ghost var p := ports[i];
      if n > 0 && !isRetransmission {
        var k := FindEmptySlot(i);
        if k == MAX_UNACKED {
          mem := mem + (ReadOf(tx.data) + FreeOf(tx.data));
          return false;
        }
        seqNum := ports[i].seqNum;
        ports[i] := Stow(ports[i], k, tx, tick);
      }
      mem := mem + if n == 0 && !isRetransmission then DropOf(tx.data) else ReadOf(tx.data);
      if env.ipv4Ok { sent := sent + [Wire(self, p, tx, seqNum)]; }
      ok := env.ipv4Ok;
      assert n == 0 || isRetransmission ==> ports[..] == old(ports[..]);
      assert n == 0 ==> ports[..] == old(ports[..])[i := p];
    }

    /** `tcp_enqueue_reliable` with the semaphore of the port found available. */
    method EnqueueReliable(tx: Tx)
      requires Valid() && Enqueue(Model(), tx).Done?
      modifies ports, `sendQueue, `mem
      ensures Valid() && Model() == Enqueue(old(Model()), tx).e
    {
      var i := FindIndex(tx.to);
      if i == MAX_PORTS {
        mem := mem + FreeOf(tx.data);
        return;
      }
      ghost var p := ports[i];
      ports[i] := ports[i].(sem := ports[i].sem - 1);
      if ports[i].state == Closed {
        mem := mem + FreeOf(tx.data);
      } else if |sendQueue| < SEND_QUEUE_LENGTH {
        sendQueue := sendQueue + [tx];
      } else {
        ports[i] := ports[i].(sem := Give1(ports[i].sem));
        mem := mem + FreeOf(tx.data);
        assert ports[i] == p;
      }
      assert ports[..] == old(ports[..])[i := EnqueueOn(p, tx, Room(old(Model()))).port];
    }

    /** `tcp_send`; an exhausted semaphore times out. */
    method Send(id: Triple, data: Payload)
      requires Valid()
      modifies ports, `sendQueue, `mem
      ensures Valid() && Model() == AppSend(old(Model()), id, data)
    {
      mem := mem + GiveOf(data);
      var i := FindIndex(id);
      if i < MAX_PORTS && ports[i].sem == 0 {
        mem := mem + FreeOf(data);
      } else {
        EnqueueReliable(DataTx(id, data));
      }
    }

    /** One item of the send queue. */
    method ServeSendQueue(tick: Tick, env: Env)
      requires Valid() && sendQueue != []
      modifies ports, this
      ensures Valid() && Model() == ServeQueue(old(Model()), tick, env)
    {
      var tx := sendQueue[0];
      sendQueue := sendQueue[1..];
      var _ := SendInternal(tx, false, tick, env);
    }

    // ----- commands -----

    method ConnectInternal(id: Triple)
      requires Valid() && ConnectPort(Model(), id).Done?
      modifies ports, `sendQueue, `mem
      ensures Valid() && Model() == ConnectPort(old(Model()), id).e
    {
      var i := FindUnusedIndex();
      if i == MAX_PORTS { return; }
      ports[i] := FreshPort(id, SynSent);
      EnqueueReliable(ReplyTx(ports[i], id.addr, SYN));
    }

    method ListenInternal(port: nat)
      requires Valid()
      modifies ports
      ensures Valid() && Model() == ListenPort(old(Model()), port)
    {
      var i := FindUnusedIndex();
      if i == MAX_PORTS { return; }
      ports[i] := FreshPort(Triple(port, 0, 0), Listen);
    }

    method CloseInternal(id: Triple)
      requires Valid() && ClosePort(Model(), id).Done?
      modifies ports, `sendQueue, `mem
      ensures Valid() && Model() == ClosePort(old(Model()), id).e
    {
      var i := FindIndex(id);
      if i == MAX_PORTS { return; }
      ports[i] := ports[i].(state := FinWait1);
      EnqueueReliable(ReplyTx(ports[i], id.addr, FIN));
    }
  
    // ----- arrivals -----

    /** The state switch of `input_tcp_internal`: `tcp.c` 376-518, up to its reliable reply. */
    method SwitchState(i: nat, s: Segment, tick: Tick) returns (reliable: seq<Tx>)
      requires Valid() && i < MAX_PORTS && ports[i].state != Closed
      modifies ports, `calls, `mem
      ensures Valid()
      ensures var eff := Switch(old(ports[i]), s, tick, [], []);
              Model() == Heeded(old(Model()), i, s, eff) && reliable == eff.reliable
    {
      reliable := [];
      ghost var made := [];
      ghost var p := ports[i];
      match ports[i].state {
        case Listen =>
          if s.control.syn {
            ports[i] := ports[i].(state := SynReceived, id := Triple(ports[i].id.self, s.srcPort, s.srcAddr),
                                  ackNum := Wrap(s.seqNum + 1));
            reliable := [ReplyTx(ports[i], s.srcAddr, SYN_ACK)];
          }
        case SynSent =>
          if s.control.syn && s.control.ack {
            ports[i] := ports[i].(state := Established);
            made := [OnConnect];
          }
        case SynReceived =>
          if s.control.ack && s.ackNum == ports[i].seqNum {
            ports[i] := ports[i].(state := Established);
            made := [OnConnect];
          }
        case Established =>
          if s.control.fin {
            reliable := [ReplyTx(ports[i], s.srcAddr, FIN_ACK)];
            ports[i] := ports[i].(state := LastAck);
          }
          if s.bytes != [] { made := [OnReceive(s.bytes)]; }
        case LastAck =>
          if s.control.ack && s.ackNum == ports[i].seqNum {
            ResetPort(i);
            made := [OnDisconnect];
          }
        case FinWait1 =>
          if s.control.fin {
            ports[i] := ports[i].(state := TimeWait, enteredAt := tick);
            made := [OnDisconnect];
          } else if s.control.ack {
            ports[i] := ports[i].(state := FinWait2);
          }
        case FinWait2 =>
          if s.control.fin {
            ports[i] := ports[i].(state := TimeWait, enteredAt := tick);
            made := [OnDisconnect];
          }
        case _ =>
      }
      calls := calls + Calls(Triple(s.dstPort, s.srcPort, s.srcAddr), made);
      ghost var eff := Switch(p, s, tick, [], []);
      assert ports[..] == old(ports[..])[i := eff.port];
      assert sendQueue + [] == sendQueue;
      assert mem == old(mem) + eff.mem;
    }

    /** `tcp.c` 325-372: sequence check, acknowledgement processing, acknowledging the data. */
    method AbsorbSegment(i: nat, s: Segment)
      requires Valid() && i < MAX_PORTS && !Ignored(ports[i], s) && |AckFor(ports[i], s)| <= Room(Model())
      modifies ports, `sendQueue, `mem
      ensures Valid()
      ensures Model() == old(Model()).(ports := old(ports[..])[i := Absorb(old(ports[i]), s)],
                                       queue := old(sendQueue) + AckFor(old(ports[i]), s),
                                       mem := old(mem) + AbsorbMem(old(ports[i]), s))
    {
      ghost var p := ports[i];
      if s.control.ack && s.ackNum <= ports[i].seqNum { ReleaseAcked(i, s.ackNum); }
      var n := Consumes(s.control, s.bytes);
      if n > 0 && ports[i].state != LastAck && ports[i].state != Listen {
        ports[i] := ports[i].(ackNum := Wrap(s.seqNum + n));
        sendQueue := sendQueue + [ReplyTx(ports[i], s.srcAddr, ACK)];
      }
      assert ports[..] == old(ports[..])[i := Absorb(p, s)];
    }

    /** A segment that is neither a reset nor ignored, for row `i`. */
    method TakeIn(i: nat, s: Segment, tick: Tick)
      requires Valid() && i < MAX_PORTS && ports[i].state != Closed && !s.control.rst && !Ignored(ports[i], s)
      requires var eff := Receive(ports[i], s, tick);
               |eff.acks| <= Room(Model()) && eff.acks == AckFor(ports[i], s) &&
               (eff.reliable != [] ==> Enqueue(Heeded(Model(), i, s, eff), eff.reliable[0]).Done?)
      modifies ports, this
      ensures Valid()
      ensures var eff := Receive(old(ports[i]), s, tick);
              var r := Heeded(old(Model()), i, s, eff);
              Model() == if eff.reliable == [] then r else Enqueue(r, eff.reliable[0]).e
    {
      ghost var e, p := Model(), ports[i];
      AbsorbSegment(i, s);
      ghost var f := Model();
      var reliable := SwitchState(i, s, tick);
      SwitchSplit(Absorb(p, s), s, tick, AckFor(p, s), AbsorbMem(p, s));
      HeededTwice(e, f, i, s, tick, p);
      if reliable != [] { EnqueueReliable(reliable[0]); }
    }

    /** `input_tcp_internal`, when the calls it makes without a timeout have room. */
    method InputInternal(s: Segment, tick: Tick)
      requires Valid() && Input(Model(), s, tick).Done?
      modifies ports, this
      ensures Valid() && Model() == Input(old(Model()), s, tick).e
    {
      var i := FindIndex(Triple(s.dstPort, s.srcPort, s.srcAddr));
      if i == MAX_PORTS && s.control.syn { i := FindListeningIndex(s.dstPort); }
      if i == MAX_PORTS || ports[i].state == Closed { return; }
      if s.control.rst {
        ResetPort(i);
        HeededPlain(old(Model()), i, s, Receive(old(ports[i]), s, tick));
        return;
      }
      if (ports[i].state != Listen && ports[i].state != SynSent && s.seqNum != ports[i].ackNum) ||
        (!s.control.ack && !s.control.syn) {
        HeededPlain(old(Model()), i, s, Receive(ports[i], s, tick));
        assert ports[..] == ports[..][i := ports[i]] && mem == mem + [];
        return;
      }
      SwitchSplit(Absorb(ports[i], s), s, tick, AckFor(ports[i], s), AbsorbMem(ports[i], s));
      TakeIn(i, s, tick);
    }

    // ----- the idle scan -----

    /** The retransmission loop over the slots of row `p`: `tcp.c` 747-773. */
    method RetransmitPort(p: nat, tick: Tick, envs: seq<Env>)
      requires Valid() && p < MAX_PORTS && |envs| == MAX_UNACKED && ports[p].id.self != 0
      modifies ports, `sent, `mem
      ensures Valid()
      ensures var e := old(Model());
              Model() == Patched(e, p, RetryAll(self, e.ports[p], e.ports[FindPort(e.ports, e.ports[p].id)].ackNum,
                                                tick, envs, MAX_UNACKED))
    {
      ghost var e := Model();
      ghost var ack := e.ports[FindPort(e.ports, e.ports[p].id)].ackNum;
      var k := 0;
      PatchNothing(e, p);
      while k < MAX_UNACKED
        invariant 0 <= k <= MAX_UNACKED && Valid()
        invariant Model() == Patched(e, p, RetryAll(self, e.ports[p], ack, tick, envs, k))
      {
        ghost var r := RetryAll(self, e.ports[p], ack, tick, envs, k);
        PatchedLookup(e, p, ack, tick, envs, k);
        RetransmitSlot(p, k, tick, envs[k], ack);
        PatchTwice(e, p, r, Retry(self, r.port, ack, k, tick, envs[k]));
        k := k + 1;
      }
    }

    method RetransmitSlot(p: nat, k: nat, tick: Tick, env: Env, ghost ack: nat)
      requires Valid() && p < MAX_PORTS && k < MAX_UNACKED
      requires FindPort(ports[..], ports[p].id) < MAX_PORTS && ports[FindPort(ports[..], ports[p].id)].ackNum == ack
      modifies ports, `sent, `mem
      ensures Valid()
      ensures var e := old(Model());
              Model() == Patched(e, p, Retry(self, e.ports[p], ack, k, tick, env))
    {
      ghost var e := Model();
      var u := ports[p].unacked[k];
      assert e.ports[p := e.ports[p]] == e.ports && e.sent + [] == e.sent && e.mem + [] == e.mem;
      if !u.inUse || Elapsed(tick, u.sentAt) < RETRANSMIT_TIMEOUT { return; }
      ports[p] := ports[p].(unacked := ports[p].unacked[k := u.(sentAt := tick)]);
      SameLookup(e.ports, p, ports[p]);
      ghost var mid := Model();
      var ok := SendInternal(Tx(ports[p].id, u.seqNum, u.control, u.data), true, tick, env);
      if !ok {
        if env.allocOk { mem := mem + DropOf(u.data); }
        ports[p] := ports[p].(unacked := ports[p].unacked[k := ports[p].unacked[k].(data := Null, inUse := false)],
                              sem := Give1(ports[p].sem));
        assert ports[p] == Abandon(e.ports[p], k, tick);
      }
      assert ports[..] == e.ports[p := Retry(self, e.ports[p], ack, k, tick, env).port];
    }

    /** One row of the scan: `tcp.c` 737-773. */
    method ScanRow(p: nat, tick: Tick, envs: seq<Env>)
      requires Valid() && p < MAX_PORTS && |envs| == MAX_UNACKED
      modifies ports, `sent, `mem
      ensures Valid() && Model() == ScanPort(old(Model()), p, tick, envs)
    {
      if ports[p].id.self != 0 {
        if ports[p].state == TimeWait && Elapsed(tick, ports[p].enteredAt) > TIME_WAIT_DURATION {
          ResetPort(p);
        } else {
          RetransmitPort(p, tick, envs);
        }
      }
    }

    /** The scan over all ports: `tcp.c` 735-776. */
    method ScanTimeouts(tick: Tick, envs: seq<seq<Env>>)
      requires Valid() && |envs| == MAX_PORTS && forall i :: 0 <= i < MAX_PORTS ==> |envs[i]| == MAX_UNACKED
      modifies ports, `sent, `mem
      ensures Valid() && Scannable(old(Model()), envs) && Model() == ScanPorts(old(Model()), tick, envs, MAX_PORTS)
    {
      ghost var e := Model();
      var p := 0;
      while p < MAX_PORTS
        invariant 0 <= p <= MAX_PORTS && Valid()
        invariant Scannable(e, envs) && Model() == ScanPorts(e, tick, envs, p)
      {
        ScanRow(p, tick, envs[p]);
        p := p + 1;
      }
    }
  }

  /** The acknowledgement loop over the slots of a row: `tcp.c` 336-350. */
  method ReleaseRow(p: Port, ack: nat) returns (q: Port, ghost freed: seq<MemEvent>)
    requires |p.unacked| == MAX_UNACKED
    ensures q == Release(p, ack) && freed == ReleaseMem(p.unacked, ack)
  {
    var slots, sem := p.unacked, p.sem;
    freed := [];
    var k := 0;
    assert p.unacked[..0] == [];
    while k < MAX_UNACKED
      invariant 0 <= k <= MAX_UNACKED && |slots| == MAX_UNACKED
      invariant forall j :: 0 <= j < MAX_UNACKED ==>
                slots[j] == if j < k then ReleaseSlot(p.unacked[j], ack) else p.unacked[j]
      invariant sem == if p.sem <= MAX_UNACKED then Min(MAX_UNACKED, p.sem + ReleaseCount(p.unacked[..k], ack))
                else p.sem
      invariant freed == ReleaseMem(p.unacked[..k], ack)
    {
      assert p.unacked[..k + 1][..k] == p.unacked[..k];
      if slots[k].inUse && slots[k].seqNum <= ack {
        sem := Give1(sem);
        freed := freed + FreeOf(slots[k].data);
        slots := slots[k := slots[k].(inUse := false, data := Null)];
      }
      k := k + 1;
    }
    assert p.unacked[..MAX_UNACKED] == p.unacked;
    assert slots == ReleaseSlots(p.unacked, ack);
    q := p.(unacked := slots, sem := sem);
  }

  /** `tcp_reset_port`: free what the in-use slots hold and give the semaphore until it is full. */
  method ResetRow(p: Port) returns (q: Port, ghost freed: seq<MemEvent>)
    requires |p.unacked| == MAX_UNACKED && p.sem <= MAX_UNACKED
    ensures q == Reset(p) && freed == ResetMem(p.unacked)
  {
    var slots := p.unacked;
    freed := [];
    var k := 0;
    assert p.unacked[..0] == [];
    while k < MAX_UNACKED
      invariant 0 <= k <= MAX_UNACKED && |slots| == MAX_UNACKED
      invariant forall j :: 0 <= j < MAX_UNACKED ==>
                  slots[j] == if j < k && p.unacked[j].inUse then p.unacked[j].(data := Null) else p.unacked[j]
      invariant freed == ResetMem(p.unacked[..k])
    {
      assert p.unacked[..k + 1][..k] == p.unacked[..k];
      if slots[k].inUse && slots[k].data != Null {
        freed := freed + FreeOf(slots[k].data);
        slots := slots[k := slots[k].(data := Null)];
      }
      k := k + 1;
    }
    assert p.unacked[..MAX_UNACKED] == p.unacked;
    assert slots == ClearSlots(p.unacked);
    var sem, waiting := p.sem, MAX_UNACKED - p.sem;
    k := 0;
    while k < waiting
      invariant 0 <= k <= waiting && sem == p.sem + k
    {
      sem := Give1(sem);
      k := k + 1;
    }
    q := p.(state := Closed, id := p.id.(self := 0), unacked := slots, sem := sem);
  }

  lemma FirstIs(ports: seq<Port>, id: Triple, i: nat)
    requires i <= |ports| && (forall k :: 0 <= k < i ==> ports[k].id != id) && (i < |ports| ==> ports[i].id == id)
    ensures i == FindPort(ports, id)
  {
  }

  lemma FirstListeningIs(ports: seq<Port>, self: nat, i: nat)
    requires i <= |ports| && (forall k :: 0 <= k < i ==> !Listening(ports[k], self)) &&
             (i < |ports| ==> Listening(ports[i], self))
    ensures i == FindListening(ports, self)
  {
  }

  lemma FirstUnusedIs(ports: seq<Port>, i: nat)
    requires i <= |ports| && (forall k :: 0 <= k < i ==> ports[k].id.self != 0) &&
             (i < |ports| ==> ports[i].id.self == 0)
    ensures i == FindUnused(ports)
  {
  }

  lemma SwitchSplit(p: Port, s: Segment, tick: Tick, acks: seq<Tx>, mem: seq<MemEvent>)
    ensures var bare := Switch(p, s, tick, [], []);
            Switch(p, s, tick, acks, mem) == bare.(acks := acks, mem := mem + bare.mem)
  {
    assert mem + [] == mem && [] + ResetMem(p.unacked) == ResetMem(p.unacked);
  }

  /** Absorbing and then switching is the whole arrival. */
  lemma HeededTwice(e: Engine, f: Engine, i: nat, s: Segment, tick: Tick, p: Port)
    requires i < |e.ports| && e.ports[i] == p && !s.control.rst && !Ignored(p, s)
    requires f == e.(ports := e.ports[i := Absorb(p, s)], queue := e.queue + AckFor(p, s),
                     mem := e.mem + AbsorbMem(p, s))
    ensures Heeded(f, i, s, Switch(Absorb(p, s), s, tick, [], [])) == Heeded(e, i, s, Receive(p, s, tick))
  {
    var bare := Switch(Absorb(p, s), s, tick, [], []);
    SwitchSplit(Absorb(p, s), s, tick, AckFor(p, s), AbsorbMem(p, s));
    SwitchAcks(Absorb(p, s), s, tick);
    HeededJoin(e, f, i, s, Absorb(p, s), bare, Receive(p, s, tick));
  }

  lemma HeededJoin(e: Engine, f: Engine, i: nat, s: Segment, mid: Port, bare: Effect, eff: Effect)
    requires i < |e.ports| && bare.acks == []
    requires |bare.mem| <= |eff.mem| && eff.mem[|eff.mem| - |bare.mem|..] == bare.mem
    requires f == e.(ports := e.ports[i := mid], queue := e.queue + eff.acks,
                     mem := e.mem + eff.mem[..|eff.mem| - |bare.mem|])
    requires eff.port == bare.port && eff.calls == bare.calls
    ensures Heeded(f, i, s, bare) == Heeded(e, i, s, eff)
  {
    assert f.ports[i := bare.port] == e.ports[i := bare.port];
    assert f.queue + [] == f.queue;
    assert f.mem + bare.mem == e.mem + eff.mem;
  }

  lemma SwitchAcks(p: Port, s: Segment, tick: Tick)
    ensures Switch(p, s, tick, [], []).acks == []
  {
  }

  lemma HeededPlain(e: Engine, i: nat, s: Segment, eff: Effect)
    requires i < |e.ports| && eff.acks == [] && eff.calls == []
    ensures Heeded(e, i, s, eff) == e.(ports := e.ports[i := eff.port], mem := e.mem + eff.mem)
  {
    assert e.queue + [] == e.queue && e.calls + Calls(Triple(s.dstPort, s.srcPort, s.srcAddr), []) == e.calls;
  }

  /** A row that keeps its triple is still found where it was. */
  lemma SameLookup(ports: seq<Port>, p: nat, q: Port)
    requires p < |ports| && q.id == ports[p].id && q.ackNum == ports[p].ackNum
    ensures FindPort(ports[p := q], q.id) == FindPort(ports, q.id) <= p
    ensures ports[p := q][FindPort(ports, q.id)].ackNum == ports[FindPort(ports, q.id)].ackNum
  {
    var i, j := FindPort(ports, q.id), FindPort(ports[p := q], q.id);
    assert ports[p := q][i].id == q.id;
    assert ports[j].id == q.id;
  }

  /** Retrying slots of row `p` does not change what its triple resolves to. */
  lemma PatchedLookup(e: Engine, p: nat, ack: nat, tick: Tick, envs: seq<Env>, k: nat)
    requires p < |e.ports| && k <= |envs| && k <= |e.ports[p].unacked| &&
             ack == e.ports[FindPort(e.ports, e.ports[p].id)].ackNum
    ensures var f := Patched(e, p, RetryAll(e.self, e.ports[p], ack, tick, envs, k));
            FindPort(f.ports, f.ports[p].id) <= p && f.ports[FindPort(f.ports, f.ports[p].id)].ackNum == ack
  {
    RetryAllKind(e.self, e.ports[p], ack, tick, envs, k);
    SameLookup(e.ports, p, RetryAll(e.self, e.ports[p], ack, tick, envs, k).port);
  }

  lemma PatchNothing(e: Engine, p: nat)
    requires p < |e.ports|
    ensures Patched(e, p, RetryResult(e.ports[p], [], [])) == e
  {
    assert e.sent + [] == e.sent && e.mem + [] == e.mem && e.ports[p := e.ports[p]] == e.ports;
  }

  lemma PatchTwice(e: Engine, p: nat, r: RetryResult, x: RetryResult)
    requires p < |e.ports|
    ensures Patched(Patched(e, p, r), p, x) == Patched(e, p, RetryResult(x.port, r.sent + x.sent, r.mem + x.mem))
  {
    assert e.ports[p := r.port][p := x.port] == e.ports[p := x.port];
    assert e.sent + r.sent + x.sent == e.sent + (r.sent + x.sent) && e.mem + r.mem + x.mem == e.mem + (r.mem + x.mem);
  }
}
