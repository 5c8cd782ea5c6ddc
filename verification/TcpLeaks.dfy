/** When a payload can be lost without being freed: only when a zero-length payload is sent, or when the IPv4 queue
    refuses a retransmission. */
module TcpLeaks {
  import opened TcpPort
  import opened TcpEngine
  import opened TcpOwnership

  predicate NoDrop(log: seq<MemEvent>) { forall i :: 0 <= i < |log| ==> !log[i].Drop? }

  /** The log grew from `a` to `b` without a drop. */
  predicate Grew(a: seq<MemEvent>, b: seq<MemEvent>) { a <= b && NoDrop(b[|a|..]) }

  lemma GrewBy(a: seq<MemEvent>, more: seq<MemEvent>)
    requires NoDrop(more)
    ensures Grew(a, a + more)
  {
    assert (a + more)[|a|..] == more;
  }

  lemma GrewTrans(a: seq<MemEvent>, b: seq<MemEvent>, c: seq<MemEvent>)
    requires Grew(a, b) && Grew(b, c)
    ensures Grew(a, c)
  {
    assert c[|a|..] == b[|a|..] + c[|b|..];
  }

  lemma {:induction false} ReleaseNoDrop(slots: seq<Slot>, ack: nat)
    ensures NoDrop(ReleaseMem(slots, ack))
  {
    if slots != [] { ReleaseNoDrop(slots[..|slots| - 1], ack); }
  }

  lemma {:induction false} ResetNoDrop(slots: seq<Slot>)
    ensures NoDrop(ResetMem(slots))
  {
    if slots != [] { ResetNoDrop(slots[..|slots| - 1]); }
  }

  lemma SwitchNoDrop(p: Port, s: Segment, tick: Tick, acks: seq<Tx>, mem: seq<MemEvent>)
    requires NoDrop(mem)
    ensures NoDrop(Switch(p, s, tick, acks, mem).mem)
  {
    ResetNoDrop(p.unacked);
  }

  lemma ReceiveNoDrop(p: Port, s: Segment, tick: Tick)
    ensures NoDrop(Receive(p, s, tick).mem)
  {
    ResetNoDrop(p.unacked);
    ReleaseNoDrop(p.unacked, s.ackNum);
    SwitchNoDrop(Absorb(p, s), s, tick, AckFor(p, s), AbsorbMem(p, s));
  }

  lemma EnqueueNoDrop(e: Engine, tx: Tx)
    requires Enqueue(e, tx).Done?
    ensures Grew(e.mem, Enqueue(e, tx).e.mem)
  {
    GrewBy(e.mem, FreeOf(tx.data));
    GrewBy(e.mem, []);
  }

  lemma InputNoDrop(e: Engine, s: Segment, tick: Tick)
    requires Input(e, s, tick).Done?
    ensures Grew(e.mem, Input(e, s, tick).e.mem)
  {
    var i := Target(e.ports, s);
    GrewBy(e.mem, []);
    assert e.mem + [] == e.mem;
    if i < |e.ports| && e.ports[i].state != Closed {
      var eff := Receive(e.ports[i], s, tick);
      ReceiveNoDrop(e.ports[i], s, tick);
      GrewBy(e.mem, eff.mem);
      if eff.reliable != [] {
        var r := Heeded(e, i, s, eff);
        EnqueueNoDrop(r, eff.reliable[0]);
        GrewTrans(e.mem, r.mem, Enqueue(r, eff.reliable[0]).e.mem);
      }
    }
  }

  lemma AppSendNoDrop(e: Engine, id: Triple, data: Payload)
    ensures Grew(e.mem, AppSend(e, id, data).mem)
  {
    var given := e.(mem := e.mem + GiveOf(data));
    GrewBy(e.mem, GiveOf(data));
    GrewBy(given.mem, FreeOf(data));
    if Enqueue(given, DataTx(id, data)).Done? { EnqueueNoDrop(given, DataTx(id, data)); }
    GrewTrans(e.mem, given.mem, AppSend(e, id, data).mem);
  }

  /** The log grew from `a` to `b`, with a drop exactly when `drops`. */
  predicate GrewWith(a: seq<MemEvent>, b: seq<MemEvent>, drops: bool) { a <= b && (NoDrop(b[|a|..]) <==> !drops) }

  lemma GrewByWith(a: seq<MemEvent>, more: seq<MemEvent>)
    ensures GrewWith(a, a + more, !NoDrop(more))
  {
    assert (a + more)[|a|..] == more;
  }

  lemma NoDropAppend(a: seq<MemEvent>, b: seq<MemEvent>)
    ensures NoDrop(a + b) <==> NoDrop(a) && NoDrop(b)
  {
    if NoDrop(a + b) {
      assert forall i :: 0 <= i < |a| ==> a[i] == (a + b)[i];
      assert forall i :: 0 <= i < |b| ==> b[i] == (a + b)[|a| + i];
    }
  }

  lemma GrewWithTrans(a: seq<MemEvent>, b: seq<MemEvent>, x: bool, c: seq<MemEvent>, y: bool)
    requires GrewWith(a, b, x) && GrewWith(b, c, y)
    ensures GrewWith(a, c, x || y)
  {
    assert c[|a|..] == b[|a|..] + c[|b|..];
    NoDropAppend(b[|a|..], c[|b|..]);
  }

  // ----- serving the queue -----

  /** A payload pointer of length zero waiting to be sent. */
  predicate EmptyPayload(tx: Tx) { tx.data.Heap? && Consumes(tx.control, Bytes(tx.data)) == 0 }

  /** Nothing is recorded for a zero-length payload, so its pointer is overwritten once the port is found. */
  predicate ServeDrops(e: Engine, env: Env)
    requires e.queue != []
  {
    EmptyPayload(e.queue[0]) && env.allocOk && FindPort(e.ports, e.queue[0].to) < |e.ports|
  }

  lemma PayloadEvents(d: Payload)
    ensures NoDrop(FreeOf(d)) && NoDrop(ReadOf(d)) && NoDrop(ReadOf(d) + FreeOf(d)) && (NoDrop(DropOf(d)) <==> !d.Heap?)
    ensures NoDrop(ReadOf(d) + DropOf(d)) <==> !d.Heap?
  {
    NoDropAppend(ReadOf(d), FreeOf(d));
    NoDropAppend(ReadOf(d), DropOf(d));
    if d.Heap? { assert DropOf(d)[0].Drop?; }
  }

  lemma ServeDropsIff(e: Engine, tick: Tick, env: Env)
    requires e.queue != []
    ensures GrewWith(e.mem, ServeQueue(e, tick, env).mem, ServeDrops(e, env))
  {
    var d := e.queue[0].data;
    PayloadEvents(d);
    GrewByWith(e.mem, FreeOf(d));
    GrewByWith(e.mem, ReadOf(d));
    GrewByWith(e.mem, DropOf(d));
    GrewByWith(e.mem, ReadOf(d) + FreeOf(d));
  }

  // ----- the idle scan -----

  /** A due slot whose retransmission the IPv4 queue refuses is given up without freeing its payload. */
  predicate SlotDrops(u: Slot, tick: Tick, env: Env) { Due(u, tick) && u.data.Heap? && env.allocOk && !env.ipv4Ok }

  ghost predicate SlotsDrop(slots: seq<Slot>, tick: Tick, envs: seq<Env>, n: nat)
    requires n <= |envs| && n <= |slots|
  {
    exists k :: 0 <= k < n && SlotDrops(slots[k], tick, envs[k])
  }

  lemma RetryDropsIff(self: Addr, p: Port, ack: nat, k: nat, tick: Tick, env: Env)
    requires k < |p.unacked|
    ensures NoDrop(Retry(self, p, ack, k, tick, env).mem) <==> !SlotDrops(p.unacked[k], tick, env)
    ensures forall i :: 0 <= i < |p.unacked| && i != k ==>
              Retry(self, p, ack, k, tick, env).port.unacked[i] == p.unacked[i]
  {
    PayloadEvents(p.unacked[k].data);
  }

  lemma {:induction false} RetryAllDropsIff(self: Addr, p: Port, ack: nat, tick: Tick, envs: seq<Env>, n: nat)
    requires n <= |envs| && n <= |p.unacked|
    ensures NoDrop(RetryAll(self, p, ack, tick, envs, n).mem) <==> !SlotsDrop(p.unacked, tick, envs, n)
    ensures forall i :: n <= i < |p.unacked| ==> RetryAll(self, p, ack, tick, envs, n).port.unacked[i] == p.unacked[i]
  {
    if n > 0 {
      RetryAllDropsIff(self, p, ack, tick, envs, n - 1);
      var r := RetryAll(self, p, ack, tick, envs, n - 1);
      RetryDropsIff(self, r.port, ack, n - 1, tick, envs[n - 1]);
      NoDropAppend(r.mem, Retry(self, r.port, ack, n - 1, tick, envs[n - 1]).mem);
      assert SlotsDrop(p.unacked, tick, envs, n) <==>
             SlotsDrop(p.unacked, tick, envs, n - 1) || SlotDrops(p.unacked[n - 1], tick, envs[n - 1]);
    }
  }

  ghost predicate RowDrops(p: Port, tick: Tick, envs: seq<Env>)
    requires |p.unacked| == |envs|
  {
    p.id.self != 0 && !TimedOut(p, tick) && SlotsDrop(p.unacked, tick, envs, |envs|)
  }

  lemma ScanPortDropsIff(e: Engine, p: nat, tick: Tick, envs: seq<Env>)
    requires p < |e.ports| && |e.ports[p].unacked| == |envs| == MAX_UNACKED
    ensures GrewWith(e.mem, ScanPort(e, p, tick, envs).mem, RowDrops(e.ports[p], tick, envs))
  {
    var row := e.ports[p];
    GrewByWith(e.mem, []);
    assert e.mem + [] == e.mem;
    if row.id.self != 0 {
      var ack := e.ports[FindPort(e.ports, row.id)].ackNum;
      ResetNoDrop(row.unacked);
      GrewByWith(e.mem, ResetMem(row.unacked));
      RetryAllDropsIff(e.self, row, ack, tick, envs, MAX_UNACKED);
      GrewByWith(e.mem, RetryAll(e.self, row, ack, tick, envs, MAX_UNACKED).mem);
    }
  }

  ghost predicate ScanDrops(e: Engine, tick: Tick, envs: seq<seq<Env>>, n: nat)
    requires Scannable(e, envs) && n <= MAX_PORTS
  {
    exists p :: 0 <= p < n && RowDrops(e.ports[p], tick, envs[p])
  }

  lemma {:induction false} ScanDropsIff(e: Engine, tick: Tick, envs: seq<seq<Env>>, n: nat)
    requires Scannable(e, envs) && n <= MAX_PORTS
    ensures GrewWith(e.mem, ScanPorts(e, tick, envs, n).mem, ScanDrops(e, tick, envs, n))
    ensures forall p :: n <= p < MAX_PORTS ==> ScanPorts(e, tick, envs, n).ports[p] == e.ports[p]
  {
    if n == 0 {
      GrewByWith(e.mem, []);
      assert e.mem + [] == e.mem;
    } else {
      ScanDropsIff(e, tick, envs, n - 1);
      var f := ScanPorts(e, tick, envs, n - 1);
      ScanPortDropsIff(f, n - 1, tick, envs[n - 1]);
      GrewWithTrans(e.mem, f.mem, ScanDrops(e, tick, envs, n - 1), ScanPorts(e, tick, envs, n).mem,
                    RowDrops(e.ports[n - 1], tick, envs[n - 1]));
      assert ScanDrops(e, tick, envs, n) <==>
             ScanDrops(e, tick, envs, n - 1) || RowDrops(e.ports[n - 1], tick, envs[n - 1]);
    }
  }

  // ----- every event, every run -----

  /** The events that lose a payload, as the table stands before them. */
  ghost predicate Drops(e: Engine, at: At)
    requires Admissible(e, at.ev)
  {
    (at.ev.Serves? && ServeDrops(e, at.ev.env)) || (at.ev.Scans? && ScanDrops(e, at.tick, at.ev.envs, MAX_PORTS))
  }

  /** One event grows the log by a drop if and only if it serves an empty payload on a known port with memory to build
      the segment, or scans a live row with a due slot whose retransmission the IPv4 queue refuses. */
  lemma HandleDropsIff(e: Engine, at: At)
    requires Admissible(e, at.ev) && Handle(e, at.ev, at.tick).Done?
    ensures GrewWith(e.mem, Handle(e, at.ev, at.tick).e.mem, Drops(e, at))
  {
    assert e.mem + [] == e.mem;
    GrewByWith(e.mem, []);
    match at.ev
    case Sends(id, data) => AppSendNoDrop(e, id, data);
    case Serves(env) => ServeDropsIff(e, at.tick, env);
    case Hears(s) => InputNoDrop(e, s, at.tick);
    case Connects(id) => CommandNoDrop(e, at.ev, at.tick);
    case Listens(self) =>
    case Closes(id) => CommandNoDrop(e, at.ev, at.tick);
    case Scans(envs) => ScanDropsIff(e, at.tick, envs, MAX_PORTS);
  }

  lemma CommandNoDrop(e: Engine, ev: Event, tick: Tick)
    requires (ev.Connects? || ev.Closes?) && Admissible(e, ev) && Handle(e, ev, tick).Done?
    ensures Grew(e.mem, Handle(e, ev, tick).e.mem)
  {
    GrewBy(e.mem, []);
    assert e.mem + [] == e.mem;
    if ev.Connects? && FindUnused(e.ports) < |e.ports| {
      var p := FreshPort(ev.id, SynSent);
      EnqueueNoDrop(e.(ports := e.ports[FindUnused(e.ports) := p]), ReplyTx(p, ev.id.addr, SYN));
    } else if ev.Closes? && FindPort(e.ports, ev.id) < |e.ports| {
      var i := FindPort(e.ports, ev.id);
      var p := e.ports[i].(state := FinWait1);
      EnqueueNoDrop(e.(ports := e.ports[i := p]), ReplyTx(p, ev.id.addr, FIN));
    }
  }

  ghost predicate DropsAt(es: seq<Engine>, ats: seq<At>, i: nat) { HandlesAt(es, ats, i) && Drops(es[i], ats[i]) }

  lemma GrewWithKeeps(a: seq<MemEvent>, b: seq<MemEvent>, drops: bool)
    requires GrewWith(a, b, drops)
    ensures NoDrop(b) <==> NoDrop(a) && !drops
  {
    assert b == a + b[|a|..];
    NoDropAppend(a, b[|a|..]);
  }

  /** No event of the first `n` dropped a payload. */
  ghost predicate NoneDropped(es: seq<Engine>, ats: seq<At>, n: nat) {
    forall i :: 0 <= i < n ==> !DropsAt(es, ats, i)
  }

  lemma NoneDroppedGrows(es: seq<Engine>, ats: seq<At>, n: nat)
    ensures NoneDropped(es, ats, n + 1) <==> NoneDropped(es, ats, n) && !DropsAt(es, ats, n)
  {
  }

  /** A run loses a payload if and only if one of its events does. */
  lemma {:induction false} RunDropsIff(es: seq<Engine>, ats: seq<At>, n: nat)
    requires IsTableRun(es, ats) && n < |es|
    ensures NoDrop(es[n].mem) <==> NoneDropped(es, ats, n)
  {
    if n > 0 {
      RunDropsIff(es, ats, n - 1);
      StepDropsIff(es, ats, n - 1);
      NoneDroppedGrows(es, ats, n - 1);
    }
  }

  lemma StepDropsIff(es: seq<Engine>, ats: seq<At>, i: nat)
    requires IsTableRun(es, ats) && i < |ats|
    ensures NoDrop(es[i + 1].mem) <==> NoDrop(es[i].mem) && !DropsAt(es, ats, i)
  {
    assert HandlesAt(es, ats, i);
    HandleDropsIff(es[i], ats[i]);
    GrewWithKeeps(es[i].mem, es[i + 1].mem, Drops(es[i], ats[i]));
  }

  function Frees(log: seq<MemEvent>, id: nat): nat {
    if log == [] then 0 else Frees(log[..|log| - 1], id) + if log[|log| - 1] == Free(id) then 1 else 0
  }

  function DropCount(log: seq<MemEvent>, id: nat): nat {
    if log == [] then 0 else DropCount(log[..|log| - 1], id) + if log[|log| - 1] == Drop(id) then 1 else 0
  }

  lemma {:induction false} ReleasedSplit(log: seq<MemEvent>, id: nat)
    ensures Released(log, id) == Frees(log, id) + DropCount(log, id)
  {
    if log != [] { ReleasedSplit(log[..|log| - 1], id); }
  }

  lemma {:induction false} DropCountIff(log: seq<MemEvent>)
    ensures NoDrop(log) ==> forall id :: DropCount(log, id) == 0
    ensures !NoDrop(log) ==> exists id :: DropCount(log, id) > 0
  {
    if log != [] {
      var n := |log| - 1;
      DropCountIff(log[..n]);
      if NoDrop(log) {
        forall id ensures DropCount(log, id) == 0 {}
      } else if log[n].Drop? {
        assert DropCount(log, log[n].id) > 0;
      } else {
        var i :| 0 <= i < |log| && log[i].Drop?;
        assert log[..n][i].Drop?;
        var id :| DropCount(log[..n], id) > 0;
        assert DropCount(log, id) > 0;
      }
    }
  }

  /** Every payload given to `tcp_send` is freed as often as it was given, less what is still held. */
  ghost predicate Accounted(e: Engine) {
    forall id :: Held(e, id) + Frees(e.mem, id) == Given(e.mem, id)
  }

  /** No leak: in a run every payload is held or freed if and only if no event so far dropped one. */
  lemma NoLeakIff(es: seq<Engine>, ats: seq<At>, n: nat)
    requires IsTableRun(es, ats) && n < |es|
    ensures Accounted(es[n]) <==> NoneDropped(es, ats, n)
  {
    RunDropsIff(es, ats, n);
    DropCountIff(es[n].mem);
    forall id ensures Held(es[n], id) + Frees(es[n].mem, id) + DropCount(es[n].mem, id) == Given(es[n].mem, id) {
      RunOwns(es, ats, n, id);
      ReplayConserves(es[n].mem, id);
      ReleasedSplit(es[n].mem, id);
    }
  }
}
