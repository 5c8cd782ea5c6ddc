/** Ownership of application payloads: a payload handed to `tcp_send` is in exactly one place, or was freed, or was
    dropped.  Everything is stated for one payload identity `id`, which is arbitrary. */
module TcpOwnership {
  import opened TcpPort
  import opened TcpEngine

  // ----- replaying a memory log -----

  function After(held: nat, log: seq<MemEvent>, id: nat): nat {
    if log == [] then held
    else
      var n := After(held, log[..|log| - 1], id);
      var m := log[|log| - 1];
      if m.id != id || m.Read? then n
      else if m.Give? then n + 1
      else if n > 0 then n - 1 else 0
  }

  /** Only a held payload is read, freed or dropped. */
  predicate Legal(held: nat, log: seq<MemEvent>, id: nat) {
    log == [] ||
    (Legal(held, log[..|log| - 1], id) &&
     (log[|log| - 1].id == id && !log[|log| - 1].Give? ==> After(held, log[..|log| - 1], id) > 0))
  }

  lemma {:induction false} ReplayAppend(held: nat, a: seq<MemEvent>, b: seq<MemEvent>, id: nat)
    ensures After(held, a + b, id) == After(After(held, a, id), b, id)
    ensures Legal(held, a + b, id) <==> Legal(held, a, id) && Legal(After(held, a, id), b, id)
  {
    if b == [] {
      assert a + b == a;
    } else {
      assert (a + b)[..|a + b| - 1] == a + b[..|b| - 1];
      ReplayAppend(held, a, b[..|b| - 1], id);
    }
  }

  function Released(log: seq<MemEvent>, id: nat): nat {
    if log == [] then 0
    else Released(log[..|log| - 1], id) + if log[|log| - 1] == Free(id) || log[|log| - 1] == Drop(id) then 1 else 0
  }

  function Given(log: seq<MemEvent>, id: nat): nat {
    if log == [] then 0 else Given(log[..|log| - 1], id) + if log[|log| - 1] == Give(id) then 1 else 0
  }

  /** Conservation: what was given is held, freed or dropped. */
  lemma {:induction false} ReplayConserves(log: seq<MemEvent>, id: nat)
    requires Legal(0, log, id)
    ensures After(0, log, id) + Released(log, id) == Given(log, id)
  {
    if log != [] { ReplayConserves(log[..|log| - 1], id); }
  }

  lemma {:induction false} CountsGrow(log: seq<MemEvent>, k: nat, id: nat)
    requires k <= |log|
    ensures Released(log[..k], id) <= Released(log, id) && Given(log[..k], id) <= Given(log, id)
    decreases |log| - k
  {
    if k == |log| {
      assert log[..k] == log;
    } else {
      CountsGrow(log, k + 1, id);
      assert log[..k + 1][..k] == log[..k];
    }
  }

  lemma {:induction false} LegalPrefix(log: seq<MemEvent>, k: nat, id: nat)
    requires Legal(0, log, id) && k <= |log|
    ensures Legal(0, log[..k], id)
    decreases |log| - k
  {
    if k == |log| {
      assert log[..k] == log;
    } else {
      LegalPrefix(log, k + 1, id);
      assert log[..k + 1][..k] == log[..k];
    }
  }

  /** A payload given once is released at most once and never touched afterwards. */
  lemma NothingAfterRelease(log: seq<MemEvent>, i: nat, j: nat, id: nat)
    requires Legal(0, log, id) && Given(log, id) <= 1 && i < j < |log|
    requires log[i] == Free(id) || log[i] == Drop(id)
    ensures log[j].id != id || log[j].Give?
  {
    LegalPrefix(log, j + 1, id);
    assert log[..j + 1][..j] == log[..j];
    ReplayConserves(log[..j], id);
    CountsGrow(log, j, id);
    assert log[..i + 1][..i] == log[..i];
    assert log[..j][..i + 1] == log[..i + 1];
    CountsGrow(log[..j], i + 1, id);
  }

  // ----- where payloads are -----

  function Own(d: Payload, id: nat): nat { if d.Heap? && d.id == id then 1 else 0 }

  function SlotOwn(u: Slot, id: nat): nat { if u.inUse then Own(u.data, id) else 0 }

  function InSlots(slots: seq<Slot>, id: nat): nat {
    if slots == [] then 0 else InSlots(slots[..|slots| - 1], id) + SlotOwn(slots[|slots| - 1], id)
  }

  function InPorts(ports: seq<Port>, id: nat): nat {
    if ports == [] then 0 else InPorts(ports[..|ports| - 1], id) + InSlots(ports[|ports| - 1].unacked, id)
  }

  function InQueue(q: seq<Tx>, id: nat): nat {
    if q == [] then 0 else InQueue(q[1..], id) + Own(q[0].data, id)
  }

  /** The places that own `id`: queued transmissions and in-use slots. */
  function Held(e: Engine, id: nat): nat { InQueue(e.queue, id) + InPorts(e.ports, id) }

  lemma {:induction false} InSlotsUpdate(slots: seq<Slot>, k: nat, u: Slot, id: nat)
    requires k < |slots|
    ensures InSlots(slots[k := u], id) + SlotOwn(slots[k], id) == InSlots(slots, id) + SlotOwn(u, id)
  {
    var n := |slots| - 1;
    if k == n {
      assert slots[k := u][..n] == slots[..n];
    } else {
      assert slots[k := u][..n] == slots[..n][k := u];
      InSlotsUpdate(slots[..n], k, u, id);
    }
  }

  lemma {:induction false} InPortsUpdate(ports: seq<Port>, k: nat, p: Port, id: nat)
    requires k < |ports|
    ensures InPorts(ports[k := p], id) + InSlots(ports[k].unacked, id) == InPorts(ports, id) + InSlots(p.unacked, id)
  {
    var n := |ports| - 1;
    if k == n {
      assert ports[k := p][..n] == ports[..n];
    } else {
      assert ports[k := p][..n] == ports[..n][k := p];
      InPortsUpdate(ports[..n], k, p, id);
    }
  }

  lemma {:induction false} InQueueAppend(q: seq<Tx>, r: seq<Tx>, id: nat)
    ensures InQueue(q + r, id) == InQueue(q, id) + InQueue(r, id)
  {
    if q == [] {
      assert q + r == r;
    } else {
      assert (q + r)[1..] == q[1..] + r;
      InQueueAppend(q[1..], r, id);
    }
  }

  // ----- what the port operations do -----

  /** `mem` is a legal log that takes the holdings of `id` from `a` to `b`. */
  predicate Moves(a: nat, mem: seq<MemEvent>, b: nat, id: nat) {
    Legal(a, mem, id) && After(a, mem, id) == b
  }

  lemma MovesTrans(a: nat, x: seq<MemEvent>, b: nat, y: seq<MemEvent>, c: nat, id: nat)
    requires Moves(a, x, b, id) && Moves(b, y, c, id)
    ensures Moves(a, x + y, c, id)
  {
    ReplayAppend(a, x, y, id);
  }

  lemma OneMoves(a: nat, m: MemEvent, id: nat)
    requires m.id == id && !m.Give? ==> a > 0
    ensures Moves(a, [m], if m.id != id || m.Read? then a else if m.Give? then a + 1 else a - 1, id)
  {
    assert [m][..|[m]| - 1] == [];
    assert Legal(a, [], id) && After(a, [], id) == a;
  }

  lemma FreeMoves(rest: nat, d: Payload, id: nat)
    ensures Moves(rest + Own(d, id), FreeOf(d), rest, id)
  {
    if d.Heap? { OneMoves(rest + Own(d, id), Free(d.id), id); }
  }

  lemma DropMoves(rest: nat, d: Payload, id: nat)
    ensures Moves(rest + Own(d, id), DropOf(d), rest, id)
  {
    if d.Heap? { OneMoves(rest + Own(d, id), Drop(d.id), id); }
  }

  lemma ReadMoves(rest: nat, d: Payload, id: nat)
    ensures Moves(rest + Own(d, id), ReadOf(d), rest + Own(d, id), id)
  {
    if d.Heap? { OneMoves(rest + Own(d, id), Read(d.id), id); }
  }

  lemma ReadFreeMoves(rest: nat, d: Payload, id: nat)
    ensures Moves(rest + Own(d, id), ReadOf(d) + FreeOf(d), rest, id)
  {
    ReadMoves(rest, d, id);
    FreeMoves(rest, d, id);
    MovesTrans(rest + Own(d, id), ReadOf(d), rest + Own(d, id), FreeOf(d), rest, id);
  }

  lemma ReadDropMoves(rest: nat, d: Payload, id: nat)
    ensures Moves(rest + Own(d, id), ReadOf(d) + DropOf(d), rest, id)
  {
    ReadMoves(rest, d, id);
    DropMoves(rest, d, id);
    MovesTrans(rest + Own(d, id), ReadOf(d), rest + Own(d, id), DropOf(d), rest, id);
  }

  lemma GiveMoves(rest: nat, d: Payload, id: nat)
    ensures Moves(rest, GiveOf(d), rest + Own(d, id), id)
  {
    if d.Heap? { OneMoves(rest, Give(d.id), id); }
  }

  lemma ReleaseOneMoves(a: nat, mem: seq<MemEvent>, rest: nat, u: Slot, ack: nat, id: nat)
    requires Moves(a, mem, rest + SlotOwn(u, id), id)
    ensures Moves(a, mem + (if Acked(u, ack) then FreeOf(u.data) else []), rest + SlotOwn(ReleaseSlot(u, ack), id), id)
  {
    if Acked(u, ack) {
      FreeMoves(rest, u.data, id);
      MovesTrans(a, mem, rest + SlotOwn(u, id), FreeOf(u.data), rest, id);
    } else {
      assert mem + [] == mem;
    }
  }

  lemma {:induction false} ReleaseMoves(rest: nat, slots: seq<Slot>, ack: nat, id: nat)
    ensures Moves(rest + InSlots(slots, id), ReleaseMem(slots, ack), rest + InSlots(ReleaseSlots(slots, ack), id), id)
    decreases |slots|
  {
    if slots != [] {
      var n := |slots| - 1;
      var u := slots[n];
      ReleaseMoves(rest + SlotOwn(u, id), slots[..n], ack, id);
      assert ReleaseSlots(slots, ack)[..n] == ReleaseSlots(slots[..n], ack);
      ReleaseOneMoves(rest + InSlots(slots, id), ReleaseMem(slots[..n], ack),
                      rest + InSlots(ReleaseSlots(slots[..n], ack), id), u, ack, id);
    }
  }

  lemma {:induction false} ResetMoves(rest: nat, slots: seq<Slot>, id: nat)
    ensures Moves(rest + InSlots(slots, id), ResetMem(slots), rest, id) && InSlots(ClearSlots(slots), id) == 0
    decreases |slots|
  {
    if slots != [] {
      var n := |slots| - 1;
      var u := slots[n];
      ResetMoves(rest + SlotOwn(u, id), slots[..n], id);
      assert ClearSlots(slots)[..n] == ClearSlots(slots[..n]);
      FreeMoves(rest, u.data, id);
      if u.inUse {
        MovesTrans(rest + InSlots(slots, id), ResetMem(slots[..n]), rest + SlotOwn(u, id), FreeOf(u.data), rest, id);
      } else {
        assert ResetMem(slots) == ResetMem(slots[..n]);
      }
    }
  }

  // ----- every step of the task -----

  predicate Vacant(p: Port) {
    forall k :: 0 <= k < |p.unacked| && p.unacked[k].inUse ==> p.unacked[k].data == Null
  }

  predicate RowOk(p: Port) {
    |p.unacked| == MAX_UNACKED && (p.id.self == 0 <==> p.state == Closed) && (p.state == Closed ==> Vacant(p))
  }

  /** Unused rows are CLOSED and own nothing, and nothing is queued for them. */
  ghost predicate RowsOk(e: Engine) {
    |e.ports| == MAX_PORTS && (forall i :: 0 <= i < |e.ports| ==> RowOk(e.ports[i])) &&
    forall i :: 0 <= i < |e.queue| ==> e.queue[i].to.self != 0
  }

  lemma {:induction false} VacantOwnsNothing(slots: seq<Slot>, id: nat)
    requires forall k :: 0 <= k < |slots| && slots[k].inUse ==> slots[k].data == Null
    ensures InSlots(slots, id) == 0
  {
    if slots != [] { VacantOwnsNothing(slots[..|slots| - 1], id); }
  }

  /** From `e`, with `extra` holdings of `id` in the caller's hands, the logged events lead to `r`. */
  ghost predicate Owns(e: Engine, extra: nat, r: Engine, id: nat) {
    e.mem <= r.mem && Moves(Held(e, id) + extra, r.mem[|e.mem|..], Held(r, id), id)
  }

  lemma {:induction false} Elsewhere(ports: seq<Port>, i: nat, id: nat) returns (rest: nat)
    requires i < |ports|
    ensures InPorts(ports, id) == rest + InSlots(ports[i].unacked, id)
  {
    var n := |ports| - 1;
    if i == n { rest := InPorts(ports[..n], id); }
    else {
      var r := Elsewhere(ports[..n], i, id);
      rest := r + InSlots(ports[n].unacked, id);
    }
  }

  /** Replacing row `i` and extending queue and log; `rest` is held elsewhere. */
  lemma RowStep(e: Engine, i: nat, rest: nat, p: Port, more: seq<Tx>, mem: seq<MemEvent>, r: Engine, extra: nat,
                id: nat)
    requires i < |e.ports| && r.ports == e.ports[i := p] && r.queue == e.queue + more && r.mem == e.mem + mem
    requires Held(e, id) == rest + InSlots(e.ports[i].unacked, id)
    requires Moves(rest + InSlots(e.ports[i].unacked, id) + extra, mem,
                   rest + InSlots(p.unacked, id) + InQueue(more, id), id)
    ensures Owns(e, extra, r, id)
  {
    InPortsUpdate(e.ports, i, p, id);
    InQueueAppend(e.queue, more, id);
    assert r.mem[|e.mem|..] == mem;
  }

  lemma InQueueOne(tx: Tx, id: nat)
    ensures InQueue([tx], id) == Own(tx.data, id) && InQueue([], id) == 0
  {
  }

  lemma EnqueueOnMoves(p: Port, tx: Tx, room: nat, rest: nat, id: nat)
    requires p.sem > 0
    ensures var q := EnqueueOn(p, tx, room);
            q.port.unacked == p.unacked && q.port.id == p.id && q.port.state == p.state &&
            Moves(rest + InSlots(p.unacked, id) + Own(tx.data, id), q.mem,
                  rest + InSlots(p.unacked, id) + InQueue(q.queued, id), id)
  {
    FreeMoves(rest + InSlots(p.unacked, id), tx.data, id);
    InQueueOne(tx, id);
  }

  lemma RowsOkUpdate(e: Engine, i: nat, p: Port, more: seq<Tx>, r: Engine)
    requires RowsOk(e) && i < |e.ports| && RowOk(p) && r.ports == e.ports[i := p] && r.queue == e.queue + more
    requires forall tx <- more :: tx.to.self != 0
    ensures RowsOk(r)
  {
  }

  lemma EnqueueRows(e: Engine, tx: Tx)
    requires RowsOk(e) && Enqueue(e, tx).Done?
    ensures RowsOk(Enqueue(e, tx).e)
  {
    var i := FindPort(e.ports, tx.to);
    if i < |e.ports| {
      assert RowOk(e.ports[i]);
      var q := EnqueueOn(e.ports[i], tx, Room(e));
      RowsOkUpdate(e, i, q.port, q.queued, Enqueue(e, tx).e);
    }
  }

  lemma EnqueueOwns(e: Engine, tx: Tx, id: nat)
    requires Enqueue(e, tx).Done?
    ensures Owns(e, Own(tx.data, id), Enqueue(e, tx).e, id)
  {
    var i := FindPort(e.ports, tx.to);
    var r := Enqueue(e, tx).e;
    if i == |e.ports| {
      FreeMoves(Held(e, id), tx.data, id);
      assert r.mem[|e.mem|..] == FreeOf(tx.data);
    } else {
      var q := EnqueueOn(e.ports[i], tx, Room(e));
      var rest := Elsewhere(e.ports, i, id);
      EnqueueOnMoves(e.ports[i], tx, Room(e), rest + InQueue(e.queue, id), id);
      RowStep(e, i, rest + InQueue(e.queue, id), q.port, q.queued, q.mem, r, Own(tx.data, id), id);
    }
  }

  lemma OwnsTrans(e: Engine, x: nat, f: Engine, g: Engine, id: nat)
    requires Owns(e, x, f, id) && Owns(f, 0, g, id)
    ensures Owns(e, x, g, id)
  {
    MovesTrans(Held(e, id) + x, f.mem[|e.mem|..], Held(f, id), g.mem[|f.mem|..], Held(g, id), id);
    assert g.mem[|e.mem|..] == f.mem[|e.mem|..] + g.mem[|f.mem|..];
  }

  lemma AppSendRows(e: Engine, to: Triple, data: Payload)
    requires RowsOk(e)
    ensures RowsOk(AppSend(e, to, data))
  {
    var given := e.(mem := e.mem + GiveOf(data));
    if Enqueue(given, DataTx(to, data)).Done? { EnqueueRows(given, DataTx(to, data)); }
  }

  lemma TailJoin(a: seq<MemEvent>, g: seq<MemEvent>, all: seq<MemEvent>)
    requires a + g <= all
    ensures a <= all && all[|a|..] == g + all[|a + g|..]
  {
    assert all == a + g + all[|a + g|..];
  }

  lemma OwnsAfterGive(e: Engine, data: Payload, r: Engine, id: nat)
    requires Owns(e.(mem := e.mem + GiveOf(data)), Own(data, id), r, id)
    ensures Owns(e, 0, r, id)
  {
    var given := e.(mem := e.mem + GiveOf(data));
    var h, tail := Held(e, id), r.mem[|given.mem|..];
    assert Held(given, id) == h;
    TailJoin(e.mem, GiveOf(data), r.mem);
    GiveMoves(h, data, id);
    MovesTrans(h, GiveOf(data), h + Own(data, id), tail, Held(r, id), id);
  }

  lemma FreedOwns(e: Engine, data: Payload, id: nat)
    ensures Owns(e, Own(data, id), Freed(e, data), id)
  {
    FreeMoves(Held(e, id), data, id);
    assert Freed(e, data).mem[|e.mem|..] == FreeOf(data);
  }

  lemma AppSendOwns(e: Engine, to: Triple, data: Payload, id: nat)
    ensures Owns(e, 0, AppSend(e, to, data), id)
  {
    var given := e.(mem := e.mem + GiveOf(data));
    if Enqueue(given, DataTx(to, data)).Done? {
      EnqueueOwns(given, DataTx(to, data), id);
    } else {
      FreedOwns(given, data, id);
    }
    OwnsAfterGive(e, data, AppSend(e, to, data), id);
  }

  lemma StowMoves(p: Port, k: nat, tx: Tx, tick: Tick, rest: nat, id: nat)
    requires k < |p.unacked| && !p.unacked[k].inUse
    ensures Moves(rest + InSlots(p.unacked, id) + Own(tx.data, id), ReadOf(tx.data),
                  rest + InSlots(Stow(p, k, tx, tick).unacked, id), id)
  {
    ReadMoves(rest + InSlots(p.unacked, id), tx.data, id);
    InSlotsUpdate(p.unacked, k, Slot(true, p.seqNum, tx.control, tx.data, tick), id);
  }

  lemma SendOnMoves(self: Addr, p: Port, tx: Tx, tick: Tick, rest: nat, id: nat)
    ensures var a := rest + InSlots(p.unacked, id);
            var s := SendOn(self, p, tx, tick);
            if s.Unsent? then Moves(a + Own(tx.data, id), s.freed, a, id)
            else Moves(a + Own(tx.data, id), s.read, rest + InSlots(s.port.unacked, id), id) &&
                 |s.port.unacked| == |p.unacked| && s.port.id == p.id && s.port.state == p.state
  {
    var a, k := rest + InSlots(p.unacked, id), FirstFree(p.unacked);
    if Consumes(tx.control, Bytes(tx.data)) == 0 {
      DropMoves(a, tx.data, id);
    } else if k == |p.unacked| {
      ReadFreeMoves(a, tx.data, id);
    } else {
      StowMoves(p, k, tx, tick, rest, id);
    }
  }

  /** A row replaced, nothing queued. */
  lemma RowOnly(e: Engine, i: nat, rest: nat, p: Port, mem: seq<MemEvent>, r: Engine, extra: nat, id: nat)
    requires i < |e.ports| && r.ports == e.ports[i := p] && r.queue == e.queue && r.mem == e.mem + mem
    requires InPorts(e.ports, id) == rest + InSlots(e.ports[i].unacked, id)
    requires Moves(rest + InQueue(e.queue, id) + InSlots(e.ports[i].unacked, id) + extra, mem,
                   rest + InQueue(e.queue, id) + InSlots(p.unacked, id), id)
    ensures Owns(e, extra, r, id)
  {
    assert e.queue == e.queue + [];
    RowStep(e, i, rest + InQueue(e.queue, id), p, [], mem, r, extra, id);
  }

  /** The table after row `i` came out of `SendOn` as `res`. */
  function AfterSend(e: Engine, i: nat, res: SendResult, ipv4Ok: bool): Engine
    requires i < |e.ports|
  {
    match res
    case Unsent(freed) => e.(mem := e.mem + freed)
    case Sent(p, s, read) =>
      e.(ports := e.ports[i := p], mem := e.mem + read, sent := if ipv4Ok then e.sent + [s] else e.sent)
  }

  lemma AfterSendOwns(e: Engine, i: nat, res: SendResult, ipv4Ok: bool, rest: nat, extra: nat, id: nat)
    requires i < |e.ports| && InPorts(e.ports, id) == rest + InSlots(e.ports[i].unacked, id)
    requires var a := rest + InQueue(e.queue, id) + InSlots(e.ports[i].unacked, id);
             if res.Unsent? then Moves(a + extra, res.freed, a, id)
             else Moves(a + extra, res.read, rest + InQueue(e.queue, id) + InSlots(res.port.unacked, id), id)
    ensures Owns(e, extra, AfterSend(e, i, res, ipv4Ok), id)
  {
    var r := AfterSend(e, i, res, ipv4Ok);
    if res.Unsent? {
      RowOnly(e, i, rest, e.ports[i], res.freed, r, extra, id);
    } else {
      RowOnly(e, i, rest, res.port, res.read, r, extra, id);
    }
  }

  lemma FoundOwns(e: Engine, i: nat, tx: Tx, tick: Tick, res: SendResult, ipv4Ok: bool, id: nat)
    requires i < |e.ports| && res == SendOn(e.self, e.ports[i], tx, tick)
    ensures Owns(e, Own(tx.data, id), AfterSend(e, i, res, ipv4Ok), id)
  {
    var rest := Elsewhere(e.ports, i, id);
    SendOnMoves(e.self, e.ports[i], tx, tick, rest + InQueue(e.queue, id), id);
    AfterSendOwns(e, i, res, ipv4Ok, rest, Own(tx.data, id), id);
  }

  lemma SendFirstIs(e: Engine, tx: Tx, tick: Tick, env: Env)
    requires env.allocOk && FindPort(e.ports, tx.to) < |e.ports|
    ensures var i := FindPort(e.ports, tx.to);
            SendFirst(e, tx, tick, env) == AfterSend(e, i, SendOn(e.self, e.ports[i], tx, tick), env.ipv4Ok)
  {
  }

  lemma SendFirstOwns(e: Engine, tx: Tx, tick: Tick, env: Env, id: nat)
    ensures Owns(e, Own(tx.data, id), SendFirst(e, tx, tick, env), id)
  {
    var i := FindPort(e.ports, tx.to);
    if env.allocOk && i < |e.ports| {
      SendFirstIs(e, tx, tick, env);
      FoundOwns(e, i, tx, tick, SendOn(e.self, e.ports[i], tx, tick), env.ipv4Ok, id);
    } else {
      FreedOwns(e, tx.data, id);
    }
  }

  lemma SendFirstRows(e: Engine, tx: Tx, tick: Tick, env: Env)
    requires RowsOk(e) && tx.to.self != 0
    ensures RowsOk(SendFirst(e, tx, tick, env))
  {
    var i := FindPort(e.ports, tx.to);
    if i < |e.ports| { assert RowOk(e.ports[i]); }
  }

  lemma OwnsAfterPop(e: Engine, r: Engine, id: nat)
    requires e.queue != [] && Owns(e.(queue := e.queue[1..]), Own(e.queue[0].data, id), r, id)
    ensures Owns(e, 0, r, id)
  {
  }

  lemma ServeOwns(e: Engine, tick: Tick, env: Env, id: nat)
    requires RowsOk(e) && e.queue != []
    ensures Owns(e, 0, ServeQueue(e, tick, env), id) && RowsOk(ServeQueue(e, tick, env))
  {
    var d := e.(queue := e.queue[1..]);
    SendFirstOwns(d, e.queue[0], tick, env, id);
    SendFirstRows(d, e.queue[0], tick, env);
    OwnsAfterPop(e, ServeQueue(e, tick, env), id);
  }

  // ----- arrivals -----

  lemma SwitchMoves(p: Port, s: Segment, tick: Tick, acks: seq<Tx>, mem: seq<MemEvent>, a: nat, rest: nat, id: nat)
    requires p.state != Closed && Moves(a, mem, rest + InSlots(p.unacked, id), id)
    ensures var e := Switch(p, s, tick, acks, mem); Moves(a, e.mem, rest + InSlots(e.port.unacked, id), id)
  {
    ResetMoves(rest, p.unacked, id);
    MovesTrans(a, mem, rest + InSlots(p.unacked, id), ResetMem(p.unacked), rest, id);
  }

  lemma ReceiveMoves(p: Port, s: Segment, tick: Tick, rest: nat, id: nat)
    requires p.state != Closed
    ensures var e := Receive(p, s, tick);
            Moves(rest + InSlots(p.unacked, id), e.mem, rest + InSlots(e.port.unacked, id), id)
  {
    if s.control.rst {
      ResetMoves(rest, p.unacked, id);
    } else if !Ignored(p, s) {
      AbsorbMoves(p, s, rest, id);
      SwitchMoves(Absorb(p, s), s, tick, AckFor(p, s), AbsorbMem(p, s), rest + InSlots(p.unacked, id), rest, id);
    }
  }

  lemma AbsorbMoves(p: Port, s: Segment, rest: nat, id: nat)
    ensures Moves(rest + InSlots(p.unacked, id), AbsorbMem(p, s), rest + InSlots(Absorb(p, s).unacked, id), id)
  {
    if AckAccepted(p, s) { ReleaseMoves(rest, p.unacked, s.ackNum, id); }
  }

  /** A row reset or still live after an arrival is well formed, and replies are for its own port. */
  lemma ReceiveRow(p: Port, s: Segment, tick: Tick)
    requires RowOk(p) && p.state != Closed
    ensures RowOk(Receive(p, s, tick).port)
  {
  }

  lemma ReceiveTxs(p: Port, s: Segment, tick: Tick)
    ensures var e := Receive(p, s, tick);
            |e.acks| <= 1 && |e.reliable| <= 1 &&
            (forall tx <- e.acks :: tx.to.self == p.id.self && tx.data == Null) &&
            (forall tx <- e.reliable :: tx.data == Null)
  {
  }

  lemma InputRows(e: Engine, s: Segment, tick: Tick)
    requires RowsOk(e) && Input(e, s, tick).Done?
    ensures RowsOk(Input(e, s, tick).e)
  {
    var i := Target(e.ports, s);
    if i < |e.ports| && e.ports[i].state != Closed {
      assert RowOk(e.ports[i]);
      var eff := Receive(e.ports[i], s, tick);
      ReceiveRow(e.ports[i], s, tick);
      ReceiveTxs(e.ports[i], s, tick);
      var r := Heeded(e, i, s, eff);
      RowsOkUpdate(e, i, eff.port, eff.acks, r);
      if eff.reliable != [] { EnqueueRows(r, eff.reliable[0]); }
    }
  }

  lemma InputMoves(e: Engine, s: Segment, tick: Tick, id: nat)
    requires Input(e, s, tick).Done?
    ensures Owns(e, 0, Input(e, s, tick).e, id)
  {
    var i := Target(e.ports, s);
    if i < |e.ports| && e.ports[i].state != Closed {
      var eff := Receive(e.ports[i], s, tick);
      HeededOwns(e, i, s, tick, id);
      var r := Heeded(e, i, s, eff);
      if eff.reliable != [] {
        ReceiveTxs(e.ports[i], s, tick);
        EnqueueOwns(r, eff.reliable[0], id);
        OwnsTrans(e, 0, r, Input(e, s, tick).e, id);
      }
    }
  }

  lemma HeededOwns(e: Engine, i: nat, s: Segment, tick: Tick, id: nat)
    requires i < |e.ports| && e.ports[i].state != Closed
    ensures Owns(e, 0, Heeded(e, i, s, Receive(e.ports[i], s, tick)), id)
  {
    var rest := Elsewhere(e.ports, i, id);
    ReceiveMoves(e.ports[i], s, tick, rest + InQueue(e.queue, id), id);
    ReceiveTxs(e.ports[i], s, tick);
    InputRowOwns(e, i, s, Receive(e.ports[i], s, tick), rest + InQueue(e.queue, id), id);
  }

  lemma InputOwns(e: Engine, s: Segment, tick: Tick, id: nat)
    requires RowsOk(e) && Input(e, s, tick).Done?
    ensures Owns(e, 0, Input(e, s, tick).e, id) && RowsOk(Input(e, s, tick).e)
  {
    InputMoves(e, s, tick, id);
    InputRows(e, s, tick);
  }

  lemma InputRowOwns(e: Engine, i: nat, s: Segment, eff: Effect, rest: nat, id: nat)
    requires i < |e.ports| && Held(e, id) == rest + InSlots(e.ports[i].unacked, id) && |eff.acks| <= 1
    requires forall tx <- eff.acks :: tx.data == Null
    requires Moves(rest + InSlots(e.ports[i].unacked, id), eff.mem, rest + InSlots(eff.port.unacked, id), id)
    ensures Owns(e, 0, Heeded(e, i, s, eff), id)
  {
    if |eff.acks| == 1 { InQueueOne(eff.acks[0], id); assert eff.acks == [eff.acks[0]]; }
    RowStep(e, i, rest, eff.port, eff.acks, eff.mem, Heeded(e, i, s, eff), 0, id);
  }

  // ----- commands -----

  lemma OpenOwns(e: Engine, p: Port, id: nat)
    requires RowsOk(e) && RowOk(p) && p.unacked == EMPTY_SLOTS && FindUnused(e.ports) < |e.ports|
    ensures var r := e.(ports := e.ports[FindUnused(e.ports) := p]); Owns(e, 0, r, id) && RowsOk(r)
  {
    var i := FindUnused(e.ports);
    assert RowOk(e.ports[i]);
    VacantOwnsNothing(e.ports[i].unacked, id);
    VacantOwnsNothing(p.unacked, id);
    InPortsUpdate(e.ports, i, p, id);
    var r := e.(ports := e.ports[i := p]);
    assert r.mem[|e.mem|..] == [];
  }

  lemma ConnectOwns(e: Engine, to: Triple, id: nat)
    requires RowsOk(e) && to.self != 0 && ConnectPort(e, to).Done?
    ensures Owns(e, 0, ConnectPort(e, to).e, id) && RowsOk(ConnectPort(e, to).e)
  {
    var i := FindUnused(e.ports);
    if i < |e.ports| {
      var p := FreshPort(to, SynSent);
      var r := e.(ports := e.ports[i := p]);
      OpenOwns(e, p, id);
      EnqueueOwns(r, ReplyTx(p, to.addr, SYN), id);
      EnqueueRows(r, ReplyTx(p, to.addr, SYN));
      OwnsTrans(e, 0, r, ConnectPort(e, to).e, id);
    } else {
      assert e.mem[|e.mem|..] == [];
    }
  }

  lemma ListenOwns(e: Engine, self: nat, id: nat)
    requires RowsOk(e) && self != 0
    ensures Owns(e, 0, ListenPort(e, self), id) && RowsOk(ListenPort(e, self))
  {
    if FindUnused(e.ports) < |e.ports| {
      OpenOwns(e, FreshPort(Triple(self, 0, 0), Listen), id);
    } else {
      assert e.mem[|e.mem|..] == [];
    }
  }

  lemma CloseOwns(e: Engine, to: Triple, id: nat)
    requires RowsOk(e) && to.self != 0 && ClosePort(e, to).Done?
    ensures Owns(e, 0, ClosePort(e, to).e, id) && RowsOk(ClosePort(e, to).e)
  {
    var i := FindPort(e.ports, to);
    if i < |e.ports| {
      assert RowOk(e.ports[i]);
      var p := e.ports[i].(state := FinWait1);
      var r := e.(ports := e.ports[i := p]);
      var rest := Elsewhere(e.ports, i, id);
      assert r.queue == e.queue + [] && r.mem == e.mem + [];
      RowStep(e, i, rest + InQueue(e.queue, id), p, [], [], r, 0, id);
      RowsOkUpdate(e, i, p, [], r);
      EnqueueOwns(r, ReplyTx(p, to.addr, FIN), id);
      EnqueueRows(r, ReplyTx(p, to.addr, FIN));
      OwnsTrans(e, 0, r, ClosePort(e, to).e, id);
    } else {
      assert e.mem[|e.mem|..] == [];
    }
  }

  // ----- the scan -----

  lemma AbandonMoves(p: Port, k: nat, tick: Tick, rest: nat, id: nat)
    requires k < |p.unacked| && p.unacked[k].inUse
    ensures var a, b, d := rest + InSlots(p.unacked, id), rest + InSlots(Abandon(p, k, tick).unacked, id),
            p.unacked[k].data;
            Moves(a, FreeOf(d), b, id) && Moves(a, ReadOf(d) + DropOf(d), b, id)
  {
    var b, d := rest + InSlots(Abandon(p, k, tick).unacked, id), p.unacked[k].data;
    InSlotsUpdate(p.unacked, k, Abandon(p, k, tick).unacked[k], id);
    FreeMoves(b, d, id);
    ReadDropMoves(b, d, id);
  }

  lemma RepeatMoves(p: Port, k: nat, tick: Tick, rest: nat, id: nat)
    requires k < |p.unacked| && p.unacked[k].inUse
    ensures Moves(rest + InSlots(p.unacked, id), ReadOf(p.unacked[k].data),
                  rest + InSlots(p.unacked[k := p.unacked[k].(sentAt := tick)], id), id)
  {
    var u := p.unacked[k];
    var gone := u.(inUse := false);
    InSlotsUpdate(p.unacked, k, u.(sentAt := tick), id);
    InSlotsUpdate(p.unacked, k, gone, id);
    ReadMoves(rest + InSlots(p.unacked[k := gone], id), u.data, id);
  }

  lemma RetryMoves(self: Addr, p: Port, ack: nat, k: nat, tick: Tick, env: Env, rest: nat, id: nat)
    requires k < |p.unacked|
    ensures var r := Retry(self, p, ack, k, tick, env);
            Moves(rest + InSlots(p.unacked, id), r.mem, rest + InSlots(r.port.unacked, id), id)
  {
    if Due(p.unacked[k], tick) {
      if env.allocOk && env.ipv4Ok {
        RepeatMoves(p, k, tick, rest, id);
      } else {
        AbandonMoves(p, k, tick, rest, id);
      }
    }
  }

  /** The retransmissions `r` started from `p` account for what they touched. */
  predicate Accounts(rest: nat, p: Port, r: RetryResult, id: nat) {
    Moves(rest + InSlots(p.unacked, id), r.mem, rest + InSlots(r.port.unacked, id), id)
  }

  lemma RetryChain(rest: nat, p: Port, r: RetryResult, x: RetryResult, id: nat)
    requires Accounts(rest, p, r, id) && Accounts(rest, r.port, x, id)
    ensures Accounts(rest, p, RetryResult(x.port, r.sent + x.sent, r.mem + x.mem), id)
  {
    MovesTrans(rest + InSlots(p.unacked, id), r.mem, rest + InSlots(r.port.unacked, id), x.mem,
               rest + InSlots(x.port.unacked, id), id);
  }

  lemma RetryAccounts(self: Addr, p: Port, ack: nat, k: nat, tick: Tick, env: Env, rest: nat, id: nat, x: RetryResult)
    requires k < |p.unacked| && x == Retry(self, p, ack, k, tick, env)
    ensures Accounts(rest, p, x, id)
  {
    RetryMoves(self, p, ack, k, tick, env, rest, id);
  }

  lemma RetryNothing(rest: nat, p: Port, id: nat)
    ensures Accounts(rest, p, RetryResult(p, [], []), id)
  {
  }

  lemma {:induction false} RetryAllAccounts(self: Addr, p: Port, ack: nat, tick: Tick, envs: seq<Env>, n: nat,
                                            rest: nat, id: nat)
    requires n <= |envs| && n <= |p.unacked|
    ensures Accounts(rest, p, RetryAll(self, p, ack, tick, envs, n), id)
  {
    if n == 0 {
      RetryNothing(rest, p, id);
    } else {
      RetryAllAccounts(self, p, ack, tick, envs, n - 1, rest, id);
      RetryLastAccounts(self, p, ack, tick, envs, n, rest, id, RetryAll(self, p, ack, tick, envs, n - 1));
    }
  }

  lemma RetryLastAccounts(self: Addr, p: Port, ack: nat, tick: Tick, envs: seq<Env>, n: nat, rest: nat, id: nat,
                          r: RetryResult)
    requires 0 < n <= |envs| && n <= |p.unacked| && r == RetryAll(self, p, ack, tick, envs, n - 1)
    requires Accounts(rest, p, r, id)
    ensures Accounts(rest, p, RetryAll(self, p, ack, tick, envs, n), id)
  {
    var x := Retry(self, r.port, ack, n - 1, tick, envs[n - 1]);
    assert Accounts(rest, r.port, x, id) by {
      RetryAccounts(self, r.port, ack, n - 1, tick, envs[n - 1], rest, id, x);
    }
    RetryChain(rest, p, r, x, id);
  }

  lemma {:induction false} RetryAllRow(self: Addr, p: Port, ack: nat, tick: Tick, envs: seq<Env>, n: nat)
    requires n <= |envs| && n <= |p.unacked|
    ensures RetryAll(self, p, ack, tick, envs, n).port.id == p.id &&
            RetryAll(self, p, ack, tick, envs, n).port.state == p.state
  {
    if n > 0 { RetryAllRow(self, p, ack, tick, envs, n - 1); }
  }

  lemma OwnsRefl(e: Engine, id: nat)
    ensures Owns(e, 0, e, id)
  {
    assert e.mem[|e.mem|..] == [];
  }

  lemma ScanPortOwns(e: Engine, p: nat, tick: Tick, envs: seq<Env>, id: nat)
    requires RowsOk(e) && p < |e.ports| && |envs| == MAX_UNACKED && |e.ports[p].unacked| == MAX_UNACKED
    ensures Owns(e, 0, ScanPort(e, p, tick, envs), id) && RowsOk(ScanPort(e, p, tick, envs))
  {
    var row := e.ports[p];
    assert RowOk(row);
    if row.id.self == 0 {
      OwnsRefl(e, id);
    } else {
      var rest := Elsewhere(e.ports, p, id);
      assert e.queue == e.queue + [];
      var ack := e.ports[FindPort(e.ports, row.id)].ackNum;
      RetryAllRow(e.self, row, ack, tick, envs, MAX_UNACKED);
      RetryAllAccounts(e.self, row, ack, tick, envs, MAX_UNACKED, rest + InQueue(e.queue, id), id);
      ResetMoves(rest + InQueue(e.queue, id), row.unacked, id);
      var r := RetryAll(e.self, row, ack, tick, envs, MAX_UNACKED);
      var next := if TimedOut(row, tick) then Reset(row) else r.port;
      RowStep(e, p, rest + InQueue(e.queue, id), next, [], if TimedOut(row, tick) then ResetMem(row.unacked) else r.mem,
              ScanPort(e, p, tick, envs), 0, id);
      RowsOkUpdate(e, p, next, [], ScanPort(e, p, tick, envs));
    }
  }

  lemma {:induction false} ScanPortsOwns(e: Engine, tick: Tick, envs: seq<seq<Env>>, n: nat, id: nat)
    requires RowsOk(e) && Scannable(e, envs) && n <= MAX_PORTS
    ensures Owns(e, 0, ScanPorts(e, tick, envs, n), id) && RowsOk(ScanPorts(e, tick, envs, n))
  {
    if n == 0 {
      OwnsRefl(e, id);
    } else {
      ScanPortsOwns(e, tick, envs, n - 1, id);
      var f := ScanPorts(e, tick, envs, n - 1);
      ScanPortOwns(f, n - 1, tick, envs[n - 1], id);
      OwnsTrans(e, 0, f, ScanPorts(e, tick, envs, n), id);
    }
  }

  lemma HandleOwns(e: Engine, ev: Event, tick: Tick, id: nat)
    requires RowsOk(e) && Admissible(e, ev) && Handle(e, ev, tick).Done?
    ensures Owns(e, 0, Handle(e, ev, tick).e, id) && RowsOk(Handle(e, ev, tick).e)
  {
    match ev
    case Sends(to, data) => AppSendOwns(e, to, data, id); AppSendRows(e, to, data);
    case Serves(env) => ServeOwns(e, tick, env, id);
    case Hears(s) => InputOwns(e, s, tick, id);
    case Connects(to) => ConnectOwns(e, to, id);
    case Listens(self) => ListenOwns(e, self, id);
    case Closes(to) => CloseOwns(e, to, id);
    case Scans(envs) => ScanPortsOwns(e, tick, envs, MAX_PORTS, id);
  }

  // ----- every run -----

  lemma {:induction false} UnusedPortsOwnNothing(ports: seq<Port>, id: nat)
    requires forall i :: 0 <= i < |ports| ==> ports[i].unacked == EMPTY_SLOTS
    ensures InPorts(ports, id) == 0
  {
    if ports != [] {
      VacantOwnsNothing(ports[|ports| - 1].unacked, id);
      UnusedPortsOwnNothing(ports[..|ports| - 1], id);
    }
  }

  lemma {:induction false} RunOwns(es: seq<Engine>, ats: seq<At>, n: nat, id: nat)
    requires IsTableRun(es, ats) && n < |es|
    ensures RowsOk(es[n]) && Moves(0, es[n].mem, Held(es[n], id), id)
  {
    if n == 0 {
      UnusedPortsOwnNothing(es[0].ports, id);
    } else {
      RunOwns(es, ats, n - 1, id);
      var e, r := es[n - 1], es[n];
      assert HandlesAt(es, ats, n - 1);
      HandleOwns(e, ats[n - 1].ev, ats[n - 1].tick, id);
      MovesTrans(0, e.mem, Held(e, id), r.mem[|e.mem|..], Held(r, id), id);
      assert r.mem == e.mem + r.mem[|e.mem|..];
    }
  }

  /** Buffer ownership in every run, with allocation failures and queue refusals: a payload given to `tcp_send` once is
      freed at most once and never read, freed or dropped after its release, and at any time what was given equals what
      is still owned plus what was released. */
  lemma BufferOwnership(es: seq<Engine>, ats: seq<At>, n: nat, id: nat)
    requires IsTableRun(es, ats) && n < |es| && Given(es[n].mem, id) <= 1
    ensures Held(es[n], id) + Released(es[n].mem, id) == Given(es[n].mem, id)
    ensures forall i, j :: 0 <= i < j < |es[n].mem| && (es[n].mem[i] == Free(id) || es[n].mem[i] == Drop(id)) ==>
              es[n].mem[j].id != id || es[n].mem[j].Give?
  {
    RunOwns(es, ats, n, id);
    ReplayConserves(es[n].mem, id);
    forall i, j | 0 <= i < j < |es[n].mem| && (es[n].mem[i] == Free(id) || es[n].mem[i] == Drop(id))
      ensures es[n].mem[j].id != id || es[n].mem[j].Give?
    {
      NothingAfterRelease(es[n].mem, i, j, id);
    }
  }
}
