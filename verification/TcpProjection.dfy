/** Each step of the whole table is, seen from one triple, a step of that triple's connection or nothing at all. */
module TcpProjection {
  import opened TcpPort
  import opened TcpConnection
  import opened TcpSoundness
  import opened TcpEngine
  import opened TcpDemux
  import opened TcpListeners

  // ----- what belongs to a triple -----

  datatype Row = NoRow | Row(p: Port)

  function RowFor(ports: seq<Port>, t: Triple): Row {
    var i := FindPort(ports, t);
    if i < |ports| then Row(ports[i]) else NoRow
  }

  function QueueFor(q: seq<Tx>, t: Triple): seq<Tx> {
    if q == [] then [] else (if q[0].to == t then [q[0]] else []) + QueueFor(q[1..], t)
  }

  predicate OnTriple(s: Segment, t: Triple) { s.srcPort == t.self && s.dstPort == t.other && s.dstAddr == t.addr }

  function SentFor(sent: seq<Segment>, t: Triple): seq<Segment> {
    if sent == [] then []
    else SentFor(sent[..|sent| - 1], t) + if OnTriple(sent[|sent| - 1], t) then [sent[|sent| - 1]] else []
  }

  function CallsFor(calls: seq<Call>, t: Triple): seq<Callback> {
    if calls == [] then []
    else CallsFor(calls[..|calls| - 1], t) + if calls[|calls| - 1].id == t then [calls[|calls| - 1].what] else []
  }

  lemma {:induction false} QueueForAppend(q: seq<Tx>, r: seq<Tx>, t: Triple)
    ensures QueueFor(q + r, t) == QueueFor(q, t) + QueueFor(r, t)
  {
    if q == [] {
      assert q + r == r;
    } else {
      assert (q + r)[1..] == q[1..] + r;
      QueueForAppend(q[1..], r, t);
    }
  }

  lemma {:induction false} QueueForAll(q: seq<Tx>, t: Triple)
    requires forall i :: 0 <= i < |q| ==> q[i].to == t
    ensures QueueFor(q, t) == q
  {
    if q != [] { QueueForAll(q[1..], t); }
  }

  lemma {:induction false} QueueForNone(q: seq<Tx>, t: Triple)
    requires forall i :: 0 <= i < |q| ==> q[i].to != t
    ensures QueueFor(q, t) == []
  {
    if q != [] { QueueForNone(q[1..], t); }
  }

  lemma SentForOne(sent: seq<Segment>, s: Segment, t: Triple)
    ensures SentFor(sent + [s], t) == SentFor(sent, t) + if OnTriple(s, t) then [s] else []
  {
    assert (sent + [s])[..|sent + [s]| - 1] == sent;
  }

  lemma CallsForOne(calls: seq<Call>, c: Call, t: Triple)
    ensures CallsFor(calls + [c], t) == CallsFor(calls, t) + if c.id == t then [c.what] else []
  {
    assert (calls + [c])[..|calls + [c]| - 1] == calls;
  }

  /** Replacing row `j`, as seen from triple `t`. */
  lemma RowForUpdate(ports: seq<Port>, j: nat, p: Port, t: Triple)
    requires j < |ports|
    ensures ports[j].id != t && p.id != t ==> RowFor(ports[j := p], t) == RowFor(ports, t)
    ensures p.id == t && (FindPort(ports, t) == j || FindPort(ports, t) == |ports|) ==>
            RowFor(ports[j := p], t) == Row(p)
  {
    var i, k := FindPort(ports, t), FindPort(ports[j := p], t);
    if ports[j].id != t && p.id != t {
      assert i < |ports| ==> ports[j := p][i].id == t;
      assert k < |ports| ==> ports[k].id == t;
    }
    if p.id == t && (i == j || i == |ports|) {
      assert ports[j := p][j].id == t;
    }
  }

  lemma RowForReset(ports: seq<Port>, j: nat, p: Port, t: Triple)
    requires Distinct(ports) && Remote(t) && j < |ports| && ports[j].id == t && p.id != t
    ensures RowFor(ports[j := p], t) == NoRow
  {
    assert forall k :: 0 <= k < |ports| && k != j ==> ports[k].id != t;
  }

  /** Everything a table holds for one triple. */
  datatype View = View(self: Addr, row: Row, queue: seq<Tx>, sent: seq<Segment>, calls: seq<Callback>)

  function ViewOf(e: Engine, t: Triple): View {
    View(e.self, RowFor(e.ports, t), QueueFor(e.queue, t), SentFor(e.sent, t), CallsFor(e.calls, t))
  }

  predicate ViewShows(v: View, t: Triple, c: Conn) {
    c.self == v.self && c.id == t && c.sent == v.sent && c.hist.trace == v.calls &&
    (c.phase == Live ==> v.row == Row(c.port) && c.queue == v.queue) &&
    (c.phase != Live ==> v.row == NoRow) &&
    (c.phase == Idle ==> v.queue == [] && c.queue == [])
  }

  /** `c` is what table `e` holds for triple `t`. */
  predicate Shows(e: Engine, t: Triple, c: Conn) { ViewShows(ViewOf(e, t), t, c) }

  /** Nothing about triple `t` differs. */
  predicate Alike(e: Engine, r: Engine, t: Triple) { ViewOf(e, t) == ViewOf(r, t) }

  lemma AlikeShows(e: Engine, r: Engine, t: Triple, c: Conn)
    requires Shows(e, t, c) && Alike(e, r, t)
    ensures Shows(r, t, c)
  {
  }

  // ----- enqueueing -----

  lemma EnqueueElsewhere(e: Engine, tx: Tx, t: Triple)
    requires tx.to != t && Enqueue(e, tx).Done?
    ensures Alike(e, Enqueue(e, tx).e, t)
  {
    var i := FindPort(e.ports, tx.to);
    if i < |e.ports| {
      var q := EnqueueOn(e.ports[i], tx, Room(e));
      RowForUpdate(e.ports, i, q.port, t);
      QueueForAppend(e.queue, q.queued, t);
      QueueForNone(q.queued, t);
    }
  }

  lemma EnqueueShows(e: Engine, tx: Tx, c: Conn)
    requires Shows(e, tx.to, c) && c.phase == Live && c.port.state != Closed && Enqueue(e, tx).Done?
    ensures c.port.sem > 0 && Shows(Enqueue(e, tx).e, tx.to, DoEnqueue(c, tx, Room(e)))
  {
    var i := FindPort(e.ports, tx.to);
    var q := EnqueueOn(e.ports[i], tx, Room(e));
    RowForUpdate(e.ports, i, q.port, tx.to);
    QueueForAppend(e.queue, q.queued, tx.to);
    QueueForAll(q.queued, tx.to);
  }

  lemma EnqueueNoRow(e: Engine, tx: Tx)
    requires RowFor(e.ports, tx.to) == NoRow
    ensures Enqueue(e, tx).Done? && Alike(e, Enqueue(e, tx).e, tx.to)
  {
  }

  // ----- application sends and the send queue -----

  lemma AppSendShows(e: Engine, id: Triple, data: Payload, t: Triple, c: Conn, now: nat)
    returns (d: Conn, moved: bool, step: Step)
    requires Distinct(e.ports) && Remote(t) && Shows(e, t, c) && c.now <= now
    ensures Shows(AppSend(e, id, data), t, d) && Follows(c, d, moved, step, now) && d.phase == c.phase
    ensures step.Send? && step.data == data && (moved ==> id == t)
  {
    var given := e.(mem := e.mem + GiveOf(data));
    var tx := DataTx(id, data);
    moved, step, d := false, Send(data, 0), c;
    AlikeShows(e, given, t, c);
    if id != t {
      if Enqueue(given, tx).Done? { EnqueueElsewhere(given, tx, t); }
      assert Alike(e, AppSend(e, id, data), t);
    } else if c.phase != Live {
      EnqueueNoRow(given, tx);
    } else {
      moved, step := true, Send(data, Room(e));
      d := Next(c, step, now);
      assert RowKind(c.port);
      if c.port.sem > 0 { EnqueueShows(given, tx, c.(now := now)); }
    }
  }

  /** `d` is `c` itself, or `c` after an enabled step. */
  predicate Follows(c: Conn, d: Conn, moved: bool, step: Step, now: nat) {
    if moved then c.now <= now && Enabled(c.(now := now), step) && d == Next(c, step, now) else d == c
  }

  predicate HearsStep(step: Step) { step.Arrive? || step.Accept? }

  lemma SendElsewhere(e: Engine, tx: Tx, tick: Tick, env: Env, t: Triple)
    requires tx.to != t
    ensures Alike(e, SendFirst(e, tx, tick, env), t)
  {
    var i := FindPort(e.ports, tx.to);
    if env.allocOk && i < |e.ports| {
      var s := SendOn(e.self, e.ports[i], tx, tick);
      if s.Sent? {
        RowForUpdate(e.ports, i, s.port, t);
        SentForOne(e.sent, s.segment, t);
      }
    }
  }

  lemma SendNoRow(e: Engine, tx: Tx, tick: Tick, env: Env)
    requires RowFor(e.ports, tx.to) == NoRow
    ensures Alike(e, SendFirst(e, tx, tick, env), tx.to)
  {
  }

  /** Row `i` of the live connection `c` replaced, with a segment perhaps sent. */
  lemma SentShows(e: Engine, c: Conn, i: nat, p: Port, sent: seq<Segment>, r: Engine, d: Conn)
    requires Shows(e, c.id, c) && c.phase == Live && i == FindPort(e.ports, c.id) && p.id == c.id && |sent| <= 1
    requires forall s <- sent :: OnTriple(s, c.id)
    requires r.self == e.self && r.ports == e.ports[i := p] && r.queue == e.queue && r.calls == e.calls
    requires r.sent == e.sent + sent && d == c.(port := p, sent := c.sent + sent, hist := d.hist)
    requires d.hist.trace == c.hist.trace
    ensures Shows(r, c.id, d)
  {
    RowForUpdate(e.ports, i, p, c.id);
    if sent == [] {
      assert e.sent + sent == e.sent && c.sent + sent == c.sent;
    } else {
      assert sent == [sent[0]];
      SentForOne(e.sent, sent[0], c.id);
    }
  }

  /** What a transmission sends. */
  function Output(res: SendResult, ipv4Ok: bool): seq<Segment> {
    if res.Sent? && ipv4Ok then [res.segment] else []
  }

  /** A first transmission as the table and as the connection see it. */
  lemma SendFirstEffect(e: Engine, i: nat, tx: Tx, tick: Tick, env: Env, res: SendResult)
    requires i == FindPort(e.ports, tx.to) < |e.ports| && env.allocOk && res == SendOn(e.self, e.ports[i], tx, tick)
    ensures var r := SendFirst(e, tx, tick, env);
            r.self == e.self && r.ports == e.ports[i := if res.Sent? then res.port else e.ports[i]] &&
            r.queue == e.queue && r.calls == e.calls && r.sent == e.sent + Output(res, env.ipv4Ok)
  {
    assert e.sent + [] == e.sent && e.ports[i := e.ports[i]] == e.ports;
  }

  lemma DoTransmitEffect(c: Conn, env: Env, res: SendResult)
    requires c.queue != [] && env.allocOk && res == SendOn(c.self, c.port, c.queue[0], TickOf(c.now))
    ensures var d := DoTransmit(c, env);
            d == c.(queue := c.queue[1..], port := if res.Sent? then res.port else c.port,
                    sent := c.sent + Output(res, env.ipv4Ok), hist := d.hist) &&
            d.hist.trace == c.hist.trace
  {
    assert c.sent + [] == c.sent;
  }

  lemma SendOnFields(self: Addr, p: Port, tx: Tx, tick: Tick, res: SendResult)
    requires res == SendOn(self, p, tx, tick) && res.Sent?
    ensures res.port.id == p.id && OnTriple(res.segment, tx.to)
  {
  }

  /** The head of the queue belongs to the live connection `c`. */
  lemma SendShows(e: Engine, tx: Tx, env: Env, c: Conn, before: Conn)
    requires Shows(e, tx.to, c) && c.phase == Live && before == c.(queue := [tx] + c.queue)
    ensures Shows(SendFirst(e, tx, TickOf(c.now), env), tx.to, DoTransmit(before, env))
  {
    assert before.queue[1..] == c.queue;
    if env.allocOk {
      var i := FindPort(e.ports, tx.to);
      var res := SendOn(e.self, e.ports[i], tx, TickOf(c.now));
      SendFirstEffect(e, i, tx, TickOf(c.now), env, res);
      DoTransmitEffect(before, env, res);
      if res.Sent? { SendOnFields(e.self, e.ports[i], tx, TickOf(c.now), res); }
      SentShows(e, c, i, if res.Sent? then res.port else e.ports[i], Output(res, env.ipv4Ok),
                SendFirst(e, tx, TickOf(c.now), env), DoTransmit(before, env));
    }
  }

  lemma ServeLive(e: Engine, env: Env, c: Conn, now: nat)
    requires Shows(e, c.id, c) && c.phase == Live && c.now <= now && e.queue != [] && e.queue[0].to == c.id
    ensures c.queue != [] && c.queue[0] == e.queue[0]
    ensures Shows(ServeQueue(e, TickOf(now), env), c.id, DoTransmit(c.(now := now), env))
  {
    var tx := e.queue[0];
    assert c.queue == [tx] + QueueFor(e.queue[1..], c.id);
    SendShows(e.(queue := e.queue[1..]), tx, env, c.(queue := c.queue[1..], now := now), c.(now := now));
  }

  lemma ServeShows(e: Engine, env: Env, t: Triple, c: Conn, now: nat) returns (d: Conn, moved: bool, step: Step)
    requires Shows(e, t, c) && c.now <= now && e.queue != []
    ensures Shows(ServeQueue(e, TickOf(now), env), t, d) && Follows(c, d, moved, step, now) && step == Transmit(env) &&
            (moved ==> c.queue != [] && c.queue[0] == e.queue[0]) && d.phase == c.phase
    ensures moved <==> e.queue[0].to == t && c.phase == Live
  {
    var tx := e.queue[0];
    moved, step, d := false, Transmit(env), c;
    if tx.to == t && c.phase == Live {
      ServeLive(e, env, c, now);
      moved, d := true, DoTransmit(c.(now := now), env);
    } else {
      ServeElsewhere(e, env, TickOf(now), t);
    }
  }

  lemma ServeElsewhere(e: Engine, env: Env, tick: Tick, t: Triple)
    requires e.queue != [] && (e.queue[0].to != t || RowFor(e.ports, t) == NoRow)
    ensures ViewOf(ServeQueue(e, tick, env), t) == ViewOf(e, t).(queue := QueueFor(e.queue[1..], t))
    ensures e.queue[0].to != t ==> QueueFor(e.queue[1..], t) == QueueFor(e.queue, t)
    ensures QueueFor(e.queue, t) == [] ==> QueueFor(e.queue[1..], t) == []
  {
    var popped := e.(queue := e.queue[1..]);
    if e.queue[0].to != t {
      SendElsewhere(popped, e.queue[0], tick, env, t);
    } else {
      SendNoRow(popped, e.queue[0], tick, env);
    }
  }

  // ----- arrivals -----

  lemma {:induction false} CallsForBlock(calls: seq<Call>, id: Triple, cs: seq<Callback>, t: Triple)
    ensures CallsFor(calls + Calls(id, cs), t) == CallsFor(calls, t) + if id == t then cs else []
  {
    if cs == [] {
      assert calls + Calls(id, cs) == calls;
    } else {
      var n := |cs| - 1;
      CallsForBlock(calls, id, cs[..n], t);
      assert calls + Calls(id, cs) == calls + Calls(id, cs[..n]) + [Call(id, cs[n])];
      CallsForOne(calls + Calls(id, cs[..n]), Call(id, cs[n]), t);
    }
  }

  function Source(s: Segment): Triple { Triple(s.dstPort, s.srcPort, s.srcAddr) }

  lemma HeededElsewhere(e: Engine, i: nat, s: Segment, eff: Effect, t: Triple)
    requires i < |e.ports| && Source(s) != t && e.ports[i].id != t && eff.port.id != t &&
             (forall tx <- eff.acks :: tx.to != t)
    ensures Alike(e, Heeded(e, i, s, eff), t)
  {
    RowForUpdate(e.ports, i, eff.port, t);
    QueueForAppend(e.queue, eff.acks, t);
    QueueForNone(eff.acks, t);
    CallsForBlock(e.calls, Source(s), eff.calls, t);
  }

  /** Seen from another triple an arrival changes nothing. */
  lemma InputElsewhere(e: Engine, s: Segment, tick: Tick, t: Triple)
    requires Distinct(e.ports) && Fresh(e, Hears(s)) && Remote(t) && Source(s) != t && Input(e, s, tick).Done?
    ensures Alike(e, Input(e, s, tick).e, t)
  {
    var i := Target(e.ports, s);
    if i < |e.ports| && e.ports[i].state != Closed {
      var p := e.ports[i];
      assert RowKind(p);
      var eff := Receive(p, s, tick);
      if p.state == Listen {
        ListenerKind(p, s, tick);
      } else {
        ReceiveKind(p, s, tick);
        ReceiveReplyCount(p, s, tick);
      }
      HeededElsewhere(e, i, s, eff, t);
      if eff.reliable != [] { EnqueueElsewhere(Heeded(e, i, s, eff), eff.reliable[0], t); }
    }
  }

  /** The arrival up to its acknowledgement, as seen from its own live connection. */
  lemma HeededShows(e: Engine, i: nat, s: Segment, eff: Effect, c: Conn, room: nat)
    requires Distinct(e.ports) && Remote(c.id) && Source(s) == c.id && Shows(e, c.id, c) && c.phase == Live
    requires i == FindPort(e.ports, c.id) && |eff.acks| <= room && eff.reliable == []
    requires (forall tx <- eff.acks :: tx.to == c.id) && RowKind(eff.port) &&
             (eff.port.id.self == 0 || eff.port.id == c.id)
    ensures Shows(Heeded(e, i, s, eff), c.id, Heard(c, eff, room))
  {
    var r := Heeded(e, i, s, eff);
    if eff.port.id == c.id {
      RowForUpdate(e.ports, i, eff.port, c.id);
    } else {
      RowForReset(e.ports, i, eff.port, c.id);
    }
    QueueForAppend(e.queue, eff.acks, c.id);
    QueueForAll(eff.acks, c.id);
    CallsForBlock(e.calls, c.id, eff.calls, c.id);
    assert c.queue + eff.acks + [] == c.queue + eff.acks;
  }

  lemma HeardSplit(c: Conn, eff: Effect, room: nat)
    requires Fits(eff, room) && |eff.reliable| == 1 && eff.port.state != Closed
    ensures Heard(c, eff, room) == DoEnqueue(Heard(c, eff.(reliable := []), room), eff.reliable[0], room - |eff.acks|)
  {
    var d := Heard(c, eff.(reliable := []), room);
    assert c.queue + eff.acks + [] == d.queue;
  }

  /** What an arrival with effect `eff` on row `i` leads to. */
  function AfterArrival(e: Engine, i: nat, s: Segment, eff: Effect): Reply
    requires i < |e.ports|
  {
    var mid := Heeded(e, i, s, eff);
    if eff.reliable == [] then Done(mid) else Enqueue(mid, eff.reliable[0])
  }

  lemma EffectShows(e: Engine, i: nat, s: Segment, eff: Effect, c: Conn)
    requires Distinct(e.ports) && Remote(c.id) && Source(s) == c.id && Shows(e, c.id, c) && c.phase == Live
    requires i == FindPort(e.ports, c.id) && |eff.acks| <= Room(e) && |eff.reliable| <= 1
    requires (forall tx <- eff.acks :: tx.to == c.id) && (forall tx <- eff.reliable :: tx.to == c.id)
    requires RowKind(eff.port) && (eff.port.id.self == 0 || eff.port.id == c.id)
    requires eff.reliable != [] ==> eff.port.state != Closed
    requires AfterArrival(e, i, s, eff).Done?
    ensures Fits(eff, Room(e)) && Shows(AfterArrival(e, i, s, eff).e, c.id, Heard(c, eff, Room(e)))
  {
    HeededShows(e, i, s, eff.(reliable := []), c, Room(e));
    if eff.reliable != [] {
      var d := Heard(c, eff.(reliable := []), Room(e));
      EnqueueShows(Heeded(e, i, s, eff), eff.reliable[0], d);
      HeardSplit(c, eff, Room(e));
    }
  }

  lemma InputIs(e: Engine, s: Segment, tick: Tick, i: nat)
    requires i == Target(e.ports, s) < |e.ports| && e.ports[i].state != Closed && Input(e, s, tick).Done?
    ensures |Receive(e.ports[i], s, tick).acks| <= Room(e)
    ensures Input(e, s, tick) == AfterArrival(e, i, s, Receive(e.ports[i], s, tick))
  {
  }

  lemma ArriveShows(e: Engine, s: Segment, c: Conn)
    requires Distinct(e.ports) && Remote(c.id) && Source(s) == c.id && Shows(e, c.id, c) && c.phase == Live
    requires Input(e, s, TickOf(c.now)).Done?
    ensures Enabled(c, Arrive(s, Room(e)))
    ensures Shows(Input(e, s, TickOf(c.now)).e, c.id, Heard(c, Receive(c.port, s, TickOf(c.now)), Room(e)))
  {
    var i := FindPort(e.ports, c.id);
    assert RowKind(e.ports[i]) && e.ports[i] == c.port;
    ReceiveKind(c.port, s, TickOf(c.now));
    ReceiveReplyCount(c.port, s, TickOf(c.now));
    InputIs(e, s, TickOf(c.now), i);
    EffectShows(e, i, s, Receive(c.port, s, TickOf(c.now)), c);
  }

  predicate Accepts(e: Engine, s: Segment) {
    FindPort(e.ports, Source(s)) == |e.ports| && s.control.syn && !s.control.rst &&
    FindListening(e.ports, s.dstPort) < |e.ports|
  }

  lemma OpeningShows(e: Engine, i: nat, s: Segment, c: Conn, q: Port, tx: Tx)
    requires Shows(e, c.id, c) && c.phase == Idle && i < |e.ports| && FindPort(e.ports, c.id) == |e.ports|
    requires q.id == c.id == tx.to && q.state == SynReceived && q.sem > 0
    requires AfterArrival(e, i, s, Effect(q, [], [tx], [], [])).Done?
    ensures Shows(AfterArrival(e, i, s, Effect(q, [], [tx], [], [])).e, c.id,
                  Heard(c.(phase := Live), Effect(q, [], [tx], [], []), Room(e)))
  {
    var mid := Heeded(e, i, s, Effect(q, [], [tx], [], []));
    assert mid.queue == e.queue && mid.calls == e.calls;
    RowForUpdate(e.ports, i, q, c.id);
    EnqueueShows(mid, tx, c.(phase := Live, port := q));
    HeardOpening(c.(phase := Live), q, tx, Room(e));
  }

  lemma AcceptShows(e: Engine, s: Segment, c: Conn)
    requires ListenersFresh(e.ports)
    requires Distinct(e.ports) && Fresh(e, Hears(s)) && Remote(c.id) && Source(s) == c.id
    requires Shows(e, c.id, c) && c.phase == Idle
    requires Accepts(e, s) && Input(e, s, TickOf(c.now)).Done?
    ensures Enabled(c, Accept(s, Room(e)))
    ensures Shows(Input(e, s, TickOf(c.now)).e, c.id,
                  Heard(c.(phase := Live), Receive(Listener(c.id.self), s, TickOf(c.now)), Room(e)))
  {
    var i := FindListening(e.ports, s.dstPort);
    assert RowKind(e.ports[i]) && FreshListener(e.ports[i]);
    AcceptShape(c.id.self, s, TickOf(c.now));
    var eff := Receive(Listener(c.id.self), s, TickOf(c.now));
    InputIs(e, s, TickOf(c.now), i);
    OpeningShows(e, i, s, c, eff.port, eff.reliable[0]);
  }

  lemma InputShows(e: Engine, s: Segment, t: Triple, c: Conn, now: nat) returns (d: Conn, moved: bool, step: Step)
    requires ListenersFresh(e.ports)
    requires Distinct(e.ports) && Fresh(e, Hears(s)) && Remote(t) && Shows(e, t, c) && c.now <= now &&
             Input(e, s, TickOf(now)).Done?
    requires Source(s) == t && Accepts(e, s) ==> c.phase == Idle
    ensures Shows(Input(e, s, TickOf(now)).e, t, d) && Follows(c, d, moved, step, now)
    ensures HearsStep(step) && (moved ==> step.s == s && Source(s) == t)
    ensures d.phase != Idle <==> c.phase != Idle || (Source(s) == t && Accepts(e, s))
  {
    moved, step, d := false, Arrive(s, 0), c;
    if Source(s) != t {
      InputElsewhere(e, s, TickOf(now), t);
    } else if c.phase == Live {
      moved, step := true, Arrive(s, Room(e));
      ArriveShows(e, s, c.(now := now));
      d := Next(c, step, now);
    } else if Accepts(e, s) {
      moved, step := true, Accept(s, Room(e));
      AcceptShows(e, s, c.(now := now));
      d := Next(c, step, now);
    } else {
      RefusedShows(e, s, TickOf(now), t);
    }
  }

  lemma RefusedShows(e: Engine, s: Segment, tick: Tick, t: Triple)
    requires Distinct(e.ports) && Fresh(e, Hears(s)) && Remote(t) && Source(s) == t && RowFor(e.ports, t) == NoRow &&
             !Accepts(e, s)
    requires Input(e, s, tick).Done?
    ensures Alike(e, Input(e, s, tick).e, t)
  {
    var i := Target(e.ports, s);
    if i < |e.ports| {
      assert RowKind(e.ports[i]);
      ListenerKind(e.ports[i], s, tick);
      var eff := Receive(e.ports[i], s, tick);
      RowForUpdate(e.ports, i, eff.port, t);
      assert e.queue + eff.acks == e.queue && e.calls + Calls(t, eff.calls) == e.calls;
    }
  }

  // ----- commands -----

  lemma ConnectShows(e: Engine, id: Triple, t: Triple, c: Conn, now: nat) returns (d: Conn, moved: bool, step: Step)
    requires Distinct(e.ports) && Fresh(e, Connects(id)) && Remote(t) && Shows(e, t, c) && c.now <= now &&
             ConnectPort(e, id).Done?
    requires id == t && FindUnused(e.ports) < |e.ports| ==> c.phase == Idle
    ensures Shows(ConnectPort(e, id).e, t, d) && Follows(c, d, moved, step, now) && step.Connect? && (moved ==> id == t)
    ensures d.phase != Idle <==> c.phase != Idle || (id == t && FindUnused(e.ports) < |e.ports|)
  {
    moved, step, d := false, Connect(Room(e)), c;
    var i := FindUnused(e.ports);
    if i < |e.ports| {
      var p := FreshPort(id, SynSent);
      var mid := e.(ports := e.ports[i := p]);
      RowForUpdate(e.ports, i, p, t);
      if id != t {
        EnqueueElsewhere(mid, ReplyTx(p, id.addr, SYN), t);
      } else {
        moved := true;
        d := Next(c, step, now);
        EnqueueShows(mid, ReplyTx(p, id.addr, SYN), c.(now := now, phase := Live, active := true, port := p));
      }
    }
  }

  lemma CloseShows(e: Engine, id: Triple, t: Triple, c: Conn, now: nat) returns (d: Conn, moved: bool, step: Step)
    requires Distinct(e.ports) && Remote(t) && Shows(e, t, c) && c.now <= now && ClosePort(e, id).Done?
    ensures Shows(ClosePort(e, id).e, t, d) && Follows(c, d, moved, step, now) && step.Close? && d.phase == c.phase
    ensures moved ==> id == t
    ensures id == t && c.phase == Live ==> moved
  {
    moved, step, d := false, Close(Room(e)), c;
    var i := FindPort(e.ports, id);
    if i < |e.ports| {
      var p := e.ports[i].(state := FinWait1);
      var mid := e.(ports := e.ports[i := p]);
      RowForUpdate(e.ports, i, p, t);
      if id != t {
        EnqueueElsewhere(mid, ReplyTx(p, id.addr, FIN), t);
      } else {
        moved := true;
        EnqueueShows(mid, ReplyTx(p, id.addr, FIN), c.(now := now, port := p));
        d := Next(c, step, now);
      }
    }
  }

  // ----- the scan -----

  lemma {:induction false} SentForOther(sent: seq<Segment>, more: seq<Segment>, t: Triple)
    requires forall i :: 0 <= i < |more| ==> !OnTriple(more[i], t)
    ensures SentFor(sent + more, t) == SentFor(sent, t)
  {
    if more == [] {
      assert sent + more == sent;
    } else {
      var n := |more| - 1;
      SentForOther(sent, more[..n], t);
      SentForOne(sent + more[..n], more[n], t);
      LastJoined(sent, more);
    }
  }

  lemma {:induction false} SentForOwn(sent: seq<Segment>, more: seq<Segment>, t: Triple)
    requires forall i :: 0 <= i < |more| ==> OnTriple(more[i], t)
    ensures SentFor(sent + more, t) == SentFor(sent, t) + more
  {
    if more == [] {
      assert sent + more == sent;
    } else {
      var n := |more| - 1;
      SentForOwn(sent, more[..n], t);
      SentForOne(sent + more[..n], more[n], t);
      LastJoined(sent, more);
      LastJoined(SentFor(sent, t), more);
    }
  }

  lemma LastJoined(a: seq<Segment>, b: seq<Segment>)
    requires b != []
    ensures a + b == a + b[..|b| - 1] + [b[|b| - 1]]
  {
  }

  lemma {:induction false} RetryAllSent(self: Addr, p: Port, ack: nat, tick: Tick, envs: seq<Env>, n: nat)
    requires n <= |envs| && n <= |p.unacked|
    ensures forall s <- RetryAll(self, p, ack, tick, envs, n).sent :: OnTriple(s, p.id)
  {
    if n > 0 {
      RetryAllSent(self, p, ack, tick, envs, n - 1);
      RetryAllKind(self, p, ack, tick, envs, n - 1);
    }
  }

  /** The connection's own retransmission loop is the row's. */
  lemma {:induction false} ScanSlotsIsRetryAll(c: Conn, envs: seq<Env>, n: nat)
    requires n <= |envs| == MAX_UNACKED && |c.port.unacked| == MAX_UNACKED
    ensures var d := ScanSlots(c, envs, n);
            var r := RetryAll(c.self, c.port, c.port.ackNum, TickOf(c.now), envs, n);
            d.port == r.port && d.sent == c.sent + r.sent && d.hist.trace == c.hist.trace && d.self == c.self &&
            d.id == c.id &&
            d.phase == c.phase && d.queue == c.queue && d.now == c.now
  {
    if n > 0 {
      ScanSlotsIsRetryAll(c, envs, n - 1);
      RetryAllKind(c.self, c.port, c.port.ackNum, TickOf(c.now), envs, n - 1);
    } else {
      assert c.sent + [] == c.sent;
    }
  }

  lemma ScanPortElsewhere(e: Engine, p: nat, tick: Tick, envs: seq<Env>, t: Triple)
    requires Remote(t) && p < |e.ports| && |e.ports[p].unacked| == |envs| == MAX_UNACKED && e.ports[p].id != t
    ensures Alike(e, ScanPort(e, p, tick, envs), t)
  {
    var row := e.ports[p];
    if row.id.self != 0 {
      var ack := e.ports[FindPort(e.ports, row.id)].ackNum;
      RetryAllKind(e.self, row, ack, tick, envs, MAX_UNACKED);
      RetryAllSent(e.self, row, ack, tick, envs, MAX_UNACKED);
      var more := RetryAll(e.self, row, ack, tick, envs, MAX_UNACKED).sent;
      forall i | 0 <= i < |more| ensures !OnTriple(more[i], t) { assert OnTriple(more[i], row.id); }
      SentForOther(e.sent, more, t);
      RowForUpdate(e.ports, p, ScanPort(e, p, tick, envs).ports[p], t);
    }
  }

  lemma ScanPortShows(e: Engine, p: nat, envs: seq<Env>, c: Conn)
    requires Distinct(e.ports) && p < |e.ports| && |e.ports[p].unacked| == |envs| == MAX_UNACKED
    requires Remote(c.id) && Shows(e, c.id, c) && c.phase == Live && e.ports[p].id == c.id
    ensures Enabled(c, Scan(envs)) && Shows(ScanPort(e, p, TickOf(c.now), envs), c.id, DoScan(c, envs))
  {
    FindsItself(e.ports, p);
    if TimedOut(e.ports[p], TickOf(c.now)) {
      RowForReset(e.ports, p, Reset(e.ports[p]), c.id);
    } else {
      ScanSlotsIsRetryAll(c, envs, MAX_UNACKED);
      var r := RetryAll(c.self, c.port, c.port.ackNum, TickOf(c.now), envs, MAX_UNACKED);
      RetryAllKind(c.self, c.port, c.port.ackNum, TickOf(c.now), envs, MAX_UNACKED);
      RetryAllSent(c.self, c.port, c.port.ackNum, TickOf(c.now), envs, MAX_UNACKED);
      SentForOwn(e.sent, r.sent, c.id);
      RowForUpdate(e.ports, p, r.port, c.id);
    }
  }

  /** `f` is table `e` scanned up to row `n`, as the connection `c` in row `i` sees it. */
  ghost predicate ScannedTo(e: Engine, f: Engine, envs: seq<seq<Env>>, n: nat, c: Conn, i: nat)
    requires |e.ports| == |f.ports| == |envs| == MAX_PORTS && n <= MAX_PORTS && i <= MAX_PORTS
    requires i < |e.ports| ==> Enabled(c, Scan(envs[i]))
  {
    Shows(f, c.id, if n <= i then c else DoScan(c, envs[i])) &&
    forall k :: n <= k < MAX_PORTS ==> f.ports[k] == e.ports[k]
  }

  lemma ScanEnabled(e: Engine, envs: seq<seq<Env>>, c: Conn, i: nat)
    requires Distinct(e.ports) && Scannable(e, envs) && Shows(e, c.id, c)
    requires i == FindPort(e.ports, c.id) < |e.ports| && c.phase == Live
    ensures Enabled(c, Scan(envs[i]))
  {
    assert RowKind(e.ports[i]);
  }

  /** The scan up to row `n`: rows before the connection's own leave it alone, its own row scans it. */
  lemma {:induction false} ScanPortsShows(e: Engine, envs: seq<seq<Env>>, n: nat, c: Conn, i: nat)
    requires Distinct(e.ports) && Scannable(e, envs) && n <= MAX_PORTS && Remote(c.id) && Shows(e, c.id, c)
    requires i == FindPort(e.ports, c.id) && (i < |e.ports| <==> c.phase == Live)
    ensures i < |e.ports| ==> Enabled(c, Scan(envs[i]))
    ensures ScannedTo(e, ScanPorts(e, TickOf(c.now), envs, n), envs, n, c, i)
  {
    if i < |e.ports| { ScanEnabled(e, envs, c, i); }
    if n > 0 {
      ScanPortsShows(e, envs, n - 1, c, i);
      ScanPortsDistinct(e, TickOf(c.now), envs, n - 1);
      ScanNextShows(e, ScanPorts(e, TickOf(c.now), envs, n - 1), envs, n - 1, c, i);
    }
  }

  /** One more row of the scan. */
  lemma ScanNextShows(e: Engine, f: Engine, envs: seq<seq<Env>>, k: nat, c: Conn, i: nat)
    requires Distinct(e.ports) && Distinct(f.ports) && Scannable(f, envs) && k < MAX_PORTS && Remote(c.id)
    requires i == FindPort(e.ports, c.id) && (i < |e.ports| <==> c.phase == Live)
    requires i < |e.ports| ==> Enabled(c, Scan(envs[i]))
    requires ScannedTo(e, f, envs, k, c, i)
    ensures ScannedTo(e, ScanPort(f, k, TickOf(c.now), envs[k]), envs, k + 1, c, i)
  {
    assert RowKind(f.ports[k]) && f.ports[k] == e.ports[k];
    ScanPortLocal(f, k, TickOf(c.now), envs[k]);
    if k == i {
      ScanPortShows(f, i, envs[i], c);
    } else {
      NotMine(e.ports, k, c.id, i);
      ScanPortElsewhere(f, k, TickOf(c.now), envs[k], c.id);
      AlikeShows(f, ScanPort(f, k, TickOf(c.now), envs[k]), c.id, if k <= i then c else DoScan(c, envs[i]));
    }
  }

  lemma NotMine(ports: seq<Port>, k: nat, t: Triple, i: nat)
    requires Distinct(ports) && Remote(t) && i == FindPort(ports, t) && k < |ports| && k != i
    ensures ports[k].id != t
  {
  }

  lemma ScanPortLocal(e: Engine, p: nat, tick: Tick, envs: seq<Env>)
    requires p < |e.ports| && |e.ports[p].unacked| == |envs| == MAX_UNACKED
    ensures forall k :: 0 <= k < |e.ports| && k != p ==> ScanPort(e, p, tick, envs).ports[k] == e.ports[k]
  {
  }

  // ----- any step -----

  /** The event brings triple `t` to life. */
  predicate Opens(e: Engine, ev: Event, t: Triple) {
    (ev.Connects? && ev.id == t && FindUnused(e.ports) < |e.ports|) ||
    (ev.Hears? && Source(ev.s) == t && Accepts(e, ev.s))
  }

  lemma ListenShows(e: Engine, self: nat, t: Triple, c: Conn)
    requires Remote(t) && Shows(e, t, c)
    ensures Shows(ListenPort(e, self), t, c)
  {
    var i := FindUnused(e.ports);
    if i < |e.ports| { RowForUpdate(e.ports, i, FreshPort(Triple(self, 0, 0), Listen), t); }
  }

  lemma ScanShows(e: Engine, envs: seq<seq<Env>>, t: Triple, c: Conn, now: nat)
    returns (d: Conn, moved: bool, step: Step)
    requires Distinct(e.ports) && Remote(t) && Shows(e, t, c) && c.now <= now && Scannable(e, envs)
    ensures Shows(ScanPorts(e, TickOf(now), envs, MAX_PORTS), t, d) && Follows(c, d, moved, step, now)
    ensures moved ==> step.Scan?
    ensures d.phase != Idle <==> c.phase != Idle
  {
    var i := FindPort(e.ports, t);
    ScanPortsShows(e, envs, MAX_PORTS, c.(now := now), i);
    d, moved, step := c, false, Connect(0);
    if i < |e.ports| {
      d, moved, step := DoScan(c.(now := now), envs[i]), true, Scan(envs[i]);
      ScanLives(c.(now := now), envs[i]);
    }
  }

  lemma ScanLives(c: Conn, envs: seq<Env>)
    requires Enabled(c, Scan(envs))
    ensures DoScan(c, envs).phase != Idle
  {
    ScanKeepsPhase(c, envs, MAX_UNACKED);
  }

  /** The step of the connection that an event on its own triple is. */
  predicate Mirrors(ev: Event, t: Triple, step: Step) {
    match step
    case Connect(_) => ev.Connects? && ev.id == t
    case Accept(s, _) => ev == Hears(s) && Source(s) == t
    case Send(data, _) => ev == Sends(t, data)
    case Close(_) => ev == Closes(t)
    case Transmit(env) => ev == Serves(env)
    case Arrive(s, _) => ev == Hears(s) && Source(s) == t
    case Scan(_) => ev.Scans?
  }

  lemma HandleShows(e: Engine, ev: Event, t: Triple, c: Conn, now: nat, r: Engine)
    returns (d: Conn, moved: bool, step: Step)
    requires ListenersFresh(e.ports)
    requires Distinct(e.ports) && Admissible(e, ev) && Fresh(e, ev) && Handle(e, ev, TickOf(now)) == Done(r)
    requires Remote(t) && Shows(e, t, c) && c.now <= now && (Opens(e, ev, t) ==> c.phase == Idle)
    ensures Shows(r, t, d) && Follows(c, d, moved, step, now)
    ensures moved && HearsStep(step) ==> ev.Hears? && step.s == ev.s && Source(ev.s) == t
    ensures moved && ev.Hears? ==> HearsStep(step)
    ensures moved && step.Transmit? ==> ev.Serves? && e.queue[0].to == t && c.queue != [] && c.queue[0] == e.queue[0]
    ensures moved ==> Mirrors(ev, t, step)
    ensures ev == Closes(t) && c.phase == Live ==> moved
    ensures ev.Serves? ==> (moved <==> e.queue[0].to == t && c.phase == Live)
    ensures d.phase != Idle <==> c.phase != Idle || Opens(e, ev, t)
  {
    match ev
    case Sends(id, data) => d, moved, step := AppSendShows(e, id, data, t, c, now);
    case Serves(env) => d, moved, step := ServeShows(e, env, t, c, now);
    case Hears(s) => d, moved, step := InputShows(e, s, t, c, now);
    case Connects(id) => d, moved, step := ConnectShows(e, id, t, c, now);
    case Listens(self) =>
      d, moved, step := c, false, Connect(0);
      ListenShows(e, self, t, c);
    case Closes(id) => d, moved, step := CloseShows(e, id, t, c, now);
    case Scans(envs) => d, moved, step := ScanShows(e, envs, t, c, now);
  }
}
