/** What the numbered stream holds: past SYN and FIN it is the payloads of the accepted sends, in order, less those lost
    before they were recorded. */
module TcpStream {
  import opened NetTypes
  import opened TcpPort
  import opened TcpConnection
  import opened TcpSoundness
  import opened TcpTheorems

  /** The bytes among the items of a stream. */
  function DataOf(stream: seq<Item>): seq<Byte> {
    if stream == [] then []
    else DataOf(stream[..|stream| - 1]) + if stream[|stream| - 1].Data? then [stream[|stream| - 1].b] else []
  }

  lemma {:induction false} DataOfAppend(a: seq<Item>, b: seq<Item>)
    ensures DataOf(a + b) == DataOf(a) + DataOf(b)
  {
    if b == [] {
      assert a + b == a;
    } else {
      assert (a + b)[..|a + b| - 1] == a + b[..|b| - 1];
      DataOfAppend(a, b[..|b| - 1]);
    }
  }

  lemma {:induction false} DataOfText(bytes: seq<Byte>)
    ensures DataOf(Text(bytes)) == bytes
  {
    if bytes != [] {
      var n := |bytes| - 1;
      assert Text(bytes)[..n] == Text(bytes[..n]);
      DataOfText(bytes[..n]);
    }
  }

  /** A segment of application data, as `tcp_send` queues it. */
  predicate IsData(tx: Tx) { tx.control == ACK_PSH }

  function Payloads(q: seq<Tx>): seq<Chunk> {
    if q == [] then [] else (if IsData(q[0]) then [Bytes(q[0].data)] else []) + Payloads(q[1..])
  }

  lemma {:induction false} PayloadsAppend(q: seq<Tx>, r: seq<Tx>)
    ensures Payloads(q + r) == Payloads(q) + Payloads(r)
  {
    if q == [] {
      assert q + r == r;
    } else {
      assert (q + r)[1..] == q[1..] + r;
      PayloadsAppend(q[1..], r);
    }
  }

  lemma {:induction false} NoPayloads(q: seq<Tx>)
    requires forall i :: 0 <= i < |q| ==> !IsData(q[i])
    ensures Payloads(q) == []
  {
    if q != [] { NoPayloads(q[1..]); }
  }

  // ----- the account of a run -----

  /** What became of a payload when its turn came. */
  datatype Fate = Fate(bytes: Chunk, lost: bool)

  predicate Accepts(c: Conn, step: Step) { step.Send? && c.port.sem > 0 && c.port.state != Closed && step.room > 0 }

  function Accepted(c: Conn, step: Step): seq<Chunk> { if Accepts(c, step) then [Bytes(step.data)] else [] }

  function Served(c: Conn, step: Step): seq<Fate> {
    if step.Transmit? && c.queue != [] && IsData(c.queue[0]) then [Fate(Bytes(c.queue[0].data), Loses(c, step))] else []
  }

  function AllAccepted(cs: seq<Conn>, ts: seq<Timed>, n: nat): seq<Chunk>
    requires n <= |ts| && n <= |cs|
  {
    if n == 0 then [] else AllAccepted(cs, ts, n - 1) + Accepted(cs[n - 1], ts[n - 1].step)
  }

  function AllServed(cs: seq<Conn>, ts: seq<Timed>, n: nat): seq<Fate>
    requires n <= |ts| && n <= |cs|
  {
    if n == 0 then [] else AllServed(cs, ts, n - 1) + Served(cs[n - 1], ts[n - 1].step)
  }

  function Contents(fates: seq<Fate>): seq<Chunk> {
    if fates == [] then [] else Contents(fates[..|fates| - 1]) + [fates[|fates| - 1].bytes]
  }

  /** The bytes that were not lost, one after the other. */
  function Kept(fates: seq<Fate>): seq<Byte> {
    if fates == [] then []
    else Kept(fates[..|fates| - 1]) + if fates[|fates| - 1].lost then [] else fates[|fates| - 1].bytes
  }

  /** Accepted payloads are served in order or wait; the data of the stream is what was served and kept. */
  ghost predicate Account(queue: seq<Tx>, stream: seq<Item>, accepted: seq<Chunk>, served: seq<Fate>) {
    accepted == Contents(served) + Payloads(queue) && DataOf(stream) == Kept(served)
  }

  lemma {:induction false} EnqueuedAccount(q: seq<Tx>, more: seq<Tx>, stream: seq<Item>, accepted: seq<Chunk>,
                                           served: seq<Fate>)
    requires Account(q, stream, accepted, served)
    ensures Account(q + more, stream, accepted + Payloads(more), served)
  {
    PayloadsAppend(q, more);
    JoinAssoc(Contents(served), Payloads(q), Payloads(more));
  }

  lemma JoinAssoc(a: seq<Chunk>, b: seq<Chunk>, c: seq<Chunk>)
    ensures a + (b + c) == (a + b) + c
  {
  }

  lemma ServedOther(q: seq<Tx>, stream: seq<Item>, items: seq<Item>, accepted: seq<Chunk>, served: seq<Fate>)
    requires Account(q, stream, accepted, served) && q != [] && !IsData(q[0]) && DataOf(items) == []
    ensures Account(q[1..], stream + items, accepted, served)
  {
    DataOfAppend(stream, items);
  }

  lemma {:induction false} ServedData(q: seq<Tx>, stream: seq<Item>, accepted: seq<Chunk>, served: seq<Fate>,
                                      lost: bool)
    requires Account(q, stream, accepted, served) && q != [] && IsData(q[0])
    ensures Account(q[1..], stream + if lost then [] else Text(Bytes(q[0].data)), accepted,
                    served + [Fate(Bytes(q[0].data), lost)])
  {
    var bytes := Bytes(q[0].data);
    var more := served + [Fate(bytes, lost)];
    assert more[..|more| - 1] == served;
    DataOfText(bytes);
    DataOfAppend(stream, Text(bytes));
    assert stream + [] == stream;
    JoinAssoc(Contents(served), [bytes], Payloads(q[1..]));
  }

  lemma ControlItems(control: Control)
    ensures DataOf(Items(control, [])) == []
  {
    var s, f := if control.syn then [Syn] else [], if control.fin then [Fin] else [];
    assert Items(control, []) == s + f;
    DataOfAppend(s, f);
    assert [Syn][..0] == [] && [Fin][..0] == [];
  }

  /** What a transmission does to the queue and the stream. */
  lemma TransmitEffect(c: Conn, env: Env)
    requires Sound(c) && c.phase == Live && c.queue != []
    ensures var tx := c.queue[0];
            DoTransmit(c, env).queue == c.queue[1..] &&
            DoTransmit(c, env).hist.stream ==
              c.hist.stream +
              if env.allocOk && Consumes(tx.control, Bytes(tx.data)) > 0 then Items(tx.control, Bytes(tx.data)) else []
  {
    var tx := c.queue[0];
    assert TxOk(tx, c.id, c.hist.stream);
    assert c.hist.stream + [] == c.hist.stream;
    if env.allocOk && Consumes(tx.control, Bytes(tx.data)) > 0 { TransmitIsRecorded(c, env); }
  }

  lemma TransmitAccount(c: Conn, env: Env, accepted: seq<Chunk>, served: seq<Fate>)
    requires Sound(c) && c.phase == Live && c.queue != [] && Account(c.queue, c.hist.stream, accepted, served)
    requires IsData(c.queue[0]) || Bytes(c.queue[0].data) == []
    ensures var d := DoTransmit(c, env); Account(d.queue, d.hist.stream, accepted, served + Served(c, Transmit(env)))
  {
    var tx := c.queue[0];
    TransmitEffect(c, env);
    if IsData(tx) {
      assert Items(tx.control, Bytes(tx.data)) == Text(Bytes(tx.data));
      ServedData(c.queue, c.hist.stream, accepted, served, Loses(c, Transmit(env)));
    } else {
      ControlItems(tx.control);
      assert served + [] == served;
      var numbered := env.allocOk && Consumes(tx.control, Bytes(tx.data)) > 0;
      ServedOther(c.queue, c.hist.stream, if numbered then Items(tx.control, []) else [], accepted, served);
    }
  }

  /** Only application data carries bytes. */
  ghost predicate Plain(q: seq<Tx>) { forall i :: 0 <= i < |q| ==> IsData(q[i]) || Bytes(q[i].data) == [] }

  /** `d` is `c` with `more` queued and nothing numbered. */
  ghost predicate Queues(c: Conn, d: Conn, more: seq<Tx>) {
    d.queue == c.queue + more && d.hist.stream == c.hist.stream && Plain(more)
  }

  lemma SendQueues(c: Conn, data: Payload, room: nat, now: nat) returns (more: seq<Tx>)
    requires c.now <= now && Enabled(c.(now := now), Send(data, room))
    ensures Queues(c, Next(c, Send(data, room), now), more) && Payloads(more) == Accepted(c, Send(data, room))
  {
    more := if Accepts(c, Send(data, room)) then [DataTx(c.id, data)] else [];
    assert more != [] ==> more[1..] == [];
    assert c.queue + [] == c.queue;
  }

  lemma ConnectQueues(c: Conn, room: nat, now: nat) returns (more: seq<Tx>)
    requires c.now <= now && Enabled(c.(now := now), Connect(room))
    ensures Queues(c, Next(c, Connect(room), now), more) && Payloads(more) == []
  {
    more := if room > 0 then [ReplyTx(FreshPort(c.id, SynSent), c.id.addr, SYN)] else [];
    NoPayloads(more);
  }

  lemma AcceptQueues(c: Conn, s: Segment, room: nat, now: nat) returns (more: seq<Tx>)
    requires Sound(c) && c.now <= now && Enabled(c.(now := now), Accept(s, room))
    ensures Queues(c, Next(c, Accept(s, room), now), more) && Payloads(more) == []
  {
    AcceptShape(c.id.self, s, TickOf(now));
    more := HeardQueues(c.(now := now, phase := Live), Receive(Listener(c.id.self), s, TickOf(now)), room);
  }

  lemma CloseQueues(c: Conn, room: nat, now: nat) returns (more: seq<Tx>)
    requires c.now <= now && Enabled(c.(now := now), Close(room))
    ensures Queues(c, Next(c, Close(room), now), more) && Payloads(more) == []
  {
    more := if room > 0 then [ReplyTx(c.port, c.id.addr, FIN)] else [];
    NoPayloads(more);
  }

  lemma HeardQueues(c: Conn, eff: Effect, room: nat) returns (more: seq<Tx>)
    requires Fits(eff, room)
    requires forall tx <- eff.acks :: !IsData(tx) && tx.data == Null
    requires forall tx <- eff.reliable :: !IsData(tx) && tx.data == Null
    ensures Queues(c, Heard(c, eff, room), more) && Payloads(more) == []
  {
    more := Heard(c, eff, room).queue[|c.queue|..];
    assert more == eff.acks || (eff.reliable != [] && more == eff.acks + [eff.reliable[0]]);
    NoPayloads(more);
  }

  lemma ArriveQueues(c: Conn, s: Segment, room: nat, now: nat) returns (more: seq<Tx>)
    requires Sound(c) && c.now <= now && Enabled(c.(now := now), Arrive(s, room))
    ensures Queues(c, Next(c, Arrive(s, room), now), more) && Payloads(more) == []
  {
    var d := c.(now := now);
    ReceiveReplies(d.port, s, TickOf(now));
    more := HeardQueues(d, Receive(d.port, s, TickOf(now)), room);
  }

  /** What the steps that do not transmit add to the queue. */
  lemma NextQueues(c: Conn, step: Step, now: nat) returns (more: seq<Tx>)
    requires Sound(c) && c.now <= now && Enabled(c.(now := now), step) && !step.Transmit?
    ensures Queues(c, Next(c, step, now), more) && Payloads(more) == Accepted(c, step)
  {
    match step
    case Send(data, room) => more := SendQueues(c, data, room, now);
    case Arrive(s, room) => more := ArriveQueues(c, s, room, now);
    case Accept(s, room) => more := AcceptQueues(c, s, room, now);
    case Connect(room) => more := ConnectQueues(c, room, now);
    case Close(room) => more := CloseQueues(c, room, now);
    case Scan(envs) =>
      more := [];
      ScanKeepsQueue(c.(now := now), envs, MAX_UNACKED);
  }

  lemma NextAccount(c: Conn, step: Step, now: nat, accepted: seq<Chunk>, served: seq<Fate>)
    requires Sound(c) && c.now <= now && Enabled(c.(now := now), step)
    requires Account(c.queue, c.hist.stream, accepted, served) && Plain(c.queue)
    ensures var d := Next(c, step, now);
            Account(d.queue, d.hist.stream, accepted + Accepted(c, step), served + Served(c, step)) && Plain(d.queue)
  {
    if step.Transmit? {
      Later(c, now);
      assert accepted + [] == accepted;
      TransmitEffect(c.(now := now), step.env);
      TransmitAccount(c.(now := now), step.env, accepted, served);
    } else {
      var more := NextQueues(c, step, now);
      assert served + [] == served;
      EnqueuedAccount(c.queue, more, c.hist.stream, accepted, served);
    }
  }

  lemma StepAccount(cs: seq<Conn>, ts: seq<Timed>, i: nat, accepted: seq<Chunk>, served: seq<Fate>)
    requires IsConnRun(cs, ts) && i < |ts|
    requires Account(cs[i].queue, cs[i].hist.stream, accepted, served) && Plain(cs[i].queue)
    ensures Account(cs[i + 1].queue, cs[i + 1].hist.stream, accepted + Accepted(cs[i], ts[i].step),
                    served + Served(cs[i], ts[i].step))
    ensures Plain(cs[i + 1].queue)
  {
    ConnRunSound(cs, ts, i);
    assert StepsAt(cs, ts, i);
    NextAccount(cs[i], ts[i].step, ts[i].now, accepted, served);
  }

  lemma EmptyAccount(queue: seq<Tx>, stream: seq<Item>)
    requires queue == [] && stream == []
    ensures Account(queue, stream, [], []) && Plain(queue)
  {
  }

  ghost predicate AccountedAt(cs: seq<Conn>, ts: seq<Timed>, n: nat)
    requires n <= |ts| && n < |cs|
  {
    var accounted :=
      Account(cs[n].queue, cs[n].hist.stream, AllAccepted(cs, ts, n), AllServed(cs, ts, n)) && Plain(cs[n].queue);
    accounted
  }

  lemma NextAccountedAt(cs: seq<Conn>, ts: seq<Timed>, i: nat)
    requires IsConnRun(cs, ts) && i < |ts| && AccountedAt(cs, ts, i)
    ensures AccountedAt(cs, ts, i + 1)
  {
    StepAccount(cs, ts, i, AllAccepted(cs, ts, i), AllServed(cs, ts, i));
  }

  lemma {:induction false} RunAccount(cs: seq<Conn>, ts: seq<Timed>, n: nat)
    requires IsConnRun(cs, ts) && n < |cs|
    ensures AccountedAt(cs, ts, n)
  {
    if n == 0 {
      EmptyAccount(cs[0].queue, cs[0].hist.stream);
    } else {
      RunAccount(cs, ts, n - 1);
      NextAccountedAt(cs, ts, n - 1);
    }
  }

  /** In every run the payloads of the accepted sends are, in order, those whose turn has come and those still queued,
      and the bytes of the numbered stream are those whose turn came, in order, less the ones lost before recording. */
  lemma StreamIsAcceptedData(cs: seq<Conn>, ts: seq<Timed>, n: nat)
    requires IsConnRun(cs, ts) && n < |cs|
    ensures AllAccepted(cs, ts, n) == Contents(AllServed(cs, ts, n)) + Payloads(cs[n].queue)
    ensures DataOf(cs[n].hist.stream) == Kept(AllServed(cs, ts, n))
  {
    RunAccount(cs, ts, n);
  }
}
