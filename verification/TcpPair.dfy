/** Two copies of the TCP code over a network that may lose, duplicate and reorder: any segment either side
    ever handed to IPv4 may arrive at the other side, any number of times and in any order. */
module TcpPair {
  import opened NetTypes
  import opened TcpPort
  import opened TcpConnection
  import opened TcpSoundness

  datatype Pair = Pair(a: Conn, b: Conn)

  function SideOf(p: Pair, left: bool): Conn { if left then p.a else p.b }

  datatype Move = Move(left: bool, step: Step, now: nat)

  predicate FromPeer(step: Step, peer: Conn) {
    (step.Arrive? ==> step.s in peer.sent) && (step.Accept? ==> step.s in peer.sent)
  }

  predicate CanMove(p: Pair, m: Move) {
    var me, peer := if m.left then p.a else p.b, if m.left then p.b else p.a;
    var can := me.now <= m.now && Enabled(me.(now := m.now), m.step) && FromPeer(m.step, peer);
    can
  }

  function Moved(p: Pair, m: Move): Pair
    requires CanMove(p, m)
  {
    if m.left then p.(a := Next(p.a, m.step, m.now)) else p.(b := Next(p.b, m.step, m.now))
  }

  predicate Start(p: Pair) {
    p.a == NewConn(p.a.self, p.a.id, p.a.now) && p.b == NewConn(p.b.self, p.b.id, p.b.now)
  }

  /** Fewer than 2^32 sequence numbers in either direction. */
  predicate NoWrap(p: Pair) {
    |p.a.hist.stream| < WORD && |p.b.hist.stream| < WORD
  }

  predicate MovesAt(ps: seq<Pair>, ms: seq<Move>, i: nat) {
    i < |ms| && i + 1 < |ps| && CanMove(ps[i], ms[i]) && ps[i + 1] == Moved(ps[i], ms[i])
  }

  ghost predicate IsRun(ps: seq<Pair>, ms: seq<Move>) {
    |ps| == |ms| + 1 &&
    var run := Start(ps[0]) && (forall i :: 0 <= i < |ps| ==> NoWrap(ps[i])) &&
      forall i :: 0 <= i < |ms| ==> MovesAt(ps, ms, i);
    run
  }

  /** The bytes given to `on_receive`, in order. */
  function Delivered(trace: seq<Callback>): seq<Byte> {
    if trace == [] then []
    else Delivered(trace[..|trace| - 1]) +
         match trace[|trace| - 1]
         case OnReceive(bytes) => bytes
         case _ => []
  }

  lemma {:induction false} DeliveredAppend(t: seq<Callback>, u: seq<Callback>)
    ensures Delivered(t + u) == Delivered(t) + Delivered(u)
  {
    if u == [] {
      assert t + u == t;
    } else {
      var n := |u| - 1;
      assert (t + u)[..|t + u| - 1] == t + u[..n] && (t + u)[|t + u| - 1] == u[n];
      DeliveredAppend(t, u[..n]);
      var last := if u[n].OnReceive? then u[n].bytes else [];
      assert Delivered(t + u) == Delivered(t + u[..n]) + last;
      assert Delivered(u) == Delivered(u[..n]) + last;
    }
  }

  // ----- every sent segment is a slice of the sender's stream -----

  predicate Slice(s: Segment, stream: seq<Item>) {
    var t := Items(s.control, s.bytes);
    s.seqNum + |t| <= |stream| && stream[s.seqNum..s.seqNum + |t|] == t
  }

  lemma SentIsSlice(c: Conn, s: Segment)
    requires Sound(c) && |c.hist.stream| < WORD && s in c.sent
    ensures Slice(s, c.hist.stream) && GoodControl(s.control, s.bytes)
    ensures Consumes(s.control, s.bytes) == |Items(s.control, s.bytes)|
    ensures s.control.syn ==> s.seqNum == 0 && s.bytes == []
  {
    var i :| 0 <= i < |c.sent| && c.sent[i] == s;
    assert SentOk(s, c.hist.stream, c.hist.tiles);
    if Consumes(s.control, s.bytes) > 0 {
      var k :| 0 <= k < |c.hist.tiles| && Repeats(s, c.hist.tiles[k]);
      var t := c.hist.tiles[k];
      assert TileOk(c.hist.stream, c.hist.tiles, k);
      assert Wrap(t.pos) == t.pos;
      if s.control.syn { assert c.hist.stream[s.seqNum] == Items(s.control, s.bytes)[0] == Syn; }
    }
  }

  // ----- the invariant -----

  /** The delivered bytes are the stretch of `stream` that starts at `start`. */
  ghost predicate Got(stream: seq<Item>, trace: seq<Callback>, start: nat) {
    var got := Delivered(trace);
    start + |got| <= |stream| && stream[start..start + |got|] == Text(got)
  }

  ghost predicate AcksWithin(sent: seq<Segment>, limit: nat) {
    forall i :: 0 <= i < |sent| ==> sent[i].ackNum <= limit
  }

  /** The receiver's row against what was delivered. */
  predicate RowAgrees(r: Conn) {
    (OnConnect in r.hist.trace ==> 1 <= r.hist.start && (r.active ==> r.hist.start == 1)) &&
    (r.phase == Live && r.port.state == Established ==>
       OnConnect in r.hist.trace && r.hist.start + |Delivered(r.hist.trace)| == r.port.ackNum) &&
    (r.phase == Live && r.port.state == SynSent ==> r.active) &&
    (r.phase == Live && r.port.state == SynReceived ==> !r.active && r.port.ackNum >= 1)
  }

  /** The direction from `s` to `r`: acknowledgements never run ahead of what was numbered, and what the
      receiver's application got is the stretch of the sender's stream that starts at `start`. */
  ghost predicate Dir(s: Conn, r: Conn) {
    r.port.ackNum <= |s.hist.stream| && AcksWithin(r.sent, |s.hist.stream|) &&
    Got(s.hist.stream, r.hist.trace, r.hist.start) && RowAgrees(r) &&
    (OnConnect in r.hist.trace || (r.phase == Live && r.port.state == SynReceived) ==>
       s.hist.stream != [] && s.hist.stream[0] == Syn)
  }

  ghost predicate Agree(p: Pair) {
    var agreed := Sound(p.a) && Sound(p.b) && Dir(p.a, p.b) && Dir(p.b, p.a);
    agreed
  }

  // ----- the moving side as a sender -----

  /** A step extends the stream and sends only segments carrying the current acknowledgement number. */
  ghost predicate Speaks(c: Conn, d: Conn) {
    Extends(c.hist, d.hist) && c.sent <= d.sent &&
    forall i :: |c.sent| <= i < |d.sent| ==> d.sent[i].ackNum == c.port.ackNum
  }

  lemma {:induction false} ScanSpeaks(c: Conn, envs: seq<Env>, n: nat)
    requires n <= |envs| == MAX_UNACKED && |c.port.unacked| == MAX_UNACKED
    ensures Speaks(c, ScanSlots(c, envs, n)) && ScanSlots(c, envs, n).port.ackNum == c.port.ackNum
    ensures ScanSlots(c, envs, n).port.state == c.port.state && ScanSlots(c, envs, n).active == c.active
    ensures ScanSlots(c, envs, n).hist.trace == c.hist.trace && ScanSlots(c, envs, n).hist.start == c.hist.start
  {
    if n > 0 { ScanSpeaks(c, envs, n - 1); }
  }

  lemma NextSpeaks(c: Conn, step: Step, now: nat)
    requires Sound(c) && c.now <= now && Enabled(c.(now := now), step)
    ensures Speaks(c, Next(c, step, now))
  {
    var d := c.(now := now);
    Later(c, now);
    match step
    case Transmit(env) => TransmitSpeaks(d, env);
    case Scan(envs) => ScanSpeaks(d, envs, MAX_UNACKED);
    case _ =>
  }

  lemma TransmitSpeaks(c: Conn, env: Env)
    requires Sound(c) && c.phase == Live && c.queue != []
    ensures Speaks(c, DoTransmit(c, env))
  {
    TransmitSound(c, env);
  }

  lemma SenderMoves(s: Conn, s': Conn, r: Conn)
    requires Dir(s, r) && Extends(s.hist, s'.hist)
    ensures Dir(s', r)
  {
    var got := Delivered(r.hist.trace);
    assert s'.hist.stream[r.hist.start..r.hist.start + |got|] == s.hist.stream[r.hist.start..r.hist.start + |got|];
  }

  // ----- the moving side as a receiver -----

  /** Steps that do not take a segment in leave the receiving side alone. */
  ghost predicate Deaf(c: Conn, d: Conn) {
    d.port.ackNum == c.port.ackNum && d.hist.trace == c.hist.trace && d.hist.start == c.hist.start &&
    (d.phase == Live && d.port.state == Established ==> c.phase == Live && c.port.state == Established) &&
    (d.phase == Live && d.port.state == SynReceived ==>
       c.phase == Live && c.port.state == SynReceived && d.active == c.active) &&
    (d.phase == Live && d.port.state == SynSent ==>
       d.active || (c.phase == Live && c.port.state == SynSent && d.active == c.active)) &&
    (d.active != c.active ==> c.hist.trace == [])
  }

  lemma NextDeaf(c: Conn, step: Step, now: nat)
    requires Sound(c) && c.now <= now && Enabled(c.(now := now), step)
    requires !step.Arrive? && !step.Accept?
    ensures Deaf(c, Next(c, step, now))
  {
    match step
    case Scan(envs) => ScanSpeaks(c.(now := now), envs, MAX_UNACKED);
    case _ =>
  }

  lemma NextActive(c: Conn, step: Step, now: nat)
    requires c.now <= now && Enabled(c.(now := now), step)
    ensures Next(c, step, now).active == (c.active || step.Connect?)
  {
    if step.Scan? { ScanSpeaks(c.(now := now), step.envs, MAX_UNACKED); }
  }

  lemma DeafDir(s: Conn, r: Conn, r': Conn)
    requires Dir(s, r) && Deaf(r, r') && Speaks(r, r')
    ensures Dir(s, r')
  {
  }

  /** What an arriving segment does to the acknowledgement number, the callbacks and ESTABLISHED. */
  lemma ReceiveCalls(p: Port, s: Segment, tick: Tick)
    requires p.state != Closed && p.state != Listen && !s.control.rst
    ensures var e := Receive(p, s, tick);
            var n := Consumes(s.control, s.bytes);
            (e.port.ackNum == p.ackNum || e.port.ackNum == Wrap(s.seqNum + n)) &&
            (e.port.state == Established && p.state == SynSent ==>
               e.calls == [OnConnect] && s.control.syn && e.port.ackNum == Wrap(s.seqNum + n)) &&
            (e.port.state == Established && p.state == SynReceived ==>
               e.calls == [OnConnect] && s.seqNum == p.ackNum && (n > 0 ==> e.port.ackNum == Wrap(s.seqNum + n))) &&
            (p.state != Established && e.port.state != Established ==> e.calls == [] || e.calls == [OnDisconnect]) &&
            (e.port.state == Established ==> p.state == SynSent || p.state == SynReceived || p.state == Established)
  {
  }

  lemma ReceiveEstablished(p: Port, s: Segment, tick: Tick)
    requires p.state == Established && !s.control.rst
    ensures var e := Receive(p, s, tick);
            var n := Consumes(s.control, s.bytes);
            if Ignored(p, s) then e.port == p && e.calls == []
            else
              s.seqNum == p.ackNum && e.calls == (if s.bytes == [] then [] else [OnReceive(s.bytes)]) &&
              e.port.ackNum == (if n > 0 then Wrap(s.seqNum + n) else p.ackNum) &&
              e.port.state == (if s.control.fin then LastAck else Established)
  {
  }

  lemma HeardFields(c: Conn, eff: Effect, room: nat)
    requires Fits(eff, room)
    ensures var d := Heard(c, eff, room);
            d.sent == c.sent && d.port.ackNum == eff.port.ackNum && d.port.state == eff.port.state &&
            d.active == c.active &&
            d.hist.stream == c.hist.stream && d.hist.trace == c.hist.trace + eff.calls &&
            d.hist.start == if OnConnect in eff.calls then eff.port.ackNum else c.hist.start
  {
  }

  lemma GotSame(stream: seq<Item>, trace: seq<Callback>, calls: seq<Callback>, start: nat)
    requires Got(stream, trace, start) && (calls == [] || calls == [OnDisconnect])
    ensures Got(stream, trace + calls, start) && Delivered(trace + calls) == Delivered(trace)
    ensures OnConnect in trace + calls <==> OnConnect in trace
  {
    DeliveredAppend(trace, calls);
    assert calls != [] ==> calls[..0] == [];
    assert Delivered(trace + calls) == Delivered(trace);
  }

  lemma TextAppend(a: seq<Byte>, b: seq<Byte>)
    ensures Text(a + b) == Text(a) + Text(b)
  {
  }

  lemma SliceJoin(stream: seq<Item>, i: nat, j: nat, k: nat)
    requires i <= j <= k <= |stream|
    ensures stream[i..k] == stream[i..j] + stream[j..k]
  {
  }

  lemma DeliveredMore(trace: seq<Callback>, bytes: Chunk)
    ensures Delivered(trace + [OnReceive(bytes)]) == Delivered(trace) + bytes
  {
    assert (trace + [OnReceive(bytes)])[..|trace|] == trace;
  }

  lemma {:induction false} GotMore(stream: seq<Item>, trace: seq<Callback>, bytes: Chunk, start: nat,
                                   more: seq<Callback>)
    requires Got(stream, trace, start) && more == trace + [OnReceive(bytes)]
    requires var at := start + |Delivered(trace)|; at + |bytes| <= |stream| && stream[at..at + |bytes|] == Text(bytes)
    ensures Got(stream, more, start) && Delivered(more) == Delivered(trace) + bytes
    ensures OnConnect in more <==> OnConnect in trace
  {
    DeliveredMore(trace, bytes);
    StretchGrows(stream, Delivered(trace), bytes, start);
  }

  lemma StretchGrows(stream: seq<Item>, got: seq<Byte>, bytes: Chunk, start: nat)
    requires start + |got| + |bytes| <= |stream| && stream[start..start + |got|] == Text(got)
    requires stream[start + |got|..start + |got| + |bytes|] == Text(bytes)
    ensures stream[start..start + |got + bytes|] == Text(got + bytes)
  {
    TextAppend(got, bytes);
    SliceJoin(stream, start, start + |got|, start + |got| + |bytes|);
  }

  /** Data accepted in ESTABLISHED continues the delivered stretch exactly. */
  lemma HeardData(s: Conn, r: Conn, seg: Segment, next: Conn)
    requires Dir(s, r) && Slice(seg, s.hist.stream) && !seg.control.syn && !seg.control.fin && seg.bytes != []
    requires r.phase == Live && r.port.state == Established && seg.seqNum == r.port.ackNum
    requires next.sent == r.sent && next.active == r.active && next.hist.start == r.hist.start
    requires next.hist.trace == r.hist.trace + [OnReceive(seg.bytes)]
    requires next.port.ackNum == r.port.ackNum + |seg.bytes| && next.port.state == Established
    ensures Dir(s, next)
  {
    PlainSlice(seg, s.hist.stream);
    GotMore(s.hist.stream, r.hist.trace, seg.bytes, r.hist.start, next.hist.trace);
    DirFrom(s, r, next);
  }

  /** A receiver that stays ESTABLISHED and connected, with its delivered stretch known. */
  lemma DirFrom(s: Conn, r: Conn, next: Conn)
    requires Dir(s, r) && r.phase == Live && r.port.state == Established && next.port.state == Established
    requires next.sent == r.sent && next.active == r.active && next.hist.start == r.hist.start
    requires Got(s.hist.stream, next.hist.trace, next.hist.start) && OnConnect in next.hist.trace
    requires next.port.ackNum == next.hist.start + |Delivered(next.hist.trace)| <= |s.hist.stream|
    ensures Dir(s, next)
  {
  }

  lemma PlainSlice(seg: Segment, stream: seq<Item>)
    requires Slice(seg, stream) && !seg.control.syn && !seg.control.fin
    ensures seg.seqNum + |seg.bytes| <= |stream| && stream[seg.seqNum..seg.seqNum + |seg.bytes|] == Text(seg.bytes)
  {
    assert Items(seg.control, seg.bytes) == Text(seg.bytes);
  }

  lemma HeardEstablished(s: Conn, r: Conn, seg: Segment, room: nat)
    requires Dir(s, r) && Slice(seg, s.hist.stream) && GoodControl(seg.control, seg.bytes) && |s.hist.stream| < WORD
    requires seg.control.syn ==> seg.seqNum == 0
    requires r.phase == Live && r.port.state == Established && Fits(Receive(r.port, seg, TickOf(r.now)), room)
    ensures Dir(s, Heard(r, Receive(r.port, seg, TickOf(r.now)), room))
  {
    var eff := Receive(r.port, seg, TickOf(r.now));
    ReceiveEstablished(r.port, seg, TickOf(r.now));
    SliceEnd(seg, s.hist.stream);
    if !Ignored(r.port, seg) && seg.bytes != [] {
      HeardFields(r, eff, room);
      HeardData(s, r, seg, Heard(r, eff, room));
    } else {
      HeardElsewhere(s, r, eff, room);
    }
  }

  /** Entering ESTABLISHED starts the delivered stretch at the acknowledgement number. */
  lemma HeardConnected(s: Conn, r: Conn, eff: Effect, room: nat)
    requires Dir(s, r) && r.phase == Live && r.hist.trace == [] && Fits(eff, room)
    requires eff.calls == [OnConnect] && 1 <= eff.port.ackNum <= |s.hist.stream| && eff.port.state == Established
    requires (r.active ==> eff.port.ackNum == 1) && s.hist.stream[0] == Syn
    ensures Dir(s, Heard(r, eff, room))
  {
    HeardFields(r, eff, room);
    assert r.hist.trace + eff.calls == [OnConnect];
    assert [OnConnect][..0] == [];
    assert Delivered([OnConnect]) == [];
  }

  /** Elsewhere nothing is delivered and the acknowledgement number stays within the stream. */
  lemma HeardElsewhere(s: Conn, r: Conn, eff: Effect, room: nat)
    requires Dir(s, r) && r.phase == Live && Fits(eff, room)
    requires (eff.calls == [] || eff.calls == [OnDisconnect]) && eff.port.ackNum <= |s.hist.stream|
    requires eff.port.state == Established ==> r.port.state == Established && eff.port.ackNum == r.port.ackNum
    requires eff.port.state == SynSent ==> r.port.state == SynSent
    requires eff.port.state == SynReceived ==> r.port.state == SynReceived && eff.port.ackNum >= 1
    ensures Dir(s, Heard(r, eff, room))
  {
    HeardFields(r, eff, room);
    GotSame(s.hist.stream, r.hist.trace, eff.calls, r.hist.start);
  }

  lemma SliceEnd(seg: Segment, stream: seq<Item>)
    requires Slice(seg, stream) && GoodControl(seg.control, seg.bytes) && |stream| < WORD
    ensures Wrap(seg.seqNum + Consumes(seg.control, seg.bytes)) ==
            seg.seqNum + Consumes(seg.control, seg.bytes) <= |stream|
  {
  }

  lemma HeardDir(s: Conn, r: Conn, seg: Segment, room: nat)
    requires Sound(s) && Sound(r) && |s.hist.stream| < WORD && Dir(s, r) && seg in s.sent
    requires r.phase == Live && Fits(Receive(r.port, seg, TickOf(r.now)), room)
    ensures Dir(s, Heard(r, Receive(r.port, seg, TickOf(r.now)), room))
  {
    SentIsSlice(s, seg);
    SliceEnd(seg, s.hist.stream);
    var eff := Receive(r.port, seg, TickOf(r.now));
    if r.port.state == Established {
      HeardEstablished(s, r, seg, room);
    } else {
      ReceiveCalls(r.port, seg, TickOf(r.now));
      ReceiveStates(r.port, seg, TickOf(r.now));
      if eff.port.state == Established {
        assert seg.control.syn ==> s.hist.stream[0] == Items(seg.control, seg.bytes)[0];
        HeardConnected(s, r, eff, room);
      } else { HeardElsewhere(s, r, eff, room); }
    }
  }

  lemma AcceptDir(s: Conn, r: Conn, seg: Segment, room: nat)
    requires Sound(s) && Sound(r) && |s.hist.stream| < WORD && Dir(s, r) && seg in s.sent &&
             Enabled(r, Accept(seg, room))
    ensures Dir(s, Heard(r.(phase := Live), Receive(Listener(r.id.self), seg, TickOf(r.now)), room))
  {
    SentIsSlice(s, seg);
    SliceEnd(seg, s.hist.stream);
    AcceptShape(r.id.self, seg, TickOf(r.now));
    assert s.hist.stream[0] == Items(seg.control, seg.bytes)[0];
  }

  // ----- every run -----

  lemma SideListens(me: Conn, peer: Conn, step: Step, now: nat)
    requires Sound(me) && Sound(peer) && Dir(peer, me) && |peer.hist.stream| < WORD
    requires me.now <= now && Enabled(me.(now := now), step) && FromPeer(step, peer)
    requires step.Arrive? || step.Accept?
    ensures Dir(peer, Next(me, step, now))
  {
    var d := me.(now := now);
    Later(me, now);
    assert Dir(peer, d);
    if step.Arrive? { HeardDir(peer, d, step.s, step.room); } else { AcceptDir(peer, d, step.s, step.room); }
  }

  lemma SideMoves(me: Conn, peer: Conn, step: Step, now: nat, next: Conn)
    requires Sound(me) && Sound(peer) && Dir(me, peer) && Dir(peer, me) && |peer.hist.stream| < WORD
    requires me.now <= now && Enabled(me.(now := now), step) && FromPeer(step, peer) && next == Next(me, step, now)
    ensures Sound(next) && Dir(next, peer) && Dir(peer, next)
  {
    NextSound(me, step, now);
    NextSpeaks(me, step, now);
    SenderMoves(me, next, peer);
    if step.Arrive? || step.Accept? {
      SideListens(me, peer, step, now);
    } else {
      NextDeaf(me, step, now);
      DeafDir(peer, me, next);
    }
  }

  lemma MovedAgrees(p: Pair, m: Move)
    requires Agree(p) && NoWrap(p) && CanMove(p, m)
    ensures Agree(Moved(p, m))
  {
    if m.left {
      SideMoves(p.a, p.b, m.step, m.now, Moved(p, m).a);
    } else {
      SideMoves(p.b, p.a, m.step, m.now, Moved(p, m).b);
    }
  }

  lemma {:induction false} RunAgrees(ps: seq<Pair>, ms: seq<Move>, n: nat)
    requires IsRun(ps, ms) && n < |ps|
    ensures Agree(ps[n])
  {
    if n == 0 {
      assert Sound(ps[0].a) && Sound(ps[0].b);
    } else {
      RunAgrees(ps, ms, n - 1);
      assert MovesAt(ps, ms, n - 1);
      MovedAgrees(ps[n - 1], ms[n - 1]);
    }
  }

  /** Every move of a run starts from a state in agreement. */
  lemma RunStep(ps: seq<Pair>, ms: seq<Move>, i: nat)
    requires IsRun(ps, ms) && i < |ms|
    ensures Agree(ps[i]) && NoWrap(ps[i]) && CanMove(ps[i], ms[i]) && ps[i + 1] == Moved(ps[i], ms[i])
  {
    RunAgrees(ps, ms, i);
    assert MovesAt(ps, ms, i);
  }

  lemma ExtendRun(ps: seq<Pair>, ms: seq<Move>, m: Move, q: Pair)
    requires IsRun(ps, ms) && CanMove(ps[|ms|], m) && q == Moved(ps[|ms|], m) && NoWrap(q)
    ensures IsRun(ps + [q], ms + [m])
  {
    forall i | 0 <= i < |ms + [m]| ensures MovesAt(ps + [q], ms + [m], i) {
      if i < |ms| { assert MovesAt(ps, ms, i); }
    }
  }
}
