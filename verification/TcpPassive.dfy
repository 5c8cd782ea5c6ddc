/** Where the passive side's delivery starts: what arrives in SYN_RECEIVED is acknowledged and never delivered. */
module TcpPassive {
  import opened TcpPort
  import opened TcpConnection
  import opened TcpSoundness
  import opened TcpPair
  import opened TcpHandshake

  /** An arrival accepted in SYN_RECEIVED that consumes sequence numbers. */
  predicate Swallows(c: Conn, step: Step) {
    step.Arrive? && c.phase == Live && c.port.state == SynReceived && !step.s.control.rst && !Ignored(c.port, step.s) &&
    Consumes(step.s.control, step.s.bytes) > 0
  }

  predicate SwallowsAt(ps: seq<Pair>, ms: seq<Move>, i: nat, left: bool) {
    i < |ms| && i < |ps| && ms[i].left == left && Swallows(SideOf(ps[i], left), ms[i].step)
  }

  /** How a connection's acknowledgement number and starting point show whether anything was swallowed. */
  predicate Starts(c: Conn, swallowed: bool) {
    (c.phase == Idle ==> !swallowed && !Connected(c)) &&
    (c.phase == Live && c.port.state == SynReceived ==> (c.port.ackNum == 1 <==> !swallowed)) &&
    (Connected(c) && !c.active ==> (c.hist.start == 1 <==> !swallowed))
  }

  lemma ReceiveSynReceived(p: Port, s: Segment, tick: Tick)
    requires p.state == SynReceived && !s.control.rst
    ensures var e := Receive(p, s, tick);
            var n := Consumes(s.control, s.bytes);
            if Ignored(p, s) then e.port == p && e.calls == []
            else
              s.seqNum == p.ackNum && e.port.ackNum == (if n > 0 then Wrap(s.seqNum + n) else p.ackNum) &&
              e.port.state == (if s.control.ack && s.ackNum == p.seqNum then Established else SynReceived) &&
              e.calls == (if e.port.state == Established then [OnConnect] else [])
  {
  }

  lemma ArriveInSynReceived(c: Conn, peer: Conn, s: Segment, room: nat, swallowed: bool)
    requires Sound(c) && Sound(peer) && |peer.hist.stream| < WORD && s in peer.sent && Starts(c, swallowed)
    requires c.phase == Live && c.port.state == SynReceived && c.port.ackNum >= 1
    requires Fits(Receive(c.port, s, TickOf(c.now)), room)
    ensures Starts(Heard(c, Receive(c.port, s, TickOf(c.now)), room), swallowed || Swallows(c, Arrive(s, room)))
  {
    SentIsSlice(peer, s);
    SliceEnd(s, peer.hist.stream);
    ReceiveSynReceived(c.port, s, TickOf(c.now));
    HeardFields(c, Receive(c.port, s, TickOf(c.now)), room);
    assert c.hist.trace == [];
  }

  lemma ArriveElsewhere(c: Conn, peer: Conn, s: Segment, room: nat, swallowed: bool)
    requires Sound(c) && Sound(peer) && |peer.hist.stream| < WORD && s in peer.sent && Starts(c, swallowed)
    requires c.phase == Live && c.port.state != SynReceived && (c.port.state == SynSent ==> c.active)
    requires Fits(Receive(c.port, s, TickOf(c.now)), room)
    ensures Starts(Heard(c, Receive(c.port, s, TickOf(c.now)), room), swallowed)
  {
    SentIsSlice(peer, s);
    var eff := Receive(c.port, s, TickOf(c.now));
    HeardFields(c, eff, room);
    ReceiveStates(c.port, s, TickOf(c.now));
    if c.port.state == Established {
      ReceiveEstablished(c.port, s, TickOf(c.now));
    } else {
      ReceiveCalls(c.port, s, TickOf(c.now));
    }
  }

  lemma AcceptStarts(c: Conn, peer: Conn, s: Segment, room: nat)
    requires Sound(c) && Sound(peer) && |peer.hist.stream| < WORD && s in peer.sent && Enabled(c, Accept(s, room))
    ensures Starts(Heard(c.(phase := Live), Receive(Listener(c.id.self), s, TickOf(c.now)), room), false)
  {
    SentIsSlice(peer, s);
    AcceptShape(c.id.self, s, TickOf(c.now));
  }

  lemma NextStarts(c: Conn, peer: Conn, step: Step, now: nat, swallowed: bool)
    requires Sound(c) && Sound(peer) && Dir(peer, c) && |peer.hist.stream| < WORD && Starts(c, swallowed)
    requires c.now <= now && Enabled(c.(now := now), step) && FromPeer(step, peer)
    ensures Starts(Next(c, step, now), swallowed || Swallows(c, step))
  {
    var d := c.(now := now);
    Later(c, now);
    if step.Arrive? {
      if d.port.state == SynReceived {
        ArriveInSynReceived(d, peer, step.s, step.room, swallowed);
      } else {
        ArriveElsewhere(d, peer, step.s, step.room, swallowed);
      }
    } else if step.Accept? {
      AcceptStarts(d, peer, step.s, step.room);
    } else {
      NextDeaf(c, step, now);
      NextNotIdle(c, step, now);
      DeafStarts(c, Next(c, step, now), swallowed);
    }
  }

  lemma NextNotIdle(c: Conn, step: Step, now: nat)
    requires c.now <= now && Enabled(c.(now := now), step)
    ensures Next(c, step, now).phase != Idle
  {
    if step.Scan? { ScanKeepsPhase(c.(now := now), step.envs, MAX_UNACKED); }
  }

  lemma DeafStarts(c: Conn, d: Conn, swallowed: bool)
    requires Starts(c, swallowed) && Deaf(c, d) && d.phase != Idle
    ensures Starts(d, swallowed)
  {
  }

  lemma MovedStarts(p: Pair, m: Move, left: bool, swallowed: bool)
    requires Agree(p) && NoWrap(p) && CanMove(p, m) && Starts(SideOf(p, left), swallowed)
    ensures Starts(SideOf(Moved(p, m), left), swallowed || (m.left == left && Swallows(SideOf(p, left), m.step)))
  {
    if m.left == left { NextStarts(SideOf(p, left), SideOf(p, !left), m.step, m.now, swallowed); }
  }

  /** In every run a passive side that has connected starts right after the peer's SYN if and only if no arrival
      accepted in SYN_RECEIVED consumed sequence numbers; then what it received is a prefix of the peer's data. */
  lemma {:induction false} PassiveStartIff(ps: seq<Pair>, ms: seq<Move>, n: nat, left: bool)
    requires IsRun(ps, ms) && n < |ps|
    ensures var c := SideOf(ps[n], left);
            Connected(c) && !c.active ==>
              (c.hist.start == 1 <==> !Swallowed(ps, ms, n, left)) &&
              (c.hist.start == 1 ==> [Syn] + Text(Delivered(c.hist.trace)) <= SideOf(ps[n], !left).hist.stream)
  {
    RunStarts(ps, ms, n, left);
    RunAgrees(ps, ms, n);
    var c, peer := SideOf(ps[n], left), SideOf(ps[n], !left);
    assert Dir(peer, c);
    if Connected(c) && c.hist.start == 1 {
      var got := Delivered(c.hist.trace);
      assert peer.hist.stream[..1 + |got|] == [Syn] + peer.hist.stream[1..1 + |got|];
    }
  }

  ghost predicate Swallowed(ps: seq<Pair>, ms: seq<Move>, n: nat, left: bool) {
    exists i :: 0 <= i < n && SwallowsAt(ps, ms, i, left)
  }

  lemma SwallowedGrows(ps: seq<Pair>, ms: seq<Move>, n: nat, left: bool)
    ensures Swallowed(ps, ms, n + 1, left) <==> Swallowed(ps, ms, n, left) || SwallowsAt(ps, ms, n, left)
  {
  }

  lemma StepStarts(ps: seq<Pair>, ms: seq<Move>, i: nat, left: bool, swallowed: bool)
    requires IsRun(ps, ms) && i < |ms| && Starts(SideOf(ps[i], left), swallowed)
    ensures Starts(SideOf(ps[i + 1], left), swallowed || SwallowsAt(ps, ms, i, left))
  {
    RunStep(ps, ms, i);
    MovedStarts(ps[i], ms[i], left, swallowed);
  }

  lemma {:induction false} RunStarts(ps: seq<Pair>, ms: seq<Move>, n: nat, left: bool)
    requires IsRun(ps, ms) && n < |ps|
    ensures Starts(SideOf(ps[n], left), Swallowed(ps, ms, n, left))
  {
    if n > 0 {
      RunStarts(ps, ms, n - 1, left);
      StepStarts(ps, ms, n - 1, left, Swallowed(ps, ms, n - 1, left));
      SwallowedGrows(ps, ms, n - 1, left);
    }
  }

  // ----- runs whose applications wait for `on_connect` -----

  /** Nothing but the SYN has been numbered, and nothing but it and acknowledgements waits. */
  ghost predicate Shy(c: Conn) {
    |c.hist.stream| <= 1 &&
    forall i :: 0 <= i < |c.queue| ==> c.queue[i].control == SYN_ACK || c.queue[i].control == ACK
  }

  lemma TransmitShy(c: Conn, env: Env)
    requires Sound(c) && c.phase == Live && c.queue != [] && Shy(c)
    ensures Shy(DoTransmit(c, env))
  {
    var tx := c.queue[0];
    assert TxOk(tx, c.id, c.hist.stream);
  }

  lemma ArriveShy(c: Conn, s: Segment, room: nat)
    requires c.phase == Live && c.port.state == SynReceived && Shy(c) && Fits(Receive(c.port, s, TickOf(c.now)), room)
    ensures var next := Heard(c, Receive(c.port, s, TickOf(c.now)), room); Shy(next)
  {
    ReceiveReplies(c.port, s, TickOf(c.now));
    assert Receive(c.port, s, TickOf(c.now)).reliable == [];
  }

  lemma AcceptShy(c: Conn, s: Segment, room: nat)
    requires Sound(c) && Enabled(c, Accept(s, room))
    ensures Shy(Heard(c.(phase := Live), Receive(Listener(c.id.self), s, TickOf(c.now)), room))
  {
    AcceptShape(c.id.self, s, TickOf(c.now));
  }

  lemma NextShy(c: Conn, step: Step, now: nat)
    requires Sound(c) && c.now <= now && Enabled(c.(now := now), step) && Shy(c) && !step.Send? && !step.Close? &&
             !step.Connect?
    requires c.phase == Live ==> c.port.state == SynReceived
    ensures Shy(Next(c, step, now))
  {
    var d := c.(now := now);
    Later(c, now);
    match step
    case Accept(s, room) => AcceptShy(d, s, room);
    case Transmit(env) => TransmitShy(d, env);
    case Arrive(s, room) => ArriveShy(d, s, room);
    case Scan(envs) => ScanKeepsQueue(d, envs, MAX_UNACKED);
  }

  lemma {:induction false} RunShy(ps: seq<Pair>, ms: seq<Move>, n: nat)
    requires IsDisciplinedRun(ps, ms) && n < |ps|
    ensures !Connected(ps[n].b) ==> Shy(ps[n].b)
  {
    if n > 0 {
      RunShy(ps, ms, n - 1);
      StepShy(ps, ms, n - 1);
    }
  }

  lemma StepShy(ps: seq<Pair>, ms: seq<Move>, i: nat)
    requires IsDisciplinedRun(ps, ms) && i < |ms| && (!Connected(ps[i].b) ==> Shy(ps[i].b))
    ensures !Connected(ps[i + 1].b) ==> Shy(ps[i + 1].b)
  {
    RunOrdered(ps, ms, i);
    RunStep(ps, ms, i);
    MovedShy(ps[i], ms[i]);
  }

  lemma MovedShy(p: Pair, m: Move)
    requires Sound(p.b) && Opening(p.b, SynReceived) && CanMove(p, m) && Disciplined(p, m)
    requires !Connected(p.b) ==> Shy(p.b)
    ensures !Connected(Moved(p, m).b) ==> Shy(Moved(p, m).b)
  {
    if !m.left && !Connected(p.b) {
      NextShy(p.b, m.step, m.now);
    } else if !m.left {
      TraceGrows(p.b, m.step, m.now);
    }
  }

  /** With waiting applications, an arrival that is swallowed is the one that completes the handshake. */
  lemma SwallowedCompletes(p: Pair, step: Step)
    requires Agree(p) && NoWrap(p) && Ordered(p) && Shy(p.b) && Swallows(p.b, step) && FromPeer(step, p.a)
    ensures step.s.control.ack && step.s.ackNum == p.b.port.seqNum
  {
    var s := step.s;
    SentIsSlice(p.a, s);
    var i :| 0 <= i < |p.a.sent| && p.a.sent[i] == s;
    assert p.b.port.ackNum >= 1;
    assert !s.control.syn;
    assert Dir(p.b, p.a);
    assert 1 <= s.ackNum <= |p.b.hist.stream|;
  }

  lemma SwallowConnects(ps: seq<Pair>, ms: seq<Move>, i: nat)
    requires IsDisciplinedRun(ps, ms) && SwallowsAt(ps, ms, i, false)
    ensures Connected(ps[i + 1].b)
  {
    RunShy(ps, ms, i);
    RunOrdered(ps, ms, i);
    RunAgrees(ps, ms, i);
    assert MovesAt(ps, ms, i) && NoWrap(ps[i]);
    SwallowedCompletes(ps[i], ms[i].step);
    var d, s := ps[i].b.(now := ms[i].now), ms[i].step.s;
    ReceiveSynReceived(d.port, s, TickOf(d.now));
    HeardFields(d, Receive(d.port, s, TickOf(d.now)), ms[i].step.room);
  }

  lemma {:induction false} ConnectedStays(ps: seq<Pair>, ms: seq<Move>, i: nat, n: nat)
    requires IsRun(ps, ms) && i <= n < |ps| && Connected(ps[i].b)
    ensures Connected(ps[n].b)
    decreases n - i
  {
    if i < n {
      ConnectedStays(ps, ms, i, n - 1);
      assert MovesAt(ps, ms, n - 1);
      if !ms[n - 1].left { TraceGrows(ps[n - 1].b, ms[n - 1].step, ms[n - 1].now); }
    }
  }

  /** Of the arrivals in a disciplined run only the one that connects the passive side can be swallowed. */
  lemma OnlyCompletionSwallows(ps: seq<Pair>, ms: seq<Move>, i: nat, j: nat)
    requires IsDisciplinedRun(ps, ms) && i < |ms| && !Connected(ps[i].b) && Connected(ps[i + 1].b)
    requires SwallowsAt(ps, ms, j, false)
    ensures j == i
  {
    if j < i {
      SwallowConnects(ps, ms, j);
      ConnectedStays(ps, ms, j + 1, i);
    } else if j > i {
      ConnectedStays(ps, ms, i + 1, j);
      RunAgrees(ps, ms, j);
    }
  }

  /** The step that connects the passive side is an arrival accepted in SYN_RECEIVED. */
  lemma CompletionArrives(ps: seq<Pair>, ms: seq<Move>, i: nat)
    requires IsDisciplinedRun(ps, ms) && i < |ms| && !Connected(ps[i].b) && Connected(ps[i + 1].b)
    ensures !ms[i].left && ms[i].step.Arrive?
    ensures SwallowsAt(ps, ms, i, false) <==> Consumes(ms[i].step.s.control, ms[i].step.s.bytes) > 0
  {
    RunOrdered(ps, ms, i);
    RunAgrees(ps, ms, i);
    assert MovesAt(ps, ms, i);
    CompletionStep(ps[i], ms[i]);
  }

  lemma CompletionStep(p: Pair, m: Move)
    requires Agree(p) && NoWrap(p) && Opening(p.b, SynReceived) && CanMove(p, m) && Disciplined(p, m)
    requires !Connected(p.b) && Connected(Moved(p, m).b)
    ensures !m.left && m.step.Arrive? && p.b.phase == Live && p.b.port.state == SynReceived
    ensures !m.step.s.control.rst && !Ignored(p.b.port, m.step.s)
  {
    if m.step.Arrive? {
      SentIsSlice(p.a, m.step.s);
      ReceiveSynReceived(p.b.port, m.step.s, TickOf(m.now));
      HeardFields(p.b.(now := m.now), Receive(p.b.port, m.step.s, TickOf(m.now)), m.step.room);
    } else if m.step.Accept? {
      AcceptShape(p.b.id.self, m.step.s, TickOf(m.now));
    } else {
      NextDeaf(p.b, m.step, m.now);
    }
  }

  /** When applications act only after `on_connect`, the passive side starts right after the SYN if and only if the
      segment that completes its handshake carries nothing. */
  lemma PassiveStartDisciplined(ps: seq<Pair>, ms: seq<Move>, i: nat, n: nat)
    requires IsDisciplinedRun(ps, ms) && i < n < |ps| && !Connected(ps[i].b) && Connected(ps[i + 1].b)
    ensures ms[i].step.Arrive? && Connected(ps[n].b) && !ps[n].b.active
    ensures ps[n].b.hist.start == 1 <==> Consumes(ms[i].step.s.control, ms[i].step.s.bytes) == 0
  {
    CompletionArrives(ps, ms, i);
    ConnectedStays(ps, ms, i + 1, n);
    NeverActive(ps, ms, n);
    PassiveStartIff(ps, ms, n, false);
    forall j | 0 <= j < n && SwallowsAt(ps, ms, j, false) ensures j == i { OnlyCompletionSwallows(ps, ms, i, j); }
  }

  lemma {:induction false} NeverActive(ps: seq<Pair>, ms: seq<Move>, n: nat)
    requires IsDisciplinedRun(ps, ms) && n < |ps|
    ensures !ps[n].b.active
  {
    if n > 0 {
      NeverActive(ps, ms, n - 1);
      assert MovesAt(ps, ms, n - 1);
      if !ms[n - 1].left { NextActive(ps[n - 1].b, ms[n - 1].step, ms[n - 1].now); }
    }
  }
}
