/** The callbacks of one port incarnation and the transitions of its state. */
module TcpCallbacks {
  import opened TcpPort
  import opened TcpConnection
  import opened TcpSoundness
  import opened TcpPair

  /** `on_connect` and then any number of `on_receive`. */
  predicate Open(t: seq<Callback>) {
    t != [] && t[0] == OnConnect && forall k :: 0 < k < |t| ==> t[k].OnReceive?
  }

  /** A prefix of connect, receive*, disconnect. */
  predicate InLanguage(t: seq<Callback>) {
    t == [] || Open(t) || (Open(t[..|t| - 1]) && t[|t| - 1] == OnDisconnect)
  }

  /** How the trace so far fits the state. */
  predicate TraceFits(state: State, t: seq<Callback>) {
    match state
    case SynSent => t == []
    case SynReceived => t == []
    case Established => Open(t)
    case FinWait1 => Open(t)
    case FinWait2 => Open(t)
    case LastAck => Open(t)
    case TimeWait => t != [] && InLanguage(t) && !Open(t)
    case _ => false
  }

  predicate InPhase(c: Conn) {
    match c.phase
    case Idle => c.hist.trace == []
    case Dead => InLanguage(c.hist.trace)
    case Live => TraceFits(c.port.state, c.hist.trace)
  }

  /** The intended transitions of one incarnation; `Closed` stands for not yet or no longer in the table. */
  predicate Edge(from: State, to: State) {
    from == to ||
    match from
    case Closed => to == SynSent || to == SynReceived
    case SynSent => to == Established || to == Closed
    case SynReceived => to == Established || to == Closed
    case Established => to == FinWait1 || to == LastAck || to == Closed
    case FinWait1 => to == FinWait2 || to == TimeWait || to == Closed
    case FinWait2 => to == TimeWait || to == Closed
    case LastAck => to == Closed
    case TimeWait => to == Closed
    case _ => false
  }

  /** How an arrival may change state and trace. */
  predicate Proper(from: State, to: State, calls: seq<Callback>) {
    Edge(from, to) &&
    (calls == [] || calls == [OnDisconnect] || calls == [OnConnect] ||
     (|calls| == 1 && calls[0].OnReceive? && from == Established)) &&
    (calls == [OnConnect] <==> to == Established && from != Established) &&
    (calls == [OnDisconnect] ==> (from == LastAck && to == Closed) || (to == TimeWait && from != TimeWait)) &&
    (to == TimeWait && from != TimeWait ==> calls == [OnDisconnect])
  }

  /** Every arrival follows the intended graph and never enters CLOSE_WAIT. */
  lemma ReceiveProper(p: Port, s: Segment, tick: Tick)
    requires p.state !in {Closed, Listen, CloseWait}
    ensures Proper(p.state, Receive(p, s, tick).port.state, Receive(p, s, tick).calls)
  {
    if !s.control.rst && !Ignored(p, s) { SwitchProper(Absorb(p, s), s, tick, AckFor(p, s), AbsorbMem(p, s)); }
  }

  lemma SwitchProper(p: Port, s: Segment, tick: Tick, acks: seq<Tx>, mem: seq<MemEvent>)
    requires p.state !in {Closed, Listen, CloseWait}
    ensures var e := Switch(p, s, tick, acks, mem); Proper(p.state, e.port.state, e.calls)
  {
  }

  /** One arrival, on state and trace alone. */
  lemma ProperTrace(from: State, to: State, t: seq<Callback>, calls: seq<Callback>)
    requires TraceFits(from, t) && from != Closed && to != Closed && Proper(from, to, calls)
    ensures TraceFits(to, t + calls)
  {
    var u := t + calls;
    assert calls == [] ==> u == t;
    assert |calls| == 1 ==> u[..|u| - 1] == t && u[|u| - 1] == calls[0];
  }

  lemma ProperEnd(from: State, t: seq<Callback>, calls: seq<Callback>)
    requires TraceFits(from, t) && from != Closed && Proper(from, Closed, calls)
    ensures InLanguage(t + calls)
  {
    var u := t + calls;
    assert calls == [] ==> u == t;
    assert |calls| == 1 ==> u[..|u| - 1] == t && u[|u| - 1] == calls[0];
  }

  lemma ArrivalInPhase(c: Conn, eff: Effect, room: nat)
    requires InPhase(c) && c.phase == Live && c.port.state != Closed && Fits(eff, room)
    requires Proper(c.port.state, eff.port.state, eff.calls)
    ensures InPhase(Heard(c, eff, room))
  {
    HeardFields(c, eff, room);
    if eff.port.state == Closed {
      ProperEnd(c.port.state, c.hist.trace, eff.calls);
    } else {
      ProperTrace(c.port.state, eff.port.state, c.hist.trace, eff.calls);
    }
  }

  /** A close command handled once `on_connect` has been called and the port has not disconnected. */
  predicate CloseAllowed(c: Conn, step: Step) {
    step.Close? ==> c.port.state in {Established, FinWait1, FinWait2, LastAck}
  }

  lemma ScanInPhase(c: Conn, envs: seq<Env>)
    requires InPhase(c) && Enabled(c, Scan(envs))
    ensures InPhase(DoScan(c, envs))
  {
    ScanSpeaks(c, envs, MAX_UNACKED);
    ScanKeepsPhase(c, envs, MAX_UNACKED);
  }

  lemma ArriveNextInPhase(c: Conn, s: Segment, room: nat)
    requires InPhase(c) && Enabled(c, Arrive(s, room))
    ensures InPhase(Heard(c, Receive(c.port, s, TickOf(c.now)), room))
  {
    ReceiveProper(c.port, s, TickOf(c.now));
    ArrivalInPhase(c, Receive(c.port, s, TickOf(c.now)), room);
  }

  lemma AcceptInPhase(c: Conn, s: Segment, room: nat)
    requires InPhase(c) && Enabled(c, Accept(s, room))
    ensures InPhase(Heard(c.(phase := Live), Receive(Listener(c.id.self), s, TickOf(c.now)), room))
  {
    AcceptShape(c.id.self, s, TickOf(c.now));
  }

  lemma TransmitInPhase(c: Conn, env: Env)
    requires InPhase(c) && Enabled(c, Transmit(env))
    ensures InPhase(DoTransmit(c, env))
  {
  }

  lemma NextInPhase(c: Conn, step: Step, now: nat)
    requires c.now <= now && Enabled(c.(now := now), step) && InPhase(c) && CloseAllowed(c, step)
    ensures InPhase(Next(c, step, now))
  {
    var d := c.(now := now);
    match step
    case Arrive(s, room) => ArriveNextInPhase(d, s, room);
    case Accept(s, room) => AcceptInPhase(d, s, room);
    case Scan(envs) => ScanInPhase(d, envs);
    case Transmit(env) => TransmitInPhase(d, env);
    case _ =>
  }
}
