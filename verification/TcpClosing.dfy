/** A passive close driven through a whole table with other traffic in its send queue: the peer's FIN, the queue served
    until it is empty, and the acknowledgement of everything sent free the row. */
module TcpClosing {
  import opened TcpPort
  import opened TcpEngine
  import opened TcpDemux
  import opened TcpProjection
  import opened TcpArrivals
  import opened TcpEffects

  /** `es` is a run from `e` by the events `ats`. */
  ghost predicate TableRunsFrom(e: Engine, es: seq<Engine>, ats: seq<At>) {
    |es| == |ats| + 1 && es[0] == e && forall i :: 0 <= i < |ats| ==> HandlesAt(es, ats, i)
  }

  lemma TableRunsOn(e: Engine, es: seq<Engine>, ats: seq<At>, at: At, r: Engine)
    requires TableRunsFrom(e, es, ats) && Admissible(es[|ats|], at.ev)
    requires Handle(es[|ats|], at.ev, at.tick) == Done(r)
    ensures TableRunsFrom(e, es + [r], ats + [at])
  {
    forall i | 0 <= i < |ats + [at]| ensures HandlesAt(es + [r], ats + [at], i) {
      if i < |ats| { assert HandlesAt(es, ats, i); }
    }
  }

  /** Row `i` keeps all but its slots and its next number, and no callback is made. */
  predicate Spared(e: Engine, r: Engine, i: nat) {
    i < |e.ports| == |r.ports| && r.self == e.self && r.calls == e.calls && r.ports[i].id == e.ports[i].id &&
    r.ports[i].state == e.ports[i].state && r.ports[i].ackNum == e.ports[i].ackNum
  }

  lemma ServeSpares(e: Engine, env: Env, tick: Tick, i: nat)
    requires e.queue != [] && i < |e.ports|
    ensures Spared(e, ServeQueue(e, tick, env), i) && ServeQueue(e, tick, env).queue == e.queue[1..]
  {
  }

  /** Serving the queue until it is empty. */
  lemma {:induction false} QueueServed(e: Engine, es: seq<Engine>, ats: seq<At>, tick: Tick, i: nat)
    returns (fs: seq<Engine>, bts: seq<At>)
    requires TableRunsFrom(e, es, ats) && Distinct(es[|ats|].ports) && i < MAX_PORTS
    ensures TableRunsFrom(e, fs, bts) && ats <= bts
    ensures forall k :: |ats| <= k < |bts| ==> bts[k] == At(Serves(OK), tick)
    ensures var r := fs[|bts|]; Distinct(r.ports) && r.queue == [] && Spared(es[|ats|], r, i)
    decreases |es[|ats|].queue|
  {
    var f := es[|ats|];
    if f.queue == [] {
      fs, bts := es, ats;
    } else {
      var g := ServeQueue(f, tick, OK);
      HandleDistinct(f, Serves(OK), tick);
      ServeSpares(f, OK, tick, i);
      TableRunsOn(e, es, ats, At(Serves(OK), tick), g);
      fs, bts := QueueServed(e, es + [g], ats + [At(Serves(OK), tick)], tick, i);
    }
  }

  /** The acknowledgement of everything the row has sent. */
  function AckOfAll(e: Engine, i: nat): Segment
    requires i < |e.ports|
  {
    var p := e.ports[i];
    Segment(p.id.addr, e.self, p.id.other, p.id.self, p.ackNum, p.seqNum, ACK, [])
  }

  lemma FinHeard(e: Engine, i: nat, s: Segment, tick: Tick)
    requires Distinct(e.ports) && Fresh(e, Hears(s)) && i < |e.ports| && e.ports[i].id == Source(s)
    requires PeerCloses(e.ports[i], s) && e.ports[i].sem > 0 && Room(e) >= 2
    ensures Handle(e, Hears(s), tick).Done?
    ensures var r := Handle(e, Hears(s), tick).e;
            Distinct(r.ports) && r.self == e.self && r.ports[i].state == LastAck && r.ports[i].id == e.ports[i].id &&
            CallsGrew(e, r, Source(s), CallsMade(e.ports[i], s)) &&
            Tx(Source(s), e.ports[i].seqNum, FIN_ACK, Null) in r.queue
  {
    var p := e.ports[i];
    assert RowKind(p);
    FindsItself(e.ports, i);
    ReceiveOutcome(p, s, tick);
    var eff := Receive(p, s, tick);
    ReleaseGives(p, s);
    assert eff.port.sem == Absorb(p, s).sem;
    FinReplied(e, i, s, tick, eff);
    HandleDistinct(e, Hears(s), tick);
    ArrivalOutcomeInTable(e, i, s, tick, Handle(e, Hears(s), tick).e);
    assert Replies(p, s, Room(e)) == AckBack(p, s) + FinBack(p, s);
    assert FinBack(p, s)[0] in AckBack(p, s) + FinBack(p, s);
  }

  lemma FinReplied(e: Engine, i: nat, s: Segment, tick: Tick, eff: Effect)
    requires i < |e.ports| && e.ports[i].state != Closed && i == Target(e.ports, s) &&
             eff == Receive(e.ports[i], s, tick)
    requires |eff.acks| <= Room(e) && |eff.reliable| == 1 && eff.port.sem > 0 && eff.port.id == e.ports[i].id
    requires FindPort(e.ports, e.ports[i].id) == i && eff.reliable[0].to == e.ports[i].id
    ensures Input(e, s, tick).Done?
  {
    var mid := Heeded(e, i, s, eff);
    assert forall j :: 0 <= j < i ==> mid.ports[j].id != eff.port.id;
    assert FindPort(mid.ports, eff.reliable[0].to) == i by { assert mid.ports[i].id == eff.port.id; }
  }

  lemma AllAcknowledged(e: Engine, i: nat, tick: Tick)
    requires Distinct(e.ports) && i < |e.ports| && e.ports[i].state == LastAck && Remote(e.ports[i].id)
    ensures Handle(e, Hears(AckOfAll(e, i)), tick).Done?
    ensures var r := Handle(e, Hears(AckOfAll(e, i)), tick).e;
            Emptied(r.ports[i]) && OnlyRow(e, r, i) &&
            CallsGrew(e, r, e.ports[i].id, [OnDisconnect])
  {
    var s := AckOfAll(e, i);
    assert RowKind(e.ports[i]);
    FindsItself(e.ports, i);
    ReceiveOutcome(e.ports[i], s, tick);
    assert Handle(e, Hears(s), tick).Done?;
    ArrivalOutcomeInTable(e, i, s, tick, Handle(e, Hears(s), tick).e);
  }

  lemma CallsAdd(e: Engine, f: Engine, r: Engine, t: Triple, xs: seq<Callback>, ys: seq<Callback>)
    requires CallsGrew(e, f, t, xs) && CallsGrew(f, r, t, ys)
    ensures CallsGrew(e, r, t, xs + ys)
  {
    assert e.calls <= f.calls <= r.calls;
    forall k | 0 <= k < |xs + ys| ensures r.calls[|e.calls| + k] == Call(t, (xs + ys)[k]) {
      if k < |xs| {
        assert r.calls[|e.calls| + k] == f.calls[|e.calls| + k];
      } else {
        assert r.calls[|f.calls| + (k - |xs|)] == Call(t, ys[k - |xs|]);
      }
    }
  }

  lemma Finished(e: Engine, es: seq<Engine>, ats: seq<At>, tick: Tick, i: nat) returns (r: Engine)
    requires TableRunsFrom(e, es, ats) && Distinct(es[|ats|].ports) && i < MAX_PORTS
    requires var g := es[|ats|]; g.ports[i].state == LastAck && Remote(g.ports[i].id)
    ensures TableRunsFrom(e, es + [r], ats + [At(Hears(AckOfAll(es[|ats|], i)), tick)])
    ensures i < |r.ports| && Emptied(r.ports[i])
    ensures CallsGrew(es[|ats|], r, es[|ats|].ports[i].id, [OnDisconnect])
  {
    var g := es[|ats|];
    AllAcknowledged(g, i, tick);
    r := Handle(g, Hears(AckOfAll(g, i)), tick).e;
    TableRunsOn(e, es, ats, At(Hears(AckOfAll(g, i)), tick), r);
  }

  /** From any distinct table with a row in ESTABLISHED that has a slot, and room for two replies: hearing the peer's
      FIN, serving the queue with memory and room until it is empty, and hearing the acknowledgement of everything the
      row has sent frees the row, with the disconnection reported last. */
  lemma TablePassiveClose(e: Engine, i: nat, s: Segment, tick: Tick) returns (es: seq<Engine>, ats: seq<At>)
    requires Distinct(e.ports) && Fresh(e, Hears(s)) && i < |e.ports| && e.ports[i].id == Source(s)
    requires PeerCloses(e.ports[i], s) && e.ports[i].sem > 0 && Room(e) >= 2
    ensures TableRunsFrom(e, es, ats) && |ats| >= 2 && ats[0] == At(Hears(s), tick)
    ensures Tx(Source(s), e.ports[i].seqNum, FIN_ACK, Null) in es[1].queue && es[|ats| - 1].queue == []
    ensures forall k :: 1 <= k < |ats| - 1 ==> ats[k] == At(Serves(OK), tick)
    ensures i < |es[|ats| - 1].ports| && ats[|ats| - 1] == At(Hears(AckOfAll(es[|ats| - 1], i)), tick)
    ensures var r := es[|ats|];
            i < |r.ports| && Emptied(r.ports[i]) &&
            CallsGrew(e, r, Source(s), CallsMade(e.ports[i], s) + [OnDisconnect])
  {
    FinHeard(e, i, s, tick);
    var f := Handle(e, Hears(s), tick).e;
    assert HandlesAt([e, f], [At(Hears(s), tick)], 0);
    es, ats := QueueServed(e, [e, f], [At(Hears(s), tick)], tick, i);
    var g := es[|ats|];
    assert HandlesAt(es, ats, 0);
    var r := Finished(e, es, ats, tick, i);
    CallsAdd(e, f, r, Source(s), CallsMade(e.ports[i], s), [OnDisconnect]);
    es, ats := es + [r], ats + [At(Hears(AckOfAll(g, i)), tick)];
  }
}
