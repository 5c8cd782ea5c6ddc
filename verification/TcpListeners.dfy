/** Listening rows.  As long as no application sends on a listener's own triple, a row in LISTEN is as fresh as it was
    created, so what it accepts is a fresh connection.  A closed listener keeps its row in FIN_WAIT_1 for good. */
module TcpListeners {
  import opened TcpPort
  import opened TcpConnection
  import opened TcpEngine
  import opened TcpDemux

  /** The application does not send on a row in LISTEN. */
  predicate Orderly(e: Engine, ev: Event) {
    ev.Sends? && FindPort(e.ports, ev.id) < |e.ports| ==> e.ports[FindPort(e.ports, ev.id)].state != Listen
  }

  predicate FreshListener(p: Port) { p.state == Listen ==> p == Listener(p.id.self) }

  ghost predicate ListenersFresh(ports: seq<Port>) { forall i :: 0 <= i < |ports| ==> FreshListener(ports[i]) }

  predicate ShutAt(ports: seq<Port>, i: nat, id: Triple) { i < |ports| && ports[i].id == id && IsShut(ports[i]) }

  /** A segment for this triple cannot reach a listener. */
  ghost predicate Bound(ports: seq<Port>, id: Triple) { Remote(id) || exists i :: ShutAt(ports, i, id) }

  ghost predicate Tame(e: Engine) {
    ListenersFresh(e.ports) &&
    (forall k :: 0 <= k < |e.queue| ==> Bound(e.ports, e.queue[k].to))
  }

  /** Rows of closed listeners stay, and new rows in LISTEN are fresh. */
  ghost predicate Settles(ports: seq<Port>, qs: seq<Port>) {
    |qs| == |ports| && ListenersFresh(qs) &&
    (forall i :: 0 <= i < |ports| && IsShut(ports[i]) ==> qs[i].id == ports[i].id && IsShut(qs[i]))
  }

  lemma BoundStays(ports: seq<Port>, qs: seq<Port>, id: Triple)
    requires Settles(ports, qs) && Bound(ports, id)
    ensures Bound(qs, id)
  {
    if !Remote(id) {
      var i :| ShutAt(ports, i, id);
      assert ShutAt(qs, i, id);
    }
  }

  lemma SettledTame(e: Engine, r: Engine, more: seq<Tx>)
    requires Tame(e) && Settles(e.ports, r.ports)
    requires forall k :: 0 <= k < |r.queue| ==> r.queue[k] in e.queue || r.queue[k] in more
    requires forall tx <- more :: Bound(r.ports, tx.to)
    ensures Tame(r)
  {
    forall k | 0 <= k < |r.queue| ensures Bound(r.ports, r.queue[k].to) {
      if r.queue[k] in e.queue {
        var j :| 0 <= j < |e.queue| && e.queue[j] == r.queue[k];
        BoundStays(e.ports, r.ports, e.queue[j].to);
      }
    }
  }

  lemma SettlesRefl(ports: seq<Port>)
    requires ListenersFresh(ports)
    ensures Settles(ports, ports)
  {
  }

  lemma SettlesTrans(a: seq<Port>, b: seq<Port>, c: seq<Port>)
    requires Settles(a, b) && Settles(b, c)
    ensures Settles(a, c)
  {
  }

  /** The row a bound triple resolves to is not listening. */
  lemma BoundRow(ports: seq<Port>, id: Triple)
    requires Distinct(ports) && Bound(ports, id) && FindPort(ports, id) < |ports|
    ensures id.self != 0 && ports[FindPort(ports, id)].state != Listen
  {
    var k := FindPort(ports, id);
    assert RowKind(ports[k]);
    if !Remote(id) {
      var i :| ShutAt(ports, i, id);
      assert i == k;
    }
  }

  /** The triple of a row that is not listening is bound. */
  lemma RowBound(ports: seq<Port>, k: nat)
    requires Distinct(ports) && k < |ports| && ports[k].state != Listen && ports[k].id.self != 0
    ensures Bound(ports, ports[k].id)
  {
    assert RowKind(ports[k]);
    if !Remote(ports[k].id) { assert ShutAt(ports, k, ports[k].id); }
  }

  /** A row that is not listening, with the same triple and state. */
  lemma UpdateSettles(ports: seq<Port>, i: nat, p: Port)
    requires i < |ports| && ListenersFresh(ports) && FreshListener(p)
    requires IsShut(ports[i]) ==> p.id == ports[i].id && p.state == FinWait1
    ensures Settles(ports, ports[i := p])
  {
  }

  // ----- one event -----

  lemma EnqueueTame(e: Engine, tx: Tx)
    requires Distinct(e.ports) && Tame(e) && tx.to.self != 0 && Enqueue(e, tx).Done?
    requires FindPort(e.ports, tx.to) < |e.ports| ==> e.ports[FindPort(e.ports, tx.to)].state != Listen
    ensures Tame(Enqueue(e, tx).e) && Settles(e.ports, Enqueue(e, tx).e.ports)
  {
    var i := FindPort(e.ports, tx.to);
    SettlesRefl(e.ports);
    if i < |e.ports| {
      var q := EnqueueOn(e.ports[i], tx, Room(e));
      UpdateSettles(e.ports, i, q.port);
      RowBound(e.ports, i);
      BoundStays(e.ports, e.ports[i := q.port], tx.to);
      SettledTame(e, Enqueue(e, tx).e, [tx]);
    }
  }

  lemma ServeTame(e: Engine, tick: Tick, env: Env)
    requires Distinct(e.ports) && Tame(e) && e.queue != []
    ensures Tame(ServeQueue(e, tick, env)) && Settles(e.ports, ServeQueue(e, tick, env).ports)
  {
    var tx, r := e.queue[0], ServeQueue(e, tick, env);
    var i := FindPort(e.ports, tx.to);
    SettlesRefl(e.ports);
    if env.allocOk && i < |e.ports| {
      BoundRow(e.ports, tx.to);
      var s := SendOn(e.self, e.ports[i], tx, tick);
      if s.Sent? { UpdateSettles(e.ports, i, s.port); }
    }
    SettledTame(e, r, []);
  }

  /** An arrival never reaches a closed listener's row. */
  lemma HeededTame(e: Engine, i: nat, s: Segment, tick: Tick)
    requires Distinct(e.ports) && Tame(e) && Fresh(e, Hears(s)) && i == Target(e.ports, s) < |e.ports|
    requires e.ports[i].state != Closed
    ensures var eff := Receive(e.ports[i], s, tick);
            var r := Heeded(e, i, s, eff);
            Tame(r) && Settles(e.ports, r.ports) && |eff.reliable| <= 1 && (forall tx <- eff.reliable :: Remote(tx.to))
  {
    var p := e.ports[i];
    assert RowKind(p);
    var eff := Receive(p, s, tick);
    HeededDistinct(e, i, s, tick);
    if p.state == Listen {
      ListenerKind(p, s, tick);
      ListenerLeaves(p, s, tick);
    } else {
      assert Remote(p.id);
      ReceiveKind(p, s, tick);
      ReceiveStates2(p, s, tick);
    }
    UpdateSettles(e.ports, i, eff.port);
    SettledTame(e, Heeded(e, i, s, eff), eff.acks);
  }

  lemma ListenerLeaves(p: Port, s: Segment, tick: Tick)
    requires p.state == Listen && s.control.syn
    ensures Receive(p, s, tick).port.state != Listen
  {
  }

  lemma InputTame(e: Engine, s: Segment, tick: Tick)
    requires Distinct(e.ports) && Tame(e) && Fresh(e, Hears(s)) && Input(e, s, tick).Done?
    ensures Tame(Input(e, s, tick).e) && Settles(e.ports, Input(e, s, tick).e.ports)
  {
    var i := Target(e.ports, s);
    SettlesRefl(e.ports);
    if i < |e.ports| && e.ports[i].state != Closed {
      var eff := Receive(e.ports[i], s, tick);
      HeededTame(e, i, s, tick);
      HeededDistinct(e, i, s, tick);
      if eff.reliable != [] {
        var mid := Heeded(e, i, s, eff);
        RemoteRow(mid.ports, eff.reliable[0].to);
        EnqueueTame(mid, eff.reliable[0]);
        SettlesTrans(e.ports, mid.ports, Enqueue(mid, eff.reliable[0]).e.ports);
      }
    }
  }

  lemma RemoteRow(ports: seq<Port>, id: Triple)
    requires Distinct(ports) && Remote(id)
    ensures FindPort(ports, id) < |ports| ==> ports[FindPort(ports, id)].state != Listen
  {
    if FindPort(ports, id) < |ports| { assert RowKind(ports[FindPort(ports, id)]); }
  }

  lemma ConnectTame(e: Engine, id: Triple)
    requires Distinct(e.ports) && Tame(e) && Fresh(e, Connects(id)) && ConnectPort(e, id).Done?
    ensures Tame(ConnectPort(e, id).e) && Settles(e.ports, ConnectPort(e, id).e.ports)
  {
    var i := FindUnused(e.ports);
    SettlesRefl(e.ports);
    if i < |e.ports| {
      var p := FreshPort(id, SynSent);
      var mid := e.(ports := e.ports[i := p]);
      DistinctUpdate(e.ports, i, p);
      UpdateSettles(e.ports, i, p);
      SettledTame(e, mid, []);
      RemoteRow(mid.ports, id);
      EnqueueTame(mid, ReplyTx(p, id.addr, SYN));
      SettlesTrans(e.ports, mid.ports, ConnectPort(e, id).e.ports);
    }
  }

  lemma ListenTame(e: Engine, self: nat)
    requires Distinct(e.ports) && Tame(e)
    ensures Tame(ListenPort(e, self)) && Settles(e.ports, ListenPort(e, self).ports)
  {
    var i := FindUnused(e.ports);
    SettlesRefl(e.ports);
    if i < |e.ports| { UpdateSettles(e.ports, i, FreshPort(Triple(self, 0, 0), Listen)); }
    SettledTame(e, ListenPort(e, self), []);
  }

  lemma CloseTame(e: Engine, id: Triple)
    requires Distinct(e.ports) && Tame(e) && id.self != 0 && ClosePort(e, id).Done?
    ensures Tame(ClosePort(e, id).e) && Settles(e.ports, ClosePort(e, id).e.ports)
  {
    var i := FindPort(e.ports, id);
    SettlesRefl(e.ports);
    if i < |e.ports| {
      assert RowKind(e.ports[i]);
      var p := e.ports[i].(state := FinWait1);
      var mid := e.(ports := e.ports[i := p]);
      DistinctUpdate(e.ports, i, p);
      UpdateSettles(e.ports, i, p);
      SettledTame(e, mid, []);
      FindsItself(mid.ports, i);
      EnqueueTame(mid, ReplyTx(p, id.addr, FIN));
      SettlesTrans(e.ports, mid.ports, ClosePort(e, id).e.ports);
    }
  }

  lemma AppSendTame(e: Engine, id: Triple, data: Payload)
    requires Distinct(e.ports) && Tame(e) && id.self != 0 && Orderly(e, Sends(id, data))
    ensures Tame(AppSend(e, id, data)) && Settles(e.ports, AppSend(e, id, data).ports)
  {
    var given := e.(mem := e.mem + GiveOf(data));
    SettlesRefl(e.ports);
    SettledTame(e, given, []);
    if Enqueue(given, DataTx(id, data)).Done? { EnqueueTame(given, DataTx(id, data)); }
    else { SettledTame(e, AppSend(e, id, data), []); }
  }

  lemma ScanPortTame(e: Engine, p: nat, tick: Tick, envs: seq<Env>)
    requires Distinct(e.ports) && Tame(e) && p < |e.ports| && |e.ports[p].unacked| == |envs| == MAX_UNACKED
    ensures Tame(ScanPort(e, p, tick, envs)) && Settles(e.ports, ScanPort(e, p, tick, envs).ports)
  {
    var row, r := e.ports[p], ScanPort(e, p, tick, envs);
    SettlesRefl(e.ports);
    if row.id.self != 0 {
      RetryAllKind(e.self, row, e.ports[FindPort(e.ports, row.id)].ackNum, tick, envs, MAX_UNACKED);
      UpdateSettles(e.ports, p, r.ports[p]);
    }
    SettledTame(e, r, []);
  }

  lemma {:induction false} ScanPortsTame(e: Engine, tick: Tick, envs: seq<seq<Env>>, n: nat)
    requires Distinct(e.ports) && Tame(e) && Scannable(e, envs) && n <= MAX_PORTS
    ensures Tame(ScanPorts(e, tick, envs, n)) && Settles(e.ports, ScanPorts(e, tick, envs, n).ports)
  {
    if n == 0 {
      SettlesRefl(e.ports);
    } else {
      ScanPortsTame(e, tick, envs, n - 1);
      ScanPortsDistinct(e, tick, envs, n - 1);
      var f := ScanPorts(e, tick, envs, n - 1);
      ScanPortTame(f, n - 1, tick, envs[n - 1]);
      SettlesTrans(e.ports, f.ports, ScanPort(f, n - 1, tick, envs[n - 1]).ports);
    }
  }

  /** Every event but a send on a listener keeps listeners fresh and the rows of closed listeners in place. */
  lemma HandleTame(e: Engine, ev: Event, tick: Tick)
    requires Distinct(e.ports) && Tame(e) && Admissible(e, ev) && Fresh(e, ev) && Orderly(e, ev)
    requires Handle(e, ev, tick).Done?
    ensures Tame(Handle(e, ev, tick).e) && Settles(e.ports, Handle(e, ev, tick).e.ports)
  {
    match ev
    case Sends(id, data) => AppSendTame(e, id, data);
    case Serves(env) => ServeTame(e, tick, env);
    case Hears(s) => InputTame(e, s, tick);
    case Connects(id) => ConnectTame(e, id);
    case Listens(self) => ListenTame(e, self);
    case Closes(id) => CloseTame(e, id);
    case Scans(envs) => ScanPortsTame(e, tick, envs, MAX_PORTS);
  }

  // ----- every run -----

  ghost predicate OrderlyAt(es: seq<Engine>, ats: seq<At>, i: nat) {
    HandlesAt(es, ats, i) && Fresh(es[i], ats[i].ev) && Orderly(es[i], ats[i].ev)
  }

  lemma StepTame(es: seq<Engine>, ats: seq<At>, i: nat)
    requires OrderlyAt(es, ats, i) && Distinct(es[i].ports) && Tame(es[i])
    ensures Tame(es[i + 1]) && Settles(es[i].ports, es[i + 1].ports)
  {
    HandleTame(es[i], ats[i].ev, ats[i].tick);
  }

  lemma OrderlyIsFresh(es: seq<Engine>, ats: seq<At>)
    requires forall i :: 0 <= i < |ats| ==> OrderlyAt(es, ats, i)
    ensures |ats| <= |es| && forall i :: 0 <= i < |ats| ==> Fresh(es[i], ats[i].ev)
  {
    if ats != [] { assert OrderlyAt(es, ats, |ats| - 1); }
    forall i | 0 <= i < |ats| ensures i < |es| && Fresh(es[i], ats[i].ev) { assert OrderlyAt(es, ats, i); }
  }

  lemma StartTame(self: Addr)
    ensures Tame(NewEngine(self))
  {
  }

  lemma {:induction false} RunTame(es: seq<Engine>, ats: seq<At>, n: nat)
    requires IsTableRun(es, ats) && n < |es| && forall i :: 0 <= i < |ats| ==> OrderlyAt(es, ats, i)
    ensures Distinct(es[n].ports) && Tame(es[n])
  {
    OrderlyIsFresh(es, ats);
    RunDistinct(es, ats, n);
    if n == 0 {
      StartTame(es[0].self);
    } else {
      RunTame(es, ats, n - 1);
      StepTame(es, ats, n - 1);
    }
  }

  /** The row of a closed listener is never freed: in every continuation it stays in FIN_WAIT_1 under its zero remote.
      */
  lemma {:induction false} ClosedListenerStays(es: seq<Engine>, ats: seq<At>, i: nat, j: nat, k: nat)
    requires IsTableRun(es, ats) && i <= j < |es| && forall m :: 0 <= m < |ats| ==> OrderlyAt(es, ats, m)
    requires |es[i].ports| == MAX_PORTS && k < MAX_PORTS && IsShut(es[i].ports[k])
    ensures |es[j].ports| == MAX_PORTS && es[j].ports[k].id == es[i].ports[k].id && IsShut(es[j].ports[k])
    decreases j - i
  {
    if i < j {
      ClosedListenerStays(es, ats, i, j - 1, k);
      RunTame(es, ats, j - 1);
      StepTame(es, ats, j - 1);
    }
  }

  /** Closing a listener makes its row such a one. */
  lemma CloseShuts(e: Engine, k: nat)
    requires Distinct(e.ports) && k < |e.ports| && e.ports[k].state == Listen && ClosePort(e, e.ports[k].id).Done?
    ensures IsShut(ClosePort(e, e.ports[k].id).e.ports[k]) && ClosePort(e, e.ports[k].id).e.ports[k].id == e.ports[k].id
  {
    assert RowKind(e.ports[k]);
    FindsItself(e.ports, k);
  }

  /** Why sends on a listener are set aside: one that is queued leaves the row in LISTEN short of a slot and a segment
      that will be recorded in it, and what the row accepts starts from there. */
  lemma SendSpoilsListener(e: Engine, k: nat, data: Payload)
    requires Distinct(e.ports) && Tame(e) && k < |e.ports| && e.ports[k].state == Listen && Room(e) > 0
    ensures var r := AppSend(e, e.ports[k].id, data);
            |r.ports| == |e.ports| && r.ports[k].state == Listen && r.ports[k].sem == MAX_UNACKED - 1 && !Tame(r)
  {
    assert RowKind(e.ports[k]) && FreshListener(e.ports[k]);
    FindsItself(e.ports, k);
    assert !FreshListener(AppSend(e, e.ports[k].id, data).ports[k]);
  }
}
