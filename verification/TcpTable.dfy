/** Runs of one port table, with a real clock, against any network: for every remote triple such a run contains a run of
    the triple's connection, so what holds of connections holds of the table. */
module TcpTable {
  import opened TcpPort
  import opened TcpConnection
  import opened TcpSoundness
  import opened TcpEngine
  import opened TcpListeners
  import opened TcpDemux
  import opened TcpProjection
  import opened TcpCallbacks
  import opened TcpTheorems

  /** The real time before event `n`. */
  function TimeAt(clock: seq<nat>, n: nat): nat
    requires n <= |clock|
  {
    if n == 0 then 0 else clock[n - 1]
  }

  predicate TicksAt(ats: seq<At>, clock: seq<nat>, i: nat) {
    i < |ats| && i < |clock| && TimeAt(clock, i) <= clock[i] && ats[i].tick == TickOf(clock[i])
  }

  /** A run in which no application sends on a listener's own triple, with the clock its ticks come from. */
  ghost predicate IsTimedRun(es: seq<Engine>, ats: seq<At>, clock: seq<nat>) {
    IsTableRun(es, ats) && |clock| == |ats| && (forall i :: 0 <= i < |ats| ==> OrderlyAt(es, ats, i)) &&
    forall i :: 0 <= i < |ats| ==> TicksAt(ats, clock, i)
  }

  predicate OpensIn(es: seq<Engine>, ats: seq<At>, i: nat, t: Triple) {
    i < |ats| && i < |es| && Opens(es[i], ats[i].ev, t)
  }

  /** The triple has come to life in the first `n` events. */
  predicate OpenedIn(es: seq<Engine>, ats: seq<At>, n: nat, t: Triple) {
    n > 0 && (OpenedIn(es, ats, n - 1, t) || OpensIn(es, ats, n - 1, t))
  }

  predicate ReopensIn(es: seq<Engine>, ats: seq<At>, i: nat, t: Triple) {
    OpenedIn(es, ats, i, t) && OpensIn(es, ats, i, t)
  }

  ghost predicate OpensOnce(es: seq<Engine>, ats: seq<At>, t: Triple) {
    forall i :: 0 <= i < |ats| ==> !ReopensIn(es, ats, i, t)
  }

  /** The event loses a semaphore slot of the triple's port: a first send that fails before it is recorded, or a
      zero-length one. */
  predicate LosesSlot(e: Engine, ev: Event, t: Triple) {
    ev.Serves? && e.queue != [] && e.queue[0].to == t && RowFor(e.ports, t).Row? && Reliable(e.queue[0]) &&
    (!ev.env.allocOk || Consumes(e.queue[0].control, Bytes(e.queue[0].data)) == 0)
  }

  function SlotsLost(es: seq<Engine>, ats: seq<At>, n: nat, t: Triple): nat
    requires n <= |ats| && n <= |es|
  {
    if n == 0 then 0 else SlotsLost(es, ats, n - 1, t) + if LosesSlot(es[n - 1], ats[n - 1].ev, t) then 1 else 0
  }

  /** A close command for the triple finds its port between connection and disconnection. */
  predicate CloseFits(e: Engine, ev: Event, t: Triple) {
    ev == Closes(t) && RowFor(e.ports, t).Row? ==>
      RowFor(e.ports, t).p.state in {Established, FinWait1, FinWait2, LastAck}
  }

  ghost predicate ClosesFit(es: seq<Engine>, ats: seq<At>, n: nat, t: Triple)
    requires n <= |ats| && n <= |es|
  {
    forall i :: 0 <= i < n ==> CloseFits(es[i], ats[i].ev, t)
  }

  ghost predicate ClosesAllowed(cs: seq<Conn>, ts: seq<Timed>)
    requires |cs| == |ts| + 1
  {
    forall j :: 0 <= j < |ts| ==> CloseAllowed(cs[j], ts[j].step)
  }

  /** The connection run that the first `n` events contain. */
  ghost predicate Contains(es: seq<Engine>, ats: seq<At>, clock: seq<nat>, n: nat, t: Triple, cs: seq<Conn>,
                           ts: seq<Timed>)
    requires n <= |ats| == |clock| && n < |es|
  {
    IsConnRun(cs, ts) &&
    var c := cs[|ts|];
    var contained :=
      Shows(es[n], t, c) && (c.phase != Idle <==> OpenedIn(es, ats, n, t)) && c.now <= TimeAt(clock, n) &&
      c.hist.lost == SlotsLost(es, ats, n, t) && (ClosesFit(es, ats, n, t) ==> ClosesAllowed(cs, ts));
    contained
  }

  /** One event, as the connection sees it. */
  lemma EventShows(es: seq<Engine>, ats: seq<At>, clock: seq<nat>, i: nat, t: Triple, c: Conn)
    returns (d: Conn, moved: bool, step: Step)
    requires IsTimedRun(es, ats, clock) && i < |ats| && Remote(t) && Shows(es[i], t, c) && Sound(c) && c.now <= clock[i]
    requires OpensIn(es, ats, i, t) ==> c.phase == Idle
    ensures Shows(es[i + 1], t, d) && Follows(c, d, moved, step, clock[i])
    ensures d.phase != Idle <==> c.phase != Idle || OpensIn(es, ats, i, t)
    ensures d.hist.lost == c.hist.lost + if LosesSlot(es[i], ats[i].ev, t) then 1 else 0
    ensures moved && CloseFits(es[i], ats[i].ev, t) ==> CloseAllowed(c, step)
    ensures c.phase == Live && ats[i].ev == Closes(t) <==> moved && step.Close?
  {
    RunTame(es, ats, i);
    assert OrderlyAt(es, ats, i) && TicksAt(ats, clock, i);
    d, moved, step := HandleShows(es[i], ats[i].ev, t, c, clock[i], es[i + 1]);
    if moved { NextLoses(c, step, clock[i]); }
  }

  lemma ExtendContained(es: seq<Engine>, ats: seq<At>, clock: seq<nat>, n: nat, t: Triple, cs: seq<Conn>,
                        ts: seq<Timed>, d: Conn, moved: bool, step: Step)
    returns (cs': seq<Conn>, ts': seq<Timed>)
    requires n < |ats| == |clock| && n + 1 < |es| && Contains(es, ats, clock, n, t, cs, ts) && TicksAt(ats, clock, n)
    requires Shows(es[n + 1], t, d) && Follows(cs[|ts|], d, moved, step, clock[n])
    requires d.phase != Idle <==> cs[|ts|].phase != Idle || OpensIn(es, ats, n, t)
    requires d.hist.lost == cs[|ts|].hist.lost + if LosesSlot(es[n], ats[n].ev, t) then 1 else 0
    requires moved && CloseFits(es[n], ats[n].ev, t) ==> CloseAllowed(cs[|ts|], step)
    requires d.now <= clock[n]
    ensures Contains(es, ats, clock, n + 1, t, cs', ts')
  {
    cs', ts' := cs, ts;
    if moved {
      ExtendConnRun(cs, ts, Timed(step, clock[n]), d);
      cs', ts' := cs + [d], ts + [Timed(step, clock[n])];
    }
  }

  /** In every run of the table the events contain a run of the connection on any remote triple that comes to life at
      most once, and the table always shows that connection. */
  lemma {:induction false} TableRunIsConnRun(es: seq<Engine>, ats: seq<At>, clock: seq<nat>, n: nat, t: Triple)
    returns (cs: seq<Conn>, ts: seq<Timed>)
    requires IsTimedRun(es, ats, clock) && n < |es| && Remote(t) && OpensOnce(es, ats, t)
    ensures Contains(es, ats, clock, n, t, cs, ts)
  {
    if n == 0 {
      cs, ts := [NewConn(es[0].self, t, 0)], [];
      StartContained(es, ats, clock, t, cs, ts);
    } else {
      var bs, us := TableRunIsConnRun(es, ats, clock, n - 1, t);
      ConnRunSound(bs, us, |us|);
      assert !ReopensIn(es, ats, n - 1, t) && TicksAt(ats, clock, n - 1);
      var d, moved, step := EventShows(es, ats, clock, n - 1, t, bs[|us|]);
      if moved { NextClock(bs[|us|], step, clock[n - 1]); }
      cs, ts := ExtendContained(es, ats, clock, n - 1, t, bs, us, d, moved, step);
    }
  }

  lemma StartContained(es: seq<Engine>, ats: seq<At>, clock: seq<nat>, t: Triple, cs: seq<Conn>, ts: seq<Timed>)
    requires IsTimedRun(es, ats, clock) && Remote(t) && cs == [NewConn(es[0].self, t, 0)] && ts == []
    ensures Contains(es, ats, clock, 0, t, cs, ts)
  {
    var i := FindPort(es[0].ports, t);
  }

  // ----- what follows for the table -----

  /** Slot conservation in the table: of a live row's eight slots each is in the semaphore, in use, in the queue or was
      lost by one of the events that lose one; and the full-buffer branch is unreachable. */
  lemma TableSlotConservation(es: seq<Engine>, ats: seq<At>, clock: seq<nat>, n: nat, t: Triple)
    requires IsTimedRun(es, ats, clock) && n < |es| && Remote(t) && OpensOnce(es, ats, t)
    requires RowFor(es[n].ports, t).Row?
    ensures var p, q := RowFor(es[n].ports, t).p, QueueFor(es[n].queue, t);
            p.sem + InUse(p.unacked) + ReliableCount(q) + SlotsLost(es, ats, n, t) == MAX_UNACKED &&
            (q != [] && Reliable(q[0]) ==> FirstFree(p.unacked) < MAX_UNACKED)
  {
    var cs, ts := TableRunIsConnRun(es, ats, clock, n, t);
    SlotConservation(cs, ts, |ts|);
    LostIsLosses(cs, ts, |ts|);
  }

  /** The callback language in the table: when every close command for the triple finds its port between connection and
      disconnection, the callbacks made for it are a prefix of connect, receive*, disconnect. */
  lemma TableCallbackLanguage(es: seq<Engine>, ats: seq<At>, clock: seq<nat>, n: nat, t: Triple)
    requires IsTimedRun(es, ats, clock) && n < |es| && Remote(t) && OpensOnce(es, ats, t) && ClosesFit(es, ats, n, t)
    ensures InLanguage(CallsFor(es[n].calls, t))
    ensures RowFor(es[n].ports, t).Row? ==> RowFor(es[n].ports, t).p.state != CloseWait
  {
    var cs, ts := TableRunIsConnRun(es, ats, clock, n, t);
    CallbackLanguage(cs, ts, |ts|);
  }

  /** Sequence tiling in the table: the segments sent on the triple that consume numbers repeat the tiles of a stream
      that the tiles partition and whose length is the row's `seq_num` modulo 2^32. */
  lemma TableTiling(es: seq<Engine>, ats: seq<At>, clock: seq<nat>, n: nat, t: Triple)
    returns (stream: seq<Item>, tiles: seq<Tile>)
    requires IsTimedRun(es, ats, clock) && n < |es| && Remote(t) && OpensOnce(es, ats, t)
    ensures Partition(stream, tiles)
    ensures RowFor(es[n].ports, t).Row? ==> RowFor(es[n].ports, t).p.seqNum == Wrap(|stream|)
    ensures forall s <- SentFor(es[n].sent, t) :: Consumes(s.control, s.bytes) > 0 ==>
              exists k :: 0 <= k < |tiles| && Repeats(s, tiles[k])
  {
    var cs, ts := TableRunIsConnRun(es, ats, clock, n, t);
    SequenceTiling(cs, ts, |ts|);
    stream, tiles := cs[|ts|].hist.stream, cs[|ts|].hist.tiles;
  }

  function StateIn(e: Engine, t: Triple): State {
    if RowFor(e.ports, t).Row? then RowFor(e.ports, t).p.state else Closed
  }

  /** The transition graph in the table: an event takes the port of a triple out of the intended graph exactly when it
      is a close command that finds it outside ESTABLISHED and FIN_WAIT_1. */
  lemma TableTransitionGraphIff(es: seq<Engine>, ats: seq<At>, clock: seq<nat>, n: nat, t: Triple)
    requires IsTimedRun(es, ats, clock) && n < |ats| && Remote(t) && OpensOnce(es, ats, t)
    ensures Edge(StateIn(es[n], t), StateIn(es[n + 1], t)) <==>
            !(ats[n].ev == Closes(t) && RowFor(es[n].ports, t).Row? &&
              StateIn(es[n], t) !in {Established, FinWait1})
  {
    var cs, ts := TableRunIsConnRun(es, ats, clock, n, t);
    var c := cs[|ts|];
    ConnRunSound(cs, ts, |ts|);
    assert !ReopensIn(es, ats, n, t) && TicksAt(ats, clock, n);
    var d, moved, step := EventShows(es, ats, clock, n, t, c);
    assert StateIn(es[n], t) == StateOf(c) && StateIn(es[n + 1], t) == StateOf(d);
    if moved { NextEdge(c, step, clock[n]); }
  }
}
