/** Two hosts, each running the whole port table, with other traffic around them.  One connection between them, seen
    through both tables, is a run of the two-endpoint system. */
module TcpHosts {
  import opened TcpPort
  import opened TcpConnection
  import opened TcpSoundness
  import opened TcpPair
  import opened TcpBacking
  import opened TcpEngine
  import opened TcpDemux
  import opened TcpListeners
  import opened TcpProjection

  datatype Hosts = Hosts(a: Engine, b: Engine, now: nat)

  datatype Act = Act(left: bool, ev: Event, now: nat)

  function Me(h: Hosts, left: bool): Engine { if left then h.a else h.b }

  /** A segment may come from anything the peer ever sent to this host, or from a third host. */
  predicate MayArrive(s: Segment, me: Engine, peer: Engine) {
    (s in peer.sent && s.dstAddr == me.self) || s.srcAddr != peer.self
  }

  predicate CanAct(h: Hosts, act: Act) {
    var me, peer := Me(h, act.left), Me(h, !act.left);
    var can := h.now <= act.now && Admissible(me, act.ev) && Fresh(me, act.ev) && Orderly(me, act.ev) &&
      Handle(me, act.ev, TickOf(act.now)).Done? &&
               (act.ev.Hears? ==> MayArrive(act.ev.s, me, peer));
    can
  }

  function Acted(h: Hosts, act: Act): Hosts
    requires CanAct(h, act)
  {
    var r := Handle(Me(h, act.left), act.ev, TickOf(act.now)).e;
    if act.left then Hosts(r, h.b, act.now) else Hosts(h.a, r, act.now)
  }

  predicate ActsAt(hs: seq<Hosts>, acts: seq<Act>, i: nat) {
    i < |acts| && i + 1 < |hs| && CanAct(hs[i], acts[i]) && hs[i + 1] == Acted(hs[i], acts[i])
  }

  ghost predicate IsHostRun(hs: seq<Hosts>, acts: seq<Act>) {
    |hs| == |acts| + 1 && hs[0].a == NewEngine(hs[0].a.self) && hs[0].b == NewEngine(hs[0].b.self) &&
    hs[0].a.self != 0 && hs[0].b.self != 0 && hs[0].a.self != hs[0].b.self &&
    forall i :: 0 <= i < |acts| ==> ActsAt(hs, acts, i)
  }

  /** The connection between local port `pa` of the first host and `pb` of the second, from either side. */
  function Side(h: Hosts, left: bool, pa: nat, pb: nat): Triple {
    if left then Triple(pa, pb, h.b.self) else Triple(pb, pa, h.a.self)
  }

  predicate OpensAt(hs: seq<Hosts>, acts: seq<Act>, i: nat, left: bool, pa: nat, pb: nat)
    requires i < |acts| && i < |hs|
  {
    acts[i].left == left && Opens(Me(hs[i], left), acts[i].ev, Side(hs[i], left, pa, pb))
  }

  /** One side has brought the connection's triple to life in the first `n` steps. */
  predicate OpenedBy(hs: seq<Hosts>, acts: seq<Act>, n: nat, left: bool, pa: nat, pb: nat)
    requires n <= |acts| && n <= |hs|
  {
    n > 0 && (OpenedBy(hs, acts, n - 1, left, pa, pb) || OpensAt(hs, acts, n - 1, left, pa, pb))
  }

  /** One side has opened the connection by a connect command in the first `n` steps. */
  predicate DialledBy(hs: seq<Hosts>, acts: seq<Act>, n: nat, left: bool, pa: nat, pb: nat)
    requires n <= |acts| && n <= |hs|
  {
    n > 0 &&
    (DialledBy(hs, acts, n - 1, left, pa, pb) || (acts[n - 1].ev.Connects? && OpensAt(hs, acts, n - 1, left, pa, pb)))
  }

  predicate ReopensAt(hs: seq<Hosts>, acts: seq<Act>, i: nat, pa: nat, pb: nat)
    requires i < |acts| && i < |hs|
  {
    OpenedBy(hs, acts, i, acts[i].left, pa, pb) && OpensAt(hs, acts, i, acts[i].left, pa, pb)
  }

  /** Neither side brings the connection's triple to life twice. */
  ghost predicate OpenedOnce(hs: seq<Hosts>, acts: seq<Act>, pa: nat, pb: nat)
    requires |hs| == |acts| + 1
  {
    forall i :: 0 <= i < |acts| ==> !ReopensAt(hs, acts, i, pa, pb)
  }

  /** Sequence numbers the next queued transmission may consume on triple `t`. */
  function Cost(e: Engine, ev: Event, t: Triple): nat {
    if ev.Serves? && e.queue != [] && e.queue[0].to == t
    then Consumes(e.queue[0].control, Bytes(e.queue[0].data))
    else 0
  }

  /** Sequence numbers handed out on the connection by one side in the first `n` steps, at most. */
  function Numbered(hs: seq<Hosts>, acts: seq<Act>, n: nat, left: bool, pa: nat, pb: nat): nat
    requires n <= |acts| && n <= |hs|
  {
    if n == 0 then 0
    else
      Numbered(hs, acts, n - 1, left, pa, pb) +
      if acts[n - 1].left == left then Cost(Me(hs[n - 1], left), acts[n - 1].ev, Side(hs[n - 1], left, pa, pb)) else 0
  }

  // ----- what every host step keeps -----

  ghost predicate Sane(h: Hosts) {
    var sane := Distinct(h.a.ports) && Distinct(h.b.ports) && Tame(h.a) && Tame(h.b);
    sane
  }

  lemma ActedSane(h: Hosts, act: Act)
    requires Sane(h) && CanAct(h, act)
    ensures var g := Acted(h, act); Sane(g) && g.a.self == h.a.self && g.b.self == h.b.self && g.now == act.now
  {
    var me := Me(h, act.left);
    HandleDistinct(me, act.ev, TickOf(act.now));
    HandleTame(me, act.ev, TickOf(act.now));
    HandleGrows(me, act.ev, TickOf(act.now));
  }

  lemma NewEngineDistinct(self: Addr)
    ensures Distinct(NewEngine(self).ports) && Tame(NewEngine(self))
  {
  }

  lemma {:induction false} RunSane(hs: seq<Hosts>, acts: seq<Act>, n: nat)
    requires IsHostRun(hs, acts) && n < |hs|
    ensures Sane(hs[n]) && hs[n].a.self == hs[0].a.self && hs[n].b.self == hs[0].b.self
  {
    if n == 0 {
      NewEngineDistinct(hs[0].a.self);
      NewEngineDistinct(hs[0].b.self);
    } else {
      RunSane(hs, acts, n - 1);
      assert ActsAt(hs, acts, n - 1);
      ActedSane(hs[n - 1], acts[n - 1]);
    }
  }

  // ----- the connection through both tables -----

  lemma {:induction false} SentForHas(sent: seq<Segment>, s: Segment, t: Triple)
    ensures s in SentFor(sent, t) <==> s in sent && OnTriple(s, t)
  {
    if sent != [] {
      var n := |sent| - 1;
      SentForHas(sent[..n], s, t);
      assert sent == sent[..n] + [sent[n]];
    }
  }

  lemma StreamGrowth(c: Conn, step: Step, now: nat)
    requires Sound(c) && c.now <= now && Enabled(c.(now := now), step)
    ensures |Next(c, step, now).hist.stream| <= |c.hist.stream| +
            if step.Transmit? then Consumes(c.queue[0].control, Bytes(c.queue[0].data)) else 0
  {
    if step.Scan? {
      Later(c, now);
      if !TimedOut(c.port, TickOf(now)) { ScanSlotsSound(c.(now := now), step.envs, MAX_UNACKED); }
    } else if step.Transmit? {
      assert TxOk(c.queue[0], c.id, c.hist.stream);
    }
  }

  /** The pair `p` is the connection `pa`-`pb` of hosts `h`. */
  ghost predicate Reflects(h: Hosts, pa: nat, pb: nat, p: Pair) {
    var shown := Shows(h.a, Side(h, true, pa, pb), p.a) && Shows(h.b, Side(h, false, pa, pb), p.b);
    shown && p.a.now <= h.now && p.b.now <= h.now
  }

  lemma HeardFromPeer(me: Engine, peer: Engine, t: Triple, s: Segment, other: Conn)
    requires Source(s) == t && t.addr == peer.self && MayArrive(s, me, peer) &&
             Shows(peer, Triple(t.other, t.self, me.self), other)
    ensures s in other.sent
  {
    SentForHas(peer.sent, s, Triple(t.other, t.self, me.self));
  }

  /** The event opens the triple actively. */
  predicate Dials(e: Engine, ev: Event, t: Triple) { ev.Connects? && Opens(e, ev, t) }

  /** One step of a host, seen from its side of the connection. */
  lemma SideActs(me: Engine, peer: Engine, t: Triple, ev: Event, now: nat, c: Conn, other: Conn, r: Engine)
    returns (d: Conn, moved: bool, step: Step)
    requires ListenersFresh(me.ports)
    requires Distinct(me.ports) && Admissible(me, ev) && Fresh(me, ev) && Handle(me, ev, TickOf(now)) == Done(r)
    requires ev.Hears? ==> MayArrive(ev.s, me, peer)
    requires Remote(t) && t.addr == peer.self && Shows(me, t, c) && Shows(peer, Triple(t.other, t.self, me.self), other)
    requires Sound(c) && c.now <= now && (Opens(me, ev, t) ==> c.phase == Idle)
    ensures Shows(r, t, d) && Follows(c, d, moved, step, now) && (moved ==> FromPeer(step, other))
    ensures d.phase != Idle <==> c.phase != Idle || Opens(me, ev, t)
    ensures |d.hist.stream| <= |c.hist.stream| + Cost(me, ev, t)
    ensures d.now <= now
    ensures d.active <==> c.active || Dials(me, ev, t)
  {
    d, moved, step := HandleShows(me, ev, t, c, now, r);
    if moved {
      StreamGrowth(c, step, now);
      if HearsStep(step) { HeardFromPeer(me, peer, t, ev.s, other); }
      NextClock(c, step, now);
      NextActive(c, step, now);
    }
  }

  /** What a host step does to the connection's pair: at most one move, of the acting side. */
  ghost predicate Outcome(h: Hosts, act: Act, pa: nat, pb: nat, p: Pair, q: Pair, moved: bool, m: Move) {
    var me, t := Me(h, act.left), Side(h, act.left, pa, pb);
    var c, d := if act.left then p.a else p.b, if act.left then q.a else q.b;
    var outcome :=
      (if moved then CanMove(p, m) && q == Moved(p, m) else q == p) &&
      (d.phase != Idle <==> c.phase != Idle || Opens(me, act.ev, t)) &&
      (d.active <==> c.active || Dials(me, act.ev, t)) &&
      (if act.left then q.b == p.b else q.a == p.a) &&
      |d.hist.stream| <= |c.hist.stream| + Cost(me, act.ev, t);
    outcome
  }

  lemma LeftReflects(h: Hosts, act: Act, pa: nat, pb: nat, p: Pair, g: Hosts) returns (q: Pair, moved: bool, m: Move)
    requires Sane(h) && CanAct(h, act) && act.left && g == Acted(h, act) && Reflects(h, pa, pb, p) && Sound(p.a)
    requires pa != 0 && pb != 0 && h.a.self != 0 && h.b.self != 0 && g.a.self == h.a.self
    requires Opens(h.a, act.ev, Side(h, true, pa, pb)) ==> p.a.phase == Idle
    ensures Reflects(g, pa, pb, q) && Outcome(h, act, pa, pb, p, q, moved, m)
  {
    var d, did, step := SideActs(h.a, h.b, Side(h, true, pa, pb), act.ev, act.now, p.a, p.b, g.a);
    q, moved, m := p.(a := d), did, Move(true, step, act.now);
  }

  lemma RightReflects(h: Hosts, act: Act, pa: nat, pb: nat, p: Pair, g: Hosts) returns (q: Pair, moved: bool, m: Move)
    requires Sane(h) && CanAct(h, act) && !act.left && g == Acted(h, act) && Reflects(h, pa, pb, p) && Sound(p.b)
    requires pa != 0 && pb != 0 && h.a.self != 0 && h.b.self != 0 && g.b.self == h.b.self
    requires Opens(h.b, act.ev, Side(h, false, pa, pb)) ==> p.b.phase == Idle
    ensures Reflects(g, pa, pb, q) && Outcome(h, act, pa, pb, p, q, moved, m)
  {
    var d, did, step := SideActs(h.b, h.a, Side(h, false, pa, pb), act.ev, act.now, p.b, p.a, g.b);
    q, moved, m := p.(b := d), did, Move(false, step, act.now);
  }

  /** One host step is at most one move of the pair. */
  lemma ActReflects(h: Hosts, act: Act, pa: nat, pb: nat, p: Pair, g: Hosts) returns (q: Pair, moved: bool, m: Move)
    requires Sane(h) && CanAct(h, act) && g == Acted(h, act) && Reflects(h, pa, pb, p) && Agree(p)
    requires pa != 0 && pb != 0 && h.a.self != 0 && h.b.self != 0
    requires Opens(Me(h, act.left), act.ev, Side(h, act.left, pa, pb)) ==> (if act.left then p.a else p.b).phase == Idle
    ensures Reflects(g, pa, pb, q) && Outcome(h, act, pa, pb, p, q, moved, m)
  {
    ActedSane(h, act);
    if act.left {
      q, moved, m := LeftReflects(h, act, pa, pb, p, g);
    } else {
      q, moved, m := RightReflects(h, act, pa, pb, p, g);
    }
  }

  // ----- whole runs -----

  /** The pair reached after `n` host steps, with what is known of it. */
  ghost predicate Tracks(hs: seq<Hosts>, acts: seq<Act>, n: nat, pa: nat, pb: nat, p: Pair)
    requires n <= |acts| && n < |hs|
  {
    var tracked :=
      Reflects(hs[n], pa, pb, p) && SideTracks(hs, acts, n, true, pa, pb, p.a) &&
      SideTracks(hs, acts, n, false, pa, pb, p.b);
    tracked
  }

  /** What is known of one side after `n` host steps. */
  predicate SideTracks(hs: seq<Hosts>, acts: seq<Act>, n: nat, left: bool, pa: nat, pb: nat, c: Conn)
    requires n <= |acts| && n <= |hs|
  {
    (c.phase != Idle <==> OpenedBy(hs, acts, n, left, pa, pb)) &&
    (c.active <==> DialledBy(hs, acts, n, left, pa, pb)) &&
    |c.hist.stream| <= Numbered(hs, acts, n, left, pa, pb)
  }

  lemma StartReflects(h: Hosts, pa: nat, pb: nat) returns (p: Pair)
    requires h.a == NewEngine(h.a.self) && h.b == NewEngine(h.b.self) && pa != 0 && pb != 0
    ensures Reflects(h, pa, pb, p) && Start(p) && p.a.phase == Idle == p.b.phase && !p.a.active && !p.b.active
    ensures p.a.hist.stream == [] == p.b.hist.stream
  {
    p := Pair(NewConn(h.a.self, Side(h, true, pa, pb), h.now), NewConn(h.b.self, Side(h, false, pa, pb), h.now));
    var i, j := FindPort(h.a.ports, p.a.id), FindPort(h.b.ports, p.b.id);
  }

  lemma ActTracks(hs: seq<Hosts>, acts: seq<Act>, n: nat, pa: nat, pb: nat, p: Pair, q: Pair, moved: bool, m: Move)
    requires |hs| == |acts| + 1 && n < |acts| && Tracks(hs, acts, n, pa, pb, p) && Reflects(hs[n + 1], pa, pb, q)
    requires Outcome(hs[n], acts[n], pa, pb, p, q, moved, m)
    ensures Tracks(hs, acts, n + 1, pa, pb, q)
  {
    SideActed(hs, acts, n, pa, pb, if acts[n].left then p.a else p.b, if acts[n].left then q.a else q.b);
    SideIdle(hs, acts, n, !acts[n].left, pa, pb, if acts[n].left then p.b else p.a);
  }

  /** The side that acted. */
  lemma SideActed(hs: seq<Hosts>, acts: seq<Act>, n: nat, pa: nat, pb: nat, c: Conn, d: Conn)
    requires n < |acts| && n < |hs| && SideTracks(hs, acts, n, acts[n].left, pa, pb, c)
    requires var me, t := Me(hs[n], acts[n].left), Side(hs[n], acts[n].left, pa, pb);
             (d.phase != Idle <==> c.phase != Idle || Opens(me, acts[n].ev, t)) &&
             (d.active <==> c.active || Dials(me, acts[n].ev, t)) &&
             |d.hist.stream| <= |c.hist.stream| + Cost(me, acts[n].ev, t)
    ensures SideTracks(hs, acts, n + 1, acts[n].left, pa, pb, d)
  {
  }

  /** The side that did not. */
  lemma SideIdle(hs: seq<Hosts>, acts: seq<Act>, n: nat, left: bool, pa: nat, pb: nat, c: Conn)
    requires n < |acts| && n < |hs| && SideTracks(hs, acts, n, left, pa, pb, c) && acts[n].left != left
    ensures SideTracks(hs, acts, n + 1, left, pa, pb, c)
  {
  }

  lemma OpensWhenIdle(hs: seq<Hosts>, acts: seq<Act>, n: nat, pa: nat, pb: nat, p: Pair)
    requires |hs| == |acts| + 1 && n < |acts| && OpenedOnce(hs, acts, pa, pb) && Tracks(hs, acts, n, pa, pb, p)
    ensures Opens(Me(hs[n], acts[n].left), acts[n].ev, Side(hs[n], acts[n].left, pa, pb)) ==>
            (if acts[n].left then p.a else p.b).phase == Idle
  {
    assert !ReopensAt(hs, acts, n, pa, pb);
  }

  lemma ActFacts(hs: seq<Hosts>, acts: seq<Act>, n: nat)
    requires IsHostRun(hs, acts) && n < |acts|
    ensures Sane(hs[n]) && CanAct(hs[n], acts[n]) && hs[n + 1] == Acted(hs[n], acts[n]) && hs[n].a.self != 0 &&
            hs[n].b.self != 0
  {
    RunSane(hs, acts, n);
    assert ActsAt(hs, acts, n);
  }

  lemma TrackStep(hs: seq<Hosts>, acts: seq<Act>, n: nat, pa: nat, pb: nat, p: Pair)
    returns (q: Pair, moved: bool, m: Move)
    requires IsHostRun(hs, acts) && OpenedOnce(hs, acts, pa, pb) && n < |acts| && pa != 0 && pb != 0
    requires Tracks(hs, acts, n, pa, pb, p) && Agree(p)
    ensures Reflects(hs[n + 1], pa, pb, q) && Outcome(hs[n], acts[n], pa, pb, p, q, moved, m)
  {
    ActFacts(hs, acts, n);
    OpensWhenIdle(hs, acts, n, pa, pb, p);
    q, moved, m := ActReflects(hs[n], acts[n], pa, pb, p, hs[n + 1]);
  }

  lemma TracksNoWrap(hs: seq<Hosts>, acts: seq<Act>, n: nat, pa: nat, pb: nat, p: Pair)
    requires n <= |acts| && n < |hs| && Tracks(hs, acts, n, pa, pb, p)
    requires Numbered(hs, acts, n, true, pa, pb) < WORD && Numbered(hs, acts, n, false, pa, pb) < WORD
    ensures NoWrap(p)
  {
  }

  lemma OutcomeExtends(ps: seq<Pair>, ms: seq<Move>, h: Hosts, act: Act, pa: nat, pb: nat, q: Pair, moved: bool,
                       m: Move)
    returns (qs: seq<Pair>, ns: seq<Move>)
    requires IsRun(ps, ms) && Outcome(h, act, pa, pb, ps[|ms|], q, moved, m) && NoWrap(q)
    ensures IsRun(qs, ns) && qs[|ns|] == q
  {
    qs, ns := ps, ms;
    if moved {
      ExtendRun(ps, ms, m, q);
      qs, ns := ps + [q], ms + [m];
    }
  }

  lemma ExtendTracked(hs: seq<Hosts>, acts: seq<Act>, n: nat, pa: nat, pb: nat, ps: seq<Pair>, ms: seq<Move>)
    returns (qs: seq<Pair>, ns: seq<Move>)
    requires IsHostRun(hs, acts) && OpenedOnce(hs, acts, pa, pb) && n < |acts| && pa != 0 && pb != 0
    requires IsRun(ps, ms) && Tracks(hs, acts, n, pa, pb, ps[|ms|])
    requires Numbered(hs, acts, n + 1, true, pa, pb) < WORD && Numbered(hs, acts, n + 1, false, pa, pb) < WORD
    ensures IsRun(qs, ns) && Tracks(hs, acts, n + 1, pa, pb, qs[|ns|])
  {
    RunAgrees(ps, ms, |ms|);
    var q, moved, m := TrackStep(hs, acts, n, pa, pb, ps[|ms|]);
    ActTracks(hs, acts, n, pa, pb, ps[|ms|], q, moved, m);
    TracksNoWrap(hs, acts, n + 1, pa, pb, q);
    qs, ns := OutcomeExtends(ps, ms, hs[n], acts[n], pa, pb, q, moved, m);
  }

  /** Every run of the two hosts contains a run of the two-endpoint system for the connection. */
  lemma {:induction false} Simulate(hs: seq<Hosts>, acts: seq<Act>, n: nat, pa: nat, pb: nat)
    returns (ps: seq<Pair>, ms: seq<Move>)
    requires IsHostRun(hs, acts) && OpenedOnce(hs, acts, pa, pb) && n < |hs| && pa != 0 && pb != 0
    requires Numbered(hs, acts, n, true, pa, pb) < WORD && Numbered(hs, acts, n, false, pa, pb) < WORD
    ensures IsRun(ps, ms) && Tracks(hs, acts, n, pa, pb, ps[|ms|])
  {
    if n == 0 {
      var p := StartReflects(hs[0], pa, pb);
      ps, ms := [p], [];
    } else {
      var qs, ns := Simulate(hs, acts, n - 1, pa, pb);
      ps, ms := ExtendTracked(hs, acts, n - 1, pa, pb, qs, ns);
    }
  }

  lemma ReachedPair(hs: seq<Hosts>, acts: seq<Act>, n: nat, pa: nat, pb: nat) returns (p: Pair)
    requires IsHostRun(hs, acts) && OpenedOnce(hs, acts, pa, pb) && n < |hs| && pa != 0 && pb != 0
    requires Numbered(hs, acts, n, true, pa, pb) < WORD && Numbered(hs, acts, n, false, pa, pb) < WORD
    ensures Reflects(hs[n], pa, pb, p) && NoWrap(p) && Agree(p) && BothBacked(p)
    ensures p.a.active <==> DialledBy(hs, acts, n, true, pa, pb)
    ensures p.b.active <==> DialledBy(hs, acts, n, false, pa, pb)
  {
    var ps, ms := Simulate(hs, acts, n, pa, pb);
    RunAgrees(ps, ms, |ms|);
    RunBacked(ps, ms, |ms|);
    p := ps[|ms|];
    TracksNoWrap(hs, acts, n, pa, pb, p);
  }

  /** `stream` is what table `e` has numbered on triple `t`: it ends at the row's `seq_num`, and every segment sent
      spells it out at its sequence number. */
  ghost predicate NumberedOn(e: Engine, t: Triple, stream: seq<Item>) {
    (RowFor(e.ports, t).Row? ==> RowFor(e.ports, t).p.seqNum == |stream|) &&
    (forall s <- e.sent :: OnTriple(s, t) ==> Slice(s, stream))
  }

  /** Some segment table `e` sent on triple `t` carried position `q`. */
  ghost predicate CarriedOn(e: Engine, t: Triple, q: nat) {
    exists s :: s in e.sent && OnTriple(s, t) && Carries(s, q)
  }

  /** End-to-end delivery through two port tables, from `from` to `to`: the bytes received are the stretch of the
      numbered stream that begins at `start`, each carried by a segment that was sent; while the receiving row is
      ESTABLISHED the stretch ends at its `ack_num`; acknowledgements never run ahead of the stream, nor of the sending
      row's `seq_num`; and a receiver that opened actively gets a prefix of the data after the SYN. */
  ghost predicate Delivers(from: Engine, t: Triple, to: Engine, u: Triple, stream: seq<Item>, start: nat,
                           dialled: bool) {
    var got := Delivered(CallsFor(to.calls, u));
    NumberedOn(from, t, stream) &&
    (forall s <- to.sent :: OnTriple(s, u) ==> s.ackNum <= |stream|) &&
    start + |got| <= |stream| && stream[start..start + |got|] == Text(got) &&
    (forall q: nat :: start <= q < start + |got| ==> CarriedOn(from, t, q)) &&
    (OnConnect in CallsFor(to.calls, u) ==>
       1 <= start && stream != [] && stream[0] == Syn && (dialled ==> start == 1)) &&
    (RowFor(to.ports, u).Row? ==>
       var p := RowFor(to.ports, u).p;
       p.ackNum <= |stream| &&
       (p.state == Established ==> OnConnect in CallsFor(to.calls, u) && start + |got| == p.ackNum))
  }

  lemma ShownNumbered(e: Engine, t: Triple, c: Conn)
    requires Shows(e, t, c) && Sound(c) && |c.hist.stream| < WORD
    ensures NumberedOn(e, t, c.hist.stream)
  {
    forall s | s in e.sent && OnTriple(s, t) ensures Slice(s, c.hist.stream) {
      SentForHas(e.sent, s, t);
      SentIsSlice(c, s);
    }
  }

  lemma ShownCarried(e: Engine, t: Triple, c: Conn, q: nat)
    requires Shows(e, t, c) && Carried(c.sent, q)
    ensures CarriedOn(e, t, q)
  {
    var i :| 0 <= i < |c.sent| && Carries(c.sent[i], q);
    SentForHas(e.sent, c.sent[i], t);
  }

  lemma ShownDelivers(from: Engine, t: Triple, to: Engine, u: Triple, c: Conn, d: Conn)
    requires Shows(from, t, c) && Shows(to, u, d) && Sound(c) && |c.hist.stream| < WORD && Dir(c, d) && Backed(c, d)
    ensures Delivers(from, t, to, u, c.hist.stream, d.hist.start, d.active)
  {
    ShownNumbered(from, t, c);
    forall s | s in to.sent && OnTriple(s, u) ensures s.ackNum <= |c.hist.stream| { SentForHas(to.sent, s, u); }
    var got := Delivered(d.hist.trace);
    forall q: nat | d.hist.start <= q < d.hist.start + |got| ensures CarriedOn(from, t, q) {
      ShownCarried(from, t, c, q);
    }
  }

  /** In every run of two hosts with their full tables and other traffic, each side's application receives an in-order,
      gap-free, duplicate-free stretch of what the other side numbered and sent. */
  lemma TableDelivery(hs: seq<Hosts>, acts: seq<Act>, n: nat, pa: nat, pb: nat)
    returns (streamA: seq<Item>, startB: nat, streamB: seq<Item>, startA: nat)
    requires IsHostRun(hs, acts) && OpenedOnce(hs, acts, pa, pb) && n < |hs| && pa != 0 && pb != 0
    requires Numbered(hs, acts, n, true, pa, pb) < WORD && Numbered(hs, acts, n, false, pa, pb) < WORD
    ensures Delivers(hs[n].a, Side(hs[n], true, pa, pb), hs[n].b, Side(hs[n], false, pa, pb), streamA, startB,
                     DialledBy(hs, acts, n, false, pa, pb))
    ensures Delivers(hs[n].b, Side(hs[n], false, pa, pb), hs[n].a, Side(hs[n], true, pa, pb), streamB, startA,
                     DialledBy(hs, acts, n, true, pa, pb))
  {
    var p := ReachedPair(hs, acts, n, pa, pb);
    streamA, startB, streamB, startA := p.a.hist.stream, p.b.hist.start, p.b.hist.stream, p.a.hist.start;
    ShownDelivers(hs[n].a, Side(hs[n], true, pa, pb), hs[n].b, Side(hs[n], false, pa, pb), p.a, p.b);
    ShownDelivers(hs[n].b, Side(hs[n], false, pa, pb), hs[n].a, Side(hs[n], true, pa, pb), p.b, p.a);
  }

  /** While a row exists, neither the peer row's `ack_num` nor any acknowledgement in flight from it runs ahead of the
      row's `seq_num`. */
  lemma TableAcknowledgements(hs: seq<Hosts>, acts: seq<Act>, n: nat, pa: nat, pb: nat, left: bool)
    requires IsHostRun(hs, acts) && OpenedOnce(hs, acts, pa, pb) && n < |hs| && pa != 0 && pb != 0
    requires Numbered(hs, acts, n, true, pa, pb) < WORD && Numbered(hs, acts, n, false, pa, pb) < WORD
    requires RowFor(Me(hs[n], left).ports, Side(hs[n], left, pa, pb)).Row?
    ensures var p := RowFor(Me(hs[n], left).ports, Side(hs[n], left, pa, pb)).p;
            var peer, u := Me(hs[n], !left), Side(hs[n], !left, pa, pb);
            (forall s <- peer.sent :: OnTriple(s, u) ==> s.ackNum <= p.seqNum) &&
            (RowFor(peer.ports, u).Row? ==> RowFor(peer.ports, u).p.ackNum <= p.seqNum)
  {
    var _, _, _, _ := TableDelivery(hs, acts, n, pa, pb);
  }
}
