/** What the idle scan repeats: exactly the segments whose last transmission is a whole timeout ago. */
module TcpRetransmission {
  import opened TcpPort
  import opened TcpConnection
  import opened TcpSoundness
  import opened TcpEngine
  import opened TcpDemux
  import opened TcpProjection
  import opened TcpTheorems
  import opened TcpArrivals

  // ----- the slots of one row -----

  /** The slot's segment was last sent at least a timeout ago, in 32-bit ticks. */
  predicate Late(u: Slot, tick: Tick) { u.inUse && (tick - u.sentAt) % WORD >= RETRANSMIT_TIMEOUT }

  /** A port whose wait after closing is over. */
  predicate WaitOver(p: Port, tick: Tick) { p.state == TimeWait && (tick - p.enteredAt) % WORD > TIME_WAIT_DURATION }

  predicate Lucky(env: Env) { env.allocOk && env.ipv4Ok }

  /** The segment in a slot of row `p`, sent again with the current acknowledgement number. */
  function Again(self: Addr, p: Port, u: Slot): Segment {
    Segment(self, p.id.addr, p.id.self, p.id.other, u.seqNum, p.ackNum, u.control, Bytes(u.data))
  }

  function SlotAfter(u: Slot, tick: Tick, env: Env): Slot {
    if !Late(u, tick) then u
    else if Lucky(env) then u.(sentAt := tick)
    else u.(sentAt := tick, inUse := false, data := Null)
  }

  /** What the first `n` slots of row `p` send. */
  function SlotsAgain(self: Addr, p: Port, tick: Tick, envs: seq<Env>, n: nat): seq<Segment>
    requires n <= |p.unacked| && n <= |envs|
  {
    if n == 0 then []
    else
      SlotsAgain(self, p, tick, envs, n - 1) +
      if Late(p.unacked[n - 1], tick) && Lucky(envs[n - 1]) then [Again(self, p, p.unacked[n - 1])] else []
  }

  lemma ElapsedIsMod(now: Tick, since: Tick)
    ensures Elapsed(now, since) == (now - since) % WORD
  {
    if since > now { assert (now - since) % WORD == (now - since + WORD) % WORD; }
  }

  lemma RetryOutcome(self: Addr, p: Port, ack: nat, k: nat, tick: Tick, env: Env)
    requires k < |p.unacked|
    ensures var r := Retry(self, p, ack, k, tick, env);
            r.port.unacked == p.unacked[k := SlotAfter(p.unacked[k], tick, env)] &&
            r.sent == (if Late(p.unacked[k], tick) &&
                       Lucky(env) then [Again(self, p.(ackNum := ack), p.unacked[k])] else [])
    ensures Retry(self, p, ack, k, tick, env).port.(unacked := [], sem := 0) == p.(unacked := [], sem := 0)
  {
    ElapsedIsMod(tick, p.unacked[k].sentAt);
  }

  ghost predicate SlotsOutcome(p: Port, q: Port, tick: Tick, envs: seq<Env>, n: nat)
    requires n <= |p.unacked| && n <= |envs|
  {
    |q.unacked| == |p.unacked| && q.(unacked := [], sem := 0) == p.(unacked := [], sem := 0) &&
    forall k :: 0 <= k < |p.unacked| ==>
      q.unacked[k] == if k < n then SlotAfter(p.unacked[k], tick, envs[k]) else p.unacked[k]
  }

  lemma SlotsNext(p: Port, q: Port, r: Port, tick: Tick, envs: seq<Env>, n: nat)
    requires n < |p.unacked| && n < |envs| && SlotsOutcome(p, q, tick, envs, n)
    requires r.unacked == q.unacked[n := SlotAfter(q.unacked[n], tick, envs[n])]
    requires r.(unacked := [], sem := 0) == q.(unacked := [], sem := 0)
    ensures SlotsOutcome(p, r, tick, envs, n + 1) && q.unacked[n] == p.unacked[n]
  {
  }

  lemma {:induction false} RetryAllOutcome(self: Addr, p: Port, ack: nat, tick: Tick, envs: seq<Env>, n: nat)
    requires n <= |envs| && n <= |p.unacked|
    ensures RetryAll(self, p, ack, tick, envs, n).sent == SlotsAgain(self, p.(ackNum := ack), tick, envs, n)
    ensures SlotsOutcome(p, RetryAll(self, p, ack, tick, envs, n).port, tick, envs, n)
  {
    if n > 0 {
      RetryAllOutcome(self, p, ack, tick, envs, n - 1);
      RetryLastOutcome(self, p, ack, tick, envs, n - 1, RetryAll(self, p, ack, tick, envs, n - 1));
    }
  }

  lemma RetryLastOutcome(self: Addr, p: Port, ack: nat, tick: Tick, envs: seq<Env>, n: nat, r: RetryResult)
    requires n < |envs| && n < |p.unacked| && r == RetryAll(self, p, ack, tick, envs, n)
    requires r.sent == SlotsAgain(self, p.(ackNum := ack), tick, envs, n) && SlotsOutcome(p, r.port, tick, envs, n)
    ensures RetryAll(self, p, ack, tick, envs, n + 1).sent == SlotsAgain(self, p.(ackNum := ack), tick, envs, n + 1)
    ensures SlotsOutcome(p, RetryAll(self, p, ack, tick, envs, n + 1).port, tick, envs, n + 1)
  {
    RetryOutcome(self, r.port, ack, n, tick, envs[n]);
    SlotsNext(p, r.port, Retry(self, r.port, ack, n, tick, envs[n]).port, tick, envs, n);
  }

  /** The segment is the content of a late slot among the first `n`, memory and room given. */
  ghost predicate SlotLate(self: Addr, p: Port, tick: Tick, envs: seq<Env>, n: nat, s: Segment)
    requires n <= |p.unacked| && n <= |envs|
  {
    exists k :: 0 <= k < n && Late(p.unacked[k], tick) && Lucky(envs[k]) && s == Again(self, p, p.unacked[k])
  }

  /** These segments are what is late among the first `n` slots, and nothing else. */
  ghost predicate LateExactly(self: Addr, p: Port, tick: Tick, envs: seq<Env>, n: nat, more: seq<Segment>)
    requires n <= |p.unacked| && n <= |envs|
  {
    (forall k :: 0 <= k < n && Late(p.unacked[k], tick) && Lucky(envs[k]) ==> Again(self, p, p.unacked[k]) in more) &&
    (forall s <- more :: SlotLate(self, p, tick, envs, n, s))
  }

  /** What is sent again is exactly what is late, memory and room given. */
  lemma {:induction false} AgainIffLate(self: Addr, p: Port, tick: Tick, envs: seq<Env>, n: nat)
    requires n <= |p.unacked| && n <= |envs|
    ensures LateExactly(self, p, tick, envs, n, SlotsAgain(self, p, tick, envs, n))
  {
    if n > 0 {
      AgainIffLate(self, p, tick, envs, n - 1);
      LateNext(self, p, tick, envs, n - 1, SlotsAgain(self, p, tick, envs, n - 1), SlotsAgain(self, p, tick, envs, n));
    }
  }

  lemma LateNext(self: Addr, p: Port, tick: Tick, envs: seq<Env>, n: nat, before: seq<Segment>, more: seq<Segment>)
    requires n < |p.unacked| && n < |envs| && LateExactly(self, p, tick, envs, n, before)
    requires more ==
             before + if Late(p.unacked[n], tick) && Lucky(envs[n]) then [Again(self, p, p.unacked[n])] else []
    ensures LateExactly(self, p, tick, envs, n + 1, more)
  {
    forall s | s in more ensures SlotLate(self, p, tick, envs, n + 1, s) {
      if s in before { assert SlotLate(self, p, tick, envs, n, s); }
    }
  }

  // ----- a connection, on the real clock -----

  /** The tile in slot `k` was last launched at least a timeout ago, modulo the 32-bit tick. */
  predicate LaunchedLate(c: Conn, k: nat, now: nat) {
    k < |c.port.unacked| && k < |c.hist.owner| && c.hist.owner[k] < |c.hist.tiles| && c.hist.owner[k] < |c.hist.last| &&
    c.port.unacked[k].inUse && (now - c.hist.last[c.hist.owner[k]]) % WORD >= RETRANSMIT_TIMEOUT
  }

  lemma LateIsLaunchedLate(c: Conn, k: nat, now: nat)
    requires Sound(c) && c.phase == Live && k < MAX_UNACKED && c.now <= now && c.port.unacked[k].inUse
    ensures Late(c.port.unacked[k], TickOf(now)) <==> LaunchedLate(c, k, now)
    ensures c.hist.owner[k] < |c.hist.tiles| &&
            Repeats(Again(c.self, c.port, c.port.unacked[k]), c.hist.tiles[c.hist.owner[k]])
  {
    var u, o := c.port.unacked[k], c.hist.owner[k];
    assert SlotHolds(u, o, c.hist.tiles, c.hist.last);
    ElapsedReal(now, c.hist.last[o]);
    ElapsedIsMod(TickOf(now), u.sentAt);
    WrapIsMod(now - c.hist.last[o]);
  }

  /** Among the segments new in `d` one repeats the tile in slot `k` of `c`. */
  ghost predicate Repeated(c: Conn, d: Conn, k: nat)
    requires k < |c.hist.owner| && c.hist.owner[k] < |c.hist.tiles|
  {
    exists x :: |c.sent| <= x < |d.sent| && Repeats(d.sent[x], c.hist.tiles[c.hist.owner[k]])
  }

  /** The segment repeats a tile that is due, with memory and room for it. */
  ghost predicate Justified(c: Conn, envs: seq<Env>, now: nat, s: Segment) {
    exists k ::
      0 <= k < |envs| && LaunchedLate(c, k, now) && Lucky(envs[k]) && Repeats(s, c.hist.tiles[c.hist.owner[k]])
  }

  /** A scan hands IPv4 a repetition of every late tile, memory and room given, and nothing else. */
  ghost predicate ScanOutcome(c: Conn, envs: seq<Env>, now: nat, d: Conn) {
    |envs| == MAX_UNACKED && c.sent <= d.sent &&
    (forall k :: 0 <= k < |envs| && LaunchedLate(c, k, now) && Lucky(envs[k]) ==> Repeated(c, d, k)) &&
    (forall x :: |c.sent| <= x < |d.sent| ==> Justified(c, envs, now, d.sent[x]))
  }

  lemma LateIsRepeated(c: Conn, d: Conn, more: seq<Segment>, k: nat)
    requires Sound(c) && c.phase == Live && d.sent == c.sent + more && k < MAX_UNACKED && c.port.unacked[k].inUse
    requires Again(c.self, c.port, c.port.unacked[k]) in more
    ensures c.hist.owner[k] < |c.hist.tiles| && Repeated(c, d, k)
  {
    LateIsLaunchedLate(c, k, c.now);
    var j :| 0 <= j < |more| && more[j] == Again(c.self, c.port, c.port.unacked[k]);
    assert d.sent[|c.sent| + j] == more[j];
  }

  lemma AgainIsJustified(c: Conn, envs: seq<Env>, k: nat, now: nat)
    requires Sound(c) && c.phase == Live && k < MAX_UNACKED == |envs| && c.now <= now
    requires Late(c.port.unacked[k], TickOf(now)) && Lucky(envs[k])
    ensures Justified(c, envs, now, Again(c.self, c.port, c.port.unacked[k]))
  {
    LateIsLaunchedLate(c, k, now);
  }

  lemma EachLateRepeated(c: Conn, envs: seq<Env>, now: nat, d: Conn, more: seq<Segment>)
    requires Sound(c) && c.phase == Live && |envs| == MAX_UNACKED && d.sent == c.sent + more && c.now <= now
    requires LateExactly(c.self, c.port, TickOf(now), envs, |envs|, more)
    ensures forall k :: 0 <= k < |envs| && LaunchedLate(c, k, now) && Lucky(envs[k]) ==> Repeated(c, d, k)
  {
    forall k | 0 <= k < |envs| && LaunchedLate(c, k, now) && Lucky(envs[k]) ensures Repeated(c, d, k) {
      LateIsLaunchedLate(c, k, now);
      LateIsRepeated(c, d, more, k);
    }
  }

  lemma EachNewJustified(c: Conn, envs: seq<Env>, now: nat, more: seq<Segment>)
    requires Sound(c) && c.phase == Live && |envs| == MAX_UNACKED && c.now <= now
    requires LateExactly(c.self, c.port, TickOf(now), envs, |envs|, more)
    ensures forall s <- more :: Justified(c, envs, now, s)
  {
    forall s | s in more ensures Justified(c, envs, now, s) {
      assert SlotLate(c.self, c.port, TickOf(now), envs, |envs|, s);
      var k :| 0 <= k < |envs| && Late(c.port.unacked[k], TickOf(now)) && Lucky(envs[k]) &&
               s == Again(c.self, c.port, c.port.unacked[k]);
      AgainIsJustified(c, envs, k, now);
    }
  }

  lemma DoScanSends(c: Conn, envs: seq<Env>)
    requires Enabled(c, Scan(envs)) && DoScan(c, envs).phase == Live
    ensures c.sent <= DoScan(c, envs).sent
    ensures LateExactly(c.self, c.port, TickOf(c.now), envs, |envs|, DoScan(c, envs).sent[|c.sent|..])
  {
    AgainIffLate(c.self, c.port, TickOf(c.now), envs, MAX_UNACKED);
    assert forall more: seq<Segment> :: (c.sent + more)[|c.sent|..] == more;
    ScanSlotsIsRetryAll(c, envs, MAX_UNACKED);
    RetryAllOutcome(c.self, c.port, c.port.ackNum, TickOf(c.now), envs, MAX_UNACKED);
    assert c.port.(ackNum := c.port.ackNum) == c.port;
  }

  lemma SentAgain(c: Conn, envs: seq<Env>, now: nat, d: Conn)
    requires Sound(c) && c.phase == Live && |envs| == MAX_UNACKED && c.now <= now && c.sent <= d.sent
    requires LateExactly(c.self, c.port, TickOf(now), envs, |envs|, d.sent[|c.sent|..])
    ensures ScanOutcome(c, envs, now, d)
  {
    var more := d.sent[|c.sent|..];
    EachLateRepeated(c, envs, now, d, more);
    EachNewJustified(c, envs, now, more);
    forall x | |c.sent| <= x < |d.sent| ensures Justified(c, envs, now, d.sent[x]) {
      assert d.sent[x] == more[x - |c.sent|];
    }
  }

  /** In every run a scan that does not end the port's wait hands IPv4 a repetition of the tile of every in-use slot
      whose tile was last launched at least a timeout ago modulo 2^32, memory and room given, and repeats no other
      tile. */
  lemma ScanRepeatsLate(cs: seq<Conn>, ts: seq<Timed>, n: nat)
    requires IsConnRun(cs, ts) && n < |ts| && ts[n].step.Scan? && cs[n + 1].phase == Live
    ensures ScanOutcome(cs[n], ts[n].step.envs, ts[n].now, cs[n + 1])
  {
    ConnRunSound(cs, ts, n);
    assert StepsAt(cs, ts, n);
    var c, envs, now := cs[n], ts[n].step.envs, ts[n].now;
    DoScanSends(c.(now := now), envs);
    SentAgain(c, envs, now, cs[n + 1]);
  }

  // ----- the table -----

  /** A row whose wait is over is closed and freed; every other live row keeps itself but for its slots. */
  ghost predicate RowOutcome(p: Port, q: Port, tick: Tick, envs: seq<Env>)
    requires |p.unacked| == |envs|
  {
    if p.id.self == 0 then q == p
    else if WaitOver(p, tick) then Emptied(q)
    else SlotsOutcome(p, q, tick, envs, |envs|)
  }

  /** What a row sends: everything late and nothing else, unless it is free or its wait is over. */
  ghost predicate RowSends(self: Addr, p: Port, tick: Tick, envs: seq<Env>, more: seq<Segment>)
    requires |p.unacked| == |envs|
  {
    if p.id.self == 0 || WaitOver(p, tick) then more == [] else LateExactly(self, p, tick, envs, |envs|, more)
  }

  lemma ScanPortOutcome(e: Engine, p: nat, tick: Tick, envs: seq<Env>)
    requires Distinct(e.ports) && p < |e.ports| && |e.ports[p].unacked| == |envs| == MAX_UNACKED
    ensures var r, row := ScanPort(e, p, tick, envs), e.ports[p];
            r.self == e.self && r.ports == e.ports[p := r.ports[p]] && RowOutcome(row, r.ports[p], tick, envs) &&
            e.sent <= r.sent && RowSends(e.self, row, tick, envs, r.sent[|e.sent|..])
  {
    var row := e.ports[p];
    if row.id.self != 0 {
      ElapsedIsMod(tick, row.enteredAt);
      if !WaitOver(row, tick) {
        FindsItself(e.ports, p);
        assert ScanPort(e, p, tick, envs) == Patched(e, p, RetryAll(e.self, row, row.ackNum, tick, envs, MAX_UNACKED));
        RowRetried(e, p, tick, envs, RetryAll(e.self, row, row.ackNum, tick, envs, MAX_UNACKED));
      }
    }
  }

  lemma RowRetried(e: Engine, p: nat, tick: Tick, envs: seq<Env>, x: RetryResult)
    requires p < |e.ports| && |e.ports[p].unacked| == |envs| == MAX_UNACKED
    requires e.ports[p].id.self != 0 && !WaitOver(e.ports[p], tick)
    requires x == RetryAll(e.self, e.ports[p], e.ports[p].ackNum, tick, envs, MAX_UNACKED)
    ensures var r, row := Patched(e, p, x), e.ports[p];
            r.self == e.self && r.ports == e.ports[p := r.ports[p]] && RowOutcome(row, r.ports[p], tick, envs) &&
            e.sent <= r.sent && RowSends(e.self, row, tick, envs, r.sent[|e.sent|..])
  {
    var row := e.ports[p];
    assert row.(ackNum := row.ackNum) == row;
    RetryAllOutcome(e.self, row, row.ackNum, tick, envs, MAX_UNACKED);
    AgainIffLate(e.self, row, tick, envs, MAX_UNACKED);
    assert (e.sent + x.sent)[|e.sent|..] == x.sent;
  }

  /** The segment is the late content of a slot of a live row. */
  predicate LateIn(e: Engine, tick: Tick, envs: seq<seq<Env>>, p: nat, k: nat) {
    p < |e.ports| && p < |envs| && k < |e.ports[p].unacked| && k < |envs[p]| && e.ports[p].id.self != 0 &&
    !WaitOver(e.ports[p], tick) && Late(e.ports[p].unacked[k], tick) && Lucky(envs[p][k])
  }

  function AgainIn(e: Engine, p: nat, k: nat): Segment
    requires p < |e.ports| && k < |e.ports[p].unacked|
  {
    Again(e.self, e.ports[p], e.ports[p].unacked[k])
  }

  /** One of the first `n` rows has a late slot with this segment. */
  ghost predicate LateSegment(e: Engine, tick: Tick, envs: seq<seq<Env>>, n: nat, s: Segment) {
    exists p: nat, k: nat :: p < n && LateIn(e, tick, envs, p, k) && s == AgainIn(e, p, k)
  }

  /** These segments are what is late in the first `n` rows, and nothing else. */
  ghost predicate RowsLateExactly(e: Engine, tick: Tick, envs: seq<seq<Env>>, n: nat, more: seq<Segment>) {
    (forall p: nat, k: nat :: p < n && LateIn(e, tick, envs, p, k) ==> AgainIn(e, p, k) in more) &&
    (forall s <- more :: LateSegment(e, tick, envs, n, s))
  }

  lemma RowsLateNext(e: Engine, tick: Tick, envs: seq<seq<Env>>, n: nat, before: seq<Segment>, more: seq<Segment>)
    requires n < |e.ports| == |envs| && |e.ports[n].unacked| == |envs[n]| && RowsLateExactly(e, tick, envs, n, before)
    requires RowSends(e.self, e.ports[n], tick, envs[n], more)
    ensures RowsLateExactly(e, tick, envs, n + 1, before + more)
  {
    forall s | s in before + more ensures LateSegment(e, tick, envs, n + 1, s) {
      if s in before {
        assert LateSegment(e, tick, envs, n, s);
        var p: nat, k: nat :| p < n && LateIn(e, tick, envs, p, k) && s == AgainIn(e, p, k);
      } else {
        RowLate(e, tick, envs, n, more, s);
      }
    }
    forall p: nat, k: nat | p < n + 1 && LateIn(e, tick, envs, p, k) ensures AgainIn(e, p, k) in before + more {
      if p == n { assert Again(e.self, e.ports[n], e.ports[n].unacked[k]) in more; }
    }
  }

  lemma RowLate(e: Engine, tick: Tick, envs: seq<seq<Env>>, p: nat, more: seq<Segment>, s: Segment)
    requires p < |e.ports| == |envs| && |e.ports[p].unacked| == |envs[p]| && s in more
    requires RowSends(e.self, e.ports[p], tick, envs[p], more)
    ensures LateSegment(e, tick, envs, p + 1, s)
  {
    var row := e.ports[p];
    assert SlotLate(e.self, row, tick, envs[p], |envs[p]|, s);
    var k: nat :| k < |envs[p]| && Late(row.unacked[k], tick) && Lucky(envs[p][k]) &&
                  s == Again(e.self, row, row.unacked[k]);
    assert LateIn(e, tick, envs, p, k) && s == AgainIn(e, p, k);
  }

  ghost predicate RowsOutcome(e: Engine, r: Engine, tick: Tick, envs: seq<seq<Env>>, n: nat)
    requires Scannable(e, envs) && n <= MAX_PORTS
  {
    r.self == e.self && |r.ports| == MAX_PORTS && e.sent <= r.sent &&
    RowsLateExactly(e, tick, envs, n, r.sent[|e.sent|..]) &&
    (forall p :: 0 <= p < n ==> RowOutcome(e.ports[p], r.ports[p], tick, envs[p])) &&
    (forall p :: n <= p < MAX_PORTS ==> r.ports[p] == e.ports[p])
  }

  lemma {:induction false} ScanPortsOutcome(e: Engine, tick: Tick, envs: seq<seq<Env>>, n: nat)
    requires Distinct(e.ports) && Scannable(e, envs) && n <= MAX_PORTS
    ensures RowsOutcome(e, ScanPorts(e, tick, envs, n), tick, envs, n)
  {
    if n > 0 {
      ScanPortsOutcome(e, tick, envs, n - 1);
      ScanPortsDistinct(e, tick, envs, n - 1);
      ScanStepOutcome(e, ScanPorts(e, tick, envs, n - 1), tick, envs, n - 1);
    }
  }

  lemma ScanStepOutcome(e: Engine, f: Engine, tick: Tick, envs: seq<seq<Env>>, n: nat)
    requires Scannable(e, envs) && Scannable(f, envs) && Distinct(f.ports) && n < MAX_PORTS
    requires RowsOutcome(e, f, tick, envs, n)
    ensures RowsOutcome(e, ScanPort(f, n, tick, envs[n]), tick, envs, n + 1)
  {
    ScanPortOutcome(f, n, tick, envs[n]);
    ScanNextOutcome(e, f, ScanPort(f, n, tick, envs[n]), tick, envs, n);
  }

  lemma ScanNextOutcome(e: Engine, f: Engine, r: Engine, tick: Tick, envs: seq<seq<Env>>, n: nat)
    requires Scannable(e, envs) && n < MAX_PORTS && RowsOutcome(e, f, tick, envs, n)
    requires |r.ports| == MAX_PORTS && r.self == e.self && r.ports == f.ports[n := r.ports[n]]
    requires RowOutcome(e.ports[n], r.ports[n], tick, envs[n])
    requires f.sent <= r.sent && RowSends(e.self, e.ports[n], tick, envs[n], r.sent[|f.sent|..])
    ensures RowsOutcome(e, r, tick, envs, n + 1)
  {
    assert r.sent[|e.sent|..] == f.sent[|e.sent|..] + r.sent[|f.sent|..];
    RowsLateNext(e, tick, envs, n, f.sent[|e.sent|..], r.sent[|f.sent|..]);
    forall i | 0 <= i <= n ensures RowOutcome(e.ports[i], r.ports[i], tick, envs[i]) {
      if i < n { assert r.ports[i] == f.ports[i]; }
    }
  }

  /** In every distinct table a scan frees exactly the rows whose wait is over, and hands IPv4 exactly the late slots
      of the other live rows, memory and room given. */
  lemma TableScanRepeatsLate(e: Engine, tick: Tick, envs: seq<seq<Env>>, r: Engine)
    requires Distinct(e.ports) && Admissible(e, Scans(envs)) && Handle(e, Scans(envs), tick) == Done(r)
    ensures e.sent <= r.sent && |r.ports| == MAX_PORTS
    ensures forall p :: 0 <= p < MAX_PORTS ==> RowOutcome(e.ports[p], r.ports[p], tick, envs[p])
    ensures forall p: nat, k: nat :: LateIn(e, tick, envs, p, k) ==> AgainIn(e, p, k) in r.sent[|e.sent|..]
    ensures forall s <- r.sent[|e.sent|..] :: LateSegment(e, tick, envs, MAX_PORTS, s)
  {
    ScanPortsOutcome(e, tick, envs, MAX_PORTS);
  }
}
