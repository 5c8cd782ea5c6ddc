/** Transmissions and the launch log: every segment that consumes sequence numbers is a launch at the time of its step,
    so the spacing of launches is a spacing of transmissions. */
module TcpLaunches {
  import opened TcpPort
  import opened TcpConnection
  import opened TcpSoundness
  import opened TcpTheorems

  predicate Numbers(s: Segment) { Consumes(s.control, s.bytes) > 0 }

  /** Segment `s` is the launch `log[l]`, made at `now`. */
  predicate IsLaunch(h: History, l: nat, s: Segment, now: nat) {
    l < |h.log| && h.log[l].at == now && h.log[l].tile < |h.tiles| && Repeats(s, h.tiles[h.log[l].tile])
  }

  predicate Older(c: Conn, d: Conn) { c.sent <= d.sent && c.hist.log <= d.hist.log && c.hist.tiles <= d.hist.tiles }

  /** Segment `x` is the launch `l`, at or after `low`, if it consumes numbers. */
  predicate LaunchAt(d: Conn, x: nat, l: nat, low: nat, now: nat)
    requires x < |d.sent|
  {
    Numbers(d.sent[x]) ==> low <= l && IsLaunch(d.hist, l, d.sent[x], now)
  }

  predicate InOrder(d: Conn, x: nat, l: nat, y: nat, m: nat)
    requires x < |d.sent| && y < |d.sent|
  {
    Numbers(d.sent[x]) && Numbers(d.sent[y]) ==> l < m
  }

  /** The segments of `d` from `base` on are launches in the same order; `w` says which. */
  ghost predicate NewLaunches(d: Conn, base: nat, low: nat, now: nat, w: seq<nat>) {
    base + |w| == |d.sent| &&
    (forall x :: 0 <= x < |w| ==> LaunchAt(d, base + x, w[x], low, now)) &&
    (forall x, y :: 0 <= x < y < |w| ==> InOrder(d, base + x, w[x], base + y, w[y]))
  }

  /** From `c` to `d`, at time `now`, the new numbered segments are new launches in the same order. */
  ghost predicate Launches(c: Conn, d: Conn, now: nat, w: seq<nat>) {
    Older(c, d) && NewLaunches(d, |c.sent|, |c.hist.log|, now, w)
  }

  lemma TransmitLaunches(c: Conn, env: Env) returns (w: seq<nat>)
    requires Sound(c) && c.phase == Live && c.queue != []
    ensures Launches(c, DoTransmit(c, env), c.now, w)
  {
    var tx, d := c.queue[0], DoTransmit(c, env);
    assert TxOk(tx, c.id, c.hist.stream);
    w := seq(|d.sent| - |c.sent|, _ => |c.hist.log|);
    if env.allocOk && Consumes(tx.control, Bytes(tx.data)) > 0 { TransmitIsRecorded(c, env); }
  }

  /** One more segment, launched last. */
  lemma LaunchedLast(d: Conn, e: Conn, base: nat, low: nat, v: seq<nat>)
    requires NewLaunches(d, base, low, d.now, v) && Older(d, e) && low <= |d.hist.log|
    requires |e.sent| == |d.sent| + 1 && IsLaunch(e.hist, |d.hist.log|, e.sent[|d.sent|], d.now)
    ensures NewLaunches(e, base, low, d.now, v + [|d.hist.log|])
  {
    KeepsLaunches(d, e, base, low, v);
  }

  lemma NoneLaunched(d: Conn, e: Conn, base: nat, low: nat, v: seq<nat>)
    requires NewLaunches(d, base, low, d.now, v) && Older(d, e) && |e.sent| == |d.sent|
    ensures NewLaunches(e, base, low, d.now, v)
  {
    KeepsLaunches(d, e, base, low, v);
  }

  /** One more slot of the scan. */
  lemma RetryLaunches(d: Conn, k: nat, env: Env, base: nat, low: nat, v: seq<nat>) returns (w: seq<nat>)
    requires Sound(d) && d.phase == Live && k < MAX_UNACKED && NewLaunches(d, base, low, d.now, v) &&
             low <= |d.hist.log|
    ensures NewLaunches(RetrySlot(d, k, env), base, low, d.now, w) && Older(d, RetrySlot(d, k, env))
  {
    var e := RetrySlot(d, k, env);
    if Due(d.port.unacked[k], TickOf(d.now)) && env.allocOk && env.ipv4Ok {
      assert SlotHolds(d.port.unacked[k], d.hist.owner[k], d.hist.tiles, d.hist.last);
      w := v + [|d.hist.log|];
      LaunchedLast(d, e, base, low, v);
    } else {
      w := v;
      NoneLaunched(d, e, base, low, v);
    }
  }

  /** Growing the log and the segments keeps earlier launches. */
  lemma KeepsLaunches(d: Conn, e: Conn, base: nat, low: nat, v: seq<nat>)
    requires NewLaunches(d, base, low, d.now, v) && Older(d, e)
    ensures forall x :: 0 <= x < |v| ==> LaunchAt(e, base + x, v[x], low, d.now)
    ensures forall x :: 0 <= x < |v| && Numbers(d.sent[base + x]) ==> v[x] < |d.hist.log|
    ensures forall x, y :: 0 <= x < y < |v| ==> InOrder(e, base + x, v[x], base + y, v[y])
  {
    forall x | 0 <= x < |v| ensures LaunchAt(e, base + x, v[x], low, d.now) {
      assert LaunchAt(d, base + x, v[x], low, d.now);
    }
    forall x | 0 <= x < |v| && Numbers(d.sent[base + x]) ensures v[x] < |d.hist.log| {
      assert LaunchAt(d, base + x, v[x], low, d.now);
    }
    forall x, y | 0 <= x < y < |v| ensures InOrder(e, base + x, v[x], base + y, v[y]) {
      assert InOrder(d, base + x, v[x], base + y, v[y]);
    }
  }

  lemma ScanNext(c: Conn, d: Conn, k: nat, env: Env, v: seq<nat>) returns (w: seq<nat>)
    requires Sound(d) && d.phase == Live && d.now == c.now && k < MAX_UNACKED && Launches(c, d, c.now, v)
    ensures Launches(c, RetrySlot(d, k, env), c.now, w) && RetrySlot(d, k, env).now == c.now
  {
    w := RetryLaunches(d, k, env, |c.sent|, |c.hist.log|, v);
  }

  lemma {:induction false} ScanLaunches(c: Conn, envs: seq<Env>, n: nat) returns (w: seq<nat>)
    requires Sound(c) && c.phase == Live && n <= |envs| == MAX_UNACKED
    ensures Launches(c, ScanSlots(c, envs, n), c.now, w) && ScanSlots(c, envs, n).now == c.now
  {
    if n == 0 {
      w := [];
    } else {
      var v := ScanLaunches(c, envs, n - 1);
      ScanSlotsSound(c, envs, n - 1);
      w := ScanNext(c, ScanSlots(c, envs, n - 1), n - 1, envs[n - 1], v);
    }
  }

  lemma NextLaunches(c: Conn, step: Step, now: nat) returns (w: seq<nat>)
    requires Sound(c) && c.now <= now && Enabled(c.(now := now), step)
    ensures Launches(c, Next(c, step, now), now, w)
  {
    var d := c.(now := now);
    Later(c, now);
    if step.Transmit? {
      w := TransmitLaunches(d, step.env);
    } else if step.Scan? && !TimedOut(d.port, TickOf(now)) {
      w := ScanLaunches(d, step.envs, MAX_UNACKED);
    } else {
      w := [];
      NextQuiet(c, step, now);
    }
  }

  /** The steps that hand nothing to IPv4. */
  lemma NextQuiet(c: Conn, step: Step, now: nat)
    requires c.now <= now && Enabled(c.(now := now), step) && !step.Transmit?
    requires step.Scan? ==> TimedOut(c.port, TickOf(now))
    ensures var d := Next(c, step, now);
            d.sent == c.sent && d.hist.log == c.hist.log && d.hist.tiles == c.hist.tiles
  {
  }

  // ----- every run -----

  lemma StepLaunches(cs: seq<Conn>, ts: seq<Timed>, i: nat) returns (w: seq<nat>)
    requires IsConnRun(cs, ts) && i < |ts|
    ensures Launches(cs[i], cs[i + 1], ts[i].now, w)
  {
    ConnRunSound(cs, ts, i);
    assert StepsAt(cs, ts, i);
    w := NextLaunches(cs[i], ts[i].step, ts[i].now);
  }

  lemma {:induction false} RunOlder(cs: seq<Conn>, ts: seq<Timed>, i: nat, j: nat)
    requires IsConnRun(cs, ts) && i <= j < |cs|
    ensures Older(cs[i], cs[j])
    decreases j - i
  {
    if i < j {
      RunOlder(cs, ts, i, j - 1);
      var w := StepLaunches(cs, ts, j - 1);
    }
  }

  /** Segment `x` of the connection was handed to IPv4 in step `i`. */
  predicate SentIn(cs: seq<Conn>, i: nat, x: nat) {
    i + 1 < |cs| && |cs[i].sent| <= x < |cs[i + 1].sent|
  }

  lemma LaunchOf(cs: seq<Conn>, ts: seq<Timed>, i: nat, x: nat, w: seq<nat>)
    requires i < |ts| && i + 1 < |cs| && SentIn(cs, i, x) && Launches(cs[i], cs[i + 1], ts[i].now, w)
    requires Numbers(cs[i + 1].sent[x])
    ensures x - |cs[i].sent| < |w| && |cs[i].hist.log| <= w[x - |cs[i].sent|]
    ensures IsLaunch(cs[i + 1].hist, w[x - |cs[i].sent|], cs[i + 1].sent[x], ts[i].now)
  {
    var k := x - |cs[i].sent|;
    assert LaunchAt(cs[i + 1], |cs[i].sent| + k, w[k], |cs[i].hist.log|, ts[i].now);
  }

  /** Two launches of segments with one sequence number, in one log. */
  lemma LaunchesApart(c: Conn, l: nat, m: nat, s: Segment, s': Segment, now: nat, now': nat)
    requires Sound(c) && |c.hist.stream| < WORD && l < m && s.seqNum == s'.seqNum
    requires IsLaunch(c.hist, l, s, now) && IsLaunch(c.hist, m, s', now')
    ensures now' - now >= RETRANSMIT_TIMEOUT
  {
    var j, k := c.hist.log[l].tile, c.hist.log[m].tile;
    assert TileOk(c.hist.stream, c.hist.tiles, j) && TileOk(c.hist.stream, c.hist.tiles, k);
    if j != k { OtherTile(c, j, k); }
    assert Apart(c.hist.log, l, m);
  }

  lemma SameLaunch(h: History, g: History, l: nat, s: Segment, now: nat)
    requires IsLaunch(h, l, s, now) && h.log <= g.log && h.tiles <= g.tiles
    ensures IsLaunch(g, l, s, now)
  {
  }

  /** In every run two transmissions that start at the same sequence number are at least a retransmission timeout apart
      on the real clock, across tick wrap; in particular no step makes both. */
  lemma TransmissionSpacing(cs: seq<Conn>, ts: seq<Timed>, i: nat, j: nat, x: nat, y: nat)
    requires IsConnRun(cs, ts) && i <= j < |ts| && SentIn(cs, i, x) && SentIn(cs, j, y) && x < y
    requires |cs[j + 1].hist.stream| < WORD
    requires var s, s' := cs[i + 1].sent[x], cs[j + 1].sent[y]; Numbers(s) && Numbers(s') && s.seqNum == s'.seqNum
    ensures ts[j].now - ts[i].now >= RETRANSMIT_TIMEOUT
  {
    var v := StepLaunches(cs, ts, i);
    var w := StepLaunches(cs, ts, j);
    LaunchOf(cs, ts, i, x, v);
    LaunchOf(cs, ts, j, y, w);
    var l, m := v[x - |cs[i].sent|], w[y - |cs[j].sent|];
    if i == j {
      l := w[x - |cs[i].sent|];
      LaunchOf(cs, ts, i, x, w);
      var base := |cs[i].sent|;
      assert InOrder(cs[i + 1], base + (x - base), w[x - base], base + (y - base), w[y - base]);
    } else {
      RunOlder(cs, ts, i + 1, j);
      RunOlder(cs, ts, i + 1, j + 1);
    }
    SameLaunch(cs[i + 1].hist, cs[j + 1].hist, l, cs[i + 1].sent[x], ts[i].now);
    ConnRunSound(cs, ts, j + 1);
    LaunchesApart(cs[j + 1], l, m, cs[i + 1].sent[x], cs[j + 1].sent[y], ts[i].now, ts[j].now);
  }
}
