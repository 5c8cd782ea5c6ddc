/** Nothing is delivered that was not sent: every delivered byte's position was carried by some segment of the peer. */
module TcpBacking {
  import opened TcpPort
  import opened TcpConnection
  import opened TcpSoundness
  import opened TcpPair

  predicate Carries(s: Segment, q: nat) { s.seqNum <= q < s.seqNum + Consumes(s.control, s.bytes) }

  ghost predicate Carried(sent: seq<Segment>, q: nat) {
    exists i :: 0 <= i < |sent| && Carries(sent[i], q)
  }

  /** Some segment of `s` carried each position `r` delivered. */
  ghost predicate Backed(s: Conn, r: Conn) {
    forall q: nat :: r.hist.start <= q < r.hist.start + |Delivered(r.hist.trace)| ==> Carried(s.sent, q)
  }

  lemma CarriedGrows(sent: seq<Segment>, more: seq<Segment>, q: nat)
    requires sent <= more && Carried(sent, q)
    ensures Carried(more, q)
  {
    var i :| 0 <= i < |sent| && Carries(sent[i], q);
    assert more[i] == sent[i];
  }

  lemma SenderBacked(s: Conn, s': Conn, r: Conn)
    requires Backed(s, r) && s.sent <= s'.sent
    ensures Backed(s', r)
  {
    forall q: nat | r.hist.start <= q < r.hist.start + |Delivered(r.hist.trace)| ensures Carried(s'.sent, q) {
      CarriedGrows(s.sent, s'.sent, q);
    }
  }

  /** Delivering a segment's bytes where delivery stands. */
  lemma DataBacked(s: Conn, r: Conn, seg: Segment, next: Conn)
    requires Backed(s, r) && seg in s.sent && seg.seqNum == r.hist.start + |Delivered(r.hist.trace)|
    requires next.hist.trace == r.hist.trace + [OnReceive(seg.bytes)] && next.hist.start == r.hist.start
    ensures Backed(s, next)
  {
    DeliveredMore(r.hist.trace, seg.bytes);
    var at := seg.seqNum;
    forall q: nat | next.hist.start <= q < next.hist.start + |Delivered(next.hist.trace)| ensures Carried(s.sent, q) {
      if q >= at {
        var i :| 0 <= i < |s.sent| && s.sent[i] == seg;
        assert Carries(s.sent[i], q);
      }
    }
  }

  lemma ConnectBacked(s: Conn, r: Conn, next: Conn)
    requires r.hist.trace == [] && next.hist.trace == [OnConnect]
    ensures Backed(s, next)
  {
    assert [OnConnect][..0] == [];
    assert Delivered([OnConnect]) == [];
  }

  lemma SilentBacked(s: Conn, r: Conn, calls: seq<Callback>, next: Conn)
    requires Backed(s, r) && (calls == [] || calls == [OnDisconnect])
    requires next.hist.trace == r.hist.trace + calls && next.hist.start == r.hist.start
    ensures Backed(s, next)
  {
    DeliveredAppend(r.hist.trace, calls);
    assert calls != [] ==> calls[..0] == [];
    assert Delivered(next.hist.trace) == Delivered(r.hist.trace);
  }

  lemma HeardBacked(s: Conn, r: Conn, seg: Segment, room: nat)
    requires Sound(s) && Sound(r) && |s.hist.stream| < WORD && Dir(s, r) && Backed(s, r) && seg in s.sent
    requires r.phase == Live && Fits(Receive(r.port, seg, TickOf(r.now)), room)
    ensures Backed(s, Heard(r, Receive(r.port, seg, TickOf(r.now)), room))
  {
    SentIsSlice(s, seg);
    var eff := Receive(r.port, seg, TickOf(r.now));
    var next := Heard(r, eff, room);
    HeardFields(r, eff, room);
    if r.port.state == Established {
      ReceiveEstablished(r.port, seg, TickOf(r.now));
      if eff.calls == [] { SilentBacked(s, r, [], next); } else { DataBacked(s, r, seg, next); }
    } else {
      ReceiveCalls(r.port, seg, TickOf(r.now));
      if eff.port.state == Established {
        assert r.hist.trace + [OnConnect] == [OnConnect];
        ConnectBacked(s, r, next);
      } else {
        SilentBacked(s, r, eff.calls, next);
      }
    }
  }

  lemma NextBacked(s: Conn, r: Conn, step: Step, now: nat)
    requires Sound(s) && Sound(r) && |s.hist.stream| < WORD && Dir(s, r) && Backed(s, r)
    requires r.now <= now && Enabled(r.(now := now), step) && FromPeer(step, s)
    ensures Backed(s, Next(r, step, now))
  {
    if step.Arrive? {
      Later(r, now);
      HeardBacked(s, r.(now := now), step.s, step.room);
    } else if step.Accept? {
      AcceptShape(r.id.self, step.s, TickOf(now));
    } else {
      NextDeaf(r, step, now);
    }
  }

  ghost predicate BothBacked(p: Pair) {
    var both := Backed(p.a, p.b) && Backed(p.b, p.a);
    both
  }

  lemma SideBacked(me: Conn, peer: Conn, step: Step, now: nat, next: Conn)
    requires Sound(me) && Sound(peer) && |peer.hist.stream| < WORD && Dir(peer, me)
    requires Backed(me, peer) && Backed(peer, me)
    requires me.now <= now && Enabled(me.(now := now), step) && FromPeer(step, peer) && next == Next(me, step, now)
    ensures Backed(next, peer) && Backed(peer, next)
  {
    NextBacked(peer, me, step, now);
    NextSpeaks(me, step, now);
    SenderBacked(me, next, peer);
  }

  lemma MovedBacked(p: Pair, m: Move)
    requires Agree(p) && NoWrap(p) && CanMove(p, m) && BothBacked(p)
    ensures BothBacked(Moved(p, m))
  {
    if m.left {
      SideBacked(p.a, p.b, m.step, m.now, Moved(p, m).a);
    } else {
      SideBacked(p.b, p.a, m.step, m.now, Moved(p, m).b);
    }
  }

  lemma StepBacked(ps: seq<Pair>, ms: seq<Move>, i: nat)
    requires IsRun(ps, ms) && i < |ms| && BothBacked(ps[i])
    ensures BothBacked(ps[i + 1])
  {
    RunStep(ps, ms, i);
    MovedBacked(ps[i], ms[i]);
  }

  /** In every run every byte either side delivered was carried by a segment the other side handed to IPv4. */
  lemma {:induction false} RunBacked(ps: seq<Pair>, ms: seq<Move>, n: nat)
    requires IsRun(ps, ms) && n < |ps|
    ensures BothBacked(ps[n])
  {
    if n > 0 {
      RunBacked(ps, ms, n - 1);
      StepBacked(ps, ms, n - 1);
    }
  }
}
