/** Application to application: what one side receives is what the other side's application sent. */
module TcpApplications {
  import opened NetTypes
  import opened TcpPort
  import opened TcpConnection
  import opened TcpPair
  import opened TcpTheorems
  import opened TcpStream

  /** The states and steps of one side in the first `n` moves. */
  function ConnsOf(ps: seq<Pair>, ms: seq<Move>, n: nat, left: bool): (cs: seq<Conn>)
    requires n <= |ms| && n < |ps|
    ensures |cs| == |StepsOf(ms, n, left)| + 1
  {
    if n == 0 then [SideOf(ps[0], left)]
    else ConnsOf(ps, ms, n - 1, left) + if ms[n - 1].left == left then [SideOf(ps[n], left)] else []
  }

  function StepsOf(ms: seq<Move>, n: nat, left: bool): seq<Timed>
    requires n <= |ms|
  {
    if n == 0 then []
    else StepsOf(ms, n - 1, left) + if ms[n - 1].left == left then [Timed(ms[n - 1].step, ms[n - 1].now)] else []
  }

  /** A run of the pair is, seen from either side, a run of that side's connection. */
  lemma {:induction false} SideIsConnRun(ps: seq<Pair>, ms: seq<Move>, n: nat, left: bool)
    requires IsRun(ps, ms) && n < |ps|
    ensures IsConnRun(ConnsOf(ps, ms, n, left), StepsOf(ms, n, left))
    ensures ConnsOf(ps, ms, n, left)[|StepsOf(ms, n, left)|] == SideOf(ps[n], left)
  {
    if n == 0 {
      assert StepsOf(ms, 0, left) == [];
    } else {
      SideIsConnRun(ps, ms, n - 1, left);
      var cs, ts := ConnsOf(ps, ms, n - 1, left), StepsOf(ms, n - 1, left);
      assert cs + [] == cs && ts + [] == ts;
      SideSteps(ps, ms, n - 1, left, cs, ts);
    }
  }

  lemma SideSteps(ps: seq<Pair>, ms: seq<Move>, i: nat, left: bool, cs: seq<Conn>, ts: seq<Timed>)
    requires IsRun(ps, ms) && i < |ms| && IsConnRun(cs, ts) && cs[|ts|] == SideOf(ps[i], left)
    ensures ms[i].left == left ==> IsConnRun(cs + [SideOf(ps[i + 1], left)], ts + [Timed(ms[i].step, ms[i].now)])
    ensures ms[i].left != left ==> SideOf(ps[i + 1], left) == SideOf(ps[i], left)
  {
    assert MovesAt(ps, ms, i);
    if ms[i].left == left { ExtendConnRun(cs, ts, Timed(ms[i].step, ms[i].now), SideOf(ps[i + 1], left)); }
  }

  /** The bytes in a stretch of a stream stand together among its bytes. */
  lemma {:induction false} StretchOfData(stream: seq<Item>, start: nat, got: seq<Byte>)
    requires start + |got| <= |stream| && stream[start..start + |got|] == Text(got)
    ensures DataOf(stream[..start]) + got <= DataOf(stream)
  {
    var upTo, rest := stream[..start + |got|], stream[start + |got|..];
    assert upTo == stream[..start] + Text(got) && stream == upTo + rest;
    DataOfAppend(stream[..start], Text(got));
    DataOfText(got);
    DataOfAppend(upTo, rest);
  }

  /** What the sending side's application handed over, in order, less what was lost before it was recorded. */
  function Outgoing(ps: seq<Pair>, ms: seq<Move>, n: nat, left: bool): seq<Byte>
    requires n <= |ms| && n < |ps|
  {
    Kept(AllServed(ConnsOf(ps, ms, n, left), StepsOf(ms, n, left), |StepsOf(ms, n, left)|))
  }

  /** The payloads of one side's accepted sends, and of those whose turn has come. */
  function AcceptedBy(ps: seq<Pair>, ms: seq<Move>, n: nat, left: bool): seq<Chunk>
    requires n <= |ms| && n < |ps|
  {
    AllAccepted(ConnsOf(ps, ms, n, left), StepsOf(ms, n, left), |StepsOf(ms, n, left)|)
  }

  function ServedBy(ps: seq<Pair>, ms: seq<Move>, n: nat, left: bool): seq<Chunk>
    requires n <= |ms| && n < |ps|
  {
    Contents(AllServed(ConnsOf(ps, ms, n, left), StepsOf(ms, n, left), |StepsOf(ms, n, left)|))
  }

  /** Application to application: what one side's application received is a stretch of the bytes the other side's
      application sent, in order, less those lost before they were recorded; for an active opener it is a prefix.
      The accepted sends are, in order, those whose turn has come and those still queued. */
  lemma ApplicationDelivery(ps: seq<Pair>, ms: seq<Move>, n: nat, left: bool)
    requires IsRun(ps, ms) && n < |ps|
    ensures var s, r := SideOf(ps[n], left), SideOf(ps[n], !left);
            var got := Delivered(r.hist.trace);
            r.hist.start <= |s.hist.stream| &&
            DataOf(s.hist.stream[..r.hist.start]) + got <= Outgoing(ps, ms, n, left) &&
            (r.active && OnConnect in r.hist.trace ==> got <= Outgoing(ps, ms, n, left))
    ensures AcceptedBy(ps, ms, n, left) == ServedBy(ps, ms, n, left) + Payloads(SideOf(ps[n], left).queue)
  {
    SideIsConnRun(ps, ms, n, left);
    StreamIsAcceptedData(ConnsOf(ps, ms, n, left), StepsOf(ms, n, left), |StepsOf(ms, n, left)|);
    RunAgrees(ps, ms, n);
    DirData(SideOf(ps[n], left), SideOf(ps[n], !left));
  }

  lemma DirData(s: Conn, r: Conn)
    requires Dir(s, r)
    ensures r.hist.start <= |s.hist.stream|
    ensures DataOf(s.hist.stream[..r.hist.start]) + Delivered(r.hist.trace) <= DataOf(s.hist.stream)
    ensures r.active && OnConnect in r.hist.trace ==> Delivered(r.hist.trace) <= DataOf(s.hist.stream)
  {
    StretchOfData(s.hist.stream, r.hist.start, Delivered(r.hist.trace));
    if r.active && OnConnect in r.hist.trace {
      assert s.hist.stream[..1] == [Syn] && [Syn][..0] == [];
      assert DataOf([Syn]) == [];
      assert DataOf(s.hist.stream[..1]) + Delivered(r.hist.trace) == Delivered(r.hist.trace);
    }
  }
}
