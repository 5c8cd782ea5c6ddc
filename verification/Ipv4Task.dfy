/** The IPv4 transmit queue and its task: who frees a buffer handed to `send_ipv4_packet`, and what leaves the host. */
module Ipv4Task {
  import opened NetTypes
  import opened Ipv4

  const QUEUE_LENGTH: nat := 4

  /** Parameters with the identity of their heap block. */
  datatype Job = Job(block: nat, params: Params)

  /** How sending one job ends: no memory, no MAC address, or handed to the Ethernet layer. */
  datatype Outcome = NoMemory | NoMac | ToEthernet(mac: Mac)

  datatype Frame = Frame(mac: Mac, bytes: seq<Byte>)

  /** The queue (absent until initialisation), the blocks freed so far and the frames handed down. */
  datatype Tx = Tx(ready: bool, queue: seq<Job>, freed: seq<nat>, frames: seq<Frame>)

  predicate Fits(j: Job) { |j.params.data| <= MAX_PAYLOAD }

  // ----- one call, one turn of the task -----

  function Submit(t: Tx, j: Job): Tx {
    if t.ready && |t.queue| < QUEUE_LENGTH then t.(queue := t.queue + [j]) else t.(freed := t.freed + [j.block])
  }

  function FrameOf(j: Job, o: Outcome): seq<Frame>
    requires Fits(j)
  {
    if o.ToEthernet? then [Frame(o.mac, Packet(j.params))] else []
  }

  function Transmit(t: Tx, o: Outcome): Tx
    requires t.queue != [] && Fits(t.queue[0])
  {
    t.(queue := t.queue[1..], freed := t.freed + [t.queue[0].block], frames := t.frames + FrameOf(t.queue[0], o))
  }

  class Transmitter {
    var ready: bool
    var queue: seq<Job>
    ghost var freed: seq<nat>
    var frames: seq<Frame>

    ghost function Model(): Tx
      reads this
    {
      Tx(ready, queue, freed, frames)
    }

    constructor ()
      ensures Model() == Tx(false, [], [], [])
    {
      ready, queue, freed, frames := false, [], [], [];
    }

    /** `send_ipv4_packet`. */
    method Send(j: Job) returns (ok: bool)
      modifies this
      ensures Model() == Submit(old(Model()), j)
      ensures ok <==> old(ready) && |old(queue)| < QUEUE_LENGTH
    {
      if !ready {
        freed := freed + [j.block];
        return false;
      }
      if |queue| >= QUEUE_LENGTH {
        freed := freed + [j.block];
        return false;
      }
      queue := queue + [j];
      return true;
    }

    /** One turn of `ipv4_task`, with `internal_send_ipv4_packet` on the oldest job. */
    method SendOldest(o: Outcome)
      requires queue != [] && Fits(queue[0])
      modifies this
      ensures Model() == Transmit(old(Model()), o)
    {
      var j := queue[0];
      queue := queue[1..];
      if o == NoMemory {
        freed := freed + [j.block];
        return;
      }
      var packet := BuildPacket(j.params);
      freed := freed + [j.block];
      if o.ToEthernet? { frames := frames + [Frame(o.mac, packet[..])]; }
    }
  }

  // ----- every run -----

  datatype Step = Start | Give(job: Job) | Turn(outcome: Outcome)

  predicate Enabled(t: Tx, s: Step) {
    match s
    case Start => true
    case Give(j) => Fits(j)
    case Turn(_) => t.ready && t.queue != [] && Fits(t.queue[0])
  }

  function Next(t: Tx, s: Step): Tx
    requires Enabled(t, s)
  {
    match s
    case Start => t.(ready := true)
    case Give(j) => Submit(t, j)
    case Turn(o) => Transmit(t, o)
  }

  predicate StepsAt(ts: seq<Tx>, ss: seq<Step>, i: nat) {
    i < |ss| && i + 1 < |ts| && Enabled(ts[i], ss[i]) && ts[i + 1] == Next(ts[i], ss[i])
  }

  ghost predicate IsRun(ts: seq<Tx>, ss: seq<Step>) {
    |ts| == |ss| + 1 && ts[0] == Tx(false, [], [], []) && forall i :: 0 <= i < |ss| ==> StepsAt(ts, ss, i)
  }

  function Is(b: nat, c: nat): nat { if b == c then 1 else 0 }

  /** How often block `b` is given by a step, and by the first `n` steps. */
  function Gives(s: Step, b: nat): nat { if s.Give? then Is(s.job.block, b) else 0 }

  function Given(ss: seq<Step>, n: nat, b: nat): nat
    requires n <= |ss|
  {
    if n == 0 then 0 else Given(ss, n - 1, b) + Gives(ss[n - 1], b)
  }

  function Queued(q: seq<Job>, b: nat): nat {
    if q == [] then 0 else Is(q[0].block, b) + Queued(q[1..], b)
  }

  function Freed(f: seq<nat>, b: nat): nat {
    if f == [] then 0 else Freed(f[..|f| - 1], b) + Is(f[|f| - 1], b)
  }

  lemma {:induction false} QueuedAppend(q: seq<Job>, j: Job, b: nat)
    ensures Queued(q + [j], b) == Queued(q, b) + Is(j.block, b)
  {
    if q == [] {
      assert q + [j] == [j];
    } else {
      assert (q + [j])[1..] == q[1..] + [j];
      QueuedAppend(q[1..], j, b);
    }
  }

  lemma FreedAppend(f: seq<nat>, c: nat, b: nat)
    ensures Freed(f + [c], b) == Freed(f, b) + Is(c, b)
  {
    assert (f + [c])[..|f|] == f;
  }

  lemma NextConserves(t: Tx, s: Step, b: nat)
    requires Enabled(t, s)
    ensures var u := Next(t, s);
            Queued(u.queue, b) + Freed(u.freed, b) == Queued(t.queue, b) + Freed(t.freed, b) + Gives(s, b)
  {
    if s.Give? {
      QueuedAppend(t.queue, s.job, b);
      FreedAppend(t.freed, s.job.block, b);
    } else if s.Turn? {
      FreedAppend(t.freed, t.queue[0].block, b);
    }
  }

  /** Every block given is queued or freed, as often as it was given; so once the queue has drained each has been freed
      exactly once per call.  The queue never exceeds its length. */
  lemma {:induction false} GivenIsQueuedOrFreed(ts: seq<Tx>, ss: seq<Step>, n: nat, b: nat)
    requires IsRun(ts, ss) && n < |ts|
    ensures Given(ss, n, b) == Queued(ts[n].queue, b) + Freed(ts[n].freed, b)
    ensures ts[n].queue == [] ==> Freed(ts[n].freed, b) == Given(ss, n, b)
    ensures |ts[n].queue| <= QUEUE_LENGTH
  {
    if n > 0 {
      GivenIsQueuedOrFreed(ts, ss, n - 1, b);
      assert StepsAt(ts, ss, n - 1);
      NextConserves(ts[n - 1], ss[n - 1], b);
    }
  }

  /** The frames of a run: what was accepted, in order, less what failed. */
  function Accepted(ts: seq<Tx>, ss: seq<Step>, n: nat): seq<Job>
    requires n <= |ss| && n <= |ts|
  {
    if n == 0 then []
    else if ss[n - 1].Give? && ts[n - 1].ready && |ts[n - 1].queue| < QUEUE_LENGTH
    then Accepted(ts, ss, n - 1) + [ss[n - 1].job]
    else Accepted(ts, ss, n - 1)
  }

  function Outcomes(ss: seq<Step>, n: nat): seq<Outcome>
    requires n <= |ss|
  {
    if n == 0 then [] else Outcomes(ss, n - 1) + if ss[n - 1].Turn? then [ss[n - 1].outcome] else []
  }

  function FramesOf(js: seq<Job>, os: seq<Outcome>): seq<Frame>
    requires |js| == |os| && forall i :: 0 <= i < |js| ==> Fits(js[i])
  {
    if js == [] then [] else FramesOf(js[..|js| - 1], os[..|os| - 1]) + FrameOf(js[|js| - 1], os[|os| - 1])
  }

  /** First in, first out: the queue is the tail of what was accepted, and the frames are the packets of the part before
      it, in order, each exactly once unless its own turn failed. */
  ghost predicate InOrder(t: Tx, all: seq<Job>, os: seq<Outcome>) {
    |os| <= |all| && t.queue == all[|os|..] && (forall i :: 0 <= i < |all| ==> Fits(all[i])) &&
    t.frames == FramesOf(all[..|os|], os)
  }

  lemma {:induction false} TransmitsInOrder(ts: seq<Tx>, ss: seq<Step>, n: nat)
    requires IsRun(ts, ss) && n < |ts|
    ensures InOrder(ts[n], Accepted(ts, ss, n), Outcomes(ss, n))
  {
    if n > 0 {
      TransmitsInOrder(ts, ss, n - 1);
      assert StepsAt(ts, ss, n - 1);
      var t, s, all, os := ts[n - 1], ss[n - 1], Accepted(ts, ss, n - 1), Outcomes(ss, n - 1);
      assert os + [] == os;
      if s.Give? {
        SubmitInOrder(t, all, os, s.job);
      } else if s.Turn? {
        TransmitInOrder(t, all, os, s.outcome);
      }
    }
  }

  // ----- what a frame carries -----

  /** A frame for `mac` whose packet gets the data of `p` from its source to its destination and nobody else. */
  ghost predicate Conveys(f: Frame, p: Params, mac: Mac)
    requires |p.data| <= MAX_PAYLOAD
  {
    f.mac == mac && |f.bytes| == 20 + |p.data| && f.bytes[9] == p.protocol && f.bytes[12..16] == p.src &&
    f.bytes[16..20] == p.dst && f.bytes[20..] == p.data && Conveyed(f.bytes, p)
  }

  ghost predicate Conveyed(bytes: seq<Byte>, p: Params)
    requires |p.data| <= MAX_PAYLOAD
  {
    forall host: Ip, padding: seq<Byte> ::
      Ipv4Input(host, bytes + padding) ==
      if host != p.dst then Dropped
      else if p.protocol == 1 then ToIcmp(bytes)
      else if p.protocol == 6 then ToTcp(p.data, p.src)
      else Dropped
  }

  lemma PacketConveys(p: Params, mac: Mac)
    requires |p.data| <= MAX_PAYLOAD
    ensures Conveys(Frame(mac, Packet(p)), p, mac)
  {
    var b := Packet(p);
    PacketFields(p, []);
    assert b + [] == b;
    forall host: Ip, padding: seq<Byte> { BuildAcceptRoundTrip(host, p, padding); }
  }

  /** How many of some outcomes handed a frame down. */
  function Sent(os: seq<Outcome>): nat {
    if os == [] then 0 else Sent(os[..|os| - 1]) + if os[|os| - 1].ToEthernet? then 1 else 0
  }

  ghost predicate FrameIs(fs: seq<Frame>, js: seq<Job>, os: seq<Outcome>, i: nat)
    requires i < |os| <= |js|
  {
    os[i].ToEthernet? ==> Sent(os[..i]) < |fs| && Fits(js[i]) && Conveys(fs[Sent(os[..i])], js[i].params, os[i].mac)
  }

  lemma {:induction false} FramesConvey(js: seq<Job>, os: seq<Outcome>)
    requires |js| == |os| && forall i :: 0 <= i < |js| ==> Fits(js[i])
    ensures |FramesOf(js, os)| == Sent(os)
    ensures forall i :: 0 <= i < |os| ==> FrameIs(FramesOf(js, os), js, os, i)
  {
    var n := |os| - 1;
    if n >= 0 {
      FramesConvey(js[..n], os[..n]);
      forall i | 0 <= i <= n ensures FrameIs(FramesOf(js, os), js, os, i) {
        if i < n {
          assert FrameIs(FramesOf(js[..n], os[..n]), js[..n], os[..n], i);
          assert os[..n][..i] == os[..i];
        } else if os[n].ToEthernet? {
          PacketConveys(js[n].params, os[n].mac);
        }
      }
    }
  }

  /** In every run the frames are as many as the turns that reached the Ethernet layer, and the frame of each such turn
      goes to the address it found and conveys the job accepted at that place: source, destination, protocol, data. */
  lemma EveryFrameConveys(ts: seq<Tx>, ss: seq<Step>, n: nat)
    requires IsRun(ts, ss) && n < |ts|
    ensures var all, os := Accepted(ts, ss, n), Outcomes(ss, n);
            |os| <= |all| && |ts[n].frames| == Sent(os) &&
            forall i :: 0 <= i < |os| ==> FrameIs(ts[n].frames, all, os, i)
  {
    TransmitsInOrder(ts, ss, n);
    var all, os := Accepted(ts, ss, n), Outcomes(ss, n);
    FramesConvey(all[..|os|], os);
    assert forall i :: 0 <= i < |os| && FrameIs(ts[n].frames, all[..|os|], os, i) ==> FrameIs(ts[n].frames, all, os, i);
  }

  lemma SubmitInOrder(t: Tx, all: seq<Job>, os: seq<Outcome>, j: Job)
    requires InOrder(t, all, os) && Fits(j)
    ensures InOrder(Submit(t, j), if t.ready && |t.queue| < QUEUE_LENGTH then all + [j] else all, os)
  {
    assert (all + [j])[..|os|] == all[..|os|];
    assert (all + [j])[|os|..] == all[|os|..] + [j];
  }

  lemma TransmitInOrder(t: Tx, all: seq<Job>, os: seq<Outcome>, o: Outcome)
    requires InOrder(t, all, os) && t.queue != []
    ensures InOrder(Transmit(t, o), all, os + [o])
  {
    assert all[..|os| + 1][..|os|] == all[..|os|];
    assert (os + [o])[..|os|] == os;
    assert t.queue[0] == all[|os|];
  }
}
