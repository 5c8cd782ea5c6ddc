/** How long a caller of `arp_get_mac_addr` waits and why it returns, over every run of the resolver: who is let into a
    waiting list, what lets a waiter out of it, and when the deadline of a list was set. */
module ArpWaiting {
  import opened NetTypes
  import opened ArpCache
  import opened ArpResolver

  // ----- what a worker iteration meets -----

  /** Slots that still have waiters once the timeouts of an iteration at `tick` are over. */
  predicate Live(p: Pending, tick: nat) { p.waiting != [] && tick < p.expires }

  predicate LiveFor(p: Pending, ip: Ip, tick: nat) { Live(p, tick) && p.ip == ip }

  predicate Roomy(p: Pending, ip: Ip, tick: nat) { LiveFor(p, ip, tick) && |p.waiting| < MAX_PENDING_PER_IP }

  predicate SomeLiveFor(ps: seq<Pending>, ip: Ip, tick: nat) { exists i: nat :: i < |ps| && LiveFor(ps[i], ip, tick) }

  predicate SomeRoomy(ps: seq<Pending>, ip: Ip, tick: nat) { exists i: nat :: i < |ps| && Roomy(ps[i], ip, tick) }

  predicate SomeFree(ps: seq<Pending>, tick: nat) { exists i: nat :: i < |ps| && !Live(ps[i], tick) }

  /** A request is let in: there is a live slot for its address with fewer than eight waiters, or none at all for it,
      a free slot and a request that could be sent. */
  predicate Admits(ps: seq<Pending>, ip: Ip, tick: nat, sendOk: bool) {
    SomeRoomy(ps, ip, tick) || (!SomeLiveFor(ps, ip, tick) && SomeFree(ps, tick) && sendOk)
  }

  predicate Holds(p: Pending, t: TaskId, ip: Ip) { p.ip == ip && t in p.waiting }

  predicate WaitsFor(a: Arp, t: TaskId, ip: Ip) { exists i: nat :: i < |a.pending| && Holds(a.pending[i], t, ip) }

  predicate Serves(a: Arp, s: Step) { s.Work? && s.handle.OnRequest? && a.requests != [] }

  predicate Learns(a: Arp, s: Step, ip: Ip) {
    s.Work? && s.handle.OnEntry? && a.entries != [] && a.entries[0].ip == ip
  }

  /** The slot a request is put into, before and after: the live slot for its address, or a free one with a deadline
      one timeout after it was set up. */
  predicate Placed(p: Pending, q: Pending, r: Request, s: Step)
    requires s.Work?
  {
    if LiveFor(p, r.ip, s.tick) then q == p.(waiting := p.waiting + [r.task])
    else !Live(p, s.tick) && s.sendOk && q == Pending(s.later + TIMEOUT, r.ip, [r.task])
  }

  predicate SomePlaced(ps: seq<Pending>, qs: seq<Pending>, r: Request, s: Step)
    requires s.Work?
  {
    |ps| == |qs| && exists i: nat :: i < |ps| && Placed(ps[i], qs[i], r, s)
  }

  // ----- one task, one place -----

  lemma {:induction false} RequestCounted(rs: seq<Request>, k: nat)
    requires k < |rs|
    ensures InRequests(rs, rs[k].task) >= 1
  {
    if k > 0 { RequestCounted(rs[1..], k - 1); }
  }

  lemma {:induction false} WaiterCounted(ps: seq<Pending>, i: nat, t: TaskId)
    requires i < |ps| && t in ps[i].waiting
    ensures InWaiting(ps, t) >= 1
  {
    assert t in multiset(ps[i].waiting);
    if i < |ps| - 1 { WaiterCounted(ps[..|ps| - 1], i, t); }
  }

  lemma {:induction false} WaitersCounted(ps: seq<Pending>, i: nat, j: nat, t: TaskId)
    requires i < j < |ps| && t in ps[i].waiting && t in ps[j].waiting
    ensures InWaiting(ps, t) >= 2
  {
    var n := |ps| - 1;
    assert t in multiset(ps[j].waiting);
    if j < n { WaitersCounted(ps[..n], i, j, t); } else { WaiterCounted(ps[..n], i, t); }
  }

  lemma {:induction false} NoWaiterCounted(ps: seq<Pending>, t: TaskId)
    requires forall i :: 0 <= i < |ps| ==> t !in ps[i].waiting
    ensures InWaiting(ps, t) == 0
  {
    if ps != [] {
      assert t !in ps[|ps| - 1].waiting;
      NoWaiterCounted(ps[..|ps| - 1], t);
    }
  }

  predicate InSomeList(ps: seq<Pending>, t: TaskId) { exists i :: 0 <= i < |ps| && t in ps[i].waiting }

  /** Inside a call and no longer queued, a task is either in a list or has its one notification. */
  lemma ListedOrNotified(a: Arp, t: TaskId)
    requires Conserved(a) && t in a.asking && InRequests(a.requests, t) == 0
    ensures a.notes[t] == if InSomeList(a.pending, t) then 0 else 1
  {
    assert Places(a, t) == 1;
    if InSomeList(a.pending, t) {
      var i :| 0 <= i < |a.pending| && t in a.pending[i].waiting;
      WaiterCounted(a.pending, i, t);
    } else {
      NoWaiterCounted(a.pending, t);
    }
  }

  /** A task with a queued request is in no list, and its request is queued once. */
  lemma QueuedOnce(a: Arp)
    requires Conserved(a) && a.requests != []
    ensures var t := a.requests[0].task;
            t in a.asking && !InSomeList(a.pending, t) && InRequests(a.requests[1..], t) == 0
  {
    var t := a.requests[0].task;
    assert Places(a, t) == if t in a.asking then 1 else 0;
    if InSomeList(a.pending, t) {
      var i :| 0 <= i < |a.pending| && t in a.pending[i].waiting;
      WaiterCounted(a.pending, i, t);
    }
  }

  /** A waiter is in one list only and has nothing queued. */
  lemma WaitsOnce(a: Arp, i: nat, t: TaskId)
    requires Conserved(a) && i < |a.pending| && t in a.pending[i].waiting
    ensures t in a.asking && InRequests(a.requests, t) == 0 && a.notes[t] == 0
    ensures forall j :: 0 <= j < |a.pending| && j != i ==> t !in a.pending[j].waiting
  {
    assert Places(a, t) == if t in a.asking then 1 else 0;
    WaiterCounted(a.pending, i, t);
    forall j | 0 <= j < |a.pending| && j != i ensures t !in a.pending[j].waiting {
      if t in a.pending[j].waiting { WaitersCounted(a.pending, if i < j then i else j, if i < j then j else i, t); }
    }
  }

  // ----- one iteration, slot by slot -----

  function Aged(p: Pending, tick: nat): Pending { if tick >= p.expires then p.(waiting := []) else p }

  /** The state between the timeouts and the queue item. */
  predicate AgedFrom(a: Arp, s: Step, c: Arp) {
    s.Work? && |c.pending| == |a.pending| && c.requests == a.requests && c.entries == a.entries && c.ring == a.ring &&
    forall i :: 0 <= i < |a.pending| ==> c.pending[i] == Aged(a.pending[i], s.tick)
  }

  /** What the queue item of an iteration does to the aged table. */
  predicate ItemDone(c: Arp, s: Step, b: Arp)
    requires s.Work? && RingOk(c.ring)
  {
    if Serves(c, s) then b == Serve(c.(requests := c.requests[1..]), c.requests[0], s.later, s.sendOk)
    else if s.handle.OnEntry? && c.entries != [] then b == Learn(c.(entries := c.entries[1..]), c.entries[0])
    else b == c
  }

  lemma IterationSplits(a: Arp, s: Step) returns (c: Arp)
    requires TableOk(a) && s.Work? && Enabled(a, s)
    ensures AgedFrom(a, s, c) && TableOk(c) && ItemDone(c, s, Next(a, s))
  {
    var x := Expire(a.pending, a.notes, s.tick, |a.pending|);
    c := a.(pending := x.pending, notes := x.notes, now := s.later);
  }

  lemma AdmitsAged(a: Arp, s: Step, c: Arp, ip: Ip)
    requires AgedFrom(a, s, c) && TableOk(c)
    ensures SomeRoomy(a.pending, ip, s.tick) <==>
            exists i :: 0 <= i < |c.pending| && Active(c.pending[i], ip) && |c.pending[i].waiting| < MAX_PENDING_PER_IP
    ensures SomeLiveFor(a.pending, ip, s.tick) <==> exists i :: 0 <= i < |c.pending| && Active(c.pending[i], ip)
    ensures SomeFree(a.pending, s.tick) <==> exists i :: 0 <= i < |c.pending| && c.pending[i].waiting == []
  {
    assert forall i :: 0 <= i < |a.pending| ==>
             (LiveFor(a.pending[i], ip, s.tick) <==> Active(c.pending[i], ip)) &&
             (Roomy(a.pending[i], ip, s.tick) <==>
                Active(c.pending[i], ip) && |c.pending[i].waiting| < MAX_PENDING_PER_IP) &&
             (Live(a.pending[i], s.tick) <==> c.pending[i].waiting != []);
  }

  /** The slot that changes when a request is served, if any does. */
  predicate OneChanged(ps: seq<Pending>, qs: seq<Pending>, i: nat, q: Pending) { i < |ps| && qs == ps[i := q] }

  lemma ServePlaces(a: Arp, s: Step, c: Arp, b: Arp) returns (i: nat)
    requires AgedFrom(a, s, c) && TableOk(c) && Serves(c, s) && ItemDone(c, s, b)
    requires Admits(a.pending, c.requests[0].ip, s.tick, s.sendOk)
    ensures i < |a.pending| && |b.pending| == |a.pending| && Placed(a.pending[i], b.pending[i], c.requests[0], s)
    ensures OneChanged(c.pending, b.pending, i, b.pending[i]) && b.requests == c.requests[1..]
  {
    var r := c.requests[0];
    AdmitsAged(a, s, c, r.ip);
    i := FindPending(c.pending, r.ip);
    if i == |c.pending| { i := FindFree(c.pending); }
  }

  /** A refused request changes no waiting list and no slot that has waiters. */
  lemma ServeRefuses(a: Arp, s: Step, c: Arp, b: Arp)
    requires AgedFrom(a, s, c) && TableOk(c) && Serves(c, s) && ItemDone(c, s, b)
    requires !Admits(a.pending, c.requests[0].ip, s.tick, s.sendOk)
    ensures |b.pending| == |c.pending| && b.requests == c.requests[1..]
    ensures forall i :: 0 <= i < |c.pending| ==> b.pending[i].waiting == c.pending[i].waiting
    ensures forall i :: 0 <= i < |c.pending| && c.pending[i].waiting != [] ==> b.pending[i] == c.pending[i]
  {
    AdmitsAged(a, s, c, c.requests[0].ip);
  }

  /** A learned pair empties the list for its address and no other. */
  lemma LearnEmpties(s: Step, c: Arp, b: Arp)
    requires TableOk(c) && s.Work? && s.handle.OnEntry? && c.entries != [] && ItemDone(c, s, b)
    ensures |b.pending| == |c.pending| && b.requests == c.requests
    ensures forall i :: 0 <= i < |c.pending| ==>
              b.pending[i] == if c.pending[i].ip == c.entries[0].ip then c.pending[i].(waiting := []) else c.pending[i]
    ensures LookupRing(b.ring, c.entries[0].ip) == Found(c.entries[0].mac)
  {
    ReleasedFindsMac(c.(entries := c.entries[1..]), c.entries[0]);
    var ip := c.entries[0].ip;
    var k := FindPending(c.pending, ip);
    assert forall i :: 0 <= i < |c.pending| && i != k && c.pending[i].ip == ip ==> c.pending[i].waiting == [] by {
      assert forall i :: 0 <= i < |c.pending| && c.pending[i].ip == ip && c.pending[i].waiting != [] ==>
               Active(c.pending[i], ip);
    }
  }

  // ----- being let in -----

  lemma ServedWaits(a: Arp, s: Step)
    requires TableOk(a) && Conserved(a) && Enabled(a, s) && Serves(a, s)
    ensures var r, b := a.requests[0], Next(a, s);
            (WaitsFor(b, r.task, r.ip) <==> Admits(a.pending, r.ip, s.tick, s.sendOk)) &&
            (InSomeList(b.pending, r.task) <==> Admits(a.pending, r.ip, s.tick, s.sendOk)) &&
            b.requests == a.requests[1..] &&
            (Admits(a.pending, r.ip, s.tick, s.sendOk) ==> SomePlaced(a.pending, b.pending, r, s))
  {
    var r, b := a.requests[0], Next(a, s);
    var c := IterationSplits(a, s);
    QueuedOnce(a);
    assert forall i :: 0 <= i < |c.pending| ==> r.task !in c.pending[i].waiting by {
      assert forall i :: 0 <= i < |a.pending| ==> r.task !in a.pending[i].waiting;
    }
    if Admits(a.pending, r.ip, s.tick, s.sendOk) {
      var i := ServePlaces(a, s, c, b);
      assert Placed(a.pending[i], b.pending[i], r, s) && Holds(b.pending[i], r.task, r.ip);
    } else {
      ServeRefuses(a, s, c, b);
    }
  }

  /** Serving the oldest request of any run: its task waits for its address, unnotified, if and only if there was a
      live slot for the address with fewer than eight waiters, or none for it, a free slot and a request that could be
      sent; a slot set up for it expires one timeout later.  Otherwise the task is notified at once. */
  lemma WaitsIffAdmitted(as_: seq<Arp>, ss: seq<Step>, n: nat)
    requires IsRun(as_, ss) && n < |ss| && Serves(as_[n], ss[n])
    ensures var a, s, b := as_[n], ss[n], as_[n + 1];
            var r, ok := a.requests[0], Admits(a.pending, a.requests[0].ip, s.tick, s.sendOk);
            (WaitsFor(b, r.task, r.ip) <==> ok) && b.notes[r.task] == (if ok then 0 else 1) &&
            b.requests == a.requests[1..] && (ok ==> SomePlaced(a.pending, b.pending, r, s))
  {
    WaiterConservation(as_, ss, n);
    WaiterConservation(as_, ss, n + 1);
    PendingTable(as_, ss, n);
    assert StepsAt(as_, ss, n);
    ServedWaits(as_[n], ss[n]);
    QueuedOnce(as_[n]);
    IterateAsking(as_[n], ss[n].handle, ss[n].tick, ss[n].later, ss[n].sendOk);
    ListedOrNotified(as_[n + 1], as_[n].requests[0].task);
  }

  // ----- being let out -----

  /** What empties a waiting list: an iteration at or past its deadline, or one that learns its address. */
  predicate Releases(p: Pending, a: Arp, s: Step) { s.Work? && (s.tick >= p.expires || Learns(a, s, p.ip)) }

  /** A slot with waiters before and after a step. */
  predicate SlotKept(p: Pending, q: Pending, a: Arp, s: Step) {
    if Releases(p, a, s) then
      q.waiting == [] || (Serves(a, s) && Placed(p, q, a.requests[0], s))
    else
      q == p || (Serves(a, s) && q == p.(waiting := p.waiting + [a.requests[0].task]))
  }

  lemma StepKeepsSlot(a: Arp, s: Step, i: nat)
    requires TableOk(a) && Enabled(a, s) && i < |a.pending| && a.pending[i].waiting != []
    ensures |Next(a, s).pending| == |a.pending| && SlotKept(a.pending[i], Next(a, s).pending[i], a, s)
  {
    if s.Work? {
      var c := IterationSplits(a, s);
      AgedKeepsSlot(a, s, c, Next(a, s), i);
    }
  }

  lemma AgedKeepsSlot(a: Arp, s: Step, c: Arp, b: Arp, i: nat)
    requires AgedFrom(a, s, c) && TableOk(c) && ItemDone(c, s, b) && i < |a.pending| && a.pending[i].waiting != []
    ensures |b.pending| == |a.pending| && SlotKept(a.pending[i], b.pending[i], a, s)
  {
    assert c.pending[i] == Aged(a.pending[i], s.tick);
    if Serves(a, s) {
      if Admits(a.pending, a.requests[0].ip, s.tick, s.sendOk) {
        var j := ServePlaces(a, s, c, b);
      } else {
        ServeRefuses(a, s, c, b);
      }
    } else if s.handle.OnEntry? && a.entries != [] {
      LearnEmpties(s, c, b);
    }
  }

  /** In every run a waiter leaves its list exactly in an iteration at or past the deadline of the list, or in one that
      learns the address.  Then it has its notification and waits nowhere; until then its list keeps its address and
      its deadline.  After a learned pair the cache holds the MAC. */
  lemma LeavesIffReleased(as_: seq<Arp>, ss: seq<Step>, n: nat, i: nat, t: TaskId)
    requires IsRun(as_, ss) && n < |ss| && i < |as_[n].pending| && t in as_[n].pending[i].waiting
    ensures |as_[n + 1].pending| == |as_[n].pending|
    ensures var p, q := as_[n].pending[i], as_[n + 1].pending[i];
            if Releases(p, as_[n], ss[n]) then !InSomeList(as_[n + 1].pending, t) && as_[n + 1].notes[t] == 1
            else Holds(q, t, p.ip) && q.expires == p.expires && as_[n + 1].notes[t] == 0
    ensures var ip := as_[n].pending[i].ip;
            Learns(as_[n], ss[n], ip) ==> LookupRing(as_[n + 1].ring, ip) == Found(as_[n].entries[0].mac)
  {
    var a, s, b := as_[n], ss[n], as_[n + 1];
    WaiterConservation(as_, ss, n);
    WaiterConservation(as_, ss, n + 1);
    PendingTable(as_, ss, n);
    assert StepsAt(as_, ss, n);
    StepKeepsSlot(a, s, i);
    WaitsOnce(a, i, t);
    if a.requests != [] { RequestCounted(a.requests, 0); }
    if Releases(a.pending[i], a, s) {
      ReleasedNotified(a, s, i, t, b);
      var c := IterationSplits(a, s);
      if Learns(a, s, a.pending[i].ip) { LearnEmpties(s, c, b); }
    } else {
      WaitsOnce(b, i, t);
    }
  }

  lemma ReleasedNotified(a: Arp, s: Step, i: nat, t: TaskId, b: Arp)
    requires TableOk(a) && Conserved(a) && Conserved(b) && Enabled(a, s) && b == Next(a, s) && i < |a.pending|
    requires t in a.pending[i].waiting && Releases(a.pending[i], a, s)
    ensures !InSomeList(b.pending, t) && b.notes[t] == 1
  {
    WaitsOnce(a, i, t);
    if a.requests != [] { RequestCounted(a.requests, 0); }
    assert Serves(a, s) ==> a.requests[0].task != t;
    forall j | 0 <= j < |b.pending| ensures t !in b.pending[j].waiting { NewcomersServed(a, s, j, t); }
    IterateAsking(a, s.handle, s.tick, s.later, s.sendOk);
    assert InRequests(b.requests, t) == 0 by { RequestsShrink(a, s, t); }
    ListedOrNotified(b, t);
  }

  lemma RequestsShrink(a: Arp, s: Step, t: TaskId)
    requires TableOk(a) && s.Work? && Enabled(a, s) && InRequests(a.requests, t) == 0
    ensures InRequests(Next(a, s).requests, t) == 0
  {
  }

  /** Nobody gets into a list but the task being served, and a waiter of a released list is out. */
  lemma NewcomersServed(a: Arp, s: Step, j: nat, t: TaskId)
    requires TableOk(a) && s.Work? && Enabled(a, s) && j < |Next(a, s).pending|
    requires Serves(a, s) ==> a.requests[0].task != t
    ensures |Next(a, s).pending| == |a.pending|
    ensures t in Next(a, s).pending[j].waiting ==> t in a.pending[j].waiting && !Releases(a.pending[j], a, s)
  {
    var c := IterationSplits(a, s);
    NewcomersAged(a, s, c, Next(a, s), j, t);
  }

  lemma NewcomersAged(a: Arp, s: Step, c: Arp, b: Arp, j: nat, t: TaskId)
    requires AgedFrom(a, s, c) && TableOk(c) && ItemDone(c, s, b) && j < |b.pending|
    requires Serves(a, s) ==> a.requests[0].task != t
    ensures |b.pending| == |a.pending|
    ensures t in b.pending[j].waiting ==> t in a.pending[j].waiting && !Releases(a.pending[j], a, s)
  {
    if Serves(a, s) {
      if Admits(a.pending, a.requests[0].ip, s.tick, s.sendOk) {
        var k := ServePlaces(a, s, c, b);
        assert c.pending[j] == Aged(a.pending[j], s.tick);
      } else {
        ServeRefuses(a, s, c, b);
      }
    } else if s.handle.OnEntry? && a.entries != [] {
      LearnEmpties(s, c, b);
    }
  }

  // ----- where a deadline comes from -----

  predicate SetUp(q: Pending, a: Arp, s: Step) {
    Serves(a, s) && s.sendOk && q == Pending(s.later + TIMEOUT, a.requests[0].ip, [a.requests[0].task])
  }

  predicate SameList(p: Pending, q: Pending) { q.waiting != [] && q.ip == p.ip && q.expires == p.expires }

  lemma KeptOrSetUp(a: Arp, s: Step, i: nat)
    requires TableOk(a) && Enabled(a, s) && i < |a.pending|
    ensures |Next(a, s).pending| == |a.pending|
    ensures Next(a, s).pending[i].waiting != [] ==>
              (a.pending[i].waiting != [] && SameList(a.pending[i], Next(a, s).pending[i])) ||
              SetUp(Next(a, s).pending[i], a, s)
  {
    if s.Work? {
      var c := IterationSplits(a, s);
      AgedOrSetUp(a, s, c, Next(a, s), i);
    }
  }

  lemma AgedOrSetUp(a: Arp, s: Step, c: Arp, b: Arp, i: nat)
    requires AgedFrom(a, s, c) && TableOk(c) && ItemDone(c, s, b) && i < |a.pending|
    ensures |b.pending| == |a.pending|
    ensures b.pending[i].waiting != [] ==>
              (a.pending[i].waiting != [] && SameList(a.pending[i], b.pending[i])) || SetUp(b.pending[i], a, s)
  {
    assert c.pending[i] == Aged(a.pending[i], s.tick);
    if Serves(a, s) {
      if Admits(a.pending, a.requests[0].ip, s.tick, s.sendOk) {
        var j := ServePlaces(a, s, c, b);
      } else {
        ServeRefuses(a, s, c, b);
      }
    } else if s.handle.OnEntry? && a.entries != [] {
      LearnEmpties(s, c, b);
    }
  }

  /** The list in slot `i` at `n` was set up by step `o`, with a request sent and one timeout to go, and has had waiters
      for the same address ever since. */
  predicate SetUpAt(as_: seq<Arp>, ss: seq<Step>, o: nat, n: nat, i: nat) {
    o < n < |as_| && o < |ss| && (forall j :: o < j <= n ==> i < |as_[j].pending|) &&
    SetUp(as_[o + 1].pending[i], as_[o], ss[o]) &&
    forall j :: o < j <= n ==> SameList(as_[o + 1].pending[i], as_[j].pending[i])
  }

  lemma SlotInRun(as_: seq<Arp>, ss: seq<Step>, n: nat, i: nat)
    requires IsRun(as_, ss) && n < |ss| && i < |as_[n + 1].pending| && as_[n + 1].pending[i].waiting != []
    ensures i < |as_[n].pending|
    ensures (as_[n].pending[i].waiting != [] && SameList(as_[n].pending[i], as_[n + 1].pending[i])) ||
            SetUp(as_[n + 1].pending[i], as_[n], ss[n])
  {
    PendingTable(as_, ss, n);
    PendingTable(as_, ss, n + 1);
    assert StepsAt(as_, ss, n);
    KeptOrSetUp(as_[n], ss[n], i);
  }

  lemma {:induction false} ListWasSetUp(as_: seq<Arp>, ss: seq<Step>, n: nat, i: nat) returns (o: nat)
    requires IsRun(as_, ss) && n < |as_| && i < |as_[n].pending| && as_[n].pending[i].waiting != []
    ensures SetUpAt(as_, ss, o, n, i)
  {
    assert n > 0;
    var a := as_[n - 1];
    SlotInRun(as_, ss, n - 1, i);
    if a.pending[i].waiting != [] && SameList(a.pending[i], as_[n].pending[i]) {
      o := ListWasSetUp(as_, ss, n - 1, i);
    } else {
      o := n - 1;
    }
  }

  // ----- a whole call -----

  /** Full table, full list or failed send. */
  predicate Refused(a: Arp, s: Step, t: TaskId, ip: Ip) {
    Serves(a, s) && a.requests[0] == Request(t, ip) && !Admits(a.pending, ip, s.tick, s.sendOk)
  }

  predicate Answered(a: Arp, s: Step, b: Arp, t: TaskId, ip: Ip) {
    WaitsFor(a, t, ip) && Learns(a, s, ip) && LookupRing(b.ring, ip) == Found(a.entries[0].mac)
  }

  /** Waiting in slot `i`, whose list was set up at step `o`, for a timeout measured from there. */
  predicate TimedOutIn(as_: seq<Arp>, ss: seq<Step>, k: nat, t: TaskId, ip: Ip, i: nat, o: nat) {
    SetUpAt(as_, ss, o, k, i) && k < |ss| && Holds(as_[k].pending[i], t, ip) && ss[k].Work? &&
    ss[o].Work? && ss[k].tick >= ss[o].later + TIMEOUT
  }

  ghost predicate TimedOut(as_: seq<Arp>, ss: seq<Step>, k: nat, t: TaskId, ip: Ip) {
    exists i: nat, o: nat :: TimedOutIn(as_, ss, k, t, ip, i, o)
  }

  ghost predicate LetGo(as_: seq<Arp>, ss: seq<Step>, k: nat, t: TaskId, ip: Ip) {
    k < |ss| && k + 1 < |as_| &&
    (Refused(as_[k], ss[k], t, ip) || Answered(as_[k], ss[k], as_[k + 1], t, ip) || TimedOut(as_, ss, k, t, ip))
  }

  ghost predicate LetGoBetween(as_: seq<Arp>, ss: seq<Step>, m: nat, n: nat, t: TaskId, ip: Ip) {
    exists k: nat :: m < k < n && LetGo(as_, ss, k, t, ip)
  }

  /** Step `m` is a call of `t` for `ip` that has not returned by `n`. */
  predicate Inside(ss: seq<Step>, m: nat, n: nat, t: TaskId, ip: Ip) {
    m < n <= |ss| && ss[m] == Ask(t, ip) && forall j :: m < j < n ==> ss[j] != Return(t)
  }

  /** During a call the request is queued, the task waits for its address, or it has been let go. */
  ghost predicate CallStatus(as_: seq<Arp>, ss: seq<Step>, m: nat, n: nat, t: TaskId, ip: Ip)
    requires n < |as_|
  {
    Request(t, ip) in as_[n].requests || WaitsFor(as_[n], t, ip) || LetGoBetween(as_, ss, m, n, t, ip)
  }

  lemma {:induction false} CallProceeds(as_: seq<Arp>, ss: seq<Step>, m: nat, n: nat, t: TaskId, ip: Ip)
    requires IsRun(as_, ss) && Inside(ss, m, n, t, ip)
    ensures CallStatus(as_, ss, m, n, t, ip)
  {
    assert StepsAt(as_, ss, n - 1);
    if n == m + 1 {
      assert as_[n].requests[|as_[m].requests|] == Request(t, ip);
    } else {
      CallProceeds(as_, ss, m, n - 1, t, ip);
      if LetGoBetween(as_, ss, m, n - 1, t, ip) {
        var k: nat :| m < k < n - 1 && LetGo(as_, ss, k, t, ip);
        assert LetGoBetween(as_, ss, m, n, t, ip);
      } else if WaitsFor(as_[n - 1], t, ip) {
        WaiterProceeds(as_, ss, m, n, t, ip);
      } else {
        QueuedProceeds(as_, ss, m, n, t, ip);
      }
    }
  }

  lemma WaiterProceeds(as_: seq<Arp>, ss: seq<Step>, m: nat, n: nat, t: TaskId, ip: Ip)
    requires IsRun(as_, ss) && m + 1 < n <= |ss| && WaitsFor(as_[n - 1], t, ip)
    ensures CallStatus(as_, ss, m, n, t, ip)
  {
    var k := n - 1;
    var i: nat :| i < |as_[k].pending| && Holds(as_[k].pending[i], t, ip);
    LeavesIffReleased(as_, ss, k, i, t);
    if Releases(as_[k].pending[i], as_[k], ss[k]) {
      if !Learns(as_[k], ss[k], ip) {
        var o := ListWasSetUp(as_, ss, k, i);
        assert TimedOutIn(as_, ss, k, t, ip, i, o);
      }
      assert LetGo(as_, ss, k, t, ip);
    }
  }

  lemma QueuedProceeds(as_: seq<Arp>, ss: seq<Step>, m: nat, n: nat, t: TaskId, ip: Ip)
    requires IsRun(as_, ss) && m + 1 < n <= |ss| && Request(t, ip) in as_[n - 1].requests
    ensures CallStatus(as_, ss, m, n, t, ip)
  {
    var k := n - 1;
    assert StepsAt(as_, ss, k);
    var a, s := as_[k], ss[k];
    if Serves(a, s) && a.requests[0] == Request(t, ip) {
      WaitsIffAdmitted(as_, ss, k);
      if !WaitsFor(as_[n], t, ip) { assert LetGo(as_, ss, k, t, ip); }
    } else {
      RequestsKept(a, s, Request(t, ip));
    }
  }

  lemma RequestsKept(a: Arp, s: Step, r: Request)
    requires Enabled(a, s) && r in a.requests && !(Serves(a, s) && a.requests[0] == r)
    ensures r in Next(a, s).requests
  {
    var i :| 0 <= i < |a.requests| && a.requests[i] == r;
    if Serves(a, s) {
      assert a.requests[1..][i - 1] == r;
    } else {
      assert r in Next(a, s).requests;
    }
  }

  /** Why a call returns, in every run.  Between the call and its return there is a step that learned the address while
      the task waited for it, so that the cache held the MAC; or an iteration a whole timeout after the list the task
      waited in was set up; or the refusal of its request for a full table, a full list or a failed send. */
  lemma CallReturns(as_: seq<Arp>, ss: seq<Step>, m: nat, n: nat, t: TaskId, ip: Ip)
    requires IsRun(as_, ss) && Inside(ss, m, n, t, ip) && n < |ss| && ss[n] == Return(t)
    ensures LetGoBetween(as_, ss, m, n, t, ip)
  {
    CallProceeds(as_, ss, m, n, t, ip);
    assert StepsAt(as_, ss, n);
    WaiterConservation(as_, ss, n);
    var a := as_[n];
    assert Places(a, t) == 1;
    if Request(t, ip) in a.requests {
      var i :| 0 <= i < |a.requests| && a.requests[i] == Request(t, ip);
      RequestCounted(a.requests, i);
    }
    if WaitsFor(a, t, ip) {
      var i: nat :| i < |a.pending| && Holds(a.pending[i], t, ip);
      WaiterCounted(a.pending, i, t);
    }
  }

  // ----- the two queues and the cache -----

  /** What one step puts into each queue and takes out of it. */
  function Asks(s: Step): seq<Request> { if s.Ask? then [Request(s.task, s.ip)] else [] }

  function ServesNow(a: Arp, s: Step): seq<Request> { if Serves(a, s) then [a.requests[0]] else [] }

  function RepliesNow(a: Arp, s: Step): seq<Entry> {
    if s.Reply? && |a.entries| < QUEUE_LENGTH then [s.entry] else []
  }

  function TakesNow(a: Arp, s: Step): seq<Entry> {
    if s.Work? && s.handle.OnEntry? && a.entries != [] then [a.entries[0]] else []
  }

  /** The same over the first `n` steps. */
  function Asked(ss: seq<Step>, n: nat): seq<Request>
    requires n <= |ss|
  {
    if n == 0 then [] else Asked(ss, n - 1) + Asks(ss[n - 1])
  }

  function Served(as_: seq<Arp>, ss: seq<Step>, n: nat): seq<Request>
    requires n <= |ss| && n <= |as_|
  {
    if n == 0 then [] else Served(as_, ss, n - 1) + ServesNow(as_[n - 1], ss[n - 1])
  }

  function Replies(as_: seq<Arp>, ss: seq<Step>, n: nat): seq<Entry>
    requires n <= |ss| && n <= |as_|
  {
    if n == 0 then [] else Replies(as_, ss, n - 1) + RepliesNow(as_[n - 1], ss[n - 1])
  }

  function Taken(as_: seq<Arp>, ss: seq<Step>, n: nat): seq<Entry>
    requires n <= |ss| && n <= |as_|
  {
    if n == 0 then [] else Taken(as_, ss, n - 1) + TakesNow(as_[n - 1], ss[n - 1])
  }

  predicate RequestsMoved(a: Arp, s: Step, b: Arp) {
    b.requests == if s.Ask? then a.requests + Asks(s) else a.requests[|ServesNow(a, s)|..]
  }

  predicate EntriesMoved(a: Arp, s: Step, b: Arp) {
    b.entries == if s.Reply? then a.entries + RepliesNow(a, s) else a.entries[|TakesNow(a, s)|..]
  }

  predicate RingMoved(r: Ring, more: seq<Entry>, q: Ring) {
    RingOk(r) && q == if more == [] then r else AddToRing(r, more[0])
  }

  lemma NextMovesRequests(a: Arp, s: Step)
    requires TableOk(a) && Enabled(a, s)
    ensures RequestsMoved(a, s, Next(a, s))
  {
  }

  lemma NextMovesEntries(a: Arp, s: Step)
    requires TableOk(a) && Enabled(a, s)
    ensures EntriesMoved(a, s, Next(a, s))
  {
  }

  lemma NextMovesRing(a: Arp, s: Step)
    requires TableOk(a) && Enabled(a, s)
    ensures RingMoved(a.ring, TakesNow(a, s), Next(a, s).ring)
  {
  }

  lemma RunMoves(as_: seq<Arp>, ss: seq<Step>, n: nat)
    requires IsRun(as_, ss) && n < |ss|
    ensures RequestsMoved(as_[n], ss[n], as_[n + 1]) && EntriesMoved(as_[n], ss[n], as_[n + 1])
    ensures RingMoved(as_[n].ring, TakesNow(as_[n], ss[n]), as_[n + 1].ring)
  {
    PendingTable(as_, ss, n);
    assert StepsAt(as_, ss, n);
    NextMovesRequests(as_[n], ss[n]);
    NextMovesEntries(as_[n], ss[n]);
    NextMovesRing(as_[n], ss[n]);
  }

  /** A queue that gains `more` at its end or loses `less` at its front. */
  lemma FirstInFirstOut<T>(all: seq<T>, gone: seq<T>, q: seq<T>, more: seq<T>, less: seq<T>, r: seq<T>)
    requires all == gone + q && less <= q && (less == [] || more == []) && r == q[|less|..] + more
    ensures all + more == gone + less + r
  {
    assert q == less + q[|less|..];
  }

  lemma RingGrows(es: seq<Entry>, more: seq<Entry>, r: Ring, q: Ring)
    requires |more| <= 1 && r == RingAfter(es) && RingMoved(r, more, q)
    ensures q == RingAfter(es + more)
  {
    if more == [] { assert es + more == es; } else { assert (es + more)[..|es|] == es; }
  }

  lemma {:induction false} RequestsInOrder(as_: seq<Arp>, ss: seq<Step>, n: nat)
    requires IsRun(as_, ss) && n < |as_|
    ensures Asked(ss, n) == Served(as_, ss, n) + as_[n].requests
  {
    if n > 0 {
      RequestsInOrder(as_, ss, n - 1);
      RunMoves(as_, ss, n - 1);
      var a, s, r := as_[n - 1], ss[n - 1], as_[n].requests;
      assert ServesNow(a, s) <= a.requests;
      FirstInFirstOut(Asked(ss, n - 1), Served(as_, ss, n - 1), a.requests, Asks(s), ServesNow(a, s), r);
    }
  }

  lemma {:induction false} EntriesInOrder(as_: seq<Arp>, ss: seq<Step>, n: nat)
    requires IsRun(as_, ss) && n < |as_|
    ensures Replies(as_, ss, n) == Taken(as_, ss, n) + as_[n].entries
  {
    if n > 0 {
      EntriesInOrder(as_, ss, n - 1);
      RunMoves(as_, ss, n - 1);
      var a, s, r := as_[n - 1], ss[n - 1], as_[n].entries;
      assert TakesNow(a, s) <= a.entries;
      FirstInFirstOut(Replies(as_, ss, n - 1), Taken(as_, ss, n - 1), a.entries, RepliesNow(a, s), TakesNow(a, s), r);
    }
  }

  predicate RingMovedAt(as_: seq<Arp>, ss: seq<Step>, i: nat) {
    i < |ss| && i + 1 < |as_| && RingMoved(as_[i].ring, TakesNow(as_[i], ss[i]), as_[i + 1].ring)
  }

  /** `f` tells the ring from the pairs taken. */
  ghost predicate Tells(f: seq<Entry> -> Ring) {
    forall es: seq<Entry>, more: seq<Entry>, q: Ring :: |more| <= 1 && RingMoved(f(es), more, q) ==> q == f(es + more)
  }

  lemma RingAfterTells()
    ensures Tells(es => RingAfter(es))
  {
    forall es: seq<Entry>, more: seq<Entry>, q: Ring | |more| <= 1 && RingMoved(RingAfter(es), more, q)
      ensures q == RingAfter(es + more)
    {
      RingGrows(es, more, RingAfter(es), q);
    }
  }

  lemma {:induction false} RingIsTold(as_: seq<Arp>, ss: seq<Step>, n: nat, f: seq<Entry> -> Ring)
    requires n < |as_| == |ss| + 1 && as_[0].ring == f([]) && Tells(f)
    requires forall i: nat :: i < |ss| ==> RingMovedAt(as_, ss, i)
    ensures as_[n].ring == f(Taken(as_, ss, n))
  {
    if n > 0 {
      RingIsTold(as_, ss, n - 1, f);
      assert RingMovedAt(as_, ss, n - 1);
    }
  }

  lemma RunMovesRing(as_: seq<Arp>, ss: seq<Step>)
    requires IsRun(as_, ss)
    ensures as_[0].ring == RingAfter([]) && forall i: nat :: i < |ss| ==> RingMovedAt(as_, ss, i)
  {
    forall i: nat | i < |ss| ensures RingMovedAt(as_, ss, i) { RunMoves(as_, ss, i); }
  }

  /** In every run both queues are first in, first out: the requests made are those served and those queued, the replies
      that found room are the pairs taken and those queued, and the cache is what the pairs taken make of it. */
  lemma QueuesInOrder(as_: seq<Arp>, ss: seq<Step>, n: nat)
    requires IsRun(as_, ss) && n < |as_|
    ensures Asked(ss, n) == Served(as_, ss, n) + as_[n].requests
    ensures Replies(as_, ss, n) == Taken(as_, ss, n) + as_[n].entries
    ensures as_[n].ring == RingAfter(Taken(as_, ss, n))
  {
    RequestsInOrder(as_, ss, n);
    EntriesInOrder(as_, ss, n);
    RunMovesRing(as_, ss);
    RingAfterTells();
    RingIsTold(as_, ss, n, es => RingAfter(es));
  }

  /** The cache of the running resolver: in every run a lookup succeeds exactly for the last sixteen misses among the
      pairs taken from the queue, with the MAC that came latest. */
  lemma CacheInRun(as_: seq<Arp>, ss: seq<Step>, n: nat, ip: Ip)
    requires IsRun(as_, ss) && n < |as_| && Nonzero(Taken(as_, ss, n)) && ip != ZERO_IP
    ensures var es := Taken(as_, ss, n);
            (LookupRing(as_[n].ring, ip).Found? <==> ip in Recent(Misses(es))) &&
            (ip in Recent(Misses(es)) ==> LookupRing(as_[n].ring, ip) == LastMac(es, ip))
  {
    QueuesInOrder(as_, ss, n);
    CacheIsFifo(Taken(as_, ss, n), ip);
  }
}
