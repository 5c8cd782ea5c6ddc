/** Address resolution as a request and release protocol: application tasks ask and block, one worker task keeps a
    table of eight pending addresses with up to eight waiters each, and every asker is released exactly once. */
module ArpResolver {
  import opened NetTypes
  import opened ArpCache

  const MAX_PENDING_IPS: nat := 8
  const MAX_PENDING_PER_IP: nat := 8
  const QUEUE_LENGTH: nat := 4
  const TIMEOUT: nat := 1000            // one second in ticks of a millisecond

  type TaskId = nat

  datatype Request = Request(task: TaskId, ip: Ip)

  /** A pending address; a slot without waiters is free. */
  datatype Pending = Pending(expires: nat, ip: Ip, waiting: seq<TaskId>)

  /** `notes[t]` is the notification count of task `t`; `asking` holds the tasks inside `arp_get_mac_addr`. */
  datatype Arp = Arp(pending: seq<Pending>, requests: seq<Request>, entries: seq<Entry>, ring: Ring,
                     notes: multiset<TaskId>, asking: set<TaskId>, now: nat)

  function NewArp(now: nat): Arp {
    Arp(seq(MAX_PENDING_IPS, _ => Pending(0, ZERO_IP, [])), [], [], NewRing(), multiset{}, {}, now)
  }

  // ----- the worker's operations -----

  predicate Active(p: Pending, ip: Ip) { p.waiting != [] && p.ip == ip }

  function FindPending(ps: seq<Pending>, ip: Ip): (i: nat)
    ensures i <= |ps| && (i < |ps| ==> Active(ps[i], ip))
    ensures forall k :: 0 <= k < i ==> !Active(ps[k], ip)
  {
    if ps == [] || Active(ps[0], ip) then 0 else 1 + FindPending(ps[1..], ip)
  }

  function FindFree(ps: seq<Pending>): (i: nat)
    ensures i <= |ps| && (i < |ps| ==> ps[i].waiting == [])
    ensures forall k :: 0 <= k < i ==> ps[k].waiting != []
  {
    if ps == [] || ps[0].waiting == [] then 0 else 1 + FindFree(ps[1..])
  }

  function NotifyAll(notes: multiset<TaskId>, tasks: seq<TaskId>): multiset<TaskId> {
    notes + multiset(tasks)
  }

  datatype Expired = Expired(pending: seq<Pending>, notes: multiset<TaskId>)

  /** `arp.c` 279-290: release the waiters of every slot whose time has come, for the first `n` slots. */
  function Expire(ps: seq<Pending>, notes: multiset<TaskId>, tick: nat, n: nat): (r: Expired)
    requires n <= |ps|
    ensures |r.pending| == |ps|
    ensures forall i :: 0 <= i < |ps| ==>
              r.pending[i] == if i < n && tick >= ps[i].expires then ps[i].(waiting := []) else ps[i]
  {
    if n == 0 then Expired(ps, notes)
    else
      var r := Expire(ps, notes, tick, n - 1);
      var p := ps[n - 1];
      if tick >= p.expires then Expired(r.pending[n - 1 := p.(waiting := [])], NotifyAll(r.notes, p.waiting)) else r
  }

  /** `arp.c` 296-319: one request, with the outcome of sending an ARP request and the tick of the allocation. */
  function Serve(a: Arp, r: Request, tick: nat, sendOk: bool): Arp {
    var refuse := a.(notes := a.notes + multiset{r.task});
    var i := FindPending(a.pending, r.ip);
    if i < |a.pending| then
      if |a.pending[i].waiting| >= MAX_PENDING_PER_IP then refuse
      else a.(pending := a.pending[i := a.pending[i].(waiting := a.pending[i].waiting + [r.task])])
    else
      var j := FindFree(a.pending);
      if j == |a.pending| then refuse
      else if !sendOk then refuse.(pending := a.pending[j := Pending(tick + TIMEOUT, r.ip, [])])
      else a.(pending := a.pending[j := Pending(tick + TIMEOUT, r.ip, [r.task])])
  }

  /** `add_ip_mac_cache_entry`: cache the pair, then release the waiters of its address. */
  function Learn(a: Arp, e: Entry): Arp
    requires RingOk(a.ring)
  {
    var b := a.(ring := AddToRing(a.ring, e));
    var i := FindPending(a.pending, e.ip);
    if i == |a.pending| then b
    else b.(pending := a.pending[i := a.pending[i].(waiting := [])], notes := NotifyAll(a.notes, a.pending[i].waiting))
  }

  datatype Handle = OnRequest | OnEntry | OnTimeout

  /** One iteration of the worker loop. */
  function Iterate(a: Arp, h: Handle, tick: nat, later: nat, sendOk: bool): Arp
    requires RingOk(a.ring)
  {
    var x := Expire(a.pending, a.notes, tick, |a.pending|);
    var b := a.(pending := x.pending, notes := x.notes, now := later);
    if h.OnRequest? && b.requests != [] then Serve(b.(requests := b.requests[1..]), b.requests[0], later, sendOk)
    else if h.OnEntry? && b.entries != [] then Learn(b.(entries := b.entries[1..]), b.entries[0])
    else b
  }

  // ----- steps of the whole system -----

  datatype Step =
    | Ask(task: TaskId, ip: Ip)
    | Return(task: TaskId)
    | Reply(entry: Entry)
    | Work(handle: Handle, tick: nat, later: nat, sendOk: bool)

  /** A task asks when it is not already inside a call and the queue has room; it returns once notified. */
  predicate Enabled(a: Arp, s: Step) {
    match s
    case Ask(t, _) => t !in a.asking && |a.requests| < QUEUE_LENGTH
    case Return(t) => t in a.asking && a.notes[t] > 0
    case Reply(_) => true
    case Work(_, tick, later, _) => a.now <= tick <= later && RingOk(a.ring)
  }

  function Next(a: Arp, s: Step): Arp
    requires Enabled(a, s)
  {
    match s
    case Ask(t, ip) => a.(requests := a.requests + [Request(t, ip)], asking := a.asking + {t})
    case Return(t) => a.(notes := a.notes[t := 0], asking := a.asking - {t})
    case Reply(e) => if |a.entries| < QUEUE_LENGTH then a.(entries := a.entries + [e]) else a
    case Work(h, tick, later, ok) => Iterate(a, h, tick, later, ok)
  }

  // ----- where a task's request is -----

  function InRequests(rs: seq<Request>, t: TaskId): nat {
    if rs == [] then 0 else InRequests(rs[1..], t) + if rs[0].task == t then 1 else 0
  }

  function InWaiting(ps: seq<Pending>, t: TaskId): nat {
    if ps == [] then 0 else InWaiting(ps[..|ps| - 1], t) + multiset(ps[|ps| - 1].waiting)[t]
  }

  /** Queued requests, places in waiting lists and notifications of task `t`. */
  function Places(a: Arp, t: TaskId): nat {
    InRequests(a.requests, t) + InWaiting(a.pending, t) + a.notes[t]
  }

  lemma {:induction false} InRequestsAppend(rs: seq<Request>, r: Request, t: TaskId)
    ensures InRequests(rs + [r], t) == InRequests(rs, t) + if r.task == t then 1 else 0
  {
    if rs == [] {
      assert rs + [r] == [r];
    } else {
      assert (rs + [r])[1..] == rs[1..] + [r];
      InRequestsAppend(rs[1..], r, t);
    }
  }

  lemma {:induction false} InWaitingUpdate(ps: seq<Pending>, i: nat, p: Pending, t: TaskId)
    requires i < |ps|
    ensures InWaiting(ps[i := p], t) + multiset(ps[i].waiting)[t] == InWaiting(ps, t) + multiset(p.waiting)[t]
  {
    var n := |ps| - 1;
    if i == n {
      assert ps[i := p][..n] == ps[..n];
    } else {
      assert ps[i := p][..n] == ps[..n][i := p];
      InWaitingUpdate(ps[..n], i, p, t);
    }
  }

  /** Waiting places and notifications of `t` together. */
  function Pledged(ps: seq<Pending>, notes: multiset<TaskId>, t: TaskId): nat { InWaiting(ps, t) + notes[t] }

  lemma {:induction false} ExpireConserves(ps: seq<Pending>, notes: multiset<TaskId>, tick: nat, n: nat, t: TaskId)
    requires n <= |ps|
    ensures var r := Expire(ps, notes, tick, n); Pledged(r.pending, r.notes, t) == Pledged(ps, notes, t)
  {
    if n > 0 {
      ExpireConserves(ps, notes, tick, n - 1, t);
      ExpireLast(ps, notes, tick, n, t, Expire(ps, notes, tick, n - 1));
    }
  }

  lemma ExpireLast(ps: seq<Pending>, notes: multiset<TaskId>, tick: nat, n: nat, t: TaskId, r: Expired)
    requires 0 < n <= |ps| && r == Expire(ps, notes, tick, n - 1)
    ensures var x := Expire(ps, notes, tick, n); Pledged(x.pending, x.notes, t) == Pledged(r.pending, r.notes, t)
  {
    ReleaseConserves(r.pending, n - 1, r.notes, t);
  }

  /** Emptying one slot moves its waiters to notifications. */
  lemma ReleaseConserves(ps: seq<Pending>, i: nat, notes: multiset<TaskId>, t: TaskId)
    requires i < |ps|
    ensures InWaiting(ps[i := ps[i].(waiting := [])], t) + NotifyAll(notes, ps[i].waiting)[t] ==
            InWaiting(ps, t) + notes[t]
  {
    InWaitingUpdate(ps, i, ps[i].(waiting := []), t);
  }

  lemma ServeConserves(a: Arp, r: Request, tick: nat, sendOk: bool, t: TaskId)
    ensures Places(Serve(a, r, tick, sendOk), t) == Places(a, t) + if r.task == t then 1 else 0
  {
    var i, j := FindPending(a.pending, r.ip), FindFree(a.pending);
    if i < |a.pending| {
      InWaitingUpdate(a.pending, i, a.pending[i].(waiting := a.pending[i].waiting + [r.task]), t);
    } else if j < |a.pending| {
      InWaitingUpdate(a.pending, j, Pending(tick + TIMEOUT, r.ip, []), t);
      InWaitingUpdate(a.pending, j, Pending(tick + TIMEOUT, r.ip, [r.task]), t);
    }
  }

  lemma LearnConserves(a: Arp, e: Entry, t: TaskId)
    requires RingOk(a.ring)
    ensures Places(Learn(a, e), t) == Places(a, t)
  {
    var i := FindPending(a.pending, e.ip);
    if i < |a.pending| { ReleaseConserves(a.pending, i, a.notes, t); }
  }

  lemma IterateConserves(a: Arp, h: Handle, tick: nat, later: nat, sendOk: bool, t: TaskId)
    requires RingOk(a.ring)
    ensures Places(Iterate(a, h, tick, later, sendOk), t) == Places(a, t)
  {
    ExpireConserves(a.pending, a.notes, tick, |a.pending|, t);
    var x := Expire(a.pending, a.notes, tick, |a.pending|);
    var b := a.(pending := x.pending, notes := x.notes, now := later);
    if h.OnRequest? && b.requests != [] {
      ServeConserves(b.(requests := b.requests[1..]), b.requests[0], later, sendOk, t);
    } else if h.OnEntry? && b.entries != [] {
      LearnConserves(b.(entries := b.entries[1..]), b.entries[0], t);
    }
  }

  /** Every task inside `arp_get_mac_addr` is in exactly one place, every other task in none. */
  ghost predicate Conserved(a: Arp) {
    forall t: TaskId :: Places(a, t) == if t in a.asking then 1 else 0
  }

  lemma NextConserves(a: Arp, s: Step)
    requires Conserved(a) && Enabled(a, s)
    ensures Conserved(Next(a, s))
  {
    forall t: TaskId ensures Places(Next(a, s), t) == if t in Next(a, s).asking then 1 else 0 {
      assert Places(a, t) == if t in a.asking then 1 else 0;
      match s
      case Ask(u, ip) => InRequestsAppend(a.requests, Request(u, ip), t);
      case Return(u) =>
      case Reply(e) =>
      case Work(h, tick, later, ok) =>
        IterateConserves(a, h, tick, later, ok, t);
        IterateAsking(a, h, tick, later, ok);
    }
  }

  lemma IterateAsking(a: Arp, h: Handle, tick: nat, later: nat, sendOk: bool)
    requires RingOk(a.ring)
    ensures Iterate(a, h, tick, later, sendOk).asking == a.asking && Iterate(a, h, tick, later, sendOk).now == later
  {
  }

  // ----- the pending table -----

  ghost predicate TableOk(a: Arp) {
    |a.pending| == MAX_PENDING_IPS && RingOk(a.ring) && |a.requests| <= QUEUE_LENGTH &&
    (forall i :: 0 <= i < |a.pending| ==> |a.pending[i].waiting| <= MAX_PENDING_PER_IP) &&
    (forall i :: 0 <= i < |a.pending| && a.pending[i].waiting != [] ==> a.pending[i].expires <= a.now + TIMEOUT) &&
    (forall i, j :: 0 <= i < j < |a.pending| && a.pending[i].waiting != [] && a.pending[j].waiting != [] ==>
       a.pending[i].ip != a.pending[j].ip)
  }

  /** No waiter is left in a slot whose time has come. */
  ghost predicate NoneOverdue(a: Arp, tick: nat) {
    forall i :: 0 <= i < |a.pending| && a.pending[i].waiting != [] ==> tick < a.pending[i].expires
  }

  lemma ServeTable(a: Arp, r: Request, tick: nat, sendOk: bool, cut: nat)
    requires TableOk(a) && a.now == tick && NoneOverdue(a, cut) && cut <= tick
    ensures TableOk(Serve(a, r, tick, sendOk)) && NoneOverdue(Serve(a, r, tick, sendOk), cut)
  {
    var i, j := FindPending(a.pending, r.ip), FindFree(a.pending);
  }

  lemma LearnTable(a: Arp, e: Entry, cut: nat)
    requires TableOk(a) && NoneOverdue(a, cut)
    ensures TableOk(Learn(a, e)) && NoneOverdue(Learn(a, e), cut)
  {
  }

  lemma IterateTable(a: Arp, h: Handle, tick: nat, later: nat, sendOk: bool)
    requires TableOk(a) && a.now <= tick <= later
    ensures TableOk(Iterate(a, h, tick, later, sendOk)) && NoneOverdue(Iterate(a, h, tick, later, sendOk), tick)
  {
    var x := Expire(a.pending, a.notes, tick, |a.pending|);
    var b := a.(pending := x.pending, notes := x.notes, now := later);
    assert TableOk(b) && NoneOverdue(b, tick);
    if h.OnRequest? && b.requests != [] {
      ServeTable(b.(requests := b.requests[1..]), b.requests[0], later, sendOk, tick);
    } else if h.OnEntry? && b.entries != [] {
      LearnTable(b.(entries := b.entries[1..]), b.entries[0], tick);
    }
  }

  lemma NextTable(a: Arp, s: Step)
    requires TableOk(a) && Enabled(a, s)
    ensures TableOk(Next(a, s))
  {
    if s.Work? { IterateTable(a, s.handle, s.tick, s.later, s.sendOk); }
  }

  // ----- every run -----

  predicate StepsAt(as_: seq<Arp>, ss: seq<Step>, i: nat) {
    i < |ss| && i + 1 < |as_| && Enabled(as_[i], ss[i]) && as_[i + 1] == Next(as_[i], ss[i])
  }

  ghost predicate IsRun(as_: seq<Arp>, ss: seq<Step>) {
    |as_| == |ss| + 1 && as_[0] == NewArp(as_[0].now) && forall i :: 0 <= i < |ss| ==> StepsAt(as_, ss, i)
  }

  lemma {:induction false} NoWaiters(ps: seq<Pending>, t: TaskId)
    requires forall i :: 0 <= i < |ps| ==> ps[i].waiting == []
    ensures InWaiting(ps, t) == 0
  {
    if ps != [] { NoWaiters(ps[..|ps| - 1], t); }
  }

  /** Waiter conservation: in every run each task with an outstanding call is in exactly one place (the request queue,
      one waiting list, or holding exactly one notification) and no other task is anywhere, so a request is released
      at most once and never lost, across reply, timeout, full table, full list and failed send. */
  lemma {:induction false} WaiterConservation(as_: seq<Arp>, ss: seq<Step>, n: nat)
    requires IsRun(as_, ss) && n < |as_|
    ensures Conserved(as_[n])
  {
    if n == 0 {
      forall t: TaskId ensures Places(as_[0], t) == 0 { NoWaiters(as_[0].pending, t); }
    } else {
      WaiterConservation(as_, ss, n - 1);
      assert StepsAt(as_, ss, n - 1);
      NextConserves(as_[n - 1], ss[n - 1]);
    }
  }

  /** Pending table and deadline: active slots have distinct addresses, at most eight waiters and expire no later than
      one timeout from now; after each iteration of the worker no waiter is left in a slot overdue at its tick. */
  lemma {:induction false} PendingTable(as_: seq<Arp>, ss: seq<Step>, n: nat)
    requires IsRun(as_, ss) && n < |as_|
    ensures TableOk(as_[n])
    ensures n > 0 && ss[n - 1].Work? ==> NoneOverdue(as_[n], ss[n - 1].tick)
  {
    if n > 0 {
      PendingTable(as_, ss, n - 1);
      assert StepsAt(as_, ss, n - 1);
      NextTable(as_[n - 1], ss[n - 1]);
      if ss[n - 1].Work? {
        IterateTable(as_[n - 1], ss[n - 1].handle, ss[n - 1].tick, ss[n - 1].later, ss[n - 1].sendOk);
      }
    }
  }

  /** Whoever is released by a learned pair finds that pair's MAC in the cache at that step. */
  lemma ReleasedFindsMac(a: Arp, e: Entry)
    requires RingOk(a.ring)
    ensures LookupRing(Learn(a, e).ring, e.ip) == Found(e.mac)
    ensures FindPending(a.pending, e.ip) < |a.pending| ==>
              Learn(a, e).notes == a.notes + multiset(a.pending[FindPending(a.pending, e.ip)].waiting)
    ensures TableOk(a) ==> FindPending(Learn(a, e).pending, e.ip) == |a.pending|
  {
    var i := RowOf(a.ring.rows, e.ip);
    var rows := AddToRing(a.ring, e).rows;
    if i < CACHE_LENGTH {
      FirstRowIs(rows, e.ip, i);
    } else {
      FirstRowIs(rows, e.ip, a.ring.top);
    }
  }
}
