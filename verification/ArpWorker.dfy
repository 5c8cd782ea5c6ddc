/** The ARP worker task as the code runs it, changing the pending table, the cache and the notification counts in
    place.  Every operation has exactly the effect of its function in `ArpResolver`. */
module ArpWorker {
  import opened NetTypes
  import opened ArpCache
  import opened ArpResolver

  class Worker {
    const pending: array<Pending>
    const cache: Cache
    var requests: seq<Request>
    var entries: seq<Entry>
    ghost var notes: multiset<TaskId>
    ghost var asking: set<TaskId>
    ghost var now: nat

    ghost predicate Valid()
      reads this, pending, cache, cache.rows
    {
      pending.Length == MAX_PENDING_IPS && cache.Valid()
    }

    ghost function Model(): Arp
      reads this, pending, cache, cache.rows
    {
      Arp(pending[..], requests, entries, cache.Model(), notes, asking, now)
    }

    constructor (ghost start: nat)
      ensures Valid() && fresh(pending) && fresh(cache) && fresh(cache.rows) && Model() == NewArp(start)
    {
      pending := new Pending[MAX_PENDING_IPS](_ => Pending(0, ZERO_IP, []));
      cache := new Cache();
      requests, entries, notes, asking, now := [], [], multiset{}, {}, start;
      new;
      assert pending[..] == NewArp(start).pending;
    }

    method FindPendingIndex(ip: Ip) returns (i: nat)
      requires Valid()
      ensures i == FindPending(pending[..], ip)
    {
      i := 0;
      while i < MAX_PENDING_IPS && !(pending[i].waiting != [] && pending[i].ip == ip)
        invariant 0 <= i <= MAX_PENDING_IPS
        invariant forall k :: 0 <= k < i ==> !Active(pending[k], ip)
      {
        i := i + 1;
      }
      FirstPendingIs(pending[..], ip, i);
    }

    method FindFreeIndex() returns (i: nat)
      requires Valid()
      ensures i == FindFree(pending[..])
    {
      i := 0;
      while i < MAX_PENDING_IPS && pending[i].waiting != []
        invariant 0 <= i <= MAX_PENDING_IPS
        invariant forall k :: 0 <= k < i ==> pending[k].waiting != []
      {
        i := i + 1;
      }
      FirstFreeIs(pending[..], i);
    }

    /** Notify every waiter of slot `i` and free it. */
    method ReleaseWaiters(i: nat)
      requires Valid() && i < MAX_PENDING_IPS
      modifies pending, `notes
      ensures Valid()
      ensures Model() == old(Model()).(pending := old(pending[..])[i := old(pending[i]).(waiting := [])],
                                       notes := NotifyAll(old(notes), old(pending[i]).waiting))
    {
      var waiting := pending[i].waiting;
      var k := 0;
      while k < |waiting|
        invariant 0 <= k <= |waiting| && pending[..] == old(pending[..])
        invariant notes == NotifyAll(old(notes), waiting[..k])
      {
        assert waiting[..k + 1] == waiting[..k] + [waiting[k]];
        notes := notes + multiset{waiting[k]};
        k := k + 1;
      }
      assert waiting[..k] == waiting;
      pending[i] := pending[i].(waiting := []);
    }

    /** `arp.c` 279-290. */
    method ExpireOverdue(tick: nat)
      requires Valid()
      modifies pending, `notes
      ensures Valid()
      ensures var r := Expire(old(pending[..]), old(notes), tick, MAX_PENDING_IPS);
              Model() == old(Model()).(pending := r.pending, notes := r.notes)
    {
      var i := 0;
      while i < MAX_PENDING_IPS
        invariant 0 <= i <= MAX_PENDING_IPS && Valid()
        invariant requests == old(requests) && entries == old(entries) && asking == old(asking) && now == old(now)
        invariant cache.Model() == old(cache.Model())
        invariant Expired(pending[..], notes) == Expire(old(pending[..]), old(notes), tick, i)
      {
        if tick >= pending[i].expires { ReleaseWaiters(i); }
        i := i + 1;
      }
    }

    /** `arp.c` 296-319. */
    method ServeRequest(r: Request, tick: nat, sendOk: bool)
      requires Valid()
      modifies pending, `notes
      ensures Valid() && Model() == Serve(old(Model()), r, tick, sendOk)
    {
      var i := FindPendingIndex(r.ip);
      if i == MAX_PENDING_IPS {
        i := FindFreeIndex();
        if i == MAX_PENDING_IPS {
          notes := notes + multiset{r.task};
          return;
        }
        pending[i] := Pending(tick + TIMEOUT, r.ip, []);
        if !sendOk {
          notes := notes + multiset{r.task};
          return;
        }
      }
      if |pending[i].waiting| >= MAX_PENDING_PER_IP {
        notes := notes + multiset{r.task};
        return;
      }
      pending[i] := pending[i].(waiting := pending[i].waiting + [r.task]);
      assert [] + [r.task] == [r.task];
    }

    /** `add_ip_mac_cache_entry`. */
    method LearnEntry(e: Entry)
      requires Valid()
      modifies pending, cache, cache.rows, `notes
      ensures Valid() && Model() == Learn(old(Model()), e)
    {
      cache.Add(e);
      var i := FindPendingIndex(e.ip);
      if i < MAX_PENDING_IPS { ReleaseWaiters(i); }
    }

    /** One iteration of `arp_task`. */
    method RunOnce(h: Handle, tick: nat, later: nat, sendOk: bool)
      requires Valid()
      modifies this, pending, cache, cache.rows
      ensures Valid() && Model() == Iterate(old(Model()), h, tick, later, sendOk)
    {
      ExpireOverdue(tick);
      now := later;
      if h.OnRequest? && requests != [] {
        var r := requests[0];
        requests := requests[1..];
        ServeRequest(r, later, sendOk);
      } else if h.OnEntry? && entries != [] {
        var e := entries[0];
        entries := entries[1..];
        LearnEntry(e);
      }
    }
  }

  lemma FirstPendingIs(ps: seq<Pending>, ip: Ip, i: nat)
    requires i <= |ps| && (forall k :: 0 <= k < i ==> !Active(ps[k], ip)) && (i < |ps| ==> Active(ps[i], ip))
    ensures i == FindPending(ps, ip)
  {
  }

  lemma FirstFreeIs(ps: seq<Pending>, i: nat)
    requires i <= |ps| && (forall k :: 0 <= k < i ==> ps[k].waiting != []) && (i < |ps| ==> ps[i].waiting == [])
    ensures i == FindFree(ps)
  {
  }
}
