/** The IP to MAC cache: a ring of sixteen rows with update in place, and the first-in first-out map it refines. */
module ArpCache {
  import opened NetTypes

  const CACHE_LENGTH: nat := 16

  const ZERO_IP: Ip := [0, 0, 0, 0]
  const ZERO_MAC: Mac := [0, 0, 0, 0, 0, 0]

  datatype Entry = Entry(ip: Ip, mac: Mac)

  /** The rows and the row the next miss goes to. */
  datatype Ring = Ring(rows: seq<Entry>, top: nat)

  predicate RingOk(r: Ring) { |r.rows| == CACHE_LENGTH && r.top < CACHE_LENGTH }

  function NewRing(): Ring { Ring(seq(CACHE_LENGTH, _ => Entry(ZERO_IP, ZERO_MAC)), 0) }

  function RowOf(rows: seq<Entry>, ip: Ip): (i: nat)
    ensures i <= |rows| && (i < |rows| ==> rows[i].ip == ip)
    ensures forall k :: 0 <= k < i ==> rows[k].ip != ip
  {
    if rows == [] || rows[0].ip == ip then 0 else 1 + RowOf(rows[1..], ip)
  }

  /** `arp.c` 78-100. */
  function AddToRing(r: Ring, e: Entry): (s: Ring)
    requires RingOk(r)
    ensures RingOk(s)
  {
    var i := RowOf(r.rows, e.ip);
    if i < CACHE_LENGTH then r.(rows := r.rows[i := Entry(r.rows[i].ip, e.mac)])
    else Ring(r.rows[r.top := e], (r.top + 1) % CACHE_LENGTH)
  }

  datatype Found = Missing | Found(mac: Mac)

  /** `arp_get_cached_mac_addr`. */
  function LookupRing(r: Ring, ip: Ip): Found {
    var i := RowOf(r.rows, ip);
    if i < |r.rows| then Found(r.rows[i].mac) else Missing
  }

  // ----- the code -----

  class Cache {
    const rows: array<Entry>
    var top: nat

    ghost predicate Valid()
      reads this, rows
    {
      rows.Length == CACHE_LENGTH && top < CACHE_LENGTH
    }

    ghost function Model(): Ring
      reads this, rows
    {
      Ring(rows[..], top)
    }

    constructor ()
      ensures Valid() && fresh(rows) && Model() == NewRing()
    {
      rows := new Entry[CACHE_LENGTH](_ => Entry(ZERO_IP, ZERO_MAC));
      top := 0;
      new;
      assert rows[..] == NewRing().rows;
    }

    method Add(e: Entry)
      requires Valid()
      modifies this, rows
      ensures Valid() && Model() == AddToRing(old(Model()), e)
    {
      var i := 0;
      var duplicate := false;
      while i < CACHE_LENGTH && !duplicate
        invariant 0 <= i <= CACHE_LENGTH && Valid() && top == old(top)
        invariant !duplicate ==> rows[..] == old(rows[..]) && forall k :: 0 <= k < i ==> rows[k].ip != e.ip
        invariant duplicate ==> i < CACHE_LENGTH && Model() == AddToRing(old(Model()), e)
        decreases CACHE_LENGTH - i, !duplicate
      {
        if rows[i].ip == e.ip {
          FirstRowIs(rows[..], e.ip, i);
          rows[i] := rows[i].(mac := e.mac);
          duplicate := true;
        } else {
          i := i + 1;
        }
      }
      if !duplicate {
        FirstRowIs(rows[..], e.ip, CACHE_LENGTH);
        // `top` is always below the length here, so the overflow branch of the code does nothing.
        rows[top] := e;
        top := (top + 1) % CACHE_LENGTH;
      }
    }

    method Lookup(ip: Ip) returns (f: Found)
      requires Valid()
      ensures f == LookupRing(Model(), ip)
    {
      var i := 0;
      while i < CACHE_LENGTH && rows[i].ip != ip
        invariant 0 <= i <= CACHE_LENGTH
        invariant forall k :: 0 <= k < i ==> rows[k].ip != ip
      {
        i := i + 1;
      }
      FirstRowIs(rows[..], ip, i);
      f := if i < CACHE_LENGTH then Found(rows[i].mac) else Missing;
    }
  }

  lemma FirstRowIs(rows: seq<Entry>, ip: Ip, i: nat)
    requires i <= |rows| && (forall k :: 0 <= k < i ==> rows[k].ip != ip) && (i < |rows| ==> rows[i].ip == ip)
    ensures i == RowOf(rows, ip)
  {
  }

  // ----- the map it refines -----

  /** Sixteen entries in order of arrival; a known address is updated where it stands. */
  function AddToFifo(f: seq<Entry>, e: Entry): seq<Entry> {
    var i := RowOf(f, e.ip);
    if i < |f| then f[i := e]
    else if |f| < CACHE_LENGTH then f + [e]
    else f[1..] + [e]
  }

  function Fifo(es: seq<Entry>): seq<Entry> {
    if es == [] then [] else AddToFifo(Fifo(es[..|es| - 1]), es[|es| - 1])
  }

  function RingAfter(es: seq<Entry>): (r: Ring)
    ensures RingOk(r)
  {
    if es == [] then NewRing() else AddToRing(RingAfter(es[..|es| - 1]), es[|es| - 1])
  }

  /** The addresses that were not in the cache when they came, in order. */
  function Misses(es: seq<Entry>): seq<Ip> {
    if es == [] then []
    else
      var before := es[..|es| - 1];
      Misses(before) + if RowOf(Fifo(before), es[|es| - 1].ip) < |Fifo(before)| then [] else [es[|es| - 1].ip]
  }

  function LastMac(es: seq<Entry>, ip: Ip): Found {
    if es == [] then Missing
    else if es[|es| - 1].ip == ip then Found(es[|es| - 1].mac)
    else LastMac(es[..|es| - 1], ip)
  }

  predicate NoRepeats(f: seq<Entry>) {
    forall i, j :: 0 <= i < j < |f| ==> f[i].ip != f[j].ip
  }

  predicate Nonzero(f: seq<Entry>) { forall i :: 0 <= i < |f| ==> f[i].ip != ZERO_IP }

  /** Where the `j`-th oldest of `n` entries stands. */
  function At(top: nat, n: nat, j: nat): nat
    requires j < n <= CACHE_LENGTH && top < CACHE_LENGTH
  {
    if n < CACHE_LENGTH then j else if top + j < CACHE_LENGTH then top + j else top + j - CACHE_LENGTH
  }

  /** The ring holds exactly the map's entries; unfilled rows are all zeroes. */
  ghost predicate Refines(r: Ring, f: seq<Entry>) {
    RingOk(r) && |f| <= CACHE_LENGTH && NoRepeats(f) && Nonzero(f) &&
    (|f| < CACHE_LENGTH ==> r.top == |f| && forall i :: |f| <= i < CACHE_LENGTH ==> r.rows[i].ip == ZERO_IP) &&
    forall j :: 0 <= j < |f| ==> r.rows[At(r.top, |f|, j)] == f[j]
  }

  /** Which entry of the map a filled row holds. */
  function Age(r: Ring, n: nat, i: nat): nat
    requires RingOk(r) && i < n <= CACHE_LENGTH
  {
    if n < CACHE_LENGTH then i else if r.top <= i then i - r.top else i - r.top + CACHE_LENGTH
  }

  lemma RowHolds(r: Ring, f: seq<Entry>, i: nat)
    requires Refines(r, f) && i < |f|
    ensures Age(r, |f|, i) < |f| && At(r.top, |f|, Age(r, |f|, i)) == i && r.rows[i] == f[Age(r, |f|, i)]
  {
  }

  /** A nonzero address is found in the ring exactly when the map has it, in the same entry. */
  lemma {:induction false} SameRow(r: Ring, f: seq<Entry>, ip: Ip)
    requires Refines(r, f) && ip != ZERO_IP
    ensures RowOf(r.rows, ip) < CACHE_LENGTH <==> RowOf(f, ip) < |f|
    ensures RowOf(f, ip) < |f| ==> RowOf(r.rows, ip) == At(r.top, |f|, RowOf(f, ip))
  {
    var i, j := RowOf(r.rows, ip), RowOf(f, ip);
    if i < CACHE_LENGTH && i < |f| { RowHolds(r, f, i); }
    if j < |f| {
      var k := At(r.top, |f|, j);
      assert r.rows[k].ip == ip;
    }
  }

  lemma {:induction false} AddRefines(r: Ring, f: seq<Entry>, e: Entry)
    requires Refines(r, f) && e.ip != ZERO_IP
    ensures Refines(AddToRing(r, e), AddToFifo(f, e))
  {
    SameRow(r, f, e.ip);
    var s, g := AddToRing(r, e), AddToFifo(f, e);
    var j := RowOf(f, e.ip);
    if j < |f| {
      UpdateRefines(r, f, e, j, s);
    } else if |f| < CACHE_LENGTH {
      AppendRefines(r, f, e, s);
    } else {
      ReplaceRefines(r, f, e, s);
    }
  }

  lemma {:induction false} UpdateRefines(r: Ring, f: seq<Entry>, e: Entry, j: nat, s: Ring)
    requires Refines(r, f) && j < |f| && f[j].ip == e.ip && e.ip != ZERO_IP
    requires s.rows == r.rows[At(r.top, |f|, j) := e] && s.top == r.top
    ensures Refines(s, f[j := e])
  {
    forall k | 0 <= k < |f| ensures s.rows[At(s.top, |f|, k)] == f[j := e][k] {
      assert r.rows[At(r.top, |f|, k)] == f[k];
    }
  }

  lemma {:induction false} AppendRefines(r: Ring, f: seq<Entry>, e: Entry, s: Ring)
    requires Refines(r, f) && e.ip != ZERO_IP && RowOf(f, e.ip) == |f| < CACHE_LENGTH
    requires s.rows == r.rows[r.top := e] && s.top == if r.top + 1 == CACHE_LENGTH then 0 else r.top + 1
    ensures Refines(s, f + [e])
  {
    var g := f + [e];
    forall k | 0 <= k < |g| ensures s.rows[At(s.top, |g|, k)] == g[k] {
      if k < |f| { assert r.rows[At(r.top, |f|, k)] == f[k]; }
    }
  }

  lemma {:induction false} ReplaceRefines(r: Ring, f: seq<Entry>, e: Entry, s: Ring)
    requires Refines(r, f) && e.ip != ZERO_IP && RowOf(f, e.ip) == |f| == CACHE_LENGTH
    requires s.rows == r.rows[r.top := e] && s.top == if r.top + 1 == CACHE_LENGTH then 0 else r.top + 1
    ensures Refines(s, f[1..] + [e])
  {
    var g := f[1..] + [e];
    forall i, j | 0 <= i < j < |g| ensures g[i].ip != g[j].ip { assert g[i] == f[i + 1]; }
    forall k | 0 <= k < |g| ensures s.rows[At(s.top, |g|, k)] == g[k] {
      if k + 1 < |f| { assert r.rows[At(r.top, |f|, k + 1)] == f[k + 1]; }
    }
  }

  /** The ring refines the map over every run of entries with nonzero addresses. */
  lemma {:induction false} RunRefines(es: seq<Entry>)
    requires Nonzero(es)
    ensures Refines(RingAfter(es), Fifo(es))
  {
    if es != [] {
      RunRefines(es[..|es| - 1]);
      AddRefines(RingAfter(es[..|es| - 1]), Fifo(es[..|es| - 1]), es[|es| - 1]);
    }
  }

  /** The entries of `f` are the last misses, in order. */
  ghost predicate HoldsLast(f: seq<Entry>, m: seq<Ip>) {
    |f| == (if |m| < CACHE_LENGTH then |m| else CACHE_LENGTH) &&
    forall i :: 0 <= i < |f| ==> f[i].ip == m[|m| - |f| + i]
  }

  lemma AppendHoldsLast(f: seq<Entry>, m: seq<Ip>, e: Entry)
    requires HoldsLast(f, m) && |f| < CACHE_LENGTH
    ensures HoldsLast(f + [e], m + [e.ip])
  {
    var g, n := f + [e], m + [e.ip];
    forall i | 0 <= i < |g| ensures g[i].ip == n[|n| - |g| + i] {
      if i < |f| { assert f[i].ip == m[|m| - |f| + i]; }
    }
  }

  lemma ShiftHoldsLast(f: seq<Entry>, m: seq<Ip>, e: Entry)
    requires HoldsLast(f, m) && |f| == CACHE_LENGTH
    ensures HoldsLast(f[1..] + [e], m + [e.ip])
  {
    var g, n := f[1..] + [e], m + [e.ip];
    forall i | 0 <= i < |g| ensures g[i].ip == n[|n| - |g| + i] {
      if i + 1 < |f| { assert f[i + 1].ip == m[|m| - |f| + (i + 1)]; }
    }
  }

  lemma UpdateHoldsLast(f: seq<Entry>, m: seq<Ip>, e: Entry, j: nat)
    requires HoldsLast(f, m) && j < |f| && f[j].ip == e.ip
    ensures HoldsLast(f[j := e], m)
  {
    var g := f[j := e];
    forall i | 0 <= i < |g| ensures g[i].ip == m[|m| - |g| + i] {
      assert f[i].ip == m[|m| - |f| + i];
    }
  }

  lemma {:induction false} AddHoldsLast(f: seq<Entry>, m: seq<Ip>, e: Entry)
    requires HoldsLast(f, m)
    ensures HoldsLast(AddToFifo(f, e), if RowOf(f, e.ip) < |f| then m else m + [e.ip])
  {
    var i := RowOf(f, e.ip);
    if i < |f| {
      UpdateHoldsLast(f, m, e, i);
    } else if |f| < CACHE_LENGTH {
      AppendHoldsLast(f, m, e);
    } else {
      ShiftHoldsLast(f, m, e);
    }
  }

  ghost predicate Latest(f: seq<Entry>, es: seq<Entry>) {
    forall j :: 0 <= j < |f| ==> LastMac(es, f[j].ip) == Found(f[j].mac)
  }

  lemma {:induction false} AddLatest(f: seq<Entry>, es: seq<Entry>, e: Entry)
    requires Latest(f, es) && NoRepeats(f)
    ensures Latest(AddToFifo(f, e), es + [e])
  {
    assert (es + [e])[..|es + [e]| - 1] == es;
    var g := AddToFifo(f, e);
    forall j | 0 <= j < |g| ensures LastMac(es + [e], g[j].ip) == Found(g[j].mac) {
      if g[j] != e { assert g[j] in f; }
    }
  }

  /** The map holds the last sixteen misses, each with the latest MAC that came for it. */
  lemma {:induction false} FifoIsLastMisses(es: seq<Entry>)
    requires Nonzero(es)
    ensures HoldsLast(Fifo(es), Misses(es)) && Latest(Fifo(es), es)
  {
    if es != [] {
      var before, e := es[..|es| - 1], es[|es| - 1];
      FifoIsLastMisses(before);
      AddHoldsLast(Fifo(before), Misses(before), e);
      assert Misses(before) + [] == Misses(before);
      assert NoRepeats(Fifo(before)) by { RunRefines(before); }
      AddLatest(Fifo(before), before, e);
      assert before + [e] == es;
    }
  }

  /** The last sixteen of a sequence of misses. */
  function Recent(m: seq<Ip>): seq<Ip> { m[if |m| < CACHE_LENGTH then 0 else |m| - CACHE_LENGTH..] }

  /** Cache refinement: after any run of entries with nonzero addresses a lookup succeeds exactly when the address is
      among the last sixteen misses, and then returns the MAC of the latest entry for it. */
  lemma CacheIsFifo(es: seq<Entry>, ip: Ip)
    requires Nonzero(es) && ip != ZERO_IP
    ensures var recent := Recent(Misses(es));
            (LookupRing(RingAfter(es), ip).Found? <==> ip in recent) &&
            (ip in recent ==> LookupRing(RingAfter(es), ip) == LastMac(es, ip))
    ensures forall i, j :: 0 <= i < j < CACHE_LENGTH && RingAfter(es).rows[i].ip == RingAfter(es).rows[j].ip ==>
              RingAfter(es).rows[i].ip == ZERO_IP
  {
    RunRefines(es);
    FifoIsLastMisses(es);
    RowsDistinct(RingAfter(es), Fifo(es));
    LookupIsRecent(RingAfter(es), Fifo(es), es, Misses(es), ip);
  }

  lemma RowsDistinct(r: Ring, f: seq<Entry>)
    requires Refines(r, f)
    ensures forall i, j :: 0 <= i < j < CACHE_LENGTH && r.rows[i].ip == r.rows[j].ip ==> r.rows[i].ip == ZERO_IP
  {
    forall i, k | 0 <= i < k < CACHE_LENGTH && r.rows[i].ip == r.rows[k].ip ensures r.rows[i].ip == ZERO_IP {
      if i < |f| { RowHolds(r, f, i); }
      if k < |f| { RowHolds(r, f, k); }
    }
  }

  lemma RecentRows(f: seq<Entry>, m: seq<Ip>, ip: Ip)
    requires HoldsLast(f, m)
    ensures ip in Recent(m) <==> RowOf(f, ip) < |f|
  {
    var recent, j := Recent(m), RowOf(f, ip);
    assert |recent| == |f|;
    if j < |f| { assert recent[j] == f[j].ip; }
    if ip in recent {
      var k :| 0 <= k < |recent| && recent[k] == ip;
      assert f[k].ip == ip;
    }
  }

  lemma LookupIsRecent(r: Ring, f: seq<Entry>, es: seq<Entry>, m: seq<Ip>, ip: Ip)
    requires Refines(r, f) && HoldsLast(f, m) && Latest(f, es) && ip != ZERO_IP
    ensures LookupRing(r, ip).Found? <==> ip in Recent(m)
    ensures ip in Recent(m) ==> LookupRing(r, ip) == LastMac(es, ip)
  {
    SameRow(r, f, ip);
    RecentRows(f, m, ip);
    var j := RowOf(f, ip);
    if j < |f| { assert r.rows[At(r.top, |f|, j)] == f[j]; }
  }
}
