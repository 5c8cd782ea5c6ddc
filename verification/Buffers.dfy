/** Writing bytes into a packet buffer, as the builders do. */
module Buffers {
  import opened NetTypes

  /** `memcpy(p, src, n); p += n;` */
  method Put(buf: array<Byte>, p: nat, src: seq<Byte>) returns (q: nat)
    requires p + |src| <= buf.Length
    modifies buf
    ensures q == p + |src|
    ensures buf[..q] == old(buf[..p]) + src
    ensures buf[q..] == old(buf[q..])
    ensures forall i :: q <= i < buf.Length ==> buf[i] == old(buf[i])
  {
    q := p;
    ghost var before := buf[..];
    for i := 0 to |src|
      invariant q == p + i
      invariant buf[..q] == before[..p] + src[..i]
      invariant forall j :: q <= j < buf.Length ==> buf[j] == before[j]
    {
      buf[q] := src[i];
      q := q + 1;
    }
  }

  /** Going back to a zeroed field at `at` to store a checksum. */
  method PatchChecksum(buf: array<Byte>, at: nat, checksum: U16, ghost pre: seq<Byte>, ghost post: seq<Byte>)
    requires |pre| == at && at + 2 + |post| <= buf.Length && buf[..at + 2 + |post|] == pre + [0, 0] + post
    modifies buf
    ensures buf[..at + 2 + |post|] == pre + Write16(checksum) + post
    ensures buf[at + 2 + |post|..] == old(buf[at + 2 + |post|..])
  {
    ghost var n := at + 2 + |post|;
    ghost var was := buf[..];
    assert was[..at] == was[..n][..at] == pre;
    assert was[at + 2..n] == was[..n][at + 2..] == post;
    var q := Put(buf, at, Net16(checksum));
    assert buf[..n] == buf[..q] + buf[q..][..|post|];
    assert was[q..][..|post|] == was[q..n];
    assert buf[n..] == buf[q..][|post|..];
    assert was[n..] == was[q..][|post|..];
  }
}
