/** The Internet checksum: the code's deferred-carry loop, the word-by-word end-around-carry sum of section 2 of RFC
    1071 it computes, and what follows for inserting and verifying a checksum. */
module Checksum {
  import opened NetTypes

  const ONES: int := 0xFFFF

  /** The plain sum of the big-endian words, an odd last byte padded with zero. */
  function WordSum(b: seq<Byte>): nat {
    if b == [] then 0
    else if |b| == 1 then Read16(b[0], 0)
    else Read16(b[0], b[1]) + WordSum(b[2..])
  }

  /** One's complement addition: the carry goes back into the low end. */
  function OnesAdd(a: U16, b: U16): U16 { if a + b > ONES then a + b - ONES else a + b }

  /** The one's complement sum of the words, added one after the other. */
  function OnesSum(b: seq<Byte>): U16 {
    if b == [] then 0
    else if |b| % 2 == 1 then OnesAdd(OnesSum(b[..|b| - 1]), Read16(b[|b| - 1], 0))
    else OnesAdd(OnesSum(b[..|b| - 2]), Read16(b[|b| - 2], b[|b| - 1]))
  }

  /** The representative of `s` modulo 65535 that is zero only for zero. */
  function Residue(s: nat): U16 { if s == 0 then 0 else 1 + (s - 1) % ONES }

  function InternetChecksum(b: seq<Byte>): U16 { ONES - OnesSum(b) }

  // ----- sums of pieces -----

  lemma {:induction false} WordSumAppend(a: seq<Byte>, b: seq<Byte>)
    requires |a| % 2 == 0
    ensures WordSum(a + b) == WordSum(a) + WordSum(b)
  {
    if a == [] {
      assert a + b == b;
    } else {
      assert (a + b)[2..] == a[2..] + b;
      WordSumAppend(a[2..], b);
    }
  }

  lemma ResidueAdd(s: nat, w: U16)
    ensures OnesAdd(Residue(s), w) == Residue(s + w)
  {
    if s > 0 {
      var q, r := (s - 1) / ONES, (s - 1) % ONES;
      assert s - 1 == q * ONES + r;
      if r + w >= ONES {
        assert s + w - 1 == (q + 1) * ONES + (r + w - ONES);
      } else {
        assert s + w - 1 == q * ONES + (r + w);
      }
    }
  }

  lemma WordSumLastWord(b: seq<Byte>)
    requires |b| % 2 == 0 && b != []
    ensures WordSum(b) == WordSum(b[..|b| - 2]) + Read16(b[|b| - 2], b[|b| - 1])
  {
    var n := |b| - 2;
    assert b == b[..n] + b[n..];
    WordSumAppend(b[..n], b[n..]);
    assert b[n..][2..] == [];
  }

  lemma WordSumOddByte(b: seq<Byte>)
    requires |b| % 2 == 1
    ensures WordSum(b) == WordSum(b[..|b| - 1]) + Read16(b[|b| - 1], 0)
  {
    assert b == b[..|b| - 1] + [b[|b| - 1]];
    WordSumAppend(b[..|b| - 1], [b[|b| - 1]]);
  }

  /** Adding word by word with end-around carry gives the residue of the plain sum. */
  lemma {:induction false} OnesSumIsResidue(b: seq<Byte>)
    ensures OnesSum(b) == Residue(WordSum(b))
    decreases |b|
  {
    if b != [] {
      if |b| % 2 == 1 {
        WordSumOddByte(b);
        OnesSumIsResidue(b[..|b| - 1]);
        ResidueAdd(WordSum(b[..|b| - 1]), Read16(b[|b| - 1], 0));
      } else {
        WordSumLastWord(b);
        OnesSumIsResidue(b[..|b| - 2]);
        ResidueAdd(WordSum(b[..|b| - 2]), Read16(b[|b| - 2], b[|b| - 1]));
      }
    }
  }

  /** One turn of the folding loop keeps the residue and gets smaller. */
  lemma FoldStep(s: nat)
    requires s >= 0x1_0000
    ensures 0 < s % 0x1_0000 + s / 0x1_0000 < s
    ensures Residue(s % 0x1_0000 + s / 0x1_0000) == Residue(s)
  {
    var u, r := s / 0x1_0000, s % 0x1_0000;
    assert s == u * 0x1_0000 + r;
    assert s - 1 == u * ONES + (u + r - 1);
    ModShift(u + r - 1, u);
  }

  lemma {:induction false} ModShift(x: nat, k: nat)
    ensures (k * ONES + x) % ONES == x % ONES
  {
    if k > 0 {
      ModShift(x, k - 1);
      assert k * ONES + x == ((k - 1) * ONES + x) + ONES;
    }
  }

  // ----- the code -----

  /** `net_checksum`: the 32-bit sum never overflows, the fold terminates, and the result is the Internet checksum. */
  method NetChecksum(header: seq<Byte>) returns (c: U16)
    requires |header| <= 0xFFFF
    ensures c == InternetChecksum(header)
  {
    var sum: U32 := 0;
    var wordCount := |header| / 2;
    var i := 0;
    assert header[..0] == [];
    while i < wordCount
      invariant 0 <= i <= wordCount
      invariant sum == WordSum(header[..2 * i]) && sum <= i * ONES
    {
      var word := Load16(header[2 * i], header[2 * i + 1]);
      WordSumNext(header, i);
      sum := sum + Ntohs(word);
      i := i + 1;
    }
    if |header| % 2 != 0 {
      var word := Load16(header[2 * wordCount], 0);
      WordSumLast(header);
      sum := sum + Ntohs(word);
    } else {
      assert header[..2 * wordCount] == header;
    }
    ghost var residue := Residue(WordSum(header));
    var upper: U16 := sum / 0x1_0000;
    while upper != 0
      invariant upper == sum / 0x1_0000 && Residue(sum) == residue
      decreases sum
    {
      FoldStep(sum);
      sum := sum % 0x1_0000;
      sum := sum + upper;
      upper := sum / 0x1_0000;
    }
    FoldedSum(header, sum);
    c := ONES - sum;
  }

  lemma FoldedSum(b: seq<Byte>, s: nat)
    requires s < 0x1_0000 && Residue(s) == Residue(WordSum(b))
    ensures s == OnesSum(b)
  {
    OnesSumIsResidue(b);
  }

  lemma WordSumNext(b: seq<Byte>, i: nat)
    requires 2 * i + 1 < |b|
    ensures WordSum(b[..2 * (i + 1)]) == WordSum(b[..2 * i]) + Ntohs(Load16(b[2 * i], b[2 * i + 1]))
  {
    var c := b[..2 * (i + 1)];
    WordSumLastWord(c);
    assert c[..|c| - 2] == b[..2 * i];
    NetworkOrder16(b[2 * i], b[2 * i + 1], 0);
  }

  lemma WordSumLast(b: seq<Byte>)
    requires |b| % 2 == 1
    ensures WordSum(b) == WordSum(b[..|b| - 1]) + Ntohs(Load16(b[|b| - 1], 0))
  {
    WordSumOddByte(b);
    NetworkOrder16(b[|b| - 1], 0, 0);
  }

  // ----- inserting, verifying, detecting -----

  /** A buffer verifies exactly when its plain sum is a positive multiple of 65535. */
  lemma VerifiesIff(b: seq<Byte>)
    ensures InternetChecksum(b) == 0 <==> WordSum(b) > 0 && WordSum(b) % ONES == 0
  {
    OnesSumIsResidue(b);
    ResidueTop(WordSum(b));
  }

  lemma ResidueTop(s: nat)
    ensures Residue(s) == ONES <==> s > 0 && s % ONES == 0
  {
    if s > 0 {
      var q, r := (s - 1) / ONES, (s - 1) % ONES;
      assert s == q * ONES + (r + 1);
      ModShift(r + 1, q);
    }
  }

  /** A zeroed word at an even offset filled with the checksum makes the whole buffer verify. */
  lemma InsertVerifies(pre: seq<Byte>, post: seq<Byte>)
    requires |pre| % 2 == 0
    ensures var c := InternetChecksum(pre + [0, 0] + post);
            InternetChecksum(pre + Write16(c) + post) == 0
  {
    var zeroed := pre + [0, 0] + post;
    var c := InternetChecksum(zeroed);
    SumAround(pre, [0, 0], post);
    SumAround(pre, Write16(c), post);
    OnesSumIsResidue(zeroed);
    Complement(WordSum(zeroed));
    VerifiesIff(pre + Write16(c) + post);
  }

  /** Adding the complement of the residue gives a positive multiple. */
  lemma Complement(s: nat)
    ensures s + (ONES - Residue(s)) > 0 && (s + (ONES - Residue(s))) % ONES == 0
  {
    if s > 0 {
      var q, r := (s - 1) / ONES, (s - 1) % ONES;
      assert s + (ONES - Residue(s)) == (q + 1) * ONES;
      ModShift(0, q + 1);
    }
  }

  lemma SumAround(pre: seq<Byte>, w: seq<Byte>, post: seq<Byte>)
    requires |pre| % 2 == 0 && |w| == 2
    ensures WordSum(pre + w + post) == WordSum(pre) + Read16(w[0], w[1]) + WordSum(post)
  {
    assert pre + w + post == pre + (w + post);
    WordSumAppend(pre, w + post);
    WordSumAppend(w, post);
    assert w[2..] == [];
  }

  /** Changing one aligned word of a verifying buffer is detected exactly when the old and new words differ modulo
      65535 (or the buffer becomes all zeroes). */
  lemma DetectsIff(pre: seq<Byte>, w: seq<Byte>, v: seq<Byte>, post: seq<Byte>)
    requires |pre| % 2 == 0 && |w| == 2 == |v| && InternetChecksum(pre + w + post) == 0
    ensures var x, y := Read16(w[0], w[1]), Read16(v[0], v[1]);
            InternetChecksum(pre + v + post) != 0 <==> x % ONES != y % ONES || WordSum(pre + v + post) == 0
  {
    SumAround(pre, w, post);
    SumAround(pre, v, post);
    VerifiesIff(pre + w + post);
    VerifiesIff(pre + v + post);
    var x, y := Read16(w[0], w[1]), Read16(v[0], v[1]);
    var rest := WordSum(pre) + WordSum(post);
    SameRemainder(rest, x, y);
  }

  /** The plain sum vanishes only on all-zero buffers. */
  lemma {:induction false} ZeroSumIff(b: seq<Byte>)
    ensures WordSum(b) == 0 <==> forall i :: 0 <= i < |b| ==> b[i] == 0
  {
    if |b| >= 2 {
      ZeroSumIff(b[2..]);
      assert b == b[..2] + b[2..];
      assert forall i :: 2 <= i < |b| ==> b[i] == b[2..][i - 2];
      assert forall i :: 0 <= i < |b| - 2 ==> b[2..][i] == b[i + 2];
    }
  }

  lemma SameRemainder(rest: nat, x: U16, y: U16)
    requires (rest + x) % ONES == 0
    ensures (rest + y) % ONES == 0 <==> x % ONES == y % ONES
  {
    AddMod(rest, x);
    AddMod(rest, y);
  }

  /** A sum is a multiple exactly when the second remainder complements the first. */
  lemma AddMod(a: nat, b: nat)
    ensures (a + b) % ONES == 0 <==> b % ONES == (if a % ONES == 0 then 0 else ONES - a % ONES)
  {
    var q, r, p, t := a / ONES, a % ONES, b / ONES, b % ONES;
    assert a + b == (q + p) * ONES + (r + t);
    ModShift(r + t, q + p);
  }
}
