/** Bytes, 16- and 32-bit values and the byte-order helpers, on a little-endian machine. */
module NetTypes {

  type Byte = b: int | 0 <= b < 256
  type U16 = x: int | 0 <= x < 0x1_0000
  type U32 = x: int | 0 <= x < 0x1_0000_0000
  type Ip = b: seq<Byte> | |b| == 4 witness [0, 0, 0, 0]
  type Mac = b: seq<Byte> | |b| == 6 witness [0, 0, 0, 0, 0, 0]

  /** Swapping the two bytes of a 16-bit value; masks and shifts are written as remainders and quotients. */
  function Ntohs(x: U16): U16 { (x % 0x100) * 0x100 + x / 0x100 % 0x100 }

  function Htons(x: U16): U16 { Ntohs(x) }

  function Ntohl(x: U32): U32 {
    (x % 0x100) * 0x100_0000 + (x / 0x100 % 0x100) * 0x1_0000 + (x / 0x1_0000 % 0x100) * 0x100 + x / 0x100_0000 % 0x100
  }

  function Htonl(x: U32): U32 { Ntohl(x) }

  /** A 16-bit load and store on this machine. */
  function Load16(b0: Byte, b1: Byte): U16 { b0 + b1 * 0x100 }

  function Store16(x: U16): seq<Byte> { [x % 0x100, x / 0x100] }

  function Load32(b0: Byte, b1: Byte, b2: Byte, b3: Byte): U32 { b0 + b1 * 0x100 + b2 * 0x1_0000 + b3 * 0x100_0000 }

  function Store32(x: U32): seq<Byte> { [x % 0x100, x / 0x100 % 0x100, x / 0x1_0000 % 0x100, x / 0x100_0000 % 0x100] }

  /** Big-endian reading and writing: what the helpers are for. */
  function Read16(b0: Byte, b1: Byte): U16 { b0 * 0x100 + b1 }

  function Write16(x: U16): (r: seq<Byte>)
    ensures |r| == 2 && Read16(r[0], r[1]) == x
  {
    [x / 0x100, x % 0x100]
  }

  function Read32(b0: Byte, b1: Byte, b2: Byte, b3: Byte): U32 { b0 * 0x100_0000 + b1 * 0x1_0000 + b2 * 0x100 + b3 }

  function Write32(x: U32): (r: seq<Byte>)
    ensures |r| == 4
  {
    [x / 0x100_0000 % 0x100, x / 0x1_0000 % 0x100, x / 0x100 % 0x100, x % 0x100]
  }

  /** The only base-256 digits of a 32-bit value are its quotients and remainders. */
  lemma Digits(b0: Byte, b1: Byte, b2: Byte, b3: Byte)
    ensures var x := Load32(b0, b1, b2, b3);
            x % 0x100 == b0 && x / 0x100 % 0x100 == b1 && x / 0x1_0000 % 0x100 == b2 && x / 0x100_0000 % 0x100 == b3
  {
    var x := Load32(b0, b1, b2, b3);
    Quotient(x, b1 + b2 * 0x100 + b3 * 0x1_0000, b0, 0x100);
    Quotient(b1 + b2 * 0x100 + b3 * 0x1_0000, b2 + b3 * 0x100, b1, 0x100);
    Quotient(b2 + b3 * 0x100, b3, b2, 0x100);
    Quotient(x, b2 + b3 * 0x100, b0 + b1 * 0x100, 0x1_0000);
    Quotient(x, b3, b0 + b1 * 0x100 + b2 * 0x1_0000, 0x100_0000);
  }

  lemma Quotient(x: nat, q: nat, r: nat, d: nat)
    requires d == 0x100 || d == 0x1_0000 || d == 0x100_0000
    requires r < d && x == q * d + r
    ensures x / d == q && x % d == r
  {
    if d == 0x100 {
      assert x == q * 0x100 + r;
    } else if d == 0x1_0000 {
      assert x == q * 0x1_0000 + r;
    } else {
      assert x == q * 0x100_0000 + r;
    }
  }

  lemma Recompose(x: U32)
    ensures x == Load32(x % 0x100, x / 0x100 % 0x100, x / 0x1_0000 % 0x100, x / 0x100_0000 % 0x100)
  {
    var y := x / 0x100;
    var z := y / 0x100;
    var w := z / 0x100;
    assert x == y * 0x100 + x % 0x100 && y == z * 0x100 + y % 0x100 && z == w * 0x100 + z % 0x100;
    Digits(x % 0x100, y % 0x100, z % 0x100, w);
  }

  lemma SwapTwice16(x: U16)
    ensures Ntohs(Htons(x)) == x
  {
    Digits16(x / 0x100, x % 0x100);
  }

  lemma Digits16(b0: Byte, b1: Byte)
    ensures var x := Load16(b0, b1);
            x % 0x100 == b0 && x / 0x100 == b1
  {
  }

  lemma SwapTwice32(x: U32)
    ensures Ntohl(Htonl(x)) == x
  {
    var b0, b1, b2, b3 := x % 0x100, x / 0x100 % 0x100, x / 0x1_0000 % 0x100, x / 0x100_0000 % 0x100;
    Recompose(x);
    Digits(b3, b2, b1, b0);
  }

  /** A load followed by `ntohs` reads, and `htons` followed by a store writes, network order. */
  lemma NetworkOrder16(b0: Byte, b1: Byte, x: U16)
    ensures Ntohs(Load16(b0, b1)) == Read16(b0, b1)
    ensures Store16(Htons(x)) == Write16(x)
  {
    Digits16(b0, b1);
    StoredOrder16(x);
  }

  lemma StoredOrder16(x: U16)
    ensures Store16(Htons(x)) == Write16(x)
  {
    Digits16(x / 0x100, x % 0x100);
    assert Htons(x) == Load16(x / 0x100, x % 0x100);
  }

  lemma NetworkOrder32(b0: Byte, b1: Byte, b2: Byte, b3: Byte, x: U32)
    ensures Ntohl(Load32(b0, b1, b2, b3)) == Read32(b0, b1, b2, b3)
    ensures Store32(Htonl(x)) == Write32(x)
  {
    Digits(b0, b1, b2, b3);
    StoredOrder32(x);
  }

  lemma StoredOrder32(x: U32)
    ensures Store32(Htonl(x)) == Write32(x)
  {
    Digits(x / 0x100_0000 % 0x100, x / 0x1_0000 % 0x100, x / 0x100 % 0x100, x % 0x100);
    assert Htonl(x) == Load32(x / 0x100_0000 % 0x100, x / 0x1_0000 % 0x100, x / 0x100 % 0x100, x % 0x100);
  }

  lemma ReadWrite32(x: U32)
    ensures var r := Write32(x); Read32(r[0], r[1], r[2], r[3]) == x
  {
    Recompose(x);
  }

  /** What `htons` and a `memcpy` put into a packet. */
  function Net16(x: U16): (r: seq<Byte>)
    ensures |r| == 2 && r == Write16(x)
  {
    NetworkOrder16(0, 0, x);
    Store16(Htons(x))
  }

  function Net32(x: U32): (r: seq<Byte>)
    ensures |r| == 4 && r == Write32(x)
  {
    NetworkOrder32(0, 0, 0, 0, x);
    Store32(Htonl(x))
  }

  /** What a `memcpy` and `ntohs` take out of one. */
  function Host16(b0: Byte, b1: Byte): (x: U16)
    ensures x == Read16(b0, b1)
  {
    NetworkOrder16(b0, b1, 0);
    Ntohs(Load16(b0, b1))
  }

  function Host32(b0: Byte, b1: Byte, b2: Byte, b3: Byte): (x: U32)
    ensures x == Read32(b0, b1, b2, b3)
  {
    NetworkOrder32(b0, b1, b2, b3, 0);
    Ntohl(Load32(b0, b1, b2, b3))
  }
}
