/** Fixed-width unsigned integers and the big-endian byte order used by
    encoding/binary: a 64-bit word travels as eight bytes, most significant first. */
module Words {

  newtype byte = b: int | 0 <= b < 0x100

  newtype u64 = v: int | 0 <= v < 0x1_0000_0000_0000_0000

  /** The number of values a u64 can hold. */
  const WORD_SPAN: int := 0x1_0000_0000_0000_0000

  /** Reduces an integer to 64 bits, as unsigned Go arithmetic does on overflow. */
  function Wrap(k: int): (w: u64)
    ensures 0 <= k < WORD_SPAN ==> w as int == k
  {
    if 0 <= k < 0x1_0000_0000_0000_0000 then k as u64 else (k % 0x1_0000_0000_0000_0000) as u64
  }

  /** Unsigned 64-bit addition as Go performs it: a sum past the largest word
      drops its carry out of bit 63. */
  function AddU64(a: u64, b: u64): (r: u64)
  {
    if a as int + b as int < WORD_SPAN then a + b else (a as int + b as int - WORD_SPAN) as u64
  }

  /** The sum of two words is their integer sum reduced to 64 bits. */
  lemma AddU64Wrap(a: u64, b: u64)
    ensures AddU64(a, b) == Wrap(a as int + b as int)
  {
  }

  /** Unsigned 64-bit addition is commutative. */
  lemma AddU64Commutative(a: u64, b: u64)
    ensures AddU64(a, b) == AddU64(b, a)
  {
  }

  /** Unsigned 64-bit addition is associative: both groupings are the integer sum reduced to 64 bits. */
  lemma AddU64Associative(a: u64, b: u64, c: u64)
    ensures AddU64(AddU64(a, b), c) == AddU64(a, AddU64(b, c))
  {
    AddU64Wrap(a, b);
    AddU64Wrap(AddU64(a, b), c);
    AddU64Wrap(b, c);
    AddU64Wrap(a, AddU64(b, c));
    WrapAdd(a as int + b as int, c as int);
    WrapAdd(a as int, b as int + c as int);
  }

  /** Wrap is reduction modulo 2^64. */
  lemma WrapIsMod(k: int)
    ensures Wrap(k) as int == k % WORD_SPAN
  {
  }

  /** Wrapping each operand first does not change a wrapped sum. */
  lemma WrapAdd(a: int, b: int)
    ensures Wrap(Wrap(a) as int + Wrap(b) as int) == Wrap(a + b)
  {
  }

  /** Adding two counts kept modulo 2^64 gives their sum modulo 2^64. */
  lemma CountsAdd(a: u64, ka: int, b: u64, kb: int)
    requires a == Wrap(ka) && b == Wrap(kb)
    ensures AddU64(a, b) == Wrap(ka + kb)
  {
    AddU64Wrap(a, b);
    WrapAdd(ka, kb);
  }

  /** A length in [8k, 8k + 8) holds k whole 64-bit words. */
  lemma DivEight(len: nat, k: nat)
    requires 8 * k <= len < 8 * k + 8
    ensures len / 8 == k
  {
  }

  /** 256 to the power k. */
  function Pow256(k: nat): (p: nat)
    ensures p > 0
  {
    if k == 0 then 1 else 256 * Pow256(k - 1)
  }

  /** The k least significant base-256 digits of v, most significant first. */
  function ToBytes(v: nat, k: nat): (b: seq<byte>)
    ensures |b| == k
  {
    if k == 0 then [] else ToBytes(v / 256, k - 1) + [(v % 256) as byte]
  }

  /** The number whose base-256 digits, most significant first, are b. */
  function FromBytes(b: seq<byte>): (v: nat)
    ensures v < Pow256(|b|)
  {
    if b == [] then 0 else FromBytes(b[..|b| - 1]) * 256 + b[|b| - 1] as int
  }

  /** Reading back the digits of a number that fits gives the number. */
  lemma {:induction false} FromBytesToBytes(v: nat, k: nat)
    requires v < Pow256(k)
    ensures FromBytes(ToBytes(v, k)) == v
  {
    if k > 0 {
      FromBytesToBytes(v / 256, k - 1);
      var b := ToBytes(v, k);
      assert b[..k - 1] == ToBytes(v / 256, k - 1);
    }
  }

  /** Writing out the value of a digit string gives the digit string. */
  lemma {:induction false} ToBytesFromBytes(b: seq<byte>)
    ensures ToBytes(FromBytes(b), |b|) == b
  {
    if b != [] {
      var k := |b| - 1;
      ToBytesFromBytes(b[..k]);
      var v := FromBytes(b);
      assert v / 256 == FromBytes(b[..k]);
      assert v % 256 == b[k] as int;
      assert b == b[..k] + [b[k]];
    }
  }

  /** Eight bytes span exactly the values of a u64. */
  lemma Pow256Eight()
    ensures Pow256(8) == WORD_SPAN
  {
  }

  /** binary.BigEndian.PutUint64: the eight bytes of v, most significant first. */
  function BigEndian(v: u64): (b: seq<byte>)
    ensures |b| == 8
  {
    ToBytes(v as int, 8)
  }

  /** binary.BigEndian.Uint64: the word whose big-endian bytes are b. */
  function Uint64(b: seq<byte>): (v: u64)
    requires |b| == 8
  {
    Pow256Eight();
    FromBytes(b) as u64
  }

  /** Decoding an encoded word gives the word back. */
  lemma Uint64BigEndian(v: u64)
    ensures Uint64(BigEndian(v)) == v
  {
    Pow256Eight();
    FromBytesToBytes(v as int, 8);
  }

  /** Encoding a decoded word gives the bytes back: the two are inverse bijections. */
  lemma BigEndianUint64(b: seq<byte>)
    requires |b| == 8
    ensures BigEndian(Uint64(b)) == b
  {
    ToBytesFromBytes(b);
  }
}
