/** The fixed 40-byte wire form of a Stats: five big-endian 64-bit words, with
    no header. The count goes out as an unsigned 64-bit integer; mean, sum, sum2
    and s go out as the bit patterns of IEEE 754 binary64 values (the binary
    interchange format of section 3.4 of IEEE 754-2008), which this module
    treats as plain 64-bit words. */
module Codec {
  import opened Words

  /** Size of an encoded Stats in bytes. */
  const SIZE: nat := 40

  /** The five words of an encoded Stats, in wire order. */
  datatype Record = Record(n: u64, mean: u64, sum: u64, sum2: u64, s: u64)

  /** The words of r in the order they are written. */
  function Fields(r: Record): (ws: seq<u64>)
    ensures |ws| == 5
  {
    [r.n, r.mean, r.sum, r.sum2, r.s]
  }

  /** The bytes of the first k fields of r, as they stand after k successful writes. */
  function EncodePrefix(r: Record, k: nat): (b: seq<byte>)
    requires k <= 5
    ensures |b| == 8 * k
  {
    if k == 0 then [] else EncodePrefix(r, k - 1) + BigEndian(Fields(r)[k - 1])
  }

  /** The full 40-byte encoding of r. */
  function Encode(r: Record): (b: seq<byte>)
    ensures |b| == SIZE
  {
    EncodePrefix(r, 5)
  }

  /** Field k of the record whose encoding is b. */
  function DecodeField(b: seq<byte>, k: nat): (v: u64)
    requires |b| == SIZE && k < 5
  {
    Uint64(b[8 * k .. 8 * k + 8])
  }

  /** The record whose encoding is b. */
  function Decode(b: seq<byte>): (r: Record)
    requires |b| == SIZE
  {
    Record(DecodeField(b, 0), DecodeField(b, 1), DecodeField(b, 2), DecodeField(b, 3), DecodeField(b, 4))
  }

  /** Field k sits at bytes 8k .. 8k+8 of every longer prefix of the encoding. */
  lemma {:induction false} EncodePrefixLayout(r: Record, k: nat, j: nat)
    requires j < k <= 5
    ensures EncodePrefix(r, k)[8 * j .. 8 * j + 8] == BigEndian(Fields(r)[j])
  {
    if j < k - 1 {
      EncodePrefixLayout(r, k - 1, j);
      assert EncodePrefix(r, k)[..8 * (k - 1)] == EncodePrefix(r, k - 1);
    }
  }

  /** The encoding is laid out field by field: the word of field k occupies bytes 8k .. 8k+8. */
  lemma EncodeLayout(r: Record, k: nat)
    requires k < 5
    ensures Encode(r)[8 * k .. 8 * k + 8] == BigEndian(Fields(r)[k])
  {
    EncodePrefixLayout(r, 5, k);
  }

  /** The prefix written after k fields extends to the prefix written after k + 1. */
  lemma {:induction false} EncodePrefixIsPrefix(r: Record, k: nat)
    requires k <= 5
    ensures Encode(r)[..8 * k] == EncodePrefix(r, k)
    decreases 5 - k
  {
    if k < 5 {
      EncodePrefixIsPrefix(r, k + 1);
      assert EncodePrefix(r, k + 1)[..8 * k] == EncodePrefix(r, k);
    }
  }

  /** A write that fails inside field k leaves the encoding's first 8k + j
      bytes: the fields before k and the first j bytes of field k. */
  lemma EncodeCutInField(r: Record, k: nat, j: nat)
    requires k < 5 && j <= 8
    ensures Encode(r)[..8 * k + j] == EncodePrefix(r, k) + BigEndian(Fields(r)[k])[..j]
  {
    EncodePrefixIsPrefix(r, k + 1);
    assert Encode(r)[..8 * k + j] == Encode(r)[..8 * (k + 1)][..8 * k + j];
  }

  /** What a sink holds after the first k fields went through whole and field
      k was cut after j < 8 bytes: its earlier contents and 8k + j bytes of the
      encoding, of which k words are whole. */
  lemma CutSink(start: seq<byte>, r: Record, k: nat, j: nat, sink: seq<byte>)
    requires k < 5 && j < 8
    requires sink == start + EncodePrefix(r, k) + BigEndian(Fields(r)[k])[..j]
    ensures sink == start + Encode(r)[..8 * k + j]
    ensures (8 * k + j) / 8 == k
  {
    EncodeCutInField(r, k, j);
  }

  /** What a sink holds after field k went through whole behind the first k. */
  lemma ExtendSink(start: seq<byte>, r: Record, k: nat, sink: seq<byte>)
    requires k < 5
    requires sink == start + EncodePrefix(r, k) + BigEndian(Fields(r)[k])
    ensures sink == start + EncodePrefix(r, k + 1)
  {
  }

  /** Reading five words one after the other from d reads the fields of the
      record its first 40 bytes encode, and leaves the bytes after them. */
  lemma DecodeWordByWord(d: seq<byte>)
    requires |d| >= SIZE
    ensures Decode(d[..SIZE]) == Record(Uint64(d[..8]), Uint64(d[8..][..8]), Uint64(d[8..][8..][..8]),
                                         Uint64(d[8..][8..][8..][..8]), Uint64(d[8..][8..][8..][8..][..8]))
    ensures d[8..][8..][8..][8..][8..] == d[SIZE..]
  {
    assert d[..SIZE][0..8] == d[..8];
    assert d[..SIZE][8..16] == d[8..][..8];
    assert d[..SIZE][16..24] == d[8..][8..][..8];
    assert d[..SIZE][24..32] == d[8..][8..][8..][..8];
    assert d[..SIZE][32..40] == d[8..][8..][8..][8..][..8];
  }

  /** Decoding an encoding gives back every field. */
  lemma DecodeEncode(r: Record)
    ensures Decode(Encode(r)) == r
  {
    forall k | 0 <= k < 5
      ensures DecodeField(Encode(r), k) == Fields(r)[k]
    {
      EncodeLayout(r, k);
      Uint64BigEndian(Fields(r)[k]);
    }
    assert DecodeField(Encode(r), 0) == r.n;
    assert DecodeField(Encode(r), 1) == r.mean;
    assert DecodeField(Encode(r), 2) == r.sum;
    assert DecodeField(Encode(r), 3) == r.sum2;
    assert DecodeField(Encode(r), 4) == r.s;
  }

  /** Encoding a decoded record gives back the bytes: every 40-byte string is
      the encoding of exactly one record. */
  lemma EncodeDecode(b: seq<byte>)
    requires |b| == SIZE
    ensures Encode(Decode(b)) == b
  {
    var e := Encode(Decode(b));
    forall k | 0 <= k < 5
      ensures e[8 * k .. 8 * k + 8] == b[8 * k .. 8 * k + 8]
    {
      EncodeLayout(Decode(b), k);
      BigEndianUint64(b[8 * k .. 8 * k + 8]);
    }
    forall i | 0 <= i < SIZE
      ensures e[i] == b[i]
    {
      var k := i / 8;
      assert e[8 * k .. 8 * k + 8][i - 8 * k] == b[8 * k .. 8 * k + 8][i - 8 * k];
    }
  }
}
