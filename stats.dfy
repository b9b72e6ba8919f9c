/** The Stats accumulator of package variance: a mutable object holding the
    five fields of Welford's algorithm, updated in place by AddWeighted, Merge,
    Clear and ReadFrom.

    Each object also carries, as ghost bookkeeping, the observations it has
    seen. `Valid()` says the fields summarize them (see Welford.Summarizes);
    every update keeps that relation, and the accessors are specified through
    it. The float64 fields are exact reals here. Serialization sees them as
    64-bit words through math.Float64bits and math.Float64frombits, which this
    model takes as function parameters. */
module Variance {
  import opened Words
  import opened Welford
  import Codec
  import Streams

  /** The wire record of a state, each float field turned into its bit pattern. */
  function Wire(m: Moments, float64bits: real -> u64): (r: Codec.Record)
  {
    Codec.Record(m.n, float64bits(m.mean), float64bits(m.sum), float64bits(m.sum2), float64bits(m.s))
  }

  /** The state a wire record stands for, each bit pattern turned back into a float. */
  function FromWire(r: Codec.Record, float64frombits: u64 -> real): (m: Moments)
  {
    Moments(r.n, float64frombits(r.mean), float64frombits(r.sum), float64frombits(r.sum2), float64frombits(r.s))
  }

  /** The bytes WriteTo emits for m decode, through ReadFrom's conversion, to m
      itself whenever the conversion inverts the float fields' bit patterns. */
  lemma WireRoundTrip(m: Moments, float64bits: real -> u64, float64frombits: u64 -> real)
    requires float64frombits(float64bits(m.mean)) == m.mean
    requires float64frombits(float64bits(m.sum)) == m.sum
    requires float64frombits(float64bits(m.sum2)) == m.sum2
    requires float64frombits(float64bits(m.s)) == m.s
    ensures FromWire(Codec.Decode(Codec.Encode(Wire(m, float64bits))), float64frombits) == m
  {
    Codec.DecodeEncode(Wire(m, float64bits));
  }

  class Stats {
    var n: u64
    var mean: real
    var sum: real
    var sum2: real
    var s: real

    /** The observations added since creation or the last Clear, in order. */
    ghost var Observations: seq<Obs>

    /** The five fields as a value. */
    function State(): (m: Moments)
      reads this
    {
      Moments(n, mean, sum, sum2, s)
    }

    /** The fields summarize the observations seen. */
    ghost predicate Valid()
      reads this
    {
      Summarizes(State(), Observations)
    }

    /** New: a Stats with every field zero. */
    constructor New()
      ensures Valid() && Observations == [] && State() == Zero
    {
      n, mean, sum, sum2, s := 0, 0.0, 0.0, 0.0, 0.0;
      Observations := [];
    }

    /** Add x with weight 1. */
    method Add(x: real)
      requires sum + 1.0 != 0.0
      modifies this
      ensures State() == Push(old(State()), x, 1.0)
      ensures Observations == old(Observations) + [Obs(x, 1.0)]
      ensures old(Valid()) ==> Valid()
    {
      AddWeighted(x, 1.0);
    }

    /** Add x with weight w: count, total weight and squared weight go up by
        1, w and w*w, and the mean and s follow Welford's recurrence, which
        keeps them the weighted mean and weighted squared deviation of all
        values added. */
    method AddWeighted(x: real, w: real)
      requires sum + w != 0.0
      modifies this
      ensures n == AddU64(old(n), 1)
      ensures sum == old(sum) + w && sum2 == old(sum2) + w * w
      ensures State() == Push(old(State()), x, w)
      ensures Observations == old(Observations) + [Obs(x, w)]
      ensures old(Valid()) ==> Valid()
    {
      ghost var pushed := Push(State(), x, w);
      n := AddU64(n, 1);
      sum := sum + w;
      sum2 := sum2 + w * w;
      var meanOld := mean;
      mean := meanOld + (w / sum) * (x - meanOld);
      s := s + w * (x - meanOld) * (x - mean);
      assert State() == pushed;
      Observations := Observations + [Obs(x, w)];
      if Summarizes(old(State()), old(Observations)) {
        PushSummarizes(old(State()), old(Observations), x, w);
      }
    }

    /** Reset every field to zero: the state of New. */
    method Clear()
      modifies this
      ensures State() == Zero && Observations == [] && Valid()
    {
      n := 0;
      s := 0.0;
      sum := 0.0;
      sum2 := 0.0;
      mean := 0.0;
      Observations := [];
    }

    /** The weighted mean of the values added; 0 when none was. */
    function Mean(): (r: real)
      reads this
      ensures Valid() && Observations == [] ==> r == 0.0
      ensures Valid() && Observations != [] ==> r == WeightedMean(Observations)
    {
      mean
    }

    /** The weighted population variance of the values added (nonnegative
        when no weight is negative, by Welford.PopulationVarianceNonNegative). */
    function VariancePopulation(): (r: real)
      requires sum != 0.0
      reads this
      ensures Valid() ==> r == PopulationVariance(Observations)
    {
      s / sum
    }

    /** The weighted sample variance of the values added. */
    function Variance(): (r: real)
      requires sum != 1.0
      reads this
      ensures Valid() && Observations != [] ==> r == SampleVariance(Observations)
      ensures Valid() && Observations == [] ==> r == 0.0
    {
      s / (sum - 1.0)
    }

    /** The number of adds, whatever their weights, modulo 2^64. */
    function NumDataValues(): (r: u64)
      reads this
      ensures Valid() ==> r == Wrap(|Observations|)
    {
      n
    }

    /** A new Stats with the same field values and nothing shared. */
    method Clone() returns (c: Stats)
      ensures fresh(c)
      ensures c.State() == State() && c.Observations == Observations
      ensures Valid() ==> c.Valid()
    {
      c := new Stats.New();
      c.n, c.mean, c.sum, c.sum2, c.s := n, mean, sum, sum2, s;
      c.Observations := Observations;
    }

    /** Merge other into this: afterwards this summarizes its own observations
        followed by other's, exactly as if they had been added one by one.
        Only this changes. When other is this, the fields it reads have already
        been updated, and the result is still that of merging a copy. */
    method Merge(other: Stats)
      requires sum + other.sum != 0.0
      modifies this
      ensures State() == Combine(old(State()), old(other.State()))
      ensures Observations == old(Observations) + old(other.Observations)
      ensures old(Valid()) && old(other.Valid()) ==> Valid()
    {
      ghost var mine, theirs := State(), other.State();
      ghost var seen, seenOther := Observations, other.Observations;
      ghost var combined := Combine(mine, theirs);
      n := AddU64(n, other.n);
      sum := sum + other.sum;
      sum2 := sum2 + other.sum2;
      assert n == combined.n && sum == combined.sum && sum2 == combined.sum2;
      var meanOld := mean;
      mean := meanOld + (other.sum / sum) * (other.mean - meanOld);
      assert mean == combined.mean by {
        if other == this {
          assert other.mean - meanOld == 0.0 && theirs.mean - mine.mean == 0.0;
        }
      }
      s := s + other.s + other.sum * (other.mean - meanOld) * (other.mean - mean);
      assert s == combined.s by {
        if other == this {
          assert other.mean - meanOld == 0.0 && theirs.mean - mine.mean == 0.0;
        }
      }
      Observations := seen + seenOther;
      if Summarizes(mine, seen) && Summarizes(theirs, seenOther) {
        CombineSummarizes(mine, seen, theirs, seenOther);
      }
    }

    /** Read the 40-byte encoding from r. The five words are read in wire
        order; the fields are assigned only once all five have been read. If
        the read of field k fails the result is 8k bytes and a failure, and the
        fields keep their values. On success the fields hold the decoded
        record. `encoded` names the observations the bytes stand for. */
    method ReadFrom(r: Streams.Reader, float64frombits: u64 -> real, ghost encoded: seq<Obs>)
      returns (count: int, failed: bool)
      modifies this, r
      ensures var d := old(r.unread);
        && failed == (|d| < Codec.SIZE)
        && count == (if failed then 8 * (|d| / 8) else Codec.SIZE)
        && r.unread == (if failed then [] else d[Codec.SIZE..])
      ensures failed ==> State() == old(State()) && Observations == old(Observations)
      ensures !failed ==> State() == FromWire(Codec.Decode(old(r.unread)[..Codec.SIZE]), float64frombits)
      ensures !failed ==> Observations == encoded
    {
      ghost var d := r.unread;
      var nWord, meanBits, sumBits, sum2Bits, sBits: u64;
      var ok: bool;
      nWord, ok := r.ReadUint64();
      if !ok {
        Words.DivEight(|d|, 0);
        return 0, true;
      }
      meanBits, ok := r.ReadUint64();
      if !ok {
        Words.DivEight(|d|, 1);
        return 8, true;
      }
      sumBits, ok := r.ReadUint64();
      if !ok {
        Words.DivEight(|d|, 2);
        return 16, true;
      }
      sum2Bits, ok := r.ReadUint64();
      if !ok {
        Words.DivEight(|d|, 3);
        return 24, true;
      }
      sBits, ok := r.ReadUint64();
      if !ok {
        Words.DivEight(|d|, 4);
        return 32, true;
      }
      Codec.DecodeWordByWord(d);
      var record := Codec.Record(nWord, meanBits, sumBits, sum2Bits, sBits);
      assert record == Codec.Decode(d[..Codec.SIZE]);
      var decoded := FromWire(record, float64frombits);
      n, mean, sum, sum2, s := decoded.n, decoded.mean, decoded.sum, decoded.sum2, decoded.s;
      Observations := encoded;
      return 40, false;
    }

    /** Write the 40-byte encoding to w: the count as a big-endian u64, then
        the bit patterns of mean, sum, sum2 and s. If the write of field k
        fails, the result is 8k bytes and a failure, and w has received every
        byte that fit. Nothing in this Stats changes. */
    method WriteTo(w: Streams.Writer, float64bits: real -> u64) returns (count: int, failed: bool)
      modifies w
      ensures var bytes, room := Codec.Encode(Wire(State(), float64bits)), old(w.room);
        && failed == (room < Codec.SIZE)
        && count == (if failed then 8 * (room / 8) else Codec.SIZE)
        && w.written == old(w.written) + bytes[..if failed then room else Codec.SIZE]
        && w.room == (if failed then 0 else room - Codec.SIZE)
    {
      ghost var rec := Wire(State(), float64bits);
      ghost var start, room := w.written, w.room;
      var ok := w.WriteUint64(n);
      if !ok {
        Codec.CutSink(start, rec, 0, room, w.written);
        return 0, true;
      }
      Codec.ExtendSink(start, rec, 0, w.written);
      ok := w.WriteUint64(float64bits(mean));
      if !ok {
        Codec.CutSink(start, rec, 1, room - 8, w.written);
        return 8, true;
      }
      Codec.ExtendSink(start, rec, 1, w.written);
      ok := w.WriteUint64(float64bits(sum));
      if !ok {
        Codec.CutSink(start, rec, 2, room - 16, w.written);
        return 16, true;
      }
      Codec.ExtendSink(start, rec, 2, w.written);
      ok := w.WriteUint64(float64bits(sum2));
      if !ok {
        Codec.CutSink(start, rec, 3, room - 24, w.written);
        return 24, true;
      }
      Codec.ExtendSink(start, rec, 3, w.written);
      ok := w.WriteUint64(float64bits(s));
      if !ok {
        Codec.CutSink(start, rec, 4, room - 32, w.written);
        return 32, true;
      }
      Codec.ExtendSink(start, rec, 4, w.written);
      assert Codec.Encode(rec)[..Codec.SIZE] == Codec.Encode(rec);
      return 40, false;
    }
  }

  /** WriteTo into a buffer with room for the encoding, then ReadFrom that
      buffer into got: both calls report 40 bytes and got ends with exactly
      the fields of exp, provided the float conversion inverts the bit
      patterns of exp's float fields. */
  method RoundTrip(exp: Stats, got: Stats, float64bits: real -> u64, float64frombits: u64 -> real)
    returns (written: int, read: int)
    requires float64frombits(float64bits(exp.mean)) == exp.mean
    requires float64frombits(float64bits(exp.sum)) == exp.sum
    requires float64frombits(float64bits(exp.sum2)) == exp.sum2
    requires float64frombits(float64bits(exp.s)) == exp.s
    modifies got
    ensures written == Codec.SIZE && read == Codec.SIZE
    ensures got.State() == old(exp.State()) && got.Observations == old(exp.Observations)
    ensures old(exp.Valid()) ==> got.Valid()
  {
    ghost var m, obs := exp.State(), exp.Observations;
    ghost var bytes := Codec.Encode(Wire(m, float64bits));
    var buffer := new Streams.Writer(Codec.SIZE);
    var failed: bool;
    written, failed := exp.WriteTo(buffer, float64bits);
    assert buffer.written == bytes;
    assert bytes[..Codec.SIZE] == bytes;
    WireRoundTrip(m, float64bits, float64frombits);
    var source := new Streams.Reader(buffer.written);
    read, failed := got.ReadFrom(source, float64frombits, obs);
    assert got.State() == m;
    if Summarizes(m, obs) {
      assert got.Valid();
    }
  }
}
