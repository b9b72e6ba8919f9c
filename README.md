# Welford's weighted mean and variance, in Dafny

A model of package `variance` (welford.go), verified in exact arithmetic.

The package has one type, `Stats`, a streaming accumulator of weighted values. It keeps five fields:

- `n`: the number of adds;
- `mean`: the running weighted mean;
- `sum`: the total weight;
- `sum2`: the total squared weight;
- `s`: the weighted sum of squared deviations from the mean.

`AddWeighted` updates them in place with Welford's recurrence. `Merge` folds one accumulator into another. `New`, `Clear` and `Clone` manage the lifecycle. `WriteTo` and `ReadFrom` move the five fields through a fixed 40-byte big-endian record.

The project is split into six files:

- `words.dfy` (module `Words`): the 64-bit unsigned word, 64-bit wrap-around addition for the `n` field, and the big-endian byte order of `encoding/binary`.
- `codec.dfy` (module `Codec`): the 40-byte wire record. It has five words and no header. The float fields travel as the bit patterns of IEEE 754 binary64 values (section 3.4 of IEEE 754-2008).
- `streams.dfy` (module `Streams`): a byte sink with limited room, standing for an `io.Writer`, and a byte source, standing for an `io.Reader`. Each has a one-word `binary.Write` / `binary.Read`.
- `welford.dfy` (module `Welford`): the algorithm on values. `Push` is the AddWeighted update and `Combine` the Merge update. `Summarizes(m, obs)` says that the five fields of `m` are the direct aggregates of the weighted observations `obs`. The lemmas prove that both updates keep that relation, and from it that merging equals adding one by one.
- `stats.dfy` (module `Variance`): the `Stats` class. Its fields are updated in place. It carries a ghost `Observations` sequence and `Valid() == Summarizes(State(), Observations)`.
- `scenarios.dfy` (module `Scenarios`): the package's tests, as client code of the class, with their expected outcomes proved.

## Model

| member | source | states |
|---|---|---|
| Words.Wrap | welford.go:36 | reduction of an integer count to 64 bits; identity on counts that fit |
| Words.AddU64Wrap | welford.go:36 | the u64 addition used for `n++` and `n += other.n` is integer addition reduced modulo 2^64 |
| Words.AddU64Commutative | welford.go:100 | `n += other.n` is commutative in 64-bit arithmetic |
| Words.AddU64Associative | welford.go:100 | `n += other.n` is associative in 64-bit arithmetic, wrap-around included |
| Words.WrapIsMod | welford.go:100 | Wrap is reduction modulo 2^64 for every integer, negative ones included |
| Words.WrapAdd | welford.go:100 | wrapping the operands first does not change a wrapped sum, so counts add modulo 2^64 |
| Words.Uint64BigEndian | welford.go:116 | reading back the eight big-endian bytes written for a word gives the word |
| Words.BigEndianUint64 | welford.go:145 | every 8-byte string is the big-endian encoding of the word it decodes to |
| Words.FromBytesToBytes | welford.go:116 | base-256 digits of a value that fits decode back to the value |
| Words.ToBytesFromBytes | welford.go:145 | a digit string re-encodes to itself |
| Codec.Encode | welford.go:142-161 | the encoding of a record is exactly 40 bytes |
| Codec.EncodeLayout | welford.go:145-158 | field k of the record (n, mean, sum, sum2, s in that order) occupies bytes 8k .. 8k+8, big-endian |
| Codec.CutSink | welford.go:145-159 | after a write that fails inside field k, the sink holds its old bytes and the first 8k + j bytes of the encoding, and 8k is the count reported |
| Codec.DecodeWordByWord | welford.go:116-130 | five successive 8-byte reads return the five fields of the record encoded in the first 40 bytes and leave the rest unread |
| Codec.DecodeEncode | welford.go:109-162 | decoding an encoding gives back every field |
| Codec.EncodeDecode | welford.go:109-162 | encoding a decoded 40-byte string gives back the bytes, so the encoding is a bijection on 40-byte strings |
| Streams.Writer.WriteUint64 | welford.go:145 | a word write succeeds exactly when the sink has room for 8 bytes; the bytes that fit arrive big-endian in either case |
| Streams.Reader.ReadUint64 | welford.go:116 | a word read succeeds exactly when 8 bytes remain and returns their big-endian value; a short read consumes what was left |
| Welford.PushAll | welford.go:35-42 | feeding observations one add at a time raises the total weight by their total weight |
| Welford.SumPermutation | welford.go:35-42 | every aggregate of a sequence of observations is independent of their order |
| Welford.DeviationExpansion | welford.go:41 | the weighted squared deviation from c expands to Q - 2cT + c^2 W |
| Welford.SummarizesIsBalanced | welford.go:35-42 | a state summarizes a sequence exactly when mean times weight is the weighted total and s is the weighted squares less mean times weighted total (both directions) |
| Welford.PushAlgebra | welford.go:39-41 | the mean and s updates, using both the old and the new mean, keep mean*W == T and s == Q - mean*T |
| Welford.PushSummarizes | welford.go:35-42 | if the fields summarize the observations so far, after AddWeighted(x, w) they summarize them followed by (x, w): count +1, weight +w, squared weight +w*w, mean the weighted mean, s the weighted squared deviation from it |
| Welford.PushAllSummarizes | welford.go:35-42 | any sequence of adds from a summarizing state keeps the summary of all observations seen |
| Welford.CombineAlgebra | welford.go:103-105 | the merge rule for mean and s keeps mean*W == T and s == Q - mean*T for the combined totals |
| Welford.CombineSummarizes | welford.go:99-106 | merging two summarizing states summarizes the concatenation of their observations |
| Welford.SummaryUnique | welford.go:15-21 | a sequence of observations determines its summarizing state |
| Welford.SummarizesPermutation | welford.go:99-106 | a summary depends only on the multiset of observations |
| Welford.MergeEqualsSequentialAdds | welford.go:99-106 | a.Merge(b) yields exactly the n, mean, sum, sum2 and s that adding b's observations to a one by one yields |
| Welford.MergeOfPartition | welford.go:99-106 | however a sequence is split between two accumulators, merging them gives the state of one accumulator that saw all of it |
| Welford.CombineAdds | welford.go:100-105 | for any two states, not only summarizing ones, the merge rule adds up the total weights, the weighted totals mean*sum and the weighted squares s + mean*mean*sum |
| Welford.MeanAndSDetermined | welford.go:104-105 | a nonzero total weight with a weighted total and weighted squares fixes the mean and s |
| Welford.CombineCommutative | welford.go:99-106 | merging is commutative on every pair of states whose weights do not cancel |
| Welford.CombineAssociative | welford.go:99-106 | merging is associative on every triple of states whose partial weights do not cancel, counts included |
| Welford.MergeEmptyIsNoOp | welford.go:100-105 | merging an all-zero accumulator into one with nonzero weight changes no field, and so does merging it the other way round |
| Welford.DoubleWeightIsTwoAdds | welford.go:35-42 | AddWeighted(x, 2) gives the same mean, weight and s as two Add(x) |
| Welford.SquaredDeviationNonNegative | welford.go:60-62 | with nonnegative weights, s and the total weight are nonnegative |
| Welford.PopulationVarianceNonNegative | welford.go:60-62 | with nonnegative weights, the population variance is nonnegative |
| Variance.WireRoundTrip | welford.go:109-162 | the record WriteTo emits for a state decodes, through ReadFrom, to that state whenever the float conversion inverts the fields' bit patterns |
| Variance.Stats.New | welford.go:25-27 | a new Stats has every field zero and summarizes no observations |
| Variance.Stats.Add | welford.go:30-32 | Add(x) is AddWeighted(x, 1): the state becomes Push(old, x, 1) and the summary is kept |
| Variance.Stats.AddWeighted | welford.go:35-42 | n goes up by one (mod 2^64), sum by w, sum2 by w*w, the state becomes Push(old, x, w), and the summary of the observations extended by (x, w) is kept |
| Variance.Stats.Clear | welford.go:45-51 | every field becomes zero, the state of New, which summarizes no observations |
| Variance.Stats.Mean | welford.go:54-56 | the mean is the weighted mean of the values added, or 0 when there are none |
| Variance.Stats.VariancePopulation | welford.go:60-62 | s/sum is the weighted population variance of the values added |
| Variance.Stats.Variance | welford.go:66-68 | s/(sum-1) is the weighted sample variance of the values added, or 0 when there are none |
| Variance.Stats.NumDataValues | welford.go:83-85 | n is the number of adds modulo 2^64, whatever their weights |
| Variance.Stats.Clone | welford.go:88-96 | the clone is a fresh object with the same five fields, summarizing the same observations |
| Variance.Stats.Merge | welford.go:99-106 | the state becomes Combine(old this, old other) and summarizes this's observations followed by other's; only this changes, and merging a Stats into itself acts like merging a copy |
| Variance.Stats.ReadFrom | welford.go:109-139 | with fewer than 40 bytes available the call fails, reports 8 times the number of whole words read (0, 8, 16, 24 or 32) and leaves the fields unchanged; otherwise it consumes exactly 40 bytes, reports 40 and sets the fields to the decoded record |
| Variance.Stats.WriteTo | welford.go:142-162 | the sink receives the 40-byte encoding of the fields, or the part of it that fit; the count is 40, or 8 times the number of whole words written on failure; the Stats is not changed |
| Variance.RoundTrip | welford_test.go:114-134 | WriteTo into a sink with room for 40 bytes and ReadFrom of those bytes both report 40 and reproduce the five fields |
| Scenarios.AddAll | welford_test.go:15-20 | a run of Add calls follows a given trace of Push steps and appends one unit-weight observation per value |
| Scenarios.UnitStep | welford.go:35-42 | a unit-weight Push is characterised without division, which fixes each state of a worked trace |
| Scenarios.OnesThenZerosRun | welford_test.go:14-20 | adding 1, 1, 1, 0, 0, 0 passes through the listed exact states |
| Scenarios.SecondDataSetRun | welford_test.go:29-35 | adding 3, 6, 4, 5, 5, 4 passes through the listed exact states |
| Scenarios.ThirdDataSetRun | welford_test.go:44-49 | adding 13, 17, 18, 27, 28 passes through the listed exact states |
| Scenarios.OneTwoThreeRun | welford_test.go:117-120 | adding 1, 2, 3 passes through the listed exact states |
| Scenarios.StatsSimple | welford_test.go:11-57 | mean, Variance, VariancePopulation and NumDataValues are 0.5, 0.3, 0.25, 6, then 4.5, 1.1, 11/12, 6 after Clear, then 20.6, 43.3, 34.64, 5 after another Clear |
| Scenarios.DealByParity | welford_test.go:69-74 | one pass of the merge test's loop adds i to the total and to exactly one half, keeping all three summaries |
| Scenarios.AddByParity | welford_test.go:68-75 | after the loop the total's observations are, as a multiset, the union of the two halves', and the total has counted every add |
| Scenarios.StatsMerge | welford_test.go:59-86 | the merged halves report the same mean and variances as the total, before and after one more add to each |
| Scenarios.StatsNumDataValues | welford_test.go:88-97 | num unit adds leave NumDataValues at num modulo 2^64 |
| Scenarios.StatsWriteToReadFrom | welford_test.go:114-134 | 1, 2, 3 added, written and read back: both calls report 40 and the copy's fields equal the original's (3, 2, 3, 3, 2) |
| Scenarios.CloneThenAdd | welford.go:88-96 | an add to a clone leaves the original unchanged, and the clone moves on from the original's state |

## Left out

- Float64 arithmetic is modelled as exact `real` arithmetic. Rounding, NaN and infinities are not modelled. So the model does not capture the tiny negative variances that rounding can produce, nor NaN and Inf propagating from the inputs.
- Variance.Stats.AddWeighted: requires `sum + w != 0`. When the new total weight is zero, Go divides by zero and mean and s become NaN or Inf, which reals cannot express.
- Variance.Stats.Add: requires `sum + 1 != 0`, for the same reason.
- Variance.Stats.Merge: requires `sum + other.sum != 0`. Merging two accumulators of total weight zero, such as two new ones, divides 0 by 0 in Go and makes mean and s NaN. Reals cannot express that.
- Variance.Stats.VariancePopulation: requires `sum != 0`. Go returns NaN or Inf there.
- Variance.Stats.Variance: requires `sum != 1`. Go returns NaN or Inf there, for instance after a single unit-weight add.
- Welford.Push and Welford.Combine carry the same nonzero-divisor preconditions as AddWeighted and Merge.
- StandardDeviation and StandardDeviationPopulation (welford.go:70-80) are square roots of the two variances through math.Sqrt, a float library routine. They are not modelled.
- math.Float64bits and math.Float64frombits are not modelled. WriteTo and ReadFrom take them as function parameters, and the round trip assumes that the conversion back inverts the bit pattern of each float field that was written.
- The `io.Writer` and `io.Reader` are reduced to one sink and one source. The sink accepts a fixed number of bytes and keeps a partial write. The source drains on a short read. Errors are a boolean, not error values, and the `int64` count is an unbounded integer. Other reader and writer behaviours are not modelled.
- Variance.Stats.ReadFrom: takes a ghost `encoded` parameter naming the observations the bytes stand for, so that the ghost bookkeeping can be restored. The bytes themselves carry no observations.
- The `uint` count is modelled as 64 bits wide. On a 32-bit platform `n` would wrap at 2^32, and `uint(n)` in ReadFrom would truncate. Neither is modelled.
- The test with one million random normal floats (welford_test.go:99-112) checks a statistical property of float behaviour. It is not modelled.
- In StatsNumDataValues the random count becomes a parameter.
- The printing example (welford_example_test.go:9-38) is not modelled. Its printed values are the first data set of StatsSimple.
- Concurrency is not modelled. The type has no synchronisation and claims none.
