/** The package's tests, as clients of the Stats class whose outcomes are
    proved rather than run. Values are exact; the float64 results the tests
    compare against are the rounded images of the values stated here. */
module Scenarios {
  import opened Words
  import opened Welford
  import opened Variance

  /** What the tests read back from a Stats. */
  datatype Report = Report(mean: real, variance: real, populationVariance: real, count: u64)

  /** trace lists the states a Stats passes through while the values xs are
      added to it one by one with Add: each state is Push of the one before. */
  ghost predicate IsRun(trace: seq<Moments>, xs: seq<real>)
  {
    && |trace| == |xs| + 1
    && forall i :: 0 <= i < |xs| ==> trace[i].sum + 1.0 != 0.0 && Push(trace[i], xs[i], 1.0) == trace[i + 1]
  }

  /** The run of Add calls a test makes, one per value of xs, in order. */
  method AddAll(stats: Stats, xs: seq<real>, ghost trace: seq<Moments>)
    requires IsRun(trace, xs) && stats.State() == trace[0]
    modifies stats
    ensures stats.State() == trace[|xs|]
    ensures stats.Observations == old(stats.Observations) + seq(|xs|, i requires 0 <= i < |xs| => Obs(xs[i], 1.0))
  {
    for i := 0 to |xs|
      invariant stats.State() == trace[i]
      invariant stats.Observations == old(stats.Observations) + seq(i, k requires 0 <= k < i => Obs(xs[k], 1.0))
    {
      stats.Add(xs[i]);
    }
  }

  /** One unit-weight step of Welford's recurrence, stated without division:
      m' is Push(m, x, 1) when its total weight is one more than m's, its mean
      has moved from m's by (x - mean) over that weight, and its s has grown
      by the deviation of x from the old mean times that from the new. */
  lemma UnitStep(m: Moments, x: real, m': Moments)
    requires m'.sum == m.sum + 1.0 != 0.0
    requires m'.n == AddU64(m.n, 1) && m'.sum2 == m.sum2 + 1.0
    requires (m'.mean - m.mean) * m'.sum == x - m.mean
    requires m'.s == m.s + (x - m.mean) * (x - m'.mean)
    ensures Push(m, x, 1.0) == m'
  {
  }

  const OnesThenZeros: seq<real> := [1.0, 1.0, 1.0, 0.0, 0.0, 0.0]

  /** The exact states after each add of OnesThenZeros. */
  const OnesThenZerosTrace: seq<Moments> := [
    Zero,
    Moments(1, 1.0, 1.0, 1.0, 0.0),
    Moments(2, 1.0, 2.0, 2.0, 0.0),
    Moments(3, 1.0, 3.0, 3.0, 0.0),
    Moments(4, 3.0 / 4.0, 4.0, 4.0, 3.0 / 4.0),
    Moments(5, 3.0 / 5.0, 5.0, 5.0, 6.0 / 5.0),
    Moments(6, 1.0 / 2.0, 6.0, 6.0, 3.0 / 2.0)]

  /** Adding OnesThenZeros one by one to a new Stats passes through exactly the states listed. */
  lemma OnesThenZerosRun()
    ensures IsRun(OnesThenZerosTrace, OnesThenZeros)
  {
    forall i | 0 <= i < |OnesThenZeros|
      ensures OnesThenZerosTrace[i].sum + 1.0 != 0.0
      ensures Push(OnesThenZerosTrace[i], OnesThenZeros[i], 1.0) == OnesThenZerosTrace[i + 1]
    {
      assert i in {0, 1, 2, 3, 4, 5};
      UnitStep(OnesThenZerosTrace[i], OnesThenZeros[i], OnesThenZerosTrace[i + 1]);
    }
  }

  const SecondDataSet: seq<real> := [3.0, 6.0, 4.0, 5.0, 5.0, 4.0]

  /** The exact states after each add of SecondDataSet. */
  const SecondDataSetTrace: seq<Moments> := [
    Zero,
    Moments(1, 3.0, 1.0, 1.0, 0.0),
    Moments(2, 9.0 / 2.0, 2.0, 2.0, 9.0 / 2.0),
    Moments(3, 13.0 / 3.0, 3.0, 3.0, 14.0 / 3.0),
    Moments(4, 9.0 / 2.0, 4.0, 4.0, 5.0),
    Moments(5, 23.0 / 5.0, 5.0, 5.0, 26.0 / 5.0),
    Moments(6, 9.0 / 2.0, 6.0, 6.0, 11.0 / 2.0)]

  /** Adding SecondDataSet one by one to a new Stats passes through exactly the states listed. */
  lemma SecondDataSetRun()
    ensures IsRun(SecondDataSetTrace, SecondDataSet)
  {
    forall i | 0 <= i < |SecondDataSet|
      ensures SecondDataSetTrace[i].sum + 1.0 != 0.0
      ensures Push(SecondDataSetTrace[i], SecondDataSet[i], 1.0) == SecondDataSetTrace[i + 1]
    {
      assert i in {0, 1, 2, 3, 4, 5};
      UnitStep(SecondDataSetTrace[i], SecondDataSet[i], SecondDataSetTrace[i + 1]);
    }
  }

  const ThirdDataSet: seq<real> := [13.0, 17.0, 18.0, 27.0, 28.0]

  /** The exact states after each add of ThirdDataSet. */
  const ThirdDataSetTrace: seq<Moments> := [
    Zero,
    Moments(1, 13.0, 1.0, 1.0, 0.0),
    Moments(2, 15.0, 2.0, 2.0, 8.0),
    Moments(3, 16.0, 3.0, 3.0, 14.0),
    Moments(4, 75.0 / 4.0, 4.0, 4.0, 419.0 / 4.0),
    Moments(5, 103.0 / 5.0, 5.0, 5.0, 866.0 / 5.0)]

  /** Adding ThirdDataSet one by one to a new Stats passes through exactly the states listed. */
  lemma ThirdDataSetRun()
    ensures IsRun(ThirdDataSetTrace, ThirdDataSet)
  {
    forall i | 0 <= i < |ThirdDataSet|
      ensures ThirdDataSetTrace[i].sum + 1.0 != 0.0
      ensures Push(ThirdDataSetTrace[i], ThirdDataSet[i], 1.0) == ThirdDataSetTrace[i + 1]
    {
      assert i in {0, 1, 2, 3, 4};
      UnitStep(ThirdDataSetTrace[i], ThirdDataSet[i], ThirdDataSetTrace[i + 1]);
    }
  }

  const OneTwoThree: seq<real> := [1.0, 2.0, 3.0]

  /** The exact states after each add of OneTwoThree. */
  const OneTwoThreeTrace: seq<Moments> := [
    Zero,
    Moments(1, 1.0, 1.0, 1.0, 0.0),
    Moments(2, 3.0 / 2.0, 2.0, 2.0, 1.0 / 2.0),
    Moments(3, 2.0, 3.0, 3.0, 2.0)]

  /** Adding OneTwoThree one by one to a new Stats passes through exactly the states listed. */
  lemma OneTwoThreeRun()
    ensures IsRun(OneTwoThreeTrace, OneTwoThree)
  {
    forall i | 0 <= i < |OneTwoThree|
      ensures OneTwoThreeTrace[i].sum + 1.0 != 0.0
      ensures Push(OneTwoThreeTrace[i], OneTwoThree[i], 1.0) == OneTwoThreeTrace[i + 1]
    {
      assert i in {0, 1, 2};
      UnitStep(OneTwoThreeTrace[i], OneTwoThree[i], OneTwoThreeTrace[i + 1]);
    }
  }

  /** Three small data sets, one after another on the same Stats with a Clear
      in between: 1,1,1,0,0,0 then 3,6,4,5,5,4 then 13,17,18,27,28. */
  method StatsSimple() returns (first: Report, second: Report, third: Report)
    ensures first == Report(0.5, 0.3, 0.25, 6)
    ensures second == Report(4.5, 1.1, 11.0 / 12.0, 6)
    ensures third == Report(20.6, 43.3, 34.64, 5)
  {
    var stats := new Stats.New();
    OnesThenZerosRun();
    AddAll(stats, OnesThenZeros, OnesThenZerosTrace);
    first := Report(stats.Mean(), stats.Variance(), stats.VariancePopulation(), stats.NumDataValues());

    stats.Clear();
    SecondDataSetRun();
    AddAll(stats, SecondDataSet, SecondDataSetTrace);
    second := Report(stats.Mean(), stats.Variance(), stats.VariancePopulation(), stats.NumDataValues());

    stats.Clear();
    ThirdDataSetRun();
    AddAll(stats, ThirdDataSet, ThirdDataSetTrace);
    third := Report(stats.Mean(), stats.Variance(), stats.VariancePopulation(), stats.NumDataValues());
  }

  /** Add(x) as the merge test's loop relies on it: a Stats that summarizes
      its observations still does, with x appended, one more add counted and
      one more unit of weight. */
  method AddCounted(stats: Stats, x: real)
    requires stats.Valid() && stats.sum >= 0.0
    modifies stats
    ensures stats.Valid() && stats.Observations == old(stats.Observations) + [Obs(x, 1.0)]
    ensures stats.sum == old(stats.sum) + 1.0 && stats.n == AddU64(old(stats.n), 1)
    ensures multiset(stats.Observations) == multiset(old(stats.Observations)) + multiset{Obs(x, 1.0)}
  {
    stats.Add(x);
  }

  /** One pass of the merge test's loop: x goes to half and then to total. */
  method Deal(total: Stats, half: Stats, x: real)
    requires total != half
    requires total.Valid() && half.Valid() && total.sum >= 0.0 && half.sum >= 0.0
    modifies total, half
    ensures total.Valid() && half.Valid()
    ensures multiset(total.Observations) == multiset(old(total.Observations)) + multiset{Obs(x, 1.0)}
    ensures multiset(half.Observations) == multiset(old(half.Observations)) + multiset{Obs(x, 1.0)}
    ensures total.sum == old(total.sum) + 1.0 && half.sum == old(half.sum) + 1.0
    ensures total.n == AddU64(old(total.n), 1)
  {
    AddCounted(half, x);
    AddCounted(total, x);
  }

  /** One pass of the merge test's loop: i goes to total, and to evens or odds
      by its parity. */
  method DealByParity(total: Stats, evens: Stats, odds: Stats, i: nat)
    requires total != evens && total != odds && evens != odds
    requires total.Valid() && evens.Valid() && odds.Valid()
    requires total.sum >= 0.0 && evens.sum >= 0.0 && odds.sum >= 0.0
    modifies total, evens, odds
    ensures total.Valid() && evens.Valid() && odds.Valid()
    ensures multiset(total.Observations) == multiset(old(total.Observations)) + multiset{Obs(i as real, 1.0)}
    ensures multiset(evens.Observations) + multiset(odds.Observations)
         == multiset(old(evens.Observations)) + multiset(old(odds.Observations)) + multiset{Obs(i as real, 1.0)}
    ensures total.sum >= 0.0 && evens.sum >= 0.0 && odds.sum >= 0.0
    ensures evens.sum + odds.sum == old(evens.sum) + old(odds.sum) + 1.0
    ensures total.n == AddU64(old(total.n), 1)
  {
    if i % 2 == 0 {
      Deal(total, evens, i as real);
    } else {
      Deal(total, odds, i as real);
    }
  }

  /** The loop of the merge test: each of 0 .. count-1 goes to total, and to
      evens or odds by its parity. Afterwards the three summarize their
      values, total holds exactly the values the other two hold between them,
      and total has counted every add. */
  method AddByParity(count: nat) returns (total: Stats, evens: Stats, odds: Stats)
    requires count < WORD_SPAN
    ensures fresh(total) && fresh(evens) && fresh(odds)
    ensures total != evens && total != odds && evens != odds
    ensures total.Valid() && evens.Valid() && odds.Valid()
    ensures multiset(total.Observations) == multiset(evens.Observations) + multiset(odds.Observations)
    ensures evens.sum + odds.sum == count as real && evens.sum >= 0.0 && odds.sum >= 0.0
    ensures total.n as int == count
  {
    total := new Stats.New();
    evens := new Stats.New();
    odds := new Stats.New();
    for i := 0 to count
      invariant total.Valid() && evens.Valid() && odds.Valid()
      invariant multiset(total.Observations) == multiset(evens.Observations) + multiset(odds.Observations)
      invariant total.sum >= 0.0 && evens.sum >= 0.0 && odds.sum >= 0.0
      invariant evens.sum + odds.sum == i as real
      invariant total.n as int == i
    {
      DealByParity(total, evens, odds, i);
    }
  }

  /** 0 .. 99 go to one Stats in full and, split by parity, to two more; the
      two halves merged equal the whole, and stay equal after one more add
      to each. */
  method StatsMerge() returns (merged: Report, total: Report, mergedThenAdd: Report, totalThenAdd: Report)
    ensures merged == total && mergedThenAdd == totalThenAdd
    ensures merged.count == 100 && mergedThenAdd.count == 101
  {
    var statsTotal, stats1, stats2 := AddByParity(100);
    ghost var whole, half1, half2 := statsTotal.State(), stats1.State(), stats2.State();
    MergeOfPartition(half1, stats1.Observations, half2, stats2.Observations, whole, statsTotal.Observations);
    stats1.Merge(stats2);
    merged := Report(stats1.Mean(), stats1.Variance(), stats1.VariancePopulation(), stats1.NumDataValues());
    total := Report(statsTotal.Mean(), statsTotal.Variance(), statsTotal.VariancePopulation(), statsTotal.NumDataValues());

    stats1.Add(5555.0);
    statsTotal.Add(5555.0);
    mergedThenAdd := Report(stats1.Mean(), stats1.Variance(), stats1.VariancePopulation(), stats1.NumDataValues());
    totalThenAdd := Report(statsTotal.Mean(), statsTotal.Variance(), statsTotal.VariancePopulation(), statsTotal.NumDataValues());
  }

  /** A clone and its original are separate objects: adding to the clone
      leaves the original as it was, and the clone moves on from the
      original's state. */
  method CloneThenAdd(stats: Stats, x: real) returns (copy: Stats)
    requires stats.sum + 1.0 != 0.0
    ensures fresh(copy)
    ensures stats.State() == old(stats.State()) && stats.Observations == old(stats.Observations)
    ensures copy.State() == Push(stats.State(), x, 1.0)
    ensures copy.Observations == stats.Observations + [Obs(x, 1.0)]
  {
    copy := stats.Clone();
    copy.Add(x);
  }

  /** num adds of 1 leave NumDataValues at num (modulo 2^64). */
  method StatsNumDataValues(num: nat) returns (count: u64)
    ensures count == Wrap(num)
  {
    var stats := new Stats.New();
    for i := 0 to num
      invariant stats.Valid() && |stats.Observations| == i
      invariant stats.sum == i as real
    {
      stats.Add(1.0);
    }
    count := stats.NumDataValues();
  }

  /** 1, 2, 3 are added, the Stats is written to a buffer and read back into a
      new Stats: both calls report 40 bytes and the copy equals the original.
      The only float values crossing the wire are 2 (mean and s) and 3 (sum
      and sum2), so the conversion need only invert those two. */
  method StatsWriteToReadFrom(float64bits: real -> u64, float64frombits: u64 -> real)
    returns (written: int, read: int, expected: Moments, actual: Moments)
    requires float64frombits(float64bits(2.0)) == 2.0
    requires float64frombits(float64bits(3.0)) == 3.0
    ensures written == 40 && read == 40
    ensures actual == expected == Moments(3, 2.0, 3.0, 3.0, 2.0)
  {
    var exp := new Stats.New();
    OneTwoThreeRun();
    AddAll(exp, OneTwoThree, OneTwoThreeTrace);
    assert exp.mean == 2.0 && exp.sum == 3.0 && exp.sum2 == 3.0 && exp.s == 2.0;
    expected := exp.State();
    var got := new Stats.New();
    written, read := RoundTrip(exp, got, float64bits, float64frombits);
    actual := got.State();
  }
}
