/** Welford's online algorithm for the weighted mean and variance, on values.

    `Moments` holds the five fields of a Stats; `Push` is the update that
    AddWeighted performs and `Combine` the update that Merge performs. A state
    `Summarizes` a sequence of weighted observations when its fields are the
    aggregates of that sequence computed directly: the count of observations,
    the total weight, the total squared weight, the weighted mean and the
    weighted sum of squared deviations from that mean. The lemmas show that
    both updates keep that relation, so the recurrence computes exactly what it
    is meant to. Arithmetic is exact (`real`); the source's float64 rounding is
    not modelled. */
module Welford {
  import opened Words

  /** One observation: a value x added with weight w. */
  datatype Obs = Obs(x: real, w: real)

  /** The five fields of a Stats: the number of adds, the running weighted
      mean, the total weight, the total squared weight and the weighted sum of
      squared deviations from the mean. */
  datatype Moments = Moments(n: u64, mean: real, sum: real, sum2: real, s: real)

  /** The state of a new or cleared Stats. */
  const Zero := Moments(0, 0.0, 0.0, 0.0, 0.0)

  // ---------------------------------------------------------------------------
  // Direct aggregates of a sequence of observations

  /** The per-observation quantities the aggregates add up. */
  datatype Term = Weight | SquaredWeight | WeightedValue | WeightedSquare | Deviation(c: real)

  /** The quantity t of one observation. */
  function Value(t: Term, o: Obs): (v: real)
  {
    match t
    case Weight => o.w
    case SquaredWeight => o.w * o.w
    case WeightedValue => o.w * o.x
    case WeightedSquare => o.w * o.x * o.x
    case Deviation(c) => o.w * (o.x - c) * (o.x - c)
  }

  /** The sum of the quantity t over obs. */
  function Sum(obs: seq<Obs>, t: Term): (r: real)
  {
    if obs == [] then 0.0 else Sum(obs[..|obs| - 1], t) + Value(t, obs[|obs| - 1])
  }

  /** The sum of the weights. */
  function TotalWeight(obs: seq<Obs>): (r: real)
  {
    Sum(obs, Weight)
  }

  /** The sum of the squared weights. */
  function TotalSquaredWeight(obs: seq<Obs>): (r: real)
  {
    Sum(obs, SquaredWeight)
  }

  /** The sum of weight times value. */
  function WeightedTotal(obs: seq<Obs>): (r: real)
  {
    Sum(obs, WeightedValue)
  }

  /** The sum of weight times squared value. */
  function WeightedSquares(obs: seq<Obs>): (r: real)
  {
    Sum(obs, WeightedSquare)
  }

  /** The weighted sum of squared deviations of the values from c. */
  function SquaredDeviation(obs: seq<Obs>, c: real): (r: real)
  {
    Sum(obs, Deviation(c))
  }

  /** The weighted mean of the values. */
  function WeightedMean(obs: seq<Obs>): (r: real)
    requires TotalWeight(obs) != 0.0
  {
    WeightedTotal(obs) / TotalWeight(obs)
  }

  /** The weighted population variance: squared deviation from the mean over the total weight. */
  function PopulationVariance(obs: seq<Obs>): (r: real)
    requires TotalWeight(obs) != 0.0
  {
    SquaredDeviation(obs, WeightedMean(obs)) / TotalWeight(obs)
  }

  /** The weighted sample variance: squared deviation from the mean over the total weight less one. */
  function SampleVariance(obs: seq<Obs>): (r: real)
    requires TotalWeight(obs) != 0.0 && TotalWeight(obs) != 1.0
  {
    SquaredDeviation(obs, WeightedMean(obs)) / (TotalWeight(obs) - 1.0)
  }

  /** m holds exactly the aggregates of obs. An empty sequence is summarized
      only by Zero; a nonempty one only by a state whose total weight is not
      zero, whose mean is the weighted mean and whose s is the weighted
      squared deviation from that mean. */
  ghost predicate Summarizes(m: Moments, obs: seq<Obs>)
  {
    && m.n == Wrap(|obs|)
    && m.sum == TotalWeight(obs)
    && m.sum2 == TotalSquaredWeight(obs)
    && if obs == [] then m.mean == 0.0 && m.s == 0.0
       else m.sum != 0.0 && m.mean == WeightedMean(obs) && m.s == SquaredDeviation(obs, m.mean)
  }

  // ---------------------------------------------------------------------------
  // The updates

  /** The effect of AddWeighted(x, w): the count goes up by one, the total
      weight by w and the squared weight by w*w; the mean moves towards x by
      w over the new total weight, and s grows by w times the deviation of x
      from the old mean times its deviation from the new mean. */
  function Push(m: Moments, x: real, w: real): (r: Moments)
    requires m.sum + w != 0.0
  {
    var sum := m.sum + w;
    var mean := m.mean + (w / sum) * (x - m.mean);
    Moments(AddU64(m.n, 1), mean, sum, m.sum2 + w * w, m.s + w * (x - m.mean) * (x - mean))
  }

  /** The effect of a.Merge(b): counts and weight totals add up; the mean
      moves towards b's mean by b's share of the combined weight, and s grows
      by b's s plus b's weight times the deviation of b's mean from the old and
      from the new mean. */
  function Combine(a: Moments, b: Moments): (r: Moments)
    requires a.sum + b.sum != 0.0
  {
    var sum := a.sum + b.sum;
    var mean := a.mean + (b.sum / sum) * (b.mean - a.mean);
    Moments(AddU64(a.n, b.n), mean, sum, a.sum2 + b.sum2,
            a.s + b.s + b.sum * (b.mean - a.mean) * (b.mean - mean))
  }

  /** No prefix of obs brings the total weight of m to zero, so each of the
      adds that feed obs to m divides by a nonzero weight. */
  ghost predicate Feedable(m: Moments, obs: seq<Obs>)
  {
    forall k :: 0 < k <= |obs| ==> m.sum + TotalWeight(obs[..k]) != 0.0
  }

  /** A prefix of a feedable sequence is feedable. */
  lemma FeedablePrefix(m: Moments, obs: seq<Obs>, k: nat)
    requires Feedable(m, obs) && k <= |obs|
    ensures Feedable(m, obs[..k])
  {
    forall j | 0 < j <= k ensures m.sum + TotalWeight(obs[..k][..j]) != 0.0 {
      assert obs[..k][..j] == obs[..j];
    }
  }

  /** The state after feeding obs to m with one AddWeighted per observation, in order. */
  function PushAll(m: Moments, obs: seq<Obs>): (r: Moments)
    requires Feedable(m, obs)
    ensures r.sum == m.sum + TotalWeight(obs)
    decreases |obs|
  {
    if obs == [] then m
    else
      var k := |obs| - 1;
      FeedablePrefix(m, obs, k);
      assert obs[..|obs|] == obs;
      Push(PushAll(m, obs[..k]), obs[k].x, obs[k].w)
  }

  // ---------------------------------------------------------------------------
  // Sums

  /** A sum over a concatenation is the sum of the sums. */
  lemma {:induction false} SumAppend(a: seq<Obs>, b: seq<Obs>, t: Term)
    ensures Sum(a + b, t) == Sum(a, t) + Sum(b, t)
    decreases |b|
  {
    if b == [] {
      assert a + b == a;
    } else {
      var k := |b| - 1;
      SumAppend(a, b[..k], t);
      assert (a + b)[..|a + b| - 1] == a + b[..k];
      assert (a + b)[|a + b| - 1] == b[k];
    }
  }

  /** Taking out the observation at position i takes one copy of it out of the multiset. */
  lemma RemoveAt(b: seq<Obs>, i: nat)
    requires i < |b|
    ensures multiset(b[..i] + b[i + 1..]) == multiset(b) - multiset{b[i]}
  {
    assert b == b[..i] + [b[i]] + b[i + 1..];
  }

  /** Taking out the observation at position i takes its quantity out of a sum. */
  lemma SumRemove(b: seq<Obs>, i: nat, t: Term)
    requires i < |b|
    ensures Sum(b, t) == Sum(b[..i] + b[i + 1..], t) + Value(t, b[i])
  {
    assert b == b[..i] + [b[i]] + b[i + 1..];
    SumAppend(b[..i] + [b[i]], b[i + 1..], t);
    SumSnoc(b[..i], b[i], t);
    SumAppend(b[..i], b[i + 1..], t);
  }

  /** A sum does not depend on the order of the observations. */
  lemma {:induction false} SumPermutation(a: seq<Obs>, b: seq<Obs>, t: Term)
    requires multiset(a) == multiset(b)
    ensures Sum(a, t) == Sum(b, t)
    decreases |a|
  {
    if a != [] {
      var k := |a| - 1;
      assert a[k] in multiset(b) by { assert a[k] in multiset(a); }
      var i :| 0 <= i < |b| && b[i] == a[k];
      RemoveAt(a, k);
      RemoveAt(b, i);
      assert a[..k] + a[k + 1..] == a[..k];
      SumPermutation(a[..k], b[..i] + b[i + 1..], t);
      SumRemove(a, k, t);
      SumRemove(b, i, t);
    }
  }

  /** Appending one observation adds its quantity to a sum. */
  lemma SumSnoc(obs: seq<Obs>, o: Obs, t: Term)
    ensures Sum(obs + [o], t) == Sum(obs, t) + Value(t, o)
  {
    assert (obs + [o])[..|obs|] == obs;
  }

  /** Each aggregate of a concatenation is the sum of the aggregates of the parts. */
  lemma AggregatesAppend(a: seq<Obs>, b: seq<Obs>)
    ensures TotalWeight(a + b) == TotalWeight(a) + TotalWeight(b)
    ensures TotalSquaredWeight(a + b) == TotalSquaredWeight(a) + TotalSquaredWeight(b)
    ensures WeightedTotal(a + b) == WeightedTotal(a) + WeightedTotal(b)
    ensures WeightedSquares(a + b) == WeightedSquares(a) + WeightedSquares(b)
  {
    SumAppend(a, b, Weight);
    SumAppend(a, b, SquaredWeight);
    SumAppend(a, b, WeightedValue);
    SumAppend(a, b, WeightedSquare);
  }

  /** Reordering the observations changes none of the aggregates. */
  lemma AggregatesPermutation(a: seq<Obs>, b: seq<Obs>)
    requires multiset(a) == multiset(b)
    ensures |a| == |b|
    ensures TotalWeight(a) == TotalWeight(b)
    ensures TotalSquaredWeight(a) == TotalSquaredWeight(b)
    ensures WeightedTotal(a) == WeightedTotal(b)
    ensures forall c :: SquaredDeviation(a, c) == SquaredDeviation(b, c)
  {
    assert |a| == |multiset(a)| == |multiset(b)| == |b|;
    SumPermutation(a, b, Weight);
    SumPermutation(a, b, SquaredWeight);
    SumPermutation(a, b, WeightedValue);
    forall c ensures SquaredDeviation(a, c) == SquaredDeviation(b, c) {
      SumPermutation(a, b, Deviation(c));
    }
  }

  /** The weighted squared deviation from c, expanded:
      sum of w*x*x, less 2c times sum of w*x, plus c*c times the total weight. */
  lemma {:induction false} DeviationExpansion(obs: seq<Obs>, c: real)
    ensures SquaredDeviation(obs, c)
         == WeightedSquares(obs) - 2.0 * c * WeightedTotal(obs) + c * c * TotalWeight(obs)
    decreases |obs|
  {
    if obs != [] {
      var k := |obs| - 1;
      DeviationExpansion(obs[..k], c);
      var o := obs[k];
      assert o.w * (o.x - c) * (o.x - c) == o.w * o.x * o.x - 2.0 * c * (o.w * o.x) + c * c * o.w;
    }
  }

  // ---------------------------------------------------------------------------
  // The recurrence is correct

  /** A state m is balanced against the numbers of a sequence of k
      observations with total weight W, total squared weight W2, weighted
      total T and weighted squares Q: the polynomial form of a summary, in
      which mean times total weight is the weighted total and s is the
      weighted squares less mean times the weighted total. */
  ghost predicate BalancedWith(m: Moments, k: nat, W: real, W2: real, T: real, Q: real)
  {
    && m.n == Wrap(k)
    && m.sum == W
    && m.sum2 == W2
    && m.mean * m.sum == T
    && m.s == Q - m.mean * T
    && (k == 0 ==> m.mean == 0.0)
    && (k != 0 ==> m.sum != 0.0)
  }

  /** Summarizes, in the polynomial form the recurrences are checked against. */
  ghost predicate Balanced(m: Moments, obs: seq<Obs>)
  {
    BalancedWith(m, |obs|, TotalWeight(obs), TotalSquaredWeight(obs), WeightedTotal(obs), WeightedSquares(obs))
  }

  /** The two forms of a summary agree on numbers: S is the state's total
      weight, equal to the observations' W, and D is the squared deviation
      from mean, written out through W, T and Q. */
  lemma SummaryForms(k: nat, S: real, W: real, T: real, Q: real, D: real, mean: real, s: real)
    requires S == W
    requires D == Q - 2.0 * mean * T + mean * mean * W
    requires k == 0 ==> W == 0.0 && T == 0.0 && Q == 0.0
    ensures (if k == 0 then mean == 0.0 && s == 0.0 else S != 0.0 && mean == T / W && s == D)
        <==> (mean * S == T && s == Q - mean * T && (k == 0 ==> mean == 0.0) && (k != 0 ==> S != 0.0))
  {
  }

  /** A state summarizes a sequence exactly when it is balanced against it. */
  lemma SummarizesIsBalanced(m: Moments, obs: seq<Obs>)
    ensures Summarizes(m, obs) <==> Balanced(m, obs)
  {
    if m.sum == TotalWeight(obs) {
      DeviationExpansion(obs, m.mean);
      SummaryForms(|obs|, m.sum, TotalWeight(obs), WeightedTotal(obs), WeightedSquares(obs),
                   SquaredDeviation(obs, m.mean), m.mean, m.s);
    }
  }

  /** The algebra behind one step of the recurrence. T and Q are the
      weighted total and weighted squares before the step, held by m as
      mean * sum == T and s == Q - mean * T; T' and Q' are the same quantities
      after adding (x, w), and the new state holds them in the same way. */
  lemma PushAlgebra(m: Moments, T: real, Q: real, x: real, w: real, T': real, Q': real)
    requires m.mean * m.sum == T && m.s == Q - m.mean * T
    requires m.sum + w != 0.0 && T' == T + w * x && Q' == Q + w * x * x
    ensures Push(m, x, w).mean * Push(m, x, w).sum == T'
    ensures Push(m, x, w).s == Q' - Push(m, x, w).mean * T'
  {
  }

  /** One step of the recurrence on numbers: adding (x, w) to a state balanced
      against k observations gives one balanced against k + 1 observations
      whose totals have each grown by the new observation's share. */
  lemma PushBalancedWith(m: Moments, k: nat, W: real, W2: real, T: real, Q: real, x: real, w: real,
                         k': nat, W': real, W2': real, T': real, Q': real)
    requires BalancedWith(m, k, W, W2, T, Q)
    requires k' == k + 1 && W' == W + w && W2' == W2 + w * w && T' == T + w * x && Q' == Q + w * x * x
    requires W' != 0.0
    ensures BalancedWith(Push(m, x, w), k', W', W2', T', Q')
  {
    var p := Push(m, x, w);
    CountsAdd(m.n, k, 1, 1);
    PushAlgebra(m, T, Q, x, w, T', Q');
  }

  /** One step of the recurrence, in polynomial form. */
  lemma PushBalanced(m: Moments, obs: seq<Obs>, x: real, w: real)
    requires Balanced(m, obs)
    requires m.sum + w != 0.0
    ensures Balanced(Push(m, x, w), obs + [Obs(x, w)])
  {
    var o := Obs(x, w);
    SumSnoc(obs, o, Weight);
    SumSnoc(obs, o, SquaredWeight);
    SumSnoc(obs, o, WeightedValue);
    SumSnoc(obs, o, WeightedSquare);
    var obs' := obs + [o];
    PushBalancedWith(m, |obs|, TotalWeight(obs), TotalSquaredWeight(obs), WeightedTotal(obs), WeightedSquares(obs), x, w,
                     |obs'|, TotalWeight(obs'), TotalSquaredWeight(obs'), WeightedTotal(obs'), WeightedSquares(obs'));
  }

  /** The recurrence is correct: if m summarizes obs and the new total weight
      is not zero, the state after AddWeighted(x, w) summarizes obs followed by
      (x, w). In particular its mean is the weighted mean of all values added
      and its s the weighted squared deviation from that mean. */
  lemma PushSummarizes(m: Moments, obs: seq<Obs>, x: real, w: real)
    requires Summarizes(m, obs)
    requires m.sum + w != 0.0
    ensures Summarizes(Push(m, x, w), obs + [Obs(x, w)])
  {
    SummarizesIsBalanced(m, obs);
    PushBalanced(m, obs, x, w);
    SummarizesIsBalanced(Push(m, x, w), obs + [Obs(x, w)]);
  }

  /** The algebra behind the merge rule. Wa, Ta, Qa and Wb, Tb, Qb are the
      total weight, weighted total and weighted squares of either side, ma, sa
      and mb, sb their means and squared deviations; W, T, Q, mu and s are the
      same quantities for the merged state. */
  lemma CombineAlgebra(Wa: real, Ta: real, Qa: real, ma: real, sa: real,
                       Wb: real, Tb: real, Qb: real, mb: real, sb: real,
                       W: real, T: real, Q: real, mu: real, s: real)
    requires ma * Wa == Ta && sa == Qa - ma * Ta
    requires mb * Wb == Tb && sb == Qb - mb * Tb
    requires W == Wa + Wb && W != 0.0 && T == Ta + Tb && Q == Qa + Qb
    requires mu == ma + (Wb / W) * (mb - ma)
    requires s == sa + sb + Wb * (mb - ma) * (mb - mu)
    ensures mu * W == T && s == Q - mu * T
  {
  }

  /** The merge rule on numbers: merging states balanced against two groups of
      observations gives one balanced against both groups together, whose
      count and totals are the sums of the two groups'. */
  lemma CombineBalancedWith(a: Moments, ka: nat, Wa: real, W2a: real, Ta: real, Qa: real,
                            b: Moments, kb: nat, Wb: real, W2b: real, Tb: real, Qb: real,
                            k: nat, W: real, W2: real, T: real, Q: real)
    requires BalancedWith(a, ka, Wa, W2a, Ta, Qa) && BalancedWith(b, kb, Wb, W2b, Tb, Qb)
    requires k == ka + kb && W == Wa + Wb && W2 == W2a + W2b && T == Ta + Tb && Q == Qa + Qb
    requires W != 0.0
    ensures BalancedWith(Combine(a, b), k, W, W2, T, Q)
  {
    var c := Combine(a, b);
    CountsAdd(a.n, ka, b.n, kb);
    CombineAlgebra(a.sum, Ta, Qa, a.mean, a.s, b.sum, Tb, Qb, b.mean, b.s, c.sum, T, Q, c.mean, c.s);
  }

  /** The merge rule, in polynomial form. */
  lemma CombineBalanced(a: Moments, oa: seq<Obs>, b: Moments, ob: seq<Obs>)
    requires Balanced(a, oa) && Balanced(b, ob)
    requires a.sum + b.sum != 0.0
    ensures Balanced(Combine(a, b), oa + ob)
  {
    var o := oa + ob;
    AggregatesAppend(oa, ob);
    CombineBalancedWith(a, |oa|, TotalWeight(oa), TotalSquaredWeight(oa), WeightedTotal(oa), WeightedSquares(oa),
                        b, |ob|, TotalWeight(ob), TotalSquaredWeight(ob), WeightedTotal(ob), WeightedSquares(ob),
                        |o|, TotalWeight(o), TotalSquaredWeight(o), WeightedTotal(o), WeightedSquares(o));
  }

  /** The merge rule is correct: if a summarizes oa, b summarizes ob and their
      total weights do not cancel, a.Merge(b) summarizes oa followed by ob. */
  lemma CombineSummarizes(a: Moments, oa: seq<Obs>, b: Moments, ob: seq<Obs>)
    requires Summarizes(a, oa) && Summarizes(b, ob)
    requires a.sum + b.sum != 0.0
    ensures Summarizes(Combine(a, b), oa + ob)
  {
    SummarizesIsBalanced(a, oa);
    SummarizesIsBalanced(b, ob);
    CombineBalanced(a, oa, b, ob);
    SummarizesIsBalanced(Combine(a, b), oa + ob);
  }

  /** A sequence of observations determines the state that summarizes it. */
  lemma SummaryUnique(m1: Moments, m2: Moments, obs: seq<Obs>)
    requires Summarizes(m1, obs) && Summarizes(m2, obs)
    ensures m1 == m2
  {
  }

  /** Only the multiset of observations matters, not their order. */
  lemma SummarizesPermutation(m: Moments, o1: seq<Obs>, o2: seq<Obs>)
    requires Summarizes(m, o1)
    requires multiset(o1) == multiset(o2)
    ensures Summarizes(m, o2)
  {
    AggregatesPermutation(o1, o2);
    if o2 == [] {
      assert |o1| == 0;
    }
  }

  /** Feeding obs one add at a time keeps the summary. */
  lemma {:induction false} PushAllSummarizes(m: Moments, prior: seq<Obs>, obs: seq<Obs>)
    requires Summarizes(m, prior)
    requires Feedable(m, obs)
    ensures Summarizes(PushAll(m, obs), prior + obs)
    decreases |obs|
  {
    if obs == [] {
      assert prior + obs == prior;
    } else {
      var k := |obs| - 1;
      FeedablePrefix(m, obs, k);
      PushAllSummarizes(m, prior, obs[..k]);
      var before := PushAll(m, obs[..k]);
      var o := obs[k];
      assert obs[..k + 1] == obs;
      assert m.sum + TotalWeight(obs[..k + 1]) != 0.0;
      assert TotalWeight(obs) == TotalWeight(obs[..k]) + o.w;
      assert PushAll(m, obs) == Push(before, o.x, o.w);
      PushSummarizes(before, prior + obs[..k], o.x, o.w);
      assert prior + obs[..k] + [Obs(o.x, o.w)] == prior + obs;
    }
  }

  // ---------------------------------------------------------------------------
  // Properties of the merge

  /** Merging b into a gives exactly the state that adding b's observations to
      a one at a time would give. */
  lemma MergeEqualsSequentialAdds(a: Moments, oa: seq<Obs>, b: Moments, ob: seq<Obs>)
    requires Summarizes(a, oa) && Summarizes(b, ob)
    requires a.sum + b.sum != 0.0
    requires Feedable(a, ob)
    ensures Combine(a, b) == PushAll(a, ob)
  {
    CombineSummarizes(a, oa, b, ob);
    PushAllSummarizes(a, oa, ob);
    SummaryUnique(Combine(a, b), PushAll(a, ob), oa + ob);
  }

  /** However a sequence of observations is split between two accumulators,
      merging them gives the state of one accumulator that saw all of them. */
  lemma MergeOfPartition(a: Moments, oa: seq<Obs>, b: Moments, ob: seq<Obs>, t: Moments, obs: seq<Obs>)
    requires Summarizes(a, oa) && Summarizes(b, ob) && Summarizes(t, obs)
    requires multiset(obs) == multiset(oa) + multiset(ob)
    requires a.sum + b.sum != 0.0
    ensures Combine(a, b) == t
  {
    CombineSummarizes(a, oa, b, ob);
    SummarizesPermutation(Combine(a, b), oa + ob, obs);
    SummaryUnique(Combine(a, b), t, obs);
  }

  /** The weighted total a state stands for: mean times total weight. */
  function WeightedTotalOf(m: Moments): (t: real)
  {
    m.mean * m.sum
  }

  /** The weighted squares a state stands for: s plus mean times the weighted total. */
  function WeightedSquaresOf(m: Moments): (q: real)
  {
    m.s + m.mean * WeightedTotalOf(m)
  }

  /** For any two states, not only summarizing ones, the merge rule adds up
      the total weights, the weighted totals and the weighted squares they
      stand for. */
  lemma CombineAdds(a: Moments, b: Moments)
    requires a.sum + b.sum != 0.0
    ensures Combine(a, b).sum == a.sum + b.sum
    ensures WeightedTotalOf(Combine(a, b)) == WeightedTotalOf(a) + WeightedTotalOf(b)
    ensures WeightedSquaresOf(Combine(a, b)) == WeightedSquaresOf(a) + WeightedSquaresOf(b)
  {
    var c := Combine(a, b);
    CombineAlgebra(a.sum, WeightedTotalOf(a), WeightedSquaresOf(a), a.mean, a.s,
                   b.sum, WeightedTotalOf(b), WeightedSquaresOf(b), b.mean, b.s,
                   c.sum, WeightedTotalOf(a) + WeightedTotalOf(b), WeightedSquaresOf(a) + WeightedSquaresOf(b), c.mean, c.s);
  }

  /** A nonzero total weight, a weighted total and weighted squares fix the mean and s. */
  lemma MeanAndSDetermined(x: Moments, y: Moments)
    requires x.sum == y.sum && x.sum != 0.0
    requires WeightedTotalOf(x) == WeightedTotalOf(y) && WeightedSquaresOf(x) == WeightedSquaresOf(y)
    ensures x.mean == y.mean && x.s == y.s
  {
    assert x.mean == WeightedTotalOf(x) / x.sum && y.mean == WeightedTotalOf(y) / y.sum;
  }

  /** Merging is commutative on every pair of states whose weights do not cancel. */
  lemma CombineCommutative(a: Moments, b: Moments)
    requires a.sum + b.sum != 0.0
    ensures Combine(a, b) == Combine(b, a)
  {
    CombineAdds(a, b);
    CombineAdds(b, a);
    MeanAndSDetermined(Combine(a, b), Combine(b, a));
    AddU64Commutative(a.n, b.n);
  }

  /** Merging is associative on every triple of states whose partial weights do not cancel. */
  lemma CombineAssociative(a: Moments, b: Moments, c: Moments)
    requires a.sum + b.sum != 0.0 && b.sum + c.sum != 0.0 && a.sum + b.sum + c.sum != 0.0
    ensures Combine(Combine(a, b), c) == Combine(a, Combine(b, c))
  {
    var ab, bc := Combine(a, b), Combine(b, c);
    CombineAdds(a, b);
    CombineAdds(ab, c);
    CombineAdds(b, c);
    CombineAdds(a, bc);
    MeanAndSDetermined(Combine(ab, c), Combine(a, bc));
    AddU64Associative(a.n, b.n, c.n);
  }

  /** Merging an empty accumulator into one with nonzero weight changes no field,
      and so does merging any accumulator with nonzero weight into an empty one. */
  lemma MergeEmptyIsNoOp(m: Moments)
    requires m.sum != 0.0
    ensures Combine(m, Zero) == m
    ensures Combine(Zero, m) == m
  {
  }

  // ---------------------------------------------------------------------------
  // Weights

  /** Adding x once with weight 2 gives the same mean, total weight and s as
      adding it twice with weight 1 (only the count and the squared weight differ). */
  lemma DoubleWeightIsTwoAdds(m: Moments, x: real)
    requires m.sum + 1.0 != 0.0 && m.sum + 2.0 != 0.0
    ensures var once, twice := Push(m, x, 2.0), Push(Push(m, x, 1.0), x, 1.0);
            once.mean == twice.mean && once.sum == twice.sum && once.s == twice.s
  {
  }

  // ---------------------------------------------------------------------------
  // Variances

  /** With nonnegative weights, the weighted squared deviation is nonnegative. */
  lemma {:induction false} SquaredDeviationNonNegative(obs: seq<Obs>, c: real)
    requires forall o | o in obs :: o.w >= 0.0
    ensures SquaredDeviation(obs, c) >= 0.0
    ensures TotalWeight(obs) >= 0.0
    decreases |obs|
  {
    if obs != [] {
      var k := |obs| - 1;
      SquaredDeviationNonNegative(obs[..k], c);
      var o := obs[k];
      assert o in obs;
      var sq := (o.x - c) * (o.x - c);
      assert sq >= 0.0;
      assert o.w * sq >= 0.0;
      assert o.w * (o.x - c) * (o.x - c) == o.w * sq;
    }
  }

  /** With nonnegative weights, the population variance is nonnegative. */
  lemma PopulationVarianceNonNegative(obs: seq<Obs>)
    requires forall o | o in obs :: o.w >= 0.0
    requires TotalWeight(obs) != 0.0
    ensures PopulationVariance(obs) >= 0.0
  {
    SquaredDeviationNonNegative(obs, WeightedMean(obs));
  }
}
