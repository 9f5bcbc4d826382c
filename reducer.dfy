/**
 * The raw metric-data response and the value its reduction puts in the
 * TOTAL list: a sum for the counts, a rounded mean for the averages.
 */
module Reducer {
  import opened Optional
  import opened Rounding
  import opened Metrics

  /** One observation; a missing `Value` counts as 0. */
  datatype Collection = Collection(value: Option<real>)

  /** One per-queue group of observations; either key may be absent. */
  datatype MetricResult = MetricResult(queue: Option<string>, collections: Option<seq<Collection>>)

  /** The metric-data response; `MetricResults` may be absent. */
  datatype Response = Response(metricResults: Option<seq<MetricResult>>)

  /** What one metric-data call produced: a response, or an exception. */
  datatype CallOutcome = Raised | Returned(response: Response)

  function GroupsOf(r: Response): seq<MetricResult> {
    r.metricResults.GetOr([])
  }

  function CollectionsOf(g: MetricResult): seq<Collection> {
    g.collections.GetOr([])
  }

  function ValueOf(c: Collection): real {
    c.value.GetOr(0.0)
  }

  /** The values of a group's collections, in order, missing ones as 0. */
  function Observations(cs: seq<Collection>): (obs: seq<real>)
    ensures |obs| == |cs|
    ensures forall j :: 0 <= j < |cs| ==> obs[j] == ValueOf(cs[j])
  {
    if cs == [] then [] else Observations(cs[..|cs| - 1]) + [ValueOf(cs[|cs| - 1])]
  }

  /** All observations of all groups, group after group. */
  function Flatten(gs: seq<MetricResult>): seq<real> {
    if gs == [] then [] else Flatten(gs[..|gs| - 1]) + Observations(CollectionsOf(gs[|gs| - 1]))
  }

  function Sum(xs: seq<real>): real {
    if xs == [] then 0.0 else Sum(xs[..|xs| - 1]) + xs[|xs| - 1]
  }

  /**
   * The value a non-empty response puts in TOTAL: the plain sum for the
   * counts; for the averages the mean of every observation across all groups,
   * rounded to two decimals, or 0 when there is no observation.
   */
  function ReducedTotal(m: MetricName, gs: seq<MetricResult>): real {
    var obs := Flatten(gs);
    if !IsAverage(m) then Sum(obs)
    else if |obs| > 0 then Round2(Sum(obs) / |obs| as real)
    else 0.0
  }

  /** A call outcome that makes the collector zero-fill every list. */
  predicate ZeroFills(outcome: CallOutcome) {
    outcome.Raised? || |GroupsOf(outcome.response)| == 0
  }

  /** The value one metric-data call leaves in the TOTAL list. */
  function TotalValue(m: MetricName, outcome: CallOutcome): real {
    if ZeroFills(outcome) then 0.0 else ReducedTotal(m, GroupsOf(outcome.response))
  }

  lemma {:induction false} SumAppend(a: seq<real>, b: seq<real>)
    ensures Sum(a + b) == Sum(a) + Sum(b)
  {
    if b != [] {
      assert (a + b)[..|a + b| - 1] == a + b[..|b| - 1];
      SumAppend(a, b[..|b| - 1]);
    } else {
      assert a + b == a;
    }
  }

  lemma {:induction false} FlattenAppend(g1: seq<MetricResult>, g2: seq<MetricResult>)
    ensures Flatten(g1 + g2) == Flatten(g1) + Flatten(g2)
  {
    if g2 != [] {
      assert (g1 + g2)[..|g1 + g2| - 1] == g1 + g2[..|g2| - 1];
      FlattenAppend(g1, g2[..|g2| - 1]);
    } else {
      assert g1 + g2 == g1;
    }
  }

  lemma SumSwap(a: seq<real>, b: seq<real>, c: seq<real>, d: seq<real>)
    ensures Sum(a + b + c + d) == Sum(a + c + b + d)
  {
    SumAppend(a, b);
    SumAppend(a + b, c);
    SumAppend(a + b + c, d);
    SumAppend(a, c);
    SumAppend(a + c, b);
    SumAppend(a + c + b, d);
  }

  lemma FlattenAppend4(p: seq<MetricResult>, g1: seq<MetricResult>, g2: seq<MetricResult>, q: seq<MetricResult>)
    ensures Flatten(p + g1 + g2 + q) == Flatten(p) + Flatten(g1) + Flatten(g2) + Flatten(q)
  {
    FlattenAppend(p, g1);
    FlattenAppend(p + g1, g2);
    FlattenAppend(p + g1 + g2, q);
  }

  /**
   * Swapping two adjacent runs of groups does not change the total; swaps of
   * adjacent runs generate every reordering, so the order in which the groups
   * come back does not matter.
   */
  lemma GroupOrderIrrelevant(m: MetricName, p: seq<MetricResult>, g1: seq<MetricResult>, g2: seq<MetricResult>,
                             q: seq<MetricResult>)
    ensures ReducedTotal(m, p + g1 + g2 + q) == ReducedTotal(m, p + g2 + g1 + q)
  {
    FlattenAppend4(p, g1, g2, q);
    FlattenAppend4(p, g2, g1, q);
    SumSwap(Flatten(p), Flatten(g1), Flatten(g2), Flatten(q));
  }

  /** The per-group sums `value` that the source computes for each group before dropping it. */
  function GroupSums(gs: seq<MetricResult>): (sums: seq<real>)
    ensures |sums| == |gs|
    ensures forall i :: 0 <= i < |gs| ==> sums[i] == Sum(Observations(CollectionsOf(gs[i])))
  {
    if gs == [] then [] else GroupSums(gs[..|gs| - 1]) + [Sum(Observations(CollectionsOf(gs[|gs| - 1])))]
  }

  /** Summing every observation is the same as summing the per-group sums. */
  lemma {:induction false} TotalIsSumOfGroupSums(gs: seq<MetricResult>)
    ensures Sum(Flatten(gs)) == Sum(GroupSums(gs))
  {
    if gs != [] {
      var init := gs[..|gs| - 1];
      TotalIsSumOfGroupSums(init);
      SumAppend(Flatten(init), Observations(CollectionsOf(gs[|gs| - 1])));
    }
  }

  /** Groups that carry no collection contribute no observation. */
  lemma {:induction false} NoCollectionsNoObservations(gs: seq<MetricResult>)
    requires forall i :: 0 <= i < |gs| ==> CollectionsOf(gs[i]) == []
    ensures Flatten(gs) == []
  {
    if gs != [] {
      NoCollectionsNoObservations(gs[..|gs| - 1]);
    }
  }

  /** Groups that carry no collection give 0, for every metric. */
  lemma NoCollectionsGiveZero(m: MetricName, gs: seq<MetricResult>)
    requires forall i :: 0 <= i < |gs| ==> CollectionsOf(gs[i]) == []
    ensures ReducedTotal(m, gs) == 0.0
  {
    NoCollectionsNoObservations(gs);
  }

  /** Two groups of one observation each flatten to those two observations. */
  lemma FlattenTwoSingles(q1: string, a: real, q2: string, b: real)
    ensures Flatten([MetricResult(Some(q1), Some([Collection(Some(a))])),
                     MetricResult(Some(q2), Some([Collection(Some(b))]))]) == [a, b]
  {
    var g1 := MetricResult(Some(q1), Some([Collection(Some(a))]));
    var g2 := MetricResult(Some(q2), Some([Collection(Some(b))]));
    assert Observations([Collection(Some(a))]) == [a];
    assert Observations([Collection(Some(b))]) == [b];
    assert [g1, g2][..1] == [g1] && [g1][..0] == [];
    assert Flatten([g1]) == Flatten([]) + Observations(CollectionsOf(g1));
    assert Flatten([g1, g2]) == Flatten([g1]) + Observations(CollectionsOf(g2));
  }

  lemma SumOfTwo(a: real, b: real)
    ensures Sum([a, b]) == a + b
  {
    assert [a, b][..1] == [a] && [a][..0] == [];
    assert Sum([a]) == Sum([]) + a;
    assert Sum([a, b]) == Sum([a]) + b;
  }

  /** Two single-observation groups of 10 and 20 average to 15. */
  lemma AverageOfTenAndTwenty(m: MetricName)
    requires IsAverage(m)
    ensures ReducedTotal(m, [MetricResult(Some("Q1"), Some([Collection(Some(10.0))])),
                             MetricResult(Some("Q2"), Some([Collection(Some(20.0))]))]) == 15.0
  {
    FlattenTwoSingles("Q1", 10.0, "Q2", 20.0);
    SumOfTwo(10.0, 20.0);
    Round2OfCents(1500);
    assert 30.0 / 2.0 == 1500 as real / 100.0;
  }

  predicate AllWithin(xs: seq<real>, lo: real, hi: real) {
    forall i :: 0 <= i < |xs| ==> lo <= xs[i] <= hi
  }

  lemma {:induction false} SumBounds(xs: seq<real>, lo: real, hi: real)
    requires AllWithin(xs, lo, hi)
    ensures lo * |xs| as real <= Sum(xs) <= hi * |xs| as real
  {
    if xs != [] {
      var init, last := xs[..|xs| - 1], xs[|xs| - 1];
      assert AllWithin(init, lo, hi) by {
        forall i | 0 <= i < |init|
          ensures lo <= init[i] <= hi
        {
          assert init[i] == xs[i];
        }
      }
      SumBounds(init, lo, hi);
      assert Sum(xs) == Sum(init) + last;
      assert lo <= last <= hi;
      var n := |init| as real;
      assert |xs| as real == n + 1.0;
      assert lo * (n + 1.0) == lo * n + lo && hi * (n + 1.0) == hi * n + hi;
    }
  }

  lemma {:induction false} SumNonNegative(xs: seq<real>)
    requires forall i :: 0 <= i < |xs| ==> 0.0 <= xs[i]
    ensures 0.0 <= Sum(xs)
  {
    if xs != [] {
      var init, last := xs[..|xs| - 1], xs[|xs| - 1];
      assert forall i :: 0 <= i < |init| ==> init[i] == xs[i];
      SumNonNegative(init);
      assert Sum(xs) == Sum(init) + last;
    }
  }

  /** A quotient by a positive divisor keeps the bounds the dividend has in multiples of it. */
  lemma DivideBounds(s: real, n: real, lo: real, hi: real)
    requires n > 0.0 && lo * n <= s <= hi * n
    ensures lo <= s / n <= hi
  {
    var q := s / n;
    assert q * n == s;
    assert (hi - q) * n == hi * n - s;
    assert (q - lo) * n == s - lo * n;
  }

  /** Non-negative observations give a non-negative total, for every metric. */
  lemma TotalNonNegative(m: MetricName, gs: seq<MetricResult>)
    requires forall i :: 0 <= i < |Flatten(gs)| ==> 0.0 <= Flatten(gs)[i]
    ensures 0.0 <= ReducedTotal(m, gs)
  {
    var obs := Flatten(gs);
    SumNonNegative(obs);
    if IsAverage(m) && |obs| > 0 {
      var n := |obs| as real;
      DivideBounds(Sum(obs), n, 0.0, Sum(obs) / n);
      Round2Monotone(0.0, Sum(obs) / n);
      Round2OfCents(0);
    }
  }

  /** Observations that are percentages give a service-level total that is a percentage. */
  lemma ServiceLevelIsPercentage(gs: seq<MetricResult>)
    requires AllWithin(Flatten(gs), 0.0, 100.0)
    ensures 0.0 <= ReducedTotal(ServiceLevel, gs) <= 100.0
  {
    var obs := Flatten(gs);
    SumBounds(obs, 0.0, 100.0);
    if |obs| > 0 {
      var n := |obs| as real;
      DivideBounds(Sum(obs), n, 0.0, 100.0);
      Round2Between(0, Sum(obs) / n, 10000);
    }
  }
}
