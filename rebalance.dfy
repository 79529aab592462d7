/** The rebalancing pass of the fallback generator: when fewer than 10% of
    the labels are 1, the first `int(0.15 * n)` students, in row order,
    whose integer risk exceeds 60 are labelled 1. */
module Rebalance {

  const HighRisk: int := 60

  function Sum(s: seq<int>): int
  {
    if s == [] then 0 else Sum(s[..|s| - 1]) + s[|s| - 1]
  }

  predicate Binary(labels: seq<int>)
  {
    forall i :: 0 <= i < |labels| ==> labels[i] == 0 || labels[i] == 1
  }

  /** `int(n_students * 0.15)`. */
  function Quota(n: nat): nat
  {
    n * 15 / 100
  }

  /** `df['dropout'].mean() < 0.10`; the mean of no rows is NaN, which
      compares false. */
  predicate NeedsRebalance(labels: seq<int>)
  {
    |labels| > 0 && (Sum(labels) as real) / (|labels| as real) < 0.10
  }

  /** How many of the first i students have risk above 60. */
  function CountAbove(risk: seq<int>, i: nat): nat
    requires i <= |risk|
  {
    if i == 0 then 0 else CountAbove(risk, i - 1) + (if risk[i - 1] > HighRisk then 1 else 0)
  }

  /** Row i is among the first `quota` rows of `df[risk_factors > 60].index`. */
  predicate Selected(risk: seq<int>, quota: nat, i: nat)
    requires i < |risk|
  {
    risk[i] > HighRisk && CountAbove(risk, i) < quota
  }

  function ForceSelected(labels: seq<int>, risk: seq<int>, quota: nat): seq<int>
    requires |labels| == |risk|
  {
    seq(|labels|, i requires 0 <= i < |labels| => if Selected(risk, quota, i) then 1 else labels[i])
  }

  /** The dropout column after the pass. */
  function Rebalanced(labels: seq<int>, risk: seq<int>): seq<int>
    requires |labels| == |risk|
  {
    if NeedsRebalance(labels) then ForceSelected(labels, risk, Quota(|labels|)) else labels
  }

  /** `df.loc[high_risk_idx, 'dropout'] = 1`, walking the rows in order and
      counting the high-risk ones seen so far. */
  method RebalanceLabels(dropout: array<int>, risk: seq<int>)
    requires dropout.Length == |risk|
    modifies dropout
    ensures dropout[..] == Rebalanced(old(dropout[..]), risk)
  {
    if NeedsRebalance(dropout[..]) {
      ghost var before := dropout[..];
      var n := dropout.Length;
      var quota := Quota(n);
      var seen := 0;
      for i := 0 to n
        invariant seen == CountAbove(risk, i)
        invariant forall k :: 0 <= k < i ==> dropout[k] == ForceSelected(before, risk, quota)[k]
        invariant forall k :: i <= k < n ==> dropout[k] == before[k]
      {
        if risk[i] > HighRisk {
          if seen < quota {
            dropout[i] := 1;
          }
          seen := seen + 1;
        }
      }
    }
  }

  /** Labels stay binary, a 1 is never turned into 0, and only rows with
      risk above 60 can change. */
  lemma RebalanceOnlyRaises(labels: seq<int>, risk: seq<int>)
    requires |labels| == |risk| && Binary(labels)
    ensures |Rebalanced(labels, risk)| == |labels|
    ensures Binary(Rebalanced(labels, risk))
    ensures forall i :: 0 <= i < |labels| ==> labels[i] <= Rebalanced(labels, risk)[i]
    ensures forall i :: 0 <= i < |labels| && Rebalanced(labels, risk)[i] != labels[i] ==>
              risk[i] > HighRisk && Rebalanced(labels, risk)[i] == 1
    ensures !NeedsRebalance(labels) ==> Rebalanced(labels, risk) == labels
  {
  }

  lemma {:induction false} SumMonotone(s: seq<int>, t: seq<int>)
    requires |s| == |t|
    requires forall i :: 0 <= i < |s| ==> s[i] <= t[i]
    ensures Sum(s) <= Sum(t)
  {
    if s != [] {
      SumMonotone(s[..|s| - 1], t[..|t| - 1]);
    }
  }

  /** The pass never lowers the number of students labelled 1. */
  lemma RebalanceNeverLowersCount(labels: seq<int>, risk: seq<int>)
    requires |labels| == |risk| && Binary(labels)
    ensures Sum(labels) <= Sum(Rebalanced(labels, risk))
  {
    SumMonotone(labels, Rebalanced(labels, risk));
  }

  /** How many of the first i rows are selected. */
  function CountSelected(risk: seq<int>, quota: nat, i: nat): nat
    requires i <= |risk|
  {
    if i == 0 then 0 else CountSelected(risk, quota, i - 1) + (if Selected(risk, quota, i - 1) then 1 else 0)
  }

  /** Exactly min(quota, number of high-risk rows) rows are selected. */
  lemma {:induction false} SelectedCount(risk: seq<int>, quota: nat, i: nat)
    requires i <= |risk|
    ensures CountSelected(risk, quota, i) ==
              if CountAbove(risk, i) < quota then CountAbove(risk, i) else quota
  {
    if i > 0 {
      SelectedCount(risk, quota, i - 1);
    }
  }

  lemma {:induction false} SumAtLeastSelected(labels: seq<int>, risk: seq<int>, quota: nat, i: nat)
    requires |labels| == |risk| && Binary(labels) && i <= |labels|
    ensures Sum(ForceSelected(labels, risk, quota)[..i]) >= CountSelected(risk, quota, i)
  {
    if i > 0 {
      var forced := ForceSelected(labels, risk, quota);
      assert forced[..i][..i - 1] == forced[..i - 1];
      SumAtLeastSelected(labels, risk, quota, i - 1);
    }
  }

  /** After a pass that runs, at least min(int(0.15 n), number of rows with
      risk above 60) labels are 1; in particular the 15% target is met only
      when enough rows qualify. */
  lemma RebalancePositives(labels: seq<int>, risk: seq<int>)
    requires |labels| == |risk| && Binary(labels) && NeedsRebalance(labels)
    ensures var n := |labels|;
            Sum(Rebalanced(labels, risk)) >=
              if CountAbove(risk, n) < Quota(n) then CountAbove(risk, n) else Quota(n)
  {
    var n := |labels|;
    var forced := ForceSelected(labels, risk, Quota(n));
    SumAtLeastSelected(labels, risk, Quota(n), n);
    SelectedCount(risk, Quota(n), n);
    assert forced[..n] == forced;
  }

  lemma {:induction false} SumOfZeros(s: seq<int>)
    requires forall i :: 0 <= i < |s| ==> s[i] == 0
    ensures Sum(s) == 0
  {
    if s != [] {
      SumOfZeros(s[..|s| - 1]);
    }
  }

  /** The pass selects by row order, not by risk: with one slot, an earlier
      student at risk 61 is chosen over a later one at risk 118. */
  lemma SelectionIgnoresRiskOrder()
    ensures Rebalanced([0, 0, 0, 0, 0, 0, 0], [61, 118, 0, 0, 0, 0, 0]) == [1, 0, 0, 0, 0, 0, 0]
  {
    var labels := [0, 0, 0, 0, 0, 0, 0];
    var risk := [61, 118, 0, 0, 0, 0, 0];
    SumOfZeros(labels);
    assert CountAbove(risk, 1) == 1;
  }

  /** No prevalence floor is guaranteed: with no row above risk 60 the pass
      changes nothing and the rate stays at 0. */
  lemma FloorNotGuaranteed()
    ensures NeedsRebalance([0, 0, 0, 0, 0, 0, 0, 0, 0, 0])
    ensures Rebalanced([0, 0, 0, 0, 0, 0, 0, 0, 0, 0], [60, 60, 60, 60, 60, 60, 60, 60, 60, 60])
              == [0, 0, 0, 0, 0, 0, 0, 0, 0, 0]
  {
    SumOfZeros([0, 0, 0, 0, 0, 0, 0, 0, 0, 0]);
  }
}
