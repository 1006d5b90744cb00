/**
 * The page's cost-difference helpers (cmd/cloudcostexplorer/util.go): the
 * change of a row or of a period total against the previous column, as an
 * amount and as a percentage, and the sort comparison of the table.
 */
module CostDiff {
  import opened Items
  import opened Engine

  function Abs(x: real): (r: real)
    ensures r >= 0.0 && (r == x || r == -x)
  {
    if x < 0.0 then -x else x
  }

  /** costDiffPct: the change from cost2 to cost1 as a percentage of |cost2|;
    * with no previous cost, cost1 itself. */
  function CostDiffPct(cost1: real, cost2: real): (r: real)
    ensures cost2 == 0.0 ==> r == cost1
    ensures cost2 != 0.0 ==> (r > 0.0 <==> cost1 > cost2) && (r < 0.0 <==> cost1 < cost2)
  {
    if cost2 != 0.0 then (cost1 - cost2) / Abs(cost2) * 100.0 else cost1
  }

  /** The percentage scales back to the amount of the change. */
  lemma CostDiffPctInverse(cost1: real, cost2: real)
    requires cost2 != 0.0
    ensures CostDiffPct(cost1, cost2) * Abs(cost2) / 100.0 == cost1 - cost2
  {
  }

  /** itemCostDiffGet: (0, 0) for the first column or an index outside the
    * row; otherwise the change from the previous column and its percentage. */
  function ItemCostDiffGet(idx: int, item: Item): (r: (real, real))
    ensures idx < 1 || idx >= |item.values| ==> r == (0.0, 0.0)
    ensures 1 <= idx < |item.values| ==>
              item.values[idx - 1] + r.0 == item.values[idx] &&
              r.1 == CostDiffPct(item.values[idx], item.values[idx - 1])
  {
    if idx < 1 || idx >= |item.values| then (0.0, 0.0)
    else (item.values[idx] - item.values[idx - 1], CostDiffPct(item.values[idx], item.values[idx - 1]))
  }

  /** periodCostDiffGet: the same rule over the periods' totals. */
  function PeriodCostDiffGet(idx: int, periods: seq<ResultPeriod>): (r: (real, real))
    ensures idx < 1 || idx >= |periods| ==> r == (0.0, 0.0)
    ensures 1 <= idx < |periods| ==>
              periods[idx - 1].totalValue + r.0 == periods[idx].totalValue &&
              r.1 == CostDiffPct(periods[idx].totalValue, periods[idx - 1].totalValue)
  {
    if idx < 1 || idx >= |periods| then (0.0, 0.0)
    else (periods[idx].totalValue - periods[idx - 1].totalValue,
          CostDiffPct(periods[idx].totalValue, periods[idx - 1].totalValue))
  }

  /** The period totals as a row of values. */
  function Totals(periods: seq<ResultPeriod>): (r: seq<real>)
    ensures |r| == |periods| && forall i :: 0 <= i < |periods| ==> r[i] == periods[i].totalValue
  {
    if periods == [] then [] else [periods[0].totalValue] + Totals(periods[1..])
  }

  /** A period's difference is the difference of a row holding the totals. */
  lemma PeriodDiffIsItemDiff(idx: int, periods: seq<ResultPeriod>)
    ensures PeriodCostDiffGet(idx, periods) == ItemCostDiffGet(idx, Item([], Totals(periods)))
  {
  }

  /** cmp.Compare on costs. */
  function Compare(x: real, y: real): (r: int)
    ensures r == -1 <==> x < y
    ensures r == 0 <==> x == y
    ensures r == 1 <==> x > y
  {
    if x < y then -1 else if x > y then 1 else 0
  }

  /** compare: the comparison, reversed on request. */
  function CompareCost(x: real, y: real, reverse: bool): (r: int)
    ensures !reverse ==> (r < 0 <==> x < y) && (r > 0 <==> x > y)
    ensures reverse ==> (r < 0 <==> y < x) && (r > 0 <==> y > x)
  {
    if reverse then Compare(y, x) else Compare(x, y)
  }

  /** Reversing swaps the arguments and negates the result. */
  lemma CompareReverse(x: real, y: real)
    ensures CompareCost(x, y, true) == CompareCost(y, x, false)
    ensures CompareCost(x, y, true) == -CompareCost(x, y, false)
  {
  }
}
