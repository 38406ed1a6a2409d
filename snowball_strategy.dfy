/** The snowball strategy: recommend the active debt of smallest balance,
    estimate how long its minimum takes to clear it, and count the quick
    wins. Debts are the simulation engine's `Debt`s, read as `DebtRec`
    values. */
module SnowballStrategy {
  import opened Common
  import Ordering
  import SimulationEngine

  type DebtRec = SimulationEngine.DebtRec

  const DEFAULT_HORIZON_YEARS: int := 50

  const NO_ACTIVE_DEBTS: string := "No active debts"

  /** The months reported for a minimum that does not beat the interest. */
  const NEVER_PAID_OFF: int := 999

  /** A balance under this is a quick win. */
  const QUICK_WIN_LIMIT: real := 5000.0

  /** `_calculate_months_to_payoff`: with the minimum less the month's
      interest as the net payment, 999 when that is not positive, and
      otherwise the whole number of net payments in the balance (`int`
      truncates toward zero). */
  function MonthsToPayoff(d: DebtRec): (r: int)
  {
    var net := d.minPayment - SimulationEngine.MonthlyInterest(d);
    if net <= 0.0 then NEVER_PAID_OFF else Trunc(d.principal / net)
  }

  /** What the months to payoff mean: 999 exactly when the minimum does not
      beat the month's interest; otherwise, on a balance that is not
      negative, that many net payments do not exceed the balance and one
      more would. */
  lemma MonthsToPayoffMeaning(d: DebtRec)
    ensures var net := d.minPayment - SimulationEngine.MonthlyInterest(d);
      && (net <= 0.0 ==> MonthsToPayoff(d) == NEVER_PAID_OFF)
      && (net > 0.0 && d.principal >= 0.0 ==>
            && 0 <= MonthsToPayoff(d)
            && MonthsToPayoff(d) as real * net <= d.principal < (MonthsToPayoff(d) + 1) as real * net)
  {
    var net := d.minPayment - SimulationEngine.MonthlyInterest(d);
    if net > 0.0 && d.principal >= 0.0 {
      var q := d.principal / net;
      var n := MonthsToPayoff(d);
      assert n as real <= q < n as real + 1.0;
      assert q * net == d.principal;
      MulMonotone(net, q, n as real);
      MulMonotone(net, n as real + 1.0, q);
      assert (n + 1) as real * net != d.principal by {
        assert (n + 1) as real > q;
        assert (n + 1) as real * net - d.principal == ((n + 1) as real - q) * net;
      }
    }
  }

  /** The `target_debt` entry of a recommendation. */
  datatype Target = Target(position: nat, id: int, name: string, balance: real, apr: real, minPayment: real)

  /** What `get_recommendation` answers: no target, with its rationale, or
      the target with its months to payoff and whether that is a quick win. */
  datatype Recommendation =
    | NoTarget(rationale: string)
    | Recommend(target: Target, monthsToPayoff: int, quickWinPotential: bool)

  /** `get_recommendation`: when no debt is active there is no target;
      otherwise the target is the first active debt of smallest balance,
      its months to payoff are computed as `_calculate_months_to_payoff`
      does, and it is a quick win when that is under a year. */
  function GetRecommendation(ds: seq<DebtRec>): (r: Recommendation)
    ensures r.NoTarget? <==> forall j :: 0 <= j < |ds| ==> !SimulationEngine.IsActive(ds[j])
    ensures r.NoTarget? ==> r.rationale == NO_ACTIVE_DEBTS
    ensures r.Recommend? ==>
      var t := r.target.position;
      && t < |ds| && SimulationEngine.IsActive(ds[t])
      && (forall j :: 0 <= j < |ds| && SimulationEngine.IsActive(ds[j]) ==>
            ds[t].principal <= ds[j].principal && (j < t ==> ds[t].principal < ds[j].principal))
      && r.target == Target(t, ds[t].id, ds[t].name, ds[t].principal, ds[t].apr, ds[t].minPayment)
      && r.monthsToPayoff == MonthsToPayoff(ds[t])
      && (r.quickWinPotential <==> r.monthsToPayoff < 12)
  {
    if SimulationEngine.ActiveIndices(ds) == [] then
      NoTarget(NO_ACTIVE_DEBTS)
    else
      var t := SimulationEngine.SmallestBalanceTarget(ds);
      var d := ds[t];
      var net := d.minPayment - SimulationEngine.MonthlyInterest(d);
      var months := if net <= 0.0 then NEVER_PAID_OFF else Trunc(d.principal / net);
      Recommend(Target(t, d.id, d.name, d.principal, d.apr, d.minPayment), months, months < 12)
  }

  /** The debt recommended is the one the engine's snowball run sends the
      extra to, and there is none exactly when the engine has none. */
  lemma RecommendationIsEngineTarget(ds: seq<DebtRec>)
    ensures GetRecommendation(ds).NoTarget? <==> SimulationEngine.TargetDebt(ds, "snowball") == Success(None)
    ensures GetRecommendation(ds).Recommend? ==>
      SimulationEngine.TargetDebt(ds, "snowball") == Success(Some(GetRecommendation(ds).target.position))
  {
  }

  /** The active debts sorted by balance, smallest first, ties in list
      order (`sorted(active_debts, key=lambda d: d.principal)`). */
  function SortedByBalance(ds: seq<DebtRec>): (r: seq<nat>)
    ensures Ordering.InRange(r, |ds|)
    ensures multiset(r) == multiset(SimulationEngine.ActiveIndices(ds))
    ensures forall p, q :: 0 <= p < q < |r| ==>
      Ordering.Precedes(SimulationEngine.PrincipalKeys(ds), r[p], r[q])
  {
    Ordering.SortedSubset(SimulationEngine.PrincipalKeys(ds), SimulationEngine.ActiveIndices(ds))
  }

  /** Whether the debt at a position is a quick win. */
  function IsQuickWin(ds: seq<DebtRec>): nat -> bool
  {
    (j: nat) => j < |ds| && ds[j].principal < QUICK_WIN_LIMIT
  }

  /** The listed positions whose debt is a quick win, in list order. */
  function QuickWinsAmong(ds: seq<DebtRec>, pos: seq<nat>): seq<nat>
  {
    Ordering.Filter(pos, IsQuickWin(ds))
  }

  /** The `smallest_debt` entry of the metrics. */
  datatype Smallest = Smallest(position: nat, name: string, balance: real, monthsToPayoff: int)

  /** What `get_motivational_metrics` answers: a count of 0 and no smallest
      debt, or the count of active debts, the smallest one, and the number
      and total balance of the quick wins with the motivation level. */
  datatype MotivationalMetrics =
    | NoDebts(debtCount: nat)
    | Metrics(debtCount: nat, smallestDebt: Smallest, quickWinsAvailable: nat,
              totalQuickWinBalance: real, motivationLevel: string)

  /** `get_motivational_metrics`: the active debts sorted by balance; the
      first of them is the smallest debt, and the quick wins are those of
      them under 5000. */
  function GetMotivationalMetrics(ds: seq<DebtRec>): (r: MotivationalMetrics)
  {
    var active := SimulationEngine.ActiveIndices(ds);
    if active == [] then
      NoDebts(0)
    else
      var sorted := SortedByBalance(ds);
      assert |multiset(sorted)| == |multiset(active)|;
      var s := ds[sorted[0]];
      var quick := QuickWinsAmong(ds, sorted);
      assert Ordering.InRange(quick, |ds|);
      Metrics(|active|, Smallest(sorted[0], s.name, s.principal, MonthsToPayoff(s)), |quick|,
              Sum(Ordering.Pick(SimulationEngine.PrincipalKeys(ds), quick)),
              if |quick| > 0 then "high" else "medium")
  }

  /** What the metrics report, whatever order the sort left the debts in:
      the number of active debts; the smallest debt, which is the debt
      `get_recommendation` targets; and the number and total balance of the
      active debts under 5000 taken in list order, with a high motivation
      level exactly when there is one. */
  lemma MotivationalMetricsMeaning(ds: seq<DebtRec>)
    ensures var r := GetMotivationalMetrics(ds);
      var active := SimulationEngine.ActiveIndices(ds);
      var quick := QuickWinsAmong(ds, active);
      && (r.NoDebts? <==> forall j :: 0 <= j < |ds| ==> !SimulationEngine.IsActive(ds[j]))
      && (r.NoDebts? ==> r.debtCount == 0)
      && (r.Metrics? ==>
            && r.debtCount == |active|
            && GetRecommendation(ds).Recommend?
            && r.smallestDebt.position == GetRecommendation(ds).target.position
            && r.smallestDebt.monthsToPayoff == GetRecommendation(ds).monthsToPayoff
            && r.quickWinsAvailable == |quick|
            && Ordering.InRange(quick, |ds|)
            && r.totalQuickWinBalance == Sum(Ordering.Pick(SimulationEngine.PrincipalKeys(ds), quick))
            && (r.motivationLevel == "high" <==> |quick| > 0)
            && (r.motivationLevel != "high" ==> r.motivationLevel == "medium"))
  {
    var active := SimulationEngine.ActiveIndices(ds);
    if active != [] {
      var keys := SimulationEngine.PrincipalKeys(ds);
      var sorted := SortedByBalance(ds);
      var keep := IsQuickWin(ds);
      Ordering.SortedSubsetHead(keys, active);
      Ordering.FirstMinAmongPositions(keys, active);
      Ordering.FilterPermutation(sorted, active, keep);
      var qs, qa := QuickWinsAmong(ds, sorted), QuickWinsAmong(ds, active);
      assert |multiset(qs)| == |multiset(qa)|;
      forall k | 0 <= k < |qa| ensures qa[k] < |ds| {
        assert keep(qa[k]);
      }
      assert Ordering.InRange(qs, |ds|);
      Ordering.PickPermutation(keys, qs, qa);
      SumPermutation(Ordering.Pick(keys, qs), Ordering.Pick(keys, qa));
    }
  }

  /** The strategy object: it holds a simulation engine built with the
      default horizon. */
  class SnowballStrategy {
    const engine: SimulationEngine.SimulationEngine

    constructor ()
      ensures engine.maxHorizonMonths == DEFAULT_HORIZON_YEARS * 12
    {
      engine := new SimulationEngine.SimulationEngine(DEFAULT_HORIZON_YEARS);
    }

    /** `calculate_strategy`: the engine's snowball run on the debts, which
        always completes. */
    method CalculateStrategy(debts: seq<SimulationEngine.Debt>, extraPayment: real)
      returns (r: Result<SimulationEngine.SimulationResult>)
      ensures r == SimulationEngine.Simulate(old(SimulationEngine.Snapshots(debts)), extraPayment, "snowball",
                                             engine.maxHorizonMonths)
      ensures r.Success?
    {
      r := engine.RunSimulation(debts, extraPayment, "snowball");
      SimulationEngine.SimulateFailsOnlyForHybrid(old(SimulationEngine.Snapshots(debts)), extraPayment,
                                                  "snowball", engine.maxHorizonMonths);
    }
  }
}
