/** The avalanche strategy: recommend the active debt of highest rate, and
    price an extra payment at that debt's monthly rate. Debts are the
    simulation engine's `Debt`s, read as `DebtRec` values (nothing here
    changes them). */
module AvalancheStrategy {
  import opened Common
  import SimulationEngine

  type DebtRec = SimulationEngine.DebtRec

  /** The horizon of the engine every strategy builds with its defaults. */
  const DEFAULT_HORIZON_YEARS: int := 50

  const NO_ACTIVE_DEBTS: string := "No active debts"

  /** The `target_debt` entry of a recommendation; `position` is the debt's
      place in the list it was given. */
  datatype Target = Target(position: nat, id: int, name: string, apr: real, balance: real, monthlyInterest: real)

  /** What `get_recommendation` answers: no target, with its rationale, or
      the target with the interest it charges in a month and in a year. */
  datatype Recommendation =
    | NoTarget(rationale: string)
    | Recommend(target: Target, monthlyInterestSaved: real, annualInterestSaved: real)

  /** `get_recommendation`: when no debt is active there is no target;
      otherwise the target is the first active debt of highest rate, and the
      saving it announces is its month of interest, and twelve times that
      for a year. */
  function GetRecommendation(ds: seq<DebtRec>): (r: Recommendation)
    ensures r.NoTarget? <==> forall j :: 0 <= j < |ds| ==> !SimulationEngine.IsActive(ds[j])
    ensures r.NoTarget? ==> r.rationale == NO_ACTIVE_DEBTS
    ensures r.Recommend? ==>
      var t := r.target.position;
      && t < |ds| && SimulationEngine.IsActive(ds[t])
      && (forall j :: 0 <= j < |ds| && SimulationEngine.IsActive(ds[j]) ==>
            ds[j].apr <= ds[t].apr && (j < t ==> ds[j].apr < ds[t].apr))
      && r.target == Target(t, ds[t].id, ds[t].name, ds[t].apr, ds[t].principal,
                            SimulationEngine.MonthlyInterest(ds[t]))
      && r.monthlyInterestSaved == r.target.monthlyInterest
      && r.annualInterestSaved == 12.0 * r.monthlyInterestSaved
  {
    if SimulationEngine.ActiveIndices(ds) == [] then
      NoTarget(NO_ACTIVE_DEBTS)
    else
      var t := SimulationEngine.HighestAprTarget(ds);
      var d := ds[t];
      var monthly := SimulationEngine.MonthlyInterest(d);
      Recommend(Target(t, d.id, d.name, d.apr, d.principal, monthly), monthly, monthly * 12.0)
  }

  /** The debt recommended is the one the engine's avalanche run sends the
      extra to (`_get_target_debt`), and there is none exactly when the
      engine has none. */
  lemma RecommendationIsEngineTarget(ds: seq<DebtRec>)
    ensures GetRecommendation(ds).NoTarget? <==> SimulationEngine.TargetDebt(ds, "avalanche") == Success(None)
    ensures GetRecommendation(ds).Recommend? ==>
      SimulationEngine.TargetDebt(ds, "avalanche") == Success(Some(GetRecommendation(ds).target.position))
  {
  }

  /** On debts with no negative balance or rate, the announced savings are
      never negative, and a year's saving is at least the month's. */
  lemma SavingsNonNegative(ds: seq<DebtRec>)
    requires forall j :: 0 <= j < |ds| ==> ds[j].principal >= 0.0 && ds[j].apr >= 0.0
    ensures var r := GetRecommendation(ds);
      r.Recommend? ==> 0.0 <= r.monthlyInterestSaved <= r.annualInterestSaved
  {
    var r := GetRecommendation(ds);
    if r.Recommend? {
      SimulationEngine.InterestBounds(ds[r.target.position]);
    }
  }

  /** The debt `get_marginal_benefit` prices the extra against. */
  datatype BenefitTarget = BenefitTarget(position: nat, id: int, name: string, apr: real)

  /** What `get_marginal_benefit` answers: a benefit of 0 and no target, or
      the benefit of each unit of extra, the target, and the benefit of the
      whole extra in a month and (as computed) in a year. */
  datatype MarginalBenefit =
    | NoBenefit(benefitPerRand: real)
    | Benefit(benefitPerRand: real, target: BenefitTarget, monthlyBenefit: real, annualBenefit: real)

  /** `get_marginal_benefit`: nothing for an extra that is not positive or
      when no debt is active; otherwise each unit of extra earns the monthly
      rate of the avalanche target. */
  function GetMarginalBenefit(ds: seq<DebtRec>, extraAmount: real): (r: MarginalBenefit)
    ensures r.NoBenefit? <==>
      extraAmount <= 0.0 || forall j :: 0 <= j < |ds| ==> !SimulationEngine.IsActive(ds[j])
    ensures r.NoBenefit? ==> r.benefitPerRand == 0.0
    ensures r.Benefit? ==>
      var t := r.target.position;
      && GetRecommendation(ds).Recommend? && t == GetRecommendation(ds).target.position
      && r.target == BenefitTarget(t, ds[t].id, ds[t].name, ds[t].apr)
      && r.benefitPerRand == ds[t].apr / 12.0
      && r.monthlyBenefit == extraAmount * r.benefitPerRand
      && r.annualBenefit == extraAmount * ds[t].apr / 100.0
  {
    if extraAmount <= 0.0 then
      NoBenefit(0.0)
    else if SimulationEngine.ActiveIndices(ds) == [] then
      NoBenefit(0.0)
    else
      var t := SimulationEngine.HighestAprTarget(ds);
      var d := ds[t];
      var monthlyRate := d.apr / 12.0;
      Benefit(monthlyRate, BenefitTarget(t, d.id, d.name, d.apr),
              extraAmount * monthlyRate, extraAmount * d.apr / 100.0)
  }

  /** The benefit per unit of extra is the highest monthly rate among the
      active debts: no other active debt would earn more. */
  lemma BenefitIsBestRate(ds: seq<DebtRec>, extraAmount: real)
    requires GetMarginalBenefit(ds, extraAmount).Benefit?
    ensures forall j :: 0 <= j < |ds| && SimulationEngine.IsActive(ds[j]) ==>
      ds[j].apr / 12.0 <= GetMarginalBenefit(ds, extraAmount).benefitPerRand
  {
    var t := GetMarginalBenefit(ds, extraAmount).target.position;
    forall j | 0 <= j < |ds| && SimulationEngine.IsActive(ds[j]) ensures ds[j].apr / 12.0 <= ds[t].apr / 12.0 {
      assert ds[j].apr <= ds[t].apr;
    }
  }

  /** The month's benefit is the month of interest the extra itself would
      carry on the target under monthly compounding. */
  lemma MonthlyBenefitIsInterestOnExtra(ds: seq<DebtRec>, extraAmount: real)
    requires GetMarginalBenefit(ds, extraAmount).Benefit?
    requires ds[GetMarginalBenefit(ds, extraAmount).target.position].compounding == "monthly"
    ensures var r := GetMarginalBenefit(ds, extraAmount);
      r.monthlyBenefit == SimulationEngine.MonthlyInterest(ds[r.target.position].(principal := extraAmount))
  {
  }

  /** The year's benefit, as computed, divides by 100 a rate that is
      already a fraction: it is twelve months' benefit over 100, so it
      equals twelve months' benefit only on a zero rate. */
  lemma AnnualBenefitAsComputed(ds: seq<DebtRec>, extraAmount: real)
    requires GetMarginalBenefit(ds, extraAmount).Benefit?
    ensures var r := GetMarginalBenefit(ds, extraAmount);
      && 100.0 * r.annualBenefit == 12.0 * r.monthlyBenefit
      && (r.annualBenefit == 12.0 * r.monthlyBenefit <==> r.target.apr == 0.0)
  {
    var r := GetMarginalBenefit(ds, extraAmount);
    var a := ds[r.target.position].apr;
    assert 12.0 * r.monthlyBenefit == extraAmount * a;
    assert r.annualBenefit == 12.0 * r.monthlyBenefit ==> extraAmount * a == 0.0;
  }

  /** The strategy object: it holds a simulation engine built with the
      default horizon. */
  class AvalancheStrategy {
    const engine: SimulationEngine.SimulationEngine

    constructor ()
      ensures engine.maxHorizonMonths == DEFAULT_HORIZON_YEARS * 12
    {
      engine := new SimulationEngine.SimulationEngine(DEFAULT_HORIZON_YEARS);
    }

    /** `calculate_strategy`: the engine's avalanche run on the debts, which
        always completes. */
    method CalculateStrategy(debts: seq<SimulationEngine.Debt>, extraPayment: real)
      returns (r: Result<SimulationEngine.SimulationResult>)
      ensures r == SimulationEngine.Simulate(old(SimulationEngine.Snapshots(debts)), extraPayment, "avalanche",
                                             engine.maxHorizonMonths)
      ensures r.Success?
    {
      r := engine.RunSimulation(debts, extraPayment, "avalanche");
      SimulationEngine.SimulateFailsOnlyForHybrid(old(SimulationEngine.Snapshots(debts)), extraPayment,
                                                  "avalanche", engine.maxHorizonMonths);
    }
  }
}
