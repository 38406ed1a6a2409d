/** The hybrid strategy: rank the active debts by the score
    `principal / sqrt(apr)`, lowest first, and recommend the first. The
    score is irrational in general, so debts are ranked by `HybridKey`, which
    orders them exactly as the score does (`Common.HybridKeyOrdersScores`);
    the score values themselves are not reported. Debts are the simulation
    engine's `Debt`s, read as `DebtRec` values. */
module HybridStrategy {
  import opened Common
  import Ordering
  import SimulationEngine

  type DebtRec = SimulationEngine.DebtRec

  const DEFAULT_HORIZON_YEARS: int := 50

  const NO_ACTIVE_DEBTS: string := "No active debts"

  // ---------------------------------------------------------------------
  // Scoring the active debts
  // ---------------------------------------------------------------------

  /** The scoring loop, as a value: it raises the Decimal error of the
      first active debt whose rate is not positive, and otherwise scores
      every active debt in list order. */
  function Scoring(ds: seq<DebtRec>): Result<seq<nat>>
  {
    var bad := Ordering.Where(ds, SimulationEngine.HasUnscorableRate);
    if bad != [] then Failure(SimulationEngine.HybridScoreError(ds[bad[0]]))
    else Success(SimulationEngine.ActiveIndices(ds))
  }

  /** No debt before the first unscorable one is unscorable. */
  lemma FirstBadIsFirst(ds: seq<DebtRec>)
    ensures var bad := Ordering.Where(ds, SimulationEngine.HasUnscorableRate);
      forall i :: 0 <= i < |ds| && SimulationEngine.HasUnscorableRate(ds[i]) ==> bad != [] && bad[0] <= i
  {
    var bad := Ordering.Where(ds, SimulationEngine.HasUnscorableRate);
    forall i | 0 <= i < |ds| && SimulationEngine.HasUnscorableRate(ds[i]) ensures bad != [] && bad[0] <= i {
      var m :| 0 <= m < |bad| && bad[m] == i;
      assert m == 0 || bad[0] < bad[m];
    }
  }

  /** Scoring fails exactly when some active debt has a rate that is not
      positive, and then with the error of the first of them. */
  lemma {:induction false} ScoringFails(ds: seq<DebtRec>)
    ensures Scoring(ds).Failure? <==>
      exists j :: 0 <= j < |ds| && SimulationEngine.IsActive(ds[j]) && ds[j].apr <= 0.0
    ensures Scoring(ds).Failure? ==>
      exists j :: 0 <= j < |ds| && SimulationEngine.IsActive(ds[j]) && ds[j].apr <= 0.0
        && Scoring(ds).error == SimulationEngine.HybridScoreError(ds[j])
        && forall i :: 0 <= i < j && SimulationEngine.IsActive(ds[i]) ==> ds[i].apr > 0.0
  {
    var bad := Ordering.Where(ds, SimulationEngine.HasUnscorableRate);
    FirstBadIsFirst(ds);
    if bad != [] {
      var j := bad[0];
      assert SimulationEngine.HasUnscorableRate(ds[j]);
      forall i | 0 <= i < j && SimulationEngine.IsActive(ds[i]) ensures ds[i].apr > 0.0 {
        assert !SimulationEngine.HasUnscorableRate(ds[i]);
      }
    }
  }

  /** The first active debt of the list that the scoring loop cannot score
      is the first debt of the list with a rate that is not positive. */
  lemma FirstUnscorable(ds: seq<DebtRec>, k: nat)
    requires k < |SimulationEngine.ActiveIndices(ds)|
    requires var active := SimulationEngine.ActiveIndices(ds);
      && ds[active[k]].apr <= 0.0
      && forall q :: 0 <= q < k ==> ds[active[q]].apr > 0.0
    ensures var bad := Ordering.Where(ds, SimulationEngine.HasUnscorableRate);
      bad != [] && bad[0] == SimulationEngine.ActiveIndices(ds)[k]
  {
    var active := SimulationEngine.ActiveIndices(ds);
    var bad := Ordering.Where(ds, SimulationEngine.HasUnscorableRate);
    FirstBadIsFirst(ds);
    assert SimulationEngine.HasUnscorableRate(ds[active[k]]);
    assert SimulationEngine.HasUnscorableRate(ds[bad[0]]);
    var q :| 0 <= q < |active| && active[q] == bad[0];
    assert q >= k;
    assert active[k] <= active[q];
  }

  /** When every active debt has a positive rate, no debt is unscorable. */
  lemma AllScorable(ds: seq<DebtRec>)
    requires forall q :: 0 <= q < |SimulationEngine.ActiveIndices(ds)| ==>
      ds[SimulationEngine.ActiveIndices(ds)[q]].apr > 0.0
    ensures Ordering.Where(ds, SimulationEngine.HasUnscorableRate) == []
  {
    var active := SimulationEngine.ActiveIndices(ds);
    var bad := Ordering.Where(ds, SimulationEngine.HasUnscorableRate);
    forall j | 0 <= j < |ds| && SimulationEngine.IsActive(ds[j]) ensures ds[j].apr > 0.0 {
      var q :| 0 <= q < |active| && active[q] == j;
      assert ds[active[q]].apr > 0.0;
    }
  }

  /** `for debt in active_debts: score = debt.principal / (debt.apr **
      Decimal('0.5')); scored_debts.append(...)`: the positions of the
      active debts scored, in list order, or the error the first score
      that cannot be computed raises. */
  method ScoreActiveDebts(ds: seq<DebtRec>) returns (r: Result<seq<nat>>)
    ensures r == Scoring(ds)
  {
    var active := SimulationEngine.ActiveIndices(ds);
    var scored: seq<nat> := [];
    var k := 0;
    while k < |active|
      invariant k <= |active|
      invariant scored == active[..k]
      invariant forall q :: 0 <= q < k ==> ds[active[q]].apr > 0.0
    {
      var debt := ds[active[k]];
      if debt.apr <= 0.0 {
        FirstUnscorable(ds, k);
        return Failure(SimulationEngine.HybridScoreError(debt));
      }
      scored := scored + [active[k]];
      k := k + 1;
    }
    AllScorable(ds);
    assert scored == active;
    r := Success(scored);
  }

  /** The scored debts sorted by score, lowest first, ties in list order
      (`scored_debts.sort(key=lambda x: x[1])`), or the scoring error. */
  function Ranking(ds: seq<DebtRec>): Result<seq<nat>>
  {
    match Scoring(ds)
    case Failure(e) => Failure(e)
    case Success(scored) => Success(Ordering.SortedSubset(SimulationEngine.HybridKeys(ds), scored))
  }

  /** The ranking fails exactly when the engine's hybrid target selection
      fails, with the same error (a list with no active debt has nothing to
      fail on). */
  lemma RankingFailsAsEngine(ds: seq<DebtRec>)
    ensures var engine := SimulationEngine.TargetDebt(ds, "hybrid");
      && (Ranking(ds).Failure? <==> engine.Failure?)
      && (Ranking(ds).Failure? ==> Ranking(ds).error == engine.error)
  {
    var bad := Ordering.Where(ds, SimulationEngine.HasUnscorableRate);
    if bad != [] {
      assert SimulationEngine.IsActive(ds[bad[0]]);
      assert SimulationEngine.ActiveIndices(ds) != [];
    }
  }

  /** A ranking lists every active debt once, each before the debts of
      higher `HybridKey`, ties in list order. */
  lemma RankingMeaning(ds: seq<DebtRec>)
    requires Ranking(ds).Success?
    ensures var r := Ranking(ds).value;
      && multiset(r) == multiset(SimulationEngine.ActiveIndices(ds))
      && Ordering.InRange(r, |ds|)
      && |r| == |SimulationEngine.ActiveIndices(ds)|
      && forall p, q :: 0 <= p < q < |r| ==> Ordering.Precedes(SimulationEngine.HybridKeys(ds), r[p], r[q])
  {
    var r := Ranking(ds).value;
    assert |multiset(r)| == |multiset(SimulationEngine.ActiveIndices(ds))|;
  }

  /** The head of a ranking is the debt the engine's hybrid run sends the
      extra to. */
  lemma RankingHead(ds: seq<DebtRec>)
    requires Ranking(ds).Success? && SimulationEngine.ActiveIndices(ds) != []
    ensures Ranking(ds).value != []
    ensures SimulationEngine.TargetDebt(ds, "hybrid") == Success(Some(Ranking(ds).value[0]))
  {
    var active := SimulationEngine.ActiveIndices(ds);
    Ordering.SortedSubsetHead(SimulationEngine.HybridKeys(ds), active);
    assert Ordering.Where(ds, SimulationEngine.HasUnscorableRate) == [];
  }

  /** A ranking sorted on `HybridKey` is sorted on the real scores
      `principal / sqrt(apr)` too: whatever real numbers `s` are those
      scores, a debt ranked before another has a lower score, or the same
      score and an earlier place in the list. */
  lemma RankingOrdersScores(ds: seq<DebtRec>, s: seq<real>)
    requires Ranking(ds).Success?
    requires |s| == |ds|
    requires forall j :: 0 <= j < |ds| && SimulationEngine.IsActive(ds[j]) ==>
      IsHybridScore(s[j], ds[j].principal, ds[j].apr)
    ensures var r := Ranking(ds).value;
      forall p, q :: 0 <= p < q < |r| ==> s[r[p]] < s[r[q]] || (s[r[p]] == s[r[q]] && r[p] < r[q])
  {
    RankingMeaning(ds);
    var r := Ranking(ds).value;
    var keys := SimulationEngine.HybridKeys(ds);
    forall p, q | 0 <= p < q < |r| ensures s[r[p]] < s[r[q]] || (s[r[p]] == s[r[q]] && r[p] < r[q]) {
      var a, b := r[p], r[q];
      assert a in multiset(SimulationEngine.ActiveIndices(ds));
      assert b in multiset(SimulationEngine.ActiveIndices(ds));
      assert Ordering.Precedes(keys, a, b);
      HybridKeyOrdersScores(s[a], ds[a].principal, ds[a].apr, s[b], ds[b].principal, ds[b].apr);
    }
  }

  /** The scoring loop followed by the sort, as both methods run them. */
  method Rank(ds: seq<DebtRec>) returns (r: Result<seq<nat>>)
    ensures r == Ranking(ds)
  {
    var scored := ScoreActiveDebts(ds);
    if scored.Failure? {
      return Failure(scored.error);
    }
    r := Success(Ordering.SortedSubset(SimulationEngine.HybridKeys(ds), scored.value));
  }

  // ---------------------------------------------------------------------
  // get_recommendation
  // ---------------------------------------------------------------------

  /** The `target_debt` entry of a recommendation. */
  datatype Target = Target(position: nat, id: int, name: string, balance: real, apr: real)

  /** One entry of `all_scores` (its score left out). */
  datatype ScoreEntry = ScoreEntry(position: nat, debtName: string, balance: real, apr: real)

  /** What `get_recommendation` answers when it does not raise: no target,
      with its rationale, or the target and every scored debt in score
      order. */
  datatype Recommendation =
    | NoTarget(rationale: string)
    | Recommend(target: Target, allScores: seq<ScoreEntry>)

  function Entries(ds: seq<DebtRec>, ranked: seq<nat>): (r: seq<ScoreEntry>)
    requires Ordering.InRange(ranked, |ds|)
    ensures |r| == |ranked|
    ensures forall k :: 0 <= k < |r| ==> r[k].position == ranked[k]
  {
    seq(|ranked|, k requires 0 <= k < |ranked| =>
      ScoreEntry(ranked[k], ds[ranked[k]].name, ds[ranked[k]].principal, ds[ranked[k]].apr))
  }

  function TargetOf(ds: seq<DebtRec>, t: nat): (r: Target)
    requires t < |ds|
    ensures r.position == t
  {
    Target(t, ds[t].id, ds[t].name, ds[t].principal, ds[t].apr)
  }

  /** `get_recommendation` as a value. */
  function RecommendationOf(ds: seq<DebtRec>): Result<Recommendation>
  {
    if SimulationEngine.ActiveIndices(ds) == [] then
      Success(NoTarget(NO_ACTIVE_DEBTS))
    else
      match Ranking(ds)
      case Failure(e) => Failure(e)
      case Success(ranked) =>
        RankingMeaning(ds);
        Success(Recommend(TargetOf(ds, ranked[0]), Entries(ds, ranked)))
  }

  /** `get_recommendation`: no target when no debt is active; otherwise the
      debts are scored one by one, sorted by score, and the first is the
      target. */
  method GetRecommendation(ds: seq<DebtRec>) returns (r: Result<Recommendation>)
    ensures r == RecommendationOf(ds)
  {
    var active := SimulationEngine.ActiveIndices(ds);
    if active == [] {
      return Success(NoTarget(NO_ACTIVE_DEBTS));
    }
    var ranked := Rank(ds);
    if ranked.Failure? {
      return Failure(ranked.error);
    }
    RankingMeaning(ds);
    r := Success(Recommend(TargetOf(ds, ranked.value[0]), Entries(ds, ranked.value)));
  }

  /** What a recommendation says. With no active debt there is no target.
      Otherwise it raises exactly when the engine's hybrid target selection
      raises, with the same error; when it does not, the target is the debt
      the engine's hybrid run sends the extra to, and `all_scores` starts
      with it and lists every active debt once, in score order. */
  lemma RecommendationMeaning(ds: seq<DebtRec>)
    ensures var r := RecommendationOf(ds);
      var engine := SimulationEngine.TargetDebt(ds, "hybrid");
      && (r == Success(NoTarget(NO_ACTIVE_DEBTS)) <==> engine == Success(None))
      && (r.Failure? <==> engine.Failure?)
      && (r.Failure? ==> r.error == engine.error)
      && (r.Success? && r.value.Recommend? ==>
            && Ranking(ds).Success?
            && engine == Success(Some(r.value.target.position))
            && |r.value.allScores| == |Ranking(ds).value|
            && forall k :: 0 <= k < |r.value.allScores| ==> r.value.allScores[k].position == Ranking(ds).value[k])
  {
    RankingFailsAsEngine(ds);
    if SimulationEngine.ActiveIndices(ds) != [] && Ranking(ds).Success? {
      RankingMeaning(ds);
      RankingHead(ds);
    }
  }

  // ---------------------------------------------------------------------
  // get_strategy_analysis
  // ---------------------------------------------------------------------

  /** One entry of `debt_priorities` (its score left out). */
  datatype Priority = Priority(rank: nat, position: nat, debtName: string, balance: real, apr: real)

  /** What `get_strategy_analysis` answers when it does not raise: the
      message for no active debts, or the number of active debts, their
      total balance and mean rate, and their priorities in score order. */
  datatype Analysis =
    | NoAnalysis(analysis: string)
    | Analysis(totalDebts: nat, totalBalance: real, averageApr: real, priorities: seq<Priority>)

  function Priorities(ds: seq<DebtRec>, ranked: seq<nat>): (r: seq<Priority>)
    requires Ordering.InRange(ranked, |ds|)
    ensures |r| == |ranked|
    ensures forall i :: 0 <= i < |r| ==> r[i].rank == i + 1 && r[i].position == ranked[i]
  {
    seq(|ranked|, i requires 0 <= i < |ranked| =>
      Priority(i + 1, ranked[i], ds[ranked[i]].name, ds[ranked[i]].principal, ds[ranked[i]].apr))
  }

  /** `get_strategy_analysis` as a value. */
  function AnalysisOf(ds: seq<DebtRec>): Result<Analysis>
  {
    var active := SimulationEngine.ActiveIndices(ds);
    if active == [] then
      Success(NoAnalysis(NO_ACTIVE_DEBTS))
    else
      match Ranking(ds)
      case Failure(e) => Failure(e)
      case Success(ranked) =>
        RankingMeaning(ds);
        var totalBalance := Sum(Ordering.Pick(SimulationEngine.PrincipalKeys(ds), ranked));
        var totalApr := Sum(Ordering.Pick(SimulationEngine.AprKeys(ds), ranked));
        Success(Analysis(|active|, totalBalance, totalApr / |ranked| as real, Priorities(ds, ranked)))
  }

  /** `get_strategy_analysis`: the message when no debt is active;
      otherwise the debts are scored one by one, sorted by score, and their
      balances and rates summed. */
  method GetStrategyAnalysis(ds: seq<DebtRec>) returns (r: Result<Analysis>)
    ensures r == AnalysisOf(ds)
  {
    var active := SimulationEngine.ActiveIndices(ds);
    if active == [] {
      return Success(NoAnalysis(NO_ACTIVE_DEBTS));
    }
    var ranked := Rank(ds);
    if ranked.Failure? {
      return Failure(ranked.error);
    }
    RankingMeaning(ds);
    var sorted := ranked.value;
    var totalBalance := Sum(Ordering.Pick(SimulationEngine.PrincipalKeys(ds), sorted));
    var averageApr := Sum(Ordering.Pick(SimulationEngine.AprKeys(ds), sorted)) / |sorted| as real;
    r := Success(Analysis(|active|, totalBalance, averageApr, Priorities(ds, sorted)));
  }

  /** An analysis raises exactly when the recommendation does, with the
      same error, and reports no active debts exactly when there are none. */
  lemma AnalysisFailsAsRecommendation(ds: seq<DebtRec>)
    ensures var r := AnalysisOf(ds);
      && (r == Success(NoAnalysis(NO_ACTIVE_DEBTS)) <==> SimulationEngine.ActiveIndices(ds) == [])
      && (r.Failure? <==> RecommendationOf(ds).Failure?)
      && (r.Failure? ==> r.error == RecommendationOf(ds).error)
  {
  }

  /** The active debts' balances and rates summed in ranking order are
      their sums in list order. */
  lemma RankedSums(ds: seq<DebtRec>)
    requires Ranking(ds).Success?
    ensures var ranked, active := Ranking(ds).value, SimulationEngine.ActiveIndices(ds);
      && Ordering.InRange(ranked, |ds|) && Ordering.InRange(active, |ds|)
      && Sum(Ordering.Pick(SimulationEngine.PrincipalKeys(ds), ranked))
         == Sum(Ordering.Pick(SimulationEngine.PrincipalKeys(ds), active))
      && Sum(Ordering.Pick(SimulationEngine.AprKeys(ds), ranked))
         == Sum(Ordering.Pick(SimulationEngine.AprKeys(ds), active))
  {
    var active := SimulationEngine.ActiveIndices(ds);
    RankingMeaning(ds);
    var ranked := Ranking(ds).value;
    var pk, ak := SimulationEngine.PrincipalKeys(ds), SimulationEngine.AprKeys(ds);
    Ordering.PickPermutation(pk, ranked, active);
    SumPermutation(Ordering.Pick(pk, ranked), Ordering.Pick(pk, active));
    Ordering.PickPermutation(ak, ranked, active);
    SumPermutation(Ordering.Pick(ak, ranked), Ordering.Pick(ak, active));
  }

  /** The analysis of a ranking, with the ranking left as it is. */
  lemma AnalysisOfRanking(ds: seq<DebtRec>)
    requires AnalysisOf(ds).Success? && AnalysisOf(ds).value.Analysis?
    ensures Ranking(ds).Success? && Ordering.InRange(Ranking(ds).value, |ds|)
    ensures var ranked := Ranking(ds).value;
      AnalysisOf(ds).value
        == Analysis(|SimulationEngine.ActiveIndices(ds)|,
                    Sum(Ordering.Pick(SimulationEngine.PrincipalKeys(ds), ranked)),
                    Sum(Ordering.Pick(SimulationEngine.AprKeys(ds), ranked)) / |ranked| as real,
                    Priorities(ds, ranked))
  {
    RankingMeaning(ds);
  }

  /** The priorities of an analysis rank the active debts 1, 2, ... in the
      order of the ranking, which is the order of `all_scores`. */
  lemma AnalysisRanks(ds: seq<DebtRec>)
    requires AnalysisOf(ds).Success? && AnalysisOf(ds).value.Analysis?
    ensures var r := AnalysisOf(ds).value;
      && Ranking(ds).Success?
      && r.totalDebts == |SimulationEngine.ActiveIndices(ds)| == |r.priorities| == |Ranking(ds).value|
      && forall i :: 0 <= i < |r.priorities| ==>
           r.priorities[i].rank == i + 1 && r.priorities[i].position == Ranking(ds).value[i]
  {
    AnalysisOfRanking(ds);
    RankingMeaning(ds);
  }

  /** The total balance and the mean rate of an analysis are those of the
      active debts taken in list order, whatever order the sort left them
      in. */
  lemma AnalysisTotals(ds: seq<DebtRec>)
    requires AnalysisOf(ds).Success? && AnalysisOf(ds).value.Analysis?
    ensures var r := AnalysisOf(ds).value;
      var active := SimulationEngine.ActiveIndices(ds);
      && Ordering.InRange(active, |ds|)
      && r.totalBalance == Sum(Ordering.Pick(SimulationEngine.PrincipalKeys(ds), active))
      && r.averageApr == Sum(Ordering.Pick(SimulationEngine.AprKeys(ds), active)) / |active| as real
  {
    AnalysisOfRanking(ds);
    RankingMeaning(ds);
    RankedSums(ds);
  }

  /** The strategy object: it holds a simulation engine built with the
      default horizon. */
  class HybridStrategy {
    const engine: SimulationEngine.SimulationEngine

    constructor ()
      ensures engine.maxHorizonMonths == DEFAULT_HORIZON_YEARS * 12
    {
      engine := new SimulationEngine.SimulationEngine(DEFAULT_HORIZON_YEARS);
    }

    /** `calculate_strategy`: the engine's hybrid run on the debts. */
    method CalculateStrategy(debts: seq<SimulationEngine.Debt>, extraPayment: real)
      returns (r: Result<SimulationEngine.SimulationResult>)
      ensures r == SimulationEngine.Simulate(old(SimulationEngine.Snapshots(debts)), extraPayment, "hybrid",
                                             engine.maxHorizonMonths)
    {
      r := engine.RunSimulation(debts, extraPayment, "hybrid");
    }
  }
}
