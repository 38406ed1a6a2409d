/** The month-by-month repayment simulation behind the web API: a `Debt`
    object that accrues interest and takes payments, and a `SimulationEngine`
    that runs working copies of the debts through up to a horizon of months
    under a strategy (avalanche, snowball or hybrid).

    Each mutable operation is proved against a specification function over
    value records (`DebtRec`, `Pass`, `RunState`); the lemmas at the end of
    the module state what a whole run guarantees. */
module SimulationEngine {
  import opened Common
  import Ordering

  // ---------------------------------------------------------------------
  // A debt as a value
  // ---------------------------------------------------------------------

  datatype DebtRec = DebtRec(
    id: int,
    name: string,
    principal: real,
    apr: real,
    minPayment: real,
    paymentFrequency: string,
    compounding: string,
    status: string,
    originalPrincipal: real,
    totalInterestPaid: real,
    monthsPaid: int)

  predicate IsActive(d: DebtRec)
  {
    d.status == ACTIVE
  }

  /** A freshly constructed debt: its original principal is the principal it
      is given, and it has paid no interest in no months. */
  function NewDebt(id: int, name: string, principal: real, apr: real, minPayment: real,
                   paymentFrequency: string, compounding: string, status: string): DebtRec
  {
    DebtRec(id, name, principal, apr, minPayment, paymentFrequency, compounding, status,
            principal, 0.0, 0)
  }

  /** The copy a run works on: built with the constructor, so the history of
      the original (interest paid, months paid, original principal) is reset. */
  function WorkingCopy(d: DebtRec): (r: DebtRec)
    ensures r.id == d.id && r.name == d.name && r.principal == d.principal && r.apr == d.apr
    ensures r.minPayment == d.minPayment && r.status == d.status && r.compounding == d.compounding
    ensures r.originalPrincipal == d.principal && r.totalInterestPaid == 0.0 && r.monthsPaid == 0
  {
    NewDebt(d.id, d.name, d.principal, d.apr, d.minPayment, d.paymentFrequency, d.compounding, d.status)
  }

  function WorkingCopies(ds: seq<DebtRec>): (r: seq<DebtRec>)
    ensures |r| == |ds|
    ensures forall k :: 0 <= k < |ds| ==> r[k] == WorkingCopy(ds[k])
  {
    seq(|ds|, k requires 0 <= k < |ds| => WorkingCopy(ds[k]))
  }

  /** One month of interest on the current principal: 30 days of daily
      compounding, a twelfth of the APR, or nothing for any other setting. */
  function MonthlyInterest(d: DebtRec): real
  {
    if d.compounding == "daily" then
      d.principal * (Pow(1.0 + d.apr / 365.0, 30) - 1.0)
    else if d.compounding == "monthly" then
      d.principal * (d.apr / 12.0)
    else
      0.0
  }

  lemma {:induction false} PowAtLeastOne(x: real, n: nat)
    requires x >= 1.0
    ensures Pow(x, n) >= 1.0
  {
    if n > 0 {
      PowAtLeastOne(x, n - 1);
      MulMonotone(x, Pow(x, n - 1), 1.0);
    }
  }

  /** Interest is never negative on a non-negative balance and rate; daily
      compounding charges at least 30 days of simple interest; a compounding
      setting other than daily or monthly charges nothing. */
  lemma InterestBounds(d: DebtRec)
    ensures d.principal >= 0.0 && d.apr >= 0.0 ==> MonthlyInterest(d) >= 0.0
    ensures d.compounding == "daily" && d.principal >= 0.0 && d.apr >= 0.0 ==>
      MonthlyInterest(d) >= d.principal * (30.0 * d.apr / 365.0)
    ensures d.compounding != "daily" && d.compounding != "monthly" ==> MonthlyInterest(d) == 0.0
  {
    if d.compounding == "daily" && d.apr >= 0.0 {
      Bernoulli(d.apr / 365.0, 30);
      if d.principal >= 0.0 {
        MulMonotone(d.principal, Pow(1.0 + d.apr / 365.0, 30) - 1.0, 30.0 * d.apr / 365.0);
      }
    }
  }

  /** What `apply_payment` reports; `paidOff` is absent (None) when the debt
      was not active. */
  datatype PaymentResult = PaymentResult(
    principalPayment: real,
    interestPayment: real,
    remaining: real,
    paidOff: Option<bool>)

  /** The same terms and identity: what a payment never changes. */
  predicate SameTerms(a: DebtRec, b: DebtRec)
  {
    && a.id == b.id && a.name == b.name && a.apr == b.apr && a.minPayment == b.minPayment
    && a.paymentFrequency == b.paymentFrequency && a.compounding == b.compounding
    && a.originalPrincipal == b.originalPrincipal
  }

  /** How a debt may change during a run: not at all, or it was active and is
      now active or paid, with the same terms, a non-negative balance, and a
      zero balance once paid. */
  predicate Evolves(d0: DebtRec, d1: DebtRec)
  {
    || d1 == d0
    || (&& d0.status == ACTIVE
        && (d1.status == ACTIVE || d1.status == PAID)
        && SameTerms(d0, d1)
        && d1.principal >= 0.0
        && (d1.status == PAID ==> d1.principal == 0.0))
  }

  lemma EvolvesTransitive(a: DebtRec, b: DebtRec, c: DebtRec)
    requires Evolves(a, b) && Evolves(b, c)
    ensures Evolves(a, c)
  {
  }

  /** `Evolves`, position by position. It is written recursively so that
      the verifier unfolds it only where a proof asks for it. */
  predicate AllEvolve(a: seq<DebtRec>, b: seq<DebtRec>)
    decreases |a|
  {
    && |a| == |b|
    && (a == [] || (AllEvolve(a[..|a| - 1], b[..|b| - 1]) && Evolves(a[|a| - 1], b[|b| - 1])))
  }

  lemma {:induction false} AllEvolveAt(a: seq<DebtRec>, b: seq<DebtRec>, j: nat)
    requires AllEvolve(a, b) && j < |a|
    ensures |b| == |a| && Evolves(a[j], b[j])
    decreases |a|
  {
    var n := |a| - 1;
    if j < n {
      AllEvolveAt(a[..n], b[..n], j);
    }
  }

  lemma {:induction false} AllEvolveIntro(a: seq<DebtRec>, b: seq<DebtRec>)
    requires |a| == |b| && forall j :: 0 <= j < |a| ==> Evolves(a[j], b[j])
    ensures AllEvolve(a, b)
    decreases |a|
  {
    if a != [] {
      var n := |a| - 1;
      AllEvolveIntro(a[..n], b[..n]);
    }
  }

  /** `AllEvolve` composes along a run. */
  lemma AllEvolveTransitive(a: seq<DebtRec>, b: seq<DebtRec>, c: seq<DebtRec>)
    requires AllEvolve(a, b) && AllEvolve(b, c)
    ensures AllEvolve(a, c)
  {
    forall j | 0 <= j < |a| ensures Evolves(a[j], c[j]) {
      AllEvolveAt(a, b, j);
      AllEvolveAt(b, c, j);
      EvolvesTransitive(a[j], b[j], c[j]);
    }
    AllEvolveIntro(a, c);
  }

  /** `apply_payment`: an inactive debt is left alone and reports no payment;
      an active one accrues a month of interest and is paid off exactly when
      the payment covers the balance with that interest, otherwise the
      payment comes off the balance, which stays positive. */
  function Pay(d: DebtRec, payment: real): (r: (DebtRec, PaymentResult))
    ensures d.status != ACTIVE ==> r == (d, PaymentResult(0.0, 0.0, d.principal, None))
    ensures d.status == ACTIVE ==>
      var owed := d.principal + MonthlyInterest(d);
      && r.0 == d.(principal := r.0.principal, status := r.0.status,
                   totalInterestPaid := d.totalInterestPaid + MonthlyInterest(d),
                   monthsPaid := d.monthsPaid + 1)
      && (r.0.status == PAID <==> payment >= owed)
      && (r.0.status == PAID ==> r.0.principal == 0.0 && r.1.interestPayment == MonthlyInterest(d))
      && (r.0.status != PAID ==> r.0.status == ACTIVE && r.0.principal == owed - payment > 0.0
                                 && r.1.interestPayment == 0.0)
      && r.1.principalPayment + r.0.principal == owed
      && r.1.remaining == r.0.principal
      && r.1.paidOff == Some(r.0.status == PAID)
    ensures Evolves(d, r.0)
  {
    if d.status != ACTIVE then
      (d, PaymentResult(0.0, 0.0, d.principal, None))
    else
      var interest := MonthlyInterest(d);
      var owed := d.principal + interest;
      var accrued := d.(totalInterestPaid := d.totalInterestPaid + interest, principal := owed);
      if payment >= owed then
        var paid := accrued.(principal := 0.0, status := PAID, monthsPaid := d.monthsPaid + 1);
        (paid, PaymentResult(owed, interest, 0.0, Some(true)))
      else
        var left := accrued.(principal := owed - payment, monthsPaid := d.monthsPaid + 1);
        (left, PaymentResult(payment, 0.0, owed - payment, Some(false)))
  }

  // ---------------------------------------------------------------------
  // The Debt object
  // ---------------------------------------------------------------------

  class Debt {
    const id: int
    const name: string
    const apr: real
    const minPayment: real
    const paymentFrequency: string
    const compounding: string
    const originalPrincipal: real
    var principal: real
    var status: string
    var totalInterestPaid: real
    var monthsPaid: int

    function Snap(): DebtRec
      reads this
    {
      DebtRec(id, name, principal, apr, minPayment, paymentFrequency, compounding, status,
              originalPrincipal, totalInterestPaid, monthsPaid)
    }

    constructor (id: int, name: string, principal: real, apr: real, minPayment: real,
                 paymentFrequency: string, compounding: string, status: string)
      ensures Snap() == NewDebt(id, name, principal, apr, minPayment, paymentFrequency, compounding, status)
    {
      this.id := id;
      this.name := name;
      this.principal := principal;
      this.apr := apr;
      this.minPayment := minPayment;
      this.paymentFrequency := paymentFrequency;
      this.compounding := compounding;
      this.status := status;
      this.originalPrincipal := principal;
      this.totalInterestPaid := 0.0;
      this.monthsPaid := 0;
    }

    function CalculateMonthlyInterest(): real
      reads this
    {
      MonthlyInterest(Snap())
    }

    method ApplyPayment(payment: real) returns (r: PaymentResult)
      modifies this
      ensures (Snap(), r) == Pay(old(Snap()), payment)
    {
      if status != ACTIVE {
        return PaymentResult(0.0, 0.0, principal, None);
      }
      var interest := CalculateMonthlyInterest();
      totalInterestPaid := totalInterestPaid + interest;
      principal := principal + interest;
      var principalPayment, interestPayment;
      if payment >= principal {
        principalPayment := principal;
        interestPayment := interest;
        principal := 0.0;
        status := PAID;
      } else {
        principalPayment := payment;
        interestPayment := 0.0;
        principal := principal - payment;
      }
      monthsPaid := monthsPaid + 1;
      r := PaymentResult(principalPayment, interestPayment, principal, Some(status == PAID));
    }
  }

  function Snapshots(ws: seq<Debt>): (r: seq<DebtRec>)
    reads ws
    ensures |r| == |ws|
    ensures forall k :: 0 <= k < |ws| ==> r[k] == ws[k].Snap()
    decreases |ws|
  {
    if ws == [] then [] else Snapshots(ws[..|ws| - 1]) + [ws[|ws| - 1].Snap()]
  }

  // ---------------------------------------------------------------------
  // Choosing the debt that receives the extra payment
  // ---------------------------------------------------------------------

  function ActiveIndices(ds: seq<DebtRec>): (r: seq<nat>)
    ensures forall k :: 0 <= k < |r| ==> r[k] < |ds| && ds[r[k]].status == ACTIVE
    ensures forall j :: 0 <= j < |ds| && ds[j].status == ACTIVE ==> j in r
    ensures forall a, b :: 0 <= a < b < |r| ==> r[a] < r[b]
    decreases |ds|
  {
    if ds == [] then []
    else
      var front := ActiveIndices(ds[..|ds| - 1]);
      if ds[|ds| - 1].status == ACTIVE then front + [|ds| - 1] else front
  }

  lemma NoActiveDebt(ds: seq<DebtRec>)
    requires forall j :: 0 <= j < |ds| ==> ds[j].status != ACTIVE
    ensures ActiveIndices(ds) == []
  {
  }

  function AprKeys(ds: seq<DebtRec>): (r: seq<real>)
    ensures |r| == |ds| && forall j :: 0 <= j < |ds| ==> r[j] == ds[j].apr
  {
    seq(|ds|, j requires 0 <= j < |ds| => ds[j].apr)
  }

  function PrincipalKeys(ds: seq<DebtRec>): (r: seq<real>)
    ensures |r| == |ds| && forall j :: 0 <= j < |ds| ==> r[j] == ds[j].principal
  {
    seq(|ds|, j requires 0 <= j < |ds| => ds[j].principal)
  }

  function HybridKeys(ds: seq<DebtRec>): (r: seq<real>)
    ensures |r| == |ds| && forall j :: 0 <= j < |ds| ==> r[j] == HybridKey(ds[j].principal, ds[j].apr)
  {
    seq(|ds|, j requires 0 <= j < |ds| => HybridKey(ds[j].principal, ds[j].apr))
  }

  /** The Decimal exception the hybrid score `principal / apr ** 0.5` raises
      for a rate that is not positive: a negative rate has no square root and
      0 / 0 is undefined; any other balance over a zero rate divides by zero. */
  function HybridScoreError(d: DebtRec): string
  {
    if d.apr < 0.0 || d.principal == 0.0 then "decimal.InvalidOperation"
    else "decimal.DivisionByZero"
  }

  predicate HasUnscorableRate(d: DebtRec)
  {
    d.status == ACTIVE && d.apr <= 0.0
  }

  /** Python's `max(active_debts, key=lambda d: d.apr)`. */
  function HighestAprTarget(ds: seq<DebtRec>): (t: nat)
    requires ActiveIndices(ds) != []
    ensures t < |ds| && ds[t].status == ACTIVE
    ensures forall j :: 0 <= j < |ds| && ds[j].status == ACTIVE ==>
      ds[j].apr <= ds[t].apr && (j < t ==> ds[j].apr < ds[t].apr)
  {
    var active := ActiveIndices(ds);
    Ordering.FirstMaxAmongPositions(AprKeys(ds), active);
    active[Ordering.FirstMaxIndex(Ordering.Pick(AprKeys(ds), active))]
  }

  /** Python's `min(active_debts, key=lambda d: d.principal)`. */
  function SmallestBalanceTarget(ds: seq<DebtRec>): (t: nat)
    requires ActiveIndices(ds) != []
    ensures t < |ds| && ds[t].status == ACTIVE
    ensures forall j :: 0 <= j < |ds| && ds[j].status == ACTIVE ==>
      ds[t].principal <= ds[j].principal && (j < t ==> ds[j].principal > ds[t].principal)
  {
    var active := ActiveIndices(ds);
    Ordering.FirstMinAmongPositions(PrincipalKeys(ds), active);
    active[Ordering.FirstMinIndex(Ordering.Pick(PrincipalKeys(ds), active))]
  }

  /** Python's `min(active_debts, key=lambda d: d.principal / d.apr ** 0.5)`,
      ranked by `HybridKey`. */
  function LowestScoreTarget(ds: seq<DebtRec>): (t: nat)
    requires ActiveIndices(ds) != []
    ensures t < |ds| && ds[t].status == ACTIVE
    ensures forall j :: 0 <= j < |ds| && ds[j].status == ACTIVE ==>
      && HybridKey(ds[t].principal, ds[t].apr) <= HybridKey(ds[j].principal, ds[j].apr)
      && (j < t ==> HybridKey(ds[j].principal, ds[j].apr) > HybridKey(ds[t].principal, ds[t].apr))
  {
    var active := ActiveIndices(ds);
    Ordering.FirstMinAmongPositions(HybridKeys(ds), active);
    active[Ordering.FirstMinIndex(Ordering.Pick(HybridKeys(ds), active))]
  }

  /** `active_debts[0]`. */
  function FirstActiveTarget(ds: seq<DebtRec>): (t: nat)
    requires ActiveIndices(ds) != []
    ensures t < |ds| && ds[t].status == ACTIVE
    ensures forall j :: 0 <= j < t ==> ds[j].status != ACTIVE
  {
    var active := ActiveIndices(ds);
    assert forall k :: 0 <= k < |active| ==> active[0] <= active[k];
    forall j | 0 <= j < |ds| && ds[j].status == ACTIVE ensures active[0] <= j {
      var k :| 0 <= k < |active| && active[k] == j;
    }
    active[0]
  }

  /** `_get_target_debt`: no target when no debt is active; otherwise the
      avalanche, snowball or hybrid choice, or the first active debt for any
      other strategy name. The hybrid score raises when an active debt's APR
      is not positive. The target is a position in `ds`. */
  function TargetDebt(ds: seq<DebtRec>, strategy: string): (r: Result<Option<nat>>)
    ensures r.Failure? <==>
      strategy == "hybrid" && exists j :: 0 <= j < |ds| && ds[j].status == ACTIVE && ds[j].apr <= 0.0
    ensures r == Success(None) <==> forall j :: 0 <= j < |ds| ==> ds[j].status != ACTIVE
    ensures r.Success? && r.value.Some? ==> r.value.value < |ds| && ds[r.value.value].status == ACTIVE
    ensures r.Success? && r.value.Some? ==>
      r.value.value == (if strategy == "avalanche" then HighestAprTarget(ds)
                        else if strategy == "snowball" then SmallestBalanceTarget(ds)
                        else if strategy == "hybrid" then LowestScoreTarget(ds)
                        else FirstActiveTarget(ds))
  {
    var active := ActiveIndices(ds);
    if active == [] then
      Success(None)
    else if strategy == "avalanche" then
      Success(Some(HighestAprTarget(ds)))
    else if strategy == "snowball" then
      Success(Some(SmallestBalanceTarget(ds)))
    else if strategy == "hybrid" then
      var bad := Ordering.Where(ds, HasUnscorableRate);
      if bad != [] then
        Failure(HybridScoreError(ds[bad[0]]))
      else
        assert forall j :: 0 <= j < |ds| ==> !HasUnscorableRate(ds[j]);
        Success(Some(LowestScoreTarget(ds)))
    else
      Success(Some(FirstActiveTarget(ds)))
  }

  // ---------------------------------------------------------------------
  // One month of a run, as values
  // ---------------------------------------------------------------------

  /** The state inside one month: the working debts, the running totals, the
      extra money still to place, and the month's record being built. */
  datatype Pass = Pass(
    debts: seq<DebtRec>,
    totalInterest: real,
    totalPayments: real,
    availableExtra: real,
    record: MonthRecord)

  /** The minimum-payment step for the debt at position `i`: if active, it
      accrues a month of interest, then `apply_payment` of its minimum
      accrues interest again and applies the payment; a payoff frees its
      minimum into the extra pool. */
  function MinStep(p: Pass, i: nat): (r: Pass)
    requires i < |p.debts|
    ensures |r.debts| == |p.debts|
    ensures forall j :: 0 <= j < |p.debts| && j != i ==> r.debts[j] == p.debts[j]
    ensures Evolves(p.debts[i], r.debts[i])
    ensures r.totalInterest - r.record.interestThisMonth == p.totalInterest - p.record.interestThisMonth
    ensures r.totalPayments == p.totalPayments + (if p.debts[i].status == ACTIVE then p.debts[i].minPayment else 0.0)
    ensures r.record.paymentsThisMonth
         == p.record.paymentsThisMonth + (if p.debts[i].status == ACTIVE then p.debts[i].minPayment else 0.0)
    ensures r.availableExtra == p.availableExtra
      + (if p.debts[i].status == ACTIVE && r.debts[i].status == PAID then p.debts[i].minPayment else 0.0)
    ensures |r.record.debts| == |p.record.debts| + (if p.debts[i].status == ACTIVE then 1 else 0)
  {
    var d := p.debts[i];
    if d.status != ACTIVE then p
    else
      var interest := MonthlyInterest(d);
      var accrued := d.(principal := d.principal + interest,
                        totalInterestPaid := d.totalInterestPaid + interest);
      var paid := Pay(accrued, accrued.minPayment).0;
      var paidOff := Pay(accrued, accrued.minPayment).1.paidOff.value;
      var rec := p.record.(
        totalBalance := p.record.totalBalance + accrued.principal,
        interestThisMonth := p.record.interestThisMonth + interest,
        paymentsThisMonth := p.record.paymentsThisMonth + d.minPayment,
        debts := p.record.debts + [DebtInfo(d.id, d.name, paid.principal, interest, d.minPayment, paid.status)],
        paidOffThisMonth := p.record.paidOffThisMonth + (if paidOff then [d.name] else []));
      Pass(p.debts[i := paid], p.totalInterest + interest, p.totalPayments + d.minPayment,
           if paidOff then p.availableExtra + d.minPayment else p.availableExtra, rec)
  }

  /** The minimum-payment loop over the first `k` debts, in list order. */
  function MinPass(p: Pass, k: nat): (r: Pass)
    requires k <= |p.debts|
    ensures |r.debts| == |p.debts|
  {
    if k == 0 then p else MinStep(MinPass(p, k - 1), k - 1)
  }

  /** The pass over the first `k` debts leaves the others alone and only
      lets each debt evolve. */
  lemma {:induction false} MinPassShape(p: Pass, k: nat)
    requires k <= |p.debts|
    ensures forall j :: k <= j < |p.debts| ==> MinPass(p, k).debts[j] == p.debts[j]
    ensures AllEvolve(p.debts, MinPass(p, k).debts)
  {
    if k == 0 {
      AllEvolveIntro(p.debts, p.debts);
    } else {
      MinPassShape(p, k - 1);
      var q := MinPass(p, k - 1);
      AllEvolveIntro(q.debts, MinStep(q, k - 1).debts);
      AllEvolveTransitive(p.debts, q.debts, MinStep(q, k - 1).debts);
    }
  }

  /** The whole extra pool paid to the debt at `t`: only that debt changes,
      the month's payments grow by the pool, and the pool then holds the
      debt's minimum if the payment retired it and nothing otherwise. */
  function PayExtra(p: Pass, t: nat): (r: Pass)
    requires t < |p.debts|
    ensures r.debts == p.debts[t := Pay(p.debts[t], p.availableExtra).0]
    ensures Evolves(p.debts[t], r.debts[t])
    ensures r.totalPayments == p.totalPayments + p.availableExtra
    ensures r.record.paymentsThisMonth == p.record.paymentsThisMonth + p.availableExtra
    ensures p.debts[t].status == ACTIVE ==>
      r.availableExtra == (if r.debts[t].status == PAID then p.debts[t].minPayment else 0.0)
  {
    var extra := p.availableExtra;
    var target := p.debts[t];
    var paid := Pay(target, extra).0;
    var paidOff := Pay(target, extra).1.paidOff == Some(true);
    var rec := p.record.(
      paymentsThisMonth := p.record.paymentsThisMonth + extra,
      totalBalance := p.record.totalBalance - extra,
      paidOffThisMonth := p.record.paidOffThisMonth + (if paidOff then [target.name] else []));
    Pass(p.debts[t := paid], p.totalInterest, p.totalPayments + extra,
         if paidOff then target.minPayment else 0.0, rec)
  }

  /** The pool holds the minimum of a debt that was active and is now paid. */
  predicate FreesMinimum(before: seq<DebtRec>, after: seq<DebtRec>, pool: real)
  {
    exists t :: 0 <= t < |before| && t < |after| && before[t].status == ACTIVE && after[t].status == PAID
                && pool == before[t].minPayment
  }

  /** The extra-payment step: when money is in the pool, the whole pool goes
      to the strategy's target; the pool then holds the target's minimum if
      that paid it off, and nothing otherwise. */
  function ExtraStep(p: Pass, strategy: string): (r: Result<Pass>)
    ensures p.availableExtra <= 0.0 ==> r == Success(p)
    ensures r.Failure? <==> p.availableExtra > 0.0 && TargetDebt(p.debts, strategy).Failure?
    ensures r.Success? ==>
      && |r.value.debts| == |p.debts|
      && AllEvolve(p.debts, r.value.debts)
      && r.value.totalInterest == p.totalInterest
      && r.value.record.interestThisMonth == p.record.interestThisMonth
      && r.value.totalPayments - r.value.record.paymentsThisMonth == p.totalPayments - p.record.paymentsThisMonth
      && r.value.record.month == p.record.month
      && r.value.record.dateOffsetDays == p.record.dateOffsetDays
      && r.value.record.debts == p.record.debts
    ensures r.Success? && p.availableExtra > 0.0 && ActiveIndices(p.debts) != [] ==>
      && r.value.totalPayments == p.totalPayments + p.availableExtra
      && (r.value.availableExtra == 0.0 || FreesMinimum(p.debts, r.value.debts, r.value.availableExtra))
    ensures p.availableExtra > 0.0 && TargetDebt(p.debts, strategy) == Success(None) ==> r == Success(p)
    ensures p.availableExtra > 0.0 && TargetDebt(p.debts, strategy).Success? && TargetDebt(p.debts, strategy).value.Some? ==>
      var t := TargetDebt(p.debts, strategy).value.value;
      && t < |p.debts|
      && r.Success?
      && r.value.debts == p.debts[t := Pay(p.debts[t], p.availableExtra).0]
      && r.value.availableExtra
         == (if p.availableExtra >= p.debts[t].principal + MonthlyInterest(p.debts[t]) then p.debts[t].minPayment else 0.0)
  {
    AllEvolveIntro(p.debts, p.debts);
    if p.availableExtra > 0.0 then
      match TargetDebt(p.debts, strategy)
      case Failure(e) => Failure(e)
      case Success(None) => Success(p)
      case Success(Some(t)) =>
        var q := PayExtra(p, t);
        AllEvolveIntro(p.debts, q.debts);
        assert q.availableExtra == 0.0 || FreesMinimum(p.debts, q.debts, q.availableExtra) by {
          if q.availableExtra != 0.0 {
            assert p.debts[t].status == ACTIVE && q.debts[t].status == PAID;
          }
        }
        Success(q)
    else
      Success(p)
  }

  /** The state between months: the working debts, the running totals, the
      extra pool carried to the next month, and the months recorded so far. */
  datatype RunState = RunState(
    debts: seq<DebtRec>,
    totalInterest: real,
    totalPayments: real,
    availableExtra: real,
    results: seq<MonthRecord>)

  /** Month `m` after its minimum payments. */
  function MinimumsOf(st: RunState, m: nat): (r: Pass)
    ensures |r.debts| == |st.debts|
  {
    MinPass(Pass(st.debts, st.totalInterest, st.totalPayments, st.availableExtra, EmptyMonth(m)), |st.debts|)
  }

  /** Month `m` (counting from 0): minimum payments, then the extra payment,
      then the month's record is appended. */
  function Month(st: RunState, m: nat, strategy: string): (r: Result<RunState>)
    ensures r.Success? ==>
      && |r.value.debts| == |st.debts|
      && AllEvolve(st.debts, r.value.debts)
      && |r.value.results| == |st.results| + 1
      && r.value.results[..|st.results|] == st.results
      && r.value.results[|st.results|].month == m + 1
      && r.value.results[|st.results|].dateOffsetDays == 30 * m
  {
    var afterMinimums := MinimumsOf(st, m);
    assert afterMinimums.record.month == m + 1 && afterMinimums.record.dateOffsetDays == 30 * m by {
      MinPassKeepsMonth(Pass(st.debts, st.totalInterest, st.totalPayments, st.availableExtra, EmptyMonth(m)),
                        |st.debts|);
    }
    match ExtraStep(afterMinimums, strategy)
    case Failure(e) => Failure(e)
    case Success(p) =>
      MinPassShape(Pass(st.debts, st.totalInterest, st.totalPayments, st.availableExtra, EmptyMonth(m)),
                   |st.debts|);
      AllEvolveTransitive(st.debts, afterMinimums.debts, p.debts);
      Success(RunState(p.debts, p.totalInterest, p.totalPayments, p.availableExtra, st.results + [p.record]))
  }

  lemma {:induction false} MinPassKeepsMonth(p: Pass, k: nat)
    requires k <= |p.debts|
    ensures MinPass(p, k).record.month == p.record.month
    ensures MinPass(p, k).record.dateOffsetDays == p.record.dateOffsetDays
  {
    if k > 0 {
      MinPassKeepsMonth(p, k - 1);
    }
  }

  /** The run from month `m` on: it stops at the horizon or at the first
      month that starts with no active debt. */
  function RunFrom(st: RunState, m: nat, horizon: int, strategy: string): (r: Result<RunState>)
    ensures r.Success? ==> AllEvolve(st.debts, r.value.debts)
    ensures r.Success? ==> |r.value.results| >= |st.results| && r.value.results[..|st.results|] == st.results
    decreases horizon - m
  {
    if m >= horizon || ActiveIndices(st.debts) == [] then
      AllEvolveIntro(st.debts, st.debts);
      assert st.results[..|st.results|] == st.results;
      Success(st)
    else
      match Month(st, m, strategy)
      case Failure(e) => Failure(e)
      case Success(next) =>
        var r := RunFrom(next, m + 1, horizon, strategy);
        if r.Success? then
          AllEvolveTransitive(st.debts, next.debts, r.value.debts);
          assert r.value.results[..|st.results|] == r.value.results[..|next.results|][..|st.results|];
          r
        else
          r
  }

  /** One iteration of the month loop, put together from its two steps. */
  lemma MonthFromSteps(st: RunState, m: nat, strategy: string, afterMinimums: Pass, p: Pass)
    requires afterMinimums == MinPass(Pass(st.debts, st.totalInterest, st.totalPayments, st.availableExtra,
                                           EmptyMonth(m)), |st.debts|)
    requires ExtraStep(afterMinimums, strategy) == Success(p)
    ensures Month(st, m, strategy)
         == Success(RunState(p.debts, p.totalInterest, p.totalPayments, p.availableExtra, st.results + [p.record]))
  {
  }

  lemma RunFromUnfold(st: RunState, m: nat, horizon: int, strategy: string, next: RunState)
    requires m < horizon && ActiveIndices(st.debts) != []
    requires Month(st, m, strategy) == Success(next)
    ensures RunFrom(st, m, horizon, strategy) == RunFrom(next, m + 1, horizon, strategy)
  {
  }

  function InitialState(debts: seq<DebtRec>, extraPayment: real): RunState
  {
    RunState(WorkingCopies(debts), 0.0, 0.0, extraPayment, [])
  }

  // ---------------------------------------------------------------------
  // The result of a run
  // ---------------------------------------------------------------------

  datatype Summary = Summary(
    monthsToZero: int,
    debtFreeDate: Option<int>,
    totalInterestPaid: real,
    totalPaymentsMade: real,
    interestSaved: real,
    strategyUsed: string)

  datatype SimulationResult = SimulationResult(
    results: seq<MonthRecord>,
    summary: Summary,
    finalDebts: seq<FinalDebt>)

  function FinalDebtOf(d: DebtRec): FinalDebt
  {
    FinalDebt(d.id, d.name, d.principal, d.totalInterestPaid, d.monthsPaid, d.status)
  }

  function Summarize(fin: RunState, strategy: string): SimulationResult
  {
    var n := |fin.results|;
    SimulationResult(
      fin.results,
      Summary(n, if n == 0 then None else Some(fin.results[n - 1].dateOffsetDays),
              fin.totalInterest, fin.totalPayments, 0.0, strategy),
      seq(|fin.debts|, k requires 0 <= k < |fin.debts| => FinalDebtOf(fin.debts[k])))
  }

  /** `run_simulation` on debt values. */
  function Simulate(debts: seq<DebtRec>, extraPayment: real, strategy: string, horizon: int): Result<SimulationResult>
  {
    match RunFrom(InitialState(debts, extraPayment), 0, horizon, strategy)
    case Failure(e) => Failure(e)
    case Success(fin) => Success(Summarize(fin, strategy))
  }

  /** The month loop stops at the horizon or once no debt is active. */
  lemma RunFromDone(st: RunState, m: nat, horizon: int, strategy: string)
    requires m >= horizon || ActiveIndices(st.debts) == []
    ensures RunFrom(st, m, horizon, strategy) == Success(st)
  {
  }

  /** `run_simulation` finishes with the summary of the final state of the
      month loop, or raises what the loop raised. */
  lemma SimulateSuccess(debts: seq<DebtRec>, extraPayment: real, strategy: string, horizon: int, fin: RunState)
    requires RunFrom(InitialState(debts, extraPayment), 0, horizon, strategy) == Success(fin)
    ensures Simulate(debts, extraPayment, strategy, horizon) == Success(Summarize(fin, strategy))
  {
  }

  lemma SimulateFailure(debts: seq<DebtRec>, extraPayment: real, strategy: string, horizon: int, e: string)
    requires RunFrom(InitialState(debts, extraPayment), 0, horizon, strategy) == Failure(e)
    ensures Simulate(debts, extraPayment, strategy, horizon) == Failure(e)
  {
  }

  /** `compare_strategies`: the three runs side by side. */
  datatype Comparison = Comparison(
    avalanche: SimulationResult,
    snowball: SimulationResult,
    hybrid: SimulationResult)

  function WithInterestSaved(res: SimulationResult, saved: real): SimulationResult
  {
    res.(summary := res.summary.(interestSaved := saved))
  }

  /** The `impact` part of `calculate_extra_payment_impact`, with both runs. */
  datatype ExtraImpact = ExtraImpact(
    base: SimulationResult,
    enhanced: SimulationResult,
    monthsSaved: int,
    interestSaved: real,
    newDebtFreeDate: Option<int>,
    roiPerRand: real)

  /** Dividing the float `interest_saved` by the Decimal `additional_extra`. */
  const ROI_TYPE_ERROR: string := "TypeError: unsupported operand type(s) for /: 'float' and 'decimal.Decimal'"

  /** The comparison built from the three runs: the first failing run's
      error, or the runs with the snowball and hybrid summaries recording
      how much interest avalanche saves over them. */
  function CompareRuns(avalanche: Result<SimulationResult>, snowball: Result<SimulationResult>,
                       hybrid: Result<SimulationResult>): (r: Result<Comparison>)
    ensures r.Success? <==> avalanche.Success? && snowball.Success? && hybrid.Success?
    ensures r.Success? ==>
      && r.value.avalanche == avalanche.value
      && WithInterestSaved(r.value.snowball, 0.0) == WithInterestSaved(snowball.value, 0.0)
      && WithInterestSaved(r.value.hybrid, 0.0) == WithInterestSaved(hybrid.value, 0.0)
      && r.value.snowball.summary.interestSaved + r.value.snowball.summary.totalInterestPaid
         == r.value.avalanche.summary.totalInterestPaid
      && r.value.hybrid.summary.interestSaved + r.value.hybrid.summary.totalInterestPaid
         == r.value.avalanche.summary.totalInterestPaid
  {
    if avalanche.Failure? then Failure(avalanche.error)
    else if snowball.Failure? then Failure(snowball.error)
    else if hybrid.Failure? then Failure(hybrid.error)
    else
      var avalancheInterest := avalanche.value.summary.totalInterestPaid;
      Success(Comparison(
        avalanche.value,
        WithInterestSaved(snowball.value, avalancheInterest - snowball.value.summary.totalInterestPaid),
        WithInterestSaved(hybrid.value, avalancheInterest - hybrid.value.summary.totalInterestPaid)))
  }

  /** The impact built from the base and the enhanced run: months and
      interest saved are the differences, the new debt-free date is the
      enhanced run's, and a positive additional extra raises. */
  function ImpactOfRuns(base: Result<SimulationResult>, enhanced: Result<SimulationResult>,
                              additionalExtra: real): (r: Result<ExtraImpact>)
    ensures base.Failure? ==> r == Failure(base.error)
    ensures base.Success? && enhanced.Failure? ==> r == Failure(enhanced.error)
    ensures base.Success? && enhanced.Success? && additionalExtra > 0.0 ==> r == Failure(ROI_TYPE_ERROR)
    ensures base.Success? && enhanced.Success? && additionalExtra <= 0.0 ==>
      && r.Success?
      && r.value.base == base.value && r.value.enhanced == enhanced.value
      && r.value.monthsSaved + enhanced.value.summary.monthsToZero == base.value.summary.monthsToZero
      && r.value.interestSaved + enhanced.value.summary.totalInterestPaid == base.value.summary.totalInterestPaid
      && r.value.newDebtFreeDate == enhanced.value.summary.debtFreeDate
      && r.value.roiPerRand == 0.0
  {
    if base.Failure? then Failure(base.error)
    else if enhanced.Failure? then Failure(enhanced.error)
    else if additionalExtra > 0.0 then Failure(ROI_TYPE_ERROR)
    else
      var b := base.value.summary;
      var e := enhanced.value.summary;
      Success(ExtraImpact(base.value, enhanced.value, b.monthsToZero - e.monthsToZero,
                          b.totalInterestPaid - e.totalInterestPaid, e.debtFreeDate, 0.0))
  }

  /** Comparing the strategies raises exactly when the hybrid run does. */
  lemma CompareFailsOnlyForHybrid(debts: seq<DebtRec>, extraPayment: real, horizon: int)
    ensures CompareRuns(Simulate(debts, extraPayment, "avalanche", horizon),
                        Simulate(debts, extraPayment, "snowball", horizon),
                        Simulate(debts, extraPayment, "hybrid", horizon)).Failure?
        <==> Simulate(debts, extraPayment, "hybrid", horizon).Failure?
  {
    SimulateFailsOnlyForHybrid(debts, extraPayment, "avalanche", horizon);
    SimulateFailsOnlyForHybrid(debts, extraPayment, "snowball", horizon);
  }

  /** `calculate_extra_payment_impact` on debt values: the run with the base
      extra against the run with the base plus the additional extra. */
  function ExtraPaymentImpact(debts: seq<DebtRec>, baseExtra: real, additionalExtra: real,
                              strategy: string, horizon: int): Result<ExtraImpact>
  {
    ImpactOfRuns(Simulate(debts, baseExtra, strategy, horizon),
                 Simulate(debts, TotalExtra(baseExtra, additionalExtra), strategy, horizon),
                 additionalExtra)
  }

  /** Only the hybrid score can raise: a run under any other strategy
      always finishes. */
  lemma {:induction false} RunFromSucceeds(st: RunState, m: nat, horizon: int, strategy: string)
    requires strategy != "hybrid"
    ensures RunFrom(st, m, horizon, strategy).Success?
    decreases horizon - m
  {
    if m < horizon && ActiveIndices(st.debts) != [] {
      var next := Month(st, m, strategy);
      assert next.Success?;
      RunFromSucceeds(next.value, m + 1, horizon, strategy);
    }
  }

  lemma SimulateFailsOnlyForHybrid(debts: seq<DebtRec>, extraPayment: real, strategy: string, horizon: int)
    ensures Simulate(debts, extraPayment, strategy, horizon).Failure? ==> strategy == "hybrid"
  {
    if strategy != "hybrid" {
      RunFromSucceeds(InitialState(debts, extraPayment), 0, horizon, strategy);
    }
  }

  // ---------------------------------------------------------------------
  // What a run guarantees
  // ---------------------------------------------------------------------

  /** The minimum due from the first `k` debts: each active debt's minimum. */
  function DueList(ds: seq<DebtRec>, k: nat): (r: seq<real>)
    requires k <= |ds|
    ensures |r| == k
    ensures forall j :: 0 <= j < k ==> r[j] == (if ds[j].status == ACTIVE then ds[j].minPayment else 0.0)
  {
    seq(k, j requires 0 <= j < k => if ds[j].status == ACTIVE then ds[j].minPayment else 0.0)
  }

  /** The minimums freed among the first `k` debts: those active before and
      paid after. */
  function FreedList(before: seq<DebtRec>, after: seq<DebtRec>, k: nat): (r: seq<real>)
    requires k <= |before| && |after| == |before|
    ensures |r| == k
    ensures forall j :: 0 <= j < k ==>
      r[j] == (if before[j].status == ACTIVE && after[j].status == PAID then before[j].minPayment else 0.0)
  {
    seq(k, j requires 0 <= j < k =>
      if before[j].status == ACTIVE && after[j].status == PAID then before[j].minPayment else 0.0)
  }

  /** Interest charged twice in one minimum-payment step: the step's own
      accrual, which the run totals count, and the accrual inside
      `apply_payment` on the already increased balance, which only the
      debt's own interest total records. */
  lemma MinStepChargesInterestTwice(p: Pass, i: nat)
    requires i < |p.debts| && p.debts[i].status == ACTIVE
    ensures var d := p.debts[i];
      var first := MonthlyInterest(d);
      var second := MonthlyInterest(d.(principal := d.principal + first));
      var r := MinStep(p, i);
      && r.debts[i].totalInterestPaid == d.totalInterestPaid + first + second
      && r.totalInterest == p.totalInterest + first
      && r.record.interestThisMonth == p.record.interestThisMonth + first
      && r.debts[i].monthsPaid == d.monthsPaid + 1
  {
    var d := p.debts[i];
    var first := MonthlyInterest(d);
    var accrued := d.(principal := d.principal + first, totalInterestPaid := d.totalInterestPaid + first);
    assert MonthlyInterest(accrued) == MonthlyInterest(d.(principal := d.principal + first));
  }

  /** The minimum-payment pass over the first `k` debts: every active debt
      pays its full minimum, and the totals and the month's record grow by
      the same interest and the same payments. */
  lemma {:induction false} MinPassPayments(p: Pass, k: nat)
    requires k <= |p.debts|
    ensures var r := MinPass(p, k);
      && r.totalInterest - r.record.interestThisMonth == p.totalInterest - p.record.interestThisMonth
      && r.totalPayments == p.totalPayments + Sum(DueList(p.debts, k))
      && r.record.paymentsThisMonth == p.record.paymentsThisMonth + Sum(DueList(p.debts, k))
  {
    if k > 0 {
      MinPassPayments(p, k - 1);
      MinPassShape(p, k - 1);
      assert DueList(p.debts, k)[..k - 1] == DueList(p.debts, k - 1);
      assert MinPass(p, k - 1).debts[k - 1] == p.debts[k - 1];
    } else {
      assert DueList(p.debts, 0) == [];
    }
  }

  /** Each payoff in the pass frees its minimum into the extra pool. */
  lemma {:induction false} MinPassFreed(p: Pass, k: nat)
    requires k <= |p.debts|
    ensures var r := MinPass(p, k);
      r.availableExtra == p.availableExtra + Sum(FreedList(p.debts, r.debts, k))
  {
    if k > 0 {
      MinPassFreed(p, k - 1);
      MinPassShape(p, k - 1);
      var q := MinPass(p, k - 1);
      var r := MinStep(q, k - 1);
      var fr, fq := FreedList(p.debts, r.debts, k), FreedList(p.debts, q.debts, k - 1);
      assert fr[..k - 1] == fq by {
        forall j | 0 <= j < k - 1 ensures fr[j] == fq[j] {
          assert r.debts[j] == q.debts[j];
        }
      }
      assert q.debts[k - 1] == p.debts[k - 1];
    } else {
      assert FreedList(p.debts, p.debts, 0) == [];
    }
  }

  /** The month's record gets one entry per active debt. */
  lemma {:induction false} MinPassEntries(p: Pass, k: nat)
    requires k <= |p.debts|
    ensures |MinPass(p, k).record.debts| == |p.record.debts| + |ActiveIndices(p.debts[..k])|
  {
    if k > 0 {
      MinPassEntries(p, k - 1);
      MinPassShape(p, k - 1);
      assert p.debts[..k][..k - 1] == p.debts[..k - 1];
      assert MinPass(p, k - 1).debts[k - 1] == p.debts[k - 1];
    }
  }

  /** The extra pool of a month: it is the pool carried in plus the minimums
      freed by the month's payoffs; a positive pool is paid whole to the
      target, after which the pool holds nothing or the minimum of the debt
      it paid off, so money carried in is not carried out again. */
  lemma ExtraPoolAfterMonth(st: RunState, m: nat, strategy: string)
    requires Month(st, m, strategy).Success?
    ensures var next := Month(st, m, strategy).value;
      var mid := MinimumsOf(st, m);
      && mid.availableExtra == st.availableExtra + Sum(FreedList(st.debts, mid.debts, |st.debts|))
      && (mid.availableExtra <= 0.0 ==> next.availableExtra == mid.availableExtra)
      && (mid.availableExtra > 0.0 && ActiveIndices(mid.debts) != [] ==>
            && next.totalPayments == mid.totalPayments + mid.availableExtra
            && (next.availableExtra == 0.0 || FreesMinimum(st.debts, next.debts, next.availableExtra)))
      && (mid.availableExtra > 0.0 && TargetDebt(mid.debts, strategy).Success? && TargetDebt(mid.debts, strategy).value.Some? ==>
            var t := TargetDebt(mid.debts, strategy).value.value;
            && t < |mid.debts|
            && next.debts == mid.debts[t := Pay(mid.debts[t], mid.availableExtra).0]
            && next.availableExtra
               == (if mid.availableExtra >= mid.debts[t].principal + MonthlyInterest(mid.debts[t])
                   then mid.debts[t].minPayment else 0.0))
  {
    var start := Pass(st.debts, st.totalInterest, st.totalPayments, st.availableExtra, EmptyMonth(m));
    MinPassFreed(start, |st.debts|);
    var mid := MinimumsOf(st, m);
    var next := Month(st, m, strategy).value;
    if mid.availableExtra > 0.0 && ActiveIndices(mid.debts) != [] && next.availableExtra != 0.0 {
      var t :| 0 <= t < |mid.debts| && t < |next.debts| && mid.debts[t].status == ACTIVE
               && next.debts[t].status == PAID && next.availableExtra == mid.debts[t].minPayment;
      MinPassShape(start, |st.debts|);
      AllEvolveAt(st.debts, mid.debts, t);
      assert st.debts[t].status == ACTIVE && st.debts[t].minPayment == mid.debts[t].minPayment;
    }
  }

  /** A month adds its own interest and payments to the run totals, and its
      record has one entry per debt active when the month began. */
  lemma MonthAccounting(st: RunState, m: nat, strategy: string)
    requires Month(st, m, strategy).Success?
    ensures var next := Month(st, m, strategy).value;
      var rec := next.results[|st.results|];
      && next.totalInterest == st.totalInterest + rec.interestThisMonth
      && next.totalPayments == st.totalPayments + rec.paymentsThisMonth
      && |rec.debts| == |ActiveIndices(st.debts)|
  {
    var start := Pass(st.debts, st.totalInterest, st.totalPayments, st.availableExtra, EmptyMonth(m));
    MinPassPayments(start, |st.debts|);
    MinPassEntries(start, |st.debts|);
    assert st.debts[..|st.debts|] == st.debts;
  }

  /** The months recorded so far are numbered from 1, dated 30 days apart
      from the start, and each began with an active debt. */
  predicate WellNumbered(rs: seq<MonthRecord>)
  {
    forall k :: 0 <= k < |rs| ==> rs[k].month == k + 1 && rs[k].dateOffsetDays == 30 * k && rs[k].debts != []
  }

  predicate TotalsMatch(st: RunState)
  {
    st.totalInterest == Sum(MonthlyInterests(st.results)) && st.totalPayments == Sum(MonthlyPayments(st.results))
  }

  /** A month that starts with month `m` recorded adds a month numbered
      `m + 1`, dated `30 * m` days on, with an entry per active debt; its
      interest and payments are added to the totals. */
  lemma MonthKeepsRecords(st: RunState, m: nat, strategy: string)
    requires |st.results| == m && WellNumbered(st.results) && TotalsMatch(st)
    requires ActiveIndices(st.debts) != [] && Month(st, m, strategy).Success?
    ensures WellNumbered(Month(st, m, strategy).value.results) && TotalsMatch(Month(st, m, strategy).value)
  {
    var next := Month(st, m, strategy).value;
    MonthAccounting(st, m, strategy);
    SumsOfAppendedMonth(st.results, next.results);
    forall k | 0 <= k < m ensures next.results[k] == st.results[k] {
      assert next.results[..m][k] == next.results[k];
    }
  }

  /** A run from month `m` adds months only up to the horizon and stops
      early only once no debt is active. */
  lemma {:induction false} RunFromStops(st: RunState, m: nat, horizon: int, strategy: string)
    requires |st.results| == m && RunFrom(st, m, horizon, strategy).Success?
    ensures var fin := RunFrom(st, m, horizon, strategy).value;
      && (|fin.results| > m ==> |fin.results| <= horizon)
      && (|fin.results| < horizon ==> ActiveIndices(fin.debts) == [])
    decreases horizon - m
  {
    if m < horizon && ActiveIndices(st.debts) != [] {
      var next := Month(st, m, strategy).value;
      RunFromStops(next, m + 1, horizon, strategy);
      RunFromUnfold(st, m, horizon, strategy, next);
    }
  }

  /** A run from month `m` keeps the months numbered and the totals equal
      to the sums over the months. */
  lemma {:induction false} RunFromRecords(st: RunState, m: nat, horizon: int, strategy: string)
    requires |st.results| == m && WellNumbered(st.results) && TotalsMatch(st)
    requires RunFrom(st, m, horizon, strategy).Success?
    ensures WellNumbered(RunFrom(st, m, horizon, strategy).value.results)
    ensures TotalsMatch(RunFrom(st, m, horizon, strategy).value)
    decreases horizon - m
  {
    if m < horizon && ActiveIndices(st.debts) != [] {
      var next := Month(st, m, strategy).value;
      MonthKeepsRecords(st, m, strategy);
      RunFromRecords(next, m + 1, horizon, strategy);
      RunFromUnfold(st, m, horizon, strategy, next);
    }
  }

  /** What a whole run guarantees about its months and its debts. */
  lemma SimulateRun(debts: seq<DebtRec>, extraPayment: real, strategy: string, horizon: int)
    requires Simulate(debts, extraPayment, strategy, horizon).Success?
    ensures RunFrom(InitialState(debts, extraPayment), 0, horizon, strategy).Success?
    ensures var fin := RunFrom(InitialState(debts, extraPayment), 0, horizon, strategy).value;
      && WellNumbered(fin.results) && TotalsMatch(fin)
      && (|fin.results| > 0 ==> |fin.results| <= horizon)
      && (|fin.results| < horizon ==> ActiveIndices(fin.debts) == [])
      && |fin.debts| == |debts|
      && AllEvolve(WorkingCopies(debts), fin.debts)
  {
    var init := InitialState(debts, extraPayment);
    assert MonthlyInterests([]) == [] && MonthlyPayments([]) == [];
    RunFromStops(init, 0, horizon, strategy);
    RunFromRecords(init, 0, horizon, strategy);
  }

  /** The months of a finished run: at most `horizon`, ending early only once
      no debt is active, and none at all when no debt starts active; numbered
      from 1 and 30 days apart, each with an entry per active debt. The months
      to zero is the number of months recorded, the debt-free date is the
      last month's date, and the totals are the sums over the months. */
  lemma SimulateMonths(debts: seq<DebtRec>, extraPayment: real, strategy: string, horizon: int)
    requires Simulate(debts, extraPayment, strategy, horizon).Success?
    ensures var res := Simulate(debts, extraPayment, strategy, horizon).value;
      var n := |res.results|;
      && (n > 0 ==> n <= horizon)
      && ((forall j :: 0 <= j < |debts| ==> debts[j].status != ACTIVE) ==> n == 0)
      && (n < horizon ==> forall j :: 0 <= j < |res.finalDebts| ==> res.finalDebts[j].status != ACTIVE)
      && (forall k :: 0 <= k < n ==>
            res.results[k].month == k + 1 && res.results[k].dateOffsetDays == 30 * k && res.results[k].debts != [])
      && res.summary.monthsToZero == n
      && res.summary.debtFreeDate == (if n == 0 then None else Some(30 * (n - 1)))
      && res.summary.totalInterestPaid == Sum(MonthlyInterests(res.results))
      && res.summary.totalPaymentsMade == Sum(MonthlyPayments(res.results))
      && res.summary.interestSaved == 0.0 && res.summary.strategyUsed == strategy
  {
    SimulateRun(debts, extraPayment, strategy, horizon);
    var init := InitialState(debts, extraPayment);
    var fin := RunFrom(init, 0, horizon, strategy).value;
    var res := Summarize(fin, strategy);
    assert Simulate(debts, extraPayment, strategy, horizon).value == res;
    assert res.results == fin.results;
    assert forall j :: 0 <= j < |res.finalDebts| ==> res.finalDebts[j].status == fin.debts[j].status;
    if forall j :: 0 <= j < |debts| ==> debts[j].status != ACTIVE {
      NoActiveDebt(init.debts);
    }
  }

  /** The debts of a finished run: a debt that was not active is reported as
      given, with no interest and no months paid; an active one ends active
      or paid, with a zero balance once paid and a balance that does not
      turn negative. */
  lemma SimulateFinalDebts(debts: seq<DebtRec>, extraPayment: real, strategy: string, horizon: int)
    requires Simulate(debts, extraPayment, strategy, horizon).Success?
    ensures var res := Simulate(debts, extraPayment, strategy, horizon).value;
      && |res.finalDebts| == |debts|
      && (forall j :: 0 <= j < |debts| ==>
            var f := res.finalDebts[j];
            && f.id == debts[j].id && f.name == debts[j].name
            && (debts[j].status != ACTIVE ==>
                  f == FinalDebt(debts[j].id, debts[j].name, debts[j].principal, 0.0, 0, debts[j].status))
            && (debts[j].status == ACTIVE ==>
                  && (f.status == ACTIVE || f.status == PAID)
                  && (f.status == PAID ==> f.finalBalance == 0.0)
                  && (debts[j].principal >= 0.0 ==> f.finalBalance >= 0.0)))
  {
    SimulateRun(debts, extraPayment, strategy, horizon);
    var fin := RunFrom(InitialState(debts, extraPayment), 0, horizon, strategy).value;
    var res := Summarize(fin, strategy);
    assert Simulate(debts, extraPayment, strategy, horizon) == Success(res);
    forall j | 0 <= j < |debts|
      ensures var f := res.finalDebts[j];
            && f.id == debts[j].id && f.name == debts[j].name
            && (debts[j].status != ACTIVE ==>
                  f == FinalDebt(debts[j].id, debts[j].name, debts[j].principal, 0.0, 0, debts[j].status))
            && (debts[j].status == ACTIVE ==>
                  && (f.status == ACTIVE || f.status == PAID)
                  && (f.status == PAID ==> f.finalBalance == 0.0)
                  && (debts[j].principal >= 0.0 ==> f.finalBalance >= 0.0))
    {
      AllEvolveAt(WorkingCopies(debts), fin.debts, j);
      assert res.finalDebts[j] == FinalDebtOf(fin.debts[j]);
    }
  }

  // ---------------------------------------------------------------------
  // The engine object
  // ---------------------------------------------------------------------

  /** The debt objects hold the debt values, one by one. */
  predicate Mirrors(ws: seq<Debt>, ds: seq<DebtRec>)
    reads ws
  {
    |ws| == |ds| && forall k :: 0 <= k < |ws| ==> ws[k].Snap() == ds[k]
  }

  lemma MirrorsSnapshots(ws: seq<Debt>, ds: seq<DebtRec>)
    requires Mirrors(ws, ds)
    ensures Snapshots(ws) == ds
  {
  }

  /** Builds the working copies of a run with the `Debt` constructor. */
  method CopyDebts(debts: seq<Debt>) returns (working: seq<Debt>)
    ensures |working| == |debts|
    ensures forall k :: 0 <= k < |working| ==> fresh(working[k])
    ensures AllDistinct(working)
    ensures Mirrors(working, WorkingCopies(old(Snapshots(debts))))
  {
    working := [];
    var i := 0;
    while i < |debts|
      invariant 0 <= i <= |debts| && |working| == i
      invariant forall k :: 0 <= k < i ==> fresh(working[k])
      invariant AllDistinct(working)
      invariant forall k :: 0 <= k < i ==> working[k].Snap() == WorkingCopy(debts[k].Snap())
    {
      var d := debts[i];
      var copy := new Debt(d.id, d.name, d.principal, d.apr, d.minPayment,
                           d.paymentFrequency, d.compounding, d.status);
      working := working + [copy];
      i := i + 1;
    }
  }

  /** The body of the minimum-payment loop for the debt object at `i`. */
  method MinimumPaymentStep(working: seq<Debt>, i: nat, p: Pass) returns (q: Pass)
    requires i < |working| && AllDistinct(working)
    requires Mirrors(working, p.debts)
    modifies working[i]
    ensures q == MinStep(p, i)
    ensures Mirrors(working, q.debts)
  {
    var debt := working[i];
    if debt.status != ACTIVE {
      return p;
    }
    ghost var d := debt.Snap();
    var totalInterest, totalPayments, availableExtra, record :=
      p.totalInterest, p.totalPayments, p.availableExtra, p.record;
    var interest := debt.CalculateMonthlyInterest();
    debt.principal := debt.principal + interest;
    debt.totalInterestPaid := debt.totalInterestPaid + interest;
    totalInterest := totalInterest + interest;
    record := record.(interestThisMonth := record.interestThisMonth + interest,
                      totalBalance := record.totalBalance + debt.principal);
    ghost var accrued := debt.Snap();
    assert accrued == d.(principal := d.principal + interest, totalInterestPaid := d.totalInterestPaid + interest);
    var paymentResult := debt.ApplyPayment(debt.minPayment);
    record := record.(paymentsThisMonth := record.paymentsThisMonth + debt.minPayment);
    totalPayments := totalPayments + debt.minPayment;
    record := record.(debts := record.debts + [DebtInfo(debt.id, debt.name, debt.principal, interest,
                                                        debt.minPayment, debt.status)]);
    if paymentResult.paidOff.value {
      record := record.(paidOffThisMonth := record.paidOffThisMonth + [debt.name]);
      availableExtra := availableExtra + debt.minPayment;
    }
    q := Pass(p.debts[i := debt.Snap()], totalInterest, totalPayments, availableExtra, record);
  }

  /** The minimum-payment loop of one month, on the working debt objects. */
  method ApplyMinimumPayments(working: seq<Debt>, p: Pass) returns (q: Pass)
    requires AllDistinct(working)
    requires Mirrors(working, p.debts)
    modifies working
    ensures q == MinPass(p, |working|)
    ensures Mirrors(working, q.debts)
  {
    q := p;
    var i := 0;
    while i < |working|
      invariant 0 <= i <= |working|
      invariant q == MinPass(p, i)
      invariant Mirrors(working, q.debts)
    {
      q := MinimumPaymentStep(working, i, q);
      i := i + 1;
    }
  }

  /** Paying the extra pool to the debt object at `t`. */
  method PayExtraTo(working: seq<Debt>, t: nat, p: Pass) returns (q: Pass)
    requires t < |working| && AllDistinct(working)
    requires Mirrors(working, p.debts)
    requires working[t].status == ACTIVE
    modifies working[t]
    ensures q == PayExtra(p, t)
    ensures Mirrors(working, q.debts)
  {
    var debt := working[t];
    var extra := p.availableExtra;
    var record := p.record;
    var extraResult := debt.ApplyPayment(extra);
    record := record.(paymentsThisMonth := record.paymentsThisMonth + extra);
    var totalPayments := p.totalPayments + extra;
    record := record.(totalBalance := record.totalBalance - extra);
    var availableExtra;
    if extraResult.paidOff.value {
      record := record.(paidOffThisMonth := record.paidOffThisMonth + [debt.name]);
      availableExtra := debt.minPayment;
    } else {
      availableExtra := 0.0;
    }
    q := Pass(p.debts[t := debt.Snap()], p.totalInterest, totalPayments, availableExtra, record);
  }

  /** The extra-payment step of one month, on the working debt objects. */
  method ApplyExtraPayment(working: seq<Debt>, strategy: string, p: Pass) returns (r: Result<Pass>)
    requires AllDistinct(working)
    requires Mirrors(working, p.debts)
    modifies working
    ensures r == ExtraStep(p, strategy)
    ensures r.Success? ==> Mirrors(working, r.value.debts)
  {
    if p.availableExtra <= 0.0 {
      return Success(p);
    }
    MirrorsSnapshots(working, p.debts);
    var target := TargetDebt(Snapshots(working), strategy);
    if target.Failure? {
      return Failure(target.error);
    }
    if target.value.None? {
      return Success(p);
    }
    var q := PayExtraTo(working, target.value.value, p);
    r := Success(q);
  }

  /** One month of `run_simulation` on the working debt objects, which hold
      `ds`: the minimum payments, then the extra payment; the month's record
      is the result's `record`. */
  method SimulateMonth(working: seq<Debt>, ghost ds: seq<DebtRec>, month: nat, strategy: string,
                       totalInterest: real, totalPayments: real, availableExtra: real)
    returns (r: Result<Pass>)
    requires AllDistinct(working) && Mirrors(working, ds)
    modifies working
    ensures r == ExtraStep(MinPass(Pass(ds, totalInterest, totalPayments, availableExtra, EmptyMonth(month)),
                                   |working|), strategy)
    ensures r.Success? ==> Mirrors(working, r.value.debts)
  {
    MirrorsSnapshots(working, ds);
    var start := Pass(Snapshots(working), totalInterest, totalPayments, availableExtra, EmptyMonth(month));
    var afterMinimums := ApplyMinimumPayments(working, start);
    r := ApplyExtraPayment(working, strategy, afterMinimums);
  }

  /** One pass of the month loop of `run_simulation` on debt objects holding
      `ds`: the run from month `month` on is the run from the next month on,
      or the failure raised. */
  method RunMonth(working: seq<Debt>, ghost ds: seq<DebtRec>, month: nat, horizon: int, strategy: string,
                  totalInterest: real, totalPayments: real, availableExtra: real, results: seq<MonthRecord>)
    returns (r: Result<RunState>)
    requires AllDistinct(working) && Mirrors(working, ds)
    requires month < horizon && ActiveIndices(ds) != []
    modifies working
    ensures r.Success? ==> Mirrors(working, r.value.debts)
    ensures r.Success? ==>
      RunFrom(RunState(ds, totalInterest, totalPayments, availableExtra, results), month, horizon, strategy)
      == RunFrom(r.value, month + 1, horizon, strategy)
    ensures r.Failure? ==>
      RunFrom(RunState(ds, totalInterest, totalPayments, availableExtra, results), month, horizon, strategy)
      == Failure(r.error)
  {
    ghost var cur := RunState(ds, totalInterest, totalPayments, availableExtra, results);
    var extra := SimulateMonth(working, ds, month, strategy, totalInterest, totalPayments, availableExtra);
    if extra.Failure? {
      return Failure(extra.error);
    }
    var p := extra.value;
    r := Success(RunState(p.debts, p.totalInterest, p.totalPayments, p.availableExtra, results + [p.record]));
    MonthFromSteps(cur, month, strategy, MinPass(Pass(ds, totalInterest, totalPayments,
                                                      availableExtra, EmptyMonth(month)), |ds|), p);
    RunFromUnfold(cur, month, horizon, strategy, r.value);
  }

  class SimulationEngine {
    const maxHorizonMonths: int

    constructor (maxHorizonYears: int)
      ensures maxHorizonMonths == maxHorizonYears * 12
    {
      maxHorizonMonths := maxHorizonYears * 12;
    }

    /** `run_simulation` on the debts as they are at the call; the method
        allocates the copies it changes and changes nothing else. */
    method RunSimulation(debts: seq<Debt>, extraPayment: real, strategy: string)
      returns (r: Result<SimulationResult>)
      ensures r == Simulate(old(Snapshots(debts)), extraPayment, strategy, maxHorizonMonths)
    {
      ghost var given := Snapshots(debts);
      var working := CopyDebts(debts);
      var totalInterest, totalPayments, availableExtra := 0.0, 0.0, extraPayment;
      var results: seq<MonthRecord> := [];
      ghost var ds := WorkingCopies(given);
      ghost var run := RunFrom(InitialState(given, extraPayment), 0, maxHorizonMonths, strategy);
      var month := 0;
      while month < maxHorizonMonths
        invariant 0 <= month
        invariant forall k :: 0 <= k < |working| ==> fresh(working[k])
        invariant AllDistinct(working) && Mirrors(working, ds)
        invariant run == RunFrom(RunState(ds, totalInterest, totalPayments, availableExtra, results),
                                 month, maxHorizonMonths, strategy)
        decreases maxHorizonMonths - month
      {
        MirrorsSnapshots(working, ds);
        if ActiveIndices(Snapshots(working)) == [] {
          break;
        }
        var next := RunMonth(working, ds, month, maxHorizonMonths, strategy,
                             totalInterest, totalPayments, availableExtra, results);
        if next.Failure? {
          SimulateFailure(given, extraPayment, strategy, maxHorizonMonths, next.error);
          return Failure(next.error);
        }
        ds := next.value.debts;
        totalInterest, totalPayments, availableExtra, results :=
          next.value.totalInterest, next.value.totalPayments, next.value.availableExtra, next.value.results;
        month := month + 1;
      }
      MirrorsSnapshots(working, ds);
      var fin := RunState(Snapshots(working), totalInterest, totalPayments, availableExtra, results);
      RunFromDone(fin, month, maxHorizonMonths, strategy);
      SimulateSuccess(given, extraPayment, strategy, maxHorizonMonths, fin);
      r := Success(Summarize(fin, strategy));
    }

    /** `compare_strategies`: avalanche, snowball and hybrid runs on the same
        debts, then the interest avalanche saves over the other two. */
    method CompareStrategies(debts: seq<Debt>, extraPayment: real) returns (r: Result<Comparison>)
      ensures r == CompareRuns(Simulate(Snapshots(debts), extraPayment, "avalanche", maxHorizonMonths),
                               Simulate(Snapshots(debts), extraPayment, "snowball", maxHorizonMonths),
                               Simulate(Snapshots(debts), extraPayment, "hybrid", maxHorizonMonths))
    {
      var avalanche := RunSimulation(debts, extraPayment, "avalanche");
      var snowball := RunSimulation(debts, extraPayment, "snowball");
      var hybrid := RunSimulation(debts, extraPayment, "hybrid");
      r := CompareRuns(avalanche, snowball, hybrid);
    }

    /** `calculate_extra_payment_impact`: a run with the base extra and, when
        that one finishes, one with the base plus the additional extra; the
        impact is then read off the two results. */
    method CalculateExtraPaymentImpact(debts: seq<Debt>, baseExtra: real, additionalExtra: real, strategy: string)
      returns (r: Result<ExtraImpact>)
      ensures r == ExtraPaymentImpact(Snapshots(debts), baseExtra, additionalExtra, strategy, maxHorizonMonths)
    {
      var base := RunSimulation(debts, baseExtra, strategy);
      if base.Failure? {
        return Failure(base.error);
      }
      var enhanced := RunSimulation(debts, TotalExtra(baseExtra, additionalExtra), strategy);
      r := ImpactOfRuns(base, enhanced, additionalExtra);
    }
  }
}
